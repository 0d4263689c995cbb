/** The farm economy of the current revision (src/farm.rs): the crop catalog,
    the field state machine and the farm aggregate that gates every change on
    a bounds check or a funds check. Money is a real number (the source's f64
    without rounding), timestamps are milliseconds, and the clock read inside
    the harvest operation is a `now` parameter. */
module Farming {
  import opened Util

  /** The closed catalog of crop kinds. */
  datatype Crop = Wheat | Potato | Carrot {

    /** Position in declaration order, the order the shop lists crops in. */
    function Ordinal(): (i: nat)
      ensures i < 3
    {
      match this
      case Wheat => 0
      case Potato => 1
      case Carrot => 2
    }

    /** What a new field of this crop costs. */
    function NewFieldPrice(): (p: real)
      ensures p >= 10.0
    {
      match this
      case Wheat => 10.0
      case Potato => 100.0
      case Carrot => 1000.0
    }

    /** What planting a field of this crop costs each time. */
    function PlantingPrice(): (p: real)
      ensures 0.0 < p < NewFieldPrice()
    {
      match this
      case Wheat => 1.0
      case Potato => 20.0
      case Carrot => 50.0
    }

    /** The highest level a field of this crop can reach. */
    function MaxLevel(): (n: nat)
      ensures n > 1
    {
      match this
      case Wheat => 5
      case Potato => 10
      case Carrot => 20
    }

    /** The per-level growth factor, the same for every crop in this revision. */
    function LevelMultiplier(): (m: real)
      ensures 0.0 < m < 1.0
    {
      0.5
    }

    /** Milliseconds a planted field needs before it can be harvested. */
    function GrowTime(): (t: nat)
      ensures t > 0 && t % 1000 == 0
    {
      var seconds := match this
        case Wheat => 100
        case Potato => 300
        case Carrot => 1000;
      SecondsToMillis(seconds)
    }

    /** The harvest value of a level-0 field. */
    function Payout(): (p: real)
      ensures p > 0.0
    {
      match this
      case Wheat => 1.0
      case Potato => 10.0
      case Carrot => 100.0
    }

    /** Price of raising a field of this crop from `level` to the next level:
        ten planting prices, scaled by half the multiplier and by the level. */
    function NextLevelPrice(level: nat): (p: real)
      ensures p >= 0.0
      ensures level > 0 <==> p > 0.0
    {
      var basePrice := PlantingPrice() * 10.0;
      var levelMultiplier := LevelMultiplier() / 2.0;
      basePrice * (levelMultiplier * level as real)
    }
  }

  /** The catalog grows dearer and richer in declaration order: each later crop
      costs more to buy and to plant, caps higher, grows longer and pays more. */
  lemma CatalogOrdered(a: Crop, b: Crop)
    requires a.Ordinal() < b.Ordinal()
    ensures a.NewFieldPrice() < b.NewFieldPrice()
    ensures a.PlantingPrice() < b.PlantingPrice()
    ensures a.MaxLevel() < b.MaxLevel()
    ensures a.GrowTime() < b.GrowTime()
    ensures a.Payout() < b.Payout()
  {
  }

  /** The level-up price strictly increases with the level. */
  lemma NextLevelPriceStrictlyIncreasing(c: Crop, l1: nat, l2: nat)
    requires l1 < l2
    ensures c.NextLevelPrice(l1) < c.NextLevelPrice(l2)
  {
  }

  /** `b` raised to the natural power `n` (the source's `powi`). */
  function Pow(b: real, n: nat): real
  {
    if n == 0 then 1.0 else b * Pow(b, n - 1)
  }

  lemma {:induction false} PowAtLeastOne(b: real, n: nat)
    requires b >= 1.0
    ensures Pow(b, n) >= 1.0
  {
    if n > 0 {
      PowAtLeastOne(b, n - 1);
      assert b * Pow(b, n - 1) >= 1.0 * Pow(b, n - 1);
    }
  }

  lemma {:induction false} PowStrictlyIncreasing(b: real, m: nat, n: nat)
    requires b > 1.0 && m < n
    ensures Pow(b, m) < Pow(b, n)
  {
    PowAtLeastOne(b, n - 1);
    assert Pow(b, n - 1) < b * Pow(b, n - 1);
    if m < n - 1 {
      PowStrictlyIncreasing(b, m, n - 1);
    }
  }

  /** A plot bound to one crop: its level and, while growing, when it was planted. */
  class Field {
    var crop: Crop
    var level: nat
    var plantTimestamp: Option<nat>

    /** The level stays within 1..MaxLevel. */
    ghost predicate Valid()
      reads this
    {
      1 <= level <= crop.MaxLevel()
    }

    /** A freshly bought field: level 1 and not planted. */
    constructor (crop: Crop)
      ensures this.crop == crop && level == 1 && plantTimestamp == None
      ensures Valid()
    {
      this.crop := crop;
      level := 1;
      plantTimestamp := None;
    }

    /** The price of the next level, or MaxLevelReached at the cap. */
    function LevelUpPrice(): (r: Result<real>)
      reads this
      ensures r.Err? <==> level >= crop.MaxLevel()
      ensures r.Err? ==> r.error == MaxLevelReached
      ensures r.Ok? ==> r.value == crop.NextLevelPrice(level)
      ensures r.Ok? && level > 0 ==> r.value > 0.0
    {
      if level >= crop.MaxLevel() then Err(MaxLevelReached)
      else Ok(crop.NextLevelPrice(level))
    }

    /** Raises the level by one, or fails at the cap and changes nothing. */
    method LevelUp() returns (r: Result<()>)
      modifies this
      ensures crop == old(crop) && plantTimestamp == old(plantTimestamp)
      ensures r.Err? <==> old(LevelUpPrice()).Err?
      ensures r.Err? ==> r.error == MaxLevelReached && level == old(level)
      ensures r.Ok? ==> level == old(level) + 1 && Earnings() > old(Earnings())
      ensures old(Valid()) ==> Valid()
    {
      if level >= crop.MaxLevel() {
        return Err(MaxLevelReached);
      }
      level := level + 1;
      EarningsGrowWithLevel(crop, level - 1, level);
      return Ok(());
    }

    /** True while the field is growing. */
    predicate Planted()
      reads this
      ensures Planted() <==> plantTimestamp != None
    {
      plantTimestamp.Some?
    }

    /** Starts growing at `timestamp`, or fails with AlreadyPlanted and changes nothing. */
    method Plant(timestamp: nat) returns (r: Result<()>)
      modifies this
      ensures crop == old(crop) && level == old(level)
      ensures r.Err? <==> old(Planted())
      ensures r.Err? ==> r.error == AlreadyPlanted && plantTimestamp == old(plantTimestamp)
      ensures r.Ok? ==> plantTimestamp == Some(timestamp)
    {
      if Planted() {
        return Err(AlreadyPlanted);
      }
      plantTimestamp := Some(timestamp);
      return Ok(());
    }

    /** Milliseconds left until the field can be harvested, clamped at zero. */
    function TimeToFarm(now: nat): (left: nat)
      reads this
      requires Planted() && now >= plantTimestamp.value
      ensures left <= crop.GrowTime()
      ensures left == 0 <==> now >= plantTimestamp.value + crop.GrowTime()
      ensures left > 0 ==> now + left == plantTimestamp.value + crop.GrowTime()
    {
      var elapsed := now - plantTimestamp.value;
      if elapsed <= crop.GrowTime() then crop.GrowTime() - elapsed else 0
    }

    /** Harvests at time `now`: fails with AlreadyFarmed when not planted, with
        NotYetReady before maturity, and otherwise clears the planting time. */
    method Harvest(now: nat) returns (r: Result<()>)
      requires Planted() ==> now >= plantTimestamp.value
      modifies this
      ensures crop == old(crop) && level == old(level)
      ensures !old(Planted()) ==> r == Err(AlreadyFarmed)
      ensures old(Planted()) && now < old(plantTimestamp.value) + crop.GrowTime() ==> r == Err(NotYetReady)
      ensures r.Err? ==> plantTimestamp == old(plantTimestamp)
      ensures r.Ok? <==> old(Planted()) && now >= old(plantTimestamp.value) + crop.GrowTime()
      ensures r.Ok? ==> plantTimestamp == None
    {
      if !Planted() {
        return Err(AlreadyFarmed);
      }
      if TimeToFarm(now) > 0 {
        return Err(NotYetReady);
      }
      plantTimestamp := None;
      return Ok(());
    }

    /** What a harvest yields: the payout compounded by (1 + multiplier) per level. */
    function Earnings(): (e: real)
      reads this
      ensures e >= crop.Payout() > 0.0
      ensures level > 0 ==> e >= crop.Payout() * (1.0 + crop.LevelMultiplier())
    {
      PowAtLeastOne(1.0 + crop.LevelMultiplier(), level);
      if level > 0 then
        PowAtLeastOne(1.0 + crop.LevelMultiplier(), level - 1);
        crop.Payout() * Pow(1.0 + crop.LevelMultiplier(), level)
      else
        crop.Payout() * Pow(1.0 + crop.LevelMultiplier(), level)
    }
  }

  /** Harvest value strictly increases with the level. */
  lemma EarningsGrowWithLevel(c: Crop, l1: nat, l2: nat)
    requires l1 < l2
    ensures c.Payout() * Pow(1.0 + c.LevelMultiplier(), l1) < c.Payout() * Pow(1.0 + c.LevelMultiplier(), l2)
  {
    PowStrictlyIncreasing(1.0 + c.LevelMultiplier(), l1, l2);
  }

  /** The aggregate: a named farm with a cash balance and its fields, addressed by index. */
  class Farm {
    var name: string
    var money: real
    var fields: seq<Field>

    /** The farm owns its fields: no field object appears twice. */
    ghost predicate Valid()
      reads this
    {
      forall i, j :: 0 <= i < j < |fields| ==> fields[i] != fields[j]
    }

    /** What the operations preserve: money is never negative and every
        field's level lies within its crop's range. */
    ghost predicate Consistent()
      reads this, fields
    {
      money >= 0.0 && forall i :: 0 <= i < |fields| ==> fields[i].Valid()
    }

    /** A new farm: 20 in cash and no fields. */
    constructor (name: string)
      ensures this.name == name && money == 20.0 && fields == []
      ensures Valid() && Consistent()
    {
      this.name := name;
      money := 20.0;
      fields := [];
    }

    /** Every crop kind exactly once, in declaration order. */
    static function AvailableCrops(): (crops: seq<Crop>)
      ensures |crops| == 3
      ensures forall c: Crop :: crops[c.Ordinal()] == c
      ensures forall i :: 0 <= i < |crops| ==> crops[i].Ordinal() == i
    {
      [Wheat, Potato, Carrot]
    }

    /** Buys a field of `crop`: fails with InsufficientFunds and changes nothing
        when the price exceeds the balance; otherwise appends a new level-1,
        unplanted field and pays exactly the price. */
    method BuyField(crop: Crop) returns (r: Result<()>)
      requires Valid()
      modifies this
      ensures Valid() && name == old(name)
      ensures old(Consistent()) ==> Consistent()
      ensures r.Err? <==> old(money) < crop.NewFieldPrice()
      ensures r.Err? ==> r.error == InsufficientFunds && money == old(money) && fields == old(fields)
      ensures r.Ok? ==> money == old(money) - crop.NewFieldPrice()
      ensures r.Ok? ==> |fields| == |old(fields)| + 1 && fields[..|old(fields)|] == old(fields)
      ensures r.Ok? ==> var f := fields[|fields| - 1];
        fresh(f) && f.crop == crop && f.level == 1 && f.plantTimestamp == None
    {
      var price := crop.NewFieldPrice();
      if money < price {
        return Err(InsufficientFunds);
      }
      var field := new Field(crop);
      fields := fields + [field];
      money := money - price;
      return Ok(());
    }

    /** Levels up field `id`: OutOfBounds for a bad index, then MaxLevelReached
        whatever the balance, then InsufficientFunds when the price exceeds the
        balance; on success only that field's level rises by one and the balance
        drops by the price of the level it had. Failures change nothing. */
    method LevelUpField(id: nat) returns (r: Result<()>)
      requires Valid()
      modifies this, if id < |fields| then {fields[id]} else {}
      ensures Valid() && fields == old(fields) && name == old(name)
      ensures old(Consistent()) ==> Consistent()
      ensures id >= |fields| ==> r == Err(OutOfBounds) && money == old(money)
      ensures id < |fields| ==>
        fields[id].crop == old(fields[id].crop) && fields[id].plantTimestamp == old(fields[id].plantTimestamp)
      ensures id < |fields| && old(fields[id].LevelUpPrice()).Err? ==>
        r == Err(MaxLevelReached) && money == old(money) && fields[id].level == old(fields[id].level)
      ensures id < |fields| && old(fields[id].LevelUpPrice()).Ok? ==>
        var price := old(fields[id].LevelUpPrice()).value;
        (r == Err(InsufficientFunds) <==> price > old(money))
        && (price > old(money) ==> money == old(money) && fields[id].level == old(fields[id].level))
        && (price <= old(money) ==>
              r.Ok? && money == old(money) - price && fields[id].level == old(fields[id].level) + 1)
    {
      if id >= |fields| {
        return Err(OutOfBounds);
      }
      var field := fields[id];
      // The source asks the field for this price twice; both calls agree.
      var price :- field.LevelUpPrice();
      if price > money {
        return Err(InsufficientFunds);
      }
      var levelled := field.LevelUp();
      assert levelled.Ok?;
      money := money - price;
      return Ok(());
    }

    /** Plants field `id` at time `now`, as written: OutOfBounds for a bad
        index, InsufficientFunds (changing nothing) when the planting price
        exceeds the balance; otherwise the price is paid BEFORE the field is
        planted, so an already-planted field reports AlreadyPlanted with the
        price still taken. */
    method PlantField(id: nat, now: nat) returns (r: Result<()>)
      requires Valid()
      modifies this, if id < |fields| then {fields[id]} else {}
      ensures Valid() && fields == old(fields) && name == old(name)
      ensures old(Consistent()) ==> Consistent()
      ensures id >= |fields| ==> r == Err(OutOfBounds) && money == old(money)
      ensures id < |fields| ==>
        fields[id].crop == old(fields[id].crop) && fields[id].level == old(fields[id].level)
      ensures id < |fields| ==>
        var price := fields[id].crop.PlantingPrice();
        (r == Err(InsufficientFunds) <==> price > old(money))
        && (price > old(money) ==> money == old(money) && fields[id].plantTimestamp == old(fields[id].plantTimestamp))
        && (price <= old(money) ==> money == old(money) - price)
        && (price <= old(money) && old(fields[id].Planted()) ==>
              r == Err(AlreadyPlanted) && fields[id].plantTimestamp == old(fields[id].plantTimestamp))
        && (price <= old(money) && !old(fields[id].Planted()) ==>
              r.Ok? && fields[id].plantTimestamp == Some(now))
    {
      if id >= |fields| {
        return Err(OutOfBounds);
      }
      var field := fields[id];
      if field.crop.PlantingPrice() > money {
        return Err(InsufficientFunds);
      }
      money := money - field.crop.PlantingPrice();
      r := field.Plant(now);
    }

    /** Plants field `id` at time `now` with the already-planted check made
        before any payment, so that every failure changes nothing. */
    method PlantFieldAtomic(id: nat, now: nat) returns (r: Result<()>)
      requires Valid()
      modifies this, if id < |fields| then {fields[id]} else {}
      ensures Valid() && fields == old(fields) && name == old(name)
      ensures old(Consistent()) ==> Consistent()
      ensures r.Err? ==> money == old(money)
      ensures r.Err? && id < |fields| ==> fields[id].plantTimestamp == old(fields[id].plantTimestamp)
      ensures id >= |fields| ==> r == Err(OutOfBounds)
      ensures id < |fields| ==>
        fields[id].crop == old(fields[id].crop) && fields[id].level == old(fields[id].level)
      ensures id < |fields| ==>
        var price := fields[id].crop.PlantingPrice();
        (r == Err(InsufficientFunds) <==> price > old(money))
        && (price <= old(money) && old(fields[id].Planted()) ==> r == Err(AlreadyPlanted))
        && (price <= old(money) && !old(fields[id].Planted()) ==>
              r.Ok? && money == old(money) - price && fields[id].plantTimestamp == Some(now))
    {
      if id >= |fields| {
        return Err(OutOfBounds);
      }
      var field := fields[id];
      if field.crop.PlantingPrice() > money {
        return Err(InsufficientFunds);
      }
      if field.Planted() {
        return Err(AlreadyPlanted);
      }
      money := money - field.crop.PlantingPrice();
      r := field.Plant(now);
    }

    /** Harvests field `id` at time `now`: OutOfBounds for a bad index, the
        field's AlreadyFarmed or NotYetReady unchanged; on success the field's
        earnings are credited and returned and the field is no longer planted. */
    method FarmField(id: nat, now: nat) returns (r: Result<real>)
      requires Valid()
      requires id < |fields| && fields[id].Planted() ==> now >= fields[id].plantTimestamp.value
      modifies this, if id < |fields| then {fields[id]} else {}
      ensures Valid() && fields == old(fields) && name == old(name)
      ensures old(Consistent()) ==> Consistent()
      ensures r.Err? ==> money == old(money)
      ensures id >= |fields| ==> r == Err(OutOfBounds)
      ensures id < |fields| ==>
        fields[id].crop == old(fields[id].crop) && fields[id].level == old(fields[id].level)
      ensures id < |fields| && !old(fields[id].Planted()) ==> r == Err(AlreadyFarmed)
      ensures (id < |fields| && old(fields[id].Planted())
               && now < old(fields[id].plantTimestamp.value) + fields[id].crop.GrowTime()) ==>
        r == Err(NotYetReady)
      ensures id < |fields| && r.Err? ==> fields[id].plantTimestamp == old(fields[id].plantTimestamp)
      ensures r.Ok? <==>
        id < |fields| && old(fields[id].Planted())
        && now >= old(fields[id].plantTimestamp.value) + fields[id].crop.GrowTime()
      ensures r.Ok? ==>
        r.value == old(fields[id].Earnings()) && money == old(money) + r.value
        && fields[id].plantTimestamp == None
    {
      if id >= |fields| {
        return Err(OutOfBounds);
      }
      var field := fields[id];
      var harvested := field.Harvest(now);
      if harvested.Err? {
        return Err(harvested.error);
      }
      var payout := field.Earnings();
      money := money + payout;
      return Ok(payout);
    }
  }
}
