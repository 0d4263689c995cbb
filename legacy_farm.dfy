/** The earlier revision of the farm economy (src/main.rs), which carries its
    own error type, catalog, field and farm. It differs from the current
    revision in its constants, in a level-up price without the halving, in a
    payout linear in the level, and in a planting operation without a funds
    check. Money is a real number and timestamps are milliseconds; the clock
    reads inside planting and harvesting are `now` parameters. */
module LegacyFarming {
  import Util
  import Farming

  /** The six ways an operation of this revision can be rejected. */
  datatype GameErrors =
    | InsufficientFunds
    | MaxLevelReached
    | OutOfBounds
    | AlreadyPlanted
    | AlreadyFarmed
    | NotYetReady

  function Message(e: GameErrors): (s: string)
    ensures |s| >= 13 && 'A' <= s[0] <= 'Z'
  {
    match e
    case InsufficientFunds => "Insufficient funds"
    case MaxLevelReached => "Max level reached"
    case OutOfBounds => "Out of bounds"
    case AlreadyPlanted => "Already planted"
    case AlreadyFarmed => "Already farmed"
    case NotYetReady => "Not yet ready"
  }

  /** The same error under the current revision's taxonomy. */
  function AsCurrent(e: GameErrors): Util.GameError
  {
    match e
    case InsufficientFunds => Util.InsufficientFunds
    case MaxLevelReached => Util.MaxLevelReached
    case OutOfBounds => Util.OutOfBounds
    case AlreadyPlanted => Util.AlreadyPlanted
    case AlreadyFarmed => Util.AlreadyFarmed
    case NotYetReady => Util.NotYetReady
  }

  /** Each error keeps its message across revisions, so the messages here are
      pairwise distinct too, and none of them reads "Too many fields". */
  lemma MessagesMatchCurrent(a: GameErrors, b: GameErrors)
    ensures Message(a) == Util.Message(AsCurrent(a))
    ensures Message(a) != Util.Message(Util.TooManyFields)
    ensures Message(a) == Message(b) <==> a == b
  {
    Util.MessageInjective(AsCurrent(a), AsCurrent(b));
    Util.MessageInjective(AsCurrent(a), Util.TooManyFields);
  }

  datatype Result<T> = Ok(value: T) | Err(error: GameErrors) {
    predicate IsFailure() {
      Err?
    }

    function PropagateFailure<U>(): Result<U>
      requires Err?
    {
      Err(error)
    }

    function Extract(): T
      requires Ok?
    {
      value
    }
  }

  datatype Crop = Wheat | Potato | Carrot {

    /** Position in declaration order, the order the shop lists crops in. */
    function Ordinal(): (i: nat)
      ensures i < 3
    {
      match this
      case Wheat => 0
      case Potato => 1
      case Carrot => 2
    }

    function NewFieldPrice(): (p: real)
      ensures p >= 10.0
    {
      match this
      case Wheat => 10.0
      case Potato => 100.0
      case Carrot => 1000.0
    }

    function PlantingPrice(): (p: real)
      ensures 0.0 < p < NewFieldPrice()
    {
      match this
      case Wheat => 1.0
      case Potato => 20.0
      case Carrot => 50.0
    }

    function MaxLevel(): (n: nat)
      ensures n > 1
    {
      match this
      case Wheat => 5
      case Potato => 10
      case Carrot => 20
    }

    /** The per-level growth factor, different for each crop in this revision. */
    function LevelMultiplier(): (m: real)
      ensures 0.0 < m < 0.5
    {
      match this
      case Wheat => 0.1
      case Potato => 0.2
      case Carrot => 0.4
    }

    /** Milliseconds a planted field needs before it can be harvested. */
    function GrowTime(): (t: nat)
      ensures t > 0 && t % 1000 == 0
    {
      match this
      case Wheat => Util.SecondsToMillis(10)
      case Potato => Util.SecondsToMillis(20)
      case Carrot => Util.SecondsToMillis(40)
    }

    function Payout(): (p: real)
      ensures p >= 3.0
    {
      match this
      case Wheat => 3.0
      case Potato => 10.0
      case Carrot => 100.0
    }

    /** Price of raising a field from `level` to the next level: ten planting
        prices, scaled by the whole multiplier and by the level. */
    function NextLevelPrice(level: nat): (p: real)
      ensures p >= 0.0
      ensures level > 0 <==> p > 0.0
    {
      var basePrice := PlantingPrice() * 10.0;
      var levelMultiplier := LevelMultiplier();
      basePrice * (levelMultiplier * level as real)
    }

    /** The same crop kind in the current revision's catalog. */
    function AsCurrent(): Farming.Crop
    {
      match this
      case Wheat => Farming.Wheat
      case Potato => Farming.Potato
      case Carrot => Farming.Carrot
    }
  }

  /** Each later crop costs more, caps higher, grows longer, pays more and
      grows faster per level. */
  lemma CatalogOrdered(a: Crop, b: Crop)
    requires a.Ordinal() < b.Ordinal()
    ensures a.NewFieldPrice() < b.NewFieldPrice()
    ensures a.PlantingPrice() < b.PlantingPrice()
    ensures a.MaxLevel() < b.MaxLevel()
    ensures a.LevelMultiplier() < b.LevelMultiplier()
    ensures a.GrowTime() < b.GrowTime()
    ensures a.Payout() < b.Payout()
  {
  }

  /** Against the current revision: the same prices and caps, a different
      multiplier and grow time for every crop, and a different payout for wheat. */
  lemma CatalogAgainstCurrent(c: Crop)
    ensures c.NewFieldPrice() == c.AsCurrent().NewFieldPrice()
    ensures c.PlantingPrice() == c.AsCurrent().PlantingPrice()
    ensures c.MaxLevel() == c.AsCurrent().MaxLevel()
    ensures c.LevelMultiplier() < c.AsCurrent().LevelMultiplier()
    ensures c.GrowTime() < c.AsCurrent().GrowTime()
    ensures c.Payout() == c.AsCurrent().Payout() <==> c != Wheat
  {
  }

  /** The level-up price strictly increases with the level. */
  lemma NextLevelPriceStrictlyIncreasing(c: Crop, l1: nat, l2: nat)
    requires l1 < l2
    ensures c.NextLevelPrice(l1) < c.NextLevelPrice(l2)
  {
  }

  /** What harvesting a field of `crop` at `level` yields in this revision:
      the payout grown linearly by the multiplier per level. */
  function HarvestPayout(crop: Crop, level: nat): (p: real)
    ensures p >= crop.Payout()
    ensures level > 0 ==> p > crop.Payout()
  {
    crop.Payout() * (1.0 + crop.LevelMultiplier() * level as real)
  }

  /** Each level adds the same amount, payout times multiplier, to a harvest. */
  lemma HarvestPayoutLinear(crop: Crop, level: nat)
    ensures HarvestPayout(crop, level + 1) - HarvestPayout(crop, level) == crop.Payout() * crop.LevelMultiplier()
    ensures HarvestPayout(crop, level) == crop.Payout() + level as real * (crop.Payout() * crop.LevelMultiplier())
  {
  }

  class Field {
    var crop: Crop
    var level: nat
    var plantTimestamp: Util.Option<nat>

    /** The level stays within 1..MaxLevel. */
    ghost predicate Valid()
      reads this
    {
      1 <= level <= crop.MaxLevel()
    }

    /** A freshly bought field: level 1 and not planted. */
    constructor (crop: Crop)
      ensures this.crop == crop && level == 1 && plantTimestamp == Util.None
      ensures Valid()
    {
      this.crop := crop;
      level := 1;
      plantTimestamp := Util.None;
    }

    /** The price of the next level, or MaxLevelReached at the cap. */
    function LevelUpPrice(): (r: Result<real>)
      reads this
      ensures r.Err? <==> level >= crop.MaxLevel()
      ensures r.Err? ==> r.error == MaxLevelReached
      ensures r.Ok? ==> r.value == crop.NextLevelPrice(level)
      ensures r.Ok? && level > 0 ==> r.value > 0.0
    {
      if level >= crop.MaxLevel() then Err(MaxLevelReached)
      else Ok(crop.NextLevelPrice(level))
    }

    /** Raises the level by one, or fails at the cap and changes nothing. */
    method LevelUp() returns (r: Result<()>)
      modifies this
      ensures crop == old(crop) && plantTimestamp == old(plantTimestamp)
      ensures r.Err? <==> old(LevelUpPrice()).Err?
      ensures r.Err? ==> r.error == MaxLevelReached && level == old(level)
      ensures r.Ok? ==> level == old(level) + 1
      ensures old(Valid()) ==> Valid()
    {
      if level >= crop.MaxLevel() {
        return Err(MaxLevelReached);
      }
      level := level + 1;
      return Ok(());
    }

    /** True while the field is growing. */
    predicate Planted()
      reads this
      ensures Planted() <==> plantTimestamp != Util.None
    {
      plantTimestamp.Some?
    }

    /** Starts growing at `timestamp`, or fails with AlreadyPlanted and changes nothing. */
    method Plant(timestamp: nat) returns (r: Result<()>)
      modifies this
      ensures crop == old(crop) && level == old(level)
      ensures r.Err? <==> old(Planted())
      ensures r.Err? ==> r.error == AlreadyPlanted && plantTimestamp == old(plantTimestamp)
      ensures r.Ok? ==> plantTimestamp == Util.Some(timestamp)
    {
      if Planted() {
        return Err(AlreadyPlanted);
      }
      plantTimestamp := Util.Some(timestamp);
      return Ok(());
    }

    /** Milliseconds left until the field can be harvested, clamped at zero. */
    function TimeToFarm(now: nat): (left: nat)
      reads this
      requires Planted() && now >= plantTimestamp.value
      ensures left <= crop.GrowTime()
      ensures left == 0 <==> now >= plantTimestamp.value + crop.GrowTime()
      ensures left > 0 ==> now + left == plantTimestamp.value + crop.GrowTime()
    {
      var elapsed := now - plantTimestamp.value;
      if elapsed <= crop.GrowTime() then crop.GrowTime() - elapsed else 0
    }

    /** Harvests at time `now`: fails with AlreadyFarmed when not planted, with
        NotYetReady before maturity, and otherwise clears the planting time. */
    method Harvest(now: nat) returns (r: Result<()>)
      requires Planted() ==> now >= plantTimestamp.value
      modifies this
      ensures crop == old(crop) && level == old(level)
      ensures !old(Planted()) ==> r == Err(AlreadyFarmed)
      ensures old(Planted()) && now < old(plantTimestamp.value) + crop.GrowTime() ==> r == Err(NotYetReady)
      ensures r.Err? ==> plantTimestamp == old(plantTimestamp)
      ensures r.Ok? <==> old(Planted()) && now >= old(plantTimestamp.value) + crop.GrowTime()
      ensures r.Ok? ==> plantTimestamp == Util.None
    {
      if !Planted() {
        return Err(AlreadyFarmed);
      }
      if TimeToFarm(now) > 0 {
        return Err(NotYetReady);
      }
      plantTimestamp := Util.None;
      return Ok(());
    }
  }

  /** The aggregate of this revision: a cash balance and the fields, without a name. */
  class Farm {
    var money: real
    var fields: seq<Field>

    /** The farm owns its fields: no field object appears twice. */
    ghost predicate Valid()
      reads this
    {
      forall i, j :: 0 <= i < j < |fields| ==> fields[i] != fields[j]
    }

    /** What the operations preserve: every field's level lies within its
        crop's range. (Money may become negative in this revision.) */
    ghost predicate Consistent()
      reads this, fields
    {
      forall i :: 0 <= i < |fields| ==> fields[i].Valid()
    }

    /** A new farm: 20 in cash and no fields. */
    constructor ()
      ensures money == 20.0 && fields == []
      ensures Valid() && Consistent()
    {
      money := 20.0;
      fields := [];
    }

    /** Every crop kind exactly once, in declaration order. */
    static function AvailableCrops(): (crops: seq<Crop>)
      ensures |crops| == 3
      ensures forall c: Crop :: crops[c.Ordinal()] == c
      ensures forall i :: 0 <= i < |crops| ==> crops[i].Ordinal() == i
    {
      [Wheat, Potato, Carrot]
    }

    /** Buys a field of `crop`: InsufficientFunds and no change when the price
        exceeds the balance; otherwise appends a level-1, unplanted field and
        pays exactly the price. */
    method BuyField(crop: Crop) returns (r: Result<()>)
      requires Valid()
      modifies this
      ensures Valid()
      ensures old(Consistent()) ==> Consistent()
      ensures r.Err? <==> old(money) < crop.NewFieldPrice()
      ensures r.Err? ==> r.error == InsufficientFunds && money == old(money) && fields == old(fields)
      ensures r.Ok? ==> money == old(money) - crop.NewFieldPrice()
      ensures r.Ok? ==> |fields| == |old(fields)| + 1 && fields[..|old(fields)|] == old(fields)
      ensures r.Ok? ==> var f := fields[|fields| - 1];
        fresh(f) && f.crop == crop && f.level == 1 && f.plantTimestamp == Util.None
    {
      var price := crop.NewFieldPrice();
      if money < price {
        return Err(InsufficientFunds);
      }
      var field := new Field(crop);
      fields := fields + [field];
      money := money - price;
      return Ok(());
    }

    /** Levels up field `id`: OutOfBounds for a bad index, then MaxLevelReached
        whatever the balance, then InsufficientFunds when the price exceeds the
        balance; on success only that field's level rises by one and the balance
        drops by the price of the level it had. Failures change nothing. */
    method LevelUpField(id: nat) returns (r: Result<()>)
      requires Valid()
      modifies this, if id < |fields| then {fields[id]} else {}
      ensures Valid() && fields == old(fields)
      ensures old(Consistent()) ==> Consistent()
      ensures id >= |fields| ==> r == Err(OutOfBounds) && money == old(money)
      ensures id < |fields| ==>
        fields[id].crop == old(fields[id].crop) && fields[id].plantTimestamp == old(fields[id].plantTimestamp)
      ensures id < |fields| && old(fields[id].LevelUpPrice()).Err? ==>
        r == Err(MaxLevelReached) && money == old(money) && fields[id].level == old(fields[id].level)
      ensures id < |fields| && old(fields[id].LevelUpPrice()).Ok? ==>
        var price := old(fields[id].LevelUpPrice()).value;
        (r == Err(InsufficientFunds) <==> price > old(money))
        && (price > old(money) ==> money == old(money) && fields[id].level == old(fields[id].level))
        && (price <= old(money) ==>
              r.Ok? && money == old(money) - price && fields[id].level == old(fields[id].level) + 1)
    {
      if id >= |fields| {
        return Err(OutOfBounds);
      }
      var field := fields[id];
      // The source asks the field for this price twice; both calls agree.
      var price :- field.LevelUpPrice();
      if price > money {
        return Err(InsufficientFunds);
      }
      var levelled := field.LevelUp();
      assert levelled.Ok?;
      money := money - price;
      return Ok(());
    }

    /** Plants field `id` at time `now`: OutOfBounds for a bad index; otherwise
        the planting price is always paid, whatever the balance, before the
        field is planted, so the balance can go negative and an already-planted
        field reports AlreadyPlanted with the price still taken. */
    method PlantField(id: nat, now: nat) returns (r: Result<()>)
      requires Valid()
      modifies this, if id < |fields| then {fields[id]} else {}
      ensures Valid() && fields == old(fields)
      ensures old(Consistent()) ==> Consistent()
      ensures id >= |fields| ==> r == Err(OutOfBounds) && money == old(money)
      ensures id < |fields| ==>
        fields[id].crop == old(fields[id].crop) && fields[id].level == old(fields[id].level)
        && money == old(money) - fields[id].crop.PlantingPrice()
      ensures id < |fields| && old(fields[id].Planted()) ==>
        r == Err(AlreadyPlanted) && fields[id].plantTimestamp == old(fields[id].plantTimestamp)
      ensures id < |fields| && !old(fields[id].Planted()) ==>
        r.Ok? && fields[id].plantTimestamp == Util.Some(now)
    {
      if id >= |fields| {
        return Err(OutOfBounds);
      }
      var field := fields[id];
      money := money - field.crop.PlantingPrice();
      r := field.Plant(now);
    }

    /** Harvests field `id` at time `now`: OutOfBounds for a bad index, the
        field's AlreadyFarmed or NotYetReady unchanged; on success the linear
        payout is credited and returned and the field is no longer planted. */
    method FarmField(id: nat, now: nat) returns (r: Result<real>)
      requires Valid()
      requires id < |fields| && fields[id].Planted() ==> now >= fields[id].plantTimestamp.value
      modifies this, if id < |fields| then {fields[id]} else {}
      ensures Valid() && fields == old(fields)
      ensures old(Consistent()) ==> Consistent()
      ensures r.Err? ==> money == old(money)
      ensures id >= |fields| ==> r == Err(OutOfBounds)
      ensures id < |fields| ==>
        fields[id].crop == old(fields[id].crop) && fields[id].level == old(fields[id].level)
      ensures id < |fields| && !old(fields[id].Planted()) ==> r == Err(AlreadyFarmed)
      ensures (id < |fields| && old(fields[id].Planted())
               && now < old(fields[id].plantTimestamp.value) + fields[id].crop.GrowTime()) ==>
        r == Err(NotYetReady)
      ensures id < |fields| && r.Err? ==> fields[id].plantTimestamp == old(fields[id].plantTimestamp)
      ensures r.Ok? <==>
        id < |fields| && old(fields[id].Planted())
        && now >= old(fields[id].plantTimestamp.value) + fields[id].crop.GrowTime()
      ensures r.Ok? ==>
        r.value == HarvestPayout(fields[id].crop, fields[id].level) && money == old(money) + r.value
        && fields[id].plantTimestamp == Util.None
    {
      if id >= |fields| {
        return Err(OutOfBounds);
      }
      var field := fields[id];
      var harvested := field.Harvest(now);
      if harvested.Err? {
        return Err(harvested.error);
      }
      var payout := HarvestPayout(field.crop, field.level);
      money := money + payout;
      return Ok(payout);
    }
  }

  /** Planting needs no funds in this revision: two wheat fields spend the
      whole balance, and planting one of them then leaves the farm in debt. */
  method PlantingOverdraws(now: nat) returns (r: Result<()>, money: real)
    ensures r.Ok? && money == -1.0
  {
    var farm := new Farm();
    var b := farm.BuyField(Wheat);
    b := farm.BuyField(Wheat);
    r := farm.PlantField(0, now);
    money := farm.money;
  }
}
