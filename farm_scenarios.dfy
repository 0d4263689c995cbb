/** Clients of the current revision that chain several operations and show
    what the specifications of the farm and its fields promise together. */
module FarmingScenarios {
  import opened Util
  import opened Farming

  /** A new farm buys a wheat field, plants it, waits the grow time and
      harvests a level-1 crop. */
  method WheatRound(name: string, plantedAt: nat, now: nat)
    returns (afterBuy: real, afterPlant: real, payout: Result<real>, afterHarvest: real)
    requires now >= plantedAt + Wheat.GrowTime()
    ensures afterBuy == 10.0 && afterPlant == 9.0
    ensures payout == Ok(1.5) && afterHarvest == 10.5
  {
    var farm := new Farm(name);
    var bought := farm.BuyField(Wheat);
    afterBuy := farm.money;
    var planted := farm.PlantField(0, plantedAt);
    afterPlant := farm.money;
    payout := farm.FarmField(0, now);
    afterHarvest := farm.money;
  }

  /** Harvesting right after planting is too early, harvesting at maturity
      succeeds, and a second harvest finds nothing to farm. */
  method HarvestTiming(crop: Crop, plantedAt: nat)
    returns (early: Result<()>, ripe: Result<()>, again: Result<()>)
    ensures early == Err(NotYetReady) && ripe.Ok? && again == Err(AlreadyFarmed)
  {
    var field := new Field(crop);
    var planted := field.Plant(plantedAt);
    early := field.Harvest(plantedAt);
    ripe := field.Harvest(plantedAt + crop.GrowTime());
    again := field.Harvest(plantedAt + crop.GrowTime());
  }

  /** A wheat field levels up four times from level 1 and then reports
      MaxLevelReached, which LevelUpPrice announces beforehand. */
  method WheatLevelsToCap() returns (last: Result<()>, price: Result<real>, level: nat)
    ensures last == Err(MaxLevelReached) && price == Err(MaxLevelReached) && level == Wheat.MaxLevel()
  {
    var field := new Field(Wheat);
    var r := field.LevelUp();
    r := field.LevelUp();
    r := field.LevelUp();
    r := field.LevelUp();
    price := field.LevelUpPrice();
    last := field.LevelUp();
    level := field.level;
  }

  /** A potato field is out of reach of a new farm: nothing changes. */
  method TooExpensive(name: string) returns (r: Result<()>, money: real, count: nat)
    ensures r == Err(InsufficientFunds) && money == 20.0 && count == 0
  {
    var farm := new Farm(name);
    r := farm.BuyField(Potato);
    money := farm.money;
    count := |farm.fields|;
  }

  /** On a two-field farm, index 5 is out of bounds for every field operation. */
  method IndexOutOfBounds(name: string, now: nat)
    returns (levelled: Result<()>, planted: Result<()>, farmed: Result<real>, money: real)
    ensures levelled == Err(OutOfBounds) && planted == Err(OutOfBounds) && farmed == Err(OutOfBounds)
    ensures money == 0.0
  {
    var farm := new Farm(name);
    var b := farm.BuyField(Wheat);
    b := farm.BuyField(Wheat);
    levelled := farm.LevelUpField(5);
    planted := farm.PlantField(5, now);
    farmed := farm.FarmField(5, now);
    money := farm.money;
  }

  /** Planting a growing field again, as written: the error is reported but
      the planting price is still taken. */
  method ReplantIsCharged(name: string, now: nat) returns (r: Result<()>, money: real)
    ensures r == Err(AlreadyPlanted) && money == 8.0
  {
    var farm := new Farm(name);
    var b := farm.BuyField(Wheat);
    var p := farm.PlantField(0, now);
    r := farm.PlantField(0, now);
    money := farm.money;
  }

  /** The same sequence with the atomic planting operation keeps the money. */
  method ReplantIsFree(name: string, now: nat) returns (r: Result<()>, money: real)
    ensures r == Err(AlreadyPlanted) && money == 9.0
  {
    var farm := new Farm(name);
    var b := farm.BuyField(Wheat);
    var p := farm.PlantFieldAtomic(0, now);
    r := farm.PlantFieldAtomic(0, now);
    money := farm.money;
  }
}
