# cli_farm: a verified model of the farm economy

cli_farm is a single-player terminal farming game. The player has a cash
balance. They buy fields of a crop kind, plant them, wait for the crop to
grow, harvest for money and level fields up so that harvests pay more.
This project models the game's economy in Dafny, in two revisions:

- `util.dfy`, module `Util` (src/util.rs): the error taxonomy `GameError`,
  its messages, the `Result` type every fallible operation returns, and
  `SecondsToMillis`.
- `farm.dfy`, module `Farming` (src/farm.rs): the current revision.
  - `Crop` is a closed catalog of Wheat, Potato and Carrot with their constants
    and the level-up price.
  - `Field` is a class whose `LevelUp`, `Plant` and `Harvest` methods change
    `level` and `plantTimestamp` in place.
  - `Farm` is a class with `name`, `money` and `fields: seq<Field>`. Its
    operations check bounds and funds and return an error or change the farm.
- `farm_scenarios.dfy`, module `FarmingScenarios`: clients that chain
  operations of the current revision: a wheat round trip, harvest timing,
  levelling to the cap, out-of-bounds indices, and planting twice.
- `legacy_farm.dfy`, module `LegacyFarming` (src/main.rs, lines 19-243): the
  earlier revision's own six-variant error type, catalog, field and farm.
  - Its level-up price has no halving.
  - Its harvest payout is linear in the level.
  - Its planting operation has no funds check, so money can become negative.

Modelling choices:
- Money (an `f64`) is a `real`, without rounding.
- Timestamps are `nat` milliseconds.
- The wall-clock reads inside harvesting and planting are a `now` parameter.
- `Farm.Valid()` says that no field object appears twice in `fields`. This
  reflects that the source's `Vec<Field>` owns its fields, so an operation on
  field `id` can change only that field.
- `Consistent()` is what the operations preserve. In the current revision that
  is money >= 0 and every level within `1..MaxLevel`. In the earlier revision
  it is the levels only.
- `time_to_farm` panics on an unplanted field. When `now` precedes the
  planting time, it panics or, in a release build, wraps around. Both cases
  become preconditions (see "## Left out").
- The earlier revision's `seconds_to_millis` (src/main.rs:45-47) is identical
  to the one in src/util.rs, so `LegacyFarming` uses `Util.SecondsToMillis`.

## Model

| member | source | states |
|---|---|---|
| `Util.Message` | src/util.rs:22-35 | every error has a fixed, capitalised message of at least 13 characters |
| `Util.ExactlySevenErrors` | src/util.rs:12-20 | every error is one of the seven listed variants, and the seven are distinct |
| `Util.MessageInjective` | src/util.rs:22-35 | two errors have the same message exactly when they are the same error |
| `Util.SecondsToMillis` | src/util.rs:39-41 | the result fits in 128 bits, is a multiple of 1000 and divides back to the seconds given; requires seconds * 1000 < 2^128 |
| `Util.SecondsToMillisStrictlyIncreasing` | src/util.rs:39-41 | more seconds give strictly more milliseconds |
| `Farming.Crop.Ordinal` | src/farm.rs:13-18 | each crop's position in declaration order is below 3 |
| `Farming.Crop.NewFieldPrice` | src/farm.rs:21-27 | a new field costs at least 10 |
| `Farming.Crop.PlantingPrice` | src/farm.rs:29-35 | planting costs something, and less than the field itself |
| `Farming.Crop.MaxLevel` | src/farm.rs:37-43 | every crop allows at least one level-up (cap above 1) |
| `Farming.Crop.LevelMultiplier` | src/farm.rs:45-47 | the multiplier lies strictly between 0 and 1 |
| `Farming.Crop.GrowTime` | src/farm.rs:49-56 | the grow time is a positive whole number of seconds in milliseconds |
| `Farming.Crop.Payout` | src/farm.rs:58-64 | the base payout is positive |
| `Farming.Crop.NextLevelPrice` | src/farm.rs:66-71 | the price is never negative and is positive exactly for positive levels |
| `Farming.CatalogOrdered` | src/farm.rs:14-64 | in declaration order, each later crop has a higher field price, planting price, cap, grow time and payout |
| `Farming.NextLevelPriceStrictlyIncreasing` | src/farm.rs:66-71 | the level-up price strictly increases with the level |
| `Farming.PowAtLeastOne` | src/farm.rs:139 | a base of at least 1 raised to any power is at least 1 |
| `Farming.PowStrictlyIncreasing` | src/farm.rs:139 | for a base above 1, a higher power is strictly larger |
| `Farming.EarningsGrowWithLevel` | src/farm.rs:137-140 | the compounded harvest value strictly increases with the level |
| `Farming.Field.constructor` | src/farm.rs:93-99 | a new field has the given crop, level 1, is not planted and is valid |
| `Farming.Field.LevelUpPrice` | src/farm.rs:105-108 | fails with MaxLevelReached exactly when level >= MaxLevel; otherwise gives the crop's next-level price, positive for a positive level |
| `Farming.Field.LevelUp` | src/farm.rs:110-114 | fails with MaxLevelReached exactly when LevelUpPrice fails, and then changes nothing; otherwise raises the level by exactly 1, strictly raises Earnings, and keeps crop and planting time; keeps 1 <= level <= MaxLevel |
| `Farming.Field.Planted` | src/farm.rs:116-118 | true exactly when a planting time is recorded |
| `Farming.Field.Plant` | src/farm.rs:120-124 | fails with AlreadyPlanted exactly when the field is planted, and then changes nothing; otherwise records the given timestamp; crop and level never change |
| `Farming.Field.TimeToFarm` | src/farm.rs:126-128 | at most the grow time; zero exactly when now >= planted + grow time; otherwise now + result == planted + grow time; requires planted and now >= planted |
| `Farming.Field.Harvest` | src/farm.rs:130-135 | AlreadyFarmed when not planted; NotYetReady before planted + grow time; both leave the field unchanged; succeeds exactly at or after maturity and then clears the planting time |
| `Farming.Field.Earnings` | src/farm.rs:137-140 | the harvest value is at least the positive base payout, and at least payout * (1 + multiplier) from level 1 up |
| `Farming.Farm.constructor` | src/farm.rs:151-157 | a new farm has the given name, money 20 and no fields, with both invariants holding |
| `Farming.Farm.AvailableCrops` | src/farm.rs:159-161 | three crops; every crop sits at its declaration position, so each occurs once, in declaration order |
| `Farming.Farm.BuyField` | src/farm.rs:163-169 | fails with InsufficientFunds exactly when money < price, and then changes nothing; otherwise debits exactly the price and appends a fresh level-1 unplanted field of that crop after the old fields; keeps money >= 0 |
| `Farming.Farm.LevelUpField` | src/farm.rs:171-184 | OutOfBounds for id >= field count; MaxLevelReached at the cap whatever the money; InsufficientFunds exactly when price > money; failures change nothing; success raises only field id's level by 1 and debits the price taken before the increment |
| `Farming.Farm.PlantField` | src/farm.rs:186-198 | OutOfBounds for a bad index; InsufficientFunds exactly when price > money, and then nothing changes; otherwise the price is always debited, and the field reports AlreadyPlanted unchanged or records now; money stays >= 0 |
| `Farming.Farm.PlantFieldAtomic` | src/farm.rs:186-198 | the same outcomes as PlantField, but every failure leaves money and the field unchanged |
| `Farming.Farm.FarmField` | src/farm.rs:200-210 | OutOfBounds for a bad index; the field's AlreadyFarmed or NotYetReady unchanged, with nothing changed; on success returns the field's earnings, credits exactly that, and clears only that field's planting time |
| `FarmingScenarios.WheatRound` | src/farm.rs:151-210 | starting from 20, buying wheat leaves 10 and planting leaves 9; a harvest after the grow time pays 1.5 and leaves 10.5 |
| `FarmingScenarios.HarvestTiming` | src/farm.rs:120-135 | a harvest right after planting is NotYetReady; at maturity it succeeds; a second harvest is AlreadyFarmed |
| `FarmingScenarios.WheatLevelsToCap` | src/farm.rs:105-114 | four level-ups take wheat from 1 to its cap of 5; the next one and its price both report MaxLevelReached |
| `FarmingScenarios.TooExpensive` | src/farm.rs:163-169 | a new farm cannot buy a potato field: InsufficientFunds, money still 20, no fields |
| `FarmingScenarios.IndexOutOfBounds` | src/farm.rs:171-210 | on a two-field farm, index 5 gives OutOfBounds for levelling, planting and harvesting |
| `FarmingScenarios.ReplantIsCharged` | src/farm.rs:186-198 | planting a growing wheat field again reports AlreadyPlanted but money falls from 9 to 8 |
| `FarmingScenarios.ReplantIsFree` | src/farm.rs:186-198 | with the atomic planting operation the same sequence reports AlreadyPlanted and money stays 9 |
| `LegacyFarming.Message` | src/main.rs:29-41 | every error has a fixed, capitalised message of at least 13 characters |
| `LegacyFarming.MessagesMatchCurrent` | src/main.rs:29-41 | each of the six messages equals the current revision's message for the same error; none is "Too many fields"; the six are pairwise distinct |
| `LegacyFarming.Crop.Ordinal` | src/main.rs:52-57 | each crop's position in declaration order is below 3 |
| `LegacyFarming.Crop.NewFieldPrice` | src/main.rs:60-66 | a new field costs at least 10 |
| `LegacyFarming.Crop.PlantingPrice` | src/main.rs:68-74 | planting costs something, and less than the field itself |
| `LegacyFarming.Crop.MaxLevel` | src/main.rs:76-82 | every crop allows at least one level-up |
| `LegacyFarming.Crop.LevelMultiplier` | src/main.rs:84-90 | the multiplier lies strictly between 0 and 0.5 |
| `LegacyFarming.Crop.GrowTime` | src/main.rs:92-98 | the grow time is a positive whole number of seconds in milliseconds |
| `LegacyFarming.Crop.Payout` | src/main.rs:100-106 | the base payout is at least 3 |
| `LegacyFarming.Crop.NextLevelPrice` | src/main.rs:108-113 | the price is never negative and is positive exactly for positive levels |
| `LegacyFarming.CatalogOrdered` | src/main.rs:59-106 | in declaration order, each later crop has a higher field price, planting price, cap, multiplier, grow time and payout |
| `LegacyFarming.CatalogAgainstCurrent` | src/main.rs:59-106 | field price, planting price and cap equal the current revision's; the multiplier and grow time are smaller for every crop; only wheat's payout differs |
| `LegacyFarming.NextLevelPriceStrictlyIncreasing` | src/main.rs:108-113 | the level-up price strictly increases with the level |
| `LegacyFarming.HarvestPayout` | src/main.rs:240 | the payout is at least the base payout, and strictly more at any positive level |
| `LegacyFarming.HarvestPayoutLinear` | src/main.rs:240 | each extra level adds exactly payout * multiplier, so the payout at level n is the base plus n such steps |
| `LegacyFarming.Field.constructor` | src/main.rs:135-141 | a new field has the given crop, level 1, is not planted and is valid |
| `LegacyFarming.Field.LevelUpPrice` | src/main.rs:147-150 | fails with MaxLevelReached exactly when level >= MaxLevel; otherwise gives the crop's next-level price, positive for a positive level |
| `LegacyFarming.Field.LevelUp` | src/main.rs:152-156 | fails with MaxLevelReached exactly when LevelUpPrice fails, and then changes nothing; otherwise raises the level by exactly 1; keeps 1 <= level <= MaxLevel |
| `LegacyFarming.Field.Planted` | src/main.rs:158-160 | true exactly when a planting time is recorded |
| `LegacyFarming.Field.Plant` | src/main.rs:162-166 | fails with AlreadyPlanted exactly when the field is planted, and then changes nothing; otherwise records the given timestamp |
| `LegacyFarming.Field.TimeToFarm` | src/main.rs:168-170 | at most the grow time; zero exactly when now >= planted + grow time; otherwise now + result == planted + grow time |
| `LegacyFarming.Field.Harvest` | src/main.rs:172-177 | AlreadyFarmed when not planted; NotYetReady before maturity; both leave the field unchanged; succeeds exactly at or after maturity and then clears the planting time |
| `LegacyFarming.Farm.constructor` | src/main.rs:187-192 | a new farm has money 20 and no fields |
| `LegacyFarming.Farm.AvailableCrops` | src/main.rs:194-196 | three crops, each at its declaration position |
| `LegacyFarming.Farm.BuyField` | src/main.rs:198-204 | fails with InsufficientFunds exactly when money < price, and then changes nothing; otherwise debits exactly the price and appends a fresh level-1 unplanted field |
| `LegacyFarming.Farm.LevelUpField` | src/main.rs:206-219 | OutOfBounds, then MaxLevelReached whatever the money, then InsufficientFunds exactly when price > money; failures change nothing; success raises only field id's level by 1 and debits the price |
| `LegacyFarming.Farm.PlantField` | src/main.rs:221-231 | OutOfBounds for a bad index; otherwise always debits the planting price, with no funds check; an already-planted field reports AlreadyPlanted unchanged, any other records now |
| `LegacyFarming.Farm.FarmField` | src/main.rs:233-243 | OutOfBounds, or the field's AlreadyFarmed or NotYetReady with nothing changed; on success credits and returns the linear HarvestPayout at the field's level and clears its planting time |
| `LegacyFarming.PlantingOverdraws` | src/main.rs:198-231 | a new farm that buys two wheat fields and plants one succeeds and ends with money -1 |

## Left out

- Reading the clock (src/util.rs:4-9, src/main.rs:12-17): the time is a `now` parameter instead.
- Saving and loading (`save_to_path`, `load_from_path`): JSON file I/O.
- The terminal interface (src/cli.rs and the menu, printing and input code of src/main.rs): presentation only.
- `Display for Crop`: coloured crop names, styling only.
- `Field::calculate_price`: an alias of the crop's new-field price, not modelled separately.
- `sell_field`: src/cli.rs:139 calls it, but no source file of the program defines it, so no resale rule is modelled.
- `TooManyFields`: declared and given a message, but no operation raises it.
- Floating point: money is an exact `real`, so the rounding of 0.1, 0.2 and `powi` is not modelled.
- Integer widths: level (`u8`) and index (`u32`) are `nat`. No reachable level overflows, since a level-up happens only below a cap of at most 20. Timestamps are unbounded `nat`. Only `SecondsToMillis` keeps its 128-bit bound.
- `time_to_farm` on an unplanted field or with `now` before the planting time: preconditions rather than behaviour. The `unwrap` on an unplanted field always panics. The `u128` subtraction `now - planted` panics only in builds with overflow checks; in a release build it wraps around, `checked_sub` gives None, `time_to_farm` returns 0 and a harvest succeeds. The preconditions exclude both outcomes.
- Farming.Crop.NewFieldPrice: states a lower bound, not the three constants 10/100/1000, which are its body.
- Farming.Crop.PlantingPrice: states positivity and an upper bound, not the constants 1/20/50.
- Farming.Crop.MaxLevel: states a lower bound, not the constants 5/10/20.
- Farming.Crop.LevelMultiplier: states a range, not the constant 0.5.
- Farming.Crop.GrowTime: states a positive whole number of seconds, not 100/300/1000 seconds.
- Farming.Crop.Payout: states positivity, not the constants 1/10/100.
- LegacyFarming.Crop.LevelMultiplier: states a range, not the constants 0.1/0.2/0.4.
- LegacyFarming.Crop.GrowTime: states a positive whole number of seconds, not 10/20/40 seconds.
- LegacyFarming.Crop.Payout: states a lower bound, not the constants 3/10/100.

## Findings

| source | as written | input that shows it | evidently intended | confidence | as-written member | corrected member |
|---|---|---|---|---|---|---|
| src/farm.rs:186-198 | the planting price is debited before `Field::plant` runs, so a field that is already growing reports AlreadyPlanted and the price is still taken | a new farm buys a wheat field (money 10) and plants it (money 9); `plant_field(0)` again returns AlreadyPlanted and leaves money 8 (`FarmingScenarios.ReplantIsCharged`) | a rejected planting changes nothing, as the same function's OutOfBounds and InsufficientFunds failures do; the interface lets the player pick a growing field | medium, not executed | `Farming.Farm.PlantField` | `Farming.Farm.PlantFieldAtomic` |

The earlier revision's `plant_field` (src/main.rs:221-231) debits in the same
order, and it also has no funds check. The current revision added the funds
check. Only `FarmingScenarios.ReplantIsFree` uses `PlantFieldAtomic`; the other
scenarios plant with `PlantField`, as the program does.
