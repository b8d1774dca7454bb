# Fleet battle calculator, modelled in Dafny

This project models the battle calculator of a small space-fleet simulator.
Two fleets are given as counts per ship type. Each count is expanded into that
many ship instances carrying hull, shields and weapons. The fleets then fight
for at most six rounds. In each round:

- every attacking instance hits one random instance of a random non-empty
  defender type;
- then the defenders strike back the same way;
- a snapshot of both fleets' counts is recorded;
- all shields are restored to their base values.

The report holds the start snapshot, one snapshot per round and the winner.

The model is split into four modules:

- `Ships` (`ships.dfy`) holds the six ship types, the `ShipSpecs` record and the two forms of a fleet:
  - the count form, `map<Ship, nat>`;
  - the instance form, `map<Ship, seq<ShipSpecs>>`.
- `Fleets` (`fleets.dfy`) holds the conversions between the two forms, the emptiness test and fleet sizes, with their lemmas.
- `Combat` (`fight.dfy`) holds one attack. The damage step is the function `Damage`, the damage step followed by the roll is the function `FightWith`, and `Fight` is the method that performs a hit and takes the roll's draw; the destruction roll itself is a set of predicates with lemmas.
- `Battle` (`battle.dfy`) holds the rest:
  - the report types;
  - target choice, swap-removal and the winner rule, as functions;
  - `BattleFleet`, a class whose `ships` field is updated in place;
  - `BattleCalculator`, a class with the sub-battle, shield reset and battle loop as methods.

Numbers are unbounded integers and the two fractional thresholds are cross-multiplied:

- "weapons below 1% of shields" is `100 * weapons < shields`;
- "hull below 70% of the reference hull" is `10 * hull < 7 * reference`.

The destruction chance `1 - hull / reference` is compared with the draw as an
exact `real`. A reference hull of 0 can only reach the roll with a negative
hull. The source computes an infinite chance there, so the model destroys the
ship.

Randomness is an injected stream. `BattleCalculator.random(n)` is the n-th
draw, and the field `drawn` counts the draws used so far. Each attack takes
the same draws as the source: one for the target type, one for the instance,
and a third for the destruction roll only when the roll applies. No contract
assumes anything about the draws, so every property below holds for every
sequence of draws. A draw outside [0, 1) produces an index out of range, which
the model handles like the source's `undefined`: no fight happens.

Every method that changes state is tied to a function of the old state:
`AttackResult` for one attack, `SubBattle` for one side's attacks, `ResetAll`
for the shield reset, `FightRound` for a round, and `Simulate` for a whole
battle. The properties the source promises are then proved about those
functions.

Ship instances are values, which is a deliberate departure from the source.
The source fills each instance array with one shared object, the table entry
returned by the specification provider (`src/battleCalculator.ts:14`, `:37`).
It also passes that same object to `fight` as the reference
(`src/battleCalculator.ts:113`). The model gives every instance its own value
and passes the reference hull as a separate, unchanging value. The
commented-out copying version at `src/battleCalculator.ts:36` shows this was
the intent. The consequence of the aliasing as written is recorded under
"Findings".

## Model

| member | source | states |
|---|---|---|
| Battle.DefaultSpecs | src/battleCalculator.ts:5-14 | the built-in table: every type has positive hull and non-negative shields and weapons |
| Combat.Damage | src/battleCalculator.ts:17-24 | the damage step keeps the weapons; a hit below 1% of the shields changes nothing; otherwise the shields drop by the weapons (or to 0 when they break), and hull and shields together lose exactly the weapons |
| Combat.FightWith | src/battleCalculator.ts:16-32 | the target after the damage step and the roll against the reference hull: weapons kept, shields as after the damage step, hull as the roll leaves it; a non-negative hull never grows and non-negative shields stay between 0 and their old value |
| Combat.Fight | src/battleCalculator.ts:16-33 | the hit target is FightWith with the next draw; a draw is taken exactly when the roll applies; the three damage cases in source order, each followed by the roll; weapons never touched; nothing is repaired |
| Combat.AfterRollOutcome | src/battleCalculator.ts:26-32 | after the roll the hull is the damaged hull or exactly 0; it is unchanged when the hull is not below 70% of the reference; with a positive reference and a draw in [0, 1) it is never negative |
| Combat.NonPositiveHullIsDestroyed | src/battleCalculator.ts:26-31 | with a positive reference hull and a draw in [0, 1), a hull of 0 or less always triggers the roll and is destroyed by it |
| Combat.RollChanceAboveThirtyPercent | src/battleCalculator.ts:26-27 | whenever the roll applies, the destruction chance 1 - hull/reference exceeds 30% |
| Combat.AliasedAfterRoll | src/battleCalculator.ts:26-31 | the roll as written, where the reference record is the damaged target itself |
| Combat.AliasedRollNeverFires | src/battleCalculator.ts:26-31 | as written (target and reference one record), the roll never changes a non-negative hull |
| Combat.AliasingSparesCrippledShip | src/battleCalculator.ts:26-31 | a light fighter at hull 100 with draw 0.5 survives as written but is destroyed against its own base hull of 750 |
| Fleets.ToSpecs | src/battleCalculator.ts:35-39 | the same types, one instance per counted ship, every instance equal to the type's base specifications |
| Fleets.ToFleet | src/battleCalculator.ts:41-43 | the same types, each counted by the length of its instance list |
| Fleets.IsFleetEmpty | src/battleCalculator.ts:45-48 | a fleet is empty when its instance counts sum to zero (its meaning is stated by IsFleetEmptyIff) |
| Fleets.RoundTrip | src/battleCalculator.ts:35-43 | expanding counts to instances and collapsing them again gives back the original fleet |
| Fleets.ExpandCountsIff | src/battleCalculator.ts:35-43 | collapsing then expanding gives an instance-form fleet back exactly when every instance still holds its base specifications |
| Fleets.IsFleetEmptyIff | src/battleCalculator.ts:45-48 | a fleet is empty exactly when every present type has no instances (an absent type and an empty list both count zero) |
| Fleets.FleetSizeZero | src/battleCalculator.ts:45-48 | the summed count is zero exactly when every present count is zero |
| Fleets.ToSpecsEmpty | src/battleCalculator.ts:35-48 | the expanded fleet is empty exactly when the counts sum to zero |
| Fleets.ToFleetUpdate | src/battleCalculator.ts:41-43 | replacing one type's instances changes only that type's count, to the new length |
| Fleets.FleetSizeUpdate | src/battleCalculator.ts:45-48 | changing one present type's count changes the fleet size by exactly the difference |
| Fleets.ShrinksSize | src/battleCalculator.ts:45-48 | a fleet whose counts do not grow does not grow in size |
| Battle.RandomIndex | src/battleCalculator.ts:109 | floor(draw * n) is a valid index below n for a draw in [0, 1) and n > 0 |
| Battle.NonEmptyTypes | src/battleCalculator.ts:140 | a type is listed exactly when it is present and has at least one instance |
| Battle.NonEmptyTypesDistinct | src/battleCalculator.ts:140-141 | no type is listed twice, so the choice is uniform over types, not weighted by count |
| Battle.ChooseTargetType | src/battleCalculator.ts:139-142 | the target type: a uniform index over the types that still have instances, or none when the draw gives no index; what it guarantees is stated by ChooseTargetTypeSpec |
| Battle.ChooseTargetTypeSpec | src/battleCalculator.ts:139-142 | a chosen type is present and has instances; for a draw in [0, 1) a type is chosen exactly when the fleet is not empty |
| Battle.GetResult | src/battleCalculator.ts:124-137 | draw exactly when both fleets have ships; defender exactly when the attacker fleet is empty (also when both are); attacker exactly when only the defender fleet is empty |
| Battle.SwapRemove | src/battleCalculator.ts:116-117 | moving the last instance into slot i and dropping the last slot; what it guarantees is stated by SwapRemoveShape |
| Battle.SwapRemoveMultiset | src/battleCalculator.ts:116-117 | overwriting a slot with the last element and dropping the last slot removes exactly that slot's element from the multiset |
| Battle.SwapRemoveShape | src/battleCalculator.ts:115-118 | one instance fewer; the multiset loses exactly the removed instance; other slots keep their instance except that the removed slot receives the last one |
| Battle.Strike | src/battleCalculator.ts:112-118 | the defender fleet after instance i of type t became x: x takes its place, or it is swap-removed when x's hull is 0 or less; its shape is stated by StrikeShape |
| Battle.StrikeShape | src/battleCalculator.ts:112-118 | after a hit, other types are unchanged; the hit type keeps its length if the hull stays positive and loses one instance otherwise; its multiset swaps the old instance for the new one, or just drops it |
| Battle.StrikeKeepsAlive | src/battleCalculator.ts:115-118 | if every defender had a positive hull before a hit, every survivor still does |
| Battle.StrikeKeepsWeapons | src/battleCalculator.ts:112-118 | a hit that leaves weapons alone keeps every instance on its base weapons |
| Battle.StrikeSize | src/battleCalculator.ts:115-118 | one hit removes at most one ship |
| Battle.StrikeWeakens | src/battleCalculator.ts:112-118 | one hit keeps the types, grows no count, keeps survivors alive and on base weapons, and removes at most one ship |
| Battle.AttackResult | src/battleCalculator.ts:106-119 | one attack as a function of the defender and the draws: always two selection draws and a third only when the roll applies (between 2 and 3 draws in all); its effect on the defender is stated by AttackResultStruck |
| Battle.AttackResultStruck | src/battleCalculator.ts:106-119 | an attack leaves the defender alone or strikes one of its instances by the fight rule against that type's base specifications; with a non-empty defender and both selection draws in [0, 1) it always strikes |
| Battle.AttackWeakens | src/battleCalculator.ts:106-119 | one attack, whether or not it found a target, weakens the defender and removes at most one ship |
| Battle.WeakenedShrinks | src/battleCalculator.ts:103-122 | a weakened fleet shows no count growth and no size growth |
| Battle.Attackers | src/battleCalculator.ts:104-105 | every instance of a fleet in attack order, type by type; AttackersCount states that each instance attacks exactly once |
| Battle.AttackersUpToInstances | src/battleCalculator.ts:104-105 | the attackers of the first k types are exactly those types' instances, each once, as a multiset |
| Battle.AttackersCount | src/battleCalculator.ts:104-105 | each instance attacks exactly once: one attack per ship of the fleet, and the multiset of attackers is the sum of the types' instance multisets |
| Battle.SubBattle | src/battleCalculator.ts:103-122 | a list of attackers attacking in order, each against the fleet the previous attacks left, taking between 2 and 3 draws per attacker; SubBattleWeakens states what it does to the defender |
| Battle.SubBattleConcat | src/battleCalculator.ts:104-105 | attacking with one list of instances and then another is attacking with the two lists joined |
| Battle.SubBattleNextType | src/battleCalculator.ts:104-105 | the attacks of the first k + 1 types are those of the first k followed by every instance of type k, if present |
| Battle.SubBattleWeakens | src/battleCalculator.ts:103-122 | a whole sub-battle weakens the defender and removes at most one ship per attacking instance |
| Battle.ResetAll | src/battleCalculator.ts:144-152 | the shield reset of a whole fleet; what it keeps and changes is stated by ResetAllShape |
| Battle.ResetAllShape | src/battleCalculator.ts:144-152 | the reset keeps the types and counts; every instance gets its type's base shields and keeps its hull and weapons |
| Battle.ResetAllUnique | src/battleCalculator.ts:144-152 | a fleet that agrees instance by instance with the base-shield update of another is that fleet's reset |
| Battle.FightRound | src/battleCalculator.ts:79-91 | one round on the battle state: the attacker's sub-battle, the reply of the surviving defenders, then the shield reset on both sides; FightRoundShrinks states that it grows neither side |
| Battle.FightRoundShrinks | src/battleCalculator.ts:79-91 | a round gains no type and grows no count on either side |
| Battle.RoundOfShrinks | src/battleCalculator.ts:79-91 | the round step grows neither side, for every state |
| Battle.FightRoundDraws | src/battleCalculator.ts:79-80 | a round only consumes draws: the counter after it is no smaller than before |
| Battle.RoundOfDraws | src/battleCalculator.ts:79-80 | the round step only consumes draws, from every state |
| Battle.StateAfterDraws | src/battleCalculator.ts:78-94 | with a step that only consumes draws, the counter after any number of rounds is no smaller than at the start |
| Battle.NeverGrowsAt | src/battleCalculator.ts:78-94 | in a report without growth, every round's snapshot has no more ships of any type than the snapshot before it |
| Battle.AppendRound | src/battleCalculator.ts:82-88 | pushing the next round keeps the rounds numbered 1..n and free of growth, and makes it the latest snapshot |
| Battle.AdvanceRound | src/battleCalculator.ts:78-94 | fighting one more round while the battle is on gives the state after n + 1 rounds and appends that round's snapshot to the history |
| Battle.HistoryWellFormed | src/battleCalculator.ts:76-94 | with a step that grows neither side, the history is numbered 1..n, never grows, and its last snapshot shows the current state |
| Battle.RoundsFromFirstStop | src/battleCalculator.ts:78 | the number of rounds is the first round after which a side is empty, or the cap |
| Battle.RoundsFromStops | src/battleCalculator.ts:78 | the rounds stop only when a side is empty or six rounds were fought |
| Battle.RoundsFromOngoing | src/battleCalculator.ts:78 | every round that is fought starts with ships on both sides |
| Battle.RoundsOngoing | src/battleCalculator.ts:78 | every round of a battle starts with ships on both sides |
| Battle.Simulate | src/battleCalculator.ts:65-101 | the report of a whole battle as a function of the inputs, the provider and the draws; SimulateReport and SimulateStops state what it promises |
| Battle.SimulateAt | src/battleCalculator.ts:65-101 | a battle that was on before each of its first n rounds and is over after round n (or at the cap) reports the state after n rounds and the first n snapshots |
| Battle.SimulateStops | src/battleCalculator.ts:78-88 | every round but the last leaves both sides with ships: no round follows a wipe-out |
| Battle.SimulateReport | src/battleCalculator.ts:65-101 | the report starts from the input, has at most 6 rounds numbered 1..n, none when a side starts empty, never shows growth, and names the winner from the final snapshot; fewer than 6 rounds means no draw |
| Battle.BattleFleet.constructor | src/battleCalculator.ts:66-67 | a side's instance-form fleet, held in a mutable object that the battle updates in place, starts as the given fleet |
| Battle.BattleCalculator.constructor | src/battleCalculator.ts:63 | stores the specification provider (the built-in table by default) and the random source; no draw is used yet |
| Battle.BattleCalculator.NextRandom | src/battleCalculator.ts:109 | returns the next draw of the injected stream and advances the stream by one |
| Battle.BattleCalculator.AttackOnce | src/battleCalculator.ts:106-119 | the defender and the draw counter become AttackResult of the old ones; the defender is unchanged or struck by the fight rule; with a non-empty defender and in-range selection draws it is always struck |
| Battle.BattleCalculator.AttackWithEach | src/battleCalculator.ts:105-120 | the listed instances attack in order: the defender and the draw counter become the SubBattle of the old ones |
| Battle.BattleCalculator.AttackWithType | src/battleCalculator.ts:104-121 | the instances of type k attack: the sub-battle of the first k types goes on to the first k + 1 |
| Battle.BattleCalculator.DoBattle | src/battleCalculator.ts:103-122 | the attacking fleet is unchanged; the defender and the draw counter become the SubBattle of every attacking instance in type order; the defender is weakened and loses at most one ship per attacking instance |
| Battle.BattleCalculator.ResetShields | src/battleCalculator.ts:144-152 | the fleet becomes ResetAll of the old one: every instance gets its type's base shields, with hull, weapons, types and counts unchanged |
| Battle.BattleCalculator.PlayRound | src/battleCalculator.ts:79-91 | both fleets and the draw counter become FightRound of the old state, and the snapshot records the counts after both sub-battles |
| Battle.BattleCalculator.PlayNextRound | src/battleCalculator.ts:78-94 | after n rounds of a battle still on, the fleets reach the state after n + 1 rounds and the round's snapshot extends the history |
| Battle.BattleCalculator.FightRounds | src/battleCalculator.ts:76-94 | at most 6 rounds; the fleets end in the state after that many rounds; the snapshots are the history; both sides had ships before every round; fewer than 6 rounds means a side is empty |
| Battle.BattleCalculator.Calculate | src/battleCalculator.ts:65-101 | the report is Simulate of the inputs, and the draw counter ends at the state after that many rounds and never goes back, so a later battle never reuses a draw; it starts from the input; at most 6 rounds, numbered 1..n; no rounds if either side starts empty; no snapshot grows; every round but the last leaves both sides with ships; the winner follows the final snapshot; fewer than 6 rounds means no draw |

## Left out

- `src/main.ts` is not part of this model: it only prints a report and measures time.
- `Math.random` is replaced by the injected stream `BattleCalculator.random`. The uniform distribution and the statistical outcome tests are not modelled.
- Battle.BattleCalculator.DoBattle: the types are visited in the fixed order of `AllShips`, not in the object-key order of the source. The same holds for target types (`Battle.NonEmptyTypes`) and for `ResetShields`. Object-key order is a host-language detail, and no stated property depends on it.
- The sharing of one record by all instances of a type, the base table and the fight's reference is not reproduced (see "Findings"). The model uses independent values throughout.
- Floating point is not modelled. The specifications are integers, the two thresholds are cross-multiplied exactly, and the destruction chance is an exact rational. The floating-point rounding of `0.7` is therefore not captured.
- Counts are natural numbers. Negative or fractional counts, and an undefined entry in a count-form fleet, are outside the model.
- lodash `_.fill` and the object spread in `toSpecs` and `toFleet` are modelled by their results, as map comprehensions.
- Combat.Fight: "never increases hull or shields" is stated for non-negative values only. A negative hull that reaches the roll is set to 0, which is what the source does as well.
- The wall-clock performance test is not a property of the model.

## Findings

| source | as written | input that shows it | evidently intended | confidence | as-written member | corrected member |
|---|---|---|---|---|---|---|
| src/battleCalculator.ts:37, 113 | with the default provider, every instance of a type, the provider's table entry and the fight's reference are one shared object (a provider that returns a fresh record per call still leaves all instances of a type sharing one record), so the roll compares the damaged hull with itself and never fires on a ship with hull left (a hit also damages every instance of the type at once) | a light fighter (base hull 750) at hull 100 after a hit, draw 0.5: survives, although 1 - 100/750 > 0.5 | each instance is an independent copy (the commented-out line 36), and the reference is the unchanged base hull | high; not executed | Combat.AliasingSparesCrippledShip | Combat.Fight |
