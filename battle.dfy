/** The battle: target choice, attacks, shield reset, rounds and the winner. */
module Battle {
  import opened Ships
  import opened Fleets
  import opened Combat

  datatype Option<T> = None | Some(value: T)

  datatype Winner = Attacker | Defender | Draw

  /** Count-form snapshots of both sides. */
  datatype Sides = Sides(attacker: Fleet, defender: Fleet)

  /** The 1-based round number and both sides after that round's combat. */
  datatype BattleRound = BattleRound(round: nat, attacker: Fleet, defender: Fleet)

  datatype BattleReport = BattleReport(winner: Winner, start: Sides, rounds: seq<BattleRound>)

  /** A battle lasts at most this many rounds. */
  const MaxRounds: nat := 6

  /** The built-in table of base specifications, the default provider. */
  function DefaultSpecs(ship: Ship): (s: ShipSpecs)
    ensures ValidBaseSpecs(s)
  {
    match ship
    case BattleShip => ShipSpecs(10000, 5000, 2500)
    case LightFighter => ShipSpecs(750, 100, 1000)
    case HeavyFighter => ShipSpecs(1000, 250, 1500)
    case SmallTransporter => ShipSpecs(750, 250, 100)
    case LargeTransporter => ShipSpecs(2000, 1500, 200)
    case Mothership => ShipSpecs(1_000_000, 250000, 100_000)
  }

  /** Both sides before round i + 1: the start snapshot, or the snapshot of round i. */
  function SidesBefore(start: Sides, rounds: seq<BattleRound>, i: nat): Sides
    requires i <= |rounds|
  {
    if i == 0 then start else Sides(rounds[i - 1].attacker, rounds[i - 1].defender)
  }

  /** Both sides when the battle ended. */
  function FinalSides(report: BattleReport): Sides
  {
    SidesBefore(report.start, report.rounds, |report.rounds|)
  }

  /** Neither side gained a type or a ship between two snapshots. */
  predicate NoGrowth(before: Sides, after: BattleRound)
  {
    Shrinks(before.attacker, after.attacker) && Shrinks(before.defender, after.defender)
  }

  /** No snapshot of the report shows a type or a ship more than the snapshot before it. */
  predicate NeverGrows(start: Sides, rounds: seq<BattleRound>)
    decreases |rounds|
  {
    rounds == []
    || (&& NeverGrows(start, rounds[..|rounds| - 1])
        && NoGrowth(SidesBefore(start, rounds, |rounds| - 1), rounds[|rounds| - 1]))
  }

  /** NeverGrows read round by round: every round shows no growth over the snapshot before it. */
  lemma {:induction false} NeverGrowsAt(start: Sides, rounds: seq<BattleRound>, i: nat)
    requires NeverGrows(start, rounds)
    requires i < |rounds|
    ensures NoGrowth(SidesBefore(start, rounds, i), rounds[i])
  {
    var shorter := rounds[..|rounds| - 1];
    if i < |rounds| - 1 {
      NeverGrowsAt(start, shorter, i);
      assert shorter[i] == rounds[i];
      assert SidesBefore(start, shorter, i) == SidesBefore(start, rounds, i);
    }
  }

  /** The rounds are numbered 1, 2, ... in order. */
  predicate Numbered(rounds: seq<BattleRound>)
  {
    forall i :: 0 <= i < |rounds| ==> rounds[i].round == i + 1
  }

  /**
   * Appending the next round, numbered one past the last and showing no growth
   * over the last snapshot, keeps the report numbered and free of growth.
   */
  lemma AppendRound(start: Sides, rounds: seq<BattleRound>, fought: BattleRound)
    requires Numbered(rounds) && fought.round == |rounds| + 1
    requires NeverGrows(start, rounds)
    requires NoGrowth(SidesBefore(start, rounds, |rounds|), fought)
    ensures Numbered(rounds + [fought])
    ensures NeverGrows(start, rounds + [fought])
    ensures SidesBefore(start, rounds + [fought], |rounds| + 1) == Sides(fought.attacker, fought.defender)
  {
    var longer := rounds + [fought];
    assert longer[..|longer| - 1] == rounds;
    assert longer[|longer| - 1] == fought;
    assert SidesBefore(start, longer, |rounds|) == SidesBefore(start, rounds, |rounds|);
  }

  /** floor(rand * n): an index drawn from a uniform number in [0, 1). */
  function RandomIndex(rand: real, n: nat): (k: int)
    ensures 0.0 <= rand < 1.0 && n > 0 ==> 0 <= k < n
  {
    var x := rand * (n as real);
    assert 0.0 <= rand < 1.0 && n > 0 ==> 0.0 <= x < n as real;
    x.Floor
  }

  /** The types among the first n of AllShips that still have instances, in that order. */
  function NonEmptyTypes(fleet: FleetWithSpecs, n: nat): (types: seq<Ship>)
    requires n <= |AllShips|
    ensures forall t :: t in types <==> Index(t) < n && t in fleet && fleet[t] != []
  {
    if n == 0 then []
    else
      var t := AllShips[n - 1];
      IndexOfPosition(n - 1);
      NonEmptyTypes(fleet, n - 1) + (if t in fleet && fleet[t] != [] then [t] else [])
  }

  /** Each type is listed at most once, so every non-empty type is equally likely to be chosen. */
  lemma {:induction false} NonEmptyTypesDistinct(fleet: FleetWithSpecs, n: nat)
    requires n <= |AllShips|
    ensures forall a, b :: 0 <= a < b < |NonEmptyTypes(fleet, n)| ==>
      NonEmptyTypes(fleet, n)[a] != NonEmptyTypes(fleet, n)[b]
  {
    if n > 0 {
      NonEmptyTypesDistinct(fleet, n - 1);
      IndexOfPosition(n - 1);
    }
  }

  /**
   * The target type for one attack: uniform over the types that still have
   * instances, whatever their counts. None stands for the source's undefined
   * type, which only a fleet without instances (or a draw outside [0, 1)) yields.
   */
  function ChooseTargetType(fleet: FleetWithSpecs, rand: real): Option<Ship>
  {
    var types := NonEmptyTypes(fleet, |AllShips|);
    var k := RandomIndex(rand, |types|);
    if 0 <= k < |types| then Some(types[k]) else None
  }

  /**
   * A chosen type is present and has instances; for a draw in [0, 1) a type is
   * chosen exactly when the fleet is not empty.
   */
  lemma ChooseTargetTypeSpec(fleet: FleetWithSpecs, rand: real)
    ensures ChooseTargetType(fleet, rand).Some? ==>
      ChooseTargetType(fleet, rand).value in fleet && fleet[ChooseTargetType(fleet, rand).value] != []
    ensures 0.0 <= rand < 1.0 ==> (ChooseTargetType(fleet, rand).Some? <==> !IsFleetEmpty(fleet))
  {
    IsFleetEmptyIff(fleet);
  }

  /**
   * The winner from the final fleets: a draw when both still have ships,
   * otherwise the defender when the attacker has none (also when both have
   * none), otherwise the attacker.
   */
  function GetResult(attacker: FleetWithSpecs, defender: FleetWithSpecs): (w: Winner)
    ensures w == Draw <==> !IsFleetEmpty(attacker) && !IsFleetEmpty(defender)
    ensures w == Defender <==> IsFleetEmpty(attacker)
    ensures w == Attacker <==> IsFleetEmpty(defender) && !IsFleetEmpty(attacker)
  {
    var attackerFleetEmpty := IsFleetEmpty(attacker);
    var defenderFleetEmpty := IsFleetEmpty(defender);
    if !attackerFleetEmpty && !defenderFleetEmpty then Draw
    else if attackerFleetEmpty then Defender
    else Attacker
  }

  /** Overwriting slot i with the last element and dropping the last slot loses exactly the element in slot i. */
  lemma SwapRemoveMultiset<T>(s: seq<T>, i: nat)
    requires i < |s|
    ensures multiset(s[i := s[|s| - 1]][..|s| - 1]) == multiset(s) - multiset{s[i]}
  {
    var n := |s|;
    if i == n - 1 {
      assert s[i := s[n - 1]] == s;
      assert s == s[..n - 1] + [s[n - 1]];
    } else {
      assert s[i := s[n - 1]][..n - 1] == s[..i] + [s[n - 1]] + s[i + 1..n - 1];
      assert s == s[..i] + [s[i]] + s[i + 1..n - 1] + [s[n - 1]];
    }
  }

  /** Moves the last instance into slot i and drops the last slot. */
  function SwapRemove(s: seq<ShipSpecs>, i: nat): seq<ShipSpecs>
    requires i < |s|
  {
    s[i := s[|s| - 1]][..|s| - 1]
  }

  /**
   * Swap-removal drops one slot and exactly the instance in slot i; slot i now
   * holds the old last instance and every other slot is unchanged.
   */
  lemma SwapRemoveShape(s: seq<ShipSpecs>, i: nat)
    requires i < |s|
    ensures |SwapRemove(s, i)| == |s| - 1
    ensures multiset(SwapRemove(s, i)) == multiset(s) - multiset{s[i]}
    ensures forall j :: 0 <= j < |SwapRemove(s, i)| && j != i ==> SwapRemove(s, i)[j] == s[j]
    ensures i < |SwapRemove(s, i)| ==> SwapRemove(s, i)[i] == s[|s| - 1]
  {
    SwapRemoveMultiset(s, i);
  }

  /**
   * The defender fleet after instance i of type t was hit and became x: x takes
   * its place, or, when x's hull is 0 or less, the instance is swap-removed.
   */
  function Strike(fleet: FleetWithSpecs, t: Ship, i: nat, x: ShipSpecs): FleetWithSpecs
    requires t in fleet && i < |fleet[t]|
  {
    if x.hull <= 0 then fleet[t := SwapRemove(fleet[t], i)]
    else fleet[t := fleet[t][i := x]]
  }

  /**
   * After a hit the other types are untouched; the hit type keeps its length when
   * the new hull is positive and loses one instance otherwise; its multiset trades
   * the old instance for the new one, or just drops it.
   */
  lemma StrikeShape(fleet: FleetWithSpecs, t: Ship, i: nat, x: ShipSpecs)
    requires t in fleet && i < |fleet[t]|
    ensures Strike(fleet, t, i, x).Keys == fleet.Keys
    ensures forall u :: u in fleet && u != t ==> Strike(fleet, t, i, x)[u] == fleet[u]
    ensures |Strike(fleet, t, i, x)[t]| == if x.hull > 0 then |fleet[t]| else |fleet[t]| - 1
    ensures multiset(Strike(fleet, t, i, x)[t]) == multiset(fleet[t]) - multiset{fleet[t][i]}
                                                  + (if x.hull > 0 then multiset{x} else multiset{})
  {
    if x.hull <= 0 {
      SwapRemoveShape(fleet[t], i);
    }
  }

  /** Every instance has a positive hull. */
  ghost predicate AllAlive(fleet: FleetWithSpecs)
  {
    forall t, i :: t in fleet && 0 <= i < |fleet[t]| ==> fleet[t][i].hull > 0
  }

  /** Every instance carries its type's base weapons. */
  ghost predicate HasBaseWeapons(fleet: FleetWithSpecs, specs: ShipSpecProvider)
  {
    forall t, i :: t in fleet && 0 <= i < |fleet[t]| ==> fleet[t][i].weapons == specs(t).weapons
  }

  /**
   * The attacker hit instance i of type t: that instance went through the fight
   * rule against its type's base specifications, with some draw for the roll,
   * and was kept or swap-removed.
   */
  ghost predicate Struck(before: FleetWithSpecs, after: FleetWithSpecs, attacker: ShipSpecs, specs: ShipSpecProvider)
  {
    exists t: Ship, i: nat, rand: real ::
      && t in before && i < |before[t]|
      && after == Strike(before, t, i, FightWith(attacker, before[t][i], specs(t), rand))
  }

  /**
   * What one side's attacks can do to the other: the same types, no count
   * larger, survivors stay alive and keep their weapons, and an empty fleet is
   * left alone.
   */
  ghost predicate Weakened(before: FleetWithSpecs, after: FleetWithSpecs, specs: ShipSpecProvider)
  {
    && after.Keys == before.Keys
    && (forall t :: t in after ==> |after[t]| <= |before[t]|)
    && (AllAlive(before) ==> AllAlive(after))
    && (HasBaseWeapons(before, specs) ==> HasBaseWeapons(after, specs))
    && (IsFleetEmpty(before) ==> after == before)
  }

  /** A hit keeps every survivor alive: a hit instance stays only with a positive hull. */
  lemma StrikeKeepsAlive(fleet: FleetWithSpecs, t: Ship, i: nat, x: ShipSpecs)
    requires t in fleet && i < |fleet[t]|
    requires AllAlive(fleet)
    ensures AllAlive(Strike(fleet, t, i, x))
  {
    StrikeShape(fleet, t, i, x);
    var r: FleetWithSpecs := Strike(fleet, t, i, x);
    forall u: Ship, j: int | u in r && 0 <= j < |r[u]|
      ensures r[u][j].hull > 0
    {
      if u == t && x.hull <= 0 {
        assert r[t] == SwapRemove(fleet[t], i);
        SwapRemoveShape(fleet[t], i);
        if j == i {
          assert r[u][j] == fleet[t][|fleet[t]| - 1];
        } else {
          assert r[u][j] == fleet[t][j];
        }
      }
    }
  }

  /** A hit that leaves the weapons alone keeps every instance on its base weapons. */
  lemma StrikeKeepsWeapons(fleet: FleetWithSpecs, t: Ship, i: nat, x: ShipSpecs, specs: ShipSpecProvider)
    requires t in fleet && i < |fleet[t]|
    requires x.weapons == fleet[t][i].weapons
    requires HasBaseWeapons(fleet, specs)
    ensures HasBaseWeapons(Strike(fleet, t, i, x), specs)
  {
    StrikeShape(fleet, t, i, x);
    var r: FleetWithSpecs := Strike(fleet, t, i, x);
    forall u: Ship, j: int | u in r && 0 <= j < |r[u]|
      ensures r[u][j].weapons == specs(u).weapons
    {
      if u == t && x.hull <= 0 {
        assert r[t] == SwapRemove(fleet[t], i);
        SwapRemoveShape(fleet[t], i);
        if j == i {
          assert r[u][j] == fleet[t][|fleet[t]| - 1];
        } else {
          assert r[u][j] == fleet[t][j];
        }
      }
    }
  }

  /** A single hit removes at most one ship. */
  lemma StrikeSize(fleet: FleetWithSpecs, t: Ship, i: nat, x: ShipSpecs)
    requires t in fleet && i < |fleet[t]|
    ensures FleetSize(ToFleet(fleet)) <= FleetSize(ToFleet(Strike(fleet, t, i, x))) + 1
  {
    var instances := if x.hull <= 0 then SwapRemove(fleet[t], i) else fleet[t][i := x];
    assert Strike(fleet, t, i, x) == fleet[t := instances];
    ToFleetUpdate(fleet, t, instances);
    FleetSizeUpdate(ToFleet(fleet), t, |instances|);
  }

  /** A single hit weakens the defender and removes at most one ship. */
  lemma StrikeWeakens(fleet: FleetWithSpecs, t: Ship, i: nat, x: ShipSpecs, specs: ShipSpecProvider)
    requires t in fleet && i < |fleet[t]|
    requires x.weapons == fleet[t][i].weapons
    ensures Weakened(fleet, Strike(fleet, t, i, x), specs)
    ensures FleetSize(ToFleet(fleet)) <= FleetSize(ToFleet(Strike(fleet, t, i, x))) + 1
  {
    IsFleetEmptyIff(fleet);
    assert !IsFleetEmpty(fleet);
    if AllAlive(fleet) {
      StrikeKeepsAlive(fleet, t, i, x);
    }
    if HasBaseWeapons(fleet, specs) {
      StrikeKeepsWeapons(fleet, t, i, x, specs);
    }
    StrikeSize(fleet, t, i, x);
  }

  /** Either no hit happened or one hit did: the defender is weakened and loses at most one ship. */
  lemma AttackWeakens(before: FleetWithSpecs, after: FleetWithSpecs, attacker: ShipSpecs, specs: ShipSpecProvider)
    requires after == before || Struck(before, after, attacker, specs)
    ensures Weakened(before, after, specs)
    ensures FleetSize(ToFleet(before)) <= FleetSize(ToFleet(after)) + 1
  {
    if after != before {
      var t: Ship, i: nat, rand: real :|
        && t in before && i < |before[t]|
        && after == Strike(before, t, i, FightWith(attacker, before[t][i], specs(t), rand));
      StrikeWeakens(before, t, i, FightWith(attacker, before[t][i], specs(t), rand), specs);
    }
  }

  /** Weakening composes. */
  lemma WeakenedTrans(a: FleetWithSpecs, b: FleetWithSpecs, c: FleetWithSpecs, specs: ShipSpecProvider)
    requires Weakened(a, b, specs) && Weakened(b, c, specs)
    ensures Weakened(a, c, specs)
  {
  }

  /** A weakened fleet shows no count growth and no size growth. */
  lemma WeakenedShrinks(before: FleetWithSpecs, after: FleetWithSpecs, specs: ShipSpecProvider)
    requires Weakened(before, after, specs)
    ensures Shrinks(ToFleet(before), ToFleet(after))
    ensures FleetSize(ToFleet(after)) <= FleetSize(ToFleet(before))
  {
    ShrinksSize(ToFleet(before), ToFleet(after));
  }

  /**
   * One attack as a function of the defender fleet and the random source: the
   * defender fleet afterwards and the number of the next unused draw. The type
   * draw and the index draw are always taken; the fight takes a third draw
   * only when its roll applies. A draw that yields no type or no instance
   * means no fight.
   */
  function AttackResult(defender: FleetWithSpecs, attacker: ShipSpecs, specs: ShipSpecProvider,
                        random: nat -> real, drawn: nat): (r: (FleetWithSpecs, nat))
    ensures drawn + 2 <= r.1 <= drawn + 3
  {
    var targetType := ChooseTargetType(defender, random(drawn));
    var defendersOfType :=
      if targetType.Some? && targetType.value in defender then defender[targetType.value] else [];
    var defenderIdx := RandomIndex(random(drawn + 1), |defendersOfType|);
    if targetType.Some? && 0 <= defenderIdx < |defendersOfType| then
      var ship := targetType.value;
      var target := defendersOfType[defenderIdx];
      var rolled := RollApplies(Damage(attacker, target).hull, specs(ship).hull);
      (Strike(defender, ship, defenderIdx, FightWith(attacker, target, specs(ship), random(drawn + 2))),
       drawn + 2 + if rolled then 1 else 0)
    else (defender, drawn + 2)
  }

  /**
   * An attack leaves the defender alone or strikes one of its instances by the
   * fight rule; with a non-empty defender and both selection draws in [0, 1)
   * it always strikes.
   */
  lemma AttackResultStruck(defender: FleetWithSpecs, attacker: ShipSpecs, specs: ShipSpecProvider,
                           random: nat -> real, drawn: nat)
    ensures AttackResult(defender, attacker, specs, random, drawn).0 == defender
         || Struck(defender, AttackResult(defender, attacker, specs, random, drawn).0, attacker, specs)
    ensures !IsFleetEmpty(defender) && 0.0 <= random(drawn) < 1.0 && 0.0 <= random(drawn + 1) < 1.0 ==>
      Struck(defender, AttackResult(defender, attacker, specs, random, drawn).0, attacker, specs)
  {
    var after := AttackResult(defender, attacker, specs, random, drawn).0;
    var targetType := ChooseTargetType(defender, random(drawn));
    ChooseTargetTypeSpec(defender, random(drawn));
    if targetType.Some? {
      var ship := targetType.value;
      var defenderIdx := RandomIndex(random(drawn + 1), |defender[ship]|);
      if 0 <= defenderIdx < |defender[ship]| {
        assert after == Strike(defender, ship, defenderIdx,
                               FightWith(attacker, defender[ship][defenderIdx], specs(ship), random(drawn + 2)));
      }
    }
  }

  /** The attacking instances of the first n types of AllShips, type by type, in attack order. */
  function AttackersUpTo(fleet: FleetWithSpecs, n: nat): seq<ShipSpecs>
    requires n <= |AllShips|
  {
    if n == 0 then []
    else AttackersUpTo(fleet, n - 1) + (if AllShips[n - 1] in fleet then fleet[AllShips[n - 1]] else [])
  }

  /** All instances of a fleet in the order in which they attack. */
  function Attackers(fleet: FleetWithSpecs): seq<ShipSpecs>
  {
    AttackersUpTo(fleet, |AllShips|)
  }

  /** The instances of the first n types of AllShips, as a multiset. */
  function InstancesUpTo(fleet: FleetWithSpecs, n: nat): multiset<ShipSpecs>
    requires n <= |AllShips|
  {
    if n == 0 then multiset{}
    else InstancesUpTo(fleet, n - 1) + (if AllShips[n - 1] in fleet then multiset(fleet[AllShips[n - 1]]) else multiset{})
  }

  /** The attackers of the first n types are exactly those types' instances, each once. */
  lemma {:induction false} AttackersUpToInstances(fleet: FleetWithSpecs, n: nat)
    requires n <= |AllShips|
    ensures multiset(AttackersUpTo(fleet, n)) == InstancesUpTo(fleet, n)
  {
    if n > 0 {
      AttackersUpToInstances(fleet, n - 1);
      var t := AllShips[n - 1];
      var last := if t in fleet then fleet[t] else [];
      assert AttackersUpTo(fleet, n) == AttackersUpTo(fleet, n - 1) + last;
      assert multiset(AttackersUpTo(fleet, n)) == multiset(AttackersUpTo(fleet, n - 1)) + multiset(last);
    }
  }

  /** The first n types contribute as many attackers as they count ships, each of their instances among them. */
  lemma {:induction false} AttackersUpToCount(fleet: FleetWithSpecs, n: nat)
    requires n <= |AllShips|
    ensures |AttackersUpTo(fleet, n)| == CountUpTo(ToFleet(fleet), n)
    ensures forall t, i :: t in fleet && Index(t) < n && 0 <= i < |fleet[t]| ==> fleet[t][i] in AttackersUpTo(fleet, n)
  {
    if n > 0 {
      AttackersUpToCount(fleet, n - 1);
      IndexOfPosition(n - 1);
      var t := AllShips[n - 1];
      if t in fleet {
        forall i | 0 <= i < |fleet[t]|
          ensures fleet[t][i] in AttackersUpTo(fleet, n)
        {
          assert AttackersUpTo(fleet, n)[|AttackersUpTo(fleet, n - 1)| + i] == fleet[t][i];
        }
      }
    }
  }

  /** Every instance attacks exactly once: one attack per ship, and the attackers are the fleet's instances. */
  lemma AttackersCount(fleet: FleetWithSpecs)
    ensures |Attackers(fleet)| == FleetSize(ToFleet(fleet))
    ensures multiset(Attackers(fleet)) == InstancesUpTo(fleet, |AllShips|)
    ensures forall t, i :: t in fleet && 0 <= i < |fleet[t]| ==> fleet[t][i] in Attackers(fleet)
  {
    AttackersUpToCount(fleet, |AllShips|);
    AttackersUpToInstances(fleet, |AllShips|);
  }

  /**
   * A sub-battle as a function: the attackers attack one after the other, each
   * against the defender fleet the previous attacks left, each taking two or
   * three draws.
   */
  function SubBattle(defender: FleetWithSpecs, attackers: seq<ShipSpecs>, specs: ShipSpecProvider,
                     random: nat -> real, drawn: nat): (r: (FleetWithSpecs, nat))
    ensures drawn + 2 * |attackers| <= r.1 <= drawn + 3 * |attackers|
    decreases |attackers|
  {
    if attackers == [] then (defender, drawn)
    else
      var before := SubBattle(defender, attackers[..|attackers| - 1], specs, random, drawn);
      AttackResult(before.0, attackers[|attackers| - 1], specs, random, before.1)
  }

  /** The next instance of a type adds one attack at the end of the sub-battle. */
  lemma SubBattleAppend(defender: FleetWithSpecs, attackers: seq<ShipSpecs>, j: nat,
                        specs: ShipSpecProvider, random: nat -> real, drawn: nat)
    requires j < |attackers|
    ensures SubBattle(defender, attackers[..j + 1], specs, random, drawn)
         == AttackResult(SubBattle(defender, attackers[..j], specs, random, drawn).0, attackers[j], specs, random,
                         SubBattle(defender, attackers[..j], specs, random, drawn).1)
  {
    assert attackers[..j + 1][..j] == attackers[..j];
  }

  /** Attacking with xs and then with ys is attacking with xs + ys. */
  lemma {:induction false} SubBattleConcat(defender: FleetWithSpecs, xs: seq<ShipSpecs>, ys: seq<ShipSpecs>,
                                           specs: ShipSpecProvider, random: nat -> real, drawn: nat)
    ensures SubBattle(defender, xs + ys, specs, random, drawn)
         == SubBattle(SubBattle(defender, xs, specs, random, drawn).0, ys, specs, random,
                      SubBattle(defender, xs, specs, random, drawn).1)
    decreases |ys|
  {
    if ys == [] {
      assert xs + ys == xs;
    } else {
      var shorter := ys[..|ys| - 1];
      assert (xs + ys)[..|xs + ys| - 1] == xs + shorter;
      SubBattleConcat(defender, xs, shorter, specs, random, drawn);
    }
  }

  /** The sub-battle of the first k + 1 types goes on from that of the first k with the instances of type k. */
  lemma SubBattleNextType(defender: FleetWithSpecs, fleet: FleetWithSpecs, k: nat,
                          specs: ShipSpecProvider, random: nat -> real, drawn: nat)
    requires k < |AllShips|
    ensures AllShips[k] in fleet ==>
      SubBattle(defender, AttackersUpTo(fleet, k + 1), specs, random, drawn)
        == SubBattle(SubBattle(defender, AttackersUpTo(fleet, k), specs, random, drawn).0, fleet[AllShips[k]],
                     specs, random, SubBattle(defender, AttackersUpTo(fleet, k), specs, random, drawn).1)
    ensures AllShips[k] !in fleet ==>
      SubBattle(defender, AttackersUpTo(fleet, k + 1), specs, random, drawn)
        == SubBattle(defender, AttackersUpTo(fleet, k), specs, random, drawn)
  {
    if AllShips[k] in fleet {
      SubBattleConcat(defender, AttackersUpTo(fleet, k), fleet[AllShips[k]], specs, random, drawn);
    } else {
      assert AttackersUpTo(fleet, k + 1) == AttackersUpTo(fleet, k);
    }
  }

  /** A sub-battle weakens the defender and removes at most one ship per attacker. */
  lemma {:induction false} SubBattleWeakens(defender: FleetWithSpecs, attackers: seq<ShipSpecs>,
                                            specs: ShipSpecProvider, random: nat -> real, drawn: nat)
    ensures Weakened(defender, SubBattle(defender, attackers, specs, random, drawn).0, specs)
    ensures FleetSize(ToFleet(defender))
         <= FleetSize(ToFleet(SubBattle(defender, attackers, specs, random, drawn).0)) + |attackers|
    decreases |attackers|
  {
    if attackers != [] {
      var prefix := attackers[..|attackers| - 1];
      var attacker := attackers[|attackers| - 1];
      var mid := SubBattle(defender, prefix, specs, random, drawn);
      var after := SubBattle(defender, attackers, specs, random, drawn).0;
      SubBattleWeakens(defender, prefix, specs, random, drawn);
      AttackResultStruck(mid.0, attacker, specs, random, mid.1);
      AttackWeakens(mid.0, after, attacker, specs);
      WeakenedTrans(defender, mid.0, after, specs);
    }
  }

  /** Every instance of a list with its shields set to `shields`. */
  function ResetType(instances: seq<ShipSpecs>, shields: int): (r: seq<ShipSpecs>)
    ensures |r| == |instances|
    ensures forall i :: 0 <= i < |r| ==> r[i] == instances[i].(shields := shields)
  {
    seq(|instances|, i requires 0 <= i < |instances| => instances[i].(shields := shields))
  }

  /**
   * The shield reset as a function: every instance gets its type's base
   * shields and keeps its hull and weapons; the counts do not change.
   */
  function ResetAll(fleet: FleetWithSpecs, specs: ShipSpecProvider): FleetWithSpecs
  {
    map t | t in fleet :: ResetType(fleet[t], specs(t).shields)
  }

  /**
   * The shield reset keeps the types and their counts; every instance gets its
   * type's base shields and keeps its hull and weapons.
   */
  lemma ResetAllShape(fleet: FleetWithSpecs, specs: ShipSpecProvider)
    ensures ResetAll(fleet, specs).Keys == fleet.Keys
    ensures ToFleet(ResetAll(fleet, specs)) == ToFleet(fleet)
    ensures forall t, i :: t in ResetAll(fleet, specs) && 0 <= i < |ResetAll(fleet, specs)[t]| ==>
      && ResetAll(fleet, specs)[t][i].shields == specs(t).shields
      && ResetAll(fleet, specs)[t][i].hull == fleet[t][i].hull
      && ResetAll(fleet, specs)[t][i].weapons == fleet[t][i].weapons
  {
    var r := ResetAll(fleet, specs);
    assert forall t :: t in r ==> |r[t]| == |fleet[t]|;
  }

  /** A fleet that agrees with the reset instance by instance is the reset fleet. */
  lemma ResetAllUnique(before: FleetWithSpecs, after: FleetWithSpecs, specs: ShipSpecProvider)
    requires after.Keys == before.Keys
    requires forall t :: t in after ==> |after[t]| == |before[t]|
    requires forall t, i :: t in after && 0 <= i < |after[t]| ==>
      after[t][i] == before[t][i].(shields := specs(t).shields)
    ensures after == ResetAll(before, specs)
  {
    var r := ResetAll(before, specs);
    forall t | t in after
      ensures after[t] == r[t]
    {
      assert |after[t]| == |r[t]|;
    }
  }

  /** Both fleets in instance form between rounds, and the number of the next unused draw. */
  datatype BattleState = BattleState(attacker: FleetWithSpecs, defender: FleetWithSpecs, drawn: nat)

  /** Both sides still have ships. */
  predicate Ongoing(s: BattleState)
  {
    !IsFleetEmpty(s.attacker) && !IsFleetEmpty(s.defender)
  }

  /** The state before the first round. */
  function Initial(attacker: Fleet, defender: Fleet, specs: ShipSpecProvider, drawn: nat): BattleState
  {
    BattleState(ToSpecs(attacker, specs), ToSpecs(defender, specs), drawn)
  }

  /** One round: the attacker's sub-battle, the defender's reply with its survivors, then the shield reset on both sides. */
  function FightRound(s: BattleState, specs: ShipSpecProvider, random: nat -> real): BattleState
  {
    var defender := SubBattle(s.defender, Attackers(s.attacker), specs, random, s.drawn);
    var attacker := SubBattle(s.attacker, Attackers(defender.0), specs, random, defender.1);
    BattleState(ResetAll(attacker.0, specs), ResetAll(defender.0, specs), attacker.1)
  }

  /** The counts after a round: no type is gained on either side and no count grows. */
  lemma FightRoundShrinks(s: BattleState, specs: ShipSpecProvider, random: nat -> real)
    ensures Shrinks(ToFleet(s.attacker), ToFleet(FightRound(s, specs, random).attacker))
    ensures Shrinks(ToFleet(s.defender), ToFleet(FightRound(s, specs, random).defender))
  {
    var defender := SubBattle(s.defender, Attackers(s.attacker), specs, random, s.drawn);
    SubBattleWeakens(s.defender, Attackers(s.attacker), specs, random, s.drawn);
    SubBattleWeakens(s.attacker, Attackers(defender.0), specs, random, defender.1);
    WeakenedShrinks(s.defender, defender.0, specs);
    WeakenedShrinks(s.attacker, SubBattle(s.attacker, Attackers(defender.0), specs, random, defender.1).0, specs);
  }

  /** A round as a function on battle states. */
  type RoundStep = BattleState -> BattleState

  /** The round of the battle calculator, as a step function. */
  function RoundOf(specs: ShipSpecProvider, random: nat -> real): RoundStep
  {
    s => FightRound(s, specs, random)
  }

  /** Applying the round step is fighting a round. */
  lemma RoundOfIsRound(specs: ShipSpecProvider, random: nat -> real)
    ensures forall s: BattleState {:trigger FightRound(s, specs, random)} ::
      RoundOf(specs, random)(s) == FightRound(s, specs, random)
  {
  }

  /** The round step of the battle calculator shows no growth on either side. */
  lemma RoundOfShrinks(specs: ShipSpecProvider, random: nat -> real)
    ensures forall s: BattleState :: Shrinks(ToFleet(s.attacker), ToFleet(RoundOf(specs, random)(s).attacker))
    ensures forall s: BattleState :: Shrinks(ToFleet(s.defender), ToFleet(RoundOf(specs, random)(s).defender))
  {
    forall s: BattleState
      ensures Shrinks(ToFleet(s.attacker), ToFleet(RoundOf(specs, random)(s).attacker))
      ensures Shrinks(ToFleet(s.defender), ToFleet(RoundOf(specs, random)(s).defender))
    {
      FightRoundShrinks(s, specs, random);
    }
  }

  /** The state after n rounds, had all n been fought. */
  function StateAfter(init: BattleState, step: RoundStep, n: nat): BattleState
  {
    if n == 0 then init else step(StateAfter(init, step, n - 1))
  }

  /** A round only consumes draws: both sub-battles take at least two draws per attacker. */
  lemma FightRoundDraws(s: BattleState, specs: ShipSpecProvider, random: nat -> real)
    ensures s.drawn <= FightRound(s, specs, random).drawn
  {
    var defender := SubBattle(s.defender, Attackers(s.attacker), specs, random, s.drawn);
    var attacker := SubBattle(s.attacker, Attackers(defender.0), specs, random, defender.1);
    assert FightRound(s, specs, random).drawn == attacker.1;
  }

  /** The round step of the battle calculator only consumes draws, from every state. */
  lemma RoundOfDraws(specs: ShipSpecProvider, random: nat -> real)
    ensures forall s: BattleState :: s.drawn <= RoundOf(specs, random)(s).drawn
  {
    forall s: BattleState
      ensures s.drawn <= RoundOf(specs, random)(s).drawn
    {
      FightRoundDraws(s, specs, random);
    }
  }

  /** With a step that only consumes draws, the draw counter never goes back. */
  lemma {:induction false} StateAfterDraws(init: BattleState, step: RoundStep, n: nat)
    requires forall s: BattleState :: s.drawn <= step(s).drawn
    ensures init.drawn <= StateAfter(init, step, n).drawn
  {
    if n > 0 {
      StateAfterDraws(init, step, n - 1);
    }
  }

  /**
   * One round of the battle calculator from state s: the defender after the
   * attacker's sub-battle, the attacker after the reply, both reset.
   */
  lemma FightRoundSteps(s: BattleState, specs: ShipSpecProvider, random: nat -> real,
                        defender: FleetWithSpecs, attacker: FleetWithSpecs, mid: nat, drawn: nat)
    requires (defender, mid) == SubBattle(s.defender, Attackers(s.attacker), specs, random, s.drawn)
    requires (attacker, drawn) == SubBattle(s.attacker, Attackers(defender), specs, random, mid)
    ensures FightRound(s, specs, random) == BattleState(ResetAll(attacker, specs), ResetAll(defender, specs), drawn)
  {
  }

  /**
   * Fighting one more round from the state after n rounds, while the battle is
   * on, gives the state after n + 1 rounds, appends its snapshot to the
   * history, and keeps the battle on before every round so far.
   */
  lemma AdvanceRound(init: BattleState, step: RoundStep, n: nat, previous: BattleState, next: BattleState,
                     rounds: seq<BattleRound>, fought: BattleRound)
    requires previous == StateAfter(init, step, n)
    requires rounds == History(init, step, n)
    requires OngoingBefore(init, step, n)
    requires Ongoing(previous)
    requires next == step(previous)
    requires fought == Snapshot(n + 1, next)
    ensures next == StateAfter(init, step, n + 1)
    ensures rounds + [fought] == History(init, step, n + 1)
    ensures OngoingBefore(init, step, n + 1)
  {
  }

  /** The snapshot recorded for a round. */
  function Snapshot(round: nat, s: BattleState): BattleRound
  {
    BattleRound(round, ToFleet(s.attacker), ToFleet(s.defender))
  }

  /** The snapshots of the first n rounds. */
  function History(init: BattleState, step: RoundStep, n: nat): (h: seq<BattleRound>)
    ensures |h| == n
  {
    if n == 0 then [] else History(init, step, n - 1) + [Snapshot(n, StateAfter(init, step, n))]
  }

  /**
   * The number of rounds fought once n have been: the next one is fought
   * while both sides have ships and fewer than MaxRounds were fought.
   */
  function RoundsFrom(init: BattleState, step: RoundStep, n: nat): (m: nat)
    requires n <= MaxRounds
    ensures n <= m <= MaxRounds
    decreases MaxRounds - n
  {
    if n < MaxRounds && Ongoing(StateAfter(init, step, n)) then RoundsFrom(init, step, n + 1) else n
  }

  /** The report of a battle, as a function of the input fleets, the provider and the random source. */
  function Simulate(attacker: Fleet, defender: Fleet, specs: ShipSpecProvider, random: nat -> real, drawn: nat)
    : BattleReport
  {
    var init := Initial(attacker, defender, specs, drawn);
    var n := RoundsFrom(init, RoundOf(specs, random), 0);
    var last := StateAfter(init, RoundOf(specs, random), n);
    BattleReport(GetResult(last.attacker, last.defender),
                 Sides(ToFleet(init.attacker), ToFleet(init.defender)),
                 History(init, RoundOf(specs, random), n))
  }

  /** Round i + 1 of the history is the snapshot of the state after i + 1 rounds. */
  lemma {:induction false} HistoryAt(init: BattleState, step: RoundStep, n: nat, i: nat)
    requires i < n
    ensures History(init, step, n)[i] == Snapshot(i + 1, StateAfter(init, step, i + 1))
  {
    if i < n - 1 {
      HistoryAt(init, step, n - 1, i);
    }
  }

  /**
   * With a step that grows neither side, the history is numbered 1..n, never
   * grows, and its last snapshot (or the start snapshot) shows the current state.
   */
  lemma {:induction false} HistoryWellFormed(init: BattleState, step: RoundStep, n: nat)
    requires forall s: BattleState :: Shrinks(ToFleet(s.attacker), ToFleet(step(s).attacker))
    requires forall s: BattleState :: Shrinks(ToFleet(s.defender), ToFleet(step(s).defender))
    ensures Numbered(History(init, step, n))
    ensures NeverGrows(Sides(ToFleet(init.attacker), ToFleet(init.defender)), History(init, step, n))
    ensures SidesBefore(Sides(ToFleet(init.attacker), ToFleet(init.defender)), History(init, step, n), n)
         == Sides(ToFleet(StateAfter(init, step, n).attacker), ToFleet(StateAfter(init, step, n).defender))
  {
    if n > 0 {
      HistoryWellFormed(init, step, n - 1);
      AppendRound(Sides(ToFleet(init.attacker), ToFleet(init.defender)), History(init, step, n - 1),
                  Snapshot(n, StateAfter(init, step, n)));
    }
  }

  /** Every state before round `n + 1` still had ships on both sides. */
  predicate OngoingBefore(init: BattleState, step: RoundStep, n: nat)
  {
    n == 0 || (OngoingBefore(init, step, n - 1) && Ongoing(StateAfter(init, step, n - 1)))
  }

  lemma {:induction false} OngoingBeforeAt(init: BattleState, step: RoundStep, n: nat, k: nat)
    requires k < n
    requires OngoingBefore(init, step, n)
    ensures Ongoing(StateAfter(init, step, k))
    decreases n
  {
    if k < n - 1 {
      OngoingBeforeAt(init, step, n - 1, k);
    }
  }

  /** The number of rounds is the first round after which a side is empty, or the cap. */
  lemma {:induction false} RoundsFromFirstStop(init: BattleState, step: RoundStep, k: nat, n: nat)
    requires k <= n <= MaxRounds
    requires OngoingBefore(init, step, n)
    requires n == MaxRounds || !Ongoing(StateAfter(init, step, n))
    ensures RoundsFrom(init, step, k) == n
    decreases n - k
  {
    if k < n {
      OngoingBeforeAt(init, step, n, k);
      RoundsFromFirstStop(init, step, k + 1, n);
    }
  }

  /** The rounds from n on stop only when a side is empty or MaxRounds were fought. */
  lemma {:induction false} RoundsFromStops(init: BattleState, step: RoundStep, n: nat)
    requires n <= MaxRounds
    ensures RoundsFrom(init, step, n) == MaxRounds || !Ongoing(StateAfter(init, step, RoundsFrom(init, step, n)))
    decreases MaxRounds - n
  {
    if n < MaxRounds && Ongoing(StateAfter(init, step, n)) {
      RoundsFromStops(init, step, n + 1);
    }
  }

  /** Every round from n on that is fought starts with ships on both sides. */
  lemma {:induction false} RoundsFromOngoing(init: BattleState, step: RoundStep, n: nat, k: nat)
    requires n <= MaxRounds
    requires n <= k < RoundsFrom(init, step, n)
    ensures Ongoing(StateAfter(init, step, k))
    decreases k - n
  {
    if n < k {
      RoundsFromOngoing(init, step, n + 1, k);
    }
  }

  /** Every round of a battle is fought with ships on both sides. */
  lemma RoundsOngoing(init: BattleState, step: RoundStep)
    ensures forall k :: 0 <= k < RoundsFrom(init, step, 0) ==> Ongoing(StateAfter(init, step, k))
  {
    forall k | 0 <= k < RoundsFrom(init, step, 0) {
      RoundsFromOngoing(init, step, 0, k);
    }
  }

  /**
   * A battle that was still on before each of its first n rounds, and is over
   * after round n or has reached the cap, reports the state after n rounds and
   * the first n snapshots.
   */
  lemma SimulateAt(attacker: Fleet, defender: Fleet, specs: ShipSpecProvider, random: nat -> real, drawn: nat,
                   n: nat)
    requires n <= MaxRounds
    requires OngoingBefore(Initial(attacker, defender, specs, drawn), RoundOf(specs, random), n)
    requires n == MaxRounds
          || !Ongoing(StateAfter(Initial(attacker, defender, specs, drawn), RoundOf(specs, random), n))
    ensures var init := Initial(attacker, defender, specs, drawn);
      var last := StateAfter(init, RoundOf(specs, random), n);
      Simulate(attacker, defender, specs, random, drawn)
        == BattleReport(GetResult(last.attacker, last.defender),
                        Sides(ToFleet(init.attacker), ToFleet(init.defender)),
                        History(init, RoundOf(specs, random), n))
  {
    RoundsFromFirstStop(Initial(attacker, defender, specs, drawn), RoundOf(specs, random), 0, n);
  }

  /** The battle ends when a side is wiped out: every round but the last leaves both sides with ships. */
  lemma SimulateStops(attacker: Fleet, defender: Fleet, specs: ShipSpecProvider, random: nat -> real, drawn: nat,
                      report: BattleReport)
    requires report == Simulate(attacker, defender, specs, random, drawn)
    ensures forall i :: 0 <= i < |report.rounds| - 1 ==>
        FleetSize(report.rounds[i].attacker) > 0 && FleetSize(report.rounds[i].defender) > 0
  {
    var init := Initial(attacker, defender, specs, drawn);
    var step := RoundOf(specs, random);
    var n := RoundsFrom(init, step, 0);
    RoundsOngoing(init, step);
    forall i | 0 <= i && i + 1 < n
      ensures FleetSize(History(init, step, n)[i].attacker) > 0
      ensures FleetSize(History(init, step, n)[i].defender) > 0
    {
      HistoryAt(init, step, n, i);
      assert Ongoing(StateAfter(init, step, i + 1));
    }
  }

  /**
   * What the report of a battle promises: it starts from the input fleets, has
   * at most MaxRounds rounds numbered 1..n, none when a side starts empty,
   * never shows growth, and names the winner from the final snapshot; fewer
   * than MaxRounds rounds means a side was wiped out.
   */
  lemma SimulateReport(attacker: Fleet, defender: Fleet, specs: ShipSpecProvider, random: nat -> real, drawn: nat,
                       report: BattleReport)
    requires report == Simulate(attacker, defender, specs, random, drawn)
    ensures report.start == Sides(attacker, defender)
    ensures |report.rounds| <= MaxRounds
    ensures Numbered(report.rounds)
    ensures FleetSize(attacker) == 0 || FleetSize(defender) == 0 ==> report.rounds == []
    ensures NeverGrows(report.start, report.rounds)
    ensures report.winner == Draw <==>
      FleetSize(FinalSides(report).attacker) > 0 && FleetSize(FinalSides(report).defender) > 0
    ensures report.winner == Defender <==> FleetSize(FinalSides(report).attacker) == 0
    ensures |report.rounds| < MaxRounds ==> report.winner != Draw
  {
    var init := Initial(attacker, defender, specs, drawn);
    var step := RoundOf(specs, random);
    var n := RoundsFrom(init, step, 0);
    RoundTrip(attacker, specs);
    RoundTrip(defender, specs);
    ToSpecsEmpty(attacker, specs);
    ToSpecsEmpty(defender, specs);
    RoundsFromStops(init, step, 0);
    RoundOfShrinks(specs, random);
    HistoryWellFormed(init, step, n);
  }

  /** One side's fleet in instance form, updated in place during a battle. */
  class BattleFleet {
    var ships: FleetWithSpecs

    constructor (ships: FleetWithSpecs)
      ensures this.ships == ships
    {
      this.ships := ships;
    }
  }

  /**
   * Runs battles with a provider of base specifications (the built-in table
   * unless another is given) and an injected source of uniform draws in
   * [0, 1): draw number n is random(n).
   */
  class BattleCalculator {
    const shipSpecProvider: ShipSpecProvider
    const random: nat -> real
    var drawn: nat

    constructor (random: nat -> real, shipSpecProvider: ShipSpecProvider := DefaultSpecs)
      ensures this.shipSpecProvider == shipSpecProvider && this.random == random
      ensures drawn == 0
    {
      this.shipSpecProvider := shipSpecProvider;
      this.random := random;
      drawn := 0;
    }

    /** Takes the next draw from the random source. */
    method NextRandom() returns (r: real)
      modifies this
      ensures drawn == old(drawn) + 1 && r == random(old(drawn))
    {
      r := random(drawn);
      drawn := drawn + 1;
    }

    /**
     * One attacking instance picks a type with survivors and an instance of it,
     * fights it, and swap-removes it when its hull is 0 or less.
     */
    method AttackOnce(attacker: ShipSpecs, defenderSpecs: BattleFleet)
      modifies this, defenderSpecs
      ensures (defenderSpecs.ships, drawn)
           == AttackResult(old(defenderSpecs.ships), attacker, shipSpecProvider, random, old(drawn))
      ensures defenderSpecs.ships == old(defenderSpecs.ships)
           || Struck(old(defenderSpecs.ships), defenderSpecs.ships, attacker, shipSpecProvider)
      ensures !IsFleetEmpty(old(defenderSpecs.ships)) && 0.0 <= random(old(drawn)) < 1.0
              && 0.0 <= random(old(drawn) + 1) < 1.0 ==>
        Struck(old(defenderSpecs.ships), defenderSpecs.ships, attacker, shipSpecProvider)
    {
      ghost var before := defenderSpecs.ships;
      ghost var drawnBefore := drawn;
      var typeDraw := NextRandom();
      var targetType := ChooseTargetType(defenderSpecs.ships, typeDraw);
      ChooseTargetTypeSpec(defenderSpecs.ships, typeDraw);
      var defendersOfType :=
        if targetType.Some? && targetType.value in defenderSpecs.ships
        then defenderSpecs.ships[targetType.value] else [];
      var indexDraw := NextRandom();
      var defenderIdx := RandomIndex(indexDraw, |defendersOfType|);
      if targetType.Some? && 0 <= defenderIdx < |defendersOfType| {
        var ship := targetType.value;
        var defender, next := Fight(attacker, defendersOfType[defenderIdx], shipSpecProvider(ship), random, drawn);
        drawn := next;
        defenderSpecs.ships := Strike(defenderSpecs.ships, ship, defenderIdx, defender);
      }
      AttackResultStruck(before, attacker, shipSpecProvider, random, drawnBefore);
    }

    /** Every instance in attackers, in order, attacks the defender fleet once. */
    method AttackWithEach(attackers: seq<ShipSpecs>, defenderSpecs: BattleFleet)
      modifies this, defenderSpecs
      ensures (defenderSpecs.ships, drawn)
           == SubBattle(old(defenderSpecs.ships), attackers, shipSpecProvider, random, old(drawn))
    {
      ghost var before := defenderSpecs.ships;
      ghost var drawnBefore := drawn;
      var j := 0;
      while j < |attackers|
        invariant 0 <= j <= |attackers|
        invariant (defenderSpecs.ships, drawn)
               == SubBattle(before, attackers[..j], shipSpecProvider, random, drawnBefore)
      {
        AttackOnce(attackers[j], defenderSpecs);
        SubBattleAppend(before, attackers, j, shipSpecProvider, random, drawnBefore);
        j := j + 1;
      }
      assert j == |attackers|;
      assert attackers[..j] == attackers;
    }

    /**
     * When the attacker fleet has type AllShips[k], each of its instances of
     * that type attacks once: the sub-battle of the first k types goes on to
     * the first k + 1.
     */
    method AttackWithType(attackerSpecs: BattleFleet, defenderSpecs: BattleFleet, k: nat,
                          ghost before: FleetWithSpecs, ghost drawnBefore: nat)
      requires attackerSpecs != defenderSpecs
      requires k < |AllShips|
      requires (defenderSpecs.ships, drawn)
            == SubBattle(before, AttackersUpTo(attackerSpecs.ships, k), shipSpecProvider, random, drawnBefore)
      modifies this, defenderSpecs
      ensures (defenderSpecs.ships, drawn)
           == SubBattle(before, AttackersUpTo(attackerSpecs.ships, k + 1), shipSpecProvider, random, drawnBefore)
    {
      var ship := AllShips[k];
      SubBattleNextType(before, attackerSpecs.ships, k, shipSpecProvider, random, drawnBefore);
      if ship in attackerSpecs.ships {
        AttackWithEach(attackerSpecs.ships[ship], defenderSpecs);
      }
    }

    /**
     * Every instance of the attacking fleet attacks the defending fleet once,
     * type by type. The attacking fleet is unchanged; the defenders are
     * weakened and lose at most one ship per attacking instance.
     */
    method DoBattle(attackerSpecs: BattleFleet, defenderSpecs: BattleFleet)
      requires attackerSpecs != defenderSpecs
      modifies this, defenderSpecs
      ensures attackerSpecs.ships == old(attackerSpecs.ships)
      ensures (defenderSpecs.ships, drawn)
           == SubBattle(old(defenderSpecs.ships), Attackers(attackerSpecs.ships), shipSpecProvider, random, old(drawn))
      ensures Weakened(old(defenderSpecs.ships), defenderSpecs.ships, shipSpecProvider)
      ensures FleetSize(ToFleet(old(defenderSpecs.ships)))
           <= FleetSize(ToFleet(defenderSpecs.ships)) + FleetSize(ToFleet(attackerSpecs.ships))
    {
      ghost var before := defenderSpecs.ships;
      ghost var drawnBefore := drawn;
      var k := 0;
      while k < |AllShips|
        invariant 0 <= k <= |AllShips|
        invariant attackerSpecs.ships == old(attackerSpecs.ships)
        invariant (defenderSpecs.ships, drawn)
               == SubBattle(before, AttackersUpTo(attackerSpecs.ships, k), shipSpecProvider, random, drawnBefore)
      {
        AttackWithType(attackerSpecs, defenderSpecs, k, before, drawnBefore);
        k := k + 1;
      }
      assert k == |AllShips|;
      SubBattleWeakens(before, Attackers(attackerSpecs.ships), shipSpecProvider, random, drawnBefore);
      AttackersCount(attackerSpecs.ships);
    }

    /** Restores every instance's shields to its type's base shields. */
    method ResetShields(fleet: BattleFleet)
      modifies fleet
      ensures fleet.ships == ResetAll(old(fleet.ships), shipSpecProvider)
      ensures fleet.ships.Keys == old(fleet.ships).Keys
      ensures forall t :: t in fleet.ships ==> |fleet.ships[t]| == |old(fleet.ships)[t]|
      ensures forall t, i :: t in fleet.ships && 0 <= i < |fleet.ships[t]| ==>
        fleet.ships[t][i] == old(fleet.ships)[t][i].(shields := shipSpecProvider(t).shields)
      ensures ToFleet(fleet.ships) == ToFleet(old(fleet.ships))
    {
      ghost var before := fleet.ships;
      var k := 0;
      while k < |AllShips|
        invariant 0 <= k <= |AllShips|
        invariant fleet.ships.Keys == before.Keys
        invariant forall t :: t in fleet.ships ==> |fleet.ships[t]| == |before[t]|
        invariant forall t, i :: t in fleet.ships && 0 <= i < |fleet.ships[t]| ==>
          fleet.ships[t][i] == if Index(t) < k then before[t][i].(shields := shipSpecProvider(t).shields) else before[t][i]
      {
        var shipType := AllShips[k];
        IndexOfPosition(k);
        if shipType in fleet.ships {
          var shields := shipSpecProvider(shipType).shields;
          var i := 0;
          while i < |fleet.ships[shipType]|
            invariant shipType in fleet.ships
            invariant 0 <= i <= |fleet.ships[shipType]|
            invariant fleet.ships.Keys == before.Keys
            invariant forall t :: t in fleet.ships ==> |fleet.ships[t]| == |before[t]|
            invariant forall t, j :: t in fleet.ships && 0 <= j < |fleet.ships[t]| ==>
              fleet.ships[t][j] == if Index(t) < k || (t == shipType && j < i)
                then before[t][j].(shields := shipSpecProvider(t).shields) else before[t][j]
          {
            fleet.ships := fleet.ships[shipType := fleet.ships[shipType][i := fleet.ships[shipType][i].(shields := shields)]];
            i := i + 1;
          }
        }
        k := k + 1;
      }
      ResetAllUnique(before, fleet.ships, shipSpecProvider);
    }

    /** One round: both sub-battles, the snapshot, and the shield reset. */
    method PlayRound(attackerSpecs: BattleFleet, defenderSpecs: BattleFleet, round: nat)
      returns (fought: BattleRound)
      requires attackerSpecs != defenderSpecs
      modifies this, attackerSpecs, defenderSpecs
      ensures BattleState(attackerSpecs.ships, defenderSpecs.ships, drawn)
           == FightRound(old(BattleState(attackerSpecs.ships, defenderSpecs.ships, drawn)), shipSpecProvider, random)
      ensures fought == Snapshot(round, BattleState(attackerSpecs.ships, defenderSpecs.ships, drawn))
    {
      ghost var previous := BattleState(attackerSpecs.ships, defenderSpecs.ships, drawn);
      DoBattle(attackerSpecs, defenderSpecs);
      ghost var mid := drawn;
      DoBattle(defenderSpecs, attackerSpecs);
      FightRoundSteps(previous, shipSpecProvider, random, defenderSpecs.ships, attackerSpecs.ships, mid, drawn);
      fought := BattleRound(round, ToFleet(attackerSpecs.ships), ToFleet(defenderSpecs.ships));
      ResetShields(attackerSpecs);
      ResetShields(defenderSpecs);
    }

    /**
     * Plays round number played + 1 after played rounds from init: the fleets
     * reach the state after played + 1 rounds, the round's snapshot extends the
     * history, and the battle was on before it.
     */
    method PlayNextRound(attackerSpecs: BattleFleet, defenderSpecs: BattleFleet, round: nat,
                         ghost step: RoundStep, ghost init: BattleState, ghost played: nat, ghost rounds: seq<BattleRound>)
      returns (fought: BattleRound)
      requires attackerSpecs != defenderSpecs
      requires forall s: BattleState {:trigger FightRound(s, shipSpecProvider, random)} ::
        step(s) == FightRound(s, shipSpecProvider, random)
      requires round == played + 1
      requires BattleState(attackerSpecs.ships, defenderSpecs.ships, drawn) == StateAfter(init, step, played)
      requires rounds == History(init, step, played)
      requires OngoingBefore(init, step, played)
      requires !IsFleetEmpty(attackerSpecs.ships) && !IsFleetEmpty(defenderSpecs.ships)
      modifies this, attackerSpecs, defenderSpecs
      ensures BattleState(attackerSpecs.ships, defenderSpecs.ships, drawn) == StateAfter(init, step, played + 1)
      ensures rounds + [fought] == History(init, step, played + 1)
      ensures OngoingBefore(init, step, played + 1)
    {
      ghost var previous := BattleState(attackerSpecs.ships, defenderSpecs.ships, drawn);
      fought := PlayRound(attackerSpecs, defenderSpecs, round);
      AdvanceRound(init, step, played, previous, BattleState(attackerSpecs.ships, defenderSpecs.ships, drawn),
                   rounds, fought);
    }

    /**
     * Plays rounds while both fleets have ships, at most MaxRounds of them, and
     * returns one snapshot per round. The fleets end in the state reached after
     * that many rounds, and the battle was still on before each of them.
     */
    method FightRounds(attackerSpecs: BattleFleet, defenderSpecs: BattleFleet, ghost step: RoundStep)
      returns (rounds: seq<BattleRound>)
      requires attackerSpecs != defenderSpecs
      requires forall s: BattleState {:trigger FightRound(s, shipSpecProvider, random)} ::
        step(s) == FightRound(s, shipSpecProvider, random)
      modifies this, attackerSpecs, defenderSpecs
      ensures |rounds| <= MaxRounds
      ensures BattleState(attackerSpecs.ships, defenderSpecs.ships, drawn)
           == StateAfter(old(BattleState(attackerSpecs.ships, defenderSpecs.ships, drawn)),
                         step, |rounds|)
      ensures rounds == History(old(BattleState(attackerSpecs.ships, defenderSpecs.ships, drawn)),
                                step, |rounds|)
      ensures OngoingBefore(old(BattleState(attackerSpecs.ships, defenderSpecs.ships, drawn)),
                            step, |rounds|)
      ensures |rounds| == MaxRounds || !Ongoing(BattleState(attackerSpecs.ships, defenderSpecs.ships, drawn))
    {
      ghost var init := BattleState(attackerSpecs.ships, defenderSpecs.ships, drawn);
      rounds := [];
      var round := 1;
      ghost var played := 0;
      while !IsFleetEmpty(attackerSpecs.ships) && !IsFleetEmpty(defenderSpecs.ships) && round <= MaxRounds
        invariant 1 <= round <= MaxRounds + 1
        invariant played == round - 1 == |rounds|
        invariant BattleState(attackerSpecs.ships, defenderSpecs.ships, drawn) == StateAfter(init, step, played)
        invariant rounds == History(init, step, played)
        invariant OngoingBefore(init, step, played)
      {
        var fought := PlayNextRound(attackerSpecs, defenderSpecs, round, step, init, played, rounds);
        rounds := rounds + [fought];
        played := played + 1;
        round := round + 1;
      }
    }

    /**
     * Fights up to MaxRounds rounds between two count-form fleets and reports
     * the start, one snapshot per round and the winner.
     */
    method Calculate(attacker: Fleet, defender: Fleet) returns (report: BattleReport)
      modifies this
      ensures report == Simulate(attacker, defender, shipSpecProvider, random, old(drawn))
      ensures drawn == StateAfter(Initial(attacker, defender, shipSpecProvider, old(drawn)),
                                  RoundOf(shipSpecProvider, random), |report.rounds|).drawn
      ensures old(drawn) <= drawn
      ensures report.start == Sides(attacker, defender)
      ensures |report.rounds| <= MaxRounds
      ensures Numbered(report.rounds)
      ensures FleetSize(attacker) == 0 || FleetSize(defender) == 0 ==> report.rounds == []
      ensures NeverGrows(report.start, report.rounds)
      ensures forall i :: 0 <= i < |report.rounds| - 1 ==>
        FleetSize(report.rounds[i].attacker) > 0 && FleetSize(report.rounds[i].defender) > 0
      ensures report.winner == Draw <==>
        FleetSize(FinalSides(report).attacker) > 0 && FleetSize(FinalSides(report).defender) > 0
      ensures report.winner == Defender <==> FleetSize(FinalSides(report).attacker) == 0
      ensures |report.rounds| < MaxRounds ==> report.winner != Draw
    {
      var attackerSpecs := new BattleFleet(ToSpecs(attacker, shipSpecProvider));
      var defenderSpecs := new BattleFleet(ToSpecs(defender, shipSpecProvider));
      var start := Sides(ToFleet(attackerSpecs.ships), ToFleet(defenderSpecs.ships));
      RoundOfIsRound(shipSpecProvider, random);
      var rounds := FightRounds(attackerSpecs, defenderSpecs, RoundOf(shipSpecProvider, random));
      report := BattleReport(GetResult(attackerSpecs.ships, defenderSpecs.ships), start, rounds);
      SimulateAt(attacker, defender, shipSpecProvider, random, old(drawn), |rounds|);
      SimulateReport(attacker, defender, shipSpecProvider, random, old(drawn), report);
      SimulateStops(attacker, defender, shipSpecProvider, random, old(drawn), report);
      RoundOfDraws(shipSpecProvider, random);
      StateAfterDraws(Initial(attacker, defender, shipSpecProvider, old(drawn)), RoundOf(shipSpecProvider, random), |rounds|);
    }

  }
}
