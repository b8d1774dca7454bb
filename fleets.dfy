/** Conversions between the count form and the instance form of a fleet, and fleet sizes. */
module Fleets {
  import opened Ships

  /** Expands every count into that many instances, each holding the type's base specifications. */
  function ToSpecs(fleet: Fleet, specs: ShipSpecProvider): (r: FleetWithSpecs)
    ensures r.Keys == fleet.Keys
    ensures forall t :: t in r ==> |r[t]| == fleet[t]
    ensures forall t, i :: t in r && 0 <= i < |r[t]| ==> r[t][i] == specs(t)
  {
    map t | t in fleet :: seq(fleet[t], _ => specs(t))
  }

  /** Collapses every instance list back into its length. */
  function ToFleet(fleetWithSpecs: FleetWithSpecs): (r: Fleet)
    ensures r.Keys == fleetWithSpecs.Keys
    ensures forall t :: t in r ==> r[t] == |fleetWithSpecs[t]|
  {
    map t | t in fleetWithSpecs :: |fleetWithSpecs[t]|
  }

  /** The count of one type; an absent type counts zero. */
  function CountOf(fleet: Fleet, t: Ship): nat
  {
    if t in fleet then fleet[t] else 0
  }

  /** The sum of the counts of the first n types of AllShips. */
  function CountUpTo(fleet: Fleet, n: nat): nat
    requires n <= |AllShips|
  {
    if n == 0 then 0 else CountUpTo(fleet, n - 1) + CountOf(fleet, AllShips[n - 1])
  }

  /** The total number of ships in a fleet. */
  function FleetSize(fleet: Fleet): nat
  {
    CountUpTo(fleet, |AllShips|)
  }

  /** A fleet in instance form is empty when the lengths of its instance lists sum to zero. */
  predicate IsFleetEmpty(fleet: FleetWithSpecs)
  {
    FleetSize(ToFleet(fleet)) == 0
  }

  /** Count form after a round: the same types, and no count larger than before. */
  predicate Shrinks(before: Fleet, after: Fleet)
  {
    after.Keys == before.Keys && forall t :: t in after ==> after[t] <= before[t]
  }

  /** Converting counts to instances and back gives the original fleet. */
  lemma RoundTrip(fleet: Fleet, specs: ShipSpecProvider)
    ensures ToFleet(ToSpecs(fleet, specs)) == fleet
  {
    var r := ToFleet(ToSpecs(fleet, specs));
    assert forall t :: t in r ==> r[t] == fleet[t];
  }

  /**
   * Expanding the counts of an instance-form fleet gives that fleet back exactly
   * when every instance still holds its type's base specifications.
   */
  lemma ExpandCountsIff(fleet: FleetWithSpecs, specs: ShipSpecProvider)
    ensures ToSpecs(ToFleet(fleet), specs) == fleet
        <==> forall t, i :: t in fleet && 0 <= i < |fleet[t]| ==> fleet[t][i] == specs(t)
  {
    var r := ToSpecs(ToFleet(fleet), specs);
    if forall t, i :: t in fleet && 0 <= i < |fleet[t]| ==> fleet[t][i] == specs(t) {
      forall t | t in r
        ensures r[t] == fleet[t]
      {
        assert |r[t]| == |fleet[t]|;
      }
    }
  }

  /** A prefix sum is zero exactly when each of its terms is. */
  lemma {:induction false} CountUpToZero(fleet: Fleet, n: nat)
    requires n <= |AllShips|
    ensures CountUpTo(fleet, n) == 0 <==> forall k :: 0 <= k < n ==> CountOf(fleet, AllShips[k]) == 0
  {
    if n > 0 {
      CountUpToZero(fleet, n - 1);
    }
  }

  /** A fleet has size zero exactly when every present type has count zero. */
  lemma FleetSizeZero(fleet: Fleet)
    ensures FleetSize(fleet) == 0 <==> forall t :: t in fleet ==> fleet[t] == 0
  {
    CountUpToZero(fleet, |AllShips|);
    if FleetSize(fleet) == 0 {
      forall t | t in fleet
        ensures fleet[t] == 0
      {
        assert CountOf(fleet, AllShips[Index(t)]) == 0;
      }
    }
  }

  /**
   * An instance-form fleet is empty exactly when every present type maps to no
   * instances; an absent type and a type mapped to [] both contribute nothing.
   */
  lemma IsFleetEmptyIff(fleet: FleetWithSpecs)
    ensures IsFleetEmpty(fleet) <==> forall t :: t in fleet ==> fleet[t] == []
  {
    FleetSizeZero(ToFleet(fleet));
  }

  /** The fleet built from counts is empty exactly when the counts sum to zero. */
  lemma ToSpecsEmpty(fleet: Fleet, specs: ShipSpecProvider)
    ensures IsFleetEmpty(ToSpecs(fleet, specs)) <==> FleetSize(fleet) == 0
  {
    RoundTrip(fleet, specs);
  }

  /** Changing the count of one type changes a prefix sum by the difference, if the type is in the prefix. */
  lemma {:induction false} CountUpToUpdate(fleet: Fleet, t: Ship, v: nat, n: nat)
    requires n <= |AllShips|
    ensures CountUpTo(fleet[t := v], n) + (if Index(t) < n then CountOf(fleet, t) else 0)
         == CountUpTo(fleet, n) + (if Index(t) < n then v else 0)
  {
    if n > 0 {
      CountUpToUpdate(fleet, t, v, n - 1);
      IndexOfPosition(n - 1);
    }
  }

  /** Replacing one type's instances changes only that type's count, to the new length. */
  lemma ToFleetUpdate(fleet: FleetWithSpecs, t: Ship, instances: seq<ShipSpecs>)
    ensures ToFleet(fleet[t := instances]) == ToFleet(fleet)[t := |instances|]
  {
    var l := ToFleet(fleet[t := instances]);
    var r := ToFleet(fleet)[t := |instances|];
    assert l.Keys == r.Keys;
    forall u | u in l
      ensures l[u] == r[u]
    {
    }
  }

  /** Changing the count of a present type changes the fleet size by the difference. */
  lemma FleetSizeUpdate(fleet: Fleet, t: Ship, v: nat)
    requires t in fleet
    ensures FleetSize(fleet[t := v]) + fleet[t] == FleetSize(fleet) + v
  {
    CountUpToUpdate(fleet, t, v, |AllShips|);
  }

  /** A prefix sum does not grow when no count grows. */
  lemma {:induction false} CountUpToShrinks(before: Fleet, after: Fleet, n: nat)
    requires n <= |AllShips|
    requires Shrinks(before, after)
    ensures CountUpTo(after, n) <= CountUpTo(before, n)
  {
    if n > 0 {
      CountUpToShrinks(before, after, n - 1);
    }
  }

  /** A fleet whose counts do not grow does not grow in size. */
  lemma ShrinksSize(before: Fleet, after: Fleet)
    requires Shrinks(before, after)
    ensures FleetSize(after) <= FleetSize(before)
  {
    CountUpToShrinks(before, after, |AllShips|);
  }
}
