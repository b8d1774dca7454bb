/** One attack of one ship instance on another: shield absorption, hull damage, destruction roll. */
module Combat {
  import opened Ships

  /** The weapons are below 1% of the shields (weapons < shields / 100, cross-multiplied). */
  predicate IsWeakHit(weapons: int, shields: int)
  {
    100 * weapons < shields
  }

  /** The roll happens when the hull is below 70% of the reference hull (hull < 0.7 * reference). */
  predicate RollApplies(hull: int, referenceHull: int)
  {
    10 * hull < 7 * referenceHull
  }

  /**
   * The roll destroys the ship when the draw is below 1 - hull / referenceHull.
   * A reference hull of zero only reaches the roll with a negative hull, where
   * the probability is unbounded, so the ship is destroyed.
   */
  predicate RollDestroys(hull: int, referenceHull: int, rand: real)
  {
    referenceHull == 0 || rand < 1.0 - (hull as real) / (referenceHull as real)
  }

  /** The hull after the destruction roll, given the hull after the damage step. */
  predicate AfterRoll(finalHull: int, damagedHull: int, referenceHull: int, rand: real)
  {
    if RollApplies(damagedHull, referenceHull) && RollDestroys(damagedHull, referenceHull, rand)
    then finalHull == 0
    else finalHull == damagedHull
  }

  /**
   * The damage step of one hit: too weak a hit changes nothing; otherwise the
   * shields absorb first and the hull takes the rest, so hull and shields
   * together lose exactly the attacker's weapons.
   */
  function Damage(attacker: ShipSpecs, target: ShipSpecs): (d: ShipSpecs)
    ensures d.weapons == target.weapons
    ensures IsWeakHit(attacker.weapons, target.shields) ==> d == target
    ensures !IsWeakHit(attacker.weapons, target.shields) ==>
      && d.shields == (if attacker.weapons < target.shields then target.shields - attacker.weapons else 0)
      && d.hull + d.shields == target.hull + target.shields - attacker.weapons
  {
    if IsWeakHit(attacker.weapons, target.shields) then target
    else if attacker.weapons < target.shields then target.(shields := target.shields - attacker.weapons)
    else target.(hull := target.hull - (attacker.weapons - target.shields), shields := 0)
  }

  /**
   * The target after a hit whose destruction roll, if it happens, uses `rand`:
   * the damage step followed by the roll against the reference hull.
   */
  function FightWith(attacker: ShipSpecs, target: ShipSpecs, reference: ShipSpecs, rand: real): (t: ShipSpecs)
    ensures t.weapons == target.weapons
    ensures t.shields == Damage(attacker, target).shields
    ensures AfterRoll(t.hull, Damage(attacker, target).hull, reference.hull, rand)
    ensures target.hull >= 0 ==> t.hull <= target.hull
    ensures target.shields >= 0 ==> 0 <= t.shields <= target.shields
  {
    var d := Damage(attacker, target);
    if RollApplies(d.hull, reference.hull) && RollDestroys(d.hull, reference.hull, rand) then d.(hull := 0) else d
  }

  /**
   * The target after being hit by the attacker. `reference` holds the target
   * type's base specifications; draw number n of the random source is
   * random(n), and draw number `drawn` is the next one. The roll takes that
   * draw only when it applies; `next` is the number of the draw after the fight.
   */
  method Fight(attacker: ShipSpecs, target: ShipSpecs, reference: ShipSpecs, random: nat -> real, drawn: nat)
    returns (t: ShipSpecs, next: nat)
    ensures t == FightWith(attacker, target, reference, random(drawn))
    ensures next == drawn + (if RollApplies(Damage(attacker, target).hull, reference.hull) then 1 else 0)
    // the target's weapons are never touched
    ensures t.weapons == target.weapons
    // too weak: no damage
    ensures IsWeakHit(attacker.weapons, target.shields) ==>
      t.shields == target.shields && AfterRoll(t.hull, target.hull, reference.hull, random(drawn))
    // absorbed by the shields
    ensures !IsWeakHit(attacker.weapons, target.shields) && attacker.weapons < target.shields ==>
      t.shields == target.shields - attacker.weapons && AfterRoll(t.hull, target.hull, reference.hull, random(drawn))
    // the shields break and the excess hits the hull
    ensures !IsWeakHit(attacker.weapons, target.shields) && attacker.weapons >= target.shields ==>
      t.shields == 0 &&
      AfterRoll(t.hull, target.hull - (attacker.weapons - target.shields), reference.hull, random(drawn))
    // nothing is repaired
    ensures target.hull >= 0 ==> t.hull <= target.hull
    ensures target.shields >= 0 ==> 0 <= t.shields <= target.shields
  {
    t := target;
    if IsWeakHit(attacker.weapons, t.shields) {
      // too weak to matter
    } else if attacker.weapons < t.shields {
      t := t.(shields := t.shields - attacker.weapons);
    } else {
      t := t.(hull := t.hull - (attacker.weapons - t.shields), shields := 0);
    }

    next := drawn;
    if RollApplies(t.hull, reference.hull) {
      var rand := random(next);
      next := next + 1;
      if RollDestroys(t.hull, reference.hull, rand) {
        t := t.(hull := 0);
      }
    }
  }

  /** With a positive reference hull, a draw in [0, 1) always destroys a ship whose hull is 0 or less. */
  lemma NonPositiveHullIsDestroyed(hull: int, referenceHull: int, rand: real)
    requires referenceHull > 0 && 0.0 <= rand < 1.0
    requires hull <= 0
    ensures RollApplies(hull, referenceHull) && RollDestroys(hull, referenceHull, rand)
  {
    var q := (hull as real) / (referenceHull as real);
    assert q * (referenceHull as real) == hull as real;
    assert q <= 0.0;
  }

  /** A roll can only hit a ship that lost more than 30% of its reference hull, with chance above 30%. */
  lemma RollChanceAboveThirtyPercent(hull: int, referenceHull: int)
    requires referenceHull > 0
    requires RollApplies(hull, referenceHull)
    ensures 1.0 - (hull as real) / (referenceHull as real) > 0.3
  {
    var r := referenceHull as real;
    var q := (hull as real) / r;
    var d := 0.7 - q;
    assert d * r == 0.7 * r - hull as real;
    assert 0.7 * r - hull as real > 0.0;
    assert d > 0.0;
  }

  /**
   * After the roll the hull is the damaged hull or exactly 0, and, with a
   * positive reference hull and a draw in [0, 1), never negative.
   */
  lemma AfterRollOutcome(finalHull: int, damagedHull: int, referenceHull: int, rand: real)
    requires AfterRoll(finalHull, damagedHull, referenceHull, rand)
    ensures finalHull == damagedHull || finalHull == 0
    ensures referenceHull > 0 && 0.0 <= rand < 1.0 ==> finalHull >= 0
    ensures !RollApplies(damagedHull, referenceHull) ==> finalHull == damagedHull
  {
    if referenceHull > 0 && 0.0 <= rand < 1.0 && damagedHull <= 0 {
      NonPositiveHullIsDestroyed(damagedHull, referenceHull, rand);
    }
  }

  /**
   * The roll as the source performs it: every instance of a type, the base
   * table entry and the reference are one shared record, so by the time of
   * the roll the reference hull is the damaged hull itself.
   */
  predicate AliasedAfterRoll(finalHull: int, damagedHull: int, rand: real)
  {
    AfterRoll(finalHull, damagedHull, damagedHull, rand)
  }

  /** With the shared record, the roll never fires on a ship that still has hull left. */
  lemma AliasedRollNeverFires(finalHull: int, damagedHull: int, rand: real)
    requires damagedHull >= 0
    requires AliasedAfterRoll(finalHull, damagedHull, rand)
    ensures finalHull == damagedHull
  {
    assert !RollApplies(damagedHull, damagedHull);
  }

  /**
   * A light fighter (base hull 750) hit down to hull 100 with a draw of 0.5:
   * with the shared record it survives; against its own base hull it is destroyed.
   */
  lemma AliasingSparesCrippledShip()
    ensures AliasedAfterRoll(100, 100, 0.5) && !AliasedAfterRoll(0, 100, 0.5)
    ensures AfterRoll(0, 100, 750, 0.5) && !AfterRoll(100, 100, 750, 0.5)
  {
    assert (100 as real) / (750 as real) < 0.5;
  }
}
