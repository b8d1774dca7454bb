/** Ship types, base specifications and the two forms of a fleet. */
module Ships {

  /** The closed set of ship types. */
  datatype Ship =
    | LightFighter
    | HeavyFighter
    | SmallTransporter
    | LargeTransporter
    | BattleShip
    | Mothership

  /** Every ship type exactly once; iteration over a fleet's types follows this order. */
  const AllShips: seq<Ship> :=
    [LightFighter, HeavyFighter, SmallTransporter, LargeTransporter, BattleShip, Mothership]

  /** The position of a ship type in AllShips. */
  function Index(s: Ship): (k: nat)
    ensures k < |AllShips| && AllShips[k] == s
  {
    match s
    case LightFighter => 0
    case HeavyFighter => 1
    case SmallTransporter => 2
    case LargeTransporter => 3
    case BattleShip => 4
    case Mothership => 5
  }

  /** AllShips lists no type twice. */
  lemma IndexOfPosition(k: nat)
    requires k < |AllShips|
    ensures Index(AllShips[k]) == k
  {
  }

  /**
   * Hull, shields and weapons, both as a type's base values and as the state of
   * one ship instance during a battle. Instances are values: updating one never
   * affects another instance or the base values.
   */
  datatype ShipSpecs = ShipSpecs(hull: int, shields: int, weapons: int)

  /** Base values as a specification provider hands them out: hull positive, the rest non-negative. */
  predicate ValidBaseSpecs(s: ShipSpecs)
  {
    s.hull > 0 && s.shields >= 0 && s.weapons >= 0
  }

  /** Count form: how many ships of each present type. */
  type Fleet = map<Ship, nat>

  /** Instance form: the ship instances of each present type. */
  type FleetWithSpecs = map<Ship, seq<ShipSpecs>>

  /** Gives the base specifications of a ship type. */
  type ShipSpecProvider = Ship -> ShipSpecs
}
