// The records of the game state (types/game.ts), with every number an idealised `real`
// except building counts and the prestige level, which the game only ever increments.
module Types {

  /** A value that may be absent, as an optional field of a stored record. */
  datatype Option<T> = None | Some(value: T)

  /** A building kind from the catalog, with how many units the player owns. */
  datatype Building = Building(id: string, name: string, baseCost: real, baseProduction: real, count: nat)

  /** A one-time upgrade; `unlockCondition` is the lifetime total the shop waits for, when present. */
  datatype Upgrade = Upgrade(id: string, name: string, cost: real, multiplier: real, purchased: bool,
                             unlockCondition: Option<real>)

  /**
   * The conditions the achievement catalog uses, as data instead of closures.
   * `Never` is what a stored achievement whose id the catalog does not know is given on load.
   */
  datatype Condition =
    | TotalCookiesAtLeast(amount: real)
    | AnyBuildingOwned
    | BuildingCountSumAtLeast(total: nat)
    | PrestigeLevelAtLeast(level: nat)
    | Never

  /** An achievement with its (re-attached) condition and its one-way `unlocked` flag. */
  datatype Achievement = Achievement(id: string, name: string, condition: Condition, unlocked: bool)

  /** The whole aggregate the store holds; `lastActive` is a timestamp in milliseconds. */
  datatype GameState = GameState(
    cookies: real,
    totalCookies: real,
    cps: real,
    clickPower: real,
    buildings: seq<Building>,
    upgrades: seq<Upgrade>,
    achievements: seq<Achievement>,
    prestigeLevel: nat,
    prestigeMultiplier: real,
    lastActive: int)
}
