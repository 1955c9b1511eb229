// The pure parts of saving and loading in lib/store.ts: the record `saveGame` writes,
// the leaderboard row and its user name, and the merge `loadGame` applies to a stored record.
module Persistence {
  import opened Types
  import opened Text
  import opened GameData

  /** An achievement as stored: everything but its condition, which cannot be serialised. */
  datatype SavedAchievement = SavedAchievement(id: string, name: string, unlocked: bool)

  /**
   * A stored record as `loadGame` reads it. `None` is a field the record lacks; the `legacy`
   * fields are the older names `total_cookies`, `prestige_level` and `multiplier`.
   */
  datatype SaveData = SaveData(
    cookies: Option<real>,
    totalCookies: Option<real>,
    legacyTotalCookies: Option<real>,
    cps: Option<real>,
    clickPower: Option<real>,
    buildings: Option<seq<Building>>,
    upgrades: Option<seq<Upgrade>>,
    achievements: Option<seq<SavedAchievement>>,
    prestigeLevel: Option<nat>,
    legacyPrestigeLevel: Option<nat>,
    prestigeMultiplier: Option<real>,
    legacyMultiplier: Option<real>,
    lastActive: Option<int>)

  /** The leaderboard row `saveGame` upserts for a signed-in player. */
  datatype LeaderboardRow = LeaderboardRow(username: string, totalCookies: real, prestigeLevel: nat)

  /** The stored form of an achievement; merging it back on load restores it with the catalog's condition. */
  function Strip(a: Achievement): (r: SavedAchievement)
    ensures MergeAchievements([r]) == [a.(condition := CatalogCondition(a.id))]
  {
    SavedAchievement(a.id, a.name, a.unlocked)
  }

  /** The record `saveGame` writes at time `now`: every field, achievements without their conditions. */
  function Snapshot(s: GameState, now: int): (d: SaveData)
    ensures d.achievements.Some? && |d.achievements.value| == |s.achievements|
    ensures forall i :: 0 <= i < |s.achievements| ==>
      d.achievements.value[i].id == s.achievements[i].id && d.achievements.value[i].unlocked == s.achievements[i].unlocked
    ensures d.legacyTotalCookies.None? && d.legacyPrestigeLevel.None? && d.legacyMultiplier.None?
    ensures d.lastActive == Some(now)
  {
    SaveData(
      Some(s.cookies), Some(s.totalCookies), None, Some(s.cps), Some(s.clickPower),
      Some(s.buildings), Some(s.upgrades),
      Some(seq(|s.achievements|, i requires 0 <= i < |s.achievements| => Strip(s.achievements[i]))),
      Some(s.prestigeLevel), None, Some(s.prestigeMultiplier), None, Some(now))
  }

  /** `email?.split("@")[0] || "Anonymous"`: the part before the first `@`, unless that is empty or there is no e-mail. */
  function Username(email: Option<string>): (r: string)
    ensures r != [] && '@' !in r
    ensures r != "Anonymous" ==>
              email.Some? && |r| <= |email.value| && r == email.value[..|r|]
              && (|r| == |email.value| || email.value[|r|] == '@')
    ensures email.Some? && email.value != [] && email.value[0] != '@' ==> r == BeforeFirst(email.value, '@')
  {
    if email.Some? && BeforeFirst(email.value, '@') != [] then BeforeFirst(email.value, '@') else "Anonymous"
  }

  /** The leaderboard row mirrored on a signed-in save. */
  function LeaderboardEntry(s: GameState, email: Option<string>): (r: LeaderboardRow)
    ensures r.username == Username(email) && r.username != []
    ensures r.totalCookies == s.totalCookies && r.prestigeLevel == s.prestigeLevel
  {
    LeaderboardRow(Username(email), s.totalCookies, s.prestigeLevel)
  }

  /** JavaScript's `x || fallback` for a number that may be absent: absent and zero both fall back. */
  function Or(x: Option<real>, fallback: real): real {
    if x.Some? && x.value != 0.0 then x.value else fallback
  }

  function OrNat(x: Option<nat>, fallback: nat): nat {
    if x.Some? && x.value != 0 then x.value else fallback
  }

  function OrInt(x: Option<int>, fallback: int): int {
    if x.Some? && x.value != 0 then x.value else fallback
  }

  /** Index of the first achievement with the given id (`Array.find`). */
  function FindAchievement(achs: seq<Achievement>, id: string): (r: Option<nat>)
    ensures r.Some? ==>
              r.value < |achs| && achs[r.value].id == id
              && forall j :: 0 <= j < r.value ==> achs[j].id != id
    ensures r.None? ==> forall j :: 0 <= j < |achs| ==> achs[j].id != id
  {
    if achs == [] then None
    else if achs[0].id == id then Some(0)
    else match FindAchievement(achs[1..], id)
      case None => None
      case Some(k) => Some(k + 1)
  }

  /** The condition re-attached on load: the catalog's for a known id, one that never holds otherwise. */
  function CatalogCondition(id: string): (c: Condition)
    ensures c.Never? <==> forall j :: 0 <= j < |InitialAchievements()| ==> InitialAchievements()[j].id != id
    ensures forall j :: 0 <= j < |InitialAchievements()| && InitialAchievements()[j].id == id ==>
      c == InitialAchievements()[j].condition
  {
    match FindAchievement(InitialAchievements(), id)
    case Some(k) => InitialAchievements()[k].condition
    case None => Never
  }

  /** `{...base, ...a, condition: base?.condition || (() => false)}` for each stored achievement. */
  function MergeAchievements(saved: seq<SavedAchievement>): (r: seq<Achievement>)
    ensures |r| == |saved|
    ensures forall i :: 0 <= i < |saved| ==>
      && r[i].id == saved[i].id && r[i].name == saved[i].name && r[i].unlocked == saved[i].unlocked
      && r[i].condition == CatalogCondition(saved[i].id)
  {
    seq(|saved|, i requires 0 <= i < |saved| =>
      Achievement(saved[i].id, saved[i].name, CatalogCondition(saved[i].id), saved[i].unlocked))
  }

  /** Stripping the merged list gives back exactly the stored list. */
  lemma MergeThenStrip(saved: seq<SavedAchievement>)
    ensures |MergeAchievements(saved)| == |saved|
    ensures forall i :: 0 <= i < |saved| ==> Strip(MergeAchievements(saved)[i]) == saved[i]
  {
  }

  /** A stored number JavaScript's `||` passes over: absent or zero. */
  predicate Falsy(x: Option<real>) {
    x.None? || x.value == 0.0
  }

  predicate FalsyNat(x: Option<nat>) {
    x.None? || x.value == 0
  }

  /**
   * The state `loadGame` installs from a stored record, before the offline award. A present
   * non-zero field is kept; an absent or zero one falls back to its legacy name where it has one,
   * then to 0, to 1 (click power, multiplier), to the catalogs or to the load time.
   */
  function Merge(d: SaveData, now: int): (r: GameState)
    ensures !Falsy(d.cookies) ==> r.cookies == d.cookies.value
    ensures Falsy(d.cookies) ==> r.cookies == 0.0
    ensures !Falsy(d.totalCookies) ==> r.totalCookies == d.totalCookies.value
    ensures Falsy(d.totalCookies) && !Falsy(d.legacyTotalCookies) ==> r.totalCookies == d.legacyTotalCookies.value
    ensures Falsy(d.totalCookies) && Falsy(d.legacyTotalCookies) ==> r.totalCookies == 0.0
    ensures !Falsy(d.cps) ==> r.cps == d.cps.value
    ensures Falsy(d.cps) ==> r.cps == 0.0
    ensures !Falsy(d.clickPower) ==> r.clickPower == d.clickPower.value
    ensures Falsy(d.clickPower) ==> r.clickPower == 1.0
    ensures r.clickPower != 0.0 && r.prestigeMultiplier != 0.0
    ensures d.buildings.Some? ==> r.buildings == d.buildings.value
    ensures d.buildings.None? ==> r.buildings == InitialBuildings()
    ensures d.upgrades.Some? ==> r.upgrades == d.upgrades.value
    ensures d.upgrades.None? ==> r.upgrades == InitialUpgrades()
    ensures d.achievements.None? ==> r.achievements == []
    ensures d.achievements.Some? ==> r.achievements == MergeAchievements(d.achievements.value)
    ensures !FalsyNat(d.prestigeLevel) ==> r.prestigeLevel == d.prestigeLevel.value
    ensures FalsyNat(d.prestigeLevel) && !FalsyNat(d.legacyPrestigeLevel) ==> r.prestigeLevel == d.legacyPrestigeLevel.value
    ensures FalsyNat(d.prestigeLevel) && FalsyNat(d.legacyPrestigeLevel) ==> r.prestigeLevel == 0
    ensures !Falsy(d.prestigeMultiplier) ==> r.prestigeMultiplier == d.prestigeMultiplier.value
    ensures Falsy(d.prestigeMultiplier) && !Falsy(d.legacyMultiplier) ==> r.prestigeMultiplier == d.legacyMultiplier.value
    ensures Falsy(d.prestigeMultiplier) && Falsy(d.legacyMultiplier) ==> r.prestigeMultiplier == 1.0
    ensures d.lastActive.Some? && d.lastActive.value != 0 ==> r.lastActive == d.lastActive.value
    ensures d.lastActive.None? || d.lastActive.value == 0 ==> r.lastActive == now
  {
    GameState(
      Or(d.cookies, 0.0),
      Or(d.totalCookies, Or(d.legacyTotalCookies, 0.0)),
      Or(d.cps, 0.0),
      Or(d.clickPower, 1.0),
      if d.buildings.Some? then d.buildings.value else InitialBuildings(),
      if d.upgrades.Some? then d.upgrades.value else InitialUpgrades(),
      MergeAchievements(if d.achievements.Some? then d.achievements.value else []),
      OrNat(d.prestigeLevel, OrNat(d.legacyPrestigeLevel, 0)),
      Or(d.prestigeMultiplier, Or(d.legacyMultiplier, 1.0)),
      OrInt(d.lastActive, now))
  }

  /**
   * Saving and then merging gives back the saved state, with the save time as `lastActive`,
   * provided the state carries the catalog's conditions and has no zero where a zero would
   * fall back to 1 (click power, multiplier) or to the load time (the save time).
   */
  lemma SaveLoadRoundTrip(s: GameState, savedAt: int, now: int)
    requires s.clickPower != 0.0 && s.prestigeMultiplier != 0.0 && savedAt != 0
    requires forall i :: 0 <= i < |s.achievements| ==> s.achievements[i].condition == CatalogCondition(s.achievements[i].id)
    ensures Merge(Snapshot(s, savedAt), now) == s.(lastActive := savedAt)
  {
    var r := Merge(Snapshot(s, savedAt), now);
    assert |r.achievements| == |s.achievements|;
    forall i | 0 <= i < |s.achievements|
      ensures r.achievements[i] == s.achievements[i]
    {
    }
  }

  /** A click power of zero does not survive a save and load: it comes back as 1. */
  lemma ZeroClickPowerComesBackAsOne(s: GameState, savedAt: int, now: int)
    requires s.clickPower == 0.0
    ensures Merge(Snapshot(s, savedAt), now).clickPower == 1.0
  {
  }
}
