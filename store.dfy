// The game-state engine of lib/store.ts. Each store operation is first a function from the
// old state to the new one (the specification), then a method of the class `GameStore`,
// whose fields are the aggregate the store updates in place.
module Store {
  import opened Types
  import opened Text
  import opened GameData
  import opened Persistence

  /** `getInitialState()` at time `now`: the catalogs with counts zeroed, nothing bought or unlocked. */
  function InitialState(now: int): (r: GameState)
    ensures r.buildings == InitialBuildings() && r.upgrades == InitialUpgrades()
    ensures r.achievements == InitialAchievements()
    ensures forall i :: 0 <= i < |r.buildings| ==> r.buildings[i].count == 0
    ensures forall i :: 0 <= i < |r.upgrades| ==> !r.upgrades[i].purchased
    ensures forall i :: 0 <= i < |r.achievements| ==> !r.achievements[i].unlocked
    ensures r.cookies == 0.0 && r.totalCookies == 0.0 && r.cps == 0.0 && r.clickPower == 1.0
    ensures r.prestigeLevel == 0 && r.prestigeMultiplier == 1.0 && r.lastActive == now
  {
    var bs, us, achs := InitialBuildings(), InitialUpgrades(), InitialAchievements();
    GameState(
      0.0, 0.0, 0.0, 1.0,
      seq(|bs|, i requires 0 <= i < |bs| => bs[i].(count := 0)),
      seq(|us|, i requires 0 <= i < |us| => us[i].(purchased := false)),
      seq(|achs|, i requires 0 <= i < |achs| => achs[i].(unlocked := false)),
      0, 1.0, now)
  }

  // ---------------------------------------------------------------------------------------
  // Achievements

  /** `after` is `before` with exactly the locked entries whose condition holds in `s` unlocked. */
  predicate Advanced(before: seq<Achievement>, after: seq<Achievement>, s: GameState) {
    && |after| == |before|
    && forall i :: 0 <= i < |before| ==>
         && after[i].id == before[i].id && after[i].name == before[i].name
         && after[i].condition == before[i].condition
         && (after[i].unlocked <==> before[i].unlocked || Holds(before[i].condition, s))
  }

  /** `checkAchievements`: unlock every locked achievement whose condition holds in the current state. */
  function AfterCheckAchievements(s: GameState): (r: GameState)
    ensures Advanced(s.achievements, r.achievements, s)
    ensures r.(achievements := s.achievements) == s
  {
    var achs := s.achievements;
    s.(achievements := seq(|achs|, i requires 0 <= i < |achs| =>
         if !achs[i].unlocked && Holds(achs[i].condition, s) then achs[i].(unlocked := true) else achs[i]))
  }

  /** A second check right after the first changes nothing: conditions do not read the achievements. */
  lemma CheckAchievementsIdempotent(s: GameState)
    ensures AfterCheckAchievements(AfterCheckAchievements(s)) == AfterCheckAchievements(s)
  {
    var r := AfterCheckAchievements(s);
    var r2 := AfterCheckAchievements(r);
    forall i | 0 <= i < |s.achievements|
      ensures r2.achievements[i] == r.achievements[i]
    {
      HoldsIgnoresRest(s.achievements[i].condition, s, r);
    }
  }

  /** Unlocking is one-way, and a check run later, on a state at least as far along, keeps every unlock. */
  lemma UnlocksPersist(s: GameState, t: GameState)
    requires Progressed(s, t) && |t.achievements| == |s.achievements|
    requires forall i :: 0 <= i < |s.achievements| ==>
      t.achievements[i].condition == s.achievements[i].condition
      && (s.achievements[i].unlocked ==> t.achievements[i].unlocked)
    ensures forall i :: 0 <= i < |s.achievements| && AfterCheckAchievements(s).achievements[i].unlocked ==>
      AfterCheckAchievements(t).achievements[i].unlocked
  {
    forall i | 0 <= i < |s.achievements| && AfterCheckAchievements(s).achievements[i].unlocked
      ensures AfterCheckAchievements(t).achievements[i].unlocked
    {
      if !s.achievements[i].unlocked {
        ConditionMonotone(s.achievements[i].condition, s, t);
      }
    }
  }

  // ---------------------------------------------------------------------------------------
  // Production rate

  /** Whether upgrade `u` boosts what `key` names: purchased, and its lower-cased name contains `key`. */
  predicate Boosts(u: Upgrade, key: string) {
    u.purchased && Contains(Lower(u.name), key)
  }

  /** `acc` multiplied, in list order, by the multiplier of every upgrade that boosts `key`. */
  function Boosted(acc: real, ups: seq<Upgrade>, key: string): real {
    if ups == [] then acc
    else
      var prev := Boosted(acc, ups[..|ups| - 1], key);
      if Boosts(ups[|ups| - 1], key) then prev * ups[|ups| - 1].multiplier else prev
  }

  /** A building's unboosted rate: `baseProduction * count`. */
  function BaseRate(b: Building): real {
    b.baseProduction * b.count as real
  }

  /** Product of the multipliers of the upgrades that boost `key`: the factor they scale a rate by. */
  function Factor(ups: seq<Upgrade>, key: string): real {
    if ups == [] then 1.0 else Factor(ups[..|ups| - 1], key) * Step(ups[|ups| - 1], key)
  }

  /** The factor an upgrade contributes to what `key` names. */
  function Step(u: Upgrade, key: string): real {
    if Boosts(u, key) then u.multiplier else 1.0
  }

  /** Sum over buildings of `baseProduction * count` times the factor of the upgrades naming the building. */
  function Production(bs: seq<Building>, ups: seq<Upgrade>): real {
    if bs == [] then 0.0
    else
      var b := bs[|bs| - 1];
      Production(bs[..|bs| - 1], ups) + BaseRate(b) * Factor(ups, Lower(b.name))
  }

  /**
   * The rate `calculateCPS` stores: production, times the factor of the "all" upgrades, times the
   * prestige multiplier. With no building owned it is zero, whatever has been bought.
   */
  function CpsOf(bs: seq<Building>, ups: seq<Upgrade>, prestigeMultiplier: real): (r: real)
    ensures (forall i :: 0 <= i < |bs| ==> bs[i].count == 0) ==> r == 0.0
  {
    ProductionZero(bs, ups);
    Production(bs, ups) * Factor(ups, "all") * prestigeMultiplier
  }

  /** Multiplying in list order by each matching multiplier is multiplying by their product. */
  lemma {:induction false} BoostedIsProduct(acc: real, ups: seq<Upgrade>, key: string)
    ensures Boosted(acc, ups, key) == acc * Factor(ups, key)
  {
    if ups != [] {
      var init, last := ups[..|ups| - 1], ups[|ups| - 1];
      BoostedIsProduct(acc, init, key);
      var f, t := Factor(init, key), Step(last, key);
      calc {
        Boosted(acc, ups, key);
        Boosted(acc, init, key) * t;
        acc * f * t;
        acc * Factor(ups, key);
      }
    }
  }

  /** Upgrades that boost nothing named `key` leave a rate as it is. */
  lemma {:induction false} FactorWithoutMatch(ups: seq<Upgrade>, key: string)
    requires forall u :: u in ups ==> !Boosts(u, key)
    ensures Factor(ups, key) == 1.0
  {
    if ups != [] {
      assert ups[|ups| - 1] in ups;
      FactorWithoutMatch(ups[..|ups| - 1], key);
    }
  }

  lemma {:induction false} FactorNonNegative(ups: seq<Upgrade>, key: string)
    requires forall u :: u in ups ==> u.multiplier >= 0.0
    ensures Factor(ups, key) >= 0.0
  {
    if ups != [] {
      assert ups[|ups| - 1] in ups;
      FactorNonNegative(ups[..|ups| - 1], key);
    }
  }

  lemma {:induction false} ProductionZero(bs: seq<Building>, ups: seq<Upgrade>)
    ensures (forall i :: 0 <= i < |bs| ==> bs[i].count == 0) ==> Production(bs, ups) == 0.0
  {
    if bs != [] && forall i :: 0 <= i < |bs| ==> bs[i].count == 0 {
      ProductionZero(bs[..|bs| - 1], ups);
      assert BaseRate(bs[|bs| - 1]) == 0.0;
    }
  }

  lemma {:induction false} ProductionNonNegative(bs: seq<Building>, ups: seq<Upgrade>)
    requires forall b :: b in bs ==> b.baseProduction >= 0.0
    requires forall u :: u in ups ==> u.multiplier >= 0.0
    ensures Production(bs, ups) >= 0.0
  {
    if bs != [] {
      var last := bs[|bs| - 1];
      assert last in bs;
      assert BaseRate(last) >= 0.0;
      ProductionNonNegative(bs[..|bs| - 1], ups);
      FactorNonNegative(ups, Lower(last.name));
    }
  }

  /** Non-negative production rates and multipliers give a non-negative stored rate. */
  lemma CpsNonNegative(bs: seq<Building>, ups: seq<Upgrade>, prestigeMultiplier: real)
    requires forall b :: b in bs ==> b.baseProduction >= 0.0
    requires forall u :: u in ups ==> u.multiplier >= 0.0
    requires prestigeMultiplier >= 0.0
    ensures CpsOf(bs, ups, prestigeMultiplier) >= 0.0
  {
    ProductionNonNegative(bs, ups);
    FactorNonNegative(ups, "all");
  }

  /** One more building of the list adds its boosted rate to the production of the prefix before it. */
  lemma ProductionPrefix(bs: seq<Building>, ups: seq<Upgrade>, i: nat)
    requires i < |bs|
    ensures Production(bs[..i + 1], ups) == Production(bs[..i], ups) + BaseRate(bs[i]) * Factor(ups, Lower(bs[i].name))
  {
    assert bs[..i + 1][..i] == bs[..i];
  }

  /** An inner `forEach` of `calculateCPS`: multiply `acc` by each purchased upgrade naming `key`, in list order. */
  method ApplyBoosts(acc: real, upgrades: seq<Upgrade>, key: string) returns (r: real)
    ensures r == Boosted(acc, upgrades, key)
    ensures r == acc * Factor(upgrades, key)
  {
    r := acc;
    var j := 0;
    while j < |upgrades|
      invariant 0 <= j <= |upgrades|
      invariant r == Boosted(acc, upgrades[..j], key)
    {
      var u := upgrades[j];
      if u.purchased && Contains(Lower(u.name), key) {
        r := r * u.multiplier;
      }
      assert upgrades[..j + 1][..j] == upgrades[..j];
      j := j + 1;
    }
    assert upgrades[..j] == upgrades;
    BoostedIsProduct(acc, upgrades, key);
  }

  /** The building loop of `calculateCPS`: each building's base rate, boosted by the upgrades naming it, summed. */
  method SumProduction(buildings: seq<Building>, upgrades: seq<Upgrade>) returns (total: real)
    ensures total == Production(buildings, upgrades)
  {
    total := 0.0;
    var i := 0;
    while i < |buildings|
      invariant 0 <= i <= |buildings|
      invariant total == Production(buildings[..i], upgrades)
    {
      var b := buildings[i];
      var buildingCps := ApplyBoosts(BaseRate(b), upgrades, Lower(b.name));
      ProductionPrefix(buildings, upgrades, i);
      total := total + buildingCps;
      i := i + 1;
    }
    assert buildings[..i] == buildings;
  }

  /** `calculateCPS`'s computation: the building loop, the "all" loop, then the prestige multiplier. */
  method ComputeCps(buildings: seq<Building>, upgrades: seq<Upgrade>, prestigeMultiplier: real)
    returns (cps: real)
    ensures cps == CpsOf(buildings, upgrades, prestigeMultiplier)
  {
    var production := SumProduction(buildings, upgrades);
    var total := ApplyBoosts(production, upgrades, "all");
    cps := total * prestigeMultiplier;
    CpsFromParts(buildings, upgrades, prestigeMultiplier, production, total);
  }

  /** The building loop's sum, boosted by the "all" factor, then scaled by the multiplier, is `CpsOf`. */
  lemma CpsFromParts(bs: seq<Building>, ups: seq<Upgrade>, prestigeMultiplier: real, production: real, total: real)
    requires production == Production(bs, ups) && total == production * Factor(ups, "all")
    ensures total * prestigeMultiplier == CpsOf(bs, ups, prestigeMultiplier)
  {
  }

  /** `calculateCPS` as a state transition: only `cps` changes. */
  function WithCps(s: GameState): (r: GameState)
    ensures r.(cps := s.cps) == s
    ensures r.cps == CpsOf(s.buildings, s.upgrades, s.prestigeMultiplier)
  {
    s.(cps := CpsOf(s.buildings, s.upgrades, s.prestigeMultiplier))
  }

  // ---------------------------------------------------------------------------------------
  // Clicks and ticks

  /** `clickCookie`: add `clickPower * prestigeMultiplier` to the balance and the lifetime total, then check achievements. */
  function AfterClick(s: GameState): (r: GameState)
    ensures r.cookies == s.cookies + s.clickPower * s.prestigeMultiplier
    ensures r.totalCookies - r.cookies == s.totalCookies - s.cookies
    ensures Advanced(s.achievements, r.achievements, r)
    ensures r.(cookies := s.cookies, totalCookies := s.totalCookies, achievements := s.achievements) == s
  {
    var gain := s.clickPower * s.prestigeMultiplier;
    AfterCheckAchievements(s.(cookies := s.cookies + gain, totalCookies := s.totalCookies + gain))
  }

  /**
   * `tick`: one tenth of `cps * prestigeMultiplier` goes to the balance and the lifetime total.
   * `cps` already includes the prestige multiplier, so it is applied a second time here.
   */
  function AfterTick(s: GameState): (r: GameState)
    ensures r.cookies == s.cookies + s.cps * s.prestigeMultiplier / 10.0
    ensures r.totalCookies - r.cookies == s.totalCookies - s.cookies
    ensures r.(cookies := s.cookies, totalCookies := s.totalCookies) == s
  {
    var gain := s.cps * s.prestigeMultiplier / 10.0;
    s.(cookies := s.cookies + gain, totalCookies := s.totalCookies + gain)
  }

  /** With an up-to-date `cps`, ten ticks yield the boosted production times the prestige multiplier squared. */
  lemma TickAppliesMultiplierTwice(s: GameState)
    requires s.cps == CpsOf(s.buildings, s.upgrades, s.prestigeMultiplier)
    ensures (AfterTick(s).cookies - s.cookies) * 10.0
         == Production(s.buildings, s.upgrades) * Factor(s.upgrades, "all") * s.prestigeMultiplier * s.prestigeMultiplier
  {
  }

  // ---------------------------------------------------------------------------------------
  // Purchases

  /** Index of the first building with the given id (`Array.find`). */
  function FindBuilding(bs: seq<Building>, id: string): (r: Option<nat>)
    ensures r.Some? ==>
              r.value < |bs| && bs[r.value].id == id
              && forall j :: 0 <= j < r.value ==> bs[j].id != id
    ensures r.None? ==> forall j :: 0 <= j < |bs| ==> bs[j].id != id
  {
    if bs == [] then None
    else if bs[0].id == id then Some(0)
    else match FindBuilding(bs[1..], id)
      case None => None
      case Some(k) => Some(k + 1)
  }

  /** Index of the first upgrade with the given id (`Array.find`). */
  function FindUpgrade(us: seq<Upgrade>, id: string): (r: Option<nat>)
    ensures r.Some? ==>
              r.value < |us| && us[r.value].id == id
              && forall j :: 0 <= j < r.value ==> us[j].id != id
    ensures r.None? ==> forall j :: 0 <= j < |us| ==> us[j].id != id
  {
    if us == [] then None
    else if us[0].id == id then Some(0)
    else match FindUpgrade(us[1..], id)
      case None => None
      case Some(k) => Some(k + 1)
  }

  /** The guard of `buyBuilding`: the id is present and the balance covers the first match's cost. */
  predicate CanBuyBuilding(s: GameState, id: string)
    ensures CanBuyBuilding(s, id) <==>
              exists k :: 0 <= k < |s.buildings| && s.buildings[k].id == id
                && (forall j :: 0 <= j < k ==> s.buildings[j].id != id)
                && BuildingCost(s.buildings[k]) as real <= s.cookies
  {
    var k := FindBuilding(s.buildings, id);
    k.Some? && BuildingCost(s.buildings[k.value]) as real <= s.cookies
  }

  /** `after` is `before` with one more unit of every building carrying `id`, and nothing else changed. */
  predicate Incremented(before: seq<Building>, after: seq<Building>, id: string) {
    && |after| == |before|
    && forall i :: 0 <= i < |before| ==>
         after[i] == if before[i].id == id then before[i].(count := before[i].count + 1) else before[i]
  }

  /** `buyBuilding(id)`: a silent no-op unless affordable; otherwise pay, add a unit, recompute `cps`, check achievements. */
  function AfterBuyBuilding(s: GameState, id: string): (r: GameState)
    ensures !CanBuyBuilding(s, id) ==> r == s
    ensures CanBuyBuilding(s, id) ==>
              && r.cookies == s.cookies - BuildingCost(s.buildings[FindBuilding(s.buildings, id).value]) as real
              && Incremented(s.buildings, r.buildings, id)
              && r.cps == CpsOf(r.buildings, r.upgrades, r.prestigeMultiplier)
              && Advanced(s.achievements, r.achievements, r)
              && r.(cookies := s.cookies, buildings := s.buildings, cps := s.cps, achievements := s.achievements) == s
    ensures s.cookies >= 0.0 ==> r.cookies >= 0.0
  {
    match FindBuilding(s.buildings, id)
    case None => s
    case Some(k) =>
      var cost := BuildingCost(s.buildings[k]);
      if s.cookies < cost as real then s
      else
        var bs := s.buildings;
        var bought := s.(cookies := s.cookies - cost as real,
                         buildings := seq(|bs|, i requires 0 <= i < |bs| =>
                           if bs[i].id == id then bs[i].(count := bs[i].count + 1) else bs[i]));
        AfterCheckAchievements(WithCps(bought))
  }

  /** The guard of `buyUpgrade`: the id is present, its first match unpurchased and affordable. */
  predicate CanBuyUpgrade(s: GameState, id: string)
    ensures CanBuyUpgrade(s, id) <==>
              exists k :: 0 <= k < |s.upgrades| && s.upgrades[k].id == id
                && (forall j :: 0 <= j < k ==> s.upgrades[j].id != id)
                && !s.upgrades[k].purchased && s.upgrades[k].cost <= s.cookies
  {
    var k := FindUpgrade(s.upgrades, id);
    k.Some? && !s.upgrades[k.value].purchased && s.upgrades[k.value].cost <= s.cookies
  }

  /** `after` is `before` with every upgrade carrying `id` marked purchased, and nothing else changed. */
  predicate MarkedPurchased(before: seq<Upgrade>, after: seq<Upgrade>, id: string) {
    && |after| == |before|
    && forall i :: 0 <= i < |before| ==>
         after[i] == if before[i].id == id then before[i].(purchased := true) else before[i]
  }

  /** `buyUpgrade(id)`: a silent no-op unless purchasable; otherwise pay, mark purchased, recompute `cps`, check achievements. */
  function AfterBuyUpgrade(s: GameState, id: string): (r: GameState)
    ensures !CanBuyUpgrade(s, id) ==> r == s
    ensures CanBuyUpgrade(s, id) ==>
              && r.cookies == s.cookies - s.upgrades[FindUpgrade(s.upgrades, id).value].cost
              && MarkedPurchased(s.upgrades, r.upgrades, id)
              && r.cps == CpsOf(r.buildings, r.upgrades, r.prestigeMultiplier)
              && Advanced(s.achievements, r.achievements, r)
              && r.(cookies := s.cookies, upgrades := s.upgrades, cps := s.cps, achievements := s.achievements) == s
    ensures |r.upgrades| == |s.upgrades|
    ensures forall i :: 0 <= i < |s.upgrades| && s.upgrades[i].purchased ==> r.upgrades[i].purchased
    ensures s.cookies >= 0.0 ==> r.cookies >= 0.0
  {
    match FindUpgrade(s.upgrades, id)
    case None => s
    case Some(k) =>
      var u := s.upgrades[k];
      if u.purchased || s.cookies < u.cost then s
      else
        var us := s.upgrades;
        var bought := s.(cookies := s.cookies - u.cost,
                         upgrades := seq(|us|, i requires 0 <= i < |us| =>
                           if us[i].id == id then us[i].(purchased := true) else us[i]));
        AfterCheckAchievements(WithCps(bought))
  }

  // ---------------------------------------------------------------------------------------
  // Prestige and reset

  /**
   * `prestige`: a fresh state at time `now` except for the next prestige level and its multiplier.
   * The lifetime total is zeroed and every achievement locked again.
   */
  function AfterPrestige(s: GameState, now: int): (r: GameState)
    ensures r.prestigeLevel == s.prestigeLevel + 1
    ensures r.prestigeMultiplier == 1.0 + (s.prestigeLevel + 1) as real * PrestigeMultiplierBase
    ensures s.prestigeMultiplier == MultiplierAt(s.prestigeLevel) ==> r.prestigeMultiplier > s.prestigeMultiplier
    ensures r.(prestigeLevel := 0, prestigeMultiplier := 1.0) == InitialState(now)
  {
    var newLevel := s.prestigeLevel + 1;
    InitialState(now).(prestigeLevel := newLevel, prestigeMultiplier := MultiplierAt(newLevel))
  }

  /**
   * The multiplier need not be the level's: a record carrying only the legacy `multiplier` 3 loads
   * at level 0 with multiplier 3, and a prestige then lowers the multiplier to 1.5.
   */
  lemma PrestigeAfterLegacyLoad(now: int)
    ensures var d := SaveData(None, None, None, None, None, None, None, None, None, None, None, Some(3.0), None);
            var m := Merge(d, now);
            && m.prestigeLevel == 0 && m.prestigeMultiplier == 3.0
            && AfterPrestige(m, now).prestigeMultiplier == 1.5 < m.prestigeMultiplier
  {
  }

  // ---------------------------------------------------------------------------------------
  // Offline progress and loading

  /** The offline cap: 24 hours, in seconds. */
  const OfflineCapSeconds: real := 86400.0

  /** `calculateOfflineProgress`: the rate times the elapsed seconds, capped at a day but not clamped at zero. */
  function OfflineProgress(cps: real, prestigeMultiplier: real, lastActive: int, now: int): (r: real)
    ensures (now - lastActive) as real / 1000.0 <= OfflineCapSeconds ==>
              r == cps * prestigeMultiplier * ((now - lastActive) as real / 1000.0)
    ensures (now - lastActive) as real / 1000.0 >= OfflineCapSeconds ==> r == cps * prestigeMultiplier * OfflineCapSeconds
    ensures cps * prestigeMultiplier >= 0.0 ==> r <= cps * prestigeMultiplier * OfflineCapSeconds
    ensures cps * prestigeMultiplier >= 0.0 && now <= lastActive ==> r <= 0.0
  {
    var elapsed := (now - lastActive) as real / 1000.0;
    var capped := if elapsed < OfflineCapSeconds then elapsed else OfflineCapSeconds;
    var rate := cps * prestigeMultiplier;
    assert rate >= 0.0 ==> rate * capped <= rate * OfflineCapSeconds;
    rate * capped
  }

  /** The worked examples: an hour at 10 cookies per second with multiplier 2, and a stay longer than the cap. */
  lemma OfflineExamples()
    ensures OfflineProgress(10.0, 2.0, 1000, 1000 + 3600000) == 72000.0
    ensures OfflineProgress(10.0, 2.0, 1000, 1000 + 100000000) == 10.0 * 2.0 * 86400.0
  {
  }

  /** The award step of `loadGame`: the offline amount goes to balance and lifetime total only when positive. */
  function AwardOffline(m: GameState, now: int): (r: GameState)
    ensures var offline := OfflineProgress(m.cps, m.prestigeMultiplier, m.lastActive, now);
            && (offline > 0.0 ==> r.cookies == m.cookies + offline)
            && (offline <= 0.0 ==> r == m)
    ensures r.cookies >= m.cookies && r.totalCookies >= m.totalCookies
    ensures r.totalCookies - r.cookies == m.totalCookies - m.cookies
    ensures r.(cookies := m.cookies, totalCookies := m.totalCookies) == m
  {
    var offline := OfflineProgress(m.cps, m.prestigeMultiplier, m.lastActive, now);
    if offline > 0.0 then m.(cookies := m.cookies + offline, totalCookies := m.totalCookies + offline) else m
  }

  /**
   * `loadGame` given what storage returned (`None` when nothing was saved): merge the record,
   * award offline progress at the stored rate, then recompute `cps` and check achievements.
   */
  function AfterLoad(s: GameState, data: Option<SaveData>, now: int): (r: GameState)
    ensures data.None? ==> r == s
  {
    if data.None? then s
    else AfterCheckAchievements(WithCps(AwardOffline(Merge(data.value, now), now)))
  }

  /**
   * The offline award of a load: computed from the stored rate and multiplier before the rate is
   * recomputed, and added to the balance and the lifetime total alike only when positive; so it
   * is never negative and, at a non-negative rate, at most a day's worth.
   */
  lemma LoadAward(s: GameState, d: SaveData, now: int)
    ensures var m, r := Merge(d, now), AfterLoad(s, Some(d), now);
            var o := OfflineProgress(m.cps, m.prestigeMultiplier, m.lastActive, now);
            && r.cookies == m.cookies + (if o > 0.0 then o else 0.0)
            && r.totalCookies == m.totalCookies + (if o > 0.0 then o else 0.0)
            && r.cookies >= m.cookies && r.totalCookies >= m.totalCookies
            && r.totalCookies - r.cookies == m.totalCookies - m.cookies
            && (m.cps * m.prestigeMultiplier >= 0.0 ==>
                  r.cookies - m.cookies <= m.cps * m.prestigeMultiplier * OfflineCapSeconds)
  {
    var m := Merge(d, now);
    var a := AwardOffline(m, now);
    assert AfterLoad(s, Some(d), now) == AfterCheckAchievements(WithCps(a));
    assert a.cookies - m.cookies <= m.cps * m.prestigeMultiplier * OfflineCapSeconds
      || m.cps * m.prestigeMultiplier < 0.0;
  }

  /**
   * Apart from the award, a load keeps the merged record, except that the rate is recomputed
   * from the merged buildings, upgrades and multiplier and achievements are checked.
   */
  lemma LoadOutcome(s: GameState, d: SaveData, now: int)
    ensures var m, r := Merge(d, now), AfterLoad(s, Some(d), now);
            && r.cps == CpsOf(m.buildings, m.upgrades, m.prestigeMultiplier)
            && r.buildings == m.buildings && r.upgrades == m.upgrades
            && r.prestigeLevel == m.prestigeLevel && r.prestigeMultiplier == m.prestigeMultiplier
            && r.clickPower == m.clickPower && r.lastActive == m.lastActive
            && Advanced(m.achievements, r.achievements, r)
  {
    var m := Merge(d, now);
    var w := WithCps(AwardOffline(m, now));
    assert AfterLoad(s, Some(d), now) == AfterCheckAchievements(w);
    assert w.buildings == m.buildings && w.upgrades == m.upgrades && w.prestigeMultiplier == m.prestigeMultiplier;
  }

  // ---------------------------------------------------------------------------------------
  // The invariant the play operations keep

  /** Balance between zero and the lifetime total, and nothing that could make a gain or a price negative. */
  predicate Healthy(s: GameState) {
    && 0.0 <= s.cookies <= s.totalCookies
    && s.clickPower >= 0.0 && s.cps >= 0.0 && s.prestigeMultiplier >= 1.0
    && (forall b :: b in s.buildings ==> b.baseCost >= 0.0 && b.baseProduction >= 0.0)
    && (forall u :: u in s.upgrades ==> u.cost >= 0.0 && u.multiplier >= 0.0)
  }

  lemma InitialHealthy(now: int)
    ensures Healthy(InitialState(now))
  {
    var bs := InitialBuildings();
    forall b | b in bs ensures b.baseCost >= 0.0 && b.baseProduction >= 0.0 {
      var i :| 0 <= i < |bs| && bs[i] == b;
    }
    var us := InitialUpgrades();
    forall u | u in us ensures u.cost >= 0.0 && u.multiplier >= 0.0 {
      var i :| 0 <= i < |us| && us[i] == u;
    }
  }

  /** Clicks and ticks keep the state healthy and never lower the balance or the lifetime total. */
  lemma GainsKeepHealthy(s: GameState)
    requires Healthy(s)
    ensures Healthy(AfterClick(s)) && Healthy(AfterTick(s))
    ensures AfterClick(s).cookies >= s.cookies && AfterClick(s).totalCookies >= s.totalCookies
    ensures AfterTick(s).cookies >= s.cookies && AfterTick(s).totalCookies >= s.totalCookies
  {
    var c, t := AfterClick(s), AfterTick(s);
    assert s.clickPower * s.prestigeMultiplier >= 0.0;
    assert s.cps * s.prestigeMultiplier >= 0.0;
    assert c.buildings == s.buildings && c.upgrades == s.upgrades;
  }

  /** Buying a building keeps the state healthy: the balance stays non-negative and the recomputed rate too. */
  lemma BuildingPurchaseKeepsHealthy(s: GameState, id: string)
    requires Healthy(s)
    ensures Healthy(AfterBuyBuilding(s, id))
    ensures AfterBuyBuilding(s, id).totalCookies == s.totalCookies
  {
    if CanBuyBuilding(s, id) {
      var r := AfterBuyBuilding(s, id);
      var k := FindBuilding(s.buildings, id).value;
      assert s.buildings[k] in s.buildings;
      forall b | b in r.buildings ensures b.baseCost >= 0.0 && b.baseProduction >= 0.0 {
        var i :| 0 <= i < |r.buildings| && r.buildings[i] == b;
        assert s.buildings[i] in s.buildings;
      }
      CpsNonNegative(r.buildings, r.upgrades, r.prestigeMultiplier);
    }
  }

  /** Buying an upgrade keeps the state healthy: the balance stays non-negative and the recomputed rate too. */
  lemma UpgradePurchaseKeepsHealthy(s: GameState, id: string)
    requires Healthy(s)
    ensures Healthy(AfterBuyUpgrade(s, id))
    ensures AfterBuyUpgrade(s, id).totalCookies == s.totalCookies
  {
    if CanBuyUpgrade(s, id) {
      var r := AfterBuyUpgrade(s, id);
      var k := FindUpgrade(s.upgrades, id).value;
      assert s.upgrades[k] in s.upgrades;
      forall u | u in r.upgrades ensures u.cost >= 0.0 && u.multiplier >= 0.0 {
        var i :| 0 <= i < |r.upgrades| && r.upgrades[i] == u;
        assert s.upgrades[i] in s.upgrades;
      }
      CpsNonNegative(r.buildings, r.upgrades, r.prestigeMultiplier);
    }
  }

  /** Prestige and reset land in a healthy state whatever came before. */
  lemma PrestigeHealthy(s: GameState, now: int)
    ensures Healthy(AfterPrestige(s, now)) && Healthy(InitialState(now))
  {
    InitialHealthy(now);
  }

  // ---------------------------------------------------------------------------------------
  // The store object

  /** The store: the fields of the aggregate, updated in place by its operations. */
  class GameStore {
    var cookies: real
    var totalCookies: real
    var cps: real
    var clickPower: real
    var buildings: seq<Building>
    var upgrades: seq<Upgrade>
    var achievements: seq<Achievement>
    var prestigeLevel: nat
    var prestigeMultiplier: real
    var lastActive: int

    /** The current field values as a state value. */
    function State(): GameState
      reads this
    {
      GameState(cookies, totalCookies, cps, clickPower, buildings, upgrades, achievements,
                prestigeLevel, prestigeMultiplier, lastActive)
    }

    /** Overwrite every field with `s`, as a whole-state `set` does. */
    method Install(s: GameState)
      modifies this
      ensures State() == s
    {
      cookies, totalCookies, cps, clickPower := s.cookies, s.totalCookies, s.cps, s.clickPower;
      buildings, upgrades, achievements := s.buildings, s.upgrades, s.achievements;
      prestigeLevel, prestigeMultiplier, lastActive := s.prestigeLevel, s.prestigeMultiplier, s.lastActive;
    }

    /** The store as created: `getInitialState()` at time `now`. */
    constructor (now: int)
      ensures State() == InitialState(now)
    {
      var s := InitialState(now);
      cookies, totalCookies, cps, clickPower := s.cookies, s.totalCookies, s.cps, s.clickPower;
      buildings, upgrades, achievements := s.buildings, s.upgrades, s.achievements;
      prestigeLevel, prestigeMultiplier, lastActive := s.prestigeLevel, s.prestigeMultiplier, s.lastActive;
    }

    method ClickCookie()
      modifies this
      ensures State() == AfterClick(old(State()))
    {
      var gain := clickPower * prestigeMultiplier;
      cookies := cookies + gain;
      totalCookies := totalCookies + gain;
      CheckAchievements();
    }

    method Tick()
      modifies this
      ensures State() == AfterTick(old(State()))
    {
      var cookiesThisTick := cps * prestigeMultiplier / 10.0;
      cookies := cookies + cookiesThisTick;
      totalCookies := totalCookies + cookiesThisTick;
    }

    method CalculateCps()
      modifies this
      ensures State() == WithCps(old(State()))
    {
      cps := ComputeCps(buildings, upgrades, prestigeMultiplier);
    }

    method CheckAchievements()
      modifies this
      ensures State() == AfterCheckAchievements(old(State()))
    {
      achievements := AfterCheckAchievements(State()).achievements;
    }

    method BuyBuilding(id: string)
      modifies this
      ensures State() == AfterBuyBuilding(old(State()), id)
    {
      var found := FindBuilding(buildings, id);
      if found.None? {
        return;
      }
      var cost := BuildingCost(buildings[found.value]);
      if cookies < cost as real {
        return;
      }
      var bs := buildings;
      cookies := cookies - cost as real;
      buildings := seq(|bs|, i requires 0 <= i < |bs| =>
                     if bs[i].id == id then bs[i].(count := bs[i].count + 1) else bs[i]);
      CalculateCps();
      CheckAchievements();
    }

    method BuyUpgrade(id: string)
      modifies this
      ensures State() == AfterBuyUpgrade(old(State()), id)
    {
      var found := FindUpgrade(upgrades, id);
      if found.None? || upgrades[found.value].purchased || cookies < upgrades[found.value].cost {
        return;
      }
      var us := upgrades;
      cookies := cookies - us[found.value].cost;
      upgrades := seq(|us|, i requires 0 <= i < |us| =>
                    if us[i].id == id then us[i].(purchased := true) else us[i]);
      CalculateCps();
      CheckAchievements();
    }

    method CalculateOfflineProgress(since: int, now: int) returns (offline: real)
      ensures offline == OfflineProgress(cps, prestigeMultiplier, since, now)
    {
      var elapsed := (now - since) as real / 1000.0;
      var capped := if elapsed < OfflineCapSeconds then elapsed else OfflineCapSeconds;
      offline := cps * prestigeMultiplier * capped;
    }

    /** `loadGame` once storage has answered with `data` (`None` when nothing was saved). */
    method LoadGame(data: Option<SaveData>, now: int)
      modifies this
      ensures State() == AfterLoad(old(State()), data, now)
    {
      if data.None? {
        return;
      }
      var merged := Merge(data.value, now);
      Install(merged);
      var offline := CalculateOfflineProgress(lastActive, now);
      if offline > 0.0 {
        cookies := cookies + offline;
        totalCookies := totalCookies + offline;
      }
      assert State() == AwardOffline(merged, now);
      CalculateCps();
      CheckAchievements();
    }

    /** The record `saveGame` writes at time `now`; the write itself is not modelled. */
    method SaveSnapshot(now: int) returns (d: SaveData)
      ensures d == Snapshot(State(), now)
    {
      d := Snapshot(State(), now);
    }

    method Prestige(now: int)
      modifies this
      ensures State() == AfterPrestige(old(State()), now)
    {
      var newLevel := prestigeLevel + 1;
      var newMult := 1.0 + newLevel as real * PrestigeMultiplierBase;
      Install(InitialState(now));
      prestigeLevel, prestigeMultiplier := newLevel, newMult;
    }

    method Reset(now: int)
      modifies this
      ensures State() == InitialState(now)
    {
      Install(InitialState(now));
    }
  }
}
