// The upgrade shop panel (components/UpgradeShop.tsx): which upgrades are offered, whether the
// panel shows at all, and which buttons are enabled. Rendering is not modelled.
module UpgradeShop {
  import opened Types
  import opened GameData
  import opened Store

  /**
   * The unlock test of the filter. A missing threshold and a threshold of 0 are both falsy in
   * JavaScript, so either leaves the upgrade unlocked.
   */
  predicate Unlocked(u: Upgrade, totalCookies: real) {
    u.unlockCondition.None? || u.unlockCondition.value == 0.0 || totalCookies >= u.unlockCondition.value
  }

  /** Whether the shop lists `u`: not yet purchased and unlocked by the lifetime total. */
  predicate Offered(u: Upgrade, totalCookies: real) {
    !u.purchased && Unlocked(u, totalCookies)
  }

  /** The `availableUpgrades` filter: the offered upgrades, in catalog order. */
  function AvailableUpgrades(ups: seq<Upgrade>, totalCookies: real): (r: seq<Upgrade>)
    ensures |r| <= |ups|
    ensures forall u :: u in r <==> u in ups && Offered(u, totalCookies)
  {
    if ups == [] then []
    else if Offered(ups[0], totalCookies) then [ups[0]] + AvailableUpgrades(ups[1..], totalCookies)
    else AvailableUpgrades(ups[1..], totalCookies)
  }

  /** `r` is `s` with some elements dropped and the rest kept in order. */
  predicate SubsequenceOf<T(==)>(r: seq<T>, s: seq<T>)
    decreases |s|
  {
    if r == [] then true
    else if s == [] then false
    else if r[0] == s[0] then SubsequenceOf(r[1..], s[1..])
    else SubsequenceOf(r, s[1..])
  }

  /** The listing keeps the catalog's order. */
  lemma {:induction false} AvailableKeepsOrder(ups: seq<Upgrade>, totalCookies: real)
    ensures SubsequenceOf(AvailableUpgrades(ups, totalCookies), ups)
  {
    if ups != [] {
      AvailableKeepsOrder(ups[1..], totalCookies);
      var rest := AvailableUpgrades(ups[1..], totalCookies);
      if !Offered(ups[0], totalCookies) && rest != [] {
        assert rest[0] in rest;
      }
    }
  }

  /** A larger lifetime total never removes an upgrade from the listing. */
  lemma AvailableGrowsWithTotal(ups: seq<Upgrade>, t1: real, t2: real)
    requires t1 <= t2
    ensures forall u :: u in AvailableUpgrades(ups, t1) ==> u in AvailableUpgrades(ups, t2)
  {
  }

  /** The panel renders (does not return `null`) exactly when some upgrade is offered. */
  function ShopVisible(ups: seq<Upgrade>, totalCookies: real): (r: bool)
    ensures r <==> exists i :: 0 <= i < |ups| && Offered(ups[i], totalCookies)
  {
    var listed := AvailableUpgrades(ups, totalCookies);
    if |listed| > 0 then assert listed[0] in listed; true
    else
      assert forall i :: 0 <= i < |ups| ==> ups[i] !in listed;
      false
  }

  /** A button is enabled when the balance covers the cost. */
  function CanAfford(cookies: real, u: Upgrade): (r: bool) {
    cookies >= u.cost
  }

  /**
   * With distinct ids, an enabled button is exactly a purchase the store carries out: for a listed
   * upgrade, `buyUpgrade` changes the state if and only if the button is enabled.
   */
  lemma EnabledButtonBuys(s: GameState, u: Upgrade)
    requires forall i, j :: 0 <= i < j < |s.upgrades| ==> s.upgrades[i].id != s.upgrades[j].id
    requires u in AvailableUpgrades(s.upgrades, s.totalCookies)
    ensures CanBuyUpgrade(s, u.id) <==> CanAfford(s.cookies, u)
    ensures CanAfford(s.cookies, u) ==> AfterBuyUpgrade(s, u.id).cookies == s.cookies - u.cost
  {
    var i :| 0 <= i < |s.upgrades| && s.upgrades[i] == u;
    assert FindUpgrade(s.upgrades, u.id) == Some(i);
  }

  /** A bought upgrade leaves the listing: nothing carrying its id is offered afterwards. */
  lemma BoughtUpgradeLeavesShop(s: GameState, id: string)
    requires CanBuyUpgrade(s, id)
    ensures forall u :: u in AvailableUpgrades(AfterBuyUpgrade(s, id).upgrades, AfterBuyUpgrade(s, id).totalCookies)
                      ==> u.id != id
  {
    var r := AfterBuyUpgrade(s, id);
    forall u | u in AvailableUpgrades(r.upgrades, r.totalCookies)
      ensures u.id != id
    {
      var i :| 0 <= i < |r.upgrades| && r.upgrades[i] == u;
    }
  }

  /** At the start of a run (lifetime total 0) every catalog upgrade is still locked, so the panel is hidden. */
  lemma HiddenAtStart(now: int)
    ensures !ShopVisible(InitialState(now).upgrades, InitialState(now).totalCookies)
  {
  }

  /**
   * `buyUpgrade` does not consult the unlock threshold: with enough cookies at the start of a run,
   * "Golden Switch" can be bought although the shop does not list it.
   */
  lemma PurchaseIgnoresUnlock(now: int)
    ensures var s := InitialState(now).(cookies := 1000000000.0);
            && CanBuyUpgrade(s, "golden_switch")
            && forall u :: u in AvailableUpgrades(s.upgrades, s.totalCookies) ==> u.id != "golden_switch"
  {
    var s := InitialState(now).(cookies := 1000000000.0);
    assert FindUpgrade(s.upgrades, "golden_switch") == Some(5);
  }
}
