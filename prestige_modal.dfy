// The prestige panel (components/PrestigeModal.tsx): when it appears and what it previews.
// The dialog's open/closed state and its rendering are not modelled.
module PrestigeModal {
  import opened Types
  import opened GameData
  import opened Store

  /** The panel's gate `canPrestige`: the lifetime total has reached the prestige threshold. */
  predicate CanPrestige(totalCookies: real) {
    totalCookies >= PrestigeThreshold
  }

  /** The previewed level after confirming. */
  function NextLevel(prestigeLevel: nat): (r: nat)
    ensures r > prestigeLevel
  {
    prestigeLevel + 1
  }

  /** The previewed multiplier `nextMultiplier`, computed by the panel on its own. */
  function NextMultiplier(prestigeLevel: nat): (r: real)
    ensures r >= 1.5
    ensures r > MultiplierAt(prestigeLevel)
  {
    1.0 + (prestigeLevel + 1) as real * PrestigeMultiplierBase
  }

  /** The preview agrees with what the store's `prestige` installs. */
  lemma PreviewMatchesPrestige(s: GameState, now: int)
    ensures AfterPrestige(s, now).prestigeLevel == NextLevel(s.prestigeLevel)
    ensures AfterPrestige(s, now).prestigeMultiplier == NextMultiplier(s.prestigeLevel)
  {
  }

  /**
   * Confirming empties the lifetime total, so the panel disappears right after a prestige and
   * reappears only once a further threshold's worth of cookies has been baked.
   */
  lemma HiddenAfterPrestige(s: GameState, now: int)
    ensures !CanPrestige(AfterPrestige(s, now).totalCookies)
  {
  }

  /** Once shown, the panel stays available through clicks, ticks and purchases. */
  lemma StaysAvailable(s: GameState, id: string)
    requires Healthy(s) && CanPrestige(s.totalCookies)
    ensures CanPrestige(AfterClick(s).totalCookies) && CanPrestige(AfterTick(s).totalCookies)
    ensures CanPrestige(AfterBuyBuilding(s, id).totalCookies) && CanPrestige(AfterBuyUpgrade(s, id).totalCookies)
  {
    GainsKeepHealthy(s);
    BuildingPurchaseKeepsHealthy(s, id);
    UpgradePurchaseKeepsHealthy(s, id);
  }

  /**
   * The store's `prestige` itself has no threshold check: called below the threshold it still
   * raises the level. Only the panel's gate keeps it from being reached.
   */
  lemma PrestigeUngatedInStore(now: int)
    ensures !CanPrestige(InitialState(now).totalCookies)
    ensures AfterPrestige(InitialState(now), now).prestigeLevel == 1
  {
  }
}
