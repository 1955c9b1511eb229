# Cookie clicker game engine in Dafny

This project models the game-state engine of a browser cookie-clicker game. The player bakes
cookies by clicking. They spend cookies on buildings that produce cookies every second and on
upgrades that multiply that production. Achievements unlock as the totals grow. Once a
trillion cookies have been baked in total, the player can "prestige": the run restarts with a
permanent production multiplier.

The model covers:

- `Types`: the aggregate `GameState` and its entities `Building`, `Upgrade` and `Achievement`.
  An achievement condition is a `Condition` value, interpreted by `GameData.Holds`.
- `Text`: the string behaviour the engine relies on. This is ASCII `toLowerCase`, `includes`,
  the part of an e-mail address before `@`, and integer `toString`.
- `GameData`: the three catalogs and the prestige constants. It also holds the building price
  curve `floor(baseCost * 1.15^count)` and the branch `formatNumber` picks.
- `Persistence`: the record a save writes and the leaderboard row with its user name. It also
  holds the merge a load applies to a stored record, with its JavaScript `||` fallbacks.
- `Store`: every store operation. Each one is a function from the old state to the new one.
  The class `GameStore` holds the state as fields, and each method that carries out a store
  transition ensures `State() == AfterX(old(State()))`. `SaveSnapshot` and
  `CalculateOfflineProgress` only return values, and the helper `Install` sets `State()` to its argument. `ComputeCps` runs the loops of `calculateCPS` and is
  proved to compute `CpsOf`: the sum of each building's base rate times the product of its
  upgrades' multipliers, times the "all" upgrades' product, times the prestige multiplier.
- `CatalogNames`: what the name-matching rule of `calculateCPS` gives with the shipped
  catalogs. Only "Grandma's Helpers" boosts a building, namely "Grandma". No upgrade boosts
  everything.
- `UpgradeShop` and `PrestigeModal`: the two gates that exist only in the interface. One is the
  upgrade listing and its enabled buttons. The other is the prestige threshold and the
  previewed multiplier.

Numbers are exact `real`s. The current time is the parameter `now`. A stored record is a
`SaveData` value with an `Option` per field. `None` stands for a field the record lacks.

Several behaviours of the engine are modelled as they are written:

- `cps` is stored already multiplied by the prestige multiplier. The tick and the offline
  award multiply by it again.
- Prestige zeroes the lifetime total and locks every achievement again.
- A load does not add back catalog achievements missing from the stored record.
- `buyUpgrade` does not check the unlock threshold.
- Upgrades apply to a building when the building's lower-cased name occurs in the upgrade's
  lower-cased name.
- A purchase increments every building that carries the id. The price comes from the first one.

## Model

| member | source | states |
|---|---|---|
| GameData.InitialBuildings | lib/gameData.ts:3-94 | ten buildings, all counts 0, distinct ids, base costs of at least 15 that are whole numbers, positive production |
| GameData.InitialUpgrades | lib/gameData.ts:96-157 | six upgrades, none purchased, each with multiplier 2, a positive cost and a positive unlock threshold, distinct ids |
| GameData.InitialAchievements | lib/gameData.ts:159-209 | six achievements, all locked, distinct ids, none with the never-true condition |
| GameData.MultiplierAt | lib/gameData.ts:211-212 | the multiplier `1 + level * 0.5` is at least 1 and grows with each level |
| GameData.MultiplierIncreasing | lib/gameData.ts:212 | a higher prestige level always gives a strictly larger multiplier |
| GameData.Pow115 | lib/gameData.ts:218 | the price factor `1.15^count` is never below 1 |
| GameData.Pow115AtLeastLinear | lib/gameData.ts:218 | the price factor grows at least linearly: `1.15^n >= 1 + 0.15 n` |
| GameData.Pow115Monotone | lib/gameData.ts:218 | `1.15^n` never decreases as n grows |
| GameData.BuildingCost | lib/gameData.ts:216-219 | the price is the floor of `baseCost * 1.15^count`, non-negative for a non-negative base cost, and equal to a whole base cost at count 0 |
| GameData.CostStep | lib/gameData.ts:217-219 | with a non-negative base cost, one more unit never lowers the price of the next |
| GameData.CostMonotone | lib/gameData.ts:217-219 | owning more units never makes the next one cheaper |
| GameData.CostStrictlyIncreasing | lib/gameData.ts:217-219 | with a base cost of at least 20/3, each extra unit makes the next strictly dearer |
| GameData.CatalogCosts | lib/gameData.ts:7-88 | every catalog building first costs exactly its base cost, and more with each unit |
| GameData.FormatNumber | lib/gameData.ts:222-228 | below 1000 the output is the integer part; otherwise exactly one of K, M, B, T is chosen by range, and the scaled value times the unit gives back the number and lies in [1, 1000) except for T |
| GameData.SmallNumbersPlain | lib/gameData.ts:223 | a number in [0, 1000) prints as one to three digits that parse back to its floor |
| GameData.SumCounts | lib/gameData.ts:197 | the summed count is at least every single count, and is 0 exactly when every count is 0 |
| GameData.Holds | lib/gameData.ts:188 | "owns any building" holds exactly when the summed count is at least 1; the never-true condition holds in no state |
| GameData.SumCountsMonotone | lib/gameData.ts:196-197 | the summed building count never decreases when no count decreases |
| GameData.ConditionMonotone | lib/gameData.ts:164-205 | every condition kind, once true, stays true while the lifetime total, the counts and the prestige level do not decrease |
| GameData.HoldsIgnoresRest | lib/gameData.ts:164-205 | conditions depend only on the lifetime total, the buildings and the prestige level |
| Text.Lower | lib/store.ts:103 | lower-casing keeps the length and maps each character through ASCII lower-casing |
| Text.Contains | lib/store.ts:103 | the empty pattern is in every text, and a contained pattern is no longer than the text |
| Text.ContainsIffOccurs | lib/store.ts:103 | `includes` holds exactly when the pattern occurs at some offset |
| Text.MissingPairExcludes | lib/store.ts:103 | a text lacking two adjacent characters of a pattern does not contain the pattern |
| Text.BeforeFirst | lib/store.ts:150 | `split("@")[0]` is a prefix without `@`, ending at the first `@` or at the end |
| Text.DigitsRoundTrip | lib/gameData.ts:223 | the decimal text of a whole number parses back to that number |
| Text.DecimalString | lib/gameData.ts:223 | `toString` of an integer is non-empty, starts with `-` exactly for negatives, has no leading zero except for 0 itself, and its digits parse back to its magnitude |
| Persistence.Snapshot | lib/store.ts:121-135 | the saved record keeps every achievement's id and unlocked flag in order, drops the conditions and is stamped with the save time |
| Persistence.Username | lib/store.ts:150 | the leaderboard name is non-empty and has no `@`; it is the e-mail's prefix before the first `@` unless that is empty or there is no e-mail, when it is "Anonymous" |
| Persistence.LeaderboardEntry | lib/store.ts:148-154 | the row's name is the e-mail's user name (non-empty), and it carries the lifetime total and the prestige level |
| Persistence.FindAchievement | lib/store.ts:178 | `find` returns the first index with the id, or none when no entry has it |
| Persistence.CatalogCondition | lib/store.ts:178-182 | a stored achievement gets the catalog's condition for its id, and the never-true condition exactly when its id is unknown |
| Persistence.MergeAchievements | lib/store.ts:177-184 | the merged list keeps the stored length, order, ids, names and unlocked flags |
| Persistence.Strip | lib/store.ts:122 | a stored achievement, merged back on load, is the original with the catalog's condition for its id |
| Persistence.MergeThenStrip | lib/store.ts:177-184 | stripping the merged achievements gives back the stored list exactly |
| Persistence.Merge | lib/store.ts:186-197 | every present non-zero field is kept; an absent or zero one falls back to its legacy name (total, level, multiplier) when that is present and non-zero, else to 0 (cookies, total, rate, level), to 1 (click power, multiplier) or to the load time (`lastActive`); absent building and upgrade lists become the catalogs; stored achievements are merged with the catalog, an absent list becomes empty |
| Persistence.SaveLoadRoundTrip | lib/store.ts:121-197 | saving and then merging restores the state, with the save time as `lastActive`, when click power, multiplier and save time are non-zero and the conditions are the catalog's |
| Persistence.ZeroClickPowerComesBackAsOne | lib/store.ts:190 | a saved click power of 0 is restored as 1 |
| Store.InitialState | lib/store.ts:26-37 | the catalogs with every count 0, nothing purchased or unlocked, zero cookies and rate, click power 1, level 0, multiplier 1, stamped `now` |
| Store.AfterCheckAchievements | lib/store.ts:219-228 | only the achievements change; each is unlocked afterwards exactly when it was already unlocked or its condition holds in the state before the call; ids, names, conditions, length and order are kept |
| Store.CheckAchievementsIdempotent | lib/store.ts:219-228 | a second check right after the first changes nothing |
| Store.UnlocksPersist | lib/store.ts:219-228 | an achievement that a check unlocks is also unlocked by a check on any state that is further along |
| Store.BoostedIsProduct | lib/store.ts:99-105 | the in-order multiplication over the matching purchased upgrades equals the start value times the product of their multipliers |
| Store.FactorWithoutMatch | lib/store.ts:99-111 | when no purchased upgrade's lowered name contains the key, the key's factor is 1 |
| Store.CpsOf | lib/store.ts:93-114 | with every count 0 the rate is 0, whatever was purchased |
| Store.CpsNonNegative | lib/store.ts:93-114 | non-negative production, upgrade multipliers and prestige multiplier give a non-negative rate |
| CatalogNames.CatalogNameMatching | lib/store.ts:103 | with the shipped catalogs, an upgrade name contains a building name only for "Grandma's Helpers" and "Grandma" |
| CatalogNames.CatalogHasNoGlobalUpgrade | lib/store.ts:110 | no shipped upgrade name contains "all" |
| CatalogNames.CatalogGlobalFactorIsOne | lib/store.ts:109-111 | with the shipped upgrade names, the "all" loop leaves the total unchanged whatever has been bought |
| CatalogNames.CatalogBuildingFactorIsOne | lib/store.ts:99-105 | with the shipped upgrade names, every building except "Grandma" produces at its base rate whatever has been bought |
| Store.ApplyBoosts | lib/store.ts:99-111 | the inner loop multiplies its start value by each purchased matching upgrade's multiplier in list order |
| Store.SumProduction | lib/store.ts:97-107 | the building loop computes the sum over buildings of base production times count times the product of the multipliers of the purchased upgrades whose lowered name contains the building's lowered name |
| Store.ComputeCps | lib/store.ts:93-114 | the stored rate is that sum, times the product of the multipliers of the purchased upgrades whose lowered name contains "all", times the prestige multiplier |
| Store.WithCps | lib/store.ts:93-114 | recomputing the rate changes only `cps` |
| Store.AfterClick | lib/store.ts:42-50 | a click adds `clickPower * prestigeMultiplier` to the balance and the same to the lifetime total, then checks achievements; nothing else changes |
| Store.AfterTick | lib/store.ts:84-91 | a tick adds `cps * prestigeMultiplier / 10` to the balance and the lifetime total, and changes nothing else |
| Store.TickAppliesMultiplierTwice | lib/store.ts:86 | with an up-to-date rate, ten ticks pay the boosted production times the prestige multiplier squared |
| Store.FindBuilding | lib/store.ts:54 | `find` returns the first building with the id, or none when no building has it |
| Store.FindUpgrade | lib/store.ts:71 | `find` returns the first upgrade with the id, or none when no upgrade has it |
| Store.CanBuyBuilding | lib/store.ts:54-57 | the purchase goes ahead exactly when some building carries the id and the balance covers the price of the first one that does |
| Store.AfterBuyBuilding | lib/store.ts:52-67 | an absent id or a balance below the price leaves the state unchanged; otherwise the balance drops by exactly the price, every building with the id gains one unit, the rate is recomputed and achievements are checked; a non-negative balance stays non-negative |
| Store.CanBuyUpgrade | lib/store.ts:71-72 | the purchase goes ahead exactly when some upgrade carries the id and the first one that does is unpurchased and costs no more than the balance |
| Store.AfterBuyUpgrade | lib/store.ts:69-82 | an absent id, an upgrade already purchased or a balance below its cost leaves the state unchanged; otherwise the balance drops by the cost, the upgrades with the id become purchased, the rate is recomputed and achievements are checked; purchases are never undone |
| Store.PrestigeAfterLegacyLoad | lib/store.ts:186-241 | a record with only the legacy multiplier 3 loads at level 0 with multiplier 3, and prestige then lowers the multiplier to 1.5 |
| Store.AfterPrestige | lib/store.ts:230-241 | the level rises by one, the multiplier becomes `1 + newLevel * 0.5` and exceeds the old one when the old multiplier is the old level's, and every other field is the initial state's |
| Store.OfflineProgress | lib/store.ts:211-217 | the award is rate times multiplier times elapsed seconds, capped at 86400 seconds and not clamped at zero; with a non-negative rate it is at most a day's worth and not positive for a future timestamp |
| Store.OfflineExamples | lib/store.ts:211-217 | an hour at 10 per second with multiplier 2 awards 72000; a longer absence awards the capped day |
| Store.AwardOffline | lib/store.ts:199-205 | a positive award is added to the balance and the lifetime total; otherwise nothing changes |
| Store.AfterLoad | lib/store.ts:175 | with no stored record a load changes nothing |
| Store.LoadAward | lib/store.ts:199-205 | a load adds to the merged balance and lifetime total exactly the offline award for the merged rate, multiplier and `lastActive` when it is positive, and nothing otherwise; that is at most a day's worth when the rate is non-negative |
| Store.LoadOutcome | lib/store.ts:186-208 | otherwise a load installs the merged record, recomputes the rate from the merged buildings, upgrades and multiplier, and checks achievements |
| Store.InitialHealthy | lib/store.ts:26-37 | the initial state has a balance between 0 and the lifetime total and no negative rate, price or multiplier |
| Store.GainsKeepHealthy | lib/store.ts:42-91 | clicks and ticks keep that invariant and never lower the balance or the lifetime total |
| Store.BuildingPurchaseKeepsHealthy | lib/store.ts:52-67 | buying a building keeps that invariant and leaves the lifetime total unchanged |
| Store.UpgradePurchaseKeepsHealthy | lib/store.ts:69-82 | buying an upgrade keeps that invariant and leaves the lifetime total unchanged |
| Store.PrestigeHealthy | lib/store.ts:230-243 | prestige and reset land in a state that satisfies that invariant |
| Store.GameStore.constructor | lib/store.ts:39-40 | a new store holds the initial state |
| Store.GameStore.ClickCookie | lib/store.ts:42-50 | the fields become the click transition of their old values |
| Store.GameStore.Tick | lib/store.ts:84-91 | the fields become the tick transition of their old values |
| Store.GameStore.CalculateCps | lib/store.ts:93-114 | only `cps` changes, to the rate the loops of `ComputeCps` compute from the current buildings, upgrades and multiplier |
| Store.GameStore.CheckAchievements | lib/store.ts:219-228 | the fields become the achievement check of their old values |
| Store.GameStore.BuyBuilding | lib/store.ts:52-67 | the fields become the building purchase of their old values |
| Store.GameStore.BuyUpgrade | lib/store.ts:69-82 | the fields become the upgrade purchase of their old values |
| Store.GameStore.CalculateOfflineProgress | lib/store.ts:211-217 | returns the offline award for the current rate and multiplier |
| Store.GameStore.LoadGame | lib/store.ts:157-209 | the fields become the load transition for the record storage returned |
| Store.GameStore.SaveSnapshot | lib/store.ts:121-135 | returns the record a save writes |
| Store.GameStore.Prestige | lib/store.ts:230-241 | the fields become the prestige transition of their old values |
| Store.GameStore.Reset | lib/store.ts:243 | the fields become the initial state |
| UpgradeShop.AvailableUpgrades | components/UpgradeShop.tsx:9-11 | an upgrade is listed exactly when it is unpurchased and its threshold is absent, zero or reached by the lifetime total |
| UpgradeShop.AvailableKeepsOrder | components/UpgradeShop.tsx:9-11 | the listing is a sublist of the upgrades in the same order |
| UpgradeShop.AvailableGrowsWithTotal | components/UpgradeShop.tsx:9-11 | a larger lifetime total never removes an upgrade from the listing |
| UpgradeShop.ShopVisible | components/UpgradeShop.tsx:13-15 | the panel renders exactly when some upgrade qualifies |
| UpgradeShop.EnabledButtonBuys | components/UpgradeShop.tsx:23 | with distinct ids, a listed upgrade's button is enabled exactly when the store's purchase guard passes, and buying then costs exactly the listed price |
| UpgradeShop.BoughtUpgradeLeavesShop | components/UpgradeShop.tsx:9-11 | after a purchase no upgrade with that id is listed |
| UpgradeShop.HiddenAtStart | components/UpgradeShop.tsx:9-15 | at the start of a run every catalog upgrade is locked, so the panel is hidden |
| UpgradeShop.PurchaseIgnoresUnlock | lib/store.ts:72 | with enough cookies at the start of a run, "Golden Switch" can be bought although it is not listed |
| PrestigeModal.NextLevel | components/PrestigeModal.tsx:56 | the previewed level is above the current one |
| PrestigeModal.NextMultiplier | components/PrestigeModal.tsx:12 | the previewed multiplier is at least 1.5 and above the current level's |
| PrestigeModal.PreviewMatchesPrestige | components/PrestigeModal.tsx:56-61 | the previewed level and multiplier are exactly the ones prestige installs |
| PrestigeModal.HiddenAfterPrestige | components/PrestigeModal.tsx:11-21 | right after a prestige the lifetime total is 0, so the panel is hidden |
| PrestigeModal.StaysAvailable | components/PrestigeModal.tsx:11 | once the threshold is reached, clicks, ticks and purchases keep it reached |
| PrestigeModal.PrestigeUngatedInStore | components/PrestigeModal.tsx:19-21 | the store's prestige raises the level even below the threshold; only the panel's gate prevents that |

## Left out

- Storage and network I/O are not modelled: the game-state and leaderboard writes, the user lookup, and the local-storage read and write. A load takes what storage returned as an `Option<SaveData>` parameter. `GameStore.SaveSnapshot` returns the record a save writes; `Persistence.LeaderboardEntry` gives the leaderboard row a signed-in save mirrors.
- `lib/supabase.ts`, `lib/saveLeaderboard.ts` and the leaderboard page are not part of this model. They only do I/O.
- Timers and framework wiring are not modelled: the 100 ms tick timer, the periodic save, and the game page's own offline computation for its dialog.
- `Date.now()` becomes the parameter `now`. Where the source reads the clock several times in one operation, the model reads it once.
- Store.AfterPrestige: the save that prestige awaits afterwards is I/O and is not part of the transition.
- Stored building counts and prestige levels are taken to be natural numbers. The source installs `data.buildings` and `data.prestigeLevel` from the stored record as they are, so it would also accept a fractional or negative value there.
- Numbers are exact reals. IEEE-754 rounding in `Math.pow` and `Math.floor`, and `NaN` as a falsy value, are not modelled.
- GameData.FormatNumber: the one-decimal `toFixed(1)` text of a scaled value is not modelled. The result gives the scaled value and the suffix instead.
- Persistence.MergeAchievements: every stored achievement entry is taken to carry its id, name and unlocked flag. The source's `{...base, ...a}` would fill a missing name or flag from the catalog entry, and that fill-in is not modelled.
- Text.Lower: only ASCII letters are lower-cased. Other Unicode case mappings are not modelled. The catalog names are ASCII.
- The `description` and `icon` fields are not modelled. Neither is any rendering. These fields are for display only.
- `TICK_RATE` and `SAVE_INTERVAL` are not modelled. They only set timer cadence.
- UpgradeShop.CanAfford and PrestigeModal.CanPrestige are the comparisons themselves. Their properties are stated by EnabledButtonBuys, StaysAvailable and HiddenAfterPrestige.
- The dialog's open/closed state in the prestige panel is interface state and is not modelled.
