// The compiled-in catalogs, the prestige constants and the pure formulas of lib/gameData.ts,
// with the achievement conditions as `Condition` values and `Holds` as their interpreter.
module GameData {
  import opened Types
  import opened Text

  /** The building catalog; every entry starts with no units owned. */
  function InitialBuildings(): (r: seq<Building>)
    ensures |r| == 10
    ensures forall i :: 0 <= i < |r| ==>
      && r[i].count == 0
      && r[i].baseCost >= 15.0
      && r[i].baseCost == r[i].baseCost.Floor as real
      && r[i].baseProduction > 0.0
    ensures forall i, j :: 0 <= i < j < |r| ==> r[i].id != r[j].id
  {
    [ Building("cursor", "Cursor", 15.0, 0.1, 0),
      Building("grandma", "Grandma", 100.0, 1.0, 0),
      Building("farm", "Farm", 1100.0, 8.0, 0),
      Building("mine", "Mine", 12000.0, 47.0, 0),
      Building("factory", "Factory", 130000.0, 260.0, 0),
      Building("bank", "Bank", 1400000.0, 1400.0, 0),
      Building("temple", "Temple", 20000000.0, 7800.0, 0),
      Building("wizard", "Wizard Tower", 330000000.0, 44000.0, 0),
      Building("shipment", "Shipment", 5100000000.0, 260000.0, 0),
      Building("alchemy", "Alchemy Lab", 75000000000.0, 1600000.0, 0) ]
  }

  /** The upgrade catalog; every entry is unpurchased and doubles what it applies to. */
  function InitialUpgrades(): (r: seq<Upgrade>)
    ensures |r| == 6
    ensures forall i :: 0 <= i < |r| ==>
      && !r[i].purchased
      && r[i].multiplier == 2.0
      && r[i].cost > 0.0
      && r[i].unlockCondition.Some? && r[i].unlockCondition.value > 0.0
    ensures forall i, j :: 0 <= i < j < |r| ==> r[i].id != r[j].id
  {
    [ Upgrade("reinforced_cursor", "Reinforced Index Finger", 100.0, 2.0, false, Some(1.0)),
      Upgrade("grandma_helper", "Grandma's Helpers", 1000.0, 2.0, false, Some(1.0)),
      Upgrade("fertilizer", "Cheap Fertilizer", 11000.0, 2.0, false, Some(10.0)),
      Upgrade("sugar_gas", "Sugar Gas", 120000.0, 2.0, false, Some(50.0)),
      Upgrade("megadrill", "Megadrill", 1200000.0, 2.0, false, Some(100.0)),
      Upgrade("golden_switch", "Golden Switch", 999999999.0, 2.0, false, Some(1000000.0)) ]
  }

  /** The achievement catalog; every entry starts locked, and none has the `Never` condition. */
  function InitialAchievements(): (r: seq<Achievement>)
    ensures |r| == 6
    ensures forall i :: 0 <= i < |r| ==> !r[i].unlocked && !r[i].condition.Never?
    ensures forall i, j :: 0 <= i < j < |r| ==> r[i].id != r[j].id
  {
    [ Achievement("first_cookie", "Wake and Bake", TotalCookiesAtLeast(1.0), false),
      Achievement("hundred_cookies", "Making Dough", TotalCookiesAtLeast(100.0), false),
      Achievement("thousand_cookies", "So Much Dough", TotalCookiesAtLeast(1000.0), false),
      Achievement("first_building", "Click Delegator", AnyBuildingOwned, false),
      Achievement("ten_buildings", "Entrepreneur", BuildingCountSumAtLeast(10), false),
      Achievement("first_prestige", "Rebirth", PrestigeLevelAtLeast(1), false) ]
  }

  /** Lifetime total at which the prestige button appears. */
  const PrestigeThreshold: real := 1000000000000.0

  /** Increase of the prestige multiplier per prestige level. */
  const PrestigeMultiplierBase: real := 0.5

  /** The multiplier belonging to a prestige level: `1 + level * PRESTIGE_MULTIPLIER_BASE`. */
  function MultiplierAt(level: nat): (r: real)
    ensures r >= 1.0
    ensures level > 0 ==> r > MultiplierAt(level - 1)
  {
    1.0 + level as real * PrestigeMultiplierBase
  }

  lemma MultiplierIncreasing(m: nat, n: nat)
    requires m < n
    ensures MultiplierAt(m) < MultiplierAt(n)
  {
  }

  /** `Math.pow(1.15, n)` for a whole exponent, in exact arithmetic: a price factor never below one. */
  function Pow115(n: nat): (r: real)
    ensures r >= 1.0
  {
    if n == 0 then 1.0 else 1.15 * Pow115(n - 1)
  }

  /** The factor grows at least linearly: `1.15^n >= 1 + 0.15 n` (Bernoulli's inequality). */
  lemma {:induction false} Pow115AtLeastLinear(n: nat)
    ensures Pow115(n) >= 1.0 + 0.15 * n as real
  {
    if n > 0 {
      Pow115AtLeastLinear(n - 1);
    }
  }

  lemma {:induction false} Pow115Monotone(m: nat, n: nat)
    requires m <= n
    ensures Pow115(m) <= Pow115(n)
    decreases n - m
  {
    if m < n {
      Pow115Monotone(m, n - 1);
    }
  }

  /** The price of the next unit: `floor(baseCost * 1.15^count)`. */
  function BuildingCost(b: Building): (r: int)
    ensures r as real <= b.baseCost * Pow115(b.count) < r as real + 1.0
    ensures b.baseCost >= 0.0 ==> r >= 0
    ensures b.count == 0 && b.baseCost == b.baseCost.Floor as real ==> r as real == b.baseCost
  {
    (b.baseCost * Pow115(b.count)).Floor
  }

  /** With a non-negative base cost, owning more units never makes the next one cheaper. */
  lemma {:induction false} CostMonotone(b: Building, m: nat, n: nat)
    requires b.baseCost >= 0.0 && m <= n
    ensures BuildingCost(b.(count := m)) <= BuildingCost(b.(count := n))
    decreases n - m
  {
    if m < n {
      CostMonotone(b, m, n - 1);
      CostStep(b.(count := n - 1));
      assert b.(count := n - 1).(count := n - 1 + 1) == b.(count := n);
    }
  }

  /** One more unit never lowers the price of the next when the base cost is non-negative. */
  lemma CostStep(b: Building)
    requires b.baseCost >= 0.0
    ensures BuildingCost(b.(count := b.count + 1)) >= BuildingCost(b)
  {
    var x := b.baseCost * Pow115(b.count);
    var y := b.baseCost * Pow115(b.count + 1);
    assert y == x + 0.15 * x;
    assert x >= 0.0;
  }

  /** From a base cost of 20/3 up (every catalog entry costs 15 or more), each unit costs strictly more. */
  lemma CostStrictlyIncreasing(b: Building)
    requires b.baseCost * 3.0 >= 20.0
    ensures BuildingCost(b.(count := b.count + 1)) > BuildingCost(b)
  {
    var p := Pow115(b.count);
    var x := b.baseCost * p;
    var y := b.baseCost * Pow115(b.count + 1);
    assert y == x + 0.15 * x;
    assert x >= b.baseCost;
    assert y >= x + 1.0;
  }

  /** Every catalog building costs exactly its base cost first, and more with each unit bought. */
  lemma CatalogCosts(i: nat, n: nat)
    requires i < |InitialBuildings()|
    ensures BuildingCost(InitialBuildings()[i]) as real == InitialBuildings()[i].baseCost
    ensures BuildingCost(InitialBuildings()[i].(count := n + 1)) > BuildingCost(InitialBuildings()[i].(count := n))
  {
    CostStrictlyIncreasing(InitialBuildings()[i].(count := n));
  }

  /** What `formatNumber` shows: a whole number, or a value scaled to a unit with its suffix letter. */
  datatype Display = Whole(text: string) | Scaled(value: real, suffix: char)

  function UnitScale(suffix: char): real {
    match suffix
    case 'K' => 1000.0
    case 'M' => 1000000.0
    case 'B' => 1000000000.0
    case _ => 1000000000000.0
  }

  /** The branch `formatNumber` takes; the one-decimal rendering of a scaled value is not modelled. */
  function FormatNumber(num: real): (r: Display)
    ensures num < 1000.0 <==> r.Whole?
    ensures r.Whole? ==> r.text == DecimalString(num.Floor)
    ensures 1000.0 <= num < 1000000.0 ==> r.Scaled? && r.suffix == 'K'
    ensures 1000000.0 <= num < 1000000000.0 ==> r.Scaled? && r.suffix == 'M'
    ensures 1000000000.0 <= num < 1000000000000.0 ==> r.Scaled? && r.suffix == 'B'
    ensures 1000000000000.0 <= num ==> r.Scaled? && r.suffix == 'T'
    ensures r.Scaled? ==> r.value * UnitScale(r.suffix) == num && 1.0 <= r.value
    ensures r.Scaled? && r.suffix != 'T' ==> r.value < 1000.0
  {
    if num < 1000.0 then Whole(DecimalString(num.Floor))
    else if num < 1000000.0 then Scaled(num / 1000.0, 'K')
    else if num < 1000000000.0 then Scaled(num / 1000000.0, 'M')
    else if num < 1000000000000.0 then Scaled(num / 1000000000.0, 'B')
    else Scaled(num / 1000000000000.0, 'T')
  }

  /** Below a thousand, a non-negative number prints as its integer part alone: one to three digits. */
  lemma SmallNumbersPlain(num: real)
    requires 0.0 <= num < 1000.0
    ensures FormatNumber(num).Whole? && 1 <= |FormatNumber(num).text| <= 3
    ensures ParseDigits(FormatNumber(num).text) == num.Floor
  {
    DigitsRoundTrip(num.Floor);
  }

  /** Sum of the building counts (`buildings.reduce((sum, b) => sum + b.count, 0)`). */
  function SumCounts(bs: seq<Building>): (r: nat)
    ensures forall i :: 0 <= i < |bs| ==> bs[i].count <= r
    ensures r == 0 <==> forall i :: 0 <= i < |bs| ==> bs[i].count == 0
  {
    if bs == [] then 0 else SumCounts(bs[..|bs| - 1]) + bs[|bs| - 1].count
  }

  /**
   * The interpreter of catalog conditions over a state. Owning any building is the same as a
   * building total of at least one; `Never` holds in no state.
   */
  predicate Holds(c: Condition, s: GameState)
    ensures c.AnyBuildingOwned? ==> (Holds(c, s) <==> SumCounts(s.buildings) >= 1)
    ensures c.Never? ==> !Holds(c, s)
  {
    match c
    case TotalCookiesAtLeast(n) => s.totalCookies >= n
    case AnyBuildingOwned => exists i :: 0 <= i < |s.buildings| && s.buildings[i].count > 0
    case BuildingCountSumAtLeast(n) => SumCounts(s.buildings) >= n
    case PrestigeLevelAtLeast(n) => s.prestigeLevel >= n
    case Never => false
  }

  /** `t` is at least as far along as `s`: lifetime total, every building count and the prestige level. */
  predicate Progressed(s: GameState, t: GameState) {
    && s.totalCookies <= t.totalCookies
    && |s.buildings| == |t.buildings|
    && (forall i :: 0 <= i < |s.buildings| ==> s.buildings[i].count <= t.buildings[i].count)
    && s.prestigeLevel <= t.prestigeLevel
  }

  lemma {:induction false} SumCountsMonotone(bs: seq<Building>, cs: seq<Building>)
    requires |bs| == |cs| && forall i :: 0 <= i < |bs| ==> bs[i].count <= cs[i].count
    ensures SumCounts(bs) <= SumCounts(cs)
  {
    if bs != [] {
      SumCountsMonotone(bs[..|bs| - 1], cs[..|cs| - 1]);
    }
  }

  /** Every condition, once true, stays true as the totals, counts and prestige level grow. */
  lemma ConditionMonotone(c: Condition, s: GameState, t: GameState)
    requires Progressed(s, t) && Holds(c, s)
    ensures Holds(c, t)
  {
    match c
    case AnyBuildingOwned =>
      var i :| 0 <= i < |s.buildings| && s.buildings[i].count > 0;
      assert t.buildings[i].count > 0;
    case BuildingCountSumAtLeast(n) =>
      SumCountsMonotone(s.buildings, t.buildings);
    case _ =>
  }

  /** Conditions read only the totals, the buildings and the prestige level. */
  lemma HoldsIgnoresRest(c: Condition, s: GameState, t: GameState)
    requires s.totalCookies == t.totalCookies && s.buildings == t.buildings && s.prestigeLevel == t.prestigeLevel
    ensures Holds(c, s) == Holds(c, t)
  {
  }
}
