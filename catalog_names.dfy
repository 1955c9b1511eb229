// What the name-matching rule of `calculateCPS` (lib/store.ts:103, 110) yields on the shipped
// catalogs of lib/gameData.ts. Each upgrade name gets a lemma listing the letters it is spelt with;
// a building name that uses a letter outside that set cannot occur inside it.
module CatalogNames {
  import opened Types
  import opened Text
  import opened GameData
  import opened Store

  /** "Reinforced Index Finger" is spelt, once lowered, with these letters only. */
  lemma UpgradeLetters0()
    ensures forall m :: 0 <= m < |Lower(InitialUpgrades()[0].name)| ==>
      Lower(InitialUpgrades()[0].name)[m] in {' ', 'c', 'd', 'e', 'f', 'g', 'i', 'n', 'o', 'r', 'x'}
  {
  }

  /** Every building name has a letter that "Reinforced Index Finger" lacks. */
  lemma UpgradeNameMisses0(j: nat)
    requires j < |InitialBuildings()|
    ensures !Contains(Lower(InitialUpgrades()[0].name), Lower(InitialBuildings()[j].name))
  {
    UpgradeLetters0();
    var k := [1, 2, 1, 0, 1, 0, 0, 0, 0, 0][j];
    OutsideAlphabetExcludes(Lower(InitialUpgrades()[0].name), Lower(InitialBuildings()[j].name), {' ', 'c', 'd', 'e', 'f', 'g', 'i', 'n', 'o', 'r', 'x'}, k);
  }

  /** "Reinforced Index Finger" has no "al" in it, so it cannot contain "all". */
  lemma UpgradeNotGlobal0()
    ensures !Contains(Lower(InitialUpgrades()[0].name), "all")
  {
    MissingPairExcludes(Lower(InitialUpgrades()[0].name), "all", 0);
  }

  /** "Grandma's Helpers" is spelt, once lowered, with these letters only. */
  lemma UpgradeLetters1()
    ensures forall m :: 0 <= m < |Lower(InitialUpgrades()[1].name)| ==>
      Lower(InitialUpgrades()[1].name)[m] in {' ', '\'', 'a', 'd', 'e', 'g', 'h', 'l', 'm', 'n', 'p', 'r', 's'}
  {
  }

  /** Every building name other than "Grandma" has a letter that "Grandma's Helpers" lacks. */
  lemma UpgradeNameMisses1(j: nat)
    requires j < |InitialBuildings()| && j != 1
    ensures !Contains(Lower(InitialUpgrades()[1].name), Lower(InitialBuildings()[j].name))
  {
    UpgradeLetters1();
    var k := [0, 0, 0, 1, 0, 0, 0, 0, 2, 2][j];
    OutsideAlphabetExcludes(Lower(InitialUpgrades()[1].name), Lower(InitialBuildings()[j].name), {' ', '\'', 'a', 'd', 'e', 'g', 'h', 'l', 'm', 'n', 'p', 'r', 's'}, k);
  }

  /** "Grandma's Helpers" has no "al" in it, so it cannot contain "all". */
  lemma UpgradeNotGlobal1()
    ensures !Contains(Lower(InitialUpgrades()[1].name), "all")
  {
    MissingPairExcludes(Lower(InitialUpgrades()[1].name), "all", 0);
  }

  /** "Cheap Fertilizer" is spelt, once lowered, with these letters only. */
  lemma UpgradeLetters2()
    ensures forall m :: 0 <= m < |Lower(InitialUpgrades()[2].name)| ==>
      Lower(InitialUpgrades()[2].name)[m] in {' ', 'a', 'c', 'e', 'f', 'h', 'i', 'l', 'p', 'r', 't', 'z'}
  {
  }

  /** Every building name has a letter that "Cheap Fertilizer" lacks. */
  lemma UpgradeNameMisses2(j: nat)
    requires j < |InitialBuildings()|
    ensures !Contains(Lower(InitialUpgrades()[2].name), Lower(InitialBuildings()[j].name))
  {
    UpgradeLetters2();
    var k := [1, 0, 3, 0, 4, 0, 2, 0, 0, 5][j];
    OutsideAlphabetExcludes(Lower(InitialUpgrades()[2].name), Lower(InitialBuildings()[j].name), {' ', 'a', 'c', 'e', 'f', 'h', 'i', 'l', 'p', 'r', 't', 'z'}, k);
  }

  /** "Cheap Fertilizer" has no "al" in it, so it cannot contain "all". */
  lemma UpgradeNotGlobal2()
    ensures !Contains(Lower(InitialUpgrades()[2].name), "all")
  {
    MissingPairExcludes(Lower(InitialUpgrades()[2].name), "all", 0);
  }

  /** "Sugar Gas" is spelt, once lowered, with these letters only. */
  lemma UpgradeLetters3()
    ensures forall m :: 0 <= m < |Lower(InitialUpgrades()[3].name)| ==>
      Lower(InitialUpgrades()[3].name)[m] in {' ', 'a', 'g', 'r', 's', 'u'}
  {
  }

  /** Every building name has a letter that "Sugar Gas" lacks. */
  lemma UpgradeNameMisses3(j: nat)
    requires j < |InitialBuildings()|
    ensures !Contains(Lower(InitialUpgrades()[3].name), Lower(InitialBuildings()[j].name))
  {
    UpgradeLetters3();
    var k := [0, 3, 0, 0, 0, 0, 0, 0, 1, 1][j];
    OutsideAlphabetExcludes(Lower(InitialUpgrades()[3].name), Lower(InitialBuildings()[j].name), {' ', 'a', 'g', 'r', 's', 'u'}, k);
  }

  /** "Sugar Gas" has no "al" in it, so it cannot contain "all". */
  lemma UpgradeNotGlobal3()
    ensures !Contains(Lower(InitialUpgrades()[3].name), "all")
  {
    MissingPairExcludes(Lower(InitialUpgrades()[3].name), "all", 0);
  }

  /** "Megadrill" is spelt, once lowered, with these letters only. */
  lemma UpgradeLetters4()
    ensures forall m :: 0 <= m < |Lower(InitialUpgrades()[4].name)| ==>
      Lower(InitialUpgrades()[4].name)[m] in {'a', 'd', 'e', 'g', 'i', 'l', 'm', 'r'}
  {
  }

  /** Every building name has a letter that "Megadrill" lacks. */
  lemma UpgradeNameMisses4(j: nat)
    requires j < |InitialBuildings()|
    ensures !Contains(Lower(InitialUpgrades()[4].name), Lower(InitialBuildings()[j].name))
  {
    UpgradeLetters4();
    var k := [0, 3, 0, 2, 0, 0, 0, 0, 0, 2][j];
    OutsideAlphabetExcludes(Lower(InitialUpgrades()[4].name), Lower(InitialBuildings()[j].name), {'a', 'd', 'e', 'g', 'i', 'l', 'm', 'r'}, k);
  }

  /** "Megadrill" has no "al" in it, so it cannot contain "all". */
  lemma UpgradeNotGlobal4()
    ensures !Contains(Lower(InitialUpgrades()[4].name), "all")
  {
    MissingPairExcludes(Lower(InitialUpgrades()[4].name), "all", 0);
  }

  /** "Golden Switch" is spelt, once lowered, with these letters only. */
  lemma UpgradeLetters5()
    ensures forall m :: 0 <= m < |Lower(InitialUpgrades()[5].name)| ==>
      Lower(InitialUpgrades()[5].name)[m] in {' ', 'c', 'd', 'e', 'g', 'h', 'i', 'l', 'n', 'o', 's', 't', 'w'}
  {
  }

  /** Every building name has a letter that "Golden Switch" lacks. */
  lemma UpgradeNameMisses5(j: nat)
    requires j < |InitialBuildings()|
    ensures !Contains(Lower(InitialUpgrades()[5].name), Lower(InitialBuildings()[j].name))
  {
    UpgradeLetters5();
    var k := [1, 1, 0, 0, 0, 0, 2, 2, 3, 0][j];
    OutsideAlphabetExcludes(Lower(InitialUpgrades()[5].name), Lower(InitialBuildings()[j].name), {' ', 'c', 'd', 'e', 'g', 'h', 'i', 'l', 'n', 'o', 's', 't', 'w'}, k);
  }

  /** "Golden Switch" has no "al" in it, so it cannot contain "all". */
  lemma UpgradeNotGlobal5()
    ensures !Contains(Lower(InitialUpgrades()[5].name), "all")
  {
    MissingPairExcludes(Lower(InitialUpgrades()[5].name), "all", 0);
  }

  /**
   * With the shipped catalogs, the only upgrade whose name matches a building's is
   * "Grandma's Helpers", matching "Grandma".
   */
  lemma CatalogNameMatching(i: nat, j: nat)
    requires i < |InitialUpgrades()| && j < |InitialBuildings()|
    ensures Contains(Lower(InitialUpgrades()[i].name), Lower(InitialBuildings()[j].name))
        <==> InitialUpgrades()[i].id == "grandma_helper" && InitialBuildings()[j].id == "grandma"
  {
    if i == 1 && j == 1 {
      assert Lower(InitialUpgrades()[1].name)[..7] == Lower(InitialBuildings()[1].name);
    } else if i == 0 {
      UpgradeNameMisses0(j);
    } else if i == 1 {
      UpgradeNameMisses1(j);
    } else if i == 2 {
      UpgradeNameMisses2(j);
    } else if i == 3 {
      UpgradeNameMisses3(j);
    } else if i == 4 {
      UpgradeNameMisses4(j);
    } else {
      UpgradeNameMisses5(j);
    }
  }

  /** No shipped upgrade name contains "all", so the global boost never applies with the catalog. */
  lemma CatalogHasNoGlobalUpgrade(i: nat)
    requires i < |InitialUpgrades()|
    ensures !Contains(Lower(InitialUpgrades()[i].name), "all")
  {
    if i == 0 {
      UpgradeNotGlobal0();
    } else if i == 1 {
      UpgradeNotGlobal1();
    } else if i == 2 {
      UpgradeNotGlobal2();
    } else if i == 3 {
      UpgradeNotGlobal3();
    } else if i == 4 {
      UpgradeNotGlobal4();
    } else {
      UpgradeNotGlobal5();
    }
  }

  /** Upgrades carrying the catalog's names, in its order, whatever has been bought. */
  predicate CatalogNamed(ups: seq<Upgrade>) {
    |ups| == |InitialUpgrades()| && forall i :: 0 <= i < |ups| ==> ups[i].name == InitialUpgrades()[i].name
  }

  /** With the shipped upgrades the "all" loop of `calculateCPS` never changes the total. */
  lemma CatalogGlobalFactorIsOne(ups: seq<Upgrade>)
    requires CatalogNamed(ups)
    ensures Factor(ups, "all") == 1.0
  {
    forall u | u in ups
      ensures !Boosts(u, "all")
    {
      var i :| 0 <= i < |ups| && ups[i] == u;
      CatalogHasNoGlobalUpgrade(i);
    }
    FactorWithoutMatch(ups, "all");
  }

  /** With the shipped upgrades every building except "Grandma" produces at its base rate. */
  lemma CatalogBuildingFactorIsOne(ups: seq<Upgrade>, j: nat)
    requires CatalogNamed(ups) && j < |InitialBuildings()| && j != 1
    ensures Factor(ups, Lower(InitialBuildings()[j].name)) == 1.0
  {
    var key := Lower(InitialBuildings()[j].name);
    forall u | u in ups
      ensures !Boosts(u, key)
    {
      var i :| 0 <= i < |ups| && ups[i] == u;
      CatalogNameMatching(i, j);
    }
    FactorWithoutMatch(ups, key);
  }
}
