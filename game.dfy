/**
  The game engine: one pool, one player and the pity counter, with the
  pull request that ties them together.
 */
module Game {
  import opened Catalog
  import opened WeightedPool
  import opened PlayerLedger
  import opened Pity

  /** The items the game registers, in registration order. */
  const CatalogueItems: seq<GachaItem> := [
    GachaItem("Common Sword", 1), GachaItem("Rusty Dagger", 1), GachaItem("Wooden Ladle", 1),
    GachaItem("Tree Branch", 1), GachaItem("Small Rock", 1), GachaItem("Wooden Club", 1),
    GachaItem("Common Spear", 1),
    GachaItem("Torch", 2), GachaItem("Kitchen Knife", 2), GachaItem("Skeleton Arm", 2),
    GachaItem("Reinforced Sword", 2), GachaItem("Reinforced Spear", 2),
    GachaItem("Rare Spear", 3), GachaItem("Fire Sword", 3), GachaItem("Ice Sword", 3),
    GachaItem("Rare Claymore", 3),
    GachaItem("Epic Staff", 4), GachaItem("Fire Claymore", 4), GachaItem("Ice Claymore", 4),
    GachaItem("Legendary Blade", 5), GachaItem("Sword of Sparda", 5),
    GachaItem("Master Sword", 6)
  ]

  /** The weight each catalogue item is registered with, position by position. */
  const CatalogueRates: seq<real> := [
    60.0, 60.0, 60.0, 60.0, 60.0, 60.0, 60.0,
    45.0, 45.0, 45.0, 45.0, 45.0,
    30.0, 30.0, 30.0, 30.0,
    9.0, 9.0, 9.0,
    1.0, 1.0,
    0.05
  ]

  /** The catalogue pairs 22 items with 22 weights, all of them positive. */
  lemma CatalogueWeights()
    ensures |CatalogueItems| == |CatalogueRates| == 22
    ensures forall i :: 0 <= i < 22 ==> CatalogueRates[i] > 0.0
  {
  }

  /** The entries a boost raises are exactly those at positions 16 to 21. */
  lemma CatalogueHighEntries()
    ensures forall i :: 0 <= i < |CatalogueItems| ==> (CatalogueItems[i].rarity >= HighRarity <==> 16 <= i)
  {
  }

  /** The catalogue's weights sum to 794.05. */
  lemma CatalogueTotal()
    ensures Sum(CatalogueRates) == 794.05
  {
    var s := CatalogueRates;
    assert s[..0] == [];
    PrefixStep(s, 0);
    PrefixStep(s, 1);
    PrefixStep(s, 2);
    PrefixStep(s, 3);
    PrefixStep(s, 4);
    PrefixStep(s, 5);
    PrefixStep(s, 6);
    PrefixStep(s, 7);
    PrefixStep(s, 8);
    PrefixStep(s, 9);
    PrefixStep(s, 10);
    PrefixStep(s, 11);
    PrefixStep(s, 12);
    PrefixStep(s, 13);
    PrefixStep(s, 14);
    PrefixStep(s, 15);
    PrefixStep(s, 16);
    PrefixStep(s, 17);
    PrefixStep(s, 18);
    PrefixStep(s, 19);
    PrefixStep(s, 20);
    PrefixStep(s, 21);
    assert s[..22] == s;
  }

  /**
    A new game with the catalogue registered satisfies the invariant, and any
    value in [0, 794.05) is a possible draw for its first pull.
   */
  lemma InitialGame(r: real)
    requires 0.0 <= r < 794.05
    ensures var s := GameState(CatalogueItems, CatalogueRates, Ledger(StartingCurrency, []), 0);
      Inv(s) && CanDraw(s, r) && !Refuses(s)
  {
    CatalogueWeights();
    CatalogueTotal();
  }

  class GachaGame {
    var pool: GachaPool
    var player: Player
    var pityCounter: int

    /** The whole game as a value. */
    function State(): GameState
      reads this, pool, player
    {
      GameState(pool.items, pool.rates, player.Snapshot(), pityCounter)
    }

    /** The pool is consistent and the game invariant holds. */
    ghost predicate Valid()
      reads this, pool, player
    {
      pool.Valid() && Inv(State())
    }

    constructor ()
      ensures Valid() && fresh(pool) && fresh(player)
      ensures State() == GameState([], [], Ledger(StartingCurrency, []), 0)
    {
      pool := new GachaPool();
      player := new Player("Player");
      pityCounter := 0;
    }

    /** Registers the 22 catalogue entries, in catalogue order, after whatever the pool already holds. */
    method SetupPool()
      requires Valid()
      modifies pool
      ensures Valid()
      ensures pool.items == old(pool.items) + CatalogueItems
      ensures pool.rates == old(pool.rates) + CatalogueRates
    {
      CatalogueWeights();
      for i := 0 to |CatalogueItems|
        invariant pool.Valid() && NonNegative(pool.rates)
        invariant pool.items == old(pool.items) + CatalogueItems[..i]
        invariant pool.rates == old(pool.rates) + CatalogueRates[..i]
      {
        pool.AddItem(CatalogueItems[i], CatalogueRates[i]);
        assert CatalogueItems[..i + 1] == CatalogueItems[..i] + [CatalogueItems[i]];
        assert CatalogueRates[..i + 1] == CatalogueRates[..i] + [CatalogueRates[i]];
      }
      assert CatalogueItems[..22] == CatalogueItems;
      assert CatalogueRates[..22] == CatalogueRates;
    }

    /**
      A pull request with `r` the value the random source produced; it
      follows PullStep exactly and keeps the game invariant.
     */
    method PullGacha(r: real) returns (item: Option<GachaItem>)
      requires Valid()
      requires CanDraw(State(), r)
      modifies this`pityCounter, pool, player
      ensures Valid()
      ensures Step(State(), item) == PullStep(old(State()), r)
    {
      ghost var s := State();
      PullPreservesInv(s, r);
      if player.InventoryIsFull() {
        return None;
      }
      if player.CanPull(PullCost) {
        DrawCovers(pool.rates, r);
        var drawn := pool.Pull(r);
        var pulled := drawn.value;
        player.AddItem(pulled);
        player.SpendCurrency(PullCost);

        if pulled.rarity >= HighRarity {
          pityCounter := 0;
        } else {
          pityCounter := pityCounter + 1;
        }

        if pityCounter >= PityTrigger {
          IncreaseHighRarityOdds();
          pityCounter := 0;
        }
        return Some(pulled);
      }
      return None;
    }

    /** Adds the boost to the weight of every entry of rarity at least 4, one entry at a time. */
    method IncreaseHighRarityOdds()
      requires pool.Valid()
      modifies pool
      ensures pool.Valid()
      ensures pool.items == old(pool.items)
      ensures pool.rates == Boost(old(pool.items), old(pool.rates))
    {
      var i := 0;
      while i < |pool.items|
        invariant pool.Valid() && 0 <= i <= |pool.items|
        invariant pool.items == old(pool.items)
        invariant |pool.rates| == |old(pool.rates)|
        invariant forall j :: 0 <= j < i ==> pool.rates[j] == BoostedRate(pool.items[j], old(pool.rates)[j])
        invariant forall j :: i <= j < |pool.rates| ==> pool.rates[j] == old(pool.rates)[j]
      {
        var entry := pool.items[i];
        if entry.rarity >= HighRarity {
          pool.IncreaseRate(i, PityBoost);
        }
        i := i + 1;
      }
    }
  }
}
