/**
  The pull and pity rules of the game as functions on a value of the whole
  game state: the pool's items and weights, the player's ledger and the
  pity counter. The GachaGame class in module Game is proved to follow them.
 */
module Pity {
  import opened Catalog
  import opened WeightedPool
  import opened PlayerLedger

  /** The price of one pull. */
  const PullCost: int := 10
  /** Draws of this rarity or above count as hits and are the ones a boost favours. */
  const HighRarity: int := 4
  /** The number of consecutive misses that fires a boost. */
  const PityTrigger: int := 5
  /** The weight a boost adds to every high-rarity entry. */
  const PityBoost: real := 50.0

  /** The weight of one entry after a boost. */
  function BoostedRate(item: GachaItem, rate: real): real
  {
    if item.rarity >= HighRarity then rate + PityBoost else rate
  }

  /** The weights after a boost: each entry of rarity at least 4 gains 50, the others keep theirs. */
  function Boost(items: seq<GachaItem>, rates: seq<real>): (b: seq<real>)
    requires |items| == |rates|
    ensures |b| == |rates|
    ensures forall i :: 0 <= i < |rates| ==> b[i] == BoostedRate(items[i], rates[i])
  {
    if rates == [] then []
    else
      var n := |rates|;
      Boost(items[..n - 1], rates[..n - 1]) + [BoostedRate(items[n - 1], rates[n - 1])]
  }

  /** The number of high-rarity entries. */
  function HighCount(items: seq<GachaItem>): nat
  {
    if items == [] then 0
    else
      var n := |items|;
      HighCount(items[..n - 1]) + (if items[n - 1].rarity >= HighRarity then 1 else 0)
  }

  /** A boost raises the total weight by 50 for each high-rarity entry. */
  lemma {:induction false} BoostSum(items: seq<GachaItem>, rates: seq<real>)
    requires |items| == |rates|
    ensures Sum(Boost(items, rates)) == Sum(rates) + PityBoost * HighCount(items) as real
  {
    if rates != [] {
      var n := |rates|;
      var init := Boost(items[..n - 1], rates[..n - 1]);
      BoostSum(items[..n - 1], rates[..n - 1]);
      SumAppend(init, BoostedRate(items[n - 1], rates[n - 1]));
    }
  }

  /** A boost keeps the weights non-negative. */
  lemma BoostNonNegative(items: seq<GachaItem>, rates: seq<real>)
    requires |items| == |rates| && NonNegative(rates)
    ensures NonNegative(Boost(items, rates))
  {
  }

  /** The counter after a draw of the given rarity, before the trigger check. */
  function CountDraw(pity: int, rarity: int): int
  {
    if rarity >= HighRarity then 0 else pity + 1
  }

  /** A draw of the given rarity fires the boost. */
  predicate Fires(pity: int, rarity: int)
  {
    CountDraw(pity, rarity) >= PityTrigger
  }

  /** The counter once the draw has been counted and a fired boost has reset it. */
  function NextPity(pity: int, rarity: int): (p: int)
    ensures rarity >= HighRarity ==> p == 0
    ensures rarity < HighRarity ==> p == (if pity + 1 >= PityTrigger then 0 else pity + 1)
    ensures 0 <= pity < PityTrigger ==> 0 <= p < PityTrigger
  {
    if Fires(pity, rarity) then 0 else CountDraw(pity, rarity)
  }

  /**
    From a counter in 0..4, a hit resets the counter without a boost, and a
    miss fires the boost exactly when it is the fifth in a row; the counter
    stays in 0..4.
   */
  lemma PityTransition(pity: int, rarity: int)
    requires 0 <= pity < PityTrigger
    ensures Fires(pity, rarity) <==> rarity < HighRarity && pity == PityTrigger - 1
    ensures NextPity(pity, rarity) == if rarity >= HighRarity || pity == PityTrigger - 1 then 0 else pity + 1
    ensures 0 <= NextPity(pity, rarity) < PityTrigger
  {
  }

  /** The counter after a run of draws of the given rarities. */
  function PityAfter(pity: int, rarities: seq<int>): int
  {
    if rarities == [] then pity
    else
      var n := |rarities|;
      NextPity(PityAfter(pity, rarities[..n - 1]), rarities[n - 1])
  }

  /** The number of boosts fired during a run of draws of the given rarities. */
  function BoostsDuring(pity: int, rarities: seq<int>): nat
  {
    if rarities == [] then 0
    else
      var n := |rarities|;
      BoostsDuring(pity, rarities[..n - 1])
        + (if Fires(PityAfter(pity, rarities[..n - 1]), rarities[n - 1]) then 1 else 0)
  }

  /**
    Starting from a reset counter, a run of misses fires one boost on every
    fifth draw and leaves the counter at the number of misses since the last.
   */
  lemma {:induction false} MissStreak(rarities: seq<int>)
    requires forall i :: 0 <= i < |rarities| ==> rarities[i] < HighRarity
    ensures PityAfter(0, rarities) == |rarities| % PityTrigger
    ensures BoostsDuring(0, rarities) == |rarities| / PityTrigger
  {
    if rarities != [] {
      var n := |rarities|;
      MissStreak(rarities[..n - 1]);
      var p := PityAfter(0, rarities[..n - 1]);
      assert p == (n - 1) % PityTrigger;
      if p == PityTrigger - 1 {
        assert n % PityTrigger == 0 && n / PityTrigger == (n - 1) / PityTrigger + 1;
      } else {
        assert n % PityTrigger == p + 1 && n / PityTrigger == (n - 1) / PityTrigger;
      }
    }
  }

  /** The state of a whole game: the pool's entries, the player's ledger and the pity counter. */
  datatype GameState = GameState(items: seq<GachaItem>, rates: seq<real>, ledger: Ledger, pity: int)

  /** The state after a pull request, and the item it returns (None for a refused pull). */
  datatype Step = Step(next: GameState, item: Option<GachaItem>)

  /** A pull is refused when the inventory is full or the balance is below the cost. */
  predicate Refuses(s: GameState)
  {
    IsFull(s.ledger) || !CanAfford(s.ledger, PullCost)
  }

  /** The random value `r` is a possible draw whenever the pull goes ahead. */
  predicate CanDraw(s: GameState, r: real)
  {
    !Refuses(s) ==> 0.0 <= r < Sum(s.rates)
  }

  /**
    A pull request with random value `r`: refused with no effect when the
    inventory is full or funds are short; otherwise the drawn item is
    appended, the cost debited, the counter updated and, when the boost
    fires, the high-rarity weights raised.
   */
  function PullStep(s: GameState, r: real): (t: Step)
    requires |s.items| == |s.rates|
    requires CanDraw(s, r)
    ensures t.item.None? <==> Refuses(s)
    ensures t.item.None? ==> t.next == s
  {
    if IsFull(s.ledger) then Step(s, None)
    else if !CanAfford(s.ledger, PullCost) then Step(s, None)
    else
      DrawCovers(s.rates, r);
      var item := s.items[Draw(s.rates, r).value];
      var ledger := Ledger(s.ledger.currency - PullCost, s.ledger.inventory + [item]);
      var rates := if Fires(s.pity, item.rarity) then Boost(s.items, s.rates) else s.rates;
      Step(GameState(s.items, rates, ledger, NextPity(s.pity, item.rarity)), Some(item))
  }

  /**
    A pull that goes ahead returns the drawn entry's item, appends it to the
    inventory, debits exactly the cost and leaves the pool's items alone.
   */
  lemma PullSucceeds(s: GameState, r: real)
    requires |s.items| == |s.rates| && CanDraw(s, r)
    requires !Refuses(s)
    ensures var t := PullStep(s, r);
      && Draw(s.rates, r).Some?
      && t.item == Some(s.items[Draw(s.rates, r).value])
      && t.next.ledger.inventory == s.ledger.inventory + [t.item.value]
      && t.next.ledger.currency == s.ledger.currency - PullCost
      && t.next.items == s.items
  {
    DrawCovers(s.rates, r);
  }

  /** The invariant the engine keeps across pulls and sales. */
  ghost predicate Inv(s: GameState)
  {
    && |s.items| == |s.rates|
    && NonNegative(s.rates)
    && 0 <= s.pity < PityTrigger
    && s.ledger.currency >= 0
    && |s.ledger.inventory| <= Capacity
  }

  /**
    Under the invariant, a pull that goes ahead boosts the pool exactly when
    it is the fifth miss in a row, and otherwise leaves the weights alone.
   */
  lemma PullBoostsOnFifthMiss(s: GameState, r: real)
    requires Inv(s) && CanDraw(s, r)
    requires !Refuses(s)
    ensures var t := PullStep(s, r); var rarity := t.item.value.rarity;
      && t.next.rates == (if rarity < HighRarity && s.pity == PityTrigger - 1 then Boost(s.items, s.rates) else s.rates)
      && t.next.pity == (if rarity >= HighRarity || s.pity == PityTrigger - 1 then 0 else s.pity + 1)
  {
    PullSucceeds(s, r);
    PityTransition(s.pity, PullStep(s, r).item.value.rarity);
  }

  /** Every pull request keeps the invariant. */
  lemma PullPreservesInv(s: GameState, r: real)
    requires Inv(s) && CanDraw(s, r)
    ensures Inv(PullStep(s, r).next)
  {
    if !Refuses(s) {
      PullSucceeds(s, r);
      var rarity := PullStep(s, r).item.value.rarity;
      PityTransition(s.pity, rarity);
      BoostNonNegative(s.items, s.rates);
    }
  }

  /** Every sale, valid or not, keeps the invariant. */
  lemma SellPreservesInv(s: GameState, index: int)
    requires Inv(s)
    ensures Inv(s.(ledger := Sell(s.ledger, index)))
  {
  }
}
