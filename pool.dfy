/**
  The weighted pool: two parallel sequences of items and their draw weights
  ("rates"), and a cached total. A draw lays the entries out along the number
  line [0, total) in insertion order and returns the entry whose interval
  holds the drawn value.
 */
module WeightedPool {
  import opened Catalog

  /** The sum of a sequence of weights, accumulated left to right. */
  function Sum(s: seq<real>): real
  {
    if s == [] then 0.0 else Sum(s[..|s| - 1]) + s[|s| - 1]
  }

  /** The running sum of the weights up to and including entry `j`. */
  function RunningSum(rates: seq<real>, j: nat): real
    requires j < |rates|
  {
    Sum(rates[..j + 1])
  }

  /** Every weight is non-negative. */
  predicate NonNegative(rates: seq<real>)
  {
    forall i :: 0 <= i < |rates| ==> rates[i] >= 0.0
  }

  /** Appending a weight adds exactly that weight to the sum. */
  lemma SumAppend(s: seq<real>, x: real)
    ensures Sum(s + [x]) == Sum(s) + x
  {
    assert (s + [x])[..|s|] == s;
  }

  /** Extending a prefix by one entry adds that entry's weight. */
  lemma PrefixStep(s: seq<real>, k: nat)
    requires k < |s|
    ensures Sum(s[..k + 1]) == Sum(s[..k]) + s[k]
  {
    assert s[..k + 1][..k] == s[..k];
  }

  /** Adding `d` to one weight adds exactly `d` to the sum. */
  lemma {:induction false} SumUpdate(s: seq<real>, i: nat, d: real)
    requires i < |s|
    ensures Sum(s[i := s[i] + d]) == Sum(s) + d
  {
    var t := s[i := s[i] + d];
    var n := |s|;
    if i == n - 1 {
      assert t[..n - 1] == s[..n - 1];
    } else {
      assert t[..n - 1] == s[..n - 1][i := s[i] + d];
      SumUpdate(s[..n - 1], i, d);
    }
  }

  /** With non-negative weights the prefix sums never decrease. */
  lemma {:induction false} PrefixSumMonotone(rates: seq<real>, i: nat, j: nat)
    requires NonNegative(rates)
    requires i <= j <= |rates|
    ensures 0.0 <= Sum(rates[..i]) <= Sum(rates[..j])
  {
    if j == 0 {
      assert rates[..0] == [];
    } else {
      PrefixSumMonotone(rates, if i == j then 0 else i, j - 1);
      assert rates[..j][..j - 1] == rates[..j - 1];
    }
  }

  /**
    The index a draw of `r` selects: the least `k` whose prefix sum
    `Sum(rates[..k+1])` reaches `r`, or None when no prefix sum does.
   */
  function Draw(rates: seq<real>, r: real): (k: Option<nat>)
    ensures k.Some? ==> k.value < |rates| && r <= RunningSum(rates, k.value)
    ensures k.Some? ==> forall j :: 0 <= j < k.value ==> RunningSum(rates, j) < r
    ensures k.None? <==> forall j :: 0 <= j < |rates| ==> RunningSum(rates, j) < r
  {
    if rates == [] then None
    else
      var n := |rates|;
      var init := rates[..n - 1];
      assert rates[..n] == rates;
      assert forall j :: 0 <= j < n - 1 ==> RunningSum(init, j) == RunningSum(rates, j) by {
        forall j | 0 <= j < n - 1 ensures RunningSum(init, j) == RunningSum(rates, j) {
          assert init[..j + 1] == rates[..j + 1];
        }
      }
      match Draw(init, r)
      case Some(k) => Some(k)
      case None => if r <= Sum(rates) then Some(n - 1) else None
  }

  /** A drawn value below the total always selects some entry. */
  lemma DrawCovers(rates: seq<real>, r: real)
    requires 0.0 <= r < Sum(rates)
    ensures Draw(rates, r).Some?
  {
    var n := |rates|;
    assert n > 0;
    assert rates[..(n - 1) + 1] == rates;
    assert r < RunningSum(rates, n - 1);
  }

  /** Once a prefix of the pool selects an entry, the whole pool selects the same one. */
  lemma DrawPrefixStable(rates: seq<real>, n: nat, r: real)
    requires n <= |rates|
    requires Draw(rates[..n], r).Some?
    ensures Draw(rates, r) == Draw(rates[..n], r)
  {
    var pre := rates[..n];
    var k := Draw(pre, r).value;
    forall j | 0 <= j <= k
      ensures RunningSum(pre, j) == RunningSum(rates, j)
    {
      assert pre[..j + 1] == rates[..j + 1];
    }
    assert RunningSum(rates, k) >= r;
    var d := Draw(rates, r);
    assert d.Some?;
    assert d.value == k;
  }

  /**
    With non-negative weights, entry `k` is drawn exactly when `r` lies in
    its interval (Sum(rates[..k]), Sum(rates[..k+1])] of the number line
    (the first interval also holds its left end, 0).
   */
  lemma DrawPicksInterval(rates: seq<real>, r: real, k: nat)
    requires NonNegative(rates)
    requires 0.0 <= r
    requires k < |rates|
    ensures Draw(rates, r) == Some(k) <==>
              (k == 0 || Sum(rates[..k]) < r) && r <= Sum(rates[..k + 1])
  {
    if (k == 0 || Sum(rates[..k]) < r) && r <= Sum(rates[..k + 1]) {
      forall j | 0 <= j < k
        ensures RunningSum(rates, j) < r
      {
        PrefixSumMonotone(rates, j + 1, k);
      }
      var d := Draw(rates, r);
      assert RunningSum(rates, k) >= r;
      assert d.Some?;
      assert d.value == k;
    }
    if Draw(rates, r) == Some(k) && k > 0 {
      assert RunningSum(rates, k - 1) < r;
      assert rates[..(k - 1) + 1] == rates[..k];
    }
  }

  /**
    A pool of items with draw weights, kept as two parallel sequences and a
    cached total, as the engine keeps them.
   */
  class GachaPool {
    var items: seq<GachaItem>
    var rates: seq<real>
    var totalRate: real

    /** The sequences stay parallel and the cached total is the exact sum of the weights. */
    ghost predicate Valid()
      reads this
    {
      |items| == |rates| && totalRate == Sum(rates)
    }

    constructor ()
      ensures Valid()
      ensures items == [] && rates == [] && totalRate == 0.0
    {
      items := [];
      rates := [];
      totalRate := 0.0;
    }

    /** Appends one entry and its weight; the total grows by exactly that weight. */
    method AddItem(item: GachaItem, rate: real)
      requires Valid()
      modifies this
      ensures Valid()
      ensures items == old(items) + [item]
      ensures rates == old(rates) + [rate]
      ensures totalRate == old(totalRate) + rate
    {
      SumAppend(rates, rate);
      items := items + [item];
      rates := rates + [rate];
      totalRate := totalRate + rate;
    }

    /**
      Walks the running sum of the weights and returns the first item whose
      running sum reaches `r`, the value the random source produced; None
      when the walk ends without reaching it.
     */
    method Pull(r: real) returns (item: Option<GachaItem>)
      requires Valid()
      ensures item.None? <==> Draw(rates, r).None?
      ensures item.Some? ==> Draw(rates, r).Some? && item.value == items[Draw(rates, r).value]
    {
      var cumulative := 0.0;
      var i := 0;
      while i < |items|
        invariant 0 <= i <= |items|
        invariant cumulative == Sum(rates[..i])
        invariant Draw(rates[..i], r).None?
      {
        assert rates[..i + 1][..i] == rates[..i];
        cumulative := cumulative + rates[i];
        if r <= cumulative {
          DrawPrefixStable(rates, i + 1, r);
          return Some(items[i]);
        }
        i := i + 1;
      }
      assert rates[..i] == rates;
      return None;
    }

    /** Adds `increaseBy` to the weight at `index`; nothing else but the total changes. */
    method IncreaseRate(index: nat, increaseBy: real)
      requires Valid()
      requires index < |rates|
      modifies this
      ensures Valid()
      ensures items == old(items)
      ensures rates == old(rates)[index := old(rates)[index] + increaseBy]
      ensures totalRate == old(totalRate) + increaseBy
    {
      SumUpdate(rates, index, increaseBy);
      rates := rates[index := rates[index] + increaseBy];
      totalRate := totalRate + increaseBy;
    }
  }
}
