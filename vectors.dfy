/** Exact arithmetic over the vectors numpy works on: weights and prices are
    `real`, share counts `int`. */
module Vectors {

  /** Every entry strictly positive (prices, adjustment factors). */
  predicate Positive(s: seq<real>) {
    forall i :: 0 <= i < |s| ==> s[i] > 0.0
  }

  predicate NonNegative(s: seq<real>) {
    forall i :: 0 <= i < |s| ==> s[i] >= 0.0
  }

  /** numpy's `sum`. */
  function Sum(s: seq<real>): real {
    if |s| == 0 then 0.0 else s[0] + Sum(s[1..])
  }

  /** `prices @ positions`: the market value of a position vector. */
  function MarketValue(prices: seq<real>, shares: seq<int>): real
    requires |prices| == |shares|
  {
    if |prices| == 0 then 0.0
    else prices[0] * shares[0] as real + MarketValue(prices[1..], shares[1..])
  }

  /** `a @ b` for two real vectors. */
  function Dot(a: seq<real>, b: seq<real>): real
    requires |a| == |b|
  {
    if |a| == 0 then 0.0 else a[0] * b[0] + Dot(a[1..], b[1..])
  }

  /** A vector of `n` zero share counts. */
  function NoShares(n: nat): (z: seq<int>)
    ensures |z| == n && forall i :: 0 <= i < n ==> z[i] == 0
  {
    seq(n, _ => 0)
  }

  /** A vector of `n` zero weights. */
  function NoWeights(n: nat): (z: seq<real>)
    ensures |z| == n && forall i :: 0 <= i < n ==> z[i] == 0.0
  {
    seq(n, _ => 0.0)
  }

  // ---------------------------------------------------------------- sums

  /** Dividing every entry by `c` divides the sum by `c`. */
  lemma {:induction false} SumDivided(a: seq<real>, b: seq<real>, c: real)
    requires |a| == |b| && c != 0.0
    requires forall i :: 0 <= i < |a| ==> a[i] == b[i] / c
    ensures Sum(a) == Sum(b) / c
  {
    if |a| > 0 {
      SumDivided(a[1..], b[1..], c);
    }
  }

  /** A pointwise smaller vector has a smaller sum. */
  lemma {:induction false} SumMonotone(a: seq<real>, b: seq<real>)
    requires |a| == |b|
    requires forall i :: 0 <= i < |a| ==> a[i] <= b[i]
    ensures Sum(a) <= Sum(b)
  {
    if |a| > 0 {
      SumMonotone(a[1..], b[1..]);
    }
  }

  lemma {:induction false} SumNonNegative(s: seq<real>)
    requires NonNegative(s)
    ensures Sum(s) >= 0.0
  {
    if |s| > 0 {
      SumNonNegative(s[1..]);
    }
  }

  /** In a non-negative vector no entry exceeds the total. */
  lemma {:induction false} EntryAtMostSum(s: seq<real>, i: nat)
    requires NonNegative(s) && i < |s|
    ensures s[i] <= Sum(s)
  {
    if i == 0 {
      SumNonNegative(s[1..]);
    } else {
      EntryAtMostSum(s[1..], i - 1);
    }
  }

  /** A non-negative vector summing to zero is all zeros. */
  lemma {:induction false} ZeroSumNonNegative(s: seq<real>, i: nat)
    requires NonNegative(s) && Sum(s) == 0.0 && i < |s|
    ensures s[i] == 0.0
  {
    SumNonNegative(s[1..]);
    if i > 0 {
      ZeroSumNonNegative(s[1..], i - 1);
    }
  }

  lemma {:induction false} SumOfZeros(s: seq<real>)
    requires forall i :: 0 <= i < |s| ==> s[i] == 0.0
    ensures Sum(s) == 0.0
  {
    if |s| > 0 {
      SumOfZeros(s[1..]);
    }
  }

  /** The value shares of `prices[i]` each make up, summed, is the market value. */
  lemma {:induction false} WeightsOfHoldings(w: seq<real>, prices: seq<real>, shares: seq<int>, total: real)
    requires |w| == |prices| == |shares| && total != 0.0
    requires forall i :: 0 <= i < |w| ==> w[i] == prices[i] * shares[i] as real / total
    ensures Sum(w) * total == MarketValue(prices, shares)
  {
    if |w| > 0 {
      WeightsOfHoldings(w[1..], prices[1..], shares[1..], total);
    }
  }

  lemma {:induction false} MarketValueOfNoShares(prices: seq<real>, shares: seq<int>)
    requires |prices| == |shares|
    requires forall i :: 0 <= i < |shares| ==> shares[i] == 0
    ensures MarketValue(prices, shares) == 0.0
  {
    if |prices| > 0 {
      MarketValueOfNoShares(prices[1..], shares[1..]);
    }
  }

  /** Holdings each worth at most `target_i * amount` are together worth at
      most `sum(target) * amount`. */
  lemma {:induction false} HoldingsWithin(prices: seq<real>, shares: seq<int>, target: seq<real>, amount: real)
    requires |prices| == |shares| == |target|
    requires forall i :: 0 <= i < |prices| ==> prices[i] * shares[i] as real <= target[i] * amount
    ensures MarketValue(prices, shares) <= Sum(target) * amount
  {
    if |prices| > 0 {
      HoldingsWithin(prices[1..], shares[1..], target[1..], amount);
      assert (target[0] + Sum(target[1..])) * amount == target[0] * amount + Sum(target[1..]) * amount;
    }
  }

  // ---------------------------------------------------------------- floors

  /** `v // p` for a positive divisor: the largest whole multiple of `p` not above `v`. */
  lemma FloorDivision(v: real, p: real)
    requires p > 0.0
    ensures p * ((v / p).Floor as real) <= v
    ensures v < p * ((v / p).Floor as real + 1.0)
  {
    var y := v / p;
    var k := y.Floor as real;
    assert k <= y < k + 1.0;
    assert v == p * y;
    MultiplyPositive(p, k, y);
    MultiplyPositive(p, y, k + 1.0);
    assert k + 1.0 == (v / p).Floor as real + 1.0;
    assert v < p * (k + 1.0);
  }

  lemma MultiplyPositive(p: real, a: real, b: real)
    requires p > 0.0 && a <= b
    ensures p * a <= p * b && (a < b ==> p * a < p * b)
  {
  }

  lemma FloorOfWhole(k: int)
    ensures (k as real).Floor == k
  {
  }

  lemma FloorNonNegative(v: real)
    requires v >= 0.0
    ensures (v).Floor >= 0
  {
  }
}
