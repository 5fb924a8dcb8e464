/** The portfolio problem handed to the multi-objective solver and the repair
    operator that projects every candidate weight row onto whole-share,
    budget-respecting allocations (`PortfolioProblem`, `PortfolioRepair`). */
module Optimization {
  import opened Vectors

  /** The transcendental functions numpy supplies; the model leaves them
      uninterpreted. */
  datatype Numerics = Numerics(exp: real -> real, log: real -> real, sqrt: real -> real)

  /** `n_var` decision variables boxed in [`lower`, `upper`], `n_obj`
      objectives, gross returns `exp(mu)` and the covariance matrix. */
  datatype Problem = Problem(nVar: nat, nObj: nat, lower: real, upper: real,
                             grossReturns: seq<real>, cov: seq<seq<real>>)

  /** The objective vector `F` and the auxiliary Sharpe score of one candidate. */
  datatype Evaluation = Evaluation(objectives: seq<real>, sharpe: real)

  function MakeProblem(mu: seq<real>, cov: seq<seq<real>>, math: Numerics): Problem {
    Problem(|mu|, 2, 0.0, 1.0, seq(|mu|, i requires 0 <= i < |mu| => math.exp(mu[i])), cov)
  }

  predicate WellShaped(pr: Problem) {
    |pr.grossReturns| == pr.nVar && |pr.cov| == pr.nVar &&
    forall i :: 0 <= i < |pr.cov| ==> |pr.cov[i]| == pr.nVar
  }

  /** The candidate lies in the problem's box. */
  predicate InBox(pr: Problem, x: seq<real>) {
    |x| == pr.nVar && forall i :: 0 <= i < |x| ==> pr.lower <= x[i] <= pr.upper
  }

  /** `x.T @ cov @ x`. */
  function Quadratic(x: seq<real>, cov: seq<seq<real>>): real
    requires |cov| == |x| && forall i :: 0 <= i < |cov| ==> |cov[i]| == |x|
  {
    Dot(x, seq(|x|, i requires 0 <= i < |x| => Dot(cov[i], x)))
  }

  /** `x @ mu + (1 - x.sum())`: the one-period gross growth of the portfolio,
      whose unallocated fraction is cash growing by a factor of 1. */
  function GrossGrowth(pr: Problem, x: seq<real>): real
    requires WellShaped(pr) && |x| == pr.nVar
  {
    Dot(x, pr.grossReturns) + (1.0 - Sum(x))
  }

  /** Each unit of weight contributes its gross return less the cash factor 1. */
  function ExcessGrowth(x: seq<real>, g: seq<real>): real
    requires |x| == |g|
  {
    if |x| == 0 then 0.0 else x[0] * (g[0] - 1.0) + ExcessGrowth(x[1..], g[1..])
  }

  /** `_evaluate`: objectives (risk, -expected log return) and sharpe = return / risk. */
  function Evaluate(pr: Problem, x: seq<real>, math: Numerics): (e: Evaluation)
    requires WellShaped(pr) && |x| == pr.nVar
    requires math.sqrt(Quadratic(x, pr.cov)) != 0.0
    ensures |e.objectives| == 2
    ensures e.objectives[0] == math.sqrt(Quadratic(x, pr.cov))
    ensures e.sharpe * e.objectives[0] == -e.objectives[1]
    ensures -e.objectives[1] == math.log(1.0 + ExcessGrowth(x, pr.grossReturns))
  {
    CashResidual(pr, x);
    var expReturn := math.log(GrossGrowth(pr, x));
    var expRisk := math.sqrt(Quadratic(x, pr.cov));
    Evaluation([expRisk, -expReturn], expReturn / expRisk)
  }

  /** The cash term `1 - sum(x)` turns `x @ exp(mu)` into one plus the excess growth. */
  lemma {:induction false} CashResidual(pr: Problem, x: seq<real>)
    requires WellShaped(pr) && |x| == pr.nVar
    ensures GrossGrowth(pr, x) == 1.0 + ExcessGrowth(x, pr.grossReturns)
  {
    DotMinusSum(x, pr.grossReturns);
  }

  lemma {:induction false} DotMinusSum(x: seq<real>, g: seq<real>)
    requires |x| == |g|
    ensures Dot(x, g) - Sum(x) == ExcessGrowth(x, g)
  {
    if |x| > 0 {
      DotMinusSum(x[1..], g[1..]);
    }
  }

  /** An all-cash candidate grows by exactly 1, whatever the expected returns. */
  lemma {:induction false} AllCashGrowsByOne(pr: Problem, x: seq<real>)
    requires WellShaped(pr) && |x| == pr.nVar
    requires forall i :: 0 <= i < |x| ==> x[i] == 0.0
    ensures GrossGrowth(pr, x) == 1.0
  {
    CashResidual(pr, x);
    NoExcessGrowth(x, pr.grossReturns);
  }

  lemma {:induction false} NoExcessGrowth(x: seq<real>, g: seq<real>)
    requires |x| == |g|
    requires forall i :: 0 <= i < |x| ==> x[i] == 0.0
    ensures ExcessGrowth(x, g) == 0.0
  {
    if |x| > 0 {
      NoExcessGrowth(x[1..], g[1..]);
    }
  }

  // ================================================================ repair

  /** `PortfolioRepair(prices, total_investing_amount)`. */
  datatype RepairConfig = RepairConfig(prices: seq<real>, total: real)

  predicate Usable(rc: RepairConfig) {
    Positive(rc.prices) && rc.total > 0.0
  }

  /** `X[X * total < prices] = 0`: a ticker that cannot buy one share gets no weight. */
  function DropUnaffordable(x: seq<real>, rc: RepairConfig): (y: seq<real>)
    requires |x| == |rc.prices|
    ensures |y| == |x|
  {
    seq(|x|, i requires 0 <= i < |x| => if x[i] * rc.total < rc.prices[i] then 0.0 else x[i])
  }

  /** `X / where(X_sum != 0, X_sum, 1)`: the row divided by its own sum, or by 1. */
  function Renormalized(x: seq<real>): (y: seq<real>)
    ensures |y| == |x|
  {
    var s := Sum(x);
    var d := if s != 0.0 then s else 1.0;
    seq(|x|, i requires 0 <= i < |x| => x[i] / d)
  }

  /** `(w * total) // price`: the whole shares a weight `w` of `total` buys. */
  function SharesFor(w: real, price: real, total: real): int
    requires price > 0.0
  {
    (w * total / price).Floor
  }

  /** `(w * total) // price` is the largest whole number of shares whose cost
      does not exceed `w * total`. */
  lemma SharesForBounds(w: real, price: real, total: real)
    requires price > 0.0
    ensures price * SharesFor(w, price, total) as real <= w * total
    ensures w * total < price * (SharesFor(w, price, total) as real + 1.0)
  {
    FloorDivision(w * total, price);
  }

  /** `price * shares / total`: the weight `shares` whole shares make up. */
  function LotWeight(price: real, shares: int, total: real): real
    requires total > 0.0
  {
    price * shares as real / total
  }

  /** `amounts // prices`: whole shares bought with each weight. */
  function WholeShares(x: seq<real>, rc: RepairConfig): (k: seq<int>)
    requires |x| == |rc.prices| && Usable(rc)
    ensures |k| == |x|
  {
    seq(|x|, i requires 0 <= i < |x| => SharesFor(x[i], rc.prices[i], rc.total))
  }

  /** The share counts the repaired row stands for. */
  function RepairShares(x: seq<real>, rc: RepairConfig): (k: seq<int>)
    requires |x| == |rc.prices| && Usable(rc)
    ensures |k| == |x|
  {
    WholeShares(Renormalized(DropUnaffordable(x, rc)), rc)
  }

  /** `prices * (amounts // prices) / total`: each weight rounded down to whole shares. */
  function ToLots(z: seq<real>, rc: RepairConfig): (r: seq<real>)
    requires |z| == |rc.prices| && Usable(rc)
    ensures |r| == |z|
  {
    var k := WholeShares(z, rc);
    seq(|z|, i requires 0 <= i < |z| => LotWeight(rc.prices[i], k[i], rc.total))
  }

  /** `_do` on one row. */
  function RepairRow(x: seq<real>, rc: RepairConfig): (r: seq<real>)
    requires |x| == |rc.prices| && Usable(rc)
    ensures |r| == |x|
  {
    ToLots(Renormalized(DropUnaffordable(x, rc)), rc)
  }

  /** `_do` on the population matrix `X` (rows are candidates, columns tickers).
      Like numpy, the unaffordable entries of `X` are zeroed in place; the
      repaired population is returned as a new matrix. */
  method RepairPopulation(X: array2<real>, rc: RepairConfig) returns (repaired: seq<seq<real>>)
    requires X.Length1 == |rc.prices| && Usable(rc)
    modifies X
    ensures forall r, c :: 0 <= r < X.Length0 && 0 <= c < X.Length1 ==>
              X[r, c] == if old(X[r, c]) * rc.total < rc.prices[c] then 0.0 else old(X[r, c])
    ensures |repaired| == X.Length0
    ensures forall r :: 0 <= r < X.Length0 ==> repaired[r] == RepairRow(old(RowOf(X, r)), rc)
  {
    ghost var before := seq(X.Length0, r requires 0 <= r < X.Length0 reads X => RowOf(X, r));
    forall r, c | 0 <= r < X.Length0 && 0 <= c < X.Length1 && X[r, c] * rc.total < rc.prices[c] {
      X[r, c] := 0.0;
    }
    repaired := seq(X.Length0, r requires 0 <= r < X.Length0 reads X => ToLots(Renormalized(RowOf(X, r)), rc));
    forall r | 0 <= r < X.Length0
      ensures RowOf(X, r) == DropUnaffordable(before[r], rc)
    {
    }
  }

  /** Row `r` of a matrix. */
  function RowOf(X: array2<real>, r: nat): (row: seq<real>)
    requires r < X.Length0
    reads X
    ensures |row| == X.Length1
  {
    seq(X.Length1, c requires 0 <= c < X.Length1 reads X => X[r, c])
  }

  // ================================================================ repair properties

  /** Whole shares re-expressed as a weight spend exactly those shares. */
  lemma LotWeightSpends(price: real, shares: int, total: real)
    requires total > 0.0
    ensures LotWeight(price, shares, total) * total == price * shares as real
  {
  }

  /** Rounding a non-negative weight down to whole shares gives a non-negative
      count whose weight is between 0 and the weight rounded. */
  lemma RoundDownBounds(w: real, price: real, total: real)
    requires w >= 0.0 && price > 0.0 && total > 0.0
    ensures SharesFor(w, price, total) >= 0
    ensures 0.0 <= LotWeight(price, SharesFor(w, price, total), total) <= w
  {
    var v := w * total;
    var k := SharesFor(w, price, total);
    FloorNonNegative(v / price);
    FloorDivision(v, price);
    assert price * k as real <= v;
    var lw := LotWeight(price, k, total);
    LotWeightSpends(price, k, total);
    assert lw * total <= w * total;
    MultiplyPositive(total, 0.0, lw);
  }

  /** The weight of whole shares converts back to exactly those shares. */
  lemma WholeLotRoundTrip(price: real, shares: int, total: real)
    requires price > 0.0 && total > 0.0
    ensures SharesFor(LotWeight(price, shares, total), price, total) == shares
  {
    var w := LotWeight(price, shares, total);
    LotWeightSpends(price, shares, total);
    assert w * total == price * shares as real;
    assert (price * shares as real) / price == shares as real;
    ExactShares(w, price, total, shares);
  }

  lemma ExactShares(w: real, price: real, total: real, shares: int)
    requires price > 0.0 && w * total / price == shares as real
    ensures SharesFor(w, price, total) == shares
  {
  }

  /** Renormalisation makes a row sum to 1, and leaves a row summing to 0 as it is
      instead of dividing by zero. */
  lemma RenormalizedRow(x: seq<real>)
    ensures Sum(x) != 0.0 ==> Sum(Renormalized(x)) == 1.0
    ensures Sum(x) == 0.0 ==> Renormalized(x) == x
  {
    var y := Renormalized(x);
    if Sum(x) != 0.0 {
      assert forall i :: 0 <= i < |x| ==> y[i] == x[i] / Sum(x);
      SumDivided(y, x, Sum(x));
      assert Sum(x) / Sum(x) == 1.0;
    }
  }

  /** A ticker whose money cannot buy one share ends with no shares and weight 0. */
  lemma UnaffordableGetsNothing(x: seq<real>, rc: RepairConfig, i: nat)
    requires |x| == |rc.prices| && Usable(rc) && i < |x|
    requires x[i] * rc.total < rc.prices[i]
    ensures RepairShares(x, rc)[i] == 0 && RepairRow(x, rc)[i] == 0.0
  {
    var z := Renormalized(DropUnaffordable(x, rc));
    assert z[i] == 0.0;
    assert z[i] * rc.total / rc.prices[i] == 0.0;
    FloorOfWhole(0);
  }

  /** Every repaired weight spends a whole number of shares of its ticker. */
  lemma RepairWholeLots(x: seq<real>, rc: RepairConfig)
    requires |x| == |rc.prices| && Usable(rc)
    ensures forall i :: 0 <= i < |x| ==>
              RepairRow(x, rc)[i] * rc.total == rc.prices[i] * RepairShares(x, rc)[i] as real
  {
    ToLotsSpend(Renormalized(DropUnaffordable(x, rc)), rc);
  }

  /** Each weight `ToLots` produces is the cost of its whole shares over `total`. */
  lemma ToLotsSpend(z: seq<real>, rc: RepairConfig)
    requires |z| == |rc.prices| && Usable(rc)
    ensures forall i :: 0 <= i < |z| ==>
              ToLots(z, rc)[i] * rc.total == rc.prices[i] * WholeShares(z, rc)[i] as real
  {
    var r, k := ToLots(z, rc), WholeShares(z, rc);
    forall i | 0 <= i < |z|
      ensures r[i] * rc.total == rc.prices[i] * k[i] as real
    {
      assert r[i] == LotWeight(rc.prices[i], k[i], rc.total);
      LotWeightSpends(rc.prices[i], k[i], rc.total);
    }
  }

  /** For a non-negative row, each repaired weight lies between 0 and the
      renormalised weight it was rounded down from, with a non-negative share count. */
  lemma RepairBounds(x: seq<real>, rc: RepairConfig)
    requires |x| == |rc.prices| && Usable(rc) && NonNegative(x)
    ensures forall i :: 0 <= i < |x| ==>
              RepairShares(x, rc)[i] >= 0 &&
              0.0 <= RepairRow(x, rc)[i] <= Renormalized(DropUnaffordable(x, rc))[i]
  {
    var y := DropUnaffordable(x, rc);
    var z := Renormalized(y);
    SumNonNegative(y);
    forall i | 0 <= i < |x|
      ensures RepairShares(x, rc)[i] >= 0 && 0.0 <= RepairRow(x, rc)[i] <= z[i]
    {
      assert z[i] >= 0.0;
      RoundDownBounds(z[i], rc.prices[i], rc.total);
    }
  }

  /** A non-negative row is repaired into weights summing to at most 1, so the
      shares it stands for never cost more than the investable total. */
  lemma RepairWithinBudget(x: seq<real>, rc: RepairConfig)
    requires |x| == |rc.prices| && Usable(rc) && NonNegative(x)
    ensures Sum(RepairRow(x, rc)) <= 1.0
    ensures MarketValue(rc.prices, RepairShares(x, rc)) <= rc.total
  {
    RepairSumAtMostOne(x, rc);
    RepairRowIsLots(x, rc);
    SpendWithinTotal(RepairRow(x, rc), rc.prices, RepairShares(x, rc), rc.total);
  }

  lemma RepairSumAtMostOne(x: seq<real>, rc: RepairConfig)
    requires |x| == |rc.prices| && Usable(rc) && NonNegative(x)
    ensures Sum(RepairRow(x, rc)) <= 1.0
  {
    var y := DropUnaffordable(x, rc);
    var z := Renormalized(y);
    RepairBounds(x, rc);
    SumMonotone(RepairRow(x, rc), z);
    RenormalizedRow(y);
  }

  lemma RepairRowIsLots(x: seq<real>, rc: RepairConfig)
    requires |x| == |rc.prices| && Usable(rc)
    ensures forall i :: 0 <= i < |x| ==>
              RepairRow(x, rc)[i] == rc.prices[i] * RepairShares(x, rc)[i] as real / rc.total
  {
  }

  lemma SpendWithinTotal(w: seq<real>, prices: seq<real>, shares: seq<int>, total: real)
    requires |w| == |prices| == |shares| && total > 0.0 && Sum(w) <= 1.0
    requires forall i :: 0 <= i < |w| ==> w[i] == prices[i] * shares[i] as real / total
    ensures MarketValue(prices, shares) <= total
  {
    WeightsOfHoldings(w, prices, shares, total);
    MultiplyPositive(total, Sum(w), 1.0);
  }

  /** Repair keeps a non-negative candidate inside the problem's [0, 1] box. */
  lemma RepairStaysInBox(mu: seq<real>, cov: seq<seq<real>>, math: Numerics, x: seq<real>, rc: RepairConfig)
    requires |mu| == |x| == |rc.prices| && Usable(rc) && NonNegative(x)
    ensures InBox(MakeProblem(mu, cov, math), RepairRow(x, rc))
  {
    var r := RepairRow(x, rc);
    RepairBounds(x, rc);
    RepairWithinBudget(x, rc);
    forall i | 0 <= i < |r|
      ensures 0.0 <= r[i] <= 1.0
    {
      EntryAtMostSum(r, i);
    }
  }

  /** A non-negative weight of whole shares is either 0 or buys at least one share. */
  lemma WholeLotAffordable(w: real, price: real, shares: int, total: real)
    requires price > 0.0 && total > 0.0 && w >= 0.0
    requires w == LotWeight(price, shares, total)
    ensures w * total < price ==> w == 0.0
  {
    LotWeightSpends(price, shares, total);
    MultiplyPositive(total, 0.0, w);
    if shares >= 1 {
      MultiplyPositive(price, 1.0, shares as real);
    } else if shares < 0 {
      MultiplyPositive(price, shares as real, 0.0);
    }
  }

  /** A fully invested row of whole-share weights is left unchanged. */
  lemma RepairKeepsWholeLotRows(x: seq<real>, rc: RepairConfig, shares: seq<int>)
    requires |x| == |rc.prices| == |shares| && Usable(rc) && NonNegative(x)
    requires Sum(x) == 1.0
    requires forall i :: 0 <= i < |x| ==> x[i] == LotWeight(rc.prices[i], shares[i], rc.total)
    ensures RepairShares(x, rc) == shares
    ensures RepairRow(x, rc) == x
  {
    var y := DropUnaffordable(x, rc);
    forall i | 0 <= i < |x|
      ensures y[i] == x[i]
    {
      WholeLotAffordable(x[i], rc.prices[i], shares[i], rc.total);
    }
    assert y == x;
    var z := Renormalized(x);
    assert forall i :: 0 <= i < |x| ==> z[i] == x[i] / 1.0;
    assert z == x;
    var k := RepairShares(x, rc);
    forall i | 0 <= i < |x|
      ensures k[i] == shares[i]
    {
      WholeLotRoundTrip(rc.prices[i], shares[i], rc.total);
    }
    assert k == shares;
  }

  /** Repair is not idempotent: a row it leaves below a full allocation is scaled
      back up, and more shares fit the second time (prices 3 and 1, total 10). */
  lemma RepairNotIdempotent()
    ensures var rc := RepairConfig([3.0, 1.0], 10.0);
            RepairRow([0.5, 0.5], rc) == [0.3, 0.5] &&
            RepairRow(RepairRow([0.5, 0.5], rc), rc) == [0.3, 0.6]
  {
    var rc := RepairConfig([3.0, 1.0], 10.0);
    var first := [0.5, 0.5];
    assert DropUnaffordable(first, rc) == first;
    assert Sum(first) == 1.0;
    assert Renormalized(first) == first;
    assert (5.0 / 3.0).Floor == 1;
    assert (5.0 / 1.0).Floor == 5;
    assert RepairShares(first, rc) == [1, 5];
    assert RepairRow(first, rc) == [0.3, 0.5];
    var second := [0.3, 0.5];
    assert DropUnaffordable(second, rc) == second;
    assert Sum(second) == 0.8;
    assert Renormalized(second) == [0.375, 0.625];
    assert (3.75 / 3.0).Floor == 1;
    assert (6.25 / 1.0).Floor == 6;
    assert RepairShares(second, rc) == [1, 6];
  }
}
