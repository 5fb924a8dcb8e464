/** Properties of the backtest: what every recorded state satisfies, how one
    day's record follows from the previous one, the cadence rules and the
    budget of a rebalance. */
module BacktestProofs {
  import opened Wrappers
  import opened Vectors
  import opened Optimization
  import opened Backtest

  /** The identities every recorded state keeps with that day's prices. */
  ghost predicate Consistent(st: State, prices: seq<real>) {
    |st.positions| == |prices| && |st.allocation| == |prices| && st.amount != 0.0 &&
    (forall i :: 0 <= i < |prices| ==> st.allocation[i] * st.amount == prices[i] * st.positions[i] as real) &&
    st.unallocated == 1.0 - Sum(st.allocation) &&
    st.cash == st.amount * st.unallocated &&
    st.amount == MarketValue(prices, st.positions) + st.cash
  }

  // ================================================================ one day

  /** A successful step, taken apart: the day's value and the target and
      positions its two cadence steps chose. */
  lemma StepChoices(cfg: Config, oracle: Oracle, start: nat, c: Carry, p: nat, st: State)
    requires WellFormed(cfg.panel) && start <= p < |cfg.panel.days|
    requires |c.positions| == |cfg.panel.tickers|
    requires Step(cfg, oracle, start, c, p) == Success(st)
    ensures st.amount == MarketValue(cfg.panel.days[p].prices, c.positions) + c.cash
    ensures TargetFor(cfg, oracle, start, p, c, st.amount) == Success(st.targetAllocation)
    ensures PositionsFor(cfg, start, p, st.targetAllocation, c, st.amount) == Success(st.positions)
  {
  }

  /** The record a successful step builds from the value and positions it chose. */
  lemma StepRecord(cfg: Config, oracle: Oracle, start: nat, c: Carry, p: nat, st: State)
    requires WellFormed(cfg.panel) && start <= p < |cfg.panel.days|
    requires |c.positions| == |cfg.panel.tickers|
    requires Step(cfg, oracle, start, c, p) == Success(st)
    ensures var day := cfg.panel.days[p];
            st.amount == MarketValue(day.prices, c.positions) + c.cash && st.amount != 0.0 &&
            |st.positions| == |day.prices| &&
            st == Record(day.date, day.prices, st.amount, st.targetAllocation, st.positions)
  {
  }

  /** A recorded day: its date, its value from yesterday's carried positions and
      cash at today's prices, and the cash and allocation identities. */
  lemma StepRecordsState(cfg: Config, oracle: Oracle, start: nat, c: Carry, p: nat, st: State)
    requires WellFormed(cfg.panel) && start <= p < |cfg.panel.days|
    requires |c.positions| == |cfg.panel.tickers|
    requires Step(cfg, oracle, start, c, p) == Success(st)
    ensures st.date == cfg.panel.days[p].date
    ensures st.amount == MarketValue(cfg.panel.days[p].prices, c.positions) + c.cash
    ensures Consistent(st, cfg.panel.days[p].prices)
  {
    StepRecord(cfg, oracle, start, c, p, st);
    RecordIdentities(st, cfg.panel.days[p].prices);
  }

  /** A record built as `Step` builds it keeps the identities of `Consistent`. */
  lemma RecordIdentities(st: State, prices: seq<real>)
    requires |st.positions| == |prices| && st.amount != 0.0
    requires st == Record(st.date, prices, st.amount, st.targetAllocation, st.positions)
    ensures Consistent(st, prices)
  {
    AllocationHoldings(st.allocation, prices, st.positions, st.amount);
    AllocationValue(st.allocation, prices, st.positions, st.amount);
    CashIdentity(st.amount, Sum(st.allocation), MarketValue(prices, st.positions), st.unallocated, st.cash);
  }

  lemma AllocationEntries(a: seq<real>, prices: seq<real>, positions: seq<int>, amount: real)
    requires |prices| == |positions| && amount != 0.0 && a == Allocation(prices, positions, amount)
    ensures |a| == |prices| && forall i :: 0 <= i < |a| ==> a[i] == prices[i] * positions[i] as real / amount
  {
  }

  /** Each weight of `prices * positions / amount`, times the amount, is that holding's value. */
  lemma AllocationHoldings(a: seq<real>, prices: seq<real>, positions: seq<int>, amount: real)
    requires |prices| == |positions| && amount != 0.0 && a == Allocation(prices, positions, amount)
    ensures forall i :: 0 <= i < |prices| ==> a[i] * amount == prices[i] * positions[i] as real
  {
    AllocationEntries(a, prices, positions, amount);
    forall i | 0 <= i < |prices|
      ensures a[i] * amount == prices[i] * positions[i] as real
    {
      DivideThenMultiply(prices[i] * positions[i] as real, amount);
    }
  }

  /** The weights of `prices * positions / amount` together make up the market value. */
  lemma AllocationValue(a: seq<real>, prices: seq<real>, positions: seq<int>, amount: real)
    requires |prices| == |positions| && amount != 0.0 && a == Allocation(prices, positions, amount)
    ensures Sum(a) * amount == MarketValue(prices, positions)
  {
    AllocationEntries(a, prices, positions, amount);
    WeightsOfHoldings(a, prices, positions, amount);
  }

  lemma DivideThenMultiply(v: real, d: real)
    requires d != 0.0
    ensures v / d * d == v
  {
  }

  /** `cash = amount * (1 - sum(allocation))` is what the positions leave of the amount. */
  lemma CashIdentity(amount: real, weight: real, value: real, unallocated: real, cash: real)
    requires weight * amount == value && unallocated == 1.0 - weight && cash == amount * unallocated
    ensures amount == value + cash
  {
  }

  /** The cadence of one day: a step that does not fire carries its value over
      unchanged; relocation needs a full window and installs the solver's
      best candidate; rebalancing turns the target into whole shares. */
  lemma StepCadence(cfg: Config, oracle: Oracle, start: nat, c: Carry, p: nat, st: State)
    requires WellFormed(cfg.panel) && start <= p < |cfg.panel.days|
    requires |c.positions| == |cfg.panel.tickers|
    requires Step(cfg, oracle, start, c, p) == Success(st)
    ensures !Fires(cfg.relocationInterval, p - start) ==> st.targetAllocation == c.target
    ensures Fires(cfg.relocationInterval, p - start) ==>
              cfg.windowSize <= p && st.targetAllocation.Some? &&
              Relocate(cfg, oracle, p, cfg.panel.days[p].prices, st.amount) == Success(st.targetAllocation.value)
    ensures !Fires(cfg.rebalancingInterval, p - start) ==> st.positions == c.positions
    ensures Fires(cfg.rebalancingInterval, p - start) ==>
              st.targetAllocation.Some? && |st.targetAllocation.value| == |cfg.panel.tickers| &&
              st.positions == Rebalance(st.targetAllocation.value, st.amount, cfg.panel.days[p].prices)
  {
    StepChoices(cfg, oracle, start, c, p, st);
  }

  /** A relocation due on a day with fewer than `window_size` earlier rows stops the run. */
  lemma ShortWindowAborts(cfg: Config, oracle: Oracle, start: nat, c: Carry, p: nat)
    requires WellFormed(cfg.panel) && start <= p < |cfg.panel.days|
    requires |c.positions| == |cfg.panel.tickers|
    requires Fires(cfg.relocationInterval, p - start) && p < cfg.windowSize
    ensures Step(cfg, oracle, start, c, p) == Failure(ShortWindow)
  {
  }

  /** What a recorded day is, stated without the step that computes it: its
      date, its value from the carry, the identities of `Consistent`, and the
      cadence of relocation and rebalancing. */
  ghost predicate Follows(cfg: Config, oracle: Oracle, start: nat, c: Carry, p: nat, st: State)
    requires WellFormed(cfg.panel) && start <= p < |cfg.panel.days|
  {
    var day := cfg.panel.days[p];
    st.date == day.date &&
    |c.positions| == |cfg.panel.tickers| &&
    st.amount == MarketValue(day.prices, c.positions) + c.cash &&
    Consistent(st, day.prices) &&
    (!Fires(cfg.relocationInterval, p - start) ==> st.targetAllocation == c.target) &&
    (Fires(cfg.relocationInterval, p - start) ==>
       cfg.windowSize <= p && st.targetAllocation.Some? &&
       Relocate(cfg, oracle, p, day.prices, st.amount) == Success(st.targetAllocation.value)) &&
    (!Fires(cfg.rebalancingInterval, p - start) ==> st.positions == c.positions) &&
    (Fires(cfg.rebalancingInterval, p - start) ==>
       st.targetAllocation.Some? && |st.targetAllocation.value| == |cfg.panel.tickers| &&
       st.positions == Rebalance(st.targetAllocation.value, st.amount, day.prices))
  }

  lemma StepFollows(cfg: Config, oracle: Oracle, start: nat, c: Carry, p: nat, st: State)
    requires WellFormed(cfg.panel) && start <= p < |cfg.panel.days|
    requires |c.positions| == |cfg.panel.tickers|
    requires Step(cfg, oracle, start, c, p) == Success(st)
    ensures Follows(cfg, oracle, start, c, p, st)
  {
    StepRecordsState(cfg, oracle, start, c, p, st);
    StepCadence(cfg, oracle, start, c, p, st);
  }

  // ================================================================ the walk

  /** A walk stops at the last day exactly when nothing failed, and every
      record it keeps has one position per ticker. */
  lemma {:induction false} WalkShape(cfg: Config, oracle: Oracle, start: nat, c: Carry, p: nat)
    requires WellFormed(cfg.panel) && start <= p <= |cfg.panel.days|
    requires |c.positions| == |cfg.panel.tickers|
    ensures var t := Walk(cfg, oracle, start, c, p);
            p + |t.records| <= |cfg.panel.days| &&
            (t.failure.None? <==> p + |t.records| == |cfg.panel.days|) &&
            forall j :: 0 <= j < |t.records| ==> |t.records[j].positions| == |cfg.panel.tickers|
    decreases |cfg.panel.days| - p
  {
    if p < |cfg.panel.days| {
      match Step(cfg, oracle, start, c, p)
      case Failure(e) =>
      case Success(st) =>
        WalkShape(cfg, oracle, start, CarryAfter(st, cfg.panel.days[p]), p + 1);
    }
  }

  /** The carry record `j` of a walk from day `p` was stepped from. */
  function WalkCarry(cfg: Config, c: Carry, p: nat, recs: seq<State>, j: nat): Carry
    requires WellFormed(cfg.panel) && j <= |recs| && p + j <= |cfg.panel.days|
    requires j > 0 ==> |recs[j - 1].positions| == |cfg.panel.tickers|
  {
    if j == 0 then c else CarryAfter(recs[j - 1], cfg.panel.days[p + j - 1])
  }

  /** The records of a walk form a chain: record `j` follows from the carry the
      previous record leaves (the walk's own carry for the first record). */
  lemma {:induction false} WalkRecord(cfg: Config, oracle: Oracle, start: nat, c: Carry, p: nat, j: nat)
    requires WellFormed(cfg.panel) && start <= p <= |cfg.panel.days|
    requires |c.positions| == |cfg.panel.tickers|
    requires j < |Walk(cfg, oracle, start, c, p).records|
    ensures var t := Walk(cfg, oracle, start, c, p);
            p + j < |cfg.panel.days| && (j > 0 ==> |t.records[j - 1].positions| == |cfg.panel.tickers|) &&
            Follows(cfg, oracle, start, WalkCarry(cfg, c, p, t.records, j), p + j, t.records[j])
    decreases j
  {
    var t := Walk(cfg, oracle, start, c, p);
    WalkShape(cfg, oracle, start, c, p);
    match Step(cfg, oracle, start, c, p)
    case Success(st) =>
      var next := CarryAfter(st, cfg.panel.days[p]);
      var rest := Walk(cfg, oracle, start, next, p + 1);
      assert t.records == [st] + rest.records;
      if j == 0 {
        StepFollows(cfg, oracle, start, c, p, st);
        assert WalkCarry(cfg, c, p, t.records, 0) == c && t.records[0] == st && p + j == p;
      } else {
        WalkRecord(cfg, oracle, start, next, p + 1, j - 1);
        FollowsShifted(cfg, oracle, start, c, p, st, rest.records, j);
      }
  }

  /** Putting a record in front of a walk moves each later record one place on. */
  lemma FollowsShifted(cfg: Config, oracle: Oracle, start: nat, c: Carry, p: nat, st: State, rest: seq<State>, j: nat)
    requires WellFormed(cfg.panel) && start <= p && 0 < j <= |rest| && p + j < |cfg.panel.days|
    requires |st.positions| == |cfg.panel.tickers|
    requires j > 1 ==> |rest[j - 2].positions| == |cfg.panel.tickers|
    requires Follows(cfg, oracle, start, WalkCarry(cfg, CarryAfter(st, cfg.panel.days[p]), p + 1, rest, j - 1),
                     p + 1 + (j - 1), rest[j - 1])
    ensures Follows(cfg, oracle, start, WalkCarry(cfg, c, p, [st] + rest, j), p + j, ([st] + rest)[j])
  {
    var recs := [st] + rest;
    assert recs[j] == rest[j - 1] && p + 1 + (j - 1) == p + j;
    assert WalkCarry(cfg, CarryAfter(st, cfg.panel.days[p]), p + 1, rest, j - 1) == WalkCarry(cfg, c, p, recs, j) by {
      if j > 1 {
        assert rest[j - 2] == recs[j - 1];
      }
    }
  }

  // ================================================================ the history

  /** `all_dates.index(start_date)` on a date-sorted panel finds the one row
      carrying the start date. */
  lemma StartIndex(cfg: Config, k: nat)
    requires WellFormed(cfg.panel) && k < |cfg.panel.days| && cfg.panel.days[k].date == cfg.startDate
    ensures IndexOf(Dates(cfg.panel), cfg.startDate) == Some(k)
  {
    assert Dates(cfg.panel)[k] == cfg.startDate;
  }

  /** `run` refuses a start date that is not in the dataset, and only then. */
  lemma RunNeedsStartDate(cfg: Config, oracle: Oracle)
    requires WellFormed(cfg.panel)
    ensures RunSpec(cfg, oracle).NotStarted? <==> cfg.startDate !in Dates(cfg.panel)
    ensures RunSpec(cfg, oracle).NotStarted? ==> RunSpec(cfg, oracle).error == StartDateNotFound
  {
  }

  /** The carry record `j` of a history was stepped from: the initial carry
      for the first day, and after that the previous record rolled through the
      previous day's adjustment factors. */
  function CarryInto(cfg: Config, k: nat, h: seq<State>, j: nat): Carry
    requires WellFormed(cfg.panel) && 1 <= j <= |h| && k + j - 1 <= |cfg.panel.days|
    requires |h[j - 1].positions| == |cfg.panel.tickers|
  {
    CarryFrom(cfg, InitialCarry(cfg), k, h, j)
  }

  /** The same with the first carry `c` in place of the initial one. */
  function CarryFrom(cfg: Config, c: Carry, k: nat, h: seq<State>, j: nat): Carry
    requires WellFormed(cfg.panel) && 1 <= j <= |h| && k + j - 1 <= |cfg.panel.days|
    requires |h[j - 1].positions| == |cfg.panel.tickers|
  {
    if j == 1 then c else CarryAfter(h[j - 1], cfg.panel.days[k + j - 2])
  }


  /** The history of a run that starts at row `k` is the seed followed by the
      walk from day `k` with the initial carry. */
  lemma HistoryIsWalk(cfg: Config, oracle: Oracle, k: nat, h: seq<State>, f: Option<SimError>)
    requires WellFormed(cfg.panel) && k < |cfg.panel.days| && cfg.panel.days[k].date == cfg.startDate
    requires RunSpec(cfg, oracle) == Ran(h, f)
    ensures h == [Seed(cfg, k)] + Walk(cfg, oracle, k, InitialCarry(cfg), k).records
    ensures f == Walk(cfg, oracle, k, InitialCarry(cfg), k).failure
  {
    StartIndex(cfg, k);
  }

  /** The run reaches the last day exactly when nothing failed. */
  lemma HistoryShape(cfg: Config, oracle: Oracle, k: nat, h: seq<State>, f: Option<SimError>)
    requires WellFormed(cfg.panel) && k < |cfg.panel.days| && cfg.panel.days[k].date == cfg.startDate
    requires RunSpec(cfg, oracle) == Ran(h, f)
    ensures |h| >= 1 && k + |h| - 1 <= |cfg.panel.days|
    ensures f.None? <==> |h| == 1 + |cfg.panel.days| - k
    ensures forall j :: 0 <= j < |h| ==> |h[j].positions| == |cfg.panel.tickers|
  {
    HistoryIsWalk(cfg, oracle, k, h, f);
    WalkShape(cfg, oracle, k, InitialCarry(cfg), k);
    var t := Walk(cfg, oracle, k, InitialCarry(cfg), k);
    forall j | 0 <= j < |h|
      ensures |h[j].positions| == |cfg.panel.tickers|
    {
      if j > 0 {
        assert h[j] == t.records[j - 1];
      }
    }
  }

  /** Each record after the seed follows from the carry it was stepped from. */
  lemma HistoryRecordFollows(cfg: Config, oracle: Oracle, k: nat, h: seq<State>, f: Option<SimError>, j: nat)
    requires WellFormed(cfg.panel) && k < |cfg.panel.days| && cfg.panel.days[k].date == cfg.startDate
    requires RunSpec(cfg, oracle) == Ran(h, f) && 1 <= j < |h|
    ensures k + j - 1 < |cfg.panel.days| && |h[j - 1].positions| == |cfg.panel.tickers|
    ensures Follows(cfg, oracle, k, CarryInto(cfg, k, h, j), k + j - 1, h[j])
  {
    HistoryShape(cfg, oracle, k, h, f);
    HistoryIsWalk(cfg, oracle, k, h, f);
    SeededFollows(cfg, oracle, k, InitialCarry(cfg), h, j);
  }

  /** Record `j` of a history that puts the seed in front of the walk from day
      `k` with carry `c` is record `j - 1` of that walk. */
  lemma SeededFollows(cfg: Config, oracle: Oracle, k: nat, c: Carry, h: seq<State>, j: nat)
    requires WellFormed(cfg.panel) && k < |cfg.panel.days| && |c.positions| == |cfg.panel.tickers|
    requires h == [Seed(cfg, k)] + Walk(cfg, oracle, k, c, k).records && 1 <= j < |h|
    ensures k + j - 1 < |cfg.panel.days| && |h[j - 1].positions| == |cfg.panel.tickers|
    ensures Follows(cfg, oracle, k, CarryFrom(cfg, c, k, h, j), k + j - 1, h[j])
  {
    WalkRecord(cfg, oracle, k, c, k, j - 1);
    SeedFollows(cfg, oracle, k, c, Walk(cfg, oracle, k, c, k).records, h, j);
  }

  /** The same for any records `recs` behind the seed. */
  lemma SeedFollows(cfg: Config, oracle: Oracle, k: nat, c: Carry, recs: seq<State>, h: seq<State>, j: nat)
    requires WellFormed(cfg.panel) && 1 <= j && k + (j - 1) < |cfg.panel.days|
    requires h == [Seed(cfg, k)] + recs && j < |h|
    requires j - 1 > 0 ==> |recs[j - 1 - 1].positions| == |cfg.panel.tickers|
    requires Follows(cfg, oracle, k, WalkCarry(cfg, c, k, recs, j - 1), k + (j - 1), recs[j - 1])
    ensures k + j - 1 < |cfg.panel.days| && |h[j - 1].positions| == |cfg.panel.tickers|
    ensures Follows(cfg, oracle, k, CarryFrom(cfg, c, k, h, j), k + j - 1, h[j])
  {
    SeedShifted(cfg, k, c, recs, h, j);
  }

  /** Putting the seed in front shifts the records and their carries by one. */
  lemma SeedShifted(cfg: Config, k: nat, c: Carry, recs: seq<State>, h: seq<State>, j: nat)
    requires WellFormed(cfg.panel) && 1 <= j && k + (j - 1) < |cfg.panel.days|
    requires h == [Seed(cfg, k)] + recs && j < |h|
    requires j > 1 ==> |recs[j - 2].positions| == |cfg.panel.tickers|
    ensures h[j] == recs[j - 1] && |h[j - 1].positions| == |cfg.panel.tickers|
    ensures CarryFrom(cfg, c, k, h, j) == WalkCarry(cfg, c, k, recs, j - 1)
  {
    if j > 1 {
      assert h[j - 1] == recs[j - 2];
    }
  }

  /** What the seed record holds: the date before the start date (the last
      date when the run starts on the first one), the initial amount all in
      cash, no shares and the initial target. */
  lemma SeedRecord(cfg: Config, oracle: Oracle, k: nat, h: seq<State>, f: Option<SimError>)
    requires WellFormed(cfg.panel) && k < |cfg.panel.days| && cfg.panel.days[k].date == cfg.startDate
    requires RunSpec(cfg, oracle) == Ran(h, f)
    ensures |h| >= 1
    ensures var days := cfg.panel.days;
            h[0].date == (if k == 0 then days[|days| - 1].date else days[k - 1].date)
    ensures h[0].amount == cfg.initialAmount && h[0].cash == cfg.initialAmount && h[0].unallocated == 1.0
    ensures h[0].targetAllocation == cfg.initialTargetAllocation
    ensures |h[0].positions| == |h[0].allocation| == |cfg.panel.tickers|
    ensures forall i :: 0 <= i < |h[0].positions| ==> h[0].positions[i] == 0 && h[0].allocation[i] == 0.0
  {
    HistoryIsWalk(cfg, oracle, k, h, f);
    assert h[0] == Seed(cfg, k);
  }

  /** Every record after the seed carries its day's date and keeps the cash
      and allocation identities with that day's prices. */
  lemma RecordState(cfg: Config, oracle: Oracle, k: nat, h: seq<State>, f: Option<SimError>, j: nat)
    requires WellFormed(cfg.panel) && k < |cfg.panel.days| && cfg.panel.days[k].date == cfg.startDate
    requires RunSpec(cfg, oracle) == Ran(h, f) && 1 <= j < |h|
    ensures k + j - 1 < |cfg.panel.days|
    ensures h[j].date == cfg.panel.days[k + j - 1].date
    ensures Consistent(h[j], cfg.panel.days[k + j - 1].prices)
  {
    HistoryRecordFollows(cfg, oracle, k, h, f, j);
  }

  /** Each day is worth what the previous record carried into it: the shares
      rolled through the previous day's adjustment factors at today's prices,
      plus the previous cash; the first day is worth the initial amount. */
  lemma RecordRevaluation(cfg: Config, oracle: Oracle, k: nat, h: seq<State>, f: Option<SimError>, j: nat)
    requires WellFormed(cfg.panel) && k < |cfg.panel.days| && cfg.panel.days[k].date == cfg.startDate
    requires RunSpec(cfg, oracle) == Ran(h, f) && 1 <= j < |h|
    ensures k + j - 1 < |cfg.panel.days| && |h[j - 1].positions| == |cfg.panel.tickers|
    ensures j == 1 ==> h[j].amount == cfg.initialAmount
    ensures j >= 2 ==>
              h[j].amount == MarketValue(cfg.panel.days[k + j - 1].prices,
                                         Adjust(h[j - 1].positions, cfg.panel.days[k + j - 2].adjust))
                             + h[j - 1].cash
  {
    HistoryRecordFollows(cfg, oracle, k, h, f, j);
    if j == 1 {
      MarketValueOfNoShares(cfg.panel.days[k].prices, NoShares(|cfg.panel.tickers|));
    }
  }

  /** Relocation, record `j` being index `j - 1` of the run: the target changes
      only on relocation days, where it is the solver's best candidate for a
      full window of earlier rows. */
  lemma RecordRelocation(cfg: Config, oracle: Oracle, k: nat, h: seq<State>, f: Option<SimError>, j: nat)
    requires WellFormed(cfg.panel) && k < |cfg.panel.days| && cfg.panel.days[k].date == cfg.startDate
    requires RunSpec(cfg, oracle) == Ran(h, f) && 1 <= j < |h|
    ensures k + j - 1 < |cfg.panel.days|
    ensures !Fires(cfg.relocationInterval, j - 1) ==> h[j].targetAllocation == h[j - 1].targetAllocation
    ensures Fires(cfg.relocationInterval, j - 1) ==>
              cfg.windowSize <= k + j - 1 && h[j].targetAllocation.Some? &&
              Relocate(cfg, oracle, k + j - 1, cfg.panel.days[k + j - 1].prices, h[j].amount)
                == Success(h[j].targetAllocation.value)
  {
    HistoryRecordFollows(cfg, oracle, k, h, f, j);
    if j == 1 {
      SeedRecord(cfg, oracle, k, h, f);
    }
  }

  /** Rebalancing: the positions change only on rebalancing days, where they
      are the target bought in whole shares at that day's prices with that
      day's amount; on other days they are the carried positions. */
  lemma RecordRebalancing(cfg: Config, oracle: Oracle, k: nat, h: seq<State>, f: Option<SimError>, j: nat)
    requires WellFormed(cfg.panel) && k < |cfg.panel.days| && cfg.panel.days[k].date == cfg.startDate
    requires RunSpec(cfg, oracle) == Ran(h, f) && 1 <= j < |h|
    ensures k + j - 1 < |cfg.panel.days| && |h[j - 1].positions| == |cfg.panel.tickers|
    ensures !Fires(cfg.rebalancingInterval, j - 1) ==> h[j].positions == CarryInto(cfg, k, h, j).positions
    ensures Fires(cfg.rebalancingInterval, j - 1) ==>
              h[j].targetAllocation.Some? && |h[j].targetAllocation.value| == |cfg.panel.tickers| &&
              h[j].positions == Rebalance(h[j].targetAllocation.value, h[j].amount, cfg.panel.days[k + j - 1].prices)
  {
    HistoryRecordFollows(cfg, oracle, k, h, f, j);
  }

  /** `rebalance` never spends more than the target's share of the amount:
      whole shares are bought by rounding down. */
  lemma {:induction false} RebalanceWithinBudget(target: seq<real>, amount: real, prices: seq<real>)
    requires |target| == |prices| && Positive(prices)
    ensures MarketValue(prices, Rebalance(target, amount, prices)) <= Sum(target) * amount
  {
    HoldingsWithin(prices, Rebalance(target, amount, prices), target, amount);
  }

  /** No leverage: on a rebalancing day with a positive value and a target
      that invests at most everything, the record's cash is not negative. */
  lemma {:induction false} RebalancingKeepsCash(cfg: Config, oracle: Oracle, k: nat, h: seq<State>, f: Option<SimError>, j: nat)
    requires WellFormed(cfg.panel) && k < |cfg.panel.days| && cfg.panel.days[k].date == cfg.startDate
    requires RunSpec(cfg, oracle) == Ran(h, f) && 1 <= j < |h|
    requires Fires(cfg.rebalancingInterval, j - 1) && h[j].amount > 0.0
    requires h[j].targetAllocation.Some? && Sum(h[j].targetAllocation.value) <= 1.0
    ensures h[j].cash >= 0.0
  {
    RecordState(cfg, oracle, k, h, f, j);
    RecordRebalancing(cfg, oracle, k, h, f, j);
    RebalancedCash(h[j], cfg.panel.days[k + j - 1].prices);
  }

  /** A consistent record whose positions are its target bought with its
      positive amount keeps a non-negative cash when the target invests at
      most everything. */
  lemma RebalancedCash(st: State, prices: seq<real>)
    requires Consistent(st, prices) && Positive(prices) && st.amount > 0.0
    requires st.targetAllocation.Some? && |st.targetAllocation.value| == |prices|
    requires st.positions == Rebalance(st.targetAllocation.value, st.amount, prices)
    requires Sum(st.targetAllocation.value) <= 1.0
    ensures st.cash >= 0.0
  {
    var target := st.targetAllocation.value;
    RebalanceWithinBudget(target, st.amount, prices);
    CashLeft(st.amount, MarketValue(prices, st.positions), st.cash, Sum(target));
  }

  /** What holdings bought with at most a fraction `s <= 1` of a positive
      amount leave of it is not negative. */
  lemma CashLeft(amount: real, value: real, cash: real, s: real)
    requires amount > 0.0 && amount == value + cash && value <= s * amount && s <= 1.0
    ensures cash >= 0.0
  {
    MultiplyPositive(amount, s, 1.0);
  }

  // ================================================================ cadence over a run

  /** With relocation switched off (`None` or `0`) the target never moves from
      the initial one. */
  lemma StaticTarget(cfg: Config, oracle: Oracle, k: nat, h: seq<State>, f: Option<SimError>)
    requires WellFormed(cfg.panel) && k < |cfg.panel.days| && cfg.panel.days[k].date == cfg.startDate
    requires RunSpec(cfg, oracle) == Ran(h, f)
    requires cfg.relocationInterval.None? || cfg.relocationInterval.value == 0
    ensures forall j :: 0 <= j < |h| ==> h[j].targetAllocation == cfg.initialTargetAllocation
  {
    SeedRecord(cfg, oracle, k, h, f);
    var j := 1;
    while j < |h|
      invariant 1 <= j <= |h|
      invariant forall i :: 0 <= i < j ==> h[i].targetAllocation == cfg.initialTargetAllocation
    {
      RecordRelocation(cfg, oracle, k, h, f, j);
      j := j + 1;
    }
  }

  /** With rebalancing switched off nothing is ever bought: every record holds
      no shares, and the whole initial amount stays in cash. */
  lemma AllCashWithoutRebalancing(cfg: Config, oracle: Oracle, k: nat, h: seq<State>, f: Option<SimError>)
    requires WellFormed(cfg.panel) && k < |cfg.panel.days| && cfg.panel.days[k].date == cfg.startDate
    requires RunSpec(cfg, oracle) == Ran(h, f)
    requires cfg.rebalancingInterval.None? || cfg.rebalancingInterval.value == 0
    ensures forall j :: 0 <= j < |h| ==>
              HoldsNothing(h[j].positions) && h[j].amount == cfg.initialAmount && h[j].cash == cfg.initialAmount
  {
    SeedRecord(cfg, oracle, k, h, f);
    var j := 1;
    while j < |h|
      invariant 1 <= j <= |h|
      invariant forall i :: 0 <= i < j ==>
                  HoldsNothing(h[i].positions) && h[i].amount == cfg.initialAmount && h[i].cash == cfg.initialAmount
    {
      CashDay(cfg, oracle, k, h, f, j);
      j := j + 1;
    }
  }

  /** One day without rebalancing: a record holding no shares and the initial
      amount in cash is followed by another. */
  lemma CashDay(cfg: Config, oracle: Oracle, k: nat, h: seq<State>, f: Option<SimError>, j: nat)
    requires WellFormed(cfg.panel) && k < |cfg.panel.days| && cfg.panel.days[k].date == cfg.startDate
    requires RunSpec(cfg, oracle) == Ran(h, f) && 1 <= j < |h|
    requires cfg.rebalancingInterval.None? || cfg.rebalancingInterval.value == 0
    requires HoldsNothing(h[j - 1].positions) && h[j - 1].cash == cfg.initialAmount
    ensures HoldsNothing(h[j].positions)
    ensures h[j].amount == cfg.initialAmount && h[j].cash == cfg.initialAmount
  {
    RecordState(cfg, oracle, k, h, f, j);
    RecordRebalancing(cfg, oracle, k, h, f, j);
    RecordRevaluation(cfg, oracle, k, h, f, j);
    CashCarried(cfg, k, h, j);
    var prices := cfg.panel.days[k + j - 1].prices;
    MarketValueOfNoShares(prices, h[j].positions);
    CashOnlyRecord(h[j], prices);
  }

  /** What a cash-only record leaves to the next day is cash only. */
  lemma CashCarried(cfg: Config, k: nat, h: seq<State>, j: nat)
    requires WellFormed(cfg.panel) && 1 <= j <= |h| && k + j - 1 <= |cfg.panel.days|
    requires |h[j - 1].positions| == |cfg.panel.tickers|
    requires HoldsNothing(h[j - 1].positions) && h[j - 1].cash == cfg.initialAmount
    ensures HoldsNothing(CarryInto(cfg, k, h, j).positions)
    ensures CarryInto(cfg, k, h, j).cash == cfg.initialAmount
  {
    if j > 1 {
      AdjustKeepsNoShares(h[j - 1].positions, cfg.panel.days[k + j - 2].adjust);
    }
  }

  predicate HoldsNothing(positions: seq<int>) {
    forall m :: 0 <= m < |positions| ==> positions[m] == 0
  }

  /** Rolling no shares through any adjustment factors leaves no shares. */
  lemma AdjustKeepsNoShares(positions: seq<int>, factors: seq<real>)
    requires |positions| == |factors| && Positive(factors)
    requires HoldsNothing(positions)
    ensures HoldsNothing(Adjust(positions, factors))
  {
    var r := Adjust(positions, factors);
    forall i | 0 <= i < |positions|
      ensures r[i] == 0
    {
      WholeBelowOne(factors[i], r[i]);
    }
  }

  /** A whole number `r` with `f * r <= 0 < f * (r + 1)` for a positive `f` is `0`. */
  lemma WholeBelowOne(f: real, r: int)
    requires f > 0.0 && f * r as real <= 0.0 < f * (r as real + 1.0)
    ensures r == 0
  {
    if r > 0 {
      MultiplyPositive(f, 0.0, r as real);
    } else if r < 0 {
      MultiplyPositive(f, r as real + 1.0, 0.0);
    }
  }

  /** A consistent record that holds no shares is all cash. */
  lemma CashOnlyRecord(st: State, prices: seq<real>)
    requires Consistent(st, prices)
    requires MarketValue(prices, st.positions) == 0.0
    ensures st.cash == st.amount
  {
  }

  /** A relocation due on the first day of a run that starts before
      `window_size` rows exist stops the run with only the seed recorded. */
  lemma ShortWindowStopsRun(cfg: Config, oracle: Oracle, k: nat)
    requires WellFormed(cfg.panel) && k < |cfg.panel.days| && cfg.panel.days[k].date == cfg.startDate
    requires cfg.relocationInterval.Some? && cfg.relocationInterval.value != 0
    requires k < cfg.windowSize
    ensures RunSpec(cfg, oracle) == Ran([Seed(cfg, k)], Some(ShortWindow))
  {
    StartIndex(cfg, k);
    var c := InitialCarry(cfg);
    ShortWindowAborts(cfg, oracle, k, c, k);
    WalkStopped(cfg, oracle, k, c, k, ShortWindow);
  }

  /** Rebalancing on the first day with no target and no relocation to supply
      one stops the run with only the seed recorded. */
  lemma MissingTargetStopsRun(cfg: Config, oracle: Oracle, k: nat)
    requires WellFormed(cfg.panel) && k < |cfg.panel.days| && cfg.panel.days[k].date == cfg.startDate
    requires cfg.rebalancingInterval.Some? && cfg.rebalancingInterval.value != 0
    requires cfg.relocationInterval.None? || cfg.relocationInterval.value == 0
    requires cfg.initialTargetAllocation.None?
    ensures RunSpec(cfg, oracle) == Ran([Seed(cfg, k)], Some(NoTargetAllocation))
  {
    StartIndex(cfg, k);
    var c := InitialCarry(cfg);
    assert Step(cfg, oracle, k, c, k) == Failure(NoTargetAllocation);
    WalkStopped(cfg, oracle, k, c, k, NoTargetAllocation);
  }
}
