/** The walk-forward backtest (`Simulation`): a date-ordered panel of returns,
    prices and adjustment factors is replayed day by day from a start date;
    on relocation days a target allocation is picked from the optimiser's
    candidates, on rebalancing days it is turned into whole-share positions,
    and every day one state record is appended to the history. */
module Backtest {
  import opened Wrappers
  import opened Vectors
  import opened Optimization

  /** Dates are totally ordered; an integer day number stands for them. */
  type Date = int
  type Ticker = string

  /** One row of the pivoted dataset: per ticker (in ticker order) the day's
      return, price and corporate-action adjustment factor. */
  datatype Day = Day(date: Date, dailyReturns: seq<real>, prices: seq<real>, adjust: seq<real>)

  datatype Panel = Panel(tickers: seq<Ticker>, days: seq<Day>)

  predicate DayFits(d: Day, n: nat) {
    |d.dailyReturns| == n && |d.prices| == n && |d.adjust| == n &&
    Positive(d.prices) && Positive(d.adjust)
  }

  predicate Increasing(days: seq<Day>) {
    forall i, j :: 0 <= i < j < |days| ==> days[i].date < days[j].date
  }

  /** Sorted by date, one row per date, every row aligned to the tickers. */
  predicate WellFormed(panel: Panel) {
    Increasing(panel.days) &&
    forall i :: 0 <= i < |panel.days| ==> DayFits(panel.days[i], |panel.tickers|)
  }

  /** `dataset.date.unique().tolist()`. */
  function Dates(panel: Panel): (ds: seq<Date>)
    ensures |ds| == |panel.days|
  {
    seq(|panel.days|, i requires 0 <= i < |panel.days| => panel.days[i].date)
  }

  /** One Pareto candidate returned by the solver: its weights and Sharpe score. */
  datatype Candidate = Candidate(x: seq<real>, sharpe: real)

  /** What the model does not compute itself: the transcendental maths, the
      mean and covariance estimators over a window of return rows, and the
      evolutionary solver, which receives the problem and the repair operator. */
  datatype Oracle = Oracle(
    math: Numerics,
    mean: seq<seq<real>> -> seq<real>,
    covariance: seq<seq<real>> -> seq<seq<real>>,
    solve: (Problem, RepairConfig) -> seq<Candidate>)

  /** The ways a run stops early. */
  datatype SimError =
    | StartDateNotFound   // `all_dates.index(start_date)` raises
    | ShortWindow         // `assert len(sliced) == self.window_size` fails
    | NoCandidates        // `argmax` of an empty Sharpe vector raises
    | NoTargetAllocation  // rebalancing with `target_allocation is None`
    | ShapeMismatch       // target and price vectors of different lengths
    | ZeroAmount          // a zero portfolio value makes the allocation 0/0

  /** One history record. */
  datatype State = State(
    date: Date,
    amount: real,
    targetAllocation: Option<seq<real>>,
    allocation: seq<real>,
    unallocated: real,
    positions: seq<int>,
    cash: real)

  /** The constructor's parameters, the dataset already pivoted into a panel. */
  datatype Config = Config(
    panel: Panel,
    startDate: Date,
    initialAmount: real,
    windowSize: nat,
    rebalancingInterval: Option<int>,
    relocationInterval: Option<int>,
    initialTargetAllocation: Option<seq<real>>)

  // ================================================================ Python's list operations

  /** `list.index`: the first position holding `x`, if any. */
  function IndexOf(s: seq<Date>, x: Date): (r: Option<nat>)
    ensures r.Some? ==> r.value < |s| && s[r.value] == x && forall j :: 0 <= j < r.value ==> s[j] != x
    ensures r.None? ==> x !in s
  {
    if |s| == 0 then None
    else if s[0] == x then Some(0)
    else match IndexOf(s[1..], x)
      case None => None
      case Some(k) => Some(k + 1)
  }

  /** `s[i]` for `-|s| <= i < |s|`: a negative index counts from the end. */
  function PyIndex<T>(s: seq<T>, i: int): T
    requires -|s| <= i < |s|
  {
    if i < 0 then s[|s| + i] else s[i]
  }

  /** A slice bound as Python resolves it: negative counts from the end, then
      clamped into `[0, n]`. */
  function SliceBound(i: int, n: nat): (b: nat)
    ensures b <= n
  {
    if i < 0 then (if i + n < 0 then 0 else i + n) else if i > n then n else i
  }

  /** `s[start:stop]`. */
  function PySlice<T>(s: seq<T>, start: int, stop: int): seq<T> {
    var a, b := SliceBound(start, |s|), SliceBound(stop, |s|);
    if a < b then s[a..b] else []
  }

  /** `pivot.loc[:d]` on a date-sorted index: every row dated `d` or earlier. */
  function UpTo(days: seq<Day>, d: Date): seq<Day> {
    if |days| == 0 || days[|days| - 1].date <= d then days
    else UpTo(days[..|days| - 1], d)
  }

  // ================================================================ optimize_portfolio

  /** `pivot.loc[:current_date].iloc[-window_size-1:-1]` for the date of day `p`:
      exactly the `w` rows strictly before day `p`, or all `p` of them when
      fewer exist. */
  function Window(days: seq<Day>, p: nat, w: nat): (r: seq<Day>)
    requires Increasing(days) && p < |days|
    ensures w <= p ==> r == days[p - w..p]
    ensures p < w ==> r == days[..p]
  {
    UpToDate(days, p);
    PySlice(UpTo(days, days[p].date), -(w as int) - 1, -1)
  }

  lemma {:induction false} UpToDate(days: seq<Day>, p: nat)
    requires Increasing(days) && p < |days|
    ensures UpTo(days, days[p].date) == days[..p + 1]
    decreases |days|
  {
    if p < |days| - 1 {
      assert days[p].date < days[|days| - 1].date;
      var prefix := days[..|days| - 1];
      assert prefix[p] == days[p];
      UpToDate(prefix, p);
      assert prefix[..p + 1] == days[..p + 1];
    }
  }

  /** The return rows of a window, the input of the estimators. */
  function Returns(window: seq<Day>): seq<seq<real>> {
    seq(|window|, i requires 0 <= i < |window| => window[i].dailyReturns)
  }

  /** `PortfolioProblem(mu, cov)` for the window's estimated mean and covariance. */
  function ProblemFor(oracle: Oracle, window: seq<Day>): Problem {
    var rows := Returns(window);
    MakeProblem(oracle.mean(rows), oracle.covariance(rows), oracle.math)
  }

  function Sharpes(cands: seq<Candidate>): (s: seq<real>)
    ensures |s| == |cands| && forall i :: 0 <= i < |cands| ==> s[i] == cands[i].sharpe
  {
    seq(|cands|, i requires 0 <= i < |cands| => cands[i].sharpe)
  }

  /** numpy's `argmax`: the first position of a largest entry. */
  function FirstArgMax(s: seq<real>): (k: nat)
    requires |s| > 0
    ensures k < |s|
    ensures forall j :: 0 <= j < |s| ==> s[j] <= s[k]
    ensures forall j :: 0 <= j < k ==> s[j] < s[k]
  {
    if |s| == 1 then 0
    else
      var k := FirstArgMax(s[..|s| - 1]);
      if s[|s| - 1] > s[k] then |s| - 1 else k
  }

  /** Candidate `k` has the largest Sharpe score and no earlier one ties it. */
  ghost predicate BestAt(cands: seq<Candidate>, k: nat) {
    k < |cands| &&
    (forall j :: 0 <= j < |cands| ==> cands[j].sharpe <= cands[k].sharpe) &&
    (forall j :: 0 <= j < k ==> cands[j].sharpe < cands[k].sharpe)
  }

  /** `X[sharpe.argmax()]`. */
  function Select(cands: seq<Candidate>): (r: Result<seq<real>, SimError>)
    ensures r.Failure? <==> |cands| == 0
    ensures r.Failure? ==> r.error == NoCandidates
    ensures r.Success? ==> exists k: nat :: BestAt(cands, k) && r.value == cands[k].x
  {
    if |cands| == 0 then Failure(NoCandidates)
    else
      var k := FirstArgMax(Sharpes(cands));
      assert BestAt(cands, k);
      Success(cands[k].x)
  }

  /** `optimize_portfolio(current_date, prices, amount)` for day `p`. */
  function Relocate(cfg: Config, oracle: Oracle, p: nat, prices: seq<real>, amount: real): (r: Result<seq<real>, SimError>)
    requires WellFormed(cfg.panel) && p < |cfg.panel.days|
    ensures p < cfg.windowSize <==> r == Failure(ShortWindow)
    ensures cfg.windowSize <= p ==>
              r == Select(oracle.solve(ProblemFor(oracle, cfg.panel.days[p - cfg.windowSize..p]),
                                       RepairConfig(prices, amount)))
  {
    var sliced := Window(cfg.panel.days, p, cfg.windowSize);
    if |sliced| != cfg.windowSize then Failure(ShortWindow)
    else Select(oracle.solve(ProblemFor(oracle, sliced), RepairConfig(prices, amount)))
  }

  // ================================================================ rebalance and the day step

  /** `rebalance`: `(target_allocation * amount) // prices`. */
  function Rebalance(target: seq<real>, amount: real, prices: seq<real>): (r: seq<int>)
    requires |target| == |prices| && Positive(prices)
    ensures |r| == |prices|
    ensures forall i :: 0 <= i < |r| ==>
              prices[i] * r[i] as real <= target[i] * amount < prices[i] * (r[i] as real + 1.0)
  {
    var r := seq(|prices|, i requires 0 <= i < |prices| => SharesFor(target[i], prices[i], amount));
    forall i | 0 <= i < |r|
      ensures prices[i] * r[i] as real <= target[i] * amount < prices[i] * (r[i] as real + 1.0)
    {
      assert r[i] == SharesFor(target[i], prices[i], amount);
      SharesForBounds(target[i], prices[i], amount);
    }
    r
  }

  /** `np.floor(positions / adjust_factor)`: the share counts carried into the next day. */
  function Adjust(positions: seq<int>, factors: seq<real>): (r: seq<int>)
    requires |positions| == |factors| && Positive(factors)
    ensures |r| == |positions|
    ensures forall i :: 0 <= i < |r| ==>
              factors[i] * r[i] as real <= positions[i] as real < factors[i] * (r[i] as real + 1.0)
    ensures forall i :: 0 <= i < |r| && positions[i] >= 0 ==> r[i] >= 0
  {
    var r := seq(|positions|, i requires 0 <= i < |positions| => (positions[i] as real / factors[i]).Floor);
    forall i | 0 <= i < |r|
      ensures factors[i] * r[i] as real <= positions[i] as real < factors[i] * (r[i] as real + 1.0)
    {
      assert r[i] == (positions[i] as real / factors[i]).Floor;
      FloorDivision(positions[i] as real, factors[i]);
    }
    r
  }

  /** `prices * positions / amount`. */
  function Allocation(prices: seq<real>, positions: seq<int>, amount: real): (a: seq<real>)
    requires |prices| == |positions| && amount != 0.0
    ensures |a| == |prices|
  {
    seq(|prices|, i requires 0 <= i < |prices| => prices[i] * positions[i] as real / amount)
  }

  /** The record of a day valued at `amount` and holding `positions`: the
      allocation, the unallocated fraction and the cash they leave. */
  function Record(date: Date, prices: seq<real>, amount: real, target: Option<seq<real>>, positions: seq<int>)
    : State
    requires |prices| == |positions| && amount != 0.0
  {
    var allocation := Allocation(prices, positions, amount);
    var unallocated := 1.0 - Sum(allocation);
    State(date, amount, target, allocation, unallocated, positions, amount * unallocated)
  }

  /** `interval and index % interval == 0`: `None` and `0` both disable the step. */
  predicate Fires(interval: Option<int>, index: nat) {
    interval.Some? && interval.value != 0 && index % interval.value == 0
  }

  /** What the loop carries from one day to the next. */
  datatype Carry = Carry(positions: seq<int>, cash: real, target: Option<seq<real>>)

  function InitialCarry(cfg: Config): Carry {
    Carry(NoShares(|cfg.panel.tickers|), cfg.initialAmount * 1.0, cfg.initialTargetAllocation)
  }

  /** The seed record, dated at the date before the start date (`all_dates[k - 1]`,
      which for `k == 0` is the last date). */
  function Seed(cfg: Config, k: nat): State
    requires k < |cfg.panel.days|
  {
    var n := |cfg.panel.tickers|;
    State(PyIndex(Dates(cfg.panel), k as int - 1), cfg.initialAmount, cfg.initialTargetAllocation,
          NoWeights(n), 1.0, NoShares(n), cfg.initialAmount * 1.0)
  }

  /** The relocation step of day `p` (index `p - start` of the run). */
  function TargetFor(cfg: Config, oracle: Oracle, start: nat, p: nat, c: Carry, amount: real)
    : Result<Option<seq<real>>, SimError>
    requires WellFormed(cfg.panel) && start <= p < |cfg.panel.days|
  {
    if Fires(cfg.relocationInterval, p - start) then
      var r := Relocate(cfg, oracle, p, cfg.panel.days[p].prices, amount);
      if r.Failure? then Failure(r.error) else Success(Some(r.value))
    else Success(c.target)
  }

  /** The rebalancing step of day `p`. */
  function PositionsFor(cfg: Config, start: nat, p: nat, target: Option<seq<real>>, c: Carry, amount: real)
    : (r: Result<seq<int>, SimError>)
    requires WellFormed(cfg.panel) && start <= p < |cfg.panel.days|
    requires |c.positions| == |cfg.panel.tickers|
    ensures r.Success? ==> |r.value| == |cfg.panel.tickers|
  {
    var prices := cfg.panel.days[p].prices;
    if Fires(cfg.rebalancingInterval, p - start) then
      if target.None? then Failure(NoTargetAllocation)
      else if |target.value| != |prices| then Failure(ShapeMismatch)
      else Success(Rebalance(target.value, amount, prices))
    else Success(c.positions)
  }

  /** One iteration of the day loop: revalue, relocate, rebalance and record. */
  function Step(cfg: Config, oracle: Oracle, start: nat, c: Carry, p: nat): (r: Result<State, SimError>)
    requires WellFormed(cfg.panel) && start <= p < |cfg.panel.days|
    requires |c.positions| == |cfg.panel.tickers|
    ensures r.Success? ==> |r.value.positions| == |cfg.panel.tickers|
  {
    var day := cfg.panel.days[p];
    var amount := MarketValue(day.prices, c.positions) + c.cash;
    var target :- TargetFor(cfg, oracle, start, p, c, amount);
    var positions :- PositionsFor(cfg, start, p, target, c, amount);
    if amount == 0.0 then Failure(ZeroAmount)
    else Success(Record(day.date, day.prices, amount, target, positions))
  }

  /** Rolling a recorded day into the next: positions through the day's
      adjustment factors, cash and target as they stand. */
  function CarryAfter(st: State, day: Day): Carry
    requires |st.positions| == |day.adjust| && Positive(day.adjust)
  {
    Carry(Adjust(st.positions, day.adjust), st.cash, st.targetAllocation)
  }

  /** The records of days `p..` and the failure that stopped them, if any. */
  datatype Trace = Trace(records: seq<State>, failure: Option<SimError>)

  function Walk(cfg: Config, oracle: Oracle, start: nat, c: Carry, p: nat): Trace
    requires WellFormed(cfg.panel) && start <= p <= |cfg.panel.days|
    requires |c.positions| == |cfg.panel.tickers|
    decreases |cfg.panel.days| - p
  {
    if p == |cfg.panel.days| then Trace([], None)
    else match Step(cfg, oracle, start, c, p)
      case Failure(e) => Trace([], Some(e))
      case Success(st) =>
        var rest := Walk(cfg, oracle, start, CarryAfter(st, cfg.panel.days[p]), p + 1);
        Trace([st] + rest.records, rest.failure)
  }

  /** What `run` leaves behind: no history when the start date is missing,
      otherwise the seed, the records appended and the failure, if any. */
  datatype RunOutcome = NotStarted(error: SimError) | Ran(history: seq<State>, failure: Option<SimError>)

  function RunSpec(cfg: Config, oracle: Oracle): RunOutcome
    requires WellFormed(cfg.panel)
  {
    match IndexOf(Dates(cfg.panel), cfg.startDate)
    case None => NotStarted(StartDateNotFound)
    case Some(k) =>
      var t := Walk(cfg, oracle, k, InitialCarry(cfg), k);
      Ran([Seed(cfg, k)] + t.records, t.failure)
  }

  /** One successful day puts its record in front of the rest of the walk. */
  lemma WalkStepped(cfg: Config, oracle: Oracle, start: nat, c: Carry, p: nat, st: State)
    requires WellFormed(cfg.panel) && start <= p < |cfg.panel.days|
    requires |c.positions| == |cfg.panel.tickers|
    requires Step(cfg, oracle, start, c, p) == Success(st)
    ensures |st.positions| == |cfg.panel.tickers|
    ensures var rest := Walk(cfg, oracle, start, CarryAfter(st, cfg.panel.days[p]), p + 1);
            Walk(cfg, oracle, start, c, p) == Trace([st] + rest.records, rest.failure)
  {
  }

  /** Appending the record of a successful day to a history that, followed by
      the walk from that day, spells `whole` keeps that spelling. */
  lemma HistoryExtended(cfg: Config, oracle: Oracle, start: nat, c: Carry, p: nat, st: State,
                        history: seq<State>, whole: seq<State>)
    requires WellFormed(cfg.panel) && start <= p < |cfg.panel.days|
    requires |c.positions| == |cfg.panel.tickers|
    requires Step(cfg, oracle, start, c, p) == Success(st)
    requires history + Walk(cfg, oracle, start, c, p).records == whole
    ensures |st.positions| == |cfg.panel.tickers|
    ensures var next := Walk(cfg, oracle, start, CarryAfter(st, cfg.panel.days[p]), p + 1);
            (history + [st]) + next.records == whole &&
            next.failure == Walk(cfg, oracle, start, c, p).failure
  {
    WalkStepped(cfg, oracle, start, c, p, st);
    var next := Walk(cfg, oracle, start, CarryAfter(st, cfg.panel.days[p]), p + 1);
    assert (history + [st]) + next.records == history + ([st] + next.records);
  }

  /** A failing day ends the walk with that failure and no record. */
  lemma WalkStopped(cfg: Config, oracle: Oracle, start: nat, c: Carry, p: nat, e: SimError)
    requires WellFormed(cfg.panel) && start <= p < |cfg.panel.days|
    requires |c.positions| == |cfg.panel.tickers|
    requires Step(cfg, oracle, start, c, p) == Failure(e)
    ensures Walk(cfg, oracle, start, c, p) == Trace([], Some(e))
  {
  }

  /** The value of `Step` on each of its exits, stage by stage. */
  lemma StepExits(cfg: Config, oracle: Oracle, start: nat, c: Carry, p: nat)
    requires WellFormed(cfg.panel) && start <= p < |cfg.panel.days|
    requires |c.positions| == |cfg.panel.tickers|
    ensures var day := cfg.panel.days[p];
            var amount := MarketValue(day.prices, c.positions) + c.cash;
            var target := TargetFor(cfg, oracle, start, p, c, amount);
            var step := Step(cfg, oracle, start, c, p);
            (target.Failure? ==> step == Failure(target.error)) &&
            (target.Success? ==>
               var positions := PositionsFor(cfg, start, p, target.value, c, amount);
               (positions.Failure? ==> step == Failure(positions.error)) &&
               (positions.Success? && amount == 0.0 ==> step == Failure(ZeroAmount)) &&
               (positions.Success? && amount != 0.0 ==>
                  step == Success(Record(day.date, day.prices, amount, target.value, positions.value))))
  {
  }

  /** The body of `run`'s day loop for day `p`: revalue yesterday's positions,
      relocate and rebalance when their cadence fires, derive allocation,
      unallocated fraction and cash. */
  method Today(cfg: Config, oracle: Oracle, start: nat, p: nat,
               positions: seq<int>, cash: real, target: Option<seq<real>>)
    returns (outcome: Result<State, SimError>)
    requires WellFormed(cfg.panel) && start <= p < |cfg.panel.days|
    requires |positions| == |cfg.panel.tickers|
    ensures outcome == Step(cfg, oracle, start, Carry(positions, cash, target), p)
  {
    StepExits(cfg, oracle, start, Carry(positions, cash, target), p);
    var day := cfg.panel.days[p];
    var prices := day.prices;
    var amount := MarketValue(prices, positions) + cash;
    var targetAllocation := target;
    var newPositions := positions;

    if Fires(cfg.relocationInterval, p - start) {
      var relocated := Relocate(cfg, oracle, p, prices, amount);
      if relocated.Failure? {
        return Failure(relocated.error);
      }
      targetAllocation := Some(relocated.value);
    }
    assert TargetFor(cfg, oracle, start, p, Carry(positions, cash, target), amount) == Success(targetAllocation);

    if Fires(cfg.rebalancingInterval, p - start) {
      if targetAllocation.None? {
        return Failure(NoTargetAllocation);
      }
      if |targetAllocation.value| != |prices| {
        return Failure(ShapeMismatch);
      }
      newPositions := Rebalance(targetAllocation.value, amount, prices);
    }
    assert |newPositions| == |prices|;
    assert PositionsFor(cfg, start, p, targetAllocation, Carry(positions, cash, target), amount) == Success(newPositions);

    if amount == 0.0 {
      return Failure(ZeroAmount);
    }
    return Success(Record(day.date, prices, amount, targetAllocation, newPositions));
  }

  // ================================================================ the simulation object

  class Simulation {
    const panel: Panel
    const startDate: Date
    const initialAmount: real
    const windowSize: nat
    const rebalancingInterval: Option<int>
    const relocationInterval: Option<int>
    var initialTargetAllocation: Option<seq<real>>
    const tickers: seq<Ticker>
    var history: seq<State>

    ghost predicate Valid() {
      WellFormed(panel) && tickers == panel.tickers
    }

    function Settings(): Config
      reads this
    {
      Config(panel, startDate, initialAmount, windowSize, rebalancingInterval, relocationInterval,
             initialTargetAllocation)
    }

    constructor (panel: Panel, startDate: Date, initialAmount: real, windowSize: nat,
                 rebalancingInterval: Option<int>, relocationInterval: Option<int>,
                 initialTargetAllocation: Option<seq<real>>)
      requires WellFormed(panel)
      ensures Valid()
      ensures Settings() == Config(panel, startDate, initialAmount, windowSize, rebalancingInterval,
                                   relocationInterval, initialTargetAllocation)
      ensures tickers == panel.tickers && history == []
    {
      this.panel := panel;
      this.startDate := startDate;
      this.initialAmount := initialAmount;
      this.windowSize := windowSize;
      this.rebalancingInterval := rebalancingInterval;
      this.relocationInterval := relocationInterval;
      this.initialTargetAllocation := initialTargetAllocation;
      this.tickers := panel.tickers;
      this.history := [];
    }

    /** `run`: replays the days from the start date, appending one record per day. */
    method Run(oracle: Oracle) returns (failure: Option<SimError>)
      requires Valid()
      modifies this`history
      ensures match RunSpec(Settings(), oracle)
              case NotStarted(e) => history == old(history) && failure == Some(e)
              case Ran(h, f) => history == h && failure == f
    {
      var cfg := Settings();
      var found := IndexOf(Dates(panel), startDate);
      if found.None? {
        return Some(StartDateNotFound);
      }
      var start := found.value;
      var n := |tickers|;
      ghost var whole := Walk(cfg, oracle, start, InitialCarry(cfg), start);

      var amount := initialAmount;
      var target := initialTargetAllocation;
      var allocation := NoWeights(n);
      var unallocated := 1.0;
      var positions := NoShares(n);
      var cash := amount * unallocated;
      history := [State(PyIndex(Dates(panel), start as int - 1), amount, target, allocation,
                        unallocated, positions, cash)];
      assert history[0] == Seed(cfg, start);

      var p := start;
      ghost var rest := whole;
      while p < |panel.days|
        invariant start <= p <= |panel.days|
        invariant |positions| == n
        invariant rest == Walk(cfg, oracle, start, Carry(positions, cash, target), p)
        invariant history + rest.records == [Seed(cfg, start)] + whole.records
        invariant rest.failure == whole.failure
        decreases |panel.days| - p
      {
        var today := Today(cfg, oracle, start, p, positions, cash, target);
        if today.Failure? {
          WalkStopped(cfg, oracle, start, Carry(positions, cash, target), p, today.error);
          return Some(today.error);
        }
        var st := today.value;
        HistoryExtended(cfg, oracle, start, Carry(positions, cash, target), p, st,
                        history, [Seed(cfg, start)] + whole.records);
        history := history + [st];
        positions, cash, target := Adjust(st.positions, panel.days[p].adjust), st.cash, st.targetAllocation;
        rest := Walk(cfg, oracle, start, Carry(positions, cash, target), p + 1);
        p := p + 1;
      }
      return None;
    }
  }
}
