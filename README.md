# Walk-forward portfolio backtest and share-lot repair, in Dafny

This project models the core of a portfolio backtesting system. Two pieces of
Python make up that core.

- `Simulation` (src/simulation.py) replays a date-sorted panel of daily
  returns, prices and corporate-action adjustment factors from a start date.
  Each day it does the following, in order:
  - revalues the carried positions at the day's prices and adds the cash;
  - on relocation days, asks a multi-objective optimiser for candidate
    allocations over a trailing window and picks the one with the best Sharpe
    score;
  - on rebalancing days, converts the target allocation into whole shares;
  - derives the allocation, the unallocated fraction and the cash, and appends
    one record to an append-only history;
  - rolls the positions through the day's adjustment factors.
- `PortfolioRepair._do` (src/optimization.py) projects every candidate weight
  row onto whole-share allocations the budget can pay for. `PortfolioProblem`
  defines the optimiser's box, objectives and Sharpe score.

Money and weights are exact `real` numbers, and share counts are `int`. Python's
floor division is `.Floor` on reals. The optimiser, the mean and covariance
estimators, and `exp`, `log` and `sqrt` are function values in an `Oracle` /
`Numerics` datatype, so the model never interprets them.

The project has five modules:
- `Wrappers`: `Option` and `Result`.
- `Vectors`: `Sum`, `MarketValue`, `Dot` and floor-division facts.
- `Optimization`: the problem and the repair operator.
- `Backtest`: the panel, the window slice, the argmax selection, `rebalance`,
  the positions adjustment, the day step, and the `Simulation` class.
- `BacktestProofs`: the properties of a run.

The `run` method is imperative. `Backtest.Simulation.Run` loops over the days
and reassigns the positions, cash and target. It appends to the `history`
field. Its contract ties the final history to a pure specification:
- `Step` is one day;
- `Walk` is the remaining days;
- `RunSpec` is the seed record plus the walk.

`Backtest.Today` is the loop body, proved equal to `Step`. The lemmas in
`BacktestProofs` then state, record by record, what every history satisfies.

A day that makes `run` raise becomes a `SimError`. `run` raises midway and
keeps the records it has appended, so a failed run keeps its partial history.
The raising cases are:
- a start date not in the data (`list.index`);
- a short window (the `assert` in `optimize_portfolio`);
- an empty candidate set (`argmax` of an empty vector);
- rebalancing without a target (`None * amount`);
- a target whose length does not match the prices.

One more `SimError`, `ZeroAmount`, is the model's own stop. A day whose
portfolio is worth exactly zero makes the allocation `0/0`; numpy only warns
there and carries NaN and infinity on to the last day, while the model ends
the run with `ZeroAmount`.

Some of the code's behaviour is easy to misread, and the model states it as
written:
- **Repair is not idempotent.** Repair renormalises a row that ends below full
  investment back up, so a second pass over its own output can buy more
  shares. `Optimization.RepairNotIdempotent` proves a counterexample.
- **No covariance-estimator choice.** The constructor has no parameter that
  selects the covariance estimator, and the model has none either.
- **A missing initial target is accepted.** With relocation off and no initial
  target, the constructor succeeds; the run fails only when a rebalancing day
  needs the target. `BacktestProofs.MissingTargetStopsRun` shows the run
  stopping on the first day. With rebalancing off too, the run completes.
- **The seed record may carry the last date.** The seed record is dated
  `all_dates[start_date_index - 1]`, which for a run starting on the first
  date is the last date of the data. `BacktestProofs.SeedRecord` states this.
- **Rebalancing does not check the budget.** `rebalance` rounds down, so it
  never spends more than `sum(target) * amount`
  (`BacktestProofs.RebalanceWithinBudget`), but nothing checks that the target
  sums to at most 1. Cash stays non-negative on a rebalancing day only when it
  does and the day's value is positive (`BacktestProofs.RebalancingKeepsCash`).

## Model

| member | source | states |
|---|---|---|
| Backtest.IndexOf | src/simulation.py:65 | `all_dates.index(start_date)`: the first position holding the date, and none exactly when the date is absent |
| Backtest.UpToDate | src/simulation.py:39 | `.loc[:current_date]` on the date-sorted panel is the prefix of rows up to and including the current day |
| Backtest.Window | src/simulation.py:39 | the slice `iloc[-window_size-1:-1]` of that prefix is exactly the `window_size` rows strictly before the current day, or all earlier rows when fewer exist |
| Backtest.Relocate | src/simulation.py:38-56 | `optimize_portfolio` fails with `ShortWindow` exactly when fewer than `window_size` earlier rows exist; otherwise it is the selection over the solver's candidates for the problem of exactly those rows, with the repair configured by the day's prices and amount |
| Backtest.FirstArgMax | src/simulation.py:55 | `argmax`: an index whose entry is at least every entry and strictly greater than every earlier one (the first maximum on ties) |
| Backtest.Select | src/simulation.py:53-56 | no candidates gives `NoCandidates` and only then; otherwise the weights of a candidate with the largest Sharpe score that no earlier candidate ties |
| Backtest.Rebalance | src/simulation.py:58-61 | one whole share count per ticker with `price_i * r_i <= target_i * amount < price_i * (r_i + 1)`, which characterises floor division |
| Backtest.Adjust | src/simulation.py:115-117 | the carried count is `floor(positions_i / factor_i)`: `factor_i * r_i <= positions_i < factor_i * (r_i + 1)`, and non-negative positions stay non-negative |
| Backtest.WalkStepped | src/simulation.py:84-117 | proof step unfolding `Walk`: a successful day puts its record in front of the walk from the next day, started from the record's positions rolled through the day's factors, its cash and its target |
| Backtest.HistoryExtended | src/simulation.py:105-117 | appending a successful day's record to the history keeps "history followed by the remaining walk" equal to the whole run |
| Backtest.WalkStopped | src/simulation.py:84-99 | proof step unfolding `Walk`: a failing day ends the run with that failure and appends no record |
| Backtest.StepExits | src/simulation.py:85-113 | proof step unfolding `Step`: the day's outcome on each exit: the relocation's failure, the rebalancing's failure, `ZeroAmount`, or the record built from the revalued amount, the chosen target and the chosen positions |
| Backtest.Today | src/simulation.py:85-113 | the body of the day loop, written as statements, yields exactly the day step `Step` for the carried positions, cash and target |
| Backtest.Simulation.constructor | src/simulation.py:9-36 | the object keeps its parameters, the panel's ticker order and an empty history |
| Backtest.Simulation.Run | src/simulation.py:63-117 | a missing start date leaves the history untouched and reports `StartDateNotFound`; otherwise the history becomes the seed record followed by one record per simulated day, and the failure is the one that stopped the run, if any |
| BacktestProofs.StepChoices | src/simulation.py:89-99 | proof step unfolding `Step`: a recorded day's amount is `prices @ positions + cash` of the carry, and its target and positions are what the two cadence steps chose |
| BacktestProofs.StepRecord | src/simulation.py:89-113 | proof step unfolding `Step`: a recorded day has a non-zero amount and one position per price, and its record is built from them |
| BacktestProofs.StepRecordsState | src/simulation.py:89-113 | a recorded day carries the day's date, is worth the carry at today's prices, and keeps the allocation and cash identities |
| BacktestProofs.RecordIdentities | src/simulation.py:101-103 | a record built as the loop builds it has `allocation_i * amount == price_i * positions_i`, `unallocated == 1 - sum(allocation)`, `cash == amount * unallocated` and `amount == prices @ positions + cash` |
| BacktestProofs.AllocationHoldings | src/simulation.py:101 | each entry of `prices * positions / amount`, times the amount, is that ticker's holding value |
| BacktestProofs.AllocationValue | src/simulation.py:101-102 | the allocation sums to the market value over the amount |
| BacktestProofs.CashIdentity | src/simulation.py:102-103 | `cash = amount * (1 - sum(allocation))` is what the holdings leave of the amount |
| BacktestProofs.StepCadence | src/simulation.py:91-99 | when a cadence does not fire, the target (respectively the positions) carries over unchanged; relocation needs a full window and installs the best candidate; rebalancing sets the positions to the target bought in whole shares |
| BacktestProofs.ShortWindowAborts | src/simulation.py:39-40 | a relocation due on a day with fewer than `window_size` earlier rows fails the day with `ShortWindow` |
| BacktestProofs.StepFollows | src/simulation.py:85-113 | every recorded day satisfies `Follows`: date, revaluation, identities and both cadence rules, stated without the step |
| BacktestProofs.WalkShape | src/simulation.py:84-113 | the run never records past the last day, reaches it exactly when nothing failed, and every record has one position per ticker |
| BacktestProofs.WalkRecord | src/simulation.py:84-117 | record `j` of the walk follows from the carry record `j - 1` leaves, or from the walk's own carry for the first record |
| BacktestProofs.StartIndex | src/simulation.py:64-65 | on a date-sorted panel the start date is found at the row that carries it |
| BacktestProofs.RunNeedsStartDate | src/simulation.py:64-65 | the run refuses to start, with `StartDateNotFound`, exactly when the start date is not a date of the data |
| BacktestProofs.HistoryIsWalk | src/simulation.py:63-117 | proof step unfolding `RunSpec`: a run from row `k` leaves the seed followed by the walk from day `k` with the initial carry |
| BacktestProofs.HistoryShape | src/simulation.py:75-113 | the history holds the seed and at most one record per day from the start date; it has exactly `1 + number of simulated dates` records when nothing failed, and only then |
| BacktestProofs.HistoryRecordFollows | src/simulation.py:84-117 | every record after the seed follows from the carry it was stepped from |
| BacktestProofs.SeedRecord | src/simulation.py:68-83 | the seed is dated `all_dates[k - 1]` (the last date when `k == 0`), with the initial amount all in cash, no shares, no allocation, `unallocated == 1` and the initial target |
| BacktestProofs.RecordState | src/simulation.py:101-113 | every record after the seed has its day's date and keeps the allocation and cash identities with that day's prices |
| BacktestProofs.RecordRevaluation | src/simulation.py:89-117 | each day's amount is the previous record's positions rolled through the previous day's factors, at today's prices, plus the previous cash; the first day is worth the initial amount |
| BacktestProofs.RecordRelocation | src/simulation.py:91-96 | the target changes only on days with `index % relocation_interval == 0`, and then it is the best candidate for a full window |
| BacktestProofs.RecordRebalancing | src/simulation.py:98-99 | the positions change only on days with `index % rebalancing_interval == 0`, and then they are the target bought in whole shares with that day's amount and prices |
| BacktestProofs.RebalanceWithinBudget | src/simulation.py:58-61 | the whole shares `rebalance` buys are worth at most `sum(target) * amount`, for any target |
| BacktestProofs.RebalancedCash | src/simulation.py:98-103 | a consistent record whose positions are its target bought with its positive amount has non-negative cash when the target sums to at most 1 |
| BacktestProofs.RebalancingKeepsCash | src/simulation.py:98-103 | on a rebalancing day with a positive value and a target summing to at most 1, the recorded cash is not negative: no leverage |
| BacktestProofs.StaticTarget | src/simulation.py:91-96 | with relocation disabled (`None` or `0`), every record keeps the initial target |
| BacktestProofs.AllCashWithoutRebalancing | src/simulation.py:98-117 | with rebalancing disabled, every record holds no shares and has the initial amount as both value and cash |
| BacktestProofs.CashDay | src/simulation.py:89-117 | without rebalancing, a cash-only record is followed by another cash-only record of the same value |
| BacktestProofs.AdjustKeepsNoShares | src/simulation.py:115-117 | rolling zero positions through any positive factors leaves zero positions |
| BacktestProofs.CashOnlyRecord | src/simulation.py:101-103 | a record whose holdings are worth nothing has all of its amount in cash |
| BacktestProofs.ShortWindowStopsRun | src/simulation.py:39-40 | a run that relocates on its first day, with fewer than `window_size` earlier rows, stops with only the seed recorded |
| BacktestProofs.MissingTargetStopsRun | src/simulation.py:98-99 | a run that rebalances on its first day with no initial target and relocation disabled stops with only the seed recorded |
| Vectors.WeightsOfHoldings | src/simulation.py:101-102 | weights `price_i * shares_i / total` sum to the market value over `total` |
| Vectors.FloorDivision | src/simulation.py:60 | `v // p` for a positive `p` is the largest whole multiple of `p` not above `v` |
| Optimization.Evaluate | src/optimization.py:13-19 | two objectives, risk `sqrt(x' C x)` and minus the log return; `sharpe * risk == return`; the return is `log(1 + excess growth)` |
| Optimization.CashResidual | src/optimization.py:14 | the cash term `1 - sum(x)` turns `x @ exp(mu)` into one plus the weighted excess of each gross return over 1 |
| Optimization.AllCashGrowsByOne | src/optimization.py:14 | an all-cash candidate has gross growth exactly 1, whatever the expected returns |
| Optimization.RepairPopulation | src/optimization.py:28-34 | unaffordable entries of `X` are zeroed in place and nothing else in `X` changes; every row is repaired independently of the others, and the shape is kept |
| Optimization.SharesForBounds | src/optimization.py:33-34 | `(w * total) // price` is the largest whole number of shares whose cost does not exceed `w * total` |
| Optimization.LotWeightSpends | src/optimization.py:34 | a weight re-expressed from whole shares spends exactly those shares |
| Optimization.RoundDownBounds | src/optimization.py:33-34 | rounding a non-negative weight down to whole shares gives a non-negative count and a weight between 0 and the original |
| Optimization.WholeLotRoundTrip | src/optimization.py:33-34 | converting whole shares to a weight and back gives the same shares |
| Optimization.RenormalizedRow | src/optimization.py:31-32 | a row with a non-zero sum is renormalised to sum 1, and an all-zero-sum row is divided by 1 and stays as it is |
| Optimization.UnaffordableGetsNothing | src/optimization.py:29-34 | a ticker whose money `x_i * total` is below its price ends with no shares and weight 0 |
| Optimization.RepairWholeLots | src/optimization.py:33-34 | every repaired weight times the total is a whole multiple of the ticker's price |
| Optimization.ToLotsSpend | src/optimization.py:33-34 | each rounded weight times the total is the cost of its whole shares |
| Optimization.RepairBounds | src/optimization.py:29-34 | for a non-negative row, `0 <= output_i <= x'_i`, where `x'` is the renormalised row, and the share counts are non-negative |
| Optimization.RepairSumAtMostOne | src/optimization.py:31-34 | a non-negative row is repaired into weights summing to at most 1 |
| Optimization.RepairRowIsLots | src/optimization.py:34 | proof step unfolding `RepairRow`: each repaired weight is `price_i * shares_i / total` |
| Optimization.RepairWithinBudget | src/optimization.py:29-34 | the shares a repaired non-negative row stands for never cost more than `total_investing_amount` |
| Optimization.RepairStaysInBox | src/optimization.py:28-34 | a repaired non-negative row lies in the problem's `[0, 1]` box on `len(mu)` variables |
| Optimization.WholeLotAffordable | src/optimization.py:29-30 | a non-negative whole-share weight either is 0 or pays for at least one share, so the affordability filter keeps it |
| Optimization.RepairKeepsWholeLotRows | src/optimization.py:28-34 | a fully invested row of whole-share weights is left unchanged, shares and weights |
| Optimization.RepairNotIdempotent | src/optimization.py:28-34 | with prices 3 and 1 and total 10, `[0.5, 0.5]` repairs to `[0.3, 0.5]` and that repairs to `[0.3, 0.6]` |

## Left out

- Dataset preparation is not modelled: the `sort_values`, `pivot_table`, `to_datetime` and per-day `set_index`/`loc` lookups (src/simulation.py:20, 27-35, 85-88). The model receives the panel already pivoted: one row per date, sorted by date, with prices, returns and adjustment factors aligned to the ticker order (`WellFormed`).
- The evolutionary search (pymoo `SMSEMOA` and `minimize`, src/simulation.py:45-51) is not modelled, because it is a foreign library. It is the oracle `solve`, which receives the problem and the repair configuration. Its candidate list is unconstrained; an empty one is the `NoCandidates` failure.
- The mean and covariance estimators (src/simulation.py:41-42) are oracle functions of the window's return rows, because they are library floating-point numerics.
- `exp`, `log` and `sqrt` in `PortfolioProblem` are uninterpreted functions, because they are transcendental floating-point maths.
- `tqdm` progress reporting (src/simulation.py:84) is left out, because it does not affect the results.
- The statement `F = F * [1, -1]` (src/simulation.py:54) is left out, because its result is never used.
- Floating-point rounding is not modelled; all arithmetic is exact.
- NaN and infinity are not modelled. Where numpy would record NaN or infinity and carry on after a zero portfolio value, the model stops with `ZeroAmount`.
- Evaluate: requires a non-zero risk. With zero risk numpy's Sharpe score is infinite or NaN, and exact reals have no such value.
- Backtest.Select: scores are exact reals, so the selection cannot rank NaN or infinity. The source can produce them: repair returns the all-zero row when no ticker affords one share, and `_evaluate` then scores it `log(1)/sqrt(0)`, NaN; a zero-variance candidate scores plus or minus infinity. numpy's `argmax` returns the first NaN and ranks plus infinity above every finite score, so in the source such a candidate, when the optimiser returns one, wins the selection. The model picks the first largest real score instead.
- BacktestProofs.RebalancingKeepsCash: requires a positive day value and a target summing to at most 1, because `rebalance` checks neither; with a negative value or an over-invested target the cash can go negative.
- Rebalancing with a target of a different length than the prices fails with `ShapeMismatch`. numpy would broadcast a length-1 target, and the model does not.
- Optimization.RepairPopulation: returns the repaired population as a sequence of rows rather than a new numpy array. The unused `problem` argument of `_do` is dropped.
- Backtest.Today: the body of `run`'s day loop is a separate method, so that `Run` stays a plain loop over the days. The history is still appended to by `Run` itself.
- The `simulations/*/run.py` scripts are left out, because they are only I/O and orchestration: CSV loading, output writing and parallel sweeps over start dates.
- No covariance-estimator parameter is modelled, because the constructor of `Simulation` has none (src/simulation.py:10-19).
- Positions are whole numbers (`int`) throughout. numpy holds them as integers before the first rebalance and as whole-valued floats after the floor.
