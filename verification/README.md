# Moving-average crossover backtester, in Dafny

This project models the algorithmic core of a small crypto-trading bot:

- **Rolling** — the trailing simple moving average that `Series.rolling(window=w).mean()`
  computes in both backtesting scripts. A value is undefined (NaN, here `None`) until its window is full.
- **Backtest** — `backtest_strategy`. It is a single pass over the closes with an account of
  cash (`balance`) and quantity held (`position`), and the initial balance is hard-coded at 10000.
  The pass skips index 0 and any index where an average is undefined. If the short average
  exceeds `long * (1 + buy_threshold)`, it buys with the whole balance when flat and does nothing
  when holding. Only when the short average is not above that band, whatever the position, is the
  sell test reached: if the short average is below `long * (1 - sell_threshold)` and a position is
  held, it sells everything.
  At the end, if a position is still held, it sells it at the last close ("Final Sell"), and the
  profit is `balance - 10000`.
- **Optimizer** — `optimize_strategy`. It is an exhaustive search over the fixed 3×3×3×3 grid
  short ∈ [5, 10, 20], long ∈ [20, 50, 100], buy ∈ [0.01, 0.02, 0.03] and sell ∈ [0.01, 0.03, 0.05],
  visited in nested-loop order. It uses a strict `profit > best_profit` update against a running best
  that starts at minus infinity, so the first maximum wins.
- **StrategyTester** — the vectorised evaluator. It turns the averages into a signal in {-1, 0, 1}
  (NaN comparisons are false). The return at each step is the previous step's signal times the
  relative price change, and the returns are summed. The trade count is half the total absolute
  change of the signal, rounded down. Each pandas step (`shift`, `pct_change`, `diff`, NaN-skipping
  `sum`) is its own function, and lemmas tie the pipeline to closed formulas.
- **TradeExecution** — `place_order`, a decision table for mock orders, and the scripted
  `mock_trading` session.

Prices are exact `real`s and are required to be positive. The simulator divides by the close,
and so does `pct_change`. Undefined averages are `Option<real>`. Because the arithmetic is exact,
the final balance is exactly 10000 times the product, over the round trips, of exit price over
entry price (`Backtest.Growth`).

The main invariant (`Backtest.Invariant`) holds after every index. Either the account is flat with
positive cash and an even-length history, or it holds a positive position with zero cash and an
odd-length history. The history alternates Buy, Sell, Buy, …, and the capital equals the initial
balance compounded over the completed round trips.

The model keeps these behaviours of the code:
- On an empty grid the search returns `None` (`Optimizer.Optimize`).
- A trade records only its action and its price, as the logged strings do.
- Non-positive or non-finite closes raise no error; the model requires positive closes
  (`Rolling.PositivePrices`). An average series shorter than the closes makes `.iloc[i]` raise
  `IndexError` (`scripts/backtest_mac.py` line 27); the model requires both averages to be as long as
  the closes (`Backtest.Aligned`), which every caller passes.
- Grid points with `short_window >= long_window`, such as (20, 20), are run like any other.

## Model

| member | source | states |
|---|---|---|
| Rolling.WindowSum | scripts/backtest_mac.py:13-14 | the incrementally maintained rolling sum equals the sum of the closes in the trailing window ending at `i` |
| Rolling.RollingMean | scripts/backtest_mac.py:11-15 | output as long as the input; value at `i` undefined exactly when `i < w - 1`, otherwise the mean of `close[i-w+1..i]` |
| Backtest.Step | scripts/backtest_mac.py:25-42 | index 0 or an undefined average leaves the account unchanged; at most one trade is appended, at `close[i]`; a Buy happens exactly when flat and above the buy band; a Sell happens exactly when holding, not above the buy band (the `elif`) and below the sell band |
| Backtest.BuyKeepsInvariant | scripts/backtest_mac.py:31-35 | moving the whole balance into the position at a positive price keeps the holding invariant |
| Backtest.CloseOut | scripts/backtest_mac.py:39-41 | selling the whole position returns the initial balance compounded over every round trip, the new one included |
| Backtest.SellKeepsInvariant | scripts/backtest_mac.py:38-42 | selling the whole position keeps the holding invariant |
| Backtest.StepKeepsInvariant | scripts/backtest_mac.py:21-42 | every index preserves flat-with-cash or holding-with-no-cash, alternation of the history, and balance = 10000 × product of round-trip ratios |
| Backtest.Run | scripts/backtest_mac.py:25-42 | after `n` indices at most `n` trades have been logged |
| Backtest.RunKeepsInvariant | scripts/backtest_mac.py:20-42 | the holding invariant holds after every prefix of the loop |
| Backtest.LiquidatedLogShape | scripts/backtest_mac.py:45-47 | appending a Final Sell at the last close to a history that ends holding gives an even history whose only Final Sell is last |
| Backtest.Liquidate | scripts/backtest_mac.py:44-47 | a flat account is returned unchanged; a holding one becomes exactly the sale of its whole position at the last close, logged as Final Sell; afterwards the position is 0 and cash positive; balance = 10000 × product of round-trip ratios; a Final Sell is last, at the last close, and occurs iff the loop ended holding |
| Backtest.Backtest | scripts/backtest_mac.py:18-50 | the trades are the loop's log plus a Final Sell at the last close iff the loop ended holding; the profit is the loop's cash (or its position valued at the last close) minus 10000; profit = 10000 × Π(sell/buy) − 10000 > −10000; trades alternate Buy / sale; a Final Sell only last, at the last close, iff the loop ended holding |
| Backtest.AllSkippedKeepsOpening | scripts/backtest_mac.py:25-28 | a run of skipped indices leaves the opening account (10000 cash, no position, empty log) unchanged |
| Backtest.ShortSeriesNoTrades | scripts/backtest_mac.py:25-49 | a series shorter than either window (the empty series included) gives no trades and profit 0 |
| Backtest.TradingLoop | scripts/backtest_mac.py:20-42 | the imperative loop, statement for statement, ends in exactly the account the functional fold computes |
| Backtest.BacktestStrategy | scripts/backtest_mac.py:18-50 | the imperative function returns exactly the functional model's trade history and profit, and profit > −10000 |
| Backtest.ExampleShortAverages | scripts/backtest_mac.py:13 | the 2-close means of [100, 102, 101, 105, 110, 108, 120] |
| Backtest.ExampleLongAverages | scripts/backtest_mac.py:14 | the 3-close means of the same series |
| Backtest.ExampleRun | scripts/backtest_mac.py:25-42 | on that series the loop buys once, at 101, and then holds to the end |
| Backtest.CrossoverExample | scripts/backtest_mac.py:18-50 | on that series with windows 2 and 3 and zero thresholds: Buy at 101, Final Sell at 120, profit 190000/101 |
| Optimizer.Pairs | scripts/backtest_mac.py:59-62 | the product of two candidate lists has |xs|·|ys| entries, each drawn from the two lists |
| Optimizer.PairsAt | scripts/backtest_mac.py:59-62 | the pair (xs[i], ys[j]) is visited at step i·|ys| + j, the order of two nested loops |
| Optimizer.Grid | scripts/backtest_mac.py:59-62 | 81 grid points, each with positive windows |
| Optimizer.GridAt | scripts/backtest_mac.py:59-62 | grid point 27a + 9b + 3c + d is (short[a], long[b], buy[c], sell[d]) |
| Optimizer.GridOrder | scripts/backtest_mac.py:59-62 | all 81 points are visited in nested order short → long → buy → sell |
| Optimizer.Scan | scripts/backtest_mac.py:55-68 | the left-to-right scan with a strict `>` against a running best starting at −∞ ends at the first index of the maximum profit, and at −∞ / None only for no trials |
| Optimizer.Optimize | scripts/backtest_mac.py:53-71 | no result iff the grid is empty; otherwise a grid point at the first index of maximum profit |
| Optimizer.OptimizeFirstBest | scripts/backtest_mac.py:63-68 | the point found has profit ≥ every grid point's and > every earlier grid point's |
| Optimizer.OptimizeStrategy | scripts/backtest_mac.py:53-71 | over the fixed grid a point is always found (never `None`), and it belongs to the grid |
| Optimizer.OptimizeStrategyFirstBest | scripts/backtest_mac.py:53-71 | over the fixed grid the point found is a maximum, strictly better than every earlier point (first maximum wins) |
| StrategyTester.CalculateMovingAverages | scripts/strategy_tester.py:18-22 | both columns as long as the series, undefined exactly during warm-up, otherwise the trailing-window mean |
| StrategyTester.DefaultMovingAverages | scripts/strategy_tester.py:18 | with the default windows 20 and 100 the short average is undefined before index 19 and the long one before index 99 |
| StrategyTester.GenerateSignals | scripts/strategy_tester.py:26-31 | signal ∈ {−1, 0, 1}; 1 iff both averages defined and short > long; −1 iff both defined and short < long; 0 iff an average is undefined or they are equal |
| StrategyTester.Shift | scripts/strategy_tester.py:37 | the position at step `i` is the signal of step `i − 1`; step 0 has none |
| StrategyTester.NanAbsSum | scripts/strategy_tester.py:40 | the NaN-skipping sum of absolute changes is never negative |
| StrategyTester.SimulateTrades | scripts/strategy_tester.py:35-41 | the trade count is never negative |
| StrategyTester.ReturnsPipeline | scripts/strategy_tester.py:37-39 | shift, pct_change, product and NaN-skipping sum give Σ_{i=1}^{n−1} signal[i−1]·(close[i]/close[i−1] − 1) |
| StrategyTester.ChangesPipeline | scripts/strategy_tester.py:40 | diff, abs and NaN-skipping sum give Σ_{i=1}^{n−1} abs(signal[i] − signal[i−1]) |
| StrategyTester.SimulateTradesClosedForm | scripts/strategy_tester.py:35-41 | total returns = the lagged-return sum (0 when n ≤ 1); trades = ⌊(sum of absolute signal changes) / 2⌋ |
| StrategyTester.ChangeSumBound | scripts/strategy_tester.py:40 | with signals in {−1, 0, 1} the absolute changes over n steps total between 0 and 2(n − 1) |
| StrategyTester.TradeCountBound | scripts/strategy_tester.py:40-41 | 0 ≤ num_trades ≤ n − 1 |
| StrategyTester.FlatSignalEarnsNothing | scripts/strategy_tester.py:37-41 | an all-zero signal earns 0 and changes 0 times |
| StrategyTester.ShortSeriesNoTrades | scripts/strategy_tester.py:18-41 | a series shorter than the long window gives total returns 0 and 0 trades |
| TradeExecution.PlaceOrder | scripts/trade_execution.py:13-23 | success iff side is exactly 'buy' or 'sell', symbol exactly 'BTC/USDT' and amount > 0; success carries 'mock_order_id', every failure 'Invalid parameters' |
| TradeExecution.PriceIgnored | scripts/trade_execution.py:13-23 | the price argument never changes the response |
| TradeExecution.BuySellSymmetric | scripts/trade_execution.py:15-20 | buy and sell of the same symbol and amount get the same response |
| TradeExecution.UpperCaseSideRejected | scripts/trade_execution.py:15-23 | 'BUY' and 'SELL' are rejected: sides are matched case-sensitively |
| TradeExecution.MockTrading | scripts/trade_execution.py:26-47 | the scripted buy and sell of 0.01 BTC/USDT both succeed |

## Left out

- Plotting (`plot_data_with_indicators`, `plot_strategy`) and the Matplotlib backend selection: rendering only.
- The `__main__` blocks: random synthetic prices from `np.random`, CSV loading and timestamp parsing (`load_data`), and all `print` output, including the optimiser's report of the best parameters.
- DataFrame column mutation: every column is a pure sequence here. `backtest_strategy` reads only the closes, so trials do not interfere with each other.
- Trade-history strings (`"Buy at …"`): a trade is the datatype `Trade(action, price)`.
- IEEE floating point: prices, averages and thresholds are exact reals. Rounding, infinities and NaN propagation beyond "undefined average" are not modelled, and a threshold such as 0.01 is the exact decimal.
- Non-positive prices: the simulator and `pct_change` divide by the close, so positive closes are a precondition.
- Rolling.RollingMean: window widths below 1 are excluded by precondition. pandas rejects negative widths, and the code only ever uses positive ones.
- Logging in `trade_execution.py`: the file handler and every `logging` call. Non-numeric `amount` values, which would make the Python comparison raise, are not modelled either.
- The data fetcher (exchange client, normalisation), the machine-learning script (download, RSI/MACD, classifier) and the dashboard (Flask wiring, SMTP): I/O and glue outside the core.
