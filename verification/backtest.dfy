/** The moving-average crossover simulator of `backtest_strategy`: a single pass
    over the closes that moves the whole balance into a position when the short
    average rises above the long one by the buy threshold, moves it back to cash
    when it falls below by the sell threshold, and liquidates at the last close
    if still holding. */
module Backtest {
  import opened Wrappers
  import Rolling

  /** Hard-coded starting cash of every simulation. */
  const InitialBalance: real := 10000.0

  datatype Action = Buy | Sell | FinalSell

  /** One entry of the trade history: what happened and at which close. */
  datatype Trade = Trade(action: Action, price: real)

  /** The simulator's state: cash, quantity held, and the trade history so far. */
  datatype Account = Account(balance: real, position: real, log: seq<Trade>)

  datatype BacktestResult = BacktestResult(trades: seq<Trade>, profit: real)

  /** State before the first index is looked at. */
  const Opening: Account := Account(InitialBalance, 0.0, [])

  /** Both averages are columns of the same frame as the closes. */
  predicate Aligned(close: seq<real>, shortMa: seq<Option<real>>, longMa: seq<Option<real>>)
  {
    |shortMa| == |close| && |longMa| == |close|
  }

  /** Index `i` is passed over: it is the first one or an average is undefined there. */
  predicate Skipped(shortMa: seq<Option<real>>, longMa: seq<Option<real>>, i: nat)
    requires i < |shortMa| && i < |longMa|
  {
    i == 0 || shortMa[i].None? || longMa[i].None?
  }

  predicate PricedPositively(log: seq<Trade>)
  {
    forall k :: 0 <= k < |log| ==> log[k].price > 0.0
  }

  /** Exit price over entry price of one round trip (0 for a non-positive entry,
      which a history of this model never contains). */
  function Ratio(exit: real, entry: real): real
  {
    if entry > 0.0 then exit / entry else 0.0
  }

  /** Product over the round trips of exit price over entry price. The recursion pairs
      the last two entries, so on the even-length histories it is applied to (a flat
      account's log, or a holding account's log without its open Buy) the round trips
      are entries 2k and 2k+1. */
  function Growth(log: seq<Trade>): real
    decreases |log|
  {
    if |log| < 2 then 1.0
    else Growth(log[..|log| - 2]) * Ratio(log[|log| - 1].price, log[|log| - 2].price)
  }

  /** Trades made inside the loop alternate Buy, Sell, Buy, ... */
  predicate Alternates(log: seq<Trade>)
  {
    forall k :: 0 <= k < |log| ==> log[k].action == (if k % 2 == 0 then Buy else Sell)
  }

  predicate Flat(acc: Account)
  {
    acc.position == 0.0 && acc.balance > 0.0 && |acc.log| % 2 == 0
  }

  predicate Holding(acc: Account)
  {
    acc.position > 0.0 && acc.balance == 0.0 && |acc.log| % 2 == 1
  }

  /** All capital is either cash or position, and the log alternates at positive prices. */
  predicate Shape(acc: Account)
  {
    (Flat(acc) || Holding(acc)) && PricedPositively(acc.log) && Alternates(acc.log)
  }

  /** The capital is the initial balance compounded over the completed round trips:
      as cash when flat, as the quantity bought with it at the last entry when holding. */
  predicate Capital(acc: Account)
    requires Shape(acc)
  {
    && (Flat(acc) ==> acc.balance == InitialBalance * Growth(acc.log))
    && (Holding(acc) ==>
          acc.position == InitialBalance * Growth(acc.log[..|acc.log| - 1]) / acc.log[|acc.log| - 1].price)
  }

  /** What holds of the account after every index. */
  predicate Invariant(acc: Account)
  {
    Shape(acc) && Capital(acc)
  }

  /** The whole balance moved into the position at price `p`. */
  function Bought(acc: Account, p: real): Account
    requires p > 0.0
  {
    Account(0.0, acc.balance / p, acc.log + [Trade(Buy, p)])
  }

  /** The whole position moved back to cash at price `p`, logged as `action`. */
  function Sold(acc: Account, p: real, action: Action): Account
  {
    Account(acc.position * p, 0.0, acc.log + [Trade(action, p)])
  }

  /** Appending the trade due next (Buy at even positions, Sell at odd ones) at a
      positive price keeps the history alternating and positively priced. */
  lemma AppendKeepsAlternation(log: seq<Trade>, t: Trade)
    requires PricedPositively(log) && Alternates(log)
    requires t.price > 0.0 && t.action == (if |log| % 2 == 0 then Buy else Sell)
    ensures PricedPositively(log + [t]) && Alternates(log + [t])
  {
    var next := log + [t];
    forall k | 0 <= k < |next|
      ensures next[k].price > 0.0 && next[k].action == (if k % 2 == 0 then Buy else Sell)
    {
      if k < |log| {
        assert next[k] == log[k];
      }
    }
  }

  lemma QuotientPositive(b: real, p: real)
    requires b > 0.0 && p > 0.0
    ensures b / p > 0.0
  {
  }

  lemma ProductPositive(a: real, b: real)
    requires a > 0.0 && b > 0.0
    ensures a * b > 0.0
  {
  }

  /** Selling `c * g / entry` units at `exit` yields `c * (g * (exit / entry))`. */
  lemma RoundTripArithmetic(c: real, g: real, entry: real, exit: real)
    requires entry > 0.0
    ensures (c * g / entry) * exit == c * (g * Ratio(exit, entry))
  {
  }

  /** Buying with the whole balance at a positive price keeps the invariant. */
  lemma BuyKeepsInvariant(acc: Account, p: real)
    requires Invariant(acc) && Flat(acc) && p > 0.0
    ensures Invariant(Bought(acc, p))
  {
    var next := Bought(acc, p);
    QuotientPositive(acc.balance, p);
    AppendKeepsAlternation(acc.log, Trade(Buy, p));
    assert Holding(next);
    assert next.log[..|next.log| - 1] == acc.log;
  }

  /** Selling the whole position at a positive price completes a round trip:
      the cash received is the initial balance compounded over every round trip. */
  lemma {:induction false} CloseOut(acc: Account, p: real, action: Action)
    requires Invariant(acc) && Holding(acc) && p > 0.0
    ensures PricedPositively(Sold(acc, p, action).log) && |Sold(acc, p, action).log| % 2 == 0
    ensures Sold(acc, p, action).balance > 0.0
    ensures Sold(acc, p, action).balance == InitialBalance * Growth(Sold(acc, p, action).log)
  {
    var log := Sold(acc, p, action).log;
    var m := |acc.log|;
    forall k | 0 <= k < |log|
      ensures log[k].price > 0.0
    {
      if k < m {
        assert log[k] == acc.log[k];
      }
    }
    var entry := acc.log[m - 1].price;
    assert log[..|log| - 2] == acc.log[..m - 1];
    assert log[|log| - 2].price == entry;
    var g := Growth(acc.log[..m - 1]);
    assert Growth(log) == g * Ratio(p, entry);
    RoundTripArithmetic(InitialBalance, g, entry, p);
    ProductPositive(acc.position, p);
  }

  lemma SellKeepsInvariant(acc: Account, p: real)
    requires Invariant(acc) && Holding(acc) && p > 0.0
    ensures Invariant(Sold(acc, p, Sell))
  {
    CloseOut(acc, p, Sell);
    AppendKeepsAlternation(acc.log, Trade(Sell, p));
  }

  /** Processes index `i` of the loop. */
  function Step(acc: Account, close: seq<real>, shortMa: seq<Option<real>>, longMa: seq<Option<real>>,
                buyThreshold: real, sellThreshold: real, i: nat): (r: Account)
    requires Aligned(close, shortMa, longMa) && Rolling.PositivePrices(close) && i < |close|
    ensures Skipped(shortMa, longMa, i) ==> r == acc
    ensures r == acc || (acc.position == 0.0 && r == Bought(acc, close[i]))
                     || (acc.position > 0.0 && r == Sold(acc, close[i], Sell))
    ensures r != acc && r.log[|acc.log|].action == Buy ==>
              acc.position == 0.0 && shortMa[i].value > longMa[i].value * (1.0 + buyThreshold)
    ensures r != acc && r.log[|acc.log|].action == Sell ==>
              && acc.position > 0.0
              && !(shortMa[i].value > longMa[i].value * (1.0 + buyThreshold))
              && shortMa[i].value < longMa[i].value * (1.0 - sellThreshold)
    ensures (&& !Skipped(shortMa, longMa, i)
             && shortMa[i].value > longMa[i].value * (1.0 + buyThreshold)
             && acc.position == 0.0)
            ==> r == Bought(acc, close[i])
    ensures (&& !Skipped(shortMa, longMa, i)
             && !(shortMa[i].value > longMa[i].value * (1.0 + buyThreshold))
             && shortMa[i].value < longMa[i].value * (1.0 - sellThreshold)
             && acc.position > 0.0)
            ==> r == Sold(acc, close[i], Sell)
  {
    if Skipped(shortMa, longMa, i) then acc
    else if shortMa[i].value > longMa[i].value * (1.0 + buyThreshold) then
      if acc.position == 0.0 then Bought(acc, close[i]) else acc
    else if shortMa[i].value < longMa[i].value * (1.0 - sellThreshold) then
      if acc.position > 0.0 then Sold(acc, close[i], Sell) else acc
    else acc
  }

  /** Every index keeps the holding invariant. */
  lemma StepKeepsInvariant(acc: Account, close: seq<real>, shortMa: seq<Option<real>>, longMa: seq<Option<real>>,
                           buyThreshold: real, sellThreshold: real, i: nat)
    requires Aligned(close, shortMa, longMa) && Rolling.PositivePrices(close) && i < |close|
    requires Invariant(acc)
    ensures Invariant(Step(acc, close, shortMa, longMa, buyThreshold, sellThreshold, i))
  {
    var r := Step(acc, close, shortMa, longMa, buyThreshold, sellThreshold, i);
    if r == acc {
    } else if acc.position == 0.0 && r == Bought(acc, close[i]) {
      BuyKeepsInvariant(acc, close[i]);
    } else {
      SellKeepsInvariant(acc, close[i]);
    }
  }

  /** The account after the loop has looked at indices 0 .. n-1. */
  function Run(close: seq<real>, shortMa: seq<Option<real>>, longMa: seq<Option<real>>,
               buyThreshold: real, sellThreshold: real, n: nat): (r: Account)
    requires Aligned(close, shortMa, longMa) && Rolling.PositivePrices(close) && n <= |close|
    ensures |r.log| <= n
  {
    if n == 0 then Opening
    else Step(Run(close, shortMa, longMa, buyThreshold, sellThreshold, n - 1),
              close, shortMa, longMa, buyThreshold, sellThreshold, n - 1)
  }

  /** The holding invariant holds after every prefix of the loop. */
  lemma {:induction false} RunKeepsInvariant(close: seq<real>, shortMa: seq<Option<real>>, longMa: seq<Option<real>>,
                                             buyThreshold: real, sellThreshold: real, n: nat)
    requires Aligned(close, shortMa, longMa) && Rolling.PositivePrices(close) && n <= |close|
    ensures Invariant(Run(close, shortMa, longMa, buyThreshold, sellThreshold, n))
  {
    if n > 0 {
      RunKeepsInvariant(close, shortMa, longMa, buyThreshold, sellThreshold, n - 1);
      StepKeepsInvariant(Run(close, shortMa, longMa, buyThreshold, sellThreshold, n - 1),
                         close, shortMa, longMa, buyThreshold, sellThreshold, n - 1);
    }
  }

  predicate EndsWithFinalSell(log: seq<Trade>)
  {
    |log| > 0 && log[|log| - 1].action == FinalSell
  }

  /** Shape of the returned trade history: Buy at every even position, a sale at
      every odd one, and a Final Sell only as the last entry, at the last close. */
  predicate FinalShape(log: seq<Trade>, close: seq<real>)
  {
    && |log| % 2 == 0
    && (forall k :: 0 <= k < |log| ==> (log[k].action == Buy <==> k % 2 == 0))
    && (forall k :: 0 <= k < |log| && log[k].action == FinalSell ==>
          k == |log| - 1 && |close| > 0 && log[k].price == close[|close| - 1])
  }

  /** A history that ends flat inside the loop already has the final shape. */
  lemma FlatLogShape(acc: Account, close: seq<real>)
    requires Invariant(acc) && Flat(acc)
    ensures FinalShape(acc.log, close)
  {
  }

  /** Appending a Final Sell at the last close to a history that ends holding
      gives the final shape. */
  lemma LiquidatedLogShape(acc: Account, close: seq<real>)
    requires Invariant(acc) && Holding(acc) && |close| > 0
    ensures FinalShape(acc.log + [Trade(FinalSell, close[|close| - 1])], close)
  {
    var log := acc.log + [Trade(FinalSell, close[|close| - 1])];
    forall k | 0 <= k < |log|
      ensures log[k].action == Buy <==> k % 2 == 0
    {
      if k < |acc.log| {
        assert log[k] == acc.log[k];
      }
    }
  }

  /** Final liquidation: a position still open after the loop is sold at the last close. */
  function Liquidate(acc: Account, close: seq<real>): (r: Account)
    requires Invariant(acc) && Rolling.PositivePrices(close) && (Holding(acc) ==> |close| > 0)
    ensures r.position == 0.0 && r.balance > 0.0
    ensures PricedPositively(r.log) && |r.log| % 2 == 0
    ensures r.balance == InitialBalance * Growth(r.log)
    ensures FinalShape(r.log, close)
    ensures EndsWithFinalSell(r.log) <==> acc.position > 0.0
    ensures acc.position > 0.0 ==> r == Sold(acc, close[|close| - 1], FinalSell)
    ensures !(acc.position > 0.0) ==> r == acc
  {
    if acc.position > 0.0 then
      var last := close[|close| - 1];
      CloseOut(acc, last, FinalSell);
      LiquidatedLogShape(acc, close);
      Sold(acc, last, FinalSell)
    else
      FlatLogShape(acc, close);
      acc
  }

  /** The account at the end of the simulation. */
  function FinalAccount(close: seq<real>, shortMa: seq<Option<real>>, longMa: seq<Option<real>>,
                        buyThreshold: real, sellThreshold: real): Account
    requires Aligned(close, shortMa, longMa) && Rolling.PositivePrices(close)
  {
    RunKeepsInvariant(close, shortMa, longMa, buyThreshold, sellThreshold, |close|);
    Liquidate(Run(close, shortMa, longMa, buyThreshold, sellThreshold, |close|), close)
  }

  /** `backtest_strategy`: the trade history and the profit over the initial balance. */
  function Backtest(close: seq<real>, shortMa: seq<Option<real>>, longMa: seq<Option<real>>,
                    buyThreshold: real, sellThreshold: real): (r: BacktestResult)
    requires Aligned(close, shortMa, longMa) && Rolling.PositivePrices(close)
    ensures PricedPositively(r.trades) && |r.trades| % 2 == 0
    ensures r.profit == InitialBalance * Growth(r.trades) - InitialBalance
    ensures r.profit > -InitialBalance
    ensures FinalShape(r.trades, close)
    ensures EndsWithFinalSell(r.trades) <==>
              Run(close, shortMa, longMa, buyThreshold, sellThreshold, |close|).position > 0.0
    ensures var run := Run(close, shortMa, longMa, buyThreshold, sellThreshold, |close|);
            r.trades == run.log + (if run.position > 0.0 then [Trade(FinalSell, close[|close| - 1])] else [])
    ensures var run := Run(close, shortMa, longMa, buyThreshold, sellThreshold, |close|);
            r.profit == (if run.position > 0.0 then run.position * close[|close| - 1] else run.balance)
                        - InitialBalance
  {
    var acc := FinalAccount(close, shortMa, longMa, buyThreshold, sellThreshold);
    BacktestResult(acc.log, acc.balance - InitialBalance)
  }

  /** The simulator on a series and the two trailing averages of the given widths. */
  function BacktestWithWindows(close: seq<real>, shortWindow: nat, longWindow: nat,
                               buyThreshold: real, sellThreshold: real): BacktestResult
    requires shortWindow >= 1 && longWindow >= 1 && Rolling.PositivePrices(close)
  {
    Backtest(close, Rolling.RollingMean(close, shortWindow), Rolling.RollingMean(close, longWindow),
             buyThreshold, sellThreshold)
  }

  /** A stretch of indices that are all passed over leaves the opening state untouched. */
  lemma {:induction false} AllSkippedKeepsOpening(close: seq<real>, shortMa: seq<Option<real>>,
                                                  longMa: seq<Option<real>>, buyThreshold: real,
                                                  sellThreshold: real, n: nat)
    requires Aligned(close, shortMa, longMa) && Rolling.PositivePrices(close) && n <= |close|
    requires forall i :: 0 <= i < n ==> Skipped(shortMa, longMa, i)
    ensures Run(close, shortMa, longMa, buyThreshold, sellThreshold, n) == Opening
  {
    if n > 0 {
      AllSkippedKeepsOpening(close, shortMa, longMa, buyThreshold, sellThreshold, n - 1);
    }
  }

  /** A series shorter than the wider window (the empty series included) never
      has both averages defined, so nothing is traded and the profit is zero. */
  lemma ShortSeriesNoTrades(close: seq<real>, shortWindow: nat, longWindow: nat,
                            buyThreshold: real, sellThreshold: real)
    requires shortWindow >= 1 && longWindow >= 1 && Rolling.PositivePrices(close)
    requires |close| < shortWindow || |close| < longWindow
    ensures BacktestWithWindows(close, shortWindow, longWindow, buyThreshold, sellThreshold)
              == BacktestResult([], 0.0)
  {
    var shortMa := Rolling.RollingMean(close, shortWindow);
    var longMa := Rolling.RollingMean(close, longWindow);
    AllSkippedKeepsOpening(close, shortMa, longMa, buyThreshold, sellThreshold, |close|);
  }

  /** The loop of `backtest_strategy`, statement for statement. */
  method TradingLoop(close: seq<real>, shortMa: seq<Option<real>>, longMa: seq<Option<real>>,
                     buyThreshold: real, sellThreshold: real)
    returns (balance: real, position: real, tradeHistory: seq<Trade>)
    requires Aligned(close, shortMa, longMa) && Rolling.PositivePrices(close)
    ensures Account(balance, position, tradeHistory)
              == Run(close, shortMa, longMa, buyThreshold, sellThreshold, |close|)
  {
    balance := InitialBalance;
    position := 0.0;
    tradeHistory := [];
    for i := 0 to |close|
      invariant Account(balance, position, tradeHistory)
                  == Run(close, shortMa, longMa, buyThreshold, sellThreshold, i)
    {
      ghost var before := Account(balance, position, tradeHistory);
      assert Run(close, shortMa, longMa, buyThreshold, sellThreshold, i + 1)
               == Step(before, close, shortMa, longMa, buyThreshold, sellThreshold, i);
      if i == 0 || shortMa[i].None? || longMa[i].None? {
        continue;
      }
      if shortMa[i].value > longMa[i].value * (1.0 + buyThreshold) {
        if position == 0.0 {
          position := balance / close[i];
          balance := 0.0;
          tradeHistory := tradeHistory + [Trade(Buy, close[i])];
        }
        assert Account(balance, position, tradeHistory)
                 == Step(before, close, shortMa, longMa, buyThreshold, sellThreshold, i);
      } else if shortMa[i].value < longMa[i].value * (1.0 - sellThreshold) {
        if position > 0.0 {
          balance := position * close[i];
          position := 0.0;
          tradeHistory := tradeHistory + [Trade(Sell, close[i])];
        }
        assert Account(balance, position, tradeHistory)
                 == Step(before, close, shortMa, longMa, buyThreshold, sellThreshold, i);
      }
    }
  }

  /** `backtest_strategy`: the loop, then the sale of a position still open at the last close. */
  method BacktestStrategy(close: seq<real>, shortMa: seq<Option<real>>, longMa: seq<Option<real>>,
                          buyThreshold: real, sellThreshold: real)
    returns (tradeHistory: seq<Trade>, profit: real)
    requires Aligned(close, shortMa, longMa) && Rolling.PositivePrices(close)
    ensures BacktestResult(tradeHistory, profit) == Backtest(close, shortMa, longMa, buyThreshold, sellThreshold)
    ensures profit > -InitialBalance
  {
    var balance, position;
    balance, position, tradeHistory := TradingLoop(close, shortMa, longMa, buyThreshold, sellThreshold);
    if position > 0.0 {
      balance := position * close[|close| - 1];
      tradeHistory := tradeHistory + [Trade(FinalSell, close[|close| - 1])];
    }
    profit := balance - InitialBalance;
  }

  /** The series of the worked example below. */
  const ExampleClose: seq<real> := [100.0, 102.0, 101.0, 105.0, 110.0, 108.0, 120.0]
  const ExampleShortMa: seq<Option<real>> := [None, Some(101.0), Some(101.5), Some(103.0), Some(107.5), Some(109.0), Some(114.0)]
  const ExampleLongMa: seq<Option<real>> :=
    [None, None, Some(101.0), Some(308.0 / 3.0), Some(316.0 / 3.0), Some(323.0 / 3.0), Some(338.0 / 3.0)]

  /** The 2-close means of the example series. */
  lemma ExampleShortAverages()
    ensures Rolling.RollingMean(ExampleClose, 2) == ExampleShortMa
  {
    var close := ExampleClose;
    var shortMa := Rolling.RollingMean(close, 2);
    assert shortMa[0] == None;
    assert close[0..2] == [close[0], close[1]];
    assert shortMa[1] == Some(101.0);
    assert close[1..3] == [close[1], close[2]];
    assert shortMa[2] == Some(101.5);
    assert close[2..4] == [close[2], close[3]];
    assert shortMa[3] == Some(103.0);
    assert close[3..5] == [close[3], close[4]];
    assert shortMa[4] == Some(107.5);
    assert close[4..6] == [close[4], close[5]];
    assert shortMa[5] == Some(109.0);
    assert close[5..7] == [close[5], close[6]];
    assert shortMa[6] == Some(114.0);
  }

  /** The 3-close means of the example series. */
  lemma ExampleLongAverages()
    ensures Rolling.RollingMean(ExampleClose, 3) == ExampleLongMa
  {
    var close := ExampleClose;
    var longMa := Rolling.RollingMean(close, 3);
    assert longMa[0] == None;
    assert longMa[1] == None;
    assert close[0..3] == [close[0], close[1], close[2]];
    assert longMa[2] == Some(101.0);
    assert close[1..4] == [close[1], close[2], close[3]];
    assert longMa[3] == Some(308.0 / 3.0);
    assert close[2..5] == [close[2], close[3], close[4]];
    assert longMa[4] == Some(316.0 / 3.0);
    assert close[3..6] == [close[3], close[4], close[5]];
    assert longMa[5] == Some(323.0 / 3.0);
    assert close[4..7] == [close[4], close[5], close[6]];
    assert longMa[6] == Some(338.0 / 3.0);
  }

  /** On the example, the loop buys at index 2 (101.5 > 101) and holds to the end. */
  lemma ExampleRun()
    ensures Run(ExampleClose, ExampleShortMa, ExampleLongMa, 0.0, 0.0, 7)
              == Account(0.0, 10000.0 / 101.0, [Trade(Buy, 101.0)])
  {
    var close, shortMa, longMa := ExampleClose, ExampleShortMa, ExampleLongMa;
    var bought := Account(0.0, 10000.0 / 101.0, [Trade(Buy, 101.0)]);
    assert Run(close, shortMa, longMa, 0.0, 0.0, 2) == Opening;
    assert Run(close, shortMa, longMa, 0.0, 0.0, 3) == bought;
    assert Run(close, shortMa, longMa, 0.0, 0.0, 4) == bought;
    assert Run(close, shortMa, longMa, 0.0, 0.0, 5) == bought;
    assert Run(close, shortMa, longMa, 0.0, 0.0, 6) == bought;
  }

  /** A worked example: with windows 2 and 3 and zero thresholds, the first index
      where the 2-close mean exceeds the 3-close mean is 2 (101.5 > 101), so the
      strategy buys at 101; the short mean stays above the long one, so the
      position is liquidated at the last close, 120. */
  lemma CrossoverExample()
    ensures BacktestWithWindows(ExampleClose, 2, 3, 0.0, 0.0)
              == BacktestResult([Trade(Buy, 101.0), Trade(FinalSell, 120.0)], 190000.0 / 101.0)
  {
    ExampleShortAverages();
    ExampleLongAverages();
    ExampleRun();
  }
}
