/** The vectorised evaluator of `strategy_tester.py`: a crossover signal in
    {-1, 0, 1} per close, the sum of the returns earned by holding the previous
    step's signal, and a trade count derived from the signal's changes. Each
    pandas step (shift, pct_change, diff, a NaN-skipping sum) is modelled on its
    own; the lemmas connect the pipeline to closed formulas. */
module StrategyTester {
  import opened Wrappers
  import Rolling

  const DefaultShortWindow: nat := 20
  const DefaultLongWindow: nat := 100

  /** The two average columns added to the frame. */
  datatype Averages = Averages(shortMa: seq<Option<real>>, longMa: seq<Option<real>>)

  /** `calculate_moving_averages`: trailing means, undefined until their window is full. */
  function CalculateMovingAverages(close: seq<real>, shortWindow: nat, longWindow: nat): (r: Averages)
    requires shortWindow >= 1 && longWindow >= 1
    ensures |r.shortMa| == |close| && |r.longMa| == |close|
    ensures forall i :: 0 <= i < |close| ==> (r.shortMa[i].Some? <==> i + 1 >= shortWindow)
    ensures forall i :: 0 <= i < |close| ==> (r.longMa[i].Some? <==> i + 1 >= longWindow)
    ensures forall i :: 0 <= i < |close| && i + 1 >= longWindow ==>
              r.longMa[i] == Some(Rolling.Mean(close[i + 1 - longWindow..i + 1]))
    ensures forall i :: 0 <= i < |close| && i + 1 >= shortWindow ==>
              r.shortMa[i] == Some(Rolling.Mean(close[i + 1 - shortWindow..i + 1]))
  {
    Averages(Rolling.RollingMean(close, shortWindow), Rolling.RollingMean(close, longWindow))
  }

  /** The call with its default windows, 20 and 100. */
  function DefaultMovingAverages(close: seq<real>): (r: Averages)
    ensures |r.shortMa| == |close| && |r.longMa| == |close|
    ensures forall i :: 0 <= i < |close| ==> (r.shortMa[i].Some? <==> i >= 19)
    ensures forall i :: 0 <= i < |close| ==> (r.longMa[i].Some? <==> i >= 99)
  {
    CalculateMovingAverages(close, DefaultShortWindow, DefaultLongWindow)
  }

  /** pandas comparisons involving NaN are false. */
  predicate Above(a: Option<real>, b: Option<real>)
  {
    a.Some? && b.Some? && a.value > b.value
  }

  predicate Below(a: Option<real>, b: Option<real>)
  {
    a.Some? && b.Some? && a.value < b.value
  }

  /** `generate_signals`: a column of zeros, overwritten with 1 where the short
      average is above the long one, then with -1 where it is below. */
  function GenerateSignals(shortMa: seq<Option<real>>, longMa: seq<Option<real>>): (r: seq<int>)
    requires |shortMa| == |longMa|
    ensures |r| == |shortMa|
    ensures forall i :: 0 <= i < |r| ==> -1 <= r[i] <= 1
    ensures forall i :: 0 <= i < |r| ==> (r[i] == 1 <==> Above(shortMa[i], longMa[i]))
    ensures forall i :: 0 <= i < |r| ==> (r[i] == -1 <==> Below(shortMa[i], longMa[i]))
    ensures forall i :: 0 <= i < |r| ==>
              (r[i] == 0 <==> shortMa[i].None? || longMa[i].None? || shortMa[i].value == longMa[i].value)
  {
    var n := |shortMa|;
    var zeros := seq(n, i => 0);
    var buys := seq(n, i requires 0 <= i < n => if Above(shortMa[i], longMa[i]) then 1 else zeros[i]);
    seq(n, i requires 0 <= i < n => if Below(shortMa[i], longMa[i]) then -1 else buys[i])
  }

  /** `Series.shift()`: every value moves one step later; the first becomes NaN. */
  function Shift(xs: seq<int>): (r: seq<Option<int>>)
    ensures |r| == |xs|
    ensures |r| > 0 ==> r[0].None?
    ensures forall i :: 1 <= i < |r| ==> r[i] == Some(xs[i - 1])
  {
    if |xs| == 0 then [] else [None] + seq(|xs| - 1, i requires 0 <= i < |xs| - 1 => Some(xs[i]))
  }

  /** `Series.pct_change()`: relative change from the previous close; NaN first. */
  function PctChange(close: seq<real>): seq<Option<real>>
    requires Rolling.PositivePrices(close)
  {
    seq(|close|, i requires 0 <= i < |close| =>
      if i == 0 then None else Some(close[i] / close[i - 1] - 1.0))
  }

  /** `Series.diff()`: change from the previous value; NaN first. */
  function Diff(xs: seq<int>): seq<Option<int>>
  {
    seq(|xs|, i requires 0 <= i < |xs| => if i == 0 then None else Some(xs[i] - xs[i - 1]))
  }

  /** Elementwise product; NaN wherever a factor is NaN. */
  function Times(position: seq<Option<int>>, change: seq<Option<real>>): seq<Option<real>>
    requires |position| == |change|
  {
    seq(|position|, i requires 0 <= i < |position| =>
      if position[i].Some? && change[i].Some? then Some(position[i].value as real * change[i].value) else None)
  }

  /** `Series.sum()`: NaN entries are skipped. */
  function NanSum(xs: seq<Option<real>>): real
  {
    if |xs| == 0 then 0.0
    else NanSum(xs[..|xs| - 1]) + (if xs[|xs| - 1].Some? then xs[|xs| - 1].value else 0.0)
  }

  /** `.abs().sum()` of an integer column, NaN entries skipped. */
  function NanAbsSum(xs: seq<Option<int>>): (r: int)
    ensures r >= 0
  {
    if |xs| == 0 then 0
    else NanAbsSum(xs[..|xs| - 1]) + (if xs[|xs| - 1].Some? then Abs(xs[|xs| - 1].value) else 0)
  }

  function Abs(x: int): int
  {
    if x < 0 then -x else x
  }

  datatype TradeStats = TradeStats(totalReturns: real, numTrades: int)

  /** `simulate_trades`. The absolute changes sum to a whole number, so
      `int(sum / 2)` is its floor division by 2. */
  function SimulateTrades(signal: seq<int>, close: seq<real>): (r: TradeStats)
    requires |signal| == |close|
    requires Rolling.PositivePrices(close)
    ensures r.numTrades >= 0
  {
    var earned := Times(Shift(signal), PctChange(close));
    TradeStats(NanSum(earned), NanAbsSum(Diff(signal)) / 2)
  }

  /** Return earned at step `i` by the position taken at step `i - 1`. */
  function LaggedReturn(signal: seq<int>, close: seq<real>, i: nat): real
    requires 1 <= i < |signal| && |signal| == |close|
    requires Rolling.PositivePrices(close)
  {
    signal[i - 1] as real * (close[i] / close[i - 1] - 1.0)
  }

  /** The sum over i = 1 .. n-1 of the lagged returns. */
  function ReturnSum(signal: seq<int>, close: seq<real>, n: nat): real
    requires n <= |signal| && |signal| == |close|
    requires Rolling.PositivePrices(close)
  {
    if n <= 1 then 0.0 else ReturnSum(signal, close, n - 1) + LaggedReturn(signal, close, n - 1)
  }

  /** The sum over i = 1 .. n-1 of |signal[i] - signal[i-1]|. */
  function ChangeSum(signal: seq<int>, n: nat): int
    requires n <= |signal|
  {
    if n <= 1 then 0 else ChangeSum(signal, n - 1) + Abs(signal[n - 1] - signal[n - 2])
  }

  lemma {:induction false} ReturnsPipeline(signal: seq<int>, close: seq<real>, n: nat)
    requires |signal| == |close| && n <= |close|
    requires Rolling.PositivePrices(close)
    ensures NanSum(Times(Shift(signal), PctChange(close))[..n]) == ReturnSum(signal, close, n)
  {
    var earned := Times(Shift(signal), PctChange(close));
    if n == 0 {
      assert earned[..0] == [];
    } else {
      ReturnsPipeline(signal, close, n - 1);
      assert earned[..n][..n - 1] == earned[..n - 1];
      if n == 1 {
        assert earned[..0] == [];
      }
    }
  }

  lemma {:induction false} ChangesPipeline(signal: seq<int>, n: nat)
    requires n <= |signal|
    ensures NanAbsSum(Diff(signal)[..n]) == ChangeSum(signal, n)
  {
    var diffs := Diff(signal);
    if n == 0 {
      assert diffs[..0] == [];
    } else {
      ChangesPipeline(signal, n - 1);
      assert diffs[..n][..n - 1] == diffs[..n - 1];
      if n == 1 {
        assert diffs[..0] == [];
      }
    }
  }

  /** The pandas pipeline computes the closed formulas: the summed lagged
      returns, and half the total absolute change of the signal, rounded down. */
  lemma SimulateTradesClosedForm(signal: seq<int>, close: seq<real>)
    requires |signal| == |close|
    requires Rolling.PositivePrices(close)
    ensures SimulateTrades(signal, close)
              == TradeStats(ReturnSum(signal, close, |close|), ChangeSum(signal, |signal|) / 2)
  {
    var earned := Times(Shift(signal), PctChange(close));
    ReturnsPipeline(signal, close, |close|);
    assert earned[..|close|] == earned;
    ChangesPipeline(signal, |signal|);
    assert Diff(signal)[..|signal|] == Diff(signal);
  }

  /** With signals in {-1, 0, 1} each step changes the signal by at most 2. */
  lemma {:induction false} ChangeSumBound(signal: seq<int>, n: nat)
    requires n <= |signal|
    requires forall i :: 0 <= i < |signal| ==> -1 <= signal[i] <= 1
    ensures 0 <= ChangeSum(signal, n)
    ensures n >= 1 ==> ChangeSum(signal, n) <= 2 * (n - 1)
  {
    if n > 1 {
      ChangeSumBound(signal, n - 1);
    }
  }

  /** At most one trade per step after the first. */
  lemma TradeCountBound(signal: seq<int>, close: seq<real>)
    requires |signal| == |close|
    requires Rolling.PositivePrices(close)
    requires forall i :: 0 <= i < |signal| ==> -1 <= signal[i] <= 1
    ensures 0 <= SimulateTrades(signal, close).numTrades
    ensures |close| >= 1 ==> SimulateTrades(signal, close).numTrades <= |close| - 1
  {
    SimulateTradesClosedForm(signal, close);
    ChangeSumBound(signal, |signal|);
  }

  /** A signal that is 0 throughout never holds a position and never trades. */
  lemma {:induction false} FlatSignalEarnsNothing(signal: seq<int>, close: seq<real>, n: nat)
    requires |signal| == |close| && n <= |close|
    requires Rolling.PositivePrices(close)
    requires forall i :: 0 <= i < |signal| ==> signal[i] == 0
    ensures ReturnSum(signal, close, n) == 0.0 && ChangeSum(signal, n) == 0
  {
    if n > 1 {
      FlatSignalEarnsNothing(signal, close, n - 1);
    }
  }

  /** A series shorter than the long window leaves every signal at 0, so the
      strategy earns nothing and makes no trade. */
  lemma ShortSeriesNoTrades(close: seq<real>, shortWindow: nat, longWindow: nat)
    requires shortWindow >= 1 && longWindow >= 1
    requires Rolling.PositivePrices(close)
    requires |close| < longWindow
    ensures var averages := CalculateMovingAverages(close, shortWindow, longWindow);
            SimulateTrades(GenerateSignals(averages.shortMa, averages.longMa), close) == TradeStats(0.0, 0)
  {
    var averages := CalculateMovingAverages(close, shortWindow, longWindow);
    var signal := GenerateSignals(averages.shortMa, averages.longMa);
    SimulateTradesClosedForm(signal, close);
    FlatSignalEarnsNothing(signal, close, |close|);
  }
}
