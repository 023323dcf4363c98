/** `optimize_strategy`: an exhaustive search over a fixed grid of parameter
    sets that keeps the first one whose profit beats every earlier profit. */
module Optimizer {
  import opened Wrappers
  import Rolling
  import Backtest

  /** One grid point: the two window widths and the two thresholds. */
  datatype Params = Params(shortWindow: nat, longWindow: nat, buyThreshold: real, sellThreshold: real)

  const ShortWindows: seq<nat> := [5, 10, 20]
  const LongWindows: seq<nat> := [20, 50, 100]
  const BuyThresholds: seq<real> := [0.01, 0.02, 0.03]
  const SellThresholds: seq<real> := [0.01, 0.03, 0.05]

  /** All pairs of `xs` and `ys`, in the order of two nested loops over `xs` then `ys`. */
  function Pairs<A, B>(xs: seq<A>, ys: seq<B>): (r: seq<(A, B)>)
    ensures |r| == |xs| * |ys|
    ensures forall k :: 0 <= k < |r| ==> r[k].0 in xs && r[k].1 in ys
  {
    if |xs| == 0 then []
    else
      var row := seq(|ys|, j requires 0 <= j < |ys| => (xs[0], ys[j]));
      var rest := Pairs(xs[1..], ys);
      assert |xs| * |ys| == |ys| + (|xs| - 1) * |ys|;
      assert forall k :: 0 <= k < |rest| ==> rest[k].0 in xs;
      row + rest
  }

  /** The pair of `xs[i]` and `ys[j]` is visited at step `i * |ys| + j`. */
  lemma {:induction false} PairsAt<A, B>(xs: seq<A>, ys: seq<B>, i: nat, j: nat)
    requires i < |xs| && j < |ys|
    ensures i * |ys| + j < |Pairs(xs, ys)|
    ensures Pairs(xs, ys)[i * |ys| + j] == (xs[i], ys[j])
  {
    if i > 0 {
      PairsAt(xs[1..], ys, i - 1, j);
      assert i * |ys| + j == |ys| + ((i - 1) * |ys| + j);
    }
  }

  /** A grid point the search can run: both windows are positive. */
  predicate Runnable(p: Params)
  {
    p.shortWindow >= 1 && p.longWindow >= 1
  }

  /** The searched grid: short window, then long window, then buy threshold,
      then sell threshold, the last varying fastest. */
  function Grid(): (r: seq<Params>)
    ensures |r| == 81
    ensures forall k :: 0 <= k < |r| ==> Runnable(r[k])
  {
    var outer := Pairs(ShortWindows, LongWindows);
    var inner := Pairs(BuyThresholds, SellThresholds);
    var all := Pairs(outer, inner);
    assert forall k :: 0 <= k < |all| ==> all[k].0 in outer;
    seq(|all|, k requires 0 <= k < |all| => Params(all[k].0.0, all[k].0.1, all[k].1.0, all[k].1.1))
  }

  /** Grid point `27a + 9b + 3c + d` takes the a-th short window, the b-th long
      window, the c-th buy threshold and the d-th sell threshold. */
  lemma GridAt(a: nat, b: nat, c: nat, d: nat)
    requires a < 3 && b < 3 && c < 3 && d < 3
    ensures 27 * a + 9 * b + 3 * c + d < |Grid()|
    ensures Grid()[27 * a + 9 * b + 3 * c + d]
              == Params(ShortWindows[a], LongWindows[b], BuyThresholds[c], SellThresholds[d])
  {
    var outer := Pairs(ShortWindows, LongWindows);
    var inner := Pairs(BuyThresholds, SellThresholds);
    var all := Pairs(outer, inner);
    PairsAt(ShortWindows, LongWindows, a, b);
    PairsAt(BuyThresholds, SellThresholds, c, d);
    PairsAt(outer, inner, 3 * a + b, 3 * c + d);
    assert |inner| == 9;
    var k := 27 * a + 9 * b + 3 * c + d;
    assert (3 * a + b) * 9 + (3 * c + d) == k;
    assert all[k] == ((ShortWindows[a], LongWindows[b]), (BuyThresholds[c], SellThresholds[d]));
    assert Grid()[k] == Params(all[k].0.0, all[k].0.1, all[k].1.0, all[k].1.1);
  }

  /** The grid visits its 81 points in the order of the four nested loops. */
  lemma GridOrder()
    ensures |Grid()| == 81
    ensures forall a, b, c, d :: 0 <= a < 3 && 0 <= b < 3 && 0 <= c < 3 && 0 <= d < 3 ==>
              Grid()[27 * a + 9 * b + 3 * c + d]
                == Params(ShortWindows[a], LongWindows[b], BuyThresholds[c], SellThresholds[d])
  {
    forall a, b, c, d | 0 <= a < 3 && 0 <= b < 3 && 0 <= c < 3 && 0 <= d < 3
      ensures Grid()[27 * a + 9 * b + 3 * c + d]
                == Params(ShortWindows[a], LongWindows[b], BuyThresholds[c], SellThresholds[d])
    {
      GridAt(a, b, c, d);
    }
  }

  /** The profit of one trial of the search. */
  function TrialProfit(close: seq<real>, p: Params): real
    requires Rolling.PositivePrices(close) && Runnable(p)
  {
    Backtest.BacktestWithWindows(close, p.shortWindow, p.longWindow, p.buyThreshold, p.sellThreshold).profit
  }

  /** The profit of every grid point, in grid order: no point is pruned. */
  function Profits(close: seq<real>, grid: seq<Params>): (r: seq<real>)
    requires Rolling.PositivePrices(close)
    requires forall k :: 0 <= k < |grid| ==> Runnable(grid[k])
  {
    seq(|grid|, k requires 0 <= k < |grid| => TrialProfit(close, grid[k]))
  }

  /** The running best profit, starting at minus infinity. */
  datatype ExtReal = NegInf | Finite(value: real)

  /** Strict comparison against the running best. */
  predicate Beats(x: real, best: ExtReal)
  {
    best.NegInf? || x > best.value
  }

  /** `k` is the first index at which the maximum profit is reached. */
  predicate IsFirstMax(profits: seq<real>, k: int)
  {
    && 0 <= k < |profits|
    && (forall j :: 0 <= j < |profits| ==> profits[j] <= profits[k])
    && (forall j :: 0 <= j < k ==> profits[j] < profits[k])
  }

  /** The state of the search: best profit so far and where it was found. */
  datatype Running = Running(bestProfit: ExtReal, bestIndex: Option<nat>)

  /** Left-to-right scan with the strict update `profit > best_profit`. */
  function Scan(profits: seq<real>): (r: Running)
    ensures r.bestIndex.None? <==> |profits| == 0
    ensures r.bestIndex.None? ==> r.bestProfit == NegInf
    ensures r.bestIndex.Some? ==>
              IsFirstMax(profits, r.bestIndex.value) && r.bestProfit == Finite(profits[r.bestIndex.value])
    decreases |profits|
  {
    if |profits| == 0 then Running(NegInf, None)
    else
      var prev := Scan(profits[..|profits| - 1]);
      var x := profits[|profits| - 1];
      if Beats(x, prev.bestProfit) then Running(Finite(x), Some(|profits| - 1)) else prev
  }

  /** The search over an arbitrary grid. */
  function Optimize(close: seq<real>, grid: seq<Params>): (r: Option<Params>)
    requires Rolling.PositivePrices(close)
    requires forall k :: 0 <= k < |grid| ==> Runnable(grid[k])
    ensures r.None? <==> |grid| == 0
    ensures r.Some? ==> exists k :: 0 <= k < |grid| && grid[k] == r.value
                                    && IsFirstMax(Profits(close, grid), k)
  {
    var s := Scan(Profits(close, grid));
    match s.bestIndex
    case None => None
    case Some(k) => Some(grid[k])
  }

  /** `optimize_strategy`: the search over the fixed grid. Every profit is a
      finite number and so beats minus infinity: a point is always found. */
  function OptimizeStrategy(close: seq<real>): (r: Option<Params>)
    requires Rolling.PositivePrices(close)
    ensures r.Some? && r.value in Grid()
  {
    Optimize(close, Grid())
  }

  /** The point the search finds is no worse than any grid point, and strictly
      better than every grid point visited before it. */
  lemma OptimizeFirstBest(close: seq<real>, grid: seq<Params>)
    requires Rolling.PositivePrices(close)
    requires forall k :: 0 <= k < |grid| ==> Runnable(grid[k])
    requires |grid| > 0
    ensures var best := Optimize(close, grid).value;
            && (forall q :: q in grid ==> TrialProfit(close, q) <= TrialProfit(close, best))
            && exists k :: 0 <= k < |grid| && grid[k] == best
                           && forall j :: 0 <= j < k ==> TrialProfit(close, grid[j]) < TrialProfit(close, best)
  {
    var profits := Profits(close, grid);
    var best := Optimize(close, grid).value;
    var k :| 0 <= k < |grid| && grid[k] == best && IsFirstMax(profits, k);
    forall q | q in grid
      ensures TrialProfit(close, q) <= TrialProfit(close, best)
    {
      var j :| 0 <= j < |grid| && grid[j] == q;
      assert profits[j] <= profits[k];
    }
    forall j | 0 <= j < k
      ensures TrialProfit(close, grid[j]) < TrialProfit(close, best)
    {
      assert profits[j] < profits[k];
    }
  }

  /** The same for `optimize_strategy` over the fixed grid. */
  lemma OptimizeStrategyFirstBest(close: seq<real>)
    requires Rolling.PositivePrices(close)
    ensures var best := OptimizeStrategy(close).value;
            && (forall q :: q in Grid() ==> TrialProfit(close, q) <= TrialProfit(close, best))
            && exists k :: 0 <= k < |Grid()| && Grid()[k] == best
                           && forall j :: 0 <= j < k ==> TrialProfit(close, Grid()[j]) < TrialProfit(close, best)
  {
    OptimizeFirstBest(close, Grid());
  }
}
