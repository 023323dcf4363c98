/** Trailing simple moving averages, as computed by `Series.rolling(window=w).mean()`
    in both backtesting scripts. A value is undefined (NaN, here `None`) until its
    window of `w` closes is full. */
module Rolling {
  import opened Wrappers

  /** Every close is strictly positive (the simulators divide by closes). */
  predicate PositivePrices(close: seq<real>)
  {
    forall i :: 0 <= i < |close| ==> close[i] > 0.0
  }

  /** Sum of a sequence, folded from its right end. */
  function Sum(xs: seq<real>): real
  {
    if |xs| == 0 then 0.0 else Sum(xs[..|xs| - 1]) + xs[|xs| - 1]
  }

  /** Arithmetic mean of a non-empty window. */
  function Mean(xs: seq<real>): real
    requires |xs| > 0
  {
    Sum(xs) / |xs| as real
  }

  /** Dropping the first element of a sum takes that element away. */
  lemma {:induction false} SumDropFirst(xs: seq<real>)
    requires |xs| > 0
    ensures Sum(xs) == xs[0] + Sum(xs[1..])
  {
    if |xs| == 1 {
      assert xs[..0] == [];
      assert xs[1..] == [];
    } else {
      var init := xs[..|xs| - 1];
      SumDropFirst(init);
      assert init[1..] == xs[1..][..|xs[1..]| - 1];
      assert xs[1..][|xs[1..]| - 1] == xs[|xs| - 1];
    }
  }

  /** First index of the trailing window of width `w` that ends at `i`,
      clamped at 0 while the window is still filling. */
  function WindowStart(i: nat, w: nat): nat
  {
    if i + 1 >= w then i + 1 - w else 0
  }

  /** The rolling sum, maintained incrementally: each step adds the new close
      and, once the window is full, removes the close that falls out of it. */
  function WindowSum(close: seq<real>, w: nat, i: nat): (r: real)
    requires w >= 1 && i < |close|
    ensures r == Sum(close[WindowStart(i, w)..i + 1])
  {
    if i == 0 then
      assert close[0..1][..0] == [];
      close[0]
    else
      var prev := WindowSum(close, w, i - 1);
      var lo := WindowStart(i, w);
      assert close[lo..i + 1][..i - lo] == close[lo..i];
      if i >= w then
        SumDropFirst(close[i - w..i]);
        assert close[i - w..i][1..] == close[lo..i];
        prev + close[i] - close[i - w]
      else
        prev + close[i]
  }

  /** The moving average of `close` over windows of width `w`. */
  function RollingMean(close: seq<real>, w: nat): (r: seq<Option<real>>)
    requires w >= 1
    ensures |r| == |close|
    ensures forall i :: 0 <= i < |r| ==> (r[i].Some? <==> i + 1 >= w)
    ensures forall i :: 0 <= i < |r| && i + 1 >= w ==> r[i] == Some(Mean(close[i + 1 - w..i + 1]))
  {
    seq(|close|, i requires 0 <= i < |close| =>
      if i + 1 < w then None else Some(WindowSum(close, w, i) / w as real))
  }
}
