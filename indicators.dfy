/** The two indicator pipelines of app/strategy.py over exact real arithmetic.
    `SMA(values, n)` is pandas' `rolling(n).mean()`; `RSI(values, n)` takes the first
    difference, splits it into gains and losses (the leading NaN difference becomes 0
    through `where(..., 0)`), averages each with `rolling(n).mean()` and maps the ratio
    into `100 - 100 / (1 + rs)`. A `None` cell is pandas' NaN. */
module Indicators {
  import opened Wrappers

  type Series = seq<Option<real>>

  function Sum(s: seq<real>): real {
    if s == [] then 0.0 else s[0] + Sum(s[1..])
  }

  lemma {:induction false} SumAppend(s: seq<real>, x: real)
    ensures Sum(s + [x]) == Sum(s) + x
  {
    if s != [] {
      assert (s + [x])[1..] == s[1..] + [x];
      SumAppend(s[1..], x);
    }
  }

  lemma {:induction false} SumBounds(s: seq<real>, lo: real, hi: real)
    requires forall k | 0 <= k < |s| :: lo <= s[k] <= hi
    ensures |s| as real * lo <= Sum(s) <= |s| as real * hi
  {
    if s != [] {
      SumBounds(s[1..], lo, hi);
    }
  }

  lemma {:induction false} SumConstant(s: seq<real>, c: real)
    requires forall k | 0 <= k < |s| :: s[k] == c
    ensures Sum(s) == |s| as real * c
  {
    if s != [] {
      SumConstant(s[1..], c);
    }
  }

  lemma DivDifference(a: real, b: real, d: real)
    requires d > 0.0
    ensures a / d - b / d == (a - b) / d
  {
  }

  lemma DivCancel(d: real, c: real)
    requires d > 0.0
    ensures (d * c) / d == c
  {
  }

  // ------------------------------------------------------------------ SMA

  /** The mean of the `n` values ending at index `i`. */
  function WindowMean(values: seq<real>, n: nat, i: nat): real
    requires 1 <= n <= i + 1 <= |values|
  {
    Sum(values[i + 1 - n..i + 1]) / n as real
  }

  /** `pd.Series(values).rolling(n).mean()`: defined from index `n - 1` on. */
  function Sma(values: seq<real>, n: nat): (r: Series)
    ensures |r| == |values|
    ensures forall i | 0 <= i < |values| :: r[i].Some? <==> 1 <= n <= i + 1
  {
    seq(|values|, i requires 0 <= i < |values| =>
      if 1 <= n <= i + 1 then Some(WindowMean(values, n, i)) else None)
  }

  /** Each defined cell lies between the smallest and the largest value of its window. */
  lemma SmaWithinWindow(values: seq<real>, n: nat, i: nat, lo: real, hi: real)
    requires 1 <= n <= i + 1 <= |values|
    requires forall k | i + 1 - n <= k <= i :: lo <= values[k] <= hi
    ensures lo <= Sma(values, n)[i].value <= hi
  {
    var w := values[i + 1 - n..i + 1];
    SumBounds(w, lo, hi);
    assert |w| == n;
  }

  /** On a flat series every defined cell is the flat price. */
  lemma SmaFlat(values: seq<real>, n: nat, c: real, i: nat)
    requires forall k | 0 <= k < |values| :: values[k] == c
    requires 1 <= n <= i + 1 <= |values|
    ensures Sma(values, n)[i] == Some(c)
  {
    var w := values[i + 1 - n..i + 1];
    SumConstant(w, c);
    assert |w| == n;
    DivCancel(n as real, c);
    assert WindowMean(values, n, i) == Sum(w) / n as real == c;
  }

  /** The rolling update: moving the window one bar on adds the new value and drops the
      oldest, each weighted `1 / n`. */
  lemma SmaRollingStep(values: seq<real>, n: nat, i: nat)
    requires 1 <= n <= i + 1 && i + 1 < |values|
    ensures Sma(values, n)[i + 1].value - Sma(values, n)[i].value
            == (values[i + 1] - values[i + 1 - n]) / n as real
  {
    var mid := values[i + 2 - n..i + 1];
    assert values[i + 1 - n..i + 1] == [values[i + 1 - n]] + mid;
    assert values[i + 2 - n..i + 2] == mid + [values[i + 1]];
    SumAppend(mid, values[i + 1]);
    assert ([values[i + 1 - n]] + mid)[1..] == mid;
    var s0 := Sum(values[i + 1 - n..i + 1]);
    var s1 := Sum(values[i + 2 - n..i + 2]);
    assert s1 - s0 == values[i + 1] - values[i + 1 - n];
    DivDifference(s1, s0, n as real);
  }

  /** On a strictly rising series every SMA is strictly rising once defined. */
  lemma SmaRising(values: seq<real>, n: nat, i: nat)
    requires forall k | 0 < k < |values| :: values[k - 1] < values[k]
    requires 1 <= n <= i + 1 && i + 1 < |values|
    ensures Sma(values, n)[i].value < Sma(values, n)[i + 1].value
  {
    SmaRollingStep(values, n, i);
    RisingApart(values, i + 1 - n, i + 1);
  }

  lemma {:induction false} RisingApart(values: seq<real>, a: nat, b: nat)
    requires forall k | 0 < k < |values| :: values[k - 1] < values[k]
    requires a < b < |values|
    ensures values[a] < values[b]
  {
    if a + 1 < b {
      RisingApart(values, a, b - 1);
    }
  }

  // ------------------------------------------------------------------ RSI

  /** `pd.Series(values).diff()` with its leading NaN already replaced by 0. */
  function Delta(values: seq<real>, i: nat): real
    requires i < |values|
  {
    if i == 0 then 0.0 else values[i] - values[i - 1]
  }

  /** `delta.where(delta > 0, 0)`. */
  function Gains(values: seq<real>): (g: seq<real>)
    ensures |g| == |values|
    ensures forall i | 0 <= i < |g| :: g[i] >= 0.0
  {
    seq(|values|, i requires 0 <= i < |values| => if Delta(values, i) > 0.0 then Delta(values, i) else 0.0)
  }

  /** `-delta.where(delta < 0, 0)`. */
  function Losses(values: seq<real>): (l: seq<real>)
    ensures |l| == |values|
    ensures forall i | 0 <= i < |l| :: l[i] >= 0.0
  {
    seq(|values|, i requires 0 <= i < |values| => if Delta(values, i) < 0.0 then -Delta(values, i) else 0.0)
  }

  /** A rolling mean of non-negative values is non-negative. */
  lemma SmaNonNegative(values: seq<real>, n: nat)
    requires forall k | 0 <= k < |values| :: values[k] >= 0.0
    ensures forall i | 0 <= i < |values| && Sma(values, n)[i].Some? :: Sma(values, n)[i].value >= 0.0
  {
    forall i | 0 <= i < |values| && Sma(values, n)[i].Some?
      ensures Sma(values, n)[i].value >= 0.0
    {
      SumBounds(values[i + 1 - n..i + 1], 0.0, 0.0 + MaxOf(values));
    }
  }

  function MaxOf(s: seq<real>): (m: real)
    ensures forall k | 0 <= k < |s| :: s[k] <= m
  {
    if s == [] then 0.0
    else var t := MaxOf(s[1..]); if s[0] > t then s[0] else t
  }

  /** `100 - 100 / (1 + gain / loss)` on averages. With no average loss the float
      division gives an infinite ratio and RSI 100; with neither gain nor loss it is NaN. */
  function RsiOfAverages(gain: real, loss: real): (r: Option<real>)
    requires gain >= 0.0 && loss >= 0.0
    ensures r.Some? <==> gain > 0.0 || loss > 0.0
    ensures r.Some? ==> 0.0 <= r.value <= 100.0
    ensures r.Some? ==> (r.value < 100.0 <==> loss > 0.0)
    ensures r.Some? ==> r.value * (gain + loss) == 100.0 * gain
  {
    if loss > 0.0 then
      var rs := gain / loss;
      assert 100.0 / (1.0 + rs) == 100.0 * loss / (gain + loss);
      Some(100.0 - 100.0 / (1.0 + rs))
    else if gain > 0.0 then Some(100.0)
    else None
  }

  /** `RSI(values, n)` of app/strategy.py. */
  function Rsi(values: seq<real>, n: nat): (r: Series)
    ensures |r| == |values|
    ensures forall i | 0 <= i < |values| && r[i].Some? :: 1 <= n <= i + 1
    ensures forall i | 0 <= i < |values| && r[i].Some? :: 0.0 <= r[i].value <= 100.0
  {
    var gain := Sma(Gains(values), n);
    var loss := Sma(Losses(values), n);
    SmaNonNegative(Gains(values), n);
    SmaNonNegative(Losses(values), n);
    seq(|values|, i requires 0 <= i < |values| =>
      if gain[i].Some? && loss[i].Some? then RsiOfAverages(gain[i].value, loss[i].value) else None)
  }

  /** The average gain and loss of the window ending at `i`, when it is complete. */
  lemma RsiAverages(values: seq<real>, n: nat, i: nat)
    requires 1 <= n <= i + 1 <= |values|
    ensures var g := WindowMean(Gains(values), n, i);
            var l := WindowMean(Losses(values), n, i);
            g >= 0.0 && l >= 0.0 && Rsi(values, n)[i] == RsiOfAverages(g, l)
  {
    SmaNonNegative(Gains(values), n);
    SmaNonNegative(Losses(values), n);
    assert Sma(Gains(values), n)[i] == Some(WindowMean(Gains(values), n, i));
    assert Sma(Losses(values), n)[i] == Some(WindowMean(Losses(values), n, i));
  }

  /** Gains minus losses over bars `a..b` telescope to the price change across them. */
  lemma {:induction false} GainsMinusLosses(values: seq<real>, a: nat, b: nat)
    requires 1 <= a <= b <= |values|
    ensures Sum(Gains(values)[a..b]) - Sum(Losses(values)[a..b]) == values[b - 1] - values[a - 1]
  {
    if a < b {
      GainsMinusLosses(values, a, b - 1);
      assert Gains(values)[a..b] == Gains(values)[a..b - 1] + [Gains(values)[b - 1]];
      assert Losses(values)[a..b] == Losses(values)[a..b - 1] + [Losses(values)[b - 1]];
      SumAppend(Gains(values)[a..b - 1], Gains(values)[b - 1]);
      SumAppend(Losses(values)[a..b - 1], Losses(values)[b - 1]);
    }
  }

  /** Average gain minus average loss is the price change across the window, over `n`.
      For the first complete window (`i == n - 1`) the change is measured from bar 0,
      because the first difference counts as 0. */
  lemma RsiAveragesTelescope(values: seq<real>, n: nat, i: nat)
    requires 1 <= n <= i + 1 <= |values|
    ensures var start := if i >= n then i - n else 0;
            WindowMean(Gains(values), n, i) - WindowMean(Losses(values), n, i)
            == (values[i] - values[start]) / n as real
  {
    var a := i + 1 - n;
    var g := Gains(values);
    var l := Losses(values);
    if a >= 1 {
      GainsMinusLosses(values, a, i + 1);
    } else {
      assert g[0..i + 1] == [g[0]] + g[1..i + 1];
      assert l[0..i + 1] == [l[0]] + l[1..i + 1];
      assert ([g[0]] + g[1..i + 1])[1..] == g[1..i + 1];
      assert ([l[0]] + l[1..i + 1])[1..] == l[1..i + 1];
      GainsMinusLosses(values, 1, i + 1);
    }
    var start := if i >= n then i - n else 0;
    assert Sum(g[a..i + 1]) - Sum(l[a..i + 1]) == values[i] - values[start];
    DivDifference(Sum(g[a..i + 1]), Sum(l[a..i + 1]), n as real);
  }

  /** On a flat series RSI is NaN everywhere: there is neither gain nor loss. */
  lemma RsiFlat(values: seq<real>, n: nat, c: real)
    requires forall k | 0 <= k < |values| :: values[k] == c
    ensures forall i | 0 <= i < |values| :: Rsi(values, n)[i] == None
  {
    forall i | 0 <= i < |values|
      ensures Rsi(values, n)[i] == None
    {
      if 1 <= n <= i + 1 {
        RsiAverages(values, n, i);
        SumConstant(Gains(values)[i + 1 - n..i + 1], 0.0);
        SumConstant(Losses(values)[i + 1 - n..i + 1], 0.0);
      }
    }
  }
}
