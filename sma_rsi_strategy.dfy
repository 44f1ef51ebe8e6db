/** `SmaRsiStrategy` of app/strategy.py: a long-only moving-average cross strategy.
    `init` computes a short SMA, a long SMA and an RSI of the closes; each `next` call
    closes an open position on a death cross, or, when flat, buys on a golden cross
    while RSI is below the overbought level, with optional stop-loss and take-profit
    prices derived from percentages. Orders are handed to the backtesting library, which
    fills them later; `crossover` is the library's and is passed in, never defined. */
module SmaRsi {
  import opened Wrappers
  import opened Indicators

  /** An order given to the library: `position.close()` or `buy(sl=..., tp=...)`. */
  datatype Order = Close | Buy(sl: Option<real>, tp: Option<real>)

  /** `price * (1 - pct / 100)` and `price * (1 + pct / 100)`. */
  function PctBelow(price: real, pct: real): real {
    price * (1.0 - pct / 100.0)
  }

  function PctAbove(price: real, pct: real): real {
    price * (1.0 + pct / 100.0)
  }

  /** The stop-loss price for an entry at `price`: set only for a positive percentage,
      and then `slPct` percent of the price below it. */
  function StopLossPrice(price: real, slPct: real): (sl: Option<real>)
    ensures sl.Some? <==> slPct > 0.0
    ensures sl.Some? ==> price - sl.value == price * slPct / 100.0
    ensures sl.Some? && price > 0.0 ==> sl.value < price
  {
    if slPct > 0.0 then Some(PctBelow(price, slPct)) else None
  }

  /** The take-profit price: set only for a positive percentage, and then `tpPct`
      percent of the price above it. */
  function TakeProfitPrice(price: real, tpPct: real): (tp: Option<real>)
    ensures tp.Some? <==> tpPct > 0.0
    ensures tp.Some? ==> tp.value - price == price * tpPct / 100.0
    ensures tp.Some? && price > 0.0 ==> tp.value > price
  {
    if tpPct > 0.0 then Some(PctAbove(price, tpPct)) else None
  }

  /** The decision of one `next` call. `deathCross` is `crossover(sma2, sma1)`,
      `goldenCross` is `crossover(sma1, sma2)`, `rsiNow` is `rsi[-1]` (`None` for NaN,
      which fails every comparison). */
  function Decide(inPosition: bool, deathCross: bool, goldenCross: bool, rsiNow: Option<real>,
                  overbought: real, price: real, slPct: real, tpPct: real): (o: Option<Order>)
    ensures inPosition ==> (o.Some? <==> deathCross) && (o.Some? ==> o.value.Close?)
    ensures !inPosition ==>
      (o.Some? <==> goldenCross && rsiNow.Some? && rsiNow.value < overbought)
    ensures !inPosition && o.Some? ==>
      o.value == Buy(StopLossPrice(price, slPct), TakeProfitPrice(price, tpPct))
  {
    if inPosition then
      if deathCross then Some(Close) else None
    else if goldenCross && rsiNow.Some? && rsiNow.value < overbought then
      Some(Buy(StopLossPrice(price, slPct), TakeProfitPrice(price, tpPct)))
    else None
  }

  /** The orders one decision adds to the log: none or exactly one. */
  function Placed(o: Option<Order>): (r: seq<Order>)
    ensures |r| <= 1
    ensures r == [] <==> o.None?
  {
    if o.Some? then [o.value] else []
  }

  /** A buy placed at a positive price brackets it: any stop below, any target above. */
  lemma BuyBracketsPrice(inPosition: bool, deathCross: bool, goldenCross: bool, rsiNow: Option<real>,
                         overbought: real, price: real, slPct: real, tpPct: real,
                         sl: Option<real>, tp: Option<real>)
    requires price > 0.0
    requires Decide(inPosition, deathCross, goldenCross, rsiNow, overbought, price, slPct, tpPct)
             == Some(Buy(sl, tp))
    ensures !inPosition && goldenCross
    ensures sl.Some? ==> sl.value < price
    ensures tp.Some? ==> price < tp.value
  {
  }

  class SmaRsiStrategy {
    // Parameters: class attributes the caller may override.
    const n1: nat
    const n2: nat
    const nRsi: nat
    const rsiOverbought: real
    const slPct: real
    const tpPct: real

    var close: seq<real>
    var sma1: Series
    var sma2: Series
    var rsi: Series
    /** Whether the library reports an open position (`bool(self.position)`). */
    var position: bool
    /** The orders handed to the library so far. */
    var orders: seq<Order>

    /** The indicator fields are those of the closes, as `init` leaves them. */
    ghost predicate Valid()
      reads this`close, this`sma1, this`sma2, this`rsi
    {
      && sma1 == Sma(close, n1)
      && sma2 == Sma(close, n2)
      && rsi == Rsi(close, nRsi)
    }

    /** A strategy with the given parameters, before `init`. */
    constructor (n1: nat, n2: nat, nRsi: nat, rsiOverbought: real, slPct: real, tpPct: real)
      ensures this.n1 == n1 && this.n2 == n2 && this.nRsi == nRsi
      ensures this.rsiOverbought == rsiOverbought && this.slPct == slPct && this.tpPct == tpPct
      ensures close == [] && Valid() && !position && orders == []
    {
      this.n1, this.n2, this.nRsi := n1, n2, nRsi;
      this.rsiOverbought, this.slPct, this.tpPct := rsiOverbought, slPct, tpPct;
      close, sma1, sma2, rsi := [], [], [], [];
      position, orders := false, [];
    }

    /** The class-attribute defaults. */
    constructor Default()
      ensures n1 == 10 && n2 == 60 && nRsi == 14 && rsiOverbought == 70.0
      ensures slPct == 0.0 && tpPct == 0.0
      ensures close == [] && Valid() && !position && orders == []
    {
      n1, n2, nRsi := 10, 60, 14;
      rsiOverbought, slPct, tpPct := 70.0, 0.0, 0.0;
      close, sma1, sma2, rsi := [], [], [], [];
      position, orders := false, [];
    }

    /** `init`: the three indicators over the closing prices. */
    method Init(closes: seq<real>)
      modifies this
      ensures Valid() && close == closes
      ensures |sma1| == |sma2| == |rsi| == |closes|
      ensures position == old(position) && orders == old(orders)
    {
      close := closes;
      sma1 := Sma(closes, n1);
      sma2 := Sma(closes, n2);
      rsi := Rsi(closes, nRsi);
    }

    /** `next` at bar `t`: the library shows the strategy every series up to bar `t`.
        On a flat price series RSI is NaN, so a flat strategy places nothing there. */
    method Next(t: nat, crossover: (Series, Series) -> bool)
      requires Valid() && t < |close|
      modifies this`orders
      ensures Valid()
      ensures orders == old(orders) + Placed(Decide(position,
        crossover(sma2[..t + 1], sma1[..t + 1]), crossover(sma1[..t + 1], sma2[..t + 1]),
        rsi[t], rsiOverbought, close[t], slPct, tpPct))
      ensures !position && (forall k | 0 <= k < |close| :: close[k] == close[t]) ==> orders == old(orders)
    {
      ghost var flat := forall k | 0 <= k < |close| :: close[k] == close[t];
      if flat {
        RsiFlat(close, nRsi, close[t]);
      }
      var price := close[t];
      if position {
        if crossover(sma2[..t + 1], sma1[..t + 1]) {
          orders := orders + [Close];
        }
      } else if crossover(sma1[..t + 1], sma2[..t + 1]) && rsi[t].Some? && rsi[t].value < rsiOverbought {
        var sl: Option<real> := None;
        var tp: Option<real> := None;
        if slPct > 0.0 {
          sl := Some(PctBelow(price, slPct));
        }
        if tpPct > 0.0 {
          tp := Some(PctAbove(price, tpPct));
        }
        assert sl == StopLossPrice(price, slPct);
        assert tp == TakeProfitPrice(price, tpPct);
        orders := orders + [Buy(sl, tp)];
      }
    }
  }

  /** On a flat price series RSI is NaN, so a flat strategy never buys, whatever the
      crossover says. */
  lemma FlatSeriesNeverBuys(closes: seq<real>, c: real, nRsi: nat, t: nat, deathCross: bool,
                            goldenCross: bool, overbought: real, slPct: real, tpPct: real)
    requires forall k | 0 <= k < |closes| :: closes[k] == c
    requires t < |closes|
    ensures Decide(false, deathCross, goldenCross, Rsi(closes, nRsi)[t], overbought, closes[t], slPct, tpPct) == None
  {
    RsiFlat(closes, nRsi, c);
  }
}
