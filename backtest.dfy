/** The parts of `run_backtest` (app/main.py) around the library's simulation: the ticker
    is normalised and the downloaded table checked, the library runs (a parameter here),
    and its trade table is turned into the response: one detailed record and two chart
    markers per trade, trade notes, the number of winning trades, the average PnL, the
    longest run of losing trades and the buy-and-hold curve. */
module Backtest {
  import opened Wrappers
  import opened Text
  import opened Indicators
  import opened IndicatorNote
  import opened DataGuard
  import Ticker

  /** One row of the library's trade table (`stats._trades`); times already formatted. */
  datatype TradeRow = TradeRow(
    entryBar: nat, exitBar: nat, entryTime: string, exitTime: string,
    entryPrice: real, exitPrice: real, size: int, pnl: real, returnPct: real)

  /** One entry of `detailed_trades`. */
  datatype DetailedTrade = DetailedTrade(
    entryDate: string, exitDate: string, entryPrice: real, exitPrice: real, size: nat,
    pnl: real, returnPct: real, entryNote: string, exitNote: string)

  datatype Side = BuyMark | SellMark

  /** One entry of `trades`, the chart markers. */
  datatype Marker = Marker(time: string, price: real, side: Side)

  /** `strategy_mode == 'basic'`, or anything else. */
  datatype Mode = Basic | Advanced

  /** The advanced-mode strategy names ("" for none) and their parameter maps. */
  datatype NoteConfig = NoteConfig(
    entryName1: string, entryParams1: Option<Params>, entryName2: string, entryParams2: Option<Params>,
    exitName1: string, exitParams1: Option<Params>, exitName2: string, exitParams2: Option<Params>)

  /** What the notes read from the finished strategy object: the basic-mode attributes
      `sma1`, `sma2`, `rsi_entry`, `rsi_exit` (`None` when the object lacks one) and the
      attributes `get_indicator_note` looks up. */
  datatype StrategyView = StrategyView(
    sma1: Option<Series>, sma2: Option<Series>, rsiEntry: Option<Series>, rsiExit: Option<Series>,
    attrs: Attributes)

  // ------------------------------------------------------------------ notes

  const Separator: string := " | "

  /** `" | ".join(notes)` over the notes that are not empty. */
  function JoinNotes(a: string, b: string): (r: string)
    ensures r == "" <==> a == "" && b == ""
    ensures a == "" ==> r == b
    ensures b == "" ==> r == a
    ensures a != "" && b != "" ==> r == a + Separator + b
  {
    var parts := NonEmpty([a, b]);
    assert parts == (if a == "" then [] else [a]) + (if b == "" then [] else [b]) by {
      assert [a, b][1..] == [b] && [b][1..] == [];
      assert NonEmpty([b]) == (if b == "" then [] else [b]);
    }
    assert |parts| == 2 ==> parts[1..] == [b];
    Join(parts, Separator)
  }

  /** If neither note has whitespace at its ends, the joined note neither starts nor ends
      with the separator. */
  lemma JoinNotesNoEdgeSeparator(a: string, b: string)
    requires NoEdgeSpace(a) && NoEdgeSpace(b)
    ensures !StartsWith(JoinNotes(a, b), Separator)
    ensures !EndsWith(JoinNotes(a, b), Separator)
  {
    var r := JoinNotes(a, b);
    assert r == "" || (!IsSpace(r[0]) && !IsSpace(r[|r| - 1]));
    NotStartingWith(r, Separator);
    NotEndingWith(r, Separator);
  }

  lemma NotStartingWith(r: string, p: string)
    requires p != "" && IsSpace(p[0]) && (r == "" || !IsSpace(r[0]))
    ensures !StartsWith(r, p)
  {
  }

  lemma NotEndingWith(r: string, p: string)
    requires p != "" && IsSpace(p[|p| - 1]) && (r == "" || !IsSpace(r[|r| - 1]))
    ensures !EndsWith(r, p)
  {
  }

  /** Basic mode: `SMA: e1/e2 | RSI: e` at entry and `SMA: x1/x2 | RSI: x` at exit; if
      any of the four attributes is missing the exception leaves both notes empty. */
  function BasicNotes(view: StrategyView, e: nat, x: nat, show: real -> string): (notes: (string, string))
    ensures (notes.0 == "") == (notes.1 == "")
    ensures notes.0 != "" <==>
      view.sma1.Some? && view.sma2.Some? && view.rsiEntry.Some? && view.rsiExit.Some?
  {
    if view.rsiEntry.None? || view.sma1.None? || view.sma2.None? || view.rsiExit.None? then ("", "")
    else
      var s1, s2 := view.sma1.value, view.sma2.value;
      ("SMA: " + Cell(s1, e, show) + "/" + Cell(s2, e, show) + " | RSI: " + Cell(view.rsiEntry.value, e, show),
       "SMA: " + Cell(s1, x, show) + "/" + Cell(s2, x, show) + " | RSI: " + Cell(view.rsiExit.value, x, show))
  }

  /** Advanced mode: the notes of both configured entry (exit) strategies at the entry
      (exit) bar, joined. */
  function AdvancedNotes(view: StrategyView, c: NoteConfig, e: nat, x: nat, show: real -> string): (notes: (string, string))
    ensures notes.0 == "" <==>
      (c.entryName1 == "" || Raises(BranchOf(c.entryName1), c.entryParams1)) &&
      (c.entryName2 == "" || Raises(BranchOf(c.entryName2), c.entryParams2))
    ensures notes.1 == "" <==>
      (c.exitName1 == "" || Raises(BranchOf(c.exitName1), c.exitParams1)) &&
      (c.exitName2 == "" || Raises(BranchOf(c.exitName2), c.exitParams2))
  {
    NoteEmptyIff(view.attrs, c.entryName1, c.entryParams1, e, show);
    NoteEmptyIff(view.attrs, c.entryName2, c.entryParams2, e, show);
    NoteEmptyIff(view.attrs, c.exitName1, c.exitParams1, x, show);
    NoteEmptyIff(view.attrs, c.exitName2, c.exitParams2, x, show);
    (JoinNotes(GetIndicatorNote(view.attrs, c.entryName1, c.entryParams1, e, show),
               GetIndicatorNote(view.attrs, c.entryName2, c.entryParams2, e, show)),
     JoinNotes(GetIndicatorNote(view.attrs, c.exitName1, c.exitParams1, x, show),
               GetIndicatorNote(view.attrs, c.exitName2, c.exitParams2, x, show)))
  }

  /** The entry and exit notes of one trade, read at its entry and exit bars. */
  function TradeNotes(mode: Mode, view: StrategyView, c: NoteConfig, row: TradeRow, show: real -> string): (notes: (string, string))
    ensures mode == Basic ==> (notes.0 == "") == (notes.1 == "")
    ensures mode == Basic ==>
      (notes.0 != "" <==> view.sma1.Some? && view.sma2.Some? && view.rsiEntry.Some? && view.rsiExit.Some?)
    ensures mode == Advanced ==> (notes.0 == "" <==>
      (c.entryName1 == "" || Raises(BranchOf(c.entryName1), c.entryParams1)) &&
      (c.entryName2 == "" || Raises(BranchOf(c.entryName2), c.entryParams2)))
    ensures mode == Advanced ==> (notes.1 == "" <==>
      (c.exitName1 == "" || Raises(BranchOf(c.exitName1), c.exitParams1)) &&
      (c.exitName2 == "" || Raises(BranchOf(c.exitName2), c.exitParams2)))
  {
    match mode
    case Basic => BasicNotes(view, row.entryBar, row.exitBar, show)
    case Advanced => AdvancedNotes(view, c, row.entryBar, row.exitBar, show)
  }

  function Abs(i: int): nat {
    if i < 0 then -i else i
  }

  /** The detailed record of one trade (the return as a percentage). */
  function Detail(row: TradeRow, notes: (string, string)): DetailedTrade {
    DetailedTrade(row.entryTime, row.exitTime, row.entryPrice, row.exitPrice, Abs(row.size),
                  row.pnl, row.returnPct * 100.0, notes.0, notes.1)
  }

  function EntryMarker(row: TradeRow): Marker {
    Marker(row.entryTime, row.entryPrice, BuyMark)
  }

  function ExitMarker(row: TradeRow): Marker {
    Marker(row.exitTime, row.exitPrice, SellMark)
  }

  /** A detailed record keeps the trade's dates, prices and PnL as the library reports
      them, drops the sign of the size (a short trade's size is negative), turns the
      return into a percentage and carries the trade's two notes. */
  lemma DetailRecord(row: TradeRow, notes: (string, string))
    ensures var d := Detail(row, notes);
      && (d.size as int == row.size || d.size as int == -row.size)
      && d.entryDate == row.entryTime && d.exitDate == row.exitTime
      && d.entryPrice == row.entryPrice && d.exitPrice == row.exitPrice && d.pnl == row.pnl
      && d.returnPct == 100.0 * row.returnPct
      && d.entryNote == notes.0 && d.exitNote == notes.1
  {
  }

  /** A trade's chart markers: "buy" at its entry and "sell" at its exit, whatever the
      trade's direction. */
  lemma TradeMarkers(row: TradeRow)
    ensures EntryMarker(row).side == BuyMark && EntryMarker(row).time == row.entryTime
    ensures EntryMarker(row).price == row.entryPrice
    ensures ExitMarker(row).side == SellMark && ExitMarker(row).time == row.exitTime
    ensures ExitMarker(row).price == row.exitPrice
  {
  }

  // ------------------------------------------------------------------ losing streaks

  /** `row['PnL'] < 0`: the trade lost money. */
  predicate Lost(row: TradeRow) {
    row.pnl < 0.0
  }

  /** Trades `i..j` (exclusive) all lost money; a zero PnL is not a loss. */
  predicate LossRun(rows: seq<TradeRow>, i: int, j: int) {
    0 <= i <= j <= |rows| && forall k | i <= k < j :: Lost(rows[k])
  }

  /** `m` is the length of the longest run of consecutive losing trades among the first
      `n` trades. */
  ghost predicate LongestLossRunIn(rows: seq<TradeRow>, n: nat, m: nat)
    requires n <= |rows|
  {
    && (exists i, j | 0 <= i <= j <= n :: LossRun(rows, i, j) && j - i == m)
    && (forall i, j | 0 <= i <= j <= n && LossRun(rows, i, j) :: j - i <= m)
  }

  ghost predicate IsLongestLossRun(rows: seq<TradeRow>, m: nat) {
    LongestLossRunIn(rows, |rows|, m)
  }

  /** The loss-run length is at most the number of trades, and zero exactly when no
      trade lost money. */
  lemma LongestLossRunBounds(rows: seq<TradeRow>, m: nat)
    requires IsLongestLossRun(rows, m)
    ensures m <= |rows|
    ensures m == 0 <==> forall k | 0 <= k < |rows| :: !Lost(rows[k])
  {
    var i, j :| 0 <= i <= j <= |rows| && LossRun(rows, i, j) && j - i == m;
    if m > 0 {
      assert Lost(rows[i]);
    }
    forall k | 0 <= k < |rows| && Lost(rows[k])
      ensures m > 0
    {
      assert LossRun(rows, k, k + 1);
    }
  }

  /** The facts `current_loss` (`cur`) and `max_consecutive_loss` (`m`) keep after `n`
      trades: `cur` is the length of the losing run that ends the prefix, and `m` the
      longest losing run within it. */
  ghost predicate StreakState(rows: seq<TradeRow>, n: nat, cur: nat, m: nat)
    requires n <= |rows|
  {
    && cur <= n && LossRun(rows, n - cur, n)
    && (n - cur > 0 ==> !Lost(rows[n - cur - 1]))
    && cur <= m && LongestLossRunIn(rows, n, m)
  }

  /** Python's `max` of two counters. */
  function Max(a: nat, b: nat): (m: nat)
    ensures m >= a && m >= b && (m == a || m == b)
  {
    if a >= b then a else b
  }

  /** Length of the losing run that ends with trade `n - 1`: what `current_loss` holds
      after `n` trades. */
  function TrailingLosses(rows: seq<TradeRow>, n: nat): (cur: nat)
    requires n <= |rows|
    ensures cur <= n
  {
    if n == 0 then 0
    else if Lost(rows[n - 1]) then TrailingLosses(rows, n - 1) + 1
    else 0
  }

  /** What `max_consecutive_loss` holds after `n` trades. */
  function LongestLosses(rows: seq<TradeRow>, n: nat): (m: nat)
    requires n <= |rows|
    ensures TrailingLosses(rows, n) <= m <= n
  {
    if n == 0 then 0 else Max(LongestLosses(rows, n - 1), TrailingLosses(rows, n))
  }

  /** The counters computed step by step are the trailing and the longest losing run
      of the prefix. */
  lemma {:induction false} LongestLossesIsLongest(rows: seq<TradeRow>, n: nat)
    requires n <= |rows|
    ensures StreakState(rows, n, TrailingLosses(rows, n), LongestLosses(rows, n))
  {
    if n == 0 {
      assert LossRun(rows, 0, 0);
    } else {
      LongestLossesIsLongest(rows, n - 1);
      ExtendLongest(rows, n - 1, TrailingLosses(rows, n - 1), LongestLosses(rows, n - 1),
                    TrailingLosses(rows, n), LongestLosses(rows, n));
    }
  }

  /** The post-processing loop of `run_backtest`: per trade, one detailed record and an
      entry ("buy") and exit ("sell") marker, in trade order, while `current_loss` counts
      the current losing streak and `max_consecutive_loss` keeps the longest one. The
      notes of a trade come from `notesOf` (`TradeNotes` in `RunBacktest`). */
  method ProcessTrades(rows: seq<TradeRow>, notesOf: TradeRow -> (string, string))
    returns (detailed: seq<DetailedTrade>, chart: seq<Marker>, maxConsecutiveLoss: nat)
    ensures |detailed| == |rows| && |chart| == 2 * |rows|
    ensures forall k | 0 <= k < |rows| :: detailed[k] == Detail(rows[k], notesOf(rows[k]))
    ensures forall k | 0 <= k < |rows| :: chart[2 * k] == EntryMarker(rows[k]) && chart[2 * k + 1] == ExitMarker(rows[k])
    ensures maxConsecutiveLoss == LongestLosses(rows, |rows|)
  {
    detailed, chart := [], [];
    maxConsecutiveLoss := 0;
    var currentLoss: nat := 0;
    var n := 0;
    while n < |rows|
      invariant 0 <= n <= |rows|
      invariant |detailed| == n && |chart| == 2 * n
      invariant forall k | 0 <= k < n :: detailed[k] == Detail(rows[k], notesOf(rows[k]))
      invariant forall k | 0 <= k < n :: chart[2 * k] == EntryMarker(rows[k]) && chart[2 * k + 1] == ExitMarker(rows[k])
      invariant currentLoss == TrailingLosses(rows, n)
      invariant maxConsecutiveLoss == LongestLosses(rows, n)
    {
      var row := rows[n];
      var notes := notesOf(row);
      detailed := detailed + [Detail(row, notes)];
      chart := chart + [EntryMarker(row), ExitMarker(row)];
      if Lost(row) {
        currentLoss := currentLoss + 1;
        maxConsecutiveLoss := Max(maxConsecutiveLoss, currentLoss);
      } else {
        currentLoss := 0;
      }
      n := n + 1;
    }
  }

  /** The value the loop leaves in `max_consecutive_loss` is the longest run of
      consecutive losing trades: at most the trade count, and 0 exactly when no trade
      lost money. */
  lemma MaxConsecutiveLoss(rows: seq<TradeRow>)
    ensures IsLongestLossRun(rows, LongestLosses(rows, |rows|))
    ensures LongestLosses(rows, |rows|) <= |rows|
    ensures LongestLosses(rows, |rows|) == 0 <==> forall k | 0 <= k < |rows| :: !Lost(rows[k])
  {
    LongestLossesIsLongest(rows, |rows|);
    LongestLossRunBounds(rows, LongestLosses(rows, |rows|));
  }

  /** One step of the streak counters keeps both loop facts. */
  lemma ExtendLongest(rows: seq<TradeRow>, n: nat, cur: nat, m: nat, cur': nat, m': nat)
    requires n < |rows|
    requires StreakState(rows, n, cur, m)
    requires cur' == (if Lost(rows[n]) then cur + 1 else 0)
    requires m' == Max(m, cur')
    ensures StreakState(rows, n + 1, cur', m')
  {
    var i0, j0 :| 0 <= i0 <= j0 <= n && LossRun(rows, i0, j0) && j0 - i0 == m;
    if m' != m {
      assert LossRun(rows, n + 1 - cur', n + 1);
    } else {
      assert LossRun(rows, i0, j0);
    }
    forall i, j | 0 <= i <= j <= n + 1 && LossRun(rows, i, j)
      ensures j - i <= m'
    {
      if j <= n {
        assert LossRun(rows, i, j);
      } else if n - cur > 0 {
        LossRunExcludes(rows, i, j, n - cur - 1);
      }
    }
  }

  /** A trade that did not lose money lies outside every losing run. */
  lemma LossRunExcludes(rows: seq<TradeRow>, i: int, j: int, k: int)
    requires LossRun(rows, i, j) && 0 <= k < |rows| && !Lost(rows[k])
    ensures k < i || j <= k
  {
  }

  // ------------------------------------------------------------------ summary numbers

  /** The indices of the trades that made money (PnL strictly above zero). */
  function WinIndices(rows: seq<TradeRow>): set<nat> {
    set k: nat | k < |rows| && rows[k].pnl > 0.0
  }

  /** `len(trades_df[trades_df['PnL'] > 0])`, and 0 for an empty table. */
  function WinningTrades(rows: seq<TradeRow>): (w: nat)
    ensures w == |WinIndices(rows)|
    ensures w <= |rows|
  {
    if rows == [] then
      assert WinIndices(rows) == {};
      0
    else
      var init := rows[..|rows| - 1];
      var last := |rows| - 1;
      var w0 := WinningTrades(init);
      assert WinIndices(rows) == WinIndices(init) + (if rows[last].pnl > 0.0 then {last} else {});
      w0 + if rows[last].pnl > 0.0 then 1 else 0
  }

  /** Every trade is counted as a win exactly when all made money, and none is
      counted exactly when none did. */
  lemma {:induction false} WinningTradesAll(rows: seq<TradeRow>)
    ensures WinningTrades(rows) == |rows| <==> forall k | 0 <= k < |rows| :: rows[k].pnl > 0.0
    ensures WinningTrades(rows) == 0 <==> forall k | 0 <= k < |rows| :: rows[k].pnl <= 0.0
  {
    if rows != [] {
      var init := rows[..|rows| - 1];
      WinningTradesAll(init);
      assert forall k | 0 <= k < |init| :: init[k] == rows[k];
    }
  }

  function Pnls(rows: seq<TradeRow>): (p: seq<real>)
    ensures |p| == |rows| && forall k | 0 <= k < |rows| :: p[k] == rows[k].pnl
  {
    seq(|rows|, k requires 0 <= k < |rows| => rows[k].pnl)
  }

  /** `trades_df['PnL'].mean()`, and 0 for an empty table. */
  function AvgPnl(rows: seq<TradeRow>): (a: real)
    ensures rows == [] ==> a == 0.0
    ensures a * |rows| as real == Sum(Pnls(rows))
  {
    if rows == [] then 0.0 else Sum(Pnls(rows)) / |rows| as real
  }

  lemma {:induction false} SumAbove(s: seq<real>, c: real)
    requires |s| > 0 && forall k | 0 <= k < |s| :: s[k] > c
    ensures Sum(s) > |s| as real * c
  {
    if |s| > 1 {
      SumAbove(s[1..], c);
    }
  }

  lemma {:induction false} SumBelow(s: seq<real>, c: real)
    requires |s| > 0 && forall k | 0 <= k < |s| :: s[k] < c
    ensures Sum(s) < |s| as real * c
  {
    if |s| > 1 {
      SumBelow(s[1..], c);
    }
  }

  /** The average PnL lies between the worst and the best trade. */
  lemma AvgPnlWithinTrades(rows: seq<TradeRow>)
    requires rows != []
    ensures exists k | 0 <= k < |rows| :: rows[k].pnl <= AvgPnl(rows)
    ensures exists k | 0 <= k < |rows| :: AvgPnl(rows) <= rows[k].pnl
  {
    var a := AvgPnl(rows);
    var p := Pnls(rows);
    var n := |rows| as real;
    assert a * n == Sum(p);
    if forall k | 0 <= k < |rows| :: rows[k].pnl > a {
      SumAbove(p, a);
      assert false;
    }
    if forall k | 0 <= k < |rows| :: rows[k].pnl < a {
      SumBelow(p, a);
      assert false;
    }
  }

  // ------------------------------------------------------------------ curves

  datatype Point = Point(time: string, value: real)

  /** `(Close / first) * cash` per bar when the first close is positive, else empty. */
  function BuyAndHold(bars: seq<Bar>, cash: real): (r: seq<Point>)
    ensures bars == [] || bars[0].close <= 0.0 ==> r == []
    ensures bars != [] && bars[0].close > 0.0 ==> |r| == |bars| && r[0].value == cash
    ensures forall k | 0 <= k < |r| :: r[k].time == bars[k].time
  {
    if bars == [] || bars[0].close <= 0.0 then []
    else
      var first := bars[0].close;
      assert first / first == 1.0;
      seq(|bars|, k requires 0 <= k < |bars| => Point(bars[k].time, (bars[k].close / first) * cash))
  }

  /** Buy-and-hold equity moves with the close: any two points stand in the ratio of
      their closes, and with positive cash the higher close gives the higher value. */
  lemma BuyAndHoldProportional(bars: seq<Bar>, cash: real, j: nat, k: nat)
    requires bars != [] && bars[0].close > 0.0 && j < |bars| && k < |bars|
    ensures BuyAndHold(bars, cash)[j].value * bars[k].close == BuyAndHold(bars, cash)[k].value * bars[j].close
    ensures cash > 0.0 ==>
      (bars[j].close <= bars[k].close <==> BuyAndHold(bars, cash)[j].value <= BuyAndHold(bars, cash)[k].value)
  {
    var v := BuyAndHold(bars, cash);
    var first, cj, ck := bars[0].close, bars[j].close, bars[k].close;
    var unit := cash / first;
    ScaleByRatio(cj, first, cash);
    ScaleByRatio(ck, first, cash);
    assert v[j].value == cj * unit && v[k].value == ck * unit;
    assert v[k].value - v[j].value == (ck - cj) * unit;
    if cash > 0.0 {
      assert unit > 0.0;
    }
  }

  lemma ScaleByRatio(a: real, d: real, c: real)
    requires d != 0.0
    ensures (a / d) * c == a * (c / d)
  {
  }

  /** `price_data`: the close of every bar. */
  function PriceData(bars: seq<Bar>): (r: seq<Point>)
    ensures |r| == |bars|
    ensures forall k | 0 <= k < |bars| :: r[k] == Point(bars[k].time, bars[k].close)
  {
    seq(|bars|, k requires 0 <= k < |bars| => Point(bars[k].time, bars[k].close))
  }

  // ------------------------------------------------------------------ the request

  /** The request fields this model reads; the rest configure the library's run and are
      folded into the `simulate` parameter of `RunBacktest`. */
  datatype Request = Request(ticker: string, cash: real, mode: Mode, notes: NoteConfig)

  /** What the library's run hands back: the trade table and the strategy object. */
  datatype Simulation = Simulation(trades: seq<TradeRow>, view: StrategyView)

  datatype Response = Response(
    ticker: string, winningTrades: nat, avgPnl: real, maxConsecutiveLoss: nat,
    priceData: seq<Point>, buyAndHoldCurve: seq<Point>,
    trades: seq<Marker>, detailedTrades: seq<DetailedTrade>)

  /** `run_backtest`: normalise the ticker, download, check the table, run the library,
      post-process. `download` stands for the data provider (with the column checks of
      `get_yfinance_data`), `simulate` for the library's `Backtest(...).run(...)`. */
  method RunBacktest(req: Request, download: string -> Option<seq<Bar>>,
                     simulate: seq<Bar> -> Simulation, show: real -> string)
    returns (res: Result<Response, HttpError>)
    ensures var checked := CheckData(download(Ticker.Normalize(req.ticker)));
      && (res.Failure? <==> checked.Failure?)
      && (res.Failure? ==> res.error == checked.error)
    ensures res.Success? ==>
      var bars := download(Ticker.Normalize(req.ticker)).value;
      var sim := simulate(bars);
      var out := res.value;
      && |bars| >= MinBars
      && out.ticker == Ticker.Normalize(req.ticker)
      && out.winningTrades == |WinIndices(sim.trades)|
      && out.avgPnl == AvgPnl(sim.trades)
      && IsLongestLossRun(sim.trades, out.maxConsecutiveLoss)
      && out.priceData == PriceData(bars)
      && out.buyAndHoldCurve == BuyAndHold(bars, req.cash)
      && |out.detailedTrades| == |sim.trades| && |out.trades| == 2 * |sim.trades|
      && (forall k | 0 <= k < |sim.trades| ::
            out.detailedTrades[k] == Detail(sim.trades[k], TradeNotes(req.mode, sim.view, req.notes, sim.trades[k], show)))
      && (forall k | 0 <= k < |sim.trades| ::
            out.trades[2 * k] == EntryMarker(sim.trades[k]) && out.trades[2 * k + 1] == ExitMarker(sim.trades[k]))
  {
    var ticker := Ticker.Normalize(req.ticker);
    var checked := CheckData(download(ticker));
    if checked.Failure? {
      return Failure(checked.error);
    }
    var bars := checked.value;
    var sim := simulate(bars);
    var detailed, chart, maxLoss := ProcessTrades(sim.trades, row => TradeNotes(req.mode, sim.view, req.notes, row, show));
    MaxConsecutiveLoss(sim.trades);
    res := Success(Response(ticker, WinningTrades(sim.trades), AvgPnl(sim.trades), maxLoss,
                            PriceData(bars), BuyAndHold(bars, req.cash), chart, detailed));
  }
}
