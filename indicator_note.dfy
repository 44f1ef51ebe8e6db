/** `get_indicator_note` of app/main.py: the short text shown beside a trade for one
    configured strategy. The strategy name selects a branch by substring, in the fixed
    order SMA, RSI, MACD, KD, BB; the branch converts its period parameters with `int()`,
    looks the indicator up on the finished strategy object and renders its value(s) at
    the trade's bar. Any exception yields "", and a name that matches no branch, or a
    MACD/KD/BB indicator the strategy does not have, yields the name itself. */
module IndicatorNote {
  import opened Wrappers
  import opened Text
  import opened Indicators

  /** A strategy parameter value as it arrives in the request's parameter map. */
  datatype Param = PInt(i: int) | PReal(r: real) | PText(s: string) | PNone

  type Params = map<string, Param>

  /** Python's `int(x)` for a float: truncation toward zero. */
  function Trunc(x: real): (t: int)
    ensures x >= 0.0 ==> 0 <= t && t as real <= x < t as real + 1.0
    ensures x < 0.0 ==> t <= 0 && t as real - 1.0 < x <= t as real
  {
    if x >= 0.0 then x.Floor else -((-x).Floor)
  }

  /** Python's `int(p)`; `None` stands for the exception it raises (`int(None)`, bad text). */
  function ToInt(p: Param): (r: Option<int>)
    ensures p.PInt? ==> r == Some(p.i)
    ensures p.PNone? ==> r == None
    ensures p.PReal? ==> r == Some(Trunc(p.r))
    ensures p.PText? ==> r == ParseInt(p.s)
  {
    match p
    case PInt(i) => Some(i)
    case PReal(x) => Some(Trunc(x))
    case PText(s) => ParseInt(s)
    case PNone => None
  }

  /** `params.get(key, default)`. */
  function Get(params: Params, key: string, default: Param): Param {
    if key in params then params[key] else default
  }

  /** The attribute names `SMA_{n}`, `RSI_{p}`, `MACD_{f}_{s}_{sig}`, `KD_{p}` and
      `BB_{p}_{std}`, kept as structured keys. */
  datatype IndicatorKey =
    | SmaKey(n: int)
    | RsiKey(period: int)
    | MacdKey(fast: int, slow: int, signal: int)
    | KdKey(period: int)
    | BbKey(period: int, std: Param)

  /** The indicator attributes of the finished strategy object: single series, and the
      two-series indicators (MACD line and signal, %K and %D, upper and lower band). */
  datatype Attributes = Attributes(lines: map<IndicatorKey, Series>, pairs: map<IndicatorKey, (Series, Series)>)

  /** `getattr(strategy, key, [])`. */
  function Line(attrs: Attributes, key: IndicatorKey): Series {
    if key in attrs.lines then attrs.lines[key] else []
  }

  /** `safe_num(arr[idx]) if len(arr) > idx else 0`, rendered by the f-string: a NaN cell
      becomes the float 0.0, an index past the end the integer 0. `show` renders a
      rounded float. */
  function Cell(arr: Series, idx: nat, show: real -> string): (r: string)
    ensures idx >= |arr| ==> r == "0"
    ensures idx < |arr| && arr[idx].Some? ==> r == show(arr[idx].value)
    ensures idx < |arr| && arr[idx].None? ==> r == show(0.0)
  {
    if idx < |arr| then show(arr[idx].GetOr(0.0)) else "0"
  }

  datatype Branch = SmaBranch | RsiBranch | MacdBranch | KdBranch | BbBranch | NoBranch

  /** The first branch whose keyword occurs in the name. */
  function BranchOf(name: string): (b: Branch)
    ensures b == SmaBranch <==> Contains(name, "SMA")
    ensures b == RsiBranch <==> !Contains(name, "SMA") && Contains(name, "RSI")
    ensures b == MacdBranch <==> !Contains(name, "SMA") && !Contains(name, "RSI") && Contains(name, "MACD")
    ensures b == KdBranch <==>
      !Contains(name, "SMA") && !Contains(name, "RSI") && !Contains(name, "MACD") && Contains(name, "KD")
    ensures b == BbBranch <==>
      !Contains(name, "SMA") && !Contains(name, "RSI") && !Contains(name, "MACD") && !Contains(name, "KD")
      && Contains(name, "BB")
  {
    if Contains(name, "SMA") then SmaBranch
    else if Contains(name, "RSI") then RsiBranch
    else if Contains(name, "MACD") then MacdBranch
    else if Contains(name, "KD") then KdBranch
    else if Contains(name, "BB") then BbBranch
    else NoBranch
  }

  /** The text every rendered note of a branch starts with. */
  function Prefix(b: Branch): string {
    match b
    case SmaBranch => "SMA("
    case RsiBranch => "RSI("
    case MacdBranch => "MACD:"
    case KdBranch => "K:"
    case BbBranch => "Upper:"
    case NoBranch => ""
  }

  /** The parameter values a branch passes through `int()`, with their defaults. */
  function Converted(b: Branch, params: Params): seq<Param> {
    match b
    case SmaBranch => [Get(params, "n_short", PInt(0)), Get(params, "n_long", PInt(0))]
    case RsiBranch => [Get(params, "period", PInt(14))]
    case MacdBranch => [Get(params, "fast", PInt(12)), Get(params, "slow", PInt(26)), Get(params, "signal", PInt(9))]
    case KdBranch => [Get(params, "period", PInt(9))]
    case BbBranch => [Get(params, "period", PInt(20))]
    case NoBranch => []
  }

  /** The matched branch raises: the parameter map is missing (`None.get`) or one of
      its `int()` conversions fails. */
  predicate Raises(b: Branch, params: Option<Params>) {
    b != NoBranch &&
    (params.None? || exists k | 0 <= k < |Converted(b, params.value)| :: ToInt(Converted(b, params.value)[k]).None?)
  }

  /** The attribute a MACD, KD or BB branch looks up (`MACD_{f}_{s}_{sig}`, `KD_{p}`,
      `BB_{p}_{std}`), once the branch's `int()` conversions succeed; `None` for the other
      branches and when a conversion fails. */
  function PairKey(b: Branch, params: Params): (key: Option<IndicatorKey>)
    ensures key.Some? <==> (b == MacdBranch || b == KdBranch || b == BbBranch) && !Raises(b, Some(params))
  {
    match b
    case MacdBranch =>
      var f := ToInt(Get(params, "fast", PInt(12)));
      var s := ToInt(Get(params, "slow", PInt(26)));
      var sig := ToInt(Get(params, "signal", PInt(9)));
      assert f.None? || s.None? || sig.None? <==> Raises(b, Some(params)) by {
        var cs := Converted(b, params);
        assert cs == [Get(params, "fast", PInt(12)), Get(params, "slow", PInt(26)), Get(params, "signal", PInt(9))];
        assert f.None? ==> ToInt(cs[0]).None?;
        assert s.None? ==> ToInt(cs[1]).None?;
        assert sig.None? ==> ToInt(cs[2]).None?;
      }
      if f.None? || s.None? || sig.None? then None else Some(MacdKey(f.value, s.value, sig.value))
    case KdBranch =>
      var p := ToInt(Get(params, "period", PInt(9)));
      assert p.None? ==> ToInt(Converted(b, params)[0]).None?;
      if p.None? then None else Some(KdKey(p.value))
    case BbBranch =>
      var p := ToInt(Get(params, "period", PInt(20)));
      assert p.None? ==> ToInt(Converted(b, params)[0]).None?;
      if p.None? then None else Some(BbKey(p.value, Get(params, "std", PReal(2.0))))
    case _ => None
  }

  function GetIndicatorNote(attrs: Attributes, name: string, params: Option<Params>, idx: nat,
                            show: real -> string): (r: string)
    ensures name == "" ==> r == ""
    ensures name != "" && BranchOf(name) == NoBranch ==> r == name
    ensures r == "" || r == name || StartsWith(r, Prefix(BranchOf(name)))
  {
    if name == "" then ""
    else if params.None? && BranchOf(name) != NoBranch then ""
    else
      match BranchOf(name)
      case SmaBranch =>
        var ns := ToInt(Get(params.value, "n_short", PInt(0)));
        var nl := ToInt(Get(params.value, "n_long", PInt(0)));
        if ns.None? || nl.None? then ""
        else
          "SMA(" + (IntToString(ns.value) + "):" + Cell(Line(attrs, SmaKey(ns.value)), idx, show)
          + " / SMA(" + IntToString(nl.value) + "):" + Cell(Line(attrs, SmaKey(nl.value)), idx, show))
      case RsiBranch =>
        var p := ToInt(Get(params.value, "period", PInt(14)));
        if p.None? then ""
        else "RSI(" + (IntToString(p.value) + "):" + Cell(Line(attrs, RsiKey(p.value)), idx, show))
      case MacdBranch =>
        var key := PairKey(MacdBranch, params.value);
        if key.None? then ""
        else if key.value in attrs.pairs then
          var (macd, signal) := attrs.pairs[key.value];
          "MACD:" + (Cell(macd, idx, show) + " / Sig:" + Cell(signal, idx, show))
        else name
      case KdBranch =>
        var key := PairKey(KdBranch, params.value);
        if key.None? then ""
        else if key.value in attrs.pairs then
          var (k, d) := attrs.pairs[key.value];
          "K:" + (Cell(k, idx, show) + " / D:" + Cell(d, idx, show))
        else name
      case BbBranch =>
        var key := PairKey(BbBranch, params.value);
        if key.None? then ""
        else if key.value in attrs.pairs then
          var (upper, lower) := attrs.pairs[key.value];
          "Upper:" + (Cell(upper, idx, show) + " / Lower:" + Cell(lower, idx, show))
        else name
      case NoBranch => name
  }

  /** The note is empty exactly when the name is empty or the matched branch raises. */
  lemma NoteEmptyIff(attrs: Attributes, name: string, params: Option<Params>, idx: nat, show: real -> string)
    ensures GetIndicatorNote(attrs, name, params, idx, show) == "" <==> name == "" || Raises(BranchOf(name), params)
  {
    var b := BranchOf(name);
    if name != "" && params.Some? && b != NoBranch {
      var cs := Converted(b, params.value);
      if !Raises(b, params) {
        assert forall k | 0 <= k < |cs| :: ToInt(cs[k]).Some?;
        assert ToInt(cs[0]).Some?;
        if |cs| > 1 { assert ToInt(cs[1]).Some?; }
        if |cs| > 2 { assert ToInt(cs[2]).Some?; }
      } else {
        var k :| 0 <= k < |cs| && ToInt(cs[k]).None?;
        assert k == 0 || k == 1 || k == 2;
      }
    }
  }

  /** A MACD, KD or BB name whose parameters convert but whose indicator the strategy
      does not carry falls back to the name. */
  lemma NoteMissingIndicator(attrs: Attributes, name: string, params: Params, idx: nat, show: real -> string)
    requires name != ""
    requires PairKey(BranchOf(name), params).Some?
    requires PairKey(BranchOf(name), params).value !in attrs.pairs
    ensures GetIndicatorNote(attrs, name, Some(params), idx, show) == name
  {
  }

  /** When that indicator is there, the note is the branch's rendering of it. */
  lemma NoteFoundIndicator(attrs: Attributes, name: string, params: Params, idx: nat, show: real -> string)
    requires name != ""
    requires PairKey(BranchOf(name), params).Some?
    requires PairKey(BranchOf(name), params).value in attrs.pairs
    ensures StartsWith(GetIndicatorNote(attrs, name, Some(params), idx, show), Prefix(BranchOf(name)))
    ensures GetIndicatorNote(attrs, name, Some(params), idx, show) != ""
  {
  }

  /** An SMA name wins over every later keyword: whatever else the name contains, its
      note is the note of the bare name "SMA", for any parameter map. */
  lemma SmaTakesPrecedence(attrs: Attributes, name: string, params: Option<Params>, idx: nat,
                           show: real -> string)
    requires Contains(name, "SMA")
    ensures GetIndicatorNote(attrs, name, params, idx, show) == GetIndicatorNote(attrs, "SMA", params, idx, show)
  {
    assert name != "" by { var i :| 0 <= i <= |name| - 3 && OccursAt(name, "SMA", i); }
    assert OccursAt("SMA", "SMA", 0);
  }
}
