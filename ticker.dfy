/** Ticker normalisation done before every download (`get_yfinance_data`): the symbol is
    upper-cased and stripped, and an all-digit symbol (a Taiwan Stock Exchange code such
    as 2330) gets the Yahoo Finance suffix `.TW`. */
module Ticker {
  import opened Text

  const TaiwanSuffix: string := ".TW"

  /** `ticker.upper().strip()`. */
  function Core(ticker: string): string {
    Strip(Upper(ticker))
  }

  /** The symbol sent to the data provider. The guard keeps the source's redundant
      `len == 4` disjunct; the contract states the rule without it. */
  function Normalize(ticker: string): (r: string)
    ensures IsDigits(Core(ticker)) ==> r == Core(ticker) + TaiwanSuffix
    ensures !IsDigits(Core(ticker)) ==> r == Core(ticker)
    ensures NoEdgeSpace(r)
    ensures forall i | 0 <= i < |r| :: !IsAsciiLower(r[i])
    ensures !IsDigits(r)
  {
    var t := Core(ticker);
    assert forall i | 0 <= i < |t| :: !IsAsciiLower(t[i]) by {
      var lo := LeadingSpaces(Upper(ticker));
      assert forall i | 0 <= i < |t| :: t[i] == Upper(ticker)[lo + i];
    }
    if IsDigits(t) || (|t| == 4 && IsDigits(t)) then
      var r := t + TaiwanSuffix;
      assert r[|t|] == '.';
      r
    else
      t
  }

  /** Upper-casing a string without lower-case letters changes nothing. */
  lemma UpperOfUpper(s: string)
    requires forall i | 0 <= i < |s| :: !IsAsciiLower(s[i])
    ensures Upper(s) == s
  {
  }

  /** Normalising an already normalised ticker leaves it unchanged. */
  lemma NormalizeIdempotent(ticker: string)
    ensures Normalize(Normalize(ticker)) == Normalize(ticker)
  {
    var r := Normalize(ticker);
    UpperOfUpper(r);
    StripClean(r);
    assert Core(r) == r;
  }

  /** Upper-casing never moves the ends of the stripped slice. */
  lemma {:induction false} LeadingSpacesUpper(s: string)
    ensures LeadingSpaces(Upper(s)) == LeadingSpaces(s)
  {
    if |s| > 0 {
      var u := Upper(s);
      UpperCharKeepsSpace(s[0]);
      assert u[0] == UpperChar(s[0]);
      if IsSpace(s[0]) {
        assert u[1..] == Upper(s[1..]);
        LeadingSpacesUpper(s[1..]);
        assert LeadingSpaces(u) == 1 + LeadingSpaces(u[1..]);
        assert LeadingSpaces(s) == 1 + LeadingSpaces(s[1..]);
      } else {
        assert LeadingSpaces(u) == 0 == LeadingSpaces(s);
      }
    }
  }

  lemma {:induction false} TrailingSpacesUpper(s: string)
    ensures TrailingSpaces(Upper(s)) == TrailingSpaces(s)
  {
    var n := |s|;
    if n > 0 {
      var u := Upper(s);
      UpperCharKeepsSpace(s[n - 1]);
      assert u[n - 1] == UpperChar(s[n - 1]);
      if IsSpace(s[n - 1]) {
        assert u[..n - 1] == Upper(s[..n - 1]);
        TrailingSpacesUpper(s[..n - 1]);
        assert TrailingSpaces(u) == 1 + TrailingSpaces(u[..n - 1]);
        assert TrailingSpaces(s) == 1 + TrailingSpaces(s[..n - 1]);
      } else {
        assert TrailingSpaces(u) == 0 == TrailingSpaces(s);
      }
    }
  }

  /** Stripping and upper-casing commute, so "trim, then upper-case" gives the same core. */
  lemma CoreStripFirst(ticker: string)
    ensures Core(ticker) == Upper(Strip(ticker))
  {
    var u := Upper(ticker);
    LeadingSpacesUpper(ticker);
    var lo := LeadingSpaces(ticker);
    assert u[lo..] == Upper(ticker[lo..]);
    TrailingSpacesUpper(ticker[lo..]);
  }

  /** The normalised symbol is empty exactly when the input is nothing but whitespace. */
  lemma NormalizeEmpty(ticker: string)
    ensures Normalize(ticker) == "" <==> AllSpace(ticker)
  {
    CoreStripFirst(ticker);
    StripEmpty(ticker);
    assert |Core(ticker)| == |Strip(ticker)|;
  }
}
