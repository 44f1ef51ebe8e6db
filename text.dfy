/** String primitives with the meaning Python gives them: `str.isspace`, `str.strip`,
    `str.upper`, `str.isdigit`, `str(int)`, `int(str)`, the `in` substring test and
    `str.join`. Case mapping and digit classification are modelled on ASCII. */
module Text {
  import opened Wrappers

  /** Python's whitespace (the characters `str.strip()` removes by default). */
  predicate IsSpace(c: char) {
    var k := c as int;
    || (0x09 <= k <= 0x0d) || (0x1c <= k <= 0x20)
    || k == 0x85 || k == 0xa0 || k == 0x1680
    || (0x2000 <= k <= 0x200a)
    || k == 0x2028 || k == 0x2029 || k == 0x202f || k == 0x205f || k == 0x3000
  }

  predicate IsAsciiDigit(c: char) { '0' <= c <= '9' }

  predicate IsAsciiLower(c: char) { 'a' <= c <= 'z' }

  predicate AllSpace(s: string) {
    forall i | 0 <= i < |s| :: IsSpace(s[i])
  }

  /** Neither the first nor the last character is whitespace. */
  predicate NoEdgeSpace(s: string) {
    s == [] || (!IsSpace(s[0]) && !IsSpace(s[|s| - 1]))
  }

  /** Python's `str.isdigit()` on ASCII: non-empty and digits only. */
  predicate IsDigits(s: string) {
    |s| > 0 && forall i | 0 <= i < |s| :: IsAsciiDigit(s[i])
  }

  // ---------------------------------------------------------------- upper

  function UpperChar(c: char): (u: char)
    ensures !IsAsciiLower(u)
    ensures IsAsciiLower(c) ==> u as int == c as int - 32
    ensures !IsAsciiLower(c) ==> u == c
  {
    if IsAsciiLower(c) then (c as int - 'a' as int + 'A' as int) as char else c
  }

  /** Python's `str.upper()` (ASCII letters only). */
  function Upper(s: string): (r: string)
    ensures |r| == |s|
    ensures forall i | 0 <= i < |s| :: r[i] == UpperChar(s[i])
  {
    seq(|s|, i requires 0 <= i < |s| => UpperChar(s[i]))
  }

  /** Upper-casing never creates or removes whitespace. */
  lemma UpperCharKeepsSpace(c: char)
    ensures IsSpace(UpperChar(c)) <==> IsSpace(c)
  {
  }

  // ---------------------------------------------------------------- strip

  /** Number of leading whitespace characters. */
  function LeadingSpaces(s: string): (n: nat)
    ensures n <= |s|
  {
    if |s| > 0 && IsSpace(s[0]) then 1 + LeadingSpaces(s[1..]) else 0
  }

  /** The leading count marks off exactly the whitespace head. */
  lemma {:induction false} LeadingSpacesHead(s: string)
    ensures AllSpace(s[..LeadingSpaces(s)])
    ensures LeadingSpaces(s) < |s| ==> !IsSpace(s[LeadingSpaces(s)])
  {
    if |s| > 0 && IsSpace(s[0]) {
      LeadingSpacesHead(s[1..]);
      var n := LeadingSpaces(s[1..]);
      assert s[..n + 1] == [s[0]] + s[1..][..n];
    }
  }

  /** Number of trailing whitespace characters. */
  function TrailingSpaces(s: string): (n: nat)
    ensures n <= |s|
  {
    if |s| > 0 && IsSpace(s[|s| - 1]) then 1 + TrailingSpaces(s[..|s| - 1]) else 0
  }

  /** The trailing count marks off exactly the whitespace tail. */
  lemma {:induction false} TrailingSpacesTail(s: string)
    ensures AllSpace(s[|s| - TrailingSpaces(s)..])
    ensures TrailingSpaces(s) < |s| ==> !IsSpace(s[|s| - TrailingSpaces(s) - 1])
  {
    if |s| > 0 && IsSpace(s[|s| - 1]) {
      var p := s[..|s| - 1];
      TrailingSpacesTail(p);
      var n := TrailingSpaces(p);
      assert TrailingSpaces(s) == n + 1;
      var tail := s[|s| - (n + 1)..];
      forall i | 0 <= i < |tail|
        ensures IsSpace(tail[i])
      {
        if i < n {
          assert tail[i] == p[|p| - n..][i];
        }
      }
      assert n + 1 < |s| ==> s[|s| - (n + 1) - 1] == p[|p| - n - 1];
    } else {
      assert TrailingSpaces(s) == 0;
    }
  }

  /** Python's `str.strip()`: the slice left after removing whitespace at both ends. */
  function Strip(s: string): (r: string)
    ensures |r| <= |s|
    ensures NoEdgeSpace(r)
    ensures var lo := LeadingSpaces(s);
      lo + |r| <= |s| && r == s[lo..lo + |r|] && AllSpace(s[..lo]) && AllSpace(s[lo + |r|..])
  {
    var lo := LeadingSpaces(s);
    LeadingSpacesHead(s);
    var rest := s[lo..];
    var t := TrailingSpaces(rest);
    TrailingSpacesTail(rest);
    var hi := |rest| - t;
    assert rest[hi..] == s[lo + hi..];
    assert hi > 0 ==> rest[..hi][0] == s[lo] && rest[..hi][hi - 1] == rest[|rest| - t - 1];
    rest[..hi]
  }

  /** Stripping leaves nothing exactly when the string is all whitespace. */
  lemma StripEmpty(s: string)
    ensures Strip(s) == [] <==> AllSpace(s)
  {
    var lo := LeadingSpaces(s);
    var r := Strip(s);
    if r == [] {
      forall i | 0 <= i < |s|
        ensures IsSpace(s[i])
      {
        if i < lo {
          assert s[..lo][i] == s[i];
        } else {
          assert s[lo..][i - lo] == s[i];
        }
      }
    } else {
      assert r[0] == s[lo];
    }
  }

  /** Stripping a string without whitespace at its ends leaves it unchanged. */
  lemma {:induction false} StripClean(s: string)
    requires NoEdgeSpace(s)
    ensures Strip(s) == s
  {
    if s != [] {
      assert LeadingSpaces(s) == 0;
      assert TrailingSpaces(s) == 0;
    }
  }

  // ---------------------------------------------------------------- integers

  function DigitChar(d: nat): (c: char)
    requires d < 10
    ensures IsAsciiDigit(c)
  {
    ('0' as int + d) as char
  }

  function DigitValue(c: char): (d: nat)
    requires IsAsciiDigit(c)
    ensures d < 10 && DigitChar(d) == c
  {
    c as int - '0' as int
  }

  /** Python's `str(n)` for a non-negative integer. */
  function NatToString(n: nat): (r: string)
    ensures IsDigits(r)
    ensures r[0] == '0' ==> n == 0
  {
    if n < 10 then [DigitChar(n)] else NatToString(n / 10) + [DigitChar(n % 10)]
  }

  /** Python's `str(i)` for any integer. */
  function IntToString(i: int): (r: string)
    ensures |r| > 0 && NoEdgeSpace(r)
    ensures i >= 0 <==> IsAsciiDigit(r[0])
  {
    if i < 0 then "-" + NatToString(-i) else NatToString(i)
  }

  /** The value of a non-empty string of decimal digits. */
  function ParseDigits(s: string): nat
    requires IsDigits(s)
  {
    if |s| == 1 then DigitValue(s[0])
    else ParseDigits(s[..|s| - 1]) * 10 + DigitValue(s[|s| - 1])
  }

  lemma {:induction false} ParseNatToString(n: nat)
    ensures ParseDigits(NatToString(n)) == n
  {
    var r := NatToString(n);
    if n >= 10 {
      ParseNatToString(n / 10);
      assert r[..|r| - 1] == NatToString(n / 10);
    }
  }

  /** Python's `int(text)` for decimal text: surrounding whitespace, one optional sign,
      then at least one digit. `None` stands for the `ValueError` Python raises. */
  function ParseInt(text: string): (r: Option<int>)
    ensures r.Some? ==> exists k | 0 <= k < |text| :: IsAsciiDigit(text[k])
  {
    var t := Strip(text);
    if IsDigits(t) then Some(ParseDigits(t))
    else if |t| > 1 && t[0] == '-' && IsDigits(t[1..]) then Some(-(ParseDigits(t[1..]) as int))
    else if |t| > 1 && t[0] == '+' && IsDigits(t[1..]) then Some(ParseDigits(t[1..]))
    else None
  }

  /** `int(str(i)) == i`. */
  lemma IntStringRoundTrip(i: int)
    ensures ParseInt(IntToString(i)) == Some(i)
  {
    var r := IntToString(i);
    StripClean(r);
    if i < 0 {
      ParseNatToString(-i);
      assert r[1..] == NatToString(-i);
    } else {
      ParseNatToString(i);
    }
  }

  /** Whitespace before and after the number does not change it:
      `int(" \t" + str(i) + "\n") == i`. */
  lemma ParsePadded(before: string, i: int, after: string)
    requires AllSpace(before) && AllSpace(after)
    ensures ParseInt(before + IntToString(i) + after) == Some(i)
  {
    var r := IntToString(i);
    StripPadded(before, r, after);
    IntStringRoundTrip(i);
    StripClean(r);
  }

  /** A leading `+` and leading zeros do not change the value, nor do zeros after a `-`:
      `int("+007") == 7` and `int("-007") == -7`. */
  lemma ParseSignAndZeros(sign: string, zeros: string, n: nat)
    requires sign == "" || sign == "+" || sign == "-"
    requires forall k | 0 <= k < |zeros| :: zeros[k] == '0'
    ensures ParseInt(sign + (zeros + NatToString(n))) == Some(if sign == "-" then -(n as int) else n)
  {
    ParseDigitsZeros(zeros, NatToString(n));
    ParseNatToString(n);
    SignedDigits(sign, zeros + NatToString(n));
  }

  /** Digits behind an optional sign parse to their value, negated after `-`. */
  lemma SignedDigits(sign: string, d: string)
    requires sign == "" || sign == "+" || sign == "-"
    requires IsDigits(d)
    ensures ParseInt(sign + d) == Some(if sign == "-" then -(ParseDigits(d) as int) else ParseDigits(d))
  {
    if sign == "" {
      assert sign + d == d;
      assert IsAsciiDigit(d[0]) && IsAsciiDigit(d[|d| - 1]);
      StripClean(d);
    } else {
      SignThenDigits(sign[0], d);
      assert sign + d == [sign[0]] + d;
    }
  }

  lemma SignThenDigits(sign: char, d: string)
    requires sign == '+' || sign == '-'
    requires IsDigits(d)
    ensures Strip([sign] + d) == [sign] + d
    ensures ParseInt([sign] + d) == Some(if sign == '-' then -(ParseDigits(d) as int) else ParseDigits(d))
  {
    var text := [sign] + d;
    assert text[|text| - 1] == d[|d| - 1];
    assert text[1..] == d;
    StripClean(text);
    assert !IsDigits(text);
  }

  /** Python's `int()` rejects text that is, once stripped and past an optional sign,
      empty or not all digits. */
  lemma ParseIntRejects(text: string, sign: string, body: string)
    requires Strip(text) == sign + body
    requires sign == "" || sign == "+" || sign == "-"
    requires sign == "" ==> body == [] || (body[0] != '+' && body[0] != '-')
    requires body == [] || exists k | 0 <= k < |body| :: !IsAsciiDigit(body[k])
    ensures ParseInt(text) == None
  {
    var t := Strip(text);
    if sign != "" {
      assert t[0] == sign[0] && t[1..] == body;
    } else {
      assert t == body;
    }
  }

  /** A run of zeros in front of digits adds nothing to their value. */
  lemma {:induction false} ParseDigitsZeros(zeros: string, d: string)
    requires forall k | 0 <= k < |zeros| :: zeros[k] == '0'
    requires IsDigits(d)
    ensures IsDigits(zeros + d) && ParseDigits(zeros + d) == ParseDigits(d)
  {
    var s := zeros + d;
    if |d| == 1 {
      if zeros != [] {
        assert s[..|s| - 1] == zeros;
        ZerosValue(zeros);
      }
    } else {
      var init := d[..|d| - 1];
      ParseDigitsZeros(zeros, init);
      assert s[..|s| - 1] == zeros + init;
    }
  }

  lemma {:induction false} ZerosValue(zeros: string)
    requires zeros != [] && forall k | 0 <= k < |zeros| :: zeros[k] == '0'
    ensures IsDigits(zeros) && ParseDigits(zeros) == 0
  {
    if |zeros| > 1 {
      ZerosValue(zeros[..|zeros| - 1]);
    }
  }

  /** Stripping whitespace off both sides of a text that has none at its ends gives it back. */
  lemma StripPadded(before: string, t: string, after: string)
    requires AllSpace(before) && AllSpace(after) && t != [] && NoEdgeSpace(t)
    ensures Strip(before + t + after) == t
  {
    var s := before + t + after;
    assert s == before + (t + after);
    LeadingSpacesBefore(before, t + after);
    var rest := s[|before|..];
    assert rest == t + after;
    TrailingSpacesAfter(t, after);
    assert rest[..|t|] == t;
  }

  lemma {:induction false} LeadingSpacesBefore(ws: string, u: string)
    requires AllSpace(ws) && u != [] && !IsSpace(u[0])
    ensures LeadingSpaces(ws + u) == |ws|
  {
    if ws == [] {
      assert ws + u == u;
    } else {
      assert (ws + u)[1..] == ws[1..] + u;
      LeadingSpacesBefore(ws[1..], u);
    }
  }

  lemma {:induction false} TrailingSpacesAfter(u: string, ws: string)
    requires AllSpace(ws) && u != [] && !IsSpace(u[|u| - 1])
    ensures TrailingSpaces(u + ws) == |ws|
  {
    var s := u + ws;
    if ws == [] {
      assert s == u;
    } else {
      var init := ws[..|ws| - 1];
      assert s[..|s| - 1] == u + init;
      TrailingSpacesAfter(u, init);
    }
  }

  // ---------------------------------------------------------------- substrings and joins

  predicate OccursAt(s: string, sub: string, i: int) {
    0 <= i && i + |sub| <= |s| && s[i..i + |sub|] == sub
  }

  /** Python's `sub in s`. */
  predicate Contains(s: string, sub: string) {
    exists i | 0 <= i <= |s| - |sub| :: OccursAt(s, sub, i)
  }

  predicate StartsWith(s: string, prefix: string) {
    |prefix| <= |s| && s[..|prefix|] == prefix
  }

  predicate EndsWith(s: string, suffix: string) {
    |suffix| <= |s| && s[|s| - |suffix|..] == suffix
  }

  /** Python's `sep.join(parts)`. */
  function Join(parts: seq<string>, sep: string): (r: string)
    ensures parts == [] ==> r == ""
    ensures |parts| == 1 ==> r == parts[0]
  {
    if |parts| == 0 then ""
    else if |parts| == 1 then parts[0]
    else parts[0] + sep + Join(parts[1..], sep)
  }

  /** The parts that are not empty, in order (Python's `if n: notes.append(n)`). */
  function NonEmpty(parts: seq<string>): (r: seq<string>)
    ensures |r| <= |parts|
    ensures forall k | 0 <= k < |r| :: r[k] != ""
    ensures forall k | 0 <= k < |r| :: r[k] in parts
  {
    if parts == [] then []
    else if parts[0] == "" then NonEmpty(parts[1..])
    else [parts[0]] + NonEmpty(parts[1..])
  }
}
