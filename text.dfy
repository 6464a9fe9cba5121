/**
 * The slice of Python's `str` behaviour that the log tools rely on:
 * `split()`, `" ".join`, `strip()`, `in` (substring), `split(sep)`,
 * `isdigit()` and `int()` on a digit string, and `f"{n}"` for a `nat`.
 * Only ASCII is modelled: the Unicode whitespace and digits that Python
 * also accepts are not part of this model.
 */
module Text {
  import opened Wrappers

  /** `str.isspace()` on an ASCII character (also what `re`'s `\s` and `strip()` use). */
  predicate IsSpace(c: char) {
    c == ' ' || c == '\t' || c == '\n' || c == '\r' || c == '\U{0B}' || c == '\U{0C}'
    || ('\U{1C}' <= c <= '\U{1F}')
  }

  /** `str.isdigit()` / `re`'s `\d` on an ASCII character. */
  predicate IsDigit(c: char) {
    '0' <= c <= '9'
  }

  /** `re`'s `\w` on an ASCII character. */
  predicate IsWordChar(c: char) {
    ('a' <= c <= 'z') || ('A' <= c <= 'Z') || IsDigit(c) || c == '_'
  }

  predicate AllDigits(s: string) {
    forall i :: 0 <= i < |s| ==> IsDigit(s[i])
  }

  predicate AllSpace(s: string) {
    forall i :: 0 <= i < |s| ==> IsSpace(s[i])
  }

  predicate NoSpace(s: string) {
    forall i :: 0 <= i < |s| ==> !IsSpace(s[i])
  }

  /** `s.isdigit()`: non-empty and made of digits only. */
  predicate IsDigitString(s: string) {
    |s| > 0 && AllDigits(s)
  }

  predicate StartsWith(s: string, p: string) {
    |p| <= |s| && s[..|p|] == p
  }

  predicate EndsWith(s: string, p: string) {
    |p| <= |s| && s[|s| - |p|..] == p
  }

  /** `p` occurs in `s` at index `i`. */
  predicate OccursAt(s: string, p: string, i: int) {
    0 <= i && i + |p| <= |s| && s[i..i + |p|] == p
  }

  /** Python's `p in s`. */
  function Contains(s: string, p: string): (r: bool)
    ensures r <==> exists i :: OccursAt(s, p, i)
  {
    if StartsWith(s, p) then
      assert OccursAt(s, p, 0);
      true
    else if |s| == 0 then
      false
    else
      var r := Contains(s[1..], p);
      assert r ==> exists i :: OccursAt(s, p, i) by {
        if r {
          var i :| OccursAt(s[1..], p, i);
          assert s[i + 1..i + 1 + |p|] == s[1..][i..i + |p|];
          assert OccursAt(s, p, i + 1);
        }
      }
      assert (exists i :: OccursAt(s, p, i)) ==> r by {
        if i :| OccursAt(s, p, i) {
          assert i != 0 by { assert s[..|p|] == s[0..|p|]; }
          assert s[1..][i - 1..i - 1 + |p|] == s[i..i + |p|];
          assert OccursAt(s[1..], p, i - 1);
        }
      }
      r
  }

  /** The index of the first occurrence of `p` in `s`, searching from `from`. */
  function FindFrom(s: string, p: string, from: nat): (r: Option<nat>)
    requires from <= |s|
    ensures r.Some? ==> from <= r.value && OccursAt(s, p, r.value)
    ensures r.Some? ==> forall j :: from <= j < r.value ==> !OccursAt(s, p, j)
    ensures r.None? ==> forall j :: from <= j ==> !OccursAt(s, p, j)
    decreases |s| - from
  {
    if OccursAt(s, p, from) then Some(from)
    else if from == |s| then None
    else FindFrom(s, p, from + 1)
  }

  /** Index of the first occurrence of `p` in `s` (Python's `s.find(p)`, with `None` for -1). */
  function Find(s: string, p: string): (r: Option<nat>)
    ensures r.Some? ==> OccursAt(s, p, r.value) && forall j :: 0 <= j < r.value ==> !OccursAt(s, p, j)
    ensures r.None? ==> forall j :: !OccursAt(s, p, j)
  {
    FindFrom(s, p, 0)
  }

  /** Python's `s.split(sep)` for a non-empty separator. */
  function Split(s: string, sep: string): (parts: seq<string>)
    requires |sep| > 0
    ensures |parts| >= 1
    ensures Find(s, sep).Some? ==> |parts| >= 2
    decreases |s|
  {
    match Find(s, sep)
    case None => [s]
    case Some(i) => [s[..i]] + Split(s[i + |sep|..], sep)
  }

  /** Length of the longest prefix of `s` that holds no whitespace. */
  function WordLen(s: string): (k: nat)
    ensures k <= |s| && NoSpace(s[..k])
    ensures k < |s| ==> IsSpace(s[k])
  {
    if s == [] || IsSpace(s[0]) then 0
    else
      var k := 1 + WordLen(s[1..]);
      assert s[..k] == [s[0]] + s[1..][..k - 1];
      k
  }

  predicate WellFormedTokens(ts: seq<string>) {
    forall i :: 0 <= i < |ts| ==> |ts[i]| > 0 && NoSpace(ts[i])
  }

  /** Python's `s.split()`: the maximal runs of non-whitespace characters, in order. */
  function Tokens(s: string): (ts: seq<string>)
    ensures WellFormedTokens(ts)
    decreases |s|
  {
    if s == [] then []
    else if IsSpace(s[0]) then Tokens(s[1..])
    else
      var k := WordLen(s);
      [s[..k]] + Tokens(s[k..])
  }

  /** Python's `sep.join(ts)`. */
  function JoinWith(ts: seq<string>, sep: string): string {
    if |ts| == 0 then ""
    else if |ts| == 1 then ts[0]
    else ts[0] + sep + JoinWith(ts[1..], sep)
  }

  /** `" ".join(ts)`. */
  function JoinSpace(ts: seq<string>): string {
    JoinWith(ts, " ")
  }

  /** `s.lstrip()`. */
  function LStrip(s: string): (r: string)
    ensures |r| <= |s| && r == s[|s| - |r|..] && AllSpace(s[..|s| - |r|])
    ensures r != [] ==> !IsSpace(r[0])
  {
    if s != [] && IsSpace(s[0]) then
      var r := LStrip(s[1..]);
      assert s[..|s| - |r|] == [s[0]] + s[1..][..|s| - 1 - |r|];
      r
    else s
  }

  /** `s.rstrip()`. */
  function RStrip(s: string): (r: string)
    ensures |r| <= |s| && r == s[..|r|] && AllSpace(s[|r|..])
    ensures r != [] ==> !IsSpace(r[|r| - 1])
  {
    if s != [] && IsSpace(s[|s| - 1]) then
      var r := RStrip(s[..|s| - 1]);
      assert s[|r|..] == s[..|s| - 1][|r|..] + [s[|s| - 1]];
      r
    else s
  }

  /** `s.strip()`. */
  function Strip(s: string): string {
    RStrip(LStrip(s))
  }

  /** `s.rstrip("\n")`: drops every trailing newline and nothing else. */
  function RStripNewlines(s: string): (r: string)
    ensures |r| <= |s| && r == s[..|r|] && forall i :: |r| <= i < |s| ==> s[i] == '\n'
    ensures r != [] ==> r[|r| - 1] != '\n'
  {
    if s != [] && s[|s| - 1] == '\n' then RStripNewlines(s[..|s| - 1]) else s
  }

  /** The maximal run of digits at the start of `s`. */
  function LeadingDigits(s: string): (d: string)
    ensures d <= s && AllDigits(d)
    ensures |d| < |s| ==> !IsDigit(s[|d|])
  {
    if s != [] && IsDigit(s[0]) then [s[0]] + LeadingDigits(s[1..]) else []
  }

  function DigitValue(c: char): nat
    requires IsDigit(c)
  {
    (c as int - '0' as int) as nat
  }

  /** `int(ds)` for a string of ASCII digits (the empty string gives 0). */
  function DigitsValue(ds: string): nat
    requires AllDigits(ds)
  {
    if ds == [] then 0 else 10 * DigitsValue(ds[..|ds| - 1]) + DigitValue(ds[|ds| - 1])
  }

  function DigitChar(d: nat): (c: char)
    requires d < 10
    ensures IsDigit(c) && DigitValue(c) == d
  {
    ('0' as int + d) as char
  }

  /** `f"{n}"` / `str(n)` for a non-negative integer. */
  function NatToString(n: nat): (s: string)
    ensures IsDigitString(s)
  {
    if n < 10 then [DigitChar(n)] else NatToString(n / 10) + [DigitChar(n % 10)]
  }

  /** `str(i)` for any integer. */
  function IntToString(i: int): (s: string)
    ensures s != []
  {
    if i < 0 then "-" + NatToString(-i) else NatToString(i)
  }

  /**
   * The loop that both naive latency extractors run over the text after
   * `latency_ms=`: copy characters while they are digits, stop at the first
   * one that is not. The result is the maximal run of digits at the start.
   */
  method ScanLeadingDigits(right: string) returns (num: string)
    ensures num <= right && AllDigits(num)
    ensures |num| < |right| ==> !IsDigit(right[|num|])
    ensures num == LeadingDigits(right)
  {
    num := "";
    var i := 0;
    while i < |right| && IsDigit(right[i])
      invariant 0 <= i <= |right|
      invariant num == right[..i] && AllDigits(num)
    {
      num := num + [right[i]];
      i := i + 1;
    }
    LeadingDigitsUnique(right, num);
  }

  // ---------------------------------------------------------------------------
  // Lemmas
  // ---------------------------------------------------------------------------

  /** A maximal run of leading digits is unique. */
  lemma {:induction false} LeadingDigitsUnique(s: string, d: string)
    requires d <= s && AllDigits(d)
    requires |d| < |s| ==> !IsDigit(s[|d|])
    ensures d == LeadingDigits(s)
  {
    if d != [] {
      assert s[0] == d[0];
      LeadingDigitsUnique(s[1..], d[1..]);
    }
  }

  /** Cutting a string at a non-digit (or at its end) keeps its leading digits. */
  lemma {:induction false} LeadingDigitsOfCut(s: string, j: nat)
    requires j <= |s|
    requires j < |s| ==> !IsDigit(s[j])
    ensures LeadingDigits(s[..j]) == LeadingDigits(s)
  {
    if s != [] && j > 0 && IsDigit(s[0]) {
      assert s[..j][1..] == s[1..][..j - 1];
      LeadingDigitsOfCut(s[1..], j - 1);
    }
  }

  /** The first piece of `split(sep)` stops at the end or at an occurrence of `sep`. */
  lemma {:induction false} FirstPieceOfSplit(s: string, sep: string)
    requires |sep| > 0
    ensures Split(s, sep)[0] <= s
    ensures |Split(s, sep)[0]| < |s| ==> OccursAt(s, sep, |Split(s, sep)[0]|)
  {
  }

  /**
   * `s.split(sep)[1]` starts right after the first occurrence of `sep`; when
   * `sep` does not start with a digit its leading digits are exactly the
   * digits following that first occurrence.
   */
  lemma {:induction false} LeadingDigitsAfterFirst(s: string, sep: string, i: nat)
    requires |sep| > 0 && !IsDigit(sep[0])
    requires Find(s, sep) == Some(i)
    ensures |Split(s, sep)| >= 2
    ensures LeadingDigits(Split(s, sep)[1]) == LeadingDigits(s[i + |sep|..])
  {
    SecondPieceOfSplit(s, sep, i);
    LeadingDigitsOfFirstPiece(s[i + |sep|..], sep);
  }

  lemma {:induction false} SecondPieceOfSplit(s: string, sep: string, i: nat)
    requires |sep| > 0
    requires Find(s, sep) == Some(i)
    ensures |Split(s, sep)| >= 2
    ensures Split(s, sep)[1] == Split(s[i + |sep|..], sep)[0]
  {
    assert Split(s, sep) == [s[..i]] + Split(s[i + |sep|..], sep);
  }

  lemma {:induction false} LeadingDigitsOfFirstPiece(t: string, sep: string)
    requires |sep| > 0 && !IsDigit(sep[0])
    ensures LeadingDigits(Split(t, sep)[0]) == LeadingDigits(t)
  {
    FirstPieceOfSplit(t, sep);
    var piece := Split(t, sep)[0];
    assert piece == t[..|piece|];
    if |piece| < |t| {
      assert t[|piece|..|piece| + |sep|] == sep;
      assert t[|piece|] == sep[0];
    }
    LeadingDigitsOfCut(t, |piece|);
  }

  /** `int(str(n)) == n`. */
  lemma {:induction false} NatToStringRoundTrip(n: nat)
    ensures DigitsValue(NatToString(n)) == n
  {
    if n >= 10 {
      var s := NatToString(n);
      assert s[..|s| - 1] == NatToString(n / 10);
      NatToStringRoundTrip(n / 10);
    }
  }

  lemma {:induction false} WordLenOfWordThen(t: string, r: string)
    requires NoSpace(t)
    requires r == [] || IsSpace(r[0])
    ensures WordLen(t + r) == |t|
  {
    if t != [] {
      assert (t + r)[1..] == t[1..] + r;
      WordLenOfWordThen(t[1..], r);
    }
  }

  /** A word followed by whitespace (or nothing) is the first token. */
  lemma TokensOfWordThen(t: string, r: string)
    requires |t| > 0 && NoSpace(t)
    requires r == [] || IsSpace(r[0])
    ensures Tokens(t + r) == [t] + Tokens(r)
  {
    WordLenOfWordThen(t, r);
    assert (t + r)[..|t|] == t;
    assert (t + r)[|t|..] == r;
  }

  /** `" ".join(ts).split() == ts` for tokens without whitespace. */
  lemma {:induction false} TokensOfJoin(ts: seq<string>)
    requires WellFormedTokens(ts)
    ensures Tokens(JoinSpace(ts)) == ts
  {
    if |ts| == 1 {
      TokensOfWordThen(ts[0], []);
      assert ts[0] + [] == ts[0];
    } else if |ts| > 1 {
      var rest := JoinSpace(ts[1..]);
      assert JoinSpace(ts) == ts[0] + (" " + rest);
      TokensOfWordThen(ts[0], " " + rest);
      assert (" " + rest)[1..] == rest;
      TokensOfJoin(ts[1..]);
    }
  }

  /** Whitespace appended at the end does not change `split()`. */
  lemma {:induction false} TokensDropTrailingSpace(u: string, c: char)
    requires IsSpace(c)
    ensures Tokens(u + [c]) == Tokens(u)
    decreases |u|
  {
    if u == [] {
      assert ([] + [c])[1..] == [];
    } else if IsSpace(u[0]) {
      assert (u + [c])[1..] == u[1..] + [c];
      TokensDropTrailingSpace(u[1..], c);
    } else {
      var k := WordLen(u);
      assert u + [c] == u[..k] + (u[k..] + [c]);
      TokensOfWordThen(u[..k], u[k..] + [c]);
      if k < |u| {
        assert u == u[..k] + u[k..];
        TokensOfWordThen(u[..k], u[k..]);
      }
      TokensDropTrailingSpace(u[k..], c);
    }
  }

  lemma {:induction false} TokensOfLStrip(s: string)
    ensures Tokens(LStrip(s)) == Tokens(s)
  {
    if s != [] && IsSpace(s[0]) {
      TokensOfLStrip(s[1..]);
    }
  }

  lemma {:induction false} TokensOfRStrip(s: string)
    ensures Tokens(RStrip(s)) == Tokens(s)
  {
    if s != [] && IsSpace(s[|s| - 1]) {
      assert s == s[..|s| - 1] + [s[|s| - 1]];
      TokensDropTrailingSpace(s[..|s| - 1], s[|s| - 1]);
      TokensOfRStrip(s[..|s| - 1]);
    }
  }

  /** Trailing newlines removed by `rstrip("\n")` do not change `split()`. */
  lemma {:induction false} TokensOfRStripNewlines(s: string)
    ensures Tokens(RStripNewlines(s)) == Tokens(s)
  {
    if s != [] && s[|s| - 1] == '\n' {
      assert s == s[..|s| - 1] + [s[|s| - 1]];
      TokensDropTrailingSpace(s[..|s| - 1], s[|s| - 1]);
      TokensOfRStripNewlines(s[..|s| - 1]);
    }
  }

  /** Leading whitespace does not change what `lstrip()` and `strip()` leave. */
  lemma {:induction false} StripAfterSpace(ws: string, x: string)
    requires AllSpace(ws)
    ensures LStrip(ws + x) == LStrip(x)
    ensures Strip(ws + x) == Strip(x)
  {
    if ws != [] {
      assert (ws + x)[1..] == ws[1..] + x;
      StripAfterSpace(ws[1..], x);
    } else {
      assert ws + x == x;
    }
  }

  /** Trailing whitespace after a text that ends in a non-space is what `rstrip()` drops. */
  lemma {:induction false} RStripBeforeSpace(x: string, ws: string)
    requires AllSpace(ws)
    requires x == [] || !IsSpace(x[|x| - 1])
    ensures RStrip(x + ws) == x
    decreases |ws|
  {
    if ws == [] {
      assert x + ws == x;
    } else {
      assert (x + ws)[..|x + ws| - 1] == x + ws[..|ws| - 1];
      RStripBeforeSpace(x, ws[..|ws| - 1]);
    }
  }

  /** `strip()` removes exactly the padding around a text that starts and ends in a non-space. */
  lemma StripOfPadded(ws1: string, x: string, ws2: string)
    requires AllSpace(ws1) && AllSpace(ws2)
    requires x != [] && !IsSpace(x[0]) && !IsSpace(x[|x| - 1])
    ensures Strip(ws1 + x + ws2) == x
  {
    assert ws1 + x + ws2 == ws1 + (x + ws2);
    StripAfterSpace(ws1, x + ws2);
    assert LStrip(x + ws2) == x + ws2;
    RStripBeforeSpace(x, ws2);
  }

  /** `s.strip().split() == s.split()`. */
  lemma TokensOfStrip(s: string)
    ensures Tokens(Strip(s)) == Tokens(s)
  {
    TokensOfLStrip(s);
    TokensOfRStrip(LStrip(s));
  }

  /** A line is empty after `strip()` exactly when `split()` finds no token. */
  lemma StripEmptyIffNoTokens(s: string)
    ensures Strip(s) == [] <==> Tokens(s) == []
  {
    TokensOfStrip(s);
    var t := Strip(s);
    if t != [] {
      assert !IsSpace(t[0]);
    }
  }
}
