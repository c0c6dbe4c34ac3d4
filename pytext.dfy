/**
 * The pieces of Python's `str` behaviour that the ingestion cleaners rely on:
 * whitespace, strip, ASCII case mapping, substring search, `split`, `join`,
 * `replace` of one character, `int()` of a string, and the first run of digits
 * that `re.search(r"(\d+)", s)` finds.
 */
module PyText {
  import opened Wrappers

  /** Whitespace as `str.isspace()` and the regex class `\s` see it. */
  predicate IsSpace(c: char) {
    c == ' ' || ('\U{9}' <= c <= '\U{D}') || ('\U{1C}' <= c <= '\U{1F}')
    || c == '\U{85}' || c == '\U{A0}' || c == '\U{1680}'
    || ('\U{2000}' <= c <= '\U{200A}') || c == '\U{2028}' || c == '\U{2029}'
    || c == '\U{202F}' || c == '\U{205F}' || c == '\U{3000}'
  }

  /** An ASCII decimal digit, the only digits this model admits. */
  predicate IsDigit(c: char) {
    '0' <= c <= '9'
  }

  predicate AllDigits(s: string) {
    forall i :: 0 <= i < |s| ==> IsDigit(s[i])
  }

  predicate NoDigits(s: string) {
    forall i :: 0 <= i < |s| ==> !IsDigit(s[i])
  }

  predicate NoSpaces(s: string) {
    forall i :: 0 <= i < |s| ==> !IsSpace(s[i])
  }

  predicate AllSpaces(s: string) {
    forall i :: 0 <= i < |s| ==> IsSpace(s[i])
  }

  /** How many whitespace characters `s` begins with. */
  function LeadingSpaces(s: string): (n: nat)
    ensures n <= |s| && AllSpaces(s[..n])
    ensures n == |s| || !IsSpace(s[n])
    decreases |s|
  {
    if |s| > 0 && IsSpace(s[0]) then
      var m := LeadingSpaces(s[1..]);
      assert s[..m + 1] == [s[0]] + s[1..][..m];
      m + 1
    else 0
  }

  /** How many whitespace characters `s` ends with. */
  function TrailingSpaces(s: string): (n: nat)
    ensures n <= |s| && AllSpaces(s[|s| - n..])
    ensures n == |s| || !IsSpace(s[|s| - 1 - n])
    decreases |s|
  {
    if |s| > 0 && IsSpace(s[|s| - 1]) then
      var m := TrailingSpaces(s[..|s| - 1]);
      assert s[|s| - (m + 1)..] == s[..|s| - 1][|s| - 1 - m..] + [s[|s| - 1]];
      m + 1
    else 0
  }

  function LStrip(s: string): string {
    s[LeadingSpaces(s)..]
  }

  function RStrip(s: string): string {
    s[..|s| - TrailingSpaces(s)]
  }

  /** `s.strip()`: `s` without its leading and trailing whitespace. */
  function Strip(s: string): (r: string)
    ensures |r| <= |s|
    ensures r == [] || (!IsSpace(r[0]) && !IsSpace(r[|r| - 1]))
  {
    RStrip(LStrip(s))
  }

  /**
   * What `strip` removes: `Strip(s)` is the part of `s` between a run of
   * leading and a run of trailing whitespace.
   */
  lemma {:induction false} StripInfix(s: string)
    ensures LeadingSpaces(s) + |Strip(s)| <= |s|
    ensures Strip(s) == s[LeadingSpaces(s)..LeadingSpaces(s) + |Strip(s)|]
    ensures AllSpaces(s[..LeadingSpaces(s)]) && AllSpaces(s[LeadingSpaces(s) + |Strip(s)|..])
  {
    var i := LeadingSpaces(s);
    var l := s[i..];
    var t := TrailingSpaces(l);
    assert Strip(s) == l[..|l| - t];
    SpacesAfter(s, i, l, t, l[..|l| - t]);
  }

  /** The part of `s[i..]` before its `t` trailing spaces sits in `s` at `i` and is followed by spaces only. */
  lemma {:induction false} SpacesAfter(s: string, i: nat, l: string, t: nat, r: string)
    requires i <= |s| && l == s[i..] && t <= |l| && r == l[..|l| - t] && AllSpaces(l[|l| - t..])
    ensures i + |r| <= |s| && r == s[i..i + |r|] && AllSpaces(s[i + |r|..])
  {
    assert s[i + |r|..] == l[|l| - t..];
  }

  /** Stripping twice is the same as stripping once. */
  lemma {:induction false} StripIdempotent(s: string)
    ensures Strip(Strip(s)) == Strip(s)
  {
    var r := Strip(s);
    if r != [] {
      assert LeadingSpaces(r) == 0;
      assert TrailingSpaces(r) == 0;
    }
  }

  /** A string with no whitespace at all is its own strip. */
  lemma {:induction false} StripNoSpaces(s: string)
    requires NoSpaces(s)
    ensures Strip(s) == s
  {
    if s != [] {
      assert LeadingSpaces(s) == 0;
      assert TrailingSpaces(s) == 0;
    }
  }

  function LowerChar(c: char): char {
    if 'A' <= c <= 'Z' then (c as int + 32) as char else c
  }

  function UpperChar(c: char): char {
    if 'a' <= c <= 'z' then (c as int - 32) as char else c
  }

  /** `s.lower()` on ASCII letters. */
  function Lower(s: string): (r: string)
    ensures |r| == |s| && forall i :: 0 <= i < |s| ==> r[i] == LowerChar(s[i])
  {
    seq(|s|, i requires 0 <= i < |s| => LowerChar(s[i]))
  }

  /** `s.upper()` on ASCII letters. */
  function Upper(s: string): (r: string)
    ensures |r| == |s| && forall i :: 0 <= i < |s| ==> r[i] == UpperChar(s[i])
  {
    seq(|s|, i requires 0 <= i < |s| => UpperChar(s[i]))
  }

  predicate StartsWith(s: string, p: string) {
    |p| <= |s| && s[..|p|] == p
  }

  /** `sub in s`. */
  predicate Contains(s: string, sub: string)
    decreases |s|
  {
    StartsWith(s, sub) || (|s| > 0 && Contains(s[1..], sub))
  }

  /** `sub` occurs in `s` starting at position `i`. */
  predicate OccursAt(s: string, sub: string, i: int) {
    0 <= i <= |s| - |sub| && s[i..i + |sub|] == sub
  }

  /** `sub in s` holds exactly when `sub` occurs at some position of `s`. */
  lemma {:induction false} ContainsAt(s: string, sub: string)
    ensures Contains(s, sub) <==> exists i :: OccursAt(s, sub, i)
    decreases |s|
  {
    if StartsWith(s, sub) {
      assert OccursAt(s, sub, 0);
    } else if |s| > 0 {
      ContainsAt(s[1..], sub);
      if Contains(s[1..], sub) {
        var i :| OccursAt(s[1..], sub, i);
        assert s[i + 1..i + 1 + |sub|] == s[1..][i..i + |sub|];
        assert OccursAt(s, sub, i + 1);
      }
      if exists i :: OccursAt(s, sub, i) {
        var i :| OccursAt(s, sub, i);
        assert i != 0;
        assert s[1..][i - 1..i - 1 + |sub|] == s[i..i + |sub|];
        assert OccursAt(s[1..], sub, i - 1);
      }
    }
  }

  /** A text missing one of the characters of `sub` does not contain `sub`. */
  lemma {:induction false} NotContainsChar(s: string, sub: string, j: nat)
    requires j < |sub| && sub[j] !in s
    ensures !Contains(s, sub)
    decreases |s|
  {
    if |s| > 0 {
      assert forall c :: c in s[1..] ==> c in s;
      NotContainsChar(s[1..], sub, j);
      assert !StartsWith(s, sub) by {
        if |sub| <= |s| {
          assert s[..|sub|][j] == s[j];
        }
      }
    }
  }

  /** `s.replace(c, repl)` for a one-character pattern. */
  function ReplaceChar(s: string, c: char, repl: string): (r: string)
    ensures c !in s ==> r == s
    ensures repl == [] ==> c !in r
    decreases |s|
  {
    if |s| == 0 then []
    else (if s[0] == c then repl else [s[0]]) + ReplaceChar(s[1..], c, repl)
  }

  /** `sep.join(parts)`. */
  function Join(sep: string, parts: seq<string>): string {
    if |parts| == 0 then []
    else if |parts| == 1 then parts[0]
    else parts[0] + sep + Join(sep, parts[1..])
  }

  function SplitFrom(s: string, sep: string, piece: string): (r: seq<string>)
    requires |sep| > 0
    ensures |r| >= 1
    decreases |s|
  {
    if |s| == 0 then [piece]
    else if StartsWith(s, sep) then [piece] + SplitFrom(s[|sep|..], sep, [])
    else SplitFrom(s[1..], sep, piece + [s[0]])
  }

  /** `s.split(sep)` for a non-empty separator. */
  function SplitOn(s: string, sep: string): (r: seq<string>)
    requires |sep| > 0
    ensures |r| >= 1
  {
    SplitFrom(s, sep, [])
  }

  lemma {:induction false} JoinSplitFrom(s: string, sep: string, piece: string)
    requires |sep| > 0
    ensures Join(sep, SplitFrom(s, sep, piece)) == piece + s
    decreases |s|
  {
    if |s| == 0 {
    } else if StartsWith(s, sep) {
      var rest := SplitFrom(s[|sep|..], sep, []);
      JoinSplitFrom(s[|sep|..], sep, []);
      assert ([piece] + rest)[1..] == rest;
      assert s == sep + s[|sep|..];
    } else {
      JoinSplitFrom(s[1..], sep, piece + [s[0]]);
      assert s == [s[0]] + s[1..];
    }
  }

  /** Joining the pieces of a split with the separator gives back the string. */
  lemma {:induction false} JoinSplit(s: string, sep: string)
    requires |sep| > 0
    ensures Join(sep, SplitOn(s, sep)) == s
  {
    JoinSplitFrom(s, sep, []);
  }

  lemma {:induction false} SplitFromOne(s: string, sep: string, piece: string)
    requires |sep| > 0
    ensures |SplitFrom(s, sep, piece)| == 1 <==> !Contains(s, sep)
    ensures |SplitFrom(s, sep, piece)| == 1 ==> SplitFrom(s, sep, piece)[0] == piece + s
    decreases |s|
  {
    if |s| == 0 {
      assert !StartsWith(s, sep);
    } else if StartsWith(s, sep) {
    } else {
      SplitFromOne(s[1..], sep, piece + [s[0]]);
      assert s == [s[0]] + s[1..];
    }
  }

  /** `s.split(sep)` has a second piece exactly when `sep in s`. */
  lemma {:induction false} SplitOnOne(s: string, sep: string)
    requires |sep| > 0
    ensures |SplitOn(s, sep)| == 1 <==> !Contains(s, sep)
    ensures !Contains(s, sep) ==> SplitOn(s, sep) == [s]
  {
    SplitFromOne(s, sep, []);
    assert [] + s == s;
  }

  function TokenPrefix(s: string): (r: string)
    ensures |r| <= |s| && r == s[..|r|] && NoSpaces(r)
    ensures |r| == |s| || IsSpace(s[|r|])
    decreases |s|
  {
    if |s| == 0 || IsSpace(s[0]) then [] else [s[0]] + TokenPrefix(s[1..])
  }

  /** `s.split()`: the maximal runs of non-whitespace characters, in order. */
  function SplitWhitespace(s: string): (r: seq<string>)
    ensures forall k :: 0 <= k < |r| ==> |r[k]| > 0 && NoSpaces(r[k])
    ensures AllSpaces(s) <==> r == []
    decreases |s|
  {
    if |s| == 0 then []
    else if IsSpace(s[0]) then SplitWhitespace(s[1..])
    else
      var t := TokenPrefix(s);
      [t] + SplitWhitespace(s[|t|..])
  }

  function DigitValue(c: char): nat
    requires IsDigit(c)
  {
    c as int - '0' as int
  }

  /** The number a non-empty run of decimal digits denotes. */
  function DigitsValue(d: string): nat
    requires AllDigits(d)
    decreases |d|
  {
    if |d| == 0 then 0 else DigitsValue(d[..|d| - 1]) * 10 + DigitValue(d[|d| - 1])
  }

  /** `int(s)` of a string: optional whitespace, an optional sign, one or more digits. */
  function ParseInt(s: string): Option<int> {
    var t := Strip(s);
    if |t| == 0 then None
    else if t[0] == '-' || t[0] == '+' then
      if |t| > 1 && AllDigits(t[1..]) then
        var v: int := DigitsValue(t[1..]);
        Some(if t[0] == '-' then -v else v)
      else None
    else if AllDigits(t) then Some(DigitsValue(t))
    else None
  }

  function DigitChar(d: nat): char
    requires d < 10
  {
    ('0' as int + d) as char
  }

  /** The decimal rendering of a natural number, `str(n)`. */
  function ShowNat(n: nat): (r: string)
    ensures |r| > 0 && AllDigits(r)
  {
    if n < 10 then [DigitChar(n)] else ShowNat(n / 10) + [DigitChar(n % 10)]
  }

  lemma {:induction false} DigitsShowNat(n: nat)
    ensures DigitsValue(ShowNat(n)) == n
  {
    var r := ShowNat(n);
    if n >= 10 {
      DigitsShowNat(n / 10);
      assert r[..|r| - 1] == ShowNat(n / 10);
    }
  }

  /** A bare run of digits parses to the number it denotes. */
  lemma {:induction false} ParseDigits(t: string)
    requires |t| > 0 && AllDigits(t)
    ensures ParseInt(t) == Some(DigitsValue(t))
  {
    assert NoSpaces(t) by {
      forall i | 0 <= i < |t| ensures !IsSpace(t[i]) {
        assert IsDigit(t[i]);
      }
    }
    StripNoSpaces(t);
    assert IsDigit(t[0]);
  }

  /** `int(str(n)) == n`: parsing undoes rendering. */
  lemma {:induction false} ParseShowNat(n: nat)
    ensures ParseInt(ShowNat(n)) == Some(n)
  {
    ParseDigits(ShowNat(n));
    DigitsShowNat(n);
  }

  /** The maximal run of digits at the start of `s`. */
  function DigitPrefix(s: string): (r: string)
    ensures |r| <= |s| && r == s[..|r|] && AllDigits(r)
    ensures |r| == |s| || !IsDigit(s[|r|])
    decreases |s|
  {
    if |s| == 0 || !IsDigit(s[0]) then [] else [s[0]] + DigitPrefix(s[1..])
  }

  /** The position of the first digit of `s`, or `|s|` when there is none. */
  function FirstDigitAt(s: string): (i: nat)
    ensures i <= |s| && NoDigits(s[..i])
    ensures i == |s| || IsDigit(s[i])
    decreases |s|
  {
    if |s| == 0 || IsDigit(s[0]) then 0
    else
      var j := FirstDigitAt(s[1..]);
      assert s[..j + 1] == [s[0]] + s[1..][..j];
      1 + j
  }

  /**
   * `re.search(r"(\d+)", s).group(1)`: the leftmost run of digits, taken whole,
   * or None when `s` has no digit.
   */
  function FirstDigitRun(s: string): (r: Option<string>)
    ensures r.None? <==> NoDigits(s)
    ensures r.Some? ==> |r.value| > 0 && AllDigits(r.value)
    ensures r.Some? ==> exists i :: (0 <= i < |s| && NoDigits(s[..i])
      && r.value == DigitPrefix(s[i..]))
  {
    var i := FirstDigitAt(s);
    if i == |s| then
      assert s[..i] == s;
      None
    else
      Some(DigitPrefix(s[i..]))
  }

  /** A run of digits followed by a non-digit is the digit prefix. */
  lemma {:induction false} DigitPrefixOf(d: string, t: string)
    requires AllDigits(d) && (t == [] || !IsDigit(t[0]))
    ensures DigitPrefix(d + t) == d
    decreases |d|
  {
    if |d| > 0 {
      assert (d + t)[1..] == d[1..] + t;
      DigitPrefixOf(d[1..], t);
    } else {
      assert d + t == t;
    }
  }

  /** A run of whitespace followed by a non-space is the leading whitespace. */
  lemma {:induction false} LeadingSpacesOf(w: string, t: string)
    requires AllSpaces(w) && (t == [] || !IsSpace(t[0]))
    ensures LeadingSpaces(w + t) == |w|
    decreases |w|
  {
    if |w| > 0 {
      assert (w + t)[1..] == w[1..] + t;
      LeadingSpacesOf(w[1..], t);
    } else {
      assert w + t == t;
    }
  }

  /** `replace` works piece by piece. */
  lemma {:induction false} ReplaceCharAppend(a: string, b: string, c: char, repl: string)
    ensures ReplaceChar(a + b, c, repl) == ReplaceChar(a, c, repl) + ReplaceChar(b, c, repl)
    decreases |a|
  {
    if |a| > 0 {
      assert (a + b)[1..] == a[1..] + b;
      ReplaceCharAppend(a[1..], b, c, repl);
    } else {
      assert a + b == b;
    }
  }

  /** `s * n` for a string. */
  function Repeat(s: string, n: nat): (r: string)
    ensures |r| == |s| * n
  {
    if n == 0 then [] else s + Repeat(s, n - 1)
  }

  /** A run of whitespace after a string ending in a non-space is the trailing whitespace. */
  lemma {:induction false} TrailingSpacesOf(t: string, w: string)
    requires AllSpaces(w) && (t == [] || !IsSpace(t[|t| - 1]))
    ensures TrailingSpaces(t + w) == |w|
    decreases |w|
  {
    if |w| > 0 {
      var u := w[..|w| - 1];
      assert (t + w)[..|t + w| - 1] == t + u;
      assert (t + w)[|t + w| - 1] == w[|w| - 1];
      TrailingSpacesOf(t, u);
    } else {
      assert t + w == t;
    }
  }

  /** `strip` removes exactly the whitespace padding around a text that starts and ends with a non-space. */
  lemma {:induction false} StripPadded(w1: string, m: string, w2: string)
    requires AllSpaces(w1) && AllSpaces(w2)
    requires |m| > 0 && !IsSpace(m[0]) && !IsSpace(m[|m| - 1])
    ensures Strip(w1 + m + w2) == m
  {
    var s := w1 + m + w2;
    assert s == w1 + (m + w2);
    LeadingSpacesOf(w1, m + w2);
    assert LStrip(s) == m + w2;
    TrailingSpacesOf(m, w2);
  }

  /** `lower` works piece by piece. */
  lemma {:induction false} LowerAppend(a: string, b: string)
    ensures Lower(a + b) == Lower(a) + Lower(b)
  {
  }

  /** Text without upper-case letters is its own `lower`. */
  lemma {:induction false} LowerNoUpper(s: string)
    requires forall i :: 0 <= i < |s| ==> !('A' <= s[i] <= 'Z')
    ensures Lower(s) == s
  {
  }

  /** While the separator cannot start inside `p`, splitting reads `p` into the current piece. */
  lemma {:induction false} SplitFromSkip(p: string, t: string, sep: string, piece: string)
    requires |sep| > 0 && sep[0] !in p
    ensures SplitFrom(p + t, sep, piece) == SplitFrom(t, sep, piece + p)
    decreases |p|
  {
    if |p| > 0 {
      var s := p + t;
      assert s[0] == p[0];
      assert !StartsWith(s, sep);
      assert s[1..] == p[1..] + t;
      assert sep[0] !in p[1..];
      SplitFromSkip(p[1..], t, sep, piece + [p[0]]);
      assert piece + [p[0]] + p[1..] == piece + p;
    } else {
      assert p + t == t;
      assert piece + p == piece;
    }
  }

  /** One separator between two texts that cannot contain it splits into those two texts. */
  lemma {:induction false} SplitAround(p: string, sep: string, q: string)
    requires |sep| > 0 && sep[0] !in p && sep[0] !in q
    ensures SplitOn(p + sep + q, sep) == [p, q]
  {
    SplitFromSkip(p, sep + q, sep, []);
    assert p + sep + q == p + (sep + q);
    assert [] + p == p;
    var s := sep + q;
    assert StartsWith(s, sep);
    assert s[|sep|..] == q;
    SplitFromSkip(q, [], sep, []);
    assert q + [] == q;
    assert [] + q == q;
  }
}
