/**
 * String helpers shared by the Python views and the JavaScript client:
 * ASCII case folding, stripping a class of characters from either end,
 * splitting on a separator character, and decimal rendering of integers.
 */
module Text {

  /** ASCII case folding, as `str.lower()` does on the byte strings the views handle. */
  function LowerChar(c: char): char
  {
    if 'A' <= c <= 'Z' then (c as int + 32) as char else c
  }

  function Lower(s: string): string
  {
    seq(|s|, i requires 0 <= i < |s| => LowerChar(s[i]))
  }

  predicate IsSlash(c: char)
  {
    c == '/'
  }

  /** The characters JavaScript's `\s` class (and so `jQuery.trim`) removes. */
  predicate IsJsSpace(c: char)
  {
    c == ' ' || c == '\t' || c == '\n' || c == '\r' || c == '\U{000B}' || c == '\U{000C}'
    || c == '\U{00A0}' || c == '\U{1680}' || ('\U{2000}' <= c <= '\U{200A}')
    || c == '\U{2028}' || c == '\U{2029}' || c == '\U{202F}' || c == '\U{205F}'
    || c == '\U{3000}' || c == '\U{FEFF}'
  }

  /** Removes the leading characters that satisfy `drop` (Python's `lstrip(chars)`). */
  function StripLeft(s: string, drop: char -> bool): string
  {
    if s != [] && drop(s[0]) then StripLeft(s[1..], drop) else s
  }

  /** Removes the trailing characters that satisfy `drop` (Python's `rstrip(chars)`). */
  function StripRight(s: string, drop: char -> bool): string
  {
    if s != [] && drop(s[|s| - 1]) then StripRight(s[..|s| - 1], drop) else s
  }

  /** `StripLeft` removes a prefix of dropped characters and stops at one it keeps. */
  lemma {:induction false} StripLeftFacts(s: string, drop: char -> bool)
    ensures var r := StripLeft(s, drop);
      |r| <= |s| && r == s[|s| - |r|..] && (r == [] || !drop(r[0]))
    ensures forall i :: 0 <= i < |s| - |StripLeft(s, drop)| ==> drop(s[i])
  {
    if s != [] && drop(s[0]) {
      StripLeftFacts(s[1..], drop);
      forall i | 1 <= i < |s| - |StripLeft(s, drop)|
        ensures drop(s[i])
      {
        assert s[i] == s[1..][i - 1];
      }
    }
  }

  /** `StripRight` removes a suffix of dropped characters and stops at one it keeps. */
  lemma {:induction false} StripRightFacts(s: string, drop: char -> bool)
    ensures var r := StripRight(s, drop);
      |r| <= |s| && r == s[..|r|] && (r == [] || !drop(r[|r| - 1]))
    ensures forall i :: |StripRight(s, drop)| <= i < |s| ==> drop(s[i])
  {
    if s != [] && drop(s[|s| - 1]) {
      StripRightFacts(s[..|s| - 1], drop);
      forall i | |StripRight(s, drop)| <= i < |s| - 1
        ensures drop(s[i])
      {
        assert s[i] == s[..|s| - 1][i];
      }
    }
  }

  /** Python's `strip(chars)`, and `jQuery.trim` when `drop` is `IsJsSpace`. */
  function Strip(s: string, drop: char -> bool): string
  {
    StripRight(StripLeft(s, drop), drop)
  }

  function Repeat(c: char, n: nat): string
  {
    seq(n, _ => c)
  }

  lemma {:induction false} StripLeftPadding(c: char, n: nat, s: string, drop: char -> bool)
    requires drop(c)
    ensures StripLeft(Repeat(c, n) + s, drop) == StripLeft(s, drop)
  {
    if n > 0 {
      assert (Repeat(c, n) + s)[0] == c;
      assert (Repeat(c, n) + s)[1..] == Repeat(c, n - 1) + s;
      StripLeftPadding(c, n - 1, s, drop);
    } else {
      assert Repeat(c, n) + s == s;
    }
  }

  lemma {:induction false} StripRightPadding(c: char, n: nat, s: string, drop: char -> bool)
    requires drop(c)
    ensures StripRight(s + Repeat(c, n), drop) == StripRight(s, drop)
  {
    if n > 0 {
      assert (s + Repeat(c, n))[|s| + n - 1] == c;
      assert (s + Repeat(c, n))[..|s| + n - 1] == s + Repeat(c, n - 1);
      StripRightPadding(c, n - 1, s, drop);
    } else {
      assert s + Repeat(c, n) == s;
    }
  }

  /** Stripping the left end of `s + t` strips `t` too only when `s` vanishes entirely. */
  lemma {:induction false} StripLeftAppend(s: string, t: string, drop: char -> bool)
    ensures StripLeft(s + t, drop) == if StripLeft(s, drop) == [] then StripLeft(t, drop) else StripLeft(s, drop) + t
  {
    if s != [] {
      assert (s + t)[1..] == s[1..] + t;
      if drop(s[0]) {
        StripLeftAppend(s[1..], t, drop);
      }
    } else {
      assert s + t == t;
    }
  }

  /** Leading and trailing padding of `drop` characters does not change `Strip`. */
  lemma StripIgnoresPadding(c: char, i: nat, s: string, j: nat, drop: char -> bool)
    requires drop(c)
    ensures Strip(Repeat(c, i) + s + Repeat(c, j), drop) == Strip(s, drop)
  {
    assert Repeat(c, i) + s + Repeat(c, j) == Repeat(c, i) + (s + Repeat(c, j));
    StripLeftPadding(c, i, s + Repeat(c, j), drop);
    StripLeftAppend(s, Repeat(c, j), drop);
    if StripLeft(s, drop) == [] {
      StripLeftPadding(c, j, [], drop);
      assert Repeat(c, j) + [] == Repeat(c, j);
    } else {
      StripRightPadding(c, j, StripLeft(s, drop), drop);
    }
  }

  /** `Strip` leaves a string that neither starts nor ends with a dropped character alone. */
  lemma StripUnpadded(s: string, drop: char -> bool)
    requires s == [] || (!drop(s[0]) && !drop(s[|s| - 1]))
    ensures Strip(s, drop) == s
  {
    assert StripLeft(s, drop) == s;
  }

  /** What `Strip` leaves neither starts nor ends with a dropped character. */
  lemma StripFacts(s: string, drop: char -> bool)
    ensures var r := Strip(s, drop); |r| <= |s| && (r == [] || (!drop(r[0]) && !drop(r[|r| - 1])))
  {
    var l := StripLeft(s, drop);
    StripLeftFacts(s, drop);
    StripRightFacts(l, drop);
    var r := StripRight(l, drop);
    if r != [] {
      assert r[0] == l[0];
    }
  }

  /** Splits on every occurrence of `sep`, as JavaScript's `split` does with a one-character string. */
  function Split(s: string, sep: char): (parts: seq<string>)
    ensures |parts| >= 1
    ensures forall i :: 0 <= i < |parts| ==> sep !in parts[i]
    ensures Join(parts, sep) == s
  {
    if s == [] then [""]
    else
      var rest := Split(s[1..], sep);
      if s[0] == sep then
        assert Join([""] + rest, sep) == [sep] + Join(rest, sep);
        [""] + rest
      else
        var parts := [[s[0]] + rest[0]] + rest[1..];
        assert Join(parts, sep) == [s[0]] + Join(rest, sep) by {
          if |rest| > 1 {
            assert parts[1..] == rest[1..];
          }
        }
        parts
  }

  /** Joins with `sep` between consecutive parts. */
  function Join(parts: seq<string>, sep: char): string
  {
    if |parts| == 0 then ""
    else if |parts| == 1 then parts[0]
    else parts[0] + [sep] + Join(parts[1..], sep)
  }

  lemma JoinCons(p: string, rest: seq<string>, sep: char)
    requires |rest| >= 1
    ensures Join([p] + rest, sep) == p + [sep] + Join(rest, sep)
  {
    assert ([p] + rest)[1..] == rest;
  }

  lemma {:induction false} SplitSepFree(p: string, sep: char)
    requires sep !in p
    ensures Split(p, sep) == [p]
  {
    if p != [] {
      SplitSepFree(p[1..], sep);
    }
  }

  lemma {:induction false} SplitAfterSep(p: string, sep: char, t: string)
    requires sep !in p
    ensures Split(p + [sep] + t, sep) == [p] + Split(t, sep)
  {
    if p == [] {
      assert p + [sep] + t == [sep] + t;
      assert ([sep] + t)[0] == sep && ([sep] + t)[1..] == t;
      assert Split([sep] + t, sep) == [""] + Split(t, sep);
    } else {
      assert (p + [sep] + t)[0] == p[0] != sep;
      assert (p + [sep] + t)[1..] == p[1..] + [sep] + t;
      SplitAfterSep(p[1..], sep, t);
      var rest := Split(p[1..] + [sep] + t, sep);
      assert rest[0] == p[1..] && rest[1..] == Split(t, sep);
      assert [p[0]] + p[1..] == p;
    }
  }

  /** `Split` undoes `Join` when no part contains the separator. */
  lemma {:induction false} SplitJoin(parts: seq<string>, sep: char)
    requires |parts| >= 1
    requires forall i :: 0 <= i < |parts| ==> sep !in parts[i]
    ensures Split(Join(parts, sep), sep) == parts
  {
    if |parts| == 1 {
      SplitSepFree(parts[0], sep);
    } else {
      SplitJoin(parts[1..], sep);
      SplitAfterSep(parts[0], sep, Join(parts[1..], sep));
    }
  }

  predicate IsDigit(c: char)
  {
    '0' <= c <= '9'
  }

  /** What the regular expression `\d+` accepts. */
  predicate IsDigits(s: string)
  {
    |s| > 0 && forall i :: 0 <= i < |s| ==> IsDigit(s[i])
  }

  function DigitChar(d: nat): char
    requires d < 10
  {
    ('0' as int + d) as char
  }

  /** Decimal rendering of a natural number, without leading zeros. */
  function NatToDecimal(n: nat): (s: string)
    ensures IsDigits(s)
    ensures |s| > 1 ==> s[0] != '0'
  {
    if n < 10 then [DigitChar(n)] else NatToDecimal(n / 10) + [DigitChar(n % 10)]
  }

  /** Decimal rendering of an integer, as JavaScript renders an integral Number. */
  function IntToDecimal(n: int): string
  {
    if n < 0 then "-" + NatToDecimal(-n) else NatToDecimal(n)
  }

  function DecimalValue(s: string): nat
    requires forall i :: 0 <= i < |s| ==> IsDigit(s[i])
  {
    if s == [] then 0
    else
      assert IsDigit(s[|s| - 1]);
      10 * DecimalValue(s[..|s| - 1]) + (s[|s| - 1] as int - '0' as int)
  }

  /** Reading the decimal rendering back gives the number. */
  lemma {:induction false} DecimalRoundTrip(n: nat)
    ensures DecimalValue(NatToDecimal(n)) == n
  {
    if n >= 10 {
      var s := NatToDecimal(n);
      assert s[..|s| - 1] == NatToDecimal(n / 10);
      DecimalRoundTrip(n / 10);
    }
  }
}
