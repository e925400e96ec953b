/**
 * The parts of Python's `str` and `int` that ELMcase relies on, with their edge cases:
 * substring test, `replace`, `split(sep)`, `sep.join`, `strip`, `split()`, `str(int)`,
 * `int(str)` and slicing with negative bounds.
 */
module PyStr {
  import opened Wrappers

  predicate IsPrefix(p: string, s: string) {
    |p| <= |s| && s[..|p|] == p
  }

  /** Python's `t in s` on strings: `t` occurs in `s` contiguously (the empty string occurs everywhere). */
  predicate Contains(s: string, t: string)
    decreases |s|
  {
    IsPrefix(t, s) || (|s| > 0 && Contains(s[1..], t))
  }

  lemma {:induction false} ContainsSelf(t: string)
    ensures Contains(t, t)
  {
    assert t[..|t|] == t;
  }

  lemma {:induction false} ContainsLength(s: string, t: string)
    requires Contains(s, t)
    ensures |t| <= |s|
    decreases |s|
  {
    if !IsPrefix(t, s) {
      ContainsLength(s[1..], t);
    }
  }

  lemma {:induction false} ContainsAppend(s: string, b: string, t: string)
    requires Contains(s, t)
    ensures Contains(s + b, t)
    decreases |s|
  {
    if IsPrefix(t, s) {
      assert (s + b)[..|t|] == s[..|t|];
    } else {
      assert (s + b)[1..] == s[1..] + b;
      ContainsAppend(s[1..], b, t);
    }
  }

  lemma {:induction false} ContainsPrepend(a: string, s: string, t: string)
    requires Contains(s, t)
    ensures Contains(a + s, t)
    decreases |a|
  {
    if a == [] {
      assert a + s == s;
    } else {
      assert (a + s)[1..] == a[1..] + s;
      ContainsPrepend(a[1..], s, t);
    }
  }

  /** Every character of a string found in `s` is a character of `s`. */
  lemma {:induction false} ContainsChar(s: string, t: string, c: char)
    requires Contains(s, t) && c in t
    ensures c in s
    decreases |s|
  {
    if IsPrefix(t, s) {
      var k :| 0 <= k < |t| && t[k] == c;
      assert s[k] == c;
    } else {
      ContainsChar(s[1..], t, c);
      var k :| 0 <= k < |s[1..]| && s[1..][k] == c;
      assert s[k + 1] == c;
    }
  }

  /** A string lacking one of the characters of `t` does not contain `t`. */
  lemma MissingCharNotContains(s: string, t: string, c: char)
    requires c in t && c !in s
    ensures !Contains(s, t)
  {
    if Contains(s, t) {
      ContainsChar(s, t, c);
    }
  }

  /** A string contains its own prefix. */
  lemma ContainsHead(m: string, rest: string)
    ensures Contains(m + rest, m)
  {
    assert (m + rest)[..|m|] == m;
  }

  /** A marker found in a part of a concatenation is found in the whole. */
  lemma ContainsInfix(a: string, m: string, b: string, t: string)
    requires Contains(m, t)
    ensures Contains(a + m + b, t)
  {
    ContainsAppend(m, b, t);
    ContainsPrepend(a, m + b, t);
    assert a + m + b == a + (m + b);
  }

  /** Python's `s.replace(pat, rep)` for a non-empty `pat`: every non-overlapping occurrence, left to right. */
  function Replace(s: string, pat: string, rep: string): string
    requires pat != ""
    decreases |s|
  {
    if |s| < |pat| then s
    else if IsPrefix(pat, s) then rep + Replace(s[|pat|..], pat, rep)
    else [s[0]] + Replace(s[1..], pat, rep)
  }

  /** Replacing a pattern that does not occur changes nothing. */
  lemma {:induction false} ReplaceAbsent(s: string, pat: string, rep: string)
    requires pat != ""
    requires !Contains(s, pat)
    ensures Replace(s, pat, rep) == s
    decreases |s|
  {
    if |s| >= |pat| {
      ReplaceAbsent(s[1..], pat, rep);
      assert [s[0]] + s[1..] == s;
    }
  }

  /**
   * The first occurrence of the pattern is replaced, with the text before it kept: nothing
   * before the end of that occurrence contains the pattern.
   */
  lemma {:induction false} ReplaceFirst(x: string, pat: string, y: string, rep: string)
    requires pat != ""
    requires !Contains(x + pat[..|pat| - 1], pat)
    ensures Replace(x + pat + y, pat, rep) == x + rep + Replace(y, pat, rep)
    decreases |x|
  {
    var s := x + pat + y;
    if x == [] {
      assert s == pat + y && s[|pat|..] == y;
    } else {
      var w := x + pat[..|pat| - 1];
      NotPrefixBefore(x, pat, y);
      assert w[1..] == x[1..] + pat[..|pat| - 1];
      assert s[1..] == x[1..] + pat + y;
      ReplaceFirst(x[1..], pat, y, rep);
      calc {
        Replace(s, pat, rep);
        [s[0]] + Replace(s[1..], pat, rep);
        [x[0]] + (x[1..] + rep + Replace(y, pat, rep));
        { assert [x[0]] + x[1..] == x; }
        x + rep + Replace(y, pat, rep);
      }
    }
  }

  /** A pattern occurring exactly once is replaced there and nowhere else. */
  lemma ReplaceOnce(x: string, pat: string, y: string, rep: string)
    requires pat != ""
    requires !Contains(x + pat[..|pat| - 1], pat) && !Contains(y, pat)
    ensures Replace(x + pat + y, pat, rep) == x + rep + y
  {
    ReplaceFirst(x, pat, y, rep);
    ReplaceAbsent(y, pat, rep);
  }

  /** A pattern that does not start within `x + pat[..|pat| - 1]` does not start `x + pat + y`. */
  lemma NotPrefixBefore(x: string, pat: string, y: string)
    requires pat != "" && x != []
    requires !Contains(x + pat[..|pat| - 1], pat)
    ensures !IsPrefix(pat, x + pat + y)
  {
    var w := x + pat[..|pat| - 1];
    assert !IsPrefix(pat, w);
    assert (x + pat + y)[..|pat|] == w[..|pat|];
  }

  /** Python's `s.split(sep)` for a one-character separator: always at least one piece, none holding `sep`. */
  function Split(s: string, sep: char): (parts: seq<string>)
    ensures |parts| >= 1
    ensures forall i :: 0 <= i < |parts| ==> sep !in parts[i]
    decreases |s|
  {
    if s == [] then [[]]
    else
      var rest := Split(s[1..], sep);
      if s[0] == sep then [[]] + rest
      else [[s[0]] + rest[0]] + rest[1..]
  }

  /** Python's `sep.join(parts)`. */
  function Join(parts: seq<string>, sep: char): string
    decreases |parts|
  {
    if |parts| == 0 then []
    else if |parts| == 1 then parts[0]
    else parts[0] + [sep] + Join(parts[1..], sep)
  }

  /** Splitting at a separator splits the two sides independently. */
  lemma {:induction false} SplitAround(a: string, b: string, sep: char)
    ensures Split(a + [sep] + b, sep) == Split(a, sep) + Split(b, sep)
    decreases |a|
  {
    var s := a + [sep] + b;
    if a == [] {
      assert s == [sep] + b;
      assert s[1..] == b;
    } else {
      assert s[0] == a[0];
      assert s[1..] == a[1..] + [sep] + b;
      SplitAround(a[1..], b, sep);
    }
  }

  /** Joining the pieces of a split with the same separator gives back the string. */
  lemma {:induction false} JoinSplit(s: string, sep: char)
    ensures Join(Split(s, sep), sep) == s
    decreases |s|
  {
    if s != [] {
      var rest := Split(s[1..], sep);
      JoinSplit(s[1..], sep);
      if s[0] == sep {
        assert Split(s, sep) == [[]] + rest;
        assert Join([[]] + rest, sep) == [] + [sep] + Join(rest, sep);
      } else if |rest| == 1 {
        assert Split(s, sep) == [[s[0]] + rest[0]];
      } else {
        var parts := Split(s, sep);
        assert parts == [[s[0]] + rest[0]] + rest[1..];
        assert parts[1..] == rest[1..];
        assert Join(rest, sep) == rest[0] + [sep] + Join(rest[1..], sep);
      }
    }
  }

  /** A string holding the separator splits into at least two pieces; one without it into itself. */
  lemma {:induction false} SplitCount(s: string, sep: char)
    ensures sep in s ==> |Split(s, sep)| >= 2
    ensures sep !in s ==> Split(s, sep) == [s]
    decreases |s|
  {
    if s != [] {
      SplitCount(s[1..], sep);
      assert s == [s[0]] + s[1..];
    }
  }

  /** Joining all pieces but the last and then appending `sep` and the last piece is the full join. */
  lemma {:induction false} JoinInitLast(parts: seq<string>, sep: char)
    requires |parts| >= 2
    ensures Join(parts[..|parts| - 1], sep) + [sep] + parts[|parts| - 1] == Join(parts, sep)
    decreases |parts|
  {
    if |parts| > 2 {
      var tail := parts[1..];
      JoinInitLast(tail, sep);
      assert parts[..|parts| - 1][1..] == tail[..|tail| - 1];
      assert tail[|tail| - 1] == parts[|parts| - 1];
    }
  }

  /** The characters Python's `str.isspace` accepts. */
  predicate IsSpace(c: char) {
    || c == ' ' || c == '\t' || c == '\n' || c == '\r' || c == '\U{B}' || c == '\U{C}'
    || ('\U{1C}' <= c <= '\U{1F}') || c == '\U{85}' || c == '\U{A0}' || c == '\U{1680}'
    || ('\U{2000}' <= c <= '\U{200A}') || c == '\U{2028}' || c == '\U{2029}'
    || c == '\U{202F}' || c == '\U{205F}' || c == '\U{3000}'
  }

  predicate NoSpace(s: string) {
    forall i :: 0 <= i < |s| ==> !IsSpace(s[i])
  }

  function LStrip(s: string): string
    decreases |s|
  {
    if s != [] && IsSpace(s[0]) then LStrip(s[1..]) else s
  }

  function RStrip(s: string): string
    decreases |s|
  {
    if s != [] && IsSpace(s[|s| - 1]) then RStrip(s[..|s| - 1]) else s
  }

  /** Python's `s.strip()` with no argument. */
  function Strip(s: string): string {
    RStrip(LStrip(s))
  }

  /** Stripping a string with no whitespace at either end leaves it as it is. */
  lemma StripUnpadded(s: string)
    requires s == [] || (!IsSpace(s[0]) && !IsSpace(s[|s| - 1]))
    ensures Strip(s) == s
  {
  }

  predicate AllSpace(s: string) {
    forall i :: 0 <= i < |s| ==> IsSpace(s[i])
  }

  lemma {:induction false} LStripSpaces(a: string, t: string)
    requires AllSpace(a)
    ensures LStrip(a + t) == LStrip(t)
    decreases |a|
  {
    if a != [] {
      assert (a + t)[0] == a[0] && IsSpace(a[0]);
      assert (a + t)[1..] == a[1..] + t;
      LStripSpaces(a[1..], t);
    } else {
      assert a + t == t;
    }
  }

  lemma {:induction false} RStripSpaces(t: string, b: string)
    requires AllSpace(b)
    ensures RStrip(t + b) == RStrip(t)
    decreases |b|
  {
    if b != [] {
      var b' := b[..|b| - 1];
      assert (t + b)[|t + b| - 1] == b[|b| - 1] && IsSpace(b[|b| - 1]);
      assert (t + b)[..|t + b| - 1] == t + b';
      RStripSpaces(t, b');
    } else {
      assert t + b == t;
    }
  }

  /** Whitespace around an unpadded string is exactly what `strip()` removes. */
  lemma StripPadded(a: string, s: string, b: string)
    requires AllSpace(a) && AllSpace(b)
    requires s == [] || (!IsSpace(s[0]) && !IsSpace(s[|s| - 1]))
    ensures Strip(a + s + b) == s
  {
    assert a + s + b == a + (s + b);
    LStripSpaces(a, s + b);
    if s == [] {
      assert s + b == b;
      LStripSpaces(b, []);
      assert b + [] == b;
    } else {
      RStripSpaces(s, b);
    }
  }

  /** The index of the first `c` in `s` (Python's `s.index(c)`). */
  function IndexOf(s: string, c: char): (i: nat)
    requires c in s
    ensures i < |s| && s[i] == c
    ensures forall j :: 0 <= j < i ==> s[j] != c
    decreases |s|
  {
    if s[0] == c then 0 else 1 + IndexOf(s[1..], c)
  }

  /** The leading run of non-whitespace characters of `s`. */
  function TakeWord(s: string): (w: string)
    ensures |w| <= |s| && w == s[..|w|]
    ensures NoSpace(w)
    ensures |w| < |s| ==> IsSpace(s[|w|])
    decreases |s|
  {
    if s == [] || IsSpace(s[0]) then [] else [s[0]] + TakeWord(s[1..])
  }

  /** Python's `s.split()` with no argument: the maximal runs of non-whitespace characters. */
  function Words(s: string): seq<string>
    decreases |s|
  {
    if s == [] then []
    else if IsSpace(s[0]) then Words(s[1..])
    else
      var w := TakeWord(s);
      [w] + Words(s[|w|..])
  }

  lemma {:induction false} TakeWordBeforeSpace(a: string, x: string)
    requires x != [] && IsSpace(x[0])
    ensures TakeWord(a + x) == TakeWord(a)
    decreases |a|
  {
    if a == [] {
      assert a + x == x;
    } else if !IsSpace(a[0]) {
      assert (a + x)[1..] == a[1..] + x;
      TakeWordBeforeSpace(a[1..], x);
    }
  }

  /** A whitespace-free word written after a space is the last word of the line. */
  lemma {:induction false} WordsSpaceWord(a: string, w: string)
    requires w != [] && NoSpace(w)
    ensures Words(a + [' '] + w) == Words(a) + [w]
    decreases |a|
  {
    var s := a + [' '] + w;
    if a == [] {
      assert s[1..] == w;
      assert TakeWord(w) == w;
      assert w[|w|..] == [];
    } else if IsSpace(a[0]) {
      assert s[1..] == a[1..] + [' '] + w;
      WordsSpaceWord(a[1..], w);
    } else {
      TakeWordBeforeSpace(a, [' '] + w);
      assert s == a + ([' '] + w);
      var tw := TakeWord(a);
      assert s[|tw|..] == a[|tw|..] + [' '] + w;
      WordsSpaceWord(a[|tw|..], w);
    }
  }

  /** A word with no whitespace in it splits into itself alone. */
  lemma WordsSingle(w: string)
    requires w != [] && NoSpace(w)
    ensures Words(w) == [w]
  {
    assert TakeWord(w) == w;
    assert w[|w|..] == [];
  }

  predicate IsDigit(c: char) {
    '0' <= c <= '9'
  }

  predicate AllDigits(s: string) {
    forall i :: 0 <= i < |s| ==> IsDigit(s[i])
  }

  /** The value of a string of decimal digits (leading zeros allowed). */
  function DigitsValue(s: string): nat
    requires AllDigits(s)
    decreases |s|
  {
    if s == [] then 0 else DigitsValue(s[..|s| - 1]) * 10 + (s[|s| - 1] as int - '0' as int)
  }

  /**
   * Python's `int(s)` on a string, restricted to ASCII: surrounding whitespace is ignored,
   * then one optional sign and at least one digit '0'-'9'; any other string is None, which
   * stands for a ValueError. Underscores between digits and non-ASCII decimal digits, which
   * Python also accepts, are not modelled.
   */
  function ParseInt(s: string): Option<int> {
    var t := Strip(s);
    if t != [] && (t[0] == '-' || t[0] == '+') then
      var d := t[1..];
      if d != [] && AllDigits(d) then
        Some(if t[0] == '-' then 0 - DigitsValue(d) as int else DigitsValue(d) as int)
      else None
    else if t != [] && AllDigits(t) then Some(DigitsValue(t))
    else None
  }

  function Digit(d: nat): char
    requires d < 10
  {
    ('0' as int + d) as char
  }

  /** The decimal digits of `n`, without leading zeros. */
  function NatToString(n: nat): (s: string)
    ensures s != [] && AllDigits(s)
    decreases n
  {
    if n < 10 then [Digit(n)] else NatToString(n / 10) + [Digit(n % 10)]
  }

  /** Python's `str(n)` for an integer. */
  function IntToString(n: int): (s: string)
    ensures s != []
  {
    if n < 0 then "-" + NatToString(-n) else NatToString(n)
  }

  /** The decimal form of an integer has no whitespace in it. */
  lemma IntToStringNoSpace(n: int)
    ensures NoSpace(IntToString(n))
  {
    var w := IntToString(n);
    forall i | 0 <= i < |w| ensures !IsSpace(w[i]) {
      if n >= 0 {
        assert IsDigit(w[i]);
      } else if i > 0 {
        assert w[i] == NatToString(-n)[i - 1];
        assert IsDigit(w[i]);
      }
    }
  }

  lemma {:induction false} NatToStringValue(n: nat)
    ensures DigitsValue(NatToString(n)) == n
    decreases n
  {
    if n >= 10 {
      NatToStringValue(n / 10);
      var s := NatToString(n);
      assert s[..|s| - 1] == NatToString(n / 10);
    }
  }

  lemma AllDigitsNoSpace(s: string)
    requires AllDigits(s)
    ensures NoSpace(s)
  {
  }

  lemma NoSpaceStrip(s: string)
    requires NoSpace(s)
    ensures Strip(s) == s
  {
  }

  /** `int(str(n)) == n`. */
  lemma ParseIntToString(n: int)
    ensures ParseInt(IntToString(n)) == Some(n)
  {
    var s := IntToString(n);
    if n < 0 {
      var d := NatToString(-n);
      assert s == "-" + d;
      assert NoSpace(s) by {
        forall i | 0 <= i < |s| ensures !IsSpace(s[i]) {
          if i > 0 { assert s[i] == d[i - 1]; }
        }
      }
      NoSpaceStrip(s);
      assert s[1..] == d;
      NatToStringValue(-n);
    } else {
      AllDigitsNoSpace(s);
      NoSpaceStrip(s);
      NatToStringValue(n);
    }
  }

  /** Python's `s[-a:-b]` for positive `a` and `b`: bounds past the start are clamped to 0. */
  function SliceFromEnd(s: string, a: nat, b: nat): (r: string)
    requires a > 0 && b > 0
    ensures |r| <= |s|
  {
    var i := if |s| >= a then |s| - a else 0;
    var j := if |s| >= b then |s| - b else 0;
    if i < j then s[i..j] else ""
  }
}
