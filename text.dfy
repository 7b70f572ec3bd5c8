/**
 * String primitives of Python's `str` that the modelled code relies on:
 * whitespace classes, `strip()`, `split('\n')`, `sep.join(...)`,
 * `str(n)` and `int(s)`.
 */
module Text {
  import opened Common

  /** Python's `str.isspace()`, which is also what `\s` matches in a `str` pattern. */
  predicate IsSpace(c: char) {
    ('\t' <= c <= '\r') || ('\U{1C}' <= c <= ' ')
    || c == '\U{85}' || c == '\U{A0}' || c == '\U{1680}'
    || ('\U{2000}' <= c <= '\U{200A}')
    || c == '\U{2028}' || c == '\U{2029}' || c == '\U{202F}' || c == '\U{205F}' || c == '\U{3000}'
  }

  /** ASCII decimal digits (the model's reading of `\d`). */
  predicate IsDigit(c: char) {
    '0' <= c <= '9'
  }

  /** ASCII lower-casing, used for case-insensitive matching of fixed labels. */
  function Lower(c: char): char {
    if 'A' <= c <= 'Z' then (c as int + 32) as char else c
  }

  /** Every character is whitespace: `not s.strip()` in Python. */
  predicate Blank(s: string) {
    forall i :: 0 <= i < |s| ==> IsSpace(s[i])
  }

  /** No whitespace at either end: the shape of a `strip()` result. */
  predicate IsStripped(s: string) {
    s == [] || (!IsSpace(s[0]) && !IsSpace(s[|s| - 1]))
  }

  predicate AllDigits(s: string) {
    forall i :: 0 <= i < |s| ==> IsDigit(s[i])
  }

  predicate StartsWith(s: string, prefix: string) {
    |prefix| <= |s| && s[..|prefix|] == prefix
  }

  predicate EndsWith(s: string, suffix: string) {
    |suffix| <= |s| && s[|s| - |suffix|..] == suffix
  }

  /** The index of the first non-whitespace character at or after `i` (or `|s|`). */
  function SkipSpaces(s: string, i: nat): (k: nat)
    requires i <= |s|
    ensures i <= k <= |s|
    ensures forall j :: i <= j < k ==> IsSpace(s[j])
    ensures k < |s| ==> !IsSpace(s[k])
    decreases |s| - i
  {
    if i < |s| && IsSpace(s[i]) then SkipSpaces(s, i + 1) else i
  }

  /** `SkipSpaces` stops at the first non-whitespace character. */
  lemma SkipSpacesTo(s: string, i: nat, k: nat)
    requires i <= k < |s| && !IsSpace(s[k])
    requires forall j :: i <= j < k ==> IsSpace(s[j])
    ensures SkipSpaces(s, i) == k
    decreases k - i
  {
    if i < k {
      SkipSpacesTo(s, i + 1, k);
    }
  }

  /** `SkipSpaces` never passes a non-whitespace character. */
  lemma SkipSpacesStops(s: string, i: nat, k: nat)
    requires i <= k < |s| && !IsSpace(s[k])
    ensures SkipSpaces(s, i) <= k
    decreases k - i
  {
    if i < k && IsSpace(s[i]) {
      SkipSpacesStops(s, i + 1, k);
    }
  }

  /** The smallest `k` in `[lo, hi]` such that `s[k..hi]` is all whitespace. */
  function TrimEndIndex(s: string, lo: nat, hi: nat): (k: nat)
    requires lo <= hi <= |s|
    ensures lo <= k <= hi
    ensures forall j :: k <= j < hi ==> IsSpace(s[j])
    ensures k > lo ==> !IsSpace(s[k - 1])
    decreases hi
  {
    if hi > lo && IsSpace(s[hi - 1]) then TrimEndIndex(s, lo, hi - 1) else hi
  }

  /** Python's `s.strip()`. */
  function Strip(s: string): (r: string)
    ensures IsStripped(r)
    ensures |r| <= |s|
    ensures r == [] <==> Blank(s)
  {
    var a := SkipSpaces(s, 0);
    var b := TrimEndIndex(s, a, |s|);
    assert a < |s| ==> b > a;
    s[a..b]
  }

  /** `s` splits into leading whitespace, `Strip(s)` and trailing whitespace. */
  lemma StripDecomposes(s: string)
    ensures exists a, b :: 0 <= a <= b <= |s| && Blank(s[..a]) && Blank(s[b..]) && Strip(s) == s[a..b]
  {
    var a := SkipSpaces(s, 0);
    var b := TrimEndIndex(s, a, |s|);
    assert Blank(s[..a]) && Blank(s[b..]) && Strip(s) == s[a..b];
  }

  lemma SliceConcat(s: string, a: nat, b: nat, c: nat)
    requires a <= b <= c <= |s|
    ensures s[a..c] == s[a..b] + s[b..c]
  {
  }

  /** `strip()` only removes characters. */
  lemma StripChars(s: string)
    ensures forall c :: c in Strip(s) ==> c in s
  {
    StripDecomposes(s);
    var a, b :| 0 <= a <= b <= |s| && Blank(s[..a]) && Blank(s[b..]) && Strip(s) == s[a..b];
    forall c | c in Strip(s)
      ensures c in s
    {
      var i :| 0 <= i < b - a && s[a..b][i] == c;
      assert s[a + i] == c;
    }
  }

  /** The bounds of `Strip(s)` inside `s`. */
  lemma StripBounds(s: string) returns (a: nat, b: nat)
    ensures a <= b <= |s| && Blank(s[..a]) && Blank(s[b..]) && Strip(s) == s[a..b]
  {
    a := SkipSpaces(s, 0);
    b := TrimEndIndex(s, a, |s|);
  }

  lemma RegroupTail(s: string, w: string, a: nat, b: nat)
    requires a <= b <= |s|
    ensures s + w == s[..a] + s[a..b] + (s[b..] + w)
  {
    assert s == s[..a] + s[a..b] + s[b..];
  }

  lemma Regroup(w: string, s: string, a: nat, b: nat)
    requires a <= b <= |s|
    ensures w + s == (w + s[..a]) + s[a..b] + s[b..]
  {
    assert s == s[..a] + s[a..b] + s[b..];
  }

  /** Stripping is determined by the stripped core: whitespace around it does not matter. */
  lemma {:induction false} StripUnique(w1: string, x: string, w2: string)
    requires Blank(w1) && Blank(w2) && IsStripped(x)
    ensures Strip(w1 + x + w2) == x
  {
    var s := w1 + x + w2;
    var a := SkipSpaces(s, 0);
    var b := TrimEndIndex(s, a, |s|);
    if x == [] {
      assert Blank(s);
    } else {
      assert s[|w1|] == x[0];
      assert a == |w1|;
      assert s[|w1| + |x| - 1] == x[|x| - 1];
      assert b == |w1| + |x|;
      assert s[a..b] == x;
    }
  }

  lemma StripIdempotent(s: string)
    ensures Strip(Strip(s)) == Strip(s)
  {
    StripUnique([], Strip(s), []);
    assert [] + Strip(s) + [] == Strip(s);
  }

  /** Whitespace appended after the text is removed by `strip()`. */
  lemma StripIgnoresTrailing(s: string, w: string)
    requires Blank(w)
    ensures Strip(s + w) == Strip(s)
  {
    var a, b := StripBounds(s);
    BlankConcat(s[b..], w);
    RegroupTail(s, w, a, b);
    StripUnique(s[..a], s[a..b], s[b..] + w);
  }

  lemma BlankConcat(x: string, y: string)
    requires Blank(x) && Blank(y)
    ensures Blank(x + y)
  {
    forall i | 0 <= i < |x + y|
      ensures IsSpace((x + y)[i])
    {
      if i < |x| {
        assert (x + y)[i] == x[i];
      } else {
        assert (x + y)[i] == y[i - |x|];
      }
    }
  }

  /** Whitespace in front of the text is removed by `strip()`. */
  lemma StripIgnoresLeading(w: string, s: string)
    requires Blank(w)
    ensures Strip(w + s) == Strip(s)
  {
    var a, b := StripBounds(s);
    BlankConcat(w, s[..a]);
    Regroup(w, s, a, b);
    StripUnique(w + s[..a], s[a..b], s[b..]);
  }

  /** A text starts with its first part. */
  lemma StartsWithConcat(x: string, y: string)
    ensures StartsWith(x + y, x)
  {
    assert (x + y)[..|x|] == x;
  }

  /** A text ends with its last part. */
  lemma EndsWithConcat(x: string, y: string)
    ensures EndsWith(x + y, y)
  {
    assert (x + y)[|x|..] == y;
  }

  /** `y` occurs in `x + y + z` right after `x`. */
  lemma OccursAfter(x: string, y: string, z: string)
    ensures |x| + |y| <= |x + y + z| && (x + y + z)[|x|..|x| + |y|] == y
  {
    assert (x + y + z)[|x|..|x| + |y|] == y;
  }

  /** Starting with a text that starts with `q` means starting with `q`. */
  lemma StartsWithTrans(s: string, p: string, q: string)
    requires StartsWith(s, p) && StartsWith(p, q)
    ensures StartsWith(s, q)
  {
    assert s[..|q|] == s[..|p|][..|q|];
  }

  /** A text agrees with its prefix character by character. */
  lemma StartsWithCharAt(s: string, p: string, i: nat)
    requires StartsWith(s, p) && i < |p|
    ensures i < |s| && s[i] == p[i]
  {
    assert s[..|p|][i] == s[i];
  }

  /** A text agrees with its suffix character by character, counted from the end. */
  lemma EndsWithCharAt(s: string, suffix: string, k: nat)
    requires EndsWith(s, suffix) && 1 <= k <= |suffix|
    ensures k <= |s| && s[|s| - k] == suffix[|suffix| - k]
  {
    assert s[|s| - |suffix|..][|suffix| - k] == s[|s| - k];
  }

  /** Where `y` occurs, so does every prefix of `y`. */
  lemma OccursPrefix(s: string, at: nat, y: string, p: string)
    requires at + |y| <= |s| && s[at..at + |y|] == y && StartsWith(y, p)
    ensures at + |p| <= |s| && s[at..at + |p|] == p
  {
    assert s[at..at + |p|] == s[at..at + |y|][..|p|];
  }

  /** A text starts with any prefix of its first part. */
  lemma StartsWithRegroup(x: string, y: string, z: string)
    ensures StartsWith(x + (y + z), x + y)
  {
    assert (x + (y + z))[..|x + y|] == x + y;
  }

  /** Putting text in front keeps a suffix. */
  lemma EndsWithExtend(p: string, s: string, t: string)
    requires EndsWith(s, t)
    ensures EndsWith(p + s, t)
  {
    assert (p + s)[|p + s| - |t|..] == s[|s| - |t|..];
  }

  /** A text whose `i`-th character differs from the prefix's does not start with it. */
  lemma NotStartsWithAt(s: string, prefix: string, i: nat)
    requires i < |s| && i < |prefix| && s[i] != prefix[i]
    ensures !StartsWith(s, prefix)
  {
    if |prefix| <= |s| {
      assert s[..|prefix|][i] == s[i];
    }
  }

  /** A text whose `k`-th character from the end differs from the suffix's does not end with it. */
  lemma NotEndsWithAt(s: string, suffix: string, k: nat)
    requires 1 <= k <= |s| && k <= |suffix| && s[|s| - k] != suffix[|suffix| - k]
    ensures !EndsWith(s, suffix)
  {
    if |suffix| <= |s| {
      assert s[|s| - |suffix|..][|suffix| - k] == s[|s| - k];
    }
  }

  /** Python's `s.split(sep)` for a one-character separator. */
  function Split(s: string, sep: char): (r: seq<string>)
    ensures |r| >= 1
    ensures forall k :: 0 <= k < |r| ==> sep !in r[k]
    decreases |s|
  {
    if s == [] then [""]
    else
      var rest := Split(s[1..], sep);
      if s[0] == sep then [""] + rest else [[s[0]] + rest[0]] + rest[1..]
  }

  /** Python's `sep.join(parts)`. */
  function Join(sep: string, parts: seq<string>): string
    decreases |parts|
  {
    if parts == [] then ""
    else if |parts| == 1 then parts[0]
    else parts[0] + sep + Join(sep, parts[1..])
  }

  /** Splitting on a character and joining with it again gives back the text. */
  lemma {:induction false} JoinSplit(s: string, sep: char)
    ensures Join([sep], Split(s, sep)) == s
  {
    if s != [] {
      var rest := Split(s[1..], sep);
      JoinSplit(s[1..], sep);
      if s[0] == sep {
        assert Join([sep], [""] + rest) == "" + [sep] + Join([sep], rest) by {
          assert ([""] + rest)[1..] == rest;
        }
      } else if |rest| == 1 {
        assert Split(s, sep) == [[s[0]] + rest[0]];
      } else {
        var parts := [[s[0]] + rest[0]] + rest[1..];
        assert parts[1..] == rest[1..];
        assert Join([sep], rest) == rest[0] + [sep] + Join([sep], rest[1..]);
      }
    }
  }

  /** A text without the separator is a single piece. */
  lemma {:induction false} SplitNoSep(x: string, sep: char)
    requires sep !in x
    ensures Split(x, sep) == [x]
    decreases |x|
  {
    if x != [] {
      SplitNoSep(x[1..], sep);
      assert [x[0]] + x[1..] == x;
    }
  }

  /** A separator after a separator-free piece ends that piece. */
  lemma {:induction false} SplitAround(x: string, sep: char, y: string)
    requires sep !in x
    ensures Split(x + [sep] + y, sep) == [x] + Split(y, sep)
    decreases |x|
  {
    var s := x + [sep] + y;
    if x == [] {
      assert s[1..] == y;
    } else {
      assert s[1..] == x[1..] + [sep] + y;
      SplitAround(x[1..], sep, y);
      assert [x[0]] + x[1..] == x;
    }
  }

  /** Joining pieces without the separator and splitting again gives the pieces back. */
  lemma {:induction false} SplitJoin(parts: seq<string>, sep: char)
    requires |parts| >= 1
    requires forall k :: 0 <= k < |parts| ==> sep !in parts[k]
    ensures Split(Join([sep], parts), sep) == parts
    decreases |parts|
  {
    if |parts| == 1 {
      SplitNoSep(parts[0], sep);
    } else {
      SplitJoin(parts[1..], sep);
      SplitAround(parts[0], sep, Join([sep], parts[1..]));
      assert [parts[0]] + parts[1..] == parts;
    }
  }

  lemma JoinTwo(sep: string, a: string, b: string)
    ensures Join(sep, [a, b]) == a + sep + b
  {
    assert [a, b][1..] == [b];
  }

  lemma JoinThree(sep: string, a: string, b: string, c: string)
    ensures Join(sep, [a, b, c]) == a + sep + b + sep + c
  {
    assert [a, b, c][1..] == [b, c];
    JoinTwo(sep, b, c);
  }

  /** A joined text starts with its first piece. */
  lemma JoinStartsWithFirst(sep: string, parts: seq<string>)
    requires parts != []
    ensures StartsWith(Join(sep, parts), parts[0])
  {
    if |parts| > 1 {
      StartsWithRegroup(parts[0], sep, Join(sep, parts[1..]));
      StartsWithConcat(parts[0], sep);
      assert parts[0] + sep + Join(sep, parts[1..]) == parts[0] + (sep + Join(sep, parts[1..]));
      StartsWithConcat(parts[0], sep + Join(sep, parts[1..]));
    }
  }

  /** Joining one more piece appends the separator and the piece. */
  lemma {:induction false} JoinAppend(sep: string, parts: seq<string>, x: string)
    requires parts != []
    ensures Join(sep, parts + [x]) == Join(sep, parts) + sep + x
    decreases |parts|
  {
    var all := parts + [x];
    assert all[1..] == parts[1..] + [x];
    if |parts| > 1 {
      JoinAppend(sep, parts[1..], x);
    }
  }

  /** Lines each ended by a newline split back into the lines and a final empty piece. */
  lemma SplitLines(lines: seq<string>, x: string)
    requires lines != [] && x == Join("\n", lines) + "\n"
    requires forall k :: 0 <= k < |lines| ==> '\n' !in lines[k]
    ensures Split(x, '\n') == lines + [""]
  {
    JoinAppend("\n", lines, "");
    assert Join("\n", lines) + "\n" + "" == x;
    SplitJoin(lines + [""], '\n');
  }

  /** The character of a decimal digit value. */
  function DigitChar(d: nat): (c: char)
    requires d < 10
    ensures IsDigit(c) && c as int - '0' as int == d
  {
    ('0' as int + d) as char
  }

  /** Python's `str(n)` for a non-negative integer. */
  function DecimalString(n: nat): (r: string)
    ensures |r| >= 1 && AllDigits(r)
  {
    if n < 10 then [DigitChar(n)] else DecimalString(n / 10) + [DigitChar(n % 10)]
  }

  /** Python's `str(i)` for any integer. */
  function IntToString(i: int): (r: string)
    ensures forall k :: 0 <= k < |r| ==> IsDigit(r[k]) || r[k] == '-'
  {
    if i < 0 then "-" + DecimalString(-i) else DecimalString(i)
  }

  /** The value of a run of decimal digits. */
  function DigitsValue(d: string): nat
    requires AllDigits(d)
  {
    if d == [] then 0 else DigitsValue(d[..|d| - 1]) * 10 + (d[|d| - 1] as int - '0' as int)
  }

  /**
   * Python's `int(s)` on a string: surrounding whitespace, an optional sign
   * and one or more digits; anything else raises `ValueError` (here `None`).
   */
  function ParseInt(s: string): Option<int> {
    var t := Strip(s);
    if t == [] then None
    else if t[0] == '-' || t[0] == '+' then
      if |t| > 1 && AllDigits(t[1..]) then
        var magnitude: int := DigitsValue(t[1..]);
        Some(if t[0] == '-' then -magnitude else magnitude)
      else None
    else if AllDigits(t) then Some(DigitsValue(t))
    else None
  }

  lemma {:induction false} DecimalStringValue(n: nat)
    ensures DigitsValue(DecimalString(n)) == n
  {
    if n >= 10 {
      DecimalStringValue(n / 10);
      var r := DecimalString(n);
      assert r[..|r| - 1] == DecimalString(n / 10);
    }
  }

  /** A string that is already stripped is its own `strip()`. */
  lemma StripOfStripped(t: string)
    requires IsStripped(t)
    ensures Strip(t) == t
  {
    StripUnique([], t, []);
    assert [] + t + [] == t;
  }

  /** `int(str(i)) == i`. */
  lemma ParseIntRoundTrip(i: int)
    ensures ParseInt(IntToString(i)) == Some(i)
  {
    var n: nat := if i < 0 then -i else i;
    var d := DecimalString(n);
    DecimalStringValue(n);
    assert IsDigit(d[0]) && IsDigit(d[|d| - 1]);
    var t := IntToString(i);
    if i < 0 {
      assert t == "-" + d;
      assert t[1..] == d;
      StripOfStripped(t);
    } else {
      assert t == d;
      StripOfStripped(t);
    }
  }
}
