/**
 * Splitting a model reply into its main answer and its follow-up options
 * (`RAGService._parse_response`, services/rag_service.py).
 *
 * The two regular-expression searches are modelled as explicit marker
 * searches: a marker is a fixed tag, matched without regard to ASCII
 * case, directly followed by at least one `=` or `-`.
 */
module ResponseParser {
  import opened Common
  import opened Text

  /** `========Main Response`, lower-cased. */
  const MainLabel: string := "========main response"
  /** `========More Option`, lower-cased. */
  const MoreLabel: string := "========more option"

  predicate IsRunChar(c: char) {
    c == '=' || c == '-'
  }

  /** The lower-cased `tag` occurs at `p` without regard to ASCII case. */
  predicate LabelAt(s: string, p: nat, tag: string) {
    p + |tag| <= |s| && forall i :: 0 <= i < |tag| ==> Lower(s[p + i]) == tag[i]
  }

  /** A marker starts at `p`: the tag, then at least one `=` or `-` (`[=-]+`). */
  predicate MarkerAt(s: string, p: nat, tag: string) {
    p + |tag| < |s| && LabelAt(s, p, tag) && IsRunChar(s[p + |tag|])
  }

  /** `re.search` for a marker from `from` on: the first position where one starts. */
  function FindMarker(s: string, from: nat, tag: string): (r: Option<nat>)
    requires from <= |s|
    ensures r.Some? ==> from <= r.value < |s| && MarkerAt(s, r.value, tag)
    ensures r.Some? ==> forall p :: from <= p < r.value ==> !MarkerAt(s, p, tag)
    ensures r.None? ==> forall p :: from <= p <= |s| ==> !MarkerAt(s, p, tag)
    decreases |s| - from
  {
    if from == |s| then None
    else if MarkerAt(s, from, tag) then Some(from)
    else FindMarker(s, from + 1, tag)
  }

  /** The end of the maximal run of `=`/`-` starting at `i` (the greedy `[=-]+`). */
  function RunEnd(s: string, i: nat): (k: nat)
    requires i <= |s|
    ensures i <= k <= |s|
    ensures forall j :: i <= j < k ==> IsRunChar(s[j])
    ensures k < |s| ==> !IsRunChar(s[k])
    decreases |s| - i
  {
    if i < |s| && IsRunChar(s[i]) then RunEnd(s, i + 1) else i
  }

  /** Where the text after a marker starts: past the run and the whitespace (`[=-]+\s*`). */
  function BodyStart(s: string, p: nat, tag: string): (b: nat)
    requires MarkerAt(s, p, tag)
    ensures p + |tag| < b <= |s|
  {
    SkipSpaces(s, RunEnd(s, p + |tag|))
  }

  /** The lookahead `(?=\s*========More Option[=-]+|$)` holds at `e` (`$` also matches before a final newline). */
  predicate MainEndAt(s: string, e: nat)
    requires e <= |s|
  {
    MarkerAt(s, SkipSpaces(s, e), MoreLabel) || e == |s| || (e == |s| - 1 && s[e] == '\n')
  }

  /** The lazy `(.*?)` before the lookahead: the first position at or after `e` where it holds. */
  function MainEnd(s: string, e: nat): (r: nat)
    requires e <= |s|
    ensures e <= r <= |s| && MainEndAt(s, r)
    ensures forall j :: e <= j < r ==> !MainEndAt(s, j)
    decreases |s| - e
  {
    if MainEndAt(s, e) then e else MainEnd(s, e + 1)
  }

  /** The lazy `(.*?)$` from `c`: stops before a final newline, else at the end. */
  function DollarEnd(s: string, c: nat): (r: nat)
    requires c <= |s|
    ensures c <= r <= |s|
    ensures r < |s| ==> r == |s| - 1 && s[r] == '\n'
  {
    if c < |s| && s[|s| - 1] == '\n' then |s| - 1 else |s|
  }

  /** `main_response_match.group(1).strip()`, when the Main Response marker is present. */
  function MainSection(s: string): Option<string> {
    match FindMarker(s, 0, MainLabel)
    case None => None
    case Some(p) =>
      var b := BodyStart(s, p, MainLabel);
      Some(Strip(s[b..MainEnd(s, b)]))
  }

  /** `more_option_match`: the marker's start and its `group(1).strip()`. */
  function MoreSection(s: string): Option<(nat, string)> {
    match FindMarker(s, 0, MoreLabel)
    case None => None
    case Some(q) =>
      var c := BodyStart(s, q, MoreLabel);
      Some((q, Strip(s[c..DollarEnd(s, c)])))
  }

  /** `re.sub(r'^========Main Response[=-]+\s*', '', t).strip()`: a leftover leading marker is dropped. */
  function DropLeadingMain(t: string): string {
    Strip(if MarkerAt(t, 0, MainLabel) then t[BodyStart(t, 0, MainLabel)..] else t)
  }

  /** The `response` field. */
  function ResponseText(s: string): string {
    var more := MoreSection(s);
    var section :=
      if MainSection(s).Some? then MainSection(s).value
      else if more.Some? then Strip(s[..more.value.0])
      else Strip(s);
    DropLeadingMain(section)
  }

  predicate IsBullet(c: char) {
    c == '-' || c == '*' || c == '\U{2022}'
  }

  /** The end of the run of digits starting at `i`. */
  function DigitRunEnd(s: string, i: nat): (k: nat)
    requires i <= |s|
    ensures i <= k <= |s|
    ensures forall j :: i <= j < k ==> IsDigit(s[j])
    ensures k < |s| ==> !IsDigit(s[k])
    decreases |s| - i
  {
    if i < |s| && IsDigit(s[i]) then DigitRunEnd(s, i + 1) else i
  }

  /** `re.sub(r'^[-*•]\s*', '', line)`. */
  function DropBullet(line: string): (r: string)
    ensures |r| <= |line| && r == line[|line| - |r|..]
  {
    if |line| > 0 && IsBullet(line[0]) then line[SkipSpaces(line, 1)..] else line
  }

  /** `re.sub(r'^\d+[.)]\s*', '', line)`. */
  function DropOrdinal(line: string): (r: string)
    ensures |r| <= |line| && r == line[|line| - |r|..]
  {
    var d := DigitRunEnd(line, 0);
    if 0 < d < |line| && (line[d] == '.' || line[d] == ')') then line[SkipSpaces(line, d + 1)..] else line
  }

  /** One stripped, non-empty line after both substitutions. */
  function CleanOption(line: string): (r: string)
    requires IsStripped(line)
    ensures |r| <= |line| && IsStripped(r) && r == line[|line| - |r|..]
  {
    var a := DropBullet(line);
    assert IsStripped(a);
    DropOrdinal(a)
  }

  /** The option a raw line contributes, if any. */
  function OptionOf(line: string): Option<string> {
    var t := Strip(line);
    if t == [] then None
    else
      var c := CleanOption(t);
      if c == [] then None else Some(c)
  }

  /** The options collected from `lines`, in order. */
  function OptionsFrom(lines: seq<string>): seq<string>
    decreases |lines|
  {
    if lines == [] then []
    else
      var n := |lines| - 1;
      OptionsFrom(lines[..n]) + (match OptionOf(lines[n]) case Some(o) => [o] case None => [])
  }

  /** The `options` field. */
  function OptionsText(s: string): seq<string> {
    var more := MoreSection(s);
    if more.None? then [] else OptionsFrom(Split(more.value.1, '\n'))
  }

  /** Every option is non-empty, has no surrounding whitespace and is a single line. */
  predicate CleanOptions(options: seq<string>) {
    forall o :: o in options ==> o != [] && IsStripped(o) && '\n' !in o
  }

  /** The dictionary `_parse_response` returns. */
  datatype Parsed = Parsed(response: string, options: seq<string>)

  /** `_parse_response`: the two searches, then the loop over the option lines. */
  method ParseResponse(raw: string) returns (parsed: Parsed)
    ensures parsed == Parsed(ResponseText(raw), OptionsText(raw))
    ensures CleanOptions(parsed.options)
  {
    var response := ResponseText(raw);
    var options: seq<string> := [];
    var more := MoreSection(raw);
    if more.Some? {
      options := CollectOptions(Split(more.value.1, '\n'));
    }
    OptionsClean(raw);
    return Parsed(response, options);
  }

  /** The loop over the lines of the More Option section. */
  method CollectOptions(lines: seq<string>) returns (options: seq<string>)
    ensures options == OptionsFrom(lines)
  {
    options := [];
    var i := 0;
    while i < |lines|
      invariant 0 <= i <= |lines|
      invariant options == OptionsFrom(lines[..i])
    {
      OptionsFromStep(lines, i);
      var line := Strip(lines[i]);
      if line != [] {
        line := CleanOption(line);
        if line != [] {
          options := options + [line];
        }
      }
      i := i + 1;
    }
    assert lines[..i] == lines;
  }

  lemma OptionsFromStep(lines: seq<string>, i: nat)
    requires i < |lines|
    ensures OptionsFrom(lines[..i + 1]) == OptionsFrom(lines[..i]) + (if OptionOf(lines[i]).Some? then [OptionOf(lines[i]).value] else [])
  {
    assert lines[..i + 1][..i] == lines[..i];
  }

  // ----- Properties -----

  /** Every tag character is an ASCII `=` or lower-case letter or space, so a marker starts with `=`. */
  lemma MarkerStartsWithEquals(s: string, p: nat, tag: string)
    requires MarkerAt(s, p, tag) && |tag| > 0 && tag[0] == '='
    ensures s[p] == '=' && !IsSpace(s[p])
  {
    assert Lower(s[p + 0]) == tag[0];
  }

  /** A marker inside a slice is a marker of the whole text. */
  lemma MarkerInSlice(s: string, lo: nat, hi: nat, p: nat, tag: string)
    requires lo <= hi <= |s| && MarkerAt(s[lo..hi], p, tag)
    ensures MarkerAt(s, lo + p, tag)
  {
    var t := s[lo..hi];
    forall i | 0 <= i < |tag|
      ensures Lower(s[lo + p + i]) == tag[i]
    {
      assert t[p + i] == s[lo + p + i];
    }
    assert t[p + |tag|] == s[lo + p + |tag|];
  }

  /** When `s` has no marker, neither has its stripped prefix, so the leading-marker substitution does nothing. */
  lemma DropLeadingMainOfPlain(s: string, hi: nat)
    requires hi <= |s|
    requires forall p :: 0 <= p <= |s| ==> !MarkerAt(s, p, MainLabel)
    ensures DropLeadingMain(Strip(s[..hi])) == Strip(s[..hi])
  {
    var t := s[..hi];
    var a := SkipSpaces(t, 0);
    var b := TrimEndIndex(t, a, |t|);
    assert Strip(t) == s[a..b];
    if MarkerAt(s[a..b], 0, MainLabel) {
      MarkerInSlice(s, a, b, 0, MainLabel);
      assert false;
    }
    StripIdempotent(t);
  }

  /** Where the Main section ends when a More marker follows it at `m`. */
  lemma MainEndBeforeMore(s: string, b: nat, m: nat)
    requires b <= m < |s| && MarkerAt(s, m, MoreLabel)
    requires forall p :: b <= p < m ==> !MarkerAt(s, p, MoreLabel)
    ensures MainEnd(s, b) == TrimEndIndex(s, b, m)
  {
    var e := TrimEndIndex(s, b, m);
    MarkerStartsWithEquals(s, m, MoreLabel);
    assert SkipSpaces(s, e) == m by {
      SkipSpacesTo(s, e, m);
    }
    assert MainEndAt(s, e);
    forall j | b <= j < e
      ensures !MainEndAt(s, j)
    {
      assert !IsSpace(s[e - 1]);
      assert SkipSpaces(s, j) <= e - 1 by {
        SkipSpacesStops(s, j, e - 1);
      }
    }
    FirstEndIs(s, b, e);
  }

  /** `MainEnd` is the first position where the lookahead holds, so any such first position is it. */
  lemma FirstEndIs(s: string, b: nat, e: nat)
    requires b <= e <= |s| && MainEndAt(s, e)
    requires forall j :: b <= j < e ==> !MainEndAt(s, j)
    ensures MainEnd(s, b) == e
  {
    var r := MainEnd(s, b);
    assert MainEndAt(s, r);
    assert r <= e;
  }

  /** Where the Main section ends when no More marker follows it: at the end, or before a final newline. */
  lemma MainEndWithoutMore(s: string, b: nat)
    requires b <= |s|
    requires forall p :: b <= p <= |s| ==> !MarkerAt(s, p, MoreLabel)
    ensures MainEnd(s, b) == DollarEnd(s, b)
  {
    var e := DollarEnd(s, b);
    forall j | b <= j < e
      ensures !MainEndAt(s, j)
    {
      assert j <= SkipSpaces(s, j) <= |s|;
    }
    FirstEndIs(s, b, e);
  }

  /** Stripping a section up to `DollarEnd` is stripping it to the end: the newline is whitespace. */
  lemma StripToDollar(s: string, c: nat)
    requires c <= |s|
    ensures Strip(s[c..DollarEnd(s, c)]) == Strip(s[c..])
  {
    var e := DollarEnd(s, c);
    if e < |s| {
      assert s[e..] == ['\n'] && Blank(['\n']);
      assert s[c..] == s[c..e] + s[e..];
      StripIgnoresTrailing(s[c..e], s[e..]);
    } else {
      assert s[c..e] == s[c..];
    }
  }

  /**
   * With a Main Response marker at `p` and a More Option marker at `m` after
   * it, `response` is the stripped text between the first marker's `=`/`-`
   * run and the second marker (a second Main Response marker at the head of
   * that text is dropped as well).
   */
  lemma MainResponseUpToMore(s: string, p: nat, m: nat)
    requires FindMarker(s, 0, MainLabel) == Some(p)
    requires FindMarker(s, BodyStart(s, p, MainLabel), MoreLabel) == Some(m)
    ensures BodyStart(s, p, MainLabel) <= m
    ensures ResponseText(s) == DropLeadingMain(Strip(s[BodyStart(s, p, MainLabel)..m]))
  {
    var b := BodyStart(s, p, MainLabel);
    StripUpToMore(s, b, m);
    MainSectionIs(s, p);
  }

  /** Up to the More marker, the Main section and the text before the marker strip to the same string. */
  lemma StripUpToMore(s: string, b: nat, m: nat)
    requires b <= m < |s| && MarkerAt(s, m, MoreLabel)
    requires forall p :: b <= p < m ==> !MarkerAt(s, p, MoreLabel)
    ensures Strip(s[b..MainEnd(s, b)]) == Strip(s[b..m])
  {
    MainEndBeforeMore(s, b, m);
    var e := TrimEndIndex(s, b, m);
    SliceConcat(s, b, e, m);
    StripIgnoresTrailing(s[b..e], s[e..m]);
  }

  lemma MainSectionIs(s: string, p: nat)
    requires FindMarker(s, 0, MainLabel) == Some(p)
    ensures var b := BodyStart(s, p, MainLabel);
      ResponseText(s) == DropLeadingMain(Strip(s[b..MainEnd(s, b)]))
  {
  }

  /** With a Main Response marker at `p` and no More Option marker after it, `response` is the stripped rest of the text. */
  lemma MainResponseToEnd(s: string, p: nat)
    requires FindMarker(s, 0, MainLabel) == Some(p)
    requires FindMarker(s, BodyStart(s, p, MainLabel), MoreLabel).None?
    ensures ResponseText(s) == DropLeadingMain(Strip(s[BodyStart(s, p, MainLabel)..]))
  {
    var b := BodyStart(s, p, MainLabel);
    MainEndWithoutMore(s, b);
    StripToDollar(s, b);
    MainSectionIs(s, p);
  }

  /** The leading-marker substitution only acts on text that starts with a Main Response marker. */
  lemma DropLeadingMainOfUnmarked(t: string)
    requires IsStripped(t) && !MarkerAt(t, 0, MainLabel)
    ensures DropLeadingMain(t) == t
  {
    StripOfStripped(t);
  }

  /** Without a Main Response marker but with a More Option marker, `response` is the stripped text before the latter. */
  lemma MoreOnlyResponse(s: string)
    requires FindMarker(s, 0, MainLabel).None?
    requires FindMarker(s, 0, MoreLabel).Some?
    ensures ResponseText(s) == Strip(s[..FindMarker(s, 0, MoreLabel).value])
  {
    DropLeadingMainOfPlain(s, FindMarker(s, 0, MoreLabel).value);
  }

  /** Without either marker, `response` is the whole text stripped and there are no options. */
  lemma NoMarkerResponse(s: string)
    requires FindMarker(s, 0, MainLabel).None?
    requires FindMarker(s, 0, MoreLabel).None?
    ensures ResponseText(s) == Strip(s)
    ensures OptionsText(s) == []
  {
    DropLeadingMainOfPlain(s, |s|);
    assert s[..|s|] == s;
  }

  /** The options are the body of the first More Option marker, to the end of the text, taken line by line. */
  lemma OptionsSection(s: string)
    requires FindMarker(s, 0, MoreLabel).Some?
    ensures var c := BodyStart(s, FindMarker(s, 0, MoreLabel).value, MoreLabel);
      OptionsText(s) == OptionsFrom(Split(Strip(s[c..]), '\n'))
  {
    var c := BodyStart(s, FindMarker(s, 0, MoreLabel).value, MoreLabel);
    StripToDollar(s, c);
  }

  /** Every option is non-empty, has no surrounding whitespace and is a single line. */
  lemma {:induction false} OptionsFromClean(lines: seq<string>)
    requires forall k :: 0 <= k < |lines| ==> '\n' !in lines[k]
    ensures CleanOptions(OptionsFrom(lines))
    decreases |lines|
  {
    if lines != [] {
      var n := |lines| - 1;
      var prefix := lines[..n];
      forall k | 0 <= k < n
        ensures '\n' !in prefix[k]
      {
        assert prefix[k] == lines[k];
      }
      OptionsFromClean(prefix);
      OptionOfClean(lines[n]);
      var last := if OptionOf(lines[n]).Some? then [OptionOf(lines[n]).value] else [];
      assert CleanOptions(last);
      assert OptionsFrom(lines) == OptionsFrom(prefix) + last;
      CleanOptionsConcat(OptionsFrom(prefix), last);
    }
  }

  lemma CleanOptionsConcat(a: seq<string>, b: seq<string>)
    requires CleanOptions(a) && CleanOptions(b)
    ensures CleanOptions(a + b)
  {
  }

  /** The option one line contributes is non-empty, stripped and, for a single line, free of line breaks. */
  lemma OptionOfClean(line: string)
    requires '\n' !in line
    ensures OptionOf(line).Some? ==> OptionOf(line).value != [] && IsStripped(OptionOf(line).value) && '\n' !in OptionOf(line).value
  {
    var t := Strip(line);
    if t != [] {
      StripChars(line);
      var c := CleanOption(t);
      SuffixChars(t, c);
    }
  }

  lemma SuffixChars(t: string, r: string)
    requires |r| <= |t| && r == t[|t| - |r|..]
    ensures forall ch :: ch in r ==> ch in t
  {
    forall ch | ch in r
      ensures ch in t
    {
      var i :| 0 <= i < |r| && r[i] == ch;
      assert t[|t| - |r| + i] == ch;
    }
  }

  lemma OptionsClean(s: string)
    ensures CleanOptions(OptionsText(s))
  {
    var more := MoreSection(s);
    if more.Some? {
      OptionsFromClean(Split(more.value.1, '\n'));
    }
  }

  /** A line that starts with neither a bullet nor a digit is kept as it is, stripped. */
  lemma PlainLineKept(line: string)
    requires !Blank(line)
    requires !IsBullet(Strip(line)[0]) && !IsDigit(Strip(line)[0])
    ensures OptionOf(line) == Some(Strip(line))
  {
  }

  /** A bullet and the whitespace after it are removed. */
  lemma DropBulletOf(mark: char, ws: string, rest: string)
    requires IsBullet(mark) && Blank(ws)
    requires rest != [] && !IsSpace(rest[0])
    ensures DropBullet([mark] + ws + rest) == rest
  {
    var line := [mark] + ws + rest;
    assert line[1 + |ws|] == rest[0];
    assert forall j :: 1 <= j < 1 + |ws| ==> line[j] == ws[j - 1];
    SkipSpacesTo(line, 1, 1 + |ws|);
    assert line[1 + |ws|..] == rest;
  }

  /** An ordinal `digits.` or `digits)` and the whitespace after it are removed. */
  lemma DropOrdinalOf(digits: string, close: char, ws: string, rest: string)
    requires digits != [] && AllDigits(digits) && (close == '.' || close == ')') && Blank(ws)
    requires rest != [] && !IsSpace(rest[0])
    ensures DropOrdinal(digits + [close] + ws + rest) == rest
  {
    var line := digits + [close] + ws + rest;
    assert line[|digits|] == close;
    assert forall j :: 0 <= j < |digits| ==> line[j] == digits[j];
    DigitRunTo(line, 0, |digits|);
    var k := |digits| + 1 + |ws|;
    assert line[k] == rest[0];
    assert forall j :: |digits| + 1 <= j < k ==> line[j] == ws[j - |digits| - 1];
    SkipSpacesTo(line, |digits| + 1, k);
    assert line[k..] == rest;
  }

  /** A bullet and an ordinal are removed together: `- 2) text` gives `text`. */
  lemma BulletThenOrdinal(mark: char, ws1: string, digits: string, close: char, ws2: string, text: string)
    requires IsBullet(mark) && Blank(ws1) && Blank(ws2)
    requires digits != [] && AllDigits(digits) && (close == '.' || close == ')')
    requires text != [] && IsStripped(text) && !IsDigit(text[0])
    ensures var line := [mark] + ws1 + (digits + [close] + ws2 + text);
      IsStripped(line) && CleanOption(line) == text
  {
    var afterBullet := digits + [close] + ws2 + text;
    var line := [mark] + ws1 + afterBullet;
    assert line[|line| - 1] == text[|text| - 1];
    assert afterBullet[0] == digits[0];
    DropBulletOf(mark, ws1, afterBullet);
    DropOrdinalOf(digits, close, ws2, text);
  }

  lemma DigitRunTo(s: string, i: nat, k: nat)
    requires i <= k < |s| && !IsDigit(s[k])
    requires forall j :: i <= j < k ==> IsDigit(s[j])
    ensures DigitRunEnd(s, i) == k
    decreases k - i
  {
    if i < k {
      DigitRunTo(s, i + 1, k);
    }
  }
}
