/**
 * Text normalisation and CSV chunk grouping of the ingestion tokenizer
 * (api/Ingest/utils/tokenizer.py).
 */
module Tokenizer {
  import opened Common
  import opened Text

  // ----- Character classes of the substitutions -----

  /** The class `[,.!?:;]`. */
  predicate IsPunct(c: char) {
    c == ',' || c == '.' || c == '!' || c == '?' || c == ':' || c == ';'
  }

  /** The accented letters listed in the letter class of the letter/digit substitutions. */
  predicate IsAccentedViLetter(c: char) {
    match c
      case 'à' | 'á' | 'ạ' | 'ả' | 'ã' | 'â' | 'ầ' | 'ấ' | 'ậ' | 'ẩ' | 'ẫ' | 'ă' | 'ằ' | 'ắ' | 'ặ' | 'ẳ' | 'ẵ'
        | 'è' | 'é' | 'ẹ' | 'ẻ' | 'ẽ' | 'ê' | 'ề' | 'ế' | 'ệ' | 'ể' | 'ễ' | 'ì' | 'í' | 'ị' | 'ỉ' | 'ĩ' | 'ò'
        | 'ó' | 'ọ' | 'ỏ' | 'õ' | 'ô' | 'ồ' | 'ố' | 'ộ' | 'ổ' | 'ỗ' | 'ơ' | 'ờ' | 'ớ' | 'ợ' | 'ở' | 'ỡ' | 'ù'
        | 'ú' | 'ụ' | 'ủ' | 'ũ' | 'ư' | 'ừ' | 'ứ' | 'ự' | 'ử' | 'ữ' | 'ỳ' | 'ý' | 'ỵ' | 'ỷ' | 'ỹ' | 'đ'
        | 'À' | 'Á' | 'Ạ' | 'Ả' | 'Ã' | 'Â' | 'Ầ' | 'Ấ' | 'Ậ' | 'Ẩ' | 'Ẫ' | 'Ă' | 'Ằ' | 'Ắ' | 'Ặ' | 'Ẳ' | 'Ẵ'
        | 'È' | 'É' | 'Ẹ' | 'Ẻ' | 'Ẽ' | 'Ê' | 'Ề' | 'Ế' | 'Ệ' | 'Ể' | 'Ễ' | 'Ì' | 'Í' | 'Ị' | 'Ỉ' | 'Ĩ' | 'Ò'
        | 'Ó' | 'Ọ' | 'Ỏ' | 'Õ' | 'Ô' | 'Ồ' | 'Ố' | 'Ộ' | 'Ổ' | 'Ỗ' | 'Ơ' | 'Ờ' | 'Ớ' | 'Ợ' | 'Ở' | 'Ỡ' | 'Ù'
        | 'Ú' | 'Ụ' | 'Ủ' | 'Ũ' | 'Ư' | 'Ừ' | 'Ứ' | 'Ự' | 'Ử' | 'Ữ' | 'Ỳ' | 'Ý' | 'Ỵ' | 'Ỷ' | 'Ỹ' | 'Đ' => true
      case _ => false
  }

  /** The whole letter class: ASCII letters plus the listed Vietnamese letters. */
  predicate IsViLetter(c: char) {
    ('a' <= c <= 'z') || ('A' <= c <= 'Z') || IsAccentedViLetter(c)
  }

  /** The class `[^\s\d]`. */
  predicate IsWordChar(c: char) {
    !IsSpace(c) && !IsDigit(c)
  }

  lemma LetterIsNotDigitOrSpace(c: char)
    ensures IsViLetter(c) ==> !IsDigit(c) && !IsSpace(c) && !IsPunct(c)
  {
  }

  // ----- The substitutions -----

  /**
   * `re.sub(r'(F)(G)', r'\1 \2', s)` for one-character classes F and G:
   * scanning left to right, each non-overlapping pair of an F character
   * directly followed by a G character gets a space inserted between them.
   */
  function SpaceBetween(s: string, first: char -> bool, second: char -> bool): (r: string)
    ensures |s| > 0 ==> |r| > 0 && r[0] == s[0]
    decreases |s|
  {
    if |s| < 2 then s
    else if first(s[0]) && second(s[1]) then [s[0], ' ', s[1]] + SpaceBetween(s[2..], first, second)
    else [s[0]] + SpaceBetween(s[1..], first, second)
  }

  /** `re.sub(r'\s+', ' ', s)`: every maximal whitespace run becomes one space. */
  function CollapseSpaces(s: string): (r: string)
    ensures |s| > 0 ==> |r| > 0 && (if IsSpace(s[0]) then r[0] == ' ' else r[0] == s[0])
    decreases |s|
  {
    if s == [] then []
    else if IsSpace(s[0]) then " " + CollapseSpaces(s[SkipSpaces(s, 0)..])
    else [s[0]] + CollapseSpaces(s[1..])
  }

  /** `normalize_text_vi`: the substitutions in source order, then whitespace collapsing and `strip()`. */
  function NormalizeTextVi(text: string): string {
    if text == [] then text
    else
      var punctSpaced := SpaceBetween(text, IsPunct, IsWordChar);
      var letterDigit := SpaceBetween(punctSpaced, IsViLetter, IsDigit);
      var digitLetter := SpaceBetween(letterDigit, IsDigit, IsViLetter);
      var punctDigit := SpaceBetween(digitLetter, IsPunct, IsDigit);
      Strip(CollapseSpaces(punctDigit))
  }

  // ----- Properties of the output -----

  /** No character of class `a` is directly followed by a character of class `b`. */
  predicate NoPair(s: string, a: char -> bool, b: char -> bool) {
    forall i :: 0 <= i < |s| - 1 ==> !(a(s[i]) && b(s[i + 1]))
  }

  /** Every whitespace character is a plain space, and no two whitespace characters are adjacent. */
  predicate SingleSpaced(s: string) {
    forall i :: 0 <= i < |s| && IsSpace(s[i]) ==> s[i] == ' ' && (i + 1 < |s| ==> !IsSpace(s[i + 1]))
  }

  /** The shape `normalize_text_vi` promises: trimmed, with single spaces. */
  predicate IsNormalized(s: string) {
    IsStripped(s) && SingleSpaced(s)
  }

  lemma NoPairConcat(x: string, y: string, a: char -> bool, b: char -> bool)
    requires NoPair(x, a, b) && NoPair(y, a, b)
    requires |x| > 0 && |y| > 0 ==> !(a(x[|x| - 1]) && b(y[0]))
    ensures NoPair(x + y, a, b)
  {
    var s := x + y;
    forall i | 0 <= i < |s| - 1
      ensures !(a(s[i]) && b(s[i + 1]))
    {
      if i + 1 < |x| {
        assert s[i] == x[i] && s[i + 1] == x[i + 1];
      } else if i >= |x| {
        assert s[i] == y[i - |x|] && s[i + 1] == y[i + 1 - |x|];
      }
    }
  }

  lemma NoPairSlice(s: string, lo: nat, hi: nat, a: char -> bool, b: char -> bool)
    requires lo <= hi <= |s| && NoPair(s, a, b)
    ensures NoPair(s[lo..hi], a, b)
  {
    var t := s[lo..hi];
    forall i | 0 <= i < |t| - 1
      ensures !(a(t[i]) && b(t[i + 1]))
    {
      assert t[i] == s[lo + i] && t[i + 1] == s[lo + i + 1];
    }
  }

  /** After inserting spaces between F and G characters, no F character is followed by a G character. */
  lemma {:induction false} SpaceBetweenSeparates(s: string, f: char -> bool, g: char -> bool)
    requires !f(' ') && !g(' ')
    requires forall c :: g(c) ==> !f(c)
    ensures NoPair(SpaceBetween(s, f, g), f, g)
    decreases |s|
  {
    if |s| >= 2 {
      if f(s[0]) && g(s[1]) {
        SpaceBetweenSeparates(s[2..], f, g);
        NoPairConcat([s[0], ' ', s[1]], SpaceBetween(s[2..], f, g), f, g);
      } else {
        SpaceBetweenSeparates(s[1..], f, g);
        NoPairConcat([s[0]], SpaceBetween(s[1..], f, g), f, g);
      }
    }
  }

  /** Inserting spaces never creates a new adjacency between two non-space classes. */
  lemma {:induction false} SpaceBetweenKeeps(s: string, f: char -> bool, g: char -> bool, a: char -> bool, b: char -> bool)
    requires !a(' ') && !b(' ')
    requires NoPair(s, a, b)
    ensures NoPair(SpaceBetween(s, f, g), a, b)
    decreases |s|
  {
    if |s| >= 2 {
      if f(s[0]) && g(s[1]) {
        NoPairSlice(s, 2, |s|, a, b);
        SpaceBetweenKeeps(s[2..], f, g, a, b);
        NoPairConcat([s[0], ' ', s[1]], SpaceBetween(s[2..], f, g), a, b);
      } else {
        NoPairSlice(s, 1, |s|, a, b);
        SpaceBetweenKeeps(s[1..], f, g, a, b);
        NoPairConcat([s[0]], SpaceBetween(s[1..], f, g), a, b);
      }
    }
  }

  /** Collapsing whitespace never creates an adjacency between two non-space classes. */
  lemma {:induction false} CollapseKeeps(s: string, a: char -> bool, b: char -> bool)
    requires forall c :: a(c) ==> !IsSpace(c)
    requires forall c :: b(c) ==> !IsSpace(c)
    requires NoPair(s, a, b)
    ensures NoPair(CollapseSpaces(s), a, b)
    decreases |s|
  {
    if s != [] {
      if IsSpace(s[0]) {
        var k := SkipSpaces(s, 0);
        NoPairSlice(s, k, |s|, a, b);
        CollapseKeeps(s[k..], a, b);
        NoPairConcat(" ", CollapseSpaces(s[k..]), a, b);
      } else {
        NoPairSlice(s, 1, |s|, a, b);
        CollapseKeeps(s[1..], a, b);
        NoPairConcat([s[0]], CollapseSpaces(s[1..]), a, b);
      }
    }
  }

  /** Collapsing leaves only single plain spaces. */
  lemma {:induction false} CollapseSingleSpaced(s: string)
    ensures SingleSpaced(CollapseSpaces(s))
    decreases |s|
  {
    if s != [] {
      var r := CollapseSpaces(s);
      if IsSpace(s[0]) {
        var k := SkipSpaces(s, 0);
        var rest := CollapseSpaces(s[k..]);
        CollapseSingleSpaced(s[k..]);
        assert r == " " + rest;
        forall i | 0 <= i < |r| && IsSpace(r[i])
          ensures r[i] == ' ' && (i + 1 < |r| ==> !IsSpace(r[i + 1]))
        {
          if i > 0 {
            assert r[i] == rest[i - 1];
          } else if |rest| > 0 {
            assert !IsSpace(s[k]);
          }
        }
      } else {
        var rest := CollapseSpaces(s[1..]);
        CollapseSingleSpaced(s[1..]);
        assert r == [s[0]] + rest;
        forall i | 0 <= i < |r| && IsSpace(r[i])
          ensures r[i] == ' ' && (i + 1 < |r| ==> !IsSpace(r[i + 1]))
        {
          assert i > 0 && r[i] == rest[i - 1];
        }
      }
    }
  }

  lemma SingleSpacedSlice(s: string, lo: nat, hi: nat)
    requires lo <= hi <= |s| && SingleSpaced(s)
    ensures SingleSpaced(s[lo..hi])
  {
    var t := s[lo..hi];
    forall i | 0 <= i < |t| && IsSpace(t[i])
      ensures t[i] == ' ' && (i + 1 < |t| ==> !IsSpace(t[i + 1]))
    {
      assert t[i] == s[lo + i];
      if i + 1 < |t| {
        assert t[i + 1] == s[lo + i + 1];
      }
    }
  }

  /** `strip()` keeps a property that holds of every adjacent pair. */
  lemma StripKeeps(s: string, a: char -> bool, b: char -> bool)
    requires NoPair(s, a, b)
    ensures NoPair(Strip(s), a, b)
  {
    StripDecomposes(s);
    var lo, hi :| 0 <= lo <= hi <= |s| && Blank(s[..lo]) && Blank(s[hi..]) && Strip(s) == s[lo..hi];
    NoPairSlice(s, lo, hi, a, b);
  }

  /**
   * What `normalize_text_vi` guarantees: empty input comes back unchanged;
   * the output is trimmed and single-spaced; no listed letter touches a
   * digit in either order; and no punctuation mark of `,.!?:;` is directly
   * followed by a digit (so a decimal point or thousands separator gets a
   * space after it).
   */
  lemma NormalizeTextViProperties(text: string)
    ensures text == [] ==> NormalizeTextVi(text) == text
    ensures IsNormalized(NormalizeTextVi(text))
    ensures NoPair(NormalizeTextVi(text), IsViLetter, IsDigit)
    ensures NoPair(NormalizeTextVi(text), IsDigit, IsViLetter)
    ensures NoPair(NormalizeTextVi(text), IsPunct, IsDigit)
  {
    if text != [] {
      var punctSpaced := SpaceBetween(text, IsPunct, IsWordChar);
      var letterDigit := SpaceBetween(punctSpaced, IsViLetter, IsDigit);
      var digitLetter := SpaceBetween(letterDigit, IsDigit, IsViLetter);
      var punctDigit := SpaceBetween(digitLetter, IsPunct, IsDigit);
      var collapsed := CollapseSpaces(punctDigit);
      forall c | IsDigit(c) ensures !IsViLetter(c) && !IsPunct(c) {
        LetterIsNotDigitOrSpace(c);
      }
      forall c | IsViLetter(c) ensures !IsDigit(c) && !IsSpace(c) {
        LetterIsNotDigitOrSpace(c);
      }
      // letter then digit
      SpaceBetweenSeparates(punctSpaced, IsViLetter, IsDigit);
      SpaceBetweenKeeps(letterDigit, IsDigit, IsViLetter, IsViLetter, IsDigit);
      SpaceBetweenKeeps(digitLetter, IsPunct, IsDigit, IsViLetter, IsDigit);
      CollapseKeeps(punctDigit, IsViLetter, IsDigit);
      StripKeeps(collapsed, IsViLetter, IsDigit);
      // digit then letter
      SpaceBetweenSeparates(letterDigit, IsDigit, IsViLetter);
      SpaceBetweenKeeps(digitLetter, IsPunct, IsDigit, IsDigit, IsViLetter);
      CollapseKeeps(punctDigit, IsDigit, IsViLetter);
      StripKeeps(collapsed, IsDigit, IsViLetter);
      // punctuation then digit
      SpaceBetweenSeparates(digitLetter, IsPunct, IsDigit);
      CollapseKeeps(punctDigit, IsPunct, IsDigit);
      StripKeeps(collapsed, IsPunct, IsDigit);
      // single spacing
      CollapseSingleSpaced(punctDigit);
      StripDecomposes(collapsed);
      var lo, hi :| 0 <= lo <= hi <= |collapsed| && Blank(collapsed[..lo]) && Blank(collapsed[hi..]) && Strip(collapsed) == collapsed[lo..hi];
      SingleSpacedSlice(collapsed, lo, hi);
    }
  }

  // ----- Decimal numbers: the fourth substitution as written and as intended -----

  /** Unrolls the letter/digit substitutions on a text of digits and marks, where they change nothing. */
  lemma DigitsAreNotLetters(s: string)
    requires forall i :: 0 <= i < |s| ==> IsDigit(s[i]) || IsPunct(s[i])
    requires forall i :: 0 <= i < |s| - 1 && IsPunct(s[i]) ==> IsDigit(s[i + 1])
    ensures SpaceBetween(s, IsPunct, IsWordChar) == s
    ensures SpaceBetween(s, IsViLetter, IsDigit) == s
    ensures SpaceBetween(s, IsDigit, IsViLetter) == s
    decreases |s|
  {
    if |s| >= 2 {
      LetterIsNotDigitOrSpace(s[0]);
      LetterIsNotDigitOrSpace(s[1]);
      DigitsAreNotLetters(s[1..]);
    }
  }

  /** The first three substitutions leave "3.14" alone. */
  lemma DecimalFirstSteps()
    ensures SpaceBetween("3.14", IsPunct, IsWordChar) == "3.14"
    ensures SpaceBetween("3.14", IsViLetter, IsDigit) == "3.14"
    ensures SpaceBetween("3.14", IsDigit, IsViLetter) == "3.14"
  {
    DigitsAreNotLetters("3.14");
  }

  /** Collapsing whitespace leaves a single-spaced text alone. */
  lemma {:induction false} CollapseOfSingleSpaced(s: string)
    requires SingleSpaced(s)
    ensures CollapseSpaces(s) == s
    decreases |s|
  {
    if s != [] {
      if IsSpace(s[0]) {
        assert SkipSpaces(s, 0) == 1;
        SingleSpacedSlice(s, 1, |s|);
        assert s[1..|s|] == s[1..];
        CollapseOfSingleSpaced(s[1..]);
      } else {
        SingleSpacedSlice(s, 1, |s|);
        assert s[1..|s|] == s[1..];
        CollapseOfSingleSpaced(s[1..]);
      }
    }
  }

  /** Collapsing and stripping leave the two decimal texts alone. */
  lemma DecimalLastSteps(s: string)
    requires s == "3.14" || s == "3. 14"
    ensures Strip(CollapseSpaces(s)) == s
  {
    assert IsNormalized(s);
    CollapseOfSingleSpaced(s);
    StripOfStripped(s);
  }

  /**
   * As written, the punctuation/digit substitution also splits decimal
   * numbers and thousands separators, which the comment after it says are
   * left alone: "3.14" comes out as "3. 14".
   */
  lemma DecimalPointSpaced()
    ensures NormalizeTextVi("3.14") == "3. 14"
  {
    DecimalFirstSteps();
    assert SpaceBetween(".14", IsPunct, IsDigit) == ". 14";
    assert SpaceBetween("3.14", IsPunct, IsDigit) == "3. 14";
    DecimalLastSteps("3. 14");
  }

  /**
   * The fourth substitution as its comment intends, `(?<!\d)([,.!?:;])(\d)`:
   * a mark of `[,.!?:;]` followed by a digit gets a space after it unless
   * the mark itself follows a digit. `afterDigit` says whether the character
   * before `s` is a digit.
   */
  function SpaceLoosePunct(s: string, afterDigit: bool): (r: string)
    ensures |s| > 0 ==> |r| > 0 && r[0] == s[0]
    decreases |s|
  {
    if |s| < 2 then s
    else if IsPunct(s[0]) && IsDigit(s[1]) && !afterDigit then [s[0], ' ', s[1]] + SpaceLoosePunct(s[2..], true)
    else [s[0]] + SpaceLoosePunct(s[1..], IsDigit(s[0]))
  }

  /** `normalize_text_vi` with the fourth substitution as intended, so that a mark between two digits stays put. */
  function NormalizeKeepingDecimals(text: string): string {
    if text == [] then text
    else
      var punctSpaced := SpaceBetween(text, IsPunct, IsWordChar);
      var letterDigit := SpaceBetween(punctSpaced, IsViLetter, IsDigit);
      var digitLetter := SpaceBetween(letterDigit, IsDigit, IsViLetter);
      var punctDigit := SpaceLoosePunct(digitLetter, false);
      Strip(CollapseSpaces(punctDigit))
  }

  /** At `i`, a mark of `[,.!?:;]` followed by a digit is preceded by a digit (`before` stands for the character before `s`). */
  predicate MarkBetweenDigitsAt(s: string, i: int, before: bool) {
    0 <= i && i + 1 < |s| && IsPunct(s[i]) && IsDigit(s[i + 1]) ==> if i == 0 then before else IsDigit(s[i - 1])
  }

  /** A mark of `[,.!?:;]` is directly followed by a digit only where a digit precedes it. */
  ghost predicate DigitsAroundPunct(s: string, before: bool) {
    forall i :: MarkBetweenDigitsAt(s, i, before)
  }

  lemma DigitsAroundPunctSlice(s: string, lo: nat, hi: nat, before: bool)
    requires lo <= hi <= |s| && DigitsAroundPunct(s, before)
    ensures DigitsAroundPunct(s[lo..hi], if lo == 0 then before else IsDigit(s[lo - 1]))
  {
    var t := s[lo..hi];
    var b := if lo == 0 then before else IsDigit(s[lo - 1]);
    forall i ensures MarkBetweenDigitsAt(t, i, b) {
      if 0 <= i && i + 1 < |t| {
        var j := lo + i;
        assert MarkBetweenDigitsAt(s, j, before);
        assert s[j] == t[i] && s[j + 1] == t[i + 1];
        assert i > 0 ==> t[i - 1] == s[j - 1];
      }
    }
  }

  /** The intended substitution leaves a mark before a digit only where a digit precedes the mark. */
  lemma {:induction false} SpaceLoosePunctSeparates(s: string, afterDigit: bool)
    ensures DigitsAroundPunct(SpaceLoosePunct(s, afterDigit), afterDigit)
    decreases |s|
  {
    var r := SpaceLoosePunct(s, afterDigit);
    if |s| >= 2 {
      if IsPunct(s[0]) && IsDigit(s[1]) && !afterDigit {
        var rest := SpaceLoosePunct(s[2..], true);
        SpaceLoosePunctSeparates(s[2..], true);
        assert r == [s[0], ' ', s[1]] + rest;
        forall i ensures MarkBetweenDigitsAt(r, i, afterDigit) {
          if 3 <= i && i + 1 < |r| {
            assert MarkBetweenDigitsAt(rest, i - 3, true);
            assert r[i] == rest[i - 3] && r[i + 1] == rest[i - 2];
            assert i >= 4 ==> r[i - 1] == rest[i - 4];
          }
        }
      } else {
        var rest := SpaceLoosePunct(s[1..], IsDigit(s[0]));
        SpaceLoosePunctSeparates(s[1..], IsDigit(s[0]));
        assert r == [s[0]] + rest;
        forall i ensures MarkBetweenDigitsAt(r, i, afterDigit) {
          if 0 <= i && i + 1 < |r| {
            assert r[i + 1] == rest[i];
            if i >= 1 {
              assert MarkBetweenDigitsAt(rest, i - 1, IsDigit(s[0]));
              assert r[i] == rest[i - 1];
              assert i >= 2 ==> r[i - 1] == rest[i - 2];
            }
          }
        }
      }
    } else {
      assert forall i :: MarkBetweenDigitsAt(r, i, afterDigit);
    }
  }

  /** Like the other substitutions, the intended one never makes two non-space classes adjacent. */
  lemma {:induction false} SpaceLoosePunctKeeps(s: string, afterDigit: bool, a: char -> bool, b: char -> bool)
    requires !a(' ') && !b(' ')
    requires NoPair(s, a, b)
    ensures NoPair(SpaceLoosePunct(s, afterDigit), a, b)
    decreases |s|
  {
    if |s| >= 2 {
      if IsPunct(s[0]) && IsDigit(s[1]) && !afterDigit {
        NoPairSlice(s, 2, |s|, a, b);
        SpaceLoosePunctKeeps(s[2..], true, a, b);
        NoPairConcat([s[0], ' ', s[1]], SpaceLoosePunct(s[2..], true), a, b);
      } else {
        NoPairSlice(s, 1, |s|, a, b);
        SpaceLoosePunctKeeps(s[1..], IsDigit(s[0]), a, b);
        NoPairConcat([s[0]], SpaceLoosePunct(s[1..], IsDigit(s[0])), a, b);
      }
    }
  }

  /** Collapsing whitespace keeps every mark that precedes a digit between digits. */
  lemma {:induction false} CollapseKeepsDigitsAroundPunct(s: string, before: bool)
    requires DigitsAroundPunct(s, before)
    ensures DigitsAroundPunct(CollapseSpaces(s), before)
    decreases |s|
  {
    var r := CollapseSpaces(s);
    if s == [] {
      assert forall i :: MarkBetweenDigitsAt(r, i, before);
    } else if IsSpace(s[0]) {
      var k := SkipSpaces(s, 0);
      var rest := CollapseSpaces(s[k..]);
      assert s[k..|s|] == s[k..] && IsSpace(s[k - 1]);
      DigitsAroundPunctSlice(s, k, |s|, before);
      CollapseKeepsDigitsAroundPunct(s[k..], false);
      assert r == " " + rest;
      forall i ensures MarkBetweenDigitsAt(r, i, before) {
        if 1 <= i && i + 1 < |r| {
          assert MarkBetweenDigitsAt(rest, i - 1, false);
          assert r[i] == rest[i - 1] && r[i + 1] == rest[i];
          assert i >= 2 ==> r[i - 1] == rest[i - 2];
        }
      }
    } else {
      var rest := CollapseSpaces(s[1..]);
      assert s[1..|s|] == s[1..];
      DigitsAroundPunctSlice(s, 1, |s|, before);
      CollapseKeepsDigitsAroundPunct(s[1..], IsDigit(s[0]));
      assert r == [s[0]] + rest;
      forall i ensures MarkBetweenDigitsAt(r, i, before) {
        if 0 <= i && i + 1 < |r| {
          assert r[i + 1] == rest[i];
          if i == 0 {
            assert MarkBetweenDigitsAt(s, 0, before);
          } else {
            assert MarkBetweenDigitsAt(rest, i - 1, IsDigit(s[0]));
            assert r[i] == rest[i - 1];
            assert i >= 2 ==> r[i - 1] == rest[i - 2];
          }
        }
      }
    }
  }

  /** `strip()` keeps the property, since what it removes is whitespace and not digits. */
  lemma StripKeepsDigitsAroundPunct(s: string)
    requires DigitsAroundPunct(s, false)
    ensures DigitsAroundPunct(Strip(s), false)
  {
    StripDecomposes(s);
    var lo, hi :| 0 <= lo <= hi <= |s| && Blank(s[..lo]) && Blank(s[hi..]) && Strip(s) == s[lo..hi];
    assert lo > 0 ==> s[lo - 1] == s[..lo][lo - 1] && !IsDigit(s[lo - 1]);
    DigitsAroundPunctSlice(s, lo, hi, false);
  }

  /**
   * What the intended normaliser guarantees: the guarantees of the one as
   * written, except that a mark of `,.!?:;` stays directly before a digit
   * where a digit precedes it, as in a decimal number.
   */
  lemma NormalizeKeepingDecimalsProperties(text: string)
    ensures text == [] ==> NormalizeKeepingDecimals(text) == text
    ensures IsNormalized(NormalizeKeepingDecimals(text))
    ensures NoPair(NormalizeKeepingDecimals(text), IsViLetter, IsDigit)
    ensures NoPair(NormalizeKeepingDecimals(text), IsDigit, IsViLetter)
    ensures DigitsAroundPunct(NormalizeKeepingDecimals(text), false)
  {
    if text != [] {
      var punctSpaced := SpaceBetween(text, IsPunct, IsWordChar);
      var letterDigit := SpaceBetween(punctSpaced, IsViLetter, IsDigit);
      var digitLetter := SpaceBetween(letterDigit, IsDigit, IsViLetter);
      var punctDigit := SpaceLoosePunct(digitLetter, false);
      var collapsed := CollapseSpaces(punctDigit);
      forall c | IsDigit(c) ensures !IsViLetter(c) {
        LetterIsNotDigitOrSpace(c);
      }
      forall c | IsViLetter(c) ensures !IsDigit(c) && !IsSpace(c) {
        LetterIsNotDigitOrSpace(c);
      }
      // letter then digit
      SpaceBetweenSeparates(punctSpaced, IsViLetter, IsDigit);
      SpaceBetweenKeeps(letterDigit, IsDigit, IsViLetter, IsViLetter, IsDigit);
      SpaceLoosePunctKeeps(digitLetter, false, IsViLetter, IsDigit);
      CollapseKeeps(punctDigit, IsViLetter, IsDigit);
      StripKeeps(collapsed, IsViLetter, IsDigit);
      // digit then letter
      SpaceBetweenSeparates(letterDigit, IsDigit, IsViLetter);
      SpaceLoosePunctKeeps(digitLetter, false, IsDigit, IsViLetter);
      CollapseKeeps(punctDigit, IsDigit, IsViLetter);
      StripKeeps(collapsed, IsDigit, IsViLetter);
      // punctuation then digit
      SpaceLoosePunctSeparates(digitLetter, false);
      CollapseKeepsDigitsAroundPunct(punctDigit, false);
      StripKeepsDigitsAroundPunct(collapsed);
      // single spacing
      CollapseSingleSpaced(punctDigit);
      StripDecomposes(collapsed);
      var lo, hi :| 0 <= lo <= hi <= |collapsed| && Blank(collapsed[..lo]) && Blank(collapsed[hi..]) && Strip(collapsed) == collapsed[lo..hi];
      SingleSpacedSlice(collapsed, lo, hi);
    }
  }

  /** The intended normaliser keeps decimal numbers whole. */
  lemma DecimalPointKept()
    ensures NormalizeKeepingDecimals("3.14") == "3.14"
  {
    DecimalFirstSteps();
    assert SpaceLoosePunct("4", true) == "4";
    assert SpaceLoosePunct("14", false) == "14";
    assert SpaceLoosePunct(".14", true) == ".14";
    assert SpaceLoosePunct("3.14", false) == "3.14";
    DecimalLastSteps("3.14");
  }

  /** A non-blank text normalises to a non-empty one. */
  lemma NormalizeNonBlank(text: string)
    requires !Blank(text)
    ensures NormalizeTextVi(Strip(text)) != []
  {
    var t := Strip(text);
    assert t != [] && !IsSpace(t[0]);
    var punctSpaced := SpaceBetween(t, IsPunct, IsWordChar);
    var letterDigit := SpaceBetween(punctSpaced, IsViLetter, IsDigit);
    var digitLetter := SpaceBetween(letterDigit, IsDigit, IsViLetter);
    var punctDigit := SpaceBetween(digitLetter, IsPunct, IsDigit);
    var collapsed := CollapseSpaces(punctDigit);
    assert collapsed[0] == t[0];
    assert !Blank(collapsed);
  }

  /** The same holds for the corrected normaliser. */
  lemma KeepingDecimalsNonBlank(text: string)
    requires !Blank(text)
    ensures NormalizeKeepingDecimals(Strip(text)) != []
  {
    var t := Strip(text);
    assert t != [] && !IsSpace(t[0]);
    var punctSpaced := SpaceBetween(t, IsPunct, IsWordChar);
    var letterDigit := SpaceBetween(punctSpaced, IsViLetter, IsDigit);
    var digitLetter := SpaceBetween(letterDigit, IsDigit, IsViLetter);
    var punctDigit := SpaceLoosePunct(digitLetter, false);
    var collapsed := CollapseSpaces(punctDigit);
    assert collapsed[0] == t[0];
    assert !Blank(collapsed);
  }

  // ----- CSV grouping (the part of extract_text_from_csv after the rows are read) -----

  /** A Python dict with string keys: (key, value) pairs in insertion order. */
  type Dict<V> = seq<(string, V)>

  function Keys<V>(d: Dict<V>): (r: seq<string>)
    ensures |r| == |d| && forall i :: 0 <= i < |d| ==> r[i] == d[i].0
  {
    seq(|d|, i requires 0 <= i < |d| => d[i].0)
  }

  predicate DistinctKeys<V>(d: Dict<V>) {
    forall i, j :: 0 <= i < j < |d| ==> d[i].0 != d[j].0
  }

  /** `d.get(k)`. */
  function Get<V>(d: Dict<V>, k: string): (r: Option<V>)
    ensures r.None? <==> k !in Keys(d)
    decreases |d|
  {
    if d == [] then None
    else if d[0].0 == k then Some(d[0].1)
    else
      assert Keys(d) == [d[0].0] + Keys(d[1..]);
      Get(d[1..], k)
  }

  /** `d[k] = v`: an existing key keeps its place, a new key goes last (see `PutKeys`). */
  function Put<V>(d: Dict<V>, k: string, v: V): Dict<V>
    decreases |d|
  {
    if d == [] then [(k, v)]
    else if d[0].0 == k then [(k, v)] + d[1..]
    else [d[0]] + Put(d[1..], k, v)
  }

  /** After `d[k] = v`, looking up `k` gives `v` and every other key is untouched. */
  lemma {:induction false} PutGet<V>(d: Dict<V>, k: string, v: V, k': string)
    ensures Get(Put(d, k, v), k') == if k' == k then Some(v) else Get(d, k')
    decreases |d|
  {
    if d != [] {
      var r := Put(d, k, v);
      if d[0].0 == k {
        assert r[1..] == d[1..];
      } else {
        PutGet(d[1..], k, v, k');
        assert r[1..] == Put(d[1..], k, v);
      }
    }
  }

  /** `d[k] = v` keeps the key order and appends a new key. */
  lemma PutKeys<V>(d: Dict<V>, k: string, v: V)
    ensures Keys(Put(d, k, v)) == if k in Keys(d) then Keys(d) else Keys(d) + [k]
  {
    if k in Keys(d) {
      PutKeysExisting(d, k, v);
    } else {
      PutKeysNew(d, k, v);
    }
  }

  lemma {:induction false} PutKeysExisting<V>(d: Dict<V>, k: string, v: V)
    requires k in Keys(d)
    ensures Keys(Put(d, k, v)) == Keys(d)
    decreases |d|
  {
    var r := Put(d, k, v);
    var tail := Keys(d[1..]);
    assert Keys(d) == [d[0].0] + tail;
    if d[0].0 == k {
      assert r[1..] == d[1..];
    } else {
      var rest := Put(d[1..], k, v);
      assert k in tail;
      PutKeysExisting(d[1..], k, v);
      assert r == [d[0]] + rest;
      assert Keys(r) == [d[0].0] + Keys(rest);
    }
  }

  lemma {:induction false} PutKeysNew<V>(d: Dict<V>, k: string, v: V)
    requires k !in Keys(d)
    ensures Keys(Put(d, k, v)) == Keys(d) + [k]
    decreases |d|
  {
    var r := Put(d, k, v);
    if d != [] {
      var tail := Keys(d[1..]);
      assert Keys(d) == [d[0].0] + tail;
      var rest := Put(d[1..], k, v);
      PutKeysNew(d[1..], k, v);
      assert r == [d[0]] + rest;
      assert Keys(r) == [d[0].0] + (tail + [k]);
      assert [d[0].0] + (tail + [k]) == ([d[0].0] + tail) + [k];
    }
  }

  /** `d[k] = v` never duplicates a key. */
  lemma {:induction false} PutDistinct<V>(d: Dict<V>, k: string, v: V)
    ensures DistinctKeys(d) ==> DistinctKeys(Put(d, k, v))
  {
    PutKeys(d, k, v);
    var r := Put(d, k, v);
    if DistinctKeys(d) && k !in Keys(d) {
      forall i, j | 0 <= i < j < |r|
        ensures r[i].0 != r[j].0
      {
        assert Keys(r)[i] == r[i].0 && Keys(r)[j] == r[j].0;
        if j == |d| {
          assert Keys(d)[i] == r[i].0;
        }
      }
    }
    if DistinctKeys(d) && k in Keys(d) {
      forall i, j | 0 <= i < j < |r|
        ensures r[i].0 != r[j].0
      {
        assert Keys(r)[i] == r[i].0 && Keys(r)[j] == r[j].0;
      }
    }
  }

  /** The group named in cell `i` of the group row, when that cell is not blank. */
  function GroupCell(groupRow: seq<string>, i: nat): Option<string> {
    if i < |groupRow| && !Blank(groupRow[i]) then Some(Strip(groupRow[i])) else None
  }

  /** The group of column `i`: the nearest non-blank group cell at or left of it, or `""`. */
  function CarriedGroup(groupRow: seq<string>, i: nat): string
    decreases i
  {
    match GroupCell(groupRow, i)
    case Some(g) => g
    case None => if i == 0 then "" else CarriedGroup(groupRow, i - 1)
  }

  /** `(current_group, header_to_group)` after the first loop has seen `headers`. */
  function ScanHeaders(groupRow: seq<string>, headers: seq<string>): (string, Dict<string>)
    decreases |headers|
  {
    if headers == [] then ("", [])
    else
      var i := |headers| - 1;
      var (current, mapping) := ScanHeaders(groupRow, headers[..i]);
      var group := GroupCell(groupRow, i).GetOr(current);
      (group, if Blank(headers[i]) then mapping else Put(mapping, Strip(headers[i]), group))
  }

  /** `if group not in d: d[group] = []` then `d[group].append(header)`. */
  function AddToGroup(d: Dict<seq<string>>, group: string, header: string): (r: Dict<seq<string>>)
    ensures Get(r, group) == Some(Get(d, group).GetOr([]) + [header])
    ensures Keys(r) == if group in Keys(d) then Keys(d) else Keys(d) + [group]
    ensures DistinctKeys(d) ==> DistinctKeys(r)
  {
    var headers := Get(d, group).GetOr([]) + [header];
    PutGet(d, group, headers, group);
    PutKeys(d, group, headers);
    PutDistinct(d, group, headers);
    Put(d, group, headers)
  }

  /** `group_to_headers` built from `header_to_group`. */
  function GroupHeaders(mapping: Dict<string>): Dict<seq<string>>
    decreases |mapping|
  {
    if mapping == [] then []
    else
      var n := |mapping| - 1;
      AddToGroup(GroupHeaders(mapping[..n]), mapping[n].1, mapping[n].0)
  }

  /** `headers.index(h)` guarded by `h in headers`: the first column whose raw header is `h`. */
  function ColumnOf(headers: seq<string>, h: string): (r: Option<nat>)
    ensures r.Some? ==> r.value < |headers| && headers[r.value] == h && forall j :: 0 <= j < r.value ==> headers[j] != h
    ensures r.None? <==> h !in headers
    decreases |headers|
  {
    if headers == [] then None
    else if headers[0] == h then Some(0)
    else match ColumnOf(headers[1..], h)
      case None => None
      case Some(j) => Some(j + 1)
  }

  /** The cell under header `h` in `row`, `""` past the row's end; `None` if `h` is not a raw header. */
  function CellOf(headers: seq<string>, row: seq<string>, h: string): Option<string> {
    match ColumnOf(headers, h)
    case None => None
    case Some(idx) => Some(if idx < |row| then row[idx] else "")
  }

  /** The row has a non-blank value under header `h`. */
  predicate HasValue(headers: seq<string>, row: seq<string>, h: string) {
    CellOf(headers, row, h).Some? && !Blank(CellOf(headers, row, h).value)
  }

  /** The `"{header}: {value}\n"` line one header contributes, or `""`. */
  function FieldLine(headers: seq<string>, row: seq<string>, h: string): string {
    if HasValue(headers, row, h) then h + ": " + CellOf(headers, row, h).value + "\n" else ""
  }

  /** `chunk_text` of one group after its headers `hs`. */
  function GroupText(headers: seq<string>, row: seq<string>, hs: seq<string>): string
    decreases |hs|
  {
    if hs == [] then ""
    else GroupText(headers, row, hs[..|hs| - 1]) + FieldLine(headers, row, hs[|hs| - 1])
  }

  /** The chunks one data row emits for `groups`, in order. */
  function RowChunks(headers: seq<string>, row: seq<string>, groups: Dict<seq<string>>): seq<string>
    decreases |groups|
  {
    if groups == [] then []
    else
      var n := |groups| - 1;
      var text := GroupText(headers, row, groups[n].1);
      RowChunks(headers, row, groups[..n]) + (if Blank(text) then [] else [NormalizeTextVi(Strip(text))])
  }

  /** The chunks of the data rows `rows`, row by row. */
  function DataChunks(headers: seq<string>, rows: seq<seq<string>>, groups: Dict<seq<string>>): seq<string>
    decreases |rows|
  {
    if rows == [] then []
    else DataChunks(headers, rows[..|rows| - 1], groups) + RowChunks(headers, rows[|rows| - 1], groups)
  }

  /** What `extract_text_from_csv` returns for the parsed rows. */
  function CsvChunks(rows: seq<seq<string>>): seq<string> {
    if |rows| < 2 then []
    else DataChunks(rows[1], rows[2..], GroupHeaders(ScanHeaders(rows[0], rows[1]).1))
  }

  /** The loop building `header_to_group`, carrying `current_group` across blank group cells. */
  method MapHeadersToGroups(groupRow: seq<string>, headers: seq<string>) returns (headerToGroup: Dict<string>)
    ensures headerToGroup == ScanHeaders(groupRow, headers).1
  {
    headerToGroup := [];
    var currentGroup := "";
    var i := 0;
    while i < |headers|
      invariant 0 <= i <= |headers|
      invariant (currentGroup, headerToGroup) == ScanHeaders(groupRow, headers[..i])
    {
      assert headers[..i + 1][..i] == headers[..i];
      if i < |groupRow| && !Blank(groupRow[i]) {
        currentGroup := Strip(groupRow[i]);
      }
      if !Blank(headers[i]) {
        headerToGroup := Put(headerToGroup, Strip(headers[i]), currentGroup);
      }
      i := i + 1;
    }
    assert headers[..i] == headers;
  }

  /** The loop building `group_to_headers` from `header_to_group`. */
  method CollectGroups(headerToGroup: Dict<string>) returns (groupToHeaders: Dict<seq<string>>)
    ensures groupToHeaders == GroupHeaders(headerToGroup)
  {
    groupToHeaders := [];
    var k := 0;
    while k < |headerToGroup|
      invariant 0 <= k <= |headerToGroup|
      invariant groupToHeaders == GroupHeaders(headerToGroup[..k])
    {
      assert headerToGroup[..k + 1][..k] == headerToGroup[..k];
      groupToHeaders := AddToGroup(groupToHeaders, headerToGroup[k].1, headerToGroup[k].0);
      k := k + 1;
    }
    assert headerToGroup[..k] == headerToGroup;
  }

  /** The innermost loop: `chunk_text` of one group for one row. */
  method BuildGroupText(headers: seq<string>, row: seq<string>, groupHeaders: seq<string>) returns (chunkText: string)
    ensures chunkText == GroupText(headers, row, groupHeaders)
  {
    chunkText := "";
    var h := 0;
    while h < |groupHeaders|
      invariant 0 <= h <= |groupHeaders|
      invariant chunkText == GroupText(headers, row, groupHeaders[..h])
    {
      var header := groupHeaders[h];
      GroupTextStep(headers, row, groupHeaders, h);
      var column := ColumnOf(headers, header);
      if column.Some? {
        var value := if column.value < |row| then row[column.value] else "";
        if !Blank(value) {
          chunkText := chunkText + (header + ": " + value + "\n");
        }
      }
      h := h + 1;
    }
    assert groupHeaders[..h] == groupHeaders;
  }

  /** The loop over groups for one data row: a normalised chunk for each group with a value. */
  method ChunkRow(headers: seq<string>, row: seq<string>, groups: Dict<seq<string>>) returns (rowChunks: seq<string>)
    ensures rowChunks == RowChunks(headers, row, groups)
  {
    rowChunks := [];
    var g := 0;
    while g < |groups|
      invariant 0 <= g <= |groups|
      invariant rowChunks == RowChunks(headers, row, groups[..g])
    {
      var chunkText := BuildGroupText(headers, row, groups[g].1);
      RowChunksStep(headers, row, groups, g);
      if !Blank(chunkText) {
        rowChunks := rowChunks + [NormalizeTextVi(Strip(chunkText))];
      }
      g := g + 1;
    }
    assert groups[..g] == groups;
  }

  /** `extract_text_from_csv` once the file has been read into rows. */
  method ExtractTextFromCsv(rows: seq<seq<string>>) returns (chunks: seq<string>)
    ensures chunks == CsvChunks(rows)
    ensures |rows| < 2 ==> chunks == []
    ensures forall c :: c in chunks ==> c != [] && IsNormalized(c)
  {
    if |rows| < 2 {
      return [];
    }
    var headers := rows[1];
    var headerToGroup := MapHeadersToGroups(rows[0], headers);
    var groupToHeaders := CollectGroups(headerToGroup);
    chunks := [];
    var r := 2;
    while r < |rows|
      invariant 2 <= r <= |rows|
      invariant chunks == DataChunks(headers, rows[2..r], groupToHeaders)
    {
      var rowChunks := ChunkRow(headers, rows[r], groupToHeaders);
      chunks := chunks + rowChunks;
      DataChunksStep(headers, rows, r, groupToHeaders);
      r := r + 1;
    }
    assert rows[2..r] == rows[2..];
    CsvChunksNormalized(rows);
  }

  lemma GroupTextStep(headers: seq<string>, row: seq<string>, hs: seq<string>, h: nat)
    requires h < |hs|
    ensures GroupText(headers, row, hs[..h + 1]) == GroupText(headers, row, hs[..h]) + FieldLine(headers, row, hs[h])
  {
    assert hs[..h + 1][..h] == hs[..h];
  }

  lemma RowChunksStep(headers: seq<string>, row: seq<string>, groups: Dict<seq<string>>, g: nat)
    requires g < |groups|
    ensures RowChunks(headers, row, groups[..g + 1]) == RowChunks(headers, row, groups[..g]) +
      (if Blank(GroupText(headers, row, groups[g].1)) then [] else [NormalizeTextVi(Strip(GroupText(headers, row, groups[g].1)))])
  {
    assert groups[..g + 1][..g] == groups[..g];
  }

  lemma DataChunksStep(headers: seq<string>, rows: seq<seq<string>>, r: nat, groups: Dict<seq<string>>)
    requires 2 <= r < |rows|
    ensures DataChunks(headers, rows[2..r + 1], groups) == DataChunks(headers, rows[2..r], groups) + RowChunks(headers, rows[r], groups)
  {
    assert rows[2..r + 1][..r - 2] == rows[2..r];
  }

  // ----- Properties of the grouping -----

  /** The group in force after the header loop is the one carried to the last column. */
  lemma {:induction false} ScanCarriesGroup(groupRow: seq<string>, headers: seq<string>)
    requires headers != []
    ensures ScanHeaders(groupRow, headers).0 == CarriedGroup(groupRow, |headers| - 1)
    decreases |headers|
  {
    var i := |headers| - 1;
    if i > 0 {
      ScanCarriesGroup(groupRow, headers[..i]);
      assert headers[..i][..i - 1] == headers[..i - 1];
    }
  }

  /** `header_to_group` never holds a key twice. */
  lemma {:induction false} ScanHeadersDistinct(groupRow: seq<string>, headers: seq<string>)
    ensures DistinctKeys(ScanHeaders(groupRow, headers).1)
    decreases |headers|
  {
    if headers != [] {
      var i := |headers| - 1;
      ScanHeadersDistinct(groupRow, headers[..i]);
      var (current, mapping) := ScanHeaders(groupRow, headers[..i]);
      PutDistinct(mapping, Strip(headers[i]), GroupCell(groupRow, i).GetOr(current));
    }
  }

  /** Some non-blank header of `headers` strips to `k`. */
  predicate NamesKey(headers: seq<string>, k: string) {
    exists j :: 0 <= j < |headers| && !Blank(headers[j]) && Strip(headers[j]) == k
  }

  lemma NamesKeySnoc(headers: seq<string>, k: string)
    requires headers != []
    ensures NamesKey(headers, k) <==>
      NamesKey(headers[..|headers| - 1], k) || (!Blank(headers[|headers| - 1]) && Strip(headers[|headers| - 1]) == k)
  {
    var prefix := headers[..|headers| - 1];
    if NamesKey(headers, k) {
      var j :| 0 <= j < |headers| && !Blank(headers[j]) && Strip(headers[j]) == k;
      if j < |prefix| {
        assert prefix[j] == headers[j];
      }
    }
    if NamesKey(prefix, k) {
      var j :| 0 <= j < |prefix| && !Blank(prefix[j]) && Strip(prefix[j]) == k;
      assert headers[j] == prefix[j];
    }
  }

  /** The keys of `header_to_group` are exactly the stripped non-blank headers. */
  lemma {:induction false} ScanHeadersKeys(groupRow: seq<string>, headers: seq<string>)
    ensures forall k :: k in Keys(ScanHeaders(groupRow, headers).1) <==> NamesKey(headers, k)
    decreases |headers|
  {
    if headers != [] {
      var i := |headers| - 1;
      var prefix := headers[..i];
      ScanHeadersKeys(groupRow, prefix);
      var (current, mapping) := ScanHeaders(groupRow, prefix);
      var key := Strip(headers[i]);
      PutKeys(mapping, key, GroupCell(groupRow, i).GetOr(current));
      var result := ScanHeaders(groupRow, headers).1;
      assert result == if Blank(headers[i]) then mapping else Put(mapping, key, GroupCell(groupRow, i).GetOr(current));
      forall k
        ensures k in Keys(result) <==> NamesKey(headers, k)
      {
        NamesKeySnoc(headers, k);
        assert k in Keys(result) <==> k in Keys(mapping) || (!Blank(headers[i]) && k == key);
      }
    }
  }

  /**
   * Each stripped non-blank header maps to the group carried to the last
   * column where that stripped header occurs.
   */
  lemma {:induction false} ScanHeadersMapping(groupRow: seq<string>, headers: seq<string>)
    ensures forall j :: (0 <= j < |headers| && !Blank(headers[j]) &&
      (forall j' :: j < j' < |headers| && !Blank(headers[j']) ==> Strip(headers[j']) != Strip(headers[j]))) ==>
      Get(ScanHeaders(groupRow, headers).1, Strip(headers[j])) == Some(CarriedGroup(groupRow, j))
    decreases |headers|
  {
    if headers != [] {
      var i := |headers| - 1;
      var prefix := headers[..i];
      ScanHeadersMapping(groupRow, prefix);
      ScanCarriesGroup(groupRow, headers);
      var (current, mapping) := ScanHeaders(groupRow, prefix);
      var group := GroupCell(groupRow, i).GetOr(current);
      var result := ScanHeaders(groupRow, headers).1;
      forall j | 0 <= j < |headers| && !Blank(headers[j]) &&
        (forall j' :: j < j' < |headers| && !Blank(headers[j']) ==> Strip(headers[j']) != Strip(headers[j]))
        ensures Get(result, Strip(headers[j])) == Some(CarriedGroup(groupRow, j))
      {
        if !Blank(headers[i]) {
          PutGet(mapping, Strip(headers[i]), group, Strip(headers[j]));
        }
        if j < i {
          assert headers[j] == prefix[j];
          forall j' | j < j' < |prefix| && !Blank(prefix[j'])
            ensures Strip(prefix[j']) != Strip(prefix[j])
          {
            assert prefix[j'] == headers[j'];
          }
        }
      }
    }
  }

  /** The headers mapped to `g`, in dictionary order. */
  function HeadersIn(mapping: Dict<string>, g: string): seq<string>
    decreases |mapping|
  {
    if mapping == [] then []
    else
      var n := |mapping| - 1;
      HeadersIn(mapping[..n], g) + (if mapping[n].1 == g then [mapping[n].0] else [])
  }

  /** The distinct elements of `s` in order of first appearance. */
  function FirstAppearances(s: seq<string>): (r: seq<string>)
    ensures forall x :: x in r <==> x in s
    decreases |s|
  {
    if s == [] then []
    else
      var prev := FirstAppearances(s[..|s| - 1]);
      assert forall x :: x in s <==> x in s[..|s| - 1] || x == s[|s| - 1] by {
        assert s == s[..|s| - 1] + [s[|s| - 1]];
      }
      if s[|s| - 1] in prev then prev else prev + [s[|s| - 1]]
  }

  /** The groups named by `mapping`'s values, in order. */
  function GroupsOf(mapping: Dict<string>): (r: seq<string>)
    ensures |r| == |mapping| && forall i :: 0 <= i < |mapping| ==> r[i] == mapping[i].1
  {
    seq(|mapping|, i requires 0 <= i < |mapping| => mapping[i].1)
  }

  /** `group_to_headers` lists each group once, in order of first appearance. */
  lemma {:induction false} GroupHeadersKeys(mapping: Dict<string>)
    ensures Keys(GroupHeaders(mapping)) == FirstAppearances(GroupsOf(mapping))
    ensures DistinctKeys(GroupHeaders(mapping))
    decreases |mapping|
  {
    if mapping != [] {
      var n := |mapping| - 1;
      GroupHeadersKeys(mapping[..n]);
      assert GroupsOf(mapping)[..n] == GroupsOf(mapping[..n]);
    }
  }

  /** Each group's list in `group_to_headers` is exactly its headers, in dictionary order. */
  lemma {:induction false} GroupHeadersLists(mapping: Dict<string>)
    ensures forall g :: Get(GroupHeaders(mapping), g) == if HeadersIn(mapping, g) == [] then None else Some(HeadersIn(mapping, g))
    decreases |mapping|
  {
    if mapping != [] {
      var n := |mapping| - 1;
      GroupHeadersLists(mapping[..n]);
      forall g
        ensures Get(GroupHeaders(mapping), g) == if HeadersIn(mapping, g) == [] then None else Some(HeadersIn(mapping, g))
      {
        var before := GroupHeaders(mapping[..n]);
        PutGet(before, mapping[n].1, Get(before, mapping[n].1).GetOr([]) + [mapping[n].0], g);
        if g == mapping[n].1 {
          assert HeadersIn(mapping, g) == HeadersIn(mapping[..n], g) + [mapping[n].0];
        } else {
          assert HeadersIn(mapping, g) == HeadersIn(mapping[..n], g);
        }
      }
    }
  }

  /** A group's text is blank exactly when none of its headers has a non-blank value in the row. */
  lemma {:induction false} GroupTextBlank(headers: seq<string>, row: seq<string>, hs: seq<string>)
    ensures Blank(GroupText(headers, row, hs)) <==> forall h :: h in hs ==> !HasValue(headers, row, h)
    decreases |hs|
  {
    if hs != [] {
      var n := |hs| - 1;
      GroupTextBlank(headers, row, hs[..n]);
      var prev := GroupText(headers, row, hs[..n]);
      var line := FieldLine(headers, row, hs[n]);
      assert hs == hs[..n] + [hs[n]];
      if HasValue(headers, row, hs[n]) {
        var k := |prev| + |hs[n]|;
        assert (prev + line)[k] == ':';
      } else {
        assert prev + line == prev;
      }
      if !Blank(prev) {
        var j :| 0 <= j < |prev| && !IsSpace(prev[j]);
        assert (prev + line)[j] == prev[j];
      }
    }
  }

  /** Every chunk a row emits is non-empty and normalised. */
  lemma {:induction false} RowChunksNormalized(headers: seq<string>, row: seq<string>, groups: Dict<seq<string>>)
    ensures forall c :: c in RowChunks(headers, row, groups) ==> c != [] && IsNormalized(c)
    decreases |groups|
  {
    if groups != [] {
      var n := |groups| - 1;
      RowChunksNormalized(headers, row, groups[..n]);
      var text := GroupText(headers, row, groups[n].1);
      if !Blank(text) {
        NormalizeNonBlank(text);
        NormalizeTextViProperties(Strip(text));
      }
    }
  }

  /** Every chunk of the file is non-empty and normalised. */
  lemma {:induction false} CsvChunksNormalized(rows: seq<seq<string>>)
    ensures forall c :: c in CsvChunks(rows) ==> c != [] && IsNormalized(c)
  {
    if |rows| >= 2 {
      DataChunksNormalized(rows[1], rows[2..], GroupHeaders(ScanHeaders(rows[0], rows[1]).1));
    }
  }

  lemma {:induction false} DataChunksNormalized(headers: seq<string>, rows: seq<seq<string>>, groups: Dict<seq<string>>)
    ensures forall c :: c in DataChunks(headers, rows, groups) ==> c != [] && IsNormalized(c)
    decreases |rows|
  {
    if rows != [] {
      DataChunksNormalized(headers, rows[..|rows| - 1], groups);
      RowChunksNormalized(headers, rows[|rows| - 1], groups);
    }
  }

  /**
   * Adding a group to the end of the dictionary adds exactly one chunk when
   * some header of that group has a value in the row, and none otherwise.
   */
  lemma RowChunksAppend(headers: seq<string>, row: seq<string>, groups: Dict<seq<string>>, group: string, hs: seq<string>)
    ensures RowChunks(headers, row, groups + [(group, hs)]) ==
      RowChunks(headers, row, groups) +
      (if exists h :: h in hs && HasValue(headers, row, h) then [NormalizeTextVi(Strip(GroupText(headers, row, hs)))] else [])
  {
    assert (groups + [(group, hs)])[..|groups|] == groups;
    GroupTextBlank(headers, row, hs);
  }

  /** `chunk_text` returns `[]` for blank text; other text goes to the (unmodelled) splitter. */
  function ChunkText(text: string, split: string -> seq<string>): (r: seq<string>)
    ensures Blank(text) ==> r == []
    ensures !Blank(text) ==> r == split(text)
  {
    if Blank(text) then [] else split(text)
  }
}
