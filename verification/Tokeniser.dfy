/**
 * The title tokeniser of the index. A title is cut at '_', '.', white space and at every
 * lower-to-upper case transition, and every piece is lower-cased.
 */
module Tokeniser {
  import opened Common

  predicate IsSpace(c: char) {
    c == ' ' || 9 as char <= c <= 13 as char
  }

  predicate IsUpper(c: char) {
    'A' <= c <= 'Z'
  }

  predicate IsLower(c: char) {
    'a' <= c <= 'z'
  }

  function ToLower(c: char): char {
    if IsUpper(c) then (c as int + 32) as char else c
  }

  /** What the two `std::replace` passes do to one character. */
  function Blank(c: char): char {
    if c == '_' || c == '.' then ' ' else c
  }

  // ----- What a title is made of -----

  /** The characters that separate words: '_', '.' and the six white-space characters of the "C" locale. */
  predicate IsSeparator(c: char) {
    c == '_' || c == '.' || c == ' ' || c == '\t' || c == '\n' || c as int == 11 || c as int == 12 || c == '\r'
  }

  predicate IsCapital(c: char) {
    'A' <= c <= 'Z'
  }

  predicate IsSmall(c: char) {
    'a' <= c <= 'z'
  }

  /** A capital becomes the small letter at its place in the alphabet; everything else stays. */
  function Folded(c: char): char {
    if IsCapital(c) then "abcdefghijklmnopqrstuvwxyz"[c as int - 65] else c
  }

  function Lower(s: string): string {
    seq(|s|, i requires 0 <= i < |s| => Folded(s[i]))
  }

  /** The lower-cased title with a space put in at every case transition. */
  function Spaced(afterLower: bool, t: string): string
    decreases t
  {
    if t == "" then ""
    else (if afterLower && IsUpper(t[0]) then " " else "")
         + [ToLower(Blank(t[0]))] + Spaced(IsLower(t[0]), t[1..])
  }

  /** White-space splitting, `word` being the piece read so far. */
  function Split(s: string, word: string): seq<string> {
    if s == "" then Flush(word)
    else if IsSpace(s[0]) then Flush(word) + Split(s[1..], "")
    else Split(s[1..], word + [s[0]])
  }

  function Flush(word: string): seq<string> {
    if word == "" then [] else [word]
  }

  function Keywords(title: string): seq<string> {
    Split(Spaced(false, title), "")
  }

  lemma SpacedStep(t: string, i: nat)
    requires i < |t|
    ensures Spaced(false, t[..i + 1]) == Spaced(false, t[..i]) +
              (if i > 0 && IsUpper(Blank(t[i])) && IsLower(Blank(t[i - 1])) then " " else "") + [ToLower(Blank(t[i]))]
  {
    SpacedAppend(false, t[..i], [t[i]]);
    assert t[..i + 1] == t[..i] + [t[i]];
    assert [t[i]][1..] == "";
  }

  /** The tokeniser as the code runs it: blank, space out, then extract word by word. */
  method GenerateKeywords(title: string) returns (keywords: seq<string>)
    ensures keywords == Keywords(title)
  {
    var processed := seq(|title|, i requires 0 <= i < |title| => Blank(title[i]));
    var spaced := SpaceOut(title, processed);
    keywords := ExtractWords(spaced);
  }

  method SpaceOut(ghost title: string, processed: string) returns (spaced: string)
    requires |processed| == |title| && forall i :: 0 <= i < |title| ==> processed[i] == Blank(title[i])
    ensures spaced == Spaced(false, title)
  {
    spaced := "";
    for i := 0 to |processed|
      invariant spaced == Spaced(false, title[..i])
    {
      SpacedStep(title, i);
      var c := processed[i];
      if i >= 1 && IsUpper(c) && IsLower(processed[i - 1]) {
        spaced := spaced + " ";
      }
      spaced := spaced + [ToLower(c)];
    }
    assert title[..|title|] == title;
  }

  /** `while (iss >> currentWord)`: skip white space, then read up to the next white space. */
  method ExtractWords(text: string) returns (words: seq<string>)
    ensures words == Split(text, "")
  {
    words := [];
    var i := 0;
    while i < |text|
      invariant 0 <= i <= |text|
      invariant words + Split(text[i..], "") == Split(text, "")
    {
      assert text[i..][1..] == text[i + 1..];
      if IsSpace(text[i]) {
        i := i + 1;
      } else {
        var word, end := ReadWord(text, i);
        assert words + ([word] + Split(text[end..], "")) == (words + [word]) + Split(text[end..], "");
        words, i := words + [word], end;
      }
    }
    assert text[|text|..] == "" && words + [] == words;
  }

  /** Reads from a non-space up to the next white space or the end. */
  method ReadWord(text: string, start: nat) returns (word: string, end: nat)
    requires start < |text| && !IsSpace(text[start])
    ensures start < end <= |text| && word == text[start..end]
    ensures Split(text[start..], "") == [word] + Split(text[end..], "")
  {
    word, end := "", start;
    while end < |text| && !IsSpace(text[end])
      invariant start <= end <= |text|
      invariant end == start ==> end < |text| && !IsSpace(text[end])
      invariant word == text[start..end]
      invariant Split(text[end..], word) == Split(text[start..], "")
      decreases |text| - end
    {
      assert text[end..][1..] == text[end + 1..];
      word := word + [text[end]];
      end := end + 1;
    }
    if end < |text| {
      assert Split(text[end..], "") == Split(text[end..][1..], "");
    }
  }

  // ----- The four laws that characterise the tokeniser -----

  /** A case transition between the end of a and the start of b. */
  predicate CaseBreak(a: string, b: string) {
    a != "" && b != "" && IsSmall(a[|a| - 1]) && IsCapital(b[0])
  }

  /** A piece the tokeniser must not cut: no separator and no inner case transition. */
  predicate Uncut(w: string) {
    && (forall i :: 0 <= i < |w| ==> !IsSeparator(w[i]))
    && (forall i :: 0 < i < |w| ==> !(IsSmall(w[i - 1]) && IsCapital(w[i])))
  }

  lemma {:induction false} SpacedAppend(f: bool, a: string, b: string)
    ensures Spaced(f, a + b) == Spaced(f, a) + Spaced(if a == "" then f else IsLower(a[|a| - 1]), b)
    decreases a
  {
    if a == "" {
      assert a + b == b;
    } else {
      assert (a + b)[1..] == a[1..] + b;
      SpacedAppend(IsLower(a[0]), a[1..], b);
    }
  }

  lemma {:induction false} SplitAtSpace(x: string, c: char, y: string, word: string)
    requires IsSpace(c)
    ensures Split(x + [c] + y, word) == Split(x, word) + Split(y, "")
  {
    if x == "" {
      assert (x + [c] + y)[1..] == y;
    } else {
      assert (x + [c] + y)[1..] == x[1..] + [c] + y;
      if IsSpace(x[0]) {
        SplitAtSpace(x[1..], c, y, "");
      } else {
        SplitAtSpace(x[1..], c, y, word + [x[0]]);
      }
    }
  }

  /** Law 1: a separator cuts the title and disappears. */
  lemma SeparatorLaw(a: string, c: char, b: string)
    requires IsSeparator(c)
    ensures Keywords(a + [c] + b) == Keywords(a) + Keywords(b)
  {
    SpacedAppend(false, a + [c], b);
    SpacedAppend(false, a, [c]);
    assert [c][1..] == "";
    var f := if a == "" then false else IsLower(a[|a| - 1]);
    assert Spaced(f, [c]) == [Blank(c)];
    assert Spaced(false, a + [c] + b) == Spaced(false, a) + [Blank(c)] + Spaced(false, b);
    SplitAtSpace(Spaced(false, a), Blank(c), Spaced(false, b), "");
  }

  /** Law 2: a lower-to-upper transition cuts the title and loses nothing. */
  lemma CaseBreakLaw(a: string, b: string)
    requires CaseBreak(a, b)
    ensures Keywords(a + b) == Keywords(a) + Keywords(b)
  {
    SpacedAtBreak(a, b);
    SplitAtSpace(Spaced(false, a), ' ', Spaced(false, b), "");
  }

  lemma SpacedAtBreak(a: string, b: string)
    requires CaseBreak(a, b)
    ensures Spaced(false, a + b) == Spaced(false, a) + [' '] + Spaced(false, b)
  {
    SpacedAppend(false, a, b);
    SpacedBeforeUpper(b);
    assert Spaced(false, a) + (" " + Spaced(false, b)) == Spaced(false, a) + [' '] + Spaced(false, b);
  }

  lemma SpacedBeforeUpper(b: string)
    requires b != "" && IsUpper(b[0])
    ensures Spaced(true, b) == " " + Spaced(false, b)
  {
    var first, rest := [ToLower(Blank(b[0]))], Spaced(IsLower(b[0]), b[1..]);
    SpacedUnfolds(true, b);
    SpacedUnfolds(false, b);
    Associate(" ", first, rest);
    Associate("", first, rest);
    assert "" + (first + rest) == first + rest;
  }

  lemma SpacedUnfolds(f: bool, t: string)
    requires t != ""
    ensures Spaced(f, t) == (if f && IsUpper(t[0]) then " " else "") + [ToLower(Blank(t[0]))] + Spaced(IsLower(t[0]), t[1..])
  {
  }

  lemma {:induction false} SpacedUncut(f: bool, w: string)
    requires Uncut(w)
    requires w != "" ==> !(f && IsUpper(w[0]))
    ensures Spaced(f, w) == Lower(w)
    decreases w
  {
    if w != "" {
      forall i | 0 < i < |w[1..]|
        ensures !(IsLower(w[1..][i - 1]) && IsUpper(w[1..][i]))
      {
        assert w[1..][i - 1] == w[i] && w[1..][i] == w[i + 1];
      }
      SpacedUncut(IsLower(w[0]), w[1..]);
      assert Lower(w) == [ToLower(w[0])] + Lower(w[1..]);
    }
  }

  lemma {:induction false} SplitSolid(s: string, word: string)
    requires forall i :: 0 <= i < |s| ==> !IsSpace(s[i])
    ensures Split(s, word) == Flush(word + s)
  {
    if s == "" {
      assert word + s == word;
    } else {
      SplitSolid(s[1..], word + [s[0]]);
      assert word + [s[0]] + s[1..] == word + s;
    }
  }

  /** Law 3: nothing else cuts it; an uncut piece is one keyword, lower-cased. */
  lemma UncutLaw(w: string)
    requires Uncut(w)
    ensures Keywords(w) == Flush(Lower(w))
  {
    SpacedUncut(false, w);
    SplitSolid(Lower(w), "");
    assert "" + Lower(w) == Lower(w);
  }

  /** The three laws as a property of an arbitrary tokeniser. */
  ghost predicate MaximalSegments(f: string -> seq<string>) {
    && (forall a: string, c: char, b: string :: IsSeparator(c) ==> f(a + [c] + b) == f(a) + f(b))
    && (forall a: string, b: string :: CaseBreak(a, b) ==> f(a + b) == f(a) + f(b))
    && (forall w: string :: Uncut(w) ==> f(w) == Flush(Lower(w)))
  }

  lemma UniqueAtSeparator(f: string -> seq<string>, a: string, c: char, b: string)
    requires MaximalSegments(f) && IsSeparator(c)
    requires f(a) == Keywords(a) && f(b) == Keywords(b)
    ensures f(a + [c] + b) == Keywords(a + [c] + b)
  {
    SeparatorLaw(a, c, b);
  }

  lemma UniqueAtCaseBreak(f: string -> seq<string>, a: string, b: string)
    requires MaximalSegments(f) && CaseBreak(a, b)
    requires f(a) == Keywords(a) && f(b) == Keywords(b)
    ensures f(a + b) == Keywords(a + b)
  {
    CaseBreakLaw(a, b);
  }

  lemma UniqueOnUncut(f: string -> seq<string>, w: string)
    requires MaximalSegments(f) && Uncut(w)
    ensures f(w) == Keywords(w)
  {
    UncutLaw(w);
  }

  datatype Cut = NoCut | AtSeparator(at: nat) | AtCaseBreak(at: nat)

  /** A place where the title is cut, if there is one. */
  lemma FindCut(title: string) returns (cut: Cut)
    ensures match cut
            case NoCut => Uncut(title)
            case AtSeparator(i) =>
              i < |title| && IsSeparator(title[i]) && title == title[..i] + [title[i]] + title[i + 1..]
            case AtCaseBreak(i) =>
              0 < i < |title| && CaseBreak(title[..i], title[i..]) && title == title[..i] + title[i..]
  {
    if i :| 0 <= i < |title| && IsSeparator(title[i]) {
      cut := AtSeparator(i);
    } else if i :| 0 < i < |title| && IsLower(title[i - 1]) && IsUpper(title[i]) {
      cut := AtCaseBreak(i);
    } else {
      cut := NoCut;
    }
  }

  /** The laws determine the tokeniser: it is the only one cutting exactly at those places. */
  lemma {:induction false} TokeniserUnique(f: string -> seq<string>, title: string)
    requires MaximalSegments(f)
    ensures f(title) == Keywords(title)
    decreases |title|
  {
    var cut := FindCut(title);
    match cut
    case NoCut => UniqueOnUncut(f, title);
    case AtSeparator(i) =>
      TokeniserUnique(f, title[..i]);
      TokeniserUnique(f, title[i + 1..]);
      UniqueAtSeparator(f, title[..i], title[i], title[i + 1..]);
    case AtCaseBreak(i) =>
      TokeniserUnique(f, title[..i]);
      TokeniserUnique(f, title[i..]);
      UniqueAtCaseBreak(f, title[..i], title[i..]);
  }

  // ----- What the keywords look like -----

  /** A stored keyword: non-empty, no separator, nothing in upper case. */
  predicate CleanWord(w: string) {
    w != "" && forall i :: 0 <= i < |w| ==> !IsSeparator(w[i]) && !IsCapital(w[i])
  }

  function Letters(t: string): string {
    if t == "" then ""
    else (if IsSeparator(t[0]) then "" else [Folded(t[0])]) + Letters(t[1..])
  }

  function Concat(ws: seq<string>): string {
    if ws == [] then "" else ws[0] + Concat(ws[1..])
  }

  lemma {:induction false} ConcatAppend(xs: seq<string>, ys: seq<string>)
    ensures Concat(xs + ys) == Concat(xs) + Concat(ys)
  {
    if xs == [] {
      assert xs + ys == ys;
    } else {
      assert (xs + ys)[1..] == xs[1..] + ys;
      ConcatAppend(xs[1..], ys);
    }
  }

  lemma {:induction false} LettersAppend(a: string, b: string)
    ensures Letters(a + b) == Letters(a) + Letters(b)
  {
    if a == "" {
      assert a + b == b;
    } else {
      assert (a + b)[1..] == a[1..] + b;
      LettersAppend(a[1..], b);
    }
  }

  lemma {:induction false} LettersUncut(w: string)
    requires forall i :: 0 <= i < |w| ==> !IsSeparator(w[i])
    ensures Letters(w) == Lower(w)
  {
    if w != "" {
      LettersUncut(w[1..]);
      assert Lower(w) == [ToLower(w[0])] + Lower(w[1..]);
    }
  }

  /** Every keyword is clean, and end to end they are the letters of the title. */
  ghost predicate Conserved(title: string) {
    (forall w :: w in Keywords(title) ==> CleanWord(w)) && Concat(Keywords(title)) == Letters(title)
  }

  lemma FoldedIsClean(c: char)
    ensures !IsCapital(Folded(c)) && (!IsSeparator(c) ==> !IsSeparator(Folded(c)))
  {
  }

  lemma UncutConserves(w: string)
    requires Uncut(w)
    ensures Conserved(w)
  {
    UncutLaw(w);
    LettersUncut(w);
    if w != "" {
      forall i | 0 <= i < |w|
        ensures !IsSeparator(Lower(w)[i]) && !IsCapital(Lower(w)[i])
      {
        FoldedIsClean(w[i]);
      }
      assert [Lower(w)][1..] == [];
    }
  }

  lemma SeparatorConserves(a: string, c: char, b: string)
    requires IsSeparator(c) && Conserved(a) && Conserved(b)
    ensures Conserved(a + [c] + b)
  {
    SeparatorLaw(a, c, b);
    ConcatAppend(Keywords(a), Keywords(b));
    LettersAppend(a + [c], b);
    LettersAppend(a, [c]);
    assert Letters([c]) == "";
  }

  lemma BreakConserves(a: string, b: string)
    requires CaseBreak(a, b) && Conserved(a) && Conserved(b)
    ensures Conserved(a + b)
  {
    CaseBreakLaw(a, b);
    ConcatAppend(Keywords(a), Keywords(b));
    LettersAppend(a, b);
  }

  /**
   * Conservation: every keyword is clean, and put end to end they are the title without its
   * separators, lower-cased. No letter is lost, added or moved.
   */
  lemma {:induction false} KeywordsConserveLetters(title: string)
    ensures forall w :: w in Keywords(title) ==> CleanWord(w)
    ensures Concat(Keywords(title)) == Letters(title)
    decreases |title|
  {
    var cut := FindCut(title);
    match cut
    case NoCut => UncutConserves(title);
    case AtSeparator(i) =>
      KeywordsConserveLetters(title[..i]);
      KeywordsConserveLetters(title[i + 1..]);
      SeparatorConserves(title[..i], title[i], title[i + 1..]);
    case AtCaseBreak(i) =>
      KeywordsConserveLetters(title[..i]);
      KeywordsConserveLetters(title[i..]);
      BreakConserves(title[..i], title[i..]);
  }

  /** Conservation, the characters written out. */
  lemma KeywordCharacters(title: string, w: string, i: nat)
    requires w in Keywords(title) && i < |w|
    ensures w[i] !in {'_', '.', ' ', '\t', '\n', 11 as char, 12 as char, '\r'}
    ensures !('A' <= w[i] <= 'Z')
  {
    KeywordsConserveLetters(title);
  }

  /** A one-letter title is one keyword. */
  lemma Letter(c: char)
    requires !IsSeparator(c)
    ensures Keywords([c]) == [[Folded(c)]]
  {
    UncutLaw([c]);
    assert Lower([c]) == [Folded(c)];
  }

  /** One cut of each kind, between any two letters. */
  lemma SampleCuts(c: char, d: char)
    requires !IsSeparator(c) && !IsSeparator(d)
    ensures Keywords([c] + ['_'] + [d]) == Keywords([c] + ['.'] + [d]) == Keywords([c] + [' '] + [d])
         == Keywords([c] + ['\t'] + [d]) == Keywords([c] + ['\n'] + [d]) == [[Folded(c)], [Folded(d)]]
    ensures 'a' <= c <= 'z' && 'A' <= d <= 'Z' ==> Keywords([c] + [d]) == [[Folded(c)], [Folded(d)]]
  {
    Letter(c);
    Letter(d);
    SeparatorLaw([c], '_', [d]);
    SeparatorLaw([c], '.', [d]);
    SeparatorLaw([c], ' ', [d]);
    SeparatorLaw([c], '\t', [d]);
    SeparatorLaw([c], '\n', [d]);
    if 'a' <= c <= 'z' && 'A' <= d <= 'Z' {
      CaseBreakLaw([c], [d]);
    }
  }

  function Join(ws: seq<string>): string {
    if ws == [] then "" else if |ws| == 1 then ws[0] else ws[0] + [' '] + Join(ws[1..])
  }

  lemma CleanWordIsItsKeyword(w: string)
    requires CleanWord(w)
    ensures Keywords(w) == [w]
  {
    UncutLaw(w);
    assert Lower(w) == w;
  }

  lemma {:induction false} KeywordsOfJoin(ws: seq<string>)
    requires forall w :: w in ws ==> CleanWord(w)
    ensures Keywords(Join(ws)) == ws
  {
    if ws == [] {
    } else if |ws| == 1 {
      CleanWordIsItsKeyword(ws[0]);
    } else {
      SeparatorLaw(ws[0], ' ', Join(ws[1..]));
      CleanWordIsItsKeyword(ws[0]);
      KeywordsOfJoin(ws[1..]);
    }
  }

  /** Tokenising is idempotent on its own space-joined output. */
  lemma KeywordsIdempotent(title: string)
    ensures Keywords(Join(Keywords(title))) == Keywords(title)
  {
    KeywordsConserveLetters(title);
    KeywordsOfJoin(Keywords(title));
  }
}
