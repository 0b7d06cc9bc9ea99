/** Literal keyword matching for persona lore: plain and full-word search over one text, and what a
    search over several texts joined by newlines finds. */
module PersonaMatching {
  import opened Wrappers

  /** The Unicode facts the search rests on: case folding is per character, and a newline is a word
      boundary that folding neither makes nor unmakes. */
  datatype Alphabet = Alphabet(fold: char -> string, isWord: char -> bool, isSpace: char -> bool) {
    ghost predicate Lawful() {
      && fold('\n') == "\n"
      && (forall c :: fold(c) != "" && (c != '\n' ==> '\n' !in fold(c)))
      && !isWord('\n')
    }

    function Fold(s: string): string {
      if s == "" then "" else fold(s[0]) + Fold(s[1..])
    }
  }

  // ---------------------------------------------------------------- occurrences

  predicate OccursAt(hay: string, needle: string, i: int) {
    0 <= i && i + |needle| <= |hay| && hay[i..i + |needle|] == needle
  }

  /** The first occurrence at or after `from`, as the standard library's substring search finds it. */
  function FindFrom(hay: string, needle: string, from: nat): (r: Option<nat>)
    ensures r.Some? ==> from <= r.value && OccursAt(hay, needle, r.value)
    ensures forall i | from <= i && OccursAt(hay, needle, i) :: r.Some? && r.value <= i
    decreases |hay| - from
  {
    if from + |needle| > |hay| then None
    else if OccursAt(hay, needle, from) then Some(from)
    else FindFrom(hay, needle, from + 1)
  }

  predicate Bounded(a: Alphabet, hay: string, start: nat, end: nat)
    requires start <= end <= |hay|
  {
    (start == 0 || !a.isWord(hay[start - 1])) && (end == |hay| || !a.isWord(hay[end]))
  }

  predicate DotlessPair(x: char, y: char) {
    (x == 'i' && y == '\U{131}') || (x == '\U{131}' && y == 'i')
  }

  predicate Alike(x: char, y: char, ignoreCase: bool) { x == y || (ignoreCase && DotlessPair(x, y)) }

  /** Only the two letters i, with a dot and without, are alike without being the same, and only ignoring case. */
  lemma OnlyDotlessAreAlike(x: char, y: char, ignoreCase: bool)
    ensures Alike(x, y, ignoreCase) && x != y <==> ignoreCase && multiset{x, y} == multiset{'i', '\U{131}'}
  {
    if multiset{x, y} == multiset{'i', '\U{131}'} {
      assert x in multiset{'i', '\U{131}'} && y in multiset{'i', '\U{131}'} && 'i' in multiset{x, y};
    }
  }

  /** `needle` stands at `i`; for a full-word search it also has a text edge or a non-word character
      on both sides, and only then does an ignoring search identify the two dotless letters. */
  ghost predicate StandsAt(a: Alphabet, hay: string, needle: string, i: nat, ignoreCase: bool, fullWord: bool) {
    && i + |needle| <= |hay|
    && (forall k | 0 <= k < |needle| :: Alike(hay[i + k], needle[k], ignoreCase && fullWord))
    && (fullWord ==> i < |hay| && Bounded(a, hay, i, i + |needle|))
  }

  ghost predicate Stands(a: Alphabet, hay: string, needle: string, ignoreCase: bool, fullWord: bool) {
    exists i :: StandsAt(a, hay, needle, i, ignoreCase, fullWord)
  }

  function Haystack(a: Alphabet, text: string, ignoreCase: bool): string {
    if ignoreCase then a.Fold(text) else text
  }

  /** What a keyword search over `text` is meant to answer. */
  ghost predicate Hit(a: Alphabet, text: string, keyword: string, ignoreCase: bool, fullWord: bool) {
    && keyword != ""
    && Stands(a, Haystack(a, text, ignoreCase), Haystack(a, keyword, ignoreCase), ignoreCase, fullWord)
  }

  lemma OccursIsStands(a: Alphabet, hay: string, needle: string, i: nat, ignoreCase: bool, fullWord: bool)
    requires !(ignoreCase && fullWord)
    requires fullWord ==> needle != ""
    ensures StandsAt(a, hay, needle, i, ignoreCase, fullWord)
       <==> OccursAt(hay, needle, i) && (fullWord ==> Bounded(a, hay, i, i + |needle|))
  {
    if i + |needle| <= |hay| {
      if OccursAt(hay, needle, i) {
        forall k | 0 <= k < |needle| ensures hay[i + k] == needle[k] {
          assert hay[i..i + |needle|][k] == needle[k];
        }
      }
      if forall k | 0 <= k < |needle| :: hay[i + k] == needle[k] {
        assert hay[i..i + |needle|] == needle;
      }
    }
  }

  /** The full-word loop: after a rejected occurrence it resumes one character later, so
      overlapping occurrences are all tried. */
  method FullWordMatch(a: Alphabet, hay: string, needle: string) returns (found: bool)
    requires needle != ""
    ensures found <==> exists i: nat :: OccursAt(hay, needle, i) && Bounded(a, hay, i, i + |needle|)
  {
    hide Bounded;
    var searchFrom := 0;
    var next := FindFrom(hay, needle, searchFrom);
    while next.Some?
      invariant next == FindFrom(hay, needle, searchFrom)
      invariant forall i: nat | i < searchFrom && OccursAt(hay, needle, i) :: !Bounded(a, hay, i, i + |needle|)
      invariant searchFrom <= |hay|
      decreases |hay| - searchFrom
    {
      var start := next.value;
      if Bounded(a, hay, start, start + |needle|) {
        return true;
      }
      searchFrom := start + 1;
      next := FindFrom(hay, needle, searchFrom);
    }
    return false;
  }

  /** The case-ignoring prefix test: how far the match reaches, or nothing. */
  method IgnoreCasePrefix(hay: string, needle: string) returns (r: Option<nat>)
    ensures r.Some? <==> |needle| <= |hay| && forall k | 0 <= k < |needle| :: Alike(hay[k], needle[k], true)
    ensures r.Some? ==> r.value == |needle|
  {
    var consumed := 0;
    while consumed < |needle|
      invariant consumed <= |needle| && consumed <= |hay|
      invariant forall k | 0 <= k < consumed :: Alike(hay[k], needle[k], true)
    {
      if consumed == |hay| || !Alike(hay[consumed], needle[consumed], true) {
        return None;
      }
      consumed := consumed + 1;
    }
    return Some(consumed);
  }

  method IgnoreCaseFullWordMatch(a: Alphabet, hay: string, needle: string) returns (found: bool)
    ensures found <==> Stands(a, hay, needle, true, true)
  {
    var start := 0;
    while start < |hay|
      invariant start <= |hay|
      invariant forall i: nat | i < start :: !StandsAt(a, hay, needle, i, true, true)
    {
      var matched := IgnoreCasePrefix(hay[start..], needle);
      assert forall k | 0 <= k < |needle| && start + k < |hay| :: hay[start..][k] == hay[start + k];
      if matched.Some? && Bounded(a, hay, start, start + matched.value) {
        assert StandsAt(a, hay, needle, start, true, true);
        return true;
      }
      start := start + 1;
    }
    return false;
  }

  method LiteralMatch(a: Alphabet, context: string, foldedContext: string, keyword: string,
                      caseSensitive: bool, fullWord: bool)
    returns (found: bool)
    requires a.Lawful() && foldedContext == a.Fold(context)
    ensures found <==> Hit(a, context, keyword, !caseSensitive, fullWord)
  {
    if keyword == "" {
      return false;
    }
    var ignoreCase := !caseSensitive;
    var hay := if caseSensitive then context else foldedContext;
    var needle := if caseSensitive then keyword else a.Fold(keyword);
    FoldKeeps(a, keyword);
    if fullWord && !caseSensitive {
      found := IgnoreCaseFullWordMatch(a, hay, needle);
      return;
    }
    if fullWord {
      found := FullWordMatch(a, hay, needle);
    } else {
      var first := FindFrom(hay, needle, 0);
      found := first.Some?;
      if found { assert OccursAt(hay, needle, first.value); }
    }
    if found {
      var i: nat :| OccursAt(hay, needle, i) && (fullWord ==> Bounded(a, hay, i, i + |needle|));
      OccursIsStands(a, hay, needle, i, ignoreCase, fullWord);
    } else {
      forall i: nat ensures !StandsAt(a, hay, needle, i, ignoreCase, fullWord) {
        OccursIsStands(a, hay, needle, i, ignoreCase, fullWord);
      }
    }
  }

  // ---------------------------------------------------------------- joined texts

  lemma {:induction false} FoldAppend(a: Alphabet, s: string, t: string)
    ensures a.Fold(s + t) == a.Fold(s) + a.Fold(t)
  {
    if s == "" {
      assert s + t == t;
    } else {
      FoldAppend(a, s[1..], t);
      assert (s + t)[1..] == s[1..] + t;
    }
  }

  lemma {:induction false} FoldKeeps(a: Alphabet, s: string)
    requires a.Lawful()
    ensures s != "" ==> a.Fold(s) != ""
    ensures '\n' !in s ==> '\n' !in a.Fold(s)
  {
    if s != "" {
      FoldKeeps(a, s[1..]);
      assert s[0] in s;
      assert forall c | c in s[1..] :: c in s;
    }
  }

  lemma HaystackJoin(a: Alphabet, s: string, t: string, ignoreCase: bool)
    requires a.Lawful()
    ensures Haystack(a, s + "\n" + t, ignoreCase) == Haystack(a, s, ignoreCase) + "\n" + Haystack(a, t, ignoreCase)
  {
    if ignoreCase {
      FoldAppend(a, s + "\n", t);
      FoldAppend(a, s, "\n");
      assert a.Fold("\n") == a.fold('\n') + a.Fold([]);
    }
  }

  lemma NoNewlineInside(a: Alphabet, hay: string, needle: string, i: nat, j: nat, ignoreCase: bool, fullWord: bool)
    requires '\n' !in needle && StandsAt(a, hay, needle, i, ignoreCase, fullWord) && i <= j < i + |needle|
    ensures hay[j] != '\n'
  {
    var k := j - i;
    assert Alike(hay[i + k], needle[k], ignoreCase && fullWord) && needle[k] in needle;
  }

  /** A needle without a newline stands in a joined text exactly where it stands in one of the parts. */
  lemma StandsJoin(a: Alphabet, p: string, q: string, needle: string, ignoreCase: bool, fullWord: bool)
    requires a.Lawful() && needle != "" && '\n' !in needle
    ensures Stands(a, p + "\n" + q, needle, ignoreCase, fullWord)
       <==> Stands(a, p, needle, ignoreCase, fullWord) || Stands(a, q, needle, ignoreCase, fullWord)
  {
    var h := p + "\n" + q;
    var shift := |p| + 1;
    assert h[|p|] == '\n';
    forall i: nat | StandsAt(a, h, needle, i, ignoreCase, fullWord)
      ensures Stands(a, p, needle, ignoreCase, fullWord) || Stands(a, q, needle, ignoreCase, fullWord)
    {
      if i <= |p| < i + |needle| {
        NoNewlineInside(a, h, needle, i, |p|, ignoreCase, fullWord);
        assert false;
      }
      if i + |needle| <= |p| {
        assert StandsAt(a, p, needle, i, ignoreCase, fullWord);
      } else {
        StandsShift(a, p, q, needle, i - shift, ignoreCase, fullWord);
        assert StandsAt(a, q, needle, i - shift, ignoreCase, fullWord);
      }
    }
    forall i: nat | StandsAt(a, p, needle, i, ignoreCase, fullWord)
      ensures StandsAt(a, h, needle, i, ignoreCase, fullWord)
    {
    }
    forall i: nat | StandsAt(a, q, needle, i, ignoreCase, fullWord)
      ensures StandsAt(a, h, needle, i + shift, ignoreCase, fullWord)
    {
      StandsShift(a, p, q, needle, i, ignoreCase, fullWord);
    }
  }

  lemma StandsShift(a: Alphabet, p: string, q: string, needle: string, i: nat, ignoreCase: bool, fullWord: bool)
    requires a.Lawful() && needle != ""
    ensures StandsAt(a, q, needle, i, ignoreCase, fullWord)
       <==> StandsAt(a, p + "\n" + q, needle, i + |p| + 1, ignoreCase, fullWord)
  {
    var h := p + "\n" + q;
    assert forall k | 0 <= k < |q| :: h[|p| + 1 + k] == q[k];
    if i + |needle| <= |q| {
      assert h[|p|] == '\n';
    }
  }

  lemma HitJoin(a: Alphabet, s: string, t: string, keyword: string, ignoreCase: bool, fullWord: bool)
    requires a.Lawful() && '\n' !in keyword
    ensures Hit(a, s + "\n" + t, keyword, ignoreCase, fullWord)
       <==> Hit(a, s, keyword, ignoreCase, fullWord) || Hit(a, t, keyword, ignoreCase, fullWord)
  {
    if keyword != "" {
      FoldKeeps(a, keyword);
      HaystackJoin(a, s, t, ignoreCase);
      StandsJoin(a, Haystack(a, s, ignoreCase), Haystack(a, t, ignoreCase),
                 Haystack(a, keyword, ignoreCase), ignoreCase, fullWord);
    }
  }

  // ---------------------------------------------------------------- keywords

  function TrimLeft(a: Alphabet, s: string): (r: string)
    ensures forall c | c in r :: c in s
  {
    if s != "" && a.isSpace(s[0]) then TrimLeft(a, s[1..]) else s
  }

  function TrimRight(a: Alphabet, s: string): (r: string)
    ensures forall c | c in r :: c in s
  {
    if s != "" && a.isSpace(s[|s| - 1]) then TrimRight(a, s[..|s| - 1]) else s
  }

  function Trim(a: Alphabet, s: string): (r: string)
    ensures forall c | c in r :: c in s
  {
    TrimRight(a, TrimLeft(a, s))
  }

  /** Comma, semicolon and newline separate keywords; blank ones are dropped. */
  function Keywords(a: Alphabet, s: string): (r: seq<string>)
    ensures forall k | k in r :: k != "" && '\n' !in k && ',' !in k && ';' !in k
  {
    KeywordsFrom(a, "", s)
  }

  function KeywordsFrom(a: Alphabet, piece: string, s: string): (r: seq<string>)
    requires '\n' !in piece && ',' !in piece && ';' !in piece
    ensures forall k | k in r :: k != "" && '\n' !in k && ',' !in k && ';' !in k
    decreases |s|
  {
    if s != "" && s[0] !in ",;\n" then KeywordsFrom(a, piece + [s[0]], s[1..])
    else
      var keyword := Trim(a, piece);
      var head := if keyword == "" then [] else [keyword];
      if s == "" then head else head + KeywordsFrom(a, "", s[1..])
  }

  // ---------------------------------------------------------------- what the keywords of a text are

  /** The keywords of a text are those before a separator and those after it. */
  lemma KeywordsSplit(a: Alphabet, p: string, c: char, q: string)
    requires c in {',', ';', '\n'}
    ensures Keywords(a, p + [c] + q) == Keywords(a, p) + Keywords(a, q)
  {
    PiecesSplit(a, "", p, c, q);
  }

  lemma {:induction false} PiecesSplit(a: Alphabet, piece: string, p: string, c: char, q: string)
    requires c in {',', ';', '\n'} && '\n' !in piece && ',' !in piece && ';' !in piece
    ensures KeywordsFrom(a, piece, p + [c] + q) == KeywordsFrom(a, piece, p) + KeywordsFrom(a, "", q)
    decreases |p|
  {
    var s := p + [c] + q;
    if p == "" {
      assert s[0] == c && s[1..] == q;
    } else {
      assert s[0] == p[0] && s[1..] == p[1..] + [c] + q;
      PiecesSplit(a, if p[0] in ",;\n" then "" else piece + [p[0]], p[1..], c, q);
    }
  }

  /** A text without a separator is one keyword, trimmed, or none when nothing is left of it. */
  lemma KeywordsOfOne(a: Alphabet, p: string)
    requires ',' !in p && ';' !in p && '\n' !in p
    ensures Keywords(a, p) == if Trim(a, p) == "" then [] else [Trim(a, p)]
  {
    assert "" + p == p;
    OnePiece(a, "", p);
  }

  lemma {:induction false} OnePiece(a: Alphabet, piece: string, p: string)
    requires ',' !in piece + p && ';' !in piece + p && '\n' !in piece + p
    ensures '\n' !in piece && ',' !in piece && ';' !in piece
    ensures KeywordsFrom(a, piece, p) == if Trim(a, piece + p) == "" then [] else [Trim(a, piece + p)]
    decreases |p|
  {
    assert forall x | x in piece :: x in piece + p;
    if p == "" {
      assert piece + p == piece;
    } else {
      assert p[0] in piece + p;
      assert piece + [p[0]] + p[1..] == piece + p;
      OnePiece(a, piece + [p[0]], p[1..]);
    }
  }

  /** `r` is what stands in `s` between its first and last character that is no space. */
  ghost predicate IsTrimmed(a: Alphabet, s: string, r: string) {
    exists from: nat, to: nat | from <= to <= |s| ::
      && r == s[from..to]
      && (forall i | 0 <= i < from :: a.isSpace(s[i])) && (forall i | to <= i < |s| :: a.isSpace(s[i]))
      && (r != "" ==> !a.isSpace(r[0]) && !a.isSpace(r[|r| - 1]))
  }

  lemma TrimIs(a: Alphabet, s: string)
    ensures IsTrimmed(a, s, Trim(a, s))
    ensures (forall c | c in s :: a.isSpace(c)) <==> Trim(a, s) == ""
  {
    var from := LeftIs(a, s);
    var to := RightIs(a, s[from..]);
    var r := Trim(a, s);
    assert r == s[from..from + to];
    assert forall i | from <= i < |s| :: s[i] == s[from..][i - from];
    assert IsTrimmed(a, s, r) by { assert from <= from + to <= |s|; }
    if r == "" {
      assert forall i | 0 <= i < |s| :: a.isSpace(s[i]);
    } else {
      assert r[0] in r;
    }
  }

  lemma {:induction false} LeftIs(a: Alphabet, s: string) returns (from: nat)
    ensures from <= |s| && TrimLeft(a, s) == s[from..] && forall i | 0 <= i < from :: a.isSpace(s[i])
    ensures from < |s| ==> !a.isSpace(s[from])
  {
    from := 0;
    if s != "" && a.isSpace(s[0]) {
      from := LeftIs(a, s[1..]);
      assert forall i | 0 < i < |s| :: s[i] == s[1..][i - 1];
      from := from + 1;
    }
  }

  lemma {:induction false} RightIs(a: Alphabet, s: string) returns (to: nat)
    ensures to <= |s| && TrimRight(a, s) == s[..to] && forall i | to <= i < |s| :: a.isSpace(s[i])
    ensures to > 0 ==> !a.isSpace(s[to - 1])
  {
    to := |s|;
    if s != "" && a.isSpace(s[|s| - 1]) {
      to := RightIs(a, s[..|s| - 1]);
    }
  }
}
