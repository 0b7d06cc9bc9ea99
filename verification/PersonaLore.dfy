/** Which lore entries a room's recent text activates: the bounded recursive scan. */
module PersonaLore {
  import opened Wrappers
  import opened PersonaMatching

  const MAX_RECURSIVE_SCAN_DEPTH := 8

  datatype LoreEntry = LoreEntry(
    key: string,
    secondaryKey: string,
    content: string,
    enabled: bool,
    useRegex: bool,
    alwaysActive: bool,
    selective: bool,
    caseSensitive: bool,
    insertOrder: int,
    priority: int)

  datatype Card = Card(lorebook: seq<LoreEntry>, scanDepth: nat, recursive: bool, fullWord: bool)

  /** The parts of the matcher that are given as tables or digests. */
  datatype Oracles = Oracles(
    alphabet: Alphabet,
    count: string -> Option<nat>,
    number: string -> Option<int>,
    draw: (string, string, nat) -> nat)

  // ---------------------------------------------------------------- decorator lines

  predicate LineBoundary(c: char) {
    c in "\n\r" || c in ['\U{B}', '\U{C}', '\U{1C}', '\U{1D}', '\U{1E}', '\U{85}', '\U{2028}', '\U{2029}']
  }

  /** The length of the first line, its boundary excluded. */
  function LineLength(s: string): (n: nat)
    ensures n <= |s| && (n < |s| ==> LineBoundary(s[n])) && forall i | 0 <= i < n :: !LineBoundary(s[i])
  {
    if s == "" || LineBoundary(s[0]) then 0 else 1 + LineLength(s[1..])
  }

  /** A boundary is one character, or a carriage return with its newline. */
  function AfterLine(s: string): (rest: string)
    ensures s != "" ==> |rest| < |s|
  {
    var n := LineLength(s);
    if n == |s| then ""
    else if s[n] == '\r' && n + 1 < |s| && s[n + 1] == '\n' then s[n + 2..]
    else s[n + 1..]
  }

  function Lines(s: string): seq<string>
    decreases |s|
  {
    if s == "" then [] else [s[..LineLength(s)]] + Lines(AfterLine(s))
  }

  predicate IsDecorator(a: Alphabet, line: string) {
    var t := Trim(a, line);
    |t| >= 2 && t[..2] == "@@"
  }

  function Words(a: Alphabet, s: string): seq<string> { WordsFrom(a, "", s) }

  function WordsFrom(a: Alphabet, word: string, s: string): seq<string>
    decreases |s|
  {
    var head := if word == "" then [] else [word];
    if s == "" then head
    else if a.isSpace(s[0]) then head + WordsFrom(a, "", s[1..])
    else WordsFrom(a, word + [s[0]], s[1..])
  }

  datatype Decorators = Decorators(
    activateOnlyAfter: Option<nat>,
    activateOnlyEvery: Option<nat>,
    matchFullWord: bool,
    matchPartialWord: bool,
    probability: Option<int>)

  const PLAIN := Decorators(None, None, false, false, None)

  function Decorate(o: Oracles, d: Decorators, line: string): Decorators
    requires IsDecorator(o.alphabet, line)
  {
    var words := Words(o.alphabet, Trim(o.alphabet, line)[2..]);
    var name := if words == [] then "" else words[0];
    var count := if |words| < 2 then None else o.count(words[1]);
    match name
    case "activate_only_after" => d.(activateOnlyAfter := count)
    case "activate_only_every" => d.(activateOnlyEvery := count)
    case "match_full_word" => d.(matchFullWord := true)
    case "match_partial_word" => d.(matchPartialWord := true)
    case "probability" => d.(probability := if |words| < 2 then None else o.number(words[1]))
    case _ => d
  }

  function DecorateAll(o: Oracles, d: Decorators, lines: seq<string>): Decorators
    decreases |lines|
  {
    if lines == [] || !IsDecorator(o.alphabet, lines[0]) then d
    else DecorateAll(o, Decorate(o, d, lines[0]), lines[1..])
  }

  lemma {:induction false} DecorateAllAppend(o: Oracles, d: Decorators, head: seq<string>, tail: seq<string>)
    requires forall line | line in head :: IsDecorator(o.alphabet, line)
    ensures DecorateAll(o, d, head + tail) == DecorateAll(o, DecorateAll(o, d, head), tail)
    decreases |head|
  {
    if head == [] {
      assert head + tail == tail;
    } else {
      assert head[0] in head && (head + tail)[0] == head[0] && (head + tail)[1..] == head[1..] + tail;
      DecorateAllAppend(o, Decorate(o, d, head[0]), head[1..], tail);
    }
  }

  /** The decorator lines before the first other line. */
  function LeadingDecorators(a: Alphabet, lines: seq<string>): seq<string> {
    if lines != [] && IsDecorator(a, lines[0]) then [lines[0]] + LeadingDecorators(a, lines[1..]) else []
  }

  /** Every line is either a leading decorator or visible. */
  lemma {:induction false} LinesSplit(a: Alphabet, lines: seq<string>)
    ensures LeadingDecorators(a, lines) + SkipDecorators(a, lines) == lines
    ensures forall line | line in LeadingDecorators(a, lines) :: IsDecorator(a, line)
    ensures SkipDecorators(a, lines) != [] ==> !IsDecorator(a, SkipDecorators(a, lines)[0])
  {
    if lines != [] && IsDecorator(a, lines[0]) { LinesSplit(a, lines[1..]); }
  }

  /** So what stands after the first other line decorates nothing. */
  lemma OnlyLeadingLinesDecorate(o: Oracles, lines: seq<string>)
    ensures DecorateAll(o, PLAIN, lines) == DecorateAll(o, PLAIN, LeadingDecorators(o.alphabet, lines))
  {
    LinesSplit(o.alphabet, lines);
    DecorateAllAppend(o, PLAIN, LeadingDecorators(o.alphabet, lines), SkipDecorators(o.alphabet, lines));
  }

  /** Reads leading decorator lines and stops at the first other line. */
  method ParseDecorators(o: Oracles, content: string) returns (d: Decorators)
    ensures d == DecorateAll(o, PLAIN, LeadingDecorators(o.alphabet, Lines(content)))
    ensures d == DecorateAll(o, PLAIN, Lines(content))
  {
    OnlyLeadingLinesDecorate(o, Lines(content));
    d := PLAIN;
    var remainder := content;
    while remainder != ""
      invariant DecorateAll(o, PLAIN, Lines(content)) == DecorateAll(o, d, Lines(remainder))
      decreases |remainder|
    {
      var line := remainder[..LineLength(remainder)];
      if !IsDecorator(o.alphabet, line) {
        return;
      }
      d := Decorate(o, d, line);
      remainder := AfterLine(remainder);
    }
  }

  function SkipDecorators(a: Alphabet, lines: seq<string>): seq<string> {
    if lines != [] && IsDecorator(a, lines[0]) then SkipDecorators(a, lines[1..]) else lines
  }

  function JoinLines(lines: seq<string>): string {
    if lines == [] then "" else if |lines| == 1 then lines[0] else lines[0] + "\n" + JoinLines(lines[1..])
  }

  function VisibleContent(a: Alphabet, entry: LoreEntry): string {
    JoinLines(SkipDecorators(a, Lines(entry.content)))
  }

  // ---------------------------------------------------------------- what lines, words and decorators are

  /** A line break ends a line: any of the boundary characters, a carriage return together with its newline. */
  lemma LinesBreak(p: string, c: char, q: string)
    requires forall x | x in p :: !LineBoundary(x)
    requires c in "\n\r" || c in ['\U{B}', '\U{C}', '\U{1C}', '\U{1D}', '\U{1E}', '\U{85}', '\U{2028}', '\U{2029}']
    ensures Lines(p + [c] + q) == [p] + Lines(if c == '\r' && q != "" && q[0] == '\n' then q[1..] else q)
  {
    var s := p + [c] + q;
    assert s[|p|] == c;
    FirstLine(p, c, q);
    assert s[..|p|] == p && s[|p| + 1..] == q;
    if c == '\r' && q != "" && q[0] == '\n' { assert s[|p| + 1] == '\n' && s[|p| + 2..] == q[1..]; }
  }

  lemma {:induction false} FirstLine(p: string, c: char, q: string)
    requires (forall x | x in p :: !LineBoundary(x)) && LineBoundary(c)
    ensures LineLength(p + [c] + q) == |p|
  {
    if p != "" {
      assert (p + [c] + q)[1..] == p[1..] + [c] + q && (p + [c] + q)[0] == p[0];
      FirstLine(p[1..], c, q);
    } else {
      assert (p + [c] + q)[0] == c;
    }
  }

  lemma {:induction false} LinesOfOne(p: string)
    requires forall x | x in p :: x !in "\n\r" && !LineBoundary(x)
    ensures Lines(p) == if p == "" then [] else [p]
  {
    WholeLine(p);
    assert p[..|p|] == p;
  }

  lemma {:induction false} WholeLine(p: string)
    requires forall x | x in p :: !LineBoundary(x)
    ensures LineLength(p) == |p|
  {
    if p != "" { WholeLine(p[1..]); }
  }

  /** A space ends a word, and blanks are no words. */
  lemma {:induction false} WordsSplit(a: Alphabet, word: string, p: string, c: char, q: string)
    requires a.isSpace(c)
    ensures WordsFrom(a, word, p + [c] + q) == WordsFrom(a, word, p) + Words(a, q)
    decreases |p|
  {
    var s := p + [c] + q;
    if p == "" {
      assert s[0] == c && s[1..] == q;
    } else {
      assert s[0] == p[0] && s[1..] == p[1..] + [c] + q;
      WordsSplit(a, if a.isSpace(p[0]) then "" else word + [p[0]], p[1..], c, q);
    }
  }

  lemma {:induction false} OneWord(a: Alphabet, word: string, p: string)
    requires forall x | x in p :: !a.isSpace(x)
    ensures WordsFrom(a, word, p) == if word + p == "" then [] else [word + p]
    decreases |p|
  {
    if p == "" {
      assert word + p == word;
    } else {
      assert word + [p[0]] + p[1..] == word + p;
      OneWord(a, word + [p[0]], p[1..]);
    }
  }

  /** A decorator line, as it is written: two at signs, a name, and perhaps a space and an argument. */
  function DecoratorLine(name: string, argument: string): string {
    "@@" + name + if argument == "" then "" else " " + argument
  }

  ghost predicate Unspaced(a: Alphabet, s: string) { forall c | c in s :: !a.isSpace(c) }

  lemma DecoratorIsRead(a: Alphabet, name: string, argument: string)
    requires a.isSpace(' ') && Unspaced(a, "@@" + name) && Unspaced(a, argument)
    ensures var line := DecoratorLine(name, argument);
      && IsDecorator(a, line)
      && Words(a, Trim(a, line)[2..]) ==
           (if name == "" then [] else [name]) + (if argument == "" then [] else [argument])
  {
    var line := DecoratorLine(name, argument);
    DecoratorIsTrimmed(a, name, argument);
    forall c | c in name ensures !a.isSpace(c) { assert c in "@@" + name; }
    WordsOfTwo(a, name, argument);
    assert line[2..] == name + if argument == "" then "" else " " + argument;
  }

  lemma DecoratorIsTrimmed(a: Alphabet, name: string, argument: string)
    requires Unspaced(a, "@@" + name) && Unspaced(a, argument)
    ensures var line := DecoratorLine(name, argument); |line| >= 2 && line[..2] == "@@" && Trim(a, line) == line
  {
    var line := DecoratorLine(name, argument);
    assert line[0] == '@' && line[0] in "@@" + name;
    assert !a.isSpace(line[|line| - 1]) by {
      if argument == "" { assert line[|line| - 1] in "@@" + name; } else { assert line[|line| - 1] in argument; }
    }
  }

  lemma WordsOfTwo(a: Alphabet, name: string, argument: string)
    requires a.isSpace(' ') && Unspaced(a, name) && Unspaced(a, argument)
    ensures Words(a, name + if argument == "" then "" else " " + argument) ==
      (if name == "" then [] else [name]) + (if argument == "" then [] else [argument])
  {
    hide WordsFrom;
    OneWord(a, "", name);
    OneWord(a, "", argument);
    assert "" + name == name && "" + argument == argument;
    if argument == "" {
      assert name + "" == name;
    } else {
      assert name + (" " + argument) == name + [' '] + argument;
      WordsSplit(a, "", name, ' ', argument);
    }
  }

  /** What the decorators say: the five names set what they name, the last one that says a thing wins, and any other
      name says nothing. */
  lemma DecoratorsSay(o: Oracles, d: Decorators, name: string, argument: string)
    requires o.alphabet.isSpace(' ') && Unspaced(o.alphabet, "@@" + name) && Unspaced(o.alphabet, argument)
    requires name != ""
    ensures var e := Decorate(o, d, DecoratorLine(name, argument));
      && IsDecorator(o.alphabet, DecoratorLine(name, argument))
      && e.matchFullWord == (d.matchFullWord || name == "match_full_word")
      && e.matchPartialWord == (d.matchPartialWord || name == "match_partial_word")
      && e.activateOnlyAfter == (if name != "activate_only_after" then d.activateOnlyAfter
                                 else if argument == "" then None else o.count(argument))
      && e.activateOnlyEvery == (if name != "activate_only_every" then d.activateOnlyEvery
                                 else if argument == "" then None else o.count(argument))
      && e.probability == (if name != "probability" then d.probability
                           else if argument == "" then None else o.number(argument))
  {
    hide Words, Trim, IsDecorator, DecoratorLine, Unspaced;
    DecoratorIsRead(o.alphabet, name, argument);
    var words := Words(o.alphabet, Trim(o.alphabet, DecoratorLine(name, argument))[2..]);
    assert words == if argument == "" then [name] else [name, argument];
  }

  /** Content is shown as it is, but for its leading decorator lines: a decorator line before it changes nothing
      about what is shown, and any other line is kept. */
  lemma DecoratorsAreNotShown(a: Alphabet, entry: LoreEntry, line: string, rest: string)
    requires entry.content == line + "\n" + rest && forall x | x in line :: !LineBoundary(x)
    ensures VisibleContent(a, entry) ==
      if IsDecorator(a, line) then VisibleContent(a, entry.(content := rest))
      else line + if Lines(rest) == [] then "" else "\n" + JoinLines(Lines(rest))
  {
    hide IsDecorator, Lines, LineBoundary;
    assert line + "\n" + rest == line + ['\n'] + rest;
    LinesBreak(line, '\n', rest);
    var lines := [line] + Lines(rest);
    assert lines[0] == line && lines[1..] == Lines(rest);
  }

  // ---------------------------------------------------------------- one entry

  predicate Gated(o: Oracles, entry: LoreEntry, hasRecent: bool, index: nat) {
    var d := DecorateAll(o, PLAIN, Lines(entry.content));
    var turns := if hasRecent then 1 else 0;
    && entry.enabled && entry.content != "" && !entry.useRegex
    && (d.activateOnlyAfter.Some? ==> turns >= d.activateOnlyAfter.value)
    && (d.activateOnlyEvery.Some? ==> d.activateOnlyEvery.value != 0 && turns % d.activateOnlyEvery.value == 0)
    && (d.probability.Some? ==>
          d.probability.value > 0 &&
          (d.probability.value < 100 ==> o.draw(entry.key, entry.content, index) % 100 < d.probability.value))
  }

  function FullWord(o: Oracles, card: Card, entry: LoreEntry): bool {
    var d := DecorateAll(o, PLAIN, Lines(entry.content));
    d.matchFullWord || (!d.matchPartialWord && card.fullWord)
  }

  ghost predicate AnyHit(o: Oracles, card: Card, entry: LoreEntry, keywords: seq<string>, text: string) {
    exists k :: k in keywords && Hit(o.alphabet, text, k, !entry.caseSensitive, FullWord(o, card, entry))
  }

  /** When an entry is activated by a text. */
  ghost predicate Activates(o: Oracles, card: Card, text: string, hasRecent: bool, index: nat)
    requires index < |card.lorebook|
  {
    var entry := card.lorebook[index];
    var primary := Keywords(o.alphabet, entry.key);
    var secondary := Keywords(o.alphabet, entry.secondaryKey);
    && Gated(o, entry, hasRecent, index)
    && (entry.alwaysActive ||
        var p, s := AnyHit(o, card, entry, primary, text), AnyHit(o, card, entry, secondary, text);
        if entry.selective && secondary != [] then p && s else p || s)
  }

  method AnyKeyword(o: Oracles, card: Card, entry: LoreEntry, keywords: seq<string>, context: string, folded: string)
    returns (found: bool)
    requires o.alphabet.Lawful() && folded == o.alphabet.Fold(context)
    ensures found <==> AnyHit(o, card, entry, keywords, context)
  {
    var fullWord := FullWord(o, card, entry);
    ghost var ignoreCase := !entry.caseSensitive;
    var i := 0;
    while i < |keywords|
      invariant i <= |keywords|
      invariant forall j | 0 <= j < i :: !Hit(o.alphabet, context, keywords[j], ignoreCase, fullWord)
    {
      found := LiteralMatch(o.alphabet, context, folded, keywords[i], entry.caseSensitive, fullWord);
      if found {
        assert keywords[i] in keywords;
        return;
      }
      i := i + 1;
    }
    return false;
  }

  method LoreMatches(o: Oracles, card: Card, context: string, folded: string, hasRecent: bool, index: nat)
    returns (active: bool)
    requires o.alphabet.Lawful() && folded == o.alphabet.Fold(context) && index < |card.lorebook|
    ensures active <==> index in ActiveIn(o, card, context, hasRecent, |card.lorebook|)
  {
    ActiveInMember(o, card, context, hasRecent, |card.lorebook|, index);
    var entry := card.lorebook[index];
    if !Gated(o, entry, hasRecent, index) {
      return false;
    }
    if entry.alwaysActive {
      return true;
    }
    var primary := Keywords(o.alphabet, entry.key);
    var secondary := Keywords(o.alphabet, entry.secondaryKey);
    if primary == [] && secondary == [] {
      return false;
    }
    var p := AnyKeyword(o, card, entry, primary, context, folded);
    var s := AnyKeyword(o, card, entry, secondary, context, folded);
    return if entry.selective && secondary != [] then p && s else p || s;
  }

  // ---------------------------------------------------------------- the scan

  /** The entries before `n` that a text activates. */
  ghost function ActiveIn(o: Oracles, card: Card, text: string, hasRecent: bool, n: nat): (r: set<nat>)
    requires n <= |card.lorebook|
    ensures forall i | i in r :: i < n
  {
    if n == 0 then {}
    else
      var before := ActiveIn(o, card, text, hasRecent, n - 1);
      if Activates(o, card, text, hasRecent, n - 1) then before + {n - 1} else before
  }

  lemma {:induction false} ActiveInMember(o: Oracles, card: Card, text: string, hasRecent: bool, n: nat, i: nat)
    requires i < n <= |card.lorebook|
    ensures i in ActiveIn(o, card, text, hasRecent, n) <==> Activates(o, card, text, hasRecent, i)
  {
    hide Activates;
    if i < n - 1 { ActiveInMember(o, card, text, hasRecent, n - 1, i); }
  }

  /** The text searched once `selected` is active: the recent text, then each active entry's visible
      content on its own line, in lorebook order, up to entry `n`. */
  ghost function SearchText(o: Oracles, card: Card, recent: string, selected: set<nat>, n: nat): string
    requires n <= |card.lorebook|
  {
    if n == 0 then recent
    else
      var before := SearchText(o, card, recent, selected, n - 1);
      if n - 1 in selected then before + "\n" + VisibleContent(o.alphabet, card.lorebook[n - 1]) else before
  }

  ghost function TextOf(o: Oracles, card: Card, recent: string, selected: set<nat>): string {
    SearchText(o, card, recent, selected, |card.lorebook|)
  }

  /** Every entry that the text of a selection activates. */
  ghost function Triggered(o: Oracles, card: Card, recent: string, selected: set<nat>): set<nat> {
    ActiveIn(o, card, TextOf(o, card, recent, selected), recent != "", |card.lorebook|)
  }

  /** One round as a function of the selection; `Iterate` and `Closed` speak of any such function. */
  ghost function Scan(o: Oracles, card: Card, recent: string): set<nat> -> set<nat> {
    selected => Triggered(o, card, recent, selected)
  }

  ghost function Iterate(scan: set<nat> -> set<nat>, rounds: nat): set<nat> {
    if rounds == 0 then {}
    else
      var before := Iterate(scan, rounds - 1);
      before + scan(before)
  }

  /** Closed: everything the text of a selection activates is already in it. */
  ghost predicate Closed(scan: set<nat> -> set<nat>, selected: set<nat>) { scan(selected) <= selected }

  ghost predicate Monotone(scan: set<nat> -> set<nat>) {
    forall smaller, larger | smaller <= larger :: scan(smaller) <= scan(larger)
  }

  ghost predicate Within(scan: set<nat> -> set<nat>, n: nat) {
    forall selected, i | i in scan(selected) :: i < n
  }

  function Rounds(card: Card): nat {
    if !card.recursive then 1
    else if card.scanDepth < 1 then 1
    else if card.scanDepth > MAX_RECURSIVE_SCAN_DEPTH then MAX_RECURSIVE_SCAN_DEPTH
    else card.scanDepth
  }

  /** Scanning is once over unless it recurses, and then as deep as asked, from one round to eight. */
  lemma RoundsAre(card: Card)
    ensures 1 <= Rounds(card) <= 8 && (!card.recursive ==> Rounds(card) == 1)
    ensures card.recursive && 1 <= card.scanDepth <= 8 ==> Rounds(card) == card.scanDepth
    ensures card.recursive && card.scanDepth > 8 ==> Rounds(card) == 8
  {
  }

  /** A room has had one turn or none. So an entry's gate is open if the entry counts at all, waits for no turn or for
      the one there was, comes up every turn or on none, and its lot, of a hundred, is drawn. */
  lemma GateOpens(o: Oracles, entry: LoreEntry, hasRecent: bool, index: nat)
    ensures var d := DecorateAll(o, PLAIN, LeadingDecorators(o.alphabet, Lines(entry.content)));
      Gated(o, entry, hasRecent, index) <==>
        && entry.enabled && entry.content != "" && !entry.useRegex
        && (d.activateOnlyAfter in {None, Some(0)} || (hasRecent && d.activateOnlyAfter == Some(1)))
        && (d.activateOnlyEvery in {None, Some(1)} ||
            (!hasRecent && d.activateOnlyEvery.Some? && d.activateOnlyEvery.value > 1))
        && (d.probability.Some? && d.probability.value < 100 ==>
              o.draw(entry.key, entry.content, index) % 100 < d.probability.value)
  {
    hide Lines, LeadingDecorators, DecorateAll, IsDecorator;
    OnlyLeadingLinesDecorate(o, Lines(entry.content));
    var d := DecorateAll(o, PLAIN, Lines(entry.content));
    if d.activateOnlyEvery.Some? { OneIsDue(d.activateOnlyEvery.value); }
  }

  lemma OneIsDue(every: nat)
    ensures every != 0 ==> (1 % every == 0 <==> every == 1) && 0 % every == 0
  {
    if every > 1 { assert 1 % every == 1; }
  }

  /** A keyword of a text of keys stands in the text that is searched. */
  ghost predicate Finds(o: Oracles, keys: string, text: string, ignoreCase: bool, fullWord: bool) {
    exists k :: k in Keywords(o.alphabet, keys) && Hit(o.alphabet, text, k, ignoreCase, fullWord)
  }

  /** An entry whose gate is open is in the scan when it is always active, or else when its keys are found: either
      kind will do, but a selective entry with secondary keys needs both. Words are matched whole when a decorator
      says so, or when none says otherwise and the card does. */
  lemma EntryIsActive(o: Oracles, card: Card, text: string, hasRecent: bool, i: nat)
    requires i < |card.lorebook|
    ensures var entry := card.lorebook[i];
      var d := DecorateAll(o, PLAIN, Lines(entry.content));
      var whole := if card.fullWord then d.matchFullWord || !d.matchPartialWord else d.matchFullWord;
      var first := Finds(o, entry.key, text, !entry.caseSensitive, whole);
      var second := Finds(o, entry.secondaryKey, text, !entry.caseSensitive, whole);
      i in ActiveIn(o, card, text, hasRecent, |card.lorebook|) <==>
        && Gated(o, entry, hasRecent, i)
        && (|| entry.alwaysActive
            || (first && second)
            || ((first || second) && (!entry.selective || Keywords(o.alphabet, entry.secondaryKey) == [])))
  {
    hide Gated, Keywords, Hit;
    ActiveInMember(o, card, text, hasRecent, |card.lorebook|, i);
    var entry := card.lorebook[i];
    var whole := FullWord(o, card, entry);
    assert AnyHit(o, card, entry, Keywords(o.alphabet, entry.key), text) ==
      Finds(o, entry.key, text, !entry.caseSensitive, whole);
    assert AnyHit(o, card, entry, Keywords(o.alphabet, entry.secondaryKey), text) ==
      Finds(o, entry.secondaryKey, text, !entry.caseSensitive, whole);
  }

  ghost predicate SelectedHit(o: Oracles, card: Card, selected: set<nat>, n: nat,
                              keyword: string, ignoreCase: bool, fullWord: bool)
    requires n <= |card.lorebook|
  {
    n > 0 &&
    (SelectedHit(o, card, selected, n - 1, keyword, ignoreCase, fullWord) ||
     (n - 1 in selected &&
      Hit(o.alphabet, VisibleContent(o.alphabet, card.lorebook[n - 1]), keyword, ignoreCase, fullWord)))
  }

  /** A keyword has no newline, so it is found in the joined text exactly when it is found in one part. */
  lemma {:induction false} SearchTextHit(o: Oracles, card: Card, recent: string, selected: set<nat>, n: nat,
                                         keyword: string, ignoreCase: bool, fullWord: bool)
    requires o.alphabet.Lawful() && '\n' !in keyword && n <= |card.lorebook|
    ensures Hit(o.alphabet, SearchText(o, card, recent, selected, n), keyword, ignoreCase, fullWord)
       <==> (Hit(o.alphabet, recent, keyword, ignoreCase, fullWord)
             || SelectedHit(o, card, selected, n, keyword, ignoreCase, fullWord))
  {
    if n > 0 {
      SearchTextHit(o, card, recent, selected, n - 1, keyword, ignoreCase, fullWord);
      if n - 1 in selected {
        HitJoin(o.alphabet, SearchText(o, card, recent, selected, n - 1),
                VisibleContent(o.alphabet, card.lorebook[n - 1]), keyword, ignoreCase, fullWord);
      }
    }
  }

  lemma {:induction false} SelectedHitMonotone(o: Oracles, card: Card, smaller: set<nat>, larger: set<nat>, n: nat,
                                               keyword: string, ignoreCase: bool, fullWord: bool)
    requires n <= |card.lorebook| && smaller <= larger
    requires SelectedHit(o, card, smaller, n, keyword, ignoreCase, fullWord)
    ensures SelectedHit(o, card, larger, n, keyword, ignoreCase, fullWord)
  {
    if SelectedHit(o, card, smaller, n - 1, keyword, ignoreCase, fullWord) {
      SelectedHitMonotone(o, card, smaller, larger, n - 1, keyword, ignoreCase, fullWord);
    }
  }

  lemma AnyHitMonotone(o: Oracles, card: Card, entry: LoreEntry, keywords: seq<string>, recent: string,
                       smaller: set<nat>, larger: set<nat>)
    requires o.alphabet.Lawful() && smaller <= larger && forall k | k in keywords :: '\n' !in k
    requires AnyHit(o, card, entry, keywords, TextOf(o, card, recent, smaller))
    ensures AnyHit(o, card, entry, keywords, TextOf(o, card, recent, larger))
  {
    var ignoreCase, fullWord, n := !entry.caseSensitive, FullWord(o, card, entry), |card.lorebook|;
    var k :| k in keywords && Hit(o.alphabet, TextOf(o, card, recent, smaller), k, ignoreCase, fullWord);
    SearchTextHit(o, card, recent, smaller, n, k, ignoreCase, fullWord);
    SearchTextHit(o, card, recent, larger, n, k, ignoreCase, fullWord);
    if SelectedHit(o, card, smaller, n, k, ignoreCase, fullWord) {
      SelectedHitMonotone(o, card, smaller, larger, n, k, ignoreCase, fullWord);
    }
  }

  /** More active entries never deactivate one. */
  lemma ActivationMonotone(o: Oracles, card: Card, recent: string, smaller: set<nat>, larger: set<nat>)
    requires o.alphabet.Lawful() && smaller <= larger
    ensures Triggered(o, card, recent, smaller) <= Triggered(o, card, recent, larger)
  {
    var few, many := TextOf(o, card, recent, smaller), TextOf(o, card, recent, larger);
    forall i | i in Triggered(o, card, recent, smaller) ensures i in Triggered(o, card, recent, larger) {
      var entry := card.lorebook[i];
      var primary, secondary := Keywords(o.alphabet, entry.key), Keywords(o.alphabet, entry.secondaryKey);
      ActiveInMember(o, card, few, recent != "", |card.lorebook|, i);
      ActiveInMember(o, card, many, recent != "", |card.lorebook|, i);
      if AnyHit(o, card, entry, primary, few) {
        AnyHitMonotone(o, card, entry, primary, recent, smaller, larger);
      }
      if AnyHit(o, card, entry, secondary, few) {
        AnyHitMonotone(o, card, entry, secondary, recent, smaller, larger);
      }
    }
  }

  lemma ScanIsMonotone(o: Oracles, card: Card, recent: string)
    requires o.alphabet.Lawful()
    ensures Monotone(Scan(o, card, recent)) && Within(Scan(o, card, recent), |card.lorebook|)
  {
    forall smaller, larger | smaller <= larger
      ensures Scan(o, card, recent)(smaller) <= Scan(o, card, recent)(larger)
    {
      ActivationMonotone(o, card, recent, smaller, larger);
    }
  }

  /** Every iterate lies inside every closed selection. */
  lemma {:induction false} IterateInsideClosed(scan: set<nat> -> set<nat>, rounds: nat, closed: set<nat>)
    requires Monotone(scan) && Closed(scan, closed)
    ensures Iterate(scan, rounds) <= closed
  {
    if rounds > 0 { IterateInsideClosed(scan, rounds - 1, closed); }
  }

  lemma {:induction false} ClosedStays(scan: set<nat> -> set<nat>, from: nat, to: nat)
    requires from <= to && Closed(scan, Iterate(scan, from))
    ensures Iterate(scan, to) == Iterate(scan, from)
  {
    if from < to { ClosedStays(scan, from, to - 1); }
  }

  ghost function Upto(n: nat): (r: set<nat>)
    ensures |r| == n
    ensures forall i: nat :: i in r <==> i < n
  {
    if n == 0 then {} else Upto(n - 1) + {n - 1}
  }

  lemma SubsetSize(small: set<nat>, large: set<nat>)
    requires small <= large
    ensures |small| <= |large|
    ensures small != large ==> |small| < |large|
  {
    assert large == small + (large - small) && |large| == |small| + |large - small|;
  }

  /** While a scan has not closed, every round adds an entry. */
  lemma {:induction false} IterateGrows(scan: set<nat> -> set<nat>, rounds: nat, n: nat)
    requires Within(scan, n)
    ensures Iterate(scan, rounds) <= Upto(n)
    ensures |Iterate(scan, rounds)| >= rounds || Closed(scan, Iterate(scan, rounds))
  {
    if rounds > 0 {
      var before, now := Iterate(scan, rounds - 1), Iterate(scan, rounds);
      IterateGrows(scan, rounds - 1, n);
      SubsetSize(before, now);
      if Closed(scan, before) { assert now == before; }
      else { assert !(now <= before); }
    }
  }

  /** A lorebook no longer than the number of rounds is always scanned to a closed selection. */
  lemma EnoughRoundsClose(scan: set<nat> -> set<nat>, rounds: nat, n: nat)
    requires Within(scan, n) && n <= rounds
    ensures Closed(scan, Iterate(scan, rounds))
  {
    IterateGrows(scan, rounds, n);
    SubsetSize(Iterate(scan, rounds), Upto(n));
    forall i | i in scan(Iterate(scan, rounds)) ensures i in Upto(n) {}
  }

  /** One pass over the lorebook against the text of the selection it started from. */
  method ScanRound(o: Oracles, card: Card, recent: string, searchText: string, start: set<nat>)
    returns (selected: set<nat>, added: bool)
    requires o.alphabet.Lawful() && searchText == TextOf(o, card, recent, start)
    ensures selected == start + Scan(o, card, recent)(start)
    ensures added <==> !Closed(Scan(o, card, recent), start)
  {
    ghost var active := ActiveIn(o, card, searchText, recent != "", |card.lorebook|);
    selected, added := start, false;
    var folded := o.alphabet.Fold(searchText);
    for index := 0 to |card.lorebook|
      invariant forall i: nat :: i in selected <==> i in start || (i < index && i in active)
      invariant !added ==> selected == start
      invariant added ==> exists i :: i in selected && i !in start
    {
      if index !in selected {
        var matched := LoreMatches(o, card, searchText, folded, recent != "", index);
        if matched {
          selected, added := selected + {index}, true;
          assert index in selected && index !in start;
        }
      }
    }
    assert active == Scan(o, card, recent)(start);
    assert selected == start + active;
  }

  method JoinSelected(o: Oracles, card: Card, recent: string, selected: set<nat>) returns (searchText: string)
    ensures searchText == TextOf(o, card, recent, selected)
  {
    searchText := recent;
    for index := 0 to |card.lorebook|
      invariant searchText == SearchText(o, card, recent, selected, index)
    {
      if index in selected {
        searchText := searchText + "\n" + VisibleContent(o.alphabet, card.lorebook[index]);
      }
    }
  }

  lemma {:induction false} SearchTextOfNone(o: Oracles, card: Card, recent: string, n: nat)
    requires n <= |card.lorebook|
    ensures SearchText(o, card, recent, {}, n) == recent
  {
    if n > 0 { SearchTextOfNone(o, card, recent, n - 1); }
  }

  lemma IterateIsBest(o: Oracles, card: Card, recent: string, rounds: nat)
    requires o.alphabet.Lawful()
    ensures Iterate(Scan(o, card, recent), rounds) <= Upto(|card.lorebook|)
    ensures forall c | Closed(Scan(o, card, recent), c) :: Iterate(Scan(o, card, recent), rounds) <= c
    ensures |card.lorebook| <= rounds ==> Closed(Scan(o, card, recent), Iterate(Scan(o, card, recent), rounds))
  {
    var scan := Scan(o, card, recent);
    ScanIsMonotone(o, card, recent);
    forall c | Closed(scan, c) ensures Iterate(scan, rounds) <= c {
      IterateInsideClosed(scan, rounds, c);
    }
    if |card.lorebook| <= rounds { EnoughRoundsClose(scan, rounds, |card.lorebook|); }
    IterateGrows(scan, rounds, |card.lorebook|);
  }

  /** Some round up to this one added nothing. */
  ghost predicate Settles(scan: set<nat> -> set<nat>, rounds: nat) {
    exists r: nat :: 0 < r <= rounds && Iterate(scan, r) == Iterate(scan, r - 1)
  }

  /** Once a round adds nothing the selection is closed, and stays. */
  lemma SettledIsClosed(scan: set<nat> -> set<nat>, rounds: nat)
    requires Settles(scan, rounds)
    ensures Closed(scan, Iterate(scan, rounds))
  {
    var r: nat :| 0 < r <= rounds && Iterate(scan, r) == Iterate(scan, r - 1);
    assert Closed(scan, Iterate(scan, r - 1));
    ClosedStays(scan, r - 1, rounds);
  }

  method RunRounds(o: Oracles, card: Card, recent: string) returns (selected: set<nat>)
    requires o.alphabet.Lawful()
    ensures selected == Iterate(Scan(o, card, recent), Rounds(card))
  {
    var searchText := recent;
    selected := {};
    SearchTextOfNone(o, card, recent, |card.lorebook|);
    for round := 0 to Rounds(card)
      invariant selected == Iterate(Scan(o, card, recent), round)
      invariant searchText == TextOf(o, card, recent, selected)
    {
      var after, added := ScanRound(o, card, recent, searchText, selected);
      if !added {
        ClosedStays(Scan(o, card, recent), round, Rounds(card));
        return;
      }
      selected := after;
      searchText := JoinSelected(o, card, recent, selected);
    }
  }

  /** The scan returns the rounds-fold iterate. It lies inside every closed selection, and when a round
      added nothing, or the lorebook is short, it is itself closed: the least closed selection. */
  method ScanLore(o: Oracles, card: Card, recent: string) returns (selected: set<nat>)
    requires o.alphabet.Lawful()
    ensures selected == Iterate(Scan(o, card, recent), Rounds(card))
    ensures Settles(Scan(o, card, recent), Rounds(card)) || |card.lorebook| <= Rounds(card) ==>
      Closed(Scan(o, card, recent), selected)
    ensures forall c | Closed(Scan(o, card, recent), c) :: selected <= c
    ensures selected <= Upto(|card.lorebook|)
  {
    selected := RunRounds(o, card, recent);
    if Settles(Scan(o, card, recent), Rounds(card)) { SettledIsClosed(Scan(o, card, recent), Rounds(card)); }
    IterateIsBest(o, card, recent, Rounds(card));
  }
}
