/** Vote commands on the wire: what parsing accepts, when a command survives being written and read
    again, and which option a ballot's text names. */
module Vote {
  import opened Wrappers
  import opened PersonaMatching

  const MIN_VOTE_DURATION_SECONDS := 30
  const MAX_VOTE_DURATION_SECONDS := 86400
  const VOTE_QUESTION_CHARACTER_LIMIT := 300
  const VOTE_OPTION_CHARACTER_LIMIT := 100
  const VOTE_CHOICE_CHARACTER_LIMIT := 200
  const MIN_VOTE_OPTIONS := 2
  const MAX_VOTE_OPTIONS := 10
  const MAX_MESSAGE_ATTACHMENTS_PER_EVENT := 8

  /** The character tables and identifier checks the parser rests on. */
  datatype Texts = Texts(
    alphabet: Alphabet,
    visible: char -> bool,
    isVoteId: string -> bool,
    isAttachmentId: string -> bool,
    index: string -> Option<nat>)

  datatype Rejection = BadRequest | InvalidKind | InvalidVote | InvalidChoice | InvalidDuration

  type Outcome<+T> = Result<T, Rejection>

  type Check = Guard<Rejection>

  function Require(condition: bool, rejection: Rejection): Check { if condition then Pass else Fail(rejection) }

  // ---------------------------------------------------------------- cleaning text

  function WithoutNul(s: string): (r: string)
    ensures '\0' !in r && |r| <= |s|
    ensures '\0' !in s ==> r == s
  {
    if s == "" then "" else (if s[0] == '\0' then "" else [s[0]]) + WithoutNul(s[1..])
  }

  /** Every carriage return, alone or before a newline, becomes one newline. */
  function Newlines(s: string): (r: string)
    ensures '\r' !in r && |r| <= |s|
    ensures '\0' !in s ==> '\0' !in r
    ensures '\r' !in s ==> r == s
    decreases |s|
  {
    if s == "" then ""
    else if s[0] == '\r' then "\n" + Newlines(if |s| > 1 && s[1] == '\n' then s[2..] else s[1..])
    else [s[0]] + Newlines(s[1..])
  }

  function Take(s: string, limit: nat): string { if |s| <= limit then s else s[..limit] }

  function CleanMessage(x: Texts, s: string, limit: nat): (r: string)
    ensures '\0' !in r && '\r' !in r && |r| <= limit
  {
    Take(Trim(x.alphabet, Newlines(WithoutNul(s))), limit)
  }

  /** A carriage return reads as a newline, and together with the newline after it as one. */
  lemma {:induction false} ReturnsAreNewlines(p: string, q: string)
    requires '\r' !in p
    ensures Newlines(p + "\r\n" + q) == p + "\n" + Newlines(q)
    ensures q == "" || q[0] != '\n' ==> Newlines(p + "\r" + q) == p + "\n" + Newlines(q)
  {
    var two, one := p + "\r\n" + q, p + "\r" + q;
    if p == "" {
      assert two[0] == '\r' && two[1] == '\n' && two[2..] == q;
      assert one[0] == '\r' && one[1..] == q;
    } else {
      assert two[0] == p[0] && two[1..] == p[1..] + "\r\n" + q;
      assert one[0] == p[0] && one[1..] == p[1..] + "\r" + q;
      ReturnsAreNewlines(p[1..], q);
    }
  }

  lemma {:induction false} NulsAreDropped(p: string, q: string)
    ensures WithoutNul(p + "\0" + q) == WithoutNul(p) + WithoutNul(q)
  {
    var s := p + "\0" + q;
    if p == "" {
      assert s[0] == '\0' && s[1..] == q;
    } else {
      assert s[0] == p[0] && s[1..] == p[1..] + "\0" + q;
      NulsAreDropped(p[1..], q);
    }
  }

  /** Cleaning drops NULs, unifies line ends, trims, and cuts to the limit, in this order. */
  lemma CleaningIs(x: Texts, s: string, limit: nat)
    ensures exists t | IsTrimmed(x.alphabet, Newlines(WithoutNul(s)), t) ::
      CleanMessage(x, s, limit) == if |t| <= limit then t else t[..limit]
  {
    TrimIs(x.alphabet, Newlines(WithoutNul(s)));
  }

  predicate HasVisibleText(x: Texts, s: string) { exists c :: c in s && x.visible(c) }

  predicate Fixed(x: Texts, s: string, limit: nat) { CleanMessage(x, s, limit) == s }

  lemma TrimShortens(a: Alphabet, s: string)
    ensures |Trim(a, s)| <= |s|
    ensures |Trim(a, s)| == |s| ==> Trim(a, s) == s
  {
    LeftShortens(a, s);
    RightShortens(a, TrimLeft(a, s));
  }

  lemma {:induction false} LeftShortens(a: Alphabet, s: string)
    ensures |TrimLeft(a, s)| <= |s| && (|TrimLeft(a, s)| == |s| ==> TrimLeft(a, s) == s)
  {
    if s != "" { LeftShortens(a, s[1..]); }
  }

  lemma {:induction false} RightShortens(a: Alphabet, s: string)
    ensures |TrimRight(a, s)| <= |s| && (|TrimRight(a, s)| == |s| ==> TrimRight(a, s) == s)
  {
    if s != "" { RightShortens(a, s[..|s| - 1]); }
  }

  /** For a text without NUL or carriage return that is short enough, cleaning is trimming. */
  lemma CleanIsTrim(x: Texts, s: string, limit: nat)
    requires '\0' !in s && '\r' !in s && |s| <= limit
    ensures CleanMessage(x, s, limit) == Trim(x.alphabet, s)
  {
    TrimShortens(x.alphabet, s);
  }

  lemma {:induction false} LeftTrimmed(a: Alphabet, s: string)
    ensures var r := TrimLeft(a, s); r != "" ==> !a.isSpace(r[0])
  {
    if s != "" { LeftTrimmed(a, s[1..]); }
  }

  lemma {:induction false} RightTrimmed(a: Alphabet, s: string)
    ensures var r := TrimRight(a, s);
      (r != "" ==> !a.isSpace(r[|r| - 1])) && r <= s
  {
    if s != "" && a.isSpace(s[|s| - 1]) { RightTrimmed(a, s[..|s| - 1]); }
  }

  lemma TrimTrimmed(a: Alphabet, s: string)
    ensures Trim(a, Trim(a, s)) == Trim(a, s)
  {
    LeftTrimmed(a, s);
    RightTrimmed(a, TrimLeft(a, s));
  }

  /** Cleaning twice is enough: truncation can leave a trailing space, and the second time removes it. */
  lemma CleanTwiceIsStable(x: Texts, s: string, limit: nat)
    ensures var twice := CleanMessage(x, CleanMessage(x, s, limit), limit); Fixed(x, twice, limit)
  {
    var once := CleanMessage(x, s, limit);
    CleanIsTrim(x, once, limit);
    var twice := CleanMessage(x, once, limit);
    CleanIsTrim(x, twice, limit);
    TrimTrimmed(x.alphabet, once);
  }

  function Repeat(c: char, n: nat): (r: string)
    ensures |r| == n && forall i | 0 <= i < n :: r[i] == c
  {
    if n == 0 then "" else Repeat(c, n - 1) + [c]
  }

  /** A text cut right after a space keeps the space, and loses it when it is cleaned again. */
  lemma CutAfterSpace(x: Texts, word: string, limit: nat)
    requires |word| + 1 == limit && word != "" && '\0' !in word && '\r' !in word
    requires x.alphabet.isSpace(' ') && !x.alphabet.isSpace('b')
    requires !x.alphabet.isSpace(word[0]) && !x.alphabet.isSpace(word[|word| - 1])
    ensures CleanMessage(x, word + " b", limit) == word + " " && CleanMessage(x, word + " ", limit) == word
  {
    var s, once := word + " b", word + " ";
    assert s[0] == word[0] && s[|s| - 1] == 'b' && s[..limit] == once;
    assert TrimLeft(x.alphabet, s) == s && TrimRight(x.alphabet, s) == s;
    CleanIsTrim(x, once, limit);
    assert once[0] == word[0] && once[..|once| - 1] == word;
    assert TrimLeft(x.alphabet, once) == once && TrimRight(x.alphabet, once) == TrimRight(x.alphabet, word) == word;
  }

  /** So cleaning once is not enough. */
  lemma CleanOnceIsNotStable(x: Texts, limit: nat) returns (s: string)
    requires limit >= 2 && x.alphabet.isSpace(' ') && !x.alphabet.isSpace('a') && !x.alphabet.isSpace('b')
    ensures !Fixed(x, CleanMessage(x, s, limit), limit)
  {
    var word := Repeat('a', limit - 1);
    s := word + " b";
    CutAfterSpace(x, word, limit);
  }

  ghost predicate IsCleaned(x: Texts, s: string, limit: nat) { exists raw :: s == CleanMessage(x, raw, limit) }

  predicate EndsInSpace(x: Texts, s: string) { s != "" && x.alphabet.isSpace(s[|s| - 1]) }

  /** What cleaning leaves has no leading space, so only a trailing one can still be taken from it. */
  lemma CleanedTrimsRight(x: Texts, s: string, limit: nat)
    requires IsCleaned(x, s, limit)
    ensures |s| <= limit && CleanMessage(x, s, limit) == Trim(x.alphabet, s) == TrimRight(x.alphabet, s)
  {
    var raw :| s == CleanMessage(x, raw, limit);
    var plain := Newlines(WithoutNul(raw));
    LeftTrimmed(x.alphabet, plain);
    RightTrimmed(x.alphabet, TrimLeft(x.alphabet, plain));
    CleanIsTrim(x, s, limit);
    if s != "" { assert s[0] == Trim(x.alphabet, plain)[0] == TrimLeft(x.alphabet, plain)[0]; }
  }

  /** A cleaned text is left alone by the next cleaning exactly when it does not end in a space. */
  lemma CleanedIsFixed(x: Texts, s: string, limit: nat)
    requires IsCleaned(x, s, limit)
    ensures Fixed(x, s, limit) <==> !EndsInSpace(x, s)
  {
    CleanedTrimsRight(x, s, limit);
    RightTrimmed(x.alphabet, s);
  }

  // ---------------------------------------------------------------- commands

  datatype VoteCommand =
    | Create(question: string, options: seq<string>, duration: nat, attachments: seq<string>)
    | Cast(voteId: string, choice: string)
    | Withdraw(voteId: string)
    | Close(voteId: string)

  datatype Name =
    | Kind | VoteQuestion | VoteOptions | VoteDurationSeconds | AttachmentIds | VoteId | VoteChoice
    | Other(text: string)

  datatype Field = Text(s: string) | Number(n: nat) | List(items: seq<Field>) | OtherField(text: string)

  datatype Payload = NotAnObject | Fields(fields: map<Name, Field>)

  function TextsOf(s: seq<string>): (r: seq<Field>)
    ensures |r| == |s| && forall i | 0 <= i < |s| :: r[i] == Text(s[i])
  {
    seq(|s|, i requires 0 <= i < |s| => Text(s[i]))
  }

  function ToPayload(c: VoteCommand): Payload {
    match c
    case Create(question, options, duration, attachments) =>
      Fields(map[VoteQuestion := Text(question), VoteOptions := List(TextsOf(options)),
        VoteDurationSeconds := Number(duration),
                 AttachmentIds := List(TextsOf(attachments)), Kind := Text("vote")])
    case Cast(voteId, choice) =>
      Fields(map[VoteId := Text(voteId), VoteChoice := Text(choice), Kind := Text("vote_cast")])
    case Withdraw(voteId) => Fields(map[VoteId := Text(voteId), Kind := Text("vote_withdraw")])
    case Close(voteId) => Fields(map[VoteId := Text(voteId), Kind := Text("vote_close")])
  }

  // ---------------------------------------------------------------- options

  function Folds(x: Texts, kept: seq<string>): set<string> {
    set o | o in kept :: x.alphabet.Fold(o)
  }

  /** The options a list of fields adds to those already kept: cleaned, visible, and new under folding. */
  function OptionsFrom(x: Texts, values: seq<Field>, kept: seq<string>): (r: Outcome<seq<string>>)
    decreases |values|
  {
    if values == [] then Ok(kept)
    else if !values[0].Text? then Err(InvalidVote)
    else
      var option := CleanMessage(x, values[0].s, VOTE_OPTION_CHARACTER_LIMIT);
      if !HasVisibleText(x, option) || x.alphabet.Fold(option) in Folds(x, kept) then OptionsFrom(x, values[1..], kept)
      else if |kept| + 1 > MAX_VOTE_OPTIONS then Err(InvalidVote)
      else OptionsFrom(x, values[1..], kept + [option])
  }

  method ParseOptions(x: Texts, values: seq<Field>) returns (r: Outcome<seq<string>>)
    ensures r == OptionsFrom(x, values, [])
  {
    var seen: set<string> := {};
    var options: seq<string> := [];
    var i := 0;
    while i < |values|
      invariant 0 <= i <= |values|
      invariant seen == Folds(x, options)
      invariant OptionsFrom(x, values, []) == OptionsFrom(x, values[i..], options)
    {
      assert values[i..][1..] == values[i + 1..];
      if !values[i].Text? {
        return Err(InvalidVote);
      }
      var option := CleanMessage(x, values[i].s, VOTE_OPTION_CHARACTER_LIMIT);
      var folded := x.alphabet.Fold(option);
      if HasVisibleText(x, option) && folded !in seen {
        if |options| + 1 > MAX_VOTE_OPTIONS {
          return Err(InvalidVote);
        }
        seen := seen + {folded};
        options := options + [option];
      }
      i := i + 1;
    }
    return Ok(options);
  }

  /** The text of a field once it is cleaned as an option. */
  function OptionOf(x: Texts, value: Field): string
    requires value.Text?
  {
    CleanMessage(x, value.s, VOTE_OPTION_CHARACTER_LIMIT)
  }

  ghost predicate Shows(x: Texts, s: string) { exists i :: 0 <= i < |s| && x.visible(s[i]) }

  /** A field gives an option if its text shows anything and no earlier one that does reads the same under folding. */
  ghost predicate GivesOption(x: Texts, values: seq<Field>, i: nat)
    requires i < |values| && forall j | 0 <= j <= i :: values[j].Text?
  {
    && Shows(x, OptionOf(x, values[i]))
    && forall j | 0 <= j < i && Shows(x, OptionOf(x, values[j])) ::
         x.alphabet.Fold(OptionOf(x, values[j])) != x.alphabet.Fold(OptionOf(x, values[i]))
  }

  /** The options the first `n` fields give, in their order. */
  ghost function OptionsOf(x: Texts, values: seq<Field>, n: nat): seq<string>
    requires n <= |values| && forall j | 0 <= j < n :: values[j].Text?
  {
    if n == 0 then []
    else
      var before := OptionsOf(x, values, n - 1);
      if GivesOption(x, values, n - 1) then before + [OptionOf(x, values[n - 1])] else before
  }

  /** What was kept so far stands for everything that showed so far. */
  lemma {:induction false} KeptStandsFor(x: Texts, values: seq<Field>, n: nat)
    requires n <= |values| && forall j | 0 <= j < |values| :: values[j].Text?
    ensures forall f :: f in Folds(x, OptionsOf(x, values, n)) <==>
      exists j :: 0 <= j < n && Shows(x, OptionOf(x, values[j])) && f == x.alphabet.Fold(OptionOf(x, values[j]))
  {
    hide OptionOf, Shows;
    if n > 0 {
      KeptStandsFor(x, values, n - 1);
      var before, option := OptionsOf(x, values, n - 1), OptionOf(x, values[n - 1]);
      FoldsAppend(x, before, option);
      if GivesOption(x, values, n - 1) {
        assert Folds(x, OptionsOf(x, values, n)) == Folds(x, before) + {x.alphabet.Fold(option)};
      } else if Shows(x, option) {
        var j :| 0 <= j < n - 1 && Shows(x, OptionOf(x, values[j])) &&
          x.alphabet.Fold(OptionOf(x, values[j])) == x.alphabet.Fold(option);
        assert x.alphabet.Fold(option) in Folds(x, before);
      }
    }
  }

  lemma FoldsAppend(x: Texts, kept: seq<string>, o: string)
    ensures Folds(x, kept + [o]) == Folds(x, kept) + {x.alphabet.Fold(o)}
  {
    assert forall k :: k in kept + [o] <==> k in kept || k == o;
    assert o in kept + [o];
  }

  /** Parsing a list of texts gives exactly these options, and refuses more than ten; a field that is no text is
      refused wherever parsing gets to it. */
  lemma OptionsAreParsed(x: Texts, values: seq<Field>)
    ensures OptionsFrom(x, values, []).Ok? ==> forall j | 0 <= j < |values| :: values[j].Text?
    ensures (forall j | 0 <= j < |values| :: values[j].Text?) ==>
      OptionsFrom(x, values, []) ==
        if |OptionsOf(x, values, |values|)| <= 10 then Ok(OptionsOf(x, values, |values|)) else Err(InvalidVote)
  {
    if OptionsFrom(x, values, []).Ok? { ParsedAreTexts(x, values, []); }
    if forall j | 0 <= j < |values| :: values[j].Text? {
      assert values[0..] == values;
      OptionsFromHere(x, values, 0);
    }
  }

  lemma {:induction false} ParsedAreTexts(x: Texts, values: seq<Field>, kept: seq<string>)
    requires OptionsFrom(x, values, kept).Ok?
    ensures forall j | 0 <= j < |values| :: values[j].Text?
    decreases |values|
  {
    if values != [] {
      var option := CleanMessage(x, values[0].s, VOTE_OPTION_CHARACTER_LIMIT);
      ParsedAreTexts(x, values[1..],
        if !HasVisibleText(x, option) || x.alphabet.Fold(option) in Folds(x, kept) then kept else kept + [option]);
      assert forall j | 0 < j < |values| :: values[j] == values[1..][j - 1];
    }
  }

  lemma {:induction false} OptionsFromHere(x: Texts, values: seq<Field>, i: nat)
    requires i <= |values| && forall j | 0 <= j < |values| :: values[j].Text?
    requires |OptionsOf(x, values, i)| <= 10
    ensures OptionsFrom(x, values[i..], OptionsOf(x, values, i)) ==
      if |OptionsOf(x, values, |values|)| <= 10 then Ok(OptionsOf(x, values, |values|)) else Err(InvalidVote)
    decreases |values| - i
  {
    hide CleanMessage, Shows, HasVisibleText;
    if i < |values| {
      assert values[i..][0] == values[i] && values[i..][1..] == values[i + 1..];
      KeptStandsFor(x, values, i);
      ShowsIsVisible(x, OptionOf(x, values[i]));
      assert GivesOption(x, values, i) <==>
        Shows(x, OptionOf(x, values[i])) &&
        x.alphabet.Fold(OptionOf(x, values[i])) !in Folds(x, OptionsOf(x, values, i));
      if |OptionsOf(x, values, i + 1)| <= 10 { OptionsFromHere(x, values, i + 1); }
      else { OptionsGrow(x, values, i + 1, |values|); }
    }
  }

  lemma ShowsIsVisible(x: Texts, s: string)
    ensures Shows(x, s) <==> HasVisibleText(x, s)
  {
    if HasVisibleText(x, s) { var c :| c in s && x.visible(c); }
    if Shows(x, s) { var i :| 0 <= i < |s| && x.visible(s[i]); assert s[i] in s; }
  }

  lemma {:induction false} OptionsGrow(x: Texts, values: seq<Field>, i: nat, n: nat)
    requires i <= n <= |values| && forall j | 0 <= j < |values| :: values[j].Text?
    ensures |OptionsOf(x, values, i)| <= |OptionsOf(x, values, n)|
  {
    hide OptionOf, Shows, GivesOption;
    if i < n { OptionsGrow(x, values, i, n - 1); }
  }

  ghost predicate OptionOk(x: Texts, o: string) {
    HasVisibleText(x, o) && IsCleaned(x, o, VOTE_OPTION_CHARACTER_LIMIT)
  }

  ghost predicate OptionsOk(x: Texts, options: seq<string>) {
    && (forall i | 0 <= i < |options| :: OptionOk(x, options[i]))
    && (forall i, j | 0 <= i < j < |options| :: x.alphabet.Fold(options[i]) != x.alphabet.Fold(options[j]))
    && |options| <= MAX_VOTE_OPTIONS
  }

  lemma {:induction false} OptionsFromKeeps(x: Texts, values: seq<Field>, kept: seq<string>)
    requires OptionsOk(x, kept)
    ensures var r := OptionsFrom(x, values, kept);
      r.Ok? ==> OptionsOk(x, r.value) && kept <= r.value && |r.value| <= |kept| + |values|
    decreases |values|
  {
    if values != [] && values[0].Text? {
      var option := CleanMessage(x, values[0].s, VOTE_OPTION_CHARACTER_LIMIT);
      if !HasVisibleText(x, option) || x.alphabet.Fold(option) in Folds(x, kept) {
        OptionsFromKeeps(x, values[1..], kept);
      } else if |kept| + 1 <= MAX_VOTE_OPTIONS {
        assert OptionOk(x, option);
        forall i | 0 <= i < |kept| ensures x.alphabet.Fold(kept[i]) != x.alphabet.Fold(option) {
          assert kept[i] in kept;
        }
        OptionsFromKeeps(x, values[1..], kept + [option]);
      }
    }
  }

  /** Parsed options read back as themselves exactly when cleaning leaves each of them alone. */
  lemma {:induction false} OptionsSurvive(x: Texts, options: seq<string>, kept: seq<string>)
    requires OptionsOk(x, kept + options)
    ensures OptionsFrom(x, TextsOf(options), kept) == Ok(kept + options) <==>
            forall i | 0 <= i < |options| :: Fixed(x, options[i], VOTE_OPTION_CHARACTER_LIMIT)
    decreases |options|
  {
    hide CleanMessage, HasVisibleText, OptionsOk;
    if options == [] {
      assert kept + options == kept;
    } else {
      var option, rest := CleanMessage(x, options[0], VOTE_OPTION_CHARACTER_LIMIT), options[1..];
      var values := TextsOf(options);
      assert values[1..] == TextsOf(rest);
      assert (kept + [options[0]]) + rest == kept + options;
      KeptOk(x, kept, options);
      if option == options[0] {
        NotSeen(x, kept, options);
        OptionsSurvive(x, rest, kept + [options[0]]);
        assert forall i | 1 <= i < |options| :: options[i] == rest[i - 1];
        assert forall i | 0 <= i < |rest| :: rest[i] == options[i + 1];
      } else {
        ChangedOption(x, options, kept);
      }
    }
  }

  lemma KeptOk(x: Texts, kept: seq<string>, options: seq<string>)
    requires OptionsOk(x, kept + options)
    ensures OptionsOk(x, kept)
  {
    var all := kept + options;
    forall i | 0 <= i < |kept| ensures OptionOk(x, kept[i]) { assert all[i] == kept[i]; }
    forall i, j | 0 <= i < j < |kept| ensures x.alphabet.Fold(kept[i]) != x.alphabet.Fold(kept[j]) {
      assert all[i] == kept[i] && all[j] == kept[j];
    }
  }

  lemma NotSeen(x: Texts, kept: seq<string>, options: seq<string>)
    requires OptionsOk(x, kept + options) && options != []
    ensures HasVisibleText(x, options[0]) && x.alphabet.Fold(options[0]) !in Folds(x, kept)
    ensures |kept| + 1 <= MAX_VOTE_OPTIONS
  {
    var all := kept + options;
    assert all[|kept|] == options[0] && OptionOk(x, all[|kept|]);
    forall o | o in kept ensures x.alphabet.Fold(o) != x.alphabet.Fold(options[0]) {
      var i :| 0 <= i < |kept| && kept[i] == o;
      assert all[i] == o;
    }
  }

  lemma ChangedOption(x: Texts, options: seq<string>, kept: seq<string>)
    requires options != [] && OptionsOk(x, kept) && !Fixed(x, options[0], VOTE_OPTION_CHARACTER_LIMIT)
    ensures OptionsFrom(x, TextsOf(options), kept) != Ok(kept + options)
  {
    var option := CleanMessage(x, options[0], VOTE_OPTION_CHARACTER_LIMIT);
    var rest := TextsOf(options)[1..];
    if !HasVisibleText(x, option) || x.alphabet.Fold(option) in Folds(x, kept) {
      OptionsFromKeeps(x, rest, kept);
    } else if |kept| + 1 <= MAX_VOTE_OPTIONS {
      forall i | 0 <= i < |kept| ensures x.alphabet.Fold(kept[i]) != x.alphabet.Fold(option) { assert kept[i] in kept; }
      OptionsFromKeeps(x, rest, kept + [option]);
      assert (kept + [option])[|kept|] == option && (kept + options)[|kept|] == options[0];
    }
  }

  // ---------------------------------------------------------------- attachments

  function AttachmentsFrom(x: Texts, values: seq<Field>, kept: seq<string>): Outcome<seq<string>>
    decreases |values|
  {
    if values == [] then Ok(kept)
    else if !values[0].Text? || !x.isAttachmentId(values[0].s) || values[0].s in kept then Err(BadRequest)
    else AttachmentsFrom(x, values[1..], kept + [values[0].s])
  }

  function ParseAttachments(x: Texts, f: map<Name, Field>): Outcome<seq<string>> {
    if AttachmentIds !in f then Ok([])
    else
      var _ :- Require(f[AttachmentIds].List? &&
        |f[AttachmentIds].items| <= MAX_MESSAGE_ATTACHMENTS_PER_EVENT, BadRequest);
      AttachmentsFrom(x, f[AttachmentIds].items, [])
  }

  ghost predicate AttachmentsOk(x: Texts, ids: seq<string>) {
    && (forall i | 0 <= i < |ids| :: x.isAttachmentId(ids[i]))
    && (forall i, j | 0 <= i < j < |ids| :: ids[i] != ids[j])
  }

  lemma {:induction false} AttachmentsFromKeeps(x: Texts, values: seq<Field>, kept: seq<string>)
    requires AttachmentsOk(x, kept)
    ensures var r := AttachmentsFrom(x, values, kept);
      r.Ok? ==> AttachmentsOk(x, r.value) && |r.value| == |kept| + |values|
    decreases |values|
  {
    if values != [] && values[0].Text? && x.isAttachmentId(values[0].s) && values[0].s !in kept {
      AttachmentsFromKeeps(x, values[1..], kept + [values[0].s]);
    }
  }

  lemma {:induction false} AttachmentsSurvive(x: Texts, ids: seq<string>, kept: seq<string>)
    requires AttachmentsOk(x, kept + ids)
    ensures AttachmentsFrom(x, TextsOf(ids), kept) == Ok(kept + ids)
    decreases |ids|
  {
    if ids == [] {
      assert kept + ids == kept;
    } else {
      assert TextsOf(ids)[1..] == TextsOf(ids[1..]) && (kept + [ids[0]]) + ids[1..] == kept + ids;
      assert (kept + ids)[|kept|] == ids[0];
      forall i | 0 <= i < |kept| ensures kept[i] != ids[0] { assert (kept + ids)[i] == kept[i]; }
      AttachmentsSurvive(x, ids[1..], kept + [ids[0]]);
    }
  }

  // ---------------------------------------------------------------- parsing commands

  function RequireExactKeys(f: map<Name, Field>, required: set<Name>, optional: set<Name>): Check {
    Require(required <= f.Keys <= required + optional, BadRequest)
  }

  function CleanText(x: Texts, f: map<Name, Field>, name: Name, limit: nat, rejection: Rejection): Outcome<string> {
    var _ :- Require(name in f && f[name].Text?, rejection);
    var text := CleanMessage(x, f[name].s, limit);
    var _ :- Require(HasVisibleText(x, text), rejection);
    Ok(text)
  }

  predicate DurationOk(n: nat) { n == 0 || MIN_VOTE_DURATION_SECONDS <= n <= MAX_VOTE_DURATION_SECONDS }

  function ParseDuration(f: map<Name, Field>): Outcome<nat> {
    if VoteDurationSeconds !in f then Ok(0)
    else
      var _ :- Require(f[VoteDurationSeconds].Number? && DurationOk(f[VoteDurationSeconds].n), InvalidDuration);
      Ok(f[VoteDurationSeconds].n)
  }

  function ParseVoteId(x: Texts, f: map<Name, Field>): Outcome<string> {
    var _ :- Require(VoteId in f && f[VoteId].Text? && x.isVoteId(f[VoteId].s), InvalidVote);
    Ok(f[VoteId].s)
  }

  function ParseCreate(x: Texts, f: map<Name, Field>): Outcome<VoteCommand> {
    var _ :- RequireExactKeys(f, {Kind, VoteQuestion, VoteOptions}, {VoteDurationSeconds, AttachmentIds});
    var question :- CleanText(x, f, VoteQuestion, VOTE_QUESTION_CHARACTER_LIMIT, InvalidVote);
    var _ :- Require(f[VoteOptions].List?, InvalidVote);
    var options :- OptionsFrom(x, f[VoteOptions].items, []);
    var _ :- Require(|options| >= MIN_VOTE_OPTIONS, InvalidVote);
    var duration :- ParseDuration(f);
    var attachments :- ParseAttachments(x, f);
    Ok(Create(question, options, duration, attachments))
  }

  function ParseCast(x: Texts, f: map<Name, Field>): Outcome<VoteCommand> {
    var _ :- RequireExactKeys(f, {Kind, VoteId, VoteChoice}, {});
    var voteId :- ParseVoteId(x, f);
    var choice :- CleanText(x, f, VoteChoice, VOTE_CHOICE_CHARACTER_LIMIT, InvalidChoice);
    Ok(Cast(voteId, choice))
  }

  function ParseReference(x: Texts, f: map<Name, Field>): Outcome<string> {
    var _ :- RequireExactKeys(f, {Kind, VoteId}, {});
    ParseVoteId(x, f)
  }

  function FromPayload(x: Texts, payload: Payload): Outcome<VoteCommand> {
    var _ :- Require(payload.Fields? && Kind in payload.fields && payload.fields[Kind].Text?, BadRequest);
    var f := payload.fields;
    match f[Kind].s
    case "vote" => ParseCreate(x, f)
    case "vote_cast" => ParseCast(x, f)
    case "vote_withdraw" => var voteId :- ParseReference(x, f); Ok(Withdraw(voteId))
    case "vote_close" => var voteId :- ParseReference(x, f); Ok(Close(voteId))
    case _ => Err(InvalidKind)
  }

  /** What every parsed command is. */
  ghost predicate Parsed(x: Texts, c: VoteCommand) {
    match c
    case Create(question, options, duration, attachments) =>
      && HasVisibleText(x, question) && OptionsOk(x, options) && |options| >= MIN_VOTE_OPTIONS && DurationOk(duration)
      && AttachmentsOk(x, attachments) && |attachments| <= MAX_MESSAGE_ATTACHMENTS_PER_EVENT
    case Cast(voteId, choice) => x.isVoteId(voteId) && HasVisibleText(x, choice)
    case Withdraw(voteId) => x.isVoteId(voteId)
    case Close(voteId) => x.isVoteId(voteId)
  }

  /** Its texts are what cleaning left of something. */
  ghost predicate TextsCleaned(x: Texts, c: VoteCommand) {
    match c
    case Create(question, options, _, _) =>
      && IsCleaned(x, question, VOTE_QUESTION_CHARACTER_LIMIT)
      && forall i | 0 <= i < |options| :: IsCleaned(x, options[i], VOTE_OPTION_CHARACTER_LIMIT)
    case Cast(_, choice) => IsCleaned(x, choice, VOTE_CHOICE_CHARACTER_LIMIT)
    case _ => true
  }

  predicate WithinLimits(c: VoteCommand) {
    match c
    case Create(question, options, duration, attachments) =>
      && 0 < |question| <= 300 && 2 <= |options| <= 10
      && (forall i | 0 <= i < |options| :: 0 < |options[i]| <= 100)
      && (duration == 0 || 30 <= duration <= 86400) && |attachments| <= 8
    case Cast(_, choice) => 0 < |choice| <= 200
    case _ => true
  }

  lemma CleanedIsWithinLimits(x: Texts, c: VoteCommand)
    requires Parsed(x, c) && TextsCleaned(x, c)
    ensures WithinLimits(c)
  {
    if c.Create? {
      forall i | 0 <= i < |c.options| ensures 0 < |c.options[i]| <= VOTE_OPTION_CHARACTER_LIMIT {
        assert OptionOk(x, c.options[i]);
        CleanedTrimsRight(x, c.options[i], VOTE_OPTION_CHARACTER_LIMIT);
      }
      CleanedTrimsRight(x, c.question, VOTE_QUESTION_CHARACTER_LIMIT);
    } else if c.Cast? {
      CleanedTrimsRight(x, c.choice, VOTE_CHOICE_CHARACTER_LIMIT);
    }
  }

  lemma FromPayloadParses(x: Texts, payload: Payload)
    requires FromPayload(x, payload).Ok?
    ensures var c := FromPayload(x, payload).value; Parsed(x, c) && TextsCleaned(x, c) && WithinLimits(c)
  {
    PayloadTexts(x, payload);
    CleanedIsWithinLimits(x, FromPayload(x, payload).value);
  }

  lemma PayloadTexts(x: Texts, payload: Payload)
    requires FromPayload(x, payload).Ok?
    ensures var c := FromPayload(x, payload).value; Parsed(x, c) && TextsCleaned(x, c)
  {
    var f := payload.fields;
    if FromPayload(x, payload).value.Create? {
      CreateParses(x, f);
    }
  }

  lemma CreateParses(x: Texts, f: map<Name, Field>)
    requires ParseCreate(x, f).Ok?
    ensures Parsed(x, ParseCreate(x, f).value) && TextsCleaned(x, ParseCreate(x, f).value)
  {
    hide CleanMessage;
    OptionsFromKeeps(x, f[VoteOptions].items, []);
    if AttachmentIds in f { AttachmentsFromKeeps(x, f[AttachmentIds].items, []); }
    var c := ParseCreate(x, f).value;
    forall i | 0 <= i < |c.options| ensures IsCleaned(x, c.options[i], VOTE_OPTION_CHARACTER_LIMIT) {
      assert OptionOk(x, c.options[i]);
    }
  }

  /** The texts of a command that cleaning would leave alone. */
  ghost predicate TextsFixed(x: Texts, c: VoteCommand) {
    match c
    case Create(question, options, _, _) =>
      && Fixed(x, question, VOTE_QUESTION_CHARACTER_LIMIT)
      && forall i | 0 <= i < |options| :: Fixed(x, options[i], VOTE_OPTION_CHARACTER_LIMIT)
    case Cast(_, choice) => Fixed(x, choice, VOTE_CHOICE_CHARACTER_LIMIT)
    case _ => true
  }

  /** A parsed command survives being written and read again exactly when its texts are already clean. */
  lemma RoundTrip(x: Texts, c: VoteCommand)
    requires Parsed(x, c)
    ensures FromPayload(x, ToPayload(c)) == Ok(c) <==> TextsFixed(x, c)
  {
    hide CleanMessage, HasVisibleText, ParseCreate, ParseCast;
    match c
    case Create(question, options, duration, attachments) =>
      CreateRoundTrip(x, question, options, duration, attachments);
    case Cast(voteId, choice) => CastRoundTrip(x, voteId, choice);
    case Withdraw(voteId) =>
      assert ToPayload(c).fields.Keys == {Kind, VoteId};
    case Close(voteId) =>
      assert ToPayload(c).fields.Keys == {Kind, VoteId};
  }

  lemma CastRoundTrip(x: Texts, voteId: string, choice: string)
    requires Parsed(x, Cast(voteId, choice))
    ensures var c := Cast(voteId, choice);
      FromPayload(x, ToPayload(c)) == Ok(c) <==> TextsFixed(x, c)
  {
    hide CleanMessage, HasVisibleText, ParseCreate, ParseReference;
    assert ToPayload(Cast(voteId, choice)).fields.Keys == {Kind, VoteId, VoteChoice};
  }

  lemma CreateIsRead(x: Texts, f: map<Name, Field>, question: string, options: seq<string>, duration: nat,
                     attachments: seq<string>)
    requires f == map[VoteQuestion := Text(question), VoteOptions := List(TextsOf(options)),
                      VoteDurationSeconds := Number(duration), AttachmentIds := List(TextsOf(attachments)),
                      Kind := Text("vote")]
    requires HasVisibleText(x, question) && |options| >= MIN_VOTE_OPTIONS && DurationOk(duration)
    requires |attachments| <= MAX_MESSAGE_ATTACHMENTS_PER_EVENT
    requires AttachmentsFrom(x, TextsOf(attachments), []) == Ok(attachments)
    ensures ParseCreate(x, f) == Ok(Create(question, options, duration, attachments)) <==>
            (Fixed(x, question, VOTE_QUESTION_CHARACTER_LIMIT) && OptionsFrom(x, TextsOf(options), []) == Ok(options))
  {
    hide OptionsFrom, AttachmentsFrom, CleanMessage, HasVisibleText;
    assert f.Keys == {Kind, VoteQuestion, VoteOptions, VoteDurationSeconds, AttachmentIds};
  }

  lemma CreateRoundTrip(x: Texts, question: string, options: seq<string>, duration: nat, attachments: seq<string>)
    requires Parsed(x, Create(question, options, duration, attachments))
    ensures var c := Create(question, options, duration, attachments);
      FromPayload(x, ToPayload(c)) == Ok(c) <==> TextsFixed(x, c)
  {
    hide OptionsFrom, AttachmentsFrom, CleanMessage, HasVisibleText, OptionsOk, AttachmentsOk, ParseCreate, ParseCast,
      ParseReference;
    var f := ToPayload(Create(question, options, duration, attachments)).fields;
    assert [] + options == options && [] + attachments == attachments;
    OptionsSurvive(x, options, []);
    AttachmentsSurvive(x, attachments, []);
    CreateIsRead(x, f, question, options, duration, attachments);
  }

  /** A command that was read from the wire survives being written and read again exactly when none of its
      texts was cut right after a space. */
  lemma ReadAgain(x: Texts, payload: Payload)
    requires FromPayload(x, payload).Ok?
    ensures var c := FromPayload(x, payload).value; FromPayload(x, ToPayload(c)) == Ok(c) <==> !CutAtSpace(x, c)
  {
    hide FromPayload, ToPayload, CleanMessage, Fixed;
    FromPayloadParses(x, payload);
    var c := FromPayload(x, payload).value;
    RoundTrip(x, c);
    if c.Create? {
      CleanedIsFixed(x, c.question, VOTE_QUESTION_CHARACTER_LIMIT);
      forall i | 0 <= i < |c.options|
        ensures Fixed(x, c.options[i], VOTE_OPTION_CHARACTER_LIMIT) <==> !EndsInSpace(x, c.options[i])
      {
        CleanedIsFixed(x, c.options[i], VOTE_OPTION_CHARACTER_LIMIT);
      }
    } else if c.Cast? {
      CleanedIsFixed(x, c.choice, VOTE_CHOICE_CHARACTER_LIMIT);
    }
  }

  predicate CutAtSpace(x: Texts, c: VoteCommand) {
    match c
    case Create(question, options, _, _) =>
      EndsInSpace(x, question) || exists i | 0 <= i < |options| :: EndsInSpace(x, options[i])
    case Cast(_, choice) => EndsInSpace(x, choice)
    case _ => false
  }

  /** Plain decimal digits. */
  function Decimal(s: string): Option<nat> { if s == "" then None else DecimalFrom(0, s) }

  function DecimalFrom(n: nat, s: string): Option<nat>
    decreases |s|
  {
    if s == "" then Some(n)
    else if '0' <= s[0] <= '9' then DecimalFrom(10 * n + (s[0] as int - '0' as int), s[1..])
    else None
  }

  /** The tables on texts of small letters, digits and spaces. */
  const LATIN := Texts(
    Alphabet((c: char) => [c], (c: char) => c != ' ' && c != '\n', (c: char) => c == ' ' || c == '\n'),
    (c: char) => c != ' ' && c != '\n', (s: string) => s != "", (s: string) => s != "", (s: string) => Decimal(s))

  /** A ballot that is accepted and does not survive: its choice is cut right after a space. */
  lemma ABallotCanChange() returns (payload: Payload)
    ensures FromPayload(LATIN, payload).Ok?
    ensures var c := FromPayload(LATIN, payload).value; FromPayload(LATIN, ToPayload(c)) != Ok(c)
  {
    hide CleanMessage;
    var word := Repeat('a', VOTE_CHOICE_CHARACTER_LIMIT - 1);
    var fields := map[Kind := Text("vote_cast"), VoteId := Text("v"), VoteChoice := Text(word + " b")];
    payload := Fields(fields);
    assert fields.Keys == {Kind, VoteId, VoteChoice};
    CutAfterSpace(LATIN, word, VOTE_CHOICE_CHARACTER_LIMIT);
    assert HasVisibleText(LATIN, word + " ") by { assert (word + " ")[0] == 'a' && LATIN.visible('a'); }
    assert FromPayload(LATIN, payload) == Ok(Cast("v", word + " "));
    ReadAgain(LATIN, payload);
  }

  // ---------------------------------------------------------------- what is accepted

  /** Attachments are given as distinct identifiers. */
  predicate AreAttachments(x: Texts, values: seq<Field>) {
    && (forall i | 0 <= i < |values| :: values[i].Text? && x.isAttachmentId(values[i].s))
    && (forall i, j | 0 <= i < j < |values| :: values[i] != values[j])
  }

  lemma {:induction false} AttachmentsAreRead(x: Texts, values: seq<Field>, ids: seq<string>)
    ensures AttachmentsFrom(x, values, ids).Ok? <==>
      AreAttachments(x, values) && forall i | 0 <= i < |values| :: values[i].s !in ids
    ensures AttachmentsFrom(x, values, ids).Ok? ==> AttachmentsFrom(x, values, ids).value == ids + TextsIn(values)
    decreases |values|
  {
    if values != [] && values[0].Text? && x.isAttachmentId(values[0].s) && values[0].s !in ids {
      var rest := values[1..];
      AttachmentsAreRead(x, rest, ids + [values[0].s]);
      assert forall i | 0 < i < |values| :: values[i] == rest[i - 1];
      assert forall i | 0 <= i < |rest| :: rest[i] == values[i + 1];
      assert ids + [values[0].s] + TextsIn(rest) == ids + TextsIn(values);
    }
  }

  function TextsIn(values: seq<Field>): seq<string> {
    if values == [] then [] else [if values[0].Text? then values[0].s else ""] + TextsIn(values[1..])
  }

  /** A poll as it may be asked for: exactly its fields, a question and options that show something, from two to ten
      of them different, no duration or a lawful one, and at most eight attachments. */
  ghost predicate AsksPoll(x: Texts, f: map<Name, Field>) {
    && {Kind, VoteQuestion, VoteOptions} <= f.Keys <=
         {Kind, VoteQuestion, VoteOptions, VoteDurationSeconds, AttachmentIds}
    && f[VoteQuestion].Text? && Shows(x, CleanMessage(x, f[VoteQuestion].s, 300))
    && f[VoteOptions].List? && (forall j | 0 <= j < |f[VoteOptions].items| :: f[VoteOptions].items[j].Text?)
    && 2 <= |OptionsOf(x, f[VoteOptions].items, |f[VoteOptions].items|)| <= 10
    && (VoteDurationSeconds in f ==>
          f[VoteDurationSeconds].Number? &&
          (f[VoteDurationSeconds].n == 0 || 30 <= f[VoteDurationSeconds].n <= 86400))
    && (AttachmentIds in f ==>
          f[AttachmentIds].List? && |f[AttachmentIds].items| <= 8 && AreAttachments(x, f[AttachmentIds].items))
  }

  lemma PollIsRead(x: Texts, f: map<Name, Field>)
    ensures ParseCreate(x, f).Ok? <==> AsksPoll(x, f)
    ensures AsksPoll(x, f) ==>
      ParseCreate(x, f) == Ok(Create(CleanMessage(x, f[VoteQuestion].s, 300),
        OptionsOf(x, f[VoteOptions].items, |f[VoteOptions].items|),
        if VoteDurationSeconds in f then f[VoteDurationSeconds].n else 0,
        if AttachmentIds in f then TextsIn(f[AttachmentIds].items) else []))
  {
    hide CleanMessage, OptionsOf, OptionsFrom, AttachmentsFrom, AreAttachments, HasVisibleText, Shows;
    if VoteQuestion in f && f[VoteQuestion].Text? { ShowsIsVisible(x, CleanMessage(x, f[VoteQuestion].s, 300)); }
    if VoteOptions in f && f[VoteOptions].List? { OptionsAreParsed(x, f[VoteOptions].items); }
    if AttachmentIds in f && f[AttachmentIds].List? {
      AttachmentsAreRead(x, f[AttachmentIds].items, []);
      assert [] + TextsIn(f[AttachmentIds].items) == TextsIn(f[AttachmentIds].items);
    }
  }

  /** What is accepted from the wire, and as what: a payload of one of the four kinds with exactly its fields. */
  lemma CommandIsRead(x: Texts, payload: Payload)
    ensures FromPayload(x, payload).Ok? <==>
      && payload.Fields? && Kind in payload.fields && payload.fields[Kind].Text?
      && var (f, kind) := (payload.fields, payload.fields[Kind].s);
      || (kind == "vote" && AsksPoll(x, f))
      || (kind == "vote_cast" && f.Keys == {Kind, VoteId, VoteChoice} && f[VoteId].Text? && x.isVoteId(f[VoteId].s) &&
          f[VoteChoice].Text? && Shows(x, CleanMessage(x, f[VoteChoice].s, 200)))
      || (kind in {"vote_withdraw", "vote_close"} && f.Keys == {Kind, VoteId} && f[VoteId].Text? &&
          x.isVoteId(f[VoteId].s))
    ensures FromPayload(x, payload).Ok? ==>
      var (f, c) := (payload.fields, FromPayload(x, payload).value);
      match c
      case Create(_, _, _, _) => f[Kind].s == "vote" && ParseCreate(x, f) == Ok(c)
      case Cast(voteId, choice) =>
        f[Kind].s == "vote_cast" && voteId == f[VoteId].s && choice == CleanMessage(x, f[VoteChoice].s, 200)
      case Withdraw(voteId) => f[Kind].s == "vote_withdraw" && voteId == f[VoteId].s
      case Close(voteId) => f[Kind].s == "vote_close" && voteId == f[VoteId].s
  {
    hide CleanMessage, HasVisibleText, Shows, ParseCreate, AsksPoll;
    if payload.Fields? && Kind in payload.fields && payload.fields[Kind].Text? {
      var f := payload.fields;
      PollIsRead(x, f);
      PollIsCreate(x, f);
      if VoteChoice in f && f[VoteChoice].Text? { ShowsIsVisible(x, CleanMessage(x, f[VoteChoice].s, 200)); }
    }
  }

  lemma PollIsCreate(x: Texts, f: map<Name, Field>)
    ensures ParseCreate(x, f).Ok? ==> ParseCreate(x, f).value.Create?
  {
  }

  // ---------------------------------------------------------------- resolving a ballot

  /** The first option with the same folded text. */
  function FindFolded(x: Texts, options: seq<string>, folded: string): (r: Option<string>)
    ensures r.Some? ==> r.value in options && x.alphabet.Fold(r.value) == folded
    ensures r.None? ==> forall o | o in options :: x.alphabet.Fold(o) != folded
  {
    if options == [] then None
    else if x.alphabet.Fold(options[0]) == folded then Some(options[0])
    else FindFolded(x, options[1..], folded)
  }

  function ResolveVoteChoice(x: Texts, choice: string, options: seq<string>): (r: Option<string>)
    ensures r.Some? ==> r.value in options
  {
    var clean := CleanMessage(x, choice, VOTE_CHOICE_CHARACTER_LIMIT);
    if !HasVisibleText(x, clean) then None
    else
      var named := FindFolded(x, options, x.alphabet.Fold(clean));
      if named.Some? then named
      else
        var index := x.index(clean);
        if index.Some? && 0 < index.value <= |options| then Some(options[index.value - 1]) else None
  }

  lemma {:induction false} FoldLength(a: Alphabet, s: string, t: string)
    requires a.Lawful() && t <= s
    ensures |a.Fold(t)| <= |a.Fold(s)| && (t != s ==> |a.Fold(t)| < |a.Fold(s)|)
  {
    assert s == t + s[|t|..];
    FoldAppend(a, t, s[|t|..]);
    FoldKeeps(a, s[|t|..]);
  }

  lemma FirstOfItsFold(x: Texts, options: seq<string>, i: nat)
    requires OptionsOk(x, options) && i < |options|
    ensures FindFolded(x, options, x.alphabet.Fold(options[i])) == Some(options[i])
  {
    var r := FindFolded(x, options, x.alphabet.Fold(options[i]));
    assert options[i] in options;
    var j :| 0 <= j < |options| && options[j] == r.value;
  }

  /** An option whose cleaned text names no option but reads as the number the option itself has. */
  predicate NumberLeadsBack(x: Texts, options: seq<string>, i: nat)
    requires i < |options|
  {
    var clean := CleanMessage(x, options[i], VOTE_CHOICE_CHARACTER_LIMIT);
    && HasVisibleText(x, clean) && FindFolded(x, options, x.alphabet.Fold(clean)).None?
    && x.index(clean) == Some(i + 1)
  }

  /** A ballot names the first option that reads as it does under folding, or else, by its number, an option. */
  lemma ChoiceIsResolved(x: Texts, choice: string, options: seq<string>)
    ensures var (clean, r) := (CleanMessage(x, choice, 200), ResolveVoteChoice(x, choice, options));
      if !Shows(x, clean) then r.None?
      else if exists o :: o in options && x.alphabet.Fold(o) == x.alphabet.Fold(clean) then
        exists i | 0 <= i < |options| ::
          && r == Some(options[i]) && x.alphabet.Fold(options[i]) == x.alphabet.Fold(clean)
          && forall j | 0 <= j < i :: x.alphabet.Fold(options[j]) != x.alphabet.Fold(clean)
      else
        r == if x.index(clean).Some? && 1 <= x.index(clean).value <= |options|
             then Some(options[x.index(clean).value - 1]) else None
  {
    hide CleanMessage, HasVisibleText, Shows;
    var clean := CleanMessage(x, choice, 200);
    ShowsIsVisible(x, clean);
    if Shows(x, clean) && FindFolded(x, options, x.alphabet.Fold(clean)).Some? {
      var i := FirstFolded(x, options, x.alphabet.Fold(clean));
      assert options[i] in options;
    }
  }

  lemma {:induction false} FirstFolded(x: Texts, options: seq<string>, folded: string) returns (i: nat)
    requires FindFolded(x, options, folded).Some?
    ensures i < |options| && FindFolded(x, options, folded) == Some(options[i])
    ensures x.alphabet.Fold(options[i]) == folded && forall j | 0 <= j < i :: x.alphabet.Fold(options[j]) != folded
  {
    i := 0;
    if x.alphabet.Fold(options[0]) != folded {
      i := FirstFolded(x, options[1..], folded);
      assert forall j | 0 < j <= i + 1 :: options[j] == options[1..][j - 1];
      i := i + 1;
    }
  }

  /** A stored option resolves to itself exactly when cleaning leaves it alone, or its cleaned text names
      no option and happens to be its own number. */
  lemma OptionResolvesToItself(x: Texts, options: seq<string>, i: nat)
    requires x.alphabet.Lawful() && OptionsOk(x, options) && i < |options|
    ensures ResolveVoteChoice(x, options[i], options) == Some(options[i]) <==>
            Fixed(x, options[i], VOTE_OPTION_CHARACTER_LIMIT) || NumberLeadsBack(x, options, i)
  {
    var o := options[i];
    assert OptionOk(x, o);
    var clean := CleanMessage(x, o, VOTE_CHOICE_CHARACTER_LIMIT);
    CleanIsTrim(x, o, VOTE_CHOICE_CHARACTER_LIMIT);
    CleanIsTrim(x, o, VOTE_OPTION_CHARACTER_LIMIT);
    assert clean == CleanMessage(x, o, VOTE_OPTION_CHARACTER_LIMIT);
    FirstOfItsFold(x, options, i);
    if clean != o {
      SpoiltFold(x, o);
      var named := FindFolded(x, options, x.alphabet.Fold(clean));
      DistinctOptions(x, options);
    }
  }

  lemma DistinctOptions(x: Texts, options: seq<string>)
    requires OptionsOk(x, options)
    ensures forall i, j | 0 <= i < j < |options| :: options[i] != options[j]
  {
    forall i, j | 0 <= i < j < |options| ensures options[i] != options[j] {
      assert x.alphabet.Fold(options[i]) != x.alphabet.Fold(options[j]);
    }
  }

  /** A cleaned option starts with no space, so trimming it only shortens it, and so does its fold. */
  lemma SpoiltFold(x: Texts, o: string)
    requires x.alphabet.Lawful() && OptionOk(x, o) && Trim(x.alphabet, o) != o
    ensures x.alphabet.Fold(Trim(x.alphabet, o)) != x.alphabet.Fold(o)
  {
    CleanedTrimsRight(x, o, VOTE_OPTION_CHARACTER_LIMIT);
    RightTrimmed(x.alphabet, o);
    FoldLength(x.alphabet, o, Trim(x.alphabet, o));
  }

  /** Resolving again what was resolved gives it again exactly when it does not end in a space, or its
      number leads back to it. */
  lemma ResolveIsIdempotent(x: Texts, choice: string, options: seq<string>, i: nat)
    requires x.alphabet.Lawful() && OptionsOk(x, options) && i < |options|
    requires ResolveVoteChoice(x, choice, options) == Some(options[i])
    ensures ResolveVoteChoice(x, options[i], options) == ResolveVoteChoice(x, choice, options) <==>
            !EndsInSpace(x, options[i]) || NumberLeadsBack(x, options, i)
  {
    OptionResolvesToItself(x, options, i);
    assert OptionOk(x, options[i]);
    CleanedIsFixed(x, options[i], VOTE_OPTION_CHARACTER_LIMIT);
  }

  lemma {:induction false} LatinFold(s: string)
    ensures LATIN.alphabet.Fold(s) == s
  {
    if s != "" { LatinFold(s[1..]); }
  }

  lemma LatinOption(word: string)
    requires |word| + 1 == VOTE_OPTION_CHARACTER_LIMIT && '\0' !in word && '\r' !in word
    requires !LATIN.alphabet.isSpace(word[0]) && !LATIN.alphabet.isSpace(word[|word| - 1])
    ensures OptionOk(LATIN, word + " ") && HasVisibleText(LATIN, word)
    ensures CleanMessage(LATIN, word + " ", VOTE_CHOICE_CHARACTER_LIMIT) == word
  {
    hide CleanMessage;
    var limit := VOTE_OPTION_CHARACTER_LIMIT;
    CutAfterSpace(LATIN, word, limit);
    CleanIsTrim(LATIN, word + " ", limit);
    CleanIsTrim(LATIN, word + " ", VOTE_CHOICE_CHARACTER_LIMIT);
    assert IsCleaned(LATIN, word + " ", limit) by { assert CleanMessage(LATIN, word + " b", limit) == word + " "; }
    assert word[0] in word && word[0] in word + " " && LATIN.visible(word[0]);
  }

  lemma LatinOptions(word: string)
    requires |word| + 1 == VOTE_OPTION_CHARACTER_LIMIT && '\0' !in word && '\r' !in word
    requires !LATIN.alphabet.isSpace(word[0]) && !LATIN.alphabet.isSpace(word[|word| - 1])
    ensures LATIN.alphabet.Lawful() && OptionsOk(LATIN, [word + " ", "b"])
    ensures CleanMessage(LATIN, word + " ", VOTE_CHOICE_CHARACTER_LIMIT) == word
    ensures FindFolded(LATIN, [word + " ", "b"], LATIN.alphabet.Fold(word)).None? && HasVisibleText(LATIN, word)
  {
    hide CleanMessage, OptionOk, HasVisibleText, FindFolded;
    var options := [word + " ", "b"];
    LatinIsLawful();
    LatinOption(word);
    ShortOption();
    LatinFold(word + " "); LatinFold("b"); LatinFold(word);
    assert |options[0]| != |options[1]|;
  }

  lemma LatinIsLawful()
    ensures LATIN.alphabet.Lawful()
  {
  }

  lemma ShortOption()
    ensures OptionOk(LATIN, "b")
  {
    CleanIsTrim(LATIN, "b", VOTE_OPTION_CHARACTER_LIMIT);
    assert TrimLeft(LATIN.alphabet, "b") == "b" && TrimRight(LATIN.alphabet, "b") == "b";
    assert CleanMessage(LATIN, "b", VOTE_OPTION_CHARACTER_LIMIT) == "b";
    assert "b"[0] == 'b' && LATIN.visible('b');
  }

  /** A stored option that resolves to nothing: it is cut right after a space. */
  lemma AnOptionCanBeLost() returns (options: seq<string>)
    ensures OptionsOk(LATIN, options) && options != [] && ResolveVoteChoice(LATIN, options[0], options).None?
  {
    hide CleanMessage, OptionsOk, FindFolded;
    var word := Repeat('a', VOTE_OPTION_CHARACTER_LIMIT - 1);
    options := [word + " ", "b"];
    LatinOptions(word);
    assert Decimal(word) == DecimalFrom(0, word) == None;
  }

  /** And one that resolves to itself although cleaning changes it: it reads as its own number. */
  lemma ANumberCanLeadBack() returns (options: seq<string>)
    ensures OptionsOk(LATIN, options) && options != [] && EndsInSpace(LATIN, options[0])
    ensures NumberLeadsBack(LATIN, options, 0) && ResolveVoteChoice(LATIN, options[0], options) == Some(options[0])
  {
    hide CleanMessage, OptionsOk, FindFolded;
    var zeros := Repeat('0', VOTE_OPTION_CHARACTER_LIMIT - 2);
    var word := zeros + "1";
    options := [word + " ", "b"];
    assert word[0] == '0' && word[|word| - 1] == '1';
    LatinOptions(word);
    LeadingZeros(|zeros|);
  }

  lemma {:induction false} LeadingZeros(n: nat)
    ensures DecimalFrom(0, Repeat('0', n) + "1") == Some(1)
  {
    var s := Repeat('0', n) + "1";
    if n == 0 {
      assert s == "1" && s[1..] == "";
    } else {
      assert s[0] == '0' && s[1..] == Repeat('0', n - 1) + "1";
      LeadingZeros(n - 1);
    }
  }
}
