/** Fitting the activated lore into a character budget, and the order in which lore is shown. */
module PersonaBudget {
  import opened Wrappers
  import opened PersonaMatching
  import PersonaLore

  datatype VisibleLore = VisibleLore(priority: int, insertOrder: int, content: string)

  // ---------------------------------------------------------------- sorting positions

  type Key = (int, int, int)

  predicate Less(x: Key, y: Key) {
    x.0 < y.0 || (x.0 == y.0 && (x.1 < y.1 || (x.1 == y.1 && x.2 < y.2)))
  }

  predicate Sorted(key: nat -> Key, s: seq<nat>) {
    forall i, j | 0 <= i < j < |s| :: Less(key(s[i]), key(s[j]))
  }

  /** Equal keys mean equal positions, so a sort by key has only one outcome. */
  ghost predicate Distinguishes(key: nat -> Key) {
    forall p, q | key(p) == key(q) :: p == q
  }

  function Insert(key: nat -> Key, p: nat, s: seq<nat>): seq<nat> {
    if s == [] || Less(key(p), key(s[0])) then [p] + s else [s[0]] + Insert(key, p, s[1..])
  }

  function SortBy(key: nat -> Key, s: seq<nat>): seq<nat> {
    if s == [] then [] else Insert(key, s[0], SortBy(key, s[1..]))
  }

  predicate NoRepeats(s: seq<nat>) { forall i, j | 0 <= i < j < |s| :: s[i] != s[j] }

  lemma {:induction false} InsertKeeps(key: nat -> Key, p: nat, s: seq<nat>)
    ensures multiset(Insert(key, p, s)) == multiset(s) + multiset{p}
  {
    if s != [] && !Less(key(p), key(s[0])) {
      InsertKeeps(key, p, s[1..]);
      assert s == [s[0]] + s[1..];
    }
  }

  lemma {:induction false} InsertSorts(key: nat -> Key, p: nat, s: seq<nat>)
    requires Distinguishes(key) && Sorted(key, s) && p !in s
    ensures Sorted(key, Insert(key, p, s))
  {
    if s != [] && !Less(key(p), key(s[0])) {
      var rest := Insert(key, p, s[1..]);
      InsertSorts(key, p, s[1..]);
      InsertKeeps(key, p, s[1..]);
      assert key(p) != key(s[0]);
      forall j | 0 <= j < |rest| ensures Less(key(s[0]), key(rest[j])) {
        assert rest[j] in multiset(rest);
        assert rest[j] == p || rest[j] in s[1..];
      }
    }
  }

  /** Sorting keeps the members and puts them in the only order their keys allow. */
  lemma {:induction false} SortBySorts(key: nat -> Key, s: seq<nat>)
    requires Distinguishes(key) && NoRepeats(s)
    ensures Sorted(key, SortBy(key, s)) && multiset(SortBy(key, s)) == multiset(s)
  {
    if s != [] {
      SortBySorts(key, s[1..]);
      assert s == [s[0]] + s[1..];
      assert s[0] !in multiset(s[1..]);
      assert s[0] !in multiset(SortBy(key, s[1..]));
      InsertSorts(key, s[0], SortBy(key, s[1..]));
      InsertKeeps(key, s[0], SortBy(key, s[1..]));
    }
  }

  // ---------------------------------------------------------------- what greedy means

  /** Highest priority first, then the entry's insertion order, then its position. */
  function PriorityKey(entries: seq<VisibleLore>): nat -> Key {
    (p: nat) => if p < |entries| then (-entries[p].priority, entries[p].insertOrder, p) else (0, 0, p)
  }

  predicate Before(entries: seq<VisibleLore>, p: nat, q: nat) {
    Less(PriorityKey(entries)(p), PriorityKey(entries)(q))
  }

  /** The higher priority goes first; between equals the earlier insertion, and then the earlier position. */
  lemma PriorityDecides(entries: seq<VisibleLore>, p: nat, q: nat)
    requires p < |entries| && q < |entries|
    ensures Before(entries, p, q) <==>
      if entries[p].priority != entries[q].priority then entries[p].priority > entries[q].priority
      else if entries[p].insertOrder != entries[q].insertOrder
      then entries[p].insertOrder < entries[q].insertOrder
      else p < q
  {
  }

  /** The characters of the entries before `n` that a set of positions holds. */
  function Total(entries: seq<VisibleLore>, positions: set<nat>, n: nat): nat
    requires n <= |entries|
  {
    if n == 0 then 0
    else Total(entries, positions, n - 1) + if n - 1 in positions then |entries[n - 1].content| else 0
  }

  function Size(entries: seq<VisibleLore>, positions: set<nat>): nat { Total(entries, positions, |entries|) }

  function Earlier(entries: seq<VisibleLore>, chosen: set<nat>, p: nat): set<nat> {
    set q | q in chosen && Before(entries, q, p)
  }

  /** An entry is chosen exactly when it still fits after the chosen entries of higher priority. */
  ghost predicate Greedy(entries: seq<VisibleLore>, budget: nat, chosen: set<nat>) {
    && (forall p | p in chosen :: p < |entries|)
    && (forall p: nat | p < |entries| ::
          p in chosen <==> Size(entries, Earlier(entries, chosen, p)) + |entries[p].content| <= budget)
  }

  lemma {:induction false} TotalAdd(entries: seq<VisibleLore>, positions: set<nat>, p: nat, n: nat)
    requires p !in positions && n <= |entries|
    ensures Total(entries, positions + {p}, n)
         == Total(entries, positions, n) + if p < n then |entries[p].content| else 0
  {
    if n > 0 { TotalAdd(entries, positions, p, n - 1); }
  }

  lemma {:induction false} TotalMonotone(entries: seq<VisibleLore>, small: set<nat>, large: set<nat>, n: nat)
    requires n <= |entries| && small <= large
    ensures Total(entries, small, n) <= Total(entries, large, n)
  {
    if n > 0 { TotalMonotone(entries, small, large, n - 1); }
  }

  /** Nothing more fits beside a greedy choice. */
  lemma GreedyIsMaximal(entries: seq<VisibleLore>, budget: nat, chosen: set<nat>, p: nat)
    requires Greedy(entries, budget, chosen) && p < |entries| && p !in chosen
    ensures Size(entries, chosen) + |entries[p].content| > budget
  {
    TotalMonotone(entries, Earlier(entries, chosen, p), chosen, |entries|);
  }

  function Positions(n: nat): (r: seq<nat>)
    ensures |r| == n && NoRepeats(r) && forall i | 0 <= i < n :: r[i] == i
    ensures forall p: nat :: p in r <==> p < n
  {
    if n == 0 then [] else Positions(n - 1) + [n - 1]
  }

  lemma OrderIsComplete(order: seq<nat>, n: nat)
    requires multiset(order) == multiset(Positions(n))
    ensures |order| == n && forall p: nat :: p in order <==> p < n
  {
    assert |multiset(order)| == |order| && |multiset(Positions(n))| == n;
    forall p: nat ensures p in order <==> p < n {
      assert p in multiset(order) <==> p in order;
      assert p in multiset(Positions(n)) <==> p in Positions(n);
    }
  }

  function PriorityOrder(entries: seq<VisibleLore>): (order: seq<nat>)
    ensures |order| == |entries| && forall p: nat :: p in order <==> p < |entries|
    ensures forall i, j | 0 <= i < j < |order| :: Before(entries, order[i], order[j])
  {
    SortBySorts(PriorityKey(entries), Positions(|entries|));
    OrderIsComplete(SortBy(PriorityKey(entries), Positions(|entries|)), |entries|);
    SortBy(PriorityKey(entries), Positions(|entries|))
  }

  /** The greedy choice is unique: two of them agree, by induction along the priority order. */
  lemma GreedyIsUnique(entries: seq<VisibleLore>, budget: nat, one: set<nat>, other: set<nat>)
    requires Greedy(entries, budget, one) && Greedy(entries, budget, other)
    ensures one == other
  {
    var order := PriorityOrder(entries);
    AgreeAlong(entries, budget, one, other, |order|);
    forall p: nat | p < |entries| ensures p in one <==> p in other {
      assert p in order;
    }
  }

  lemma {:induction false} AgreeAlong(entries: seq<VisibleLore>, budget: nat, one: set<nat>, other: set<nat>, k: nat)
    requires Greedy(entries, budget, one) && Greedy(entries, budget, other) && k <= |entries|
    ensures forall i | 0 <= i < k :: PriorityOrder(entries)[i] in one <==> PriorityOrder(entries)[i] in other
  {
    if k > 0 {
      AgreeAlong(entries, budget, one, other, k - 1);
      var order := PriorityOrder(entries);
      var p := order[k - 1];
      assert p in order;
      forall q: nat | Before(entries, q, p) && q < |entries| ensures q in one <==> q in other {
        assert q in order;
        var i :| 0 <= i < |order| && order[i] == q;
        assert i < k - 1;
      }
      assert Earlier(entries, one, p) == Earlier(entries, other, p);
    }
  }

  /** When everything fits, everything is chosen. */
  lemma GreedyTakesAll(entries: seq<VisibleLore>, budget: nat, chosen: set<nat>)
    requires Greedy(entries, budget, chosen) && Chars(entries) <= budget
    ensures (forall p: nat | p < |entries| :: p in chosen) && Pick(entries, chosen, |entries|) == entries
  {
    assert entries[..|entries|] == entries;
    forall p: nat | p < |entries| ensures p in chosen {
      assert !Before(entries, p, p);
      EachFits(entries, Earlier(entries, chosen, p), p, |entries|);
    }
    PickAll(entries, chosen, |entries|);
  }

  lemma {:induction false} EachFits(entries: seq<VisibleLore>, others: set<nat>, p: nat, n: nat)
    requires p < |entries| && n <= |entries| && p !in others
    ensures Total(entries, others, n) + (if p < n then |entries[p].content| else 0) <= Chars(entries[..n])
  {
    if n > 0 {
      EachFits(entries, others, p, n - 1);
      assert entries[..n] == entries[..n - 1] + [entries[n - 1]];
      CharsSnoc(entries[..n - 1], entries[n - 1]);
    }
  }

  lemma {:induction false} PickAll(entries: seq<VisibleLore>, chosen: set<nat>, n: nat)
    requires n <= |entries| && forall p: nat | p < |entries| :: p in chosen
    ensures Pick(entries, chosen, n) == entries[..n]
  {
    if n > 0 { PickAll(entries, chosen, n - 1); }
  }

  // ---------------------------------------------------------------- the selection

  function Pick(entries: seq<VisibleLore>, chosen: set<nat>, n: nat): seq<VisibleLore>
    requires n <= |entries|
  {
    if n == 0 then []
    else Pick(entries, chosen, n - 1) + if n - 1 in chosen then [entries[n - 1]] else []
  }

  function Chars(lore: seq<VisibleLore>): nat {
    if lore == [] then 0 else Chars(lore[..|lore| - 1]) + |lore[|lore| - 1].content|
  }

  lemma CharsSnoc(lore: seq<VisibleLore>, last: VisibleLore)
    ensures Chars(lore + [last]) == Chars(lore) + |last.content|
  {
    assert (lore + [last])[..|lore|] == lore;
  }

  lemma {:induction false} PickHoldsTotal(entries: seq<VisibleLore>, chosen: set<nat>, n: nat)
    requires n <= |entries|
    ensures Chars(Pick(entries, chosen, n)) == Total(entries, chosen, n)
  {
    if n > 0 {
      PickHoldsTotal(entries, chosen, n - 1);
      if n - 1 in chosen { CharsSnoc(Pick(entries, chosen, n - 1), entries[n - 1]); }
      else { assert Pick(entries, chosen, n) == Pick(entries, chosen, n - 1); }
    }
  }

  lemma {:induction false} PickIsThere(entries: seq<VisibleLore>, chosen: set<nat>, n: nat, p: nat)
    requires p < n <= |entries| && p in chosen
    ensures entries[p] in Pick(entries, chosen, n)
  {
    if p < n - 1 { PickIsThere(entries, chosen, n - 1, p); }
  }

  /** The entry no other entry comes before. */
  ghost predicate Top(entries: seq<VisibleLore>, p: nat) {
    p < |entries| && forall q: nat | q < |entries| && q != p :: Before(entries, p, q)
  }

  /** The loop over positions in priority order. */
  method Accept(entries: seq<VisibleLore>, budget: nat) returns (accepted: set<nat>, fallback: Option<nat>)
    ensures Greedy(entries, budget, accepted) && Size(entries, accepted) <= budget
    ensures accepted == {} && entries != [] ==> fallback.Some? && Top(entries, fallback.value)
    ensures entries == [] ==> fallback.None?
  {
    var byPriority := PriorityOrder(entries);
    var used := 0;
    accepted, fallback := {}, None;
    TotalOfNone(entries, |entries|);
    for k := 0 to |byPriority|
      invariant used == Size(entries, accepted) <= budget
      invariant forall p | p in accepted :: p in byPriority[..k]
      invariant Decided(entries, budget, accepted, byPriority, k)
      invariant k == 0 ==> fallback.None?
      invariant accepted == {} && k > 0 ==> fallback == Some(byPriority[0])
    {
      var p := byPriority[k];
      assert p in byPriority && p !in byPriority[..k];
      var length := |entries[p].content|;
      DecideNext(entries, budget, accepted, byPriority, k);
      if used + length <= budget {
        TotalAdd(entries, accepted, p, |entries|);
        accepted := accepted + {p};
        used := used + length;
      } else if fallback.None? {
        fallback := Some(p);
      }
    }
    assert byPriority[..|byPriority|] == byPriority;
    AllDecided(entries, budget, accepted, byPriority);
    if entries != [] { assert Top(entries, byPriority[0]) by { FirstIsTop(entries, byPriority); } }
  }

  lemma AllDecided(entries: seq<VisibleLore>, budget: nat, accepted: set<nat>, order: seq<nat>)
    requires order == PriorityOrder(entries) && Decided(entries, budget, accepted, order, |order|)
    requires forall p | p in accepted :: p in order
    ensures Greedy(entries, budget, accepted)
  {
    forall p: nat | p < |entries|
      ensures p in accepted <==> Size(entries, Earlier(entries, accepted, p)) + |entries[p].content| <= budget
    {
      assert p in order;
      var i :| 0 <= i < |order| && order[i] == p;
    }
  }

  lemma FirstIsTop(entries: seq<VisibleLore>, order: seq<nat>)
    requires entries != [] && order == PriorityOrder(entries)
    ensures Top(entries, order[0])
  {
    assert order[0] in order;
    forall q: nat | q < |entries| && q != order[0] ensures Before(entries, order[0], q) {
      assert q in order;
      var i :| 0 <= i < |order| && order[i] == q;
    }
  }

  lemma {:induction false} TotalOfNone(entries: seq<VisibleLore>, n: nat)
    requires n <= |entries|
    ensures Total(entries, {}, n) == 0
  {
    if n > 0 { TotalOfNone(entries, n - 1); }
  }

  /** The first `k` positions of the order have been decided greedily. */
  ghost predicate Decided(entries: seq<VisibleLore>, budget: nat, accepted: set<nat>, order: seq<nat>, k: nat)
    requires k <= |order|
  {
    forall i | 0 <= i < k :: order[i] < |entries| &&
      (order[i] in accepted <==>
         Size(entries, Earlier(entries, accepted, order[i])) + |entries[order[i]].content| <= budget)
  }

  /** Deciding the next position leaves every earlier decision as it was. */
  lemma DecideNext(entries: seq<VisibleLore>, budget: nat, accepted: set<nat>, order: seq<nat>, k: nat)
    requires order == PriorityOrder(entries) && k < |order|
    requires forall p | p in accepted :: p in order[..k]
    requires Decided(entries, budget, accepted, order, k)
    ensures order[k] in order && order[k] !in accepted
    ensures Decided(entries, budget,
      if Size(entries, accepted) + |entries[order[k]].content| <= budget then accepted + {order[k]} else accepted,
      order, k + 1)
  {
    var p := order[k];
    assert p in order;
    assert Earlier(entries, accepted, p) == accepted;
    assert Earlier(entries, accepted + {p}, p) == accepted;
    assert p !in accepted;
    forall i | 0 <= i < k
      ensures Earlier(entries, accepted + {p}, order[i]) == Earlier(entries, accepted, order[i])
    {
      assert Before(entries, order[i], p);
    }
  }

  /** What fitting yields: the greedy choice in its given order, or, when nothing fits, the top entry
      cut to exactly the budget. */
  ghost predicate Fits(entries: seq<VisibleLore>, budget: nat, fitted: seq<VisibleLore>) {
    exists chosen ::
      && Greedy(entries, budget, chosen)
      && (budget == 0 || entries == [] ==> fitted == [])
      && (budget > 0 && chosen != {} ==> fitted == Pick(entries, chosen, |entries|))
      && (budget > 0 && chosen == {} && entries != [] ==>
            exists top: nat :: Top(entries, top) && |entries[top].content| > budget &&
              fitted == [entries[top].(content := entries[top].content[..budget])])
  }

  method FitLoreBudget(entries: seq<VisibleLore>, budget: nat) returns (fitted: seq<VisibleLore>)
    ensures Fits(entries, budget, fitted)
    ensures Chars(fitted) <= budget
    ensures budget > 0 && entries != [] ==> fitted != []
    ensures budget > 0 && Chars(entries) <= budget ==> fitted == entries
  {
    var accepted, fallback := Accept(entries, budget);
    if budget == 0 {
      return [];
    }
    PickHoldsTotal(entries, accepted, |entries|);
    if Chars(entries) <= budget { GreedyTakesAll(entries, budget, accepted); }
    if accepted == {} {
      if fallback.None? {
        return [];
      }
      var top := entries[fallback.value];
      assert Earlier(entries, {}, fallback.value) == {};
      TotalOfNone(entries, |entries|);
      fitted := [top.(content := top.content[..budget])];
      assert Chars(fitted[..0]) == 0;
      return;
    }
    fitted := Pick(entries, accepted, |entries|);
    var p :| p in accepted;
    PickIsThere(entries, accepted, |entries|, p);
  }

  // ---------------------------------------------------------------- scan, order, fit

  /** The order lore is shown in: the entry's insertion order, then its place in the lorebook. */
  function InsertionKey(card: PersonaLore.Card): nat -> Key {
    (i: nat) => if i < |card.lorebook| then (card.lorebook[i].insertOrder, i, i) else (0, i, i)
  }

  function Members(selected: set<nat>, n: nat): (r: seq<nat>)
    ensures NoRepeats(r) && forall i :: i in r <==> i in selected && i < n
  {
    if n == 0 then [] else Members(selected, n - 1) + if n - 1 in selected then [n - 1] else []
  }

  /** What is shown of an entry: its visible content, with its priority and its place. */
  function Show(o: PersonaLore.Oracles, card: PersonaLore.Card, ordered: seq<nat>): (shown: seq<VisibleLore>)
    requires forall k | 0 <= k < |ordered| :: ordered[k] < |card.lorebook|
    ensures |shown| == |ordered|
    ensures forall k | 0 <= k < |shown| ::
      var entry := card.lorebook[ordered[k]];
      shown[k] == VisibleLore(entry.priority, entry.insertOrder, PersonaLore.VisibleContent(o.alphabet, entry))
  {
    if ordered == [] then []
    else
      var entry := card.lorebook[ordered[0]];
      [VisibleLore(entry.priority, entry.insertOrder, PersonaLore.VisibleContent(o.alphabet, entry))]
        + Show(o, card, ordered[1..])
  }

  /** The selected entries in the order they are shown in. */
  function Ordered(card: PersonaLore.Card, selected: set<nat>): (ordered: seq<nat>)
    requires forall i | i in selected :: i < |card.lorebook|
    ensures multiset(ordered) == multiset(selected)
    ensures forall k | 0 <= k < |ordered| :: ordered[k] < |card.lorebook|
    ensures forall i, j | 0 <= i < j < |ordered| ::
      var one, other := card.lorebook[ordered[i]].insertOrder, card.lorebook[ordered[j]].insertOrder;
      one < other || (one == other && ordered[i] < ordered[j])
  {
    var members := Members(selected, |card.lorebook|);
    SortBySorts(InsertionKey(card), members);
    NoRepeatsMultiset(members, selected);
    AllThere(card, SortBy(InsertionKey(card), members), selected);
    InsertionDecides(card, SortBy(InsertionKey(card), members));
    SortBy(InsertionKey(card), members)
  }

  lemma AllThere(card: PersonaLore.Card, ordered: seq<nat>, selected: set<nat>)
    requires multiset(ordered) == multiset(selected) && forall i | i in selected :: i < |card.lorebook|
    ensures forall k | 0 <= k < |ordered| :: ordered[k] < |card.lorebook|
  {
    forall k | 0 <= k < |ordered| ensures ordered[k] < |card.lorebook| { assert ordered[k] in multiset(ordered); }
  }

  method ActiveLore(o: PersonaLore.Oracles, card: PersonaLore.Card, recent: string, budget: nat)
    returns (lore: seq<VisibleLore>, ordered: seq<nat>)
    requires o.alphabet.Lawful()
    ensures multiset(ordered) == multiset(PersonaLore.Iterate(PersonaLore.Scan(o, card, recent),
      PersonaLore.Rounds(card)))
    ensures forall k | 0 <= k < |ordered| :: ordered[k] < |card.lorebook|
    ensures forall i, j | 0 <= i < j < |ordered| ::
      var one, other := card.lorebook[ordered[i]].insertOrder, card.lorebook[ordered[j]].insertOrder;
      one < other || (one == other && ordered[i] < ordered[j])
    ensures Fits(Show(o, card, ordered), budget, lore) && Chars(lore) <= budget
  {
    hide Ordered, Show, Fits, Chars;
    var selected := PersonaLore.ScanLore(o, card, recent);
    ordered := Ordered(card, selected);
    lore := FitLoreBudget(Show(o, card, ordered), budget);
  }

  /** Lore is shown in insertion order, and in lorebook order where that says nothing. */
  lemma InsertionDecides(card: PersonaLore.Card, ordered: seq<nat>)
    requires Sorted(InsertionKey(card), ordered) && forall k | 0 <= k < |ordered| :: ordered[k] < |card.lorebook|
    ensures forall i, j | 0 <= i < j < |ordered| ::
      var one, other := card.lorebook[ordered[i]].insertOrder, card.lorebook[ordered[j]].insertOrder;
      one < other || (one == other && ordered[i] < ordered[j])
  {
    forall i, j | 0 <= i < j < |ordered|
      ensures var one, other := card.lorebook[ordered[i]].insertOrder, card.lorebook[ordered[j]].insertOrder;
        one < other || (one == other && ordered[i] < ordered[j])
    {
      assert Less(InsertionKey(card)(ordered[i]), InsertionKey(card)(ordered[j]));
    }
  }

  lemma {:induction false} NoRepeatsMultiset(s: seq<nat>, elements: set<nat>)
    requires NoRepeats(s) && forall i :: i in s <==> i in elements
    ensures multiset(s) == multiset(elements)
  {
    if s == [] {
      assert elements == {};
    } else {
      assert s == [s[0]] + s[1..] && s[0] in s;
      NoRepeatsMultiset(s[1..], elements - {s[0]});
      assert elements == (elements - {s[0]}) + {s[0]};
    }
  }
}
