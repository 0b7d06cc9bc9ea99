/** What the outside world sees of a run: which runtimes were authorized and not yet proven gone, which
    effects were let loose, by whom, and which events each create-and-start request was told of. */
module LifecycleHistory {
  import opened Wrappers
  import opened LifecycleModel
  import opened LifecycleSteps
  import opened LifecycleInvariant
  import opened LifecycleMoves
  import opened LifecycleRuns

  // ---------------------------------------------------------------- the notes of a run

  datatype Note =
    | Authorized(a: AgentId, operation: OperationId, identity: Identity, generation: Generation)
    | ProvenGone(a: AgentId)
    | Renamed(a: AgentId, owner: Token)

  /** The tables with what was ever claimed by which generation, what was told about runtimes, and the
      events reported as new to each create-and-start request. */
  datatype World = World(t: Tables, claims: map<Key, Generation>, notes: seq<Note>, reported: map<Key, seq<Event>>)

  predicate AuthorizesEffect(c: Command) { c.DoAuthorizeLaunch? || c.DoAuthorizeCreateStart? || c.DoAuthorizeStop? }

  /** What a committed step tells the outside world about a runtime. */
  function NotesOf(t: Tables, u: Tables, e: Ambient, c: Command): seq<Note> {
    var a := Target(t, c);
    if AuthorizesEffect(c) then
      if a in u.sessions then [Authorized(a, c.operation, u.sessions[a].identity, e.generation)] else []
    else if LicenceOf(c).Proof() then [ProvenGone(a)]
    else if LicenceOf(c).Adopts? then (if a in u.sessions then [Renamed(a, u.sessions[a].identity.owner)] else [])
    else []
  }

  /** The runtimes authorized for an agent and not since proven gone. */
  function Live(notes: seq<Note>, a: AgentId): set<Identity> {
    if notes == [] then {}
    else
      var before, last := Live(notes[..|notes| - 1], a), notes[|notes| - 1];
      match last
      case Authorized(b, _, identity, _) => if b == a then before + {identity} else before
      case ProvenGone(b) => if b == a then {} else before
      case Renamed(b, owner) => if b == a then (set i | i in before :: i.(owner := owner)) else before
  }

  /** The operations authorized for an agent since its runtime was last proven gone or adopted. */
  function Spent(notes: seq<Note>, a: AgentId): set<OperationId> {
    if notes == [] then {}
    else
      var before, last := Spent(notes[..|notes| - 1], a), notes[|notes| - 1];
      match last
      case Authorized(b, operation, _, _) => if b == a then before + {operation} else before
      case ProvenGone(b) => if b == a then {} else before
      case Renamed(b, _) => if b == a then {} else before
  }

  // ---------------------------------------------------------------- what the notes agree with

  ghost predicate LiveAgrees(t: Tables, live: set<Identity>, a: AgentId) {
    if a !in t.sessions then live == {}
    else
      && (forall i | i in live :: i == t.sessions[a].identity && !i.AllBlank())
      && (t.sessions[a].intentStatus.EffectApplied? ==> live == {})
  }

  ghost predicate SpentAgrees(t: Tables, spent: set<OperationId>, a: AgentId) {
    forall o | o in spent ::
      && o.Operation? && (o.key in t.rows || o.key in t.results)
      && (a in t.sessions && t.sessions[a].intentId == o ==> !t.sessions[a].intentStatus.Prepared?)
  }

  /** What one step does to the two sets of one agent. */
  datatype Effect = Untouched | Let(operation: OperationId, identity: Identity) | Ended | Moved(owner: Token)

  function LiveAfter(live: set<Identity>, x: Effect): set<Identity> {
    match x
    case Untouched => live
    case Let(_, identity) => live + {identity}
    case Ended => {}
    case Moved(owner) => set i | i in live :: i.(owner := owner)
  }

  function SpentAfter(spent: set<OperationId>, x: Effect): set<OperationId> {
    match x
    case Untouched => spent
    case Let(operation, _) => spent + {operation}
    case Ended => {}
    case Moved(_) => {}
  }

  /** A step and what it tells belong together: an authorization holds the operation and the runtime it
      names, a proof speaks of the session that moved, and an adoption of its new owner. */
  ghost predicate Tells(t: Tables, u: Tables, a: AgentId, m: Move, l: Licence, x: Effect) {
    match x
    case Untouched => l.Plain? || m.Quiet? || m.a != a
    case Let(operation, identity) =>
      && a in t.sessions && a in u.sessions
      && operation.Operation? && operation.key in t.rows
      && t.sessions[a].intentId == operation && t.sessions[a].intentStatus.Prepared?
      && u.sessions[a].intentStatus.EffectInflight? && u.sessions[a].identity == identity && !identity.AllBlank()
      && (t.sessions[a].identity.AllBlank() || t.sessions[a].identity == identity)
    case Ended => l.Proof()
    case Moved(owner) => l.Adopts? && a in u.sessions && (m.Quiet? || m.a == a) && u.sessions[a].identity.owner == owner
  }

  lemma StepLiveAgrees(t: Tables, u: Tables, m: Move, l: Licence, n: seq<Event>, g: Generation, a: AgentId,
                       live: set<Identity>, x: Effect)
    requires Inv(t) && Moves(t, u, m, l, n, g) && Tells(t, u, a, m, l, x) && LiveAgrees(t, live, a)
    ensures LiveAgrees(u, LiveAfter(live, x), a)
  {
    hide Inv, Around, RowStored, Owns;
    if a in t.sessions { IntentHeld(t, a); }
  }

  lemma StepSpentAgrees(t: Tables, u: Tables, m: Move, l: Licence, n: seq<Event>, g: Generation, a: AgentId,
                        spent: set<OperationId>, x: Effect)
    requires Inv(t) && Moves(t, u, m, l, n, g) && Tells(t, u, a, m, l, x) && SpentAgrees(t, spent, a)
    ensures SpentAgrees(u, SpentAfter(spent, x), a)
  {
    hide Around, RowStored, Inv;
    if a in t.sessions { IntentHeld(t, a); }
  }

  // ---------------------------------------------------------------- every step tells the truth

  /** The effect of a step's notes on one agent. */
  function EffectOf(notes: seq<Note>, a: AgentId): Effect {
    if notes == [] then Untouched
    else match notes[0]
      case Authorized(b, operation, identity, _) => if b == a then Let(operation, identity) else Untouched
      case ProvenGone(b) => if b == a then Ended else Untouched
      case Renamed(b, owner) => if b == a then Moved(owner) else Untouched
  }

  /** An accepted authorization belongs to the generation that claimed the request, finds its operation
      prepared and leaves it in flight on a complete runtime identity. */
  ghost predicate LetsLoose(t: Tables, u: Tables, e: Ambient, a: AgentId, operation: OperationId) {
    && a in t.sessions && a in u.sessions
    && operation.Operation? && operation.key in t.rows && t.rows[operation.key].generation == e.generation
    && t.sessions[a].intentId == operation && t.sessions[a].intentStatus.Prepared?
    && u.sessions[a].intentStatus.EffectInflight? && !u.sessions[a].identity.AnyBlank()
    && (t.sessions[a].identity.AllBlank() || t.sessions[a].identity == u.sessions[a].identity)
  }

  lemma LaunchLetsLoose(t: Tables, e: Ambient, c: Command)
    requires c.DoAuthorizeLaunch? || c.DoAuthorizeCreateStart?
    requires Inv(t) && Perform(t, e, c).Ok?
    ensures LetsLoose(t, Perform(t, e, c).value.0, e, Target(t, c), c.operation)
  {
    hide Inv;
    IntentHeld(t, Target(t, c));
  }

  lemma StopLetsLoose(t: Tables, e: Ambient, c: Command)
    requires c.DoAuthorizeStop? && Inv(t) && Perform(t, e, c).Ok?
    ensures LetsLoose(t, Perform(t, e, c).value.0, e, Target(t, c), c.operation)
  {
    hide Inv, PayloadAgent;
  }

  lemma StepTells(t: Tables, e: Ambient, c: Command, m: Move, a: AgentId)
    requires Inv(t) && Perform(t, e, c).Ok?
    requires var (u, reply) := Perform(t, e, c).value;
      Moves(t, u, m, LicenceOf(c), Newly(reply), e.generation) && About(t, c, m, Newly(reply))
    ensures var u := Perform(t, e, c).value.0;
      Tells(t, u, a, m, LicenceOf(c), EffectOf(NotesOf(t, u, e, c), a))
  {
    hide Inv, Perform, Around, TouchMove, ClaimMove, CommitMove, RefuseMove, SettleMove, Target;
    if c.DoAuthorizeStop? { StopLetsLoose(t, e, c); }
    else if AuthorizesEffect(c) { LaunchLetsLoose(t, e, c); }
    MoverIsThere(t, Perform(t, e, c).value.0, m, LicenceOf(c), Newly(Perform(t, e, c).value.1), e.generation);
  }

  lemma MoverIsThere(t: Tables, u: Tables, m: Move, l: Licence, n: seq<Event>, g: Generation)
    requires Moves(t, u, m, l, n, g)
    ensures !m.Quiet? ==> m.a in u.sessions
  {
  }

  // ---------------------------------------------------------------- the invariant of a world

  function Told(reported: map<Key, seq<Event>>, k: Key): seq<Event> { if k in reported then reported[k] else [] }

  /** The events a create-and-start request has committed so far: those of its prepared result, or of its
      final one. */
  function CommittedEvents(t: Tables, k: Key): seq<Event> {
    if k in t.rows && t.rows[k].action.Create? && t.rows[k].prepared.Created? then t.rows[k].prepared.events
    else if k in t.results && t.results[k].kind.CreatedStarted? then t.results[k].events
    else []
  }

  function StepWorld(w: World, e: Ambient, c: Command): World {
    var step := Perform(w.t, e, c);
    if step.Err? then w
    else
      var (u, reply) := step.value;
      World(u,
            w.claims + (map k | k in u.rows && k !in w.t.rows :: u.rows[k].generation),
            w.notes + NotesOf(w.t, u, e, c),
            if KeyOf(c).Some? then w.reported[KeyOf(c).value := Told(w.reported, KeyOf(c).value) + Newly(reply)]
            else w.reported)
  }

  /** Every effect let loose was let loose by the generation that claimed its request, and not twice
      without a proof or an adoption in between. */
  ghost predicate NoteSound(w: World, i: nat)
    requires i < |w.notes|
  {
    w.notes[i].Authorized? ==>
      var note := w.notes[i];
      && note.operation.Operation? && note.operation.key in w.claims
      && w.claims[note.operation.key] == note.generation
      && note.operation !in Spent(w.notes[..i], note.a)
  }

  ghost predicate ClaimsAgree(t: Tables, claims: map<Key, Generation>) {
    && (forall k | k in t.rows :: k in claims && claims[k] == t.rows[k].generation)
    && (forall k | k in claims :: k in t.rows || k in t.results)
  }

  ghost predicate NotesAgree(t: Tables, notes: seq<Note>, a: AgentId) {
    LiveAgrees(t, Live(notes, a), a) && SpentAgrees(t, Spent(notes, a), a)
  }

  ghost predicate WorldInv(w: World) {
    && Inv(w.t)
    && ClaimsAgree(w.t, w.claims)
    && (forall a :: NotesAgree(w.t, w.notes, a))
    && (forall i: nat | i < |w.notes| :: NoteSound(w, i))
    && (forall k :: Told(w.reported, k) == CommittedEvents(w.t, k))
    && (forall k :: EventsLogged(w.t, k))
  }

  /** What a create-and-start request has committed is in the log's order and before the log's next number. */
  ghost predicate EventsLogged(t: Tables, k: Key) {
    LogOrdered(CommittedEvents(t, k)) && forall x | x in CommittedEvents(t, k) :: x.number < NextSequence(t.log)
  }

  lemma LogGrows(log: seq<Event>, after: seq<Event>)
    requires LogOrdered(after) && log <= after
    ensures NextSequence(log) <= NextSequence(after)
  {
  }

  lemma EventsLoggedStep(t: Tables, u: Tables, m: Move, l: Licence, n: seq<Event>, g: Generation, k: Key)
    requires Inv(t) && Inv(u) && Moves(t, u, m, l, n, g) && (n != [] ==> m.Claims? || m.Commits?)
    requires EventsLogged(t, k)
    ensures EventsLogged(u, k)
  {
    hide RowStored, Owns, Faithful, SameIntent, Sound, CommittedEvents;
    EventsStep(t, u, m, l, n, g, k);
    LogGrows(t.log, u.log);
    if n != [] && m.k == k {
      assert Continues(t.log, u.log, n);
      assert u.log[|u.log| - 1] == n[|n| - 1];
    }
  }

  lemma NotesAfter(t: Tables, u: Tables, e: Ambient, c: Command, notes: seq<Note>, a: AgentId)
    ensures var more := NotesOf(t, u, e, c);
      && Live(notes + more, a) == LiveAfter(Live(notes, a), EffectOf(more, a))
      && Spent(notes + more, a) == SpentAfter(Spent(notes, a), EffectOf(more, a))
  {
    hide Target, LicenceOf, AuthorizesEffect, Live, Spent;
    var more := NotesOf(t, u, e, c);
    if more == [] { assert notes + more == notes; }
    else {
      assert more == [more[0]];
      OneMoreNote(notes, more[0], a);
    }
  }

  lemma OneMoreNote(notes: seq<Note>, n: Note, a: AgentId)
    ensures Live(notes + [n], a) == LiveAfter(Live(notes, a), EffectOf([n], a))
    ensures Spent(notes + [n], a) == SpentAfter(Spent(notes, a), EffectOf([n], a))
  {
    assert (notes + [n])[..|notes|] == notes && (notes + [n])[|notes|] == n;
  }

  lemma ClaimsStep(t: Tables, u: Tables, m: Move, l: Licence, n: seq<Event>, g: Generation,
                   claims: map<Key, Generation>)
    requires Inv(t) && Moves(t, u, m, l, n, g) && ClaimsAgree(t, claims)
    ensures var more := map k | k in u.rows && k !in t.rows :: u.rows[k].generation;
      && ClaimsAgree(u, claims + more) && (forall k | k in claims :: (claims + more)[k] == claims[k])
      && (forall k | k in more :: more[k] == g && k !in claims)
  {
    hide Moves, Inv, ClaimsAgree;
    RowsStep(t, u, m, l, n, g);
    ClaimsFollowRows(t, u, g, claims);
  }

  /** A step keeps every key known, every reservation's generation, and claims only for its own store. */
  ghost predicate RowsFollow(t: Tables, u: Tables, g: Generation) {
    && (forall k | k in t.rows || k in t.results :: k in u.rows || k in u.results)
    && (forall k | k in u.rows && k in t.rows :: u.rows[k].generation == t.rows[k].generation)
    && (forall k | k in u.rows && k !in t.rows :: u.rows[k].generation == g && k !in t.results)
  }

  lemma RowsStep(t: Tables, u: Tables, m: Move, l: Licence, n: seq<Event>, g: Generation)
    requires Moves(t, u, m, l, n, g)
    ensures RowsFollow(t, u, g)
  {
    hide Around, RowStored, Owns, Replaces, SameIntent, Continues;
  }

  lemma ClaimsFollowRows(t: Tables, u: Tables, g: Generation, claims: map<Key, Generation>)
    requires RowsFollow(t, u, g) && ClaimsAgree(t, claims)
    ensures var more := map k | k in u.rows && k !in t.rows :: u.rows[k].generation;
      && ClaimsAgree(u, claims + more) && (forall k | k in claims :: (claims + more)[k] == claims[k])
      && (forall k | k in more :: more[k] == g && k !in claims)
  {
  }

  lemma EventsStep(t: Tables, u: Tables, m: Move, l: Licence, n: seq<Event>, g: Generation, k: Key)
    requires Inv(t) && Moves(t, u, m, l, n, g)
    requires n != [] ==> m.Claims? || m.Commits?
    ensures CommittedEvents(u, k) == CommittedEvents(t, k) + if n != [] && m.k == k then n else []
  {
    hide Inv, Around, RowStored, Owns, Faithful, SameIntent;
    KeysAreDisjoint(t);
  }

  lemma NotesStep(w: World, e: Ambient, c: Command, m: Move)
    requires WorldInv(w) && Perform(w.t, e, c).Ok?
    requires var (u, reply) := Perform(w.t, e, c).value;
      Moves(w.t, u, m, LicenceOf(c), Newly(reply), e.generation) && About(w.t, c, m, Newly(reply))
    ensures forall a :: NotesAgree(Perform(w.t, e, c).value.0, StepWorld(w, e, c).notes, a)
  {
    hide Inv, Perform, Moves, LicenceOf, About, Target, LiveAgrees, SpentAgrees, Tells, ClaimsAgree, NoteSound;
    var (u, reply) := Perform(w.t, e, c).value;
    forall a ensures NotesAgree(u, StepWorld(w, e, c).notes, a) {
      assert NotesAgree(w.t, w.notes, a);
      var x := EffectOf(NotesOf(w.t, u, e, c), a);
      StepTells(w.t, e, c, m, a);
      NotesAfter(w.t, u, e, c, w.notes, a);
      StepLiveAgrees(w.t, u, m, LicenceOf(c), Newly(reply), e.generation, a, Live(w.notes, a), x);
      StepSpentAgrees(w.t, u, m, LicenceOf(c), Newly(reply), e.generation, a, Spent(w.notes, a), x);
    }
  }

  lemma NewNoteSound(w: World, e: Ambient, c: Command)
    requires WorldInv(w) && AuthorizesEffect(c) && Perform(w.t, e, c).Ok?
    ensures var o, a := c.operation, Target(w.t, c);
      o.Operation? && o.key in w.claims && w.claims[o.key] == e.generation && o !in Spent(w.notes, a)
  {
    hide Inv, Perform, Target, LiveAgrees, NoteSound;
    if c.DoAuthorizeStop? { StopLetsLoose(w.t, e, c); } else { LaunchLetsLoose(w.t, e, c); }
    assert NotesAgree(w.t, w.notes, Target(w.t, c));
  }

  lemma NotesStaySound(w: World, e: Ambient, c: Command, v: World)
    requires WorldInv(w) && v == StepWorld(w, e, c) && Perform(w.t, e, c).Ok?
    requires forall k | k in w.claims :: k in v.claims && v.claims[k] == w.claims[k]
    ensures forall i: nat | i < |v.notes| :: NoteSound(v, i)
  {
    hide Inv, Perform, Target, LicenceOf, NotesAgree, ClaimsAgree;
    if AuthorizesEffect(c) { NewNoteSound(w, e, c); }
    forall i: nat | i < |v.notes| ensures NoteSound(v, i) {
      if i < |w.notes| {
        assert NoteSound(w, i) && v.notes[i] == w.notes[i] && v.notes[..i] == w.notes[..i];
      } else {
        assert i == |w.notes| && v.notes[..i] == w.notes;
      }
    }
  }

  lemma StepKeepsWorld(w: World, e: Ambient, c: Command)
    requires WorldInv(w)
    ensures WorldInv(StepWorld(w, e, c))
  {
    hide Inv, Perform, Moves, LicenceOf, NotesAgree, NotesOf, NoteSound, ClaimsAgree, KeyOf, Newly, CommittedEvents;
    if Perform(w.t, e, c).Ok? {
      var (u, reply) := Perform(w.t, e, c).value;
      var v := StepWorld(w, e, c);
      var m := PerformMoves(w.t, e, c);
      MoveKeepsInv(w.t, u, m, LicenceOf(c), Newly(reply), e.generation);
      NotesStep(w, e, c, m);
      ClaimsStep(w.t, u, m, LicenceOf(c), Newly(reply), e.generation, w.claims);
      NotesStaySound(w, e, c, v);
      forall k ensures Told(v.reported, k) == CommittedEvents(u, k) {
        EventsStep(w.t, u, m, LicenceOf(c), Newly(reply), e.generation, k);
        assert Told(w.reported, k) == CommittedEvents(w.t, k);
      }
      forall k ensures EventsLogged(u, k) {
        EventsLoggedStep(w.t, u, m, LicenceOf(c), Newly(reply), e.generation, k);
      }
    }
  }

  // ---------------------------------------------------------------- over every run

  function RunWorld(w: World, steps: seq<(Ambient, Command)>): World
    decreases |steps|
  {
    if steps == [] then w else RunWorld(StepWorld(w, steps[0].0, steps[0].1), steps[1..])
  }

  const START_OF_TIME := World(EMPTY, map[], [], map[])

  lemma {:induction false} RunKeepsWorld(w: World, steps: seq<(Ambient, Command)>)
    requires WorldInv(w)
    ensures WorldInv(RunWorld(w, steps))
    decreases |steps|
  {
    hide WorldInv, StepWorld;
    if steps != [] {
      StepKeepsWorld(w, steps[0].0, steps[0].1);
      RunKeepsWorld(StepWorld(w, steps[0].0, steps[0].1), steps[1..]);
    }
  }

  /** The tables of a world are the tables of the plain run. */
  lemma {:induction false} WorldRunsTables(w: World, steps: seq<(Ambient, Command)>)
    ensures RunWorld(w, steps).t == Run(w.t, steps)
    decreases |steps|
  {
    hide Perform, NotesOf;
    if steps != [] { WorldRunsTables(StepWorld(w, steps[0].0, steps[0].1), steps[1..]); }
  }

  lemma Reachable(steps: seq<(Ambient, Command)>)
    ensures WorldInv(RunWorld(START_OF_TIME, steps))
  {
    EmptyInv();
    forall a ensures NotesAgree(EMPTY, [], a) {}
    RunKeepsWorld(START_OF_TIME, steps);
  }

  /** At most one runtime of an agent is ever authorized and not yet proven gone, and it is the one the
      session stores; once its stop is applied there is none. */
  lemma OneLiveRuntime(steps: seq<(Ambient, Command)>, a: AgentId)
    ensures var w := RunWorld(START_OF_TIME, steps); var live := Live(w.notes, a);
      && |live| <= 1
      && (forall i | i in live :: a in w.t.sessions && i == w.t.sessions[a].identity && !i.AnyBlank())
      && (a in w.t.sessions && w.t.sessions[a].intentStatus.EffectApplied? ==> live == {})
  {
    hide Inv, ClaimsAgree, NoteSound, EventsLogged;
    Reachable(steps);
    var w := RunWorld(START_OF_TIME, steps);
    var live := Live(w.notes, a);
    assert NotesAgree(w.t, w.notes, a);
    if a in w.t.sessions {
      IntentHeld(w.t, a);
      assert live <= {w.t.sessions[a].identity};
      SubsetOfOne(live, w.t.sessions[a].identity);
    }
  }

  lemma SubsetOfOne(s: set<Identity>, i: Identity)
    requires s <= {i}
    ensures |s| <= 1
  {
    if s != {} { assert s == {i}; }
  }

  /** An operation authorized and not followed by a proof or an adoption counts as spent. */
  lemma {:induction false} AuthorizedStaysSpent(notes: seq<Note>, i: nat, a: AgentId)
    requires i < |notes| && notes[i].Authorized? && notes[i].a == a
    requires forall j | i < j < |notes| :: !((notes[j].ProvenGone? || notes[j].Renamed?) && notes[j].a == a)
    ensures notes[i].operation in Spent(notes, a)
    decreases |notes|
  {
    if i < |notes| - 1 { AuthorizedStaysSpent(notes[..|notes| - 1], i, a); }
  }

  /** Every effect is let loose by the generation that claimed its request, and between two
      authorizations of one operation for one agent its runtime was proven gone or adopted. */
  lemma EffectsAreLetLooseOnce(steps: seq<(Ambient, Command)>, i: nat, j: nat)
    requires var notes := RunWorld(START_OF_TIME, steps).notes;
      i < j < |notes| && notes[i].Authorized? && notes[j].Authorized? &&
      notes[i].operation == notes[j].operation && notes[i].a == notes[j].a
    ensures var w := RunWorld(START_OF_TIME, steps); var notes := w.notes;
      && notes[i].operation.Operation? && notes[i].operation.key in w.claims
      && notes[i].generation == notes[j].generation == w.claims[notes[i].operation.key]
      && exists k | i < k < j :: (notes[k].ProvenGone? || notes[k].Renamed?) && notes[k].a == notes[i].a
  {
    hide Inv, ClaimsAgree, NotesAgree, EventsLogged;
    Reachable(steps);
    var w := RunWorld(START_OF_TIME, steps);
    var notes := w.notes;
    assert NoteSound(w, i) && NoteSound(w, j);
    if forall k | i < k < j :: !((notes[k].ProvenGone? || notes[k].Renamed?) && notes[k].a == notes[i].a) {
      var before := notes[..j];
      assert before[i] == notes[i];
      AuthorizedStaysSpent(before, i, notes[i].a);
    }
  }

  /** A request claimed once is never claimed by another generation. */
  lemma {:induction false} ClaimsAreKept(w: World, steps: seq<(Ambient, Command)>, k: Key)
    requires WorldInv(w) && k in w.claims
    ensures k in RunWorld(w, steps).claims && RunWorld(w, steps).claims[k] == w.claims[k]
    decreases |steps|
  {
    hide Inv, NotesAgree, NoteSound, EventsLogged, Perform, Moves, LicenceOf, KeyOf, NotesOf;
    if steps != [] {
      var e, c := steps[0].0, steps[0].1;
      StepKeepsWorld(w, e, c);
      if Perform(w.t, e, c).Ok? {
        var m := PerformMoves(w.t, e, c);
        ClaimsStep(w.t, Perform(w.t, e, c).value.0, m, LicenceOf(c), Newly(Perform(w.t, e, c).value.1), e.generation,
          w.claims);
      }
      ClaimsAreKept(StepWorld(w, e, c), steps[1..], k);
    }
  }

  /** The events reported as new to a create-and-start request, over all its responses, are exactly the
      events of its final result: each once, in the order of the room's log. */
  lemma EveryEventIsReportedOnce(steps: seq<(Ambient, Command)>, k: Key)
    requires var t := RunWorld(START_OF_TIME, steps).t; k in t.results && t.results[k].kind.CreatedStarted?
    ensures var w := RunWorld(START_OF_TIME, steps);
      && Told(w.reported, k) == w.t.results[k].events
      && LogOrdered(w.t.results[k].events)
  {
    hide Inv, ClaimsAgree, NotesAgree, NoteSound;
    Reachable(steps);
    var w := RunWorld(START_OF_TIME, steps);
    KeysAreDisjoint(w.t);
    assert Told(w.reported, k) == CommittedEvents(w.t, k) && EventsLogged(w.t, k);
  }

  // ---------------------------------------------------------------- sessions, step by step

  lemma StepIsFaithful(t: Tables, e: Ambient, c: Command, a: AgentId)
    requires Inv(t) && a in t.sessions
    ensures var u := After(t, Perform(t, e, c)); a in u.sessions && Faithful(t.sessions[a], u.sessions[a], LicenceOf(c))
  {
    hide Inv, Perform, LicenceOf, About, RowStored, Owns, Around, Continues;
    IntentHeld(t, a);
    if Perform(t, e, c).Ok? { var m := PerformMoves(t, e, c); }
  }

  /** A held runtime keeps its handle and lease until it is cleared, its owner changes only by adoption,
      and while a runtime or an intent is held the executable, workspace and profile key stay. */
  lemma HeldRuntimeIsKept(t: Tables, e: Ambient, c: Command, a: AgentId)
    requires Inv(t) && a in t.sessions
    ensures var u := After(t, Perform(t, e, c));
      && a in u.sessions
      && (!t.sessions[a].identity.AllBlank() && !u.sessions[a].identity.AllBlank() ==>
            && u.sessions[a].identity.handle == t.sessions[a].identity.handle
            && u.sessions[a].identity.lease == t.sessions[a].identity.lease
            && (LicenceOf(c).Adopts? || u.sessions[a].identity == t.sessions[a].identity))
      && (!t.sessions[a].identity.AllBlank() || !t.sessions[a].IntentEmpty() ==>
            u.sessions[a].profile == t.sessions[a].profile)
  {
    hide Inv, Perform, LicenceOf;
    StepIsFaithful(t, e, c, a);
  }

  // ---------------------------------------------------------------- an effect has its runtime, or when not

  ghost predicate EffectsHeld(t: Tables) { forall a | a in t.sessions :: EffectHeld(t.sessions[a]) }

  /** The two steps of the turn machinery that clear a runtime without asking for its intent. */
  ghost predicate TakesRuntime(t: Tables, c: Command) {
    match c
    case DoFailTurn(a, _, stopped) =>
      stopped.Some? && a in t.sessions && t.sessions[a].intentStatus in {EffectInflight, Unconfirmed}
    case DoTurnRuntimeGone(a, _, _) =>
      a in t.sessions && t.sessions[a].intentAction.StartAction? &&
        t.sessions[a].intentStatus in {EffectInflight, Unconfirmed}
    case _ => false
  }

  lemma TurnTakesRuntime(t: Tables, e: Ambient, c: Command)
    requires (c.DoFailTurn? && c.stopped.Some?) || c.DoTurnRuntimeGone?
    requires Inv(t) && EffectsHeld(t) && Perform(t, e, c).Ok?
    ensures var u := Perform(t, e, c).value.0;
      && c.a in t.sessions && c.a in u.sessions && (EffectHeld(u.sessions[c.a]) <==> !TakesRuntime(t, c))
      && forall b | b in t.sessions && b != c.a :: b in u.sessions && u.sessions[b] == t.sessions[b]
  {
    hide Inv, CandidateKey;
    IntentHeld(t, c.a);
  }

  lemma MoveHoldsEffects(t: Tables, u: Tables, m: Move, l: Licence, n: seq<Event>, g: Generation)
    requires Moves(t, u, m, l, n, g) && EffectsHeld(t) && !l.ProvesByTurn?
    ensures EffectsHeld(u)
  {
    hide Around, RowStored, Owns, Continues, SameIntent, EffectHeld;
  }

  /** An effect in flight always has a complete runtime identity, exactly as long as no turn loses its
      runtime while a start or a stop is in flight on it. */
  lemma EffectsStayHeld(t: Tables, e: Ambient, c: Command)
    requires Inv(t) && EffectsHeld(t) && Perform(t, e, c).Ok?
    ensures EffectsHeld(Perform(t, e, c).value.0) <==> !TakesRuntime(t, c)
  {
    hide Inv, Perform, About, Moves, EffectHeld;
    if (c.DoFailTurn? && c.stopped.Some?) || c.DoTurnRuntimeGone? {
      TurnTakesRuntime(t, e, c);
      TurnKeepsAgents(t, e, c);
    } else {
      var m := PerformMoves(t, e, c);
      MoveHoldsEffects(t, Perform(t, e, c).value.0, m, LicenceOf(c), Newly(Perform(t, e, c).value.1), e.generation);
    }
  }

  lemma TurnKeepsAgents(t: Tables, e: Ambient, c: Command)
    requires c.DoFailTurn? || c.DoTurnRuntimeGone?
    requires Perform(t, e, c).Ok?
    ensures Perform(t, e, c).value.0.sessions.Keys == t.sessions.Keys
  {
    hide CandidateKey;
  }

  /** Some accepted step of a run takes a runtime from under an effect. */
  ghost predicate TakenAlong(t: Tables, steps: seq<(Ambient, Command)>)
    decreases |steps|
  {
    steps != [] &&
    var step := Perform(t, steps[0].0, steps[0].1);
    (step.Ok? && TakesRuntime(t, steps[0].1)) || TakenAlong(After(t, step), steps[1..])
  }

  /** Every effect has its runtime in every room that a run passes through. */
  ghost predicate HeldThroughout(t: Tables, steps: seq<(Ambient, Command)>)
    decreases |steps|
  {
    EffectsHeld(t) && (steps != [] ==> HeldThroughout(After(t, Perform(t, steps[0].0, steps[0].1)), steps[1..]))
  }

  /** Over a run an effect in flight never lacks its runtime exactly when no step of the run takes one. */
  lemma {:induction false} EffectsHeldOverRuns(t: Tables, steps: seq<(Ambient, Command)>)
    requires Inv(t) && EffectsHeld(t)
    ensures HeldThroughout(t, steps) <==> !TakenAlong(t, steps)
    ensures !TakenAlong(t, steps) ==> EffectsHeld(Run(t, steps))
    decreases |steps|
  {
    hide Inv, Perform, EffectsHeld, TakesRuntime;
    if steps != [] {
      var e, c := steps[0].0, steps[0].1;
      var u := After(t, Perform(t, e, c));
      StepKeepsInv(t, e, c);
      if Perform(t, e, c).Ok? { EffectsStayHeld(t, e, c); }
      if Perform(t, e, c).Ok? && TakesRuntime(t, c) { NotHeld(u, steps[1..]); }
      else { EffectsHeldOverRuns(u, steps[1..]); }
    }
  }

  lemma NotHeld(t: Tables, steps: seq<(Ambient, Command)>)
    requires !EffectsHeld(t)
    ensures !HeldThroughout(t, steps)
  {
    hide Perform, EffectsHeld;
  }

  /** So in every reachable room an effect in flight has a complete runtime identity, unless a turn of the run
      took one. */
  lemma InflightHasItsRuntime(steps: seq<(Ambient, Command)>, a: AgentId)
    requires !TakenAlong(EMPTY, steps) && a in Run(EMPTY, steps).sessions
    ensures var s := Run(EMPTY, steps).sessions[a];
      s.intentStatus in {EffectInflight, Unconfirmed} ==> !s.identity.AnyBlank()
  {
    hide Inv, Perform, TakenAlong;
    EmptyInv();
    EffectsHeldOverRuns(EMPTY, steps);
    RunKeepsInv(EMPTY, steps);
    IntentHeld(Run(EMPTY, steps), a);
  }
}
