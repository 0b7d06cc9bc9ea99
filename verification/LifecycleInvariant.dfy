/** What every lifecycle step keeps: a session's intent and the one pending reservation that owns it
    always agree, requests only move forward, and each admitted request was charged once. */
module LifecycleInvariant {
  import opened Wrappers
  import opened LifecycleModel
  import opened LifecycleSteps

  // ---------------------------------------------------------------- the invariant

  /** What a stored reservation names, whatever became of it: the agent its payload decodes to, under
      the principal that was allowed to ask. */
  ghost predicate RowStored(k: Key, row: Row) {
    && RowNames(row, row.session)
    && row.owner.id == k.principal && row.owner.agentControl
    && (if row.action.Create? then row.phase.CreationCommitted?
        else row.action in {Start, Resume, Readd, Stop} && row.phase.LifecyclePrepared? && row.prepared.NoResult?)
    && (row.action.Readd? ==> LaunchPayload(row.payload, Readd) == Ok((row.session, true)))
  }

  /** A pending reservation is the owner of its session's intent. */
  ghost predicate Owns(row: Row, s: Session) { s.IntentLegal() && RowMatchesIntent(row, s) }

  ghost predicate RowSound(t: Tables, k: Key)
    requires k in t.rows
  {
    var row := t.rows[k];
    && row.operation == Operation(k, row.action)
    && k !in t.results
    && row.session in t.sessions
    && (row.status.Pending? ==> Owns(row, t.sessions[row.session]))
  }

  ghost predicate SessionSound(t: Tables, a: AgentId)
    requires a in t.sessions
  {
    var s := t.sessions[a];
    && s.serverOwned && s.identity.Uniform() && a in t.participants
    && (s.IntentEmpty() ||
        (s.IntentLegal() && s.intentId.key in t.rows &&
         t.rows[s.intentId.key].status.Pending? && t.rows[s.intentId.key].session == a))
  }

  ghost predicate LogOrdered(log: seq<Event>) {
    forall i, j | 0 <= i < j < |log| :: log[i].number < log[j].number
  }

  /** The requests that were charged to the room: all but the stops that found something to stop. */
  ghost function Charged(t: Tables): set<Key> {
    (set k | k in t.rows && !t.rows[k].action.Stop?) + (set k | k in t.results && !t.results[k].kind.StoppedNow?)
  }

  ghost predicate Stored(t: Tables) { forall k | k in t.rows :: RowStored(k, t.rows[k]) }

  ghost predicate Sound(t: Tables) {
    && (forall k | k in t.rows :: RowSound(t, k))
    && (forall a | a in t.sessions :: SessionSound(t, a))
  }

  ghost predicate Inv(t: Tables) {
    && Stored(t) && Sound(t) && LogOrdered(t.log)
    && t.debits == |Charged(t)|
    && |t.sessions| <= MAX_AGENT_SESSIONS_PER_ROOM
  }

  /** No request is reserved and answered at once. */
  lemma KeysAreDisjoint(t: Tables)
    requires Inv(t)
    ensures forall k | k in t.rows :: k !in t.results
  {
    forall k | k in t.rows ensures k !in t.results { assert RowSound(t, k); }
  }

  const EMPTY := Tables(map[], map[], map[], map[], [], 0, false, {})

  // ---------------------------------------------------------------- how tables move

  /** The shapes a committed step can have on the tables. */
  datatype Move =
    | Quiet
    | Touch(a: AgentId)
    | Claims(k: Key, a: AgentId)
    | Commits(k: Key, a: AgentId)
    | Refuses(k: Key, a: AgentId)
    | Settles(k: Key, a: AgentId)

  /** What a command brings with it from outside the store: the authorization of a new runtime, proof
      that the runtime is gone (seen by its supervisor or by the turn it was running), or its adoption by
      another owner. */
  datatype Licence = Plain | Authorizes | Proves | ProvesByTurn | Adopts {
    predicate Proof() { Proves? || ProvesByTurn? }
  }

  /** An effect that may still be at work has the runtime it works on. */
  predicate EffectHeld(s: Session) { s.intentStatus in {EffectInflight, Unconfirmed} ==> !s.identity.AllBlank() }

  /** What a step may do to one session. A held runtime is never given another identity: it is cleared
      only on proof or after its stop was applied, and only an adoption renames its owner. The profile
      under a held runtime or intent stays. An effect counts as applied only on proof or when there is
      no runtime, and an operation is prepared anew only after proof or adoption. Only a turn's proof can
      take the runtime from under an effect. */
  ghost predicate Faithful(s: Session, u: Session, l: Licence) {
    && u.serverOwned == s.serverOwned
    && u.identity.Uniform()
    && (|| u.identity == s.identity
        || (l.Authorizes? && s.identity.AllBlank())
        || (u.identity.AllBlank() && (l.Proof() || s.intentStatus.EffectApplied?))
        || (l.Adopts? && u.identity.handle == s.identity.handle && u.identity.lease == s.identity.lease))
    && (u.profile == s.profile || (s.identity.AllBlank() && s.IntentEmpty()))
    && (u.intentStatus.EffectApplied? ==> s.intentStatus.EffectApplied? || l.Proof() || s.identity.AllBlank())
    && (u.intentStatus.Prepared? && u.intentId == s.intentId ==> s.intentStatus.Prepared? || l.Proof() || l.Adopts?)
    && (EffectHeld(s) && !l.ProvesByTurn? ==> EffectHeld(u))
  }

  ghost predicate Replaces(t: Tables, u: Tables, a: AgentId, l: Licence) {
    && a in u.sessions
    && u.sessions == t.sessions[a := u.sessions[a]]
    && (a in t.sessions ==> Faithful(t.sessions[a], u.sessions[a], l))
    && (a !in t.sessions ==> u.sessions[a].serverOwned && u.sessions[a].identity.AllBlank() &&
                             EffectHeld(u.sessions[a]) && |t.sessions| < MAX_AGENT_SESSIONS_PER_ROOM)
  }

  ghost predicate SameIntent(s: Session, u: Session) {
    && u.intentAction == s.intentAction && u.intentId == s.intentId
    && (s.IntentEmpty() ==> u.IntentEmpty())
    && (s.IntentLegal() ==> u.IntentLegal())
  }

  /** Newly committed events are the next ones of the log. */
  ghost predicate Continues(log: seq<Event>, after: seq<Event>, n: seq<Event>) {
    n != [] ==> after == log + n && forall i | 0 <= i < |n| :: n[i].number == NextSequence(log) + i
  }

  ghost predicate TouchMove(t: Tables, u: Tables, a: AgentId, l: Licence) {
    && a in t.sessions && Replaces(t, u, a, l) && SameIntent(t.sessions[a], u.sessions[a])
    && u.rows == t.rows && u.results == t.results && u.debits == t.debits
  }

  ghost predicate ClaimMove(t: Tables, u: Tables, k: Key, a: AgentId, l: Licence, n: seq<Event>, g: Generation) {
    && Replaces(t, u, a, l)
    && (a in t.sessions ==> t.sessions[a].IntentEmpty())
    && k !in t.rows && k !in t.results && k in u.rows
    && u.rows == t.rows[k := u.rows[k]] && u.results == t.results
    && u.rows[k].operation == Operation(k, u.rows[k].action) && u.rows[k].status.Pending? && u.rows[k].session == a
    && RowStored(k, u.rows[k]) && Owns(u.rows[k], u.sessions[a])
    && u.rows[k].generation == g
    && Continues(t.log, u.log, n)
    && (if u.rows[k].action.Create? then u.rows[k].prepared == Created(a, n) else n == [])
    && u.debits == t.debits + if u.rows[k].action.Stop? then 0 else 1
  }

  ghost predicate PendingRow(t: Tables, k: Key, a: AgentId) {
    k in t.rows && t.rows[k].status.Pending? && t.rows[k].session == a
  }

  ghost predicate CommitMove(t: Tables, u: Tables, k: Key, a: AgentId, l: Licence, n: seq<Event>) {
    && a in t.sessions && Replaces(t, u, a, l) && u.sessions[a].IntentEmpty()
    && PendingRow(t, k, a) && k !in t.results && k in u.results
    && u.rows == t.rows - {k} && u.results == t.results[k := u.results[k]]
    && (t.rows[k].action.Stop? <==> u.results[k].kind.StoppedNow?)
    && (t.rows[k].action.Create? <==> u.results[k].kind.CreatedStarted?)
    && Continues(t.log, u.log, n)
    && (if t.rows[k].action.Create?
        then t.rows[k].prepared.Created? && u.results[k].events == t.rows[k].prepared.events + n else n == [])
    && u.debits == t.debits
  }

  ghost predicate RefuseMove(t: Tables, u: Tables, k: Key, a: AgentId, l: Licence) {
    && a in t.sessions && Replaces(t, u, a, l) && u.sessions[a].IntentEmpty()
    && PendingRow(t, k, a)
    && k in u.rows && u.rows[k].status.Refused? && u.rows[k] == t.rows[k].(status := u.rows[k].status)
    && u.rows == t.rows[k := u.rows[k]] && u.results == t.results && u.debits == t.debits
  }

  ghost predicate SettleMove(t: Tables, u: Tables, k: Key, a: AgentId, l: Licence) {
    && Replaces(t, u, a, l)
    && (if a in t.sessions then SameIntent(t.sessions[a], u.sessions[a]) else u.sessions[a].IntentEmpty())
    && k !in t.rows && k !in t.results && k in u.results
    && u.rows == t.rows && u.results == t.results[k := u.results[k]]
    && !u.results[k].kind.StoppedNow? && !u.results[k].kind.CreatedStarted?
    && u.debits == t.debits + 1
  }

  ghost predicate Admits(t: Tables, u: Tables) {
    && (forall b | b in t.participants :: b in u.participants)
    && (forall b | b in u.sessions && b !in t.sessions :: b in u.participants)
  }

  ghost predicate Around(t: Tables, u: Tables) {
    && Admits(t, u) && t.log <= u.log
    && (LogOrdered(t.log) ==> LogOrdered(u.log))
  }

  /** One committed step: the shape of its move, what its command brought, the events its reply
      reports as newly committed by a create-and-start request, and the generation of its store. */
  ghost predicate Moves(t: Tables, u: Tables, m: Move, l: Licence, n: seq<Event>, g: Generation) {
    Around(t, u) &&
    match m
    case Quiet =>
      u.sessions == t.sessions && u.rows == t.rows && u.results == t.results && u.debits == t.debits && n == []
    case Touch(a) => TouchMove(t, u, a, l) && n == []
    case Claims(k, a) => ClaimMove(t, u, k, a, l, n, g)
    case Commits(k, a) => CommitMove(t, u, k, a, l, n)
    case Refuses(k, a) => RefuseMove(t, u, k, a, l) && n == []
    case Settles(k, a) => SettleMove(t, u, k, a, l) && n == []
  }

  // ---------------------------------------------------------------- every move keeps the invariant

  lemma ChargedClaim(t: Tables, u: Tables, k: Key)
    requires k !in t.rows && k !in t.results && k in u.rows
    requires u.rows == t.rows[k := u.rows[k]] && u.results == t.results
    ensures k !in Charged(t) && Charged(u) == if u.rows[k].action.Stop? then Charged(t) else Charged(t) + {k}
  {
  }

  lemma ChargedCommit(t: Tables, u: Tables, k: Key)
    requires k in t.rows && k !in t.results && k in u.results
    requires u.rows == t.rows - {k} && u.results == t.results[k := u.results[k]]
    requires t.rows[k].action.Stop? <==> u.results[k].kind.StoppedNow?
    ensures Charged(u) == Charged(t)
  {
    assert k in Charged(u) <==> k in Charged(t);
    assert forall j | j != k :: (j in Charged(u) <==> j in Charged(t));
  }

  lemma ChargedRefuse(t: Tables, u: Tables, k: Key)
    requires k in t.rows && k in u.rows && u.rows[k].action == t.rows[k].action
    requires u.rows == t.rows[k := u.rows[k]] && u.results == t.results
    ensures Charged(u) == Charged(t)
  {
  }

  lemma ChargedSettle(t: Tables, u: Tables, k: Key)
    requires k !in t.rows && k !in t.results && k in u.results && !u.results[k].kind.StoppedNow?
    requires u.rows == t.rows && u.results == t.results[k := u.results[k]]
    ensures k !in Charged(t) && Charged(u) == Charged(t) + {k}
  {
  }

  lemma ChargedMoves(t: Tables, u: Tables, m: Move, l: Licence, n: seq<Event>, g: Generation)
    requires t.debits == |Charged(t)| && Moves(t, u, m, l, n, g)
    ensures u.debits == |Charged(u)|
  {
    match m
    case Quiet => assert Charged(u) == Charged(t);
    case Touch(_) => assert Charged(u) == Charged(t);
    case Claims(k, _) => ChargedClaim(t, u, k);
    case Commits(k, _) => ChargedCommit(t, u, k);
    case Refuses(k, _) => ChargedRefuse(t, u, k);
    case Settles(k, _) => ChargedSettle(t, u, k);
  }

  lemma TouchSound(t: Tables, u: Tables, a: AgentId, l: Licence)
    requires Sound(t) && Admits(t, u) && TouchMove(t, u, a, l)
    ensures Sound(u)
  {
    assert SessionSound(t, a);
    forall k | k in u.rows ensures RowSound(u, k) { assert RowSound(t, k); }
    forall b | b in u.sessions ensures SessionSound(u, b) { assert SessionSound(t, b); }
  }

  lemma ClaimSound(t: Tables, u: Tables, k: Key, a: AgentId, l: Licence, n: seq<Event>, g: Generation)
    requires Sound(t) && Admits(t, u) && ClaimMove(t, u, k, a, l, n, g)
    ensures Sound(u)
  {
    forall j | j in u.rows ensures RowSound(u, j) {
      if j != k {
        assert RowSound(t, j);
        assert t.rows[j].session == a ==> !t.rows[j].status.Pending?;
      }
    }
    forall b | b in u.sessions ensures SessionSound(u, b) {
      if b in t.sessions { assert SessionSound(t, b); }
    }
  }

  /** Ending the pending request of a session leaves no other session without its request. */
  lemma OnlyOwner(t: Tables, k: Key, a: AgentId)
    requires Sound(t) && PendingRow(t, k, a)
    ensures forall j | j in t.rows && t.rows[j].status.Pending? && t.rows[j].session == a :: j == k
    ensures forall b | b in t.sessions && b != a && !t.sessions[b].IntentEmpty() :: t.sessions[b].intentId.key != k
  {
    assert RowSound(t, k);
    forall j | j in t.rows && t.rows[j].status.Pending? && t.rows[j].session == a ensures j == k {
      assert RowSound(t, j);
    }
    forall b | b in t.sessions && b != a && !t.sessions[b].IntentEmpty() ensures t.sessions[b].intentId.key != k {
      assert SessionSound(t, b);
    }
  }

  lemma CommitSound(t: Tables, u: Tables, k: Key, a: AgentId, l: Licence, n: seq<Event>)
    requires Sound(t) && Admits(t, u) && CommitMove(t, u, k, a, l, n)
    ensures Sound(u)
  {
    OnlyOwner(t, k, a);
    forall j | j in u.rows ensures RowSound(u, j) { assert RowSound(t, j); }
    forall b | b in u.sessions ensures SessionSound(u, b) { assert SessionSound(t, b); }
  }

  lemma RefuseSound(t: Tables, u: Tables, k: Key, a: AgentId, l: Licence)
    requires Sound(t) && Admits(t, u) && RefuseMove(t, u, k, a, l)
    ensures Sound(u)
  {
    OnlyOwner(t, k, a);
    forall j | j in u.rows ensures RowSound(u, j) { assert RowSound(t, j); }
    forall b | b in u.sessions ensures SessionSound(u, b) { assert SessionSound(t, b); }
  }

  lemma SettleSound(t: Tables, u: Tables, k: Key, a: AgentId, l: Licence)
    requires Sound(t) && Admits(t, u) && SettleMove(t, u, k, a, l)
    ensures Sound(u)
  {
    forall j | j in u.rows ensures RowSound(u, j) { assert RowSound(t, j); }
    forall b | b in u.sessions ensures SessionSound(u, b) {
      if b in t.sessions { assert SessionSound(t, b); }
    }
  }

  lemma StoredMoves(t: Tables, u: Tables, m: Move, l: Licence, n: seq<Event>, g: Generation)
    requires Stored(t) && Moves(t, u, m, l, n, g)
    ensures Stored(u)
  {
    forall k | k in u.rows ensures RowStored(k, u.rows[k]) {
      if k in t.rows { assert RowStored(k, t.rows[k]); }
    }
  }

  lemma MoveSound(t: Tables, u: Tables, m: Move, l: Licence, n: seq<Event>, g: Generation)
    requires Sound(t) && Moves(t, u, m, l, n, g)
    ensures Sound(u)
  {
    match m
    case Quiet =>
      forall k | k in u.rows ensures RowSound(u, k) { assert RowSound(t, k); }
      forall a | a in u.sessions ensures SessionSound(u, a) { assert SessionSound(t, a); }
    case Touch(a) => TouchSound(t, u, a, l);
    case Claims(k, a) => ClaimSound(t, u, k, a, l, n, g);
    case Commits(k, a) => CommitSound(t, u, k, a, l, n);
    case Refuses(k, a) => RefuseSound(t, u, k, a, l);
    case Settles(k, a) => SettleSound(t, u, k, a, l);
  }

  lemma RoomGrows<V>(t: map<AgentId, V>, u: map<AgentId, V>, a: AgentId, v: V)
    requires u == t[a := v] && |t| <= MAX_AGENT_SESSIONS_PER_ROOM
    requires a !in t ==> |t| < MAX_AGENT_SESSIONS_PER_ROOM
    ensures |u| <= MAX_AGENT_SESSIONS_PER_ROOM
  {
    assert u.Keys == t.Keys + {a};
    assert |u| == |u.Keys| && |t| == |t.Keys|;
  }

  lemma MoveKeepsInv(t: Tables, u: Tables, m: Move, l: Licence, n: seq<Event>, g: Generation)
    requires Inv(t) && Moves(t, u, m, l, n, g)
    ensures Inv(u)
  {
    StoredMoves(t, u, m, l, n, g);
    MoveSound(t, u, m, l, n, g);
    ChargedMoves(t, u, m, l, n, g);
    if !m.Quiet? { RoomGrows(t.sessions, u.sessions, m.a, u.sessions[m.a]); }
  }
}
