/** Every committed step moves the tables in one of the shapes that keep the invariant. */
module LifecycleMoves {
  import opened Wrappers
  import opened LifecycleModel
  import opened LifecycleSteps
  import opened LifecycleInvariant

  lemma AppendOrdered(t: Tables, kinds: seq<EventKind>, a: AgentId, actor: string)
    ensures t.log <= t.log + NewEvents(t.log, kinds, a, actor)
    ensures LogOrdered(t.log) ==> LogOrdered(t.log + NewEvents(t.log, kinds, a, actor))
  {
    var events := NewEvents(t.log, kinds, a, actor);
    if LogOrdered(t.log) {
      forall i, j | 0 <= i < j < |t.log + events|
        ensures (t.log + events)[i].number < (t.log + events)[j].number
      {
        if i < |t.log| <= j { assert i == |t.log| - 1 || t.log[i].number < t.log[|t.log| - 1].number; }
      }
    }
  }

  lemma Removed<V>(m: map<Key, V>, k: Key, v: V)
    requires k !in m
    ensures m[k := v] - {k} == m
  {
  }

  /** The request a pending row keeps alive still owns its session. */
  lemma PendingOwns(t: Tables, k: Key)
    requires Inv(t) && k in t.rows && t.rows[k].status.Pending?
    ensures t.rows[k].session in t.sessions && Owns(t.rows[k], t.sessions[t.rows[k].session])
    ensures t.rows[k].operation == Operation(k, t.rows[k].action) && RowStored(k, t.rows[k]) && k !in t.results
  {
    assert RowSound(t, k);
  }

  lemma IntentHeld(t: Tables, a: AgentId)
    requires Inv(t) && a in t.sessions
    ensures t.sessions[a].serverOwned && t.sessions[a].identity.Uniform() && a in t.participants
    ensures t.sessions[a].IntentEmpty() ||
            (t.sessions[a].IntentLegal() && PendingRow(t, t.sessions[a].intentId.key, a))
  {
    assert SessionSound(t, a);
  }

  // ---------------------------------------------------------------- what a command brings

  function ObservationLicence(o: Observation): Licence {
    if o.Gone? then Proves else if o.Adopted? then Adopts else Plain
  }

  /** A definitive rejection after the effect, a confirmed stop and an observed absence prove a runtime gone. */
  function LicenceOf(c: Command): Licence {
    match c
    case DoAuthorizeLaunch(_, _, _, _) => Authorizes
    case DoAuthorizeCreateStart(_, _, _) => Authorizes
    case DoFailLaunch(_, _, _, _, effect) => if effect then Proves else Plain
    case DoFailCreateStart(_, _, _, _, _, effect) => if effect then Proves else Plain
    case DoRecordStop(_, _, _) => Proves
    case DoReconcile(_, _, o) => ObservationLicence(o)
    case DoLiveReconcile(_, _, o) => ObservationLicence(o)
    case DoFailTurn(_, _, stopped) => if stopped.Some? then ProvesByTurn else Plain
    case DoTurnRuntimeGone(_, _, _) => ProvesByTurn
    case _ => Plain
  }

  /** The events a reply reports as committed for the first time by its create-and-start request. */
  function Newly(reply: Reply): seq<Event> {
    match reply
    case CreatePlan(_, _, _, newly) => newly
    case CreateCommit(_, _, newly) => newly
    case _ => []
  }

  /** A committed step makes this move; a silent one reports no new event. */
  ghost predicate Moved(t: Tables, step: Step, m: Move, l: Licence, g: Generation) {
    step.Ok? && Moves(t, step.value.0, m, l, Newly(step.value.1), g)
  }

  predicate Silent(step: Step) { step.Ok? && Newly(step.value.1) == [] }

  // ---------------------------------------------------------------- recognising a move

  lemma AroundOf(t: Tables, u: Tables, kinds: seq<EventKind>, a: AgentId, actor: string)
    requires u.log == t.log + NewEvents(t.log, kinds, a, actor)
    requires t.participants.Keys <= u.participants.Keys
    requires forall b | b in u.sessions && b !in t.sessions :: b in u.participants
    ensures Around(t, u)
  {
    AppendOrdered(t, kinds, a, actor);
  }

  lemma SilentAround(t: Tables, u: Tables)
    requires u.log == t.log && t.participants.Keys <= u.participants.Keys
    requires forall b | b in u.sessions && b !in t.sessions :: b in u.participants
    ensures Around(t, u)
  {
  }

  lemma TouchOf(t: Tables, u: Tables, a: AgentId, s: Session, l: Licence)
    requires a in t.sessions && Faithful(t.sessions[a], s, l) && SameIntent(t.sessions[a], s)
    requires u.sessions == t.sessions[a := s] && u.rows == t.rows && u.results == t.results && u.debits == t.debits
    requires Around(t, u)
    ensures forall g :: Moves(t, u, Touch(a), l, [], g)
  {
  }

  lemma CommitOf(t: Tables, u: Tables, k: Key, a: AgentId, s: Session, r: StoredResult, l: Licence, n: seq<Event>)
    requires a in t.sessions && Faithful(t.sessions[a], s, l) && s.IntentEmpty()
    requires PendingRow(t, k, a) && k !in t.results && (t.rows[k].action.Stop? <==> r.kind.StoppedNow?)
    requires t.rows[k].action.Create? <==> r.kind.CreatedStarted?
    requires Continues(t.log, u.log, n)
    requires if t.rows[k].action.Create? then t.rows[k].prepared.Created? && r.events == t.rows[k].prepared.events + n
             else n == []
    requires u.sessions == t.sessions[a := s] && u.rows == t.rows - {k} && u.results == t.results[k := r]
    requires u.debits == t.debits && Around(t, u)
    ensures forall g :: Moves(t, u, Commits(k, a), l, n, g)
  {
  }

  lemma RefuseOf(t: Tables, u: Tables, k: Key, a: AgentId, s: Session, reason: Reason, l: Licence)
    requires a in t.sessions && Faithful(t.sessions[a], s, l) && s.IntentEmpty()
    requires PendingRow(t, k, a)
    requires u.sessions == t.sessions[a := s] && u.rows == t.rows[k := t.rows[k].(status := Refused(reason))]
    requires u.results == t.results && u.debits == t.debits && Around(t, u)
    ensures forall g :: Moves(t, u, Refuses(k, a), l, [], g)
  {
  }

  lemma ClaimOf(t: Tables, u: Tables, k: Key, a: AgentId, s: Session, row: Row, l: Licence, n: seq<Event>)
    requires if a in t.sessions then Faithful(t.sessions[a], s, l) && t.sessions[a].IntentEmpty()
             else s.serverOwned && s.identity.AllBlank() && EffectHeld(s) && |t.sessions| < MAX_AGENT_SESSIONS_PER_ROOM
    requires k !in t.rows && k !in t.results && row.operation == Operation(k, row.action) && row.status.Pending?
    requires row.session == a && RowStored(k, row) && Owns(row, s)
    requires u.sessions == t.sessions[a := s] && u.rows == t.rows[k := row] && u.results == t.results
    requires Continues(t.log, u.log, n)
    requires if row.action.Create? then row.prepared == Created(a, n) else n == []
    requires u.debits == t.debits + if row.action.Stop? then 0 else 1
    requires Around(t, u)
    ensures Moves(t, u, Claims(k, a), l, n, row.generation)
  {
  }

  lemma SettleOf(t: Tables, u: Tables, k: Key, a: AgentId, s: Session, r: StoredResult, l: Licence)
    requires if a in t.sessions then Faithful(t.sessions[a], s, l) && SameIntent(t.sessions[a], s)
             else (s.serverOwned && s.identity.AllBlank() && s.IntentEmpty() && EffectHeld(s) &&
                   |t.sessions| < MAX_AGENT_SESSIONS_PER_ROOM)
    requires k !in t.rows && k !in t.results && !r.kind.StoppedNow? && !r.kind.CreatedStarted?
    requires u.sessions == t.sessions[a := s] && u.rows == t.rows && u.results == t.results[k := r]
    requires u.debits == t.debits + 1 && Around(t, u)
    ensures forall g :: Moves(t, u, Settles(k, a), l, [], g)
  {
  }

  lemma QuietOf(t: Tables, u: Tables, l: Licence)
    requires u.sessions == t.sessions && u.rows == t.rows && u.results == t.results && u.debits == t.debits
    requires Around(t, u)
    ensures forall g :: Moves(t, u, Quiet, l, [], g)
  {
  }

  // ---------------------------------------------------------------- start, resume, re-add

  lemma LaunchRowStored(e: Ambient, q: Request, action: Action, a: AgentId, operation: OperationId)
    requires q.principal.agentControl
    requires LaunchPayload(q.payload, action) == Ok((a, true)) ||
             (action.Stop? && PayloadAgent(q.payload, {}) == Ok(a))
    ensures RowStored(q.Key(), LaunchRow(e, q, action, a, operation))
  {
  }

  lemma LaunchActions(payload: Payload, action: Action)
    requires LaunchPayload(payload, action).Ok?
    ensures action in {Start, Resume, Readd}
  {
  }

  lemma PrepareLaunchMoves(t: Tables, e: Ambient, q: Request, action: Action) returns (m: Move)
    requires Inv(t) && PrepareLaunch(t, e, q, action).Ok?
    ensures Moved(t, PrepareLaunch(t, e, q, action), m, Plain, e.generation)
    ensures Silent(PrepareLaunch(t, e, q, action))
  {
    hide Moves, Around, Inv, RowStored, Owns;
    var k, u := q.Key(), PrepareLaunch(t, e, q, action).value.0;
    if k in t.results {
      QuietOf(t, t, Plain);
      return Quiet;
    }
    var (a, start) := LaunchPayload(q.payload, action).value;
    if start { m := StartMoves(t, e, q, action, a); }
    else { m := RelistMoves(t, e, q, action, a); }
  }

  lemma StartMoves(t: Tables, e: Ambient, q: Request, action: Action, a: AgentId) returns (m: Move)
    requires Inv(t) && PrepareLaunch(t, e, q, action).Ok? && q.Key() !in t.results
    requires LaunchPayload(q.payload, action) == Ok((a, true))
    ensures Moved(t, PrepareLaunch(t, e, q, action), m, Plain, e.generation)
    ensures Silent(PrepareLaunch(t, e, q, action))
  {
    hide Moves, Around, Inv, RowStored, LaunchPayload;
    var k, u := q.Key(), PrepareLaunch(t, e, q, action).value.0;
    var row := LaunchRow(e, q, action, a, Operation(k, action));
    LaunchActions(q.payload, action);
    IntentHeld(t, a);
    SilentAround(t, u);
    if k in t.rows {
      PendingOwns(t, k);
      TouchOf(t, u, a, u.sessions[a], Plain);
      m := Touch(a);
    } else {
      LaunchRowStored(e, q, action, a, row.operation);
      ClaimOf(t, u, k, a, u.sessions[a], row, Plain, []);
      m := Claims(k, a);
    }
  }

  lemma RelistMoves(t: Tables, e: Ambient, q: Request, action: Action, a: AgentId) returns (m: Move)
    requires Inv(t) && PrepareLaunch(t, e, q, action).Ok? && q.Key() !in t.results
    requires LaunchPayload(q.payload, action) == Ok((a, false))
    ensures Moved(t, PrepareLaunch(t, e, q, action), m, Plain, e.generation)
    ensures Silent(PrepareLaunch(t, e, q, action))
  {
    hide Moves, Around, Inv, Owns;
    var k, u := q.Key(), PrepareLaunch(t, e, q, action).value.0;
    var row := LaunchRow(e, q, action, a, Operation(k, action));
    IntentHeld(t, a);
    if k in t.rows { PendingOwns(t, k); }
    Removed(t.rows, k, row);
    AroundOf(t, u, [AgentSessionReactivated], a, q.principal.participant);
    SettleOf(t, u, k, a, u.sessions[a], u.results[k], Plain);
    m := Settles(k, a);
  }

  lemma AuthorizeLaunchMoves(t: Tables, e: Ambient, q: Request, action: Action, operation: OperationId,
                             identity: Identity)
    returns (m: Move)
    requires Inv(t) && AuthorizeLaunch(t, e, q, action, operation, identity).Ok?
    ensures Moved(t, AuthorizeLaunch(t, e, q, action, operation, identity), m, Authorizes, e.generation)
    ensures Silent(AuthorizeLaunch(t, e, q, action, operation, identity))
    ensures LaunchPayload(q.payload, action).Ok? && m == Touch(LaunchPayload(q.payload, action).value.0)
  {
    hide Moves, Around, Inv;
    var u := AuthorizeLaunch(t, e, q, action, operation, identity).value.0;
    var a := LaunchPayload(q.payload, action).value.0;
    IntentHeld(t, a);
    SilentAround(t, u);
    TouchOf(t, u, a, u.sessions[a], Authorizes);
    m := Touch(a);
  }

  lemma StartedFaithful(s: Session, started: Started, now: nat)
    requires ValidateStarted(s, started).Pass?
    ensures Faithful(s, RuntimeStarted(s, started, now), Plain) && RuntimeStarted(s, started, now).IntentEmpty()
  {
  }

  lemma CompleteLaunchMoves(t: Tables, e: Ambient, q: Request, action: Action, operation: OperationId, started: Started)
    returns (m: Move)
    requires Inv(t) && CompleteLaunch(t, e, q, action, operation, started).Ok?
    ensures Moved(t, CompleteLaunch(t, e, q, action, operation, started), m, Plain, e.generation)
    ensures LaunchPayload(q.payload, action).Ok?
    ensures m == if q.Key() in t.results then Quiet else Commits(q.Key(), LaunchPayload(q.payload, action).value.0)
    ensures Silent(CompleteLaunch(t, e, q, action, operation, started))
  {
    hide Moves, Around, Inv, RowStored, Owns, LaunchPayload, LaunchKinds, RuntimeStarted, ValidateStarted, Faithful;
    LaunchActions(q.payload, action);
    var k, u := q.Key(), CompleteLaunch(t, e, q, action, operation, started).value.0;
    if k in t.results {
      QuietOf(t, t, Plain);
      return Quiet;
    }
    var a := LaunchPayload(q.payload, action).value.0;
    IntentHeld(t, a);
    PendingOwns(t, k);
    StartedFaithful(t.sessions[a], started, e.now);
    AroundOf(t, u, LaunchKinds(!t.participants[a].status.Joined?), a, q.principal.participant);
    CommitOf(t, u, k, a, u.sessions[a], u.results[k], Plain, []);
    m := Commits(k, a);
  }

  // ---------------------------------------------------------------- launch failures

  lemma LaunchFailedMoves(t: Tables, e: Ambient, q: Request, row: Row, reason: Reason, effect: bool) returns (m: Move)
    requires Inv(t) && LaunchFailed(t, e, q, row, reason, effect).Ok?
    ensures Moved(t, LaunchFailed(t, e, q, row, reason, effect), m, if effect then Proves else Plain, e.generation)
    ensures Silent(LaunchFailed(t, e, q, row, reason, effect))
    ensures m == Refuses(q.Key(), row.session)
  {
    hide Moves, Around, Inv, RowStored, Owns;
    var k, a, u := q.Key(), row.session, LaunchFailed(t, e, q, row, reason, effect).value.0;
    IntentHeld(t, a);
    AroundOf(t, u, [ErrorRaised, AgentSessionState], a, q.principal.participant);
    RefuseOf(t, u, k, a, u.sessions[a], reason, if effect then Proves else Plain);
    m := Refuses(k, a);
  }

  lemma FailLaunchMoves(t: Tables, e: Ambient, q: Request, action: Action, operation: OperationId, reason: Reason,
                        effect: bool)
    returns (m: Move)
    requires Inv(t) && FailLaunch(t, e, q, action, operation, reason, effect).Ok?
    ensures Moved(t, FailLaunch(t, e, q, action, operation, reason, effect), m,
      if effect then Proves else Plain, e.generation)
    ensures Silent(FailLaunch(t, e, q, action, operation, reason, effect))
    ensures LaunchPayload(q.payload, action).Ok? && m == Refuses(q.Key(), LaunchPayload(q.payload, action).value.0)
  {
    hide Moves, Inv, LaunchFailed;
    m := LaunchFailedMoves(t, e, q, LaunchRow(e, q, action, LaunchPayload(q.payload, action).value.0, operation),
      reason, effect);
  }

  lemma MarkStartMoves(t: Tables, e: Ambient, p: Principal, a: AgentId, operation: OperationId,
                       handle: Token, owner: Token, reason: Reason) returns (m: Move)
    requires Inv(t) && MarkStartUnconfirmed(t, e, p, a, operation, handle, owner, reason).Ok?
    ensures Moved(t, MarkStartUnconfirmed(t, e, p, a, operation, handle, owner, reason), m, Plain, e.generation)
    ensures Silent(MarkStartUnconfirmed(t, e, p, a, operation, handle, owner, reason))
  {
    hide Moves, Around, Inv;
    var u := MarkStartUnconfirmed(t, e, p, a, operation, handle, owner, reason).value.0;
    IntentHeld(t, a);
    AroundOf(t, u, [ErrorRaised, AgentSessionState], a, p.participant);
    TouchOf(t, u, a, u.sessions[a], Plain);
    m := Touch(a);
  }

  // ---------------------------------------------------------------- creation

  lemma CreateStoppedMoves(t: Tables, e: Ambient, q: Request, draft: Draft) returns (m: Move)
    requires Inv(t) && CreateStopped(t, e, q, draft).Ok?
    ensures Moved(t, CreateStopped(t, e, q, draft), m, Plain, e.generation)
    ensures Silent(CreateStopped(t, e, q, draft))
  {
    hide Moves, Around, Inv;
    var k, a, u := q.Key(), draft.agent, CreateStopped(t, e, q, draft).value.0;
    if k in t.results {
      QuietOf(t, t, Plain);
      return Quiet;
    }
    AroundOf(t, u, [AgentSessionCreated], a, q.principal.participant);
    SettleOf(t, u, k, a, u.sessions[a], u.results[k], Plain);
    m := Settles(k, a);
  }

  lemma InspectCreateMoves(t: Tables, e: Ambient, q: Request) returns (m: Move)
    requires Inv(t) && InspectCreateStart(t, e, q).Ok?
    ensures Moved(t, InspectCreateStart(t, e, q), m, Plain, e.generation)
    ensures Silent(InspectCreateStart(t, e, q))
  {
    hide Moves, Around, Inv, CheckCreateRow, CheckPrepared;
    QuietOf(t, t, Plain);
    m := Quiet;
  }

  lemma CreationRowStored(e: Ambient, q: Request, a: AgentId, events: seq<Event>)
    requires q.principal.agentControl
    ensures RowStored(q.Key(), CreationRow(e, q, a, Operation(q.Key(), Create), Created(a, events)))
  {
  }

  lemma PrepareCreateMoves(t: Tables, e: Ambient, q: Request, draft: Draft) returns (m: Move)
    requires Inv(t) && PrepareCreateStart(t, e, q, draft).Ok?
    ensures Moved(t, PrepareCreateStart(t, e, q, draft), m, Plain, e.generation)
    ensures m.Quiet? || m == Claims(q.Key(), draft.agent)
    ensures m.Quiet? ==> Newly(PrepareCreateStart(t, e, q, draft).value.1) == []
  {
    hide Moves, Around, Inv, RowStored, CreateOrReuse, RequireMatchingOperation, CheckPrepared;
    var k, u := q.Key(), PrepareCreateStart(t, e, q, draft).value.0;
    if k in t.results || k in t.rows {
      QuietOf(t, t, Plain);
      return Quiet;
    }
    CreateOrReuseMoves(t, e, q.principal, draft, Operation(k, Create));
    CreationRowStored(e, q, draft.agent, u.rows[k].prepared.events);
    AroundLater(t, CreateOrReuse(t, e, q.principal, draft, Some(Operation(k, Create)), true).value.0, u);
    ClaimOf(t, u, k, draft.agent, u.sessions[draft.agent], u.rows[k], Plain, u.rows[k].prepared.events);
    m := Claims(k, draft.agent);
  }

  lemma CreateOrReuseMoves(t: Tables, e: Ambient, p: Principal, draft: Draft, operation: OperationId)
    requires Inv(t) && operation.Operation?
    requires CreateOrReuse(t, e, p, draft, Some(operation), true).Ok?
    ensures var (u, events) := CreateOrReuse(t, e, p, draft, Some(operation), true).value;
      && Around(t, u) && draft.agent in u.sessions && u.sessions == t.sessions[draft.agent := u.sessions[draft.agent]]
      && u == t.(sessions := u.sessions, participants := u.participants, log := u.log)
      && (if draft.agent in t.sessions
          then t.sessions[draft.agent].IntentEmpty() &&
            Faithful(t.sessions[draft.agent], u.sessions[draft.agent], Plain)
          else u.sessions[draft.agent].serverOwned && u.sessions[draft.agent].identity.AllBlank() &&
               EffectHeld(u.sessions[draft.agent]) &&
               |t.sessions| < MAX_AGENT_SESSIONS_PER_ROOM)
      && u.sessions[draft.agent].IntentLegal() && u.sessions[draft.agent].intentAction.StartAction?
      && u.sessions[draft.agent].intentId == operation
      && Continues(t.log, u.log, events)
  {
    hide Inv, Around;
    var a, u := draft.agent, CreateOrReuse(t, e, p, draft, Some(operation), true).value.0;
    if a in t.sessions {
      IntentHeld(t, a);
      SilentAround(t, u);
    } else {
      AroundOf(t, u, [AgentSessionCreated], a, p.participant);
    }
  }

  lemma AroundLater(t: Tables, u: Tables, v: Tables)
    requires Around(t, u) && v == u.(rows := v.rows, debits := v.debits)
    ensures Around(t, v)
  {
  }

  lemma AuthorizeCreateMoves(t: Tables, e: Ambient, q: Request, operation: OperationId, identity: Identity)
    returns (m: Move)
    requires Inv(t) && AuthorizeCreateStart(t, e, q, operation, identity).Ok?
    ensures Moved(t, AuthorizeCreateStart(t, e, q, operation, identity), m, Authorizes, e.generation)
    ensures Silent(AuthorizeCreateStart(t, e, q, operation, identity))
    ensures q.Key() in t.rows && m == Touch(t.rows[q.Key()].session)
  {
    hide Moves, Around, Inv;
    var u := AuthorizeCreateStart(t, e, q, operation, identity).value.0;
    var a := t.rows[q.Key()].session;
    IntentHeld(t, a);
    SilentAround(t, u);
    TouchOf(t, u, a, u.sessions[a], Authorizes);
    m := Touch(a);
  }

  lemma CompleteCreateMoves(t: Tables, e: Ambient, q: Request, operation: OperationId, started: Started)
    returns (m: Move)
    requires Inv(t) && CompleteCreateStart(t, e, q, operation, started).Ok?
    ensures Moved(t, CompleteCreateStart(t, e, q, operation, started), m, Plain, e.generation)
    ensures m.Quiet? || (m.Commits? && m.k == q.Key())
    ensures m.Quiet? ==> Newly(CompleteCreateStart(t, e, q, operation, started).value.1) == []
  {
    hide Moves, Around, Inv, RowStored, Owns, LaunchKinds, RuntimeStarted, ValidateStarted, Faithful;
    var k, u := q.Key(), CompleteCreateStart(t, e, q, operation, started).value.0;
    if k in t.results {
      QuietOf(t, t, Plain);
      return Quiet;
    }
    var a := t.rows[k].session;
    IntentHeld(t, a);
    PendingOwns(t, k);
    StartedFaithful(t.sessions[a], started, e.now);
    AroundOf(t, u, LaunchKinds(!t.participants[a].status.Joined?), a, q.principal.participant);
    CommitOf(t, u, k, a, u.sessions[a], u.results[k], Plain,
      Newly(CompleteCreateStart(t, e, q, operation, started).value.1));
    m := Commits(k, a);
  }

  // ---------------------------------------------------------------- stop

  lemma PrepareStopMoves(t: Tables, e: Ambient, q: Request, executionFailed: bool) returns (m: Move)
    requires Inv(t) && PrepareStop(t, e, q, executionFailed).Ok?
    ensures Moved(t, PrepareStop(t, e, q, executionFailed), m, Plain, e.generation)
    ensures q.Key() in t.results ==> m.Quiet?
    ensures q.Key() !in t.results ==>
      (var k, a := q.Key(), PayloadAgent(q.payload, {}).value;
       a in t.sessions && m == if !StopNeedsCleanup(t.sessions[a]) then Settles(k, a)
                               else if t.sessions[a].IntentEmpty() then Claims(k, a) else Quiet)
    ensures Silent(PrepareStop(t, e, q, executionFailed))
  {
    hide Moves, Around, Inv, RowStored, PayloadAgent;
    var k, u := q.Key(), PrepareStop(t, e, q, executionFailed).value.0;
    if k in t.results {
      QuietOf(t, t, Plain);
      return Quiet;
    }
    var a := PayloadAgent(q.payload, {}).value;
    var s, row := t.sessions[a], LaunchRow(e, q, Stop, a, Operation(k, Stop));
    IntentHeld(t, a);
    if k in t.rows { PendingOwns(t, k); }
    if !StopNeedsCleanup(s) {
      Removed(t.rows, k, row);
      AroundOf(t, u, [AgentSessionState], a, q.principal.participant);
      assert t.sessions == t.sessions[a := s];
      SettleOf(t, u, k, a, s, u.results[k], Plain);
      m := Settles(k, a);
    } else {
      SilentAround(t, u);
      if s.IntentEmpty() {
        LaunchRowStored(e, q, Stop, a, row.operation);
        ClaimOf(t, u, k, a, u.sessions[a], row, Plain, []);
        m := Claims(k, a);
      } else {
        QuietOf(t, u, Plain);
        m := Quiet;
      }
    }
  }

  lemma AuthorizeStopMoves(t: Tables, e: Ambient, q: Request, operation: OperationId) returns (m: Move)
    requires Inv(t) && AuthorizeStop(t, e, q, operation).Ok?
    ensures Moved(t, AuthorizeStop(t, e, q, operation), m, Plain, e.generation)
    ensures Silent(AuthorizeStop(t, e, q, operation))
    ensures PayloadAgent(q.payload, {}).Ok? && m == Touch(PayloadAgent(q.payload, {}).value)
  {
    hide Moves, Around, Inv, PayloadAgent;
    var u, a := AuthorizeStop(t, e, q, operation).value.0, PayloadAgent(q.payload, {}).value;
    IntentHeld(t, a);
    SilentAround(t, u);
    TouchOf(t, u, a, u.sessions[a], Plain);
    m := Touch(a);
  }

  lemma FailStopMoves(t: Tables, e: Ambient, q: Request, operation: OperationId, reason: Reason) returns (m: Move)
    requires Inv(t) && FailStop(t, e, q, operation, reason).Ok?
    ensures Moved(t, FailStop(t, e, q, operation, reason), m, Plain, e.generation)
    ensures Silent(FailStop(t, e, q, operation, reason))
  {
    hide Moves, Around, Inv, PayloadAgent;
    var k, u, a := q.Key(), FailStop(t, e, q, operation, reason).value.0, PayloadAgent(q.payload, {}).value;
    IntentHeld(t, a);
    AroundOf(t, u, [ErrorRaised, AgentSessionState], a, q.principal.participant);
    RefuseOf(t, u, k, a, u.sessions[a], reason, Plain);
    m := Refuses(k, a);
  }

  lemma RecordStopMoves(t: Tables, e: Ambient, a: AgentId, operation: OperationId, turnClosed: bool) returns (m: Move)
    requires Inv(t) && RecordStop(t, e, a, operation, turnClosed).Ok?
    ensures Moved(t, RecordStop(t, e, a, operation, turnClosed), m, Proves, e.generation)
    ensures Silent(RecordStop(t, e, a, operation, turnClosed))
    ensures m == Touch(a)
  {
    hide Moves, Around, Inv;
    var u := RecordStop(t, e, a, operation, turnClosed).value.0;
    IntentHeld(t, a);
    SilentAround(t, u);
    TouchOf(t, u, a, u.sessions[a], Proves);
    m := Touch(a);
  }

  lemma MarkStopMoves(t: Tables, e: Ambient, p: Principal, a: AgentId, operation: OperationId, reason: Reason)
    returns (m: Move)
    requires Inv(t) && MarkStopUnconfirmed(t, e, p, a, operation, reason).Ok?
    ensures Moved(t, MarkStopUnconfirmed(t, e, p, a, operation, reason), m, Plain, e.generation)
    ensures Silent(MarkStopUnconfirmed(t, e, p, a, operation, reason))
  {
    hide Moves, Around, Inv;
    var u := MarkStopUnconfirmed(t, e, p, a, operation, reason).value.0;
    IntentHeld(t, a);
    AroundOf(t, u, [ErrorRaised, AgentSessionState], a, p.participant);
    TouchOf(t, u, a, u.sessions[a], Plain);
    m := Touch(a);
  }

  lemma FinalizeStopMoves(t: Tables, e: Ambient, q: Request) returns (m: Move)
    requires Inv(t) && FinalizeStop(t, e, q).Ok?
    ensures Moved(t, FinalizeStop(t, e, q), m, Plain, e.generation)
    ensures Silent(FinalizeStop(t, e, q))
  {
    hide Moves, Around, Inv, RowStored, Owns, PayloadAgent;
    var k, u := q.Key(), FinalizeStop(t, e, q).value.0;
    if k in t.results {
      QuietOf(t, t, Plain);
      return Quiet;
    }
    var a := PayloadAgent(q.payload, {}).value;
    IntentHeld(t, a);
    AroundOf(t, u, [SessionDetached, AgentSessionState], a, q.principal.participant);
    CommitOf(t, u, k, a, u.sessions[a], u.results[k], Plain, []);
    m := Commits(k, a);
  }

  // ---------------------------------------------------------------- reconciliation

  lemma PendingKeysOf(t: Tables, a: AgentId)
    requires Inv(t) && a in t.sessions
    ensures PendingKeys(t, a) == if t.sessions[a].IntentEmpty() then {} else {t.sessions[a].intentId.key}
  {
    IntentHeld(t, a);
    forall k | k in PendingKeys(t, a) ensures !t.sessions[a].IntentEmpty() && k == t.sessions[a].intentId.key {
      PendingOwns(t, k);
    }
  }

  /** The checks made before a session is reconciled never find the tables inconsistent:
      apart from a broken turn, they return exactly the request that owns the session's intent. */
  lemma StoredAuthorityIsConsistent(t: Tables, a: AgentId)
    requires Inv(t) && a in t.sessions
    ensures var s := t.sessions[a];
      CandidateKey(t, a) ==
        if s.TurnAuthority().Err? then Err(Rejected(InvalidAuthority))
        else Ok(if s.IntentEmpty() then None else Some(s.intentId.key))
    ensures !t.sessions[a].IntentEmpty() ==> PendingRow(t, t.sessions[a].intentId.key, a)
  {
    hide RowNames;
    IntentHeld(t, a);
    PendingKeysOf(t, a);
    if !t.sessions[a].IntentEmpty() { PendingOwns(t, t.sessions[a].intentId.key); }
  }

  lemma CandidateExists(t: Tables, a: AgentId)
    requires CandidateKey(t, a).Ok?
    ensures a in t.sessions
  {
  }

  lemma RejectAbandonedMoves(t: Tables, e: Ambient, a: AgentId, key: Option<Key>, l: Licence) returns (m: Move)
    requires Inv(t) && a in t.sessions && (key.Some? ==> PendingRow(t, key.value, a))
    requires RejectAbandonedOf(t, e, a, key).Ok?
    ensures Moved(t, RejectAbandonedOf(t, e, a, key), m, l, e.generation)
    ensures Silent(RejectAbandonedOf(t, e, a, key))
    ensures key.Some? && m == Refuses(key.value, a)
  {
    hide Moves, Around, Inv;
    var u := RejectAbandonedOf(t, e, a, key).value.0;
    IntentHeld(t, a);
    AroundOf(t, u, [ErrorRaised, AgentSessionState], a, t.rows[key.value].owner.participant);
    RefuseOf(t, u, key.value, a, u.sessions[a], u.rows[key.value].status.reason, l);
    m := Refuses(key.value, a);
  }

  lemma RecoveredStopMoves(t: Tables, e: Ambient, a: AgentId, key: Option<Key>, l: Licence) returns (m: Move)
    requires Inv(t) && a in t.sessions && (key.Some? ==> PendingRow(t, key.value, a) && t.rows[key.value].action.Stop?)
    requires t.sessions[a].intentStatus.EffectApplied? || l.Proof()
    requires FinalizeRecoveredStop(t, e, a, key).Ok?
    ensures Moved(t, FinalizeRecoveredStop(t, e, a, key), m, l, e.generation)
    ensures Silent(FinalizeRecoveredStop(t, e, a, key))
    ensures key.Some? && m == Commits(key.value, a)
  {
    hide Moves, Around, Inv;
    var u := FinalizeRecoveredStop(t, e, a, key).value.0;
    IntentHeld(t, a);
    AroundOf(t, u, [SessionDetached, AgentSessionState], a, t.rows[key.value].owner.participant);
    CommitOf(t, u, key.value, a, u.sessions[a], u.results[key.value], l, []);
    m := Commits(key.value, a);
  }

  lemma RecoveredStartMoves(t: Tables, e: Ambient, a: AgentId, key: Option<Key>, l: Licence) returns (m: Move)
    requires Inv(t) && a in t.sessions && (key.Some? ==> PendingRow(t, key.value, a))
    requires l.Proof()
    requires RejectRecoveredStart(t, e, a, key).Ok?
    ensures Moved(t, RejectRecoveredStart(t, e, a, key), m, l, e.generation)
    ensures Silent(RejectRecoveredStart(t, e, a, key))
    ensures key.Some? && m == Refuses(key.value, a)
  {
    hide Moves, Around, Inv;
    var u := RejectRecoveredStart(t, e, a, key).value.0;
    IntentHeld(t, a);
    AroundOf(t, u, [ErrorRaised, AgentSessionState], a, t.rows[key.value].owner.participant);
    RefuseOf(t, u, key.value, a, u.sessions[a], RecoveredStart, l);
    m := Refuses(key.value, a);
  }

  lemma AbandonedCommandMoves(t: Tables, e: Ambient, a: AgentId, seen: Session) returns (m: Move)
    requires Inv(t) && RejectAbandoned(t, e, a, seen).Ok?
    ensures Moved(t, RejectAbandoned(t, e, a, seen), m, Plain, e.generation)
    ensures Silent(RejectAbandoned(t, e, a, seen))
  {
    hide Moves, Inv, RejectAbandonedOf, RowNames;
    StoredAuthorityIsConsistent(t, a);
    m := RejectAbandonedMoves(t, e, a, CandidateKey(t, a).value, Plain);
  }

  /** An observation that ends no request keeps the intent of the session it is about. */
  lemma ObservedFaithful(s: Session, o: Observation, now: nat, removed: bool)
    requires Observed(s, o, now).Ok? && s.identity.Uniform() && (s.IntentEmpty() || s.IntentLegal())
    requires !s.intentStatus.Prepared? && (s.intentAction.StopAction? ==> !s.intentStatus.EffectApplied? && !o.Gone?)
    requires s.intentAction.StartAction? ==> !o.Gone?
    ensures Faithful(s, Fenced(Observed(s, o, now).value.0, removed), ObservationLicence(o)) &&
      SameIntent(s, Fenced(Observed(s, o, now).value.0, removed))
  {
    hide AfterGone, Retained, Faithful, SameIntent, Fenced;
    if o.Gone? { GoneFaithful(s, now, removed); }
    else if o.Adopted? { AdoptedFaithful(s, o, now, removed); }
    else { RetainedFaithful(s, now, removed); }
  }

  lemma AdoptedFaithful(s: Session, o: Observation, now: nat, removed: bool)
    requires o.Adopted? && Observed(s, o, now).Ok? && s.identity.Uniform() && (s.IntentEmpty() || s.IntentLegal())
    requires s.intentAction.StopAction? ==> !s.intentStatus.EffectApplied?
    ensures var u := Fenced(Observed(s, o, now).value.0, removed); Faithful(s, u, Adopts) && SameIntent(s, u)
  {
  }

  lemma RetainedFaithful(s: Session, now: nat, removed: bool)
    requires s.identity.Uniform() && (s.IntentEmpty() || s.IntentLegal()) && !s.intentStatus.Prepared?
    ensures var u := Fenced(Retained(s, now), removed); Faithful(s, u, Plain) && SameIntent(s, u)
  {
  }

  lemma GoneFaithful(s: Session, now: nat, removed: bool)
    requires s.identity.Uniform() && s.IntentEmpty()
    ensures var u := Fenced(AfterGone(s, now).0, removed); Faithful(s, u, Proves) && SameIntent(s, u)
  {
  }

  lemma ObserveMoves(t: Tables, e: Ambient, a: AgentId, o: Observation)
    requires Inv(t) && a in t.sessions && Observe(t, e, a, o).Ok?
    requires var s := t.sessions[a];
      !s.intentStatus.Prepared? && (s.intentAction.StopAction? ==> !s.intentStatus.EffectApplied? && !o.Gone?) &&
      (s.intentAction.StartAction? ==> !o.Gone?)
    ensures Moved(t, Observe(t, e, a, o), Touch(a), ObservationLicence(o), e.generation)
    ensures Silent(Observe(t, e, a, o))
  {
    hide Moves, Around, Inv, Observed, Fenced, Faithful, SameIntent;
    var u := Observe(t, e, a, o).value.0;
    IntentHeld(t, a);
    ObservedFaithful(t.sessions[a], o, e.now, o.Gone? && a in t.cleanup);
    SilentAround(t, u);
    TouchOf(t, u, a, u.sessions[a], ObservationLicence(o));
  }

  /** What an observation decides: it refuses a request whose effect was never let loose or whose start is
      gone, completes a stop that is applied or gone, and otherwise leaves the intent to its owner. */
  function Decided(s: Session, a: AgentId, o: Observation): Move {
    if !s.intentId.Operation? then Touch(a)
    else if s.intentStatus.Prepared? then Refuses(s.intentId.key, a)
    else if s.intentAction.StopAction? && (s.intentStatus.EffectApplied? || o.Gone?) then Commits(s.intentId.key, a)
    else if s.intentAction.StartAction? && o.Gone? then Refuses(s.intentId.key, a)
    else Touch(a)
  }

  lemma ReconcileMoves(t: Tables, e: Ambient, a: AgentId, seen: Session, o: Observation) returns (m: Move)
    requires Inv(t) && Reconcile(t, e, a, seen, o).Ok?
    ensures Moved(t, Reconcile(t, e, a, seen, o), m, ObservationLicence(o), e.generation)
    ensures Silent(Reconcile(t, e, a, seen, o))
    ensures a in t.sessions && m == Decided(t.sessions[a], a, o)
  {
    hide Moves, Inv, RejectAbandonedOf, FinalizeRecoveredStop, RejectRecoveredStart, RowNames, CandidateKey, Observe;
    CandidateExists(t, a);
    StoredAuthorityIsConsistent(t, a);
    IntentHeld(t, a);
    var s, key := t.sessions[a], CandidateKey(t, a).value;
    if s.intentStatus.Prepared? {
      m := RejectAbandonedMoves(t, e, a, key, ObservationLicence(o));
    } else if s.intentAction.StopAction? && (s.intentStatus.EffectApplied? || o.Gone?) {
      PendingOwns(t, key.value);
      m := RecoveredStopMoves(t, e, a, key, ObservationLicence(o));
    } else if s.intentAction.StartAction? && o.Gone? {
      m := RecoveredStartMoves(t, e, a, key, ObservationLicence(o));
    } else {
      ObserveMoves(t, e, a, o);
      m := Touch(a);
    }
  }

  lemma LiveObservedFaithful(s: Session, o: Observation, now: nat)
    requires LiveObserved(s, o, now).Ok? && LiveObserved(s, o, now).value.Some?
    requires s.identity.Uniform() && s.IntentLegal() && s.intentStatus in {EffectInflight, Unconfirmed}
    ensures var u := LiveObserved(s, o, now).value.value.0; Faithful(s, u, ObservationLicence(o)) && SameIntent(s, u)
  {
  }

  lemma LiveReconcileMoves(t: Tables, e: Ambient, a: AgentId, seen: Session, o: Observation) returns (m: Move)
    requires Inv(t) && LiveReconcile(t, e, a, seen, o).Ok?
    ensures Moved(t, LiveReconcile(t, e, a, seen, o), m, ObservationLicence(o), e.generation)
    ensures Silent(LiveReconcile(t, e, a, seen, o))
    ensures m.Quiet? || m == Touch(a)
  {
    hide Moves, Around, Inv, RowNames, CandidateKey, LiveObserved, Faithful, SameIntent;
    CandidateExists(t, a);
    StoredAuthorityIsConsistent(t, a);
    IntentHeld(t, a);
    var s, u := t.sessions[a], LiveReconcile(t, e, a, seen, o).value.0;
    if LiveObserved(s, o, e.now).value.None? {
      QuietOf(t, t, ObservationLicence(o));
      m := Quiet;
    } else {
      LiveObservedFaithful(s, o, e.now);
      SilentAround(t, u);
      TouchOf(t, u, a, u.sessions[a], ObservationLicence(o));
      m := Touch(a);
    }
  }

  lemma IdleFailureMoves(t: Tables, e: Ambient, a: AgentId, seen: Session, blocking: bool) returns (m: Move)
    requires Inv(t) && RecordIdleFailure(t, e, a, seen, blocking).Ok?
    ensures Moved(t, RecordIdleFailure(t, e, a, seen, blocking), m, Plain, e.generation)
    ensures Silent(RecordIdleFailure(t, e, a, seen, blocking))
  {
    hide Moves, Around, Inv, CandidateKey;
    CandidateExists(t, a);
    StoredAuthorityIsConsistent(t, a);
    IntentHeld(t, a);
    var s, u := t.sessions[a], RecordIdleFailure(t, e, a, seen, blocking).value.0;
    if !s.intentStatus.NoStatus? || s.recoveryRequired || blocking {
      QuietOf(t, t, Plain);
      m := Quiet;
    } else {
      AroundOf(t, u, [ErrorRaised, SessionDetached, AgentSessionState], a, "");
      TouchOf(t, u, a, u.sessions[a], Plain);
      m := Touch(a);
    }
  }

  // ---------------------------------------------------------------- ordinary commands

  lemma PauseMoves(t: Tables, e: Ambient, q: Request, resident: ResidentRuntime) returns (m: Move)
    requires Inv(t) && ExecutePause(t, e, q, resident).Ok?
    ensures Moved(t, ExecutePause(t, e, q, resident), m, Plain, e.generation)
    ensures Silent(ExecutePause(t, e, q, resident))
  {
    hide Moves, Around, Inv, PayloadAgent;
    var k, u := q.Key(), ExecutePause(t, e, q, resident).value.0;
    if k in t.results {
      QuietOf(t, t, Plain);
      return Quiet;
    }
    var a := PayloadAgent(q.payload, {}).value;
    IntentHeld(t, a);
    AroundOf(t, u, [AgentSessionState], a, q.principal.participant);
    SettleOf(t, u, k, a, u.sessions[a], u.results[k], Plain);
    m := Settles(k, a);
  }

  lemma ResumePausedMoves(t: Tables, e: Ambient, q: Request, resident: ResidentRuntime) returns (m: Move)
    requires Inv(t) && ResumePaused(t, e, q, resident).Ok?
    ensures Moved(t, ResumePaused(t, e, q, resident), m, Plain, e.generation)
    ensures Silent(ResumePaused(t, e, q, resident))
  {
    hide Moves, Around, Inv, PayloadAgent;
    var k, u := q.Key(), ResumePaused(t, e, q, resident).value.0;
    var a := PayloadAgent(q.payload, {}).value;
    if k in t.results || !t.sessions[a].runtime.Paused? {
      QuietOf(t, t, Plain);
      return Quiet;
    }
    IntentHeld(t, a);
    AroundOf(t, u, [AgentSessionState], a, q.principal.participant);
    SettleOf(t, u, k, a, u.sessions[a], u.results[k], Plain);
    m := Settles(k, a);
  }

  lemma ConfigureMoves(t: Tables, e: Ambient, q: Request, expectedKey: string, draft: Draft) returns (m: Move)
    requires Inv(t) && ExecuteConfigure(t, e, q, expectedKey, draft).Ok?
    ensures Moved(t, ExecuteConfigure(t, e, q, expectedKey, draft), m, Plain, e.generation)
    ensures Silent(ExecuteConfigure(t, e, q, expectedKey, draft))
  {
    hide Moves, Around, Inv;
    var k, a, u := q.Key(), draft.agent, ExecuteConfigure(t, e, q, expectedKey, draft).value.0;
    if k in t.results {
      QuietOf(t, t, Plain);
      return Quiet;
    }
    IntentHeld(t, a);
    AroundOf(t, u, [AgentSessionState], a, q.principal.participant);
    SettleOf(t, u, k, a, u.sessions[a], u.results[k], Plain);
    m := Settles(k, a);
  }

  lemma InterruptMoves(t: Tables, e: Ambient, q: Request, execution: Option<Execution>, effectOwned: bool)
    returns (m: Move)
    requires Inv(t) && ExecuteInterrupt(t, e, q, execution, effectOwned).Ok?
    ensures Moved(t, ExecuteInterrupt(t, e, q, execution, effectOwned), m, Plain, e.generation)
    ensures Silent(ExecuteInterrupt(t, e, q, execution, effectOwned))
  {
    hide Moves, Around, Inv, PayloadAgent;
    var k, u := q.Key(), ExecuteInterrupt(t, e, q, execution, effectOwned).value.0;
    if k in t.results {
      QuietOf(t, t, Plain);
      return Quiet;
    }
    var a := PayloadAgent(q.payload, {}).value;
    IntentHeld(t, a);
    AroundOf(t, u, [AgentSessionState], a, q.principal.participant);
    SettleOf(t, u, k, a, u.sessions[a], u.results[k], Plain);
    m := Settles(k, a);
  }

  // ---------------------------------------------------------------- the room around the protocol

  lemma TurnMoves(t: Tables, e: Ambient, c: Command) returns (m: Move)
    requires c.DoAssignTurn? || c.DoCompleteTurn? || c.DoFailTurn?
    requires Inv(t) && Perform(t, e, c).Ok?
    ensures Moved(t, Perform(t, e, c), m, LicenceOf(c), e.generation)
    ensures Silent(Perform(t, e, c))
    ensures m == Touch(c.a)
  {
    hide Moves, Around, Inv;
    var u := Perform(t, e, c).value.0;
    IntentHeld(t, c.a);
    SilentAround(t, u);
    TouchOf(t, u, c.a, u.sessions[c.a], LicenceOf(c));
    m := Touch(c.a);
  }

  lemma TurnGoneMoves(t: Tables, e: Ambient, a: AgentId, turn: string, interrupted: bool) returns (m: Move)
    requires Inv(t) && TurnRuntimeGone(t, e, a, turn, interrupted).Ok?
    ensures Moved(t, TurnRuntimeGone(t, e, a, turn, interrupted), m, ProvesByTurn, e.generation)
    ensures Silent(TurnRuntimeGone(t, e, a, turn, interrupted))
    ensures m == Touch(a)
  {
    hide Moves, Around, Inv, CandidateKey;
    var u := TurnRuntimeGone(t, e, a, turn, interrupted).value.0;
    IntentHeld(t, a);
    SilentAround(t, u);
    TouchOf(t, u, a, u.sessions[a], ProvesByTurn);
    m := Touch(a);
  }

  lemma RemoveMoves(t: Tables, e: Ambient, a: AgentId, status: Membership) returns (m: Move)
    requires Inv(t) && RemoveMember(t, e, a, status).Ok?
    ensures Moved(t, RemoveMember(t, e, a, status), m, Plain, e.generation)
    ensures Silent(RemoveMember(t, e, a, status))
  {
    hide Moves, Around, Inv;
    var u := RemoveMember(t, e, a, status).value.0;
    IntentHeld(t, a);
    SilentAround(t, u);
    TouchOf(t, u, a, u.sessions[a], Plain);
    m := Touch(a);
  }

  lemma CleanupMoves(t: Tables, e: Ambient, a: AgentId, blocking: bool) returns (m: Move)
    requires Inv(t) && FinishCleanup(t, e, a, blocking).Ok?
    ensures Moved(t, FinishCleanup(t, e, a, blocking), m, Plain, e.generation)
    ensures Silent(FinishCleanup(t, e, a, blocking))
  {
    hide Moves, Around, Inv;
    var u := FinishCleanup(t, e, a, blocking).value.0;
    if u == t {
      QuietOf(t, t, Plain);
      return Quiet;
    }
    IntentHeld(t, a);
    SilentAround(t, u);
    TouchOf(t, u, a, u.sessions[a], Plain);
    m := Touch(a);
  }

  lemma RoomMoves(t: Tables, e: Ambient, c: Command)
    requires c.DoSetMuted? || c.DoRecordRoomEvent? || c.DoSetRestarting?
    requires Inv(t) && Perform(t, e, c).Ok?
    ensures Moved(t, Perform(t, e, c), Quiet, Plain, e.generation)
    ensures Silent(Perform(t, e, c))
  {
    hide Moves, Around, Inv;
    var u := Perform(t, e, c).value.0;
    if c.DoRecordRoomEvent? { AroundOf(t, u, [OtherEvent], c.a, c.actor); }
    else { SilentAround(t, u); }
    QuietOf(t, u, Plain);
  }
}
