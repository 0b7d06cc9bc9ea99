/** Every operation of the lifecycle protocol as one atomic step on the tables of a room: what it
    commits, or the failure with which it rolls back. */
module LifecycleSteps {
  import opened Wrappers
  import opened LifecycleModel

  /** What a step is given from outside: the runtime generation of the store that runs it, whether the
      room's write budget has room for one more command, and the time. */
  datatype Ambient = Ambient(generation: Generation, budget: bool, now: nat)

  datatype Request = Request(principal: Principal, id: string, payload: Payload) {
    function Key(): Key { LifecycleModel.Key.Key(principal.id, id) }
  }

  // ---------------------------------------------------------------- reservations and results

  function LaunchRow(e: Ambient, q: Request, action: Action, a: AgentId, operation: OperationId): Row {
    Row(action, q.payload, a, operation, e.generation, LifecyclePrepared, NoResult, q.principal, Pending)
  }

  function CreationRow(e: Ambient, q: Request, a: AgentId, operation: OperationId, prepared: PreparedResult): Row {
    Row(Create, q.payload, a, operation, e.generation, CreationCommitted, prepared, q.principal, Pending)
  }

  /** A new key inserts the row; a known key must repeat it, and a pending one must be this store's own. */
  function Claim(t: Tables, e: Ambient, key: Key, row: Row, charge: bool): Outcome<Tables> {
    if key in t.rows then
      var stored := t.rows[key];
      if !stored.SameRequest(row) then Err(Conflict)
      else if stored.status.Refused? then Err(StoredRejection(stored.status.reason))
      else if stored.generation != e.generation then Err(Unresolved)
      else Ok(t)
    else
      var _ :- Require(!t.restarting, Restarting);
      var _ :- Require(charge ==> e.budget, BudgetExceeded);
      Ok(t.(rows := t.rows[key := row], debits := t.debits + if charge then 1 else 0))
  }

  predicate Holds(t: Tables, key: Key, row: Row) {
    key in t.rows && t.rows[key].SameRequest(row) && t.rows[key].status.Pending?
  }

  function Finish(t: Tables, key: Key, row: Row): Outcome<Tables> {
    var _ :- Require(Holds(t, key, row), StaleReservation);
    Ok(t.(rows := t.rows - {key}))
  }

  function Refuse(t: Tables, key: Key, row: Row, reason: Reason): Outcome<Tables> {
    if reason.Given? && !reason.storable then Err(Unresolved)
    else
      var _ :- Require(Holds(t, key, row), StaleReservation);
      Ok(t.(rows := t.rows[key := t.rows[key].(status := Refused(reason))]))
  }

  /** The results table has one row per key: a second insert is a storage error. */
  function StoreResult(t: Tables, key: Key, result: StoredResult): Outcome<Tables> {
    if key in t.results then Err(Storage) else Ok(t.(results := t.results[key := result]))
  }

  function SaveSession(t: Tables, a: AgentId, s: Session): Tables { t.(sessions := t.sessions[a := s]) }

  function SaveParticipant(t: Tables, a: AgentId, p: Participant): Tables {
    t.(participants := t.participants[a := p])
  }

  function Append(t: Tables, events: seq<Event>): Tables { t.(log := t.log + events) }

  /** Saves nothing but events and the result of a finished command. */
  function CommitResult(t: Tables, q: Request, action: Action, kind: ResultKind, kinds: seq<EventKind>,
                        a: AgentId): Step {
    var events := NewEvents(t.log, kinds, a, q.principal.participant);
    var result := StoredResult(action, q.payload, kind, events);
    var stored :- StoreResult(Append(t, events), q.Key(), result);
    Ok((stored, Committed(result)))
  }

  // ---------------------------------------------------------------- start, resume, re-add

  function PrepareLaunch(t: Tables, e: Ambient, q: Request, action: Action): Step {
    var _ :- AuthorizeControl(q.principal);
    var launch :- LaunchPayload(q.payload, action);
    var (a, start) := launch;
    var operation := Operation(q.Key(), action);
    var replay :- ExistingCommand(t, q.Key(), action, q.payload);
    if replay.Some? then Ok((t, Replay(replay.value)))
    else
      var row := LaunchRow(e, q, action, a, operation);
      var t1 :- Claim(t, e, q.Key(), row, true);
      var s :- LoadLaunchSession(t1, a);
      var _ :- s.TurnAuthority();
      var p :- LoadParticipant(t1, a);
      var _ :- Require(!p.status.Exported?, ParticipantExported);
      var _ :- Require(!action.Readd? ==> !p.status.Kicked?, ParticipantKicked);
      var _ :- Require(s.profile.version == CURRENT_PROFILE_VERSION, ProfileUnsupported);
      var incomplete :- MatchingStartIntent(s, operation);
      var _ :- if action.Readd? && !incomplete then RequireReaddable(s, p) else Pass;
      if !start then
        var t2 :- Finish(t1, q.Key(), row);
        Relist(t2, e, q, a, s, p)
      else
        var prepared := if incomplete then s else PreparedLaunch(s, operation, e.now);
        Ok((SaveSession(t1, a, prepared), StartPlan(operation, prepared)))
  }

  /** A re-add without a start lists the agent again and commits at once. */
  function Relist(t: Tables, e: Ambient, q: Request, a: AgentId, s: Session, p: Participant): Step {
    var listed := s.(status := Available, runtime := Stopped, error := NoError, updatedAt := e.now);
    var member := p.(status := DetachedMember, updatedAt := e.now);
    CommitResult(SaveParticipant(SaveSession(t, a, listed), a, member), q, Readd, Relisted,
      [AgentSessionReactivated], a)
  }

  function AuthorizeLaunch(t: Tables, e: Ambient, q: Request, action: Action, operation: OperationId,
                           identity: Identity): Step {
    var launch :- LaunchPayload(q.payload, action);
    var a := launch.0;
    var _ :- Require(operation == Operation(q.Key(), action), StaleStart);
    var _ :- Require(Holds(t, q.Key(), LaunchRow(e, q, action, a, operation)) &&
                     t.rows[q.Key()].generation == e.generation, StaleReservation);
    var s :- LoadLaunchSession(t, a);
    var authorized :- AuthorizedStart(s, operation, identity);
    Ok((SaveSession(t, a, authorized), StartPlan(operation, authorized)))
  }

  function LaunchKinds(joined: bool): seq<EventKind> {
    (if joined then [ParticipantJoined] else []) + [SessionAttached, AgentSessionState]
  }

  /** Attaches the started runtime and admits the participant. */
  function Attach(t: Tables, e: Ambient, a: AgentId, s: Session, p: Participant, started: Started): Tables {
    SaveParticipant(SaveSession(t, a, RuntimeStarted(s, started, e.now)), a, p.(status := Joined, updatedAt := e.now))
  }

  function CompleteLaunch(t: Tables, e: Ambient, q: Request, action: Action, operation: OperationId,
                          started: Started): Step {
    var launch :- LaunchPayload(q.payload, action);
    var a := launch.0;
    var _ :- Require(operation == Operation(q.Key(), action), StaleStart);
    var replay :- ExistingCommand(t, q.Key(), action, q.payload);
    if replay.Some? then Ok((t, Replay(replay.value)))
    else
      var s :- LoadLaunchSession(t, a);
      var _ :- ValidateStarted(s, started);
      var _ :- RequireIntent(s, StartAction, operation, EffectInflight, StaleStart);
      var t1 :- Finish(t, q.Key(), LaunchRow(e, q, action, a, operation));
      var p :- LoadParticipant(t1, a);
      var kind := if action.Readd? then Readded(started.runtimeReused) else Launched(started.runtimeReused);
      CommitResult(Attach(t1, e, a, s, p, started), q, action, kind, LaunchKinds(!p.status.Joined?), a)
  }

  // ---------------------------------------------------------------- launch failures

  /** A definitive launch failure: before the effect it keeps the runtime identity, after it the
      provider's rejection proves the runtime gone. */
  function LaunchFailed(t: Tables, e: Ambient, q: Request, row: Row, reason: Reason, effect: bool): Step {
    var a := row.session;
    var s :- LoadSession(t, a);
    var _ :- RequireIntent(s, StartAction, row.operation, if effect then EffectInflight else Prepared, StaleStart);
    var t1 :- Refuse(t, q.Key(), row, reason);
    var failed := FailedLaunchSession(s, reason, effect, e.now);
    var events := NewEvents(t.log, [ErrorRaised, AgentSessionState], a, q.principal.participant);
    Ok((Append(SaveSession(t1, a, failed), events), Reported(events)))
  }

  function FailedLaunchSession(s: Session, reason: Reason, effect: bool, now: nat): Session {
    var down := if effect || s.identity.AllBlank()
      then s.(status := Unavailable, enabled := false, runtime := RuntimeError, providerActive := false) else s;
    down.(error := Note(reason), identity := if effect then NO_IDENTITY else s.identity, updatedAt := now).ClearIntent()
  }

  function FailLaunch(t: Tables, e: Ambient, q: Request, action: Action, operation: OperationId, reason: Reason,
                      effect: bool): Step {
    var launch :- LaunchPayload(q.payload, action);
    LaunchFailed(t, e, q, LaunchRow(e, q, action, launch.0, operation), reason, effect)
  }

  function MarkStartUnconfirmed(t: Tables, e: Ambient, p: Principal, a: AgentId, operation: OperationId,
                                handle: Token, owner: Token, reason: Reason): Step {
    var s :- LoadSession(t, a);
    var _ :- RequireIntent(s, StartAction, operation, EffectInflight, StaleStart);
    var _ :- Require(handle.Named? && owner.Named? && handle == s.identity.handle && owner == s.identity.owner,
               RuntimeOwnerMismatch);
    var uncertain := s.(status := Unavailable, enabled := false, runtime := Disconnected, providerActive := false,
      providerReused := false, error := Note(reason), recoveryRequired := true, intentStatus := Unconfirmed,
      updatedAt := e.now);
    var events := NewEvents(t.log, [ErrorRaised, AgentSessionState], a, p.participant);
    Ok((Append(SaveSession(t, a, uncertain), events), Reported(events)))
  }

  // ---------------------------------------------------------------- creation

  function CreateRecords(t: Tables, e: Ambient, p: Principal, draft: Draft,
                         operation: Option<OperationId>): Outcome<(Tables, seq<Event>)> {
    var _ :- Require(|t.sessions| < MAX_AGENT_SESSIONS_PER_ROOM, Capacity);
    var initial := InitialSession(draft, e.now);
    var s := if operation.Some? then PreparedCreation(initial, operation.value, e.now) else initial;
    var member := Participant(DetachedMember, p.participant, true, false, e.now);
    var events := NewEvents(t.log, [AgentSessionCreated], draft.agent, p.participant);
    Ok((Append(SaveParticipant(SaveSession(t, draft.agent, s), draft.agent, member), events), events))
  }

  /** A new agent gets its records; an exact server-owned one may be reused when nothing is in progress. */
  function CreateOrReuse(t: Tables, e: Ambient, p: Principal, draft: Draft, operation: Option<OperationId>,
                         reuse: bool): Outcome<(Tables, seq<Event>)> {
    var a := draft.agent;
    if a !in t.sessions && a !in t.participants then CreateRecords(t, e, p, draft, operation)
    else if a in t.sessions && a in t.participants && reuse && t.sessions[a].serverOwned &&
            t.sessions[a].profile.key == draft.profile.key && t.participants[a].owner == p.participant then
      var _ :- Require(t.sessions[a].IntentEmpty(), OperationInProgress);
      Ok((if operation.Some? then SaveSession(t, a, PreparedCreation(t.sessions[a], operation.value, e.now))
        else t, []))
    else Err(Rejected(SessionExists))
  }

  /** Creation without a start: an ordinary command that never reuses. */
  function CreateStopped(t: Tables, e: Ambient, q: Request, draft: Draft): Step {
    var _ :- AuthorizeControl(q.principal);
    var admitted :- Admit(t, e, q, Create);
    var (t1, replay) := admitted;
    if replay.Some? then Ok((t, Replay(replay.value)))
    else
      var records :- CreateOrReuse(t1, e, q.principal, draft, None, false);
      var (t2, events) := records;
      var result := StoredResult(Create, q.payload, CreatedOnly, events);
      var t3 :- StoreResult(t2, q.Key(), result);
      Ok((t3, Committed(result)))
  }

  function CheckCreateRow(row: Row, payload: Payload): Check {
    if !row.action.Create? || row.payload != payload then Fail(Conflict)
    else if !row.phase.CreationCommitted? then Fail(Rejected(StaleReservation))
    else if row.status.Refused? then Fail(StoredRejection(row.status.reason))
    else Pass
  }

  function CheckPrepared(row: Row): Check {
    Require(row.prepared.Created? && row.prepared.agent == row.session, StaleReservation)
  }

  function ResumeCreateStart(t: Tables, e: Ambient, q: Request): Outcome<Option<Reply>> {
    if q.Key() !in t.rows then Ok(None)
    else
      var row := t.rows[q.Key()];
      var _ :- CheckCreateRow(row, q.payload);
      var _ :- if row.generation != e.generation then Fail(Unresolved) else Pass;
      var _ :- CheckPrepared(row);
      var s :- LoadSession(t, row.session);
      var _ :- RequireMatchingOperation(s, StartAction, row.operation);
      if s.intentStatus.Prepared? then Ok(Some(CreatePlan(row.operation, row.session, row.prepared.events, [])))
      else if s.intentStatus in {EffectInflight, Unconfirmed} then Err(Unresolved)
      else Err(Rejected(InvalidState))
  }

  function InspectCreateStart(t: Tables, e: Ambient, q: Request): Step {
    var _ :- AuthorizeControl(q.principal);
    var replay :- ExistingCommand(t, q.Key(), Create, q.payload);
    if replay.Some? then Ok((t, Replay(replay.value)))
    else
      var resumed :- ResumeCreateStart(t, e, q);
      Ok((t, if resumed.Some? then resumed.value else Select))
  }

  function PrepareCreateStart(t: Tables, e: Ambient, q: Request, draft: Draft): Step {
    var _ :- AuthorizeControl(q.principal);
    var operation := Operation(q.Key(), Create);
    var replay :- ExistingCommand(t, q.Key(), Create, q.payload);
    if replay.Some? then Ok((t, Replay(replay.value)))
    else
      var resumed :- ResumeCreateStart(t, e, q);
      if resumed.Some? then Ok((t, resumed.value))
      else
        var records :- CreateOrReuse(t, e, q.principal, draft, Some(operation), true);
        var (t1, events) := records;
        var row := CreationRow(e, q, draft.agent, operation, Created(draft.agent, events));
        var t2 :- Claim(t1, e, q.Key(), row, true);
        Ok((t2, CreatePlan(operation, draft.agent, events, events)))
  }

  function RequiredCreateRow(t: Tables, q: Request): Outcome<Row> {
    var _ :- Require(q.Key() in t.rows, StaleReservation);
    var _ :- CheckCreateRow(t.rows[q.Key()], q.payload);
    Ok(t.rows[q.Key()])
  }

  function AuthorizeCreateStart(t: Tables, e: Ambient, q: Request, operation: OperationId, identity: Identity): Step {
    var _ :- AuthorizeControl(q.principal);
    var _ :- Require(operation == Operation(q.Key(), Create), StaleStart);
    var row :- RequiredCreateRow(t, q);
    var _ :- Require(row.operation == operation && row.generation == e.generation, StaleReservation);
    var _ :- CheckPrepared(row);
    var s :- LoadLaunchSession(t, row.session);
    var authorized :- AuthorizedStart(s, operation, identity);
    Ok((SaveSession(t, row.session, authorized), CreatePlan(operation, row.session, row.prepared.events, [])))
  }

  function CompleteCreateStart(t: Tables, e: Ambient, q: Request, operation: OperationId, started: Started): Step {
    var _ :- Require(operation == Operation(q.Key(), Create), StaleStart);
    var replay :- ExistingCommand(t, q.Key(), Create, q.payload);
    if replay.Some? then Ok((t, CreateCommit(replay.value, [], [])))
    else
      var row :- RequiredCreateRow(t, q);
      var _ :- if row.operation != operation then Fail(Conflict) else Pass;
      var _ :- CheckPrepared(row);
      var a := row.session;
      var s :- LoadLaunchSession(t, a);
      var _ :- ValidateStarted(s, started);
      var _ :- RequireIntent(s, StartAction, operation, EffectInflight, StaleStart);
      var t1 :- Finish(t, q.Key(), row);
      var p :- LoadParticipant(t1, a);
      var news := NewEvents(t.log, LaunchKinds(!p.status.Joined?), a, q.principal.participant);
      var all := row.prepared.events + news;
      var result := StoredResult(Create, q.payload, CreatedStarted(started.runtimeReused), all);
      var t2 :- StoreResult(Append(Attach(t1, e, a, s, p, started), news), q.Key(), result);
      Ok((t2, CreateCommit(result, all, news)))
  }

  function FailCreateStart(t: Tables, e: Ambient, q: Request, a: AgentId, operation: OperationId,
                           prepared: PreparedResult, reason: Reason, effect: bool): Step {
    LaunchFailed(t, e, q, CreationRow(e, q, a, operation, prepared), reason, effect)
  }

  // ---------------------------------------------------------------- stop

  /** A failed session whose runtime exit is already confirmed; `executionFailed` is the terminal turn record. */
  function ConfirmedExit(s: Session, executionFailed: bool): bool {
    s.runtime.RuntimeError? && !s.providerActive && s.identity.AllBlank() && s.turn.NoTurn? &&
    ((s.status.Unavailable? && !s.enabled && !s.recoveryRequired) || (s.recoveryRequired && executionFailed))
  }

  function PrepareStop(t: Tables, e: Ambient, q: Request, executionFailed: bool): Step {
    var _ :- AuthorizeControl(q.principal);
    var a :- PayloadAgent(q.payload, {});
    var operation := Operation(q.Key(), Stop);
    var replay :- ExistingCommand(t, q.Key(), Stop, q.payload);
    if replay.Some? then Ok((t, Replay(replay.value)))
    else
      var row := LaunchRow(e, q, Stop, a, operation);
      var s :- LoadSession(t, a);
      var _ :- s.TurnAuthority();
      var t1 :- Claim(t, e, q.Key(), row, !StopNeedsCleanup(s));
      if !StopNeedsCleanup(s) then
        var t2 :- Finish(t1, q.Key(), row);
        CommitResult(t2, q, Stop, AlreadyStopped, [AgentSessionState], a)
      else
        var _ :- Require(s.serverOwned, ExternalOwned);
        if !s.IntentEmpty() then
          var _ :- RequireMatchingOperation(s, StopAction, operation);
          match s.intentStatus
          case EffectApplied => Ok((t1, FinalizePlan))
          case Prepared => var effect :- StopEffectOf(a, s); Ok((t1, StopPlan(effect)))
          case EffectInflight => Err(Unresolved)
          case Unconfirmed => Err(Unresolved)
          case NoStatus => Err(Rejected(InvalidState))
        else
          var exited := ConfirmedExit(s, executionFailed);
          var stopping := s.(intentAction := StopAction, intentId := operation, updatedAt := e.now,
            intentStatus := if exited then EffectApplied else Prepared);
          if exited then Ok((SaveSession(t1, a, stopping), FinalizePlan))
          else
            var effect :- StopEffectOf(a, stopping);
            Ok((SaveSession(t1, a, stopping), StopPlan(effect)))
  }

  function AuthorizeStop(t: Tables, e: Ambient, q: Request, operation: OperationId): Step {
    var a :- PayloadAgent(q.payload, {});
    var _ :- Require(operation == Operation(q.Key(), Stop), StaleStop);
    var _ :- Require(Holds(t, q.Key(), LaunchRow(e, q, Stop, a, operation)) &&
                     t.rows[q.Key()].generation == e.generation, StaleReservation);
    var s :- LoadSession(t, a);
    var _ :- RequireIntent(s, StopAction, operation, Prepared, StaleStop);
    var effect :- StopEffectOf(a, s);
    Ok((SaveSession(t, a, s.(runtime := Stopping, enabled := false, intentStatus := EffectInflight,
      updatedAt := e.now)),
        StopPlan(effect)))
  }

  function FailStop(t: Tables, e: Ambient, q: Request, operation: OperationId, reason: Reason): Step {
    var a :- PayloadAgent(q.payload, {});
    var s :- LoadSession(t, a);
    var _ :- RequireIntent(s, StopAction, operation, Prepared, StaleStop);
    var t1 :- Refuse(t, q.Key(), LaunchRow(e, q, Stop, a, operation), reason);
    var events := NewEvents(t.log, [ErrorRaised, AgentSessionState], a, q.principal.participant);
    Ok((Append(SaveSession(t1, a, s.(error := Note(reason), updatedAt := e.now).ClearIntent()), events),
      Reported(events)))
  }

  /** The supervisor confirmed the shutdown; `turnClosed` is whether the turn record could be closed. */
  function RecordStop(t: Tables, e: Ambient, a: AgentId, operation: OperationId, turnClosed: bool): Step {
    var s :- LoadSession(t, a);
    var _ :- RequireIntent(s, StopAction, operation,
                     if s.intentStatus.EffectApplied? then EffectApplied else EffectInflight, StaleStop);
    var active :- s.TurnAuthority();
    var _ :- Require(active ==> turnClosed, StaleTurn);
    Ok((SaveSession(t, a, s.(intentStatus := EffectApplied, updatedAt := e.now)), Done))
  }

  function MarkStopUnconfirmed(t: Tables, e: Ambient, p: Principal, a: AgentId, operation: OperationId,
                               reason: Reason): Step {
    var s :- LoadSession(t, a);
    var _ :- RequireIntent(s, StopAction, operation, EffectInflight, StaleStop);
    var active :- s.TurnAuthority();
    var quiet := if active then s
      else s.(runtime := Disconnected, providerActive := false, providerReused := false, turn := NoTurn);
    var uncertain := quiet.(status := Unavailable, enabled := false, error := Note(reason), recoveryRequired := true,
      intentStatus := Unconfirmed, updatedAt := e.now);
    var member :- LoadParticipant(t, a);
    var events := NewEvents(t.log, [ErrorRaised, AgentSessionState], a, p.participant);
    Ok((Append(SaveParticipant(SaveSession(t, a, uncertain), a, member.DetachRuntime(e.now)), events),
      Reported(events)))
  }

  function FinalizeStop(t: Tables, e: Ambient, q: Request): Step {
    var replay :- ExistingCommand(t, q.Key(), Stop, q.payload);
    if replay.Some? then Ok((t, Replay(replay.value)))
    else
      var a :- PayloadAgent(q.payload, {});
      var s :- LoadSession(t, a);
      var operation := Operation(q.Key(), Stop);
      var _ :- RequireIntent(s, StopAction, operation, EffectApplied, StaleStop);
      var t1 :- Finish(t, q.Key(), LaunchRow(e, q, Stop, a, operation));
      var p :- LoadParticipant(t1, a);
      var t2 := SaveParticipant(SaveSession(t1, a, StoppedSession(s, s.providerReused, e.now)), a,
        p.DetachRuntime(e.now));
      CommitResult(t2, q, Stop, StoppedNow, [SessionDetached, AgentSessionState], a)
  }

  // ---------------------------------------------------------------- reconciliation

  datatype Observation =
    | Adopted(handle: Token, previousOwner: Token, newOwner: Token, profileKey: string)
    | Gone
    | LeaseUncertain(handle: Token, owner: Token, reasonGiven: bool)
    | Ambiguous(reasonGiven: bool)

  function PendingKeys(t: Tables, a: AgentId): set<Key> {
    set k | k in t.rows && t.rows[k].session == a && t.rows[k].status.Pending?
  }

  predicate RowMatchesIntent(row: Row, s: Session) {
    && row.operation == s.intentId
    && (if s.intentAction.StartAction?
        then (row.action in {Start, Resume, Readd} && row.phase.LifecyclePrepared?) ||
             (row.action.Create? && row.phase.CreationCommitted?)
        else row.action.Stop? && row.phase.LifecyclePrepared?)
  }

  /** The agent a stored row is about, decoded again from what the row stores. */
  predicate RowNames(row: Row, a: AgentId) {
    if row.action.Create? then row.prepared.Created? && row.prepared.agent == a
    else if row.action.Readd? then
      var launch := LaunchPayload(row.payload, Readd);
      launch.Ok? && launch.value.0 == a
    else PayloadAgent(row.payload, {}) == Ok(a)
  }

  /** The stored authority of a session: the one pending request that owns its intent, none when there
      is no intent, and a failure whenever tables and session disagree. */
  function CandidateKey(t: Tables, a: AgentId): Outcome<Option<Key>> {
    var _ :- Require(a in t.sessions && t.sessions[a].serverOwned, StaleCandidate);
    var s := t.sessions[a];
    var _ :- Require(s.TurnAuthority().Ok? && s.identity.Uniform(), InvalidAuthority);
    if s.IntentEmpty() then
      var _ :- Require(PendingKeys(t, a) == {}, InvalidAuthority);
      Ok(None)
    else
      var _ :- Require(s.IntentLegal(), InvalidAuthority);
      var key := s.intentId.key;
      var _ :- Require(PendingKeys(t, a) == {key} && RowMatchesIntent(t.rows[key], s) && RowNames(t.rows[key], a) &&
                 t.rows[key].owner.id == key.principal && t.rows[key].owner.agentControl, InvalidAuthority);
      Ok(Some(key))
  }

  /** The candidate an observer read must still be the stored one. */
  function CurrentCandidate(t: Tables, a: AgentId, seen: Session): Outcome<Option<Key>> {
    var key :- CandidateKey(t, a);
    var _ :- Require(t.sessions[a] == seen, StaleCandidate);
    Ok(key)
  }

  function RejectAbandoned(t: Tables, e: Ambient, a: AgentId, seen: Session): Step {
    var key :- CurrentCandidate(t, a, seen);
    RejectAbandonedOf(t, e, a, key)
  }

  function RejectAbandonedOf(t: Tables, e: Ambient, a: AgentId, key: Option<Key>): Step
    requires a in t.sessions
    requires key.Some? ==> key.value in t.rows
  {
    var s := t.sessions[a];
    var _ :- Require(s.intentStatus.Prepared?, StaleCandidate);
    var _ :- Require(key.Some?, InvalidAuthority);
    var reason := if s.intentAction.StartAction? then AbandonedStart else AbandonedStop;
    var row := t.rows[key.value];
    var t1 :- Refuse(t, key.value, row, reason);
    var down := if s.intentAction.StartAction? && s.identity.AllBlank()
      then s.(status := Unavailable, enabled := false, runtime := RuntimeError, providerActive := false,
        providerReused := false)
      else s;
    var rejected := down.(error := Note(reason), recoveryRequired := false, updatedAt := e.now).ClearIntent();
    var events := NewEvents(t.log, [ErrorRaised, AgentSessionState], a, row.owner.participant);
    Ok((Append(SaveSession(t1, a, rejected), events), Reported(events)))
  }

  function ConfirmedStop(s: Session, now: nat): Session {
    s.(status := Unavailable, enabled := false, runtime := Stopping, providerActive := false, providerReused := false,
       turn := NoTurn, identity := NO_IDENTITY, updatedAt := now)
  }

  function Retained(s: Session, now: nat): Session {
    s.(status := Unavailable, enabled := false, runtime := Disconnected, providerActive := false,
      providerReused := false,
       turn := NoTurn, recoveryRequired := true, error := AuthorityUncertain, updatedAt := now,
       intentStatus := if !s.intentAction.NoAction? && s.intentStatus in {Prepared, EffectInflight}
                       then Unconfirmed else s.intentStatus)
  }

  function AbsentRuntime(s: Session, now: nat): Session {
    s.(error := NoError, status := Unavailable, enabled := false, runtime := Stopped, providerActive := false,
       providerReused := false, turn := NoTurn, recoveryRequired := false, identity := NO_IDENTITY,
       updatedAt := now).ClearIntent()
  }

  /** What proven absence does to a session, and whether its participant is detached. */
  function AfterGone(s: Session, now: nat): (Session, bool) {
    if s.intentAction.StopAction? && s.intentStatus in {Prepared, EffectInflight, Unconfirmed} then
      (ConfirmedStop(s.(intentStatus := EffectApplied), now), true)
    else if s.intentAction.StartAction? && s.intentStatus in {Prepared, EffectInflight, Unconfirmed} then
      (s.(identity := NO_IDENTITY, intentStatus := Prepared, runtime := Starting, providerActive := false,
        updatedAt := now), false)
    else if s.runtime in {Starting, Idle, Busy, Paused, Recovering, Stopping, Disconnected} then
      (AbsentRuntime(s, now), true)
    else if s.identity.AllBlank() then (s, false)
    else (s.(identity := NO_IDENTITY, updatedAt := now), true)
  }

  function CheckAdoption(s: Session, o: Observation): Check
    requires o.Adopted?
  {
    Require(o.handle.Named? && o.previousOwner.Named? && o.newOwner.Named? && o.handle == s.identity.handle &&
            o.previousOwner == s.identity.owner && o.profileKey == s.profile.key, InvalidObservation)
  }

  function CheckUncertain(s: Session, o: Observation): Check
    requires o.LeaseUncertain?
  {
    Require(o.handle.Named? && o.owner.Named? && o.reasonGiven && o.handle == s.identity.handle &&
            o.owner == s.identity.owner, InvalidObservation)
  }

  function StopNeedsConfirming(s: Session): bool {
    s.intentAction.StopAction? && s.intentStatus.EffectApplied? &&
    (!s.identity.AllBlank() || s.providerActive || s.providerReused || s.turn.ActiveTurn? || !s.status.Unavailable?)
  }

  function Observed(s: Session, o: Observation, now: nat): Outcome<(Session, bool)> {
    if StopNeedsConfirming(s) then Ok((ConfirmedStop(s, now), true))
    else match o
      case Adopted(_, _, newOwner, _) =>
        var _ :- CheckAdoption(s, o);
        var adopted := s.(identity := s.identity.(owner := newOwner), providerActive := false, updatedAt := now);
        if s.TurnAuthority() == Ok(true) then
          Ok((adopted.(status := Unavailable, enabled := false, runtime := Recovering, turn := NoTurn,
                       error := TurnError, recoveryRequired := true), true))
        else Ok((adopted, false))
      case Gone => Ok(AfterGone(s, now))
      case LeaseUncertain(_, _, _) =>
        var _ :- CheckUncertain(s, o);
        Ok((Retained(s, now), true))
      case Ambiguous(reasonGiven) =>
        var _ :- Require(reasonGiven, InvalidObservation);
        Ok((Retained(s, now), true))
  }

  /** A runtime proven gone while its removal is pending counts as stopped. */
  function Fenced(s: Session, removed: bool): Session {
    if removed then s.(runtime := Stopped, recoveryRequired := false) else s
  }

  function DetachMember(t: Tables, a: AgentId, now: nat): Tables {
    if a in t.participants then SaveParticipant(t, a, t.participants[a].DetachRuntime(now)) else t
  }

  /** Startup and shutdown reconciliation of one session against one observation of its runtime. */
  function Reconcile(t: Tables, e: Ambient, a: AgentId, seen: Session, o: Observation): Step {
    var key :- CurrentCandidate(t, a, seen);
    var s := t.sessions[a];
    if s.intentStatus.Prepared? then RejectAbandonedOf(t, e, a, key)
    else if s.intentAction.StopAction? && (s.intentStatus.EffectApplied? || o.Gone?) then
      FinalizeRecoveredStop(t, e, a, key)
    else if s.intentAction.StartAction? && o.Gone? then RejectRecoveredStart(t, e, a, key)
    else Observe(t, e, a, o)
  }

  /** An observation of a session whose request, if any, it does not end. */
  function Observe(t: Tables, e: Ambient, a: AgentId, o: Observation): Step
    requires a in t.sessions
  {
    var observed :- Observed(t.sessions[a], o, e.now);
    var (next, detach) := observed;
    var t1 := SaveSession(t, a, Fenced(next, o.Gone? && a in t.cleanup));
    Ok((if detach then DetachMember(t1, a, e.now) else t1, Done))
  }

  function FinalizeRecoveredStop(t: Tables, e: Ambient, a: AgentId, key: Option<Key>): Step
    requires a in t.sessions
    requires key.Some? ==> key.value in t.rows
  {
    var _ :- Require(key.Some?, InvalidAuthority);
    var row := t.rows[key.value];
    var t1 :- Finish(t, key.value, row);
    var t2 := DetachMember(SaveSession(t1, a, StoppedSession(t.sessions[a], false, e.now)), a, e.now);
    var q := Request(row.owner.(id := key.value.principal), key.value.request, row.payload);
    CommitResult(t2, q, row.action, StoppedNow, [SessionDetached, AgentSessionState], a)
  }

  function RejectRecoveredStart(t: Tables, e: Ambient, a: AgentId, key: Option<Key>): Step
    requires a in t.sessions
    requires key.Some? ==> key.value in t.rows
  {
    var _ :- Require(key.Some?, InvalidAuthority);
    var row := t.rows[key.value];
    var t1 :- Refuse(t, key.value, row, RecoveredStart);
    var rejected := t.sessions[a].(status := Unavailable, enabled := false, runtime := RuntimeError,
      providerActive := false, providerReused := false, error := Note(RecoveredStart), recoveryRequired := false,
      identity := NO_IDENTITY, updatedAt := e.now).ClearIntent();
    var events := NewEvents(t.log, [ErrorRaised, AgentSessionState], a, row.owner.participant);
    Ok((Append(SaveSession(t1, a, rejected), events), Reported(events)))
  }

  /** What an observation gives back to the command that still owns an unconfirmed effect: only proven
      absence or the exact adoption of a starting runtime lets it try again. */
  function LiveObserved(s: Session, o: Observation, now: nat): Outcome<Option<(Session, bool)>> {
    match o
    case Gone => Ok(Some(AfterGone(s, now)))
    case Adopted(_, _, newOwner, _) =>
      var _ :- CheckAdoption(s, o);
      if s.intentAction.StartAction? then
        Ok(Some((s.(identity := s.identity.(owner := newOwner), status := Available, enabled := true,
                    runtime := Starting, providerActive := false, error := NoError, recoveryRequired := false,
                    intentStatus := Prepared, updatedAt := now), false)))
      else Ok(None)
    case LeaseUncertain(_, _, _) =>
      var _ :- CheckUncertain(s, o);
      Ok(None)
    case Ambiguous(reasonGiven) =>
      var _ :- Require(reasonGiven, InvalidObservation);
      Ok(None)
  }

  function LiveReconcile(t: Tables, e: Ambient, a: AgentId, seen: Session, o: Observation): Step {
    var key :- CurrentCandidate(t, a, seen);
    var s := t.sessions[a];
    var _ :- Require(key.Some?, InvalidAuthority);
    var row := t.rows[key.value];
    var _ :- if row.generation != e.generation then Fail(Unresolved) else Pass;
    var _ :- Require(s.intentStatus in {EffectInflight, Unconfirmed} && s.intentId == row.operation, StaleCandidate);
    var observed :- LiveObserved(s, o, e.now);
    if observed.None? then Ok((t, StillUnresolved))
    else
      var (next, detach) := observed.value;
      var t1 := SaveSession(t, a, next);
      Ok((if detach then DetachMember(t1, a, e.now) else t1, RetryOriginalEffect))
  }

  function RecordIdleFailure(t: Tables, e: Ambient, a: AgentId, seen: Session, blocking: bool): Step {
    var _ :- CurrentCandidate(t, a, seen);
    var s := t.sessions[a];
    if !s.intentStatus.NoStatus? || s.recoveryRequired || blocking then Ok((t, Done))
    else
      var t1 := DetachMember(SaveSession(t, a, Retained(s, e.now).(error := BridgeExited)), a, e.now);
      var events := NewEvents(t.log, [ErrorRaised, SessionDetached, AgentSessionState], a, "");
      Ok((Append(t1, events), Done))
  }

  // ---------------------------------------------------------------- ordinary commands

  /** Admission of a command that owns no reservation: a replay, or a charge. */
  function Admit(t: Tables, e: Ambient, q: Request, action: Action): Outcome<(Tables, Option<StoredResult>)> {
    var replay :- ExistingCommand(t, q.Key(), action, q.payload);
    var _ :- if q.Key() in t.rows then Fail(Conflict) else Pass;
    if replay.Some? then Ok((t, replay))
    else
      var _ :- Require(!t.restarting, Restarting);
      var _ :- Require(e.budget, BudgetExceeded);
      Ok((t.(debits := t.debits + 1), None))
  }

  datatype ResidentRuntime = ResidentRuntime(identity: Identity, profileKey: string)

  predicate ResidentState(t: Tables, a: AgentId, s: Session, runtime: RuntimeStatus, enabled: bool) {
    && a in t.participants && t.participants[a].status.Joined?
    && s.status.Attached? && s.runtime == runtime && s.enabled == enabled && s.providerActive
    && !s.recoveryRequired && s.serverOwned && s.providerSession.Named? && !s.identity.AnyBlank()
    && s.IntentEmpty() && s.TurnAuthority() == Ok(false)
  }

  function RequireResident(t: Tables, a: AgentId, s: Session, runtime: RuntimeStatus, enabled: bool): Check {
    Require(a in t.participants, ParticipantMissing)
      .And(Require(ResidentState(t, a, s, runtime, enabled), InvalidState))
  }

  function RequireRuntime(s: Session, resident: ResidentRuntime): Check {
    Require(s.identity == resident.identity && s.profile.key == resident.profileKey, RuntimeChanged)
  }

  /** Who a request key already belongs to: nobody, its stored result, or a reservation that provider
      launch must answer for. */
  function RequestOwner(t: Tables, q: Request, action: Action): Outcome<Option<Reply>> {
    if q.Key() in t.results && q.Key() in t.rows then Err(Rejected(InvalidState))
    else if q.Key() in t.results then
      var replay :- ExistingCommand(t, q.Key(), action, q.payload);
      Ok(if replay.Some? then Some(Replay(replay.value)) else None)
    else if q.Key() in t.rows then
      var _ :- if t.rows[q.Key()].action != action || t.rows[q.Key()].payload != q.payload then Fail(Conflict)
        else Pass;
      Ok(Some(ProviderLaunch))
    else Ok(None)
  }

  /** The plan made before the live runtime is asked: replay, hand over to provider launch, or go on with
      the resident session. It changes nothing. */
  function PrepareResident(t: Tables, q: Request, resume: bool): Outcome<Reply> {
    var _ :- AuthorizeControl(q.principal);
    var a :- PayloadAgent(q.payload, {});
    var owner :- if resume then RequestOwner(t, q, Resume) else PauseOwner(t, q);
    if owner.Some? then Ok(owner.value)
    else
      var s :- LoadSession(t, a);
      if resume && !s.runtime.Paused? then Ok(ProviderLaunch)
      else
        var _ :- RequireResident(t, a, s, if resume then Paused else Idle, !resume);
        Ok(Resident(s))
  }

  function PauseOwner(t: Tables, q: Request): Outcome<Option<Reply>> {
    var replay :- ExistingCommand(t, q.Key(), Pause, q.payload);
    var _ :- if q.Key() in t.rows then Fail(Conflict) else Pass;
    if replay.Some? then Ok(Some(Replay(replay.value)))
    else
      var _ :- Require(!t.restarting, Restarting);
      Ok(None)
  }

  function ExecutePause(t: Tables, e: Ambient, q: Request, resident: ResidentRuntime): Step {
    var _ :- AuthorizeControl(q.principal);
    var a :- PayloadAgent(q.payload, {});
    var admitted :- Admit(t, e, q, Pause);
    var (t1, replay) := admitted;
    if replay.Some? then Ok((t, Replay(replay.value)))
    else
      var s :- LoadSession(t1, a);
      var _ :- RequireResident(t1, a, s, Idle, true);
      var _ :- RequireRuntime(s, resident);
      CommitResult(SaveSession(t1, a, s.(enabled := false, runtime := Paused, updatedAt := e.now)),
                   q, Pause, PausedNow, [AgentSessionState], a)
  }

  function ResumePaused(t: Tables, e: Ambient, q: Request, resident: ResidentRuntime): Step {
    var _ :- AuthorizeControl(q.principal);
    var a :- PayloadAgent(q.payload, {});
    var replay :- ExistingCommand(t, q.Key(), Resume, q.payload);
    var _ :- if q.Key() in t.rows then Fail(Conflict) else Pass;
    if replay.Some? then Ok((t, Replay(replay.value)))
    else
      var _ :- Require(!t.restarting, Restarting);
      var s :- LoadSession(t, a);
      if !s.runtime.Paused? then Ok((t, ProviderLaunch))
      else
        var admitted :- Admit(t, e, q, Resume);
        var t1 := admitted.0;
        var _ :- RequireResident(t1, a, s, Paused, false);
        var _ :- RequireRuntime(s, resident);
        CommitResult(SaveSession(t1, a, s.(enabled := true, runtime := Idle, updatedAt := e.now)),
                     q, Resume, ResumedNow, [AgentSessionState], a)
  }

  function RequireStoppedProfile(s: Session): Check {
    Require(s.serverOwned, ExternalOwned)
      .And(Require(!s.enabled && s.runtime in {Stopped, RuntimeError, Disconnected} && s.turn.NoTurn? &&
                   s.identity.AllBlank() && s.IntentEmpty(), ProfileConflict))
  }

  function Configured(s: Session, draft: Draft, now: nat): Session {
    s.(status := Available, runtime := Stopped, enabled := false, error := NoError, recoveryRequired := false,
       updatedAt := now, profile := draft.profile.(version := CURRENT_PROFILE_VERSION)).ClearIntent()
  }

  function ExecuteConfigure(t: Tables, e: Ambient, q: Request, expectedKey: string, draft: Draft): Step {
    var _ :- AuthorizeControl(q.principal);
    var admitted :- Admit(t, e, q, Configure);
    var (t1, replay) := admitted;
    if replay.Some? then Ok((t, Replay(replay.value)))
    else
      var a := draft.agent;
      var s :- LoadSession(t1, a);
      var _ :- RequireStoppedProfile(s);
      var _ :- Require(s.profile.key == expectedKey, ProfileChanged);
      var _ :- Require(s.providerKind == draft.providerKind, KindMismatch);
      var t2 := SaveSession(t1, a, Configured(s, draft, e.now));
      var _ :- LoadParticipant(t2, a);
      CommitResult(t2, q, Configure, ResultKind.Configured, [AgentSessionState], a)
  }

  /** The provider turn that an interrupt is aimed at; `runnable` is a phase that can be interrupted. */
  datatype Execution = Execution(turn: string, identity: Identity, runnable: bool)

  function LoadInterruptible(t: Tables, a: AgentId, execution: Option<Execution>, effectOwned: bool): Outcome<Session> {
    var s :- LoadSession(t, a);
    var p :- LoadParticipant(t, a);
    var _ :- Require(s.status.Attached? && s.runtime.Busy? && s.enabled && s.providerActive &&
      s.providerSession.Named? &&
               p.status.Joined? && !p.muted, AgentNotBusy);
    var _ :- Require(s.serverOwned, ExternalOwned);
    var _ :- Require(execution.Some?, StaleTurn);
    var _ :- Require(!effectOwned, InterruptInProgress);
    var _ :- Require(s.TurnAuthority() == Ok(true) && s.IntentEmpty() && !s.identity.AnyBlank() &&
               s.turn == ActiveTurn(execution.value.turn) && s.identity == execution.value.identity &&
               execution.value.runnable, StaleTurn);
    Ok(s)
  }

  function ExecuteInterrupt(t: Tables, e: Ambient, q: Request, execution: Option<Execution>, effectOwned: bool): Step {
    var _ :- AuthorizeControl(q.principal);
    var a :- PayloadAgent(q.payload, {});
    var admitted :- Admit(t, e, q, Interrupt);
    var (t1, replay) := admitted;
    if replay.Some? then Ok((t, Replay(replay.value)))
    else
      var s :- LoadInterruptible(t1, a, execution, effectOwned);
      CommitResult(SaveSession(t1, a, s.(updatedAt := e.now)), q, Interrupt, InterruptRequested, [AgentSessionState], a)
  }

  // ---------------------------------------------------------------- the room around the protocol

  function AssignTurn(t: Tables, e: Ambient, a: AgentId, turn: string): Step {
    var s :- LoadSession(t, a);
    var p :- LoadParticipant(t, a);
    var _ :- Require(p.status.Joined? && !p.muted && s.enabled && s.status.Attached? && s.runtime.Idle? &&
      s.providerActive &&
               s.turn.NoTurn? && s.intentAction.NoAction?, InvalidState);
    Ok((SaveSession(t, a, s.(runtime := Busy, turn := ActiveTurn(turn), updatedAt := e.now)), Done))
  }

  function RequireActiveTurn(s: Session, turn: string): Check {
    Require(s.turn == ActiveTurn(turn) && s.TurnAuthority() == Ok(true), StaleTurn)
  }

  /** A finished turn; `provider` is the provider session it says it ran in, if it says so. */
  function CompleteTurn(t: Tables, e: Ambient, a: AgentId, turn: string, provider: Option<Token>): Step {
    var s :- LoadSession(t, a);
    var _ :- RequireActiveTurn(s, turn);
    var _ :- Require(provider.Some? ==> provider.value.Named? && provider.value == s.providerSession,
               ProviderSessionInvalid);
    Ok((SaveSession(t, a, s.(status := Attached, runtime := Idle, turn := NoTurn, error := NoError,
          providerActive := s.providerActive || provider.Some?, recoveryRequired := false, updatedAt := e.now)), Done))
  }

  /** A failed turn; `stopped` is the runtime the supervisor confirmed it has shut down, if any. */
  function FailTurn(t: Tables, e: Ambient, a: AgentId, turn: string, stopped: Option<Identity>): Step {
    var s :- LoadSession(t, a);
    var _ :- RequireActiveTurn(s, turn);
    var _ :- Require(stopped.Some? ==> !stopped.value.AnyBlank() && stopped.value == s.identity, StaleTurn);
    var down := if stopped.Some? then s.(identity := NO_IDENTITY, providerActive := false, providerReused := false)
      else s;
    Ok((SaveSession(t, a, down.(status := SessionError, runtime := RuntimeError, turn := NoTurn, error := TurnError,
          recoveryRequired := true, updatedAt := e.now)), Done))
  }

  /** The runtime of an active turn is proven gone: a stop in progress is thereby applied, anything
      else loses its runtime. */
  function TurnRuntimeGone(t: Tables, e: Ambient, a: AgentId, turn: string, interrupted: bool): Step {
    var s :- LoadSession(t, a);
    var _ :- RequireActiveTurn(s, turn);
    if s.intentAction.StopAction? && s.intentStatus in {EffectInflight, Unconfirmed, EffectApplied} then
      var key :- CandidateKey(t, a);
      var _ :- Require(key.Some? && t.rows[key.value].action.Stop?, InvalidAuthority);
      Ok((SaveSession(t, a, s.(intentStatus := EffectApplied, updatedAt := e.now)), Done))
    else
      var p :- LoadParticipant(t, a);
      var gone := s.(status := SessionStatus.Detached, runtime := Stopped, enabled := false, providerActive := false,
        providerReused := false, turn := NoTurn, providerSession := Blank, identity := NO_IDENTITY,
        recoveryRequired := false, error := if interrupted then TurnInterrupted else s.error, updatedAt := e.now);
      Ok((SaveParticipant(SaveSession(t, a, gone), a, p.DetachRuntime(e.now)), Done))
  }

  /** Removal or departure of a member: its runtime must first be cleaned up. */
  function RemoveMember(t: Tables, e: Ambient, a: AgentId, status: Membership): Step {
    var p :- LoadParticipant(t, a);
    var s :- LoadSession(t, a);
    var _ :- s.TurnAuthority();
    var _ :- Require(status in {Left, Kicked, Exported}, InvalidState);
    var t1 := SaveSession(t, a, s.(enabled := false, status := SessionStatus.Detached, updatedAt := e.now));
    Ok((SaveParticipant(t1, a, p.(status := status, updatedAt := e.now)).(cleanup := t.cleanup + {a}), Done))
  }

  /** The fence of a removed member falls; `blocking` is a turn execution that still stands in the way. */
  function FinishCleanup(t: Tables, e: Ambient, a: AgentId, blocking: bool): Step {
    if a !in t.cleanup then Ok((t, Done))
    else
      var s :- LoadSession(t, a);
      var _ :- s.TurnAuthority();
      var p :- LoadParticipant(t, a);
      if !s.IntentEmpty() || s.runtime !in {Stopped, RuntimeError} || s.recoveryRequired || s.providerActive ||
         s.providerReused || !s.identity.AllBlank() || s.turn.ActiveTurn? || blocking then Ok((t, Done))
      else
        var status := if p.status.Joined? then Available else SessionStatus.Detached;
        Ok((SaveSession(t, a, s.(status := status, runtime := Stopped, enabled := false, error := NoError,
                                 updatedAt := e.now)).(cleanup := t.cleanup - {a}), Done))
  }

  function SetMuted(t: Tables, e: Ambient, a: AgentId, muted: bool): Step {
    var p :- LoadParticipant(t, a);
    Ok((SaveParticipant(t, a, p.(muted := muted, updatedAt := e.now)), Done))
  }

  function RecordRoomEvent(t: Tables, a: AgentId, actor: string): Step {
    Ok((Append(t, NewEvents(t.log, [OtherEvent], a, actor)), Done))
  }

  // ---------------------------------------------------------------- all steps

  datatype Command =
    | DoPrepareLaunch(q: Request, action: Action)
    | DoAuthorizeLaunch(q: Request, action: Action, operation: OperationId, identity: Identity)
    | DoCompleteLaunch(q: Request, action: Action, operation: OperationId, started: Started)
    | DoFailLaunch(q: Request, action: Action, operation: OperationId, reason: Reason, effect: bool)
    | DoMarkStartUnconfirmed(p: Principal, a: AgentId, operation: OperationId, handle: Token, owner: Token,
      reason: Reason)
    | DoCreateStopped(q: Request, draft: Draft)
    | DoInspectCreateStart(q: Request)
    | DoPrepareCreateStart(q: Request, draft: Draft)
    | DoAuthorizeCreateStart(q: Request, operation: OperationId, identity: Identity)
    | DoCompleteCreateStart(q: Request, operation: OperationId, started: Started)
    | DoFailCreateStart(q: Request, a: AgentId, operation: OperationId, prepared: PreparedResult, reason: Reason,
      effect: bool)
    | DoPrepareStop(q: Request, executionFailed: bool)
    | DoAuthorizeStop(q: Request, operation: OperationId)
    | DoFailStop(q: Request, operation: OperationId, reason: Reason)
    | DoRecordStop(a: AgentId, operation: OperationId, turnClosed: bool)
    | DoMarkStopUnconfirmed(p: Principal, a: AgentId, operation: OperationId, reason: Reason)
    | DoFinalizeStop(q: Request)
    | DoRejectAbandoned(a: AgentId, seen: Session)
    | DoReconcile(a: AgentId, seen: Session, o: Observation)
    | DoLiveReconcile(a: AgentId, seen: Session, o: Observation)
    | DoRecordIdleFailure(a: AgentId, seen: Session, blocking: bool)
    | DoPause(q: Request, resident: ResidentRuntime)
    | DoResumePaused(q: Request, resident: ResidentRuntime)
    | DoConfigure(q: Request, expectedKey: string, draft: Draft)
    | DoInterrupt(q: Request, execution: Option<Execution>, effectOwned: bool)
    | DoAssignTurn(a: AgentId, turn: string)
    | DoCompleteTurn(a: AgentId, turn: string, provider: Option<Token>)
    | DoFailTurn(a: AgentId, turn: string, stopped: Option<Identity>)
    | DoTurnRuntimeGone(a: AgentId, turn: string, interrupted: bool)
    | DoRemoveMember(a: AgentId, status: Membership)
    | DoFinishCleanup(a: AgentId, blocking: bool)
    | DoSetMuted(a: AgentId, muted: bool)
    | DoRecordRoomEvent(a: AgentId, actor: string)
    | DoSetRestarting(on: bool)

  function Perform(t: Tables, e: Ambient, c: Command): Step {
    match c
    case DoPrepareLaunch(q, action) => PrepareLaunch(t, e, q, action)
    case DoAuthorizeLaunch(q, action, operation, identity) => AuthorizeLaunch(t, e, q, action, operation, identity)
    case DoCompleteLaunch(q, action, operation, started) => CompleteLaunch(t, e, q, action, operation, started)
    case DoFailLaunch(q, action, operation, reason, effect) => FailLaunch(t, e, q, action, operation, reason, effect)
    case DoMarkStartUnconfirmed(p, a, operation, handle, owner, reason) =>
      MarkStartUnconfirmed(t, e, p, a, operation, handle, owner, reason)
    case DoCreateStopped(q, draft) => CreateStopped(t, e, q, draft)
    case DoInspectCreateStart(q) => InspectCreateStart(t, e, q)
    case DoPrepareCreateStart(q, draft) => PrepareCreateStart(t, e, q, draft)
    case DoAuthorizeCreateStart(q, operation, identity) => AuthorizeCreateStart(t, e, q, operation, identity)
    case DoCompleteCreateStart(q, operation, started) => CompleteCreateStart(t, e, q, operation, started)
    case DoFailCreateStart(q, a, operation, prepared, reason, effect) =>
      FailCreateStart(t, e, q, a, operation, prepared, reason, effect)
    case DoPrepareStop(q, executionFailed) => PrepareStop(t, e, q, executionFailed)
    case DoAuthorizeStop(q, operation) => AuthorizeStop(t, e, q, operation)
    case DoFailStop(q, operation, reason) => FailStop(t, e, q, operation, reason)
    case DoRecordStop(a, operation, turnClosed) => RecordStop(t, e, a, operation, turnClosed)
    case DoMarkStopUnconfirmed(p, a, operation, reason) => MarkStopUnconfirmed(t, e, p, a, operation, reason)
    case DoFinalizeStop(q) => FinalizeStop(t, e, q)
    case DoRejectAbandoned(a, seen) => RejectAbandoned(t, e, a, seen)
    case DoReconcile(a, seen, o) => Reconcile(t, e, a, seen, o)
    case DoLiveReconcile(a, seen, o) => LiveReconcile(t, e, a, seen, o)
    case DoRecordIdleFailure(a, seen, blocking) => RecordIdleFailure(t, e, a, seen, blocking)
    case DoPause(q, resident) => ExecutePause(t, e, q, resident)
    case DoResumePaused(q, resident) => ResumePaused(t, e, q, resident)
    case DoConfigure(q, expectedKey, draft) => ExecuteConfigure(t, e, q, expectedKey, draft)
    case DoInterrupt(q, execution, effectOwned) => ExecuteInterrupt(t, e, q, execution, effectOwned)
    case DoAssignTurn(a, turn) => AssignTurn(t, e, a, turn)
    case DoCompleteTurn(a, turn, provider) => CompleteTurn(t, e, a, turn, provider)
    case DoFailTurn(a, turn, stopped) => FailTurn(t, e, a, turn, stopped)
    case DoTurnRuntimeGone(a, turn, interrupted) => TurnRuntimeGone(t, e, a, turn, interrupted)
    case DoRemoveMember(a, status) => RemoveMember(t, e, a, status)
    case DoFinishCleanup(a, blocking) => FinishCleanup(t, e, a, blocking)
    case DoSetMuted(a, muted) => SetMuted(t, e, a, muted)
    case DoRecordRoomEvent(a, actor) => RecordRoomEvent(t, a, actor)
    case DoSetRestarting(on) => Ok((t.(restarting := on), Done))
  }

  /** The request a command belongs to. */
  function KeyOf(c: Command): Option<Key> {
    match c
    case DoPrepareLaunch(q, _) => Some(q.Key())
    case DoAuthorizeLaunch(q, _, _, _) => Some(q.Key())
    case DoCompleteLaunch(q, _, _, _) => Some(q.Key())
    case DoFailLaunch(q, _, _, _, _) => Some(q.Key())
    case DoCreateStopped(q, _) => Some(q.Key())
    case DoInspectCreateStart(q) => Some(q.Key())
    case DoPrepareCreateStart(q, _) => Some(q.Key())
    case DoAuthorizeCreateStart(q, _, _) => Some(q.Key())
    case DoCompleteCreateStart(q, _, _) => Some(q.Key())
    case DoFailCreateStart(q, _, _, _, _, _) => Some(q.Key())
    case DoPrepareStop(q, _) => Some(q.Key())
    case DoAuthorizeStop(q, _) => Some(q.Key())
    case DoFailStop(q, _, _) => Some(q.Key())
    case DoFinalizeStop(q) => Some(q.Key())
    case DoPause(q, _) => Some(q.Key())
    case DoResumePaused(q, _) => Some(q.Key())
    case DoConfigure(q, _, _) => Some(q.Key())
    case DoInterrupt(q, _, _) => Some(q.Key())
    case _ => None
  }

  /** A failed step rolls back. */
  function After(t: Tables, step: Step): Tables { if step.Ok? then step.value.0 else t }
}
