/** The lifecycle operations as the store runs them: each opens a transaction, changes rows, sessions and
    participants in it one after the other, and commits all of it or nothing. Every operation is proved
    to be the atomic step of the same name. */
module LifecycleStore {
  import opened Wrappers
  import opened LifecycleModel
  import opened LifecycleSteps
  import opened LifecycleInvariant
  import opened LifecycleMoves
  import opened LifecycleRuns
  import opened LifecycleHistory
  import opened LifecycleLaunch
  import opened LifecycleCreation

  /** One open transaction: a working copy of the tables that the operations change in place. */
  class Transaction {
    var sessions: map<AgentId, Session>
    var participants: map<AgentId, Participant>
    var rows: map<Key, Row>
    var results: map<Key, StoredResult>
    var log: seq<Event>
    var debits: nat
    var restarting: bool
    var cleanup: set<AgentId>

    function View(): Tables
      reads this
    {
      Tables(sessions, participants, rows, results, log, debits, restarting, cleanup)
    }

    constructor (t: Tables)
      ensures View() == t
    {
      sessions, participants, rows, results := t.sessions, t.participants, t.rows, t.results;
      log, debits, restarting, cleanup := t.log, t.debits, t.restarting, t.cleanup;
    }

    method ClaimCommand(e: Ambient, key: Key, row: Row, charge: bool) returns (r: Outcome<()>)
      modifies this
      ensures match Claim(old(View()), e, key, row, charge)
        case Ok(u) => r == Ok(()) && View() == u
        case Err(f) => r == Err(f) && View() == old(View())
    {
      if key in rows {
        var stored := rows[key];
        if !stored.SameRequest(row) {
          return Err(Conflict);
        }
        if stored.status.Refused? {
          return Err(StoredRejection(stored.status.reason));
        }
        if stored.generation != e.generation {
          return Err(Unresolved);
        }
        return Ok(());
      }
      var _ :- Require(!restarting, Restarting);
      if charge {
        var _ :- Require(e.budget, BudgetExceeded);
        debits := debits + 1;
      }
      rows := rows[key := row];
      return Ok(());
    }

    method FinishCommand(key: Key, row: Row) returns (r: Outcome<()>)
      modifies this`rows
      ensures match Finish(old(View()), key, row)
        case Ok(u) => r == Ok(()) && View() == u
        case Err(f) => r == Err(f) && View() == old(View())
    {
      if key !in rows || !rows[key].SameRequest(row) || !rows[key].status.Pending? {
        return Err(Rejected(StaleReservation));
      }
      rows := rows - {key};
      return Ok(());
    }

    method RefuseCommand(key: Key, row: Row, reason: Reason) returns (r: Outcome<()>)
      modifies this`rows
      ensures match Refuse(old(View()), key, row, reason)
        case Ok(u) => r == Ok(()) && View() == u
        case Err(f) => r == Err(f) && View() == old(View())
    {
      if reason.Given? && !reason.storable {
        return Err(Unresolved);
      }
      if key !in rows || !rows[key].SameRequest(row) || !rows[key].status.Pending? {
        return Err(Rejected(StaleReservation));
      }
      rows := rows[key := rows[key].(status := Refused(reason))];
      return Ok(());
    }

    method AdmitCommand(e: Ambient, q: Request, action: Action) returns (r: Outcome<Option<StoredResult>>)
      modifies this`debits
      ensures match Admit(old(View()), e, q, action)
        case Ok((u, replay)) => r == Ok(replay) && View() == u
        case Err(f) => r == Err(f) && View() == old(View())
    {
      var replay :- ExistingCommand(View(), q.Key(), action, q.payload);
      if q.Key() in rows {
        return Err(Conflict);
      }
      if replay.Some? {
        return Ok(replay);
      }
      var _ :- Require(!restarting, Restarting);
      var _ :- Require(e.budget, BudgetExceeded);
      debits := debits + 1;
      return Ok(None);
    }

    method Save(a: AgentId, s: Session)
      modifies this`sessions
      ensures View() == SaveSession(old(View()), a, s)
    {
      sessions := sessions[a := s];
    }

    method SaveMember(a: AgentId, p: Participant)
      modifies this`participants
      ensures View() == SaveParticipant(old(View()), a, p)
    {
      participants := participants[a := p];
    }

    /** Appends one event of each kind; every event takes the next number of the log at that moment. */
    method AppendEvents(kinds: seq<EventKind>, a: AgentId, actor: string) returns (events: seq<Event>)
      modifies this`log
      ensures events == NewEvents(old(log), kinds, a, actor) && View() == Append(old(View()), events)
    {
      events := [];
      for i := 0 to |kinds|
        invariant |events| == i && log == old(log) + events
        invariant forall j | 0 <= j < i :: events[j] == Event(NextSequence(old(log)) + j, kinds[j], a, actor)
      {
        var event := Event(NextSequence(log), kinds[i], a, actor);
        events := events + [event];
        log := log + [event];
      }
    }

    method Answer(key: Key, result: StoredResult) returns (r: Outcome<()>)
      modifies this`results
      ensures match StoreResult(old(View()), key, result)
        case Ok(u) => r == Ok(()) && View() == u
        case Err(f) => r == Err(f) && View() == old(View())
    {
      if key in results {
        return Err(Storage);
      }
      results := results[key := result];
      return Ok(());
    }

    method Commit(q: Request, action: Action, kind: ResultKind, kinds: seq<EventKind>, a: AgentId)
      returns (r: Outcome<Reply>)
      modifies this
      ensures match CommitResult(old(View()), q, action, kind, kinds, a)
        case Ok((u, reply)) => r == Ok(reply) && View() == u
        case Err(f) => r == Err(f)
    {
      var events := AppendEvents(kinds, a, q.principal.participant);
      var result := StoredResult(action, q.payload, kind, events);
      var _ :- Answer(q.Key(), result);
      return Ok(Committed(result));
    }
  }

  // ---------------------------------------------------------------- changing a loaded session

  /** The start flag under both its spellings, which must agree when both are given. */
  method ReadLaunchPayload(payload: Payload, action: Action) returns (r: Outcome<(AgentId, bool)>)
    ensures r == LaunchPayload(payload, action)
  {
    match action {
      case Start | Resume =>
        var a :- PayloadAgent(payload, {});
        return Ok((a, true));
      case Readd =>
        var a :- PayloadAgent(payload, {StartField, StartNowField});
        var names := [StartField, StartNowField];
        var start: Option<bool> := None;
        for i := 0 to |names|
          invariant forall j | 0 <= j < i && names[j] in payload.fields ::
            payload.fields[names[j]].Flag? && start == Some(payload.fields[names[j]].on)
          invariant (forall j | 0 <= j < i :: names[j] !in payload.fields) ==> start == None
        {
          if names[i] in payload.fields {
            var field := payload.fields[names[i]];
            if !field.Flag? || (start.Some? && start.value != field.on) {
              assert names[0] == StartField && names[1] == StartNowField;
              return Err(Rejected(BadRequest));
            }
            start := Some(field.on);
          }
        }
        assert names[0] == StartField && names[1] == StartNowField;
        return Ok((a, if start.Some? then start.value else false));
      case _ =>
        return Err(Rejected(BadRequest));
    }
  }

  method PrepareLaunchSession(loaded: Session, id: OperationId, now: nat) returns (s: Session)
    ensures s == PreparedLaunch(loaded, id, now)
    ensures loaded.IntentEmpty() && loaded.identity.Uniform() && id.Operation? ==> Faithful(loaded, s, Plain)
  {
    s := loaded.(status := Available, enabled := true);
    if s.runtime !in {Starting, Idle, Busy, Paused} {
      s := s.(runtime := Starting);
    }
    s := s.(error := NoError, recoveryRequired := false);
    s := s.(intentAction := StartAction, intentId := id, intentStatus := Prepared, updatedAt := now);
  }

  /** After its effect a rejected launch has no runtime; before it, it keeps what it had. */
  method RejectLaunchSession(loaded: Session, reason: Reason, effect: bool, now: nat) returns (s: Session)
    ensures s == FailedLaunchSession(loaded, reason, effect, now)
    ensures loaded.identity.Uniform() ==> Faithful(loaded, s, if effect then Proves else Plain) && s.IntentEmpty()
  {
    s := loaded;
    if effect || s.identity.AllBlank() {
      s := s.(status := Unavailable, enabled := false, runtime := RuntimeError, providerActive := false);
    }
    s := s.(error := Note(reason));
    if effect {
      s := s.(identity := NO_IDENTITY);
    }
    s := s.(intentAction := NoAction, intentId := NoOperation, intentStatus := NoStatus);
    s := s.(updatedAt := now);
  }

  method ApplyRuntimeStarted(loaded: Session, started: Started, now: nat) returns (s: Session)
    ensures s == RuntimeStarted(loaded, started, now)
    ensures ValidateStarted(loaded, started).Pass? ==> Faithful(loaded, s, Plain) && s.IntentEmpty()
  {
    s := loaded.(status := Attached, enabled := true);
    if !started.runtimeReused || s.runtime !in {Idle, Busy, Paused} {
      s := s.(runtime := Idle);
    }
    if started.providerSession.Named? {
      s := s.(providerSession := started.providerSession);
    }
    s := s.(providerActive := started.providerActive, providerReused := started.providerReused, error := NoError,
            recoveryRequired := false, identity := started.identity, intentAction := NoAction,
            intentId := NoOperation, intentStatus := NoStatus, updatedAt := now);
  }

  /** A prepared start is bound exactly when the identity is complete and agrees with what is held; it is then in
      flight under its operation, and nothing that was held is replaced. */
  ghost predicate Binds(s: Session, id: OperationId, identity: Identity, r: Outcome<Session>) {
    && (s.identity.Uniform() ==>
          (r.Ok? <==> && s.intentAction.StartAction? && s.intentId == id && s.intentStatus.Prepared?
                      && !identity.AnyBlank() && (s.identity.AllBlank() || s.identity == identity)))
    && (r.Ok? ==>
          && r.value.identity == identity && !identity.AnyBlank()
          && r.value.intentAction.StartAction? && r.value.intentId == id && r.value.intentStatus.EffectInflight?
          && (s.identity.Uniform() ==> Faithful(s, r.value, Authorizes)))
  }

  lemma StartIsBound(s: Session, id: OperationId, identity: Identity)
    ensures Binds(s, id, identity, AuthorizedStart(s, id, identity))
  {
  }

  /** Binds a prepared start to one complete runtime identity: the one already held, if any. What is let loose
      is in flight under its operation, and nothing that was held is replaced. */
  method AuthorizeStartEffect(loaded: Session, id: OperationId, identity: Identity) returns (r: Outcome<Session>)
    ensures r == AuthorizedStart(loaded, id, identity)
    ensures Binds(loaded, id, identity, r)
  {
    hide Faithful;
    StartIsBound(loaded, id, identity);
    var s := loaded;
    if s.intentAction != StartAction || s.intentId != id || s.intentStatus != Prepared {
      return Err(Rejected(StaleStart));
    }
    if identity.handle.Blank? || identity.owner.Blank? || identity.lease.Blank? ||
       (s.identity.handle.Named? && s.identity.handle != identity.handle) ||
       (s.identity.owner.Named? && s.identity.owner != identity.owner) ||
       (s.identity.lease.Named? && s.identity.lease != identity.lease) {
      return Err(Rejected(RuntimeOwnerMismatch));
    }
    s := s.(identity := identity, status := Available, enabled := true);
    if s.runtime !in {Starting, Idle, Busy, Paused} {
      s := s.(runtime := Starting);
    }
    s := s.(error := NoError, recoveryRequired := false, intentStatus := EffectInflight);
    return Ok(s);
  }

  // ---------------------------------------------------------------- the store

  /** What an operation leaves behind: the step's tables and reply, or its failure and no change. */
  ghost predicate Settled(before: Tables, step: Step, after: Tables, r: Outcome<Reply>) {
    match step
    case Ok((u, reply)) => after == u && r == Ok(reply)
    case Err(f) => after == before && r == Err(f)
  }

  /** A launch that may be authorized: its reservation is pending for this generation and owns the prepared
      intent of its session. */
  ghost predicate Plans(t: Tables, q: Request, action: Action, a: AgentId, generation: Generation) {
    && a in t.sessions && t.sessions[a].intentAction.StartAction? && t.sessions[a].intentStatus.Prepared?
    && t.sessions[a].intentId == Operation(q.Key(), action)
    && PendingRow(t, q.Key(), a) && t.rows[q.Key()].operation == Operation(q.Key(), action)
    && t.rows[q.Key()].generation == generation
  }

  lemma LaunchIsPlanned(t: Tables, e: Ambient, q: Request, action: Action)
    requires Inv(t) && PrepareLaunch(t, e, q, action).Ok? && PrepareLaunch(t, e, q, action).value.1.StartPlan?
    ensures Plans(PrepareLaunch(t, e, q, action).value.0, q, action, LaunchAgent(q, action), e.generation)
  {
    hide Inv, LaunchPayload, RequireReaddable;
    if q.Key() in t.rows && t.rows[q.Key()].status.Pending? { PendingOwns(t, q.Key()); }
  }

  lemma CreationIsPlanned(t: Tables, e: Ambient, q: Request, draft: Draft)
    requires Inv(t) && PrepareCreateStart(t, e, q, draft).Ok? && PrepareCreateStart(t, e, q, draft).value.1.CreatePlan?
    ensures Plans(PrepareCreateStart(t, e, q, draft).value.0, q, Create,
      PrepareCreateStart(t, e, q, draft).value.1.agent,
                  e.generation)
  {
    hide Inv;
    if q.Key() in t.rows && t.rows[q.Key()].status.Pending? { PendingOwns(t, q.Key()); }
  }

  lemma LaunchFailedKeeps(t: Tables, e: Ambient, q: Request, row: Row, reason: Reason, effect: bool)
    requires Inv(t)
    ensures Inv(After(t, LaunchFailed(t, e, q, row, reason, effect)))
  {
    hide Inv, Moves, LaunchFailed;
    var step := LaunchFailed(t, e, q, row, reason, effect);
    if step.Ok? {
      var m := LaunchFailedMoves(t, e, q, row, reason, effect);
      MoveKeepsInv(t, step.value.0, m, if effect then Proves else Plain, Newly(step.value.1), e.generation);
    }
  }

  lemma PrepareLaunchKeeps(t: Tables, e: Ambient, q: Request, action: Action)
    requires Inv(t)
    ensures Inv(After(t, PrepareLaunch(t, e, q, action)))
    ensures var step := PrepareLaunch(t, e, q, action);
      step.Ok? && step.value.1.StartPlan? ==> Plans(step.value.0, q, action, LaunchAgent(q, action), e.generation)
  {
    hide Inv, After, PrepareLaunch;
    StepKeepsInv(t, e, DoPrepareLaunch(q, action));
    var step := PrepareLaunch(t, e, q, action);
    if step.Ok? && step.value.1.StartPlan? { LaunchIsPlanned(t, e, q, action); }
  }

  lemma AuthorizeLaunchKeeps(t: Tables, e: Ambient, q: Request, action: Action, operation: OperationId,
                             identity: Identity)
    requires Inv(t)
    ensures Inv(After(t, AuthorizeLaunch(t, e, q, action, operation, identity)))
    ensures var step := AuthorizeLaunch(t, e, q, action, operation, identity);
      step.Ok? ==> LetsLoose(t, step.value.0, e, LaunchAgent(q, action), operation)
  {
    hide Inv, After, AuthorizeLaunch;
    StepKeepsInv(t, e, DoAuthorizeLaunch(q, action, operation, identity));
    if AuthorizeLaunch(t, e, q, action, operation, identity).Ok? {
      LaunchLetsLoose(t, e, DoAuthorizeLaunch(q, action, operation, identity));
    }
  }

  lemma CompleteLaunchKeeps(t: Tables, e: Ambient, q: Request, action: Action, operation: OperationId,
                            started: Started)
    requires Inv(t)
    ensures Inv(After(t, CompleteLaunch(t, e, q, action, operation, started)))
    ensures var step := CompleteLaunch(t, e, q, action, operation, started);
      && (step.Ok? ==> q.Key() in step.value.0.results && q.Key() !in step.value.0.rows)
      && (step.Ok? && step.value.1.Committed? ==>
            LaunchDone(t, step.value.0, e, q, LaunchAgent(q, action), started, step.value.1.result.events))
  {
    hide Inv, After, CompleteLaunch, LaunchDone;
    StepKeepsInv(t, e, DoCompleteLaunch(q, action, operation, started));
    var step := CompleteLaunch(t, e, q, action, operation, started);
    if step.Ok? {
      CompletionAnswers(t, e, q, action, operation, started);
      AnsweredIsNotReserved(t, step, q.Key());
      if step.value.1.Committed? {
        CommittedIsNew(t, e, q, action, operation, started);
        LaunchIsCompleted(t, e, q, action, LaunchAgent(q, action), LaunchPayload(q.payload, action).value.1, started);
      }
    }
  }

  lemma CommittedIsNew(t: Tables, e: Ambient, q: Request, action: Action, operation: OperationId, started: Started)
    requires CompleteLaunch(t, e, q, action, operation, started).Ok?
    requires CompleteLaunch(t, e, q, action, operation, started).value.1.Committed?
    ensures q.Key() !in t.results && operation == Operation(q.Key(), action)
    ensures LaunchPayload(q.payload, action).Ok? && LaunchPayload(q.payload, action).value.0 == LaunchAgent(q, action)
  {
    hide LaunchPayload, ValidateStarted, LaunchKinds, RuntimeStarted;
  }

  lemma PrepareCreateKeeps(t: Tables, e: Ambient, q: Request, draft: Draft)
    requires Inv(t)
    ensures Inv(After(t, PrepareCreateStart(t, e, q, draft)))
    ensures var step := PrepareCreateStart(t, e, q, draft);
      step.Ok? && step.value.1.CreatePlan? ==> Plans(step.value.0, q, Create, step.value.1.agent, e.generation)
  {
    hide Inv, After, PrepareCreateStart;
    StepKeepsInv(t, e, DoPrepareCreateStart(q, draft));
    var step := PrepareCreateStart(t, e, q, draft);
    if step.Ok? && step.value.1.CreatePlan? { CreationIsPlanned(t, e, q, draft); }
  }

  lemma AuthorizeCreateKeeps(t: Tables, e: Ambient, q: Request, operation: OperationId, identity: Identity)
    requires Inv(t)
    ensures Inv(After(t, AuthorizeCreateStart(t, e, q, operation, identity)))
    ensures var step := AuthorizeCreateStart(t, e, q, operation, identity);
      step.Ok? ==> LetsLoose(t, step.value.0, e, RowAgent(t, q), operation)
  {
    hide Inv, After, AuthorizeCreateStart;
    StepKeepsInv(t, e, DoAuthorizeCreateStart(q, operation, identity));
    if AuthorizeCreateStart(t, e, q, operation, identity).Ok? {
      LaunchLetsLoose(t, e, DoAuthorizeCreateStart(q, operation, identity));
    }
  }

  lemma CompleteCreateKeeps(t: Tables, e: Ambient, q: Request, operation: OperationId, started: Started)
    requires Inv(t)
    ensures Inv(After(t, CompleteCreateStart(t, e, q, operation, started)))
    ensures var step := CompleteCreateStart(t, e, q, operation, started);
      && (step.Ok? ==> q.Key() in step.value.0.results && q.Key() !in step.value.0.rows)
      && (step.Ok? && q.Key() !in t.results ==>
            step.value.1.CreateCommit? &&
            LaunchDone(t, step.value.0, e, q, RowAgent(t, q), started, step.value.1.newly))
  {
    hide Inv, After, CompleteCreateStart, LaunchDone;
    StepKeepsInv(t, e, DoCompleteCreateStart(q, operation, started));
    var step := CompleteCreateStart(t, e, q, operation, started);
    if step.Ok? {
      CreationAnswers(t, e, q, operation, started);
      AnsweredIsNotReserved(t, step, q.Key());
      if q.Key() !in t.results {
        CompletionOwnsRow(t, e, q, operation, started);
        CreationIsCompleted(t, e, q, RowAgent(t, q), started);
      }
    }
  }

  lemma CompletionOwnsRow(t: Tables, e: Ambient, q: Request, operation: OperationId, started: Started)
    requires CompleteCreateStart(t, e, q, operation, started).Ok? && q.Key() !in t.results
    ensures operation == Operation(q.Key(), Create) && q.Key() in t.rows && t.rows[q.Key()].session == RowAgent(t, q)
  {
    hide ValidateStarted, LaunchKinds, RuntimeStarted;
  }

  lemma AuthorizeStopKeeps(t: Tables, e: Ambient, q: Request, operation: OperationId)
    requires Inv(t)
    ensures Inv(After(t, AuthorizeStop(t, e, q, operation)))
    ensures var step := AuthorizeStop(t, e, q, operation);
      step.Ok? ==> LetsLoose(t, step.value.0, e, StopAgent(q), operation)
  {
    hide Inv, After, AuthorizeStop;
    StepKeepsInv(t, e, DoAuthorizeStop(q, operation));
    if AuthorizeStop(t, e, q, operation).Ok? { StopLetsLoose(t, e, DoAuthorizeStop(q, operation)); }
  }

  lemma FailStopKeeps(t: Tables, e: Ambient, q: Request, operation: OperationId, reason: Reason)
    requires Inv(t)
    ensures Inv(After(t, FailStop(t, e, q, operation, reason)))
  {
    hide Inv, After, FailStop;
    StepKeepsInv(t, e, DoFailStop(q, operation, reason));
  }

  lemma PauseKeeps(t: Tables, e: Ambient, q: Request, resident: ResidentRuntime)
    requires Inv(t)
    ensures Inv(After(t, ExecutePause(t, e, q, resident)))
  {
    hide Inv, After, ExecutePause;
    StepKeepsInv(t, e, DoPause(q, resident));
  }

  lemma ResumePausedKeeps(t: Tables, e: Ambient, q: Request, resident: ResidentRuntime)
    requires Inv(t)
    ensures Inv(After(t, ResumePaused(t, e, q, resident)))
  {
    hide Inv, After, ResumePaused;
    StepKeepsInv(t, e, DoResumePaused(q, resident));
  }

  lemma ConfigureKeeps(t: Tables, e: Ambient, q: Request, expectedKey: string, draft: Draft)
    requires Inv(t)
    ensures Inv(After(t, ExecuteConfigure(t, e, q, expectedKey, draft)))
  {
    hide Inv, After, ExecuteConfigure;
    StepKeepsInv(t, e, DoConfigure(q, expectedKey, draft));
  }

  lemma InterruptKeeps(t: Tables, e: Ambient, q: Request, execution: Option<Execution>, effectOwned: bool)
    requires Inv(t)
    ensures Inv(After(t, ExecuteInterrupt(t, e, q, execution, effectOwned)))
  {
    hide Inv, After, ExecuteInterrupt;
    StepKeepsInv(t, e, DoInterrupt(q, execution, effectOwned));
  }

  lemma AnsweredIsNotReserved(t: Tables, step: Step, k: Key)
    requires step.Ok? && Inv(After(t, step)) && k in step.value.0.results
    ensures k !in step.value.0.rows
  {
    hide Inv;
    KeysAreDisjoint(step.value.0);
  }

  lemma CompletionAnswers(t: Tables, e: Ambient, q: Request, action: Action, operation: OperationId, started: Started)
    requires CompleteLaunch(t, e, q, action, operation, started).Ok?
    ensures q.Key() in CompleteLaunch(t, e, q, action, operation, started).value.0.results
  {
    hide LaunchPayload, ValidateStarted, LaunchKinds, RuntimeStarted;
  }

  lemma CreationAnswers(t: Tables, e: Ambient, q: Request, operation: OperationId, started: Started)
    requires CompleteCreateStart(t, e, q, operation, started).Ok?
    ensures q.Key() in CompleteCreateStart(t, e, q, operation, started).value.0.results
  {
    hide ValidateStarted, LaunchKinds, RuntimeStarted;
  }

  class Store {
    var db: Tables
    const generation: Generation

    ghost predicate Valid()
      reads this
    {
      Inv(db)
    }

    /** Opening a database again gives a store of a new generation over the same tables. */
    constructor (stored: Tables, generation: Generation)
      requires Inv(stored)
      ensures Valid() && db == stored && this.generation == generation
    {
      db := stored;
      this.generation := generation;
    }

    static method RelistIn(tx: Transaction, e: Ambient, q: Request, a: AgentId, loaded: Session, member: Participant)
      returns (r: Outcome<Reply>)
      modifies tx
      ensures match Relist(old(tx.View()), e, q, a, loaded, member)
        case Ok((u, reply)) => r == Ok(reply) && tx.View() == u
        case Err(f) => r == Err(f)
    {
      tx.Save(a, loaded.(status := Available, runtime := Stopped, error := NoError, updatedAt := e.now));
      tx.SaveMember(a, member.(status := DetachedMember, updatedAt := e.now));
      r := tx.Commit(q, Readd, Relisted, [AgentSessionReactivated], a);
    }

    method PrepareAgentLaunch(e: Ambient, q: Request, action: Action) returns (r: Outcome<Reply>)
      requires Valid() && e.generation == generation
      modifies this
      ensures Valid()
      ensures Settled(old(db), PrepareLaunch(old(db), e, q, action), db, r)
      ensures r.Ok? && r.value.StartPlan? ==> Plans(db, q, action, LaunchAgent(q, action), generation)
    {
      hide Relist, PreparedLaunch, RequireReaddable, MatchingStartIntent, LaunchPayload, Claim, Finish, Inv;
      PrepareLaunchKeeps(db, e, q, action);
      var tx := new Transaction(db);
      var _ :- AuthorizeControl(q.principal);
      var launch :- ReadLaunchPayload(q.payload, action);
      var (a, start) := launch;
      var operation := Operation(q.Key(), action);
      var replay :- ExistingCommand(tx.View(), q.Key(), action, q.payload);
      if replay.Some? {
        return Ok(Replay(replay.value));
      }
      var row := LaunchRow(e, q, action, a, operation);
      var _ :- tx.ClaimCommand(e, q.Key(), row, true);
      var s :- LoadLaunchSession(tx.View(), a);
      var _ :- s.TurnAuthority();
      var p :- LoadParticipant(tx.View(), a);
      var _ :- Require(!p.status.Exported?, ParticipantExported);
      if !action.Readd? {
        var _ :- Require(!p.status.Kicked?, ParticipantKicked);
      }
      var _ :- Require(s.profile.version == CURRENT_PROFILE_VERSION, ProfileUnsupported);
      var incomplete :- MatchingStartIntent(s, operation);
      if action.Readd? && !incomplete {
        var _ :- RequireReaddable(s, p);
      }
      if !start {
        var _ :- tx.FinishCommand(q.Key(), row);
        r := RelistIn(tx, e, q, a, s, p);
        if r.Ok? { db := tx.View(); }
        return;
      }
      if !incomplete {
        s := PrepareLaunchSession(s, operation, e.now);
      }
      tx.Save(a, s);
      db := tx.View();
      return Ok(StartPlan(operation, s));
    }

    method AuthorizeAgentStartEffect(e: Ambient, q: Request, action: Action, operation: OperationId, identity: Identity)
      returns (r: Outcome<Reply>)
      requires Valid() && e.generation == generation
      modifies this
      ensures Valid()
      ensures Settled(old(db), AuthorizeLaunch(old(db), e, q, action, operation, identity), db, r)
      ensures r.Ok? ==> LetsLoose(old(db), db, e, LaunchAgent(q, action), operation)
    {
      hide Inv;
      AuthorizeLaunchKeeps(db, e, q, action, operation, identity);
      var tx := new Transaction(db);
      var launch :- ReadLaunchPayload(q.payload, action);
      var a := launch.0;
      var _ :- Require(operation == Operation(q.Key(), action), StaleStart);
      var _ :- Require(q.Key() in tx.rows, StaleReservation);
      var row := tx.rows[q.Key()];
      if row.action != action || row.payload != q.payload || row.session != a || row.operation != operation ||
         row.status != Pending || row.phase != LifecyclePrepared || row.prepared != NoResult ||
         row.generation != generation {
        return Err(Rejected(StaleReservation));
      }
      var s :- LoadLaunchSession(tx.View(), a);
      s :- AuthorizeStartEffect(s, operation, identity);
      tx.Save(a, s);
      db := tx.View();
      return Ok(StartPlan(operation, s));
    }

    method CompleteAgentLaunch(e: Ambient, q: Request, action: Action, operation: OperationId, started: Started)
      returns (r: Outcome<Reply>)
      requires Valid() && e.generation == generation
      modifies this
      ensures Valid()
      ensures Settled(old(db), CompleteLaunch(old(db), e, q, action, operation, started), db, r)
      ensures r.Ok? ==> q.Key() in db.results && q.Key() !in db.rows
      ensures r.Ok? && r.value.Committed? ==>
        LaunchDone(old(db), db, e, q, LaunchAgent(q, action), started, r.value.result.events)
    {
      hide LaunchDone, RuntimeStarted, ValidateStarted, LaunchPayload, LaunchKinds, CommitResult, Finish, Inv;
      CompleteLaunchKeeps(db, e, q, action, operation, started);
      var launch :- ReadLaunchPayload(q.payload, action);
      var a := launch.0;
      var _ :- Require(operation == Operation(q.Key(), action), StaleStart);
      var tx := new Transaction(db);
      var replay :- ExistingCommand(tx.View(), q.Key(), action, q.payload);
      if replay.Some? {
        return Ok(Replay(replay.value));
      }
      var s :- LoadLaunchSession(tx.View(), a);
      var _ :- ValidateStarted(s, started);
      var _ :- RequireIntent(s, StartAction, operation, EffectInflight, StaleStart);
      var _ :- tx.FinishCommand(q.Key(), LaunchRow(e, q, action, a, operation));
      s := ApplyRuntimeStarted(s, started, e.now);
      var p :- LoadParticipant(tx.View(), a);
      tx.Save(a, s);
      var joined := p.status != Joined;
      p := p.(status := Joined, updatedAt := e.now);
      tx.SaveMember(a, p);
      var kind := if action.Readd? then Readded(started.runtimeReused) else Launched(started.runtimeReused);
      r := tx.Commit(q, action, kind, LaunchKinds(joined), a);
      if r.Ok? { db := tx.View(); }
    }

    method AuthorizeAgentStopEffect(e: Ambient, q: Request, operation: OperationId) returns (r: Outcome<Reply>)
      requires Valid() && e.generation == generation
      modifies this
      ensures Valid()
      ensures Settled(old(db), AuthorizeStop(old(db), e, q, operation), db, r)
      ensures r.Ok? ==> LetsLoose(old(db), db, e, StopAgent(q), operation)
    {
      hide Inv;
      AuthorizeStopKeeps(db, e, q, operation);
      var tx := new Transaction(db);
      var a :- PayloadAgent(q.payload, {});
      var _ :- Require(operation == Operation(q.Key(), Stop), StaleStop);
      var _ :- Require(q.Key() in tx.rows, StaleReservation);
      var row := tx.rows[q.Key()];
      if row.action != Stop || row.payload != q.payload || row.session != a || row.operation != operation ||
         row.status != Pending || row.phase != LifecyclePrepared || row.prepared != NoResult ||
         row.generation != generation {
        return Err(Rejected(StaleReservation));
      }
      var s :- LoadSession(tx.View(), a);
      var _ :- RequireIntent(s, StopAction, operation, Prepared, StaleStop);
      var effect :- StopEffectOf(a, s);
      s := s.(runtime := Stopping, enabled := false);
      s := s.(intentStatus := EffectInflight, updatedAt := e.now);
      tx.Save(a, s);
      db := tx.View();
      return Ok(StopPlan(effect));
    }

    /** A definitive launch failure: the reservation is refused and the intent cleared together, and after the
        effect the runtime is given up with them. */
    method CommitLaunchFailure(e: Ambient, q: Request, row: Row, reason: Reason, effect: bool)
      returns (r: Outcome<Reply>)
      requires Valid() && e.generation == generation
      modifies this
      ensures Valid()
      ensures Settled(old(db), LaunchFailed(old(db), e, q, row, reason, effect), db, r)
    {
      hide Inv, Refuse, FailedLaunchSession, NewEvents;
      LaunchFailedKeeps(db, e, q, row, reason, effect);
      var tx := new Transaction(db);
      var a := row.session;
      var s :- LoadSession(tx.View(), a);
      var _ :- RequireIntent(s, StartAction, row.operation, if effect then EffectInflight else Prepared, StaleStart);
      var _ :- tx.RefuseCommand(q.Key(), row, reason);
      s := RejectLaunchSession(s, reason, effect, e.now);
      tx.Save(a, s);
      var events := tx.AppendEvents([ErrorRaised, AgentSessionState], a, q.principal.participant);
      db := tx.View();
      return Ok(Reported(events));
    }

    method FailAgentLaunch(e: Ambient, q: Request, action: Action, operation: OperationId, reason: Reason, effect: bool)
      returns (r: Outcome<Reply>)
      requires Valid() && e.generation == generation
      modifies this
      ensures Valid()
      ensures Settled(old(db), FailLaunch(old(db), e, q, action, operation, reason, effect), db, r)
    {
      hide Inv, LaunchFailed, LaunchPayload;
      var launch :- ReadLaunchPayload(q.payload, action);
      r := CommitLaunchFailure(e, q, LaunchRow(e, q, action, launch.0, operation), reason, effect);
    }

    /** A stop refused before its effect keeps the runtime. */
    method FailAgentStop(e: Ambient, q: Request, operation: OperationId, reason: Reason) returns (r: Outcome<Reply>)
      requires Valid() && e.generation == generation
      modifies this
      ensures Valid()
      ensures Settled(old(db), FailStop(old(db), e, q, operation, reason), db, r)
      ensures r.Ok? ==>
        (StopAgent(q) in old(db).sessions && StopAgent(q) in db.sessions && db.sessions[StopAgent(q)].IntentEmpty() &&
         db.sessions[StopAgent(q)].identity == old(db).sessions[StopAgent(q)].identity)
    {
      hide Inv, PayloadAgent;
      FailStopKeeps(db, e, q, operation, reason);
      var tx := new Transaction(db);
      var a :- PayloadAgent(q.payload, {});
      var s :- LoadSession(tx.View(), a);
      var _ :- RequireIntent(s, StopAction, operation, Prepared, StaleStop);
      var _ :- tx.RefuseCommand(q.Key(), LaunchRow(e, q, Stop, a, operation), reason);
      s := s.(intentAction := NoAction, intentId := NoOperation, intentStatus := NoStatus);
      s := s.(error := Note(reason), updatedAt := e.now);
      tx.Save(a, s);
      var events := tx.AppendEvents([ErrorRaised, AgentSessionState], a, q.principal.participant);
      db := tx.View();
      return Ok(Reported(events));
    }

    // -------------------------------------------------------------- create and start

    /** What an interrupted request finds: its result, its own launch still to be authorized, or nothing. */
    method InspectAgentCreateStart(e: Ambient, q: Request) returns (r: Outcome<Reply>)
      requires Valid() && e.generation == generation
      ensures Settled(db, InspectCreateStart(db, e, q), db, r)
      ensures r.Ok? && r.value.CreatePlan? ==> Plans(db, q, Create, r.value.agent, generation)
      ensures r.Ok? && r.value.Replay? ==> q.Key() in db.results && r.value.result == db.results[q.Key()]
      ensures r.Ok? && r.value.Select? ==> q.Key() !in db.results && q.Key() !in db.rows
    {
      hide Inv;
      if q.Key() in db.rows && db.rows[q.Key()].status.Pending? { PendingOwns(db, q.Key()); }
      var _ :- AuthorizeControl(q.principal);
      var replay :- ExistingCommand(db, q.Key(), Create, q.payload);
      if replay.Some? {
        return Ok(Replay(replay.value));
      }
      var resumed :- ResumeCreateStart(db, e, q);
      return Ok(if resumed.Some? then resumed.value else Select);
    }

    static method CreateRecordsIn(tx: Transaction, e: Ambient, p: Principal, draft: Draft,
                                  operation: Option<OperationId>)
      returns (r: Outcome<seq<Event>>)
      modifies tx
      ensures match CreateRecords(old(tx.View()), e, p, draft, operation)
        case Ok((u, events)) => r == Ok(events) && tx.View() == u
        case Err(f) => r == Err(f)
    {
      var _ :- Require(|tx.sessions| < MAX_AGENT_SESSIONS_PER_ROOM, Capacity);
      var s := InitialSession(draft, e.now);
      if operation.Some? {
        s := PrepareCreatedSession(s, operation.value, e.now);
      }
      tx.Save(draft.agent, s);
      tx.SaveMember(draft.agent, Participant(DetachedMember, p.participant, true, false, e.now));
      var events := tx.AppendEvents([AgentSessionCreated], draft.agent, p.participant);
      return Ok(events);
    }

    static method PrepareCreatedSession(loaded: Session, id: OperationId, now: nat) returns (s: Session)
      ensures s == PreparedCreation(loaded, id, now)
    {
      s := loaded.(status := Available, runtime := Starting, enabled := true);
      s := s.(error := NoError, recoveryRequired := false);
      s := s.(intentAction := StartAction, intentId := id, intentStatus := Prepared, updatedAt := now);
    }

    static method CreateOrReuseIn(tx: Transaction, e: Ambient, p: Principal, draft: Draft,
                                  operation: Option<OperationId>, reuse: bool)
      returns (r: Outcome<seq<Event>>)
      modifies tx
      ensures match CreateOrReuse(old(tx.View()), e, p, draft, operation, reuse)
        case Ok((u, events)) => r == Ok(events) && tx.View() == u
        case Err(f) => r == Err(f)
    {
      var a := draft.agent;
      if a !in tx.sessions && a !in tx.participants {
        r := CreateRecordsIn(tx, e, p, draft, operation);
        return;
      }
      if a !in tx.sessions || a !in tx.participants || !reuse || !tx.sessions[a].serverOwned ||
         tx.sessions[a].profile.key != draft.profile.key || tx.participants[a].owner != p.participant {
        return Err(Rejected(SessionExists));
      }
      var s := tx.sessions[a];
      var _ :- Require(s.IntentEmpty(), OperationInProgress);
      if operation.Some? {
        s := PrepareCreatedSession(s, operation.value, e.now);
        tx.Save(a, s);
      }
      return Ok([]);
    }

    method PrepareAgentCreateStart(e: Ambient, q: Request, draft: Draft) returns (r: Outcome<Reply>)
      requires Valid() && e.generation == generation
      modifies this
      ensures Valid()
      ensures Settled(old(db), PrepareCreateStart(old(db), e, q, draft), db, r)
      ensures r.Ok? && r.value.CreatePlan? ==> Plans(db, q, Create, r.value.agent, generation)
    {
      hide Inv;
      PrepareCreateKeeps(db, e, q, draft);
      var tx := new Transaction(db);
      var _ :- AuthorizeControl(q.principal);
      var operation := Operation(q.Key(), Create);
      var replay :- ExistingCommand(tx.View(), q.Key(), Create, q.payload);
      if replay.Some? {
        return Ok(Replay(replay.value));
      }
      var resumed :- ResumeCreateStart(tx.View(), e, q);
      if resumed.Some? {
        return Ok(resumed.value);
      }
      var events :- CreateOrReuseIn(tx, e, q.principal, draft, Some(operation), true);
      var row := CreationRow(e, q, draft.agent, operation, Created(draft.agent, events));
      var _ :- tx.ClaimCommand(e, q.Key(), row, true);
      db := tx.View();
      return Ok(CreatePlan(operation, draft.agent, events, events));
    }

    method AuthorizeAgentCreateStartEffect(e: Ambient, q: Request, operation: OperationId, identity: Identity)
      returns (r: Outcome<Reply>)
      requires Valid() && e.generation == generation
      modifies this
      ensures Valid()
      ensures Settled(old(db), AuthorizeCreateStart(old(db), e, q, operation, identity), db, r)
      ensures r.Ok? ==> LetsLoose(old(db), db, e, RowAgent(old(db), q), operation)
    {
      hide Inv;
      AuthorizeCreateKeeps(db, e, q, operation, identity);
      var tx := new Transaction(db);
      var _ :- AuthorizeControl(q.principal);
      var _ :- Require(operation == Operation(q.Key(), Create), StaleStart);
      var row :- RequiredCreateRow(tx.View(), q);
      if row.operation != operation || row.generation != generation {
        return Err(Rejected(StaleReservation));
      }
      var _ :- CheckPrepared(row);
      var s :- LoadLaunchSession(tx.View(), row.session);
      s :- AuthorizeStartEffect(s, operation, identity);
      tx.Save(row.session, s);
      db := tx.View();
      return Ok(CreatePlan(operation, row.session, row.prepared.events, []));
    }

    method CompleteAgentCreateStart(e: Ambient, q: Request, operation: OperationId, started: Started)
      returns (r: Outcome<Reply>)
      requires Valid() && e.generation == generation
      modifies this
      ensures Valid()
      ensures Settled(old(db), CompleteCreateStart(old(db), e, q, operation, started), db, r)
      ensures r.Ok? ==> q.Key() in db.results && q.Key() !in db.rows
      ensures r.Ok? && old(q.Key() !in db.results) ==>
        r.value.CreateCommit? && LaunchDone(old(db), db, e, q, RowAgent(old(db), q), started, r.value.newly)
    {
      hide Inv, LaunchDone, RuntimeStarted, ValidateStarted, LaunchKinds, NewEvents, Finish, CheckCreateRow;
      CompleteCreateKeeps(db, e, q, operation, started);
      var _ :- Require(operation == Operation(q.Key(), Create), StaleStart);
      var tx := new Transaction(db);
      var replay :- ExistingCommand(tx.View(), q.Key(), Create, q.payload);
      if replay.Some? {
        return Ok(CreateCommit(replay.value, [], []));
      }
      var row :- RequiredCreateRow(tx.View(), q);
      if row.operation != operation {
        return Err(Conflict);
      }
      var _ :- CheckPrepared(row);
      var a := row.session;
      var s :- LoadLaunchSession(tx.View(), a);
      var _ :- ValidateStarted(s, started);
      var _ :- RequireIntent(s, StartAction, operation, EffectInflight, StaleStart);
      var _ :- tx.FinishCommand(q.Key(), row);
      s := ApplyRuntimeStarted(s, started, e.now);
      var p :- LoadParticipant(tx.View(), a);
      tx.Save(a, s);
      var joined := p.status != Joined;
      p := p.(status := Joined, updatedAt := e.now);
      tx.SaveMember(a, p);
      var news := tx.AppendEvents(LaunchKinds(joined), a, q.principal.participant);
      var all := row.prepared.events + news;
      var result := StoredResult(Create, q.payload, CreatedStarted(started.runtimeReused), all);
      var answered := tx.Answer(q.Key(), result);
      r := Err(Storage);
      if answered.Ok? {
        db := tx.View();
        r := Ok(CreateCommit(result, all, news));
      }
    }

    method FailAgentCreateStart(e: Ambient, q: Request, a: AgentId, operation: OperationId, prepared: PreparedResult,
                                reason: Reason, effect: bool) returns (r: Outcome<Reply>)
      requires Valid() && e.generation == generation
      modifies this
      ensures Valid()
      ensures Settled(old(db), FailCreateStart(old(db), e, q, a, operation, prepared, reason, effect), db, r)
    {
      hide Inv, LaunchFailed;
      r := CommitLaunchFailure(e, q, CreationRow(e, q, a, operation, prepared), reason, effect);
    }

    // -------------------------------------------------------------- pause, resume, configure, interrupt

    method PrepareResidentAction(q: Request, resume: bool) returns (r: Outcome<Reply>)
      ensures r == PrepareResident(db, q, resume)
    {
      var _ :- AuthorizeControl(q.principal);
      var a :- PayloadAgent(q.payload, {});
      if resume {
        var owner :- RequestOwner(db, q, Resume);
        if owner.Some? {
          return Ok(owner.value);
        }
      } else {
        var owner :- PauseOwner(db, q);
        if owner.Some? {
          return Ok(owner.value);
        }
      }
      var s :- LoadSession(db, a);
      if resume && s.runtime != Paused {
        return Ok(ProviderLaunch);
      }
      var _ :- RequireResident(db, a, s, if resume then Paused else Idle, !resume);
      return Ok(Resident(s));
    }

    method ExecuteAgentPause(e: Ambient, q: Request, resident: ResidentRuntime) returns (r: Outcome<Reply>)
      requires Valid() && e.generation == generation
      modifies this
      ensures Valid()
      ensures Settled(old(db), ExecutePause(old(db), e, q, resident), db, r)
    {
      hide Inv;
      PauseKeeps(db, e, q, resident);
      var tx := new Transaction(db);
      var _ :- AuthorizeControl(q.principal);
      var a :- PayloadAgent(q.payload, {});
      var replay :- tx.AdmitCommand(e, q, Pause);
      if replay.Some? {
        return Ok(Replay(replay.value));
      }
      var s :- LoadSession(tx.View(), a);
      var _ :- RequireResident(tx.View(), a, s, Idle, true);
      var _ :- RequireRuntime(s, resident);
      s := s.(enabled := false);
      s := s.(runtime := Paused);
      s := s.(updatedAt := e.now);
      tx.Save(a, s);
      r := tx.Commit(q, Pause, PausedNow, [AgentSessionState], a);
      if r.Ok? { db := tx.View(); }
    }

    method ResumePausedAgent(e: Ambient, q: Request, resident: ResidentRuntime) returns (r: Outcome<Reply>)
      requires Valid() && e.generation == generation
      modifies this
      ensures Valid()
      ensures Settled(old(db), ResumePaused(old(db), e, q, resident), db, r)
    {
      hide Inv;
      ResumePausedKeeps(db, e, q, resident);
      var tx := new Transaction(db);
      var _ :- AuthorizeControl(q.principal);
      var a :- PayloadAgent(q.payload, {});
      var known :- ExistingCommand(tx.View(), q.Key(), Resume, q.payload);
      if q.Key() in tx.rows {
        return Err(Conflict);
      }
      if known.Some? {
        return Ok(Replay(known.value));
      }
      var _ :- Require(!tx.restarting, Restarting);
      var s :- LoadSession(tx.View(), a);
      if s.runtime != Paused {
        return Ok(ProviderLaunch);
      }
      var replay :- tx.AdmitCommand(e, q, Resume);
      var _ :- RequireResident(tx.View(), a, s, Paused, false);
      var _ :- RequireRuntime(s, resident);
      s := s.(enabled := true);
      s := s.(runtime := Idle);
      s := s.(updatedAt := e.now);
      tx.Save(a, s);
      r := tx.Commit(q, Resume, ResumedNow, [AgentSessionState], a);
      if r.Ok? { db := tx.View(); }
    }

    method ExecuteAgentConfiguration(e: Ambient, q: Request, expectedKey: string, draft: Draft)
      returns (r: Outcome<Reply>)
      requires Valid() && e.generation == generation
      modifies this
      ensures Valid()
      ensures Settled(old(db), ExecuteConfigure(old(db), e, q, expectedKey, draft), db, r)
    {
      hide Inv;
      ConfigureKeeps(db, e, q, expectedKey, draft);
      var tx := new Transaction(db);
      var _ :- AuthorizeControl(q.principal);
      var replay :- tx.AdmitCommand(e, q, Configure);
      if replay.Some? {
        return Ok(Replay(replay.value));
      }
      var a := draft.agent;
      var s :- LoadSession(tx.View(), a);
      var _ :- RequireStoppedProfile(s);
      var _ :- Require(s.profile.key == expectedKey, ProfileChanged);
      var _ :- Require(s.providerKind == draft.providerKind, KindMismatch);
      s := s.(status := Available, runtime := Stopped, enabled := false);
      s := s.(error := NoError, recoveryRequired := false, updatedAt := e.now);
      s := s.(profile := draft.profile.(version := CURRENT_PROFILE_VERSION));
      s := s.(intentAction := NoAction, intentId := NoOperation, intentStatus := NoStatus);
      tx.Save(a, s);
      var _ :- LoadParticipant(tx.View(), a);
      r := tx.Commit(q, Configure, ResultKind.Configured, [AgentSessionState], a);
      if r.Ok? { db := tx.View(); }
    }

    method ExecuteAgentInterrupt(e: Ambient, q: Request, execution: Option<Execution>, effectOwned: bool)
      returns (r: Outcome<Reply>)
      requires Valid() && e.generation == generation
      modifies this
      ensures Valid()
      ensures Settled(old(db), ExecuteInterrupt(old(db), e, q, execution, effectOwned), db, r)
    {
      hide Inv;
      InterruptKeeps(db, e, q, execution, effectOwned);
      var tx := new Transaction(db);
      var _ :- AuthorizeControl(q.principal);
      var a :- PayloadAgent(q.payload, {});
      var replay :- tx.AdmitCommand(e, q, Interrupt);
      if replay.Some? {
        return Ok(Replay(replay.value));
      }
      var s :- LoadInterruptible(tx.View(), a, execution, effectOwned);
      s := s.(updatedAt := e.now);
      tx.Save(a, s);
      r := tx.Commit(q, Interrupt, InterruptRequested, [AgentSessionState], a);
      if r.Ok? { db := tx.View(); }
    }
  }
}
