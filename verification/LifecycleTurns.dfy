/** Turns and launches: which steps leave an agent with a turn that nothing can run, finish or stop. */
module LifecycleTurns {
  import opened Wrappers
  import opened LifecycleModel
  import opened LifecycleSteps
  import opened LifecycleInvariant
  import opened LifecycleMoves
  import opened LifecycleRuns

  /** A turn whose session has not the runtime status of a turn, and no stop under way. */
  predicate Broken(s: Session) { s.turn.ActiveTurn? && s.TurnAuthority().Err? && !s.intentAction.StopAction? }

  /** What the start of a runtime, its failure, and its recovery do to an agent with a turn: all of them set
      the runtime status and none looks at the turn. */
  predicate BreaksTurn(t: Tables, c: Command, a: AgentId)
    requires a in t.sessions
  {
    var s := t.sessions[a];
    s.turn.ActiveTurn? &&
    match c
    case DoPrepareLaunch(q, action) =>
      LaunchAgent(q, action) == a && q.Key() !in t.results && s.IntentEmpty() && s.runtime.Stopping?
    case DoAuthorizeLaunch(q, action, _, _) => LaunchAgent(q, action) == a && s.runtime.Stopping?
    case DoCompleteLaunch(q, action, _, started) =>
      LaunchAgent(q, action) == a && q.Key() !in t.results && !(started.runtimeReused && s.runtime.Busy?)
    case DoFailLaunch(q, action, _, _, effect) => LaunchAgent(q, action) == a && (effect || s.identity.AllBlank())
    case DoMarkStartUnconfirmed(_, b, _, _, _, _) => b == a
    case DoPrepareCreateStart(q, draft) => draft.agent == a && q.Key() !in t.results && q.Key() !in t.rows
    case DoAuthorizeCreateStart(q, _, _) => RowAgent(t, q) == a && s.runtime.Stopping?
    case DoCompleteCreateStart(q, _, started) =>
      RowAgent(t, q) == a && q.Key() !in t.results && !(started.runtimeReused && s.runtime.Busy?)
    case DoFailCreateStart(_, b, _, _, _, effect) => b == a && (effect || s.identity.AllBlank())
    case DoRejectAbandoned(b, _) => b == a && s.intentAction.StartAction? && s.identity.AllBlank()
    case DoReconcile(b, _, o) =>
      b == a && s.intentAction.StartAction? && (if s.intentStatus.Prepared? then s.identity.AllBlank() else o.Gone?)
    case DoLiveReconcile(b, _, o) => b == a && s.intentAction.StartAction? && (o.Gone? || o.Adopted?)
    case _ => false
  }

  predicate TurnFine(t: Tables, a: AgentId) { a in t.sessions ==> t.sessions[a].TurnAuthority().Ok? }

  predicate Breaks(t: Tables, c: Command, a: AgentId) { a in t.sessions && BreaksTurn(t, c, a) }

  predicate IsLaunch(c: Command) {
    c.DoPrepareLaunch? || c.DoAuthorizeLaunch? || c.DoCompleteLaunch? || c.DoFailLaunch? || c.DoMarkStartUnconfirmed?
  }

  predicate IsCreate(c: Command) {
    c.DoCreateStopped? || c.DoInspectCreateStart? || c.DoPrepareCreateStart? || c.DoAuthorizeCreateStart? ||
    c.DoCompleteCreateStart? || c.DoFailCreateStart?
  }

  predicate IsStop(c: Command) {
    c.DoPrepareStop? || c.DoAuthorizeStop? || c.DoFailStop? || c.DoRecordStop? || c.DoMarkStopUnconfirmed? ||
    c.DoFinalizeStop?
  }

  predicate IsRecovery(c: Command) {
    c.DoRejectAbandoned? || c.DoReconcile? || c.DoLiveReconcile? || c.DoRecordIdleFailure?
  }

  predicate IsOrdinary(c: Command) { c.DoPause? || c.DoResumePaused? || c.DoConfigure? || c.DoInterrupt? }

  /** After a committed step a fine turn is still fine exactly when the step does not break it; what it breaks
      is broken, and what was broken stays so. */
  predicate TurnAfter(t: Tables, step: Step, breaks: bool, a: AgentId) {
    step.Ok? ==>
      && (a in t.sessions ==> a in step.value.0.sessions)
      && (TurnFine(t, a) ==> (TurnFine(step.value.0, a) <==> !breaks))
      && (TurnFine(t, a) && breaks ==> HasBroken(step.value.0, a))
      && (HasBroken(t, a) ==> HasBroken(step.value.0, a))
  }

  predicate HasBroken(t: Tables, a: AgentId) { a in t.sessions && Broken(t.sessions[a]) }

  lemma BrokenIsNotFine(t: Tables, a: AgentId)
    requires HasBroken(t, a)
    ensures !TurnFine(t, a)
  {
  }

  lemma NoTurnChanges(t: Tables, step: Step, breaks: bool, a: AgentId)
    requires step.Ok? ==> !breaks && SameTurns(t, step.value.0)
    ensures TurnAfter(t, step, breaks, a)
  {
  }

  /** No turn changed, nor the runtime status beside it; an intent is new only where the turn is fine. */
  ghost predicate SameTurns(t: Tables, u: Tables) {
    && u.sessions.Keys == t.sessions.Keys
    && forall b | b in t.sessions ::
         && u.sessions[b].turn == t.sessions[b].turn && u.sessions[b].runtime == t.sessions[b].runtime
         && (u.sessions[b].intentAction == t.sessions[b].intentAction || u.sessions[b].TurnAuthority().Ok?)
  }

  lemma LaunchIsRead(t: Tables, e: Ambient, q: Request, action: Action)
    requires PrepareLaunch(t, e, q, action).Ok?
    ensures LaunchPayload(q.payload, action).Ok?
  {
    hide LaunchPayload;
  }

  lemma StartTurns(t: Tables, e: Ambient, q: Request, action: Action, b: AgentId, a: AgentId)
    requires LaunchPayload(q.payload, action) == Ok((b, true))
    ensures TurnAfter(t, PrepareLaunch(t, e, q, action), Breaks(t, DoPrepareLaunch(q, action), a), a)
  {
    hide LaunchPayload, Relist;
  }

  /** An agent that is listed again has no turn. */
  lemma RelistTurns(t: Tables, e: Ambient, q: Request, action: Action, b: AgentId, a: AgentId)
    requires Inv(t) && LaunchPayload(q.payload, action) == Ok((b, false))
    ensures TurnAfter(t, PrepareLaunch(t, e, q, action), Breaks(t, DoPrepareLaunch(q, action), a), a)
  {
    hide Inv, PayloadAgent, StartRequested;
    if b in t.sessions { IntentHeld(t, b); }
    if q.Key() in t.rows && t.rows[q.Key()].status.Pending? { PendingOwns(t, q.Key()); }
  }

  lemma PrepareLaunchTurns(t: Tables, e: Ambient, q: Request, action: Action, a: AgentId)
    requires Inv(t)
    ensures TurnAfter(t, PrepareLaunch(t, e, q, action), Breaks(t, DoPrepareLaunch(q, action), a), a)
  {
    hide PrepareLaunch, Breaks;
    if PrepareLaunch(t, e, q, action).Ok? {
      LaunchIsRead(t, e, q, action);
      var (b, start) := LaunchPayload(q.payload, action).value;
      if start { StartTurns(t, e, q, action, b, a); } else { RelistTurns(t, e, q, action, b, a); }
    }
  }

  lemma AuthorizeLaunchTurns(t: Tables, e: Ambient, q: Request, action: Action, operation: OperationId,
                             identity: Identity, a: AgentId)
    ensures TurnAfter(t, AuthorizeLaunch(t, e, q, action, operation, identity),
      Breaks(t, DoAuthorizeLaunch(q, action, operation, identity), a), a)
  {
    hide LaunchPayload;
  }

  lemma CompleteLaunchTurns(t: Tables, e: Ambient, q: Request, action: Action, operation: OperationId,
                            started: Started, a: AgentId)
    ensures TurnAfter(t, CompleteLaunch(t, e, q, action, operation, started),
      Breaks(t, DoCompleteLaunch(q, action, operation, started), a), a)
  {
    hide LaunchPayload, ValidateStarted, LaunchKinds;
  }

  lemma LaunchFailedTurns(t: Tables, e: Ambient, q: Request, row: Row, reason: Reason, effect: bool, a: AgentId)
    ensures TurnAfter(t, LaunchFailed(t, e, q, row, reason, effect),
      a == row.session && a in t.sessions && t.sessions[a].turn.ActiveTurn? &&
      (effect || t.sessions[a].identity.AllBlank()), a)
  {
  }

  lemma MarkStartTurns(t: Tables, e: Ambient, p: Principal, b: AgentId, operation: OperationId, handle: Token,
                       owner: Token,
                       reason: Reason, a: AgentId)
    ensures TurnAfter(t, MarkStartUnconfirmed(t, e, p, b, operation, handle, owner, reason),
      Breaks(t, DoMarkStartUnconfirmed(p, b, operation, handle, owner, reason), a), a)
  {
  }

  /** Reusing an agent for a start breaks its turn; a new agent has none. */
  lemma RecordsTurns(t: Tables, e: Ambient, p: Principal, draft: Draft, operation: Option<OperationId>, reuse: bool,
                     a: AgentId)
    requires CreateOrReuse(t, e, p, draft, operation, reuse).Ok?
    ensures TurnAfter(t, Ok((CreateOrReuse(t, e, p, draft, operation, reuse).value.0, Done)),
      operation.Some? && draft.agent == a && a in t.sessions && t.sessions[a].turn.ActiveTurn?, a)
    ensures CreateOrReuse(t, e, p, draft, operation, reuse).value.0.rows == t.rows
  {
  }

  /** What a step tells of turns rests on its sessions alone. */
  lemma TurnAfterSessions(t: Tables, u: Tables, before: Step, after: Step, breaks: bool, a: AgentId)
    requires TurnAfter(u, before, breaks, a) && t.sessions == u.sessions
    requires before.Ok? && after.Ok? && after.value.0.sessions == before.value.0.sessions
    ensures TurnAfter(t, after, breaks, a)
  {
  }

  lemma CreateStoppedTurns(t: Tables, e: Ambient, q: Request, draft: Draft, a: AgentId)
    ensures TurnAfter(t, CreateStopped(t, e, q, draft), Breaks(t, DoCreateStopped(q, draft), a), a)
  {
    hide CreateOrReuse, TurnAfter;
    var step := CreateStopped(t, e, q, draft);
    if step.Ok? && q.Key() !in t.results {
      var admitted := Admit(t, e, q, Create).value.0;
      RecordsTurns(admitted, e, q.principal, draft, None, false, a);
      TurnAfterSessions(t, admitted, Ok((CreateOrReuse(admitted, e, q.principal, draft, None, false).value.0, Done)),
        step, false, a);
    } else {
      NoTurnChanges(t, step, false, a);
    }
  }

  lemma PrepareCreateTurns(t: Tables, e: Ambient, q: Request, draft: Draft, a: AgentId)
    ensures TurnAfter(t, PrepareCreateStart(t, e, q, draft), Breaks(t, DoPrepareCreateStart(q, draft), a), a)
  {
    hide CreateOrReuse, TurnAfter, CheckCreateRow, CheckPrepared, RequireMatchingOperation;
    var step, operation := PrepareCreateStart(t, e, q, draft), Some(Operation(q.Key(), Create));
    if step.Ok? && q.Key() !in t.results && q.Key() !in t.rows {
      RecordsTurns(t, e, q.principal, draft, operation, true, a);
      TurnAfterSessions(t, t, Ok((CreateOrReuse(t, e, q.principal, draft, operation, true).value.0, Done)), step,
        Breaks(t, DoPrepareCreateStart(q, draft), a), a);
    } else {
      NoTurnChanges(t, step, Breaks(t, DoPrepareCreateStart(q, draft), a), a);
    }
  }

  lemma AuthorizeCreateTurns(t: Tables, e: Ambient, q: Request, operation: OperationId, identity: Identity, a: AgentId)
    ensures TurnAfter(t, AuthorizeCreateStart(t, e, q, operation, identity),
      Breaks(t, DoAuthorizeCreateStart(q, operation, identity), a), a)
  {
  }

  lemma CompleteCreateTurns(t: Tables, e: Ambient, q: Request, operation: OperationId, started: Started, a: AgentId)
    ensures TurnAfter(t, CompleteCreateStart(t, e, q, operation, started),
      Breaks(t, DoCompleteCreateStart(q, operation, started), a), a)
  {
    hide ValidateStarted, LaunchKinds;
  }

  lemma AlreadyStoppedTurns(t: Tables, e: Ambient, q: Request, executionFailed: bool, b: AgentId)
    requires PrepareStop(t, e, q, executionFailed).Ok? && PayloadAgent(q.payload, {}) == Ok(b) && q.Key() !in t.results
    requires b in t.sessions && !StopNeedsCleanup(t.sessions[b])
    ensures PrepareStop(t, e, q, executionFailed).value.0.sessions == t.sessions
  {
    hide PayloadAgent, ConfirmedExit, StopNeedsCleanup;
  }

  function StopPlanned(s: Session, operation: OperationId, status: IntentStatus, now: nat): Session {
    s.(intentAction := StopAction, intentId := operation, intentStatus := status, updatedAt := now)
  }

  lemma StopIsPlanned(t: Tables, e: Ambient, q: Request, executionFailed: bool, b: AgentId)
    requires PrepareStop(t, e, q, executionFailed).Ok? && PayloadAgent(q.payload, {}) == Ok(b) && q.Key() !in t.results
    requires b in t.sessions && StopNeedsCleanup(t.sessions[b])
    ensures t.sessions[b].TurnAuthority().Ok?
    ensures var u := PrepareStop(t, e, q, executionFailed).value.0;
      u.sessions == t.sessions || exists status ::
        u.sessions == t.sessions[b := StopPlanned(t.sessions[b], Operation(q.Key(), Stop), status, e.now)]
  {
    hide PayloadAgent, ConfirmedExit, CommitResult, StopNeedsCleanup, NewEvents, Finish;
    var u := PrepareStop(t, e, q, executionFailed).value.0;
    if u.sessions != t.sessions {
      assert u.sessions == t.sessions[b :=
        StopPlanned(t.sessions[b], Operation(q.Key(), Stop), u.sessions[b].intentStatus, e.now)];
    }
  }

  lemma StopPlanTurns(t: Tables, e: Ambient, q: Request, executionFailed: bool)
    requires PrepareStop(t, e, q, executionFailed).Ok?
    ensures SameTurns(t, PrepareStop(t, e, q, executionFailed).value.0)
  {
    hide PrepareStop, PayloadAgent, StopNeedsCleanup;
    StopIsRead(t, e, q, executionFailed);
    if q.Key() !in t.results {
      var b := PayloadAgent(q.payload, {}).value;
      if StopNeedsCleanup(t.sessions[b]) { StopIsPlanned(t, e, q, executionFailed, b); }
      else { AlreadyStoppedTurns(t, e, q, executionFailed, b); }
    }
  }

  lemma StopIsRead(t: Tables, e: Ambient, q: Request, executionFailed: bool)
    requires PrepareStop(t, e, q, executionFailed).Ok?
    ensures q.Key() in t.results ==> PrepareStop(t, e, q, executionFailed).value.0 == t
    ensures q.Key() !in t.results ==> PayloadAgent(q.payload, {}).Ok? && PayloadAgent(q.payload, {}).value in t.sessions
  {
    hide PayloadAgent, ConfirmedExit, CommitResult, StopNeedsCleanup, NewEvents, Finish, Claim;
  }

  lemma PrepareStopTurns(t: Tables, e: Ambient, q: Request, executionFailed: bool, a: AgentId)
    ensures TurnAfter(t, PrepareStop(t, e, q, executionFailed), Breaks(t, DoPrepareStop(q, executionFailed), a), a)
  {
    hide PrepareStop, SameTurns;
    if PrepareStop(t, e, q, executionFailed).Ok? { StopPlanTurns(t, e, q, executionFailed); }
    NoTurnChanges(t, PrepareStop(t, e, q, executionFailed), false, a);
  }

  lemma AuthorizeStopTurns(t: Tables, e: Ambient, q: Request, operation: OperationId, a: AgentId)
    ensures TurnAfter(t, AuthorizeStop(t, e, q, operation), Breaks(t, DoAuthorizeStop(q, operation), a), a)
  {
    hide PayloadAgent;
  }

  lemma FailStopTurns(t: Tables, e: Ambient, q: Request, operation: OperationId, reason: Reason, a: AgentId)
    ensures TurnAfter(t, FailStop(t, e, q, operation, reason), Breaks(t, DoFailStop(q, operation, reason), a), a)
  {
    hide PayloadAgent;
  }

  lemma RecordStopTurns(t: Tables, e: Ambient, b: AgentId, operation: OperationId, turnClosed: bool, a: AgentId)
    ensures TurnAfter(t, RecordStop(t, e, b, operation, turnClosed),
      Breaks(t, DoRecordStop(b, operation, turnClosed), a), a)
  {
  }

  lemma MarkStopTurns(t: Tables, e: Ambient, p: Principal, b: AgentId, operation: OperationId, reason: Reason,
                      a: AgentId)
    ensures TurnAfter(t, MarkStopUnconfirmed(t, e, p, b, operation, reason),
      Breaks(t, DoMarkStopUnconfirmed(p, b, operation, reason), a), a)
  {
  }

  lemma FinalizeStopTurns(t: Tables, e: Ambient, q: Request, a: AgentId)
    ensures TurnAfter(t, FinalizeStop(t, e, q), Breaks(t, DoFinalizeStop(q), a), a)
  {
    hide PayloadAgent;
  }

  /** Recovery never touches a session whose turn is not in order. */
  lemma CandidateIsFine(t: Tables, b: AgentId)
    requires CandidateKey(t, b).Ok?
    ensures b in t.sessions && t.sessions[b].TurnAuthority().Ok?
    ensures CandidateKey(t, b).value.Some? ==> CandidateKey(t, b).value.value in t.rows
  {
    hide RowNames;
    var s := t.sessions[b];
    if !s.IntentEmpty() { assert s.intentId.key in PendingKeys(t, b); }
  }

  lemma AbandonedOfTurns(t: Tables, e: Ambient, b: AgentId, key: Option<Key>, a: AgentId)
    requires b in t.sessions && (key.Some? ==> key.value in t.rows) && t.sessions[b].TurnAuthority().Ok?
    ensures var s := t.sessions[b];
      TurnAfter(t, RejectAbandonedOf(t, e, b, key),
        b == a && s.turn.ActiveTurn? && s.intentAction.StartAction? && s.identity.AllBlank(), a)
  {
  }

  lemma RecoveredStopTurns(t: Tables, e: Ambient, b: AgentId, key: Option<Key>, a: AgentId)
    requires b in t.sessions && (key.Some? ==> key.value in t.rows) && t.sessions[b].TurnAuthority().Ok?
    ensures TurnAfter(t, FinalizeRecoveredStop(t, e, b, key), false, a)
  {
  }

  lemma RecoveredStartTurns(t: Tables, e: Ambient, b: AgentId, key: Option<Key>, a: AgentId)
    requires b in t.sessions && (key.Some? ==> key.value in t.rows) && t.sessions[b].TurnAuthority().Ok?
    ensures TurnAfter(t, RejectRecoveredStart(t, e, b, key), b == a && t.sessions[b].turn.ActiveTurn?, a)
  {
  }

  lemma ObserveTurns(t: Tables, e: Ambient, b: AgentId, o: Observation, a: AgentId)
    requires b in t.sessions && t.sessions[b].TurnAuthority().Ok?
    requires var s := t.sessions[b];
      (s.IntentEmpty() || s.IntentLegal()) && !s.intentStatus.Prepared? && !(s.intentAction.StartAction? && o.Gone?)
    ensures TurnAfter(t, Observe(t, e, b, o), false, a)
  {
    hide Observed, Fenced;
    if Observed(t.sessions[b], o, e.now).Ok? { ObservedTurns(t.sessions[b], o, e.now, o.Gone? && b in t.cleanup); }
  }

  lemma AbandonedTurns(t: Tables, e: Ambient, b: AgentId, seen: Session, a: AgentId)
    ensures TurnAfter(t, RejectAbandoned(t, e, b, seen), Breaks(t, DoRejectAbandoned(b, seen), a), a)
  {
    hide CandidateKey, RejectAbandonedOf, Broken;
    if RejectAbandoned(t, e, b, seen).Ok? {
      CandidateIsFine(t, b);
      AbandonedOfTurns(t, e, b, CandidateKey(t, b).value, a);
    }
  }

  /** An observation of a session it decides nothing about never breaks its turn. */
  lemma ObservedTurns(s: Session, o: Observation, now: nat, removed: bool)
    requires s.IntentEmpty() || s.IntentLegal()
    requires Observed(s, o, now).Ok? && s.TurnAuthority().Ok?
    requires !s.intentStatus.Prepared? && !(s.intentAction.StartAction? && o.Gone?)
    ensures Fenced(Observed(s, o, now).value.0, removed).TurnAuthority().Ok?
  {
  }

  lemma ReconcileTurns(t: Tables, e: Ambient, b: AgentId, seen: Session, o: Observation, a: AgentId)
    requires Inv(t)
    ensures TurnAfter(t, Reconcile(t, e, b, seen, o), Breaks(t, DoReconcile(b, seen, o), a), a)
  {
    hide Inv, CandidateKey, RejectAbandonedOf, FinalizeRecoveredStop, RejectRecoveredStart, Observe, Broken;
    if Reconcile(t, e, b, seen, o).Ok? {
      CandidateIsFine(t, b);
      var s := t.sessions[b];
      StoredAuthorityIsConsistent(t, b);
      if s.intentStatus.Prepared? { AbandonedOfTurns(t, e, b, CandidateKey(t, b).value, a); }
      else if s.intentAction.StopAction? && (s.intentStatus.EffectApplied? || o.Gone?) {
        RecoveredStopTurns(t, e, b, CandidateKey(t, b).value, a);
      } else if s.intentAction.StartAction? && o.Gone? {
        RecoveredStartTurns(t, e, b, CandidateKey(t, b).value, a);
      } else {
        IntentHeld(t, b);
        ObserveTurns(t, e, b, o, a);
      }
    }
  }

  lemma LiveObservedTurns(s: Session, o: Observation, now: nat)
    requires s.TurnAuthority().Ok? && s.IntentLegal() && s.intentStatus in {EffectInflight, Unconfirmed}
    requires LiveObserved(s, o, now).Ok?
    ensures var breaks := s.turn.ActiveTurn? && s.intentAction.StartAction? && (o.Gone? || o.Adopted?);
      if LiveObserved(s, o, now).value.None? then !breaks
      else
        var u := LiveObserved(s, o, now).value.value.0;
        (u.TurnAuthority().Ok? <==> !breaks) && (breaks ==> Broken(u))
  {
  }

  lemma LiveReconcileTurns(t: Tables, e: Ambient, b: AgentId, seen: Session, o: Observation, a: AgentId)
    requires Inv(t)
    ensures TurnAfter(t, LiveReconcile(t, e, b, seen, o), Breaks(t, DoLiveReconcile(b, seen, o), a), a)
  {
    hide Inv, CandidateKey, LiveObserved;
    if LiveReconcile(t, e, b, seen, o).Ok? {
      CandidateIsFine(t, b);
      IntentHeld(t, b);
      LiveObservedTurns(t.sessions[b], o, e.now);
    }
  }

  lemma IdleFailureTurns(t: Tables, e: Ambient, b: AgentId, seen: Session, blocking: bool, a: AgentId)
    ensures TurnAfter(t, RecordIdleFailure(t, e, b, seen, blocking),
      Breaks(t, DoRecordIdleFailure(b, seen, blocking), a), a)
  {
    hide CandidateKey;
    if RecordIdleFailure(t, e, b, seen, blocking).Ok? { CandidateIsFine(t, b); }
  }

  lemma PauseTurns(t: Tables, e: Ambient, q: Request, resident: ResidentRuntime, a: AgentId)
    ensures TurnAfter(t, ExecutePause(t, e, q, resident), Breaks(t, DoPause(q, resident), a), a)
  {
    hide PayloadAgent;
  }

  lemma ResumePausedTurns(t: Tables, e: Ambient, q: Request, resident: ResidentRuntime, a: AgentId)
    ensures TurnAfter(t, ResumePaused(t, e, q, resident), Breaks(t, DoResumePaused(q, resident), a), a)
  {
    hide PayloadAgent;
  }

  lemma ConfigureTurns(t: Tables, e: Ambient, q: Request, expectedKey: string, draft: Draft, a: AgentId)
    ensures TurnAfter(t, ExecuteConfigure(t, e, q, expectedKey, draft),
      Breaks(t, DoConfigure(q, expectedKey, draft), a), a)
  {
  }

  lemma InterruptTurns(t: Tables, e: Ambient, q: Request, execution: Option<Execution>, effectOwned: bool, a: AgentId)
    ensures TurnAfter(t, ExecuteInterrupt(t, e, q, execution, effectOwned),
      Breaks(t, DoInterrupt(q, execution, effectOwned), a), a)
  {
    hide PayloadAgent;
  }

  lemma AssignedTurns(t: Tables, e: Ambient, b: AgentId, turn: string, a: AgentId)
    ensures TurnAfter(t, AssignTurn(t, e, b, turn), Breaks(t, DoAssignTurn(b, turn), a), a)
  {
  }

  lemma CompletedTurns(t: Tables, e: Ambient, b: AgentId, turn: string, provider: Option<Token>, a: AgentId)
    ensures TurnAfter(t, CompleteTurn(t, e, b, turn, provider), Breaks(t, DoCompleteTurn(b, turn, provider), a), a)
  {
  }

  lemma FailedTurns(t: Tables, e: Ambient, b: AgentId, turn: string, stopped: Option<Identity>, a: AgentId)
    ensures TurnAfter(t, FailTurn(t, e, b, turn, stopped), Breaks(t, DoFailTurn(b, turn, stopped), a), a)
  {
  }

  lemma RuntimeGoneTurns(t: Tables, e: Ambient, b: AgentId, turn: string, interrupted: bool, a: AgentId)
    ensures TurnAfter(t, TurnRuntimeGone(t, e, b, turn, interrupted),
      Breaks(t, DoTurnRuntimeGone(b, turn, interrupted), a), a)
  {
    hide CandidateKey;
  }

  lemma RemoveMemberTurns(t: Tables, e: Ambient, b: AgentId, status: Membership, a: AgentId)
    ensures TurnAfter(t, RemoveMember(t, e, b, status), Breaks(t, DoRemoveMember(b, status), a), a)
  {
  }

  lemma FinishCleanupTurns(t: Tables, e: Ambient, b: AgentId, blocking: bool, a: AgentId)
    ensures TurnAfter(t, FinishCleanup(t, e, b, blocking), Breaks(t, DoFinishCleanup(b, blocking), a), a)
  {
  }

  lemma FailLaunchTurns(t: Tables, e: Ambient, q: Request, action: Action, operation: OperationId, reason: Reason,
                        effect: bool, a: AgentId)
    ensures TurnAfter(t, FailLaunch(t, e, q, action, operation, reason, effect),
      Breaks(t, DoFailLaunch(q, action, operation, reason, effect), a), a)
  {
    hide LaunchPayload, LaunchFailed, TurnFine, HasBroken;
    LaunchFailedTurns(t, e, q, LaunchRow(e, q, action, LaunchAgent(q, action), operation), reason, effect, a);
  }

  lemma LaunchTurns(t: Tables, e: Ambient, c: Command, a: AgentId)
    requires Inv(t) && IsLaunch(c)
    ensures TurnAfter(t, Perform(t, e, c), Breaks(t, c, a), a)
  {
    hide Inv, TurnAfter, Breaks, PrepareLaunch, AuthorizeLaunch, CompleteLaunch, FailLaunch, MarkStartUnconfirmed;
    match c
    case DoPrepareLaunch(q, action) => PrepareLaunchTurns(t, e, q, action, a);
    case DoAuthorizeLaunch(q, action, operation, identity) =>
      AuthorizeLaunchTurns(t, e, q, action, operation, identity, a);
    case DoCompleteLaunch(q, action, operation, started) => CompleteLaunchTurns(t, e, q, action, operation, started, a);
    case DoFailLaunch(q, action, operation, reason, effect) =>
      FailLaunchTurns(t, e, q, action, operation, reason, effect, a);
    case DoMarkStartUnconfirmed(p, b, operation, handle, owner, reason) =>
      MarkStartTurns(t, e, p, b, operation, handle, owner, reason, a);
  }

  lemma InspectCreateTurns(t: Tables, e: Ambient, q: Request, a: AgentId)
    ensures TurnAfter(t, InspectCreateStart(t, e, q), Breaks(t, DoInspectCreateStart(q), a), a)
  {
    hide ResumeCreateStart;
  }

  lemma FailCreateTurns(t: Tables, e: Ambient, q: Request, b: AgentId, operation: OperationId, prepared: PreparedResult,
                        reason: Reason, effect: bool, a: AgentId)
    ensures TurnAfter(t, FailCreateStart(t, e, q, b, operation, prepared, reason, effect),
      Breaks(t, DoFailCreateStart(q, b, operation, prepared, reason, effect), a), a)
  {
    hide LaunchFailed, TurnFine, HasBroken;
    LaunchFailedTurns(t, e, q, CreationRow(e, q, b, operation, prepared), reason, effect, a);
  }

  lemma CreateTurns(t: Tables, e: Ambient, c: Command, a: AgentId)
    requires Inv(t) && IsCreate(c)
    ensures TurnAfter(t, Perform(t, e, c), Breaks(t, c, a), a)
  {
    hide Inv, TurnAfter, Breaks, CreateStopped, InspectCreateStart, PrepareCreateStart, AuthorizeCreateStart,
      CompleteCreateStart, FailCreateStart;
    match c
    case DoCreateStopped(q, draft) => CreateStoppedTurns(t, e, q, draft, a);
    case DoInspectCreateStart(q) => InspectCreateTurns(t, e, q, a);
    case DoPrepareCreateStart(q, draft) => PrepareCreateTurns(t, e, q, draft, a);
    case DoAuthorizeCreateStart(q, operation, identity) => AuthorizeCreateTurns(t, e, q, operation, identity, a);
    case DoCompleteCreateStart(q, operation, started) => CompleteCreateTurns(t, e, q, operation, started, a);
    case DoFailCreateStart(q, b, operation, prepared, reason, effect) =>
      FailCreateTurns(t, e, q, b, operation, prepared, reason, effect, a);
  }

  lemma StopTurns(t: Tables, e: Ambient, c: Command, a: AgentId)
    requires Inv(t) && IsStop(c)
    ensures TurnAfter(t, Perform(t, e, c), Breaks(t, c, a), a)
  {
    hide Inv, TurnAfter, Breaks, PrepareStop, AuthorizeStop, FailStop, RecordStop, MarkStopUnconfirmed, FinalizeStop;
    match c
    case DoPrepareStop(q, executionFailed) => PrepareStopTurns(t, e, q, executionFailed, a);
    case DoAuthorizeStop(q, operation) => AuthorizeStopTurns(t, e, q, operation, a);
    case DoFailStop(q, operation, reason) => FailStopTurns(t, e, q, operation, reason, a);
    case DoRecordStop(b, operation, turnClosed) => RecordStopTurns(t, e, b, operation, turnClosed, a);
    case DoMarkStopUnconfirmed(p, b, operation, reason) => MarkStopTurns(t, e, p, b, operation, reason, a);
    case DoFinalizeStop(q) => FinalizeStopTurns(t, e, q, a);
  }

  lemma RecoveryTurns(t: Tables, e: Ambient, c: Command, a: AgentId)
    requires Inv(t) && IsRecovery(c)
    ensures TurnAfter(t, Perform(t, e, c), Breaks(t, c, a), a)
  {
    hide Inv, TurnAfter, Breaks, RejectAbandoned, Reconcile, LiveReconcile, RecordIdleFailure;
    match c
    case DoRejectAbandoned(b, seen) => AbandonedTurns(t, e, b, seen, a);
    case DoReconcile(b, seen, o) => ReconcileTurns(t, e, b, seen, o, a);
    case DoLiveReconcile(b, seen, o) => LiveReconcileTurns(t, e, b, seen, o, a);
    case DoRecordIdleFailure(b, seen, blocking) => IdleFailureTurns(t, e, b, seen, blocking, a);
  }

  lemma OrdinaryTurns(t: Tables, e: Ambient, c: Command, a: AgentId)
    requires Inv(t) && IsOrdinary(c)
    ensures TurnAfter(t, Perform(t, e, c), Breaks(t, c, a), a)
  {
    hide Inv, TurnAfter, Breaks, ExecutePause, ResumePaused, ExecuteConfigure, ExecuteInterrupt;
    match c
    case DoPause(q, resident) => PauseTurns(t, e, q, resident, a);
    case DoResumePaused(q, resident) => ResumePausedTurns(t, e, q, resident, a);
    case DoConfigure(q, expectedKey, draft) => ConfigureTurns(t, e, q, expectedKey, draft, a);
    case DoInterrupt(q, execution, effectOwned) => InterruptTurns(t, e, q, execution, effectOwned, a);
  }

  lemma RestTurns(t: Tables, e: Ambient, c: Command, a: AgentId)
    requires c.DoSetMuted? || c.DoRecordRoomEvent? || c.DoSetRestarting?
    ensures TurnAfter(t, Perform(t, e, c), Breaks(t, c, a), a)
  {
    hide HasBroken, TurnFine, TurnAfter, Finish, Claim, Admit, LaunchPayload, PayloadAgent, CommitResult, CandidateKey;
    match c
    case DoSetMuted(b, muted) => NoTurnChanges(t, SetMuted(t, e, b, muted), false, a);
    case DoRecordRoomEvent(b, actor) => NoTurnChanges(t, RecordRoomEvent(t, b, actor), false, a);
    case DoSetRestarting(on) => NoTurnChanges(t, Ok((t.(restarting := on), Done)), false, a);
  }

  lemma RoomTurns(t: Tables, e: Ambient, c: Command, a: AgentId)
    requires Inv(t) && !IsLaunch(c) && !IsCreate(c) && !IsStop(c) && !IsRecovery(c) && !IsOrdinary(c)
    ensures TurnAfter(t, Perform(t, e, c), Breaks(t, c, a), a)
  {
    hide Inv, TurnAfter, Breaks, AssignTurn, CompleteTurn, FailTurn, TurnRuntimeGone, RemoveMember, FinishCleanup;
    match c
    case DoAssignTurn(b, turn) => AssignedTurns(t, e, b, turn, a);
    case DoCompleteTurn(b, turn, provider) => CompletedTurns(t, e, b, turn, provider, a);
    case DoFailTurn(b, turn, stopped) => FailedTurns(t, e, b, turn, stopped, a);
    case DoTurnRuntimeGone(b, turn, interrupted) => RuntimeGoneTurns(t, e, b, turn, interrupted, a);
    case DoRemoveMember(b, status) => RemoveMemberTurns(t, e, b, status, a);
    case DoFinishCleanup(b, blocking) => FinishCleanupTurns(t, e, b, blocking, a);
    case _ => RestTurns(t, e, c, a);
  }

  /** A step leaves a fine turn fine exactly when it is not one of those that break it, and no step whatever
      repairs a broken one. */
  lemma StepTurns(t: Tables, e: Ambient, c: Command, a: AgentId)
    requires Inv(t)
    ensures TurnAfter(t, Perform(t, e, c), Breaks(t, c, a), a)
  {
    hide Inv, Perform, TurnAfter, Breaks;
    if IsLaunch(c) { LaunchTurns(t, e, c, a); }
    else if IsCreate(c) { CreateTurns(t, e, c, a); }
    else if IsStop(c) { StopTurns(t, e, c, a); }
    else if IsRecovery(c) { RecoveryTurns(t, e, c, a); }
    else if IsOrdinary(c) { OrdinaryTurns(t, e, c, a); }
    else { RoomTurns(t, e, c, a); }
  }

  // ---------------------------------------------------------------- over every run

  lemma {:induction false} BrokenForGood(t: Tables, steps: seq<(Ambient, Command)>, a: AgentId)
    requires Inv(t) && HasBroken(t, a)
    ensures HasBroken(Run(t, steps), a)
    decreases |steps|
  {
    hide Inv, Perform, HasBroken, TurnFine, Breaks;
    if steps != [] {
      StepTurns(t, steps[0].0, steps[0].1, a);
      StepKeepsInv(t, steps[0].0, steps[0].1);
      BrokenForGood(After(t, Perform(t, steps[0].0, steps[0].1)), steps[1..], a);
    }
  }

  /** Some accepted step of a run breaks the turn of this agent. */
  predicate BrokenAlong(t: Tables, steps: seq<(Ambient, Command)>, a: AgentId)
    decreases |steps|
  {
    steps != [] &&
    var step := Perform(t, steps[0].0, steps[0].1);
    (step.Ok? && Breaks(t, steps[0].1, a)) || BrokenAlong(After(t, step), steps[1..], a)
  }

  /** A turn is in order at the end of a run exactly when no step of the run broke it; else it is broken. */
  lemma {:induction false} RunTurns(t: Tables, steps: seq<(Ambient, Command)>, a: AgentId)
    requires Inv(t) && TurnFine(t, a)
    ensures TurnFine(Run(t, steps), a) <==> !BrokenAlong(t, steps, a)
    ensures BrokenAlong(t, steps, a) ==> HasBroken(Run(t, steps), a)
    decreases |steps|
  {
    hide Inv, Perform, HasBroken, TurnFine, Breaks;
    if steps != [] {
      var e, c := steps[0].0, steps[0].1;
      var u := After(t, Perform(t, e, c));
      StepTurns(t, e, c, a);
      StepKeepsInv(t, e, c);
      if Perform(t, e, c).Ok? && Breaks(t, c, a) {
        BrokenForGood(u, steps[1..], a);
        BrokenIsNotFine(Run(u, steps[1..]), a);
      } else {
        RunTurns(u, steps[1..], a);
      }
    }
  }

  /** The consistency check that recovery makes before it touches a session fails in a reachable room exactly
      when a step of its run broke the session's turn. */
  lemma AuthorityFailsOnlyOnBrokenTurns(steps: seq<(Ambient, Command)>, a: AgentId)
    requires a in Run(EMPTY, steps).sessions
    ensures CandidateKey(Run(EMPTY, steps), a).Err? <==> BrokenAlong(EMPTY, steps, a)
  {
    hide Inv, Perform, CandidateKey, BrokenAlong;
    EmptyInv();
    RunKeepsInv(EMPTY, steps);
    RunTurns(EMPTY, steps, a);
    StoredAuthorityIsConsistent(Run(EMPTY, steps), a);
  }
}
