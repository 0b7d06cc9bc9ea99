/** The lifecycle protocol over whole runs: any stores, any generations, any order of commands, with
    crashes, retries and replays between them. */
module LifecycleRuns {
  import opened Wrappers
  import opened LifecycleModel
  import opened LifecycleSteps
  import opened LifecycleInvariant
  import opened LifecycleMoves

  /** The agent whose session a proof, an adoption or an authorization is about. */
  function Target(t: Tables, c: Command): AgentId {
    match c
    case DoAuthorizeLaunch(q, action, _, _) => LaunchAgent(q, action)
    case DoAuthorizeCreateStart(q, _, _) => RowAgent(t, q)
    case DoAuthorizeStop(q, _) => StopAgent(q)
    case DoFailLaunch(q, action, _, _, _) => LaunchAgent(q, action)
    case DoFailCreateStart(_, a, _, _, _, _) => a
    case DoRecordStop(a, _, _) => a
    case DoReconcile(a, _, _) => a
    case DoLiveReconcile(a, _, _) => a
    case DoFailTurn(a, _, _) => a
    case DoTurnRuntimeGone(a, _, _) => a
    case _ => AgentId("")
  }

  function LaunchAgent(q: Request, action: Action): AgentId {
    var launch := LaunchPayload(q.payload, action);
    if launch.Ok? then launch.value.0 else AgentId("")
  }

  function StopAgent(q: Request): AgentId {
    var agent := PayloadAgent(q.payload, {});
    if agent.Ok? then agent.value else AgentId("")
  }

  function RowAgent(t: Tables, q: Request): AgentId {
    if q.Key() in t.rows then t.rows[q.Key()].session else AgentId("")
  }

  // ---------------------------------------------------------------- every step is a move

  /** The move is about the agent the command names, and new events are reported under its own request. */
  ghost predicate About(t: Tables, c: Command, m: Move, n: seq<Event>) {
    && (LicenceOf(c).Plain? || m.Quiet? || m.a == Target(t, c))
    && (n != [] ==> KeyOf(c).Some? && (m.Claims? || m.Commits?) && m.k == KeyOf(c).value)
  }

  lemma LaunchCommandMoves(t: Tables, e: Ambient, c: Command) returns (m: Move)
    requires c.DoPrepareLaunch? || c.DoAuthorizeLaunch? || c.DoCompleteLaunch? || c.DoFailLaunch? ||
      c.DoMarkStartUnconfirmed?
    requires Inv(t) && Perform(t, e, c).Ok?
    ensures Moved(t, Perform(t, e, c), m, LicenceOf(c), e.generation)
    ensures About(t, c, m, Newly(Perform(t, e, c).value.1))
  {
    hide Moves, Inv, PrepareLaunch, AuthorizeLaunch, CompleteLaunch, FailLaunch, MarkStartUnconfirmed;
    match c
    case DoPrepareLaunch(q, action) => m := PrepareLaunchMoves(t, e, q, action);
    case DoAuthorizeLaunch(q, action, operation, identity) =>
      m := AuthorizeLaunchMoves(t, e, q, action, operation, identity);
    case DoCompleteLaunch(q, action, operation, started) =>
      m := CompleteLaunchMoves(t, e, q, action, operation, started);
    case DoFailLaunch(q, action, operation, reason, effect) =>
      m := FailLaunchMoves(t, e, q, action, operation, reason, effect);
    case DoMarkStartUnconfirmed(p, a, operation, handle, owner, reason) =>
      m := MarkStartMoves(t, e, p, a, operation, handle, owner, reason);
  }

  lemma CreateCommandMoves(t: Tables, e: Ambient, c: Command) returns (m: Move)
    requires c.DoCreateStopped? || c.DoInspectCreateStart? || c.DoPrepareCreateStart? || c.DoAuthorizeCreateStart? ||
             c.DoCompleteCreateStart? || c.DoFailCreateStart?
    requires Inv(t) && Perform(t, e, c).Ok?
    ensures Moved(t, Perform(t, e, c), m, LicenceOf(c), e.generation)
    ensures About(t, c, m, Newly(Perform(t, e, c).value.1))
  {
    hide Moves, Inv, CreateStopped, InspectCreateStart, PrepareCreateStart, AuthorizeCreateStart,
      CompleteCreateStart, LaunchFailed;
    match c
    case DoCreateStopped(q, draft) => m := CreateStoppedMoves(t, e, q, draft);
    case DoInspectCreateStart(q) => m := InspectCreateMoves(t, e, q);
    case DoPrepareCreateStart(q, draft) => m := PrepareCreateMoves(t, e, q, draft);
    case DoAuthorizeCreateStart(q, operation, identity) => m := AuthorizeCreateMoves(t, e, q, operation, identity);
    case DoCompleteCreateStart(q, operation, started) => m := CompleteCreateMoves(t, e, q, operation, started);
    case DoFailCreateStart(q, a, operation, prepared, reason, effect) =>
      m := LaunchFailedMoves(t, e, q, CreationRow(e, q, a, operation, prepared), reason, effect);
  }

  lemma StopCommandMoves(t: Tables, e: Ambient, c: Command) returns (m: Move)
    requires c.DoPrepareStop? || c.DoAuthorizeStop? || c.DoFailStop? || c.DoRecordStop? || c.DoMarkStopUnconfirmed? ||
             c.DoFinalizeStop?
    requires Inv(t) && Perform(t, e, c).Ok?
    ensures Moved(t, Perform(t, e, c), m, LicenceOf(c), e.generation)
    ensures About(t, c, m, Newly(Perform(t, e, c).value.1))
  {
    hide Moves, Inv, PrepareStop, AuthorizeStop, FailStop, RecordStop, MarkStopUnconfirmed, FinalizeStop;
    match c
    case DoPrepareStop(q, executionFailed) => m := PrepareStopMoves(t, e, q, executionFailed);
    case DoAuthorizeStop(q, operation) => m := AuthorizeStopMoves(t, e, q, operation);
    case DoFailStop(q, operation, reason) => m := FailStopMoves(t, e, q, operation, reason);
    case DoRecordStop(a, operation, turnClosed) => m := RecordStopMoves(t, e, a, operation, turnClosed);
    case DoMarkStopUnconfirmed(p, a, operation, reason) => m := MarkStopMoves(t, e, p, a, operation, reason);
    case DoFinalizeStop(q) => m := FinalizeStopMoves(t, e, q);
  }

  lemma RecoveryCommandMoves(t: Tables, e: Ambient, c: Command) returns (m: Move)
    requires c.DoRejectAbandoned? || c.DoReconcile? || c.DoLiveReconcile? || c.DoRecordIdleFailure?
    requires Inv(t) && Perform(t, e, c).Ok?
    ensures Moved(t, Perform(t, e, c), m, LicenceOf(c), e.generation)
    ensures About(t, c, m, Newly(Perform(t, e, c).value.1))
  {
    hide Moves, Inv, RejectAbandoned, Reconcile, LiveReconcile, RecordIdleFailure;
    match c
    case DoRejectAbandoned(a, seen) => m := AbandonedCommandMoves(t, e, a, seen);
    case DoReconcile(a, seen, o) => m := ReconcileMoves(t, e, a, seen, o);
    case DoLiveReconcile(a, seen, o) => m := LiveReconcileMoves(t, e, a, seen, o);
    case DoRecordIdleFailure(a, seen, blocking) => m := IdleFailureMoves(t, e, a, seen, blocking);
  }

  lemma OrdinaryCommandMoves(t: Tables, e: Ambient, c: Command) returns (m: Move)
    requires c.DoPause? || c.DoResumePaused? || c.DoConfigure? || c.DoInterrupt?
    requires Inv(t) && Perform(t, e, c).Ok?
    ensures Moved(t, Perform(t, e, c), m, LicenceOf(c), e.generation)
    ensures About(t, c, m, Newly(Perform(t, e, c).value.1))
  {
    hide Moves, Inv, ExecutePause, ResumePaused, ExecuteConfigure, ExecuteInterrupt;
    match c
    case DoPause(q, resident) => m := PauseMoves(t, e, q, resident);
    case DoResumePaused(q, resident) => m := ResumePausedMoves(t, e, q, resident);
    case DoConfigure(q, expectedKey, draft) => m := ConfigureMoves(t, e, q, expectedKey, draft);
    case DoInterrupt(q, execution, effectOwned) => m := InterruptMoves(t, e, q, execution, effectOwned);
  }

  lemma RoomCommandMoves(t: Tables, e: Ambient, c: Command) returns (m: Move)
    requires c.DoAssignTurn? || c.DoCompleteTurn? || c.DoFailTurn? || c.DoTurnRuntimeGone? || c.DoRemoveMember? ||
             c.DoFinishCleanup? || c.DoSetMuted? || c.DoRecordRoomEvent? || c.DoSetRestarting?
    requires Inv(t) && Perform(t, e, c).Ok?
    ensures Moved(t, Perform(t, e, c), m, LicenceOf(c), e.generation)
    ensures About(t, c, m, Newly(Perform(t, e, c).value.1))
  {
    hide Moves, Inv, AssignTurn, CompleteTurn, FailTurn, TurnRuntimeGone, RemoveMember, FinishCleanup, SetMuted,
      RecordRoomEvent;
    match c
    case DoTurnRuntimeGone(a, turn, interrupted) => m := TurnGoneMoves(t, e, a, turn, interrupted);
    case DoRemoveMember(a, status) => m := RemoveMoves(t, e, a, status);
    case DoFinishCleanup(a, blocking) => m := CleanupMoves(t, e, a, blocking);
    case DoSetMuted(_, _) => RoomMoves(t, e, c); m := Quiet;
    case DoRecordRoomEvent(_, _) => RoomMoves(t, e, c); m := Quiet;
    case DoSetRestarting(_) => RoomMoves(t, e, c); m := Quiet;
    case _ => m := TurnMoves(t, e, c);
  }

  /** Every committed step is one of the moves. */
  lemma PerformMoves(t: Tables, e: Ambient, c: Command) returns (m: Move)
    requires Inv(t) && Perform(t, e, c).Ok?
    ensures Moved(t, Perform(t, e, c), m, LicenceOf(c), e.generation)
    ensures About(t, c, m, Newly(Perform(t, e, c).value.1))
  {
    hide Moves, Inv, Perform, LicenceOf, About;
    if c.DoPrepareLaunch? || c.DoAuthorizeLaunch? || c.DoCompleteLaunch? || c.DoFailLaunch? ||
      c.DoMarkStartUnconfirmed? {
      m := LaunchCommandMoves(t, e, c);
    } else if c.DoCreateStopped? || c.DoInspectCreateStart? || c.DoPrepareCreateStart? || c.DoAuthorizeCreateStart? ||
              c.DoCompleteCreateStart? || c.DoFailCreateStart? {
      m := CreateCommandMoves(t, e, c);
    } else if c.DoPrepareStop? || c.DoAuthorizeStop? || c.DoFailStop? || c.DoRecordStop? || c.DoMarkStopUnconfirmed? ||
              c.DoFinalizeStop? {
      m := StopCommandMoves(t, e, c);
    } else if c.DoRejectAbandoned? || c.DoReconcile? || c.DoLiveReconcile? || c.DoRecordIdleFailure? {
      m := RecoveryCommandMoves(t, e, c);
    } else if c.DoPause? || c.DoResumePaused? || c.DoConfigure? || c.DoInterrupt? {
      m := OrdinaryCommandMoves(t, e, c);
    } else {
      m := RoomCommandMoves(t, e, c);
    }
  }

  lemma StepKeepsInv(t: Tables, e: Ambient, c: Command)
    requires Inv(t)
    ensures Inv(After(t, Perform(t, e, c)))
  {
    hide Inv, Perform;
    if Perform(t, e, c).Ok? {
      var m := PerformMoves(t, e, c);
      MoveKeepsInv(t, Perform(t, e, c).value.0, m, LicenceOf(c), Newly(Perform(t, e, c).value.1), e.generation);
    }
  }

  // ---------------------------------------------------------------- runs

  /** A run: each step is a command executed by some store, of whatever generation. A crash or a
      re-opened store is only a change of generation between two steps. */
  function Run(t: Tables, steps: seq<(Ambient, Command)>): Tables
    decreases |steps|
  {
    if steps == [] then t else Run(After(t, Perform(t, steps[0].0, steps[0].1)), steps[1..])
  }

  lemma {:induction false} RunKeepsInv(t: Tables, steps: seq<(Ambient, Command)>)
    requires Inv(t)
    ensures Inv(Run(t, steps))
    decreases |steps|
  {
    hide Inv, Perform;
    if steps != [] {
      StepKeepsInv(t, steps[0].0, steps[0].1);
      RunKeepsInv(After(t, Perform(t, steps[0].0, steps[0].1)), steps[1..]);
    }
  }

  lemma EmptyInv()
    ensures Inv(EMPTY)
  {
    assert Charged(EMPTY) == {};
  }

  /** In every reachable room a session holds an intent exactly when one pending reservation names it,
      never two, and that reservation is for the intent's operation and kind of action. */
  lemma IntentHasExactlyOneRow(steps: seq<(Ambient, Command)>, a: AgentId)
    requires a in Run(EMPTY, steps).sessions
    ensures var t := Run(EMPTY, steps); var s := t.sessions[a];
      && (s.IntentEmpty() || s.IntentLegal())
      && s.identity.Uniform()
      && PendingKeys(t, a) == (if s.IntentEmpty() then {} else {s.intentId.key})
      && (!s.IntentEmpty() ==> RowMatchesIntent(t.rows[s.intentId.key], s))
  {
    hide Inv, Perform;
    EmptyInv();
    RunKeepsInv(EMPTY, steps);
    var t := Run(EMPTY, steps);
    PendingKeysOf(t, a);
    IntentHeld(t, a);
    if !t.sessions[a].IntentEmpty() { PendingOwns(t, t.sessions[a].intentId.key); }
  }

  /** Every request admitted and charged is charged once; no key is reserved and answered at once. */
  lemma DebitsCountRequests(steps: seq<(Ambient, Command)>)
    ensures var t := Run(EMPTY, steps); t.debits == |Charged(t)| && t.rows.Keys !! t.results.Keys
    ensures |Run(EMPTY, steps).sessions| <= MAX_AGENT_SESSIONS_PER_ROOM && LogOrdered(Run(EMPTY, steps).log)
  {
    EmptyInv();
    RunKeepsInv(EMPTY, steps);
    KeysAreDisjoint(Run(EMPTY, steps));
  }

  // ---------------------------------------------------------------- requests only move forward

  datatype Phase = Absent | Reserved | Answered(result: StoredResult) | RefusedFor(row: Row)

  function PhaseOf(t: Tables, k: Key): Phase {
    if k in t.results then Answered(t.results[k])
    else if k !in t.rows then Absent
    else if t.rows[k].status.Pending? then Reserved else RefusedFor(t.rows[k])
  }

  /** Absent, then reserved, then answered or refused; the last two are final, and a command that needs
      no effect is answered at once. */
  ghost predicate Forward(p: Phase, q: Phase) {
    match p
    case Absent => true
    case Reserved => !q.Absent?
    case Answered(_) => q == p
    case RefusedFor(_) => q == p
  }

  lemma StepMovesForward(t: Tables, e: Ambient, c: Command, k: Key)
    requires Inv(t)
    ensures Forward(PhaseOf(t, k), PhaseOf(After(t, Perform(t, e, c)), k))
    ensures PhaseOf(t, k).Absent? ==> !PhaseOf(After(t, Perform(t, e, c)), k).RefusedFor?
  {
    hide Inv, Perform, LicenceOf, About, RowStored, LogOrdered, Faithful, Owns, SameIntent;
    if Perform(t, e, c).Ok? {
      var m := PerformMoves(t, e, c);
    }
  }

  lemma {:induction false} RunMovesForward(t: Tables, steps: seq<(Ambient, Command)>, k: Key)
    requires Inv(t)
    ensures Forward(PhaseOf(t, k), PhaseOf(Run(t, steps), k))
    decreases |steps|
  {
    hide Inv, Perform;
    if steps != [] {
      StepMovesForward(t, steps[0].0, steps[0].1, k);
      StepKeepsInv(t, steps[0].0, steps[0].1);
      RunMovesForward(After(t, Perform(t, steps[0].0, steps[0].1)), steps[1..], k);
    }
  }
}
