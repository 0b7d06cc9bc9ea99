/** What a stop asks for and achieves: when each of its steps is accepted, what the step leaves behind, and that a
    planned stop goes through and leaves an agent that can be launched again. */
module LifecycleStop {
  import opened Wrappers
  import opened LifecycleModel
  import opened LifecycleSteps
  import opened LifecycleInvariant
  import opened LifecycleMoves
  import opened LifecycleRuns
  import opened LifecycleLaunch

  // ---------------------------------------------------------------- when a stop may be prepared

  /** Nothing to stop: no runtime, no identity, no operation. */
  predicate AtRest(s: Session) { s.runtime.Stopped? && s.identity == NO_IDENTITY && s.IntentEmpty() }

  /** Its runtime is known to be gone: it failed, holds nothing, has no turn, and is either out of service or the
      record of its failed turn says so. */
  predicate HasExited(s: Session, executionFailed: bool) {
    && s.runtime.RuntimeError? && !s.providerActive && s.identity == NO_IDENTITY && s.turn.NoTurn?
    && (if s.recoveryRequired then executionFailed else s.status.Unavailable? && !s.enabled)
  }

  /** What no stop step but the last touches of a session. */
  predicate KeepsWork(s: Session, v: Session) {
    && KeepsProfile(s, v) && v.status == s.status && v.identity == s.identity && v.error == s.error
    && v.recoveryRequired == s.recoveryRequired && v.providerActive == s.providerActive
    && v.providerReused == s.providerReused && v.providerSession == s.providerSession
  }

  predicate StopsUnder(s: Session, operation: OperationId, status: IntentStatus) {
    s.intentAction.StopAction? && s.intentId == operation && s.intentStatus == status
  }

  /** A planned stop: reserved, not charged, and the operation of its session; what has exited is already applied. */
  ghost predicate StopPlanned(t: Tables, u: Tables, e: Ambient, q: Request, a: AgentId, status: IntentStatus) {
    && a in t.sessions && OnlySession(t, u, a) && u.debits == t.debits
    && u.rows == t.rows[q.Key() := Row(Stop, q.payload, a, Operation(q.Key(), Stop), e.generation,
                                       LifecyclePrepared, NoResult, q.principal, Pending)]
    && KeepsWork(t.sessions[a], u.sessions[a]) && u.sessions[a].runtime == t.sessions[a].runtime
    && u.sessions[a].enabled == t.sessions[a].enabled && u.sessions[a].updatedAt == e.now
    && StopsUnder(u.sessions[a], Operation(q.Key(), Stop), status)
  }

  /** A stop that finds nothing to stop is charged and answered at once. */
  ghost predicate WasStopped(t: Tables, u: Tables, q: Request, a: AgentId) {
    && u.sessions == t.sessions && u.participants == t.participants && u.rows == t.rows
    && u.debits == t.debits + 1 && u.restarting == t.restarting && u.cleanup == t.cleanup
    && q.Key() in u.results && u.results == t.results[q.Key() := u.results[q.Key()]]
    && var result := u.results[q.Key()];
    && result == StoredResult(Stop, q.payload, AlreadyStopped, result.events) && u.log == t.log + result.events
    && IsNews(t.log, result.events, [AgentSessionState], a, q.principal.participant)
  }

  /** A new stop is accepted if and only if its agent's turn is in order and it is in no operation, and either
      there is nothing to stop and the budget has room, or its runtime has exited or is held. */
  lemma StopIsPrepared(t: Tables, e: Ambient, q: Request, a: AgentId, executionFailed: bool)
    requires Inv(t) && PayloadAgent(q.payload, {}) == Ok(a) && IsNew(t, q.Key())
    ensures var step := PrepareStop(t, e, q, executionFailed);
      && (step.Ok? <==>
            && q.principal.agentControl && !q.principal.bridge && !t.restarting
            && a in t.sessions && TurnInOrder(t.sessions[a]) && t.sessions[a].IntentEmpty()
            && if AtRest(t.sessions[a]) then e.budget
               else HasExited(t.sessions[a], executionFailed) || t.sessions[a].identity != NO_IDENTITY)
  {
    hide Inv, PayloadAgent, CommitResult;
    if a in t.sessions { IntentHeld(t, a); }
    Committable(t, e, q, a);
  }

  lemma Committable(t: Tables, e: Ambient, q: Request, a: AgentId)
    ensures forall u: Tables | u.results == t.results ::
      CommitResult(u, q, Stop, AlreadyStopped, [AgentSessionState], a).Ok? <==> q.Key() !in t.results
  {
  }

  lemma NewStopIsPlanned(t: Tables, e: Ambient, q: Request, a: AgentId, executionFailed: bool)
    requires Inv(t) && PayloadAgent(q.payload, {}) == Ok(a) && IsNew(t, q.Key())
    requires PrepareStop(t, e, q, executionFailed).Ok?
    ensures a in t.sessions
    ensures var (u, reply) := PrepareStop(t, e, q, executionFailed).value;
      if AtRest(t.sessions[a]) then WasStopped(t, u, q, a) && reply == Committed(u.results[q.Key()])
      else if HasExited(t.sessions[a], executionFailed) then
        StopPlanned(t, u, e, q, a, EffectApplied) && reply == FinalizePlan
      else
        && StopPlanned(t, u, e, q, a, Prepared)
        && reply == StopPlan(StopEffect(Operation(q.Key(), Stop), a, t.sessions[a].identity))
  {
    hide Inv, PayloadAgent, NewEvents, IsNews;
    if a in t.sessions { IntentHeld(t, a); }
    NewsAre(t.log, [AgentSessionState], a, q.principal.participant);
    assert t.rows[q.Key() := LaunchRow(e, q, Stop, a, Operation(q.Key(), Stop))] - {q.Key()} == t.rows;
  }

  // ---------------------------------------------------------------- its effect

  lemma StopRowOf(t: Tables, e: Ambient, q: Request, a: AgentId)
    requires Inv(t) && Outstanding(t, q, Stop, a)
    ensures Holds(t, q.Key(), LaunchRow(e, q, Stop, a, Operation(q.Key(), Stop))) && q.Key() !in t.results
    ensures t.sessions[a].intentAction.StopAction? && t.sessions[a].intentId == Operation(q.Key(), Stop)
  {
    hide Inv, RowNames;
    PendingOwns(t, q.Key());
  }

  /** A stop effect is let loose if and only if its own reservation of this generation is outstanding and prepared
      and a runtime is held; then the agent is stopping, and the effect is on that runtime. */
  lemma StopIsAuthorized(t: Tables, e: Ambient, q: Request, a: AgentId)
    requires Inv(t) && PayloadAgent(q.payload, {}) == Ok(a)
    ensures var step := AuthorizeStop(t, e, q, Operation(q.Key(), Stop));
      && (step.Ok? <==>
            && Outstanding(t, q, Stop, a) && t.rows[q.Key()].generation == e.generation
            && t.sessions[a].intentStatus.Prepared? && t.sessions[a].identity != NO_IDENTITY)
      && (step.Ok? ==>
            var (u, reply) := step.value;
            && OnlySession(t, u, a) && u.rows == t.rows && u.debits == t.debits
            && KeepsWork(t.sessions[a], u.sessions[a]) && u.sessions[a].runtime.Stopping? && !u.sessions[a].enabled
            && StopsUnder(u.sessions[a], Operation(q.Key(), Stop), EffectInflight)
            && reply == StopPlan(StopEffect(Operation(q.Key(), Stop), a, t.sessions[a].identity)))
  {
    hide Inv, PayloadAgent, RowNames;
    if Outstanding(t, q, Stop, a) { StopRowOf(t, e, q, a); PendingOwns(t, q.Key()); }
    if a in t.sessions { IntentHeld(t, a); }
  }

  /** A session whose stop was refused: in no operation, with the reason, and else as it was. */
  predicate GoesOn(s: Session, v: Session, reason: Reason) {
    && KeepsProfile(s, v) && v.status == s.status && v.identity == s.identity && v.runtime == s.runtime
    && v.enabled == s.enabled && v.recoveryRequired == s.recoveryRequired && v.providerActive == s.providerActive
    && v.providerReused == s.providerReused && v.providerSession == s.providerSession
    && v.error == Note(reason) && v.IntentEmpty()
  }

  lemma RefusalGoesOn(s: Session, reason: Reason, now: nat)
    ensures GoesOn(s, s.(error := Note(reason), updatedAt := now).ClearIntent(), reason)
  {
  }

  lemma FailedStop(t: Tables, e: Ambient, q: Request, a: AgentId, operation: OperationId, reason: Reason)
    requires PayloadAgent(q.payload, {}) == Ok(a)
    ensures var step := FailStop(t, e, q, operation, reason);
      && (step.Ok? <==>
            && a in t.sessions && StopsUnder(t.sessions[a], operation, Prepared)
            && Holds(t, q.Key(), LaunchRow(e, q, Stop, a, operation)) && MayStore(reason))
      && (step.Ok? ==>
            && RefusedWith(t, step.value.0, q.Key(), a, reason, q.principal.participant)
            && GoesOn(t.sessions[a], step.value.0.sessions[a], reason))
  {
    hide PayloadAgent, NewEvents, IsNews, LaunchRow, GoesOn;
    NewsAre(t.log, [ErrorRaised, AgentSessionState], a, q.principal.participant);
    if a in t.sessions { RefusalGoesOn(t.sessions[a], reason, e.now); }
  }

  /** A stop is refused before its effect if and only if it is outstanding and prepared and the reason can be
      stored; the agent goes on. */
  lemma StopIsRefused(t: Tables, e: Ambient, q: Request, a: AgentId, reason: Reason)
    requires Inv(t) && PayloadAgent(q.payload, {}) == Ok(a)
    ensures var step := FailStop(t, e, q, Operation(q.Key(), Stop), reason);
      && (step.Ok? <==>
            Outstanding(t, q, Stop, a) && MayStore(reason) && t.sessions[a].intentStatus.Prepared?)
      && (step.Ok? ==>
            && RefusedWith(t, step.value.0, q.Key(), a, reason, q.principal.participant)
            && GoesOn(t.sessions[a], step.value.0.sessions[a], reason))
  {
    hide Inv, PayloadAgent, FailStop, Holds, LaunchRow, Outstanding, RefusedWith, GoesOn;
    FailedStop(t, e, q, a, Operation(q.Key(), Stop), reason);
    StopRowHeld(t, e, q, a);
    if Outstanding(t, q, Stop, a) { StopRowOf(t, e, q, a); }
  }

  lemma StopRowHeld(t: Tables, e: Ambient, q: Request, a: AgentId)
    ensures a in t.sessions && Holds(t, q.Key(), LaunchRow(e, q, Stop, a, Operation(q.Key(), Stop))) ==>
      Outstanding(t, q, Stop, a)
    ensures Outstanding(t, q, Stop, a) ==> a in t.sessions
  {
  }

  /** The shutdown is recorded, once or again, if and only if the stop effect was let loose and the agent's turn, if
      it has one, is in order and closed. */
  lemma StopIsRecorded(t: Tables, e: Ambient, a: AgentId, operation: OperationId, turnClosed: bool)
    ensures var step := RecordStop(t, e, a, operation, turnClosed);
      && (step.Ok? <==>
            && a in t.sessions && t.sessions[a].intentAction.StopAction? && t.sessions[a].intentId == operation
            && t.sessions[a].intentStatus in {EffectInflight, EffectApplied}
            && TurnInOrder(t.sessions[a]) && (t.sessions[a].turn.ActiveTurn? ==> turnClosed))
      && (step.Ok? ==>
            var u := step.value.0;
            && OnlySession(t, u, a) && u.rows == t.rows && u.debits == t.debits
            && KeepsWork(t.sessions[a], u.sessions[a]) && u.sessions[a].runtime == t.sessions[a].runtime
            && u.sessions[a].enabled == t.sessions[a].enabled
            && StopsUnder(u.sessions[a], operation, EffectApplied))
  {
  }

  /** A member whose runtime is gone is detached, unless it has left or was removed. */
  predicate IsDetached(m: Participant, n: Participant, now: nat) {
    && n.owner == m.owner && n.agent == m.agent && n.muted == m.muted
    && if m.status in {Left, Kicked, Exported} then n == m else n.status.DetachedMember? && n.updatedAt == now
  }

  /** The outcome of a stop is recorded as uncertain exactly when its effect is at work and the turn in order. */
  lemma StopIsUncertain(t: Tables, e: Ambient, p: Principal, a: AgentId, operation: OperationId, reason: Reason)
    requires Inv(t)
    ensures var step := MarkStopUnconfirmed(t, e, p, a, operation, reason);
      && (step.Ok? <==>
            && a in t.sessions && StopsUnder(t.sessions[a], operation, EffectInflight) && TurnInOrder(t.sessions[a]))
      && (step.Ok? ==>
            var u := step.value.0;
            && a in t.participants && a in u.sessions && a in u.participants
            && u.sessions == t.sessions[a := u.sessions[a]] && u.participants == t.participants[a := u.participants[a]]
            && u.rows == t.rows && u.results == t.results && u.debits == t.debits && u.cleanup == t.cleanup
            && Uncertain(t.sessions[a], u.sessions[a], reason)
            && IsDetached(t.participants[a], u.participants[a], e.now)
            && (if t.sessions[a].turn.ActiveTurn? then
                  u.sessions[a].turn == t.sessions[a].turn && u.sessions[a].runtime == t.sessions[a].runtime
                else
                  u.sessions[a].turn.NoTurn? && u.sessions[a].runtime.Disconnected? &&
                  !u.sessions[a].providerActive && !u.sessions[a].providerReused))
  {
    hide Inv, NewEvents;
    if a in t.sessions { IntentHeld(t, a); }
  }

  /** A stopped agent: detached and disabled, with no runtime, turn or operation left, and its profile and provider
      session kept. */
  predicate Halted(s: Session, v: Session, now: nat) {
    && v.profile == s.profile && v.providerKind == s.providerKind && v.serverOwned == s.serverOwned
    && v.providerSession == s.providerSession
    && v.status == SessionStatus.Detached && !v.enabled && v.runtime.Stopped? && !v.providerActive && v.turn.NoTurn?
    && v.error.NoError? && !v.recoveryRequired && v.identity == NO_IDENTITY && v.IntentEmpty() && v.updatedAt == now
  }

  /** The stop is over: the agent is halted, its member detached, its reservation gone, and the room is told. */
  ghost predicate StopDone(t: Tables, u: Tables, k: Key, a: AgentId, payload: Payload, actor: string, now: nat) {
    && a in t.sessions && a in t.participants && a in u.sessions && a in u.participants
    && u.sessions == t.sessions[a := u.sessions[a]] && Halted(t.sessions[a], u.sessions[a], now)
    && u.participants == t.participants[a := u.participants[a]]
    && IsDetached(t.participants[a], u.participants[a], now)
    && u.rows == t.rows - {k} && u.debits == t.debits && u.cleanup == t.cleanup && u.restarting == t.restarting
    && k in u.results && u.results == t.results[k := u.results[k]]
    && var result := u.results[k];
    && result == StoredResult(Stop, payload, StoppedNow, result.events) && u.log == t.log + result.events
    && IsNews(t.log, result.events, [SessionDetached, AgentSessionState], a, actor)
  }

  /** A stop is finished if and only if its reservation is outstanding and its effect applied. */
  lemma StopIsFinished(t: Tables, e: Ambient, q: Request, a: AgentId)
    requires Inv(t) && PayloadAgent(q.payload, {}) == Ok(a) && q.Key() !in t.results
    ensures var step := FinalizeStop(t, e, q);
      && (step.Ok? <==> Outstanding(t, q, Stop, a) && t.sessions[a].intentStatus.EffectApplied?)
      && (step.Ok? ==>
            && StopDone(t, step.value.0, q.Key(), a, q.payload, q.principal.participant, e.now)
            && step.value.1 == Committed(step.value.0.results[q.Key()])
            && step.value.0.sessions[a].providerReused == t.sessions[a].providerReused)
  {
    hide Inv, PayloadAgent, RowNames, NewEvents, IsNews;
    NewsAre(t.log, [SessionDetached, AgentSessionState], a, q.principal.participant);
    if Outstanding(t, q, Stop, a) { StopRowOf(t, e, q, a); }
    if a in t.sessions { IntentHeld(t, a); StopRowHeld(t, e, q, a); }
    var step := FinalizeStop(t, e, q);
    if step.Ok? {
      var u := step.value.0;
      assert u.participants == t.participants[a := u.participants[a]];
      assert u.results == t.results[q.Key() := u.results[q.Key()]];
    }
  }

  // ---------------------------------------------------------------- what a stop achieves

  lemma StopKeepsInv(t: Tables, e: Ambient, q: Request, executionFailed: bool)
    requires Inv(t) && PrepareStop(t, e, q, executionFailed).Ok?
    ensures Inv(PrepareStop(t, e, q, executionFailed).value.0)
  {
    hide Inv, PrepareStop;
    StepKeepsInv(t, e, DoPrepareStop(q, executionFailed));
  }

  lemma StopAuthorizationKeepsInv(t: Tables, e: Ambient, q: Request, operation: OperationId)
    requires Inv(t) && AuthorizeStop(t, e, q, operation).Ok?
    ensures Inv(AuthorizeStop(t, e, q, operation).value.0)
  {
    hide Inv, AuthorizeStop;
    StepKeepsInv(t, e, DoAuthorizeStop(q, operation));
  }

  lemma StopRecordKeepsInv(t: Tables, e: Ambient, a: AgentId, operation: OperationId, turnClosed: bool)
    requires Inv(t) && RecordStop(t, e, a, operation, turnClosed).Ok?
    ensures Inv(RecordStop(t, e, a, operation, turnClosed).value.0)
  {
    hide Inv, RecordStop;
    StepKeepsInv(t, e, DoRecordStop(a, operation, turnClosed));
  }

  /** A stop of a held runtime goes through: planned, let loose by the generation that planned it, recorded and
      finished, it leaves the agent halted and its request answered, at no charge. */
  lemma StopGoesThrough(t: Tables, e: Ambient, f: Ambient, g: Ambient, h: Ambient, q: Request, a: AgentId,
                        executionFailed: bool, turnClosed: bool)
    requires Inv(t) && PayloadAgent(q.payload, {}) == Ok(a) && IsNew(t, q.Key()) && a in t.sessions
    requires q.principal.agentControl && !q.principal.bridge && !t.restarting && f.generation == e.generation
    requires t.sessions[a].IntentEmpty() && t.sessions[a].identity != NO_IDENTITY && TurnInOrder(t.sessions[a])
    requires t.sessions[a].turn.ActiveTurn? ==> turnClosed
    ensures var operation := Operation(q.Key(), Stop);
      var planned := PrepareStop(t, e, q, executionFailed);
      && planned.Ok?
      && var loose := AuthorizeStop(planned.value.0, f, q, operation);
      && loose.Ok? && loose.value.1 == planned.value.1
      && var recorded := RecordStop(loose.value.0, g, a, operation, turnClosed);
      && recorded.Ok?
      && var done := FinalizeStop(recorded.value.0, h, q);
      && done.Ok? && done.value.1.Committed?
      && var u := done.value.0;
      && a in u.sessions && u.sessions == t.sessions[a := u.sessions[a]] && Halted(t.sessions[a], u.sessions[a], h.now)
      && u.rows == t.rows && u.debits == t.debits && u.results == t.results[q.Key() := done.value.1.result]
      && u.log == t.log + done.value.1.result.events
  {
    hide Inv, PrepareStop, AuthorizeStop, RecordStop, FinalizeStop, PayloadAgent, IsNews, WasStopped;
    var operation := Operation(q.Key(), Stop);
    StopIsPrepared(t, e, q, a, executionFailed);
    NewStopIsPlanned(t, e, q, a, executionFailed);
    StopKeepsInv(t, e, q, executionFailed);
    var t1 := PrepareStop(t, e, q, executionFailed).value.0;
    StopIsAuthorized(t1, f, q, a);
    StopAuthorizationKeepsInv(t1, f, q, operation);
    var t2 := AuthorizeStop(t1, f, q, operation).value.0;
    StopIsRecorded(t2, g, a, operation, turnClosed);
    StopRecordKeepsInv(t2, g, a, operation, turnClosed);
    var t3 := RecordStop(t2, g, a, operation, turnClosed).value.0;
    StopIsFinished(t3, h, q, a);
    assert t.rows[q.Key() := t1.rows[q.Key()]] - {q.Key()} == t.rows;
  }

  /** What has exited already is stopped without an effect. */
  lemma ExitedStopGoesThrough(t: Tables, e: Ambient, h: Ambient, q: Request, a: AgentId, executionFailed: bool)
    requires Inv(t) && PayloadAgent(q.payload, {}) == Ok(a) && IsNew(t, q.Key()) && a in t.sessions
    requires q.principal.agentControl && !q.principal.bridge && !t.restarting
    requires t.sessions[a].IntentEmpty() && HasExited(t.sessions[a], executionFailed)
    ensures var planned := PrepareStop(t, e, q, executionFailed);
      && planned.Ok? && planned.value.1 == FinalizePlan
      && var done := FinalizeStop(planned.value.0, h, q);
      && done.Ok? && a in done.value.0.sessions && Halted(t.sessions[a], done.value.0.sessions[a], h.now)
      && done.value.0.rows == t.rows && done.value.0.debits == t.debits
  {
    hide Inv, PrepareStop, FinalizeStop, PayloadAgent, IsNews, WasStopped;
    StopIsPrepared(t, e, q, a, executionFailed);
    NewStopIsPlanned(t, e, q, a, executionFailed);
    StopKeepsInv(t, e, q, executionFailed);
    var t1 := PrepareStop(t, e, q, executionFailed).value.0;
    StopIsFinished(t1, h, q, a);
    assert t.rows[q.Key() := t1.rows[q.Key()]] - {q.Key()} == t.rows;
  }

  /** A halted agent is at rest and can be launched again, as far as its membership and profile allow. */
  lemma HaltedCanBeLaunched(t: Tables, u: Tables, k: Key, a: AgentId, payload: Payload, actor: string, now: nat,
                            p: Principal)
    requires Inv(t) && StopDone(t, u, k, a, payload, actor, now) && p.agentControl && !p.bridge
    ensures AtRest(u.sessions[a])
    ensures MayLaunch(u, p, Start, a) <==>
      t.sessions[a].profile.version == 5 && t.participants[a].status !in {Exported, Kicked} && a !in t.cleanup
  {
    hide Inv;
    IntentHeld(t, a);
  }

  /** Asked again under a reserved key, a stop is told what became of it, and what is left to do. */
  lemma RepeatedStopIsTold(t: Tables, e: Ambient, q: Request, a: AgentId, executionFailed: bool)
    requires Inv(t) && PayloadAgent(q.payload, {}) == Ok(a) && q.Key() in t.rows
    requires q.principal.agentControl && !q.principal.bridge && a in t.sessions && TurnInOrder(t.sessions[a])
    ensures var (row, s) := (t.rows[q.Key()], t.sessions[a]);
      PrepareStop(t, e, q, executionFailed) ==
        if !row.action.Stop? || row.payload != q.payload then Err(Conflict)
        else if row.status.Refused? then Err(StoredRejection(row.status.reason))
        else if row.generation != e.generation || s.intentStatus in {EffectInflight, Unconfirmed} then Err(Unresolved)
        else if s.intentStatus.EffectApplied? then Ok((t, FinalizePlan))
        else if s.identity == NO_IDENTITY then Err(Rejected(HandleUnavailable))
        else Ok((t, StopPlan(StopEffect(Operation(q.Key(), Stop), a, s.identity))))
  {
    hide Inv, PayloadAgent, RowStored;
    KeysAreDisjoint(t);
    ReservedStop(t, q, a);
    IntentHeld(t, a);
  }

  lemma ReservedStop(t: Tables, q: Request, a: AgentId)
    requires Inv(t) && PayloadAgent(q.payload, {}) == Ok(a) && q.Key() in t.rows
    ensures var row := t.rows[q.Key()];
      row.action.Stop? && row.payload == q.payload ==>
        && row.session == a && row.operation == Operation(q.Key(), Stop)
        && row.phase.LifecyclePrepared? && row.prepared.NoResult? && a in t.sessions && t.sessions[a].serverOwned
        && (row.status.Pending? ==>
              && t.sessions[a].intentAction.StopAction? && t.sessions[a].intentId == Operation(q.Key(), Stop)
              && t.sessions[a].IntentLegal())
  {
    assert RowSound(t, q.Key());
    if t.rows[q.Key()].session in t.sessions { IntentHeld(t, t.rows[q.Key()].session); }
  }
}
