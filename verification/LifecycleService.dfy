/** What the ordinary commands and the turns of a resident agent ask for and achieve. */
module LifecycleService {
  import opened Wrappers
  import opened LifecycleModel
  import opened LifecycleSteps
  import opened LifecycleInvariant
  import opened LifecycleMoves
  import opened LifecycleLaunch
  import opened LifecycleStop
  import opened LifecycleRecovery

  // ---------------------------------------------------------------- ordinary commands

  /** A new request of one who may control agents, in a room that admits it. */
  predicate IsAdmitted(t: Tables, e: Ambient, q: Request) {
    q.principal.agentControl && !q.principal.bridge && IsNew(t, q.Key()) && !t.restarting && e.budget
  }

  /** A command that is charged and answered at once, and moves one session. */
  ghost predicate Answers(t: Tables, u: Tables, q: Request, action: Action, kind: ResultKind, a: AgentId) {
    && a in u.sessions && u.sessions == t.sessions[a := u.sessions[a]] && u.participants == t.participants
    && u.rows == t.rows && u.debits == t.debits + 1 && u.cleanup == t.cleanup && u.restarting == t.restarting
    && q.Key() in u.results && u.results == t.results[q.Key() := u.results[q.Key()]]
    && var result := u.results[q.Key()];
    && result == StoredResult(action, q.payload, kind, result.events) && u.log == t.log + result.events
    && IsNews(t.log, result.events, [AgentSessionState], a, q.principal.participant)
  }

  lemma CommandAnswers(t: Tables, u: Tables, q: Request, action: Action, kind: ResultKind, a: AgentId)
    requires a in u.sessions && u.sessions == t.sessions[a := u.sessions[a]] && u.debits == t.debits + 1
    requires u == t.(sessions := u.sessions, debits := u.debits) && q.Key() !in t.results
    ensures var step := CommitResult(u, q, action, kind, [AgentSessionState], a);
      && step.Ok? && Answers(t, step.value.0, q, action, kind, a)
      && step.value.1 == Committed(step.value.0.results[q.Key()]) && step.value.0.sessions == u.sessions
  {
    hide NewEvents, IsNews;
    NewsAre(t.log, [AgentSessionState], a, q.principal.participant);
  }

  /** An agent that can be configured: one of the room's own, disabled and not running, in no operation or turn. */
  predicate IsConfigurable(s: Session) {
    && s.serverOwned && !s.enabled && s.runtime in {Stopped, RuntimeError, Disconnected} && s.turn.NoTurn?
    && s.identity == NO_IDENTITY && s.IntentEmpty()
  }

  /** With the draft's profile at the current version, listed and stopped, and nothing held against it. */
  predicate HasProfile(s: Session, v: Session, draft: Draft) {
    && v.profile == Profile(draft.profile.key, 5, draft.profile.executable, draft.profile.workspace)
    && v.status.Available? && v.runtime.Stopped? && !v.enabled && v.error.NoError? && !v.recoveryRequired
    && v.IntentEmpty() && v.identity == s.identity && v.turn == s.turn && v.providerKind == s.providerKind
    && v.serverOwned == s.serverOwned && v.providerSession == s.providerSession
    && v.providerActive == s.providerActive && v.providerReused == s.providerReused
  }

  /** A configuration is accepted if and only if it knows the profile it replaces and keeps the kind of provider; it
      stores the draft's profile. */
  lemma ConfigurationIsApplied(t: Tables, e: Ambient, q: Request, expectedKey: string, draft: Draft)
    requires Inv(t) && IsNew(t, q.Key())
    ensures var (step, a) := (ExecuteConfigure(t, e, q, expectedKey, draft), draft.agent);
      && (step.Ok? <==>
            && IsAdmitted(t, e, q) && a in t.sessions && IsConfigurable(t.sessions[a])
            && t.sessions[a].profile.key == expectedKey && t.sessions[a].providerKind == draft.providerKind)
      && (step.Ok? ==>
            && Answers(t, step.value.0, q, Configure, ResultKind.Configured, a)
            && HasProfile(t.sessions[a], step.value.0.sessions[a], draft))
  {
    hide Inv, CommitResult, Answers, LifecycleSteps.Configured;
    var a := draft.agent;
    if a in t.sessions {
      IntentHeld(t, a);
      var v := LifecycleSteps.Configured(t.sessions[a], draft, e.now);
      ProfileIsStored(t.sessions[a], draft, e.now);
      CommandAnswersIfNew(t, v, q, Configure, ResultKind.Configured, a);
    }
  }

  lemma ProfileIsStored(s: Session, draft: Draft, now: nat)
    ensures HasProfile(s, LifecycleSteps.Configured(s, draft, now), draft)
  {
  }

  lemma CommandAnswersIfNew(t: Tables, v: Session, q: Request, action: Action, kind: ResultKind, a: AgentId)
    requires a in t.sessions && q.Key() !in t.results
    ensures var u := SaveSession(t.(debits := t.debits + 1), a, v);
      var step := CommitResult(u, q, action, kind, [AgentSessionState], a);
      && step.Ok? && Answers(t, step.value.0, q, action, kind, a)
      && step.value.1 == Committed(step.value.0.results[q.Key()]) && step.value.0.sessions == t.sessions[a := v]
  {
    hide CommitResult, Answers;
    CommandAnswers(t, SaveSession(t.(debits := t.debits + 1), a, v), q, action, kind, a);
  }

  /** A configured agent can be launched, as far as its membership allows. */
  lemma ConfiguredCanBeLaunched(t: Tables, u: Tables, q: Request, draft: Draft, p: Principal)
    requires Inv(t) && draft.agent in t.sessions && IsConfigurable(t.sessions[draft.agent])
    requires Answers(t, u, q, Configure, ResultKind.Configured, draft.agent)
    requires HasProfile(t.sessions[draft.agent], u.sessions[draft.agent], draft) && p.agentControl && !p.bridge
    ensures MayLaunch(u, p, Start, draft.agent) <==>
      t.participants[draft.agent].status !in {Exported, Kicked} && draft.agent !in t.cleanup
  {
    hide Inv;
    IntentHeld(t, draft.agent);
  }

  /** A resident agent: a joined member attached to a live provider on a complete runtime, in no operation or turn. */
  predicate IsResident(t: Tables, a: AgentId, runtime: RuntimeStatus, enabled: bool) {
    && a in t.sessions && a in t.participants && t.participants[a].status.Joined?
    && var s := t.sessions[a];
    && s.serverOwned && s.status.Attached? && s.runtime == runtime && s.enabled == enabled && !s.recoveryRequired
    && s.providerActive && s.providerSession.Named? && !s.identity.AnyBlank() && s.IntentEmpty() && s.turn.NoTurn?
  }

  /** The plan made before the runtime is asked: what was answered is replayed, what is reserved is left to provider
      launch, an agent that is not paused must be launched to be resumed, and else the resident session is found, if
      it is one. It changes nothing. */
  lemma PlanIsMade(t: Tables, q: Request, resume: bool, a: AgentId)
    requires Inv(t) && PayloadAgent(q.payload, {}) == Ok(a) && q.principal.agentControl && !q.principal.bridge
    ensures var (plan, k) := (PrepareResident(t, q, resume), q.Key());
      var action := if resume then Resume else Pause;
      if k in t.results then
        plan == if t.results[k].action == action && t.results[k].payload == q.payload then Ok(Replay(t.results[k]))
                else Err(Conflict)
      else if k in t.rows then
        plan == if resume && t.rows[k].action == Resume && t.rows[k].payload == q.payload then Ok(ProviderLaunch)
                else Err(Conflict)
      else if !resume && t.restarting then plan == Err(Rejected(Restarting))
      else if a !in t.sessions then plan == Err(Rejected(NotFound))
      else if resume && !t.sessions[a].runtime.Paused? then plan == Ok(ProviderLaunch)
      else
        plan == if IsResident(t, a, if resume then Paused else Idle, !resume) then Ok(Resident(t.sessions[a]))
                else Err(Rejected(InvalidState))
  {
    hide Inv, PayloadAgent;
    KeysAreDisjoint(t);
    if a in t.sessions { IntentHeld(t, a); }
  }

  /** A pause is accepted if and only if the agent is resident, idle and enabled on the runtime that was asked; it
      only disables it. */
  lemma PauseIsApplied(t: Tables, e: Ambient, q: Request, a: AgentId, resident: ResidentRuntime)
    requires PayloadAgent(q.payload, {}) == Ok(a) && IsNew(t, q.Key())
    ensures var step := ExecutePause(t, e, q, resident);
      && (step.Ok? <==>
            && IsAdmitted(t, e, q) && IsResident(t, a, Idle, true)
            && resident == ResidentRuntime(t.sessions[a].identity, t.sessions[a].profile.key))
      && (step.Ok? ==>
            && Answers(t, step.value.0, q, Pause, PausedNow, a)
            && step.value.0.sessions[a] == t.sessions[a].(enabled := false, runtime := Paused, updatedAt := e.now))
  {
    hide PayloadAgent, CommitResult, Answers;
    if a in t.sessions {
      var v := t.sessions[a].(enabled := false, runtime := Paused, updatedAt := e.now);
      CommandAnswersIfNew(t, v, q, Pause, PausedNow, a);
    }
  }

  /** A resume asks for a launch of its provider unless the agent is paused; then it is accepted if and only if the
      agent is resident on the runtime that was asked, and it only enables it. */
  lemma ResumeIsApplied(t: Tables, e: Ambient, q: Request, a: AgentId, resident: ResidentRuntime)
    requires PayloadAgent(q.payload, {}) == Ok(a) && IsNew(t, q.Key())
    requires q.principal.agentControl && !q.principal.bridge && !t.restarting && a in t.sessions
    ensures var step := ResumePaused(t, e, q, resident);
      if !t.sessions[a].runtime.Paused? then step == Ok((t, ProviderLaunch))
      else
        && (step.Ok? <==>
              && e.budget && IsResident(t, a, Paused, false)
              && resident == ResidentRuntime(t.sessions[a].identity, t.sessions[a].profile.key))
        && (step.Ok? ==>
              && Answers(t, step.value.0, q, Resume, ResumedNow, a)
              && step.value.0.sessions[a] == t.sessions[a].(enabled := true, runtime := Idle, updatedAt := e.now))
  {
    hide PayloadAgent, CommitResult, Answers;
    var v := t.sessions[a].(enabled := true, runtime := Idle, updatedAt := e.now);
    CommandAnswersIfNew(t, v, q, Resume, ResumedNow, a);
  }

  /** An agent at work on this very turn, on this very runtime. */
  predicate WorksOn(t: Tables, a: AgentId, execution: Execution) {
    && a in t.sessions && a in t.participants && t.participants[a].status.Joined? && !t.participants[a].muted
    && var s := t.sessions[a];
    && s.serverOwned && s.status.Attached? && s.runtime.Busy? && s.enabled && s.providerActive
    && s.providerSession.Named? && s.IntentEmpty() && !s.identity.AnyBlank() && s.identity == execution.identity
    && s.turn == ActiveTurn(execution.turn) && execution.runnable
  }

  /** An interrupt is accepted if and only if the agent works on the turn it is aimed at and none is under way; it
      changes nothing about the agent. */
  lemma InterruptIsAccepted(t: Tables, e: Ambient, q: Request, a: AgentId, execution: Option<Execution>,
                            effectOwned: bool)
    requires PayloadAgent(q.payload, {}) == Ok(a) && IsNew(t, q.Key())
    ensures var step := ExecuteInterrupt(t, e, q, execution, effectOwned);
      && (step.Ok? <==>
            IsAdmitted(t, e, q) && execution.Some? && WorksOn(t, a, execution.value) && !effectOwned)
      && (step.Ok? ==>
            && Answers(t, step.value.0, q, Interrupt, InterruptRequested, a)
            && step.value.0.sessions[a] == t.sessions[a].(updatedAt := e.now))
  {
    hide PayloadAgent, CommitResult, Answers;
    if a in t.sessions {
      CommandAnswersIfNew(t, t.sessions[a].(updatedAt := e.now), q, Interrupt, InterruptRequested, a);
    }
  }

  // ---------------------------------------------------------------- turns

  /** An idle resident agent in no operation takes a turn, and finishing it leaves the agent as it was, with nothing
      held against it. */
  lemma TurnGoesThrough(t: Tables, e: Ambient, f: Ambient, a: AgentId, turn: string, provider: Option<Token>)
    requires a in t.sessions && a in t.participants
    ensures var (s, m, taken) := (t.sessions[a], t.participants[a], AssignTurn(t, e, a, turn));
      var (busy, free) := (s.(runtime := Busy, turn := ActiveTurn(turn), updatedAt := e.now),
                           s.(error := NoError, recoveryRequired := false, updatedAt := f.now));
      && (taken.Ok? <==>
            && m.status.Joined? && !m.muted && s.enabled && s.status.Attached? && s.runtime.Idle? && s.providerActive
            && s.turn.NoTurn? && s.intentAction.NoAction?)
      && (taken.Ok? ==>
            && taken.value.0 == t.(sessions := t.sessions[a := busy])
            && CompleteTurn(taken.value.0, f, a, turn, provider) ==
                 if provider.None? || (provider.value.Named? && provider.value == s.providerSession)
                 then Ok((t.(sessions := t.sessions[a := free]), Done))
                 else Err(Rejected(ProviderSessionInvalid)))
  {
    if AssignTurn(t, e, a, turn).Ok? {
      var u := AssignTurn(t, e, a, turn).value.0;
      var v := t.sessions[a].(error := NoError, recoveryRequired := false, updatedAt := f.now);
      assert u.sessions[a := v] == t.sessions[a := v];
    }
  }

  /** A turn can be finished, failed or lost exactly while it is the agent's and in order; failed it leaves the agent
      in error, to be looked after, and without its runtime if that was shut down. */
  lemma TurnFails(t: Tables, e: Ambient, a: AgentId, turn: string, stopped: Option<Identity>)
    ensures var step := FailTurn(t, e, a, turn, stopped);
      && (step.Ok? <==>
            && a in t.sessions && t.sessions[a].turn == ActiveTurn(turn) && t.sessions[a].runtime in {Busy, Stopping}
            && (stopped.Some? ==> !stopped.value.AnyBlank() && stopped.value == t.sessions[a].identity))
      && (step.Ok? ==>
            var (s, u) := (t.sessions[a], step.value.0);
            && OnlySession(t, u, a) && u.rows == t.rows
            && var v := u.sessions[a];
            && v.status.SessionError? && v.runtime.RuntimeError? && v.turn.NoTurn? && v.error.TurnError?
            && v.recoveryRequired && v.enabled == s.enabled && v.profile == s.profile
            && v.providerSession == s.providerSession
            && v.intentAction == s.intentAction && v.intentId == s.intentId && v.intentStatus == s.intentStatus
            && (if stopped.Some? then v.identity == NO_IDENTITY && !v.providerActive && !v.providerReused
                else v.identity == s.identity && v.providerActive == s.providerActive))
  {
  }

  /** A turn is finished exactly while it is the agent's and in order, in the stored provider session if it names one,
      which is thereby active; the agent is idle again. */
  lemma TurnIsFinished(t: Tables, e: Ambient, a: AgentId, turn: string, provider: Option<Token>)
    ensures var step := CompleteTurn(t, e, a, turn, provider);
      && (step.Ok? <==>
            && a in t.sessions && t.sessions[a].turn == ActiveTurn(turn) && t.sessions[a].runtime in {Busy, Stopping}
            && (provider.Some? ==> provider.value.Named? && provider.value == t.sessions[a].providerSession))
      && (step.Ok? ==>
            var (s, u) := (t.sessions[a], step.value.0);
            && OnlySession(t, u, a) && u.rows == t.rows
            && var v := u.sessions[a];
            && v.status.Attached? && v.runtime.Idle? && v.turn.NoTurn? && v.error.NoError? && !v.recoveryRequired
            && v.enabled == s.enabled && v.identity == s.identity && v.providerSession == s.providerSession
            && v.intentAction == s.intentAction && v.intentId == s.intentId && v.intentStatus == s.intentStatus
            && (v.providerActive <==> s.providerActive || provider.Some?))
  {
  }

  /** The runtime of a turn is gone: a stop at work is thereby applied, and else the agent is detached with nothing
      left to run on, whatever it was doing. */
  lemma TurnLosesRuntime(t: Tables, e: Ambient, a: AgentId, turn: string, interrupted: bool)
    requires Inv(t) && a in t.sessions
    ensures var (s, step) := (t.sessions[a], TurnRuntimeGone(t, e, a, turn, interrupted));
      && (step.Ok? <==> s.turn == ActiveTurn(turn) && s.runtime in {Busy, Stopping})
      && (step.Ok? ==>
            && OnlyAgent(t, step.value.0, a)
            && var (u, v) := (step.value.0, step.value.0.sessions[a]);
            && v.profile == s.profile && v.intentAction == s.intentAction && v.intentId == s.intentId
            && if s.intentAction.StopAction? && !s.intentStatus.Prepared? then
                 && u.participants == t.participants && KeepsWork(s, v) && v.runtime == s.runtime
                 && v.enabled == s.enabled && v.intentStatus.EffectApplied?
               else
                 && IsDetached(t.participants[a], u.participants[a], e.now)
                 && v.intentStatus == s.intentStatus && v.status == SessionStatus.Detached && v.runtime.Stopped?
                 && !v.enabled && !v.providerActive && !v.providerReused && v.turn.NoTurn?
                 && v.providerSession.Blank? && v.identity == NO_IDENTITY && !v.recoveryRequired
                 && v.error == (if interrupted then TurnInterrupted else s.error))
  {
    hide Inv, CandidateKey, RowNames;
    StoredAuthorityIsConsistent(t, a);
    IntentHeld(t, a);
    if !t.sessions[a].IntentEmpty() { PendingOwns(t, t.sessions[a].intentId.key); }
    var step := TurnRuntimeGone(t, e, a, turn, interrupted);
    if step.Ok? { assert step.value.0.participants == t.participants[a := step.value.0.participants[a]]; }
  }

  // ---------------------------------------------------------------- removal

  /** Whatever may not be left behind when a removed member's runtime is cleaned up. */
  predicate IsCleanedUp(s: Session) {
    && s.IntentEmpty() && s.runtime in {Stopped, RuntimeError} && s.identity == NO_IDENTITY && s.turn.NoTurn?
    && !s.recoveryRequired && !s.providerActive && !s.providerReused
  }

  /** A removed agent is disabled and fenced at once, and the fence falls exactly when nothing of it is left running. */
  lemma RemovalGoesThrough(t: Tables, e: Ambient, a: AgentId, status: Membership)
    requires Inv(t) && a in t.sessions
    ensures var (s, step) := (t.sessions[a], RemoveMember(t, e, a, status));
      && (step.Ok? <==> TurnInOrder(s) && status in {Left, Kicked, Exported})
      && (step.Ok? ==>
            var u := step.value.0;
            && u.cleanup == t.cleanup + {a}
            && u.sessions == t.sessions[a := s.(enabled := false, status := SessionStatus.Detached, updatedAt := e.now)]
            && a in t.participants
            && u.participants == t.participants[a := t.participants[a].(status := status, updatedAt := e.now)]
            && u.rows == t.rows && u.results == t.results && u.log == t.log)
  {
    hide Inv;
    IntentHeld(t, a);
  }

  lemma CleanupEnds(t: Tables, e: Ambient, a: AgentId, blocking: bool)
    requires Inv(t) && a in t.sessions
    ensures FinishCleanup(t, e, a, blocking).Ok? <==> a !in t.cleanup || TurnInOrder(t.sessions[a])
    ensures var (s, step) := (t.sessions[a], FinishCleanup(t, e, a, blocking));
      step.Ok? ==>
      var u := step.value.0;
      && (a in t.cleanup && a !in u.cleanup <==> a in t.cleanup && IsCleanedUp(s) && !blocking)
      && (a !in t.cleanup || !IsCleanedUp(s) || blocking ==> u == t)
      && (a in t.cleanup && IsCleanedUp(s) && !blocking ==>
            && u == t.(sessions := u.sessions, cleanup := t.cleanup - {a}) &&
              OnlySession(t.(cleanup := u.cleanup), u, a)
            && var v := u.sessions[a];
            && KeepsProfile(s, v) && v.runtime.Stopped? && !v.enabled && v.error.NoError? && v.IntentEmpty()
            && v.status == (if t.participants[a].status.Joined? then Available else SessionStatus.Detached))
  {
    hide Inv;
    IntentHeld(t, a);
  }

  /** Exit of an idle bridge puts an agent in no operation in doubt, unless something else already does. */
  lemma IdleFailureIsRecorded(t: Tables, e: Ambient, a: AgentId, blocking: bool)
    requires Inv(t) && a in t.sessions && TurnInOrder(t.sessions[a])
    ensures var (s, step) := (t.sessions[a], RecordIdleFailure(t, e, a, t.sessions[a], blocking));
      && step.Ok?
      && var u := step.value.0;
      if !s.IntentEmpty() || s.recoveryRequired || blocking then u == t
      else
        && a in t.participants && a in u.sessions && a in u.participants
        && u.sessions == t.sessions[a := u.sessions[a]] && u.participants == t.participants[a := u.participants[a]]
        && u.rows == t.rows && u.results == t.results && u.debits == t.debits
        && InDoubt(s, u.sessions[a].(error := AuthorityUncertain)) && u.sessions[a].error.BridgeExited?
        && IsDetached(t.participants[a], u.participants[a], e.now)
        && |t.log| <= |u.log| && u.log[..|t.log|] == t.log
        && IsNews(t.log, u.log[|t.log|..], [ErrorRaised, SessionDetached, AgentSessionState], a, "")
  {
    hide Inv, CandidateKey, RowNames, NewEvents, IsNews, DetachMember, IsDetached;
    StoredAuthorityIsConsistent(t, a);
    IntentHeld(t, a);
    NewsAre(t.log, [ErrorRaised, SessionDetached, AgentSessionState], a, "");
    MemberIsDetached(SaveSession(t, a, Retained(t.sessions[a], e.now).(error := BridgeExited)), a, e.now);
  }

  // ---------------------------------------------------------------- who may ask, and for what

  /** The request behind a command that only one who may control agents can give. */
  function ControlledBy(c: Command): Option<Request> {
    match c
    case DoPrepareLaunch(q, _) => Some(q)
    case DoCreateStopped(q, _) => Some(q)
    case DoInspectCreateStart(q) => Some(q)
    case DoPrepareCreateStart(q, _) => Some(q)
    case DoAuthorizeCreateStart(q, _, _) => Some(q)
    case DoPrepareStop(q, _) => Some(q)
    case DoPause(q, _) => Some(q)
    case DoResumePaused(q, _) => Some(q)
    case DoConfigure(q, _, _) => Some(q)
    case DoInterrupt(q, _, _) => Some(q)
    case _ => None
  }

  /** A bridge, and whoever may not control agents, is denied all of these, whatever else holds. */
  lemma ControlIsNeeded(t: Tables, e: Ambient, c: Command, resume: bool)
    requires ControlledBy(c).Some?
    requires ControlledBy(c).value.principal.bridge || !ControlledBy(c).value.principal.agentControl
    ensures Perform(t, e, c) == Err(Rejected(PermissionDenied))
    ensures PrepareResident(t, ControlledBy(c).value, resume) == Err(Rejected(PermissionDenied))
  {
  }

  /** A key that a launch, a creation or a stop has reserved serves no ordinary command. */
  lemma ReservedKeyConflicts(t: Tables, e: Ambient, c: Command)
    requires Inv(t) && (c.DoCreateStopped? || c.DoPause? || c.DoResumePaused? || c.DoConfigure? || c.DoInterrupt?)
    requires c.q.Key() in t.rows && c.q.principal.agentControl && !c.q.principal.bridge
    ensures Perform(t, e, c) == Err(Conflict) ||
            (!c.DoCreateStopped? && !c.DoConfigure? && forall a :: PayloadAgent(c.q.payload, {}) != Ok(a))
  {
    hide Inv, PayloadAgent, CreateOrReuse, CommitResult;
    KeysAreDisjoint(t);
  }

  /** While the room restarts no new request is admitted. */
  lemma NothingNewWhileRestarting(t: Tables, e: Ambient, c: Command)
    requires c.DoPrepareLaunch? || c.DoCreateStopped? || c.DoPrepareCreateStart? || c.DoPrepareStop? || c.DoPause? ||
             c.DoResumePaused? || c.DoConfigure? || c.DoInterrupt?
    requires t.restarting && IsNew(t, c.q.Key())
    ensures Perform(t, e, c).Err?
  {
    hide PayloadAgent, LaunchPayload, CommitResult, Relist, MatchingStartIntent, ConfirmedExit;
  }

  /** The action whose operation a command must name, if it names one. */
  function Names(c: Command): Option<Action> {
    match c
    case DoAuthorizeLaunch(_, action, _, _) => Some(action)
    case DoCompleteLaunch(_, action, _, _) => Some(action)
    case DoFailLaunch(_, action, _, _, _) => Some(action)
    case DoAuthorizeCreateStart(_, _, _) => Some(Create)
    case DoCompleteCreateStart(_, _, _) => Some(Create)
    case DoFailCreateStart(_, _, _, _, _, _) => Some(Create)
    case DoAuthorizeStop(_, _) => Some(Stop)
    case DoFailStop(_, _, _) => Some(Stop)
    case _ => None
  }

  /** No request can act on the operation of another. */
  lemma OnlyOwnOperation(t: Tables, e: Ambient, c: Command)
    requires Inv(t) && Names(c).Some? && c.operation != Operation(c.q.Key(), Names(c).value)
    ensures Perform(t, e, c).Err?
  {
    hide Inv, AuthorizeLaunch, CompleteLaunch, FailLaunch, AuthorizeCreateStart, CompleteCreateStart, FailCreateStart,
      AuthorizeStop, FailStop;
    if c.q.Key() in t.rows { RowIsOwn(t, c.q.Key()); }
    match c
    case DoAuthorizeLaunch(q, action, operation, identity) => OtherLaunch(t, e, c);
    case DoCompleteLaunch(q, action, operation, started) => OtherLaunch(t, e, c);
    case DoFailLaunch(q, action, operation, reason, effect) => OtherLaunch(t, e, c);
    case DoAuthorizeStop(_, _) => OtherStop(t, e, c);
    case DoFailStop(_, _, _) => OtherStop(t, e, c);
    case _ => OtherCreation(t, e, c);
  }

  ghost predicate IsOther(t: Tables, c: Command) {
    && Names(c).Some? && c.operation != Operation(c.q.Key(), Names(c).value)
    && (c.q.Key() in t.rows ==> t.rows[c.q.Key()].operation == Operation(c.q.Key(), t.rows[c.q.Key()].action))
  }

  lemma OtherLaunch(t: Tables, e: Ambient, c: Command)
    requires IsOther(t, c) && (c.DoAuthorizeLaunch? || c.DoCompleteLaunch? || c.DoFailLaunch?)
    ensures Perform(t, e, c).Err?
  {
    hide LaunchPayload, ValidateStarted, RuntimeStarted, AuthorizedStart, CommitResult, NewEvents, FailedLaunchSession;
  }

  lemma OtherCreation(t: Tables, e: Ambient, c: Command)
    requires IsOther(t, c) && (c.DoAuthorizeCreateStart? || c.DoCompleteCreateStart? || c.DoFailCreateStart?)
    ensures Perform(t, e, c).Err?
  {
    hide ValidateStarted, RuntimeStarted, AuthorizedStart, NewEvents, FailedLaunchSession;
  }

  lemma OtherStop(t: Tables, e: Ambient, c: Command)
    requires IsOther(t, c) && (c.DoAuthorizeStop? || c.DoFailStop?)
    ensures Perform(t, e, c).Err?
  {
    hide PayloadAgent, NewEvents;
  }

  lemma RowIsOwn(t: Tables, k: Key)
    requires Inv(t) && k in t.rows
    ensures t.rows[k].operation == Operation(k, t.rows[k].action)
  {
    assert RowSound(t, k);
  }
}
