/** What callers can rely on from single commands: finished requests are inert, a session in the middle
    of an operation refuses every other one, and resuming undoes pausing. */
module LifecycleReplies {
  import opened Wrappers
  import opened LifecycleModel
  import opened LifecycleSteps
  import opened LifecycleInvariant
  import opened LifecycleMoves

  // ---------------------------------------------------------------- finished requests

  /** The action under which a command looks for the stored result of its request. The commands that need a
      reservation or an intent look for none. */
  function LooksUp(c: Command): Option<Action> {
    match c
    case DoPrepareLaunch(_, action) => Some(action)
    case DoCompleteLaunch(_, action, _, _) => Some(action)
    case DoCreateStopped(_, _) => Some(Create)
    case DoInspectCreateStart(_) => Some(Create)
    case DoPrepareCreateStart(_, _) => Some(Create)
    case DoCompleteCreateStart(_, _, _) => Some(Create)
    case DoPrepareStop(_, _) => Some(Stop)
    case DoFinalizeStop(_) => Some(Stop)
    case DoPause(_, _) => Some(Pause)
    case DoResumePaused(_, _) => Some(Resume)
    case DoConfigure(_, _, _) => Some(Configure)
    case DoInterrupt(_, _, _) => Some(Interrupt)
    case _ => None
  }

  /** What is checked before the look-up: that the principal may ask, that the payload can be read, and that a
      completion names the operation of its own request. */
  predicate MayAsk(c: Command) {
    match c
    case DoPrepareLaunch(q, action) => AuthorizeControl(q.principal).Pass? && LaunchPayload(q.payload, action).Ok?
    case DoCompleteLaunch(q, action, operation, _) =>
      LaunchPayload(q.payload, action).Ok? && operation == Operation(q.Key(), action)
    case DoCompleteCreateStart(q, operation, _) => operation == Operation(q.Key(), Create)
    case DoFinalizeStop(_) => true
    case DoPrepareStop(q, _) => AuthorizeControl(q.principal).Pass? && PayloadAgent(q.payload, {}).Ok?
    case DoPause(q, _) => AuthorizeControl(q.principal).Pass? && PayloadAgent(q.payload, {}).Ok?
    case DoResumePaused(q, _) => AuthorizeControl(q.principal).Pass? && PayloadAgent(q.payload, {}).Ok?
    case DoInterrupt(q, _, _) => AuthorizeControl(q.principal).Pass? && PayloadAgent(q.payload, {}).Ok?
    case DoCreateStopped(q, _) => AuthorizeControl(q.principal).Pass?
    case DoInspectCreateStart(q) => AuthorizeControl(q.principal).Pass?
    case DoPrepareCreateStart(q, _) => AuthorizeControl(q.principal).Pass?
    case DoConfigure(q, _, _) => AuthorizeControl(q.principal).Pass?
    case _ => false
  }

  /** The stored result, with no newly committed event. */
  function Repeated(c: Command, result: StoredResult): Reply {
    if c.DoCompleteCreateStart? then CreateCommit(result, [], []) else Replay(result)
  }

  /** The answer to a command of an answered request: the stored result if it asks for the same thing, a
      conflict if it asks for another, and a failure if it may not ask. */
  ghost predicate Answers(t: Tables, step: Step, c: Command, result: StoredResult)
    requires KeyOf(c).Some?
  {
    if LooksUp(c).None? || !MayAsk(c) then step.Err?
    else if result.action != LooksUp(c).value || result.payload != c.q.payload then step == Err(Conflict)
    else step == Ok((t, Repeated(c, result)))
  }

  lemma AnsweredLaunch(t: Tables, e: Ambient, c: Command)
    requires c.DoPrepareLaunch? || c.DoAuthorizeLaunch? || c.DoCompleteLaunch? || c.DoFailLaunch?
    requires c.q.Key() in t.results && c.q.Key() !in t.rows
    ensures Answers(t, Perform(t, e, c), c, t.results[c.q.Key()])
  {
    hide Relist, LaunchPayload, RequireReaddable, MatchingStartIntent;
  }

  lemma AnsweredCreate(t: Tables, e: Ambient, c: Command)
    requires c.DoCreateStopped? || c.DoInspectCreateStart? || c.DoPrepareCreateStart? || c.DoAuthorizeCreateStart? ||
             c.DoCompleteCreateStart? || c.DoFailCreateStart?
    requires c.q.Key() in t.results && c.q.Key() !in t.rows
    ensures Answers(t, Perform(t, e, c), c, t.results[c.q.Key()])
  {
    hide CreateOrReuse, ResumeCreateStart;
  }

  lemma AnsweredStop(t: Tables, e: Ambient, c: Command)
    requires c.DoPrepareStop? || c.DoAuthorizeStop? || c.DoFailStop? || c.DoFinalizeStop?
    requires c.q.Key() in t.results && c.q.Key() !in t.rows
    ensures Answers(t, Perform(t, e, c), c, t.results[c.q.Key()])
  {
    hide PayloadAgent, ConfirmedExit;
  }

  lemma AnsweredOther(t: Tables, e: Ambient, c: Command)
    requires c.DoPause? || c.DoResumePaused? || c.DoConfigure? || c.DoInterrupt?
    requires c.q.Key() in t.results && c.q.Key() !in t.rows
    ensures Answers(t, Perform(t, e, c), c, t.results[c.q.Key()])
  {
    hide PayloadAgent, LoadInterruptible, RequireResident, RequireStoppedProfile;
  }

  lemma AnswersKeep(t: Tables, step: Step, c: Command, result: StoredResult)
    requires KeyOf(c).Some? && Answers(t, step, c, result)
    ensures After(t, step) == t
  {
  }

  /** A committed request is inert: whatever is asked again under its key changes nothing, and the same
      question gets the stored result while any other is a conflict. */
  lemma AnsweredIsInert(t: Tables, e: Ambient, c: Command, k: Key)
    requires Inv(t) && KeyOf(c) == Some(k) && k in t.results
    ensures Answers(t, Perform(t, e, c), c, t.results[k]) && After(t, Perform(t, e, c)) == t
  {
    hide Perform, Inv, Answers, After;
    KeysAreDisjoint(t);
    if c.DoPrepareLaunch? || c.DoAuthorizeLaunch? || c.DoCompleteLaunch? || c.DoFailLaunch? {
      AnsweredLaunch(t, e, c);
    } else if c.DoCreateStopped? || c.DoInspectCreateStart? || c.DoPrepareCreateStart? || c.DoAuthorizeCreateStart? ||
              c.DoCompleteCreateStart? || c.DoFailCreateStart? {
      AnsweredCreate(t, e, c);
    } else if c.DoPrepareStop? || c.DoAuthorizeStop? || c.DoFailStop? || c.DoFinalizeStop? {
      AnsweredStop(t, e, c);
    } else {
      AnsweredOther(t, e, c);
    }
    AnswersKeep(t, Perform(t, e, c), c, t.results[k]);
  }

  /** So a repeated request is answered with its stored result exactly when it may ask and asks the same. */
  lemma RepeatedIsAnswered(t: Tables, e: Ambient, c: Command, k: Key)
    requires Inv(t) && KeyOf(c) == Some(k) && k in t.results && LooksUp(c).Some?
    ensures Perform(t, e, c) == Ok((t, Repeated(c, t.results[k]))) <==>
            MayAsk(c) && ExistingCommand(t, k, LooksUp(c).value, c.q.payload) == Ok(Some(t.results[k]))
  {
    hide Perform, Inv, MayAsk;
    AnsweredIsInert(t, e, c, k);
  }

  lemma RefusedLaunch(t: Tables, e: Ambient, c: Command)
    requires c.DoPrepareLaunch? || c.DoAuthorizeLaunch? || c.DoCompleteLaunch? || c.DoFailLaunch?
    requires c.q.Key() in t.rows && t.rows[c.q.Key()].status.Refused? && c.q.Key() !in t.results
    ensures Perform(t, e, c).Err?
  {
    hide Relist, LaunchPayload, RequireReaddable, MatchingStartIntent, RuntimeStarted, LaunchKinds;
  }

  lemma RefusedCreate(t: Tables, e: Ambient, c: Command)
    requires c.DoCreateStopped? || c.DoInspectCreateStart? || c.DoPrepareCreateStart? || c.DoAuthorizeCreateStart? ||
             c.DoCompleteCreateStart? || c.DoFailCreateStart?
    requires c.q.Key() in t.rows && t.rows[c.q.Key()].status.Refused? && c.q.Key() !in t.results
    ensures Perform(t, e, c).Err?
  {
    hide CreateOrReuse, RuntimeStarted, LaunchKinds;
  }

  lemma RefusedOther(t: Tables, e: Ambient, c: Command)
    requires c.DoPrepareStop? || c.DoAuthorizeStop? || c.DoFailStop? || c.DoFinalizeStop? || c.DoPause? ||
             c.DoResumePaused? || c.DoConfigure? || c.DoInterrupt?
    requires c.q.Key() in t.rows && t.rows[c.q.Key()].status.Refused? && c.q.Key() !in t.results
    ensures Perform(t, e, c).Err?
  {
    hide PayloadAgent, LoadInterruptible, ConfirmedExit, RequireResident, RequireStoppedProfile;
  }

  /** A refused request stays refused: every later command under its key fails and so changes nothing. */
  lemma RefusedIsFinal(t: Tables, e: Ambient, c: Command, k: Key)
    requires Inv(t) && KeyOf(c) == Some(k) && k in t.rows && t.rows[k].status.Refused?
    ensures Perform(t, e, c).Err?
  {
    hide Perform, Inv;
    KeysAreDisjoint(t);
    if c.DoPrepareLaunch? || c.DoAuthorizeLaunch? || c.DoCompleteLaunch? || c.DoFailLaunch? {
      RefusedLaunch(t, e, c);
    } else if c.DoCreateStopped? || c.DoInspectCreateStart? || c.DoPrepareCreateStart? || c.DoAuthorizeCreateStart? ||
              c.DoCompleteCreateStart? || c.DoFailCreateStart? {
      RefusedCreate(t, e, c);
    } else {
      RefusedOther(t, e, c);
    }
  }

  // ---------------------------------------------------------------- a session in the middle of an operation

  /** A command that would start something else on agent `a`. */
  ghost predicate Competes(c: Command, a: AgentId, owner: OperationId) {
    match c
    case DoPause(q, _) => PayloadAgent(q.payload, {}) == Ok(a)
    case DoResumePaused(q, _) => PayloadAgent(q.payload, {}) == Ok(a)
    case DoInterrupt(q, _, _) => PayloadAgent(q.payload, {}) == Ok(a)
    case DoConfigure(_, _, draft) => draft.agent == a
    case DoCreateStopped(_, draft) => draft.agent == a
    case DoPrepareCreateStart(q, draft) => draft.agent == a && Operation(q.Key(), Create) != owner
    case DoPrepareLaunch(q, action) =>
      LaunchPayload(q.payload, action).Ok? && LaunchPayload(q.payload, action).value.0 == a &&
      Operation(q.Key(), action) != owner
    case DoPrepareStop(q, _) => PayloadAgent(q.payload, {}) == Ok(a) && Operation(q.Key(), Stop) != owner
    case _ => false
  }

  lemma BusyLaunch(t: Tables, e: Ambient, q: Request, action: Action, a: AgentId)
    requires Inv(t) && a in t.sessions && !t.sessions[a].IntentEmpty() && q.Key() !in t.results
    requires LaunchPayload(q.payload, action).Ok? && LaunchPayload(q.payload, action).value.0 == a
    requires Operation(q.Key(), action) != t.sessions[a].intentId
    ensures PrepareLaunch(t, e, q, action).Err?
  {
    hide Relist, LaunchPayload, RequireReaddable, Inv;
  }

  lemma BusyStop(t: Tables, e: Ambient, q: Request, executionFailed: bool, a: AgentId)
    requires Inv(t) && a in t.sessions && !t.sessions[a].IntentEmpty() && q.Key() !in t.results
    requires PayloadAgent(q.payload, {}) == Ok(a) && Operation(q.Key(), Stop) != t.sessions[a].intentId
    ensures PrepareStop(t, e, q, executionFailed).Err?
  {
    hide PayloadAgent, Inv, ConfirmedExit;
  }

  lemma BusyCreate(t: Tables, e: Ambient, c: Command, a: AgentId)
    requires c.DoCreateStopped? || c.DoPrepareCreateStart?
    requires a in t.sessions && !t.sessions[a].IntentEmpty() && c.draft.agent == a && c.q.Key() !in t.results
    ensures After(t, Perform(t, e, c)) == t
    ensures c.q.Key() !in t.rows ==> Perform(t, e, c).Err?
  {
  }

  lemma BusyOrdinary(t: Tables, e: Ambient, c: Command, a: AgentId)
    requires c.DoPause? || c.DoResumePaused? || c.DoInterrupt? || c.DoConfigure?
    requires a in t.sessions && !t.sessions[a].IntentEmpty() && c.q.Key() !in t.results
    requires if c.DoConfigure? then c.draft.agent == a else PayloadAgent(c.q.payload, {}) == Ok(a)
    ensures Perform(t, e, c).Err? || (c.DoResumePaused? && Perform(t, e, c).value == (t, ProviderLaunch))
  {
    hide PayloadAgent;
  }

  /** While a session's intent is held, every other command on it leaves the whole store as it was; a new
      request is refused, but for a resume that only reports that the provider must be launched. */
  lemma BusySessionRefuses(t: Tables, e: Ambient, c: Command, a: AgentId)
    requires Inv(t) && a in t.sessions && !t.sessions[a].IntentEmpty() && Competes(c, a, t.sessions[a].intentId)
    ensures After(t, Perform(t, e, c)) == t
    ensures c.q.Key() !in t.results && c.q.Key() !in t.rows ==>
      Perform(t, e, c).Err? || (c.DoResumePaused? && Perform(t, e, c).value.1.ProviderLaunch?)
  {
    hide Inv, PrepareLaunch, PrepareStop, CreateStopped, PrepareCreateStart, ExecutePause, ResumePaused,
      ExecuteInterrupt, ExecuteConfigure, PayloadAgent, LaunchPayload;
    if c.q.Key() in t.results { AnsweredIsInert(t, e, c, c.q.Key()); }
    else {
      match c
      case DoPrepareLaunch(q, action) => BusyLaunch(t, e, q, action, a);
      case DoPrepareStop(q, executionFailed) => BusyStop(t, e, q, executionFailed, a);
      case DoCreateStopped(_, _) => BusyCreate(t, e, c, a);
      case DoPrepareCreateStart(_, _) => BusyCreate(t, e, c, a);
      case _ => BusyOrdinary(t, e, c, a);
    }
  }

  // ---------------------------------------------------------------- pause and resume

  /** Pausing an idle agent and then resuming it, with a fresh request that the room admits and the same
      runtime, is accepted and gives back the whole session but for its update time. */
  lemma PauseThenResume(t: Tables, e: Ambient, q: Request, f: Ambient, r: Request, resident: ResidentRuntime,
                        a: AgentId)
    requires ExecutePause(t, e, q, resident).Ok? && ExecutePause(t, e, q, resident).value.1.Committed?
    requires PayloadAgent(q.payload, {}) == Ok(a) && PayloadAgent(r.payload, {}) == Ok(a)
    requires AuthorizeControl(r.principal).Pass? && r.Key() != q.Key() && r.Key() !in t.rows && r.Key() !in t.results
    requires !t.restarting && f.budget
    ensures var paused := ExecutePause(t, e, q, resident).value.0;
      var resumed := ResumePaused(paused, f, r, resident);
      && a in t.sessions && resumed.Ok? && resumed.value.1.Committed?
      && resumed.value.0.sessions == t.sessions[a := t.sessions[a].(updatedAt := f.now)]
      && resumed.value.0.participants == t.participants && resumed.value.0.rows == t.rows
  {
    hide PayloadAgent;
  }

  /** A plan that found a resident session is kept by the command that follows it: with the runtime the
      plan saw, in a room that admits the command, it is accepted and only its scheduling state changes. */
  lemma ResidentPlanIsKept(t: Tables, e: Ambient, q: Request, resume: bool, a: AgentId)
    requires PayloadAgent(q.payload, {}) == Ok(a) && !t.restarting && e.budget
    requires PrepareResident(t, q, resume).Ok? && PrepareResident(t, q, resume).value.Resident?
    ensures var s := PrepareResident(t, q, resume).value.session;
      var resident := ResidentRuntime(s.identity, s.profile.key);
      var step := if resume then ResumePaused(t, e, q, resident) else ExecutePause(t, e, q, resident);
      && a in t.sessions && s == t.sessions[a]
      && step.Ok? && step.value.1.Committed?
      && step.value.0.sessions == t.sessions[a :=
           s.(enabled := resume, runtime := if resume then Idle else Paused, updatedAt := e.now)]
  {
    hide PayloadAgent;
  }
}
