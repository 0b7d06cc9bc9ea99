/** What becomes of an operation whose outcome nobody knows: what an observation of its runtime decides, and that
    the request that owns it can then go on, or is ended for good. */
module LifecycleRecovery {
  import opened Wrappers
  import opened LifecycleModel
  import opened LifecycleSteps
  import opened LifecycleInvariant
  import opened LifecycleMoves
  import opened LifecycleRuns
  import opened LifecycleLaunch
  import opened LifecycleCreation
  import opened LifecycleStop

  // ---------------------------------------------------------------- what an observer may report

  /** An observation speaks of the runtime the session holds. */
  predicate IsAbout(s: Session, o: Observation) {
    match o
    case Gone => true
    case Adopted(handle, previousOwner, newOwner, profileKey) =>
      && handle.Named? && previousOwner.Named? && newOwner.Named?
      && handle == s.identity.handle && previousOwner == s.identity.owner && profileKey == s.profile.key
    case LeaseUncertain(handle, owner, reasonGiven) =>
      handle.Named? && owner.Named? && handle == s.identity.handle && owner == s.identity.owner && reasonGiven
    case Ambiguous(reasonGiven) => reasonGiven
  }

  // ---------------------------------------------------------------- live reconciliation

  /** The effect is given back: its operation is prepared anew, on no runtime or on the renamed one. */
  predicate GivenBack(s: Session, v: Session, o: Observation) {
    && KeepsProfile(s, v) && v.providerSession == s.providerSession
    && v.intentAction == s.intentAction && v.intentId == s.intentId && v.intentStatus.Prepared?
    && v.runtime.Starting? && !v.providerActive
    && if o.Adopted? then
         && v.identity == Identity(s.identity.handle, o.newOwner, s.identity.lease)
         && v.status.Available? && v.enabled && v.error.NoError? && !v.recoveryRequired
       else
         && v.identity == NO_IDENTITY && v.status == s.status && v.enabled == s.enabled && v.error == s.error
         && v.recoveryRequired == s.recoveryRequired
  }

  /** The stop has happened: no runtime and no turn are left, and only its answer is outstanding. */
  predicate HasStopped(s: Session, v: Session) {
    && v.profile == s.profile && v.providerKind == s.providerKind && v.serverOwned == s.serverOwned
    && v.providerSession == s.providerSession
    && v.intentAction == s.intentAction && v.intentId == s.intentId && v.intentStatus.EffectApplied?
    && v.identity == NO_IDENTITY && v.runtime.Stopping? && v.status.Unavailable? && !v.enabled
    && !v.providerActive && !v.providerReused && v.turn.NoTurn?
  }

  /** Nothing but one session and its member moves. */
  ghost predicate OnlyAgent(t: Tables, u: Tables, a: AgentId) {
    && a in t.participants && a in u.sessions && a in u.participants
    && u.sessions == t.sessions[a := u.sessions[a]] && u.participants == t.participants[a := u.participants[a]]
    && u.rows == t.rows && u.results == t.results && u.log == t.log && u.debits == t.debits
    && u.restarting == t.restarting && u.cleanup == t.cleanup
  }

  /** An unanswered effect of this generation can be asked about: its turn is in order and it is at work, or may be. */
  predicate MayBeAskedAbout(t: Tables, e: Ambient, a: AgentId) {
    && a in t.sessions && TurnInOrder(t.sessions[a])
    && t.sessions[a].intentStatus in {EffectInflight, Unconfirmed}
    && t.sessions[a].intentId.Operation? && t.sessions[a].intentId.key in t.rows
    && t.rows[t.sessions[a].intentId.key].generation == e.generation
  }

  /** What is decided for the session, and whether its member goes with it. */
  predicate IsDecided(s: Session, v: Session, detach: bool, o: Observation) {
    if s.intentAction.StartAction? then GivenBack(s, v, o) && !detach else HasStopped(s, v) && detach
  }

  lemma LiveDecision(s: Session, o: Observation, now: nat)
    requires s.IntentLegal() && s.intentStatus in {EffectInflight, Unconfirmed}
    ensures var r := LiveObserved(s, o, now);
      && (r.Ok? <==> IsAbout(s, o))
      && (r.Ok? ==> (r.value.Some? <==> o.Gone? || (o.Adopted? && s.intentAction.StartAction?)))
      && (r.Ok? && r.value.Some? ==> IsDecided(s, r.value.value.0, r.value.value.1, o))
  {
  }

  lemma MemberIsDetached(t: Tables, a: AgentId, now: nat)
    requires a in t.participants
    ensures DetachMember(t, a, now) == t.(participants := t.participants[a := DetachMember(t, a, now).participants[a]])
    ensures IsDetached(t.participants[a], DetachMember(t, a, now).participants[a], now)
  {
  }

  /** Asked about an unanswered effect, an observation decides: absence gives a start back and ends a stop, adoption
      gives a start back on the renamed runtime, and anything else that is about this runtime leaves the tables as
      they were. */
  lemma LiveObservationDecides(t: Tables, e: Ambient, a: AgentId, o: Observation)
    requires Inv(t) && MayBeAskedAbout(t, e, a)
    ensures var (s, step) := (t.sessions[a], LiveReconcile(t, e, a, t.sessions[a], o));
      && (step.Ok? <==> IsAbout(s, o))
      && (step.Ok? ==>
            var (u, reply) := step.value;
            if o.Gone? || (o.Adopted? && s.intentAction.StartAction?) then
              && reply == RetryOriginalEffect && OnlyAgent(t, u, a)
              && if s.intentAction.StartAction? then
                   GivenBack(s, u.sessions[a], o) && u.participants == t.participants
                 else HasStopped(s, u.sessions[a]) && IsDetached(t.participants[a], u.participants[a], e.now)
            else reply == StillUnresolved && u == t)
  {
    hide Inv, CandidateKey, RowNames, LiveObserved, IsAbout, GivenBack, HasStopped, IsDetached, DetachMember;
    StoredAuthorityIsConsistent(t, a);
    IntentHeld(t, a);
    PendingOwns(t, t.sessions[a].intentId.key);
    var s := t.sessions[a];
    LiveDecision(s, o, e.now);
    var observed := LiveObserved(s, o, e.now);
    if observed.Ok? && observed.value.Some? { MemberIsDetached(SaveSession(t, a, observed.value.value.0), a, e.now); }
  }

  /** Nothing else can be asked about: not what has no effect at work, what another generation let loose, or a session
      that is no longer what the observer saw. */
  lemma OnlyEffectsAreAskedAbout(t: Tables, e: Ambient, a: AgentId, seen: Session, o: Observation)
    requires Inv(t) && LiveReconcile(t, e, a, seen, o).Ok?
    ensures MayBeAskedAbout(t, e, a) && seen == t.sessions[a]
  {
    hide Inv, CandidateKey, RowNames, LiveObserved;
    CandidateExists(t, a);
    StoredAuthorityIsConsistent(t, a);
    IntentHeld(t, a);
  }

  /** No reconciliation acts on a session that is no longer what the observer saw, or whose turn is not in order. */
  lemma ReconciliationIsCurrent(t: Tables, e: Ambient, a: AgentId, seen: Session, o: Observation, blocking: bool)
    requires Inv(t)
    requires Reconcile(t, e, a, seen, o).Ok? || RejectAbandoned(t, e, a, seen).Ok? ||
             RecordIdleFailure(t, e, a, seen, blocking).Ok?
    ensures a in t.sessions && seen == t.sessions[a] && TurnInOrder(t.sessions[a])
    ensures RejectAbandoned(t, e, a, seen).Ok? ==> t.sessions[a].intentStatus.Prepared?
  {
    hide Inv, CandidateKey, RowNames, Observe, FinalizeRecoveredStop, RejectRecoveredStart;
    CandidateExists(t, a);
    StoredAuthorityIsConsistent(t, a);
  }

  lemma LiveKeepsInv(t: Tables, e: Ambient, a: AgentId, seen: Session, o: Observation)
    requires Inv(t) && LiveReconcile(t, e, a, seen, o).Ok?
    ensures Inv(LiveReconcile(t, e, a, seen, o).value.0)
  {
    hide Inv, LiveReconcile;
    StepKeepsInv(t, e, DoLiveReconcile(a, seen, o));
  }

  /** The request that owns the effect an agent is asked about, asked again by one who may. */
  predicate Owner(t: Tables, a: AgentId, q: Request) {
    && a in t.sessions && t.sessions[a].intentId.Operation? && q.Key() == t.sessions[a].intentId.key
    && q.Key() in t.rows && q.payload == t.rows[q.Key()].payload
    && q.principal.agentControl && !q.principal.bridge
  }

  /** Authorization under the action of the reservation. */
  function Authorize(t: Tables, e: Ambient, q: Request, action: Action, identity: Identity): Step {
    if action.Create? then AuthorizeCreateStart(t, e, q, Operation(q.Key(), Create), identity)
    else AuthorizeLaunch(t, e, q, action, Operation(q.Key(), action), identity)
  }

  /** A start that is given back can be let loose again by the request that owns it: on any complete runtime after
      an absence, and on the renamed one after an adoption. */
  lemma RetriedStartIsPossible(t: Tables, e: Ambient, f: Ambient, a: AgentId, o: Observation, q: Request,
                               identity: Identity)
    requires Inv(t) && MayBeAskedAbout(t, e, a) && IsAbout(t.sessions[a], o) && f.generation == e.generation
    requires (o.Gone? || o.Adopted?) && t.sessions[a].intentAction.StartAction? && Owner(t, a, q)
    ensures var u := After(t, LiveReconcile(t, e, a, t.sessions[a], o));
      && a in u.sessions && MatchingStartIntent(u.sessions[a], t.sessions[a].intentId) == Ok(true)
      && (Authorize(u, f, q, t.rows[q.Key()].action, identity).Ok? <==>
            && a !in t.cleanup && !identity.AnyBlank()
            && (o.Adopted? ==>
                  identity == Identity(t.sessions[a].identity.handle, o.newOwner, t.sessions[a].identity.lease)))
  {
    hide Inv, LiveReconcile, AuthorizeLaunch, AuthorizeCreateStart, LaunchPayload, PayloadAgent, Loose;
    var k := q.Key();
    LiveObservationDecides(t, e, a, o);
    LiveKeepsInv(t, e, a, t.sessions[a], o);
    var u := After(t, LiveReconcile(t, e, a, t.sessions[a], o));
    IntentHeld(t, a);
    OwnerIsRead(t, k);
    OwnerStarts(t, a, k);
    if t.rows[k].action.Create? { CreationIsAuthorized(u, f, q, a, identity); }
    else { LaunchIsAuthorized(u, f, q, t.rows[k].action, a, true, identity); }
  }

  lemma OwnerStarts(t: Tables, a: AgentId, k: Key)
    requires Inv(t) && a in t.sessions && t.sessions[a].intentId.Operation? && t.sessions[a].intentId.key == k
    requires PendingRow(t, k, a)
    ensures t.sessions[a].intentId == Operation(k, t.rows[k].action)
    ensures t.sessions[a].intentAction.StopAction? <==> t.rows[k].action.Stop?
  {
    hide Inv;
    PendingOwns(t, k);
    IntentHeld(t, a);
  }

  /** A stop whose runtime is gone can be finished by the request that owns it, and leaves its agent halted. */
  lemma RetriedStopIsPossible(t: Tables, e: Ambient, f: Ambient, a: AgentId, q: Request)
    requires Inv(t) && MayBeAskedAbout(t, e, a) && t.sessions[a].intentAction.StopAction? && Owner(t, a, q)
    ensures var u := After(t, LiveReconcile(t, e, a, t.sessions[a], Gone));
      && FinalizeStop(u, f, q).Ok?
      && var w := After(u, FinalizeStop(u, f, q));
      a in w.sessions && Halted(t.sessions[a], w.sessions[a], f.now) && w.rows == t.rows - {q.Key()}
  {
    hide Inv, LiveReconcile, FinalizeStop, PayloadAgent, IsNews;
    var k := q.Key();
    LiveObservationDecides(t, e, a, Gone);
    LiveKeepsInv(t, e, a, t.sessions[a], Gone);
    var u := After(t, LiveReconcile(t, e, a, t.sessions[a], Gone));
    IntentHeld(t, a);
    OwnerIsRead(t, k);
    OwnerStarts(t, a, k);
    StopIsFinished(u, f, q, a);
  }

  /** A pending reservation reads as what it is about. */
  lemma OwnerIsRead(t: Tables, k: Key)
    requires Inv(t) && k in t.rows && t.rows[k].status.Pending?
    ensures k !in t.results
    ensures var row := t.rows[k];
      && (row.action.Stop? ==> PayloadAgent(row.payload, {}) == Ok(row.session))
      && (row.action in {Start, Resume, Readd} ==> LaunchPayload(row.payload, row.action) == Ok((row.session, true)))
      && row.action in {Start, Resume, Readd, Create, Stop}
  {
    hide Inv;
    PendingOwns(t, k);
  }

  /** A start recorded as uncertain can be asked about exactly when its agent has no turn; a stop always can. */
  lemma UncertainCanBeAskedAbout(t: Tables, e: Ambient, a: AgentId, v: Session, reason: Reason)
    requires Inv(t) && MayBeAskedAbout(t, e, a) && Uncertain(t.sessions[a], v, reason)
    requires if t.sessions[a].intentAction.StartAction? then v.runtime.Disconnected? && v.turn == t.sessions[a].turn
             else if t.sessions[a].turn.ActiveTurn?
             then v.runtime == t.sessions[a].runtime && v.turn == t.sessions[a].turn
             else v.runtime.Disconnected? && v.turn.NoTurn?
    ensures MayBeAskedAbout(t.(sessions := t.sessions[a := v]), e, a) <==>
      t.sessions[a].intentAction.StopAction? || t.sessions[a].turn.NoTurn?
  {
    hide Inv;
    IntentHeld(t, a);
  }

  // ---------------------------------------------------------------- reconciliation at startup and shutdown

  /** A request given up before its effect: its agent keeps its runtime, and is down only if a start held none. */
  predicate GivenUp(s: Session, v: Session) {
    && KeepsProfile(s, v) && v.providerSession == s.providerSession && v.identity == s.identity && v.IntentEmpty()
    && !v.recoveryRequired
    && v.error == Note(if s.intentAction.StartAction? then AbandonedStart else AbandonedStop)
    && if s.intentAction.StartAction? && s.identity == NO_IDENTITY
       then v.status.Unavailable? && !v.enabled && v.runtime.RuntimeError? && !v.providerActive && !v.providerReused
       else v.status == s.status && v.enabled == s.enabled && v.runtime == s.runtime &&
            v.providerActive == s.providerActive && v.providerReused == s.providerReused
  }

  /** A start whose runtime turned out to be gone: the agent is down and holds nothing. */
  predicate GoneDown(s: Session, v: Session) {
    && KeepsProfile(s, v) && v.providerSession == s.providerSession && v.identity == NO_IDENTITY && v.IntentEmpty()
    && !v.recoveryRequired && v.error == Note(RecoveredStart) && v.status.Unavailable? && !v.enabled
    && v.runtime.RuntimeError? && !v.providerActive && !v.providerReused
  }

  lemma AbandonedOf(t: Tables, e: Ambient, a: AgentId, k: Key)
    requires a in t.sessions && PendingRow(t, k, a) && t.sessions[a].intentStatus.Prepared?
    ensures var (s, step) := (t.sessions[a], RejectAbandonedOf(t, e, a, Some(k)));
      && step.Ok?
      && RefusedWith(t, step.value.0, k, a, if s.intentAction.StartAction? then AbandonedStart else AbandonedStop,
                     t.rows[k].owner.participant)
      && GivenUp(s, step.value.0.sessions[a])
  {
    hide NewEvents, IsNews;
    NewsAre(t.log, [ErrorRaised, AgentSessionState], a, t.rows[k].owner.participant);
  }

  /** A request that never got to its effect is refused as abandoned, by whatever generation finds it, whatever is
      observed. */
  lemma AbandonedIsRefused(t: Tables, e: Ambient, a: AgentId, o: Observation)
    requires Inv(t) && a in t.sessions && TurnInOrder(t.sessions[a]) && t.sessions[a].intentStatus.Prepared?
    ensures var (s, step) := (t.sessions[a], RejectAbandoned(t, e, a, t.sessions[a]));
      && Reconcile(t, e, a, s, o) == step && step.Ok?
      && s.intentId.Operation? && s.intentId.key in t.rows
      && RefusedWith(t, step.value.0, s.intentId.key, a,
           if s.intentAction.StartAction? then AbandonedStart else AbandonedStop,
           t.rows[s.intentId.key].owner.participant)
      && GivenUp(s, step.value.0.sessions[a])
  {
    hide Inv, CandidateKey, RowNames, RejectAbandonedOf, RefusedWith, GivenUp;
    StoredAuthorityIsConsistent(t, a);
    IntentHeld(t, a);
    AbandonedOf(t, e, a, t.sessions[a].intentId.key);
  }

  /** A start whose runtime is gone is refused, and a stop that is applied, or whose runtime is gone, is finished,
      for the request that asked, by whatever generation finds it. */
  lemma AbsenceEnds(t: Tables, e: Ambient, a: AgentId, o: Observation)
    requires Inv(t) && a in t.sessions && TurnInOrder(t.sessions[a]) && !t.sessions[a].IntentEmpty()
    requires !t.sessions[a].intentStatus.Prepared?
    requires o.Gone? || t.sessions[a].intentStatus.EffectApplied?
    ensures var (s, step) := (t.sessions[a], Reconcile(t, e, a, t.sessions[a], o));
      && s.intentId.Operation? && s.intentId.key in t.rows
      && step.Ok?
      && var (u, row) := (step.value.0, t.rows[s.intentId.key]);
      if s.intentAction.StopAction? then
        StopDone(t, u, s.intentId.key, a, row.payload, row.owner.participant, e.now) && !u.sessions[a].providerReused
      else
        RefusedWith(t, u, s.intentId.key, a, RecoveredStart, row.owner.participant) && GoneDown(s, u.sessions[a])
  {
    hide Inv, CandidateKey, RowNames, FinalizeRecoveredStop, RejectRecoveredStart, Halted;
    StoredAuthorityIsConsistent(t, a);
    IntentHeld(t, a);
    var k := t.sessions[a].intentId.key;
    PendingOwns(t, k);
    if t.sessions[a].intentAction.StopAction? { RecoveredStopIsDone(t, e, a, k); }
    else { RecoveredStartIsRefused(t, e, a, k); }
  }

  lemma RecoveredStopIsDone(t: Tables, e: Ambient, a: AgentId, k: Key)
    requires a in t.sessions && a in t.participants && PendingRow(t, k, a) && t.rows[k].action.Stop?
    requires k !in t.results && t.rows[k].owner.id == k.principal
    ensures var step := FinalizeRecoveredStop(t, e, a, Some(k));
      && step.Ok?
      && StopDone(t, step.value.0, k, a, t.rows[k].payload, t.rows[k].owner.participant, e.now)
      && !step.value.0.sessions[a].providerReused
  {
    hide NewEvents, IsNews, IsDetached, DetachMember;
    var row := t.rows[k];
    NewsAre(t.log, [SessionDetached, AgentSessionState], a, row.owner.participant);
    var saved := SaveSession(t.(rows := t.rows - {k}), a, StoppedSession(t.sessions[a], false, e.now));
    MemberIsDetached(saved, a, e.now);
    var u := FinalizeRecoveredStop(t, e, a, Some(k)).value.0;
    assert u.results == t.results[k := u.results[k]];
  }

  lemma RecoveredStartIsRefused(t: Tables, e: Ambient, a: AgentId, k: Key)
    requires a in t.sessions && PendingRow(t, k, a)
    ensures var step := RejectRecoveredStart(t, e, a, Some(k));
      && step.Ok?
      && RefusedWith(t, step.value.0, k, a, RecoveredStart, t.rows[k].owner.participant)
      && GoneDown(t.sessions[a], step.value.0.sessions[a])
  {
    hide NewEvents, IsNews;
    NewsAre(t.log, [ErrorRaised, AgentSessionState], a, t.rows[k].owner.participant);
  }

  /** Taken over by another owner the runtime is the same but for its owner; a turn it was running is lost. */
  predicate TakenOver(s: Session, v: Session, o: Observation)
    requires o.Adopted?
  {
    && v.profile == s.profile && v.providerKind == s.providerKind && v.serverOwned == s.serverOwned
    && v.providerSession == s.providerSession && v.providerReused == s.providerReused
    && v.intentAction == s.intentAction && v.intentId == s.intentId && v.intentStatus == s.intentStatus
    && v.identity == Identity(s.identity.handle, o.newOwner, s.identity.lease) && !v.providerActive && v.turn.NoTurn?
    && if s.turn.ActiveTurn? then
         v.status.Unavailable? && !v.enabled && v.runtime.Recovering? && v.recoveryRequired && v.error.TurnError?
       else
         v.status == s.status && v.enabled == s.enabled && v.runtime == s.runtime && v.error == s.error &&
         v.recoveryRequired == s.recoveryRequired
  }

  /** Out of service until its runtime is found out about: what it holds it keeps, and an effect is uncertain. */
  predicate InDoubt(s: Session, v: Session) {
    && v.profile == s.profile && v.providerKind == s.providerKind && v.serverOwned == s.serverOwned
    && v.providerSession == s.providerSession && v.identity == s.identity
    && v.intentAction == s.intentAction && v.intentId == s.intentId
    && v.intentStatus == (if s.intentStatus.EffectInflight? then Unconfirmed else s.intentStatus)
    && v.status.Unavailable? && !v.enabled && v.runtime.Disconnected? && !v.providerActive && !v.providerReused
    && v.turn.NoTurn? && v.recoveryRequired && v.error.AuthorityUncertain?
  }

  /** Gone, an agent in no operation holds nothing; one that was in service is stopped and out of it. */
  predicate IsGone(s: Session, v: Session) {
    && v.profile == s.profile && v.providerKind == s.providerKind && v.serverOwned == s.serverOwned
    && v.providerSession == s.providerSession && v.identity == NO_IDENTITY && v.IntentEmpty()
    && if s.runtime in {Stopped, RuntimeError} then
         v.status == s.status && v.enabled == s.enabled && v.turn == s.turn && v.error == s.error
       else
         v.status.Unavailable? && !v.enabled && v.runtime.Stopped? && v.turn.NoTurn? && !v.providerActive &&
         !v.providerReused && !v.recoveryRequired && v.error.NoError?
  }

  /** What an observation that ends no request makes of a session: `removed` says that its removal is pending, so
      that a proven absence counts as its stop. */
  predicate IsObserved(s: Session, v: Session, o: Observation, removed: bool) {
    match o
    case Adopted(_, _, _, _) => TakenOver(s, v, o)
    case Gone =>
      if removed then v.runtime.Stopped? && !v.recoveryRequired && v.identity == NO_IDENTITY && v.IntentEmpty()
      else IsGone(s, v)
    case LeaseUncertain(_, _, _) => InDoubt(s, v)
    case Ambiguous(_) => InDoubt(s, v)
  }

  predicate LosesMember(s: Session, o: Observation) {
    match o
    case Adopted(_, _, _, _) => s.turn.ActiveTurn?
    case Gone => s.runtime !in {Stopped, RuntimeError} || s.identity != NO_IDENTITY
    case _ => true
  }

  /** The decision an observation makes of a session that has no request it could end. */
  ghost predicate Decides(s: Session, o: Observation, now: nat, removed: bool) {
    var r := Observed(s, o, now);
    && (r.Ok? <==> IsAbout(s, o))
    && (r.Ok? ==> IsObserved(s, Fenced(r.value.0, o.Gone? && removed), o, removed) && r.value.1 == LosesMember(s, o))
  }

  predicate Undecided(s: Session) {
    s.IntentEmpty() || (s.IntentLegal() && s.intentStatus in {EffectInflight, Unconfirmed})
  }

  lemma AdoptionDecides(s: Session, o: Observation, now: nat, removed: bool)
    requires TurnInOrder(s) && Undecided(s) && o.Adopted?
    ensures Decides(s, o, now, removed)
  {
    hide AfterGone, Retained, ConfirmedStop, CheckUncertain, InDoubt, IsGone;
  }

  lemma AbsenceDecides(s: Session, now: nat, removed: bool)
    requires s.identity.Uniform() && TurnInOrder(s) && s.IntentEmpty()
    ensures Decides(s, Gone, now, removed)
  {
    hide Retained, ConfirmedStop, CheckAdoption, CheckUncertain, TakenOver, InDoubt;
  }

  lemma DoubtDecides(s: Session, o: Observation, now: nat, removed: bool)
    requires Undecided(s) && (o.LeaseUncertain? || o.Ambiguous?)
    ensures Decides(s, o, now, removed)
  {
    hide AfterGone, ConfirmedStop, CheckAdoption, TakenOver, IsGone;
  }

  /** Any other observation that is about its runtime leaves the agent's request, if it has one, to be answered, and
      puts the agent in the state it found. */
  lemma ObservationIsApplied(t: Tables, e: Ambient, a: AgentId, o: Observation)
    requires Inv(t) && a in t.sessions && TurnInOrder(t.sessions[a])
    requires var s := t.sessions[a];
      s.IntentEmpty() || (s.intentStatus in {EffectInflight, Unconfirmed} && !o.Gone?)
    ensures var (s, step) := (t.sessions[a], Reconcile(t, e, a, t.sessions[a], o));
      && (step.Ok? <==> IsAbout(s, o))
      && (step.Ok? ==>
            var u := step.value.0;
            && OnlyAgent(t, u, a) && IsObserved(s, u.sessions[a], o, a in t.cleanup)
            && (if LosesMember(s, o) then IsDetached(t.participants[a], u.participants[a], e.now)
                else u.participants == t.participants))
  {
    hide Inv, CandidateKey, RowNames, Observed, IsAbout, IsObserved, IsDetached, DetachMember, LosesMember, Fenced;
    StoredAuthorityIsConsistent(t, a);
    IntentHeld(t, a);
    var s := t.sessions[a];
    match o {
      case Adopted(_, _, _, _) => AdoptionDecides(s, o, e.now, a in t.cleanup);
      case Gone => AbsenceDecides(s, e.now, a in t.cleanup);
      case LeaseUncertain(_, _, _) => DoubtDecides(s, o, e.now, a in t.cleanup);
      case Ambiguous(_) => DoubtDecides(s, o, e.now, a in t.cleanup);
    }
    var r := Observed(s, o, e.now);
    if r.Ok? { MemberIsDetached(SaveSession(t, a, Fenced(r.value.0, o.Gone? && a in t.cleanup)), a, e.now); }
  }
}
