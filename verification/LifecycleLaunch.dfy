/** What a launch asks for and what it achieves: when each of its steps is accepted, what the step leaves behind,
    and that a planned launch goes through, fails cleanly, or can be tried again. */
module LifecycleLaunch {
  import opened Wrappers
  import opened LifecycleModel
  import opened LifecycleSteps
  import opened LifecycleInvariant
  import opened LifecycleMoves
  import opened LifecycleRuns

  // ---------------------------------------------------------------- reading a request

  /** Of the three names for the agent a payload has exactly one, and beside it only what else is allowed. */
  predicate NamesAgent(payload: Payload, a: AgentId, also: set<FieldName>) {
    && payload.Fields?
    && exists k | k in payload.fields ::
         k in {AgentIdField, ParticipantIdField, SessionIdField} && payload.fields[k] == Identifier(a) &&
         payload.fields.Keys - also == {k}
  }

  lemma AgentIsRead(payload: Payload, also: set<FieldName>, a: AgentId)
    requires also !! {AgentIdField, ParticipantIdField, SessionIdField}
    ensures PayloadAgent(payload, also) == Ok(a) <==> NamesAgent(payload, a, also)
  {
    if payload.Fields? {
      var f := payload.fields;
      if PayloadAgent(payload, also).Ok? {
        var k := if AgentIdField in f then AgentIdField else if ParticipantIdField in f then ParticipantIdField
                 else SessionIdField;
        assert f.Keys - also == {k};
      }
      forall k | k in f && k in AGENT_ID_KEYS && f[k] == Identifier(a) && f.Keys - also == {k}
        ensures PayloadAgent(payload, also) == Ok(a)
      {
        assert forall x | x in f.Keys :: x in also || x in f.Keys - also;
      }
    }
  }

  /** The start flag a re-add gives: both spellings that are there say it, and saying nothing is saying no. */
  predicate AsksStart(fields: map<FieldName, Field>, start: bool) {
    && (forall k | k in {StartField, StartNowField} && k in fields :: fields[k] == Flag(start))
    && (start ==> StartField in fields || StartNowField in fields)
  }

  /** A start or resume names its agent and nothing else; a re-add may also say whether to start. */
  lemma LaunchIsRead(payload: Payload, action: Action, a: AgentId, start: bool)
    ensures LaunchPayload(payload, action) == Ok((a, start)) <==>
      if action in {Start, Resume} then start && NamesAgent(payload, a, {})
      else action.Readd? && NamesAgent(payload, a, {StartField, StartNowField}) && AsksStart(payload.fields, start)
  {
    hide PayloadAgent, NamesAgent;
    AgentIsRead(payload, {}, a);
    AgentIsRead(payload, {StartField, StartNowField}, a);
    if PayloadAgent(payload, {StartField, StartNowField}).Ok? {
      AgentIsRead(payload, {StartField, StartNowField}, PayloadAgent(payload, {StartField, StartNowField}).value);
    }
    if NamesAgent(payload, a, {StartField, StartNowField}) { NamesFields(payload, a, {StartField, StartNowField}); }
  }

  lemma NamesFields(payload: Payload, a: AgentId, also: set<FieldName>)
    requires NamesAgent(payload, a, also)
    ensures payload.Fields?
  {
  }

  // ---------------------------------------------------------------- when a launch may be prepared

  /** The two lists of a turn agree: one that is assigned runs or is being stopped, none leaves no busy runtime. */
  predicate TurnInOrder(s: Session) { if s.turn.NoTurn? then !s.runtime.Busy? else s.runtime in {Busy, Stopping} }

  /** Whoever may control agents may launch one of the room's own that is in no operation, has the current profile
      and is a member that was neither exported nor kicked. A re-add is for one that is gone and holds nothing. */
  predicate MayLaunch(t: Tables, p: Principal, action: Action, a: AgentId) {
    && p.agentControl && !p.bridge
    && a in t.sessions && a in t.participants && a !in t.cleanup
    && var s, m := t.sessions[a], t.participants[a];
       && s.serverOwned && s.profile.version == 5 && s.IntentEmpty() && TurnInOrder(s)
       && !m.status.Exported? && (m.status.Kicked? ==> action.Readd?)
       && (action.Readd? ==>
             && m.agent && m.status in {DetachedMember, Kicked}
             && !s.enabled && !s.recoveryRequired && !s.providerActive && s.runtime in {Stopped, RuntimeError}
             && s.turn.NoTurn? && s.identity == Identity(Blank, Blank, Blank))
  }

  /** Events of these kinds about an agent, with the next numbers of the log. */
  predicate IsNews(log: seq<Event>, news: seq<Event>, kinds: seq<EventKind>, a: AgentId, actor: string) {
    && |news| == |kinds|
    && forall i | 0 <= i < |news| ::
         news[i] == Event((if log == [] then 1 else log[|log| - 1].number + 1) + i, kinds[i], a, actor)
  }

  lemma NewsAre(log: seq<Event>, kinds: seq<EventKind>, a: AgentId, actor: string)
    ensures IsNews(log, NewEvents(log, kinds, a, actor), kinds, a, actor)
  {
  }

  predicate IsNew(t: Tables, k: Key) { k !in t.rows && k !in t.results }

  /** Nothing but this session moves. */
  ghost predicate OnlySession(t: Tables, u: Tables, a: AgentId) {
    && a in u.sessions && u.sessions == t.sessions[a := u.sessions[a]]
    && u.participants == t.participants && u.results == t.results && u.log == t.log
    && u.restarting == t.restarting && u.cleanup == t.cleanup
  }

  /** What no launch step touches of a session. */
  predicate KeepsProfile(s: Session, v: Session) {
    && v.profile == s.profile && v.providerKind == s.providerKind && v.serverOwned == s.serverOwned && v.turn == s.turn
  }

  /** A session that is on its way up: listed and enabled, with a runtime that starts or goes on as it was. */
  predicate OnItsWay(s: Session, v: Session, operation: OperationId, status: IntentStatus) {
    && KeepsProfile(s, v)
    && v.status.Available? && v.enabled && v.error.NoError? && !v.recoveryRequired
    && v.runtime in {Starting, Idle, Busy, Paused} && (v.runtime == s.runtime || v.runtime.Starting?)
    && (s.runtime in {Idle, Busy, Paused} ==> v.runtime == s.runtime)
    && v.providerActive == s.providerActive && v.providerReused == s.providerReused
    && v.providerSession == s.providerSession
    && v.intentAction.StartAction? && v.intentId == operation && v.intentStatus == status
  }

  /** A planned launch: reserved, charged, and the operation of its session. */
  ghost predicate Planned(t: Tables, u: Tables, e: Ambient, q: Request, action: Action, a: AgentId) {
    && a in t.sessions && OnlySession(t, u, a)
    && u.debits == t.debits + 1
    && u.rows == t.rows[q.Key() := Row(action, q.payload, a, Operation(q.Key(), action), e.generation,
                                       LifecyclePrepared, NoResult, q.principal, Pending)]
    && OnItsWay(t.sessions[a], u.sessions[a], Operation(q.Key(), action), Prepared)
    && u.sessions[a].identity == t.sessions[a].identity && u.sessions[a].updatedAt == e.now
  }

  /** A re-add that does not start lists the agent as stopped and is answered at once. */
  ghost predicate Listed(t: Tables, u: Tables, e: Ambient, q: Request, a: AgentId) {
    && a in t.sessions && a in t.participants && a in u.sessions
    && var s, v := t.sessions[a], u.sessions[a];
    && u.sessions == t.sessions[a := v] && u.rows == t.rows && u.debits == t.debits + 1
    && KeepsProfile(s, v) && v.status.Available? && v.runtime.Stopped? && v.error.NoError? && !v.enabled
    && v.identity.AllBlank() && v.IntentEmpty() && v.updatedAt == e.now
    && u.participants == t.participants[a := t.participants[a].(status := DetachedMember, updatedAt := e.now)]
    && q.Key() in u.results && u.results == t.results[q.Key() := u.results[q.Key()]]
    && var result := u.results[q.Key()];
    && result == StoredResult(Readd, q.payload, Relisted, result.events) && u.log == t.log + result.events
    && IsNews(t.log, result.events, [AgentSessionReactivated], a, q.principal.participant)
    && u.cleanup == t.cleanup && u.restarting == t.restarting
  }

  lemma NewLaunchIsPlanned(t: Tables, e: Ambient, q: Request, action: Action, a: AgentId)
    requires LaunchPayload(q.payload, action) == Ok((a, true)) && IsNew(t, q.Key()) &&
      PrepareLaunch(t, e, q, action).Ok?
    requires a in t.sessions && t.sessions[a].IntentEmpty()
    ensures var (u, reply) := PrepareLaunch(t, e, q, action).value;
      Planned(t, u, e, q, action, a) && reply == StartPlan(Operation(q.Key(), action), u.sessions[a])
  {
    hide LaunchPayload, RequireReaddable;
  }

  lemma NewLaunchIsListed(t: Tables, e: Ambient, q: Request, action: Action, a: AgentId)
    requires LaunchPayload(q.payload, action) == Ok((a, false)) && IsNew(t, q.Key())
    requires PrepareLaunch(t, e, q, action).Ok? && a in t.sessions && t.sessions[a].IntentEmpty()
    ensures Listed(t, PrepareLaunch(t, e, q, action).value.0, e, q, a) &&
            PrepareLaunch(t, e, q, action).value.1.Committed?
  {
    hide LaunchPayload;
    OnlyReaddsList(q.payload, action);
    assert t.rows[q.Key() := LaunchRow(e, q, action, a, Operation(q.Key(), action))] - {q.Key()} == t.rows;
    NewsAre(t.log, [AgentSessionReactivated], a, q.principal.participant);
  }

  lemma NewLaunchIsAccepted(t: Tables, e: Ambient, q: Request, action: Action, a: AgentId, start: bool)
    requires Inv(t) && LaunchPayload(q.payload, action) == Ok((a, start)) && IsNew(t, q.Key())
    ensures PrepareLaunch(t, e, q, action).Ok? <==>
      MayLaunch(t, q.principal, action, a) && !t.restarting && e.budget
    ensures PrepareLaunch(t, e, q, action).Ok? ==> a in t.sessions && t.sessions[a].IntentEmpty()
  {
    hide LaunchPayload, Inv;
    LaunchActions(q.payload, action);
    OnlyReaddsList(q.payload, action);
    if a in t.sessions { IntentHeld(t, a); }
  }

  /** A new launch is accepted if and only if it may be and the room admits it; then it is planned, or the agent
      is listed. */
  lemma LaunchIsPrepared(t: Tables, e: Ambient, q: Request, action: Action, a: AgentId, start: bool)
    requires Inv(t) && LaunchPayload(q.payload, action) == Ok((a, start)) && IsNew(t, q.Key())
    ensures var step := PrepareLaunch(t, e, q, action);
      && (step.Ok? <==> MayLaunch(t, q.principal, action, a) && !t.restarting && e.budget)
      && (step.Ok? && start ==>
            Planned(t, step.value.0, e, q, action, a) &&
            step.value.1 == StartPlan(Operation(q.Key(), action), step.value.0.sessions[a]))
      && (step.Ok? && !start ==> Listed(t, step.value.0, e, q, a) && step.value.1.Committed?)
  {
    hide LaunchPayload, Inv, PrepareLaunch, Listed, MayLaunch;
    NewLaunchIsAccepted(t, e, q, action, a, start);
    if PrepareLaunch(t, e, q, action).Ok? {
      if start { NewLaunchIsPlanned(t, e, q, action, a); } else { NewLaunchIsListed(t, e, q, action, a); }
    }
  }

  lemma OnlyReaddsList(payload: Payload, action: Action)
    requires LaunchPayload(payload, action).Ok?
    ensures action.Readd? || LaunchPayload(payload, action).value.1
  {
  }

  // ---------------------------------------------------------------- letting the effect loose

  /** The reservation of a launch as it was made: the same request, still outstanding. */
  predicate Outstanding(t: Tables, q: Request, action: Action, a: AgentId) {
    && q.Key() in t.rows && a in t.sessions
    && var row := t.rows[q.Key()];
       row.action == action && row.payload == q.payload && row.session == a && row.status.Pending?
  }

  lemma StartIsLoose(s: Session, id: OperationId, identity: Identity)
    requires s.identity.Uniform()
    ensures var r := AuthorizedStart(s, id, identity);
      && (r.Ok? <==>
            && s.intentAction.StartAction? && s.intentId == id && s.intentStatus.Prepared?
            && !identity.AnyBlank() && s.identity in {NO_IDENTITY, identity})
      && (r.Ok? ==> OnItsWay(s, r.value, id, EffectInflight) && r.value.identity == identity &&
                    r.value.updatedAt == s.updatedAt)
  {
  }

  /** A launch effect is let loose if and only if its own reservation of this generation is outstanding and
      prepared, and the runtime is the one that is held, or any complete one when none is. */
  lemma LaunchIsAuthorized(t: Tables, e: Ambient, q: Request, action: Action, a: AgentId, start: bool,
                           identity: Identity)
    requires Inv(t) && LaunchPayload(q.payload, action) == Ok((a, start))
    ensures var step := AuthorizeLaunch(t, e, q, action, Operation(q.Key(), action), identity);
      && (step.Ok? <==>
            && Outstanding(t, q, action, a) && t.rows[q.Key()].generation == e.generation && a !in t.cleanup
            && t.sessions[a].intentStatus.Prepared? && !identity.AnyBlank()
            && t.sessions[a].identity in {NO_IDENTITY, identity})
      && (step.Ok? ==> Loose(t, step.value.0, a, Operation(q.Key(), action), identity) &&
                       step.value.1 == StartPlan(Operation(q.Key(), action), step.value.0.sessions[a]))
  {
    hide LaunchPayload, Inv, AuthorizedStart, OnItsWay, RowNames;
    LaunchActions(q.payload, action);
    if Outstanding(t, q, action, a) {
      PendingOwns(t, q.Key());
      LaunchRowOf(t, e, q, action, a);
    }
    if a in t.sessions {
      IntentHeld(t, a);
      StartIsLoose(t.sessions[a], Operation(q.Key(), action), identity);
    }
  }

  /** An outstanding launch is the row its request would make, and owns the start of its session. */
  lemma LaunchRowOf(t: Tables, e: Ambient, q: Request, action: Action, a: AgentId)
    requires Inv(t) && Outstanding(t, q, action, a) && action in {Start, Resume, Readd}
    ensures Holds(t, q.Key(), LaunchRow(e, q, action, a, Operation(q.Key(), action)))
    ensures t.sessions[a].intentAction.StartAction? && t.sessions[a].intentId == Operation(q.Key(), action)
  {
    hide Inv, RowNames;
    PendingOwns(t, q.Key());
  }

  /** The effect is at work on this runtime. */
  ghost predicate Loose(t: Tables, u: Tables, a: AgentId, operation: OperationId, identity: Identity) {
    && a in t.sessions && OnlySession(t, u, a) && u.rows == t.rows && u.debits == t.debits
    && OnItsWay(t.sessions[a], u.sessions[a], operation, EffectInflight)
    && u.sessions[a].identity == identity && u.sessions[a].updatedAt == t.sessions[a].updatedAt
  }

  // ---------------------------------------------------------------- completion

  /** What a provider reports back belongs to the effect: the same runtime, an active provider with a name, and a
      reused one that is the stored one. */
  predicate Confirms(s: Session, started: Started) {
    && !started.identity.AnyBlank() && s.identity == started.identity
    && (started.providerActive ==> started.providerSession.Named?)
    && (started.providerReused ==>
          started.providerActive && s.providerSession.Named? && started.providerSession == s.providerSession)
  }

  /** A started session: attached, enabled and in no operation, on the runtime that was confirmed, with the provider
      session that was named, or the one it had; a runtime that was reused goes on, any other is idle. */
  predicate Runs(s: Session, v: Session, started: Started, now: nat) {
    && KeepsProfile(s, v)
    && v.status.Attached? && v.enabled && !v.recoveryRequired && v.error.NoError? && v.IntentEmpty()
    && v.identity == started.identity && v.updatedAt == now
    && v.providerActive == started.providerActive && v.providerReused == started.providerReused
    && v.providerSession == (if started.providerSession.Named? then started.providerSession else s.providerSession)
    && (if started.runtimeReused && s.runtime in {Busy, Paused} then v.runtime == s.runtime else v.runtime.Idle?)
  }

  lemma StartedRuns(s: Session, started: Started, now: nat)
    ensures Runs(s, RuntimeStarted(s, started, now), started, now)
    ensures ValidateStarted(s, started).Pass? <==> Confirms(s, started)
  {
  }

  /** The launch is over: its session runs, its member has joined, its reservation is gone, and the room is told. */
  ghost predicate LaunchDone(t: Tables, u: Tables, e: Ambient, q: Request, a: AgentId, started: Started,
                           news: seq<Event>) {
    && a in t.sessions && a in t.participants && a in u.sessions && a in u.participants
    && u.sessions == t.sessions[a := u.sessions[a]] && Runs(t.sessions[a], u.sessions[a], started, e.now)
    && u.participants == t.participants[a := t.participants[a].(status := Joined, updatedAt := e.now)]
    && u.rows == t.rows - {q.Key()} && u.debits == t.debits
    && u.restarting == t.restarting && u.cleanup == t.cleanup
    && u.log == t.log + news
    && IsNews(t.log, news, if t.participants[a].status.Joined? then [SessionAttached, AgentSessionState]
                           else [ParticipantJoined, SessionAttached, AgentSessionState], a, q.principal.participant)
  }

  /** The answer to a launch tells whether the runtime was reused. */
  ghost predicate AnsweredLaunch(t: Tables, u: Tables, q: Request, action: Action, started: Started,
                                 news: seq<Event>) {
    u.results == t.results[q.Key() := StoredResult(action, q.payload,
      if action.Readd? then Readded(started.runtimeReused) else ResultKind.Launched(started.runtimeReused), news)]
  }

  /** A launch completes if and only if its reservation is outstanding with the effect at work and the report is
      about it. */
  lemma LaunchIsCompleted(t: Tables, e: Ambient, q: Request, action: Action, a: AgentId, start: bool, started: Started)
    requires Inv(t) && LaunchPayload(q.payload, action) == Ok((a, start)) && q.Key() !in t.results
    ensures var step := CompleteLaunch(t, e, q, action, Operation(q.Key(), action), started);
      && (step.Ok? <==>
            && Outstanding(t, q, action, a) && a !in t.cleanup && t.sessions[a].intentStatus.EffectInflight?
            && Confirms(t.sessions[a], started))
      && (step.Ok? ==>
            && step.value.1.Committed?
            && LaunchDone(t, step.value.0, e, q, a, started, step.value.1.result.events)
            && AnsweredLaunch(t, step.value.0, q, action, started, step.value.1.result.events)
            && step.value.0.results[q.Key()] == step.value.1.result)
  {
    hide LaunchPayload, Inv, RuntimeStarted, ValidateStarted, Runs, Confirms, RowNames, LaunchKinds, NewEvents, IsNews;
    LaunchActions(q.payload, action);
    if Outstanding(t, q, action, a) { LaunchRowOf(t, e, q, action, a); }
    if a in t.sessions {
      IntentHeld(t, a);
      StartedRuns(t.sessions[a], started, e.now);
      LaunchNews(t, a, q.principal.participant);
    }
  }

  lemma LaunchNews(t: Tables, a: AgentId, actor: string)
    requires a in t.participants
    ensures IsNews(t.log, NewEvents(t.log, LaunchKinds(!t.participants[a].status.Joined?), a, actor),
      if t.participants[a].status.Joined? then [SessionAttached, AgentSessionState]
      else [ParticipantJoined, SessionAttached, AgentSessionState], a, actor)
  {
  }

  // ---------------------------------------------------------------- failure

  predicate MayStore(reason: Reason) { reason.Given? ==> reason.storable }

  /** A session whose launch was refused: in no operation, with the reason. After the effect its runtime is gone
      and it is down; before it, it keeps what it held, and is down only if it held nothing. */
  predicate Down(s: Session, v: Session, reason: Reason, effect: bool) {
    && KeepsProfile(s, v) && v.IntentEmpty() && v.error == Note(reason)
    && v.identity == (if effect then NO_IDENTITY else s.identity)
    && (if effect || s.identity == NO_IDENTITY
        then v.status.Unavailable? && !v.enabled && v.runtime.RuntimeError? && !v.providerActive
        else v.status == s.status && v.enabled == s.enabled && v.runtime == s.runtime &&
             v.providerActive == s.providerActive)
    && v.recoveryRequired == s.recoveryRequired && v.providerReused == s.providerReused
    && v.providerSession == s.providerSession
  }

  /** The request is refused for good with this reason, and the room is told. */
  ghost predicate RefusedWith(t: Tables, u: Tables, k: Key, a: AgentId, reason: Reason, actor: string) {
    && k in t.rows && a in u.sessions
    && u.rows == t.rows[k := t.rows[k].(status := Refused(reason))]
    && u.sessions == t.sessions[a := u.sessions[a]] && u.participants == t.participants
    && u.results == t.results && u.debits == t.debits && u.cleanup == t.cleanup && u.restarting == t.restarting
    && |t.log| <= |u.log| && u.log[..|t.log|] == t.log
    && IsNews(t.log, u.log[|t.log|..], [ErrorRaised, AgentSessionState], a, actor)
  }

  lemma FailureIsDown(s: Session, reason: Reason, effect: bool, now: nat)
    ensures Down(s, FailedLaunchSession(s, reason, effect, now), reason, effect)
  {
  }

  lemma FailureRefuses(t: Tables, e: Ambient, q: Request, row: Row, reason: Reason, effect: bool)
    ensures var step := LaunchFailed(t, e, q, row, reason, effect);
      && (step.Ok? <==>
            && row.session in t.sessions && Holds(t, q.Key(), row) && MayStore(reason)
            && t.sessions[row.session].intentAction.StartAction? && t.sessions[row.session].intentId == row.operation
            && t.sessions[row.session].intentStatus == (if effect then EffectInflight else Prepared))
      && (step.Ok? ==>
            && RefusedWith(t, step.value.0, q.Key(), row.session, reason, q.principal.participant)
            && Down(t.sessions[row.session], step.value.0.sessions[row.session], reason, effect))
  {
    hide FailedLaunchSession, Down, NewEvents, IsNews;
    NewsAre(t.log, [ErrorRaised, AgentSessionState], row.session, q.principal.participant);
    if row.session in t.sessions { FailureIsDown(t.sessions[row.session], reason, effect, e.now); }
  }

  /** A launch fails if and only if its reservation is outstanding at that point and the reason can be stored. */
  lemma LaunchIsRefused(t: Tables, e: Ambient, q: Request, action: Action, a: AgentId, start: bool, reason: Reason,
                        effect: bool)
    requires Inv(t) && LaunchPayload(q.payload, action) == Ok((a, start))
    ensures var step := FailLaunch(t, e, q, action, Operation(q.Key(), action), reason, effect);
      && (step.Ok? <==>
            && Outstanding(t, q, action, a) && MayStore(reason)
            && t.sessions[a].intentStatus == (if effect then EffectInflight else Prepared))
      && (step.Ok? ==>
            && RefusedWith(t, step.value.0, q.Key(), a, reason, q.principal.participant)
            && Down(t.sessions[a], step.value.0.sessions[a], reason, effect))
  {
    hide LaunchPayload, Inv, LaunchFailed, Down, RefusedWith, RowNames;
    LaunchActions(q.payload, action);
    FailureRefuses(t, e, q, LaunchRow(e, q, action, a, Operation(q.Key(), action)), reason, effect);
    if Outstanding(t, q, action, a) { LaunchRowOf(t, e, q, action, a); }
  }

  // ---------------------------------------------------------------- uncertainty

  /** A session whose effect may or may not be at work: out of service until it is found out, on the runtime it had. */
  predicate Uncertain(s: Session, v: Session, reason: Reason) {
    && v.profile == s.profile && v.providerKind == s.providerKind && v.serverOwned == s.serverOwned
    && v.status.Unavailable? && !v.enabled && v.recoveryRequired && v.error == Note(reason)
    && v.identity == s.identity && v.providerSession == s.providerSession
    && v.intentAction == s.intentAction && v.intentId == s.intentId && v.intentStatus.Unconfirmed?
  }

  /** The outcome of a start is recorded as uncertain exactly when its effect is at work on this very runtime. */
  lemma StartIsUncertain(t: Tables, e: Ambient, p: Principal, a: AgentId, operation: OperationId, handle: Token,
                         owner: Token, reason: Reason)
    ensures var step := MarkStartUnconfirmed(t, e, p, a, operation, handle, owner, reason);
      && (step.Ok? <==>
            && a in t.sessions && t.sessions[a].intentAction.StartAction? && t.sessions[a].intentId == operation
            && t.sessions[a].intentStatus.EffectInflight? && handle.Named? && owner.Named?
            && t.sessions[a].identity.handle == handle && t.sessions[a].identity.owner == owner)
      && (step.Ok? ==>
            var u := step.value.0;
            && a in u.sessions && Uncertain(t.sessions[a], u.sessions[a], reason)
            && u.sessions[a].runtime.Disconnected? && u.sessions[a].turn == t.sessions[a].turn
            && !u.sessions[a].providerActive && !u.sessions[a].providerReused
            && u.sessions == t.sessions[a := u.sessions[a]] && u.participants == t.participants
            && u.rows == t.rows && u.results == t.results && u.debits == t.debits && u.cleanup == t.cleanup)
  {
  }

  // ---------------------------------------------------------------- what a launch achieves

  lemma PreparationKeepsInv(t: Tables, e: Ambient, q: Request, action: Action)
    requires Inv(t) && PrepareLaunch(t, e, q, action).Ok?
    ensures Inv(PrepareLaunch(t, e, q, action).value.0)
  {
    hide Inv, PrepareLaunch;
    StepKeepsInv(t, e, DoPrepareLaunch(q, action));
  }

  lemma AuthorizationKeepsInv(t: Tables, e: Ambient, q: Request, action: Action, operation: OperationId,
                              identity: Identity)
    requires Inv(t) && AuthorizeLaunch(t, e, q, action, operation, identity).Ok?
    ensures Inv(AuthorizeLaunch(t, e, q, action, operation, identity).value.0)
  {
    hide Inv, AuthorizeLaunch;
    StepKeepsInv(t, e, DoAuthorizeLaunch(q, action, operation, identity));
  }

  /** A launch that may be made and is reported back as started goes through: planned, let loose by the generation
      that planned it and completed, it leaves the agent running, its request answered and nothing reserved. */
  lemma LaunchGoesThrough(t: Tables, e: Ambient, f: Ambient, g: Ambient, q: Request, action: Action, a: AgentId,
                          started: Started)
    requires Inv(t) && LaunchPayload(q.payload, action) == Ok((a, true)) && IsNew(t, q.Key())
    requires MayLaunch(t, q.principal, action, a) && !t.restarting && e.budget && f.generation == e.generation
    requires t.sessions[a].identity in {NO_IDENTITY, started.identity}
    requires Confirms(t.sessions[a].(identity := started.identity), started)
    ensures var operation := Operation(q.Key(), action);
      var planned := PrepareLaunch(t, e, q, action);
      && planned.Ok?
      && var loose := AuthorizeLaunch(planned.value.0, f, q, action, operation, started.identity);
      && loose.Ok?
      && var done := CompleteLaunch(loose.value.0, g, q, action, operation, started);
      && done.Ok? && done.value.1.Committed?
      && var u := done.value.0;
      && a in u.sessions && a in u.participants && Runs(t.sessions[a], u.sessions[a], started, g.now)
      && u.sessions == t.sessions[a := u.sessions[a]]
      && u.participants == t.participants[a := t.participants[a].(status := Joined, updatedAt := g.now)]
      && u.rows == t.rows && u.debits == t.debits + 1
      && u.results == t.results[q.Key() := done.value.1.result] && u.log == t.log + done.value.1.result.events
  {
    hide Inv, PrepareLaunch, AuthorizeLaunch, CompleteLaunch, LaunchPayload, IsNews, Listed;
    var operation := Operation(q.Key(), action);
    LaunchIsPrepared(t, e, q, action, a, true);
    PreparationKeepsInv(t, e, q, action);
    var t1 := PrepareLaunch(t, e, q, action).value.0;
    LaunchIsAuthorized(t1, f, q, action, a, true, started.identity);
    AuthorizationKeepsInv(t1, f, q, action, operation, started.identity);
    var t2 := AuthorizeLaunch(t1, f, q, action, operation, started.identity).value.0;
    LaunchIsCompleted(t2, g, q, action, a, true, started);
    assert t.rows[q.Key() := t1.rows[q.Key()]] - {q.Key()} == t.rows;
  }

  /** A started agent is found resident, so that it can be paused, if and only if its provider is active, it has no
      turn, and it did not go on with a runtime that was busy or paused. */
  lemma LaunchedIsResident(t: Tables, u: Tables, e: Ambient, q: Request, a: AgentId, started: Started,
                           news: seq<Event>, r: Request)
    requires Inv(t) && LaunchDone(t, u, e, q, a, started, news) && Confirms(t.sessions[a], started)
    requires r.principal.agentControl && !r.principal.bridge && PayloadAgent(r.payload, {}) == Ok(a)
    requires IsNew(u, r.Key()) && !u.restarting
    ensures PrepareResident(u, r, false) == Ok(Resident(u.sessions[a])) <==>
      && started.providerActive && t.sessions[a].turn.NoTurn?
      && !(started.runtimeReused && t.sessions[a].runtime in {Busy, Paused})
  {
    hide Inv, PayloadAgent;
    IntentHeld(t, a);
  }

  /** A launch that failed for good without leaving a runtime can be made anew, by another request. */
  lemma RefusedLaunchCanBeMadeAnew(t: Tables, u: Tables, a: AgentId, k: Key, reason: Reason, effect: bool,
                                   actor: string, p: Principal, action: Action)
    requires Inv(t) && RefusedWith(t, u, k, a, reason, actor) && a in t.sessions
    requires Down(t.sessions[a], u.sessions[a], reason, effect)
    requires (effect || t.sessions[a].identity == NO_IDENTITY) && t.sessions[a].turn.NoTurn?
    requires action in {Start, Resume} && p.agentControl && !p.bridge
    ensures MayLaunch(u, p, action, a) <==>
      && t.sessions[a].profile.version == 5 && t.participants[a].status !in {Exported, Kicked}
      && a !in t.cleanup
  {
    hide Inv;
    IntentHeld(t, a);
  }

  /** Asked again under a reserved key, a launch is told what became of it: another request conflicts, a refused one
      gets its reason, one of another generation is unresolved, and its own prepared one gets its plan again. */
  lemma RepeatedLaunchIsTold(t: Tables, e: Ambient, q: Request, action: Action, a: AgentId)
    requires Inv(t) && LaunchPayload(q.payload, action) == Ok((a, true)) && q.Key() in t.rows
    requires q.principal.agentControl && !q.principal.bridge
    ensures var (row, step) := (t.rows[q.Key()], PrepareLaunch(t, e, q, action));
      if row.action != action || row.payload != q.payload then step == Err(Conflict)
      else if row.status.Refused? then step == Err(StoredRejection(row.status.reason))
      else if row.generation != e.generation then step == Err(Unresolved)
      else
        && a in t.sessions && a in t.participants
        && (step.Ok? ==> step == Ok((t, StartPlan(Operation(q.Key(), action), t.sessions[a]))))
        && (step.Ok? <==>
              && t.sessions[a].intentStatus.Prepared? && a !in t.cleanup && TurnInOrder(t.sessions[a])
              && t.sessions[a].profile.version == 5 && !t.participants[a].status.Exported?
              && (t.participants[a].status.Kicked? ==> action.Readd?))
  {
    hide Inv, LaunchPayload, RequireReaddable, RowStored;
    KeysAreDisjoint(t);
    LaunchActions(q.payload, action);
    ReservedLaunch(t, q, action, a);
    if a in t.sessions { assert t.sessions[a := t.sessions[a]] == t.sessions; }
  }

  lemma ReservedLaunch(t: Tables, q: Request, action: Action, a: AgentId)
    requires Inv(t) && LaunchPayload(q.payload, action) == Ok((a, true)) && q.Key() in t.rows
    ensures var row := t.rows[q.Key()];
      row.action == action && row.payload == q.payload ==>
        && row.session == a && row.operation == Operation(q.Key(), action)
        && row.phase.LifecyclePrepared? && row.prepared.NoResult? && a in t.sessions && a in t.participants
        && t.sessions[a].serverOwned
        && (row.status.Pending? ==>
              !t.sessions[a].IntentEmpty() && t.sessions[a].intentAction.StartAction? &&
              t.sessions[a].intentId == Operation(q.Key(), action))
  {
    assert RowSound(t, q.Key());
    if t.rows[q.Key()].session in t.sessions { IntentHeld(t, t.rows[q.Key()].session); }
  }
}
