/** What creating an agent, with or without a start, asks for and achieves. */
module LifecycleCreation {
  import opened Wrappers
  import opened LifecycleModel
  import opened LifecycleSteps
  import opened LifecycleInvariant
  import opened LifecycleMoves
  import opened LifecycleRuns
  import opened LifecycleLaunch

  // ---------------------------------------------------------------- when an agent may be created

  /** A name that is free in a room that is not full. */
  predicate MayBeAdded(t: Tables, a: AgentId) { a !in t.sessions && a !in t.participants && |t.sessions| < 64 }

  /** One of the room's own agents with the same profile, owned by whoever asks, and in no operation. */
  predicate MayBeReused(t: Tables, p: Principal, draft: Draft) {
    && draft.agent in t.sessions && draft.agent in t.participants
    && var s, m := t.sessions[draft.agent], t.participants[draft.agent];
       s.serverOwned && s.profile.key == draft.profile.key && m.owner == p.participant && s.IntentEmpty()
  }

  /** A fresh agent: with the profile of its draft at the current version, nothing running and nothing remembered,
      and a member that has not joined yet and belongs to whoever asked. */
  predicate IsFresh(s: Session, m: Participant, p: Principal, draft: Draft) {
    && s.profile == Profile(draft.profile.key, 5, draft.profile.executable, draft.profile.workspace)
    && s.providerKind == draft.providerKind && s.serverOwned && s.status.Available? && !s.recoveryRequired
    && !s.providerActive && !s.providerReused && s.providerSession.Blank? && s.identity == NO_IDENTITY
    && s.turn.NoTurn? && s.error.NoError?
    && m.status.DetachedMember? && m.owner == p.participant && m.agent && !m.muted
  }

  /** Reused for a start it is listed and enabled, with a runtime that starts; all it had it keeps. */
  predicate IsRevived(s: Session, v: Session) {
    && KeepsProfile(s, v) && v.status.Available? && v.runtime.Starting? && v.enabled && v.error.NoError?
    && !v.recoveryRequired && v.identity == s.identity && v.providerSession == s.providerSession
    && v.providerActive == s.providerActive && v.providerReused == s.providerReused
  }

  predicate StartsUnder(s: Session, operation: OperationId, status: IntentStatus) {
    s.intentAction.StartAction? && s.intentId == operation && s.intentStatus == status
  }

  /** The records of a creation: a new agent with its event, or the old one and no event. */
  ghost predicate Recorded(t: Tables, u: Tables, p: Principal, draft: Draft, events: seq<Event>) {
    && var a := draft.agent;
    && a in u.sessions && a in u.participants
    && u.sessions == t.sessions[a := u.sessions[a]] && u.log == t.log + events
    && if a in t.sessions then
         u.participants == t.participants && events == []
       else
         && IsFresh(u.sessions[a], u.participants[a], p, draft)
         && u.participants == t.participants[a := u.participants[a]]
         && IsNews(t.log, events, [AgentSessionCreated], a, p.participant)
  }

  /** A planned creation: recorded, reserved with what it has recorded, charged, and the start of its agent. */
  ghost predicate CreationPlanned(t: Tables, u: Tables, e: Ambient, q: Request, draft: Draft, events: seq<Event>) {
    && var a := draft.agent;
    && Recorded(t, u, q.principal, draft, events)
    && u.sessions[a].runtime.Starting? && u.sessions[a].enabled
    && StartsUnder(u.sessions[a], Operation(q.Key(), Create), Prepared)
    && (a in t.sessions ==> IsRevived(t.sessions[a], u.sessions[a]))
    && u.debits == t.debits + 1 && u.results == t.results && u.cleanup == t.cleanup && u.restarting == t.restarting
    && u.rows == t.rows[q.Key() := Row(Create, q.payload, a, Operation(q.Key(), Create), e.generation,
                                       CreationCommitted, Created(a, events), q.principal, Pending)]
  }

  /** What recording leaves of the agent, to be started under an operation or not. */
  ghost predicate Records(t: Tables, u: Tables, p: Principal, draft: Draft, operation: Option<OperationId>,
                          events: seq<Event>) {
    && Recorded(t, u, p, draft, events)
    && u == t.(sessions := u.sessions, participants := u.participants, log := u.log)
    && var v := u.sessions[draft.agent];
    && (operation.Some? ==>
          v.runtime.Starting? && v.enabled && StartsUnder(v, operation.value, Prepared) &&
          (draft.agent in t.sessions ==> IsRevived(t.sessions[draft.agent], v)))
    && (operation.None? && draft.agent !in t.sessions ==> v.runtime.Stopped? && !v.enabled && v.IntentEmpty())
  }

  lemma FreshRecords(t: Tables, e: Ambient, p: Principal, draft: Draft, operation: Option<OperationId>)
    requires draft.agent !in t.sessions && draft.agent !in t.participants
    ensures var r := CreateRecords(t, e, p, draft, operation);
      (r.Ok? <==> |t.sessions| < 64) && (r.Ok? ==> Records(t, r.value.0, p, draft, operation, r.value.1))
  {
    hide NewEvents, IsNews;
    NewsAre(t.log, [AgentSessionCreated], draft.agent, p.participant);
  }

  lemma RevivedRecords(t: Tables, e: Ambient, p: Principal, draft: Draft, operation: Option<OperationId>)
    requires draft.agent in t.sessions && draft.agent in t.participants
    ensures var r := CreateOrReuse(t, e, p, draft, operation, true);
      && (r.Ok? <==> MayBeReused(t, p, draft))
      && (r.Ok? && operation.Some? ==> Records(t, r.value.0, p, draft, operation, r.value.1))
  {
    hide CreateRecords;
  }

  lemma RecordsAre(t: Tables, e: Ambient, p: Principal, draft: Draft, operation: Option<OperationId>, reuse: bool)
    requires reuse ==> operation.Some?
    ensures var r := CreateOrReuse(t, e, p, draft, operation, reuse);
      && (r.Ok? <==> MayBeAdded(t, draft.agent) || (reuse && MayBeReused(t, p, draft)))
      && (r.Ok? ==> Records(t, r.value.0, p, draft, operation, r.value.1))
  {
    hide CreateRecords, Records;
    if draft.agent !in t.sessions && draft.agent !in t.participants { FreshRecords(t, e, p, draft, operation); }
    if draft.agent in t.sessions && draft.agent in t.participants && reuse {
      RevivedRecords(t, e, p, draft, operation);
    }
  }

  /** A new request to create and start is accepted if and only if the agent may be added or reused and the room
      admits the request; then it is planned. */
  lemma CreationIsPrepared(t: Tables, e: Ambient, q: Request, draft: Draft)
    requires Inv(t) && IsNew(t, q.Key())
    ensures var step := PrepareCreateStart(t, e, q, draft);
      && (step.Ok? <==>
            && q.principal.agentControl && !q.principal.bridge
            && (MayBeAdded(t, draft.agent) || MayBeReused(t, q.principal, draft))
            && !t.restarting && e.budget)
      && (step.Ok? ==>
            && step.value.1.CreatePlan? && step.value.1.agent == draft.agent
            && step.value.1.operation == Operation(q.Key(), Create)
            && step.value.1.newly == step.value.1.committed
            && CreationPlanned(t, step.value.0, e, q, draft, step.value.1.committed))
  {
    hide Inv, CreateOrReuse, IsFresh, IsRevived, IsNews, MayBeAdded, MayBeReused;
    RecordsAre(t, e, q.principal, draft, Some(Operation(q.Key(), Create)), true);
  }

  /** Creating without a start never reuses an agent; it is answered at once and leaves the agent stopped. */
  lemma CreationIsAnswered(t: Tables, e: Ambient, q: Request, draft: Draft)
    requires Inv(t) && IsNew(t, q.Key())
    ensures var step := CreateStopped(t, e, q, draft);
      && (step.Ok? <==>
            && q.principal.agentControl && !q.principal.bridge && MayBeAdded(t, draft.agent)
            && !t.restarting && e.budget)
      && (step.Ok? ==>
            var u := step.value.0;
            && q.Key() in u.results && step.value.1 == Committed(u.results[q.Key()])
            && Recorded(t, u, q.principal, draft, u.results[q.Key()].events)
            && u.sessions[draft.agent].runtime.Stopped? && !u.sessions[draft.agent].enabled
            && u.sessions[draft.agent].IntentEmpty()
            && u.results == t.results[q.Key() := StoredResult(Create, q.payload, CreatedOnly,
                                                              u.results[q.Key()].events)]
            && u.rows == t.rows && u.debits == t.debits + 1)
  {
    hide Inv, CreateOrReuse, IsFresh, IsRevived, IsNews;
    RecordsAre(t.(debits := t.debits + 1), e, q.principal, draft, None, false);
  }

  // ---------------------------------------------------------------- the launch of a new agent

  /** The reservation of a creation, still outstanding: the same request, with what it has recorded. */
  predicate CreationOutstanding(t: Tables, q: Request, a: AgentId) {
    && q.Key() in t.rows && a in t.sessions
    && var row := t.rows[q.Key()];
       row.action.Create? && row.payload == q.payload && row.session == a && row.status.Pending?
  }

  /** An outstanding creation is about one agent, has its prepared result, and owns the start of its session. */
  lemma CreationOwns(t: Tables, q: Request, a: AgentId)
    requires Inv(t) && CreationOutstanding(t, q, a)
    ensures q.Key() !in t.results
    ensures var row := t.rows[q.Key()];
      && row.operation == Operation(q.Key(), Create) && row.phase.CreationCommitted?
      && row.prepared.Created? && row.prepared.agent == a
    ensures t.sessions[a].intentAction.StartAction? && t.sessions[a].intentId == Operation(q.Key(), Create)
  {
    hide Inv, LaunchPayload, PayloadAgent;
    PendingOwns(t, q.Key());
  }

  /** A creation's launch is let loose under the same conditions as any other, by one who may control agents. */
  lemma CreationIsAuthorized(t: Tables, e: Ambient, q: Request, a: AgentId, identity: Identity)
    requires Inv(t) && q.Key() in t.rows && t.rows[q.Key()].session == a
    ensures var step := AuthorizeCreateStart(t, e, q, Operation(q.Key(), Create), identity);
      && (step.Ok? <==>
            && q.principal.agentControl && !q.principal.bridge
            && CreationOutstanding(t, q, a) && t.rows[q.Key()].generation == e.generation && a !in t.cleanup
            && t.sessions[a].intentStatus.Prepared? && !identity.AnyBlank()
            && t.sessions[a].identity in {NO_IDENTITY, identity})
      && (step.Ok? ==>
            && Loose(t, step.value.0, a, Operation(q.Key(), Create), identity)
            && step.value.1 == CreatePlan(Operation(q.Key(), Create), a, t.rows[q.Key()].prepared.events, []))
  {
    hide Inv, AuthorizedStart, OnItsWay;
    if CreationOutstanding(t, q, a) { CreationOwns(t, q, a); }
    if a in t.sessions {
      IntentHeld(t, a);
      StartIsLoose(t.sessions[a], Operation(q.Key(), Create), identity);
    }
  }

  /** A creation's launch completes if and only if it is outstanding with the effect at work and the report is about
      it; its result tells of everything the request has committed, first to last. */
  lemma CreationIsCompleted(t: Tables, e: Ambient, q: Request, a: AgentId, started: Started)
    requires Inv(t) && q.Key() in t.rows && t.rows[q.Key()].session == a && q.Key() !in t.results
    ensures var step := CompleteCreateStart(t, e, q, Operation(q.Key(), Create), started);
      && (step.Ok? <==>
            && CreationOutstanding(t, q, a) && a !in t.cleanup && t.sessions[a].intentStatus.EffectInflight?
            && Confirms(t.sessions[a], started))
      && (step.Ok? ==>
            var (u, reply) := step.value;
            && reply.CreateCommit? && reply.result.events == reply.committed
            && reply.committed == t.rows[q.Key()].prepared.events + reply.newly
            && LaunchDone(t, u, e, q, a, started, reply.newly)
            && u.results == t.results[q.Key() := reply.result]
            && reply.result == StoredResult(Create, q.payload, CreatedStarted(started.runtimeReused), reply.committed))
  {
    hide Inv, RuntimeStarted, ValidateStarted, Runs, Confirms, LaunchKinds, NewEvents, IsNews;
    if CreationOutstanding(t, q, a) { CreationOwns(t, q, a); }
    if a in t.sessions {
      IntentHeld(t, a);
      StartedRuns(t.sessions[a], started, e.now);
      LaunchNews(t, a, q.principal.participant);
    }
  }

  /** It fails if and only if it is outstanding at that point and the reason can be stored. */
  lemma CreationIsRefused(t: Tables, e: Ambient, q: Request, a: AgentId, reason: Reason, effect: bool)
    requires Inv(t) && q.Key() in t.rows && t.rows[q.Key()].session == a
    ensures var step := FailCreateStart(t, e, q, a, Operation(q.Key(), Create), t.rows[q.Key()].prepared, reason,
      effect);
      && (step.Ok? <==>
            && CreationOutstanding(t, q, a) && MayStore(reason)
            && t.sessions[a].intentStatus == (if effect then EffectInflight else Prepared))
      && (step.Ok? ==>
            && RefusedWith(t, step.value.0, q.Key(), a, reason, q.principal.participant)
            && Down(t.sessions[a], step.value.0.sessions[a], reason, effect))
  {
    hide Inv, LaunchFailed, Down, RefusedWith;
    FailureRefuses(t, e, q, CreationRow(e, q, a, Operation(q.Key(), Create), t.rows[q.Key()].prepared), reason, effect);
    if CreationOutstanding(t, q, a) { CreationOwns(t, q, a); }
  }

  // ---------------------------------------------------------------- what a creation achieves

  lemma CreationKeepsInv(t: Tables, e: Ambient, q: Request, draft: Draft)
    requires Inv(t) && PrepareCreateStart(t, e, q, draft).Ok?
    ensures Inv(PrepareCreateStart(t, e, q, draft).value.0)
  {
    hide Inv, PrepareCreateStart;
    StepKeepsInv(t, e, DoPrepareCreateStart(q, draft));
  }

  lemma CreationAuthorizationKeepsInv(t: Tables, e: Ambient, q: Request, operation: OperationId, identity: Identity)
    requires Inv(t) && AuthorizeCreateStart(t, e, q, operation, identity).Ok?
    ensures Inv(AuthorizeCreateStart(t, e, q, operation, identity).value.0)
  {
    hide Inv, AuthorizeCreateStart;
    StepKeepsInv(t, e, DoAuthorizeCreateStart(q, operation, identity));
  }

  /** What a creation's launch finds its agent to be when it is prepared. */
  predicate Reports(t: Tables, draft: Draft, started: Started) {
    && !started.identity.AnyBlank() && (started.providerActive ==> started.providerSession.Named?)
    && if draft.agent in t.sessions then
         && t.sessions[draft.agent].identity in {NO_IDENTITY, started.identity}
         && (started.providerReused ==>
               started.providerActive && started.providerSession == t.sessions[draft.agent].providerSession)
       else !started.providerReused
  }

  /** A planned creation is let loose by the generation that planned it and completed by its report. */
  lemma PlannedCreationGoesThrough(t: Tables, f: Ambient, g: Ambient, q: Request, a: AgentId, started: Started)
    requires Inv(t) && CreationOutstanding(t, q, a) && q.principal.agentControl && !q.principal.bridge
    requires t.rows[q.Key()].generation == f.generation && a !in t.cleanup && t.sessions[a].intentStatus.Prepared?
    requires t.sessions[a].identity in {NO_IDENTITY, started.identity}
    requires Confirms(t.sessions[a].(identity := started.identity), started)
    ensures var loose := AuthorizeCreateStart(t, f, q, Operation(q.Key(), Create), started.identity);
      && loose.Ok?
      && var done := CompleteCreateStart(loose.value.0, g, q, Operation(q.Key(), Create), started);
      && done.Ok? && done.value.1.CreateCommit?
      && var (u, reply) := done.value;
      && a in t.participants && a in u.sessions && u.sessions == t.sessions[a := u.sessions[a]]
      && Runs(t.sessions[a], u.sessions[a], started, g.now)
      && u.participants == t.participants[a := t.participants[a].(status := Joined, updatedAt := g.now)]
      && u.rows == t.rows - {q.Key()} && u.debits == t.debits && u.results == t.results[q.Key() := reply.result]
      && u.log == t.log + reply.newly && reply.result.events == t.rows[q.Key()].prepared.events + reply.newly
  {
    hide Inv, AuthorizeCreateStart, CompleteCreateStart, IsNews;
    CreationOwns(t, q, a);
    CreationIsAuthorized(t, f, q, a, started.identity);
    CreationAuthorizationKeepsInv(t, f, q, Operation(q.Key(), Create), started.identity);
    var t2 := AuthorizeCreateStart(t, f, q, Operation(q.Key(), Create), started.identity).value.0;
    CreationIsCompleted(t2, g, q, a, started);
  }

  /** A creation that may be made and is reported back as started goes through: it leaves the agent attached and
      running on that runtime, idle whatever it did before, with its member joined, and an answer that tells of the
      creation, if it was one, and the launch. */
  lemma CreationGoesThrough(t: Tables, e: Ambient, f: Ambient, g: Ambient, q: Request, draft: Draft, started: Started)
    requires Inv(t) && IsNew(t, q.Key()) && q.principal.agentControl && !q.principal.bridge
    requires MayBeAdded(t, draft.agent) || MayBeReused(t, q.principal, draft)
    requires !t.restarting && e.budget && f.generation == e.generation && draft.agent !in t.cleanup
    requires Reports(t, draft, started)
    ensures var planned := PrepareCreateStart(t, e, q, draft);
      && planned.Ok?
      && var loose := AuthorizeCreateStart(planned.value.0, f, q, Operation(q.Key(), Create), started.identity);
      && loose.Ok?
      && var done := CompleteCreateStart(loose.value.0, g, q, Operation(q.Key(), Create), started);
      && done.Ok? && done.value.1.CreateCommit? && Achieved(t, done.value.0, q, draft, started, done.value.1.result)
  {
    hide Inv, PrepareCreateStart, AuthorizeCreateStart, CompleteCreateStart, Runs, Confirms, Reports, CreationPlanned,
      Achieved;
    CreationIsPrepared(t, e, q, draft);
    CreationKeepsInv(t, e, q, draft);
    var (t1, reply) := PrepareCreateStart(t, e, q, draft).value;
    PlannedConfirms(t, t1, e, q, draft, reply.committed, started);
    PlannedCreationGoesThrough(t1, f, g, q, draft.agent, started);
    var t2 := AuthorizeCreateStart(t1, f, q, Operation(q.Key(), Create), started.identity).value.0;
    var (u, done) := CompleteCreateStart(t2, g, q, Operation(q.Key(), Create), started).value;
    PlannedAchieves(t, t1, u, e, g, q, draft, reply.committed, started, done);
  }

  /** Where a creation that went through leaves the room. */
  ghost predicate Achieved(t: Tables, u: Tables, q: Request, draft: Draft, started: Started, result: StoredResult) {
    && var a := draft.agent;
    && a in u.sessions && a in u.participants
    && u.sessions == t.sessions[a := u.sessions[a]] && u.participants == t.participants[a := u.participants[a]]
    && u.sessions[a].status.Attached? && u.sessions[a].enabled && u.sessions[a].runtime.Idle?
    && u.sessions[a].IntentEmpty() && u.sessions[a].identity == started.identity
    && u.sessions[a].profile.key == draft.profile.key && u.participants[a].status.Joined?
    && u.participants[a].owner == q.principal.participant
    && u.rows == t.rows && u.debits == t.debits + 1 && u.results == t.results[q.Key() := result]
    && u.log == t.log + result.events
    && (a !in t.sessions ==> result.events != [] && result.events[0].kind.AgentSessionCreated?)
  }

  lemma PlannedConfirms(t: Tables, u: Tables, e: Ambient, q: Request, draft: Draft, events: seq<Event>,
                        started: Started)
    requires CreationPlanned(t, u, e, q, draft, events) && Reports(t, draft, started)
    requires MayBeAdded(t, draft.agent) || MayBeReused(t, q.principal, draft)
    ensures CreationOutstanding(u, q, draft.agent) && u.rows[q.Key()].generation == e.generation
    ensures u.sessions[draft.agent].intentStatus.Prepared? && u.cleanup == t.cleanup
    ensures u.sessions[draft.agent].identity in {NO_IDENTITY, started.identity}
    ensures Confirms(u.sessions[draft.agent].(identity := started.identity), started)
  {
    hide IsNews;
  }

  lemma PlannedAchieves(t: Tables, t1: Tables, u: Tables, e: Ambient, g: Ambient, q: Request, draft: Draft,
                        events: seq<Event>, started: Started, done: Reply)
    requires CreationPlanned(t, t1, e, q, draft, events) && IsNew(t, q.Key())
    requires MayBeAdded(t, draft.agent) || MayBeReused(t, q.principal, draft)
    requires done.CreateCommit? && draft.agent in t1.participants && draft.agent in u.sessions
    requires var a := draft.agent;
      && u.sessions == t1.sessions[a := u.sessions[a]] && Runs(t1.sessions[a], u.sessions[a], started, g.now)
      && u.participants == t1.participants[a := t1.participants[a].(status := Joined, updatedAt := g.now)]
      && u.rows == t1.rows - {q.Key()} && u.debits == t1.debits && u.results == t1.results[q.Key() := done.result]
      && u.log == t1.log + done.newly && done.result.events == t1.rows[q.Key()].prepared.events + done.newly
    ensures Achieved(t, u, q, draft, started, done.result)
  {
    assert t.rows[q.Key() := t1.rows[q.Key()]] - {q.Key()} == t.rows;
  }

  /** An agent whose creation failed for good stays, and whoever made it can have it started by another request. */
  lemma RefusedCreationCanBeReused(t: Tables, u: Tables, k: Key, draft: Draft, reason: Reason, effect: bool,
                                   actor: string, p: Principal)
    requires Inv(t) && draft.agent in t.sessions && RefusedWith(t, u, k, draft.agent, reason, actor)
    requires Down(t.sessions[draft.agent], u.sessions[draft.agent], reason, effect)
    ensures MayBeReused(u, p, draft) <==>
      t.sessions[draft.agent].profile.key == draft.profile.key && t.participants[draft.agent].owner == p.participant
  {
    hide Inv;
    IntentHeld(t, draft.agent);
  }

  /** Asked again under a reserved key, a creation is told what became of it: another request conflicts, a refused
      one gets its reason, one of another generation or with its effect let loose is unresolved, and a prepared one
      gets its plan again, with nothing new. Inspecting it tells the same. */
  lemma RepeatedCreationIsTold(t: Tables, e: Ambient, q: Request, draft: Draft)
    requires Inv(t) && q.Key() in t.rows && q.principal.agentControl && !q.principal.bridge
    ensures var row := t.rows[q.Key()];
      && row.session in t.sessions
      && var told :=
           if !row.action.Create? || row.payload != q.payload then Err(Conflict)
           else if row.status.Refused? then Err(StoredRejection(row.status.reason))
           else if row.generation != e.generation || !t.sessions[row.session].intentStatus.Prepared?
             then Err(Unresolved)
           else Ok((t, CreatePlan(Operation(q.Key(), Create), row.session, row.prepared.events, [])));
      PrepareCreateStart(t, e, q, draft) == told && InspectCreateStart(t, e, q) == told
  {
    hide Inv, CreateOrReuse;
    var row := t.rows[q.Key()];
    KeysAreDisjoint(t);
    RowsHaveSessions(t, q.Key());
    if CreationOutstanding(t, q, row.session) {
      CreationOwns(t, q, row.session);
      PendingOwns(t, q.Key());
    }
  }

  lemma RowsHaveSessions(t: Tables, k: Key)
    requires Inv(t) && k in t.rows
    ensures t.rows[k].session in t.sessions && RowStored(k, t.rows[k])
  {
    assert RowSound(t, k);
  }

  /** A key nothing is known of is for the caller to choose an agent for. */
  lemma NewCreationIsSelected(t: Tables, e: Ambient, q: Request)
    requires IsNew(t, q.Key())
    ensures InspectCreateStart(t, e, q).Ok? <==> q.principal.agentControl && !q.principal.bridge
    ensures InspectCreateStart(t, e, q).Ok? ==> InspectCreateStart(t, e, q).value == (t, Select)
  {
  }
}
