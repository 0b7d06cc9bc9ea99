/** The tables of one room that the agent lifecycle protocol reads and writes, and the checks its
    operations share. Absent text is `Blank`; digests are the values they are taken of. */
module LifecycleModel {
  import opened Wrappers

  // ---------------------------------------------------------------- identities

  datatype Token = Blank | Named(name: string)
  datatype AgentId = AgentId(name: string)
  datatype Generation = Generation(name: string)

  /** One request of one principal; it owns at most one reservation or one result. */
  datatype Key = Key(principal: string, request: string)

  datatype Action = Start | Resume | Readd | Create | Stop | Pause | Configure | Interrupt | OtherAction

  /** The stable hash of a request and its action, modelled as the pair it is a hash of. */
  datatype OperationId = NoOperation | Operation(key: Key, action: Action)

  datatype Principal = Principal(id: string, participant: string, bridge: bool, agentControl: bool)

  datatype Identity = Identity(handle: Token, owner: Token, lease: Token) {
    predicate AllBlank() { handle.Blank? && owner.Blank? && lease.Blank? }
    predicate AnyBlank() { handle.Blank? || owner.Blank? || lease.Blank? }
    predicate Uniform() { AllBlank() || !AnyBlank() }
  }

  const NO_IDENTITY := Identity(Blank, Blank, Blank)

  // ---------------------------------------------------------------- failures

  datatype Code =
    | BadRequest | PermissionDenied | NotFound | ParticipantMissing
    | StaleReservation | StaleStart | StaleStop | StaleCandidate | StaleTurn
    | OperationInProgress | InvalidState | InvalidAuthority | InvalidObservation | InvalidTurn
    | RuntimeOwnerMismatch | StartUnconfirmed | ProviderUnconfirmed | ProviderMismatch
    | HandleUnavailable | ParticipantExported | ParticipantKicked | ProfileUnsupported
    | CleanupPending | ExternalOwned | RuntimeUnavailable | ReaddInvalid
    | SessionExists | Capacity | Restarting | BudgetExceeded
    | ProfileConflict | ProfileChanged | KindMismatch | RuntimeChanged
    | AgentNotBusy | InterruptInProgress | ProviderSessionInvalid

  datatype Failure = Conflict | Unresolved | Storage | StoredRejection(reason: Reason) | Rejected(code: Code)

  /** Why a launch or stop was refused for good; `storable` is the stored-text check. */
  datatype Reason =
    | AbandonedStart | AbandonedStop | RecoveredStart
    | Given(code: string, storable: bool)

  type Outcome<+T> = Result<T, Failure>

  type Check = Guard<Failure>

  function Require(condition: bool, code: Code): Check {
    if condition then Pass else Fail(Rejected(code))
  }

  // ---------------------------------------------------------------- sessions and participants

  datatype SessionStatus = Available | Attached | Unavailable | Detached | SessionError

  datatype RuntimeStatus =
    | Stopped | Starting | Idle | Busy | Paused | Stopping | Disconnected | Recovering | RuntimeError

  datatype IntentAction = NoAction | StartAction | StopAction
  datatype IntentStatus = NoStatus | Prepared | EffectInflight | Unconfirmed | EffectApplied

  datatype Turn = NoTurn | ActiveTurn(id: string)

  const CURRENT_PROFILE_VERSION := 5

  /** What a configuration replaces and nothing else may change. */
  datatype Profile = Profile(key: string, version: nat, executable: string, workspace: string)

  datatype ErrorNote = NoError | Note(reason: Reason) | TurnInterrupted | AuthorityUncertain | BridgeExited | TurnError

  datatype Session = Session(
    status: SessionStatus,
    runtime: RuntimeStatus,
    enabled: bool,
    recoveryRequired: bool,
    providerActive: bool,
    providerReused: bool,
    providerSession: Token,
    identity: Identity,
    intentAction: IntentAction,
    intentId: OperationId,
    intentStatus: IntentStatus,
    profile: Profile,
    providerKind: string,
    serverOwned: bool,
    turn: Turn,
    error: ErrorNote,
    updatedAt: nat) {

    predicate IntentEmpty() { intentAction.NoAction? && intentId.NoOperation? && intentStatus.NoStatus? }

    /** The pairs of action and status the protocol can store beside an operation. */
    predicate IntentLegal() {
      intentId.Operation? &&
      ((intentAction.StartAction? && intentStatus in {Prepared, EffectInflight, Unconfirmed}) ||
       (intentAction.StopAction? && intentStatus in {Prepared, EffectInflight, Unconfirmed, EffectApplied}))
    }

    function ClearIntent(): Session {
      this.(intentAction := NoAction, intentId := NoOperation, intentStatus := NoStatus)
    }

    /** The authority of a stored turn: held, clear, or inconsistent. */
    function TurnAuthority(): Outcome<bool> {
      if turn.ActiveTurn? && runtime in {Busy, Stopping} then Ok(true)
      else if turn.NoTurn? && !runtime.Busy? then Ok(false)
      else Err(Rejected(InvalidTurn))
    }
  }

  datatype Membership = Joined | Left | Kicked | Exported | DetachedMember

  datatype Participant = Participant(status: Membership, owner: string, agent: bool, muted: bool, updatedAt: nat) {
    /** Runtime cleanup cannot undo a committed removal. */
    function DetachRuntime(now: nat): Participant {
      if status in {Joined, DetachedMember} then this.(status := DetachedMember, updatedAt := now) else this
    }
  }

  // ---------------------------------------------------------------- requests

  datatype FieldName =
    AgentIdField | ParticipantIdField | SessionIdField | StartField | StartNowField | OtherName(text: string)

  datatype Field = Identifier(agent: AgentId) | Flag(on: bool) | OtherField(text: string)

  datatype Payload = NotAnObject | Fields(fields: map<FieldName, Field>)

  const AGENT_ID_KEYS := {AgentIdField, ParticipantIdField, SessionIdField}

  function PayloadAgent(payload: Payload, additional: set<FieldName>): Outcome<AgentId> {
    var _ :- Require(payload.Fields?, BadRequest);
    var _ :- Require(payload.fields.Keys <= AGENT_ID_KEYS + additional, BadRequest);
    var a, p, s :=
      AgentIdField in payload.fields, ParticipantIdField in payload.fields, SessionIdField in payload.fields;
    var _ :- Require((a && !p && !s) || (!a && p && !s) || (!a && !p && s), BadRequest);
    var field := payload.fields[if a then AgentIdField else if p then ParticipantIdField else SessionIdField];
    var _ :- Require(field.Identifier?, BadRequest);
    Ok(field.agent)
  }

  /** Both spellings of the start flag, when present, must be booleans and agree. */
  function StartRequested(payload: Payload): Outcome<bool>
    requires payload.Fields?
  {
    var f := payload.fields;
    var _ :- Require(StartField in f ==> f[StartField].Flag?, BadRequest);
    var _ :- Require(StartNowField in f ==> f[StartNowField].Flag?, BadRequest);
    var _ :- Require(StartField in f && StartNowField in f ==> f[StartField] == f[StartNowField], BadRequest);
    Ok(if StartField in f then f[StartField].on else if StartNowField in f then f[StartNowField].on else false)
  }

  function LaunchPayload(payload: Payload, action: Action): Outcome<(AgentId, bool)> {
    if action in {Start, Resume} then
      var agent :- PayloadAgent(payload, {});
      Ok((agent, true))
    else if action.Readd? then
      var agent :- PayloadAgent(payload, {StartField, StartNowField});
      var start :- StartRequested(payload);
      Ok((agent, start))
    else Err(Rejected(BadRequest))
  }

  // ---------------------------------------------------------------- rows, results, events

  datatype EventKind =
    | AgentSessionCreated | ParticipantJoined | SessionAttached | SessionDetached
    | AgentSessionState | AgentSessionReactivated | ErrorRaised | OtherEvent

  datatype Event = Event(number: nat, kind: EventKind, agent: AgentId, actor: string)

  datatype RowPhase = LifecyclePrepared | CreationCommitted
  datatype RowStatus = Pending | Refused(reason: Reason)

  /** The result a create-and-start request has prepared while its launch is outstanding. */
  datatype PreparedResult = NoResult | Created(agent: AgentId, events: seq<Event>)

  datatype Row = Row(
    action: Action,
    payload: Payload,
    session: AgentId,
    operation: OperationId,
    generation: Generation,
    phase: RowPhase,
    prepared: PreparedResult,
    owner: Principal,
    status: RowStatus) {

    /** What a reservation must repeat to be the same one; the owner and the outcome are not part of it. */
    predicate SameRequest(other: Row) {
      action == other.action && payload == other.payload && session == other.session &&
      operation == other.operation && phase == other.phase && prepared == other.prepared
    }
  }

  datatype ResultKind =
    | Launched(reused: bool) | Readded(reused: bool) | Relisted | CreatedStarted(reused: bool) | CreatedOnly
    | StoppedNow | AlreadyStopped | PausedNow | ResumedNow | Configured | InterruptRequested

  datatype StoredResult = StoredResult(action: Action, payload: Payload, kind: ResultKind, events: seq<Event>)

  datatype Tables = Tables(
    sessions: map<AgentId, Session>,
    participants: map<AgentId, Participant>,
    rows: map<Key, Row>,
    results: map<Key, StoredResult>,
    log: seq<Event>,
    debits: nat,
    restarting: bool,
    cleanup: set<AgentId>)

  const MAX_AGENT_SESSIONS_PER_ROOM := 64

  function NextSequence(log: seq<Event>): nat {
    if log == [] then 1 else log[|log| - 1].number + 1
  }

  function NewEvents(log: seq<Event>, kinds: seq<EventKind>, agent: AgentId, actor: string): (r: seq<Event>)
    ensures |r| == |kinds|
    ensures forall i | 0 <= i < |r| :: r[i] == Event(NextSequence(log) + i, kinds[i], agent, actor)
  {
    seq(|kinds|, i requires 0 <= i < |kinds| => Event(NextSequence(log) + i, kinds[i], agent, actor))
  }

  datatype StopEffect = StopEffect(operation: OperationId, session: AgentId, identity: Identity)

  datatype Reply =
    | Replay(result: StoredResult)
    | Committed(result: StoredResult)
    | StartPlan(operation: OperationId, session: Session)
    | CreatePlan(operation: OperationId, agent: AgentId, committed: seq<Event>, newly: seq<Event>)
    | CreateCommit(result: StoredResult, committed: seq<Event>, newly: seq<Event>)
    | Select
    | StopPlan(effect: StopEffect)
    | FinalizePlan
    | Resident(session: Session)
    | ProviderLaunch
    | Reported(events: seq<Event>)
    | RetryOriginalEffect
    | StillUnresolved
    | Done

  type Step = Outcome<(Tables, Reply)>

  // ---------------------------------------------------------------- shared checks

  function AuthorizeControl(p: Principal): Check { Require(!p.bridge && p.agentControl, PermissionDenied) }

  function LoadSession(t: Tables, a: AgentId): Outcome<Session> {
    if a in t.sessions then Ok(t.sessions[a]) else Err(Rejected(NotFound))
  }

  function LoadLaunchSession(t: Tables, a: AgentId): Outcome<Session> {
    var _ :- Require(a !in t.cleanup, CleanupPending);
    var s :- LoadSession(t, a);
    var _ :- Require(s.serverOwned, ExternalOwned);
    Ok(s)
  }

  function LoadParticipant(t: Tables, a: AgentId): Outcome<Participant> {
    if a in t.participants then Ok(t.participants[a]) else Err(Rejected(ParticipantMissing))
  }

  /** The committed result of a request, or a conflict when the key was used for something else. */
  function ExistingCommand(t: Tables, key: Key, action: Action, payload: Payload): Outcome<Option<StoredResult>> {
    if key !in t.results then Ok(None)
    else if t.results[key].action != action || t.results[key].payload != payload then Err(Conflict)
    else Ok(Some(t.results[key]))
  }

  function RequireIntent(s: Session, action: IntentAction, id: OperationId, status: IntentStatus, code: Code): Check {
    Require(s.intentAction == action && s.intentId == id && s.intentStatus == status, code)
  }

  function RequireMatchingOperation(s: Session, action: IntentAction, id: OperationId): Check {
    Require(s.intentAction == action && s.intentId == id, OperationInProgress)
  }

  function StopNeedsCleanup(s: Session): bool {
    !s.runtime.Stopped? || !s.identity.AllBlank() || !s.IntentEmpty()
  }

  function StopEffectOf(a: AgentId, s: Session): Outcome<StopEffect> {
    var _ :- Require(!s.identity.AnyBlank(), HandleUnavailable);
    Ok(StopEffect(s.intentId, a, s.identity))
  }

  datatype Started = Started(identity: Identity, providerSession: Token, runtimeReused: bool,
                             providerReused: bool, providerActive: bool)

  function ValidateStarted(s: Session, started: Started): Check {
    Require(!started.identity.AnyBlank(), StartUnconfirmed)
      .And(Require(s.identity == started.identity, RuntimeOwnerMismatch))
      .And(Require(started.providerActive ==> started.providerSession.Named?, ProviderUnconfirmed))
      .And(Require(started.providerReused ==> started.providerActive, ProviderUnconfirmed))
      .And(Require(started.providerReused ==>
                     s.providerSession.Named? && started.providerSession == s.providerSession, ProviderMismatch))
  }

  function RequireReaddable(s: Session, p: Participant): Check {
    Require(s.serverOwned && p.agent, RuntimeUnavailable)
      .And(Require(!s.enabled && !s.recoveryRequired && !s.providerActive && s.runtime in {Stopped, RuntimeError} &&
                   p.status in {DetachedMember, Kicked} && s.turn.NoTurn? && s.identity.AllBlank(), ReaddInvalid))
  }

  // ---------------------------------------------------------------- session transformations

  function KeepOrStarting(runtime: RuntimeStatus): RuntimeStatus {
    if runtime in {Starting, Idle, Busy, Paused} then runtime else Starting
  }

  function PreparedLaunch(s: Session, id: OperationId, now: nat): Session {
    s.(status := Available, enabled := true, runtime := KeepOrStarting(s.runtime), error := NoError,
       recoveryRequired := false, intentAction := StartAction, intentId := id, intentStatus := Prepared,
       updatedAt := now)
  }

  function PreparedCreation(s: Session, id: OperationId, now: nat): Session {
    s.(status := Available, runtime := Starting, enabled := true, error := NoError, recoveryRequired := false,
       intentAction := StartAction, intentId := id, intentStatus := Prepared, updatedAt := now)
  }

  /** Whether the current launch intent already belongs to this operation and may be retried. */
  function MatchingStartIntent(s: Session, id: OperationId): Outcome<bool> {
    if s.IntentEmpty() then Ok(false)
    else
      var _ :- RequireMatchingOperation(s, StartAction, id);
      if s.intentStatus.Prepared? then Ok(true)
      else if s.intentStatus in {EffectInflight, Unconfirmed} then Err(Unresolved)
      else Err(Rejected(InvalidState))
  }

  function AuthorizedStart(s: Session, id: OperationId, identity: Identity): Outcome<Session> {
    var _ :- RequireIntent(s, StartAction, id, Prepared, StaleStart);
    var _ :- Require(!identity.AnyBlank() &&
               (s.identity.handle.Named? ==> s.identity.handle == identity.handle) &&
               (s.identity.owner.Named? ==> s.identity.owner == identity.owner) &&
               (s.identity.lease.Named? ==> s.identity.lease == identity.lease), RuntimeOwnerMismatch);
    Ok(s.(identity := identity, status := Available, enabled := true, runtime := KeepOrStarting(s.runtime),
          error := NoError, recoveryRequired := false, intentStatus := EffectInflight))
  }

  function RuntimeStarted(s: Session, started: Started, now: nat): Session {
    s.(status := Attached, enabled := true,
       runtime := if started.runtimeReused && s.runtime in {Idle, Busy, Paused} then s.runtime else Idle,
       providerActive := started.providerActive, providerReused := started.providerReused, error := NoError,
       recoveryRequired := false, identity := started.identity,
       providerSession := if started.providerSession.Named? then started.providerSession else s.providerSession,
       updatedAt := now).ClearIntent()
  }

  /** How a confirmed stop leaves a session; `reused` is what becomes of the reuse flag. */
  function StoppedSession(s: Session, reused: bool, now: nat): Session {
    s.(status := SessionStatus.Detached, enabled := false, runtime := Stopped, providerActive := false,
       providerReused := reused, turn := NoTurn, error := NoError, recoveryRequired := false,
       identity := NO_IDENTITY, updatedAt := now).ClearIntent()
  }

  datatype Draft = Draft(agent: AgentId, profile: Profile, providerKind: string)

  function InitialSession(draft: Draft, now: nat): Session {
    Session(Available, Stopped, false, false, false, false, Blank, NO_IDENTITY, NoAction, NoOperation, NoStatus,
            draft.profile.(version := CURRENT_PROFILE_VERSION), draft.providerKind, true, NoTurn, NoError, now)
  }
}
