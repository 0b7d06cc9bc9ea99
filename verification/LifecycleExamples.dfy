/** Runs from the empty room in which a turn and a launch of the same agent get in each other's way. */
module LifecycleExamples {
  import opened Wrappers
  import opened LifecycleModel
  import opened LifecycleSteps
  import opened LifecycleInvariant
  import opened LifecycleRuns
  import opened LifecycleHistory
  import opened LifecycleTurns

  const OWNER := Principal("p", "p", false, true)
  const AGENT := AgentId("a")
  const RUNTIME := Identity(Named("h"), Named("o"), Named("l"))
  const STORE := Ambient(Generation("g"), true, 0)
  const DRAFT := Draft(AGENT, Profile("k", CURRENT_PROFILE_VERSION, "x", "w"), "kind")
  const STARTED := Started(RUNTIME, Named("n"), false, false, true)

  const CREATE := Request(OWNER, "create", Fields(map[]))
  const REUSE := Request(OWNER, "reuse", Fields(map[]))
  const START := Request(OWNER, "start", Fields(map[AgentIdField := Identifier(AGENT)]))
  const CREATION := Operation(CREATE.Key(), Create)
  const STARTING := Operation(START.Key(), Start)

  const NEW := PreparedCreation(InitialSession(DRAFT, 0), CREATION, 0)
  const LAUNCHED := NEW.(identity := RUNTIME, intentStatus := EffectInflight)
  const RESTING := RuntimeStarted(LAUNCHED, STARTED, 0)
  const BUSY := RESTING.(runtime := Busy, turn := ActiveTurn("u"))
  const PLANNED := PreparedLaunch(BUSY, STARTING, 0)
  const RELAUNCHED := PLANNED.(intentStatus := EffectInflight)

  /** A room with one agent, and what is known of its requests: `created` is the outcome of the first. */
  ghost predicate Room(t: Tables, s: Session, member: Membership, created: bool) {
    && t.sessions == map[AGENT := s] && AGENT in t.participants && !t.restarting && t.cleanup == {}
    && t.participants[AGENT] == Participant(member, "p", true, false, 0)
    && (if created then CREATE.Key() in t.results && t.rows == map[]
        else CREATE.Key() !in t.results && t.rows.Keys == {CREATE.Key()} && exists events ::
          t.rows[CREATE.Key()] == CreationRow(STORE, CREATE, AGENT, CREATION, Created(AGENT, events)))
    && REUSE.Key() !in t.results && START.Key() !in t.results
  }

  lemma Creates()
    ensures var step := PrepareCreateStart(EMPTY, STORE, CREATE, DRAFT);
      step.Ok? && Room(step.value.0, NEW, DetachedMember, false)
  {
    var events := NewEvents([], [AgentSessionCreated], AGENT, "p");
    assert PrepareCreateStart(EMPTY, STORE, CREATE, DRAFT).value.0.rows[CREATE.Key()] ==
      CreationRow(STORE, CREATE, AGENT, CREATION, Created(AGENT, events));
  }

  lemma Launches(t: Tables)
    requires Room(t, NEW, DetachedMember, false)
    ensures var step := AuthorizeCreateStart(t, STORE, CREATE, CREATION, RUNTIME);
      step.Ok? && Room(step.value.0, LAUNCHED, DetachedMember, false)
  {
  }

  lemma Rests(t: Tables)
    requires Room(t, LAUNCHED, DetachedMember, false)
    ensures var step := CompleteCreateStart(t, STORE, CREATE, CREATION, STARTED);
      step.Ok? && Room(step.value.0, RESTING, Joined, true)
  {
  }

  lemma Works(t: Tables)
    requires Room(t, RESTING, Joined, true)
    ensures var step := AssignTurn(t, STORE, AGENT, "u");
      step.Ok? && Room(step.value.0, BUSY, Joined, true)
  {
  }

  /** Asked to be created and started once more, the busy agent is prepared for a start all over. */
  lemma ReuseBreaks(t: Tables)
    requires Room(t, BUSY, Joined, true)
    ensures var step := PrepareCreateStart(t, STORE, REUSE, DRAFT); step.Ok? && HasBroken(step.value.0, AGENT)
  {
  }

  lemma StartIsRead()
    ensures LaunchPayload(START.payload, Start) == Ok((AGENT, true))
  {
    assert START.payload.fields.Keys == {AgentIdField};
  }

  /** A room whose busy agent is being started again. */
  ghost predicate Restarts(t: Tables, s: Session) {
    && t.sessions == map[AGENT := s] && AGENT in t.participants && t.cleanup == {}
    && t.rows == map[START.Key() := LaunchRow(STORE, START, Start, AGENT, STARTING)]
  }

  lemma Plans(t: Tables)
    requires Room(t, BUSY, Joined, true)
    ensures var step := PrepareLaunch(t, STORE, START, Start); step.Ok? && Restarts(step.value.0, PLANNED)
  {
    hide LaunchPayload;
    StartIsRead();
  }

  lemma Relaunches(t: Tables)
    requires Restarts(t, PLANNED)
    ensures var step := AuthorizeLaunch(t, STORE, START, Start, STARTING, RUNTIME);
      step.Ok? && Restarts(step.value.0, RELAUNCHED)
  {
    hide LaunchPayload;
    StartIsRead();
  }

  lemma Loses(t: Tables)
    requires Restarts(t, RELAUNCHED)
    ensures EffectsHeld(t)
    ensures var step := TurnRuntimeGone(t, STORE, AGENT, "u", false);
      step.Ok? && AGENT in step.value.0.sessions && !EffectHeld(step.value.0.sessions[AGENT])
    ensures var step := FailTurn(t, STORE, AGENT, "u", Some(RUNTIME));
      step.Ok? && AGENT in step.value.0.sessions && !EffectHeld(step.value.0.sessions[AGENT])
  {
  }

  // ---------------------------------------------------------------- the same steps as one run

  lemma {:induction false} RunSnoc(t: Tables, steps: seq<(Ambient, Command)>, c: Command)
    ensures Run(t, steps + [(STORE, c)]) == After(Run(t, steps), Perform(Run(t, steps), STORE, c))
    decreases |steps|
  {
    hide Perform, After;
    var all := steps + [(STORE, c)];
    if steps == [] {
      assert all[1..] == [];
    } else {
      assert all[1..] == steps[1..] + [(STORE, c)];
      RunSnoc(After(t, Perform(t, steps[0].0, steps[0].1)), steps[1..], c);
    }
  }

  const WORK: seq<(Ambient, Command)> := [
    (STORE, DoPrepareCreateStart(CREATE, DRAFT)),
    (STORE, DoAuthorizeCreateStart(CREATE, CREATION, RUNTIME)),
    (STORE, DoCompleteCreateStart(CREATE, CREATION, STARTED)),
    (STORE, DoAssignTurn(AGENT, "u"))]

  lemma WorkStarts()
    ensures Room(Run(EMPTY, WORK[..2]), LAUNCHED, DetachedMember, false)
  {
    hide Run, Room, PrepareCreateStart, AuthorizeCreateStart;
    RunOfNone();
    RunSnoc(EMPTY, [], WORK[0].1);
    RunSnoc(EMPTY, WORK[..1], WORK[1].1);
    assert [] + [WORK[0]] == WORK[..1] && WORK[..1] + [WORK[1]] == WORK[..2];
    Creates();
    Launches(Run(EMPTY, WORK[..1]));
  }

  /** An agent is created, started and given a turn. */
  lemma WorkIsDone()
    ensures Room(Run(EMPTY, WORK), BUSY, Joined, true)
  {
    hide Run, Room, CompleteCreateStart, AssignTurn;
    WorkStarts();
    RunSnoc(EMPTY, WORK[..2], WORK[2].1);
    RunSnoc(EMPTY, WORK[..3], WORK[3].1);
    assert WORK[..2] + [WORK[2]] == WORK[..3] && WORK[..3] + [WORK[3]] == WORK;
    Rests(Run(EMPTY, WORK[..2]));
    Works(Run(EMPTY, WORK[..3]));
  }

  lemma RunOfNone()
    ensures Run(EMPTY, []) == EMPTY
  {
  }

  /** A turn can break: an agent with a turn is created and started once more. */
  lemma ATurnCanBreak() returns (steps: seq<(Ambient, Command)>)
    ensures HasBroken(Run(EMPTY, steps), AGENT) && BrokenAlong(EMPTY, steps, AGENT)
    ensures CandidateKey(Run(EMPTY, steps), AGENT).Err?
  {
    hide Run, Room, HasBroken, BrokenAlong, TurnFine, PrepareCreateStart, CandidateKey;
    steps := WORK + [(STORE, DoPrepareCreateStart(REUSE, DRAFT))];
    WorkIsDone();
    RunSnoc(EMPTY, WORK, DoPrepareCreateStart(REUSE, DRAFT));
    ReuseBreaks(Run(EMPTY, WORK));
    ItsRunBrokeIt(steps);
  }

  lemma ItsRunBrokeIt(steps: seq<(Ambient, Command)>)
    requires HasBroken(Run(EMPTY, steps), AGENT)
    ensures BrokenAlong(EMPTY, steps, AGENT) && CandidateKey(Run(EMPTY, steps), AGENT).Err?
  {
    hide Inv, Run, BrokenAlong, CandidateKey;
    EmptyInv();
    RunTurns(EMPTY, steps, AGENT);
    BrokenIsNotFine(Run(EMPTY, steps), AGENT);
    AuthorityFailsOnlyOnBrokenTurns(steps, AGENT);
  }

  const AGAIN: seq<(Ambient, Command)> := WORK + [
    (STORE, DoPrepareLaunch(START, Start)), (STORE, DoAuthorizeLaunch(START, Start, STARTING, RUNTIME))]

  /** While its turn runs, the agent is started again for the runtime it already has. */
  lemma AgainIsInFlight()
    ensures Restarts(Run(EMPTY, AGAIN), RELAUNCHED)
  {
    hide Run, Room, Restarts, PrepareLaunch, AuthorizeLaunch;
    var planned := WORK + [(STORE, DoPrepareLaunch(START, Start))];
    assert planned + [(STORE, DoAuthorizeLaunch(START, Start, STARTING, RUNTIME))] == AGAIN;
    WorkIsDone();
    RunSnoc(EMPTY, WORK, DoPrepareLaunch(START, Start));
    Plans(Run(EMPTY, WORK));
    RunSnoc(EMPTY, planned, DoAuthorizeLaunch(START, Start, STARTING, RUNTIME));
    Relaunches(Run(EMPTY, planned));
  }

  /** Both steps that can take a runtime from under an effect are reachable: the loss of a turn's runtime, and
      a failed turn whose runtime was shut down. */
  lemma ATurnCanTakeARuntime(fails: bool) returns (steps: seq<(Ambient, Command)>, c: Command)
    ensures if fails then c.DoFailTurn? else c.DoTurnRuntimeGone?
    ensures EffectsHeld(Run(EMPTY, steps)) && Perform(Run(EMPTY, steps), STORE, c).Ok?
    ensures !EffectsHeld(Run(EMPTY, steps + [(STORE, c)]))
  {
    hide Run, Restarts, TurnRuntimeGone, FailTurn, EffectHeld;
    steps := AGAIN;
    c := if fails then DoFailTurn(AGENT, "u", Some(RUNTIME)) else DoTurnRuntimeGone(AGENT, "u", false);
    AgainIsInFlight();
    RunSnoc(EMPTY, AGAIN, c);
    Loses(Run(EMPTY, AGAIN));
  }
}
