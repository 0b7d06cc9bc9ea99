# Models of the room runtime

Dafny models of the parts of the room server and client whose correctness spans many functions, with
proofs of what they promise.

- `LifecycleModel`, `LifecycleSteps`: the durable agent lifecycle of one room. A request claims a
  reservation, records an intent on a session, lets exactly one external effect loose, and commits or is
  refused. Every operation is one atomic step on the tables (sessions, participants, reservations, results,
  event log, budget debits); a failed step rolls back. A step is run by a store of some runtime generation,
  so a crash or a re-opened store is a change of generation between two steps. `Command` lists every step,
  including those of the room around the protocol (turns, removals, restarts).
- `LifecycleInvariant`, `LifecycleMoves`, `LifecycleRuns`: the invariant, the six shapes of a committed
  step, and runs. `LifecycleReplies`: what callers may rely on from single commands. `LifecycleHistory`:
  what the outside world sees over a run (authorized runtimes, effects, reported events).
  `LifecycleTurns`: which steps leave a turn that nothing can finish or stop. `LifecycleExamples`: runs from
  the empty room that show what can go wrong.
- `LifecycleLaunch`, `LifecycleCreation`, `LifecycleStop`, `LifecycleRecovery`, `LifecycleService`: when each step
  is accepted, said of the tables and the request alone, what it leaves behind, and what the steps achieve
  together: launches and stops that go through, refusals that leave the agent usable, and effects of unknown outcome
  that can be retried or are ended.
- `LifecycleStore`: the operations as imperative code over a transaction object, each proved to be its step
  and to keep the invariant.
- `RoomSocket`: the reconnecting room socket client, one method per event, with a history of what was
  sent, delivered, announced and settled kept beside it.
- `PersonaMatching`, `PersonaLore`, `PersonaBudget`: literal keyword search, the bounded recursive lore scan
  as a fixed-point iteration, and the budgeted greedy selection.
- `CanonicalJson`: the encoder behind payload hashes, with a decoder that shows it uniquely decodable.
- `AvatarCustody`: the two tables that hold agent avatars. `Projection`: what a viewer may see of events.
  `Vote`: vote commands on the wire.

Digests (payload hashes, operation identifiers) are modelled as the values they are taken of, so they are
injective. Times, random identifiers, budget room, process observations and table look-ups of Unicode are
parameters.

Where the code gives less than one would expect, the exact condition is proved, with a witness:

- An effect in flight can lose its runtime identity to the two turn steps that clear a runtime without asking
  for an intent (`LifecycleHistory.EffectsHeldOverRuns`, `LifecycleExamples.ATurnCanTakeARuntime`).
- A launch, its failure or its recovery can set the runtime status of an agent with a turn; from then on no step
  modelled here stops, reconciles or ends it (`LifecycleTurns.RunTurns`, `LifecycleExamples.ATurnCanBreak`).
- A vote command one of whose texts was cut right after a space does not survive a round trip
  (`Vote.ReadAgain`, `Vote.ABallotCanChange`), and such an option may not resolve to itself
  (`Vote.OptionResolvesToItself`, `Vote.AnOptionCanBeLost`).

## Model

| member | source | states |
|---|---|---|
| LifecycleRuns.IntentHasExactlyOneRow | crates/agentsassemble-persistence/src/agent_lifecycle.rs:137-196 | in every reachable room a session holds an intent exactly when one pending reservation names it, never two; that reservation carries the intent's operation and kind of action; intent and runtime identity are all set or all empty |
| LifecycleMoves.StoredAuthorityIsConsistent | crates/agentsassemble-persistence/src/agent_reconciliation.rs:304-372 | the consistency check of a session against its reservations fails exactly on a turn that is not in order, and otherwise returns exactly the request that owns the intent |
| LifecycleTurns.StepTurns | crates/agentsassemble-persistence/src/agent_creation_records.rs:215-226 | a step leaves a turn in order if and only if it is not one of the launch, launch-failure and recovery steps that set the runtime status of an agent with a turn (a condition on tables and command before the step); what it breaks is broken, and no step repairs it |
| LifecycleTurns.RunTurns | crates/agentsassemble-persistence/src/agent_lifecycle.rs:479-514 | over every run a turn is in order at the end if and only if no step of the run broke it |
| LifecycleTurns.BrokenForGood | crates/agentsassemble-persistence/src/agent_stop_lifecycle.rs:46-150 | a broken turn stays broken over every run: no stop, reconciliation, turn or configuration step gets out of it |
| LifecycleTurns.AuthorityFailsOnlyOnBrokenTurns | crates/agentsassemble-persistence/src/agent_reconciliation.rs:304-372 | in every reachable room the consistency check of a session fails if and only if a step of the run broke its turn |
| LifecycleExamples.ATurnCanBreak | crates/agentsassemble-persistence/src/agent_creation_records.rs:43-74 | such a run from the empty room: an agent is created, started and given a turn, and is then created and started once more |
| LifecycleRuns.PerformMoves | crates/agentsassemble-persistence/src/agent_lifecycle.rs:109-324 | every committed step of any operation is one of six moves on the tables, with the licence (authorization, proof, adoption) its command carries |
| LifecycleInvariant.MoveKeepsInv | crates/agentsassemble-persistence/src/agent_lifecycle_reservations.rs:110-259 | each of those moves keeps reservations, intents, charges, log order and room capacity in agreement |
| LifecycleRuns.StepKeepsInv | crates/agentsassemble-persistence/src/agent_lifecycle.rs:109-324 | every step, accepted or rolled back, of any store generation keeps the invariant |
| LifecycleRuns.RunKeepsInv | crates/agentsassemble-persistence/src/agent_lifecycle_reservations.rs:110-185 | so does every run, with crashes and re-opened stores between its steps |
| LifecycleRuns.DebitsCountRequests | crates/agentsassemble-persistence/src/agent_lifecycle_reservations.rs:110-185 | over every run the budget debits equal the number of requests admitted against it, no key is reserved and answered at once, the log is strictly ordered and the room keeps its session capacity |
| LifecycleRuns.RunMovesForward | crates/agentsassemble-persistence/src/agent_lifecycle_reservations.rs:110-259 | a request moves only from absent to reserved to answered or refused; the last two are final, with the same stored result or refusal |
| LifecycleRuns.StepMovesForward | crates/agentsassemble-persistence/src/agent_lifecycle_reservations.rs:188-259 | the same for one step, which moreover never refuses a request it has not reserved before |
| LifecycleReplies.AnsweredIsInert | crates/agentsassemble-persistence/src/command_admission.rs:13-62 | whatever is asked again under the key of a committed request changes nothing; the same question by one who may ask it gets the stored result with no event reported as new, another action or payload is a conflict, and what may not ask or may not replay fails |
| LifecycleReplies.RepeatedIsAnswered | crates/agentsassemble-persistence/src/command_admission.rs:13-62 | a repeated request is answered with its stored result if and only if it may ask and asks with the stored action and payload |
| LifecycleReplies.RefusedIsFinal | crates/agentsassemble-persistence/src/agent_lifecycle_reservations.rs:233-292 | every later command under a refused key fails and so changes nothing |
| LifecycleReplies.BusySessionRefuses | crates/agentsassemble-persistence/src/agent_pause.rs:339-380 | while an intent is held, every pause, resident resume, configure, interrupt, creation, and every launch, re-add or stop of another operation leaves the whole store as it was; new requests are refused, but for a resume that only reports that the provider must be launched |
| LifecycleReplies.PauseThenResume | crates/agentsassemble-persistence/src/agent_pause.rs:159-310 | resuming what was paused is accepted and restores the whole session but for its update time |
| LifecycleReplies.ResidentPlanIsKept | crates/agentsassemble-persistence/src/agent_pause.rs:71-152 | a plan that found a resident session is kept: the command that follows it is accepted and changes only the scheduling state |
| LifecycleHistory.OneLiveRuntime | crates/agentsassemble-persistence/src/agent_lifecycle_effect_authority.rs:26-63 | over every run of these steps (reconstruction after a server restart is none of them) at most one runtime identity of an agent is authorized and not proven gone, it is complete and it is the one the session stores; after an applied stop there is none |
| LifecycleHistory.EffectsAreLetLooseOnce | crates/agentsassemble-persistence/src/agent_lifecycle_effect_authority.rs:74-210 | between two authorizations of one operation its runtime was proven gone or adopted, and both were made by the generation that claimed the request |
| LifecycleHistory.ClaimsAreKept | crates/agentsassemble-persistence/src/agent_lifecycle_reservations.rs:110-185 | a request claimed by one generation is never claimed by another |
| LifecycleHistory.StepKeepsWorld | crates/agentsassemble-persistence/src/agent_reconciliation_recovery.rs:176-277 | every step keeps tables, claims, runtime notes and reported events in agreement |
| LifecycleHistory.StepTells | crates/agentsassemble-persistence/src/agent_lifecycle_effect_authority.rs:19-65 | what a step lets loose, proves or adopts is about the session it moves: an authorization finds its operation prepared and leaves it in flight on a complete identity |
| LifecycleHistory.EveryEventIsReportedOnce | crates/agentsassemble-persistence/src/agent_create_start.rs:327-350 | the events reported as newly committed to a create-and-start request, over all its responses, retries and replays, are exactly the events of its final result, once each and in log order |
| LifecycleHistory.HeldRuntimeIsKept | crates/agentsassemble-persistence/src/agent_lifecycle_effect_authority.rs:33-63 | no step gives a held runtime another handle or lease, or without an adoption another owner; while a runtime or intent is held the executable, workspace and profile key stay |
| LifecycleHistory.StepIsFaithful | crates/agentsassemble-persistence/src/agent_configuration.rs:132-224 | what any step may do to any session: identities are cleared only on proof or after an applied stop, effects count as applied only on proof or without a runtime, operations are prepared anew only after proof or adoption |
| LifecycleHistory.EffectsStayHeld | crates/agentsassemble-persistence/src/provider_turn_reconciliation.rs:404-600 | an effect in flight has a complete runtime identity after a step if and only if the step is not one of the two turn steps that clear a runtime under an effect (the other is room_turn_completion.rs:236-258) |
| LifecycleHistory.EffectsHeldOverRuns | crates/agentsassemble-persistence/src/agent_lifecycle_effect_authority.rs:33-63 | every room a run passes through has a runtime for each effect in flight if and only if no step of the run takes one |
| LifecycleHistory.InflightHasItsRuntime | crates/agentsassemble-persistence/src/agent_lifecycle_effect_authority.rs:33-63 | so in every reachable room an effect in flight has its complete identity, unless a turn of the run took it |
| LifecycleHistory.WorldRunsTables | crates/agentsassemble-persistence/src/agent_lifecycle.rs:109-324 | the tables of a run with its history are those of the plain run, so what is said of one holds of the other |
| LifecycleExamples.ATurnCanTakeARuntime | crates/agentsassemble-persistence/src/room_turn_completion.rs:236-258 | runs from the empty room that end in a start in flight without identity, one for a failed turn whose runtime was shut down and one for the loss of a turn's runtime (provider_turn_reconciliation.rs:577-600) |
| LifecycleStore.Store.PrepareAgentLaunch | crates/agentsassemble-persistence/src/agent_lifecycle.rs:109-197 | prepares a start, resume or re-add in one transaction: the whole new state and reply of the atomic step, or its failure and no change; a plan it returns has its pending reservation of this generation and the prepared intent |
| LifecycleStore.Store.CompleteAgentLaunch | crates/agentsassemble-persistence/src/agent_lifecycle.rs:244-324 | commits the observed launch with its result, or changes nothing; once it succeeds the request is answered and no longer reserved, and unless it was answered before the agent runs as reported, with the provider session that was named, and its member has joined |
| LifecycleStore.Store.AuthorizeAgentStartEffect | crates/agentsassemble-persistence/src/agent_lifecycle_effect_authority.rs:74-140 | lets a launch effect loose for the exact reservation of this generation, or changes nothing; what was prepared is then in flight on a complete identity, the held one if any |
| LifecycleStore.Store.AuthorizeAgentStopEffect | crates/agentsassemble-persistence/src/agent_lifecycle_effect_authority.rs:147-210 | lets a stop effect loose for the exact reservation of this generation on the identity that is held, or changes nothing |
| LifecycleStore.Store.CommitLaunchFailure | crates/agentsassemble-persistence/src/agent_start_failure.rs:203-285 | refuses the reservation and clears the intent of a failed launch in one transaction, or changes nothing |
| LifecycleStore.RejectLaunchSession | crates/agentsassemble-persistence/src/agent_start_failure.rs:242-268 | a rejected launch gives its runtime up exactly after the effect and keeps its profile |
| LifecycleStore.Store.FailAgentStop | crates/agentsassemble-persistence/src/agent_stop_lifecycle.rs:156-201 | refuses a stop before its effect: the session keeps its runtime and has no intent, or nothing changes |
| LifecycleStore.AuthorizeStartEffect | crates/agentsassemble-persistence/src/agent_lifecycle_effect_authority.rs:19-65 | accepted if and only if the start is prepared and the identity complete and equal to a held one; then it is in flight under its operation and nothing held is replaced |
| LifecycleStore.Store.InspectAgentCreateStart | crates/agentsassemble-persistence/src/agent_create_start.rs:61-98 | finds the stored result of a create-and-start request, its own launch still to be authorized, or that nothing is known of it |
| LifecycleStore.Store.PrepareAgentCreateStart | crates/agentsassemble-persistence/src/agent_create_start.rs:105-178 | commits the creation records with the reservation and start intent, or changes nothing; a plan it returns may be authorized by this generation |
| LifecycleStore.Store.AuthorizeAgentCreateStartEffect | crates/agentsassemble-persistence/src/agent_create_start.rs:185-238 | the same authorization for a create-and-start request |
| LifecycleStore.Store.CompleteAgentCreateStart | crates/agentsassemble-persistence/src/agent_create_start.rs:245-351 | commits the launch with the create result extended by the launch events, or changes nothing; once it succeeds the request is answered and no longer reserved, and unless it was answered before the agent runs as reported, with the provider session that was named, and its member has joined |
| LifecycleStore.Store.CreateOrReuseIn | crates/agentsassemble-persistence/src/agent_creation_records.rs:29-74 | creates an agent's records, or reuses exact server-owned ones that are in no operation |
| LifecycleStore.Store.CreateRecordsIn | crates/agentsassemble-persistence/src/agent_creation_records.rs:76-135 | new session and participant rows and their event, within the room's capacity |
| LifecycleStore.Transaction.ClaimCommand | crates/agentsassemble-persistence/src/agent_lifecycle_reservations.rs:110-185 | claims a request: repeats must match, belong to this generation and be pending; new ones are admitted and charged |
| LifecycleStore.Transaction.FinishCommand | crates/agentsassemble-persistence/src/agent_lifecycle_reservations.rs:208-231 | removes exactly the matching pending reservation |
| LifecycleStore.Transaction.RefuseCommand | crates/agentsassemble-persistence/src/agent_lifecycle_reservations.rs:233-261 | marks exactly the matching pending reservation as refused |
| LifecycleStore.Transaction.AppendEvents | crates/agentsassemble-persistence/src/agent_lifecycle_events.rs:14-49 | appends one event of each kind with the next numbers of the log |
| LifecycleStore.ReadLaunchPayload | crates/agentsassemble-persistence/src/agent_readd.rs:21-48 | reads agent and start flag; both spellings of the flag must agree |
| LifecycleStore.Store.ExecuteAgentPause | crates/agentsassemble-persistence/src/agent_pause.rs:159-222 | pauses one idle resident session, or changes nothing |
| LifecycleStore.Store.ResumePausedAgent | crates/agentsassemble-persistence/src/agent_pause.rs:230-310 | resumes one paused resident session, or changes nothing |
| LifecycleStore.Store.ExecuteAgentConfiguration | crates/agentsassemble-persistence/src/agent_configuration.rs:51-129 | replaces the profile of a stopped session, or changes nothing |
| LifecycleStore.Store.ExecuteAgentInterrupt | crates/agentsassemble-persistence/src/agent_interrupt.rs:93-156 | accepts the interrupt of one exact busy turn, or changes nothing |
| LifecycleMoves.CompleteLaunchMoves | crates/agentsassemble-persistence/src/agent_lifecycle.rs:244-324 | completing a launch ends exactly its reservation, clears its intent and stores its result together; only an answered request is replayed |
| LifecycleMoves.LaunchFailedMoves | crates/agentsassemble-persistence/src/agent_start_failure.rs:203-285 | failing a launch refuses its reservation and clears its intent together; after the effect it proves the runtime gone |
| LifecycleMoves.PrepareStopMoves | crates/agentsassemble-persistence/src/agent_stop_lifecycle.rs:46-150 | preparing a stop claims it with its intent, repeats it, or answers at once that the agent is stopped already, each under its own request |
| LifecycleMoves.ReconcileMoves | crates/agentsassemble-persistence/src/agent_reconciliation_recovery.rs:111-168 | reconciling an observation refuses an abandoned request, completes a stop that is applied or gone, refuses a start that is gone, and otherwise leaves the intent to its request |
| LifecycleMoves.LiveReconcileMoves | crates/agentsassemble-persistence/src/agent_reconciliation_recovery.rs:176-277 | live reconciliation touches one session under the licence of what was observed, or nothing; what it decides is stated by LifecycleRecovery.LiveObservationDecides |
| LifecycleLaunch.LaunchIsRead | crates/agentsassemble-persistence/src/agent_readd.rs:21-48 | a launch payload reads as an agent and a start flag if and only if it names that agent under exactly one of three names and adds nothing, but for the two agreeing spellings of the flag of a re-add |
| LifecycleLaunch.LaunchIsPrepared | crates/agentsassemble-persistence/src/agent_lifecycle.rs:109-197 | a new launch is accepted if and only if its principal may control agents, the agent is the room's own, in no operation, in order, current, listed and a fit member, and the room admits the request; then it is reserved, charged and the operation of its session, or the re-added agent is listed |
| LifecycleLaunch.RepeatedLaunchIsTold | crates/agentsassemble-persistence/src/agent_lifecycle_reservations.rs:110-185 | a launch asked again under its reserved key conflicts, gets its refusal, is unresolved for another generation, or gets its plan again exactly while its effect is not let loose |
| LifecycleLaunch.LaunchIsAuthorized | crates/agentsassemble-persistence/src/agent_lifecycle_effect_authority.rs:74-140 | a launch effect is let loose if and only if its own reservation of this generation is outstanding and prepared and the runtime is complete and the one held, if any |
| LifecycleLaunch.LaunchIsCompleted | crates/agentsassemble-persistence/src/agent_lifecycle.rs:244-324 | a launch completes if and only if it is outstanding with its effect at work and the report is about it; the session is then attached, enabled, in no operation, on the reported runtime and with the provider session that was named, or its old one, its member has joined, and its answer and events are stored |
| LifecycleLaunch.LaunchIsRefused | crates/agentsassemble-persistence/src/agent_start_failure.rs:203-285 | a launch fails if and only if it is outstanding at that point and the reason can be stored; the request is refused for good, and the session is down without a runtime after the effect and keeps what it held before it |
| LifecycleLaunch.StartIsUncertain | crates/agentsassemble-persistence/src/agent_start_failure.rs:293-350 | a start is recorded as uncertain if and only if its effect is at work on this very runtime; the session keeps it and is out of service |
| LifecycleLaunch.LaunchGoesThrough | crates/agentsassemble-persistence/src/agent_lifecycle.rs:109-324 | any launch that may be made and is reported back as started goes through all its steps and leaves the agent running, its member joined, one answer, one charge and no reservation |
| LifecycleLaunch.LaunchedIsResident | crates/agentsassemble-persistence/src/agent_pause.rs:71-152 | a started agent is found resident, so that it can be paused, if and only if its provider is active, it has no turn and it did not go on with a busy or paused runtime |
| LifecycleLaunch.RefusedLaunchCanBeMadeAnew | crates/agentsassemble-persistence/src/agent_start_failure.rs:242-268 | an agent whose launch failed without leaving a runtime can be launched by another request, as far as its membership and profile allow |
| LifecycleCreation.CreationIsPrepared | crates/agentsassemble-persistence/src/agent_create_start.rs:105-178 | a new request to create and start is accepted if and only if the agent may be added, or reused by its owner, and the room admits it; then it is recorded, reserved with what it recorded, charged, and the start of its agent |
| LifecycleCreation.CreationIsAnswered | crates/agentsassemble-persistence/src/agent_sessions.rs:51-130 | creating without a start never reuses; it is answered at once and leaves a stopped agent with its draft's profile |
| LifecycleCreation.RepeatedCreationIsTold | crates/agentsassemble-persistence/src/agent_create_start.rs:415-472 | asked again under its reserved key a creation conflicts, gets its refusal, is unresolved, or gets its plan with nothing new, whether inspected or prepared |
| LifecycleCreation.CreationIsAuthorized | crates/agentsassemble-persistence/src/agent_create_start.rs:185-238 | a creation's launch is let loose under the same conditions as any other, by one who may control agents |
| LifecycleCreation.CreationIsCompleted | crates/agentsassemble-persistence/src/agent_create_start.rs:245-351 | a creation's launch completes exactly when a launch would, leaves the same session, and is answered with everything the request committed, first to last |
| LifecycleCreation.CreationIsRefused | crates/agentsassemble-persistence/src/agent_create_start.rs:359-413 | it fails if and only if it is outstanding at that point and the reason can be stored |
| LifecycleCreation.CreationGoesThrough | crates/agentsassemble-persistence/src/agent_create_start.rs:105-351 | any creation that may be made and is reported back as started goes through and leaves the agent attached, idle and its owner's, whether it was added or reused |
| LifecycleCreation.RefusedCreationCanBeReused | crates/agentsassemble-persistence/src/agent_creation_records.rs:43-74 | an agent whose creation failed for good can be started by another request of its owner with the same profile, and of nobody else |
| LifecycleStop.StopIsPrepared | crates/agentsassemble-persistence/src/agent_stop_lifecycle.rs:46-150 | a new stop is accepted if and only if the agent's turn is in order, it is in no operation, and there is nothing to stop and budget for saying so, or its runtime has exited or is held |
| LifecycleStop.NewStopIsPlanned | crates/agentsassemble-persistence/src/agent_stop_lifecycle.rs:46-150 | then it is answered at once, or reserved at no charge with its effect applied already, or with the effect on the held runtime still to be let loose |
| LifecycleStop.RepeatedStopIsTold | crates/agentsassemble-persistence/src/agent_stop_lifecycle.rs:96-150 | a stop asked again under its reserved key is told exactly what became of it and what is left to do |
| LifecycleStop.StopIsAuthorized | crates/agentsassemble-persistence/src/agent_lifecycle_effect_authority.rs:147-210 | a stop effect is let loose if and only if its own reservation of this generation is outstanding and prepared and a runtime is held |
| LifecycleStop.StopIsRefused | crates/agentsassemble-persistence/src/agent_stop_lifecycle.rs:156-201 | a stop is refused before its effect if and only if it is outstanding and prepared and the reason can be stored; the agent goes on as it was |
| LifecycleStop.StopIsRecorded | crates/agentsassemble-persistence/src/agent_stop_lifecycle.rs:208-236 | a shutdown is recorded, once or again, if and only if the effect was let loose and a turn, if there is one, is in order and closed |
| LifecycleStop.StopIsUncertain | crates/agentsassemble-persistence/src/agent_stop_lifecycle.rs:243-307 | a stop is recorded as uncertain if and only if its effect is at work and the turn in order; the runtime is kept and the member detached |
| LifecycleStop.StopIsFinished | crates/agentsassemble-persistence/src/agent_stop_lifecycle.rs:314-450 | a stop is finished if and only if it is outstanding and applied; the agent is halted with its profile and provider session kept, its member detached unless removed, and its answer and events stored |
| LifecycleStop.StopGoesThrough | crates/agentsassemble-persistence/src/agent_stop_lifecycle.rs:46-450 | any stop of a held runtime goes through all its steps and leaves the agent halted, one answer and no reservation, at no charge |
| LifecycleStop.ExitedStopGoesThrough | crates/agentsassemble-persistence/src/agent_stop_lifecycle.rs:46-150 | what has exited already is stopped without an effect |
| LifecycleStop.HaltedCanBeLaunched | crates/agentsassemble-persistence/src/agent_stop_lifecycle.rs:404-450 | a halted agent is at rest and can be launched, as far as its membership and profile allow |
| LifecycleRecovery.LiveObservationDecides | crates/agentsassemble-persistence/src/agent_reconciliation_recovery.rs:176-277 | asked about an unanswered effect, absence gives a start back on no runtime and ends a stop, adoption gives a start back on the renamed runtime, any other report about this runtime leaves the tables as they were, and one that is not about it is refused |
| LifecycleRecovery.OnlyEffectsAreAskedAbout | crates/agentsassemble-persistence/src/agent_reconciliation_recovery.rs:176-202 | nothing without an effect at work, let loose by another generation or changed since it was seen can be asked about |
| LifecycleRecovery.ReconciliationIsCurrent | crates/agentsassemble-persistence/src/agent_reconciliation_recovery.rs:279-294 | no reconciliation acts on a session that changed since it was seen or whose turn is not in order |
| LifecycleRecovery.RetriedStartIsPossible | crates/agentsassemble-persistence/src/agent_reconciliation.rs:566-584 | a start that was given back can be let loose again by its request, on any complete runtime after an absence and exactly on the renamed one after an adoption |
| LifecycleRecovery.RetriedStopIsPossible | crates/agentsassemble-persistence/src/agent_reconciliation.rs:552-565 | a stop whose runtime is gone can be finished by its request and leaves the agent halted |
| LifecycleRecovery.UncertainCanBeAskedAbout | crates/agentsassemble-persistence/src/agent_start_failure.rs:293-350 | an effect recorded as uncertain can still be asked about, but for a start of an agent with a turn |
| LifecycleRecovery.AbandonedIsRefused | crates/agentsassemble-persistence/src/agent_reconciliation_recovery.rs:35-91 | a request that never got to its effect is refused by whatever generation finds it, whatever is observed; its agent keeps its runtime |
| LifecycleRecovery.AbsenceEnds | crates/agentsassemble-persistence/src/agent_reconciliation_recovery.rs:111-168 | after a crash a start whose runtime is gone is refused and a stop that is applied, or whose runtime is gone, is finished for the request that asked |
| LifecycleRecovery.ObservationIsApplied | crates/agentsassemble-persistence/src/agent_reconciliation.rs:489-592 | any other observation about its runtime puts the agent in the state it found (taken over, gone, or in doubt) and leaves its request to be answered; one that is not about its runtime is refused |
| LifecycleService.ConfigurationIsApplied | crates/agentsassemble-persistence/src/agent_configuration.rs:51-224 | a configuration is accepted if and only if the agent is stopped and in no operation, it knows the profile it replaces and keeps the kind of provider; it stores the draft's profile at the current version |
| LifecycleService.ConfiguredCanBeLaunched | crates/agentsassemble-persistence/src/agent_configuration.rs:132-185 | a configured agent can be launched, as far as its membership allows |
| LifecycleService.PlanIsMade | crates/agentsassemble-persistence/src/agent_pause.rs:71-152 | the plan made before the runtime is asked: a replay, a conflict, a hand-over to provider launch, or the session exactly if it is resident |
| LifecycleService.PauseIsApplied | crates/agentsassemble-persistence/src/agent_pause.rs:159-222 | a pause is accepted if and only if the agent is resident, idle and enabled on the runtime that was asked |
| LifecycleService.ResumeIsApplied | crates/agentsassemble-persistence/src/agent_pause.rs:230-310 | a resume asks for a launch unless the agent is paused, and is then accepted if and only if it is resident on the runtime that was asked |
| LifecycleService.InterruptIsAccepted | crates/agentsassemble-persistence/src/agent_interrupt.rs:93-248 | an interrupt is accepted if and only if the agent works on the very turn and runtime it is aimed at and no other is under way |
| LifecycleService.TurnGoesThrough | crates/agentsassemble-persistence/src/room_turns.rs:440-479 | a turn is taken exactly by an idle, enabled, attached member in no operation, and finishing it leaves the agent as it was with nothing held against it |
| LifecycleService.TurnIsFinished | crates/agentsassemble-persistence/src/room_turns.rs:440-479 | a turn is finished exactly while it is the agent's and in order, in the stored provider session if it names one, which is thereby active; the agent is idle again |
| LifecycleService.TurnFails | crates/agentsassemble-persistence/src/room_turn_completion.rs:224-297 | a failed turn leaves the agent in error, and without its runtime exactly if that was shut down |
| LifecycleService.TurnLosesRuntime | crates/agentsassemble-persistence/src/provider_turn_reconciliation.rs:370-625 | the loss of a turn's runtime applies a stop that is at work, and else detaches the agent with nothing left to run on |
| LifecycleService.RemovalGoesThrough | crates/agentsassemble-persistence/src/participant_removal.rs:38-144 | a removed agent is disabled and fenced at once |
| LifecycleService.CleanupEnds | crates/agentsassemble-persistence/src/room_runtime_cleanup.rs:200-262 | the fence of a removed agent falls exactly when nothing of it is left running and no execution stands in the way |
| LifecycleService.ControlIsNeeded | crates/agentsassemble-persistence/src/agent_lifecycle_authority.rs:61-71 | a bridge, and whoever may not control agents, is denied every request to launch, create, stop, pause, resume, configure or interrupt, whatever else holds |
| LifecycleService.ReservedKeyConflicts | crates/agentsassemble-persistence/src/agent_lifecycle_reservations.rs:188-206 | a key that a launch, a creation or a stop has reserved serves no ordinary command |
| LifecycleService.NothingNewWhileRestarting | crates/agentsassemble-persistence/src/agent_lifecycle_reservations.rs:110-185 | while the room restarts no new request is admitted |
| LifecycleService.OnlyOwnOperation | crates/agentsassemble-persistence/src/agent_lifecycle_authority.rs:47-59 | no request can authorize, complete or fail the operation of another |
| LifecycleService.IdleFailureIsRecorded | crates/agentsassemble-persistence/src/agent_reconciliation_live.rs:17-75 | the exit of an idle bridge puts an agent in no operation in doubt, once |
| RoomSocket.Client.WhatHolds | frontend/src/roomSocketClient.ts:107-790 | after any events in any order: delivered events are exactly the ones after the last accepted snapshot's cursor, every promise waits or is settled, every command is sent at most once per connection and eight times in all with the same bytes in one room lifetime and never early, its transmissions lie at least the wait of their attempt apart as long as time has not run backwards, and the room was announced at most once per connection, at its high-water mark; on a ready open connection no command is forgotten: it was sent on it, or its retry timer is set |
| RoomSocket.Client.Frame | frontend/src/roomSocketClient.ts:637-668 | one frame: old, failed and closed connections are ignored; any other is accepted if and only if it is the frame this point of the handshake or the established log admits, and then takes its whole effect: the next step of the handshake, exactly the fresh events handed on, the answered command settled or counted, and, when it brings an open connection up to its high-water mark, the room announced once and everything due sent; a refused frame fails its connection, delivers nothing and leaves the cursor; nothing crosses a room lifetime, and what waited for the old one is told the truth |
| RoomSocket.Client.WhatGoesOut | frontend/src/roomSocketClient.ts:362-396 | when everything due is sent on a socket that takes all, each waiting command not yet sent on this connection whose retry time has come has exactly one more transmission, of its own bytes in its own room lifetime, and every other one waits for its retry timer |
| RoomSocket.DueMembers | frontend/src/roomSocketClient.ts:367-378 | what is due of a queue are exactly its commands not yet sent on this connection whose retry time has come |
| RoomSocket.DueAppends | frontend/src/roomSocketClient.ts:367-378 | what is due keeps the order of the queue |
| RoomSocket.Client.RetryTimerFires | frontend/src/roomSocketClient.ts:371-377 | a retry timer sends everything that is due on a ready connection and nothing on any other |
| RoomSocket.Client.AcceptEventFrame | frontend/src/roomSocketClient.ts:230-287 | a frame is accepted if and only if its fresh events continue the cursor up to the advertised one, and then exactly those are handed on |
| RoomSocket.ScanEvents | frontend/src/roomSocketClient.ts:245-287 | the loop that decides it |
| RoomSocket.Client.MarkReady | frontend/src/roomSocketClient.ts:398-412 | announces the room exactly when this open connection has delivered up to its high-water mark, and then sends everything due, in queue order, once each, up to the first command the socket refuses |
| RoomSocket.Client.TakeSnapshot | frontend/src/roomSocketClient.ts:467-510 | a snapshot is accepted if and only if it is the valid snapshot of this room at the receipt's cursor, initial exactly when nothing was delivered yet; another room's switches the room lifetime |
| RoomSocket.Client.SwitchRoom | frontend/src/roomSocketClient.ts:475-484 | a new room lifetime rejects everything that waits and empties the pending map and the cursor before it is adopted |
| RoomSocket.Client.TakeAnswer | frontend/src/roomSocketClient.ts:541-620 | a committed or rejected command settles as such at once; an unresolved one is counted as uncertain, or given up as unknown when its attempts are used up |
| RoomSocket.SendQueue | frontend/src/roomSocketClient.ts:362-396 | sends the due commands in queue order up to the first one the socket refuses, exactly one transmission each, and none for the others; what is not due has its retry timer set |
| RoomSocket.CloseQueue | frontend/src/roomSocketClient.ts:670-697 | a closed connection counts what was sent on it once, or gives it up as unknown, and leaves the rest as it was |
| RoomSocket.RejectQueue | frontend/src/roomSocketClient.ts:140-149 | rejecting everything settles each promise once, as unknown if it was ever sent and as unsent otherwise |
| RoomSocket.Client.DeadlineFires | frontend/src/roomSocketClient.ts:178-207 | the three outcomes of a deadline |
| RoomSocket.Client.Enqueue | frontend/src/roomSocketClient.ts:714-771 | a command is taken on under its own request with its own bytes and room lifetime and goes out at once on a ready connection, or its promise is settled at once with nothing sent |
| RoomSocket.Client.ResendUnknown | frontend/src/roomSocketClient.ts:158-176 | a resend goes only into the room lifetime of the original, with the original's bytes under the original request |
| RoomSocket.Client.SocketCloses | frontend/src/roomSocketClient.ts:676-697 | after a close nothing is marked as sent, what was sent is counted once or given up as unknown, unsent commands are untouched, and a reconnect follows unless the user has left |
| RoomSocket.Client.ReconnectTimerFires | frontend/src/roomSocketClient.ts:289-300 | each reconnect has its own generation |
| RoomSocket.Client.Close | frontend/src/roomSocketClient.ts:776-789 | closing settles everything, as unknown or unsent, and nothing can wake the client again |
| RoomSocket.CountKeeps | frontend/src/roomSocketRetryPolicy.ts:28-39 | counting an uncertain outcome, once per connection, keeps transmissions within the attempts counted |
| RoomSocket.RetryDelays | frontend/src/roomSocketRetryPolicy.ts:20-27 | waits start at half a second, double up to thirty seconds, and end at the eighth attempt |
| RoomSocket.RetriesAreApart | frontend/src/roomSocketRetryPolicy.ts:28-39 | a command counted as uncertain after it was sent is not sent again before its wait is over |
| RoomSocket.BookSend | frontend/src/roomSocketClient.ts:378-393 | a transmission keeps every command's history in order |
| PersonaLore.ScanLore | crates/agentsassemble-domain/src/persona.rs:250-290 | the scan returns the rounds-fold iterate; it lies inside every closed selection, and is itself closed, so the least one, when some round adds nothing or the lorebook is no longer than the rounds |
| PersonaLore.IterateInsideClosed | crates/agentsassemble-domain/src/persona.rs:262-290 | every iterate of a monotone scan lies inside every closed selection |
| PersonaLore.EnoughRoundsClose | crates/agentsassemble-domain/src/persona.rs:262-290 | as many rounds as entries always close the selection |
| PersonaLore.ActivationMonotone | crates/agentsassemble-domain/src/persona.rs:351-423 | activating more entries never deactivates one |
| PersonaLore.SearchTextHit | crates/agentsassemble-domain/src/persona.rs:285-289 | a keyword is found in the joined text exactly when it is found in one of the joined parts |
| PersonaLore.LoreMatches | crates/agentsassemble-domain/src/persona.rs:351-423 | the matcher decides membership in the activated entries |
| PersonaLore.EntryIsActive | crates/agentsassemble-domain/src/persona.rs:351-423 | an entry whose gate is open is active if it always is, or else when its keys are found: either kind will do, but a selective entry with secondary keys needs both |
| PersonaLore.GateOpens | crates/agentsassemble-domain/src/persona.rs:359-391 | the gate of an entry in terms of the one turn a room has had or not: which counts, periods and lots open it |
| PersonaLore.DecoratorsSay | crates/agentsassemble-domain/src/persona.rs:532-559 | each decorator line sets exactly what its name says, and unknown names set nothing |
| PersonaLore.DecoratorsAreNotShown | crates/agentsassemble-domain/src/persona_text.rs:1-24 | a leading decorator line changes nothing about what is shown, and any other line is shown |
| PersonaLore.LinesBreak | crates/agentsassemble-domain/src/persona_text.rs:1-24 | each line boundary ends a line, a carriage return together with its newline |
| PersonaLore.RoundsAre | crates/agentsassemble-domain/src/persona.rs:255-261 | one round unless the card scans recursively, and then as many as asked from one to eight |
| PersonaMatching.KeywordsSplit | crates/agentsassemble-domain/src/persona_text.rs:30-35 | the keywords of a text are those before a separator and those after it |
| PersonaMatching.KeywordsOfOne | crates/agentsassemble-domain/src/persona_text.rs:30-35 | a text without separator is one keyword, trimmed, or none when it is blank |
| PersonaMatching.TrimIs | crates/agentsassemble-domain/src/persona_text.rs:26-28 | trimming leaves what stands between the first and the last character that is no space |
| PersonaLore.ParseDecorators | crates/agentsassemble-domain/src/persona.rs:532-559 | decorator parsing reads the leading decorator lines and nothing after them |
| PersonaLore.OnlyLeadingLinesDecorate | crates/agentsassemble-domain/src/persona.rs:532-559 | what stands after the first line that is no decorator decorates nothing |
| PersonaMatching.FullWordMatch | crates/agentsassemble-domain/src/persona.rs:453-467 | true exactly when some occurrence, overlapping ones included, has a text edge or non-word character on both sides |
| PersonaMatching.LiteralMatch | crates/agentsassemble-domain/src/persona.rs:425-467 | all four kinds of search decide whether the keyword stands in the text |
| PersonaMatching.IgnoreCaseFullWordMatch | crates/agentsassemble-domain/src/persona.rs:446-452 | the case-ignoring full-word search, with the dotless letters identified |
| PersonaMatching.HitJoin | crates/agentsassemble-domain/src/persona_text.rs:30-35 | a keyword without newline is found in a joined text exactly when it is found in a part |
| PersonaBudget.FitLoreBudget | crates/agentsassemble-domain/src/persona.rs:303-349 | the greedy choice in input order within the budget, everything when all of it fits, non-empty whenever it can be, or the top entry cut to exactly the budget |
| PersonaBudget.Accept | crates/agentsassemble-domain/src/persona.rs:307-329 | the loop's choice is the greedy one and its fallback the top entry |
| PersonaBudget.GreedyIsUnique | crates/agentsassemble-domain/src/persona.rs:307-329 | entries, priorities and budget leave only one greedy choice |
| PersonaBudget.GreedyIsMaximal | crates/agentsassemble-domain/src/persona.rs:318-328 | no rejected entry fits beside the choice |
| PersonaBudget.GreedyTakesAll | crates/agentsassemble-domain/src/persona.rs:318-328 | when everything fits, everything is chosen |
| PersonaBudget.PriorityDecides | crates/agentsassemble-domain/src/persona.rs:310-317 | the higher priority goes first, then the earlier insertion, then the earlier position |
| PersonaBudget.ActiveLore | crates/agentsassemble-domain/src/persona.rs:250-301 | scan, order and budget together: the scanned entries, in insertion order and then lorebook order, fitted to the budget |
| CanonicalJson.ParseEncode | crates/agentsassemble-domain/src/canonical_json.rs:3-46 | from the encoding of a value followed by anything that cannot continue it, a decoder returns the value and the rest |
| CanonicalJson.EncodeInjective | crates/agentsassemble-domain/src/canonical_json.rs:3-46 | two values encode alike exactly when they are equal up to the order of object keys |
| CanonicalJson.KeyOrderIrrelevant | crates/agentsassemble-domain/src/canonical_json.rs:3-23 | the order of an object's entries never changes its encoding |
| CanonicalJson.LessIs | crates/agentsassemble-domain/src/canonical_json.rs:13-16 | keys are ordered by the first place where they differ, a text before what it begins |
| CanonicalJson.EscapeIsShortest | crates/agentsassemble-domain/src/canonical_json.rs:25-46 | every character is printed in the shortest form that reads as it, with small hexadecimal digits |
| CanonicalJson.EncodeString | crates/agentsassemble-domain/src/canonical_json.rs:25-46 | the string loop prints the quoted text escaped as section 7 of RFC 8259 asks |
| AvatarCustody.Store.StoreAvatar | crates/agentsassemble-persistence/src/agent_avatar_assets.rs:41-85 | an upload replaces the session's pending one and sweeps expired ones; a failure changes nothing |
| AvatarCustody.Store.ReadAvatar | crates/agentsassemble-persistence/src/agent_avatar_assets.rs:91-117 | reading succeeds exactly for current avatars and never finds custody inconsistent |
| AvatarCustody.Store.ReplaceAvatar | crates/agentsassemble-persistence/src/agent_avatar_assets.rs:120-160 | the asset side of a new reference, accepted exactly for none, the same or a live pending upload of the session |
| AvatarCustody.Store.UpdateProfile | crates/agentsassemble-persistence/src/agent_profile.rs:27-116 | accepted exactly when the profile command is and the reference may be replaced; asset and reference change together or not at all, and the stored custody is never at fault |
| AvatarCustody.CustodyIds | crates/agentsassemble-persistence/src/agent_avatar_assets.rs:120-160 | a session has at most one pending asset, and exactly the referenced one is current |
| AvatarCustody.OneCurrentAvatar | crates/agentsassemble-persistence/src/agent_avatar_assets.rs:120-160 | so no session ever has two current avatars |
| Projection.PublicValueIsClean | crates/agentsassemble-domain/src/projection.rs:105-145 | a projected value has no private key at any depth |
| Projection.PublicValueIsFinal | crates/agentsassemble-domain/src/projection.rs:61-139 | projecting again for the same viewer changes nothing |
| Projection.PublicValueKeepsPlace | crates/agentsassemble-domain/src/projection.rs:61-99 | an event stays an event with its id, room and number |
| Projection.EventIsShown | crates/agentsassemble-domain/src/projection.rs:61-99 | what each viewer is shown of an event: its place always; of a ballot its poll and nothing else; of an event that says it is for its owner nothing, unless the viewer is the participant or owner it names; of any other all but its private fields |
| Projection.ValueIsShown | crates/agentsassemble-domain/src/projection.rs:105-145 | every embedded event, at any depth, is shown as an event should be, private fields are gone, and everything else is as it was |
| Projection.PublicEventIsFinal | crates/agentsassemble-domain/src/projection.rs:61-99 | a projected event keeps its place, holds nothing private, and is left as it is by projecting it again |
| Projection.BallotsLookAlike | crates/agentsassemble-domain/src/projection.rs:176-196 | two ballots of one poll at the same place project alike for everyone: neither voter nor choice shows |
| Projection.OwnedLookAlike | crates/agentsassemble-domain/src/projection.rs:61-99 | two events that say they are for their owner, at the same place, project alike for whoever is neither the participant nor the owner they name |
| Projection.ValuesProjectAlike | crates/agentsassemble-domain/src/projection.rs:61-139 | two values that differ, at any depth, only in private fields, in voter and choice of a ballot or in events of others project alike |
| Projection.DecodeEncode | crates/agentsassemble-domain/src/model.rs:218-244 | an event written as JSON is read back as the same event |
| Projection.NoNewEvent | crates/agentsassemble-domain/src/projection.rs:105-128 | projection turns nothing into an event that was none |
| Vote.RoundTrip | crates/agentsassemble-domain/src/vote.rs:97-141 | a parsed command survives being written and read again if and only if its texts are already clean |
| Vote.ReadAgain | crates/agentsassemble-domain/src/vote.rs:97-141 | whatever was accepted from the wire survives being written and read again if and only if none of its texts ends in a space |
| Vote.ABallotCanChange | crates/agentsassemble-domain/src/vote.rs:97-141 | an accepted ballot that does not survive |
| Vote.CleanedIsFixed | crates/agentsassemble-domain/src/text.rs:41-50 | a cleaned text is left alone by the next cleaning if and only if it does not end in a space |
| Vote.CleanTwiceIsStable | crates/agentsassemble-domain/src/text.rs:41-50 | cleaning twice is stable |
| Vote.CleanOnceIsNotStable | crates/agentsassemble-domain/src/text.rs:41-50 | a text on which cleaning once is not |
| Vote.ParseOptions | crates/agentsassemble-domain/src/vote.rs:288-310 | the option loop keeps the visible options that are new under folding, at most ten |
| Vote.OptionsSurvive | crates/agentsassemble-domain/src/vote.rs:288-316 | parsed options read back as themselves if and only if each is already clean |
| Vote.FromPayloadParses | crates/agentsassemble-domain/src/vote.rs:97-114 | every parsed command is within the product's bounds: its texts cleaned, visible and within their limits, two to ten options distinct under folding, and a lawful duration and attachments |
| Vote.CommandIsRead | crates/agentsassemble-domain/src/vote.rs:97-114 | a payload is accepted if and only if it is of one of the four kinds with exactly its fields and every field lawful, and as which command |
| Vote.PollIsRead | crates/agentsassemble-domain/src/vote.rs:276-336 | a poll is accepted if and only if its question and two to ten different options show something and duration and attachments are absent or lawful, and then it is exactly those |
| Vote.OptionsAreParsed | crates/agentsassemble-domain/src/vote.rs:288-310 | the options of a poll are the cleaned texts that show something and read differently from all earlier ones, in their order; more than ten are refused |
| Vote.CleaningIs | crates/agentsassemble-domain/src/text.rs:41-50 | cleaning drops NULs, unifies line ends, trims and cuts to the limit, in this order |
| Vote.ReturnsAreNewlines | crates/agentsassemble-domain/src/text.rs:41-50 | a carriage return reads as a newline, and together with the newline after it as one |
| Vote.ResolveVoteChoice | crates/agentsassemble-domain/src/vote.rs:182-199 | only a stored option is ever returned |
| Vote.ChoiceIsResolved | crates/agentsassemble-domain/src/vote.rs:182-199 | a ballot names the first option that reads as it does under folding, or else the option of its number, or none |
| Vote.OptionResolvesToItself | crates/agentsassemble-domain/src/vote.rs:182-199 | a stored option resolves to itself if and only if it is already clean or its cleaned text is its own number |
| Vote.AnOptionCanBeLost | crates/agentsassemble-domain/src/vote.rs:182-199 | a stored option that resolves to nothing |
| Vote.ANumberCanLeadBack | crates/agentsassemble-domain/src/vote.rs:182-199 | a stored option that is not clean and resolves to itself by its number |
| Vote.ResolveIsIdempotent | crates/agentsassemble-domain/src/vote.rs:182-199 | resolving a resolved option again gives it if and only if it does not end in a space or its own number leads back to it |

## Left out

- PrepareStop: does not model stops of externally owned (attendee) sessions, whose custody follows other rules.
- OneLiveRuntime: does not cover the reconstruction of runtimes after a server restart, which launches without an intent; only the admission fence it raises is a step here.
- FinalizeStop: does not model the assignment of pending turns to other sessions in the same transaction; it is a step of its own.
- AppendEvents: does not model provider requests that expire while a state event is appended; they would add private events of their own.
- TurnGoesThrough, TurnIsFinished, TurnFails, TurnLosesRuntime, RemovalGoesThrough, CleanupEnds: the events these steps append to the log are appended by RecordRoomEvent, as a step of its own, and assignments that follow in the same transaction are steps of their own.
- StoredResult: does not model the JSON bodies of results beyond their kind and events.
- Store: completing a stop and reconciliation are modelled on values only, not as transactions.
- Turn queues, inputs, execution and interrupt-effect tables: a turn is its identifier, and their checks are parameters.
- Room closing, deletion and participant authentication: every step acts for an authorized principal in an open room.
- The text of stored failure messages: only whether it may be stored.
- Client: time is what each event is given and need not grow, and only while it does not run backwards are transmissions promised to lie apart; handlers do not call back into the client while it handles an event, and reconnect back-off, keepalive nonces and catalog contents are not modelled.
- ScanLore: variable replacement, prompt assembly and regular expressions of persona cards.
- FitLoreBudget: lengths are unbounded, so the saturating sum of the source never saturates.
- EncodeString: surrogate pairs and byte encodings; a string is a sequence of characters.
- StoreAvatar: raster validation, content bytes and the storage quota, which is a parameter.
- FromPayload: the identifier formats of polls and attachments are parameters.
- Dice, diagnostics redaction, profile and settings validators, provider setup: single-branch checks and string assembly.
