# Verified model of the scenario server

The scenario server is a co-simulation engine. It runs a scenario, a tree of phases that start, run and
end under conditions and that command actors through actions. It drives its clients through simulated
time with an event calendar, waits for them at every synchronous event, and logs what they do. This
project models the parts of the engine that share state and order events, and proves what they keep over
all inputs and over whole runs:

- the hierarchical phase machine with super-step semantics, its conditions and the life cycle of actions
  (`Scenario`, `PhaseSemantics`, `PhaseTree`, `PhaseCompletion`, `PhaseEffects`, `ConditionMeaning`, `SuperStep`, `Fixpoint`,
  `ActionLifeCycle`, `ActionRuns`, `ActionEnds`, `Execution`, `Dispatching`, `CompletionConditions`, `FollowerScenario`,
  `PhaseDiagramExecutor`);
- the race track, which orders the children of parallel phases so that actors are created before
  they are needed, and what its orders mean for a pass of the phase machine (`DependencyGraph`,
  `SortingGroups`, `PhaseVisits`, `RaceTrack`, `EffectOrder`, `OrdersKept`, `PassOrder`, `ActorCreation`, `MissedRacer`);
- the event calendar, the simulation loop with its commands, and custom events (`EventCalendar`,
  `SimulationSchedule`, `SimulationRuns`, `SimulationResults`, `SimulationCommands`, `Simulation`, `CustomEvents`);
- publishing with a barrier for synchronous clients, timeouts and the allocation of simulators (`Barrier`,
  `EventPublisher`);
- the bounded communication log and the diagnostic log (`LogIndices`, `MessageLogger`,
  `DiagnosticMessageLogger`);
- the pair enumeration of the collision condition (`CollisionCondition`).

Objects that the source updates in place are classes whose methods have the source's loops. Each such
method is proved equal to a function on state values, or against a predicate that says what it must
find; the theorems are then lemmas about these functions, for single calls and for whole runs.
`dafny verify dfyconfig.toml` verifies the project.

## How the source is represented

**Phases.** A diagram numbers its phases in preorder, so that the subtree of phase `p` is the interval
`[p, last)`. Phase and action ids are unique; ordered maps are traversed in ascending order of their id
strings, unordered ones in any order. The world is an oracle: leaf conditions, action objectives and
exceptions may depend on everything the scenario did to the world so far. An exception is a result that
keeps the state reached when it was thrown. Published events are appended to a trace. Inside the phase
machine the race track is such an oracle too, and its result must give every mix phase a permutation of its
children. The race track itself is modelled on its own; `PassOrder.RacerFirst` and `ActorCreation.ActorsAreCreatedFirst` put
the two together. The actors that conditions and actions name are lists of the data model; as with every condition of
the source, applying an end condition uses no actor that checking it does not (`ActorCreation.ApplyUsesLess`).

**Time.** Time is a real number and the tolerance is the source's `64 * 2^-52`; rounding of floating
point sums is not modelled.

**Threads.** The simulation loop, the barrier and custom events are state machines whose steps are the
source's critical sections. Runs are sequences of steps of all threads in any order. Timeouts are
steps that may happen at any time. One thread publishes at a time.

**Claims that hold only under a condition.** They are stated as equivalences. The source says that after a super
step no phase can change any more. When the passes of an update event end, that holds exactly if no starting phase
that a pass reaches finds its start condition satisfied (or throwing), and no running one its end condition, in the state the last
pass left (`Fixpoint.FixpointExactly`). A mix phase recomputes its completion flag while its children are
updated, so a condition below it reads a flag that tells about the earlier children only; the equivalence
takes that into account, and `Fixpoint.FixpointElsewhere` is its form for scenarios without such
conditions. It is enough that in the last pass no phase completed its actions whose completion some condition reads
(`Fixpoint.FixpointUnlessCompleted`), as in all scenarios whose conditions read only the world, time and phase states
(`Fixpoint.SuperStepFixpoint`). The claim fails in every scenario in which a phase waits for another one
whose actions the last pass completes (`CompletionConditions.CompletionConditionsBreakTheFixpoint`), because completing
an action does not set the flag that asks for another pass; such a run is given from its start
(`FollowerScenario.FollowerIsLeftBehind`). The race track is to see to it that every actor is created before a phase uses it.
Its orders achieve that for a phase that names an actor exactly if the phase that creates the actor gets to run in that pass: always if
neither that phase nor one above it has a start condition that may fail, and never if one has a start condition that does fail
(`ActorCreation.ActorsAreCreatedFirst`); a scenario of the second kind is given (`MissedRacer.RacerIsMissed`). During a publication the unready clients stay among the
synchronous subscribers, and wait windows are bounded by busy notices, exactly when no synchronous subscriber's
removal stands between its two critical sections as the publication begins
(`Barriers.UnreadySubscribeExactly`, `Barriers.WindowsAreBoundedExactly`). A diagnostic query returns what its
time bounds ask for exactly when the bounds are served: one bound alone, if it is not negative, yields nothing
(`DiagnosticLogs.QueryIsServedExactly`). The calendar's comparison is an order exactly on clustered times,
and for every stop time exactly when the step size exceeds twice the tolerance
(`EventCalendars.StrictWeakOrderIffClustered`, `EventCalendars.StepSizeForAllStopTimes`). The loop can pause with
step requests left exactly when it was paused from the start with more than one request
(`SimulationResults.PausedStartWaitsEarly`), which takes a start for single stepping during the restart of a paused
simulation (`SimulationResults.WhichStartsWaitEarly`). A stop call ends the loop at its next check unless somebody pauses, except
exactly when it comes between the loop's stop check and its look at the status while the last step request is being
served: then the loop stays in its wait (`SimulationCommands.StopSticksExactly`).

## Model

| member | source | states |
|---|---|---|
| PhaseSemantics.Update | scenario_server/Phase.cpp:98-129 | an update returns whether its phase has ended, touches only the phase's subtree, never moves a phase backwards, and sets the transition flag only if the sum of ranks grew |
| PhaseSemantics.OnEnd | scenario_server/Phase.cpp:157-183 | ending a phase touches only its subtree and advances the sum of ranks |
| PhaseTree.UpdateKeepsTree | scenario_server/Phase.cpp:98-129 | an update that throws nothing leaves its subtree at rest: ended phases have ended children, idle ones idle children, a serial phase has ended children before its position, a not ended one there and idle ones after it, a mix phase's flag tells whether all children have ended, and no running phase has initial actions pending |
| PhaseTree.OnEndKeepsTree | scenario_server/Phase.cpp:296-303 | ending a phase leaves its whole subtree at rest |
| PhaseTree.UpdateChildrenKeepsTree | scenario_server/Phase.cpp:307-329 | after the children were updated in any permutation, the transient flag of a mix phase says exactly whether all of them have ended |
| PhaseTree.UpdateInOrderKeepsTree | scenario_server/Phase.cpp:345-367 | the position loop of a serial phase keeps the order of its children |
| PhaseCompletion.EndsExactlyWhenDone | scenario_server/Phase.cpp:195-219 | a running phase without an end condition ends in an update exactly if, after what the update did inside it, all children have ended or all final actions are over, and no initial actions were pending; ending it then changes nothing but its own state, tracking and the transition flag |
| PhaseCompletion.PendingPhasesRunOn | scenario_server/Phase.cpp:205-212 | a phase with initial actions pending does not end in its first run update, whatever its end condition says, and has none pending after it |
| PhaseCompletion.EndOfRoot | scenario_server/Phase.cpp:157-183 | whenever the root phase ends, the update reports the success of the scenario |
| PhaseEffects.RunTries | scenario_server/Phase.cpp:420-443 | running a phase creates the actor, applies the end condition and then the initial, invariant and final actions, in this order, up to the first that throws or reports success or failure; if none does, it throws exactly if checking an initial action does |
| PhaseEffects.InvariantsAreChecked | scenario_server/Phase.cpp:466-475 | a run update of an action phase throws at once exactly if checking an invariant action does |
| PhaseEffects.DocumentOrder | scenario_server/Phase.cpp:691-722 | actions of each interval are applied, checked and sent to the clients in document order |
| ConditionMeaning.CheckIsTruth | scenario_server/Condition.cpp:186-194 | if nothing in a condition throws, evaluating operands with short cuts yields its truth: some operand of an or, all operands of an and |
| ConditionMeaning.OperandThrows | scenario_server/Condition.cpp:232-240 | a composite condition throws exactly if an operand does and none before it decides |
| ConditionMeaning.CompletionIsRead | scenario_server/Condition.cpp:1548-1551 | for a running phase at rest a condition on its completion is met exactly if all its children have ended or all its final actions are over |
| SuperStep.RunPasses | scenario_server/PhaseDiagramExecutor.cpp:50-60 | the super-step loop ends after at most 3n + 1 passes over n phases, less the ranks already reached, and on an update event it ends without a transition |
| SuperStep.QuietUpdateIsPoised | scenario_server/Phase.cpp:195-219 | an update without a transition changes nothing but dispatched actions whose objective was met, which are done, and leaves every phase it reached held by its own condition alone |
| Fixpoint.PoisedUpdate | scenario_server/Phase.cpp:98-129 | an update of such a subtree changes nothing at all if no condition lets a phase go on, and throws or makes a transition otherwise |
| Fixpoint.FixpointExactly | scenario_server/PhaseDiagramExecutor.cpp:50-60 | when the passes of an update event end, one more pass in the same world changes nothing exactly if no phase it reaches has a satisfied or throwing condition in the state as that phase sees it, for all conditions and scenarios; otherwise it throws or makes a transition |
| Fixpoint.FixpointElsewhere | scenario_server/Condition.cpp:1548-1551 | if no condition reads the completion of a mix phase above its own phase, the same holds with conditions in the state the last pass left |
| Fixpoint.FixpointUnlessCompleted | scenario_server/Condition.cpp:1548-1551 | one more pass changes nothing if in the last one no phase completed its actions whose completion some condition reads |
| Fixpoint.SuperStepFixpoint | scenario_server/PhaseDiagramExecutor.cpp:50-60 | one more pass changes nothing if conditions read only the world, time and phase states |
| CompletionConditions.CompletionConditionsBreakTheFixpoint | scenario_server/Condition.cpp:1548-1551 | in every scenario, if in the last pass of an update event a starting phase waited for the actions of a running one, all over or met, the passes have ended although one more throws or changes a state |
| FollowerScenario.FollowerIsLeftBehind | scenario_server/PhaseDiagramExecutor.cpp:29-79 | where a follower waits for the actions of a leader after it, the run of a start event leads to a state from which the super step of an update event ends too early |
| FollowerScenario.SomeScenarioFollows | scenario_server/PhaseDiagramExecutor.cpp:29-79 | there is such a scenario |
| SuperStep.RunPassesKeepsTree | scenario_server/PhaseDiagramExecutor.cpp:50-60 | the passes of an event keep the tree invariant |
| ActionLifeCycle.ActorRunKeepsActions | scenario_server/PhaseDiagramExecutor.cpp:121-134 | when an actor phase starts running, every live final action of another running phase of the actor that conflicts with one of its own has been preempted |
| ActionLifeCycle.ConflictIsSymmetric | scenario_server/Action.cpp:109-127 | conflict between actions is symmetric, including parameter changes |
| ActionEnds.ConflictMeaning | scenario_server/Action.cpp:109-127 | two actions of an actor are in conflict exactly if both control its steering, or its driving, or the same parameter |
| ActionEnds.ActionsByInterval | scenario_server/Phase.cpp:563-584 | every action of an actor phase is initial, invariant or final as its interval says, and all actions of a system phase are final |
| ActionEnds.CompletionEvents | scenario_server/Action.cpp:131-136 | the end of a dispatched actor action is published with its status, that of a zero-time operation is not |
| ActionLifeCycle.PreemptTracked | scenario_server/Action.cpp:55-71 | preempting an action skips or interrupts it and publishes a completion exactly in the second case |
| ActionLifeCycle.CompleteTracked | scenario_server/Action.cpp:75-93 | completing an action moves it from dispatched to done with one completion event, and is refused exactly for an undispatched one |
| ActionEnds.StartPreemptsExactly | scenario_server/PhaseDiagramExecutor.cpp:121-134 | a starting actor phase preempts exactly the live final actions of the tracked phases of its actor that conflict with one of its own, undispatched ones being skipped and dispatched ones interrupted |
| ActionEnds.UpdateHoldsOn | scenario_server/Phase.cpp:479-489 | no update makes a continuous action, or a user-defined one that is not instantaneous, done, whatever its checks say |
| ActionEnds.DoneOnlyByReport | scenario_server/Action.h:65-73 | in every run such an action is done only if a client reported it |
| ActionEnds.ImmediateActionsEnd | scenario_server/Phase.cpp:479-489 | a run update that returns leaves no dispatched final action whose objective needs no waiting, and none whose check is not implemented |
| ActionRuns.UpdateKeepsActions | scenario_server/Phase.cpp:445-541 | an update keeps, even when it throws, the agreement of statuses, phase states and events and the absence of conflicts, and every status only moves forward |
| Execution.InitialIsBetweenEvents | scenario_server/PhaseDiagramExecutor.cpp:14-25 | a new executor meets all invariants, with every phase idle and initial actions pending exactly where an actor phase has some |
| Execution.EventKeepsInvariants | scenario_server/PhaseDiagramExecutor.cpp:29-79 | every event leads from a state between events to another one, or throws |
| Execution.CompletionKeepsInvariants | scenario_server/PhaseDiagramExecutor.cpp:83-92 | between events a client's completion never reaches the internal error, and keeps all invariants |
| Execution.ReportCompletes | scenario_server/PhaseDiagramExecutor.cpp:83-92 | between events a client's report makes a dispatched final action of a phase in process done and publishes exactly that; any other report changes nothing |
| Dispatching.EventSendsExactly | scenario_server/PhaseDiagramExecutor.cpp:67-78 | after an event that returns, one action event was sent for each phase that started in it and has something left to do, with exactly its actions that were not skipped, in ascending order of the phase ids; these phases are in process now, and no phase waits for dispatch |
| Execution.EveryRunKeepsInvariants | scenario_server/PhaseDiagramExecutor.cpp:29-92 | the same over every run of events and completions from the beginning; from each state of the run to its end statuses only move forward and events are only added |
| Execution.LifeMeaning | scenario_server/Action.cpp:55-93 | what the state of an action's life says about the events: never sent, sent once, or completed once after that |
| Execution.ExactlyOnce | scenario_server/Phase.cpp:691-722 | a completion is published exactly once for an actor action that ends done or interrupted, after the one action event that carried it, and never otherwise; a skipped action is in no event |
| Execution.ActionsBetweenEvents | scenario_server/Phase.cpp:661-687 | between events no two running phases of one actor hold live final actions in conflict, tracked or not, and an ended phase has only terminal final actions |
| Execution.StatesBelow | scenario_server/Phase.cpp:296-341 | between events the descendants of an ended phase have ended and those of an idle or starting one are idle |
| PhaseDiagramExecution.PhaseDiagramExecutor.Update | scenario_server/Phase.cpp:98-129 | the do-while loop that promotes a phase terminates and equals the update function |
| PhaseDiagramExecution.PhaseDiagramExecutor.OnEnd | scenario_server/Phase.cpp:296-341 | the loops that end children equal the function |
| PhaseDiagramExecution.PhaseDiagramExecutor.UpdateMix | scenario_server/Phase.cpp:307-329 | the loop over the execution order, with the race track before the first pass, equals the function |
| PhaseDiagramExecution.PhaseDiagramExecutor.UpdateSerial | scenario_server/Phase.cpp:345-367 | the position loop equals the function |
| PhaseDiagramExecution.PhaseDiagramExecutor.DetectAndResolveConflict | scenario_server/Phase.cpp:661-687 | the nested loops over final actions equal the function |
| PhaseDiagramExecution.PhaseDiagramExecutor.SuperStep | scenario_server/PhaseDiagramExecutor.cpp:50-60 | the super-step loop terminates and equals the passes function, with the number of passes |
| PhaseDiagramExecution.PhaseDiagramExecutor.ProcessEvent | scenario_server/PhaseDiagramExecutor.cpp:29-79 | an event's passes and dispatch equal the function and keep all invariants |
| PhaseDiagramExecution.PhaseDiagramExecutor.NotifyActionComplete | scenario_server/PhaseDiagramExecutor.cpp:83-92 | finds the phase in process that has the action; exactly a dispatched action becomes done, with one completion event, and between events nothing is thrown |
| DependencyGraph.DepthFirstSearch.Visit | scenario_server/RaceTrack.cpp:151-192 | the recursive visit keeps finished vertices in topological order, or holds an edge on a cycle |
| DependencyGraph.DepthFirstSearch.Run | scenario_server/RaceTrack.cpp:170-192 | the search yields a topological order of all vertices, or an edge that lies on a cycle |
| DependencyGraph.BackEdge | scenario_server/RaceTrack.h:44-61 | an edge to a vertex still being visited closes a cycle |
| DependencyGraph.OrderedIsAcyclic | scenario_server/RaceTrack.cpp:151-192 | a graph with a topological order has no cycle |
| SortingGroups.SortingGroup.SortChildren | scenario_server/RaceTrack.cpp:151-192 | returns a permutation that puts each dependee before its dependent, or a dependency on a cycle, and the error exactly when no permutation respects them all |
| PhaseVisits.VisitSplits | scenario_server/Phase.cpp:314-323 | what a pass reaches from a phase splits around what it reaches from any active phase below |
| PhaseVisits.LocalOrderIsGlobal | scenario_server/Phase.cpp:314-323 | one of two active phases is always reached before the other exactly when the mix phase at which they diverge orders its children so |
| RaceTracks.LowestCommonAncestor | scenario_server/RaceTrack.cpp:107-145 | every common ancestor of two diverging members lies at or above the phase whose children they diverge under, which is a mix phase |
| RaceTracks.Diverge | scenario_server/RaceTrack.cpp:107-145 | two members neither of which lies below the other diverge at a mix phase, under two distinct children of it |
| RaceTracks.RaceTrack.Collect | scenario_server/RaceTrack.cpp:33-69 | the worklist terminates and collects exactly the active phases below the starter, one racer for every actor to create, and a group for exactly the active mix phases |
| RaceTracks.RaceTrack.FindDependencies | scenario_server/RaceTrack.cpp:71-84 | each member depends on exactly the other racers of the actors it names |
| RaceTracks.RaceTrack.FindSiblingAncestors | scenario_server/RaceTrack.cpp:107-145 | returns the mix phase and its two distinct children under which two members lie, or an error exactly when one member lies below the other |
| RaceTracks.RaceTrack.AssignDependencies | scenario_server/RaceTrack.cpp:86-98 | charges every dependency to the group where it diverges, or fails on a dependency between a phase and one below it |
| RaceTracks.SortedMeetsAll | scenario_server/RaceTrack.cpp:86-102 | orders that respect every group meet every dependency in the whole tree |
| RaceTracks.CircularNeverMet | scenario_server/RaceTrack.cpp:99-102 | if one group is circular no orders at all meet every dependency |
| RaceTracks.RaceTrack.Sort | scenario_server/RaceTrack.cpp:33-103 | the execution orders found make every racer be reached before each phase that needs it, and an error means that no execution orders do |
| EffectOrder.UpdateAdds | scenario_server/Phase.cpp:98-129 | an update applies conditions and actions and initializes actors of its own subtree only |
| OrdersKept.UpdateKeepsOrder | scenario_server/Phase.cpp:307-329 | an update below which every unsorted mix phase lies apart from a sorted one leaves the execution order of that one as it is |
| PassOrder.ChildrenInOrder | scenario_server/Phase.cpp:314-323 | if the execution order puts one child before another, a pass over the children does everything below the first before anything below the second |
| PassOrder.UpdateFollows | scenario_server/Phase.cpp:98-129 | the same in an update of any phase above, over serial phases, operations, installed orders and exceptions |
| PassOrder.RacerFirst | scenario_server/RaceTrack.cpp:71-102 | in the first pass of the mix phase that starts a successful race track, what is done for a member comes after everything done for a racer it needs, for every dependency the race track collects |
| ActorCreation.DependenciesExactly | scenario_server/Phase.cpp:252-270 | the actors a phase is ordered after are exactly those named by its start condition, its actions, and its end condition or, while initial actions are pending, the application of its end condition |
| ActorCreation.ActorsAreCreatedFirst | scenario_server/RaceTrack.cpp:16-36 | in the first pass of the mix phase that starts a successful race track, for every phase and every actor it names that another phase is to create: when a condition or action that uses the actor is applied, the actor was created before, if no start condition holds the creating phase or a phase above it back; it was not, if one does; and in every case exactly if it is created in that pass at all |
| MissedRacer.RacerIsMissed | scenario_server/Phase.cpp:187-193 | a first pass in which a start condition is applied although the actor it names was not created |
| MissedRacer.SomeScenarioMisses | scenario_server/Phase.cpp:187-193 | there is such a scenario |
| EventCalendars.StrictWeakOrderIffClustered | scenario_server/EventCalendar.h:30-37 | the tolerance comparison is a strict weak order exactly on times where being within the tolerance is transitive |
| EventCalendars.StepSizeForAllStopTimes | scenario_server/EventCalendar.h:30-37 | on multiples of a step size and any stop time it is one exactly when the step size exceeds twice the tolerance |
| EventCalendars.InsertedIsSorted | scenario_server/EventCalendar.h:79-83 | scheduling keeps the calendar sorted |
| EventCalendars.EventCalendar.ScheduleEvent | scenario_server/EventCalendar.h:79-83 | an event that is not in the past goes after all events it does not precede |
| EventCalendars.EventCalendar.AdvanceTime | scenario_server/EventCalendar.h:60-69 | the clock moves to the first event, or to the end of time, and the elapsed time is returned |
| EventCalendars.EventCalendar.PopNextEvent | scenario_server/EventCalendar.h:85-93 | removes and returns the first event, if there is one |
| SimulationSchedule.LastStep | scenario_server/Simulation.cpp:395-413 | the last step is the largest one due by the stop time and the tolerance |
| SimulationSchedule.AgendaAdvances | scenario_server/Simulation.cpp:875-906 | popping an event and renewing it leads from one exact calendar to the next, with the stop event in its place |
| SimulationSchedule.AgendaIsSorted | scenario_server/EventCalendar.h:30-101 | every calendar of a run is sorted by a strict weak order |
| SimulationRuns.SetupIsGood | scenario_server/Simulation.cpp:395-413 | the events scheduled at setup are the first calendar |
| SimulationRuns.ProcessNth | scenario_server/Simulation.cpp:843-910 | processing event number n publishes it and leads to calendar n + 1, unless handling it throws |
| SimulationRuns.ProceedIsGood | scenario_server/Simulation.cpp:532-606 | every step of the loop keeps the schedule, the clock and the pace |
| SimulationRuns.EveryRunIsGood | scenario_server/Simulation.cpp:532-606 | whatever other threads command and whatever is thrown, a run publishes a beginning of the schedule and then, only when it ends, one stop event |
| SimulationResults.CalendarOfEveryRun | scenario_server/Simulation.cpp:814-839 | while the loop runs its calendar is not empty and is sorted |
| SimulationResults.ClockNeverGoesBack | scenario_server/Simulation.cpp:814-839 | events are published at times that never go backwards |
| SimulationResults.OneStopEvent | scenario_server/Simulation.cpp:549-606 | the last event of an ended run is a stop event, and no other event is |
| SimulationResults.NothingIsTakenBack | scenario_server/Simulation.cpp:549-606 | what a run has published is the beginning of what any continuation publishes, and nothing follows the end of the loop |
| SimulationResults.UndisturbedRunIsFull | scenario_server/Simulation.cpp:843-910 | a run that ends without an exception or a stop request published exactly the start event, then step, update and post-step of every step k up to the largest one with k times the step size at most the stop time and tolerance, then the stop event, whatever pauses and single steps came in between |
| SimulationResults.StepRequestsAccountedFor | scenario_server/Simulation.cpp:582-606 | in single stepping without pause or resume, iterations and open requests account for all requests, and the loop waits only when all are served, one time step for each after the first |
| SimulationResults.PausedStartWaitsEarly | scenario_server/Simulation.cpp:582-606 | without pause or resume commands the loop can wait with requests left exactly if it was paused from the start with more than one request |
| SimulationResults.WhichStartsWaitEarly | scenario_server/Simulation.cpp:626-633 | of all start calls that takes one for single stepping while a paused simulation is being restarted; the start call of a restart itself never does |
| SimulationResults.FirstWait | scenario_server/Simulation.cpp:626-633 | left alone, a simulation started paused waits after its start event, one started for single stepping after its first time step, and another one never |
| SimulationCommands.PauseHolds | scenario_server/Simulation.cpp:765-792 | after a pause, and until somebody steps, resumes or stops, the loop publishes at most what is left of its pass, or the stop event, begins no further iteration, and does not leave its wait |
| SimulationCommands.ResumeReleases | scenario_server/Simulation.cpp:765-792 | a resume without open step requests ends the wait, which the next step of the loop leaves; with open requests it gives them up and leaves a pause as it is; a loop that works then waits only after another pause |
| SimulationCommands.StopIsObeyed | scenario_server/Simulation.cpp:708-739 | a stop call that does not come between the stop check and the look at the status ends the loop at its next check or in its wait with a stop event that names the request, after at most what is left of its pass, unless somebody pauses |
| SimulationCommands.StopSticksExactly | scenario_server/Simulation.cpp:574-606 | without pauses the loop can get stuck in a wait after a stop call exactly if the call comes between its stop check and its look at the status while its last step request is served |
| SimulationCommands.StopCauseIsTrue | scenario_server/Simulation.cpp:549-606 | the stop event of an ended run names a stop request only if there was one, an exception only if one was thrown, and the stop time only if the full schedule was processed |
| SimulationCommands.FinishedIsClean | scenario_server/Simulation.cpp:418-455 | when a run is over its calendar is empty, and its clock and step count are zero |
| Simulations.Simulation.constructor | scenario_server/Simulation.cpp:395-413 | setup schedules the first events |
| Simulations.Simulation.ProcessEvent | scenario_server/Simulation.cpp:843-910 | equals the function, and never schedules into the past |
| Simulations.Simulation.ProcessPresentEvents | scenario_server/Simulation.cpp:814-839 | the loop over present events terminates, handles at least one, and equals the function |
| Simulations.Simulation.UpdateStatus | scenario_server/Simulation.cpp:582-592 | counts down a request and pauses with the last one |
| Simulations.Simulation.StepSimulation | scenario_server/Simulation.cpp:743-761 | adds a request and ends a pause, or is refused |
| Simulations.Simulation.PauseOrResumeSimulation | scenario_server/Simulation.cpp:765-792 | a pause request pauses; a resume request gives up open step requests or, if there are none, ends a pause |
| Simulations.Simulation.StopSimulationRequested | scenario_server/Simulation.cpp:708-739 | raises the stop flag and wakes the loop |
| Simulations.Simulation.SimLoop | scenario_server/Simulation.cpp:514-620 | alone, the loop always ends with one stop event, and with the full schedule unless something throws |
| CustomEvents.EveryRunIsGood | scenario_server/Simulation.cpp:1453-1501 | what was received of one name is the list of all commits, in order, without those still queued, and everything sent is committed once or still pending |
| CustomEvents.ReceivedOnlyOnce | scenario_server/Simulation.cpp:1755-1800 | what was received never exceeds what was sent, and lags at most two commits |
| CustomEvents.ReceivedWithinTwoUpdates | scenario_server/Simulation.cpp:1755-1800 | everything sent is received after two further receiving events |
| CustomEvents.ScheduleTakesTurns | scenario_server/Simulation.cpp:872-907 | under the schedule of a simulation receiving and the two commits alternate as required |
| CustomEvents.OlderFirst | scenario_server/Simulation.cpp:1755-1775 | whenever events are received, the queues of a name hold the latest commit of either sender, the latest of all last |
| CustomEvents.CustomEventBroker.SendEvents | scenario_server/Simulation.cpp:1717-1751 | stores exactly the acceptable events up to the first of another type, and reports whether all were accepted |
| CustomEvents.CustomEventBroker.CommitEventUpdates | scenario_server/Simulation.cpp:1453-1501 | replaces one sender's queue of every name by the uncommitted events |
| CustomEvents.CustomEventBroker.ReceiveAllEvents | scenario_server/Simulation.cpp:1777-1785 | returns both queues of every name once, the older commit first |
| CustomEvents.CustomEventBroker.ReceiveEvents | scenario_server/Simulation.cpp:1786-1797 | returns the queues of the names given, in the order of the request and of the commits, and reports unknown names |
| Barriers.EveryRunIsSafe | scenario_server/EventPublisher.cpp:125-186 | whatever clients do, every client marked for a publication became ready, was removed or is still waited for, nobody is waited for when it returns, and no client is dropped in a window in which it spoke |
| Barriers.NoticesAreHeard | scenario_server/EventPublisher.cpp:207-258 | a notice takes its client off the list of silent clients; ready ends the wait for it, busy does not |
| Barriers.SpeakersSurvive | scenario_server/EventPublisher.cpp:161-185 | a client that reports in an open window is not dropped at the end of that window, whatever happens in between |
| Barriers.OnlyTimeoutsDrop | scenario_server/EventPublisher.cpp:161-185 | as long as no window times out nobody is dropped |
| Barriers.SubscribersAreWaitedFor | scenario_server/EventPublisher.cpp:57-99 | a new subscriber is not waited for at once, and from the next publication on exactly if it is synchronous |
| Barriers.DroppedIsErased | scenario_server/EventPublisher.cpp:161-185 | a dropped client is erased, and nobody waits for it unless it had only registered |
| Barriers.UnreadySubscribeExactly | scenario_server/EventPublisher.cpp:262-327 | during a publication the unready clients stay among the synchronous subscribers exactly if no removal of one was underway at its start |
| Barriers.EveryRunIsAccounted | scenario_server/EventPublisher.cpp:262-327 | in every run an unready client subscribes and is not being removed, unless its removal was underway when the event was published |
| Barriers.WindowsAreBounded | scenario_server/EventPublisher.cpp:161-185 | under that condition every window but the first follows a busy notice in the window before it |
| Barriers.ReregisteredClientKeepsWaiting | scenario_server/EventPublisher.cpp:262-327 | otherwise a client that was erased can register again and keep the wait going without a busy notice |
| Barriers.WindowsAreBoundedExactly | scenario_server/EventPublisher.cpp:161-185 | the number of windows is at most one more than the busy notices, whatever happens, exactly under that condition |
| Barriers.SilentWindowEndsTheWait | scenario_server/EventPublisher.cpp:161-185 | under the same condition a window that times out without a busy notice ends the wait, and then everybody marked became ready or was removed |
| EventPublishing.EventPublisher.constructor | scenario_server/EventPublisher.cpp:32-51 | configured timeouts are raised to the minimum |
| EventPublishing.EventPublisher.AddSubscriber | scenario_server/EventPublisher.cpp:57-99 | only a registered client subscribes, once, synchronously if it simulates actors, and the timeouts stay exact maxima |
| EventPublishing.EventPublisher.ResetTimeouts | scenario_server/EventPublisher.cpp:309-319 | recomputed timeouts are the maxima of the defaults and of the proposals of the remaining subscribers |
| EventPublishing.EventPublisher.TimeoutFor | scenario_server/EventPublisher.cpp:125-139 | the wait is the maximum of the event's default and all proposals |
| EventPublishing.EventPublisher.Publish | scenario_server/EventPublisher.cpp:141-163 | the assertion that nobody is unready holds, and exactly the synchronous subscribers are marked |
| EventPublishing.EventPublisher.EndWindow | scenario_server/EventPublisher.cpp:161-185 | the end of a window drops exactly the silent clients, opens another window while somebody is unready, and returns only when all marked clients became ready or were removed |
| EventPublishing.EventPublisher.SetClientReady | scenario_server/EventPublisher.cpp:207-231 | reports whether the client was waited for, and takes it off both lists |
| EventPublishing.EventPublisher.SetClientBusy | scenario_server/EventPublisher.cpp:237-258 | takes the client off the silent list only, and notes that it spoke if a window is open |
| EventPublishing.EventPublisher.RemoveSubscriber | scenario_server/EventPublisher.cpp:262-327 | removes the client, resolves its unready mark unless it only registered, and leaves the list of silent clients alone |
| EventPublishing.EventPublisher.AllocateActorSimulator | scenario_server/EventPublisher.cpp:348-483 | picks the least used simulator of the actor's platform, then of RoadRunner, fails exactly otherwise or at a simulator without a platform, and raises the use of the chosen client by one and changes nothing else |
| EventPublishing.AllocationKeepsBalance | scenario_server/EventPublisher.cpp:348-483 | allocation keeps the simulators of every platform within one use of each other |
| EventPublishing.AllocationIsFair | scenario_server/EventPublisher.cpp:348-483 | if the same k simulators of one platform, used equally before, serve n allocations, each of them is chosen n / k times, rounded down or up |
| LogIndices.PoppedLists | scenario_server/MessageLogger.cpp:434-442 | dropping the stale front of an exact ascending index leaves the exact index of the log without its front |
| LogIndices.PushedLists | scenario_server/MessageLogger.cpp:323-342 | appending a pushed position keeps an index exact and ascending |
| LogIndices.GetIndicesForTime | scenario_server/MessageLogger.cpp:47-87 | for nondecreasing times and both bounds the range holds exactly the entries between them, and it is empty if a bound is negative |
| MessageLogs.EnterCovers | scenario_server/MessageLogger.cpp:323-346 | entering a message keeps all indices exact |
| MessageLogs.CullCovers | scenario_server/MessageLogger.cpp:401-430 | culling after a pop keeps all indices exact |
| MessageLogs.MessageLogger.AddMessage | scenario_server/MessageLogger.cpp:302-349 | the log holds the messages from the last one popped on, one is popped exactly if the limit was reached, and every index lists exactly the retained positions |
| MessageLogs.MessageLogger.CullInvalidIndices | scenario_server/MessageLogger.cpp:401-430 | drops from every index exactly the positions that were popped |
| DiagnosticLogs.QueryIsServedExactly | scenario_server/MessageLogger.cpp:726-814 | on every log a query returns what it asks for exactly when its time bounds are served |
| DiagnosticLogs.KeptMeaning | scenario_server/MessageLogger.cpp:726-814 | the reference scan returns the messages at exactly the positions it keeps, in log order |
| DiagnosticLogs.DiagnosticMessageLogger.AddDiagnosticMessages | scenario_server/MessageLogger.cpp:690-711 | appends the messages and keeps the indices exact |
| DiagnosticLogs.DiagnosticMessageLogger.RetrieveMessages | scenario_server/MessageLogger.cpp:726-814 | intersecting index sets returns exactly the messages, in log order, that a scan of the log with all filters keeps |
| CollisionConditions.EveryPairOnce | scenario_server/Condition.cpp:762-796 | every two different actors, one from each group, are tested once in one order or the other, however the groups overlap |
| CollisionConditions.TestsSuffice | scenario_server/Condition.cpp:693-799 | the tests find a collision exactly when the check of all pairs does |
| CollisionConditions.TestGroups | scenario_server/Condition.cpp:762-796 | the nested loops with their skip set test exactly the chosen pairs, each once |
| CollisionConditions.TestAll | scenario_server/Condition.cpp:730-740 | without groups, every pair of the list is tested once |
| CollisionConditions.CollisionCondition.Check | scenario_server/Condition.cpp:693-799 | the verdict is that of the check of all pairs, every collision between the groups is recorded in one order or the other, and an unknown actor is an error |

## Left out

- RaceTracks.RaceTrack.Sort: the phase whose dependency failed is not named in the error; the culprit is stated for one group (`SortingGroups.SortingGroup.SortChildren`).
- SimulationRuns.EveryRunIsGood: publishing and scenario logic may throw at any event but the stop event; step counts are unbounded, not 32 bits wide.
- CustomEvents.EveryRunIsGood: a commit is a multiset, because the set comparison of the source is not an order; an overflow of 2^31 events in one commit is not modelled.
- MessageLogs.MessageLogger.AddMessage: the windows in which a client received published messages are not modelled, because they mix absolute and relative positions; positions are unbounded.
- Combined queries of the communication log, where an empty keyed result falls back to all messages in the time range, and the actor index of the runtime log, which is culled on a copy.
- Logs that span several simulations, whose time stamps go back to zero between runs.
- Leaf conditions, action objectives, parameters, actor states and geometry, which are oracles; box overlap is any symmetric relation.
- Wall-clock pacing, condition variables and the exact durations of timeouts.
- Writing events to client streams, subscription and unsubscription events, and status notifications.
- Two threads that publish synchronously at once, as adding a run-time actor may do.
- gRPC services and clients, validation of data models, summaries and diagnostics text, and the replay of recorded runs.
