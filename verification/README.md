# AgentGear runtime supervision, verified

AgentGear supervises the execution of a task by coding agents. This project models its supervision core, its
planner and its checkpoint log, and proves what they promise.

**The supervisor.** `Coordinator.ExecutionWatchdog` is the coordinator object in the form the source gives it: fields
and parts (state machine, progress log, stall detector, recovery ladder, loop guard, budget ledger, heartbeat writer,
checkpoint store) that every call updates in place. `Supervision` says what each call does to the whole state as a
value: `Refused` lists the reasons a call is turned down, in the order they are checked, `Carried` what it does
otherwise, and `Step` puts them together. Each public method is proved to have exactly that effect, and the object
remembers the calls made so far in a ghost trace, so that everything proved of `Run` holds of every object
(`EveryWatchdogObeys`). The outcome of every write to disk is an argument (`Disk`), so all results hold under any
pattern of write failures.

**Invariants.** `SupervisionInvariants` states them. `Sound` is the timeline and the lifecycle; `Bounded` the counters, the
failure streak and everything that is limited; `Audited` the audit trail of recovery episodes, the ladder and the cause of a
block; `Paid` the ledger and `Owed` the charges without an attempt; `Watched` the absence of a pending stall; `MirrorOk` the
honesty of the heartbeat. `SupervisionMoves` takes every call apart into small moves, so that what each move keeps the
call keeps (`StepByMoves`). `SupervisionSoundness`, `SupervisionBounds`, `SupervisionAudit`, `SupervisionMoney`,
`SupervisionLadder`, `SupervisionGrowth`, `SupervisionWatch` and `SupervisionMirror` prove it of every call,
`SupervisionRuns` of every run; `SupervisionTheorems`, `SupervisionEndings`, `SupervisionRefusals` and
`SupervisionLifecycle` prove what callers get from it.

**Effects.** What a call does is also said without the functions that compute it. `SupervisionRecords` reads every list on
record, every fact and the last error off the arguments of the accepted calls; `SupervisionEffects` says what each call does
to the clock, the transition history and the audit trail; `SupervisionAnswers` which calls are accepted, where a verdict
leads, what a result and an escalation leave and what the caller is told; `SupervisionHeartbeat` what the durable heartbeat
shows, field by field; and `SupervisionPlans` what a start commits, with a plan and without. Results about runs hold whatever is called, in any order and with any arguments; those
that hold only while no call was refused too late (see below) say so, and beside each stands what holds otherwise.

**The parts.** `StateMachine`, `Stall`, `Recovery`, `Budget`, `Escalation` and `Heartbeats` hold the classes the coordinator
is built from, with their own theorems. `Checkpoints` shows that the segmented log is one sequence,
`CheckpointProtocol` that it stays one under any interleaving of locked appenders and unlocked readers, `CheckpointCalls` that
what processes note of their own calls is what happened, and `CheckpointGap` where an unlocked reader can go wrong. `Analysis`, `Routing` and `Planning` model the planning pipeline up to its end-to-end
monotonicity.

**What the code does that its comments do not say.**

- The documentation of the coordinator (`src/agentgear/watchdog/coordinator.py:366-367`), of the state machine
  (`src/agentgear/watchdog/state_machine.py:154-160`) and the table itself (line 43) have a blocked execution resume
  through recovery. `begin_recovery` demands a stall (line 725), so no call leaves Blocked (`FinalIsKept`).
- A blank `reason` is rejected by `begin_recovery` only after the attempt has been charged, counted and its strategy used
  up. `RejectedCallsChangeNothing` says exactly when a refused call changes something (`RefusedTooLate`), and
  `BlankReasonSlipsThrough` shows such a run. Three promises fail by it, and fail by nothing else:
  - The comment on the mirror (`src/agentgear/watchdog/coordinator.py:403-405`) says there is no reachable state where the
    durable heartbeat is stale yet not marked dirty. There is: after such a call, made while the mirror is clean, the file still
    shows the strategy before (`CleanMirrorCanLie`). `StepKeepsMirror` gives the exact condition for a call, and
    `CleanMirrorIsExact` for a whole run.
  - The tokens spent exceed what was done by one context for each such call: the plain equation holds if and only if
    there was none (`Conservation`).
  - The ladder can be used up without an attempt on record, so that a recovery is blocked for want of a strategy
    (`LadderCanRunOut`); without such a call that branch is dead (`LadderNeverRunsOut`, `BlockedIsExplained`).
- Recovery may resume into Planning, and an execution that does can never leave it again (`ResumingIntoPlanningIsFinal`,
  `EveryStartedStateCanEnd`).
- Trailing identical failures do not always raise the identical-failure signal: `IdenticalSignalExactly` says when,
  `IdenticalTailCanStaySilent` shows a case.
- A log built by appends agrees with the plain sequence up to 99,999,900 entries and no further
  (`BuiltLogReadsBackExactly`; over an existing directory, `AppendsReadBackExactly`).
- An unlocked `all()` lists the directory while others append, and a listing is not atomic: it may show a segment and miss
  an earlier one. That takes more than a hundred appends during the listing, and otherwise the result is a moment of the log
  (`UnlockedAllIsAtomic`); with one more than a hundred it need not be (`AllCanMissASegment`). `latest()` is not affected
  (`UnlockedLatestIsAtomic`).

## Model

| member | source | states |
|---|---|---|
| Coordinator.ExecutionWatchdog.constructor | src/agentgear/watchdog/coordinator.py:134-281 | a new watchdog is valid, has seen no call, and owns fresh parts; its checkpoint store and its heartbeat writer start from whatever the state directory holds |
| Coordinator.ExecutionWatchdog.ForPlan | src/agentgear/watchdog/coordinator.py:284-310 | supervision of a plan takes tier, reasoning and context from it and charges its tokens times agents and its cost |
| Coordinator.ExecutionWatchdog.BuildHeartbeat | src/agentgear/watchdog/heartbeat.py:41-65 | the heartbeat built is the projection of the current state |
| Coordinator.ExecutionWatchdog.WriteHeartbeat | src/agentgear/watchdog/coordinator.py:387-432 | a write or build that fails leaves the old record and a dirty flag; one that succeeds stores the projection and clears it; nothing else changes |
| Coordinator.ExecutionWatchdog.SyncHeartbeat | src/agentgear/watchdog/coordinator.py:443-461 | replays only the mirror, at the time of the last attempt, and reports whether it is in step |
| Coordinator.ExecutionWatchdog.TransitionToBlocked | src/agentgear/watchdog/coordinator.py:463-499 | report, closed episode, transition and last error together, with the attempts and strategies of this episode |
| Coordinator.ExecutionWatchdog.OpenNewRecoveryEpisode | src/agentgear/watchdog/coordinator.py:501-515 | a new number, no attempts and no strategies, and only the episode counter of the guard reset |
| Coordinator.ExecutionWatchdog.CloseRecoveryEpisode | src/agentgear/watchdog/coordinator.py:517-531 | appends the episode as it stands, or nothing when none was ever opened |
| Coordinator.ExecutionWatchdog.Start | src/agentgear/watchdog/coordinator.py:535-570 | the exact state and reply of start, for every argument: refusals in order, initial charge, first transition, mirror |
| Coordinator.ExecutionWatchdog.Advance | src/agentgear/watchdog/coordinator.py:572-609 | the exact state and reply of advance |
| Coordinator.ExecutionWatchdog.RecordActivity | src/agentgear/watchdog/coordinator.py:611-659 | the exact state and reply of record_activity, including the stall it may open and both mirror writes |
| Coordinator.ExecutionWatchdog.RecordProgress | src/agentgear/watchdog/coordinator.py:661-679 | the exact state and reply of record_progress; the progress log never refuses the event |
| Coordinator.ExecutionWatchdog.Evaluate | src/agentgear/watchdog/coordinator.py:681-714 | the exact state and reply of evaluate |
| Coordinator.ExecutionWatchdog.Admit | src/agentgear/watchdog/coordinator.py:735-792 | finds the first obstacle in the order of the code and then changes nothing, or picks the next strategy and charges it |
| Coordinator.ExecutionWatchdog.BeginRecovery | src/agentgear/watchdog/coordinator.py:716-812 | the exact state and reply of begin_recovery, blank reasons included |
| Coordinator.ExecutionWatchdog.RecordRecoveryResult | src/agentgear/watchdog/coordinator.py:814-941 | the exact state and reply of record_recovery_result; none of its transitions or progress records is ever refused |
| Coordinator.ExecutionWatchdog.RecordEscalation | src/agentgear/watchdog/coordinator.py:943-975 | the exact state, reply and decision of record_escalation |
| Coordinator.ExecutionWatchdog.TakeCheckpoint | src/agentgear/watchdog/coordinator.py:977-1014 | the exact state and reply of checkpoint, and the checkpoint files: appended exactly when memory claims it |
| Coordinator.ExecutionWatchdog.Complete | src/agentgear/watchdog/coordinator.py:1016-1020 | the exact state and reply of complete |
| Coordinator.EveryWatchdogObeys | src/agentgear/watchdog/coordinator.py:90-132 | every object, after any calls with any arguments and write failures: timeline, lifecycle, bounds, audit trail and ledger are in order, no stall is pending, charges without an attempt number the calls refused too late, and while there is none the mirror is exact |
| Coordinator.DurableLogIsTheMemory | src/agentgear/watchdog/coordinator.py:994-1014 | the durable checkpoint log of a persistent watchdog reads back as the history found at construction followed by the checkpoints in memory, if and only if the directory had free places for them |
| SupervisionSoundness.StepIsSound | src/agentgear/watchdog/coordinator.py:314-339 | every call, with any arguments and write failures, keeps every record in order and below the clock and the lifecycle on its edges |
| SupervisionSoundness.ProjectionIsValid | src/agentgear/watchdog/coordinator.py:411-426 | once started, the heartbeat can always be built |
| SupervisionBounds.StepIsBounded | src/agentgear/watchdog/coordinator.py:535-1020 | every call keeps the counters of the guard exact, the failure streak equal to the recount, episodes within the activities that caused them, and escalations within the climb |
| SupervisionBounds.BoundsStalled | src/agentgear/watchdog/coordinator.py:692-714 | every fresh stall rests on an activity after the boundary, so it uses up one of its own |
| SupervisionAudit.StepIsAudited | src/agentgear/watchdog/coordinator.py:501-941 | every call keeps the audit trail, the ladder of the open episode and the truth of the cause a block reports |
| SupervisionAudit.AuditCloses | src/agentgear/watchdog/coordinator.py:517-531 | closing the open episode extends the audit trail correctly, whichever way it ends |
| SupervisionAudit.DenialIsExplained | src/agentgear/watchdog/coordinator.py:735-790 | whatever denies an attempt is true of the state where it is denied, in the terms the report will use |
| SupervisionMoney.StepIsPaid | src/agentgear/budget.py:88-219 | every call keeps the ledger in order: within its ceilings, every entry committed, one initial charge at most and first, all others one context each, as many escalation charges as escalations |
| SupervisionMoney.StepOwes | src/agentgear/watchdog/coordinator.py:777-806 | every call settles what it charges, a recovery charge with an attempt on record, except exactly a call refused too late, which leaves one charge without |
| SupervisionMoney.StepIsBilled | src/agentgear/watchdog/coordinator.py:943-975 | any call but a successful start adds to the committed cost nothing, or the estimate of one context at the tier it leaves |
| SupervisionLadder.StepIsStraight | src/agentgear/watchdog/coordinator.py:754-806 | a call that is not refused too late keeps every attempt of every episode on the next rung |
| SupervisionWatch.StepKeepsWatch | src/agentgear/watchdog/coordinator.py:681-714 | no call, whatever its arguments and write failures, leaves a clock-independent stall signal pending in an active state |
| SupervisionMirror.StepKeepsMirror | src/agentgear/watchdog/coordinator.py:387-432 | from an exact mirror, a call leads to one that is wrong and not marked stale if and only if it is refused too late, with persistence, while the mirror is clean |
| SupervisionMirror.StepFromOutdated | src/agentgear/watchdog/coordinator.py:777-806 | a wrong mirror stays wrong over every call until the next accepted one that begins a recovery with a reason or gives up |
| SupervisionGrowth.StepGrows | src/agentgear/watchdog/coordinator.py:314-339 | from any state, no call drops or rewrites a record, turns back the clock, lowers a tier or changes the start time |
| SupervisionGrowth.RunGrows | src/agentgear/watchdog/coordinator.py:314-339 | the same over whole runs |
| SupervisionGrowth.OnlyOneCallSaves | src/agentgear/watchdog/coordinator.py:977-1014 | no call but checkpoint changes the checkpoints |
| SupervisionRecords.StepRecords | src/agentgear/watchdog/coordinator.py:611-679 | from any state, a call adds to activities, progress and checkpoints exactly what its arguments say, and only when accepted; start time, task and progress evidence likewise |
| SupervisionRecords.RunRecords | src/agentgear/watchdog/coordinator.py:611-679 | over any run, activities, progress events and checkpoints are those the accepted calls described, argument by argument and in order |
| SupervisionRecords.StepTellsError | src/agentgear/watchdog/coordinator.py:626-714 | the last error after a call is the cause if it blocked, else the stall it opened, else the error of the activity it recorded, else what it was |
| SupervisionRecords.RunTellsError | src/agentgear/watchdog/coordinator.py:463-499 | over any run the last error is the last one told by an activity, a stall or the block |
| SupervisionEffects.StepLeads | src/agentgear/watchdog/coordinator.py:341-385 | a call that counts commits its own time, records every state it passes at that time, with the proof of a completion as evidence, and closes the episode it ends as it stands; any other leaves all three alone |
| SupervisionAnswers.ReachedLeads | src/agentgear/watchdog/coordinator.py:341-385 | the same for every call in every reachable state |
| SupervisionAnswers.AcceptedExactly | src/agentgear/watchdog/coordinator.py:535-1020 | in every reachable state a call is accepted if and only if the state admits it, its arguments make sense, its time is not past and its charge or proof backs it, each written out; and which error stands for what is missing |
| SupervisionAnswers.ResultIsRecorded | src/agentgear/watchdog/coordinator.py:814-941 | an accepted result fills in the last attempt and no other, with its outcome and time; a success goes where it is told; neither charges anything |
| SupervisionAnswers.CapabilityExactly | src/agentgear/watchdog/coordinator.py:943-975 | tier and reasoning change by an approved escalation alone, to what was approved, counted once |
| SupervisionAnswers.AnswersExactly | src/agentgear/watchdog/coordinator.py:387-461 | every accepted call is answered as done when all the writes it makes worked, as failed otherwise, and the mirror is marked stale exactly then |
| SupervisionHeartbeat.HeartbeatShowsTheState | src/agentgear/watchdog/coordinator.py:406-426 | in every reachable state the record on disk, once started with persistence, not marked stale and not lying, reads back as a heartbeat that shows state, task, time and evidence of the latest progress, number of activities, strategy, last error and the pending work of the last checkpoint |
| SupervisionHeartbeat.CheckpointIsShown | src/agentgear/watchdog/coordinator.py:977-1014 | a checkpoint whose writes succeed leaves a heartbeat with its own pending work |
| SupervisionPlans.PlanIsCommitted | src/agentgear/watchdog/coordinator.py:284-310 | for every plan accepted under a policy, a start that goes through commits the context of every agent of the plan and its cost, on its tier and reasoning, with its context for every later charge |
| SupervisionPlans.CallersChargeIsCommitted | src/agentgear/watchdog/coordinator.py:555-565 | without a plan, it commits exactly the tokens and the cost its caller gives |
| SupervisionRuns.AuditTrail | src/agentgear/watchdog/coordinator.py:501-531 | in every reachable state: episodes numbered 1 to n, in order and disjoint, one open exactly in Stalled and Recovering, attempts on ever later rungs, resolved ones failures then one success, a given-up one last, all failures, exactly in Blocked |
| SupervisionRuns.OpenEpisode | src/agentgear/watchdog/coordinator.py:777-806 | in every reachable state the strategies used up are a prefix of the ladder within both bounds, each counted once, and the attempts on record use some of them in order |
| SupervisionRuns.NoRungIsSkipped | src/agentgear/watchdog/coordinator.py:777-806 | as long as no call was refused too late, attempt i of every episode is rung i, and no strategy is used up without an attempt |
| SupervisionTheorems.OnlyTwoBoundsFire | src/agentgear/watchdog/recovery.py:163-195 | of the four global bounds only the failure streak and the total of activities can ever be exceeded |
| SupervisionTheorems.AdmissionExactly | src/agentgear/watchdog/coordinator.py:735-790 | one more attempt is impossible exactly when streak, total, ladder, attempt bound or budget forbids it, otherwise it takes the next rung; for want of a strategy exactly when all ten are used up below the attempt bound |
| SupervisionTheorems.LadderNeverRunsOut | src/agentgear/watchdog/coordinator.py:754-775 | as long as no call was refused too late, a stall always has a rung left, so the branch without a strategy is dead |
| SupervisionTheorems.RecoveryBlocksExactly | src/agentgear/watchdog/coordinator.py:716-812 | in every reachable stall, beginning a recovery blocks if and only if one of the five conditions holds, and otherwise makes exactly one attempt more with the next rung, or uses that rung up for nothing when the reason is blank |
| SupervisionTheorems.FailureBlocksExactly | src/agentgear/watchdog/coordinator.py:925-941 | a failed attempt blocks if and only if the ladder is used up, and that is when it was the request for a human; the guard disjunct of that branch never decides |
| SupervisionTheorems.JudgementOutcome | src/agentgear/watchdog/coordinator.py:692-714 | where judging leaves the execution, for every verdict, write outcome and bound, with no attempt or exactly one, on the first rung |
| SupervisionAnswers.NoTimeoutMissed | src/agentgear/watchdog/stall_detection.py:119-135 | in every reachable state, after an accepted evaluation or activity that leaves an active state, the time since the boundary has not reached the limit with enough activities after it, and the work since is quiet |
| SupervisionAnswers.BoundaryIs | src/agentgear/watchdog/stall_detection.py:119-126 | the boundary is the time of the latest progress on record, or the start without any, and no progress is later |
| SupervisionAnswers.JudgedDestination | src/agentgear/watchdog/coordinator.py:681-812 | where a recorded activity or an evaluation leaves an active execution: where it was without a stall; in the stall when that cannot be written; blocked when the streak, the total or the budget forbids recovery; otherwise in one fresh attempt on the first rung |
| SupervisionAnswers.StallIsRecorded | src/agentgear/watchdog/coordinator.py:501-515 | a stall found opens the next episode, at the time of the call, for exactly the reasons found; silence leaves the episode as it was |
| SupervisionTheorems.OnlyTheseCallsBlock | src/agentgear/watchdog/coordinator.py:463-499 | only judging, beginning a recovery and reporting a failure can block |
| SupervisionTheorems.BlockedIsExplained | src/agentgear/watchdog/coordinator.py:463-499 | Blocked if and only if there is a report; it carries the last checkpoint, attempts and strategies, and the cause it names holds, spelled out in counters: no bound passed unless a bound is named, never the no-progress or the escalation bound, and a missing strategy only after a call was refused too late |
| SupervisionTheorems.Conservation | src/agentgear/watchdog/coordinator.py:555-565 | from a successful start on, over all runs, committed tokens are its charge plus one context per escalation, per attempt ever made and per call refused too late, so the equation without the last holds if and only if there was none; nothing is reserved or released, and the sum stays within the ceiling |
| SupervisionTheorems.CostConservation | src/agentgear/watchdog/coordinator.py:555-565 | from a successful start on, committed cost is its charge plus, for each call that charged, the estimate of one context at the tier that call left, within the ceiling |
| SupervisionTheorems.EntriesAddUp | src/agentgear/budget.py:117-149 | the committed total of a ledger of this shape, in closed form |
| SupervisionTheorems.NoStallUndetected | src/agentgear/watchdog/stall_detection.py:119-178 | at rest in an active state no timeless stall is pending and, by pigeonhole, the work since the last progress is bounded by its variety |
| SupervisionTheorems.StreakIsRecounted | src/agentgear/watchdog/coordinator.py:626-642 | the incremental streak is one less than the longest uniform failing suffix of all activities |
| SupervisionTheorems.HealingIsBounded | src/agentgear/watchdog/coordinator.py:692-714 | at most one episode per activity, at most one more than the total bound allows, and at most five escalations within policy |
| SupervisionEndings.FinalIsKept | src/agentgear/watchdog/coordinator.py:341-385 | no call changes more than the clock and the mirror of a completed or blocked execution, or of one back in Planning |
| SupervisionEndings.FinalForever | src/agentgear/watchdog/coordinator.py:341-385 | nor does any run |
| SupervisionEndings.ResumingIntoPlanningIsFinal | src/agentgear/watchdog/coordinator.py:66-71 | a recovery that resumes into Planning is accepted and final |
| SupervisionEndings.EveryStartedStateCanEnd | src/agentgear/watchdog/coordinator.py:572-1020 | at most three calls end any started execution, whatever was called before and whatever the disk does, except from Planning, which no calls ever leave |
| SupervisionEndings.FailuresExhaust | src/agentgear/watchdog/coordinator.py:735-941 | recoveries that keep failing, begun for whatever reasons, block the execution within what the smaller of ten and the attempt bound leaves, and one more |
| SupervisionRefusals.RejectedCallsChangeNothing | src/agentgear/watchdog/coordinator.py:314-339 | in any state, a call is answered with an error, and which, exactly when it is refused; a rejected call changes something if and only if it begins a recovery from an unobstructed stall with a blank reason |
| SupervisionRefusals.BlankReasonSlipsThrough | src/agentgear/watchdog/coordinator.py:777-806 | a run in which that happens: charged, counted, strategy used, no attempt on record |
| SupervisionRefusals.CleanMirrorCanLie | src/agentgear/watchdog/coordinator.py:387-432 | a run that ends with a heartbeat that differs from the state and is not marked dirty: a stall, a successful synchronisation, and a recovery begun with a blank reason |
| SupervisionRefusals.LadderCanRunOut | src/agentgear/watchdog/coordinator.py:754-775 | a run that ends Blocked for want of a strategy with not one attempt made: ten blank reasons in one stall |
| SupervisionRefusals.HastyConfigurationsExist | src/agentgear/config.py:167-238 | a valid configuration for the runs that a blank reason spoils |
| SupervisionRefusals.GenerousConfigurationsExist | src/agentgear/config.py:167-238 | a valid configuration whose attempt bound and budget reach past the ladder |
| SupervisionLifecycle.OnlyCoordinatorEdges | src/agentgear/watchdog/state_machine.py:21-45 | every recorded transition is allowed, none is Planning to Stalled or out of Blocked, Completed is entered from Reviewing with evidence, and the history is one walk in time order |
| SupervisionLifecycle.RecordsAreChronicles | src/agentgear/watchdog/coordinator.py:314-339 | a longer run extends every record of a shorter one, and all of it lies in order between zero and the clock |
| SupervisionLifecycle.CleanMirrorIsExact | src/agentgear/watchdog/coordinator.py:387-432 | over all runs: once started with persistence, a record not marked stale reads back as the projection of the current state if and only if the run does not lie, that is, unless a call was refused too late while the mirror was clean and no recovery was begun or given up since |
| SupervisionLifecycle.TimelyMirrorIsExact | src/agentgear/watchdog/coordinator.py:403-405 | as long as no call was refused too late, there is no reachable state where the durable heartbeat is stale and not marked so |
| SupervisionLifecycle.SyncStoresTheCurrentState | src/agentgear/watchdog/coordinator.py:443-461 | synchronising changes only the mirror, succeeds exactly when nothing was stale or the write works, and stores the current state |
| SupervisionLifecycle.AcceptedPlansStart | src/agentgear/watchdog/coordinator.py:284-310 | a plan accepted under a policy starts under it: only a blank task or an untimely clock is left to refuse it |
| StateMachine.ExecutionStateMachine.Transition | src/agentgear/watchdog/state_machine.py:86-150 | either appends one record and moves, or gives the first applicable refusal and changes nothing |
| StateMachine.EntriesExactly | src/agentgear/watchdog/state_machine.py:21-45 | from where each state can be entered |
| Recovery.RecoveryEngine.ChooseStrategy | src/agentgear/watchdog/recovery.py:66-93 | the first untried rung, or exhaustion past the bound or the last resort |
| Recovery.LadderIsClimbedInOrder | src/agentgear/watchdog/recovery.py:48-93 | after any ladder prefix the next rung is next, exactly while there is one and the bound is not passed |
| Recovery.NeverRepeated | src/agentgear/watchdog/recovery.py:66-93 | whatever was tried, in whatever order, the strategy chosen is the lowest rung that is none of it, and none is chosen exactly past the bound, after the last resort, or once all have been tried |
| Recovery.ViolationsExactly | src/agentgear/watchdog/recovery.py:163-195 | each bound is named if and only if its own counter is past its own maximum |
| Recovery.LoopGuard.Exceeded | src/agentgear/watchdog/recovery.py:163-195 | names exactly the global counters strictly past their bounds |
| Stall.ProgressTracker.Record | src/agentgear/watchdog/progress.py:30-36 | appends, or refuses exactly an event before the latest |
| Stall.ProgressTracker.LastProgressAt | src/agentgear/watchdog/progress.py:39-42 | the latest time on record |
| Stall.StallDetector.Evaluate | src/agentgear/watchdog/stall_detection.py:98-178 | the four signals over the activity strictly after the boundary, in order; some signal if and only if the time has run out with enough activities, or the work is not quiet |
| Stall.StallDetector.FindIdentical | src/agentgear/watchdog/stall_detection.py:137-149 | counts the failing suffix backwards and signals when it is long enough and has one fingerprint |
| Stall.StallDetector.FindCircular | src/agentgear/watchdog/stall_detection.py:151-165 | counting fingerprints finds the first one that occurs often enough |
| Stall.TrailingFailures | src/agentgear/watchdog/stall_detection.py:137-141 | the length of the maximal failing suffix |
| Stall.SilenceMeansQuiet | src/agentgear/watchdog/stall_detection.py:137-178 | the clock-independent signals are silent if and only if no fingerprint recurs to the limit, at most one trivial command is slow and the failing suffix is short or mixed |
| Stall.VerdictExactly | src/agentgear/watchdog/stall_detection.py:98-178 | a stall is found if and only if the time since the boundary has reached the limit with enough activities strictly after it, or the work after it is not quiet |
| Stall.VerdictTells | src/agentgear/watchdog/stall_detection.py:127-176 | every signal of a verdict is true of the work since the boundary, figures included, each kind at most once and in order |
| Stall.KindsExactly | src/agentgear/watchdog/stall_detection.py:127-176 | each of the four kinds is raised if and only if its condition holds |
| Stall.TalliesCount | src/agentgear/watchdog/stall_detection.py:151-172 | the tallies of a fingerprint, of slow trivial commands and of what lies after the boundary are the sizes of the sets they stand for |
| Stall.SinceIsSuffix | src/agentgear/watchdog/stall_detection.py:120-126 | in time order, what lies strictly after the boundary is the end of the list, all of it and nothing else |
| Stall.StallNeedsNewActivity | src/agentgear/watchdog/stall_detection.py:119-178 | every stall rests on an activity strictly after the boundary |
| Stall.IdenticalSignalExactly | src/agentgear/watchdog/stall_detection.py:137-149 | identical trailing failures signal if and only if every failure before them, back to the last success, is identical too |
| Stall.IdenticalTailCanStaySilent | src/agentgear/watchdog/stall_detection.py:137-149 | two identical failures after a different one raise no signal |
| Stall.QuietWorkIsBounded | src/agentgear/watchdog/stall_detection.py:151-165 | quiet work is at most the circular limit less one per distinct fingerprint |
| Stall.StreakStep | src/agentgear/watchdog/coordinator.py:626-642 | the incremental update of the streak keeps it equal to the recount |
| Budget.LedgerOverRuns | src/agentgear/budget.py:88-219 | over any reserve, commit and release: ceilings kept, ids unique, each entry out of Reserved at most once, committed totals never fall |
| Budget.AmountsMove | src/agentgear/budget.py:157-219 | a reservation takes exactly its amounts from what remains, a commit adds exactly those of its entry to what is spent and leaves what remains, a release gives them back; each goes through exactly when the amounts fit or the entry is reserved, and which error otherwise |
| Budget.ExecutionBudgetLedger.Totals | src/agentgear/budget.py:108-149 | committed, reserved and remaining add up to the ceiling for tokens and cost |
| Budget.ExecutionBudgetLedger.CanAfford | src/agentgear/budget.py:151-155 | true exactly when the reservation would go through; negative amounts are a configuration error |
| Budget.ExecutionBudgetLedger.ReserveFor | src/agentgear/budget.py:157-197 | appends one reserved entry with a fresh id, or fails with nothing changed |
| Budget.ExecutionBudgetLedger.CommitReservation | src/agentgear/budget.py:199-207 | settles exactly one reserved entry as committed, or fails with nothing changed |
| Budget.ExecutionBudgetLedger.ReleaseReservation | src/agentgear/budget.py:209-219 | settles exactly one reserved entry as released, or fails with nothing changed |
| Escalation.ApprovalIsAffordableRise | src/agentgear/escalation.py:169-274 | an approval names the present trigger, respects the limit, strictly raises tier and reasoning in the product order, and its reservation succeeds |
| Escalation.DecisionExactly | src/agentgear/escalation.py:169-274 | when each answer is given, over the signals alone with thresholds 2 and 0.6: no trigger exactly without evidence; otherwise limit, ceiling and budget in that order; an approval names the present evidence of highest precedence and leads to the top tier with at least high effort under a security or architectural risk, one rung up on both ladders otherwise |
| Escalation.TriggerIsFirst | src/agentgear/escalation.py:151-166 | the trigger is the evidence of highest precedence that is present, and there is none exactly when none is |
| Escalation.ClimbIsShort | src/agentgear/escalation.py:138-148 | from anywhere, steps and jumps in any mix can rise at most five times |
| Escalation.FiveRisesAreAttainable | src/agentgear/escalation.py:138-148 | and five is attained |
| Heartbeats.HeartbeatRoundTrip | src/agentgear/watchdog/heartbeat.py:68-134 | a heartbeat reads back equal if and only if it is valid, and is an error otherwise |
| Heartbeats.AcceptedIsValid | src/agentgear/watchdog/heartbeat.py:83-122 | whatever the reader accepts is valid |
| Heartbeats.ReaderExactly | src/agentgear/watchdog/heartbeat.py:83-122 | the reader gives a heartbeat if and only if it is valid and the document says exactly it, with absent optional fields counting as none or empty |
| Heartbeats.HeartbeatWriter.Write | src/agentgear/watchdog/heartbeat.py:180-182 | overwrites the record, or leaves it when the write fails |
| Heartbeats.HeartbeatWriter.Read | src/agentgear/watchdog/heartbeat.py:184-194 | nothing written reads as nothing, a valid heartbeat as itself |
| Checkpoints.EntryRoundTrip | src/agentgear/checkpoints.py:100-135 | an entry reads back equal if and only if the checkpoint is valid; accepted entries are valid |
| Checkpoints.EntryReaderExactly | src/agentgear/checkpoints.py:112-135 | the reader gives a checkpoint if and only if it is valid and the entry says exactly it, with absent optional fields counting as empty, none or zero |
| Checkpoints.SegmentRoundTrip | src/agentgear/checkpoints.py:100-146 | a written segment passes the schema and reads back equal |
| Checkpoints.AppendExtendsLog | src/agentgear/checkpoints.py:227-250 | from any segment map, gaps included, an append extends the one history by its checkpoint if and only if segment numbers have not run out, and touches no other segment |
| Checkpoints.AppendsReadBackExactly | src/agentgear/checkpoints.py:227-250 | over any directory, gaps included, checkpoints appended one by one read back as the old history followed by all of them if and only if there were free places for them |
| Checkpoints.BuiltLogReadsBackExactly | src/agentgear/checkpoints.py:95-97 | a log built by appends reads back as the sequence appended if and only if it has at most 99,999,900 entries |
| Checkpoints.BuiltLogIsDense | src/agentgear/checkpoints.py:227-250 | its segments are 1 to n, all full but the last |
| Checkpoints.CheckpointStore.Append | src/agentgear/checkpoints.py:227-250 | list, choose, append: the files become the specified ones, or stay when the write fails |
| Checkpoints.CheckpointStore.All | src/agentgear/checkpoints.py:252-267 | the segments read in order are the log |
| Checkpoints.CheckpointStore.Latest | src/agentgear/checkpoints.py:269-287 | walking segments backwards finds the last entry of the log |
| Checkpoints.CheckpointStore.SegmentNumbers | src/agentgear/checkpoints.py:187-196 | the six-digit segment numbers, ascending |
| CheckpointProtocol.ConcurrentAppendsAreSerial | src/agentgear/checkpoints.py:210-250 | every interleaving of any number of processes orders the log by acquisition of the execution lock, stores each acknowledged request exactly once, keeps segments within capacity, and loses requests only, and then all, once the segment numbers are used up |
| CheckpointProtocol.MoveKeepsInv | src/agentgear/safe_json_store.py:283-305 | what every step of locking, listing, reading, choosing, writing, releasing and giving up keeps |
| CheckpointCalls.MovesCarry | src/agentgear/checkpoints.py:210-250 | a move concerns its own process only; a request is what its caller gave, takes the next ticket when the lock is acquired, is carried unchanged and written once or lost, and only a return acknowledges it |
| CheckpointCalls.ReadersKeepTime | src/agentgear/checkpoints.py:252-287 | in every run, when a reader notes that it began, listed and finished, what it saw listed and what had been acknowledged by then, is what happened |
| CheckpointProtocol.HolderIsNeverBlocked | src/agentgear/safe_json_store.py:58-153 | the holder of the execution lock can always go on, so two locks in fixed order never deadlock, and readers never wait |
| CheckpointProtocol.UnlockedAllIsAtomic | src/agentgear/checkpoints.py:187-196 | an unlocked all(), whose listing is not atomic, returns what the log was at one moment of the call, a prefix of the log with everything acknowledged before it began, unless the listing missed a segment below one it shows, which takes more than a hundred appends meanwhile |
| CheckpointProtocol.GapTakesASegment | src/agentgear/checkpoints.py:235-246 | a listing under way that misses a segment below one it shows has seen more than a whole segment appended |
| CheckpointProtocol.UnlockedLatestIsAtomic | src/agentgear/checkpoints.py:269-287 | an unlocked latest(), whose listing is not atomic, returns what was the last entry, or nothing of an empty log, at one moment of the call, whatever the listing missed |
| CheckpointGap.AllCanMissASegment | src/agentgear/checkpoints.py:252-267 | a run in which a hundred and one appends during one listing make all() return a history that the log never was |
| CheckpointGap.AppendsAlone | src/agentgear/checkpoints.py:227-250 | a process that nobody hinders appends in nine moves |
| Analysis.AssessmentMonotone | src/agentgear/analysis.py:83-135 | an easier task never scores higher in complexity or risk |
| Analysis.ScoresAreAverages | src/agentgear/analysis.py:65-119 | both scores lie between the mildest and the hardest of their factors |
| Analysis.ScoresRespond | src/agentgear/analysis.py:65-119 | between any two profiles the scores differ by exactly the weighted differences of their signals |
| Analysis.SaturationIs | src/agentgear/analysis.py:22-23 | a count saturates towards one, half way at its constant |
| Analysis.LevelsExactly | src/agentgear/analysis.py:26-135 | a level is reached if and only if the score reaches its floor, or one critical signal alone makes the risk the highest; the signals later stages read are passed on |
| Routing.ShiftIsBounded | src/agentgear/routing.py:94-107 | the weights shift thresholds by at most 0.15, up exactly when cost and latency outweigh quality and down exactly when quality outweighs them |
| Routing.ShiftBalances | src/agentgear/routing.py:94-107 | the shift is 0.15 times the balance of cost and latency against quality, relative to all weights |
| Routing.ScoresBlend | src/agentgear/routing.py:48-60 | tier looks at complexity and risk alike, reasoning at 35 to 65 |
| Routing.TierExactly | src/agentgear/routing.py:114-160 | a task reaches a tier if and only if its score reaches the threshold, critical risk lifts it there, or a critical signal and the policy do |
| Routing.EffortExactly | src/agentgear/routing.py:163-202 | the same for reasoning effort, with the policy's floor |
| Routing.RouteMonotone | src/agentgear/routing.py:114-219 | lower scores never route higher, and a critical signal keeps the policy floors |
| Routing.CostMonotone | src/agentgear/routing.py:222-224 | cost is non-negative and grows with tier and tokens |
| Routing.PriceList | src/agentgear/routing.py:222-224 | what a thousand tokens cost on each tier, and that cost is proportional |
| Planning.BuildExecutionStrategy | src/agentgear/planning.py:75-209 | joining agents one by one staffs every role as specified, in order, and calls for a judge exactly when one is staffed |
| Planning.BuildExecutionPlan | src/agentgear/planning.py:252-325 | the plan, or the refusal of whichever of the four ceilings is passed |
| Planning.TeamExactly | src/agentgear/planning.py:75-209 | the team has exactly the roles called for, each once, in the order of execution, each with the tier, effort and number its thresholds ask for, read off the task and the primary model |
| Planning.PlanExactly | src/agentgear/planning.py:252-325 | a plan is accepted if and only if all four ceilings hold, and is the routed model with that team, a context of two to six times the expected output, at least one token, and the cost of the team for it |
| Planning.TeamsCover | src/agentgear/planning.py:75-209 | every agent of the easier task has a counterpart in the harder one, in the same role and no lower, weaker or fewer |
| Planning.PlanningIsMonotone | src/agentgear/api.py:20-24 | end to end, an easier task gets no higher tier or reasoning, no larger team, no more context, tokens or cost, and is accepted whenever the harder one is |
| Planning.AcceptedPlanFits | src/agentgear/planning.py:266-296 | an accepted plan respects all four ceilings and is reviewed exactly when it has a team |

## Left out

- Path containment, root identity and symbolic links: they rest on the operating system.
- Real locks, retries, fsync, quarantine of corrupt files: a lock and an atomic file are single steps; a timeout or a crash is the protocol's Abort move.
- The listing an appender makes under the execution lock is one step, because nobody else adds segments meanwhile; the listing a reader makes without the lock is not: it shows what was there when it began and any part of what has come since.
- CheckpointProtocol.UnlockedAllIsAtomic: says nothing of the result when the listing missed a segment; CheckpointGap.AllCanMissASegment shows what it can be.
- Corrupt segments inside the store, the protocol and the coordinator: the segments a directory holds are readable; what reading makes of a corrupt document is modelled in Heartbeats and in ConstructEntry.
- Concurrent calls on one watchdog: the source documents a single writer.
- Rounding of floating-point time, cost and scores: they are reals.
- Type checks of arguments (bool for int, raw strings for enum members, NaN): the types rule them out.
- Texts: notes, rationales and the variable parts of error, stall and blocker messages, except that they are not blank where a constructor asks for it; stored JSON uses an enumeration of keys.
- Blankness outside ASCII: only ASCII white space counts as blank.
- Reservation ids are numbers, the position in the ledger, instead of strings; labels are not stored.
- The kind and the evidence dictionary of a progress event, and the files and evidence lists of a blocked report: nothing reads them.
- The status report, the context provider, the command line, configuration files and benchmark interface: they would only add easy members.
