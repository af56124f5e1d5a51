# RestoreLab, modelled and proved

RestoreLab restores backups into throw-away virtual machines, runs checks inside
them, grades the drill, cleans up, schedules the next drill and announces what
changed. This project models the state machines and arithmetic rules behind that
in Dafny and proves what they keep over every run, every schedule and every
history. Verify with `dafny verify dfyconfig.toml`.

## How the model is built

- **The world is an adversary.** `World.dfy` answers every provider call from a
  script `nat -> Answer` about which nothing is assumed: any call may fail, fail
  retryably, panic, hand back nothing where something was promised, take any
  time, or coincide with the end of the run's context. Time is an integer number
  of nanoseconds that only moves forward, and `Sleep` waits at least as long as
  it says unless the context ends.
- **The engine is a class that mutates a run** (`Engine.dfy`). Its methods follow
  the step functions branch by branch, including the deferred block: a panic
  becomes a failed run, cancellation is decided from the context, the cleanup has
  its own bounded context. Every call and event is written to a log, and a
  monitor (`Trace.dfy`) reads that log and turns bad at the first action the
  safety rules do not allow. Each call in the engine must be allowed where it
  stands, so `World.Valid` keeps the monitor unbad; the theorems in `Trace.dfy`
  say what an unbad log looks like without mentioning the monitor. The world also
  remembers the last answer the workflow got, so that every ending can be held
  against what the world gave for it.
- **The recorder and the history** (`Journal.dfy`, `History.dfy`) turn the
  engine's events into writes, any of which may be refused; what a crash leaves
  behind is a replay of a prefix of them. `Stream.dfy` serves that history to a
  client that disconnects anywhere and resumes.
- **Checks, numbers, levels** (`Checks.dfy`, `Values.dfy`, `Plans.dfy`,
  `PlanYaml.dfy`, `PlanDocument.dfy`, `Proofs.dfy`, `Evidence.dfy`) go from what a
  command printed to what a run claims to have proved. A float is a real or one of
  the values that are not numbers (`Core.Num`).
- **Slots and ticks** (`Slots.dfy`, `Scheduler.dfy`): a schedule is its infinite,
  strictly increasing sequence of slots and a separate wall-clock reading.
- **Messages** (`Story.dfy`, `Collapse.dfy`, `Deliver.dfy`, `Dispatcher.dfy`,
  `Protocol.dfy`, `Composition.dfy`): when to speak, what a reader of the messages
  ends up knowing, and the claim-first protocol of several dispatchers over one
  database, interleaved step by step.
- **Score and placeholders** (`Confidence.dfy`, `Turning.dfy`, `Rebind.dfy`).

## Statements that do not hold, and the exact condition under which they do

- A run's level can exceed what its plan promised when a plan skips its startup
  and still carries a check worth more than the boot
  (`Engine.LevelStaysWithinPlan`, both directions). Validation refuses such a
  plan (`Evidence.ValidatedPlansKeepTheirPromise`).
- The reader of the messages holds the latest verdict after every drill, iff no
  drill without a verdict is recorded as anything but cancelled or inconclusive
  (`Story.MessagesAreEnough`). Such rows come from a stopped or undecided drill
  whose cleanup then failed (`Composition.ReadersOfEngineRuns`), and from drills
  settled from outside: internal/worker/reconcile.go:70-78 after a dead worker,
  internal/worker/run.go:237-246 when one could not start.
- The level the reader believes can exceed the real one, iff some drill without a
  recorded level silently repeats a verdict that was told with a recorded one
  (`Story.NeverOverstated`, an instance in `Story.AForgottenLevel`).
- The reader knows whether the last drill could be evaluated, iff no drill was
  cancelled right after one that could not be (`Story.ReaderKnowsWhetherSeen`);
  and whether the last drill that ran to its end could be, iff no return into
  sight hides behind a cancelled one (`Story.CancellationHidesTheReturn`, an
  instance in `Story.AHiddenReturn`).
- The median keeps reporting an emptied database for exactly three drills
  (`Values.ZeroIsReportedExactlyThreeTimes`).
- A check that holds a reserved parameter, an untrimmed capture name or a
  tolerance that is not finite does not survive being written out, and every other
  check does (`PlanYaml.RoundTrip`); a whole plan survives iff its checks do and its
  strategy is not an unsupported one under a supported name
  (`PlanDocument.PlanSurvives`).
- A stream that said `done` has delivered every event, iff everything was stored
  when its last pass read the events or the client had it all before
  (`Stream.DoneMeansEverything`, an instance in `Stream.DoneIsNotEverything`).
- A plan's slots are decided in strictly increasing order, iff no unreadable
  version of the plan was met at an instant before a slot already decided
  (`Scheduler.HistoryIsOrdered`, an instance in `Scheduler.AClockSetBack`): such a
  plan is skipped at the present instant, which the clock may have moved back.
- The history knows the temporary workload before the restore exactly when the
  provider's id is not empty (`History.HistoryKnowsBeforeRestore`).
- A run nobody was told about is created in its last state, and that is crash
  consistent iff it has no steps and no checks
  (`History.UnannouncedRunHasNoTimeline`). The engine announces every drill before
  it does anything else, so every drill it records is consistent
  (`History.RecordedDrill`).
- Reading a past failure as a success can lower the score, iff the age it brings
  in and the smaller failure rate cost more than what they replace, something was
  left to lose, and what is left shows under the ceiling
  (`Turning.TurningLowersTheScore`). Under the product's own weights seven
  failures of four weeks ago are enough and six are not
  (`Turning.SevenOldFailures`); a success at least as recent rules it out
  (`Turning.RecentSuccessProtects`).
- Over every interleaving, crashes included, no settled message is posted again,
  iff at most one dispatcher delivers (`Protocol.NeverTwiceMeansAlone`); a run from
  the start in which two do is `Protocol.TwoPostTwice`.
- A `Retry-After` is honoured up to ten minutes, iff the product with a second
  fits 64 bits or wraps to ten minutes or more (`Deliver.OverflowMisreads`); it is
  not heard at all iff the product wraps below zero or to nothing
  (`Deliver.OverflowFallsBack`). Both kinds of misreading occur
  (`Deliver.OverflowWitnesses`). The comment on `retryAfter` promises the bound
  for every header; the code multiplies before it compares.
- A numbered query reads back exactly when no dollar sign stood outside a literal
  (`Rebind.NumberingIsInvertible`).

## Model

| member | source | states |
|---|---|---|
| Engine.Engine.Run | internal/recovery/engine.go:189-300 | for every plan, options and script of answers: an error under a context cancelled by then ends CANCELLED without a result, one about checks that gave no answer INCONCLUSIVE without a result, any other error and a panic FAILED, a failed delete CLEANUP_FAILED whatever came before; DEGRADED iff the workflow went through and the target was missed or a non-critical check failed; the error is nil iff the state is SUCCESS and carries the workflow's own; checks that ran are the run's, were told in order and decided; what ended it otherwise is accounted for; the time, the level, what was left behind and how often the guest was asked follow |
| Engine.Engine.Work | internal/recovery/engine.go:243-300 | the workflow with its deferred grading: stopped iff it came to an error while the context is cancelled, undecided iff the error is about unanswered checks and it is not, broke iff any other error and it is not; a panic is FAILED even when cancelled |
| Engine.EveryEndHasItsReason | internal/recovery/steps.go:37-395 | no drill ends badly for nothing: each provider error is the last answer's own and not the best-effort lookup's, no backup means none of that id, a stale one is older than max_age, no capacity means less free than needed, a failed job said so, a timeout met a guest that was not ready, an interruption a context that ended, a panic an answer that panics or lacks what it promised |
| Engine.Engine.Conclude | internal/recovery/engine.go:238-241 | the cleanup cannot change the verdict except to CLEANUP_FAILED with the orphan named, nor anything the drill did or proved, and the error joins both causes |
| Engine.Engine.CleanUp | internal/recovery/cleanup.go:51-101 | nothing is deleted iff nothing was restored, keep-workload was asked for, the run is incomplete and keep_on_failure is set, or it is complete and always is false; otherwise one delete after at least one stop; CleanupDone iff nothing was restored or the delete succeeded; a kept workload leaves a skipped step |
| Engine.Engine.TearDown | internal/recovery/cleanup.go:102-135 | at least one stop and exactly one delete of the restored id; the state is restored when the delete succeeded and CLEANUP_FAILED otherwise |
| Engine.Engine.LeaveRunning | internal/recovery/cleanup.go:138-147 | a kept workload is recorded as a skipped cleanup step |
| Engine.Engine.Retry | internal/recovery/retry.go:18-41 | for any number of attempts, taken as at least one: each try but the last met a retryable error, and a retryable last one before the limit means the context ended |
| Engine.Engine.Discover | internal/recovery/steps.go:37-93 | only a backup the plan may use, fresh enough at the time it is judged, is carried forward; otherwise the last answer says why not |
| Engine.Engine.FindBackup | internal/recovery/steps.go:37-93 | the backup is the one the lookup offers: the first of the asked id, or the latest; refused only when none is, or when it is older than max_age |
| Engine.Engine.ResolveNode | internal/recovery/steps.go:544-554 | the first node named by the options, the plan, the source and the backup, in that order, and an error iff none of them names one |
| Engine.Engine.CheckNetworkIsolation | internal/recovery/steps.go:137-160 | refused as not isolated iff the network is not marked isolated; passes only when the provider, if it can, validated that node or could not tell |
| Engine.Engine.CheckCapacity | internal/recovery/steps.go:165-200 | passes only when that node reported the megabytes asked for as free, or the provider cannot tell, or no limit was asked for |
| Engine.Engine.Prepare | internal/recovery/steps.go:95-135 | an id is allocated only after both checks, and an event names it before the step returns |
| Engine.Engine.RestoreWorkload | internal/recovery/steps.go:204-262 | the restore is submitted once, the cleanup duty begins exactly when the provider accepts it, and hardening follows the job |
| Engine.Engine.StartWorkload | internal/recovery/steps.go:267-282 | at most three starts, of the allocated id only |
| Engine.Engine.Poll | internal/recovery/steps.go:288-357 | polls at most ceil(timeout / 3 s) + 1 times with three status reads each, and the level rises to BOOT only for a ready guest whose agent answered |
| Engine.Engine.PollUntilReady | internal/recovery/steps.go:299-357 | ends well only on a guest that is running, whose agent answers and which has an address where the plan waits for them; times out only after the deadline |
| Engine.BootMeans | internal/recovery/steps.go:310-395 | a wait that ended well saw a guest that was up the way the plan asks, and established BOOT iff the agent answered; a skipped start establishes nothing |
| Engine.Engine.RunTheChecks | internal/recovery/steps.go:427-500 | the level is recorded before the verdict, one event per result in order, and the outcome is the judgement of the results |
| Engine.ClaimedLevel | internal/recovery/steps.go:442-456 | with checks the level is the highest of the base and of the checks that passed, paired in order; without, the base |
| Engine.Engine.Rehearse | internal/recovery/steps.go:506-542 | a dry run reads and validates and creates nothing; it passes only with a usable backup and a node whose network and capacity were cleared |
| Engine.Judge | internal/recovery/steps.go:466-499 | passes iff every critical check passed; a failed critical check outranks one that could not be evaluated |
| Engine.Engine.Classify | internal/recovery/steps.go:466-485 | the loop splits critical results into failed and unevaluated by name |
| Engine.FailuresAreNamed | internal/recovery/steps.go:466-485 | a name is reported as failed iff it is critical and some result under it failed or was skipped |
| Engine.SilencesAreNamed | internal/recovery/steps.go:466-485 | and as unevaluated iff it is critical and some result under it is an error |
| Engine.Engine.GradeSuccess | internal/recovery/engine.go:409-432 | DEGRADED iff the target was missed or some check that is not critical came back failed |
| Engine.AnyDegradesMeans | internal/recovery/engine.go:414-428 | the scan finds a failed non-critical check iff there is one among the results |
| Engine.Engine.ComputeRTO | internal/recovery/naming.go:123-131 | the time to the end of the checks, else of the wait for the guest, else nothing |
| Engine.LastStepEnds | internal/recovery/naming.go:104-118 | the end found for a step that ran last under its name is that step's own |
| Engine.Engine.Reconsider | internal/recovery/engine.go:208-236 | an error under a cancelled context is CANCELLED without a result, any other keeps its ending, and a crash is FAILED whatever the context |
| Engine.JudgedByOwnCriticality | internal/recovery/naming.go:88-94 | under unique names each result is judged by its own check's criticality |
| Engine.LevelStaysWithinPlan | internal/plan/proof.go:174-183 | no drill claims more than the plan promises or the boot, iff a plan that skips its startup has no check worth more |
| Engine.NilMeansSuccess | internal/recovery/engine.go:305-317 | the joined error is nil exactly for a graded run that cleaned up |
| Trace.MutationWord | internal/recovery/engine.go:243-300 | the mutating calls spell Allocate? Restore? Finalize? Start{0,3} Stop{0,3} Delete?, nothing without its predecessor, and a dry run spells nothing |
| Trace.AllocationIsCleared | internal/recovery/steps.go:95-135 | nothing is allocated twice, in a dry run, or before the network was validated and the room measured, where the provider can |
| Trace.RestoreIsCleared | internal/recovery/steps.go:95-282 | a restore is for the allocated id, on a node whose isolated network passed and which had room, after an event named the workload |
| Trace.StartIsCleared | internal/recovery/steps.go:204-282 | a start follows an accepted restore, a finished job and, where offered, a successful finalize |
| Trace.GuestIsReached | internal/recovery/steps.go:264-500 | a guest is asked for its status only after a start was accepted, and checked only after the restore's job and, where offered, its hardening succeeded |
| Trace.TeardownIsOwn | internal/recovery/cleanup.go:102-127 | nothing is stopped or deleted but what this run restored |
| Trace.OneIdThroughout | internal/recovery/engine.go:259-262 | every id acted on is the one that was allocated |
| Trace.EventsAreNotTerminal | internal/recovery/events.go:42-51 | no event carries a terminal state |
| Trace.StatusReadsAreWatched | internal/recovery/steps.go:362-373 | the monitored number of status reads is the number in the log |
| Trace.ProgressIsWhatHappened | internal/recovery/steps.go:204-440 | a job is held iff the log shows an accepted restore, the workload is gone iff it shows an accepted delete, the results are those the checks answered and the guest was last seen as its last answer showed it |
| Journal.Recorder.Emit | internal/journal/journal.go:114-190 | what one event writes and in which order, and how the recorder's counters move, whatever is refused |
| Journal.WrittenMeans | internal/journal/journal.go:114-190 | an event writes the row iff none is known, then the temporary workload iff it is news, then itself under the next number, then its check at the next row; an event of no run writes nothing |
| Journal.Recorder.Finish | internal/journal/journal.go:204-288 | with no refused write the timeline precedes the outcome exactly; the outcome is attempted last whatever was refused |
| Journal.ClosingMeans | internal/journal/journal.go:204-288 | the closing writes are exactly the missing row first, each step, each check and each captured number at its own place, and the outcome last |
| History.CrashConsistent | internal/journal/journal.go:204-288 | at every prefix of the final writes, a stored terminal state means all steps, checks and captured values are stored |
| History.RecordRun | internal/journal/journal.go:114-288 | a recorder driven over an engine log and then finished leaves exactly the mirrored events followed by the closing writes, preceded by the row itself when no event was seen, unless a write was refused |
| History.KnowsItsRun | internal/journal/journal.go:71-163 | it knows its run iff it was attached to one or some event was emitted |
| History.WholeRunIsCrashConsistent | internal/journal/journal.go:71-288 | the same at every prefix of what such a recorder writes, attached or not, from the first event of an engine run to its last write |
| History.RowsMatchTheRun | internal/journal/journal.go:71-190 | attached to a queued row or not: check row i is the i-th check result and events are numbered from one without a gap |
| History.HistoryKnowsBeforeRestore | internal/journal/journal.go:71-163 | attached or not: in the combined trace the workload is named before Restore, iff its id is not empty |
| History.UnannouncedRunHasNoTimeline | internal/journal/journal.go:204-232 | a run without an earlier event is consistent at every prefix of its writes, iff it has neither steps nor checks |
| History.RecordedDrill | internal/journal/journal.go:114-288 | whatever the world does, a drill the engine runs under a run id that is not empty, and the recorder records, is crash consistent at every prefix of its writes, unless one was refused |
| Stream.StreamEvents | internal/api/sse.go:28-116 | one connection writes exactly the stored events from the client's cursor to the furthest point its passes read, and `done` is its last frame with the terminal state the last pass read, or is absent when none was read |
| Stream.PassesDecide | internal/api/sse.go:39-116 | what is delivered reaches the most any pass found stored whose events could be read, and `done` is said iff the last pass read the events and a terminal state |
| Stream.ResumedStreamIsAPrefix | internal/api/sse.go:39-86 | across any disconnects, resumed with the last id, a client holds a prefix of what is stored |
| Stream.Resume | internal/api/sse.go:28-116 | one connection resumed after the last event a client has extends what it holds by the next stored events, and by all of them when it arrives whole, to `done`, after a pass that found everything stored |
| Stream.Follow | internal/api/sse.go:28-116 | a client that reconnects any number of times, cut anywhere, holds a prefix of what is stored, and everything once one connection saw the end |
| Stream.AnyCutIsAPart | internal/api/sse.go:64-73 | however much of a connection arrives, it is such a part |
| Stream.DoneMeansEverything | internal/api/sse.go:59-86 | after `done` everything was delivered iff the last pass found everything stored or the cursor was already at the end |
| Stream.DoneIsNotEverything | internal/api/sse.go:75-86 | an event stored between the two reads of the last pass is not delivered before `done` |
| Values.Baseline | internal/checks/values.go:116-139 | the median of the finite readings, leaving the caller's slice untouched |
| Values.BaselineIsTheMedian | internal/checks/values.go:116-139 | for the finite readings in ascending order, the middle one or the mean of the two in the middle |
| Values.BaselineFollowsTheMajority | internal/checks/values.go:116-139 | the baseline lies wherever more than half of the finite readings lie |
| Values.BaselineForgetsOrder | internal/checks/values.go:116-129 | the baseline does not depend on the order of the readings |
| Values.AssertHoldsExactly | internal/checks/values.go:154-177 | no violation iff the value is finite and meets min, max and equals; a bound that is not a number never fails a minimum or a maximum |
| Values.FirstViolation | internal/checks/values.go:154-177 | a finite value is reported against the first bound it breaks: minimum, maximum, then equality |
| Values.DriftWithinExactly | internal/checks/values.go:202-233 | within tolerance iff the value rose, or fell by no more than the units or the share of the baseline's magnitude; no percentage of zero permits a fall |
| Values.DriftOtherwise | internal/checks/values.go:202-233 | not comparable iff the value or the baseline is no finite number; below an empty baseline iff a percentage was to be taken of zero and the value is negative; and a tolerance that is no finite number tolerates a fall only when it is infinite |
| Values.CollapseFailsThreeTimes | internal/checks/command.go:217-293 | after five healthy readings, each of the next three collapsed ones fails although it enters the window |
| Values.ZeroIsReportedExactlyThreeTimes | internal/checks/command.go:217-293 | an empty database fails the drift check on its first three drills and passes from the fourth |
| Checks.ParseCaptured | internal/checks/values.go:62-90 | a number only when exactly one non-blank line was printed and it reads as a finite number, with a reason for every other case |
| Checks.OneLineIsRead | internal/checks/values.go:62-90 | a number is read iff exactly one line is not blank and what remains of it, trimmed, parses as a finite one |
| Checks.NoiseIsIgnored | internal/checks/values.go:62-71 | blank space, blank lines and carriage returns around the output change nothing |
| Checks.EvaluateCapture | internal/checks/command.go:234-293 | the reading is recorded before any bound is judged, assert before drift, and an unreadable history skips drift |
| Checks.RunCommand | internal/checks/command.go:129-196 | passes iff every promise of the command and every judged bound held; error iff it never ran or its pattern is invalid after the earlier promises held |
| Checks.PassesMeans | internal/checks/command.go:129-196 | a command passes iff it ran, its exit code, output and pattern are as expected and the captured number is read and tolerated |
| Checks.NotJudgedMeans | internal/checks/command.go:42-164 | and is an error iff it could not run, or ran as promised so far under a pattern that does not compile |
| Checks.Registry.RunOne | internal/checks/registry.go:73-145 | attempts are made until one passes or as many as the retries allow, at least one, and none after a cancellation; each is what the check reported; the last one, under the check's name, is the result; a pass without the captured value becomes a failure; a cancelled run leaves an error without readings |
| Checks.Registry.RunAll | internal/checks/registry.go:202-220 | every check is answered in order under its name: those before a cancellation by their own attempts, those after it as skipped |
| Checks.Registry.RunAttempt | internal/checks/registry.go:179-196 | a panicking check is a check that could not run |
| Checks.NameOfPlannedCheck | internal/checks/registry.go:59-64 | a planned check's result carries the plan's display name |
| Evidence.DataWasMeasured | internal/plan/proof.go:27-79 | in a validated plan without proves:, a run at DATA holds a command check that passed on a finite number within every declared bound |
| Evidence.ValidatedPlansKeepTheirPromise | internal/plan/proof.go:174-183 | a validated plan's drill never claims more than the plan's level or the boot |
| Evidence.RegistryAnswersFor | internal/checks/registry.go:202-220 | the registry's answers are check by check under the plan's names |
| Proofs.ProvenBy | internal/core/proof.go:155-164 | the highest level among the checks that passed |
| Proofs.ProvenNeverExceedsHighest | internal/core/proof.go:155-164 | whatever the results, no more than the plan's highest check |
| Plans.CriticalMapIsByCheck | internal/plan/plan.go:288-301 | with unique names the map answers for each check with its own flag |
| Plans.LevelDeduced | internal/plan/proof.go:27-79 | the level of a check: what it declares in any case; else DATA for a capture held to a bound, BOOT for a liveness command or a ping, SERVICE for the rest |
| Plans.PlanPromises | internal/plan/proof.go:174-183 | a plan promises nothing when it skips its startup or checks nothing, and otherwise the most any of its checks would prove |
| Plans.LivenessMeans | internal/plan/proof.go:94-172 | a command is a liveness command iff it joins no others and its first word, without directory, case and .exe, is one of six |
| Plans.CriticalMeans | internal/plan/plan.go:288-301 | whatever the names, the last check of a name decides whether it is critical |
| PlanYaml.RoundTrip | internal/plan/plan.go:190-286 | reading back a written check gives the same check iff its params avoid reserved keys, its capture is trimmed and its tolerance finite |
| PlanYaml.WrittenUnder | internal/plan/plan.go:251-286 | the keys a check is written under, each left out exactly where there is nothing to say, with its own parameters beside them |
| PlanYaml.DriftSurvives | internal/plan/values.go:68-155 | ten percent reads back as ten percent and ten units as ten units |
| PlanYaml.Document.ApplyDefaults | internal/plan/plan.go:345-382 | the defaults, with the wait policy decided from the checks |
| PlanYaml.DefaultsMean | internal/plan/plan.go:345-382 | every default by name and value: set exactly where nothing was |
| PlanYaml.CheckDefaultsMean | internal/plan/plan.go:345-382 | a check's own timeout and retry interval, set exactly where nothing was |
| PlanYaml.DefaultsAreIdempotent | internal/plan/plan.go:345-382 | applying the defaults again changes nothing |
| PlanDocument.PlanSurvives | internal/plan/plan.go:38-130 | a whole plan, schedule and placement included, written out block by block reads back as itself, iff each of its checks can be said and its strategy is not an unsupported one under a supported name |
| PlanDocument.NothingReadsAsNothing | internal/plan/plan.go:38-130 | a block that is missing reads as one in which nothing is said |
| PlanDocument.UnknownKeyIsRefused | internal/plan/plan.go:330-343 | a document that uses a key the program does not know is refused |
| PlanDocument.SnapshotExecutesTheSame | internal/plan/plan.go:236-382 | the snapshot of a whole plan reads back as it was, takes no further defaults and runs every check with the same configuration |
| PlanYaml.Document.Validate | internal/plan/plan.go:385-475 | reports every problem there is and no other, and none iff the plan is well formed |
| PlanYaml.WellFormedExactly | internal/plan/plan.go:385-475 | a plan passes validation iff every requirement holds, each spelled out on the plan |
| PlanYaml.ProblemsMean | internal/plan/plan.go:385-475 | and each problem is reported iff its requirement fails |
| PlanYaml.WellFormedMeans | internal/plan/plan.go:427-469 | a plan that passed has unique names, captures only in commands, a number under every bound, and no checks when it skips startup |
| Slots.Decide | internal/scheduler/slots.go:54-130 | the walk over slots computes the ruling on the pending slots |
| Slots.RulingIsTheLatestDue | internal/scheduler/slots.go:54-130 | nothing is decided iff no owed slot is due; otherwise an owed due slot, skipped iff later than the grace, with a due slot after it only when ten thousand were stepped over |
| Slots.RulingDecides | internal/scheduler/slots.go:54-130 | on the slots themselves: the decided slot is the newest owed one that is due, or the one ten thousand after the first owed; it is skipped iff it is older than the grace |
| Slots.OwedMeans | internal/scheduler/slots.go:54-91 | a slot is owed iff it is after the last decided one and does not repeat its reading, or after the start when none was decided |
| Slots.SlotsAreConserved | internal/scheduler/slots.go:97-113 | over any run of decisions, decided, stepped-over and repeated slots add up to the slots between the floors |
| Slots.BacklogSettles | internal/scheduler/slots.go:25-31 | a backlog of n at one instant takes at most ceil(n / 10001) decisions, and exactly that many when no reading repeats |
| Slots.RulingKeepsLawful | internal/scheduler/slots.go:73-91 | whatever is decided next is a later slot and never only repeats the last reading |
| Slots.OneDrillPerReading | internal/scheduler/slots.go:80-91 | when only neighbouring slots share a reading, no two decided slots do |
| Slots.NextIsLeast | internal/plan/schedule.go:56-65 | Next is the least slot strictly after the given instant |
| Scheduler.Scheduler.Tick | internal/scheduler/scheduler.go:167-199 | the table after a tick is the turns it reached applied in order, and at most max(0, limit - depth) drills were queued |
| Scheduler.Scheduler.ConsiderPlan | internal/scheduler/scheduler.go:213-278 | one plan's turn: the row claimed, if any, also the skip at the present instant for a document that no longer parses, and one complaint per version of a bad schedule |
| Scheduler.TurnQueues | internal/scheduler/scheduler.go:213-319 | a turn queues a drill for a slot iff the claim and the last-slot read succeed, its key is free, it is the decided one, within grace and the workload is ready; it records a skip instead iff that slot is late or the workload busy |
| Scheduler.TurnAddsNothingElse | internal/scheduler/scheduler.go:213-319 | and no turn adds any other row: none without a readable schedule, one of the plan's slots with one |
| Scheduler.UnreadableIsSkipped | internal/scheduler/scheduler.go:213-223 | a document that no longer parses is recorded as a skip at the present instant iff its key is free and the claim succeeds |
| Scheduler.LastSlotMeans | internal/scheduler/scheduler.go:240-262 | the last slot read is the greatest the plan has a row for |
| Scheduler.Table.ClaimSlot | internal/scheduler/scheduler.go:284-319 | one row per plan and slot; a second claim is a duplicate and writes nothing |
| Scheduler.ClaimKeepsSound | internal/scheduler/scheduler.go:284-319 | a new row keeps one row per plan and slot and every drill within its grace, and the order of its plan's slots iff it is later than all of them |
| Scheduler.TurnKeepsSound | internal/scheduler/scheduler.go:213-278 | one turn keeps both, and loses the order iff an unreadable plan is met before a slot already decided |
| Scheduler.HistoryIsOrdered | internal/scheduler/scheduler.go:167-319 | over restarts, edits, any clock, full queues and failed claims: one row per slot, nothing queued outside its window, and slots strictly increase iff no turn was of that kind |
| Scheduler.AClockSetBack | internal/scheduler/scheduler.go:213-223 | a clock set back under an unreadable plan records an earlier slot later |
| Scheduler.WholeHistoryIsLawful | internal/scheduler/scheduler.go:167-319 | for a plan that keeps its schedule, over restarts, any clock, full queues and failed claims: slots are the schedule's and strictly increase, nothing is queued outside its window, and no wall-clock reading is decided twice under adjacent repeats |
| Story.MessagesAreEnough | internal/notify/story.go:94-159 | a reader of messages alone holds the latest verdict after every drill, iff no drill without a verdict is recorded as anything but cancelled or inconclusive |
| Story.FirstAndUnevaluable | internal/notify/story.go:94-128 | a first verdict is announced iff no earlier drill reached one; a workload that cannot be evaluated iff this drill is inconclusive and the one before was not |
| Story.AgainstTheNewestVerdict | internal/notify/story.go:125-159 | against the newest earlier verdict: changed iff it differs; evaluable again iff it is the same and the drill before was inconclusive; dropped iff it is the same, the drill before was not and both recorded levels say so; and each message carries both stories |
| Story.NothingElseIsSaid | internal/notify/story.go:94-159 | nothing else is announced, and never about a cancelled or unfinished drill |
| Story.NeverOverstated | internal/notify/story.go:146-158 | the believed level stays at or below the real one after every drill, iff no drill without a recorded level silently repeats a verdict told with one |
| Story.RecordedLevelsAreNeverOverstated | internal/notify/story.go:146-158 | so with every level recorded the belief is never too high |
| Story.AForgottenLevel | internal/notify/story.go:146-158 | a history in which it is |
| Story.OneMessagePerBlock | internal/notify/story.go:107-123 | consecutive inconclusive drills are told exactly once |
| Story.ReaderKnowsWhetherSeen | internal/notify/story.go:87-145 | the reader knows after every drill whether it could be evaluated, iff none was cancelled right after one that could not be |
| Story.CancellationHidesTheReturn | internal/notify/story.go:87-145 | the reader knows whether the last drill that ran to its end could be evaluated, iff no return into sight, with the verdict already told and no fall of the level, follows a cancelled drill |
| Story.AHiddenReturn | internal/notify/story.go:87-93 | a history with such a return |
| Composition.ReadersOfEngineRuns | internal/notify/story.go:94-159 | for drills of the engine, the reader is always right iff no stopped or undecided drill failed its cleanup |
| Collapse.ValuesByName | internal/notify/collapse.go:114-131 | for every iteration order, exactly the names one check measured, with what it measured |
| Collapse.FlatteningIsUnique | internal/notify/collapse.go:114-131 | there is only one such result |
| Collapse.Collapsed | internal/notify/collapse.go:70-85 | the first name in order that read more than zero before and reads zero now, or none iff there is none |
| Collapse.CollapsesAreTheSilentEdges | internal/notify/dispatcher.go:379-428 | a collapse is announced iff nothing else was, this drill reached a verdict and some name fell to zero since the newest earlier drill that did |
| Collapse.NothingToFallFrom | internal/notify/dispatcher.go:379-428 | without an earlier verdict, or with anything else to say, no collapse is looked for |
| Deliver.WaitsAreBounded | internal/notify/deliver.go:187-216 | after a first attempt every wait is positive and at most ten minutes, and there are at most three |
| Deliver.OverflowMisreads | internal/notify/deliver.go:187-198 | every positive Retry-After is honoured up to ten minutes, iff its product fits 64 bits or wraps to ten minutes or more |
| Deliver.OverflowFallsBack | internal/notify/deliver.go:187-216 | it is read as no delay, and the schedule decides, iff the product wraps below zero or to nothing |
| Deliver.OverflowWitnesses | internal/notify/deliver.go:187-198 | one header that wraps to minus one second and one that wraps to less than a third of one |
| Deliver.AskedDelayIsKept | internal/notify/deliver.go:206-216 | a delay within ten minutes asked for with 429 is honoured exactly |
| Deliver.AttemptCounts | internal/notify/dispatcher.go:549-641 | a recorded attempt adds one, keeps the message, settles by the fourth and is sent iff the answer was 2xx |
| Deliver.AttemptSettles | internal/notify/dispatcher.go:549-641 | what one attempt records: sent iff 2xx, failed iff the answer is final or the attempts are used up, pending again otherwise |
| Deliver.NextTryComes | internal/notify/deliver.go:187-216 | a pending row is tried again after 30 s, 2 min and 8 min, or after the delay a 429 asked for, up to ten minutes |
| Protocol.OncePerRunAndChannel | internal/notify/dispatcher.go:323-398 | under every interleaving with crashes and store errors, no run is decided twice and no channel has two rows about a run |
| Protocol.ClaimWins | internal/notify/dispatcher.go:344-372 | a dispatcher wins a run iff its update is carried out and nobody claimed the run before, and the claim is kept |
| Protocol.MessageIsQueued | internal/notify/dispatcher.go:452-487 | a message is queued, pending and due at once, iff the store takes it and the channel has none about that run |
| Protocol.DueRowsAreTaken | internal/notify/dispatcher.go:533-546 | only pending rows whose time has come are taken up for delivery |
| Protocol.DeliveriesSettle | internal/notify/dispatcher.go:549-649 | with one delivering dispatcher, every POST is for a pending row and rows settle within four recorded attempts, so a settled row is never attempted |
| Protocol.NeverTwiceMeansAlone | internal/notify/dispatcher.go:533-649 | for any set of delivering dispatchers: every POST of every run is for a pending row, iff the set has at most one member |
| Protocol.TwoPostTwice | internal/notify/dispatcher.go:323-605 | a run from the start, with a crash in it, in which two dispatchers post a message that was already sent |
| Dispatcher.Dispatcher.Consider | internal/notify/dispatcher.go:344-398 | claimed before anything else; a channel has a message afterwards iff it had one, or the claim was won, the story read and something to say, the channel configured and not refusing, and the drill ended, or else began, no longer ago than the age limit, if there is one; the new rows are pending, due now and say that |
| Dispatcher.Dispatcher.DecidePass | internal/notify/dispatcher.go:323-336 | a pass claims runs and nothing else, exactly the oldest batch of those waiting when no claim fails, and leaves that many fewer |
| Dispatcher.OldestComeFirst | internal/notify/dispatcher.go:323-336 | the batch is the first of the runs nobody considered, in order, as many as there are up to its size |
| Dispatcher.OnePass | internal/notify/dispatcher.go:323-336 | each pass is one of the passes counted for the backlog |
| Dispatcher.Dispatcher.Drain | internal/notify/dispatcher.go:323-336 | passes without store errors, repeated, end with every run considered after exactly as many as the backlog counts |
| Dispatcher.BacklogDrains | internal/notify/dispatcher.go:27-31 | n waiting runs take ceil(n / batch) passes |
| Dispatcher.Dispatcher.DeliverPass | internal/notify/dispatcher.go:533-546 | every due row becomes what its attempt recorded unless the store refused or the process is stopping, others are untouched |
| Dispatcher.OneMessagePerChannel | internal/notify/dispatcher.go:452-487 | queueing keeps one row per run and channel and reaches every channel that accepts |
| Dispatcher.Dispatcher.Resolve | internal/notify/dispatcher.go:236-273 | the usable channels, and a warning only when a channel's kind was not the last one warned about |
| Dispatcher.UsableMeans | internal/notify/dispatcher.go:236-259 | a channel is usable iff it is on and its kind is known, in the configured order |
| Dispatcher.WarnedMeans | internal/notify/dispatcher.go:262-273 | a channel is warned about iff it is on, its kind is unknown and was not the last one it was warned about |
| Dispatcher.NotTwice | internal/notify/dispatcher.go:262-273 | an unchanged configuration is complained about once |
| Confidence.Score | internal/report/confidence.go:173-289 | which facts cost which points: failed, degraded, late, orphaned, no or a stale backup, no success, the age of the newest one, the failure rate and the ceiling of the newest proof are each listed iff the input shows them, at their own penalty and in order |
| Confidence.ReasonsCost | internal/report/confidence.go:173-289 | every listed reason costs a positive number of points, and a drill that ran is never listed as untested |
| Confidence.OneFailedDrill | internal/report/confidence.go:96-125 | under the product's own weights one failed run at DATA with a fresh backup scores 35 |
| Confidence.ScoreIsExplained | internal/report/confidence.go:173-289 | within 0..100, equal to max(0, min(cap, 100 - listed penalties)), and reasons are empty iff the score is 100 |
| Confidence.VerdictlessRunsDoNotCount | internal/report/confidence.go:242-327 | removing gaps and verdict-less runs from the history changes nothing |
| Confidence.ScoreNeverRisesWithTime | internal/report/confidence.go:194-240 | with a nonnegative daily penalty the score never rises as time passes |
| Turning.ScoreFalls | internal/report/confidence.go:173-240 | of two workloads with the same proof, one scores lower iff its penalties are greater, the other's are below a hundred and what it keeps is under the ceiling |
| Turning.TurningLowersTheScore | internal/report/confidence.go:96-125 | reading a past failure as a success lowers the score iff the penalties grow by a positive change that shows |
| Turning.FirstSuccess | internal/report/confidence.go:194-240 | that change when no success is on record: the age and new rate against the penalty for none and the old rate |
| Turning.NewestSuccessMoves | internal/report/confidence.go:194-240 | that change when only older successes are on record |
| Turning.RecentSuccessProtects | internal/report/confidence.go:194-267 | with a success at least as recent on record the score never falls |
| Turning.SevenOldFailures | internal/report/confidence.go:96-125 | under the default weights, one of n failures at least 27 days old, read as a success, lowers the score iff n is seven or more |
| Rebind.Rebind | internal/store/dialect.go:27-52 | unquoted placeholders are numbered 1..n in order and every other byte is copied |
| Rebind.NumberingIsInvertible | internal/store/dialect.go:27-52 | a counter-tracking parser reads the query back iff no dollar sign stood outside a literal |

## Left out

- Provider HTTP clients, SQL text, file I/O, the CLI, the rest of the HTTP API, the web UI and report rendering: plumbing; store operations enter as atomic operations that may fail.
- Panics inside the deferred cleanup, inside event emission or inside the store: the engine recovers only the workflow's own.
- Logging, message wording, headlines, links, redaction, templates in check parameters, the temporary workload's name and metadata: text only.
- The target handed to checks (addresses, guest executor): the checks are one call in the engine's script, and the registry that answers it is modelled beside it.
- Parameter decoding of a command check: a check that could not be configured or run at all is one case of the script.
- strconv, regular expressions and YAML text: they are parameters (a parser, an acceptor) or value trees. Re-reading an integral float as an integer from text is not modelled; unquoted YAML booleans, floats and numbers read into a string field are errors or their plain text here.
- Float rounding, and durations that overflow 64 bits outside Retry-After: arithmetic is over reals and unbounded integers.
- Case folding and white space outside ASCII.
- `Plans.Shown` of a float, list or mapping used as a port: one fixed text, so two such checks may share a display name in the model only.
- Cron expressions without any slot, and time-zone parsing: a schedule always has a next slot.
- The second clock reading a claim stores as its decision time, and the workload guard behind `trigger.Prepare`, which enters as ready, busy or broken.
- The caller's slice in `Values.Baseline` is an array that is only read; the sorted copy is a value, since sorting it in place is the library's business.
- Message rows are considered in the order drills started; a drill that started later but was decided earlier is not modelled in `Story`.
- The payload of a delivery, and events that cannot be marshalled.
- AES-GCM, tokens, sessions and network checks.
