# zarlmono: a Dafny model of its protocols and bookkeeping

The project models the parts of zarlmono where several things happen at once, or where one piece of code must undo or
agree with another:

- the **live runner** of zarlcode: autonomous Plan/Build transitions, single-flight start-up of the browser session,
  serialised conversation turns, the bounded list of touched files, the definition catalogue, front matter and slugs;
- the **swarm examples**: the scripted hand-off over a shared board with its independent checker, and the live trial with
  its request meter, reviewed artifact and completion latch;
- the **evaluation harness**: experiments and guidance decisions, the journaled refinement round, the evidence writer and
  reader, the worker pool, the scorer, and the surrogate-escape scan.

## How it is built

One module per component, one file per module.

Where the code updates fields in place, the fields guarded by one lock are a value (`Live`, `Shared`, `Cache`,
`Artifact`, ...), every critical section with a choice in it is a function on that value, and a class with the same
fields has one method per section, proved to compute that function. Concurrency is an interleaving machine over the same
functions: `Step` is total (a label that is not enabled changes nothing), `Exec` runs an arbitrary schedule, an
invariant is proved for every reachable state, and the theorems speak about every schedule. Where an answer comes from
outside (a context being cancelled, a write failing, what an evaluator returns), it is a parameter, so that a theorem
covers every pattern of failures. A class method runs alone, so `TurnGate.ContextCache.Enter`, which waits for a gate
somebody else holds, is given what that holder leaves and writes it itself before it goes on; the interleaving of the
two is the machine's.

`dafny verify dfyconfig.toml` checks all of it.

## Where the code differs from what one might expect

- *Mode budget.* "At most four changes" is not per task identity: forgetting a task resets the count, and a task driven
  again under the same id can apply a fifth change (`ReDrivenTaskExceedsFour`). The bound that holds is four in any stretch
  without a forget (`FourChanges`), hence four for each time a task is taken up (`BudgetPerForget`). That bound is reached,
  whatever the number of forgets (`BudgetIsTight`).
- *Compaction.* The comment on `Compact` says a failure leaves the context unchanged. The code stores the repaired context
  before it compacts, so a failure leaves the cache unchanged exactly when it was empty, exact, or needed no repair
  (`FailedCompaction`). Any non-empty context the repair changes gives a run in which a failed compaction changes the
  cache (`FailedCompactionChanges`), so the promise holds in every run exactly when the repair changes nothing
  (`FailedCompactionKeeps`).
- *Live chain.* The checker commits to the first post that answers a step, so a thread that continues from a later,
  competing answer is rejected (`CompetingAnswerHidesThread`), and a run that has earned everything else may stay
  unverified because of it (`CompetingAnswerStalls`). It accepts exactly the threads made of earliest answers
  (`FollowsExactly`), every one of which is a real thread (`FollowsThread`).
- *Front matter.* The splitter trims the opening delimiter in both spellings, one after the other, so a front block or body
  that starts like a carriage-return delimiter does not come back. `SplitUndoesWrite` gives the exact condition,
  `LookalikesAreLost` two cases.
- *Slugs.* The comment on `slugify` says unsupported characters collapse to hyphens. The code drops them without a trace
  (`UnsupportedIsDropped`, `NotHyphenated`): only `-`, `_`, space and `.` separate runs. Code and comment agree on a
  character exactly when no run ends right before it or none begins right after it (`CollapsesAsDocumented`).
- *Name lookup.* Lookup trims the name it is asked for, but listed names keep the white space of their file. A definition
  named with outer white space is listed and never found (`PaddedNameIsLost`). `FoundByOwnName` and `LookupIsSearch` give
  the exact conditions.
- *Persistence failures while scoring.* When persisting one verdict fails, the failing driver's records up to and including
  that one keep their new verdicts; the rest of that driver is untouched (`Upto`).

## Model

| member | source | states |
|---|---|---|
| `ModeTransition.LiveRunner.SetPlanMode` | zarlcode/engine/live.go:458-467 | an operator toggle sets the mode (never leaving Plan under the read-only ceiling) and moves the generation; after admission has closed it does nothing |
| `ModeTransition.LiveRunner.IsPlan` | zarlcode/engine/live.go:471-476 | the mode in force is Plan when the target or the ceiling says so |
| `ModeTransition.Transition.RequestMode` | zarlcode/engine/mode_transition.go:73-120 | what a `set_mode` call answers and leaves pending, for every caller depth, cancellation, argument and background state |
| `ModeTransition.Transition.PublishPending` | zarlcode/engine/mode_transition.go:160-187 | the boundary settles the pending change: published, refused and kept while something runs in the background, or dropped as superseded |
| `ModeTransition.Transition.ForgetTask` | zarlcode/engine/mode_transition.go:247-258 | forgetting the current task clears its pending change and its count; another task is left alone |
| `ModeTransition.AlwaysInv` | zarlcode/engine/mode_transition.go:73-258 | the invariant over calls, children, processes, counters and history holds after every schedule |
| `ModeTransition.NoStaleChange` | zarlcode/engine/mode_transition.go:133-187 | a change takes effect only as it was accepted, with no operator override since its acceptance |
| `ModeTransition.GenerationsIncrease` | zarlcode/engine/mode_transition.go:164-187 | published generations strictly increase over every run |
| `ModeTransition.FourChanges` | zarlcode/engine/mode_transition.go:98-117 | no stretch of a run without a forget applies more than four changes |
| `ModeTransition.BudgetPerForget` | zarlcode/engine/mode_transition.go:98-117 | over a whole run, at most four changes for each time a task was taken up |
| `ModeTransition.PendingHasBudget` | zarlcode/engine/mode_transition.go:98-117 | a pending change implies that fewer than four were applied since the last forget |
| `ModeTransition.RootDeferred` | zarlcode/engine/mode_transition.go:234-245 | between acceptance and the boundary (or forget) that ends it no root call reaches the inner source |
| `ModeTransition.PlanNeedsRest` | zarlcode/engine/mode_transition.go:133-187 | a switch to Plan is published only with no call, no child and no background process |
| `ModeTransition.PlanStaysQuiet` | zarlcode/engine/mode.go:104-111 | after such a switch, until the next mode change, nothing outside the Plan surface runs and no process exists |
| `ModeTransition.CeilingHolds` | zarlcode/engine/mode.go:104-111 | under the read-only ceiling no sequence of requests and toggles lets a tool outside the Plan surface through |
| `ModeTransition.BoundaryDecides` | zarlcode/engine/mode_transition.go:133-187 | a boundary applies a pending change exactly when it was not superseded and, for Plan, nothing runs in the background |
| `ModeTransition.PlanSurface` | zarlcode/engine/mode.go:20-56 | the real list of Plan tools has `set_mode` and `agent_spawn` and lacks `bash` |
| `ModeTransition.ReDrivenTaskExceedsFour` | zarlcode/engine/mode_transition.go:247-258 | some schedule applies five changes under one task id |
| `ModeTransition.BudgetIsTight` | zarlcode/engine/mode_transition.go:98-117 | for every number of forgets some schedule with exactly that many applies all the changes the bound allows, under one task id |
| `LiveComputer.Computer.EnterSession` | zarlcode/engine/live_computer.go:112-134 | a caller is refused, given the session, told whom to wait for, or becomes the one starter |
| `LiveComputer.Computer.CommitSession` | zarlcode/engine/live_computer.go:150-171 | the starter publishes the session unless the factory or its context failed |
| `LiveComputer.Computer.ReleaseStart` | zarlcode/engine/live_computer.go:164-171 | start-up ownership is given back after a clean-up |
| `LiveComputer.Computer.StopStartup` | zarlcode/engine/live_computer.go:95-102 | stopping is final and cancels the construction in flight |
| `LiveComputer.Computer.TakeSession` | zarlcode/engine/live_computer.go:75-93 | closing takes the published session and its cancel function out |
| `LiveComputer.AlwaysInv` | zarlcode/engine/live_computer.go:75-177 | single flight, context reservation and conservation of sessions hold after every schedule |
| `LiveComputer.OneConstruction` | zarlcode/engine/live_computer.go:104-177 | at most one construction is in flight, it is the announced one, and none runs beside a published session |
| `LiveComputer.NothingPublishedAfterStop` | zarlcode/engine/live_computer.go:95-177 | once start-up is stopped no step publishes a session |
| `LiveComputer.PublishedContextLives` | zarlcode/engine/live_computer.go:75-177 | a published session's context stays live until `Close` closed the session, whatever happens to the starter's request |
| `LiveComputer.ClosedAtMostOnce` | zarlcode/engine/live_computer.go:75-177 | no session is closed twice |
| `LiveComputer.NoLeak` | zarlcode/engine/live_computer.go:75-177 | in every reachable state with no call under way, no published session and every `Close` finished, each session the factory returned has been closed exactly once |
| `LiveComputer.CloseEmpties` | zarlcode/engine/live_computer.go:75-93 | one more `Close` after a drain leads to such a state |
| `LiveComputer.Progress` | zarlcode/engine/live_computer.go:104-177 | while a call is unfinished some caller or factory step is possible |
| `LiveComputer.CallsCountDown` | zarlcode/engine/live_computer.go:104-177 | every effective step of a call lowers a lexicographic measure of construction work and retries, so with no new arrivals every call ends |
| `Findings.Report.AssessStep` | examples/swarm/report.go:112-127 | one pass counts a step's posts and, when there is one, follows the chain through it |
| `Findings.Report.AssessChain` | examples/swarm/report.go:108-130 | the loop decides exactly whether one post per step forms a chain, counts duplicates, and on a chain counts steps minus one hand-offs |
| `Findings.Report.Assess` | examples/swarm/report.go:108-135 | complete exactly when the chain exists with nothing extra, every member settled and the swarm started idle |
| `Findings.ChainIsTranscript` | examples/swarm/report.go:108-135 | in board order a chain with nothing extra is the transcript itself: right author, topic, body, reply and increasing ids, and conversely |
| `Findings.ChainNoDuplicates` | examples/swarm/report.go:121-127 | a chain leaves no duplicates |
| `Findings.ChainUnique` | examples/swarm/report.go:108-135 | the posts of a chain are determined by the findings |
| `ScriptedSwarm.ScriptedClient.Call` | examples/swarm/scripted.go:129-138 | a call is numbered and remembered as the one awaited |
| `ScriptedSwarm.ScriptedClient.Respond` | examples/swarm/scripted.go:43-68 | a client starts with a listing, reacts only to its awaited result and fails on anything else |
| `ScriptedSwarm.ScriptedClient.ReceiveResult` | examples/swarm/scripted.go:70-102 | a page is followed, a read prerequisite answered once, a receipt for its own reply ends the activation |
| `ScriptedSwarm.ScriptedClient.FollowPage` | examples/swarm/scripted.go:104-127 | on a page the client reads its prerequisite, waits, or stops because it already replied |
| `ScriptedSwarm.AlwaysInv` | examples/swarm/scripted.go:43-138 | every client's beliefs agree with the board after every interleaving of host and members |
| `ScriptedSwarm.BoardIsPrefix` | examples/swarm/scripted.go:43-138 | the board is always a prefix of the hand-off, ids and replies included, over any number of activations |
| `ScriptedSwarm.PostsOnce` | examples/swarm/scripted.go:43-138 | each role posts at most once |
| `ScriptedSwarm.CheckerAgrees` | examples/swarm/report.go:108-135 | the independent checker accepts a run's board exactly when every step was published |
| `ScriptedSwarm.TurnPosts` | examples/swarm/scripted.go:43-138 | an undisturbed activation of the member whose turn it is publishes its contribution |
| `LiveTrial.CheckCancellation` | examples/swarm/live_completion.go:92-107 | the walk over an error tree computes the recursive acceptance |
| `LiveTrial.NoHiddenFailure` | examples/swarm/live_completion.go:92-107 | accepted exactly when every chain of unwraps, followed to its end, ends in a cancellation |
| `LiveTrial.CheckLiveChain` | examples/swarm/live_completion.go:73-90 | the loops compute the recursive chain check |
| `LiveTrial.FollowsThread` | examples/swarm/live_completion.go:73-90 | what the checker accepts is a real thread of answers |
| `LiveTrial.FollowsExactly` | examples/swarm/live_completion.go:73-90 | it accepts exactly the threads whose every answer is the earliest |
| `LiveTrial.ThreadFollows` | examples/swarm/live_completion.go:73-90 | without competing answers no thread is missed |
| `LiveTrial.CompetingAnswerHidesThread` | examples/swarm/live_completion.go:73-90 | with competing answers one can be missed: a board in order with a real thread that is not accepted |
| `LiveTrial.CompetingAnswerStalls` | examples/swarm/live_completion.go:25-90 | in any trial some run reaches an approved, reviewed, passing candidate with a real thread and no failure, and is not verified |
| `LiveTrial.RegexArtifact.SubmitPattern` | examples/swarm/live_artifact.go:53-70 | an edit is refused or makes a new unreviewed version within the limit |
| `LiveTrial.RegexArtifact.ReviewVersion` | examples/swarm/live_artifact.go:72-83 | a review counts only for the current, edited version |
| `LiveTrial.LiveMeter.AdmitRequest` | examples/swarm/live_meter.go:50-66 | refused once verified; refused, and recorded as a failure, over the request or token limit; otherwise counted for the role and in total |
| `LiveTrial.LiveMeter.ChargeUsage` | examples/swarm/live_meter.go:92-104 | reported usage goes to the role and to the total |
| `LiveTrial.LiveMeter.RecordFailure` | examples/swarm/live_completion.go:109-116 | a failure is kept unless the trial was stopped for success by a cancellation alone |
| `LiveTrial.BoardStore.Append` | zkit/agent/board/board.go:108-123 | a post is appended under the next id unless it replies to a post that does not exist or does not fit |
| `LiveTrial.CompletionTool.Run` | examples/swarm/live_artifact.go:121-154 | the tools a member holds: submit for the implementer, review for the reviewer, posts for all |
| `LiveTrial.CompletionTool.Execute` | examples/swarm/live_completion.go:25-61 | a call after verification or on a cancelled context does nothing; a post or review that completes the goal, chain check included, closes the latch, unless a failure was recorded |
| `LiveTrial.VerifiedIsEarned` | examples/swarm/live_completion.go:25-61 | verified implies an approved, reviewed, edited candidate that passes the oracle, and a board the checker accepts, with a real thread on it |
| `LiveTrial.VerifiedIsFinal` | examples/swarm/live_completion.go:25-61 | after that no continuation changes artifact or board, admits a request or reopens the latch |
| `LiveTrial.FailureRulesOut` | examples/swarm/live_completion.go:25-61 | a failure recorded first rules verification out for the rest of the run |
| `LiveTrial.LedgersAgree` | examples/swarm/live_meter.go:50-104 | at most 36 requests, and per-role ledgers always add up to the global counters |
| `LiveTrial.TokenOvershoot` | examples/swarm/live_meter.go:50-104 | reported tokens never exceed 99,999 plus one report for each concurrent worker |
| `TurnGate.ContextGate.Acquire` | zarlcode/engine/context_gate.go:15-27 | a caller gets the slot when it is free or released in time; a cancelled caller holds nothing, and a slot it could not wait for stays with its holder |
| `TurnGate.ContextCache.Transition` | zarlcode/engine/context_cache.go:51-78 | a whole turn, gate free or held: seeded with the repaired (or exact) context it found, committing only after a successful set-up, without a trace when it gives up |
| `TurnGate.ContextCache.Enter` | zarlcode/engine/context_cache.go:51-55 | a caller finds what the holder it waited for left |
| `TurnGate.ContextCache.Restore` | zarlcode/engine/context_cache.go:104-119 | a restore waits its turn, repairs, and is no longer exact |
| `TurnGate.ContextCache.RestoreCheckpoint` | zarlcode/engine/context_cache.go:186-196 | a checkpoint is kept verbatim; one that cannot be read changes nothing |
| `TurnGate.ContextCache.CompactNow` | zarlcode/engine/context_cache.go:121-164 | a compaction stores the repaired context, and the compacted one when it got one |
| `TurnGate.FailedCompaction` | zarlcode/engine/context_cache.go:121-164 | exactly when a failed compaction changes nothing |
| `TurnGate.FailedCompactionChanges` | zarlcode/engine/context_cache.go:121-164 | for every repair and every non-empty context it changes, some run ends with a compaction whose failure changes the cache |
| `TurnGate.FailedCompactionKeeps` | zarlcode/engine/context_cache.go:121-164 | failed compactions change the cache in no run exactly when the repair changes no non-empty context |
| `TurnGate.Lifecycle.BeginTurn` | zarlcode/engine/live_lifecycle.go:98-131 | a turn is admitted, refused as closed, or refused as busy |
| `TurnGate.Lifecycle.Finish` | zarlcode/engine/live_lifecycle.go:117-130 | finishing clears one's own registration only |
| `TurnGate.AlwaysInv` | zarlcode/engine/context_cache.go:51-78 | gate ownership, registration and the history invariant hold after every schedule |
| `TurnGate.Linearizable` | zarlcode/engine/context_cache.go:51-164 | every run is equivalent to its history: each operation was seeded with its predecessors' result, took effect once, and the cache is what the history leaves |
| `TurnGate.OnlySuccessCommits` | zarlcode/engine/context_cache.go:51-78 | an operation is in the history exactly when it succeeded |
| `TurnGate.RealTimeOrder` | zarlcode/engine/context_cache.go:51-78 | the history respects real time |
| `TurnGate.GateNotLeaked` | zarlcode/engine/context_gate.go:15-30 | a finished or cancelled operation holds neither gate nor registration |
| `TurnGate.BusyMeansHeadless` | zarlcode/engine/live_turn.go:64-92 | an interactive turn finds the runner busy only because of a headless turn |
| `TurnGate.InteractiveNeverBusy` | zarlcode/engine/live_turn.go:64-92 | queued interactive turns never see busy from each other |
| `TurnGate.ClosedAdmitsNoTurn` | zarlcode/engine/live_lifecycle.go:14-54 | once closing has begun no turn is registered |
| `TurnGate.Progress` | zarlcode/engine/headless.go:34-65 | no operation is stuck, headless turns that register before the gate included |
| `TurnGate.StepsCountDown` | zarlcode/engine/context_cache.go:51-78 | every effective step brings one operation nearer its end and moves no other, so with no new arrivals every operation ends |
| `Decimal.AtoiItoa` | swebench-eval/harness/experiment.go:107-114 | the decimal repetition number in a driver name can be read back |
| `Experiment.DriverNameInjective` | swebench-eval/harness/experiment.go:107-114 | a driver name determines label and repetition, even when labels contain "-r" and digits |
| `Experiment.ParseExperiment` | swebench-eval/harness/experiment.go:41-71 | decoded fields are accepted exactly when version, repeats, candidate count, labels and guidance are valid and labels differ |
| `Experiment.Trials` | swebench-eval/harness/experiment.go:95-105 | each round is the baseline followed by the candidates |
| `Experiment.TrialsAreDistinct` | swebench-eval/harness/experiment.go:95-114 | a valid experiment has repeats times (1 + candidates) trials with pairwise different driver names |
| `Experiment.StageTrialsExactly` | swebench-eval/harness/guidance_decision.go:80-88 | the trials are a stage's trials exactly when there is one repetition with the expected labels in order |
| `Experiment.MatchTrials` | swebench-eval/harness/guidance_decision.go:80-88 | the comparison of names decides exactly that |
| `Experiment.ParseGuidanceDecision` | swebench-eval/harness/guidance_decision.go:24-90 | a decoded decision is accepted exactly when acceptable for its labels and evidence |
| `Experiment.CheckCitations` | swebench-eval/harness/guidance_decision.go:62-68 | citations are accepted exactly when all are known and none repeats |
| `Experiment.KnownIDs` | swebench-eval/harness/guidance_decision.go:55-61 | the known identities are the views' and their observations' |
| `RefineRound.Refinement.RunProbe` | swebench-eval/refine/round.go:64-88 | one probe stage: nothing when cancelled, a lone start when it does not persist, otherwise start, probe and true outcome |
| `RefineRound.Refinement.Consult` | swebench-eval/refine/round.go:100-112 | one improver stage, likewise |
| `RefineRound.Refinement.Finish` | swebench-eval/refine/round.go:89-96 | frozen exactly when the freeze persisted, naming what was skipped |
| `RefineRound.Refinement.ProbeCandidates` | swebench-eval/refine/round.go:116-120 | the general and the domain candidate are probed in order, or the round is abandoned |
| `RefineRound.Refinement.Run` | swebench-eval/refine/round.go:61-141 | for every pattern of failures: each external call between its persisted start and its true outcome, nothing after a lost write, at most four probes and two improver calls, improvers shown exactly the evidence gathered, frozen exactly on success with executed plus skipped drivers equal to the plan, otherwise a stated cause |
| `RefineRound.StageKeeps` | swebench-eval/refine/round.go:64-112 | a stage that succeeds leaves the round open, any other abandons it with its cause |
| `RefineRound.PlannedNames` | swebench-eval/refine/round.go:55-57 | the planned drivers are the names of the baseline and the three stage trials |
| `RefineRound.ProposedTrials` | swebench-eval/refine/round.go:116-137 | the trials of a validated decision bear the planned names |
| `EvidenceWriter.TrialEvidence.RecordEntry` | swebench-eval/harness/evidence.go:125-152 | one record: sticky error, closed, unencodable, over the limit, short write, written |
| `EvidenceWriter.TrialEvidence.CloseArtifact` | swebench-eval/harness/evidence.go:113-123 | closing happens once and reports any sticky error on every call |
| `EvidenceWriter.TrialEvidence.Finish` | swebench-eval/harness/evidence.go:88-110 | the result is recorded and the artifact closed; success needs both |
| `EvidenceWriter.AlwaysFaithful` | swebench-eval/harness/evidence.go:88-152 | in any order of records and closes the digest covers exactly the file, and without an error the file is every record submitted, in order, within the limit |
| `EvidenceWriter.ErrorSticks` | swebench-eval/harness/evidence.go:113-152 | after an error every later record and close reports it |
| `EvidenceWriter.ReceiptExactly` | swebench-eval/harness/zarlcode.go:292-299 | a receipt is issued exactly when every record was encoded and written whole, all fit in 64 MiB and the close succeeded; its digest is of all of them |
| `EvidenceWriter.FinishBesideOthers` | swebench-eval/harness/evidence.go:88-123 | whatever calls come between its two sections, a successful finish leaves a closed file of every record submitted, the result among them, with the digest of all of it |
| `EvidenceWriter.LateRecordRejected` | swebench-eval/harness/evidence_read.go:106-108 | a log with anything behind the result is ill formed |
| `EvidenceWriter.ReadTrialEvidence` | swebench-eval/harness/evidence_read.go:54-83 | an artifact is read exactly when file name, file, size, digest, order and context allow |
| `EvidenceWriter.RoundTrip` | swebench-eval/harness/zarlcode.go:283-301 | a settled trial is read back exactly when its log is well formed, as the projection of what was written |
| `EvidenceReader.ReadMessage` | swebench-eval/harness/evidence_read.go:149-176 | one message: refused when it cannot be read, a repeated execution skipped, a new one observed, the 257th refused |
| `EvidenceReader.ReadHistory` | swebench-eval/harness/evidence_read.go:144-177 | one history record extends the observations, or the log is ill formed |
| `EvidenceReader.ReadEntry` | swebench-eval/harness/evidence_read.go:106-195 | one record keeps the scan invariant, or the log is ill formed |
| `EvidenceReader.ProjectEvidence` | swebench-eval/harness/evidence_read.go:85-201 | accepted exactly when the log is one start, inner records and one usable result with at most 256 executions; the view is its projection |
| `EvidenceReader.ObservedAsMany` | swebench-eval/harness/evidence_read.go:161-176 | there are as many observations as different executions |
| `EvidenceReader.EveryExecutionObserved` | swebench-eval/harness/evidence_read.go:149-176 | every execution mentioned is observed, as first mentioned, by exactly one observation |
| `EvidenceReader.CitationsDiffer` | swebench-eval/harness/evidence_read.go:172-172 | different observations of one view have different identities |
| `WorkerPool.AlwaysInv` | swebench-eval/runner/runner.go:132-165 | in every schedule undispatched, in-flight and finished slots partition the product, none lost, none twice |
| `WorkerPool.SendsNeverBlock` | swebench-eval/runner/runner.go:133-143 | a worker with a record always finds room in the result channel |
| `WorkerPool.Progress` | swebench-eval/runner/runner.go:135-165 | until every worker left some step is possible, cancelled or not |
| `WorkerPool.StepsCountDown` | swebench-eval/runner/runner.go:135-165 | every effective step leaves less to do, so every run ends |
| `WorkerPool.FinishedRun` | swebench-eval/runner/runner.go:148-170 | a finished run holds one record for each slot of an initial segment; without a cancellation for every slot, and what it yields |
| `WorkerPool.SortSorts` | swebench-eval/runner/runner.go:171-176 | the output is sorted by instance, then driver |
| `WorkerPool.SortsStably` | swebench-eval/runner/runner.go:171-176 | it is a permutation that keeps records of one key in order of arrival |
| `WorkerPool.ScheduleDoesNotShow` | swebench-eval/runner/runner.go:132-176 | with distinct keys, finished runs that got equally far list the same slots in the same order; uncancelled ones put out the same records |
| `WorkerPool.Slots` | swebench-eval/runner/runner.go:152-160 | the producer's loops yield the row-major product |
| `WorkerPool.RowsDistinct` | swebench-eval/runner/runner.go:152-160 | different tasks and drivers give every slot its own key |
| `Ordering.LessTotal` | swebench-eval/runner/runner.go:171-176 | the string order compares any two different strings |
| `Ordering.LessTransitive` | swebench-eval/runner/runner.go:171-176 | the string order is transitive |
| `Scorer.Drivers` | swebench-eval/runner/score.go:126-136 | the drivers with something to grade, ascending and without repetition |
| `Scorer.Results.Retry` | swebench-eval/runner/score.go:148-156 | a rebuild is attempted exactly when some verdict is an evaluator error; its verdicts replace the first ones |
| `Scorer.Results.GradeDriver` | swebench-eval/runner/score.go:157-176 | a driver's records get their verdicts in order up to the first that is not persisted |
| `Scorer.Results.ScoreDriver` | swebench-eval/runner/score.go:136-180 | how one driver ends, and which records it reached |
| `Scorer.Results.ScoreDrivers` | swebench-eval/runner/score.go:135-181 | the drivers in order until one stops the scoring |
| `Scorer.Results.Score` | swebench-eval/runner/score.go:76-182 | never left running; no error exactly when completed exactly when everything succeeded; exactly the reached records are graded, driver failures never touched, the stopping driver and cause identified |
| `Scorer.CompletedIsGraded` | swebench-eval/runner/score.go:157-182 | after a success every predicted record has a definite verdict, the rebuild's where it returned one, and no evaluator error |
| `Scorer.ScorePathToken` | swebench-eval/runner/score.go:264-279 | canonical names are kept, others hashed |
| `Scorer.TokensCollide` | swebench-eval/runner/score.go:264-279 | two drivers share a token exactly through a hash collision of two names that both need hashing |
| `Surrogates.ValidateSurrogates` | swebench-eval/harness/experiment_json.go:68-97 | the index scan stays in bounds and accepts exactly when each surrogate escape belongs to a high-low pair |
| `Surrogates.ScanEscape` | swebench-eval/harness/experiment_json.go:74-94 | the branch for one escape: refuse, pass over, or pass over a pair |
| `Surrogates.PairsUpIsPaired` | swebench-eval/harness/experiment_json.go:68-97 | reading pairs off the front is the same as every surrogate having its partner beside it |
| `FileHistory.OperationalState.RecordFile` | zarlcode/engine/operational_state.go:106-118 | the bounded list stays the last 32 entries of the unbounded keep-latest history |
| `FileHistory.LatestExtend` | zarlcode/engine/operational_state.go:106-118 | in the unbounded history a touch replaces its path's entry and goes last |
| `FileHistory.BoundedStep` | zarlcode/engine/operational_state.go:106-118 | bounding first does not change the last 32, also when an evicted path returns |
| `FileHistory.LatestDistinct` | zarlcode/engine/operational_state.go:106-118 | no path is listed twice |
| `Slugs.BuildSlug` | zarlcode/catalog/scaffold.go:147-163 | the builder loop yields the runs of word characters between separators, hyphenated |
| `Slugs.Slugify` | zarlcode/catalog/scaffold.go:147-163 | the same for a trimmed, lowered display name |
| `Slugs.SlugOfIsSlug` | zarlcode/catalog/scaffold.go:147-163 | the result is empty or single-hyphen-separated runs of `[a-z0-9]` |
| `Slugs.FixedPoints` | zarlcode/catalog/scaffold.go:147-163 | the fixed points are exactly those |
| `Slugs.Idempotent` | zarlcode/catalog/scaffold.go:147-163 | slugging twice changes nothing |
| `Slugs.UnsupportedIsDropped` | zarlcode/catalog/scaffold.go:150-161 | an unsupported character leaves no trace, wherever it stands |
| `Slugs.NotHyphenated` | zarlcode/catalog/scaffold.go:144-163 | one that does not become a hyphen |
| `Slugs.CollapsesAsDocumented` | zarlcode/catalog/scaffold.go:144-163 | replacing an unsupported character by a hyphen gives the same slug exactly when no run ends before it or none begins after it |
| `Frontmatter.Index` | zarlcode/catalog/catalog.go:518-519 | the first occurrence, or none anywhere |
| `Frontmatter.SplitUndoesWrite` | zarlcode/catalog/catalog.go:511-531 | splitting undoes writing exactly when neither part looks like a delimiter where it must not |
| `Frontmatter.LookalikesAreLost` | zarlcode/catalog/catalog.go:511-531 | a front block and a body that do not come back |
| `Frontmatter.CreateSkill` | zarlcode/catalog/scaffold.go:40-55 | which skills are accepted, and the file written for them |
| `Frontmatter.SkillRoundTrip` | zarlcode/catalog/scaffold.go:53-53 | an accepted skill file splits into its front block and instructions, whatever delimiter lines those contain |
| `Catalogue.Place` | zarlcode/catalog/catalog.go:151-157 | a definition takes its name's place, or goes last |
| `Catalogue.LoadMerged` | zarlcode/catalog/catalog.go:139-163 | the merge lists each name once, first seen first, with its last definition; a malformed file adds an error and hides nothing |
| `Catalogue.MergedNames` | zarlcode/catalog/catalog.go:139-163 | it lists exactly the names given |
| `Catalogue.MergedDistinct` | zarlcode/catalog/catalog.go:139-163 | and none twice |
| `Catalogue.Load` | zarlcode/catalog/catalog.go:139-163 | a cancelled load gives up with nothing |
| `Catalogue.IndexByName` | zarlcode/engine/runtime_catalog.go:55-62 | map lookup agrees with list search |
| `Catalogue.RuntimeCatalog.Reload` | zarlcode/engine/runtime_catalog.go:47-79 | a reload publishes whole merges of skills, agents and hooks with agreeing maps and all their errors, or leaves the snapshot as it was |
| `Catalogue.RuntimeCatalog.Skill` | zarlcode/engine/runtime_catalog.go:134-142 | lookup is list search for the trimmed name |
| `Catalogue.RuntimeCatalog.Agent` | zarlcode/engine/runtime_catalog.go:144-152 | likewise |
| `Catalogue.FoundByOwnName` | zarlcode/engine/runtime_catalog.go:134-152 | a listed definition is found under its own name exactly when that name has no outer white space |
| `Catalogue.LookupIsSearch` | zarlcode/engine/runtime_catalog.go:134-152 | lookup equals list search exactly when the name is trimmed already or neither spelling is listed |
| `Catalogue.PaddedNameIsLost` | zarlcode/engine/runtime_catalog.go:134-142 | a listed name that is never found, and a padded name that finds what list search does not |

## Left out

- zkit internals (runner loop, board service, swarm scheduler, spawn group, guardrails, tool-pairing repair, runtime
  admission): used through small stated behaviours. `set_mode` is a dispatch barrier; children and background processes
  arise only from running `agent_spawn` and `bash` calls; repair is an arbitrary function on contexts.
- JSON, YAML, regular expressions, SHA-256 and quoting: parameters. Experiments, decisions, evidence records and definition
  files arrive decoded; the surrogate scan assumes only that every backslash starts a complete escape, which valid JSON
  guarantees.
- File system, subprocesses, HTTP, Docker, persistence stores and clocks: their answers are parameters.
- Board paging in the live trial: its board holds at most 16 posts and one page lists 32, so the checker sees the whole
  board. Whether a post still fits is a parameter.
- Text that is not valid UTF-8: lengths are of the UTF-8 encoding, and a text here always has one.
- Wrap-around of the 64-bit mode generation: generations are unbounded.
- A request boundary that begins while a root call is in flight: the runner loop finishes a batch before the next request
  (`BeginStep`). Forgets, toggles, children and processes may come at any moment.
- Shutdown of the runner's other dependencies, and the second caller that waits for a shutdown in progress.
- The 64 KiB stream relay and response size limits of the live client.
- Directory walks that fail as a whole, and a walk cut short by cancellation: the load then gives up its list anyway.
- `experimentObject`, tool counters, the failures list, verification staleness, reports, prompts, CLI and TUI: they would
  only add easy members, or have no clean general law.
- Evidence text capture (UTF-8 or base64).
- EvidenceWriter.TrialEvidence.Finish: takes its two critical sections in one step; `FinishBesideOthers` is the statement
  with other calls between them.
- LiveTrial.CompletionTool.Run: the registry and the members' own argument decoding are not modelled, and tools that change
  nothing are one case.
- CompletedIsGraded: says nothing about verdicts the evaluator returned for instances nobody submitted.
