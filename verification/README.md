# Spidey verification model

A Dafny 4.11 model of the hard core of Spidey, an agent platform for code changes: the durable run engine, the
incremental code index with its parser, graph builder and graph queries, the event plane, the identity guards,
retrieval ranking, and the server-sent event codec. Every state change the source makes in place is a class method
or a loop proved against a value-level specification; the theorems are about those specifications, over every input,
every run or every reachable state. `dafny verify dfyconfig.toml` checks the whole project.

## Layout

| file | source component |
|---|---|
| `Common.dfy`, `Firsts.dfy`, `CodeModel.dfy`, `RunDomain.dfy` | shared values, sequences that keep the first of each key, code-intelligence values, run statuses and budgets |
| `ToolRegistry.dfy` | the choke point for tool calls |
| `RunGraph.dfy`, `RunControl.dfy`, `RunGrants.dfy`, `RunHistory.dfy` | node bodies and edges of the run graph; termination and bounds; approvals; event trail and report |
| `RunSteps.dfy`, `RunRequests.dfy` | what every superstep and every request does, told by rows before and after and the outside world's replies |
| `RunSystem.dfy`, `RunTheorems.dfy`, `RunGates.dfy`, `RunReviews.dfy`, `RunWitness.dfy` | service requests, queue, worker deliveries and crashes; what holds of every history; who answers the gates; what was reviewed before it landed; two whole example histories |
| `RunWorker.dfy` | the node bodies, the worker loop and the run service as imperative classes |
| `Chunker.dfy`, `Indexer.dfy`, `GraphBuilder.dfy`, `GraphTraversal.dfy`, `CodePipeline.dfy` | parser walk, incremental index, graph construction and rebuild, recursive queries, and how they fit together |
| `IndexGraph.dfy`, `IndexEdges.dfy`, `IndexService.dfy` | the order the store is read in, which of the graph's nodes and edges it determines, and the index with its graph as a service |
| `TreeOccurrences.dfy`, `GraphLaws.dfy` | how often a tree's places occur among the extracted symbols and references; which nodes, targets and edges a graph has |
| `EventPlane.dfy`, `EventDelivery.dfy`, `EventWorkers.dfy` | outbox, streams, consumer group and log; which events can still be logged; relay and persister |
| `IdentityGuards.dfy`, `RefreshTokens.dfy` | token bucket, lockout, rotating refresh tokens |
| `Reranking.dfy`, `Compression.dfy` | score fusion and budgeted extraction |
| `Sse.dfy`, `SseCursor.dfy` | the event stream's printer, incremental parser and cursor |

## What was found

Points where the code does less than its documentation says, or where a natural property needs a condition. Each is
a lemma, and where a property fails the exact condition is proved.

- **Pull-request gate.** `pr_gate` parks a run while its stored status is still running (nodes.py:498-508), and
  `resume` refuses that status (run_service.py:119). A run of its own deliveries alone reaches the gate
  (`RunWitness.GateIsReached`), has no message queued there and can be resumed by nobody
  (`RunGates.GateCannotBeResumed`). In every history a drive of a run with a workspace opens a pull request or
  completes exactly when it starts at the gate (`RunGates.DeliversIffAtGate`); so without a delivery the service never
  queued, no such run does (`RunGates.PrGateNeedsRedelivery`).
- **Reports of failed runs.** report.py:1-7 promises what actually happened. A drive that raises keeps its commits and
  pull request and loses its events, so the report of a failed run stays the one from before that drive: it lists the
  commits exactly when the drive landed none, and the pull request exactly when it opened none
  (`RunTheorems.FailedReport`, with a history in `RunWitness.ReportMissesACommit`).
- **Test verdict.** The report shows the last verdict any test phase reported, the run goes by the last phase. They
  agree exactly when no phase's tool ever reported, or the last phase's tests ran and no debugging has started since
  (`RunHistory.ReportedVerdict`, `RunTheorems.ReportIsTruthful`). In a workspace with no recognised framework the tool
  reports `ran` and `passed` false (tester.py:101-108, sandbox_tools.py:131), so a run that ships without a verdict is
  reported as failing its tests (`RunWitness.GateDelivers`); after debugging, a phase whose tool does not report leaves
  the older failure in the report (`RunHistory.StaleVerdict`). `RunReport.outcome` documents a value `failed` that no
  event produces.
- **Blank reviews.** nodes.py:299-301 says that only an approval or the last round moves a step to its commit. The
  router tests the critique for being empty (nodes.py:570-574), so a reviewer's blank reply, announced as changes
  requested, lets the diff through. A rejected diff reaches its commit exactly in the last round or by a blank reply
  (`RunReviews.RejectedIsCommittedIff`, with a diff that lands in `RunReviews.BlankReviewCommits`); every commit still
  follows a review of its own step with no edit in between (`RunReviews.CommitsAreReviewed`).
- **Stale bytes.** `POST /workspaces/{id}/index` (api/v1/workspaces.py:336-350) indexes again with the manifest stored
  at ingestion, whose hashes need not be those of the files on disk. A pass from an index in step with the bytes it was
  built from equals one from nothing exactly when every path it keeps has on disk bytes that parse alike
  (`Indexer.PassEqualsFreshIff`); rows of the wrong bytes stay for good (`Indexer.StaleBytesStay`).
- **Edge lines.** `symbols_with_paths` breaks no ties and `references` has no order at all (store.py:205-216), while the
  graph keeps the first edge of each key. Node keys and edges from modules to definitions are the same in every order.
  A name's node is, exactly when its definitions on its first line look the same (`IndexGraph.NodeDeterminedIff`); a
  reference's targets are, exactly when the eighth and the ninth candidate are not on one line
  (`IndexEdges.TargetsDeterminedIff`); an edge's line is, exactly when all references that yield the edge are on that
  line (`IndexEdges.RefEdgeDeterminedIff`), so that the line of a repeated call is whichever the database returns first
  (`IndexEdges.EdgeLineIsNotDetermined`).
- **Lost events.** relay.py:6-8 says no event is ever lost. Pumps read only entries never delivered to their group
  (streams.py:62-64), so a pump that ends between its read and its commit strands its entries. A committed event can
  still be logged exactly when it is not stuck in that way (`EventDelivery.LoggableUnlessStuck`), and one interrupted
  pump is enough (`EventDelivery.AnInterruptedPumpLosesAnEvent`).
- **Ghost vectors.** Vector writes survive a crash that rolls the store back. Repeating the same pass repairs
  everything; a pass over another manifest repairs everything exactly when the crash left the paths it does not touch
  as they were (`Indexer.CrashThenOtherManifest`). A reverted file keeps the vectors of its crashed content, which
  contradict the store when its row has no such chunk (`Indexer.RevertAfterCrashKeepsGhost`), and its own cleared ones
  stay missing (`Indexer.RevertAfterCrashLosesPoint`).
- **Deactivated owners.** No request writes `is_active`, so by the service's own requests a refresh is refused exactly
  for a token that is unknown or not active (`RefreshTokens.RefusedIffInactive`). Where someone edits the user's row,
  `refresh` revokes the family in the request's own transaction and then raises (auth_service.py:196-198), so the
  revocation is rolled back and the session outlives the edit (`RefreshTokens.DeactivatedFamilySurvives`, from an empty
  instance in `RefreshTokens.DeactivationIsSurvived`).
- **Uncovered text.** Text of a definition after its first nested definition, and module-level text after the first
  definition, is in no chunk and so in no vector (`Chunker.CoveredIff`).
- **Compression.** compression.py:14-15 keeps the top hit "in full-window form"; the code cuts every window, the first
  one too, from the front at `per_hit_max_chars`, so the line the window was chosen for survives exactly when
  everything through it fits (`Compression.CenterSurvivesIff`), and the whole window exactly when it fits
  (`Compression.WindowSurvivesIff`, with a top hit that is cut in `Compression.TopHitIsCut`).

## Conventions

- The outside world (model replies, tools, git, sandbox, the disk) is an arbitrary input; every theorem quantifies over it.
- One worker drive, one request, one relay or pump effect is atomic; histories interleave them in any order, with
  crashes between them. A crash inside a drive rolls back the session and keeps the checkpoint, the executed mutations
  and the proposals' outside effects.
- Paths are ordered by an arbitrary collation; rows the database does not order come in any order.
- Runs, approvals, tokens and families are numbered in the order they are created; identifiers never repeat.
- Stored status changes repeat the current status in places (nodes.py:173, 403), so transition claims are about the
  reflexive closure of the transition table.

## Model

| member | source | states |
|---|---|---|
| ToolRegistry.Registry.Invoke | backend/src/spidey/agents/application/registry.py:69-124 | a provider is entered only for a registered tool and a sufficient role, and for a write or destructive tool only under a blanket permission or an approved record for that tool and run; success means it was entered |
| ToolRegistry.Register | backend/src/spidey/agents/application/registry.py:42-56 | of two registered tools with one name the later one answers; every other name keeps its tool |
| ToolRegistry.InvokeExactly | backend/src/spidey/agents/application/registry.py:69-124 | exactly which calls enter the provider, which refusals are announced, and as errors or denials: role before arguments before grant |
| RunSteps.PlanIsDrafted | backend/src/spidey/agents/graph/nodes.py:127-158 | the planner stores and keeps the first twelve lines with text of its reply, without bullets and cut at 200 characters, or the one default step, announced between two status changes |
| RunSteps.DeliveryStarts | backend/src/spidey/workers/tasks/agent_run.py:113-129 | a delivery starts a pending run at the planner with nothing kept, lets a parked one through its gate, and leaves any other where it is |
| RunSteps.BranchIsPrepared | backend/src/spidey/agents/graph/nodes.py:182-193 | a run works on the prepared branch exactly when it has a workspace under git |
| RunSteps.CoderQueuesWrites | backend/src/spidey/agents/graph/nodes.py:195-253 | every write call in at most three replies becomes one undecided approval and one proposal, in order, and none is executed; with proposals the run parks, otherwise it goes to review exactly when files are applied |
| RunSteps.BatchIsApplied | backend/src/spidey/agents/graph/nodes.py:268-295 | past the edit gate exactly the approved proposals that pass the checks are executed, each naming the whole batch; exactly the files of those that succeeded are noted and announced, and no proposal is left |
| RunSteps.ReviewDecides | backend/src/spidey/agents/graph/nodes.py:330-342 | a reply that starts with APPROVE in any case clears the critique and lets the step through; any other is the critique and goes back to the coder exactly when it says something and a round is left; the verdict is announced |
| RunSteps.NothingToReview | backend/src/spidey/agents/graph/nodes.py:302-304 | without applied files, workspace or git nobody is asked, and the step goes on to its commit |
| RunSteps.CommitLandsStep | backend/src/spidey/agents/graph/nodes.py:345-394 | a step's commit lands exactly when files were applied and git made one, as announced; the next step starts clean, behind the budget gate exactly when a step, token or cost ceiling is reached and steps remain |
| RunSteps.TestsDecide | backend/src/spidey/agents/graph/nodes.py:407-419 | the verdict is that of tests the tool reports to have run, and only a failure leads to debugging, twice at most, or to escalation |
| RunSteps.DebugAddsStep | backend/src/spidey/agents/graph/nodes.py:446-468 | a debug round appends one step named by its number and starts it clean |
| RunSteps.RunEnds | backend/src/spidey/agents/graph/nodes.py:470-559 | documentation leads to the pull-request gate exactly when there is something to deliver; a pull request opens exactly when it can; the ending is announced with steps, verdict and link |
| RunSteps.GatesOpen | backend/src/spidey/agents/graph/nodes.py:160-180 | passing a gate sets the checkpoint running and moves on; the stored plan is adopted exactly at the plan gate, and running is stored and announced exactly at the plan and budget gates |
| RunSteps.SuperstepSpends | backend/src/spidey/agents/graph/nodes.py:645-669 | every superstep charges exactly the tokens of the replies it asked for, planning aside, and one step exactly for a coder execution; an answered budget pause gives back the steps and no tokens |
| RunSteps.CallIsAnnounced | backend/src/spidey/agents/application/registry.py:104-123 | a call announces first that the provider was entered, then the test tool's own report, last the outcome, each exactly when there is one |
| RunControl.CoderRoundsFrame | backend/src/spidey/agents/graph/nodes.py:195-239 | one coder execution makes at most three gateway calls and touches only approvals, events and proposals |
| RunControl.AdvanceProgress | backend/src/spidey/agents/graph/build.py:42-78 | every node and every answered pause keeps the run well positioned and decreases the measure (stage, debug rounds left, plan steps left, review rounds left, node rank) |
| RunControl.Drive | backend/src/spidey/workers/tasks/agent_run.py:113-129 | every worker drive ends at a pause, keeps the approved steps in front, and never leaves a run pending |
| RunControl.Finish | backend/src/spidey/agents/graph/build.py:22-80 | with every pause answered, every run reaches the end of the graph |
| RunControl.ControlBounds | backend/src/spidey/agents/graph/nodes.py:561-598 | at most 2(n + 2) coder executions and 8n + 20 gateway calls for an approved plan of n steps; the step index is inside the plan at coder, reviewer and commit; shipping means the whole plan executed and tests not failing |
| RunControl.WindowBound | backend/src/spidey/agents/graph/nodes.py:645-669 | steps charged in one granted window stay within max_steps + 1 while the approved plan runs and max_steps + 5 once debug steps are included |
| RunControl.AdvanceCharges | backend/src/spidey/agents/graph/nodes.py:645-669 | every node charges exactly the coder executions it makes, and only an answered budget pause starts the count over |
| RunControl.DriveCharges | backend/src/spidey/agents/graph/nodes.py:389-404 | within one drive the steps charged equal the coder executions made |
| RunGrants.BatchExecutesExactly | backend/src/spidey/agents/graph/nodes.py:268-295 | a batch executes every approved proposal that passes the role and schema checks exactly once and in order, and nothing else, and notes exactly the files of the successful ones |
| RunGrants.AdvanceKeepsGrants | backend/src/spidey/agents/graph/nodes.py:614-635 | every node keeps each proposal backed by its own recorded approval, each execution granted, and no approval spent twice |
| RunGrants.DriveKeepsGrants | backend/src/spidey/agents/graph/nodes.py:268-295 | the same over a whole drive |
| RunGrants.StepKeepsSettled | backend/src/spidey/agents/graph/nodes.py:255-295 | a run whose approvals are all settled at the gate applies only batches approved as a whole |
| RunGrants.DriveKeepsSettled | backend/src/spidey/agents/graph/nodes.py:195-295 | the same over a whole drive |
| RunHistory.BuildReport | backend/src/spidey/agents/application/report.py:44-67 | the loop over the events computes the fold that the report lemmas are about |
| RunHistory.StepSays | backend/src/spidey/agents/graph/nodes.py:127-558 | every node keeps the report equal to commits, pull request, verdict and ending, and every announced status an allowed transition or a repetition |
| RunHistory.DriveSays | backend/src/spidey/agents/graph/nodes.py:671-683 | the same over a whole drive |
| RunHistory.ReportedVerdict | backend/src/spidey/agents/application/report.py:50-66 | report and state agree on the tests exactly when no test phase's tool ever reported, or the last phase's tests ran and no debugging has started since |
| RunHistory.StaleVerdict | backend/src/spidey/agents/graph/nodes.py:407-419 | a phase after debugging whose tool reports nothing lets the run ship without a verdict while the report still says that tests failed |
| RunSystem.AlwaysOk | backend/src/spidey/agents/application/run_service.py:111-181 | the invariant of runs, approvals, executions and budgets holds after every interleaving of requests, deliveries, spurious deliveries and crashes |
| RunSystem.BeginOk | backend/src/spidey/workers/tasks/agent_run.py:49-57 | every live run can be driven, and its drive starts with every invariant in place |
| RunSystem.CrashOk | backend/src/spidey/workers/tasks/agent_run.py:139-166 | an exception at any node, or part way through a batch, leaves only granted executions, each approval spent once, and a well-positioned checkpoint |
| RunTheorems.GrantSafety | backend/src/spidey/agents/application/registry.py:91-123 | in every history each executed write or destructive call has an owner-approved record for its run and tool whose preview is that of the executed arguments, and no approval is spent twice |
| RunTheorems.TerminalAbsorbing | backend/src/spidey/agents/domain/runs.py:30-59 | a completed, failed or cancelled run keeps its status, position, state, commits, pull requests and report under every action |
| RunTheorems.RunBounds | backend/src/spidey/agents/graph/nodes.py:389-404 | in every history, failed runs included, the coder, gateway and window bounds hold, and a pull request or completion means the whole plan executed with tests not failing |
| RunTheorems.ReportIsTruthful | backend/src/spidey/agents/application/report.py:44-83 | every run's report lists commits that landed, in order, and no pull request but the one opened; unless a drive raised it lists all of them, its ending exactly, and its verdict exactly under the condition on test phases |
| RunTheorems.FailedReport | backend/src/spidey/workers/tasks/agent_run.py:139-166 | a run fails exactly when a drive of it raises, and whatever happens later its report is the one from before, exact for commits, or for the pull request, exactly when that drive added none |
| RunTheorems.ApprovedPlanIsExecuted | backend/src/spidey/agents/graph/nodes.py:160-180 | the drive past the plan gate executes exactly the stored plan, human edits included, to which only debugging appends |
| RunRequests.TransitionsBackwards | backend/src/spidey/agents/domain/runs.py:30-59 | which statuses may be entered from which; the terminal ones are those nothing leaves |
| RunRequests.CreateQueues | backend/src/spidey/agents/application/run_service.py:49-80 | a created run is pending with nothing charged, planned or landed, and waits in the queue once |
| RunRequests.EditIsGranted | backend/src/spidey/agents/application/run_service.py:92-109 | exactly the owner's plans of one to fifty steps before execution are stored, as submitted and one version on, with the reason of every refusal |
| RunRequests.CancelIsGranted | backend/src/spidey/agents/application/run_service.py:111-115 | the owner may cancel exactly the runs that have not finished |
| RunRequests.ResumeIsGranted | backend/src/spidey/agents/application/run_service.py:117-125 | exactly the owner's parked runs with no undecided approval are set running, and queued once |
| RunRequests.ResolveIsGranted | backend/src/spidey/agents/application/run_service.py:131-162 | each approval of the run is decided once and by its owner; a rejection cancels, the last approval sets the run going and queues it, any other is only recorded; exactly these are accepted |
| RunRequests.RaisedDriveRollsBack | backend/src/spidey/workers/tasks/agent_run.py:139-166 | a drive that raises keeps plan, budget, events and approvals from before and adds the failure; checkpoint, branch, provider and executed mutations stay advanced |
| RunRequests.RaisedNodeLeaves | backend/src/spidey/workers/tasks/agent_run.py:139-166 | a node that raises leaves nothing of its own but, part way through a batch, exactly the mutations that had run |
| RunRequests.SubmittedPlanIsExecuted | backend/src/spidey/agents/application/run_service.py:92-125 | after an accepted edit and the resume of the plan gate, the drive works on exactly the submitted steps |
| RunReviews.CommitsAreReviewed | backend/src/spidey/agents/graph/nodes.py:298-394 | in every history each announced commit follows a review of that step, with no edit in between |
| RunReviews.RejectedIsCommittedIff | backend/src/spidey/agents/graph/nodes.py:570-574 | a rejected diff goes on to its commit exactly in the last round or when the reply was blank |
| RunReviews.BlankReviewCommits | backend/src/spidey/agents/graph/nodes.py:330-343 | a blank first review is announced as not approved, and the next superstep lands the diff |
| RunTheorems.ConformingHistories | backend/src/spidey/agents/domain/runs.py:30-59 | with deliveries processed only while pending or running, every stored status change is allowed or a repetition, and every executed batch was approved as a whole |
| RunGates.ServiceDeliveriesConform | backend/src/spidey/agents/application/run_service.py:183-185 | deliveries that come only from the service always find the run pending, running or finished |
| RunGates.GatesAreAnswered | backend/src/spidey/agents/application/run_service.py:117-162 | where deliveries come only from the service, a run about to pass the plan gate or the budget gate was resumed by its owner from that very pause, and one about to pass an edit gate has every approval of the batch granted by its owner |
| RunGates.PrGateNeedsRedelivery | backend/src/spidey/agents/graph/nodes.py:498-508 | with delivery configured and no spurious delivery, no run with a workspace ever opens a pull request or completes |
| RunGates.GateCannotBeResumed | backend/src/spidey/agents/application/run_service.py:117-125 | there a live run at the pull-request gate is stored as running, has no message queued, and resuming it is refused to everyone |
| RunGates.DriveAtGateDelivers | backend/src/spidey/agents/graph/nodes.py:498-559 | a drive that starts at the gate completes the run and opens its pull request whenever delivery is configured, the run has a branch and the provider answers |
| RunGates.DeliversIffAtGate | backend/src/spidey/agents/graph/nodes.py:498-527 | in every history a drive of a live run with a workspace opens a pull request or completes exactly when it starts at the gate |
| RunWitness.GateIsReached | backend/src/spidey/agents/graph/build.py:42-78 | a history of four actions without spurious deliveries puts a run at the gate, live and beyond resuming |
| RunWitness.GateDelivers | backend/src/spidey/execution/application/tester.py:101-108 | one spurious delivery there opens its pull request and completes it without a verdict, and its report says that tests failed |
| RunWitness.ReportMissesACommit | backend/src/spidey/workers/tasks/agent_run.py:139-166 | a history of six actions leaves a failed run with a commit on its branch that its report does not list |
| RunWorker.GraphRun.Plan | backend/src/spidey/agents/graph/nodes.py:127-158 | the in-place planner produces exactly the specified row, events and saved plan |
| RunWorker.GraphRun.Approve | backend/src/spidey/agents/graph/nodes.py:160-180 | resuming the plan gate loads the stored plan and announces running |
| RunWorker.GraphRun.Coder | backend/src/spidey/agents/graph/nodes.py:195-253 | the coder's loops, budget charge and parking produce exactly the specified world |
| RunWorker.GraphRun.ApplyEdits | backend/src/spidey/agents/graph/nodes.py:268-295 | the batch loop executes each proposal through the registry as specified |
| RunWorker.GraphRun.Reviewer | backend/src/spidey/agents/graph/nodes.py:298-343 | the review loop's state, charge and critique are as specified |
| RunWorker.GraphRun.Commit | backend/src/spidey/agents/graph/nodes.py:345-394 | commit, step advance and the budget pause are as specified |
| RunWorker.GraphRun.BudgetGate | backend/src/spidey/agents/graph/nodes.py:396-405 | a granted window resets the charged steps and sets the run running |
| RunWorker.GraphRun.Test | backend/src/spidey/agents/graph/nodes.py:407-419 | the test phase records the verdict the tool reported, if any |
| RunWorker.GraphRun.Debug | backend/src/spidey/agents/graph/nodes.py:421-468 | a debug round appends one plan step and counts itself |
| RunWorker.GraphRun.Document | backend/src/spidey/agents/graph/nodes.py:470-496 | the documentation phase touches nothing the report reads |
| RunWorker.GraphRun.OpenPr | backend/src/spidey/agents/graph/nodes.py:510-527 | an opened pull request is recorded and announced |
| RunWorker.GraphRun.Escalate | backend/src/spidey/agents/graph/nodes.py:529-543 | escalation announces that a human is needed and ends the graph |
| RunWorker.GraphRun.Finalize | backend/src/spidey/agents/graph/nodes.py:545-559 | finalisation announces completion and the closing report |
| RunWorker.GraphRun.DriveToPause | backend/src/spidey/workers/tasks/agent_run.py:113-139 | the worker's start-or-resume decision and node loop end in exactly the specified drive |
| RunWorker.GraphRun.DriveToCrash | backend/src/spidey/workers/tasks/agent_run.py:113-145 | a drive cut off by an exception, also part way through a batch, leaves exactly the specified world |
| RunWorker.GraphRun.constructor | backend/src/spidey/workers/tasks/agent_run.py:49-57 | a session starts from the loaded row and the shared stores |
| RunServiceImpl.RunService.EditPlan | backend/src/spidey/agents/application/run_service.py:92-109 | an edit is the specified change of one run, or nothing and a refusal; every stored run stays in order |
| RunServiceImpl.RunService.Cancel | backend/src/spidey/agents/application/run_service.py:111-115 | a cancellation is the specified change, or nothing and a refusal; every stored run stays in order |
| RunServiceImpl.RunService.Resume | backend/src/spidey/agents/application/run_service.py:117-125 | a resume is the specified change with one queued delivery, or nothing and a refusal; every stored run stays in order |
| RunServiceImpl.RunService.ResolveApproval | backend/src/spidey/agents/application/run_service.py:131-162 | a decision, with the transition it causes, happens as a whole or not at all; every stored run stays in order |
| RunServiceImpl.RunService.WorkOn | backend/src/spidey/workers/tasks/agent_run.py:49-166 | a delivery is skipped for a missing or finished run, and otherwise drives it and commits once, or, when the drive raises, rolls back and marks it failed; every stored run stays in order |
| RunServiceImpl.RunService.Safe | backend/src/spidey/agents/application/registry.py:91-123 | whatever requests and deliveries the object has served, every executed mutation was granted by its run's owner |
| Chunker.FirstDefinitionIsLeast | backend/src/spidey/codeintel/infrastructure/parser.py:144-155 | the stack search returns a nested definition that starts no later than any other |
| Chunker.FirstDefinitionChild | backend/src/spidey/codeintel/infrastructure/parser.py:144-155 | the explicit stack loop computes that search |
| Chunker.ChunksAreApart | backend/src/spidey/codeintel/infrastructure/parser.py:168-202 | for every well-nested tree, chunks are pairwise disjoint and in order, behind a module chunk that ends where the first definition begins |
| Chunker.ChunksAreDisjoint | backend/src/spidey/codeintel/infrastructure/parser.py:275-326 | where definitions are non-empty and start before those inside them, chunks are non-empty with distinct first bytes |
| Chunker.CoveredIff | backend/src/spidey/codeintel/infrastructure/parser.py:168-202 | a byte is in a chunk exactly when it comes before the first emitted definition, or in an emitted definition before the first definition nested in it |
| Chunker.ChunksSpan | backend/src/spidey/codeintel/infrastructure/parser.py:168-202 | for every well-nested tree the chunks are, in order and with their lines, the module's up to the first emitted definition and one for each emitted definition up to where its first nested definition takes over |
| Chunker.ChunksMatchSymbols | backend/src/spidey/codeintel/infrastructure/parser.py:275-326 | one chunk per definition symbol, in order, inside that symbol's span |
| Chunker.ReferencesHaveScopes | backend/src/spidey/codeintel/infrastructure/parser.py:204-273 | every reference comes from the module or from a definition symbol of the same file |
| TreeOccurrences.ReferencesAreCounted | backend/src/spidey/codeintel/infrastructure/parser.py:189-273 | each call, base and import reference occurs exactly as often as nodes within the depth cut and under no import stand for it, in the scope its enclosing named definitions spell |
| TreeOccurrences.SymbolsAreCounted | backend/src/spidey/codeintel/infrastructure/parser.py:275-326 | each symbol occurs exactly as often as reached named definitions or imports declare it, under its dotted name; a function inside a container is a method |
| Chunker.Extractor.EmitDefinition | backend/src/spidey/codeintel/infrastructure/parser.py:275-326 | emitting a definition appends its symbol, bases and chunk and then everything the walk of its body specifies |
| Chunker.Extractor.WalkNode | backend/src/spidey/codeintel/infrastructure/parser.py:189-202 | the recursive walk with its depth cut appends exactly the specified output |
| Chunker.Extractor.Run | backend/src/spidey/codeintel/infrastructure/parser.py:168-187 | the whole extraction, preamble and sort included, is the specified one |
| Indexer.PassKeepsIncluded | backend/src/spidey/codeintel/application/indexer.py:79-142 | whatever the manifest's hashes, and with unreadable files, no vector after a pass contradicts the stored row of its path |
| Indexer.PassesIncluded | backend/src/spidey/codeintel/application/indexer.py:182-184 | so too over any passes |
| Indexer.WantedPaths | backend/src/spidey/codeintel/application/indexer.py:145-153 | a pass wants exactly the manifest's paths in a known language, under the hash of their last entry |
| Indexer.PassStoresParses | backend/src/spidey/codeintel/application/indexer.py:155-204 | after a pass the row of every stale readable path holds exactly the symbols, references and screened chunks its bytes parse to, or nothing when they do not parse; every other row is as before |
| Indexer.PassKeepsWanted | backend/src/spidey/codeintel/application/indexer.py:79-111 | the rows left are exactly those of wanted paths that had one or could be read |
| Indexer.RowsHoldParses | backend/src/spidey/codeintel/application/indexer.py:155-204 | after any passes every row holds exactly what bytes that some pass read under its hash parse to |
| Indexer.LastChunkIsKept | backend/src/spidey/codeintel/application/indexer.py:212-242 | the point of a first byte holds the last chunk that starts there, with its language and text |
| Indexer.SyncedIsUnique | backend/src/spidey/codeintel/application/indexer.py:79-142 | an index in step with given bytes, paths and hashes is completely determined by them |
| Indexer.PassEqualsFreshIff | backend/src/spidey/codeintel/application/indexer.py:79-142 | a pass over readable files from an index in step with the bytes it was built from equals one from nothing exactly when every path it keeps has on disk bytes that parse alike; nothing is assumed of hashes |
| Indexer.IncrementalEqualsFreshIff | backend/src/spidey/codeintel/application/indexer.py:79-142 | the same after any passes over arbitrary manifests with readable files |
| Indexer.IncrementalEqualsFresh | backend/src/spidey/codeintel/application/indexer.py:79-142 | so where every manifest has collision-free hashes of the bytes its pass reads, store and vectors always equal one pass from nothing |
| Indexer.StaleBytesStay | backend/src/spidey/api/v1/workspaces.py:336-350 | an index of edited files stays as it is when indexed again under the same manifest after the files were put back, and is wrong exactly where they do not parse alike |
| Indexer.VectorsAreStoredChunks | backend/src/spidey/codeintel/application/indexer.py:212-242 | every vector is a stored chunk of its own path at its own first byte |
| Indexer.CrashesAreInvisible | backend/src/spidey/workers/tasks/indexing.py:48-60 | any number of crashes and then one pass over the same manifest and contents give the result of the uninterrupted pass |
| Indexer.CrashMidUpsert | backend/src/spidey/codeintel/application/indexer.py:90-118 | clearing and upserting any part of the changed files is among the remainders a crash may leave |
| Indexer.CrashThenOtherManifest | backend/src/spidey/codeintel/application/indexer.py:90-118 | after a crash, a pass over another manifest is right exactly when the crash left the paths it does not touch alone |
| Indexer.RevertAfterCrashKeepsGhost | backend/src/spidey/codeintel/application/indexer.py:90-118 | a crash on new content followed by a pass over the reverted file keeps the new content's vectors, which contradict the store where its row has no such chunk |
| Indexer.RevertAfterCrashLosesPoint | backend/src/spidey/codeintel/application/indexer.py:90-118 | and the reverted row's own vectors that the crash cleared stay missing, so that no bytes are in step with the store |
| Indexer.UnchangedPass | backend/src/spidey/codeintel/application/indexer.py:90-100 | a pass that finds every hash as stored writes nothing |
| IndexServiceImpl.IndexService.Reindex | backend/src/spidey/codeintel/application/indexer.py:79-136 | the diff, removals, clearing, indexing loop and rebuild from the reads of the new store change store, vectors and graph exactly as the specified pass |
| IndexServiceImpl.IndexService.IndexFile | backend/src/spidey/codeintel/application/indexer.py:155-204 | one file's row and points are written as specified; an unreadable file keeps its row |
| IndexServiceImpl.GraphFollowsStore | backend/src/spidey/codeintel/application/indexer.py:112-142 | over every history of passes and crashes the graph is the one built from some listing of the current store |
| IndexServiceImpl.GraphsAgree | backend/src/spidey/codeintel/application/graph_builder.py:49-172 | two graphs of one store have the same node keys and edges from modules to definitions; where no name is tied the same nodes, and where no cut is tied the same edge keys |
| IndexServiceImpl.IncrementalGraphAgrees | backend/src/spidey/codeintel/application/indexer.py:112-142 | so a pass that brings store and vectors to those of one from nothing leaves a graph that agrees with the graph from nothing |
| IndexGraph.ListingExists | backend/src/spidey/codeintel/infrastructure/store.py:205-223 | every store has a listing: its symbols by path and first line, its references in some order |
| IndexGraph.SameNodeKeys | backend/src/spidey/codeintel/application/graph_builder.py:60-98 | which keys have nodes does not depend on the listing |
| IndexGraph.NodeDeterminedIff | backend/src/spidey/codeintel/application/graph_builder.py:67-98 | every listing gives a name the same node exactly when its definitions on its first line look the same |
| IndexEdges.TargetsDeterminedIff | backend/src/spidey/codeintel/application/graph_builder.py:146-160 | where no name is tied, a reference resolves to the same nodes in every listing exactly when it has at most eight candidates or the eighth and ninth are not on one line |
| IndexEdges.SameEdgeKeys | backend/src/spidey/codeintel/application/graph_builder.py:49-57 | where no name and no cut is tied, every listing gives the same edge keys |
| IndexEdges.DefinesEdgeIsDetermined | backend/src/spidey/codeintel/application/graph_builder.py:101-120 | every listing gives the same edges from modules to definitions, lines included |
| IndexEdges.RefEdgeDeterminedIff | backend/src/spidey/codeintel/application/graph_builder.py:163-172 | where no name and no cut is tied, an edge is in every listing's graph exactly when all references that yield its key are on its line |
| IndexEdges.EdgeLineIsNotDetermined | backend/src/spidey/codeintel/infrastructure/store.py:214-232 | two orders of the same two calls give the one edge two lines |
| CodePipeline.EveryChunkHasItsOwnVector | backend/src/spidey/codeintel/application/indexer.py:212-242 | a file parsed from a well-formed tree gets exactly one vector per chunk, each with that chunk's slice of the source |
| CodePipeline.StoredReferencesReachTheGraph | backend/src/spidey/codeintel/application/graph_builder.py:123-143 | in a store filled by the parser, every resolved target of every reference of a file with a symbol is joined to its scope in the graph |
| CodePipeline.IndexedChunksHaveVectors | backend/src/spidey/codeintel/application/indexer.py:155-242 | after a pass over a file with a well-formed tree its vectors are exactly one per extracted chunk, with that chunk screened and its slice of the bytes on disk |
| CodePipeline.RowsComeFromTrees | backend/src/spidey/codeintel/application/indexer.py:192-200 | with a parser that extracts from trees, every row of any passes is some tree's extraction |
| CodePipeline.IndexedReferencesReachTheGraph | backend/src/spidey/codeintel/application/indexer.py:112-142 | so after any passes every resolved target of every stored reference of a file with a symbol is joined to its scope in the graph |
| GraphBuilder.TargetsLaws | backend/src/spidey/codeintel/application/graph_builder.py:146-160 | a reference resolves to at most eight nodes of its name and kind, never to itself, and only to same-file ones when any exist |
| GraphBuilder.GraphIsWellFormed | backend/src/spidey/codeintel/application/graph_builder.py:49-172 | node keys are distinct, edges are distinct on endpoints and kind, every endpoint is a node, and no reference edge loops |
| GraphLaws.NodesAre | backend/src/spidey/codeintel/application/graph_builder.py:60-98 | every node is a file's module, named by the file's stem, or the first definition of its path and name, with that definition's name, kind and line |
| GraphLaws.TargetsAre | backend/src/spidey/codeintel/application/graph_builder.py:146-160 | a reference resolves to exactly the nodes of its name and an allowed kind, in its own file when any there fits, other than its scope, with fewer than eight such before them |
| GraphLaws.EdgesAre | backend/src/spidey/codeintel/application/graph_builder.py:101-143 | every edge leads from a module to a definition of its file on that line, or from a reference's scope to one of its targets on the reference's line; and each of these has its edge |
| GraphBuilder.ReferencesAreKept | backend/src/spidey/codeintel/application/graph_builder.py:123-143 | no reference with a scope in its file is dropped for want of a source node |
| GraphBuilder.DefinitionsAreDefined | backend/src/spidey/codeintel/application/graph_builder.py:101-120 | every definition is reached from its module by a defines edge |
| GraphBuilder.Build | backend/src/spidey/codeintel/application/graph_builder.py:49-172 | the loops over symbols and references build exactly the specified graph |
| GraphBuilder.GraphTables.Rebuild | backend/src/spidey/codeintel/infrastructure/graph_store.py:162-215 | rebuilding replaces both tables and loses no node and no edge of a well-formed graph |
| GraphTraversal.ShallowestIsDistance | backend/src/spidey/codeintel/infrastructure/graph_store.py:45-69 | the kept row of a node is at its shortest-path distance, with a stored edge from a predecessor one hop nearer |
| GraphTraversal.TableNodes | backend/src/spidey/codeintel/infrastructure/graph_store.py:45-155 | the recursive table has a row for exactly the nodes within reach |
| GraphTraversal.Run | backend/src/spidey/codeintel/infrastructure/graph_store.py:276-296 | a query answers in order with one faithful row for every reached node, complete up to where the row limit cuts |
| GraphTraversal.WantedIffWalk | backend/src/spidey/codeintel/infrastructure/graph_store.py:45-155 | a query finds exactly the nodes a walk of at most `depth` stored edges reaches: calls forwards for callees, backwards for callers, calls and inheritance backwards for impact, any edge either way for the neighbourhood |
| GraphTraversal.RowIsStoredEdge | backend/src/spidey/codeintel/infrastructure/graph_store.py:45-155 | an answer row is one stored edge between its node and the one before it, in the query's direction and with its kind, line and orientation, and both are as far as their shortest walks |
| GraphTraversal.EdgeIsWalked | backend/src/spidey/codeintel/infrastructure/graph_store.py:45-64 | every stored edge at the seed that the query walks makes its other end an answer, at any depth |
| GraphTraversal.WantedIsBelow | backend/src/spidey/codeintel/infrastructure/graph_store.py:45-155 | every reachable node is an endpoint of a stored edge, so an answer below the row limit misses none |
| GraphTraversal.DistancesAreDual | backend/src/spidey/codeintel/infrastructure/graph_store.py:45-98 | callers and callees are dual at every distance, and neighbourhood is symmetric |
| GraphTraversal.ImpactContainsCallers | backend/src/spidey/codeintel/infrastructure/graph_store.py:99-125 | every caller is in the impact set at no greater distance |
| GraphTraversal.NoSelfLoopNoSeed | backend/src/spidey/codeintel/infrastructure/graph_store.py:45-155 | without self-loops no query answers with its own seed |
| EventPlane.RunsKeepOk | backend/src/spidey/platform/events/relay.py:36-66 | under any interleaving of commits, relays, pumps and crashes: relayed implies published, published implies committed, acknowledged implies persisted, one log row per identifier equal to its committed envelope |
| EventPlane.QuiescentLogIsTheCommittedEvents | backend/src/spidey/platform/events/consumers.py:63-97 | when nothing is unrelayed, undelivered or pending, the log is exactly the set of committed events |
| EventDelivery.StuckForever | backend/src/spidey/platform/events/streams.py:58-68 | a relayed event whose entries were all delivered to pumps that ended early stays out of the log in every continuation |
| EventDelivery.LoggableUnlessStuck | backend/src/spidey/platform/events/streams.py:58-68 | a committed event can still be logged in some continuation exactly when it is not stuck |
| EventDelivery.AnInterruptedPumpLosesAnEvent | backend/src/spidey/platform/events/consumers.py:63-76 | from an empty plane, one pump ending between read and commit leaves a relayed event that can never be logged |
| EventDelivery.ClaimOf | backend/src/spidey/platform/events/relay.py:52-61 | the claim is the oldest unrelayed, unlocked rows, at most one batch, leaving nothing older behind |
| EventDelivery.ClaimIsFull | backend/src/spidey/platform/events/relay.py:52-61 | it takes 128 rows, or all there are to take |
| EventDelivery.DrainedLeads | backend/src/spidey/platform/events/relay.py:36-50 | a whole drain is a run of the plane that publishes its claim in order and marks all of it |
| EventDelivery.DrainCutLeads | backend/src/spidey/platform/events/relay.py:38-47 | a drain cut off anywhere is a run of the plane that publishes a prefix of its claim and marks nothing |
| EventDelivery.StreamsGetTheirEvents | backend/src/spidey/platform/events/relay.py:36-50 | a drain appends its events in order to the firehose and each run's to its stream, once; cut off, a prefix, of which at most the last misses its run's stream |
| EventWorkers.Services.Drain | backend/src/spidey/platform/events/relay.py:36-50 | the relay loop publishes and marks its claim as specified, for every point at which its process may end |
| EventWorkers.Services.Pump | backend/src/spidey/platform/events/consumers.py:63-76 | the persister's read, insert, commit and acknowledge loops act as specified, for every point at which the process may end |
| TokenBucket.BalanceInRange | backend/src/spidey/identity/infrastructure/redis_guard.py:20-34 | the balance stays between zero and the capacity |
| TokenBucket.AllowedUnlessSomeWindowIsFull | backend/src/spidey/identity/infrastructure/redis_guard.py:27-30 | a request is allowed exactly when no window ending in it would exceed capacity plus refill over its length |
| TokenBucket.WindowBound | backend/src/spidey/identity/infrastructure/redis_guard.py:20-34 | the requests allowed in any window are at most capacity plus refill over its length |
| TokenBucket.ExpiryIsUnobservable | backend/src/spidey/identity/infrastructure/redis_guard.py:43-44 | a key that expired by its time to live is found as full as the bucket it held would be |
| TokenBucket.LimitIsValid | backend/src/spidey/identity/infrastructure/redis_guard.py:43-44 | the computed time to live keeps an idle key until an empty bucket would be full |
| TokenBucket.TtlIsFillAndAMinute | backend/src/spidey/identity/infrastructure/redis_guard.py:43-44 | it is the time that fills an empty bucket, in whole milliseconds, and a minute more |
| TokenBucket.RequestSpends | backend/src/spidey/identity/infrastructure/redis_guard.py:20-34 | a request finds its bucket refilled up to the capacity, full when its key has expired, and takes a token exactly when there is a whole one |
| TokenBucket.EarnedIsProduct | backend/src/spidey/identity/infrastructure/redis_guard.py:28 | what is earned between two requests is the elapsed seconds times the refill rate |
| TokenBucket.RateLimiter.Acquire | backend/src/spidey/identity/infrastructure/redis_guard.py:42-56 | one script run updates one key as specified and no other |
| TokenBucket.RateLimiter.AcquireAll | backend/src/spidey/identity/infrastructure/redis_guard.py:42-56 | the answers to a sequence of requests are those the bound is proved of |
| Lockout.GuessBound | backend/src/spidey/identity/infrastructure/redis_guard.py:69-79 | between two successful logins at most threshold passwords are looked at in any stretch shorter than the lock |
| Lockout.LocksAtThreshold | backend/src/spidey/identity/infrastructure/redis_guard.py:69-79 | a streak of wrong passwords locks the account at the threshold and not before, for the full lock from the last of them |
| Lockout.StreakLapses | backend/src/spidey/identity/infrastructure/redis_guard.py:69-79 | a lapsed streak counts no more: the next wrong password is the first of a new one |
| Lockout.LockoutStore.RegisterFailure | backend/src/spidey/identity/infrastructure/redis_guard.py:69-79 | a failure counts on from a live streak, and locks and clears it at the threshold |
| RefreshTokens.OneOwnerOneLiveToken | backend/src/spidey/identity/application/auth_service.py:161-210 | over every history a token family has one owner and at most one token neither consumed nor revoked |
| RefreshTokens.ReuseEndsTheFamily | backend/src/spidey/identity/application/auth_service.py:174-193 | once an inactive token is presented the request is refused and no token of its family is active or refreshes again, in any continuation (section 4.14.2 of RFC 9700) |
| RefreshTokens.TokensAreSingleUse | backend/src/spidey/identity/infrastructure/repositories.py:131-136 | a token that refreshed once is refused ever after, and presenting it again ends its family |
| RefreshTokens.RefusedRequestsRollBack | backend/src/spidey/identity/infrastructure/security_sink.py:48-52 | a request that raises changes the database exactly when it presented a known inactive token of a family with something left to revoke |
| RefreshTokens.RefusedIffInactive | backend/src/spidey/identity/application/auth_service.py:161-210 | by the service's own requests a refresh is refused exactly for a token that is unknown or not active |
| RefreshTokens.DeactivatedFamilySurvives | backend/src/spidey/identity/application/auth_service.py:195-198 | where someone deactivated the owner's row, the refused refresh changes nothing, and the same token works once the owner is active again |
| RefreshTokens.DeactivationIsSurvived | backend/src/spidey/identity/application/auth_service.py:195-198 | a history from an empty instance in which that happens |
| RefreshTokens.LogoutEndsOwnFamily | backend/src/spidey/identity/application/auth_service.py:214-232 | logging out ends exactly the presented token's family, and only for its owner |
| RefreshTokens.PasswordChangeEndsAllSessions | backend/src/spidey/identity/application/auth_service.py:236-260 | a password change ends every family of the user and of nobody else |
| RefreshTokens.LoginSucceedsIff | backend/src/spidey/identity/application/auth_service.py:125-157 | an admitted login succeeds exactly with the password on record of an active user, and adds one live token of that user in a family no token has; a refused one leaves a denial and nothing else |
| RefreshTokens.LatestPasswordLogsIn | backend/src/spidey/identity/application/auth_service.py:125-145 | in every history an admitted login succeeds exactly for an active account with the password it was created with or last changed to |
| RefreshTokens.AccountRequestsAreAccepted | backend/src/spidey/identity/application/auth_service.py:236-260 | in every history a password change needs the current password and an acceptable new one; accounts are created, edited and deleted exactly as they are on record |
| RefreshTokens.RefreshRotates | backend/src/spidey/identity/application/auth_service.py:161-210 | a refresh succeeds exactly for an active token of an active user; it consumes that token, adds one live successor of the same user and family, and changes no other |
| RefreshTokens.DeletionTakesSessions | backend/src/spidey/identity/application/user_service.py:63-77 | deleting a user takes exactly that user's tokens along |
| RefreshTokens.AuthService.Login | backend/src/spidey/identity/application/auth_service.py:90-157 | a login is the specified step: refused with evidence, or a new family with one token |
| RefreshTokens.AuthService.Refresh | backend/src/spidey/identity/application/auth_service.py:161-210 | a refresh is the specified step, with the sink's revocation kept and the request's rolled back |
| RefreshTokens.AuthService.ChangePassword | backend/src/spidey/identity/application/auth_service.py:236-260 | a password change is the specified step |
| Reranking.RerankedIsSortedPermutation | backend/src/spidey/codeintel/domain/reranking.py:59-72 | the result is a permutation sorted by a score in [0, 1], ties in candidate order |
| Reranking.OrderIsUnique | backend/src/spidey/codeintel/domain/reranking.py:71 | there is only one such order |
| Reranking.DominanceIsKept | backend/src/spidey/codeintel/domain/reranking.py:64-71 | no hit falls below a later one that it matches or beats on both signals |
| Reranking.ZeroBlendKeepsSortedInput | backend/src/spidey/codeintel/domain/reranking.py:59-71 | without reranker weight, candidates sorted by score stay where they are |
| Reranking.FullBlendFollowsReranker | backend/src/spidey/codeintel/domain/reranking.py:59-71 | with all weight on the reranker its scores alone decide the order, ties in candidate order |
| Reranking.ZeroBlendFollowsFirstStage | backend/src/spidey/codeintel/domain/reranking.py:59-71 | with none, the first stage's scores alone decide |
| Reranking.BlendInterpolates | backend/src/spidey/codeintel/domain/reranking.py:59-67 | in between, each fused score lies as far from the one end to the other as the blend says |
| Reranking.NormalizedIsProportional | backend/src/spidey/codeintel/domain/reranking.py:28-37 | normalising sends the least value to 0 and the greatest to 1, keeps proportions, and makes equal values a half |
| Reranking.AffineInvariance | backend/src/spidey/codeintel/domain/reranking.py:28-37 | a positive affine rescaling of the reranker's scores changes nothing |
| Reranking.RerankHits | backend/src/spidey/codeintel/domain/reranking.py:40-72 | the loop and sort give the specified list, or the error for mismatched lengths |
| Compression.DensestLine | backend/src/spidey/codeintel/domain/compression.py:78-88 | the loop returns the first line with the most query terms |
| Compression.WindowIsCentred | backend/src/spidey/codeintel/domain/compression.py:58-75 | the window has as many lines on either side of its centre as the text has, and one cut at an end of the text reaches it |
| Compression.ProvenanceIsExact | backend/src/spidey/codeintel/domain/compression.py:58-75 | kept text splits into exactly the source lines its new start and end name, the last perhaps cut, inside a window of min(2c + 1, lines) lines around the densest one |
| Compression.CenterSurvivesIff | backend/src/spidey/codeintel/domain/compression.py:111-118 | the densest line is kept exactly when everything from the window's start through it fits the per-hit limit |
| Compression.WindowSurvivesIff | backend/src/spidey/codeintel/domain/compression.py:111-118 | the whole window is kept exactly when it fits the per-hit limit, the top hit's like any other |
| Compression.KeptWithinBudget | backend/src/spidey/codeintel/domain/compression.py:107-122 | the kept hits are non-empty when there are any and total at most max(char_budget, per_hit_max_chars) characters |
| Compression.KeptIsLongest | backend/src/spidey/codeintel/domain/compression.py:107-122 | the kept hits are the longest prefix within the budget, or the first hit alone |
| Compression.ResultIsDetermined | backend/src/spidey/codeintel/domain/compression.py:91-122 | what a compression returns is determined by its hits, query and policy |
| Compression.CompressHits | backend/src/spidey/codeintel/domain/compression.py:91-122 | the loop keeps the longest prefix of compressed hits that fits, always the first |
| Sse.FramesOfConcat | frontend/src/api/client.ts:137-143 | splitting what is left of one read together with the next gives what splitting both at once gives |
| Sse.FramesMakeUpText | frontend/src/api/client.ts:137-143 | frames and what is left make up the text again, and none of them holds an empty line |
| Sse.PayloadIsFirstData | frontend/src/api/client.ts:144-148 | a frame's payload is its first data line without field name and surrounding space; a frame without one has none |
| Sse.PrintedLines | backend/src/spidey/api/v1/runs.py:403-414 | a message is printed as its identifier line, its data line and an empty line; a keep-alive as a comment |
| Sse.CutsDoNotMatter | frontend/src/api/client.ts:137-154 | however a text is cut into reads, the same payloads come out |
| Sse.ClientUndoesServer | frontend/src/api/client.ts:137-154 | parsing what the server prints, keep-alives interleaved, gives back exactly the payloads in order with nothing left over (section 9.2 of the WHATWG HTML Standard) |
| Sse.ArrivesIffTrimmedLine | frontend/src/api/client.ts:144-148 | a message arrives as its data exactly when the data is one trimmed line |
| Sse.StreamRunEvents | frontend/src/api/client.ts:137-154 | the buffered read loop hands the JSON parser exactly the payloads of the whole text |
| SseCursor.ReadIsBetween | backend/src/spidey/platform/events/streams.py:39-47 | a read returns exactly the entries between the cursor and the last identifier read, and nothing only when there is nothing new; at most a hundred, and fewer only at the end of the stream |
| SseCursor.Events | backend/src/spidey/api/v1/runs.py:403-414 | the generator emits exactly the entries between its first and last cursor, in order, each once, with its data and under its own identifier |
| SseCursor.ResumingLosesNothing | backend/src/spidey/api/v1/runs.py:400-414 | two connections, the second resumed after the first's last identifier, deliver exactly the entries between the outer cursors |

## Left out

- Prompts, transcripts, documentation text, memory recall and distillation, model retries and caching: no property here depends on them.
- A process killed in the middle of a drive (as opposed to an exception): the checkpointer could then replay the last node; the checkpointer's internals and LangGraph's recursion limit are not modelled.
- Concurrent requests inside one transaction, such as a cancellation during a drive: one drive or request is one step.
- Resuming a graph that already ended: modelled as doing nothing.
- The 1000-event limit of the timeline the report is built from; events are folded in emission order.
- Cost accounting: the source never charges `cost_used`, so the cost limit never triggers.
- Role checks, JSON-schema validation, secret and injection detectors: arbitrary functions or inputs.
- Symbol-only index mode (no embedding pipeline) and an index without a graph store: fewer effects of the same pass.
- Derived identifiers collide nowhere, and hashes may except in Indexer.IncrementalEqualsFresh; parsing is a function of path and content, so timeouts that come and go are outside the model.
- Chunker.ChunksAreDisjoint: for trees with empty definitions, or ones that start where a definition inside them does, only Chunker.ChunksAreApart is stated, because their chunks are empty.
- GraphTraversal.Run: which of several equally short rows a node keeps is arbitrary, as in the query.
- Stream trimming by length, and entries filtered out because they were trimmed.
- The metrics projector, which counts redelivered facts again, and the log readers.
- TokenBucket.WindowBound: times that run backwards, which the script treats as no time passed and then as new refill, are excluded.
- Server errors of Redis: an unavailable store aborts the request.
- Password hashing, access tokens, audit rows of successful requests, and the timing guard against account enumeration.
- Reranking.RerankHits: floating-point rounding, and the rounding of the shown score to six digits.
- Unicode whitespace, line separators other than the newline, and case folding; text is a sequence of characters, and byte offsets index it.
- JSON parsing of a payload, and its failure, after the frame parser.
