/** Two whole histories: a run that reaches the pull-request gate, and a run that raises after a commit. */
module RunWitness {
  import opened Common
  import opened RunDomain
  import opened ToolRegistry
  import opened RunGraph
  import opened RunControl
  import opened RunGrants
  import opened RunHistory
  import opened RunSystem
  import opened RunTheorems
  import opened RunGates
  import Text

  const EDITOR := "fs.write"

  /** Git, delivery, a test tool and one tool that writes. */
  function Wiring(): Deps {
    Deps(true, true, Registry(map[TESTER_TOOL := ToolSpec(TESTER_TOOL, Read, Developer),
                                  EDITOR := ToolSpec(EDITOR, Write, Developer)], false))
  }

  /** A test tool that knows no framework of the workspace: tests did not run, and so did not pass. */
  const UNKNOWN_FRAMEWORK: TestOutcome := Reported(false, false)

  function ToolAnswer(): ToolReply { ToolReply(true, Success, UNKNOWN_FRAMEWORK) }

  /** The plan has one step; the model's first reply makes the given calls, later ones make none. */
  function Input(calls: seq<ToolCall>): NodeInput {
    NodeInput([], (round: nat) => ModelReply("", 0, if round == 0 then calls else []), (i: nat) => ToolAnswer(),
              Committed("sha"), "spidey/run", Some(PullRequest(1, "url")))
  }

  function Idle(): nat -> NodeInput { (k: nat) => Input([]) }

  function EditCall(): ToolCall { ToolCall(EDITOR, Arguments("{}", Some("a.py")), ToolAnswer()) }

  function Editing(): nat -> NodeInput { (k: nat) => Input([EditCall()]) }

  lemma ExecSnoc(d: Deps, history: seq<Action>, a: Action)
    ensures Exec(d, history + [a]) == Next(d, Exec(d, history), a)
  {
    assert (history + [a])[..|history|] == history;
  }

  /** A queued message is taken and its run driven. */
  lemma {:induction false} Delivers(d: Deps, history: seq<Action>, run: nat, env: nat -> NodeInput,
                                    crash: Option<Crash>)
    requires WorkerRegistry(d.registry) && run in Exec(d, history).queue
    ensures SystemOk(d, Taken(Exec(d, history), run))
    ensures Exec(d, history + [Deliver(run, env, crash)]) == Work(d, Taken(Exec(d, history), run), run, env, crash)
  {
    AlwaysOk(d, history);
    TakenOk(d, Exec(d, history), run);
    ExecSnoc(d, history, Deliver(run, env, crash));
  }

  // ---------------------------------------------------------------- the first drive

  /** One run of owner 0 with a workspace, with this one row, queued or not. */
  predicate One(s: System, r: Row, queued: bool) {
    s.runs == [r] && s.executed == [] && s.queue == (if queued then multiset{0} else multiset{})
  }

  const CREATE: Action := DoCreate(0, Some(0), 10, 10, 1.0)

  /** A row before its steps: the plan is stored and waits, or was let on. */
  predicate Waiting(r: Row, status: RunStatus) {
    && r.owner == 0 && r.workspace == Some(0) && r.status == status && r.at.AtApprove?
    && r.saved.Some? && |r.saved.value.steps| == 1
    && r.state.proposals == [] && r.state.applied == [] && r.state.debugRound == 0
    && r.commits == [] && r.prs == [] && r.phases == [] && ReportOf(r.events) == EMPTY_REPORT
  }

  lemma {:induction false} Planned(w: World, input: NodeInput)
    requires w.row == NewRow(0, Some(0), 10, 10, 1.0) && input.planText == []
    ensures Waiting(PlanNode(w, input).row, AwaitingApproval)
  {
    var steps := ParsePlan(input.planText);
    assert Text.Strip("", Text.IsSpace) == "";
    assert |steps| == 1;
    var e := [RunStarted];
    Snoc([], RunStarted);
    assert [] + [RunStarted] == e;
    Snoc(e, StatusChanged(Planning));
    Snoc(e + [StatusChanged(Planning)], PlanCreated(1, |steps|));
    Snoc(e + [StatusChanged(Planning)] + [PlanCreated(1, |steps|)], StatusChanged(AwaitingApproval));
  }

  lemma {:induction false} Created(d: Deps)
    ensures One(Exec(d, [CREATE]), NewRow(0, Some(0), 10, 10, 1.0), true)
  {
    assert [CREATE] == [] + [CREATE];
    ExecSnoc(d, [], CREATE);
  }

  lemma {:induction false} PlanDelivered(d: Deps, env: nat -> NodeInput)
    requires WorkerRegistry(d.registry) && env(0).planText == []
    ensures var s := Exec(d, [CREATE] + [Deliver(0, env, None)]);
            |s.runs| == 1 && One(s, s.runs[0], false) && s.approvals == [] && Waiting(s.runs[0], AwaitingApproval)
  {
    Created(d);
    Delivers(d, [CREATE], 0, env, None);
    var s0 := Taken(Exec(d, [CREATE]), 0);
    PlanDrive(d, WorldOf(s0, 0), env);
  }

  lemma {:induction false} PlanDrive(d: Deps, w: World, env: nat -> NodeInput)
    requires w.row == NewRow(0, Some(0), 10, 10, 1.0) && env(0).planText == []
    ensures Begin(w) == w && Drive(d, w, env, 0) == PlanNode(w, env(0))
    ensures Waiting(PlanNode(w, env(0)).row, AwaitingApproval)
  {
    DriveOnce(d, w, env, 0);
    Planned(w, env(0));
    var w1 := Step(d, w, env(0));
    assert w1 == PlanNode(w, env(0));
    DriveEnds(d, w1, env, 1);
  }

  /** The owner lets the plan pass. */
  function Started(env: nat -> NodeInput): seq<Action> { [CREATE] + [Deliver(0, env, None)] + [DoResume(0, 0)] }

  lemma {:induction false} PlanApproved(d: Deps, env: nat -> NodeInput)
    requires WorkerRegistry(d.registry) && env(0).planText == []
    ensures var s := Exec(d, Started(env));
            |s.runs| == 1 && One(s, s.runs[0], true) && s.approvals == [] && Waiting(s.runs[0], Running)
  {
    var before := [CREATE] + [Deliver(0, env, None)];
    PlanDelivered(d, env);
    ExecSnoc(d, before, DoResume(0, 0));
    Snoc(Exec(d, before).runs[0].events, StatusChanged(Running));
  }

  // ---------------------------------------------------------------- a run without changes reaches the gate

  /** A row on its way through a plan of one step, with nothing proposed or applied. */
  predicate OneStep(r: Row, at: Node, done: nat) {
    && r.workspace == Some(0) && r.at == at && r.status == Running
    && r.state.proposals == [] && r.state.applied == [] && |r.state.plan| == 1 && r.state.stepIndex == done
    && r.state.branch != "" && r.prs == []
  }

  lemma {:induction false} BranchOneStep(d: Deps, w: World, input: NodeInput)
    requires d.git && input.branch != "" && w.row.workspace == Some(0) && w.row.at.AtBranch? && w.row.status == Running
    requires w.row.state.proposals == [] && w.row.state.applied == [] && |w.row.state.plan| == 1
             && w.row.state.stepIndex == 0
    requires w.row.prs == []
    ensures OneStep(BranchNode(d, w, input).row, AtCoder, 0) && BranchNode(d, w, input).row.phases == w.row.phases
  {
  }

  lemma {:induction false} CoderOneStep(d: Deps, w: World, input: NodeInput)
    requires OneStep(w.row, AtCoder, 0) && input.replies(0).calls == []
    ensures OneStep(CoderNode(d, w, input).row, AtCommit, 0) && CoderNode(d, w, input).row.phases == w.row.phases
  {
    CoderRoundsStep(d, w, input, 0, 0);
  }

  lemma {:induction false} CommitOneStep(d: Deps, w: World, input: NodeInput)
    requires OneStep(w.row, AtCommit, 0)
    ensures OneStep(CommitNode(d, w, input).row, AtTest, 1) && CommitNode(d, w, input).row.phases == w.row.phases
  {
  }

  lemma {:induction false} TestOneStep(d: Deps, w: World, input: NodeInput)
    requires OneStep(w.row, AtTest, 1) && WorkerRegistry(d.registry) && TESTER_TOOL in d.registry.byName
    requires input.tools(0) == ToolAnswer()
    ensures OneStep(TestNode(d, w, input).row, AtDocument, 1)
    ensures TestNode(d, w, input).row.phases == w.row.phases + [UNKNOWN_FRAMEWORK]
  {
  }

  lemma {:induction false} DocumentOneStep(d: Deps, w: World, input: NodeInput)
    requires OneStep(w.row, AtDocument, 1) && d.pr
    ensures OneStep(DocumentNode(d, w, input).row, AtPrGate, 1) && DocumentNode(d, w, input).row.phases == w.row.phases
  {
  }

  /** The inputs of a run whose coder proposes nothing and whose tests do not run. */
  predicate NothingToDo(input: NodeInput) {
    input.branch != "" && input.replies(0).calls == [] && input.tools(0) == ToolAnswer()
  }

  lemma {:induction false} DriveToGate(d: Deps, w: World, env: nat -> NodeInput)
    requires WorkerRegistry(d.registry) && TESTER_TOOL in d.registry.byName && d.git && d.pr
    requires Control(w.row) && w.row.workspace == Some(0) && w.row.at.AtBranch? && w.row.status == Running
    requires w.row.state.proposals == [] && w.row.state.applied == [] && |w.row.state.plan| == 1
             && w.row.state.stepIndex == 0
    requires w.row.prs == [] && forall k :: NothingToDo(env(k))
    ensures var r := Drive(d, w, env, 0).row; OneStep(r, AtPrGate, 1) && r.phases == w.row.phases + [UNKNOWN_FRAMEWORK]
  {
    assert NothingToDo(env(0));
    DriveOnce(d, w, env, 0);
    BranchOneStep(d, w, env(0));
    DriveFromCoder(d, BranchNode(d, w, env(0)), env);
  }

  lemma {:induction false} DriveFromCoder(d: Deps, w: World, env: nat -> NodeInput)
    requires WorkerRegistry(d.registry) && TESTER_TOOL in d.registry.byName && d.pr
    requires Control(w.row) && OneStep(w.row, AtCoder, 0) && forall k :: NothingToDo(env(k))
    ensures var r := Drive(d, w, env, 1).row; OneStep(r, AtPrGate, 1) && r.phases == w.row.phases + [UNKNOWN_FRAMEWORK]
  {
    assert NothingToDo(env(1));
    DriveOnce(d, w, env, 1);
    CoderOneStep(d, w, env(1));
    var w1 := CoderNode(d, w, env(1));
    DriveOnce(d, w1, env, 2);
    CommitOneStep(d, w1, env(2));
    DriveFromTest(d, CommitNode(d, w1, env(2)), env);
  }

  lemma {:induction false} DriveFromTest(d: Deps, w: World, env: nat -> NodeInput)
    requires WorkerRegistry(d.registry) && TESTER_TOOL in d.registry.byName && d.pr
    requires Control(w.row) && OneStep(w.row, AtTest, 1) && forall k :: NothingToDo(env(k))
    ensures var r := Drive(d, w, env, 3).row; OneStep(r, AtPrGate, 1) && r.phases == w.row.phases + [UNKNOWN_FRAMEWORK]
  {
    assert NothingToDo(env(3));
    DriveOnce(d, w, env, 3);
    TestOneStep(d, w, env(3));
    var w1 := TestNode(d, w, env(3));
    DriveOnce(d, w1, env, 4);
    DocumentOneStep(d, w1, env(4));
    DriveEnds(d, DocumentNode(d, w1, env(4)), env, 5);
  }

  predicate AtTheGate(s: System) {
    |s.runs| == 1 && OneStep(s.runs[0], AtPrGate, 1) && s.runs[0].phases == [UNKNOWN_FRAMEWORK]
  }

  lemma {:induction false} WorkToGate(d: Deps, s: System, env: nat -> NodeInput)
    requires WorkerRegistry(d.registry) && TESTER_TOOL in d.registry.byName && d.git && d.pr && SystemOk(d, s)
    requires |s.runs| == 1 && Waiting(s.runs[0], Running) && forall k :: NothingToDo(env(k))
    ensures AtTheGate(Work(d, s, 0, env, None))
  {
    BeginOk(d, s, 0);
    var w := Begin(WorldOf(s, 0));
    DriveToGate(d, w, env);
  }

  function ToTheGate(env: nat -> NodeInput): seq<Action> { Started(env) + [Deliver(0, env, None)] }

  lemma {:induction false} GateHistory(d: Deps, env: nat -> NodeInput)
    requires WorkerRegistry(d.registry) && TESTER_TOOL in d.registry.byName && d.git && d.pr
    requires env(0).planText == [] && forall k :: NothingToDo(env(k))
    ensures AtTheGate(Exec(d, ToTheGate(env)))
  {
    PlanApproved(d, env);
    Delivers(d, Started(env), 0, env, None);
    WorkToGate(d, Taken(Exec(d, Started(env)), 0), env);
  }

  /** The gate is reached: a live run of its own deliveries alone, stored as running, that nobody can resume. */
  lemma {:induction false} GateIsReached(actor: nat)
    ensures WorkerRegistry(Wiring().registry) && Wiring().pr && ServiceOnly(ToTheGate(Idle()))
    ensures var s := Exec(Wiring(), ToTheGate(Idle()));
            && |s.runs| == 1 && s.runs[0].workspace.Some? && s.runs[0].at.AtPrGate? && s.runs[0].state.branch != ""
            && s.runs[0].status == Running && 0 !in s.queue && Resume(s, actor, 0).Err?
  {
    var d := Wiring();
    GateHistory(d, Idle());
    GateCannotBeResumed(d, ToTheGate(Idle()), 0, actor);
  }

  /** The run opened its pull request and completed without a verdict, and its report says that tests failed. */
  predicate ShippedUntested(r: Row, url: string) {
    && r.status == Completed && r.prs == [url]
    && r.state.testsPassed == None && ReportOf(r.events).testsPassed == Some(false)
  }

  predicate Shipped(s: System, url: string) { |s.runs| == 1 && ShippedUntested(s.runs[0], url) }

  /**
   * One spurious delivery there opens the pull request and completes the run, and the report of the finished
   * run says its tests failed, when no tests ran: the run itself has no verdict.
   */
  lemma {:induction false} GateDelivers()
    ensures Shipped(Exec(Wiring(), ToTheGate(Idle()) + [Redeliver(0, Idle(), None)]), "url")
  {
    GateDelivery(Wiring(), Idle());
  }

  lemma {:induction false} GateDelivery(d: Deps, env: nat -> NodeInput)
    requires WorkerRegistry(d.registry) && TESTER_TOOL in d.registry.byName && d.git && d.pr
    requires env(0).planText == [] && forall k :: NothingToDo(env(k)) && env(0).pull == Some(PullRequest(1, "url"))
    ensures Shipped(Exec(d, ToTheGate(env) + [Redeliver(0, env, None)]), "url")
  {
    GateHistory(d, env);
    AlwaysOk(d, ToTheGate(env));
    ExecSnoc(d, ToTheGate(env), Redeliver(0, env, None));
    FinishAtGate(d, Exec(d, ToTheGate(env)), env);
  }

  lemma {:induction false} FinishAtGate(d: Deps, s: System, env: nat -> NodeInput)
    requires WorkerRegistry(d.registry) && d.pr && SystemOk(d, s) && AtTheGate(s) && env(0).pull.Some?
    ensures Shipped(Work(d, s, 0, env, None), env(0).pull.value.url)
  {
    DriveAtGateDelivers(d, s, 0, env);
    BeginOk(d, s, 0);
    var w := PassGate(WorldOf(s, 0));
    DriveTwice(d, w, env);
    DriveSays(d, w, env, 0);
    UnknownFramework(Drive(d, w, env, 0).row);
  }

  /** A run at its end whose only test phase knew no framework. */
  lemma {:induction false} UnknownFramework(r: Row)
    requires Truthful(r) && r.at.AtEnd? && r.phases == [UNKNOWN_FRAMEWORK]
    ensures r.state.testsPassed == None && ReportOf(r.events).testsPassed == Some(false)
  {
  }

  // ---------------------------------------------------------------- a run that raises after a commit

  function Edit(): Proposal { Proposal(0, EDITOR, EditCall().arguments) }

  function EditApproval(status: ApprovalStatus, decider: Option<nat>): Approval {
    Approval(0, EDITOR, Write, Preview(EditCall().arguments), status, decider)
  }

  /** A row with one edit proposed, waiting for its approval or let on. */
  predicate Proposed(r: Row, status: RunStatus) {
    && r.owner == 0 && r.workspace == Some(0) && r.status == status && r.at.AtGateEdits?
    && r.state.proposals == [Edit()] && r.state.applied == [] && r.commits == []
  }

  lemma {:induction false} CoderProposes(d: Deps, w: World, input: NodeInput)
    requires d.registry.SpecFor(EDITOR) == Some(ToolSpec(EDITOR, Write, Developer))
    requires w.run == 0 && w.approvals == [] && OneStep(w.row, AtCoder, 0) && w.row.owner == 0 && w.row.commits == []
    requires input.replies(0).calls == [EditCall()] && input.replies(1).calls == []
    ensures var w' := CoderNode(d, w, input);
            && Proposed(w'.row, AwaitingApproval) && w'.approvals == [EditApproval(Undecided, None)]
  {
    CoderRoundsStep(d, w, input, 0, 0);
    CoderRoundsStep(d, CoderCalls(d, CountGateway(w), [EditCall()]), input, 1, input.replies(0).tokens);
    assert [EditCall()][1..] == [];
    assert CoderCalls(d, CountGateway(w), [EditCall()]) == CoderCall(d, CountGateway(w), EditCall());
  }

  /** The inputs of a run whose coder asks for one edit. */
  predicate OneEdit(input: NodeInput) {
    input.branch != "" && input.replies(0).calls == [EditCall()] && input.replies(1).calls == []
  }

  predicate EditWaits(s: System) {
    |s.runs| == 1 && Proposed(s.runs[0], AwaitingApproval) && s.approvals == [EditApproval(Undecided, None)]
  }

  lemma {:induction false} WorkToEdits(d: Deps, s: System, env: nat -> NodeInput)
    requires WorkerRegistry(d.registry) && d.registry.SpecFor(EDITOR) == Some(ToolSpec(EDITOR, Write, Developer))
             && d.git
    requires SystemOk(d, s) && |s.runs| == 1 && s.approvals == [] && Waiting(s.runs[0], Running)
             && forall k :: OneEdit(env(k))
    ensures EditWaits(Work(d, s, 0, env, None))
  {
    BeginOk(d, s, 0);
    var w := Begin(WorldOf(s, 0));
    assert OneEdit(env(0)) && OneEdit(env(1));
    DriveOnce(d, w, env, 0);
    BranchOneStep(d, w, env(0));
    var w1 := BranchNode(d, w, env(0));
    DriveOnce(d, w1, env, 1);
    CoderProposes(d, w1, env(1));
    DriveEnds(d, CoderNode(d, w1, env(1)), env, 2);
  }

  function Edited(env: nat -> NodeInput): seq<Action> { Started(env) + [Deliver(0, env, None)] }

  lemma {:induction false} EditHistory(d: Deps, env: nat -> NodeInput)
    requires WorkerRegistry(d.registry) && d.registry.SpecFor(EDITOR) == Some(ToolSpec(EDITOR, Write, Developer))
             && d.git
    requires env(0).planText == [] && forall k :: OneEdit(env(k))
    ensures EditWaits(Exec(d, Edited(env)))
  {
    PlanApproved(d, env);
    Delivers(d, Started(env), 0, env, None);
    WorkToEdits(d, Taken(Exec(d, Started(env)), 0), env);
  }

  /** The owner grants the edit, which queues the run again. */
  function Granting(env: nat -> NodeInput): seq<Action> { Edited(env) + [DoResolve(0, 0, 0, true)] }

  lemma {:induction false} GrantHistory(d: Deps, env: nat -> NodeInput)
    requires WorkerRegistry(d.registry) && d.registry.SpecFor(EDITOR) == Some(ToolSpec(EDITOR, Write, Developer))
             && d.git
    requires env(0).planText == [] && forall k :: OneEdit(env(k))
    ensures EditGranted(Exec(d, Granting(env)))
  {
    EditHistory(d, env);
    ExecSnoc(d, Edited(env), DoResolve(0, 0, 0, true));
    GrantEdit(d, Exec(d, Edited(env)));
  }

  predicate EditGranted(s: System) {
    && |s.runs| == 1 && Proposed(s.runs[0], Running) && s.approvals == [EditApproval(Approved, Some(0))]
    && 0 in s.queue
  }

  lemma {:induction false} GrantEdit(d: Deps, s: System)
    requires EditWaits(s)
    ensures EditGranted(Next(d, s, DoResolve(0, 0, 0, true)))
  {
    assert !HasPending([EditApproval(Approved, Some(0))], 0);
  }

  /** The approved edit runs, succeeds, and its file is noted. */
  lemma {:induction false} EditApplies(d: Deps, w: World, input: NodeInput)
    requires WorkerRegistry(d.registry) && d.registry.SpecFor(EDITOR) == Some(ToolSpec(EDITOR, Write, Developer))
    requires w.run == 0 && w.approvals == [EditApproval(Approved, Some(0))]
    requires w.row.at.AtApplyEdits? && w.row.state.proposals == [Edit()] && w.row.state.applied == []
    requires input.tools(0) == ToolAnswer()
    ensures var w' := ApplyEditsNode(d, w, input);
            && w'.row.at.AtReviewer? && w'.row.state.applied == ["a.py"]
            && w'.row.workspace == w.row.workspace && w'.row.commits == w.row.commits
  {
    var batch := BatchOf([Edit()]);
    var w1 := ApplyOne(d, w, Edit(), input.tools(0), batch);
    assert ApplyAll(d, w, [Edit()], input, 0, batch) == ApplyAll(d, w1, [Edit()], input, 1, batch) == w1;
  }

  /** Three nodes on, the commit has landed. */
  lemma {:induction false} CrashAfterCommit(d: Deps, w: World, env: nat -> NodeInput)
    requires WorkerRegistry(d.registry) && d.registry.SpecFor(EDITOR) == Some(ToolSpec(EDITOR, Write, Developer))
             && d.git
    requires Control(w.row) && w.run == 0 && w.approvals == [EditApproval(Approved, Some(0))]
    requires w.row.at.AtApplyEdits? && w.row.state.proposals == [Edit()] && w.row.state.applied == []
    requires w.row.workspace == Some(0) && w.row.commits == []
    requires env(0).tools(0) == ToolAnswer() && env(1).replies(0).text == "" && env(2).commit == Committed("sha")
    ensures CrashWorld(d, w, env, 0, Crash(3, 0)).row.commits == ["sha"]
  {
    CrashOnce(d, w, env, 0, Crash(3, 0));
    EditApplies(d, w, env(0));
    CommitThenCrash(d, ApplyEditsNode(d, w, env(0)), env);
  }

  lemma {:induction false} CommitThenCrash(d: Deps, w: World, env: nat -> NodeInput)
    requires Control(w.row) && d.git && w.row.at.AtReviewer? && w.row.state.applied != [] && w.row.workspace == Some(0)
    requires w.row.commits == [] && env(1).replies(0).text == "" && env(2).commit == Committed("sha")
    ensures CrashWorld(d, w, env, 1, Crash(2, 0)).row.commits == ["sha"]
  {
    CrashOnce(d, w, env, 1, Crash(2, 0));
    SilentReview(d, w, env(1));
    LandThenCrash(d, ReviewerNode(d, w, env(1)), env);
  }

  lemma {:induction false} LandThenCrash(d: Deps, w: World, env: nat -> NodeInput)
    requires Control(w.row) && d.git && w.row.at.AtCommit? && w.row.state.applied != [] && w.row.workspace == Some(0)
    requires w.row.commits == [] && env(2).commit == Committed("sha")
    ensures CrashWorld(d, w, env, 2, Crash(1, 0)).row.commits == ["sha"]
  {
    CrashOnce(d, w, env, 2, Crash(1, 0));
    StruckCommits(d, CommitNode(d, w, env(2)), env);
  }

  /** A review that says nothing leaves no critique. */
  lemma {:induction false} SilentReview(d: Deps, w: World, input: NodeInput)
    requires w.row.state.applied != [] && input.replies(0).text == ""
    ensures var r, r' := w.row, ReviewerNode(d, w, input).row;
            && r'.at.AtCommit? && r'.state.applied == r.state.applied
            && r'.workspace == r.workspace && r'.commits == r.commits
  {
    ReviewerEffect(d, w, input);
    assert Text.Strip("", Text.IsSpace) == "";
  }

  lemma {:induction false} StruckCommits(d: Deps, w: World, env: nat -> NodeInput)
    requires Control(w.row)
    ensures CrashWorld(d, w, env, 3, Crash(0, 0)).row.commits == w.row.commits
  {
  }

  lemma WiringWorks()
    ensures WorkerRegistry(Wiring().registry) && Wiring().git
    ensures Wiring().registry.SpecFor(EDITOR) == Some(ToolSpec(EDITOR, Write, Developer))
  {
  }

  lemma EditingServed()
    ensures ServiceOnly(ToTheCrash(Editing()))
  {
  }

  function ToTheCrash(env: nat -> NodeInput): seq<Action> { Granting(env) + [Deliver(0, env, Some(Crash(3, 0)))] }

  /** The failed run has a commit that its report does not list. */
  predicate CommitMissed(s: System) {
    && |s.runs| == 1 && s.runs[0].status == Failed && s.runs[0].commits == ["sha"]
    && ReportOf(s.runs[0].events).commits == []
  }

  /** A history after which a failed run has a commit on its branch that its report does not list. */
  lemma {:induction false} ReportMissesACommit()
    ensures WorkerRegistry(Wiring().registry) && ServiceOnly(ToTheCrash(Editing()))
    ensures CommitMissed(Exec(Wiring(), ToTheCrash(Editing())))
  {
    WiringWorks();
    EditingServed();
    CrashHistory(Wiring(), Editing());
  }

  lemma {:induction false} CrashHistory(d: Deps, env: nat -> NodeInput)
    requires WorkerRegistry(d.registry) && d.registry.SpecFor(EDITOR) == Some(ToolSpec(EDITOR, Write, Developer))
             && d.git
    requires env(0).planText == [] && forall k :: OneEdit(env(k))
    requires env(0).tools(0) == ToolAnswer() && env(1).replies(0).text == "" && env(2).commit == Committed("sha")
    ensures CommitMissed(Exec(d, ToTheCrash(env)))
  {
    GrantHistory(d, env);
    Delivers(d, Granting(env), 0, env, Some(Crash(3, 0)));
    RaiseAfterCommit(d, Taken(Exec(d, Granting(env)), 0), env);
  }

  lemma {:induction false} RaiseAfterCommit(d: Deps, s: System, env: nat -> NodeInput)
    requires WorkerRegistry(d.registry) && d.registry.SpecFor(EDITOR) == Some(ToolSpec(EDITOR, Write, Developer))
             && d.git
    requires SystemOk(d, s) && |s.runs| == 1 && Proposed(s.runs[0], Running)
    requires s.approvals == [EditApproval(Approved, Some(0))]
    requires env(0).tools(0) == ToolAnswer() && env(1).replies(0).text == "" && env(2).commit == Committed("sha")
    ensures CommitMissed(Work(d, s, 0, env, Some(Crash(3, 0))))
  {
    RaisedRow(d, s, 0, env, Crash(3, 0));
    BeginOk(d, s, 0);
    CrashAfterCommit(d, Begin(WorldOf(s, 0)), env);
  }
}
