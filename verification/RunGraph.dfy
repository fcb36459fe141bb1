/**
 * The run graph: node effects, routing and the edge table
 * (agents/graph/nodes.py, agents/graph/build.py), as functions on values.
 *
 * A World is one run's row with everything a node can read or write. Model
 * replies, tool results, git and pull-request outcomes are arbitrary inputs.
 */
module RunGraph {
  import opened Common
  import opened RunDomain
  import opened ToolRegistry
  import Text

  datatype Node =
    | AtPlan | AtApprove | AtBranch | AtCoder | AtGateEdits | AtApplyEdits | AtReviewer
    | AtCommit | AtBudgetGate | AtTest | AtDebug | AtDocument | AtPrGate | AtOpenPr
    | AtEscalate | AtFinalize | AtEnd

  datatype Proposal = Proposal(approvalId: nat, tool: string, arguments: Arguments)

  /** The checkpointed state, without the texts that only feed prompts. */
  datatype RunState = RunState(
    plan: seq<PlanStep>, stepIndex: nat, status: RunStatus,
    proposals: seq<Proposal>, applied: seq<string>,
    critique: string, reviewRound: nat, branch: string,
    testsPassed: Option<bool>, debugRound: nat, prUrl: string)

  const INITIAL_STATE: RunState :=
    RunState([], 0, Pending, [], [], "", 0, "", None, 0, "")

  datatype Event =
    | RunStarted
    | StatusChanged(status: RunStatus)
    | PlanCreated(version: nat, stepCount: nat)
    | ApprovalRequested(approvalId: nat, tool: string)
    | ApprovalResolved(approvalId: nat, approved: bool)
    | ToolStarted(tool: string)
    | ToolCompleted(tool: string, outcome: ToolOutcome)
    | CodeGenerated(stepIndex: nat, files: seq<string>)
    | ReviewCompleted(stepIndex: nat, iteration: nat, verdict: bool)
    | StepCommitted(stepIndex: nat, sha: string, branch: string)
    | CommitBlocked(stepIndex: nat)
    | FixGenerated(attempt: nat)
    | DocsGenerated
    | TestsCompleted(passed: bool)
    | PullRequestOpened(number: int, url: string, branch: string)
    | RunCompleted
    | RunReported(conclusion: string, steps: nat, testsPassed: Option<bool>, prUrl: Option<string>)

  /**
   * One write or destructive provider call that was really entered, with the
   * approvals of every proposal in its batch.
   */
  datatype Execution = Execution(run: nat, approvalId: nat, tool: string, arguments: Arguments, batch: seq<nat>)

  /**
   * A run row, its checkpoint (`at`, `state`), the events staged for it, and what the
   * outside world has seen: commits on its branch, pull requests, coder and gateway calls,
   * and what the test tool reported in each test phase.
   */
  datatype Row = Row(
    owner: nat, workspace: Option<nat>, status: RunStatus, saved: Option<Plan>, budget: RunBudget,
    at: Node, state: RunState, events: seq<Event>,
    commits: seq<string>, prs: seq<string>, coderRuns: nat, gatewayCalls: nat, phases: seq<TestOutcome>)

  datatype World = World(run: nat, row: Row, approvals: seq<Approval>, executed: seq<Execution>)

  /** The collaborators a worker wires into the nodes. */
  datatype Deps = Deps(git: bool, pr: bool, registry: Registry)

  // ---------------------------------------------------------------- inputs

  datatype ToolCall = ToolCall(name: string, arguments: Arguments, reply: ToolReply)

  datatype ModelReply = ModelReply(text: string, tokens: nat, calls: seq<ToolCall>)

  datatype CommitOutcome = NothingToCommit | Blocked | Committed(sha: string)

  datatype PullRequest = PullRequest(number: int, url: string)

  datatype NodeInput = NodeInput(
    planText: seq<string>,
    replies: nat -> ModelReply,
    tools: nat -> ToolReply,
    commit: CommitOutcome,
    branch: string,
    pull: Option<PullRequest>)

  const TESTER_TOOL := "tester.run"
  const MAX_TOOL_ROUNDS: nat := 3
  const MAX_REVIEW_ROUNDS: nat := 2
  const MAX_DEBUG_ROUNDS: nat := 2

  // ---------------------------------------------------------------- store writes

  function Emit(w: World, e: Event): World {
    w.(row := w.row.(events := w.row.events + [e]))
  }

  function SetStatus(w: World, status: RunStatus): World {
    Emit(w.(row := w.row.(status := status)), StatusChanged(status))
  }

  function Charge(w: World, tokens: nat, steps: nat): World {
    w.(row := w.row.(budget := w.row.budget.(
    stepsUsed := w.row.budget.stepsUsed + steps, tokensUsed := w.row.budget.tokensUsed + tokens)))
  }

  function Move(w: World, at: Node, state: RunState): World {
    w.(row := w.row.(at := at, state := state))
  }

  function CountGateway(w: World): World {
    w.(row := w.row.(gatewayCalls := w.row.gatewayCalls + 1))
  }

  /** The events of one registry call; the test tool reports its own result while it runs. */
  function ToolEvents(tool: string, v: Verdict, reply: ToolReply): seq<Event> {
    (if v.ran then [ToolStarted(tool)] else [])
    + (if v.ran && tool == TESTER_TOOL && HasReport(v, reply) then [TestsCompleted(reply.report.passed)] else [])
    + (if v.announced then [ToolCompleted(tool, v.outcome)] else [])
  }

  predicate HasReport(v: Verdict, reply: ToolReply) { v.outcome.Success? && reply.report.Reported? }

  function EmitVerdict(w: World, tool: string, v: Verdict, reply: ToolReply): World {
    w.(row := w.row.(events := w.row.events + ToolEvents(tool, v, reply)))
  }

  // ---------------------------------------------------------------- plan, approve, branch

  function PlanNode(w: World, input: NodeInput): World {
    var steps := ParsePlan(input.planText);
    var w1 := CountGateway(SetStatus(w, Planning));
    var w2 := Emit(w1.(row := w1.row.(saved := Some(Plan(1, steps)))), PlanCreated(1, |steps|));
    Move(SetStatus(w2, AwaitingApproval), AtApprove, w.row.state.(plan := steps, status := AwaitingApproval))
  }

  /** After the plan interrupt: adopt the stored, possibly edited, plan. */
  function ApproveNode(w: World): World {
    var steps := if w.row.saved.Some? then w.row.saved.value.steps else w.row.state.plan;
    Move(SetStatus(w, Running), AtBranch, w.row.state.(plan := steps, stepIndex := 0, status := Running))
  }

  function BranchNode(d: Deps, w: World, input: NodeInput): World {
    Move(w, AtCoder,
         if d.git && w.row.workspace.Some? then w.row.state.(branch := input.branch) else w.row.state)
  }

  // ---------------------------------------------------------------- coder

  /** Record an approval for one proposed mutation and announce it. */
  function Propose(w: World, spec: ToolSpec, call: ToolCall): World {
    var id := |w.approvals|;
    var approval := Approval(w.run, call.name, spec.sideEffect, Preview(call.arguments), Undecided, None);
    var proposals := w.row.state.proposals + [Proposal(id, call.name, call.arguments)];
    Emit(w.(approvals := w.approvals + [approval],
         row := w.row.(state := w.row.state.(proposals := proposals))),
         ApprovalRequested(id, call.name))
  }

  /** A write call is queued for approval; a read call goes straight to the registry. */
  function CoderCall(d: Deps, w: World, call: ToolCall): World {
    var spec := d.registry.SpecFor(call.name);
    if spec.Some? && !spec.value.sideEffect.Read? then Propose(w, spec.value, call)
    else EmitVerdict(w, call.name, d.registry.Invoke(call.name, Viewer, Some(w.run), None, call.reply), call.reply)
  }

  function CoderCalls(d: Deps, w: World, calls: seq<ToolCall>): World
    decreases |calls|
  {
    if calls == [] then w else CoderCalls(d, CoderCall(d, w, calls[0]), calls[1..])
  }

  datatype CoderResult = CoderResult(w: World, tokens: nat)

  function CoderRounds(d: Deps, w: World, input: NodeInput, round: nat, tokens: nat): CoderResult
    requires round <= MAX_TOOL_ROUNDS
    decreases MAX_TOOL_ROUNDS - round
  {
    if round == MAX_TOOL_ROUNDS then CoderResult(w, tokens)
    else
      var reply := input.replies(round);
      var w1 := CountGateway(w);
      if reply.calls == [] then CoderResult(w1, tokens + reply.tokens)
      else CoderRounds(d, CoderCalls(d, w1, reply.calls), input, round + 1, tokens + reply.tokens)
  }

  lemma CoderRoundsStep(d: Deps, w: World, input: NodeInput, round: nat, tokens: nat)
    requires round < MAX_TOOL_ROUNDS
    ensures var reply := input.replies(round); var w1 := CoderCalls(d, CountGateway(w), reply.calls);
            CoderRounds(d, w, input, round, tokens) ==
            if reply.calls == [] then CoderResult(w1, tokens + reply.tokens)
            else CoderRounds(d, w1, input, round + 1, tokens + reply.tokens)
  {
  }

  lemma CoderRoundsEnd(d: Deps, w: World, input: NodeInput, tokens: nat)
    ensures CoderRounds(d, w, input, MAX_TOOL_ROUNDS, tokens) == CoderResult(w, tokens)
  {
  }

  function RouteAfterCoder(state: RunState): Node {
    if state.proposals != [] then AtGateEdits
    else if state.applied != [] then AtReviewer
    else AtCommit
  }

  function CoderNode(d: Deps, w: World, input: NodeInput): World {
    var done := CoderRounds(d, w, input, 0, 0);
    var w1 := Charge(done.w, done.tokens, 1);
    var w2 := w1.(row := w1.row.(coderRuns := w1.row.coderRuns + 1));
    if w2.row.state.proposals != [] then
      var w3 := SetStatus(w2, AwaitingApproval);
      Move(w3, AtGateEdits, w3.row.state.(status := AwaitingApproval))
    else
      Move(w2, RouteAfterCoder(w2.row.state), w2.row.state)
  }

  // ---------------------------------------------------------------- gate, apply

  function GateEditsNode(w: World): World {
    Move(w, AtApplyEdits, w.row.state.(status := Running))
  }

  function GetApproval(approvals: seq<Approval>, id: nat): Option<Approval> {
    if id < |approvals| then Some(approvals[id]) else None
  }

  function BatchOf(proposals: seq<Proposal>): seq<nat> {
    seq(|proposals|, i requires 0 <= i < |proposals| => proposals[i].approvalId)
  }

  function ApplyOne(d: Deps, w: World, p: Proposal, reply: ToolReply, batch: seq<nat>): World {
    var v := d.registry.Invoke(p.tool, Developer, Some(w.run), GetApproval(w.approvals, p.approvalId), reply);
    var w1 := EmitVerdict(w, p.tool, v, reply);
    var w2 :=
      if v.ran && !d.registry.byName[p.tool].sideEffect.Read? then
        w1.(executed := w1.executed + [Execution(w.run, p.approvalId, p.tool, p.arguments, batch)])
      else w1;
    if v.outcome.Success? && p.arguments.path.Some? then
      w2.(row := w2.row.(state := w2.row.state.(applied := w2.row.state.applied + [p.arguments.path.value])))
    else w2
  }

  function ApplyAll(d: Deps, w: World, proposals: seq<Proposal>, input: NodeInput, i: nat, batch: seq<nat>): World
    requires i <= |proposals|
    decreases |proposals| - i
  {
    if i == |proposals| then w
    else ApplyAll(d, ApplyOne(d, w, proposals[i], input.tools(i), batch), proposals, input, i + 1, batch)
  }

  function ApplyEditsNode(d: Deps, w: World, input: NodeInput): World {
    var before := w.row.state.applied;
    var w1 := ApplyAll(d, w, w.row.state.proposals, input, 0, BatchOf(w.row.state.proposals));
    var applied := w1.row.state.applied;
    var w2 :=
      if applied != before && |before| <= |applied|
      then Emit(w1, CodeGenerated(w.row.state.stepIndex, applied[|before|..])) else w1;
    Move(w2, AtReviewer, w2.row.state.(proposals := []))
  }

  // ---------------------------------------------------------------- review, commit

  predicate SaysApprove(text: string) {
    |text| >= 7 && Text.Upper(text[..7]) == "APPROVE"
  }

  function RouteAfterReviewer(state: RunState): Node {
    if state.critique != "" && state.reviewRound < MAX_REVIEW_ROUNDS then AtCoder else AtCommit
  }

  /** The model was asked about the diff: charge, announce the verdict, keep the critique. */
  function Reviewed(w: World, text: string, tokens: nat): World {
    var s := w.row.state;
    var iteration := s.reviewRound + 1;
    var w1 := Emit(Charge(CountGateway(w), tokens, 0), ReviewCompleted(s.stepIndex, iteration, SaysApprove(text)));
    var s1 := s.(critique := if SaysApprove(text) then "" else text, reviewRound := iteration);
    Move(w1, RouteAfterReviewer(s1), s1)
  }

  function ReviewerNode(d: Deps, w: World, input: NodeInput): World {
    var s := w.row.state;
    if !d.git || w.row.workspace.None? || s.applied == [] then
      var s1 := s.(critique := "");
      Move(w, RouteAfterReviewer(s1), s1)
    else
      Reviewed(w, Text.Strip(input.replies(0).text, Text.IsSpace), input.replies(0).tokens)
  }

  function RouteAfterCommit(state: RunState): Node {
    if state.stepIndex >= |state.plan| then AtTest
    else if state.status == NeedsHuman then AtBudgetGate
    else AtCoder
  }

  function LandStep(d: Deps, w: World, outcome: CommitOutcome): World {
    var s := w.row.state;
    if d.git && w.row.workspace.Some? && s.applied != [] then
      match outcome
      case Blocked => Emit(w, CommitBlocked(s.stepIndex))
      case Committed(sha) =>
        Emit(w.(row := w.row.(commits := w.row.commits + [sha])), StepCommitted(s.stepIndex, sha, s.branch))
      case NothingToCommit => w
    else w
  }

  function CommitNode(d: Deps, w: World, input: NodeInput): World {
    var s := w.row.state;
    var w1 := LandStep(d, w, input.commit);
    var s1 := s.(stepIndex := s.stepIndex + 1, proposals := [], applied := [], critique := "", reviewRound := 0);
    if w1.row.budget.Exhausted() && s1.stepIndex < |s.plan| then
      var s2 := s1.(status := NeedsHuman);
      Move(SetStatus(w1, NeedsHuman), RouteAfterCommit(s2), s2)
    else
      Move(w1, RouteAfterCommit(s1), s1)
  }

  function BudgetGateNode(w: World): World {
    var w1 := w.(row := w.row.(budget := w.row.budget.(stepsUsed := 0)));
    Move(SetStatus(w1, Running), AtCoder, w.row.state.(status := Running))
  }

  // ---------------------------------------------------------------- test, debug, document, PR

  function RouteAfterTest(state: RunState): Node {
    if state.testsPassed == Some(false) then
      if state.debugRound < MAX_DEBUG_ROUNDS then AtDebug else AtEscalate
    else AtDocument
  }

  /** What a test phase got to know: nothing, or what the tool reported. */
  function PhaseReport(v: Verdict, reply: ToolReply): TestOutcome {
    if HasReport(v, reply) then reply.report else Silent
  }

  /** Only tests that ran give a verdict. */
  function PhaseVerdict(report: TestOutcome): Option<bool> {
    if report.Reported? && report.ran then Some(report.passed) else None
  }

  function EndPhase(w: World, report: TestOutcome): World {
    var s := w.row.state.(testsPassed := PhaseVerdict(report));
    Move(w.(row := w.row.(phases := w.row.phases + [report])), RouteAfterTest(s), s)
  }

  function TestNode(d: Deps, w: World, input: NodeInput): World {
    if w.row.workspace.None? || d.registry.SpecFor(TESTER_TOOL).None? then EndPhase(w, Silent)
    else
      var reply := input.tools(0);
      var v := d.registry.Invoke(TESTER_TOOL, Developer, Some(w.run), None, reply);
      EndPhase(EmitVerdict(w, TESTER_TOOL, v, reply), PhaseReport(v, reply))
  }

  function FixTitle(attempt: nat): string {
    "Fix failing tests (" + [(48 + attempt % 10) as char] + ")"
  }

  function DebugNode(w: World, input: NodeInput): World {
    var s := w.row.state;
    var attempt := s.debugRound + 1;
    var w1 := Emit(Charge(CountGateway(w), input.replies(0).tokens, 0), FixGenerated(attempt));
    Move(w1, AtCoder,
         s.(plan := s.plan + [PlanStep(|s.plan|, FixTitle(attempt))], debugRound := attempt,
         testsPassed := None, proposals := [], applied := [], critique := "", reviewRound := 0))
  }

  function DocumentNode(d: Deps, w: World, input: NodeInput): World {
    var w1 := Emit(Charge(CountGateway(w), input.replies(0).tokens, 0), DocsGenerated);
    Move(w1, if d.pr && w.row.workspace.Some? then AtPrGate else AtFinalize, w.row.state)
  }

  function PrGateNode(w: World): World {
    Move(w, AtOpenPr, w.row.state.(status := Running))
  }

  function OpenPrNode(d: Deps, w: World, input: NodeInput): World {
    var s := w.row.state;
    if !d.pr || w.row.workspace.None? || s.branch == "" || input.pull.None? then Move(w, AtFinalize, s)
    else
      var pr := input.pull.value;
      var w1 := w.(row := w.row.(prs := w.row.prs + [pr.url]));
      Move(Emit(w1, PullRequestOpened(pr.number, pr.url, s.branch)), AtFinalize, s.(prUrl := pr.url))
  }

  function EscalateNode(w: World): World {
    var s := w.row.state;
    var w1 := Emit(SetStatus(w, NeedsHuman), RunReported("needs_human", |s.plan|, s.testsPassed, None));
    Move(w1, AtEnd, s.(status := NeedsHuman))
  }

  function FinalizeNode(w: World): World {
    var s := w.row.state;
    var url := if s.prUrl == "" then None else Some(s.prUrl);
    var w1 := Emit(SetStatus(w, Completed), RunCompleted);
    Move(Emit(w1, RunReported("completed", |s.plan|, s.testsPassed, url)), AtEnd, s.(status := Completed))
  }

  // ---------------------------------------------------------------- the graph

  /** The nodes that interrupt the run and wait for a delivery. */
  predicate IsGate(at: Node) {
    at.AtApprove? || at.AtGateEdits? || at.AtBudgetGate? || at.AtPrGate?
  }

  predicate Paused(at: Node) { IsGate(at) || at.AtEnd? }

  /** What happens at a gate when the run is resumed. */
  function PassGate(w: World): World
    requires IsGate(w.row.at)
  {
    match w.row.at
    case AtApprove => ApproveNode(w)
    case AtGateEdits => GateEditsNode(w)
    case AtBudgetGate => BudgetGateNode(w)
    case AtPrGate => PrGateNode(w)
  }

  function Step(d: Deps, w: World, input: NodeInput): World
    requires !Paused(w.row.at)
  {
    match w.row.at
    case AtPlan => PlanNode(w, input)
    case AtBranch => BranchNode(d, w, input)
    case AtCoder => CoderNode(d, w, input)
    case AtApplyEdits => ApplyEditsNode(d, w, input)
    case AtReviewer => ReviewerNode(d, w, input)
    case AtCommit => CommitNode(d, w, input)
    case AtTest => TestNode(d, w, input)
    case AtDebug => DebugNode(w, input)
    case AtDocument => DocumentNode(d, w, input)
    case AtOpenPr => OpenPrNode(d, w, input)
    case AtEscalate => EscalateNode(w)
    case AtFinalize => FinalizeNode(w)
  }

  /** One superstep: a node body, or the part of a gate after its interrupt. */
  function Advance(d: Deps, w: World, input: NodeInput): World
    requires !w.row.at.AtEnd?
  {
    if IsGate(w.row.at) then PassGate(w) else Step(d, w, input)
  }

  /** The worker's start, resume or skip decision, up to the first node body. */
  function Begin(w: World): World {
    if w.row.status == Pending then Move(w, AtPlan, INITIAL_STATE)
    else if IsGate(w.row.at) then PassGate(w)
    else w
  }
}
