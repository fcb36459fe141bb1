/**
 * Control invariants of the run graph: positions, termination, and the bounds on
 * coder executions, gateway calls and charged steps.
 */
module RunControl {
  import opened Common
  import opened RunDomain
  import opened ToolRegistry
  import opened RunGraph

  /** The nodes at which a plan step is in progress. */
  predicate InStep(at: Node) {
    at.AtCoder? || at.AtGateEdits? || at.AtApplyEdits? || at.AtReviewer? || at.AtCommit? || at.AtBudgetGate?
  }

  /** The nodes before the first plan step. */
  predicate Early(at: Node) { at.AtPlan? || at.AtApprove? || at.AtBranch? }

  /** The nodes reached only with the whole plan executed. */
  predicate Late(at: Node) {
    at.AtTest? || at.AtDebug? || at.AtEscalate? || Shipping(at)
  }

  /** The nodes that deliver: documentation, the pull request, completion. */
  predicate Shipping(at: Node) {
    at.AtDocument? || at.AtPrGate? || at.AtOpenPr? || at.AtFinalize?
  }

  predicate Shape(r: Row) {
    var s := r.state;
    && s.debugRound <= MAX_DEBUG_ROUNDS
    && s.reviewRound <= MAX_REVIEW_ROUNDS
    && s.debugRound <= |s.plan|
    && (r.saved.Some? ==> |r.saved.value.steps| >= 1)
    && (s.proposals != [] <==> r.at.AtGateEdits? || r.at.AtApplyEdits?)
    && (r.at.AtPlan? ==> s == INITIAL_STATE)
    && (r.at.AtApprove? || r.at.AtBranch? ==>
          |s.plan| >= 1 && s.stepIndex == 0 && s.debugRound == 0 && s.reviewRound == 0)
    && (InStep(r.at) ==> s.stepIndex < |s.plan|)
    && (InStep(r.at) && s.debugRound > 0 ==> s.stepIndex == |s.plan| - 1)
    && (InStep(r.at) && !r.at.AtCommit? ==> s.reviewRound < MAX_REVIEW_ROUNDS)
    && (r.at.AtBudgetGate? ==> s.reviewRound == 0 && s.debugRound == 0)
    && (Late(r.at) ==> s.stepIndex == |s.plan|)
    && (r.at.AtDebug? ==> s.testsPassed == Some(false) && s.debugRound < MAX_DEBUG_ROUNDS)
    && (r.at.AtEscalate? ==> s.testsPassed == Some(false) && s.debugRound == MAX_DEBUG_ROUNDS)
    && (Shipping(r.at) ==> s.testsPassed != Some(false))
    && (r.at.AtEnd? ==>
          && s.stepIndex == |s.plan|
          && (s.status == Completed || s.status == NeedsHuman)
          && (s.status == Completed <==> s.testsPassed != Some(false)))
    && (s.status == NeedsHuman ==> r.at.AtBudgetGate? || r.at.AtEnd?)
    && (s.status == Completed ==> r.at.AtEnd? && IsTerminal(r.status))
    && (r.prs != [] ==> |r.prs| == 1 && (r.at.AtFinalize? || (r.at.AtEnd? && s.status == Completed)))
  }

  // ---------------------------------------------------------------- frames of the loops

  /** Coder calls touch approvals, events and the proposals list only. */
  predicate CoderFrame(w: World, w': World) {
    && w'.run == w.run && w'.executed == w.executed
    && w'.row == w.row.(events := w'.row.events,
                        gatewayCalls := w'.row.gatewayCalls,
                        state := w.row.state.(proposals := w'.row.state.proposals))
  }

  lemma {:induction false} CoderCallsFrame(d: Deps, w: World, calls: seq<ToolCall>)
    ensures CoderFrame(w, CoderCalls(d, w, calls))
    ensures CoderCalls(d, w, calls).row.gatewayCalls == w.row.gatewayCalls
    decreases |calls|
  {
    if calls != [] { CoderCallsFrame(d, CoderCall(d, w, calls[0]), calls[1..]); }
  }

  /** One coder execution makes at most three gateway calls. */
  lemma {:induction false} CoderRoundsFrame(d: Deps, w: World, input: NodeInput, round: nat, tokens: nat)
    requires round <= MAX_TOOL_ROUNDS
    ensures CoderFrame(w, CoderRounds(d, w, input, round, tokens).w)
    ensures CoderRounds(d, w, input, round, tokens).w.row.gatewayCalls
            <= w.row.gatewayCalls + MAX_TOOL_ROUNDS - round
    decreases MAX_TOOL_ROUNDS - round
  {
    if round < MAX_TOOL_ROUNDS {
      var reply := input.replies(round);
      var w1 := CoderCalls(d, CountGateway(w), reply.calls);
      CoderRoundsStep(d, w, input, round, tokens);
      CoderCallsFrame(d, CountGateway(w), reply.calls);
      if reply.calls != [] { CoderRoundsFrame(d, w1, input, round + 1, tokens + reply.tokens); }
      CoderFramesCompose(w, CountGateway(w), w1, CoderRounds(d, w, input, round, tokens).w);
    } else {
      CoderRoundsEnd(d, w, input, tokens);
    }
  }

  lemma {:induction false} CoderFramesCompose(w: World, w1: World, w2: World, w3: World)
    requires w1 == CountGateway(w) && CoderFrame(w1, w2) && (CoderFrame(w2, w3) || w3 == w2)
    ensures CoderFrame(w, w3)
  {
  }

  /** Applying a batch touches events, executions and the applied paths only. */
  predicate ApplyFrame(w: World, w': World) {
    && w'.run == w.run && w'.approvals == w.approvals
    && w'.row == w.row.(events := w'.row.events, state := w.row.state.(applied := w'.row.state.applied))
    && w.row.state.applied <= w'.row.state.applied
    && w.executed <= w'.executed
  }

  lemma {:induction false} ApplyAllFrame(d: Deps, w: World, proposals: seq<Proposal>, input: NodeInput, i: nat,
                                         batch: seq<nat>)
    requires i <= |proposals|
    ensures ApplyFrame(w, ApplyAll(d, w, proposals, input, i, batch))
    decreases |proposals| - i
  {
    if i < |proposals| {
      ApplyAllFrame(d, ApplyOne(d, w, proposals[i], input.tools(i), batch), proposals, input, i + 1, batch);
    }
  }

  // ---------------------------------------------------------------- shape and termination

  function Stage(at: Node): nat {
    match at
    case AtPlan => 3
    case AtApprove => 2
    case AtBranch => 1
    case _ => 0
  }

  function NodeRank(at: Node): nat {
    match at
    case AtBudgetGate => 13
    case AtCoder => 12
    case AtGateEdits => 11
    case AtApplyEdits => 10
    case AtReviewer => 9
    case AtCommit => 8
    case AtTest => 7
    case AtDebug => 6
    case AtDocument => 5
    case AtPrGate => 4
    case AtOpenPr => 3
    case AtFinalize => 2
    case AtEscalate => 1
    case _ => 0
  }

  function DebugLeft(s: RunState): int { MAX_DEBUG_ROUNDS as int - s.debugRound }

  function StepsLeft(s: RunState): int { |s.plan| - s.stepIndex }

  function ReviewsLeft(s: RunState): int { MAX_REVIEW_ROUNDS as int - s.reviewRound }

  /** The lexicographic measure: debug rounds, plan steps, review rounds, node rank. */
  predicate Smaller(a: Row, b: Row) {
    || Stage(a.at) < Stage(b.at)
    || (Stage(a.at) == Stage(b.at) == 0
        && (|| DebugLeft(a.state) < DebugLeft(b.state)
            || (DebugLeft(a.state) == DebugLeft(b.state)
                && (|| StepsLeft(a.state) < StepsLeft(b.state)
                    || (StepsLeft(a.state) == StepsLeft(b.state)
                        && (|| ReviewsLeft(a.state) < ReviewsLeft(b.state)
                            || (ReviewsLeft(a.state) == ReviewsLeft(b.state) && NodeRank(a.at) < NodeRank(b.at))))))))
  }

  // ---------------------------------------------------------------- bounds

  /** Length of the plan the human approved: what debugging appended is not counted. */
  function ApprovedSteps(s: RunState): int { |s.plan| - s.debugRound }

  /** Steps that can still start after the current one. */
  function LaterSteps(s: RunState): int { StepsLeft(s) + DebugLeft(s) }

  function CoderLeft(r: Row): int {
    var s := r.state;
    match r.at
    case AtCoder => 2 * (LaterSteps(s) - 1) + 2 - s.reviewRound
    case AtGateEdits => 2 * (LaterSteps(s) - 1) + 1 - s.reviewRound
    case AtApplyEdits => 2 * (LaterSteps(s) - 1) + 1 - s.reviewRound
    case AtReviewer => 2 * (LaterSteps(s) - 1) + 1 - s.reviewRound
    case AtCommit => 2 * (LaterSteps(s) - 1)
    case AtBranch => 2 * LaterSteps(s)
    case AtBudgetGate => 2 * LaterSteps(s)
    case AtTest => 2 * LaterSteps(s)
    case AtDebug => 2 * LaterSteps(s)
    case _ => 0
  }

  function ReviewerLeft(r: Row): int {
    var s := r.state;
    match r.at
    case AtCoder => 2 * (LaterSteps(s) - 1) + 2 - s.reviewRound
    case AtGateEdits => 2 * (LaterSteps(s) - 1) + 2 - s.reviewRound
    case AtApplyEdits => 2 * (LaterSteps(s) - 1) + 2 - s.reviewRound
    case AtReviewer => 2 * (LaterSteps(s) - 1) + 2 - s.reviewRound
    case _ => CoderLeft(r)
  }

  function GatewayLeft(r: Row): int {
    3 * CoderLeft(r) + ReviewerLeft(r)
    + (if InStep(r.at) || r.at.AtBranch? || r.at.AtTest? || r.at.AtDebug? then DebugLeft(r.state) + 1
       else if r.at.AtDocument? then 1 else 0)
  }

  /** Work done plus work that can still come stays within the approved plan's allowance. */
  predicate Bounded(r: Row) {
    var n := ApprovedSteps(r.state);
    if r.at.AtPlan? then r.coderRuns == 0 && r.gatewayCalls == 0
    else if r.at.AtApprove? then r.coderRuns == 0 && r.gatewayCalls == 1
    else r.coderRuns + CoderLeft(r) <= 2 * (n + 2) && r.gatewayCalls + GatewayLeft(r) <= 8 * n + 20
  }

  /** The most coder steps charged since the last grant, by position. */
  function ChargeCeiling(r: Row): int {
    var s := r.state;
    var base := if s.debugRound == 0 then r.budget.maxSteps - 1 else r.budget.maxSteps - 1 + 2 * s.debugRound;
    match r.at
    case AtPlan => 0
    case AtApprove => 0
    case AtBranch => 0
    case AtCoder => base + s.reviewRound
    case AtGateEdits => base + 1 + s.reviewRound
    case AtApplyEdits => base + 1 + s.reviewRound
    case AtReviewer => base + 1 + s.reviewRound
    case _ => base + 2
  }

  predicate WithinWindow(r: Row) {
    r.budget.maxSteps >= 1 ==> r.budget.stepsUsed <= ChargeCeiling(r)
  }

  /** Everything the control argument needs to know about a run row. */
  predicate Control(r: Row) { Shape(r) && Bounded(r) && WithinWindow(r) }

  /** One superstep forward: the owner stays, and once planning starts a run is never pending again. */
  predicate Progress(r: Row, r': Row) {
    && Control(r') && Smaller(r', r)
    && r'.owner == r.owner && r'.workspace == r.workspace
    && (r.status != Pending || r.at.AtPlan? ==> r'.status != Pending)
    && (!r.at.AtPlan? && !r.at.AtApprove? ==> PlanGrows(r.state, r'.state))
  }

  /** The approved steps stay in place; only debugging appends, one step a round. */
  predicate PlanGrows(s: RunState, s': RunState) {
    s.plan <= s'.plan && ApprovedSteps(s') == ApprovedSteps(s)
  }

  lemma {:induction false} PlanProgress(w: World, input: NodeInput)
    requires Control(w.row) && w.row.at.AtPlan?
    ensures Progress(w.row, PlanNode(w, input).row)
  {
  }

  lemma {:induction false} BranchProgress(d: Deps, w: World, input: NodeInput)
    requires Control(w.row) && w.row.at.AtBranch?
    ensures Progress(w.row, BranchNode(d, w, input).row)
  {
  }

  /** What one coder execution changes in the row. */
  predicate CoderEdge(r: Row, r': Row) {
    && r'.state == r.state.(proposals := r'.state.proposals, status := r'.state.status)
    && r'.at == RouteAfterCoder(r'.state)
    && r'.state.status == (if r'.at.AtGateEdits? then AwaitingApproval else r.state.status)
    && r'.owner == r.owner && r'.workspace == r.workspace && r'.saved == r.saved && r'.prs == r.prs
    && (r.status != Pending ==> r'.status != Pending)
    && r'.budget == r.budget.(stepsUsed := r.budget.stepsUsed + 1, tokensUsed := r'.budget.tokensUsed)
    && r'.coderRuns == r.coderRuns + 1
    && r'.gatewayCalls <= r.gatewayCalls + MAX_TOOL_ROUNDS
  }

  lemma {:induction false} CoderEffect(d: Deps, w: World, input: NodeInput)
    ensures CoderEdge(w.row, CoderNode(d, w, input).row)
  {
    CoderRoundsFrame(d, w, input, 0, 0);
  }

  lemma {:induction false} CoderEdgeProgress(r: Row, r': Row)
    requires Control(r) && r.at.AtCoder? && CoderEdge(r, r')
    ensures Progress(r, r')
  {
  }

  lemma {:induction false} CoderProgress(d: Deps, w: World, input: NodeInput)
    requires Control(w.row) && w.row.at.AtCoder?
    ensures Progress(w.row, CoderNode(d, w, input).row)
  {
    CoderEffect(d, w, input);
    CoderEdgeProgress(w.row, CoderNode(d, w, input).row);
  }

  lemma {:induction false} ApplyEditsProgress(d: Deps, w: World, input: NodeInput)
    requires Control(w.row) && w.row.at.AtApplyEdits?
    ensures Progress(w.row, ApplyEditsNode(d, w, input).row)
  {
    ApplyAllFrame(d, w, w.row.state.proposals, input, 0, BatchOf(w.row.state.proposals));
  }

  /** What a review changes: the critique, and the round when the model was asked. */
  predicate ReviewEdge(r: Row, r': Row) {
    && r'.state == r.state.(critique := r'.state.critique, reviewRound := r'.state.reviewRound)
    && r'.at == RouteAfterReviewer(r'.state)
    && r'.owner == r.owner && r'.workspace == r.workspace
    && r'.status == r.status && r'.commits == r.commits && r'.prs == r.prs && r'.phases == r.phases
    && r'.saved == r.saved
    && r'.budget == r.budget.(tokensUsed := r'.budget.tokensUsed)
    && r'.coderRuns == r.coderRuns
    && (|| (r'.state.reviewRound == r.state.reviewRound && r'.gatewayCalls == r.gatewayCalls && r'.state.critique == "")
        || (r'.state.reviewRound == r.state.reviewRound + 1 && r'.gatewayCalls == r.gatewayCalls + 1))
  }

  lemma {:induction false} ReviewerEffect(d: Deps, w: World, input: NodeInput)
    ensures ReviewEdge(w.row, ReviewerNode(d, w, input).row)
  {
  }

  lemma {:induction false} ReviewEdgeProgress(r: Row, r': Row)
    requires Control(r) && r.at.AtReviewer? && ReviewEdge(r, r')
    ensures Progress(r, r')
  {
  }

  lemma {:induction false} ReviewerProgress(d: Deps, w: World, input: NodeInput)
    requires Control(w.row) && w.row.at.AtReviewer?
    ensures Progress(w.row, ReviewerNode(d, w, input).row)
  {
    ReviewerEffect(d, w, input);
    ReviewEdgeProgress(w.row, ReviewerNode(d, w, input).row);
  }

  /** What landing a step changes in the row: the next step, and a pause when the window is spent. */
  predicate CommitEdge(r: Row, r': Row) {
    var s := r.state;
    && r'.state == s.(stepIndex := s.stepIndex + 1, proposals := [], applied := [], critique := "", reviewRound := 0,
                      status := r'.state.status)
    && r'.state.status == (if r.budget.Exhausted() && s.stepIndex + 1 < |s.plan| then NeedsHuman else s.status)
    && r'.at == RouteAfterCommit(r'.state)
    && r'.owner == r.owner && r'.workspace == r.workspace && r'.saved == r.saved && r'.prs == r.prs
    && (r.status != Pending ==> r'.status != Pending)
    && r'.budget == r.budget && r'.coderRuns == r.coderRuns && r'.gatewayCalls == r.gatewayCalls
  }

  lemma {:induction false} CommitEffect(d: Deps, w: World, input: NodeInput)
    ensures CommitEdge(w.row, CommitNode(d, w, input).row)
  {
  }

  lemma {:induction false} CommitEdgeProgress(r: Row, r': Row)
    requires Control(r) && r.at.AtCommit? && CommitEdge(r, r')
    ensures Progress(r, r')
  {
  }

  lemma {:induction false} CommitProgress(d: Deps, w: World, input: NodeInput)
    requires Control(w.row) && w.row.at.AtCommit?
    ensures Progress(w.row, CommitNode(d, w, input).row)
  {
    CommitEffect(d, w, input);
    CommitEdgeProgress(w.row, CommitNode(d, w, input).row);
  }

  lemma {:induction false} TestEffect(d: Deps, w: World, input: NodeInput)
    ensures var r, r' := w.row, TestNode(d, w, input).row;
            r' == r.(events := r'.events, phases := r'.phases, at := RouteAfterTest(r'.state),
                     state := r.state.(testsPassed := r'.state.testsPassed))
  {
  }

  lemma {:induction false} TestProgress(d: Deps, w: World, input: NodeInput)
    requires Control(w.row) && w.row.at.AtTest?
    ensures Progress(w.row, TestNode(d, w, input).row)
  {
    TestEffect(d, w, input);
  }

  lemma {:induction false} DebugProgress(w: World, input: NodeInput)
    requires Control(w.row) && w.row.at.AtDebug?
    ensures Progress(w.row, DebugNode(w, input).row)
  {
  }

  lemma {:induction false} DocumentProgress(d: Deps, w: World, input: NodeInput)
    requires Control(w.row) && w.row.at.AtDocument?
    ensures Progress(w.row, DocumentNode(d, w, input).row)
  {
  }

  lemma {:induction false} OpenPrProgress(d: Deps, w: World, input: NodeInput)
    requires Control(w.row) && w.row.at.AtOpenPr?
    ensures Progress(w.row, OpenPrNode(d, w, input).row)
  {
  }

  lemma {:induction false} EscalateProgress(w: World)
    requires Control(w.row) && w.row.at.AtEscalate?
    ensures Progress(w.row, EscalateNode(w).row)
  {
  }

  lemma {:induction false} FinalizeProgress(w: World)
    requires Control(w.row) && w.row.at.AtFinalize?
    ensures Progress(w.row, FinalizeNode(w).row)
  {
  }

  lemma {:induction false} ApproveProgress(w: World)
    requires Control(w.row) && w.row.at.AtApprove?
    ensures Progress(w.row, ApproveNode(w).row)
  {
  }

  lemma {:induction false} GateEditsProgress(w: World)
    requires Control(w.row) && w.row.at.AtGateEdits?
    ensures Progress(w.row, GateEditsNode(w).row)
  {
  }

  lemma {:induction false} BudgetGateProgress(w: World)
    requires Control(w.row) && w.row.at.AtBudgetGate?
    ensures Progress(w.row, BudgetGateNode(w).row)
  {
  }

  lemma {:induction false} PrGateProgress(w: World)
    requires Control(w.row) && w.row.at.AtPrGate?
    ensures Progress(w.row, PrGateNode(w).row)
  {
  }

  /** Every superstep keeps the run well positioned and makes the measure smaller. */
  lemma {:induction false} AdvanceProgress(d: Deps, w: World, input: NodeInput)
    requires Control(w.row) && !w.row.at.AtEnd?
    ensures Progress(w.row, Advance(d, w, input).row)
  {
    if IsGate(w.row.at) { GateProgress(w); } else { StepProgress(d, w, input); }
  }

  lemma {:induction false} GateProgress(w: World)
    requires Control(w.row) && IsGate(w.row.at)
    ensures Progress(w.row, PassGate(w).row)
  {
    match w.row.at
    case AtApprove => ApproveProgress(w);
    case AtGateEdits => GateEditsProgress(w);
    case AtBudgetGate => BudgetGateProgress(w);
    case AtPrGate => PrGateProgress(w);
  }

  lemma {:induction false} StepProgress(d: Deps, w: World, input: NodeInput)
    requires Control(w.row) && !Paused(w.row.at)
    ensures Progress(w.row, Step(d, w, input).row)
  {
    match w.row.at
    case AtPlan => PlanProgress(w, input);
    case AtBranch => BranchProgress(d, w, input);
    case AtCoder => CoderProgress(d, w, input);
    case AtApplyEdits => ApplyEditsProgress(d, w, input);
    case AtReviewer => ReviewerProgress(d, w, input);
    case AtCommit => CommitProgress(d, w, input);
    case AtTest => TestProgress(d, w, input);
    case AtDebug => DebugProgress(w, input);
    case AtDocument => DocumentProgress(d, w, input);
    case AtOpenPr => OpenPrProgress(d, w, input);
    case AtEscalate => EscalateProgress(w);
    case AtFinalize => FinalizeProgress(w);
  }

  /**
   * One worker drive after its first superstep: node after node until the next
   * pause. That this is a total function is the termination of every drive.
   */
  function Drive(d: Deps, w: World, env: nat -> NodeInput, k: nat): (r: World)
    requires Control(w.row)
    ensures Control(r.row) && Paused(r.row.at)
    ensures r.row.owner == w.row.owner && r.row.workspace == w.row.workspace
    ensures w.row.status != Pending || w.row.at.AtPlan? ==> r.row.status != Pending
    ensures !w.row.at.AtPlan? && !w.row.at.AtApprove? ==> PlanGrows(w.row.state, r.row.state)
    decreases Stage(w.row.at), DebugLeft(w.row.state), StepsLeft(w.row.state), ReviewsLeft(w.row.state),
              NodeRank(w.row.at)
  {
    if Paused(w.row.at) then w
    else
      AdvanceProgress(d, w, env(k));
      Drive(d, Step(d, w, env(k)), env, k + 1)
  }

  lemma {:induction false} DriveOnce(d: Deps, w: World, env: nat -> NodeInput, k: nat)
    requires Control(w.row) && !Paused(w.row.at)
    ensures Control(Step(d, w, env(k)).row) && Drive(d, w, env, k) == Drive(d, Step(d, w, env(k)), env, k + 1)
  {
    StepProgress(d, w, env(k));
  }

  lemma {:induction false} DriveEnds(d: Deps, w: World, env: nat -> NodeInput, k: nat)
    requires Control(w.row) && Paused(w.row.at)
    ensures Drive(d, w, env, k) == w
  {
  }

  /** With every pause answered, a run always reaches its end. */
  function Finish(d: Deps, w: World, env: nat -> NodeInput, k: nat): (r: World)
    requires Control(w.row)
    ensures Control(r.row) && r.row.at.AtEnd?
    decreases Stage(w.row.at), DebugLeft(w.row.state), StepsLeft(w.row.state), ReviewsLeft(w.row.state),
              NodeRank(w.row.at)
  {
    if w.row.at.AtEnd? then w
    else
      AdvanceProgress(d, w, env(k));
      Finish(d, Advance(d, w, env(k)), env, k + 1)
  }

  /** A freshly created row: nothing planned, nothing charged. */
  function NewRow(owner: nat, workspace: Option<nat>, maxSteps: int, maxTokens: int, maxCost: real): (r: Row)
    ensures Control(r)
  {
    Row(owner, workspace, Pending, None, RunBudget(maxSteps, maxTokens, maxCost, 0, 0, 0.0),
        AtPlan, INITIAL_STATE, [RunStarted], [], [], 0, 0, [])
  }

  /**
   * At any point after approval of an n-step plan: at most 2(n + 2) coder executions and
   * 8n + 20 gateway calls, and the whole plan is behind a run that ships or has finished.
   */
  lemma {:induction false} ControlBounds(r: Row)
    requires Control(r) && !r.at.AtPlan? && !r.at.AtApprove?
    ensures r.coderRuns <= 2 * (ApprovedSteps(r.state) + 2)
    ensures r.gatewayCalls <= 8 * ApprovedSteps(r.state) + 20
    ensures InStep(r.at) ==> r.state.stepIndex < |r.state.plan|
    ensures Shipping(r.at) || (r.at.AtEnd? && r.state.status == Completed) ==>
              r.state.stepIndex == |r.state.plan| && r.state.testsPassed != Some(false)
  {
    assert 0 <= CoderLeft(r) && 0 <= ReviewerLeft(r);
  }

  /**
   * Steps charged since the last grant: never past max_steps + 1 while the approved plan
   * runs, never past max_steps + 5 once both debug steps are included.
   */
  lemma {:induction false} WindowBound(r: Row)
    requires Control(r) && r.budget.maxSteps >= 1
    ensures r.budget.stepsUsed <= r.budget.maxSteps + 1 + 2 * r.state.debugRound
    ensures r.state.debugRound == 0 ==> r.budget.stepsUsed <= r.budget.maxSteps + 1
    ensures r.budget.stepsUsed <= r.budget.maxSteps + 5
  {
  }

  /** One charged step for one coder execution. */
  predicate ChargedWithRun(r: Row, r': Row) {
    r'.coderRuns - r.coderRuns == r'.budget.stepsUsed - r.budget.stepsUsed
  }

  /** Every node charges exactly the coder executions it makes; only an answered budget pause starts over. */
  lemma {:induction false} AdvanceCharges(d: Deps, w: World, input: NodeInput)
    requires Control(w.row) && !w.row.at.AtEnd?
    ensures var r' := Advance(d, w, input).row;
            if w.row.at.AtBudgetGate? then r'.coderRuns == w.row.coderRuns && r'.budget.stepsUsed == 0
            else ChargedWithRun(w.row, r') && (w.row.at.AtCoder? ==> r'.coderRuns == w.row.coderRuns + 1)
  {
    if w.row.at.AtCoder? {
      CoderEffect(d, w, input);
    } else if w.row.at.AtReviewer? {
      ReviewerEffect(d, w, input);
    } else if w.row.at.AtCommit? {
      CommitEffect(d, w, input);
    } else if w.row.at.AtTest? {
      TestEffect(d, w, input);
    } else if w.row.at.AtApplyEdits? {
      ApplyAllFrame(d, w, w.row.state.proposals, input, 0, BatchOf(w.row.state.proposals));
    }
  }

  /** Within one drive, steps charged and coder executions go together. */
  lemma {:induction false} DriveCharges(d: Deps, w: World, env: nat -> NodeInput, k: nat)
    requires Control(w.row)
    ensures ChargedWithRun(w.row, Drive(d, w, env, k).row)
    decreases Stage(w.row.at), DebugLeft(w.row.state), StepsLeft(w.row.state), ReviewsLeft(w.row.state),
              NodeRank(w.row.at)
  {
    if !Paused(w.row.at) {
      AdvanceProgress(d, w, env(k));
      AdvanceCharges(d, w, env(k));
      DriveCharges(d, Step(d, w, env(k)), env, k + 1);
    }
  }
}
