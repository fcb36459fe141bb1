/**
 * The node bodies and the worker loop as they run: one object holds the row, the
 * checkpoint and the stores, and every node updates it in place. Each method is
 * proved against the node function of the same name.
 */
module RunWorker {
  import opened Common
  import opened RunDomain
  import opened ToolRegistry
  import G = RunGraph
  import C = RunControl
  import S = RunSystem
  import Text

  class GraphRun {
    const deps: G.Deps
    const run: nat
    const owner: nat
    const workspace: Option<nat>
    var status: RunStatus
    var saved: Option<Plan>
    var budget: RunBudget
    var at: G.Node
    var state: G.RunState
    var events: seq<G.Event>
    var commits: seq<string>
    var prs: seq<string>
    var coderRuns: nat
    var gatewayCalls: nat
    var phases: seq<TestOutcome>
    var approvals: seq<Approval>
    var executed: seq<G.Execution>

    function View(): G.World
      reads this
    {
      G.World(run,
              G.Row(owner, workspace, status, saved, budget, at, state, events, commits, prs, coderRuns, gatewayCalls,
                    phases),
              approvals, executed)
    }

    /** Loads a run row and the shared stores into a worker session. */
    constructor (deps: G.Deps, w: G.World)
      ensures View() == w && this.deps == deps
    {
      this.deps, run, owner, workspace := deps, w.run, w.row.owner, w.row.workspace;
      status, saved, budget, at, state := w.row.status, w.row.saved, w.row.budget, w.row.at, w.row.state;
      events, commits, prs := w.row.events, w.row.commits, w.row.prs;
      coderRuns, gatewayCalls, phases := w.row.coderRuns, w.row.gatewayCalls, w.row.phases;
      approvals, executed := w.approvals, w.executed;
    }

    method SetStatus(target: RunStatus)
      modifies this
      ensures View() == G.SetStatus(old(View()), target)
    {
      status := target;
      events := events + [G.StatusChanged(target)];
    }

    method ChargeBudget(tokens: nat, countStep: bool)
      modifies this
      ensures View() == G.Charge(old(View()), tokens, if countStep then 1 else 0)
    {
      budget := budget.(stepsUsed := budget.stepsUsed + (if countStep then 1 else 0),
                        tokensUsed := budget.tokensUsed + tokens);
    }

    method Invoke(tool: string, role: Role, approval: Option<Approval>, reply: ToolReply) returns (v: Verdict)
      modifies this
      ensures v == deps.registry.Invoke(tool, role, Some(run), approval, reply)
      ensures View() == G.EmitVerdict(old(View()), tool, v, reply)
    {
      v := deps.registry.Invoke(tool, role, Some(run), approval, reply);
      ghost var before := events;
      if v.ran { events := events + [G.ToolStarted(tool)]; }
      if v.ran && tool == G.TESTER_TOOL && G.HasReport(v, reply) {
        events := events + [G.TestsCompleted(reply.report.passed)];
      }
      if v.announced { events := events + [G.ToolCompleted(tool, v.outcome)]; }
      assert events == before + G.ToolEvents(tool, v, reply);
    }

    method Propose(spec: ToolSpec, call: G.ToolCall)
      modifies this
      ensures View() == G.Propose(old(View()), spec, call)
    {
      var id := |approvals|;
      approvals := approvals + [Approval(run, call.name, spec.sideEffect, Preview(call.arguments), Undecided, None)];
      state := state.(proposals := state.proposals + [G.Proposal(id, call.name, call.arguments)]);
      events := events + [G.ApprovalRequested(id, call.name)];
    }

    method Plan(input: G.NodeInput)
      modifies this
      ensures View() == G.PlanNode(old(View()), input)
    {
      var checkpoint := state;
      SetStatus(Planning);
      gatewayCalls := gatewayCalls + 1;
      var steps := ParsePlan(input.planText);
      saved := Some(RunDomain.Plan(1, steps));
      events := events + [G.PlanCreated(1, |steps|)];
      SetStatus(AwaitingApproval);
      at, state := G.AtApprove, checkpoint.(plan := steps, status := AwaitingApproval);
    }

    method Approve()
      modifies this
      ensures View() == G.ApproveNode(old(View()))
    {
      var steps := state.plan;
      if saved.Some? { steps := saved.value.steps; }
      SetStatus(Running);
      at, state := G.AtBranch, state.(plan := steps, stepIndex := 0, status := Running);
    }

    method Branch(input: G.NodeInput)
      modifies this
      ensures View() == G.BranchNode(deps, old(View()), input)
    {
      at := G.AtCoder;
      if deps.git && workspace.Some? { state := state.(branch := input.branch); }
    }

    /** Answers one reply's tool calls: write calls are queued, read calls go to the registry. */
    method AnswerCalls(calls: seq<G.ToolCall>)
      modifies this
      ensures View() == G.CoderCalls(deps, old(View()), calls)
    {
      ghost var start := View();
      assert calls[0..] == calls;
      for i := 0 to |calls|
        invariant G.CoderCalls(deps, View(), calls[i..]) == G.CoderCalls(deps, start, calls)
      {
        var call := calls[i];
        ghost var w := View();
        var spec := deps.registry.SpecFor(call.name);
        if spec.Some? && !spec.value.sideEffect.Read? {
          Propose(spec.value, call);
        } else {
          var _ := Invoke(call.name, Viewer, None, call.reply);
        }
        assert View() == G.CoderCall(deps, w, call);
        assert calls[i..][1..] == calls[i + 1..];
      }
    }

    method AskModel()
      modifies this
      ensures View() == G.CountGateway(old(View()))
    {
      gatewayCalls := gatewayCalls + 1;
    }

    /** One gateway round; `more` says that tool calls were answered. */
    method Round(reply: G.ModelReply) returns (more: bool)
      modifies this
      ensures more == (reply.calls != [])
      ensures View() == G.CoderCalls(deps, G.CountGateway(old(View())), reply.calls)
    {
      AskModel();
      AnswerCalls(reply.calls);
      more := reply.calls != [];
    }

    /** The conversation will end as `whole`, with this much of it behind. */
    ghost predicate OnCourse(whole: G.CoderResult, input: G.NodeInput, round: nat, tokens: nat, more: bool)
      requires round <= G.MAX_TOOL_ROUNDS
      reads this
    {
      whole == if more then G.CoderRounds(deps, View(), input, round, tokens) else G.CoderResult(View(), tokens)
    }

    /** One gateway round of the conversation. */
    method ConverseOnce(input: G.NodeInput, round: nat, tokens: nat, ghost whole: G.CoderResult)
      returns (used: nat, more: bool)
      requires round < G.MAX_TOOL_ROUNDS && OnCourse(whole, input, round, tokens, true)
      modifies this
      ensures OnCourse(whole, input, round + 1, used, more)
    {
      G.CoderRoundsStep(deps, View(), input, round, tokens);
      var reply := input.replies(round);
      more := Round(reply);
      used := tokens + reply.tokens;
    }

    /** At most three gateway rounds; returns the tokens they used. */
    method Converse(input: G.NodeInput) returns (tokens: nat)
      modifies this
      ensures G.CoderResult(View(), tokens) == G.CoderRounds(deps, old(View()), input, 0, 0)
    {
      ghost var whole := G.CoderRounds(deps, View(), input, 0, 0);
      tokens := 0;
      var round: nat, more := 0, true;
      while round < G.MAX_TOOL_ROUNDS && more
        invariant round <= G.MAX_TOOL_ROUNDS && OnCourse(whole, input, round, tokens, more)
      {
        tokens, more := ConverseOnce(input, round, tokens, whole);
        round := round + 1;
      }
      G.CoderRoundsEnd(deps, View(), input, tokens);
    }

    /** One coder execution: converse, charge one step, then park behind any proposals. */
    method Coder(input: G.NodeInput)
      modifies this
      ensures View() == G.CoderNode(deps, old(View()), input)
    {
      var tokens := Converse(input);
      ChargeBudget(tokens, true);
      coderRuns := coderRuns + 1;
      if state.proposals != [] {
        SetStatus(AwaitingApproval);
        at, state := G.AtGateEdits, state.(status := AwaitingApproval);
      } else {
        at := G.RouteAfterCoder(state);
      }
    }

    /** One proposal of the batch: look its approval up, and let the registry decide. */
    method ApplyProposal(p: G.Proposal, reply: ToolReply, batch: seq<nat>)
      modifies this
      ensures View() == G.ApplyOne(deps, old(View()), p, reply, batch)
    {
      var approval := G.GetApproval(approvals, p.approvalId);
      var v := Invoke(p.tool, Developer, approval, reply);
      if v.ran && !deps.registry.byName[p.tool].sideEffect.Read? {
        executed := executed + [G.Execution(run, p.approvalId, p.tool, p.arguments, batch)];
      }
      if v.outcome.Success? && p.arguments.path.Some? {
        state := state.(applied := state.applied + [p.arguments.path.value]);
      }
    }

    method ApplyEdits(input: G.NodeInput)
      modifies this
      ensures View() == G.ApplyEditsNode(deps, old(View()), input)
    {
      var before := state.applied;
      ApplyPart(state.proposals, G.BatchOf(state.proposals), input);
      if state.applied != before {
        events := events + [G.CodeGenerated(state.stepIndex, state.applied[|before|..])];
      }
      at, state := G.AtReviewer, state.(proposals := []);
    }

    method Reviewer(input: G.NodeInput)
      modifies this
      ensures View() == G.ReviewerNode(deps, old(View()), input)
    {
      if !deps.git || workspace.None? || state.applied == [] {
        state := state.(critique := "");
        at := G.RouteAfterReviewer(state);
      } else {
        var text := Text.Strip(input.replies(0).text, Text.IsSpace);
        Review(text, input.replies(0).tokens);
      }
    }

    /** The model was asked about the diff: charge, announce the verdict, keep the critique. */
    method Review(text: string, tokens: nat)
      modifies this
      ensures View() == G.Reviewed(old(View()), text, tokens)
    {
      AskModel();
      ChargeBudget(tokens, false);
      var iteration := state.reviewRound + 1;
      var approved := G.SaysApprove(text);
      events := events + [G.ReviewCompleted(state.stepIndex, iteration, approved)];
      state := state.(critique := if approved then "" else text, reviewRound := iteration);
      at := G.RouteAfterReviewer(state);
    }

    method LandStep(outcome: G.CommitOutcome)
      modifies this
      ensures View() == G.LandStep(deps, old(View()), outcome)
    {
      if deps.git && workspace.Some? && state.applied != [] {
        match outcome {
          case Blocked => events := events + [G.CommitBlocked(state.stepIndex)];
          case Committed(sha) =>
            commits := commits + [sha];
            events := events + [G.StepCommitted(state.stepIndex, sha, state.branch)];
          case NothingToCommit =>
        }
      }
    }

    method Commit(input: G.NodeInput)
      modifies this
      ensures View() == G.CommitNode(deps, old(View()), input)
    {
      LandStep(input.commit);
      var next := state.(stepIndex := state.stepIndex + 1, proposals := [], applied := [], critique := "",
                         reviewRound := 0);
      if budget.Exhausted() && next.stepIndex < |next.plan| {
        SetStatus(NeedsHuman);
        next := next.(status := NeedsHuman);
      }
      at, state := G.RouteAfterCommit(next), next;
    }

    method BudgetGate()
      modifies this
      ensures View() == G.BudgetGateNode(old(View()))
    {
      budget := budget.(stepsUsed := 0);
      SetStatus(Running);
      at, state := G.AtCoder, state.(status := Running);
    }

    method Test(input: G.NodeInput)
      modifies this
      ensures View() == G.TestNode(deps, old(View()), input)
    {
      var report := Silent;
      if workspace.Some? && deps.registry.SpecFor(G.TESTER_TOOL).Some? {
        var reply := input.tools(0);
        var v := Invoke(G.TESTER_TOOL, Developer, None, reply);
        if G.HasReport(v, reply) { report := reply.report; }
      }
      phases := phases + [report];
      state := state.(testsPassed := if report.Reported? && report.ran then Some(report.passed) else None);
      at := G.RouteAfterTest(state);
    }

    method Debug(input: G.NodeInput)
      modifies this
      ensures View() == G.DebugNode(old(View()), input)
    {
      AskModel();
      ChargeBudget(input.replies(0).tokens, false);
      var attempt := state.debugRound + 1;
      events := events + [G.FixGenerated(attempt)];
      at := G.AtCoder;
      state := state.(plan := state.plan + [PlanStep(|state.plan|, G.FixTitle(attempt))], debugRound := attempt,
      testsPassed := None, proposals := [], applied := [], critique := "", reviewRound := 0);
    }

    method Document(input: G.NodeInput)
      modifies this
      ensures View() == G.DocumentNode(deps, old(View()), input)
    {
      AskModel();
      ChargeBudget(input.replies(0).tokens, false);
      events := events + [G.DocsGenerated];
      at := if deps.pr && workspace.Some? then G.AtPrGate else G.AtFinalize;
    }

    method OpenPr(input: G.NodeInput)
      modifies this
      ensures View() == G.OpenPrNode(deps, old(View()), input)
    {
      at := G.AtFinalize;
      if deps.pr && workspace.Some? && state.branch != "" && input.pull.Some? {
        var pr := input.pull.value;
        prs := prs + [pr.url];
        events := events + [G.PullRequestOpened(pr.number, pr.url, state.branch)];
        state := state.(prUrl := pr.url);
      }
    }

    method Escalate()
      modifies this
      ensures View() == G.EscalateNode(old(View()))
    {
      SetStatus(NeedsHuman);
      events := events + [G.RunReported("needs_human", |state.plan|, state.testsPassed, None)];
      at, state := G.AtEnd, state.(status := NeedsHuman);
    }

    method Finalize()
      modifies this
      ensures View() == G.FinalizeNode(old(View()))
    {
      SetStatus(Completed);
      events := events + [G.RunCompleted];
      var url := if state.prUrl == "" then None else Some(state.prUrl);
      events := events + [G.RunReported("completed", |state.plan|, state.testsPassed, url)];
      at, state := G.AtEnd, state.(status := Completed);
    }

    method PassGate()
      requires G.IsGate(at)
      modifies this
      ensures View() == G.PassGate(old(View()))
    {
      match at {
        case AtApprove => Approve();
        case AtBudgetGate => BudgetGate();
        case AtGateEdits => at, state := G.AtApplyEdits, state.(status := Running);
        case AtPrGate => at, state := G.AtOpenPr, state.(status := Running);
      }
    }

    method RunNode(input: G.NodeInput)
      requires !G.Paused(at)
      modifies this
      ensures View() == G.Step(deps, old(View()), input)
    {
      match at {
        case AtPlan => Plan(input);
        case AtBranch => Branch(input);
        case AtCoder => Coder(input);
        case AtApplyEdits => ApplyEdits(input);
        case AtReviewer => Reviewer(input);
        case AtCommit => Commit(input);
        case AtTest => Test(input);
        case AtDebug => Debug(input);
        case AtDocument => Document(input);
        case AtOpenPr => OpenPr(input);
        case AtEscalate => Escalate();
        case AtFinalize => Finalize();
      }
    }

    /** Start a pending run, or let a paused one through its gate. */
    method StartOrResume()
      modifies this
      ensures View() == G.Begin(old(View()))
    {
      if status == Pending {
        at, state := G.AtPlan, G.INITIAL_STATE;
      } else if G.IsGate(at) {
        PassGate();
      }
    }

    /** One node of a drive: what is left of the drive is the same. */
    method DriveNode(env: nat -> G.NodeInput, k: nat)
      requires C.Control(View().row) && !G.Paused(at)
      modifies this
      ensures View() == G.Step(deps, old(View()), env(k))
      ensures C.Control(View().row) && C.Smaller(View().row, old(View().row))
      ensures C.Drive(deps, View(), env, k + 1) == old(C.Drive(deps, View(), env, k))
    {
      C.StepProgress(deps, View(), env(k));
      C.DriveOnce(deps, View(), env, k);
      RunNode(env(k));
    }

    /** Start or resume, then node after node to the next pause; the loop always terminates. */
    method DriveToPause(env: nat -> G.NodeInput)
      requires C.Control(G.Begin(View()).row)
      modifies this
      ensures View() == C.Drive(deps, G.Begin(old(View())), env, 0)
      ensures G.Paused(at)
    {
      StartOrResume();
      ghost var whole := C.Drive(deps, View(), env, 0);
      var k := 0;
      while !G.Paused(at)
        invariant C.Control(View().row) && C.Drive(deps, View(), env, k) == whole
        decreases C.Stage(at), C.DebugLeft(state), C.StepsLeft(state), C.ReviewsLeft(state), C.NodeRank(at)
      {
        DriveNode(env, k);
        k := k + 1;
      }
    }

    /** A node that raises leaves its checkpoint and staged events as they were; mutations that ran have run. */
    method RaiseAt(input: G.NodeInput, part: nat)
      modifies this
      ensures View() == S.Struck(deps, old(View()), input, part)
    {
      if !at.AtApplyEdits? { return; }
      var savedState, savedEvents := state, events;
      var batch := G.BatchOf(state.proposals);
      ApplyPart(Take(state.proposals, part), batch, input);
      state, events := savedState, savedEvents;
    }

    /** Applies proposals of a batch one after the other. */
    method ApplyPart(proposals: seq<G.Proposal>, batch: seq<nat>, input: G.NodeInput)
      modifies this
      ensures View() == G.ApplyAll(deps, old(View()), proposals, input, 0, batch)
      ensures C.ApplyFrame(old(View()), View())
    {
      ghost var start := View();
      for i := 0 to |proposals|
        invariant G.ApplyAll(deps, View(), proposals, input, i, batch) ==
                  G.ApplyAll(deps, start, proposals, input, 0, batch)
      {
        ApplyProposal(proposals[i], input.tools(i), batch);
      }
      C.ApplyAllFrame(deps, start, proposals, input, 0, batch);
    }

    /** The same drive, cut off by an exception in the node after `crash.steps` others. */
    method DriveToCrash(env: nat -> G.NodeInput, crash: S.Crash)
      requires C.Control(G.Begin(View()).row)
      modifies this
      ensures View() == S.CrashWorld(deps, G.Begin(old(View())), env, 0, crash)
    {
      StartOrResume();
      var k;
      ghost var left;
      k, left := NodesBeforeCrash(env, crash);
      S.CrashStops(deps, View(), env, k, left);
      RaiseAt(env(k), crash.part);
    }

    /** The nodes that end before the one that raises; `left` is the crash as seen from there. */
    method NodesBeforeCrash(env: nat -> G.NodeInput, crash: S.Crash) returns (k: nat, ghost left: S.Crash)
      requires C.Control(View().row)
      modifies this
      ensures left.part == crash.part && (left.steps == 0 || G.Paused(at)) && C.Control(View().row)
      ensures S.CrashWorld(deps, View(), env, k, left) == old(S.CrashWorld(deps, View(), env, 0, crash))
    {
      k, left := 0, crash;
      ghost var whole := S.CrashWorld(deps, View(), env, k, left);
      while k < crash.steps && !G.Paused(at)
        invariant k <= crash.steps && left.steps == crash.steps - k && left.part == crash.part
        invariant C.Control(View().row) && S.CrashWorld(deps, View(), env, k, left) == whole
      {
        left := CrashNode(env, k, left);
        k := k + 1;
      }
    }

    /** One node before the one that raises. */
    method CrashNode(env: nat -> G.NodeInput, k: nat, ghost crash: S.Crash) returns (ghost left: S.Crash)
      requires C.Control(View().row) && !G.Paused(at) && crash.steps > 0
      modifies this
      ensures C.Control(View().row) && left == S.Crash(crash.steps - 1, crash.part)
      ensures S.CrashWorld(deps, View(), env, k + 1, left) == old(S.CrashWorld(deps, View(), env, k, crash))
    {
      left := S.Crash(crash.steps - 1, crash.part);
      S.CrashOnce(deps, View(), env, k, crash);
      RunNode(env(k));
    }
  }
}

/** The run service and the worker entry point over the shared store, each request all or nothing. */
module RunServiceImpl {
  import opened Common
  import opened RunDomain
  import opened RunGraph
  import opened RunGrants
  import C = RunControl
  import S = RunSystem
  import T = RunTheorems
  import W = RunWorker

  class RunService {
    const deps: Deps
    var runs: seq<Row>
    var approvals: seq<Approval>
    var executed: seq<Execution>
    var queue: multiset<nat>

    function View(): S.System
      reads this
    {
      S.System(runs, approvals, executed, queue)
    }

    /** Runs, approvals, executions and budgets are in order, so what holds of every history holds of the object. */
    ghost predicate Valid()
      reads this
    {
      WorkerRegistry(deps.registry) && S.SystemOk(deps, View())
    }

    /** Whatever requests and deliveries the object has served, every executed mutation was granted. */
    lemma Safe()
      requires Valid()
      ensures T.CallsGranted(View())
    {
      T.OkCallsGranted(deps, View());
    }

    constructor (deps: Deps)
      requires WorkerRegistry(deps.registry)
      ensures Valid() && View() == S.EMPTY && this.deps == deps
    {
      this.deps := deps;
      runs, approvals, executed, queue := [], [], [], multiset{};
    }

    method Create(owner: nat, workspace: Option<nat>, maxSteps: int, maxTokens: int, maxCost: real) returns (run: nat)
      requires Valid()
      modifies this
      ensures Valid()
      ensures run == |old(runs)|
      ensures View() == S.CreateRun(old(View()), owner, workspace, maxSteps, maxTokens, maxCost)
    {
      S.RequestOk(deps, View(), S.DoCreate(owner, workspace, maxSteps, maxTokens, maxCost));
      run := |runs|;
      runs := runs + [C.NewRow(owner, workspace, maxSteps, maxTokens, maxCost)];
      queue := queue + multiset{run};
    }

    /** What a request does to the store: its whole effect, or none of it and a refusal. */
    twostate predicate Answers(new result: Result<S.System, S.Refusal>, new refusal: Option<S.Refusal>)
      reads this
    {
      match result
      case Ok(s') => refusal == None && View() == s'
      case Err(e) => refusal == Some(e) && View() == old(View())
    }

    method Require(actor: nat, run: nat) returns (found: bool)
      ensures found == S.Visible(View(), actor, run)
    {
      found := run < |runs| && runs[run].owner == actor;
    }

    method MoveTo(run: nat, target: RunStatus) returns (refusal: Option<S.Refusal>)
      requires run < |runs|
      modifies this
      ensures CanTransition(old(runs[run].status), target) ==>
                && refusal == None
                && View() == old(View()).(runs := old(runs)[run := S.Transition(old(runs[run]), target)])
      ensures !CanTransition(old(runs[run].status), target) ==> refusal == Some(S.Conflict) && View() == old(View())
    {
      if !CanTransition(runs[run].status, target) { return Some(S.Conflict); }
      var r := runs[run];
      runs := runs[run := r.(status := target, events := r.events + [StatusChanged(target)])];
      refusal := None;
    }

    method Pending(run: nat) returns (some: bool)
      ensures some == S.HasPending(approvals, run)
    {
      some := false;
      for id := 0 to |approvals|
        invariant some <==> exists k :: 0 <= k < id && approvals[k].run == run && approvals[k].status == Undecided
      {
        if approvals[id].run == run && approvals[id].status == Undecided { some := true; }
      }
    }

    method EditPlan(actor: nat, run: nat, steps: seq<PlanStep>) returns (refusal: Option<S.Refusal>)
      requires Valid()
      modifies this
      ensures Valid() && Answers(old(S.EditPlan(View(), actor, run, steps)), refusal)
    {
      S.RequestOk(deps, View(), S.DoEdit(actor, run, steps));
      refusal := StorePlan(actor, run, steps);
    }

    method StorePlan(actor: nat, run: nat, steps: seq<PlanStep>) returns (refusal: Option<S.Refusal>)
      modifies this
      ensures Answers(old(S.EditPlan(View(), actor, run, steps)), refusal)
    {
      if !(1 <= |steps| <= 50) { return Some(S.Invalid); }
      var found := Require(actor, run);
      if !found { return Some(S.NotFound); }
      var r := runs[run];
      if r.status != Planning && r.status != AwaitingApproval { return Some(S.Conflict); }
      var version := 1;
      if r.saved.Some? { version := r.saved.value.version + 1; }
      r := r.(saved := Some(Plan(version, steps)));
      runs := runs[run := r.(events := r.events + [PlanCreated(version, |steps|)])];
      refusal := None;
    }

    method Cancel(actor: nat, run: nat) returns (refusal: Option<S.Refusal>)
      requires Valid()
      modifies this
      ensures Valid() && Answers(old(S.Cancel(View(), actor, run)), refusal)
    {
      S.RequestOk(deps, View(), S.DoCancel(actor, run));
      var found := Require(actor, run);
      if !found { return Some(S.NotFound); }
      if IsTerminal(runs[run].status) { return Some(S.Conflict); }
      refusal := MoveTo(run, Cancelled);
    }

    method Resume(actor: nat, run: nat) returns (refusal: Option<S.Refusal>)
      requires Valid()
      modifies this
      ensures Valid() && Answers(old(S.Resume(View(), actor, run)), refusal)
    {
      S.RequestOk(deps, View(), S.DoResume(actor, run));
      var found := Require(actor, run);
      if !found { return Some(S.NotFound); }
      if runs[run].status != NeedsHuman && runs[run].status != AwaitingApproval { return Some(S.Conflict); }
      var waiting := Pending(run);
      if waiting { return Some(S.Conflict); }
      refusal := MoveTo(run, Running);
      if refusal == None { queue := queue + multiset{run}; }
    }

    method ResolveApproval(actor: nat, run: nat, id: nat, approved: bool) returns (refusal: Option<S.Refusal>)
      requires Valid()
      modifies this
      ensures Valid() && Answers(old(S.Resolve(View(), actor, run, id, approved)), refusal)
    {
      S.RequestOk(deps, View(), S.DoResolve(actor, run, id, approved));
      refusal := Decide(actor, run, id, approved);
    }

    /** Decides one approval; a transition that is refused undoes the decision with it. */
    method Decide(actor: nat, run: nat, id: nat, approved: bool) returns (refusal: Option<S.Refusal>)
      modifies this
      ensures Answers(old(S.Resolve(View(), actor, run, id, approved)), refusal)
    {
      var found := Require(actor, run);
      if !found || id >= |approvals| || approvals[id].run != run { return Some(S.NotFound); }
      if approvals[id].status != Undecided { return Some(S.Conflict); }
      var savedRuns, savedApprovals := runs, approvals;
      var verdict := if approved then Approved else Rejected;
      approvals := approvals[id := approvals[id].(status := verdict, decidedBy := Some(actor))];
      runs := runs[run := runs[run].(events := runs[run].events + [ApprovalResolved(id, approved)])];
      if !approved {
        refusal := MoveTo(run, Cancelled);
      } else {
        var waiting := Pending(run);
        if waiting { return None; }
        refusal := MoveTo(run, Running);
        if refusal == None { queue := queue + multiset{run}; }
      }
      if refusal.Some? { runs, approvals := savedRuns, savedApprovals; }
    }

    /**
     * The worker task: skip, or load the run and drive it to its next pause and commit once; or, when the
     * drive raises, roll the session back and mark the run failed in a fresh one.
     */
    method WorkOn(run: nat, env: nat -> NodeInput, crash: Option<S.Crash>)
      requires Valid()
      modifies this
      ensures Valid() && View() == S.Work(deps, old(View()), run, env, crash)
    {
      S.WorkOk(deps, View(), run, env, crash);
      if run >= |runs| || IsTerminal(runs[run].status) { return; }
      S.BeginOk(deps, View(), run);
      if crash.None? { Drive(run, env); } else { FailDrive(run, env, crash.value); }
    }

    method Drive(run: nat, env: nat -> NodeInput)
      requires S.Drivable(View(), run)
      modifies this
      ensures View() == S.Work(deps, old(View()), run, env, None)
    {
      var session := new W.GraphRun(deps, S.WorldOf(View(), run));
      session.DriveToPause(env);
      var w := session.View();
      runs, approvals, executed := runs[run := w.row], w.approvals, w.executed;
    }

    method FailDrive(run: nat, env: nat -> NodeInput, crash: S.Crash)
      requires S.Drivable(View(), run)
      modifies this
      ensures View() == S.Work(deps, old(View()), run, env, Some(crash))
    {
      var session := new W.GraphRun(deps, S.WorldOf(View(), run));
      session.DriveToCrash(env, crash);
      MarkFailed(run, session.View());
    }

    /** Everything staged is gone; the checkpoint, the branch, the provider and the executed mutations are not. */
    method MarkFailed(run: nat, left: World)
      requires run < |runs|
      modifies this`runs, this`executed
      ensures runs == old(runs)[run := S.FailedRow(old(runs[run]), left.row)] && executed == left.executed
    {
      var before := runs[run];
      var r := left.row.(status := Failed, saved := before.saved, budget := before.budget,
                         events := before.events + [StatusChanged(Failed)]);
      runs, executed := runs[run := r], left.executed;
    }
  }
}
