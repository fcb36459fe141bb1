/**
 * What a run's event timeline says: the trail of stored statuses, and the report
 * folded from it (agents/application/report.py).
 */
module RunHistory {
  import opened Common
  import opened RunDomain
  import opened ToolRegistry
  import opened RunGraph
  import opened RunControl
  import opened RunGrants
  import Text

  // ---------------------------------------------------------------- status trail

  function Init(events: seq<Event>): seq<Event>
    requires events != []
  {
    events[..|events| - 1]
  }

  function Last(events: seq<Event>): Event
    requires events != []
  {
    events[|events| - 1]
  }

  /** The status the events announce; a run starts as pending. */
  function LastStatus(events: seq<Event>): RunStatus {
    if events == [] then Pending
    else if Last(events).StatusChanged? then Last(events).status
    else LastStatus(Init(events))
  }

  /** Every announced status is an allowed transition from the one before, or a repetition. */
  predicate Lawful(events: seq<Event>) {
    events != [] ==>
      && Lawful(Init(events))
      && (Last(events).StatusChanged? ==> AllowedOrSame(LastStatus(Init(events)), Last(events).status))
  }

  /** The announced trail is lawful and ends in the stored status. */
  predicate TrailOk(r: Row) { Lawful(r.events) && LastStatus(r.events) == r.status }

  // ---------------------------------------------------------------- report

  datatype Report = Report(commits: seq<string>, testsPassed: Option<bool>, prUrl: Option<string>, conclusion: string)

  const EMPTY_REPORT := Report([], None, None, "in_progress")

  function ReportEvent(r: Report, e: Event): Report {
    match e
    case StepCommitted(_, sha, _) => r.(commits := r.commits + [sha])
    case TestsCompleted(passed) => r.(testsPassed := Some(passed))
    case PullRequestOpened(_, url, _) => r.(prUrl := Some(url))
    case RunReported(conclusion, _, tests, url) =>
      r.(conclusion := conclusion,
      testsPassed := if tests.Some? then tests else r.testsPassed,
      prUrl := if url.Some? then url else r.prUrl)
    case _ => r
  }

  function ReportOf(events: seq<Event>): Report {
    if events == [] then EMPTY_REPORT else ReportEvent(ReportOf(Init(events)), Last(events))
  }

  /** The loop of build_run_report. */
  method BuildReport(events: seq<Event>) returns (r: Report)
    ensures r == ReportOf(events)
  {
    var commits: seq<string> := [];
    var testsPassed: Option<bool> := None;
    var prUrl: Option<string> := None;
    var conclusion := "in_progress";
    for i := 0 to |events|
      invariant Report(commits, testsPassed, prUrl, conclusion) == ReportOf(events[..i])
    {
      match events[i] {
        case StepCommitted(_, sha, _) => commits := commits + [sha];
        case TestsCompleted(passed) => testsPassed := Some(passed);
        case PullRequestOpened(_, url, _) => prUrl := Some(url);
        case RunReported(c, _, tests, url) =>
          conclusion := c;
          if tests.Some? { testsPassed := tests; }
          if url.Some? { prUrl := url; }
        case _ =>
      }
      assert Init(events[..i + 1]) == events[..i];
    }
    assert events[..|events|] == events;
    r := Report(commits, testsPassed, prUrl, conclusion);
  }

  // ---------------------------------------------------------------- events that matter to neither

  predicate Quiet(e: Event) {
    !e.StatusChanged? && !e.StepCommitted? && !e.TestsCompleted? && !e.PullRequestOpened? && !e.RunReported?
  }

  predicate QuietTail(a: seq<Event>, b: seq<Event>) {
    a <= b && forall i :: |a| <= i < |b| ==> Quiet(b[i])
  }

  lemma {:induction false} QuietKeeps(a: seq<Event>, b: seq<Event>)
    requires QuietTail(a, b)
    ensures LastStatus(b) == LastStatus(a) && Lawful(b) == Lawful(a)
    ensures ReportOf(b) == ReportOf(a)
    decreases |b|
  {
    if |a| < |b| {
      assert Quiet(b[|b| - 1]);
      QuietKeeps(a, Init(b));
    } else {
      assert a == b;
    }
  }

  /** One more event, in terms of the events before it. */
  lemma {:induction false} Snoc(events: seq<Event>, e: Event)
    ensures LastStatus(events + [e]) == if e.StatusChanged? then e.status else LastStatus(events)
    ensures Lawful(events + [e]) <==>
            Lawful(events) && (e.StatusChanged? ==> AllowedOrSame(LastStatus(events), e.status))
    ensures ReportOf(events + [e]) == ReportEvent(ReportOf(events), e)
  {
    assert Init(events + [e]) == events;
  }

  // ---------------------------------------------------------------- quiet nodes

  /** A registry call says nothing the report reads, except a developer's call of the test tool. */
  lemma {:induction false} ToolEventsQuiet(d: Deps, tool: string, role: Role, run: Option<nat>, a: Option<Approval>,
                                           reply: ToolReply)
    requires WorkerRegistry(d.registry)
    requires tool == TESTER_TOOL ==> role == Viewer
    ensures forall e :: e in ToolEvents(tool, d.registry.Invoke(tool, role, run, a, reply), reply) ==> Quiet(e)
  {
  }

  lemma {:induction false} CoderCallsQuiet(d: Deps, w: World, calls: seq<ToolCall>)
    requires WorkerRegistry(d.registry)
    ensures QuietTail(w.row.events, CoderCalls(d, w, calls).row.events)
    decreases |calls|
  {
    if calls != [] {
      ToolEventsQuiet(d, calls[0].name, Viewer, Some(w.run), None, calls[0].reply);
      CoderCallsQuiet(d, CoderCall(d, w, calls[0]), calls[1..]);
    }
  }

  lemma {:induction false} CoderRoundsQuiet(d: Deps, w: World, input: NodeInput, round: nat, tokens: nat)
    requires WorkerRegistry(d.registry) && round <= MAX_TOOL_ROUNDS
    ensures QuietTail(w.row.events, CoderRounds(d, w, input, round, tokens).w.row.events)
    decreases MAX_TOOL_ROUNDS - round
  {
    if round < MAX_TOOL_ROUNDS && input.replies(round).calls != [] {
      var reply := input.replies(round);
      CoderCallsQuiet(d, CountGateway(w), reply.calls);
      CoderRoundsQuiet(d, CoderCalls(d, CountGateway(w), reply.calls), input, round + 1, tokens + reply.tokens);
    }
  }

  lemma {:induction false} ApplyAllQuiet(d: Deps, w: World, proposals: seq<Proposal>, input: NodeInput, i: nat,
                                         batch: seq<nat>)
    requires WorkerRegistry(d.registry) && i <= |proposals| && AllRecorded(d, w.approvals, w.run, proposals)
    ensures QuietTail(w.row.events, ApplyAll(d, w, proposals, input, i, batch).row.events)
    decreases |proposals| - i
  {
    if i < |proposals| {
      var p := proposals[i];
      assert p in proposals && Recorded(d, w.approvals, w.run, p);
      ToolEventsQuiet(d, p.tool, Developer, Some(w.run), GetApproval(w.approvals, p.approvalId), input.tools(i));
      ApplyAllQuiet(d, ApplyOne(d, w, p, input.tools(i), batch), proposals, input, i + 1, batch);
    }
  }

  // ---------------------------------------------------------------- the report tells the truth

  function OpenedUrl(r: Row): Option<string> {
    if r.prs == [] then None else Some(r.prs[|r.prs| - 1])
  }

  function Conclusion(r: Row): string {
    if !r.at.AtEnd? then "in_progress"
    else if r.state.status == Completed then "completed" else "needs_human"
  }

  /** What the last phase whose tool reported said. */
  function LastReport(phases: seq<TestOutcome>): Option<bool> {
    if phases == [] then None
    else
      var last := phases[|phases| - 1];
      if last.Reported? then Some(last.passed) else LastReport(phases[..|phases| - 1])
  }

  /** The verdict of the last phase. */
  function LastVerdict(phases: seq<TestOutcome>): Option<bool> {
    if phases == [] then None else PhaseVerdict(phases[|phases| - 1])
  }

  /** The nodes from which a test phase is still to come. */
  predicate Untested(at: Node) { Early(at) || InStep(at) || at.AtTest? }

  /** The report shows the last verdict reported; the run goes by the last phase, until debugging. */
  predicate TestsAgree(reported: Option<bool>, r: Row) {
    && reported == LastReport(r.phases)
    && r.state.testsPassed == (if Untested(r.at) then None else LastVerdict(r.phases))
    && (Untested(r.at) && r.phases != [] ==> LastVerdict(r.phases) == Some(false))
  }

  /** A report agrees with a row. */
  predicate Matches(report: Report, r: Row) {
    && report.commits == r.commits
    && report.prUrl == OpenedUrl(r)
    && (r.state.prUrl != "" ==> OpenedUrl(r) == Some(r.state.prUrl))
    && TestsAgree(report.testsPassed, r)
    && report.conclusion == Conclusion(r)
  }

  /** The report lists the commits, the pull request, the tests and the ending of this row. */
  predicate Truthful(r: Row) { Matches(ReportOf(r.events), r) }

  /** The status a run has when its drive arrives at a node. */
  function NodeStatus(r: Row): RunStatus {
    match r.at
    case AtPlan => Pending
    case AtApprove => AwaitingApproval
    case AtGateEdits => AwaitingApproval
    case AtBudgetGate => NeedsHuman
    case AtEnd => if r.state.status == Completed then Completed else NeedsHuman
    case _ => Running
  }

  /** Arriving lawfully: the trail is lawful and the stored status is the node's own. */
  predicate OnTrack(r: Row) { TrailOk(r) && r.status == NodeStatus(r) }

  /** What a superstep must keep: a true report, and a lawful trail if there was one. */
  predicate Keeps(r: Row, r': Row) {
    Truthful(r') && (OnTrack(r) ==> OnTrack(r'))
  }

  /** Drafting announces planning, the plan and the wait for approval, in that order. */
  lemma {:induction false} PlannedSays(r: Row, r': Row, count: nat)
    requires Truthful(r) && r.at.AtPlan? && r'.at.AtApprove? && r'.status == AwaitingApproval
    requires r'.commits == r.commits && r'.prs == r.prs && r'.phases == r.phases
    requires r'.state == r.state.(plan := r'.state.plan, status := r'.state.status)
    requires r'.events == r.events + [StatusChanged(Planning)] + [PlanCreated(1, count)]
             + [StatusChanged(AwaitingApproval)]
    ensures Keeps(r, r')
  {
    Snoc(r.events, StatusChanged(Planning));
    Snoc(r.events + [StatusChanged(Planning)], PlanCreated(1, count));
    Snoc(r.events + [StatusChanged(Planning)] + [PlanCreated(1, count)], StatusChanged(AwaitingApproval));
  }

  lemma {:induction false} PlanSays(w: World, input: NodeInput)
    requires Truthful(w.row) && Shape(w.row) && w.row.at.AtPlan?
    ensures Keeps(w.row, PlanNode(w, input).row)
  {
    PlannedSays(w.row, PlanNode(w, input).row, |ParsePlan(input.planText)|);
  }

  /** Quiet events, then possibly the wait for a batch. */
  lemma {:induction false} CodedSays(r: Row, r': Row, events: seq<Event>)
    requires Truthful(r) && r.at.AtCoder? && QuietTail(r.events, events)
    requires r'.commits == r.commits && r'.prs == r.prs && r'.phases == r.phases
    requires r'.state == r.state.(proposals := r'.state.proposals, status := r'.state.status)
    requires r'.at.AtReviewer? || r'.at.AtCommit? || r'.at.AtGateEdits?
    requires r'.status == if r'.at.AtGateEdits? then AwaitingApproval else r.status
    requires r'.events == if r'.at.AtGateEdits? then events + [StatusChanged(AwaitingApproval)] else events
    ensures Keeps(r, r')
  {
    QuietKeeps(r.events, events);
    Snoc(events, StatusChanged(AwaitingApproval));
  }

  lemma {:induction false} CoderSays(d: Deps, w: World, input: NodeInput)
    requires WorkerRegistry(d.registry) && Truthful(w.row) && Shape(w.row) && w.row.at.AtCoder?
    ensures Keeps(w.row, CoderNode(d, w, input).row)
  {
    CoderRoundsFrame(d, w, input, 0, 0);
    CoderRoundsQuiet(d, w, input, 0, 0);
    CodedSays(w.row, CoderNode(d, w, input).row, CoderRounds(d, w, input, 0, 0).w.row.events);
  }

  lemma {:induction false} ApplySays(d: Deps, w: World, input: NodeInput)
    requires WorkerRegistry(d.registry) && Truthful(w.row) && Shape(w.row) && Grants(d, w) && w.row.at.AtApplyEdits?
    ensures Keeps(w.row, ApplyEditsNode(d, w, input).row)
  {
    var batch := BatchOf(w.row.state.proposals);
    ApplyAllFrame(d, w, w.row.state.proposals, input, 0, batch);
    ApplyAllQuiet(d, w, w.row.state.proposals, input, 0, batch);
    QuietKeeps(w.row.events, ApplyEditsNode(d, w, input).row.events);
  }

  /** A node that stages quiet events and touches no delivered fact keeps what was said. */
  lemma {:induction false} QuietMove(r: Row, r': Row)
    requires Truthful(r) && QuietTail(r.events, r'.events)
    requires r'.commits == r.commits && r'.prs == r.prs && r'.phases == r.phases && r'.status == r.status
    requires r'.state.prUrl == r.state.prUrl && r'.state.testsPassed == r.state.testsPassed
    requires !r.at.AtEnd? && !r'.at.AtEnd? && Untested(r'.at) == Untested(r.at) && NodeStatus(r') == NodeStatus(r)
    ensures Keeps(r, r')
  {
    QuietKeeps(r.events, r'.events);
  }

  lemma {:induction false} ReviewedQuiet(w: World, text: string, tokens: nat)
    ensures QuietTail(w.row.events, Reviewed(w, text, tokens).row.events)
  {
  }

  lemma {:induction false} ReviewerQuiet(d: Deps, w: World, input: NodeInput)
    ensures QuietTail(w.row.events, ReviewerNode(d, w, input).row.events)
  {
    ReviewedQuiet(w, Text.Strip(input.replies(0).text, Text.IsSpace), input.replies(0).tokens);
  }

  lemma {:induction false} ReviewerSays(d: Deps, w: World, input: NodeInput)
    requires Truthful(w.row) && Shape(w.row) && w.row.at.AtReviewer?
    ensures Keeps(w.row, ReviewerNode(d, w, input).row)
  {
    ReviewerEffect(d, w, input);
    ReviewerQuiet(d, w, input);
    QuietMove(w.row, ReviewerNode(d, w, input).row);
  }

  /** Moving on from a landed step, with a pause announced when the window is spent. */
  lemma {:induction false} LandedSays(r: Row, r': Row)
    requires Truthful(r) && r.at.AtCommit? && Shape(r)
    requires r'.commits == r.commits && r'.prs == r.prs && r'.phases == r.phases
    requires r'.state.testsPassed == r.state.testsPassed && r'.state.prUrl == r.state.prUrl
    requires r'.at.AtTest? || r'.at.AtBudgetGate? || r'.at.AtCoder?
    requires r'.status == if r'.at.AtBudgetGate? then NeedsHuman else r.status
    requires r'.events == if r'.at.AtBudgetGate? then r.events + [StatusChanged(NeedsHuman)] else r.events
    ensures Keeps(r, r')
  {
    if r'.at.AtBudgetGate? { Snoc(r.events, StatusChanged(NeedsHuman)); }
    StillTruthful(r, r');
  }

  /** A row under way whose events say the same as before stays truthful. */
  lemma {:induction false} StillTruthful(r: Row, r': Row)
    requires Truthful(r) && r'.commits == r.commits && r'.prs == r.prs && r'.phases == r.phases
    requires r'.state.testsPassed == r.state.testsPassed && r'.state.prUrl == r.state.prUrl
    requires ReportOf(r'.events) == ReportOf(r.events)
    requires r.at.AtCommit? && (r'.at.AtTest? || r'.at.AtBudgetGate? || r'.at.AtCoder?)
    ensures Truthful(r')
  {
  }

  lemma {:induction false} CommitSays(d: Deps, w: World, input: NodeInput)
    requires Truthful(w.row) && Shape(w.row) && w.row.at.AtCommit?
    ensures Keeps(w.row, CommitNode(d, w, input).row)
  {
    LandSays(d, w, input.commit);
    LandedSays(LandStep(d, w, input.commit).row, CommitNode(d, w, input).row);
  }

  /** Only a commit that landed is announced as a commit. */
  lemma {:induction false} LandSays(d: Deps, w: World, outcome: CommitOutcome)
    requires Truthful(w.row) && w.row.at.AtCommit?
    ensures var r' := LandStep(d, w, outcome).row;
            Truthful(r') && r' == w.row.(events := r'.events, commits := r'.commits) && (TrailOk(w.row) ==> TrailOk(r'))
  {
    var s := w.row.state;
    match outcome
    case Blocked => Snoc(w.row.events, CommitBlocked(s.stepIndex));
    case Committed(sha) => Snoc(w.row.events, StepCommitted(s.stepIndex, sha, s.branch));
    case NothingToCommit =>
  }

  /** One registry event that only the test tool's own report can make matter. */
  lemma {:induction false} TestEventSays(events: seq<Event>, e: Event)
    requires Quiet(e) || e.TestsCompleted?
    ensures LastStatus(events + [e]) == LastStatus(events) && Lawful(events + [e]) == Lawful(events)
    ensures ReportOf(events + [e]) == if e.TestsCompleted? then ReportOf(events).(testsPassed := Some(e.passed))
            else ReportOf(events)
  {
    Snoc(events, e);
  }

  /** The test tool's events announce what it reported, when it did, and nothing else. */
  lemma {:induction false} VerdictSays(events: seq<Event>, v: Verdict, reply: ToolReply)
    requires v.outcome.Success? ==> v.ran
    ensures var after, report := events + ToolEvents(TESTER_TOOL, v, reply), PhaseReport(v, reply);
            && LastStatus(after) == LastStatus(events) && Lawful(after) == Lawful(events)
            && ReportOf(after) == if report.Reported? then ReportOf(events).(testsPassed := Some(report.passed))
                                  else ReportOf(events)
  {
    var e1 := if v.ran then events + [ToolStarted(TESTER_TOOL)] else events;
    var e2 := if HasReport(v, reply) then e1 + [TestsCompleted(reply.report.passed)] else e1;
    ToolEventsInOrder(events, e1, e2, v, reply);
    TestEventSays(events, ToolStarted(TESTER_TOOL));
    if HasReport(v, reply) { TestEventSays(e1, TestsCompleted(reply.report.passed)); }
    TestEventSays(e2, ToolCompleted(TESTER_TOOL, v.outcome));
  }

  lemma {:induction false} ToolEventsInOrder(events: seq<Event>, e1: seq<Event>, e2: seq<Event>, v: Verdict,
                                             reply: ToolReply)
    requires v.outcome.Success? ==> v.ran
    requires e1 == if v.ran then events + [ToolStarted(TESTER_TOOL)] else events
    requires e2 == if HasReport(v, reply) then e1 + [TestsCompleted(reply.report.passed)] else e1
    ensures events + ToolEvents(TESTER_TOOL, v, reply) ==
            if v.announced then e2 + [ToolCompleted(TESTER_TOOL, v.outcome)] else e2
  {
  }

  /** A finished phase is what the run goes by; the report keeps an older verdict when there is no new one. */
  lemma {:induction false} PhaseSays(r: Row, r': Row, report: TestOutcome)
    requires Truthful(r) && Shape(r) && r.at.AtTest?
    requires r' == r.(events := r'.events, phases := r.phases + [report], at := RouteAfterTest(r'.state),
                      state := r.state.(testsPassed := PhaseVerdict(report)))
    requires ReportOf(r'.events) ==
             if report.Reported? then ReportOf(r.events).(testsPassed := Some(report.passed)) else ReportOf(r.events)
    requires LastStatus(r'.events) == LastStatus(r.events) && Lawful(r'.events) == Lawful(r.events)
    ensures Keeps(r, r')
  {
    assert r'.phases[..|r'.phases| - 1] == r.phases;
  }

  lemma {:induction false} TestSays(d: Deps, w: World, input: NodeInput)
    requires WorkerRegistry(d.registry) && Truthful(w.row) && Shape(w.row) && w.row.at.AtTest?
    ensures Keeps(w.row, TestNode(d, w, input).row)
  {
    if w.row.workspace.Some? && d.registry.SpecFor(TESTER_TOOL).Some? {
      var reply := input.tools(0);
      var v := d.registry.Invoke(TESTER_TOOL, Developer, Some(w.run), None, reply);
      VerdictSays(w.row.events, v, reply);
      PhaseSays(w.row, TestNode(d, w, input).row, PhaseReport(v, reply));
    } else {
      PhaseSays(w.row, TestNode(d, w, input).row, Silent);
    }
  }

  /** An opened pull request is announced as such. */
  lemma {:induction false} OpenedSays(r: Row, r': Row, pr: PullRequest, branch: string)
    requires Truthful(r) && r.at.AtOpenPr? && r.prs == []
    requires r' == r.(at := AtFinalize, prs := [pr.url], state := r.state.(prUrl := pr.url), events := r'.events)
    requires r'.events == r.events + [PullRequestOpened(pr.number, pr.url, branch)]
    ensures Keeps(r, r')
  {
    Snoc(r.events, PullRequestOpened(pr.number, pr.url, branch));
  }

  lemma {:induction false} OpenPrSays(d: Deps, w: World, input: NodeInput)
    requires Truthful(w.row) && Shape(w.row) && w.row.at.AtOpenPr?
    ensures Keeps(w.row, OpenPrNode(d, w, input).row)
  {
    var r' := OpenPrNode(d, w, input).row;
    if r'.events != w.row.events {
      OpenedSays(w.row, r', input.pull.value, w.row.state.branch);
    } else {
      QuietMove(w.row, r');
    }
  }

  lemma {:induction false} EscalateSays(w: World)
    requires Truthful(w.row) && Shape(w.row) && w.row.at.AtEscalate?
    ensures Keeps(w.row, EscalateNode(w).row)
  {
    var events, closing := w.row.events + [StatusChanged(NeedsHuman)], Last(EscalateNode(w).row.events);
    Snoc(w.row.events, StatusChanged(NeedsHuman));
    Snoc(events, closing);
    EndedSays(w.row, EscalateNode(w).row, closing);
  }

  /** The closing report repeats what the run already said, and adds how it ended. */
  lemma {:induction false} EndedSays(r: Row, r': Row, closing: Event)
    requires Truthful(r) && (r.at.AtFinalize? || r.at.AtEscalate?) && r'.at.AtEnd?
    requires r'.commits == r.commits && r'.prs == r.prs && r'.phases == r.phases && |r.prs| <= 1
    requires r'.state == r.state.(status := r'.status)
    requires ReportOf(r'.events) == ReportEvent(ReportOf(r.events), closing)
    requires Closes(r, closing)
    requires r'.status == if r.at.AtFinalize? then Completed else NeedsHuman
    ensures Truthful(r')
  {
    EndedMatches(ReportOf(r.events), r, r', closing);
  }

  /** The closing report a run at its last node announces. */
  predicate Closes(r: Row, closing: Event) {
    && closing.RunReported? && closing.testsPassed == r.state.testsPassed
    && closing.prUrl == (if r.at.AtEscalate? || r.state.prUrl == "" then None else Some(r.state.prUrl))
    && closing.conclusion == (if r.at.AtFinalize? then "completed" else "needs_human")
  }

  lemma {:induction false} EndedMatches(report: Report, r: Row, r': Row, closing: Event)
    requires Matches(report, r) && (r.at.AtFinalize? || r.at.AtEscalate?) && r'.at.AtEnd?
    requires r'.commits == r.commits && r'.prs == r.prs && r'.phases == r.phases && |r.prs| <= 1
    requires r'.state == r.state.(status := r'.status)
    requires Closes(r, closing) && r'.status == if r.at.AtFinalize? then Completed else NeedsHuman
    ensures Matches(ReportEvent(report, closing), r')
  {
  }

  /** Completion is announced, then the run, then the report. */
  lemma {:induction false} ClosingSays(events: seq<Event>, closing: Event)
    requires closing.RunReported?
    ensures var after := events + [StatusChanged(Completed)] + [RunCompleted] + [closing];
            && LastStatus(after) == Completed && ReportOf(after) == ReportEvent(ReportOf(events), closing)
            && (Lawful(after) <==> Lawful(events) && AllowedOrSame(LastStatus(events), Completed))
  {
    Snoc(events, StatusChanged(Completed));
    Snoc(events + [StatusChanged(Completed)], RunCompleted);
    Snoc(events + [StatusChanged(Completed)] + [RunCompleted], closing);
  }

  lemma {:induction false} FinalizeSays(w: World)
    requires Truthful(w.row) && Shape(w.row) && w.row.at.AtFinalize?
    ensures Keeps(w.row, FinalizeNode(w).row)
  {
    var closing := Last(FinalizeNode(w).row.events);
    FinalizeEvents(w, closing);
    FinalizedSays(w.row, FinalizeNode(w).row, closing);
  }

  lemma {:induction false} FinalizedSays(r: Row, r': Row, closing: Event)
    requires Truthful(r) && r.at.AtFinalize? && Closes(r, closing) && |r.prs| <= 1
    requires r' == r.(at := AtEnd, status := Completed, events := r'.events, state := r.state.(status := Completed))
    requires r'.events == r.events + [StatusChanged(Completed)] + [RunCompleted] + [closing]
    ensures Keeps(r, r')
  {
    ClosingSays(r.events, closing);
    EndedSays(r, r', closing);
  }

  lemma {:induction false} FinalizeEvents(w: World, closing: Event)
    requires w.row.at.AtFinalize? && closing == Last(FinalizeNode(w).row.events)
    ensures FinalizeNode(w).row.events == w.row.events + [StatusChanged(Completed)] + [RunCompleted] + [closing]
    ensures Closes(w.row, closing)
  {
  }

  lemma {:induction false} DebugSays(w: World, input: NodeInput)
    requires Truthful(w.row) && Shape(w.row) && w.row.at.AtDebug?
    ensures Keeps(w.row, DebugNode(w, input).row)
  {
    QuietKeeps(w.row.events, DebugNode(w, input).row.events);
  }

  lemma {:induction false} DocumentSays(d: Deps, w: World, input: NodeInput)
    requires Truthful(w.row) && Shape(w.row) && w.row.at.AtDocument?
    ensures Keeps(w.row, DocumentNode(d, w, input).row)
  {
    QuietMove(w.row, DocumentNode(d, w, input).row);
  }

  /** Every node body keeps the report true and the trail lawful. */
  lemma {:induction false} StepSays(d: Deps, w: World, input: NodeInput)
    requires WorkerRegistry(d.registry) && Grants(d, w) && Shape(w.row) && Truthful(w.row) && !Paused(w.row.at)
    ensures Keeps(w.row, Step(d, w, input).row)
  {
    match w.row.at
    case AtPlan => PlanSays(w, input);
    case AtBranch =>
    case AtCoder => CoderSays(d, w, input);
    case AtApplyEdits => ApplySays(d, w, input);
    case AtReviewer => ReviewerSays(d, w, input);
    case AtCommit => CommitSays(d, w, input);
    case AtTest => TestSays(d, w, input);
    case AtDebug => DebugSays(w, input);
    case AtDocument => DocumentSays(d, w, input);
    case AtOpenPr => OpenPrSays(d, w, input);
    case AtEscalate => EscalateSays(w);
    case AtFinalize => FinalizeSays(w);
  }

  /** What passing a gate changes: the position, and possibly an announced return to running. */
  predicate PassEdge(r: Row, r': Row) {
    && r'.commits == r.commits && r'.prs == r.prs && r'.phases == r.phases
    && r'.state.testsPassed == r.state.testsPassed && r'.state.prUrl == r.state.prUrl
    && !r.at.AtEnd? && !r'.at.AtEnd? && Untested(r'.at) == Untested(r.at)
    && (|| (r'.status == r.status && r'.events == r.events)
        || (r'.status == Running && r'.events == r.events + [StatusChanged(Running)]))
    && (r.status == Running ==> r'.status == NodeStatus(r'))
  }

  lemma {:induction false} PassGateEdge(w: World)
    requires IsGate(w.row.at)
    ensures PassEdge(w.row, PassGate(w).row)
  {
  }

  lemma {:induction false} PassEdgeSays(r: Row, r': Row)
    requires Truthful(r) && PassEdge(r, r')
    ensures Truthful(r')
    ensures TrailOk(r) && r.status == Running ==> OnTrack(r')
  {
    Snoc(r.events, StatusChanged(Running));
  }

  /** Passing a gate keeps the report; from a running run it also stays on track. */
  lemma {:induction false} PassGateSays(w: World)
    requires Truthful(w.row) && IsGate(w.row.at)
    ensures Truthful(PassGate(w).row)
    ensures TrailOk(w.row) && w.row.status == Running ==> OnTrack(PassGate(w).row)
  {
    PassGateEdge(w);
    PassEdgeSays(w.row, PassGate(w).row);
  }

  lemma {:induction false} DriveSays(d: Deps, w: World, env: nat -> NodeInput, k: nat)
    requires WorkerRegistry(d.registry) && Grants(d, w) && Control(w.row) && Truthful(w.row)
    ensures Keeps(w.row, Drive(d, w, env, k).row)
    decreases Stage(w.row.at), DebugLeft(w.row.state), StepsLeft(w.row.state), ReviewsLeft(w.row.state),
              NodeRank(w.row.at)
  {
    if !Paused(w.row.at) {
      StepSays(d, w, env(k));
      AdvanceKeepsGrants(d, w, env(k));
      AdvanceProgress(d, w, env(k));
      DriveSays(d, Step(d, w, env(k)), env, k + 1);
    }
  }

  /**
   * Report and state agree on the tests exactly when no phase's tool ever reported, or the last phase's
   * tests ran and no debugging has started since.
   */
  lemma {:induction false} ReportedVerdict(r: Row)
    requires Truthful(r)
    ensures ReportOf(r.events).testsPassed == r.state.testsPassed <==>
            || (forall p :: p in r.phases ==> p.Silent?)
            || (LastVerdict(r.phases).Some? && !Untested(r.at))
  {
    LastReportIff(r.phases);
  }

  /**
   * A phase after debugging whose tool reports nothing: the run has no verdict and ships, and the report
   * still says that tests failed.
   */
  lemma {:induction false} StaleVerdict(d: Deps, w: World, input: NodeInput)
    requires WorkerRegistry(d.registry) && Truthful(w.row) && Shape(w.row) && w.row.at.AtTest? && w.row.phases != []
    requires !input.tools(0).outcome.Success? || !input.tools(0).report.Reported?
    ensures var r' := TestNode(d, w, input).row;
            && r'.at.AtDocument? && r'.state.testsPassed == None
            && ReportOf(r'.events).testsPassed == Some(false)
  {
    TestSays(d, w, input);
    LastReportIff(w.row.phases);
    SilentPhase(w.row.phases);
  }

  lemma {:induction false} SilentPhase(phases: seq<TestOutcome>)
    ensures LastReport(phases + [Silent]) == LastReport(phases)
  {
    assert (phases + [Silent])[..|phases|] == phases;
  }

  lemma {:induction false} LastReportIff(phases: seq<TestOutcome>)
    ensures LastReport(phases).None? <==> forall p :: p in phases ==> p.Silent?
    ensures LastVerdict(phases).Some? ==> LastReport(phases) == LastVerdict(phases)
    decreases |phases|
  {
    if phases != [] {
      var init, last := phases[..|phases| - 1], phases[|phases| - 1];
      assert phases == init + [last];
      LastReportIff(init);
      assert forall p :: p in phases <==> p in init || p == last;
      assert last in phases && (last.Silent? || last.Reported?);
    }
  }
}
