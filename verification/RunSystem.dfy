/**
 * The service, the queue and the worker around the graph (agents/application/run_service.py,
 * workers/tasks/agent_run.py): one transition per request or delivery, in any order.
 */
module RunSystem {
  import opened Common
  import opened RunDomain
  import opened ToolRegistry
  import opened RunGraph
  import opened RunControl
  import opened RunGrants
  import opened RunHistory

  /** Runs and approvals are identified by their positions; the queue is a bag of deliveries. */
  datatype System = System(runs: seq<Row>, approvals: seq<Approval>, executed: seq<Execution>, queue: multiset<nat>)

  const EMPTY: System := System([], [], [], multiset{})

  datatype Refusal = NotFound | Conflict | Invalid

  // ---------------------------------------------------------------- service requests

  function Transition(r: Row, target: RunStatus): Row {
    r.(status := target, events := r.events + [StatusChanged(target)])
  }

  predicate Visible(s: System, actor: nat, run: nat) {
    run < |s.runs| && s.runs[run].owner == actor
  }

  predicate HasPending(approvals: seq<Approval>, run: nat) {
    exists id :: 0 <= id < |approvals| && approvals[id].run == run && approvals[id].status == Undecided
  }

  function Enqueue(s: System, run: nat): System { s.(queue := s.queue + multiset{run}) }

  function CreateRun(s: System, owner: nat, workspace: Option<nat>, maxSteps: int, maxTokens: int,
                     maxCost: real): System {
    Enqueue(s.(runs := s.runs + [NewRow(owner, workspace, maxSteps, maxTokens, maxCost)]), |s.runs|)
  }

  function EditPlan(s: System, actor: nat, run: nat, steps: seq<PlanStep>): Result<System, Refusal> {
    if !(1 <= |steps| <= 50) then Err(Invalid)
    else if !Visible(s, actor, run) then Err(NotFound)
    else
      var r := s.runs[run];
      if r.status != Planning && r.status != AwaitingApproval then Err(Conflict)
      else
        var version := if r.saved.Some? then r.saved.value.version + 1 else 1;
        Ok(s.(runs := s.runs[run := r.(saved := Some(Plan(version, steps)),
                                       events := r.events + [PlanCreated(version, |steps|)])]))
  }

  function Cancel(s: System, actor: nat, run: nat): Result<System, Refusal> {
    if !Visible(s, actor, run) then Err(NotFound)
    else if IsTerminal(s.runs[run].status) then Err(Conflict)
    else if !CanTransition(s.runs[run].status, Cancelled) then Err(Conflict)
    else Ok(s.(runs := s.runs[run := Transition(s.runs[run], Cancelled)]))
  }

  function Resume(s: System, actor: nat, run: nat): Result<System, Refusal> {
    if !Visible(s, actor, run) then Err(NotFound)
    else if s.runs[run].status != NeedsHuman && s.runs[run].status != AwaitingApproval then Err(Conflict)
    else if HasPending(s.approvals, run) then Err(Conflict)
    else if !CanTransition(s.runs[run].status, Running) then Err(Conflict)
    else Ok(Enqueue(s.(runs := s.runs[run := Transition(s.runs[run], Running)]), run))
  }

  /** A refused request rolls everything back, the decision included. */
  function Resolve(s: System, actor: nat, run: nat, id: nat, approved: bool): Result<System, Refusal> {
    if !Visible(s, actor, run) then Err(NotFound)
    else if id >= |s.approvals| || s.approvals[id].run != run then Err(NotFound)
    else if s.approvals[id].status != Undecided then Err(Conflict)
    else
      var verdict := if approved then Approved else Rejected;
      var decided := s.approvals[id := s.approvals[id].(status := verdict, decidedBy := Some(actor))];
      var r := s.runs[run].(events := s.runs[run].events + [ApprovalResolved(id, approved)]);
      var s1 := s.(approvals := decided, runs := s.runs[run := r]);
      if !approved then
        if CanTransition(r.status, Cancelled) then Ok(s1.(runs := s.runs[run := Transition(r, Cancelled)]))
        else Err(Conflict)
      else if !HasPending(decided, run) then
        if CanTransition(r.status, Running) then
          Ok(Enqueue(s1.(runs := s.runs[run := Transition(r, Running)]), run))
        else Err(Conflict)
      else Ok(s1)
  }

  // ---------------------------------------------------------------- the worker

  /** Where an exception strikes: after `steps` nodes, `part` mutations into an apply node. */
  datatype Crash = Crash(steps: nat, part: nat)

  /** The node that raises leaves no mark of its own but the mutations that had already run. */
  function Struck(d: Deps, w: World, input: NodeInput, part: nat): World {
    if w.row.at.AtApplyEdits? then
      var all := w.row.state.proposals;
      w.(executed := ApplyAll(d, w, Take(all, part), input, 0, BatchOf(all)).executed)
    else w
  }

  function CrashWorld(d: Deps, w: World, env: nat -> NodeInput, k: nat, crash: Crash): World
    requires Control(w.row)
    decreases crash.steps
  {
    if crash.steps == 0 || Paused(w.row.at) then Struck(d, w, env(k), crash.part)
    else
      AdvanceProgress(d, w, env(k));
      CrashWorld(d, Step(d, w, env(k)), env, k + 1, Crash(crash.steps - 1, crash.part))
  }

  lemma {:induction false} CrashOnce(d: Deps, w: World, env: nat -> NodeInput, k: nat, crash: Crash)
    requires Control(w.row) && !Paused(w.row.at) && crash.steps > 0
    ensures Control(Step(d, w, env(k)).row)
    ensures CrashWorld(d, w, env, k, crash) ==
            CrashWorld(d, Step(d, w, env(k)), env, k + 1, Crash(crash.steps - 1, crash.part))
  {
    AdvanceProgress(d, w, env(k));
  }

  lemma {:induction false} CrashStops(d: Deps, w: World, env: nat -> NodeInput, k: nat, crash: Crash)
    requires Control(w.row) && (crash.steps == 0 || Paused(w.row.at))
    ensures CrashWorld(d, w, env, k, crash) == Struck(d, w, env(k), crash.part)
  {
  }

  /**
   * The failed row: the session is rolled back (status, plan, budget, events), the run is
   * marked failed in a fresh one, and the checkpoint and the outside world stay advanced.
   */
  function FailedRow(before: Row, at: Row): Row {
    Transition(at.(status := before.status, saved := before.saved, budget := before.budget, events := before.events),
               Failed)
  }

  function WorldOf(s: System, run: nat): World
    requires run < |s.runs|
  {
    World(run, s.runs[run], s.approvals, s.executed)
  }

  /** A delivery the worker may act on: the run exists, is not terminal and rests at a pause. */
  predicate Drivable(s: System, run: nat) {
    run < |s.runs| && !IsTerminal(s.runs[run].status) && Control(Begin(WorldOf(s, run)).row)
  }

  function Work(d: Deps, s: System, run: nat, env: nat -> NodeInput, crash: Option<Crash>): System {
    if !Drivable(s, run) then s
    else
      var w := Begin(WorldOf(s, run));
      match crash
      case None =>
        var w' := Drive(d, w, env, 0);
        s.(runs := s.runs[run := w'.row], approvals := w'.approvals, executed := w'.executed)
      case Some(c) =>
        var w' := CrashWorld(d, w, env, 0, c);
        s.(runs := s.runs[run := FailedRow(s.runs[run], w'.row)], executed := w'.executed)
  }

  // ---------------------------------------------------------------- histories

  datatype Action =
    | DoCreate(owner: nat, workspace: Option<nat>, maxSteps: int, maxTokens: int, maxCost: real)
    | DoEdit(actor: nat, run: nat, steps: seq<PlanStep>)
    | DoCancel(actor: nat, run: nat)
    | DoResume(actor: nat, run: nat)
    | DoResolve(actor: nat, run: nat, id: nat, approved: bool)
    | Deliver(run: nat, env: nat -> NodeInput, crash: Option<Crash>)
    | Redeliver(run: nat, env: nat -> NodeInput, crash: Option<Crash>)

  function OrSame(r: Result<System, Refusal>, s: System): System {
    if r.Ok? then r.value else s
  }

  /** `Deliver` consumes a queued message; `Redeliver` is a spurious or repeated one. */
  function Next(d: Deps, s: System, a: Action): System {
    match a
    case DoCreate(owner, workspace, maxSteps, maxTokens, maxCost) =>
      CreateRun(s, owner, workspace, maxSteps, maxTokens, maxCost)
    case DoEdit(actor, run, steps) => OrSame(EditPlan(s, actor, run, steps), s)
    case DoCancel(actor, run) => OrSame(Cancel(s, actor, run), s)
    case DoResume(actor, run) => OrSame(Resume(s, actor, run), s)
    case DoResolve(actor, run, id, approved) => OrSame(Resolve(s, actor, run, id, approved), s)
    case Deliver(run, env, crash) =>
      if run in s.queue then Work(d, Taken(s, run), run, env, crash) else s
    case Redeliver(run, env, crash) => Work(d, s, run, env, crash)
  }

  /** One message fewer. */
  function Taken(s: System, run: nat): System { s.(queue := s.queue - multiset{run}) }

  ghost function Exec(d: Deps, history: seq<Action>): System {
    if history == [] then EMPTY
    else Next(d, Exec(d, history[..|history| - 1]), history[|history| - 1])
  }

  // ---------------------------------------------------------------- the invariant of every history

  /** Every recorded decision names a run, and only its owner approved anything. */
  predicate OwnersDecide(s: System) {
    forall id :: 0 <= id < |s.approvals| ==>
                   && s.approvals[id].run < |s.runs|
                   && (s.approvals[id].status == Approved ==>
                       s.approvals[id].decidedBy == Some(s.runs[s.approvals[id].run].owner))
  }

  /** Between deliveries a live run rests at its start or at a pause. */
  predicate Resting(r: Row) {
    && (r.status == Pending ==> r.at.AtPlan?)
    && (!IsTerminal(r.status) && r.status != Pending ==> Paused(r.at))
  }

  /** The window bound that survives a crash, whose rollback leaves the budget behind the checkpoint. */
  predicate Spent(r: Row) {
    r.budget.maxSteps >= 1 ==> r.budget.stepsUsed <= r.budget.maxSteps + 1 + 2 * r.state.debugRound
  }

  /** After a crash the report may miss the last commits and the pull request, and nothing else of these. */
  predicate ReportBehind(r: Row) {
    var report := ReportOf(r.events);
    report.commits <= r.commits && (report.prUrl == None || report.prUrl == OpenedUrl(r))
  }

  predicate RowOk(d: Deps, approvals: seq<Approval>, executed: seq<Execution>, run: nat, r: Row) {
    && Shape(r) && Bounded(r)
    && if r.status == Failed then Spent(r) && ReportBehind(r)
       else
         && WithinWindow(r) && Truthful(r) && Resting(r)
         && AllRecorded(d, approvals, run, r.state.proposals)
         && Unspent(r.state.proposals, executed)
  }

  predicate RowsOk(d: Deps, s: System) {
    forall run :: 0 <= run < |s.runs| ==> RowOk(d, s.approvals, s.executed, run, s.runs[run])
  }

  predicate SystemOk(d: Deps, s: System) {
    AllGranted(s.approvals, s.executed) && SpentOnce(s.executed) && OwnersDecide(s) && RowsOk(d, s)
  }

  /** What holds of one approval store still holds of a later one. */
  lemma {:induction false} EvolveKeeps(d: Deps, a: seq<Approval>, b: seq<Approval>, run: nat, proposals: seq<Proposal>,
                                       executed: seq<Execution>)
    requires Evolves(a, b)
    ensures AllRecorded(d, a, run, proposals) ==> AllRecorded(d, b, run, proposals)
    ensures AllGranted(a, executed) ==> AllGranted(b, executed)
  {
    if AllRecorded(d, a, run, proposals) {
      forall p | p in proposals
        ensures Recorded(d, b, run, p)
      {
        assert Recorded(d, a, run, p);
      }
    }
    if AllGranted(a, executed) {
      forall e | e in executed
        ensures Granted(b, e)
      {
        assert Granted(a, e);
      }
    }
  }

  lemma {:induction false} AppendsEvolve(run: nat, a: seq<Approval>, b: seq<Approval>)
    requires AppendsOwn(run, a, b)
    ensures Evolves(a, b)
  {
  }

  /** New executions of one run never touch the proposals of another. */
  lemma {:induction false} OtherRunsKeep(d: Deps, s: System, s': System, run: nat, other: nat)
    requires other < |s.runs| && other != run && s.runs[other].status != Failed
    requires RowOk(d, s.approvals, s.executed, other, s.runs[other])
    requires Evolves(s.approvals, s'.approvals) && s.executed <= s'.executed
    requires AllGranted(s'.approvals, s'.executed)
    requires forall k :: |s.executed| <= k < |s'.executed| ==> s'.executed[k].run == run
    ensures RowOk(d, s'.approvals, s'.executed, other, s.runs[other])
  {
    var proposals := s.runs[other].state.proposals;
    EvolveKeeps(d, s.approvals, s'.approvals, other, proposals, s.executed);
    forall p, e | p in proposals && e in s'.executed
      ensures p.approvalId != e.approvalId
    {
      assert Recorded(d, s'.approvals, other, p);
      var k :| 0 <= k < |s'.executed| && s'.executed[k] == e;
      if k < |s.executed| { assert s.executed[k] in s.executed; }
      assert Granted(s'.approvals, e);
    }
  }

  // ---------------------------------------------------------------- every transition keeps it

  /** A live run can always be driven, and starts the drive with every invariant in place. */
  lemma {:induction false} BeginOk(d: Deps, s: System, run: nat)
    requires WorkerRegistry(d.registry) && SystemOk(d, s) && run < |s.runs| && !IsTerminal(s.runs[run].status)
    ensures Drivable(s, run)
    ensures var w, w' := WorldOf(s, run), Begin(WorldOf(s, run));
            && Control(w'.row) && Grants(d, w') && Truthful(w'.row)
            && w'.run == run && w'.row.owner == w.row.owner && w'.row.workspace == w.row.workspace
            && w'.approvals == s.approvals && w'.executed == s.executed
            && (w'.row.status != Pending || w'.row.at.AtPlan?)
  {
    var w := WorldOf(s, run);
    assert RowOk(d, s.approvals, s.executed, run, s.runs[run]);
    assert Grants(d, w) && Control(w.row);
    if w.row.status == Pending {
      assert Begin(w) == w;
    } else if IsGate(w.row.at) {
      var input: NodeInput :| true;
      AdvanceProgress(d, w, input);
      AdvanceKeepsGrants(d, w, input);
      PassGateSays(w);
    }
  }

  /** A partly applied batch: granted, spent once, logged under the run's own identity. */
  lemma {:induction false} PartialApplyOk(d: Deps, w: World, input: NodeInput, part: nat)
    requires WorkerRegistry(d.registry) && Grants(d, w)
    ensures var all := w.row.state.proposals;
            var after := ApplyAll(d, w, Take(all, part), input, 0, BatchOf(all)).executed;
            AllGranted(w.approvals, after) && SpentOnce(after) && OwnLog(w.run, w.executed, after)
  {
    var all := w.row.state.proposals;
    PrefixRecorded(d, w.approvals, w.run, all, Take(all, part));
    assert Take(all, part)[0..] == Take(all, part);
    ApplyAllGrants(d, w, Take(all, part), input, 0, BatchOf(all));
  }

  /** Commits, pull requests and debug rounds are only ever added. */
  predicate Ahead(r: Row, r': Row) {
    r.commits <= r'.commits && r.prs <= r'.prs && r.state.debugRound <= r'.state.debugRound
  }

  /** Ahead, and not failed unless failed before. */
  predicate Moves(r: Row, r': Row) { Ahead(r, r') && (r.status != Failed ==> r'.status != Failed) }

  lemma {:induction false} CoderAhead(d: Deps, w: World, input: NodeInput)
    ensures Moves(w.row, CoderNode(d, w, input).row)
  {
    CoderRoundsFrame(d, w, input, 0, 0);
  }

  lemma {:induction false} ApplyAhead(d: Deps, w: World, input: NodeInput)
    ensures Moves(w.row, ApplyEditsNode(d, w, input).row)
  {
    ApplyAllFrame(d, w, w.row.state.proposals, input, 0, BatchOf(w.row.state.proposals));
  }

  lemma {:induction false} CommitAhead(d: Deps, w: World, input: NodeInput)
    ensures Moves(w.row, CommitNode(d, w, input).row)
  {
  }

  lemma {:induction false} TestAhead(d: Deps, w: World, input: NodeInput)
    ensures Moves(w.row, TestNode(d, w, input).row)
  {
    TestEffect(d, w, input);
  }

  lemma {:induction false} StepAhead(d: Deps, w: World, input: NodeInput)
    requires !Paused(w.row.at)
    ensures Moves(w.row, Step(d, w, input).row)
  {
    match w.row.at
    case AtCoder => CoderAhead(d, w, input);
    case AtApplyEdits => ApplyAhead(d, w, input);
    case AtReviewer => ReviewerEffect(d, w, input);
    case AtCommit => CommitAhead(d, w, input);
    case AtTest => TestAhead(d, w, input);
    case _ =>
  }

  lemma {:induction false} BeginAhead(w: World)
    requires Shape(w.row) && (w.row.status == Pending ==> w.row.at.AtPlan?)
    ensures Moves(w.row, Begin(w).row)
  {
  }

  lemma {:induction false} DriveAhead(d: Deps, w: World, env: nat -> NodeInput, k: nat)
    requires Control(w.row)
    ensures Moves(w.row, Drive(d, w, env, k).row)
    decreases Stage(w.row.at), DebugLeft(w.row.state), StepsLeft(w.row.state), ReviewsLeft(w.row.state),
              NodeRank(w.row.at)
  {
    if !Paused(w.row.at) {
      StepAhead(d, w, env(k));
      AdvanceProgress(d, w, env(k));
      DriveAhead(d, Step(d, w, env(k)), env, k + 1);
    }
  }

  /** What a crash can leave behind. */
  predicate CrashLeaves(w: World, w': World) {
    && Shape(w'.row) && Bounded(w'.row) && w'.row.owner == w.row.owner && w'.row.workspace == w.row.workspace
    && Ahead(w.row, w'.row)
    && AllGranted(w'.approvals, w'.executed) && SpentOnce(w'.executed)
    && OwnLog(w.run, w.executed, w'.executed) && AppendsOwn(w.run, w.approvals, w'.approvals)
  }

  lemma {:induction false} CrashOk(d: Deps, w: World, env: nat -> NodeInput, k: nat, crash: Crash)
    requires WorkerRegistry(d.registry) && Control(w.row) && Grants(d, w)
    ensures CrashLeaves(w, CrashWorld(d, w, env, k, crash))
    decreases crash.steps
  {
    if crash.steps == 0 || Paused(w.row.at) {
      CrashStops(d, w, env, k, crash);
      StruckOk(d, w, env(k), crash.part);
    } else {
      CrashOnce(d, w, env, k, crash);
      StepOk(d, w, env(k));
      var w1 := Step(d, w, env(k));
      CrashOk(d, w1, env, k + 1, Crash(crash.steps - 1, crash.part));
      LeavesCompose(w, w1, CrashWorld(d, w, env, k, crash));
    }
  }

  lemma {:induction false} StruckOk(d: Deps, w: World, input: NodeInput, part: nat)
    requires WorkerRegistry(d.registry) && Control(w.row) && Grants(d, w)
    ensures CrashLeaves(w, Struck(d, w, input, part))
  {
    PartialApplyOk(d, w, input, part);
  }

  /** What a node keeps, in the terms of a crash after it. */
  lemma {:induction false} StepOk(d: Deps, w: World, input: NodeInput)
    requires WorkerRegistry(d.registry) && Control(w.row) && Grants(d, w) && !Paused(w.row.at)
    ensures var w1 := Step(d, w, input);
            && Control(w1.row) && Grants(d, w1) && Ahead(w.row, w1.row)
            && w1.run == w.run && w1.row.owner == w.row.owner && w1.row.workspace == w.row.workspace
            && OwnLog(w.run, w.executed, w1.executed) && AppendsOwn(w.run, w.approvals, w1.approvals)
  {
    AdvanceProgress(d, w, input);
    AdvanceKeepsGrants(d, w, input);
    StepAhead(d, w, input);
    assert Step(d, w, input) == Advance(d, w, input);
  }

  lemma {:induction false} LeavesCompose(w: World, w1: World, w': World)
    requires CrashLeaves(w1, w') && w1.run == w.run && w1.row.owner == w.row.owner
             && w1.row.workspace == w.row.workspace
    requires Ahead(w.row, w1.row)
    requires OwnLog(w.run, w.executed, w1.executed) && AppendsOwn(w.run, w.approvals, w1.approvals)
    ensures CrashLeaves(w, w')
  {
  }

  /** Replacing one run's row, after its own approvals and executions were appended. */
  lemma {:induction false} OneRunChanges(d: Deps, s: System, s': System, run: nat, r': Row)
    requires SystemOk(d, s) && run < |s.runs| && s'.runs == s.runs[run := r'] && r'.owner == s.runs[run].owner
    requires Evolves(s.approvals, s'.approvals) && OwnLog(run, s.executed, s'.executed)
    requires AllGranted(s'.approvals, s'.executed) && SpentOnce(s'.executed) && OwnersDecide(s')
    requires RowOk(d, s'.approvals, s'.executed, run, r')
    ensures SystemOk(d, s')
  {
    forall other | 0 <= other < |s'.runs|
      ensures RowOk(d, s'.approvals, s'.executed, other, s'.runs[other])
    {
      assert RowOk(d, s.approvals, s.executed, other, s.runs[other]);
      if other != run && s.runs[other].status != Failed { OtherRunsKeep(d, s, s', run, other); }
    }
  }

  lemma {:induction false} AppendKeepsOwners(s: System, s': System, run: nat, r': Row)
    requires OwnersDecide(s) && run < |s.runs| && AppendsOwn(run, s.approvals, s'.approvals)
    requires s'.runs == s.runs[run := r'] && r'.owner == s.runs[run].owner
    ensures OwnersDecide(s')
  {
  }

  /** A world at rest with every invariant in place has its row in order. */
  lemma {:induction false} DrivenRowOk(d: Deps, w: World)
    requires Control(w.row) && Grants(d, w) && Truthful(w.row) && Paused(w.row.at) && w.row.status != Pending
    ensures RowOk(d, w.approvals, w.executed, w.run, w.row)
  {
    if w.row.budget.maxSteps >= 1 { WindowBound(w.row); }
  }

  lemma {:induction false} DriveOk(d: Deps, s: System, run: nat, env: nat -> NodeInput)
    requires WorkerRegistry(d.registry) && SystemOk(d, s) && Drivable(s, run)
    ensures SystemOk(d, Work(d, s, run, env, None))
  {
    BeginOk(d, s, run);
    var w := Begin(WorldOf(s, run));
    var w' := Drive(d, w, env, 0);
    DriveKeepsGrants(d, w, env, 0);
    DriveSays(d, w, env, 0);
    AppendsEvolve(run, s.approvals, w'.approvals);
    var s' := Work(d, s, run, env, None);
    AppendKeepsOwners(s, s', run, w'.row);
    DrivenRowOk(d, w');
    OneRunChanges(d, s, s', run, w'.row);
  }

  lemma {:induction false} CrashedOk(d: Deps, s: System, run: nat, env: nat -> NodeInput, crash: Crash)
    requires WorkerRegistry(d.registry) && SystemOk(d, s) && Drivable(s, run)
    ensures SystemOk(d, Work(d, s, run, env, Some(crash)))
  {
    BeginOk(d, s, run);
    var w := Begin(WorldOf(s, run));
    CrashOk(d, w, env, 0, crash);
    assert RowOk(d, s.approvals, s.executed, run, s.runs[run]);
    BeginAhead(WorldOf(s, run));
    var w' := CrashWorld(d, w, env, 0, crash);
    RollbackGranted(run, s.approvals, w'.approvals, w'.executed);
    FailOk(d, s, run, w');
  }

  /** Marking a run failed after a rollback, with its executions on record. */
  lemma {:induction false} FailOk(d: Deps, s: System, run: nat, w': World)
    requires SystemOk(d, s) && run < |s.runs|
    requires s.runs[run].status != Failed
    requires Shape(w'.row) && Bounded(w'.row) && w'.row.owner == s.runs[run].owner && Ahead(s.runs[run], w'.row)
    requires OwnLog(run, s.executed, w'.executed) && AllGranted(s.approvals, w'.executed) && SpentOnce(w'.executed)
    ensures SystemOk(d, s.(runs := s.runs[run := FailedRow(s.runs[run], w'.row)], executed := w'.executed))
  {
    var r' := FailedRow(s.runs[run], w'.row);
    FailedRowOk(d, s, run, w');
    OneRunChanges(d, s, s.(runs := s.runs[run := r'], executed := w'.executed), run, r');
  }

  lemma {:induction false} FailedRowOk(d: Deps, s: System, run: nat, w': World)
    requires RowsOk(d, s) && run < |s.runs| && s.runs[run].status != Failed
    requires Shape(w'.row) && Bounded(w'.row) && Ahead(s.runs[run], w'.row)
    ensures RowOk(d, s.approvals, w'.executed, run, FailedRow(s.runs[run], w'.row))
  {
    assert RowOk(d, s.approvals, s.executed, run, s.runs[run]);
    FailedBehind(s.runs[run], w'.row);
  }

  /** The report of a failed run is the one it had before the drive that failed. */
  lemma {:induction false} FailedBehind(before: Row, at: Row)
    requires Control(before) && Truthful(before) && Shape(at) && Ahead(before, at)
    ensures var r := FailedRow(before, at);
            Spent(r) && ReportBehind(r) && ReportOf(r.events) == ReportOf(before.events)
  {
    if before.budget.maxSteps >= 1 { WindowBound(before); }
    Snoc(before.events, StatusChanged(Failed));
  }

  /** A grant is always older than the drive that spends it, so a rollback never removes it. */
  lemma {:induction false} RollbackGranted(run: nat, before: seq<Approval>, after: seq<Approval>,
                                           executed: seq<Execution>)
    requires AppendsOwn(run, before, after) && AllGranted(after, executed)
    ensures AllGranted(before, executed)
  {
    forall e | e in executed
      ensures Granted(before, e)
    {
      assert Granted(after, e);
    }
  }

  lemma {:induction false} WorkOk(d: Deps, s: System, run: nat, env: nat -> NodeInput, crash: Option<Crash>)
    requires WorkerRegistry(d.registry) && SystemOk(d, s)
    ensures SystemOk(d, Work(d, s, run, env, crash))
  {
    if Drivable(s, run) {
      match crash
      case None => DriveOk(d, s, run, env);
      case Some(c) => CrashedOk(d, s, run, env, c);
    }
  }

  /** A service transition of a live run leaves its row in order. */
  lemma {:induction false} TransitionOk(d: Deps, approvals: seq<Approval>, executed: seq<Execution>, run: nat, r: Row,
                                        target: RunStatus)
    requires RowOk(d, approvals, executed, run, r) && !IsTerminal(r.status)
    requires target == Cancelled || (target == Running && r.status != Pending)
    ensures RowOk(d, approvals, executed, run, Transition(r, target))
  {
    Snoc(r.events, StatusChanged(target));
  }

  lemma {:induction false} ResolveOk(d: Deps, s: System, actor: nat, run: nat, id: nat, approved: bool)
    requires SystemOk(d, s) && Resolve(s, actor, run, id, approved).Ok?
    ensures SystemOk(d, Resolve(s, actor, run, id, approved).value)
  {
    var s' := Resolve(s, actor, run, id, approved).value;
    ResolvedRowOk(d, s, actor, run, id, approved);
    ResolveKeepsOwners(s, actor, run, id, approved);
    EvolveKeeps(d, s.approvals, s'.approvals, run, [], s.executed);
    OneRunChanges(d, s, s', run, s'.runs[run]);
  }

  lemma {:induction false} ResolvedRowOk(d: Deps, s: System, actor: nat, run: nat, id: nat, approved: bool)
    requires SystemOk(d, s) && Resolve(s, actor, run, id, approved).Ok?
    ensures var s' := Resolve(s, actor, run, id, approved).value;
            Evolves(s.approvals, s'.approvals) && RowOk(d, s'.approvals, s.executed, run, s'.runs[run])
  {
    var s' := Resolve(s, actor, run, id, approved).value;
    var r := s.runs[run].(events := s.runs[run].events + [ApprovalResolved(id, approved)]);
    assert Evolves(s.approvals, s'.approvals);
    DecidedOk(d, s, s'.approvals, run, r);
    var r' := s'.runs[run];
    if r' != r { TransitionOk(d, s'.approvals, s.executed, run, r, r'.status); }
  }

  /** A run's row after one of its approvals was decided and the decision announced. */
  lemma {:induction false} DecidedOk(d: Deps, s: System, approvals: seq<Approval>, run: nat, r: Row)
    requires SystemOk(d, s) && run < |s.runs| && Evolves(s.approvals, approvals)
    requires r == s.runs[run].(events := r.events) && r.events != [] && Init(r.events) == s.runs[run].events
    requires Last(r.events).ApprovalResolved?
    ensures RowOk(d, approvals, s.executed, run, r)
  {
    assert r.events == s.runs[run].events + [Last(r.events)];
    Snoc(s.runs[run].events, Last(r.events));
    QuietRowOk(d, s.approvals, s.executed, run, s.runs[run], r);
    RowEvolves(d, s.approvals, approvals, s.executed, run, r);
  }

  /** An event the report does not read, and a new plan, leave a row in order. */
  lemma {:induction false} QuietRowOk(d: Deps, approvals: seq<Approval>, executed: seq<Execution>, run: nat, r: Row,
                                      r': Row)
    requires RowOk(d, approvals, executed, run, r)
    requires r' == r.(saved := r'.saved, events := r'.events) && (r'.saved.Some? ==> |r'.saved.value.steps| >= 1)
    requires ReportOf(r'.events) == ReportOf(r.events)
    ensures RowOk(d, approvals, executed, run, r')
  {
  }

  lemma {:induction false} RowEvolves(d: Deps, a: seq<Approval>, b: seq<Approval>, executed: seq<Execution>, run: nat,
                                      r: Row)
    requires RowOk(d, a, executed, run, r) && Evolves(a, b)
    ensures RowOk(d, b, executed, run, r)
  {
    EvolveKeeps(d, a, b, run, r.state.proposals, executed);
  }

  lemma {:induction false} ResolveKeepsOwners(s: System, actor: nat, run: nat, id: nat, approved: bool)
    requires OwnersDecide(s) && Resolve(s, actor, run, id, approved).Ok?
    ensures OwnersDecide(Resolve(s, actor, run, id, approved).value)
  {
  }

  lemma {:induction false} CreateOk(d: Deps, s: System, r: Row)
    requires SystemOk(d, s) && Control(r) && r.status == Pending && r.at.AtPlan? && r.prs == [] && r.commits == []
             && r.phases == [] && r.events == [RunStarted]
    ensures SystemOk(d, s.(runs := s.runs + [r]))
  {
    Snoc([], RunStarted);
    assert r.events == [] + [RunStarted];
    var s' := s.(runs := s.runs + [r]);
    assert Truthful(r);
    forall run | 0 <= run < |s'.runs|
      ensures RowOk(d, s'.approvals, s'.executed, run, s'.runs[run])
    {
      if run < |s.runs| { assert RowOk(d, s.approvals, s.executed, run, s.runs[run]); }
    }
  }

  lemma {:induction false} EditOk(d: Deps, s: System, actor: nat, run: nat, steps: seq<PlanStep>)
    requires SystemOk(d, s) && EditPlan(s, actor, run, steps).Ok?
    ensures SystemOk(d, EditPlan(s, actor, run, steps).value)
  {
    var s' := EditPlan(s, actor, run, steps).value;
    var r := s'.runs[run];
    Snoc(s.runs[run].events, Last(r.events));
    QuietRowOk(d, s.approvals, s.executed, run, s.runs[run], r);
    OneRunChanges(d, s, s', run, r);
  }

  /** Cancel and resume change one live run's status and nothing else. */
  lemma {:induction false} MoveOk(d: Deps, s: System, s': System, run: nat, target: RunStatus)
    requires SystemOk(d, s) && run < |s.runs| && !IsTerminal(s.runs[run].status)
    requires target == Cancelled || (target == Running && s.runs[run].status != Pending)
    requires s' == s.(runs := s.runs[run := Transition(s.runs[run], target)], queue := s'.queue)
    ensures SystemOk(d, s')
  {
    assert RowOk(d, s.approvals, s.executed, run, s.runs[run]);
    TransitionOk(d, s.approvals, s.executed, run, s.runs[run], target);
    OneRunChanges(d, s, s', run, Transition(s.runs[run], target));
  }

  lemma {:induction false} RequestOk(d: Deps, s: System, a: Action)
    requires SystemOk(d, s) && !a.Deliver? && !a.Redeliver?
    ensures SystemOk(d, Next(d, s, a))
  {
    var s' := Next(d, s, a);
    if a.DoCreate? {
      CreateOk(d, s, NewRow(a.owner, a.workspace, a.maxSteps, a.maxTokens, a.maxCost));
    } else if s' != s {
      match a
      case DoEdit(actor, run, steps) => EditOk(d, s, actor, run, steps);
      case DoCancel(actor, run) => MoveOk(d, s, s', run, Cancelled);
      case DoResume(actor, run) => MoveOk(d, s, s', run, Running);
      case DoResolve(actor, run, id, approved) => ResolveOk(d, s, actor, run, id, approved);
    }
  }

  lemma {:induction false} NextIsWork(d: Deps, s: System, a: Action)
    requires a.Deliver? && a.run in s.queue
    ensures Next(d, s, a) == Work(d, Taken(s, a.run), a.run, a.env, a.crash)
  {
  }

  lemma {:induction false} TakenOk(d: Deps, s: System, run: nat)
    requires SystemOk(d, s)
    ensures SystemOk(d, Taken(s, run))
  {
    assert RowsOk(d, Taken(s, run)) <==> RowsOk(d, s);
  }

  /** The invariant holds after every interleaving of requests, deliveries and crashes. */
  lemma {:induction false} AlwaysOk(d: Deps, history: seq<Action>)
    requires WorkerRegistry(d.registry)
    ensures SystemOk(d, Exec(d, history))
    decreases |history|
  {
    if history != [] {
      var before := history[..|history| - 1];
      AlwaysOk(d, before);
      var s, a := Exec(d, before), history[|history| - 1];
      if a.Deliver? {
        if a.run in s.queue {
          TakenOk(d, s, a.run);
          WorkOk(d, Taken(s, a.run), a.run, a.env, a.crash);
        }
      } else if a.Redeliver? {
        WorkOk(d, s, a.run, a.env, a.crash);
      } else {
        RequestOk(d, s, a);
      }
    }
  }
}
