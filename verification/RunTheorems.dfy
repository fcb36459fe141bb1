/** What holds of every history of requests, deliveries and crashes. */
module RunTheorems {
  import opened Common
  import opened RunDomain
  import opened ToolRegistry
  import opened RunGraph
  import opened RunControl
  import opened RunGrants
  import opened RunHistory
  import opened RunSystem

  // ---------------------------------------------------------------- what a request can change

  /** A granted request writes one row's status, plan and events, and queues a run it sets running. */
  predicate ServiceEdge(s: System, s': System, run: nat) {
    && run < |s.runs| && |s'.runs| == |s.runs|
    && (forall other :: 0 <= other < |s.runs| && other != run ==> s'.runs[other] == s.runs[other])
    && var r, r' := s.runs[run], s'.runs[run];
    && r' == r.(status := r'.status, saved := r'.saved, events := r'.events)
    && (IsTerminal(r.status) ==> QuietTail(r.events, r'.events))
    && (|| (r'.status == r.status && s'.queue == s.queue)
        || (!IsTerminal(r.status) && r'.status == Cancelled && s'.queue == s.queue)
        || (r.status in {Planning, AwaitingApproval, NeedsHuman} && r'.status == Running
            && s'.queue == s.queue + multiset{run}))
  }

  lemma {:induction false} ResolveEdge(s: System, actor: nat, run: nat, id: nat, approved: bool)
    requires Resolve(s, actor, run, id, approved).Ok?
    ensures ServiceEdge(s, Resolve(s, actor, run, id, approved).value, run)
  {
  }

  lemma {:induction false} EditEdge(s: System, actor: nat, run: nat, steps: seq<PlanStep>)
    requires EditPlan(s, actor, run, steps).Ok?
    ensures ServiceEdge(s, EditPlan(s, actor, run, steps).value, run)
  {
  }

  lemma {:induction false} CancelEdge(s: System, actor: nat, run: nat)
    requires Cancel(s, actor, run).Ok?
    ensures ServiceEdge(s, Cancel(s, actor, run).value, run)
  {
  }

  lemma {:induction false} ResumeEdge(s: System, actor: nat, run: nat)
    requires Resume(s, actor, run).Ok?
    ensures ServiceEdge(s, Resume(s, actor, run).value, run)
  {
  }

  predicate IsRequest(a: Action) { a.DoEdit? || a.DoCancel? || a.DoResume? || a.DoResolve? }

  lemma {:induction false} RequestEdge(d: Deps, s: System, a: Action)
    requires IsRequest(a)
    ensures Next(d, s, a) == s || ServiceEdge(s, Next(d, s, a), a.run)
  {
    if Next(d, s, a) != s {
      match a
      case DoEdit(actor, run, steps) => EditEdge(s, actor, run, steps);
      case DoCancel(actor, run) => CancelEdge(s, actor, run);
      case DoResume(actor, run) => ResumeEdge(s, actor, run);
      case DoResolve(actor, run, id, approved) => ResolveEdge(s, actor, run, id, approved);
    }
  }

  /** A drive leaves the queue and every other run alone. */
  lemma {:induction false} WorkFrame(d: Deps, s: System, run: nat, env: nat -> NodeInput, crash: Option<Crash>)
    ensures var s' := Work(d, s, run, env, crash);
            && s'.queue == s.queue && |s'.runs| == |s.runs|
            && forall other :: 0 <= other < |s.runs| && other != run ==> s'.runs[other] == s.runs[other]
  {
  }

  // ---------------------------------------------------------------- arbitrary histories

  /**
   * Each executed write or destructive call has an approval by the run's owner, for that run and tool, whose
   * recorded preview is the preview of the executed arguments; and no approval is spent twice.
   */
  predicate CallsGranted(s: System) {
    && (forall e :: e in s.executed ==>
                      && e.approvalId < |s.approvals| && e.run < |s.runs|
                      && var a := s.approvals[e.approvalId];
                      && a.status == Approved && a.decidedBy == Some(s.runs[e.run].owner)
                      && a.run == e.run && a.tool == e.tool && a.preview == Preview(e.arguments))
    && (forall i, j :: 0 <= i < j < |s.executed| ==> s.executed[i].approvalId != s.executed[j].approvalId)
  }

  lemma {:induction false} OkCallsGranted(d: Deps, s: System)
    requires SystemOk(d, s)
    ensures CallsGranted(s)
  {
    forall e | e in s.executed
      ensures Granted(s.approvals, e) && e.run < |s.runs|
      ensures s.approvals[e.approvalId].decidedBy == Some(s.runs[e.run].owner)
    {
      assert Granted(s.approvals, e);
    }
  }

  /** Grant safety, under any interleaving, spurious deliveries and crashes included. */
  lemma {:induction false} GrantSafety(d: Deps, history: seq<Action>)
    requires WorkerRegistry(d.registry)
    ensures CallsGranted(Exec(d, history))
  {
    AlwaysOk(d, history);
    OkCallsGranted(d, Exec(d, history));
  }

  /** A finished, failed or cancelled run keeps its status, checkpoint, commits and report. */
  lemma {:induction false} TerminalAbsorbing(d: Deps, s: System, a: Action, run: nat)
    requires run < |s.runs| && IsTerminal(s.runs[run].status)
    ensures run < |Next(d, s, a).runs|
    ensures Settles(s.runs[run], Next(d, s, a).runs[run])
  {
    if a.Deliver? {
      if a.run in s.queue { WorkFrame(d, Taken(s, a.run), a.run, a.env, a.crash); }
    } else if a.Redeliver? {
      WorkFrame(d, s, a.run, a.env, a.crash);
    } else if IsRequest(a) {
      RequestEdge(d, s, a);
      if Next(d, s, a) != s && a.run == run { QuietKeeps(s.runs[run].events, Next(d, s, a).runs[run].events); }
    }
  }

  /** Same status, position, state, commits and pull requests, and the same report. */
  predicate Settles(r: Row, r': Row) {
    && r'.status == r.status && r'.at == r.at && r'.state == r.state && r'.commits == r.commits && r'.prs == r.prs
    && ReportOf(r'.events) == ReportOf(r.events)
  }

  /** And so it stays through any continuation. */
  lemma {:induction false} SettledForever(d: Deps, before: seq<Action>, after: seq<Action>, run: nat)
    requires run < |Exec(d, before).runs| && IsTerminal(Exec(d, before).runs[run].status)
    ensures run < |Exec(d, before + after).runs|
    ensures Settles(Exec(d, before).runs[run], Exec(d, before + after).runs[run])
    decreases |after|
  {
    if after == [] {
      assert before + after == before;
    } else {
      var init := after[..|after| - 1];
      assert (before + after)[..|before + after| - 1] == before + init;
      SettledForever(d, before, init, run);
      TerminalAbsorbing(d, Exec(d, before + init), after[|after| - 1], run);
    }
  }

  /**
   * After any history, for every run whose plan was approved with n steps: at most 2(n + 2) coder
   * executions and 8n + 20 gateway calls; a pull request, or completion, only with the whole plan
   * executed and the tests not failing; and at most max_steps + 5 steps charged in the current window,
   * max_steps + 1 before any debugging.
   */
  lemma {:induction false} RunBounds(d: Deps, history: seq<Action>, run: nat)
    requires WorkerRegistry(d.registry) && run < |Exec(d, history).runs|
    ensures var r := Exec(d, history).runs[run]; var n := ApprovedSteps(r.state);
            && (!r.at.AtPlan? && !r.at.AtApprove? ==>
                  r.coderRuns <= 2 * (n + 2) && r.gatewayCalls <= 8 * n + 20)
            && (r.prs != [] || (r.at.AtEnd? && r.state.status == Completed) ==>
                  r.state.stepIndex == |r.state.plan| && r.state.testsPassed != Some(false) && |r.prs| <= 1)
            && (r.budget.maxSteps >= 1 ==>
                  && r.budget.stepsUsed <= r.budget.maxSteps + 5
                  && (r.state.debugRound == 0 ==> r.budget.stepsUsed <= r.budget.maxSteps + 1))
  {
    AlwaysOk(d, history);
    var s := Exec(d, history);
    var r := s.runs[run];
    assert RowOk(d, s.approvals, s.executed, run, r);
    assert 0 <= CoderLeft(r) && 0 <= ReviewerLeft(r);
    if r.status != Failed && r.budget.maxSteps >= 1 { WindowBound(r); }
  }

  // ---------------------------------------------------------------- reports

  /**
   * The report folded from the stored events lists commits that landed, in order, and no pull request but
   * the one opened. Unless a drive of the run raised, it lists all commits and the pull request, says
   * completed, or needs_human, exactly when the graph finalized, or escalated, and agrees with the run on
   * the tests exactly when no phase's tool ever reported, or the last phase's tests ran and no debugging
   * has started since.
   */
  lemma {:induction false} ReportIsTruthful(d: Deps, history: seq<Action>, run: nat)
    requires WorkerRegistry(d.registry) && run < |Exec(d, history).runs|
    ensures var r := Exec(d, history).runs[run]; var report := ReportOf(r.events);
            && report.commits <= r.commits && (report.prUrl == None || report.prUrl == OpenedUrl(r))
            && (r.status != Failed ==>
                  && report.commits == r.commits
                  && report.prUrl == OpenedUrl(r)
                  && (report.testsPassed == r.state.testsPassed <==>
                      (forall p :: p in r.phases ==> p.Silent?) || (LastVerdict(r.phases).Some? && !Untested(r.at)))
                  && (report.conclusion == "completed" <==> r.at.AtEnd? && r.state.status == Completed)
                  && (report.conclusion == "needs_human" <==> r.at.AtEnd? && r.state.status == NeedsHuman))
  {
    AlwaysOk(d, history);
    var s := Exec(d, history);
    var r := s.runs[run];
    assert RowOk(d, s.approvals, s.executed, run, r);
    if r.status != Failed { ReportedVerdict(r); }
  }

  /** A delivery, queued or not, whose drive of this run raises. */
  predicate Raises(s: System, a: Action, run: nat) {
    && run < |s.runs| && !IsTerminal(s.runs[run].status)
    && (|| (a.Deliver? && a.run == run && run in s.queue && a.crash.Some?)
        || (a.Redeliver? && a.run == run && a.crash.Some?))
  }

  lemma {:induction false} RaisedRow(d: Deps, s: System, run: nat, env: nat -> NodeInput, crash: Crash)
    requires WorkerRegistry(d.registry) && SystemOk(d, s) && run < |s.runs| && !IsTerminal(s.runs[run].status)
    ensures var r, r' := s.runs[run], Work(d, s, run, env, Some(crash)).runs[run];
            && r'.status == Failed && r.commits <= r'.commits && r.prs <= r'.prs && Shape(r')
            && Truthful(r) && ReportOf(r'.events) == ReportOf(r.events)
  {
    BeginOk(d, s, run);
    assert RowOk(d, s.approvals, s.executed, run, s.runs[run]);
    BeginAhead(WorldOf(s, run));
    CrashOk(d, Begin(WorldOf(s, run)), env, 0, crash);
    RaisedFrom(d, s.runs[run], Begin(WorldOf(s, run)), env, crash);
  }

  lemma {:induction false} RaisedFrom(d: Deps, r: Row, w: World, env: nat -> NodeInput, crash: Crash)
    requires Control(w.row) && CrashLeaves(w, CrashWorld(d, w, env, 0, crash))
    requires Control(r) && Truthful(r) && Ahead(r, w.row)
    ensures var r' := FailedRow(r, CrashWorld(d, w, env, 0, crash).row);
            && r'.status == Failed && r.commits <= r'.commits && r.prs <= r'.prs && Shape(r')
            && ReportOf(r'.events) == ReportOf(r.events)
  {
    var at := CrashWorld(d, w, env, 0, crash).row;
    FailedBehind(r, at);
    FailedShape(r, at);
  }

  lemma {:induction false} FailedShape(r: Row, at: Row)
    requires Shape(r) && Shape(at)
    ensures Shape(FailedRow(r, at))
  {
  }

  /** A drive that does not raise, and any request, leave a live run not failed. */
  lemma {:induction false} OnlyRaisingFails(d: Deps, s: System, a: Action, run: nat)
    requires WorkerRegistry(d.registry) && SystemOk(d, s) && run < |s.runs| && !IsTerminal(s.runs[run].status)
    ensures run < |Next(d, s, a).runs| && (Next(d, s, a).runs[run].status == Failed <==> Raises(s, a, run))
  {
    if a.Deliver? {
      if a.run in s.queue { WorkFails(d, Taken(s, a.run), a.run, a.env, a.crash, run); }
    } else if a.Redeliver? {
      WorkFails(d, s, a.run, a.env, a.crash, run);
    } else if IsRequest(a) {
      RequestEdge(d, s, a);
    }
  }

  lemma {:induction false} WorkFails(d: Deps, s: System, driven: nat, env: nat -> NodeInput, crash: Option<Crash>,
                                     run: nat)
    requires WorkerRegistry(d.registry) && SystemOk(d, s) && run < |s.runs| && !IsTerminal(s.runs[run].status)
    ensures var s' := Work(d, s, driven, env, crash);
            run < |s'.runs| && (s'.runs[run].status == Failed <==> driven == run && crash.Some?)
  {
    WorkFrame(d, s, driven, env, crash);
    if driven == run {
      BeginOk(d, s, run);
      match crash
      case None =>
        assert RowOk(d, s.approvals, s.executed, run, s.runs[run]);
        BeginAhead(WorldOf(s, run));
        DriveAhead(d, Begin(WorldOf(s, run)), env, 0);
      case Some(c) => RaisedRow(d, s, run, env, c);
    }
  }

  /**
   * A run fails exactly when a drive of it raises, and from then on, whatever happens, its report is the one
   * from before that drive: it lists the run's commits exactly when the drive landed none, and the pull
   * request exactly when the drive opened none.
   */
  lemma {:induction false} FailedReport(d: Deps, before: seq<Action>, a: Action, after: seq<Action>, run: nat)
    requires WorkerRegistry(d.registry)
    requires var s := Exec(d, before); run < |s.runs| && !IsTerminal(s.runs[run].status)
    ensures var s := Exec(d, before); var raised, later := Next(d, s, a), Exec(d, before + [a] + after);
            && run < |raised.runs| && run < |later.runs|
            && (raised.runs[run].status == Failed <==> Raises(s, a, run))
            && (Raises(s, a, run) ==>
                  var r, r1, r2 := s.runs[run], raised.runs[run], later.runs[run];
                  && r2.status == Failed && ReportOf(r2.events) == ReportOf(r.events)
                  && (ReportOf(r2.events).commits == r2.commits <==> r1.commits == r.commits)
                  && (ReportOf(r2.events).prUrl == OpenedUrl(r2) <==> r1.prs == r.prs))
  {
    var s, now := Exec(d, before), before + [a];
    AlwaysOk(d, before);
    OnlyRaisingFails(d, s, a, run);
    assert now[..|now| - 1] == before && Exec(d, now) == Next(d, s, a);
    if Raises(s, a, run) {
      SettledForever(d, now, after, run);
      RaisedReport(d, s, a, run);
    } else {
      RunsRemain(d, now, after);
    }
  }

  /** The report is still the one from before, and is exact for what did not change since. */
  predicate ReportStopped(r: Row, r1: Row) {
    && ReportOf(r1.events) == ReportOf(r.events)
    && (ReportOf(r1.events).commits == r1.commits <==> r1.commits == r.commits)
    && (ReportOf(r1.events).prUrl == OpenedUrl(r1) <==> r1.prs == r.prs)
  }

  lemma {:induction false} RaisedReport(d: Deps, s: System, a: Action, run: nat)
    requires WorkerRegistry(d.registry) && SystemOk(d, s) && Raises(s, a, run)
    ensures run < |Next(d, s, a).runs| && ReportStopped(s.runs[run], Next(d, s, a).runs[run])
  {
    if a.Deliver? {
      NextIsWork(d, s, a);
      RaisedTaken(d, s, run, a.env, a.crash.value);
    } else {
      RaisedWork(d, s, run, a.env, a.crash.value);
    }
  }

  lemma {:induction false} RaisedTaken(d: Deps, s: System, run: nat, env: nat -> NodeInput, crash: Crash)
    requires WorkerRegistry(d.registry) && SystemOk(d, s) && run < |s.runs| && !IsTerminal(s.runs[run].status)
    ensures run < |Work(d, Taken(s, run), run, env, Some(crash)).runs|
    ensures ReportStopped(s.runs[run], Work(d, Taken(s, run), run, env, Some(crash)).runs[run])
  {
    TakenOk(d, s, run);
    RaisedWork(d, Taken(s, run), run, env, crash);
  }

  lemma {:induction false} RaisedWork(d: Deps, s: System, run: nat, env: nat -> NodeInput, crash: Crash)
    requires WorkerRegistry(d.registry) && SystemOk(d, s) && run < |s.runs| && !IsTerminal(s.runs[run].status)
    ensures run < |Work(d, s, run, env, Some(crash)).runs|
    ensures ReportStopped(s.runs[run], Work(d, s, run, env, Some(crash)).runs[run])
  {
    WorkFrame(d, s, run, env, Some(crash));
    RaisedRow(d, s, run, env, crash);
    OpenedOnce(s.runs[run], Work(d, s, run, env, Some(crash)).runs[run]);
  }

  lemma {:induction false} OpenedOnce(r: Row, r': Row)
    requires r.prs <= r'.prs && Shape(r')
    ensures OpenedUrl(r) == OpenedUrl(r') <==> r.prs == r'.prs
  {
  }

  /** Runs are never deleted. */
  lemma {:induction false} RunsRemain(d: Deps, before: seq<Action>, after: seq<Action>)
    ensures |Exec(d, before).runs| <= |Exec(d, before + after).runs|
    decreases |after|
  {
    if after == [] {
      assert before + after == before;
    } else {
      var init, a := after[..|after| - 1], after[|after| - 1];
      assert (before + after)[..|before + after| - 1] == before + init;
      RunsRemain(d, before, init);
      NextRemains(d, Exec(d, before + init), a);
    }
  }

  lemma {:induction false} NextRemains(d: Deps, s: System, a: Action)
    ensures |s.runs| <= |Next(d, s, a).runs|
  {
    if IsRequest(a) {
      RequestEdge(d, s, a);
    } else if !a.DoCreate? {
      WorkFrame(d, s, a.run, a.env, a.crash);
      WorkFrame(d, Taken(s, a.run), a.run, a.env, a.crash);
    }
  }

  /**
   * The plan a run executes is the stored one, human edits included: the drive that passes the plan
   * gate works on exactly the stored steps, to which only debugging appends.
   */
  lemma {:induction false} ApprovedPlanIsExecuted(d: Deps, history: seq<Action>, run: nat, env: nat -> NodeInput)
    requires WorkerRegistry(d.registry) && run < |Exec(d, history).runs|
    requires var r := Exec(d, history).runs[run];
             !IsTerminal(r.status) && r.at.AtApprove? && r.saved.Some?
    ensures var s := Exec(d, history); var approved := s.runs[run].saved.value.steps;
            var after := Work(d, s, run, env, None).runs[run].state;
            approved <= after.plan && |after.plan| == |approved| + after.debugRound
  {
    AlwaysOk(d, history);
    BeginOk(d, Exec(d, history), run);
  }

  // ---------------------------------------------------------------- conforming histories

  /** A delivery of a run that is waiting to be driven, or one the worker skips. */
  predicate DeliveryConforms(s: System, run: nat) {
    run < |s.runs| ==> s.runs[run].status == Pending || s.runs[run].status == Running || IsTerminal(s.runs[run].status)
  }

  predicate ActionConforms(s: System, a: Action) {
    && (a.Deliver? && a.run in s.queue ==> DeliveryConforms(s, a.run))
    && (a.Redeliver? ==> DeliveryConforms(s, a.run))
  }

  ghost predicate Conforming(d: Deps, history: seq<Action>)
    decreases |history|
  {
    history == []
    || (Conforming(d, history[..|history| - 1])
        && ActionConforms(Exec(d, history[..|history| - 1]), history[|history| - 1]))
  }

  /** Where each stored status can find the checkpoint. */
  predicate Place(r: Row) {
    match r.status
    case Pending => r.at.AtPlan?
    case Planning => false
    case AwaitingApproval => r.at.AtApprove? || r.at.AtGateEdits?
    case Running => IsGate(r.at) || (r.at.AtEnd? && r.state.status == NeedsHuman)
    case NeedsHuman => r.at.AtBudgetGate? || (r.at.AtEnd? && r.state.status == NeedsHuman)
    case Completed => r.at.AtEnd? && r.state.status == Completed
    case _ => true
  }

  /** A live run waits only for the batch at its gate, and was refused nothing. */
  predicate Decided(approvals: seq<Approval>, run: nat, r: Row) {
    forall id :: 0 <= id < |approvals| && approvals[id].run == run && !IsTerminal(r.status) ==>
                   || approvals[id].status == Approved
                   || (approvals[id].status == Undecided && r.at.AtGateEdits? && r.status == AwaitingApproval
                       && ProposedIn(r.state.proposals, id))
  }

  predicate RowConforms(approvals: seq<Approval>, run: nat, r: Row) {
    TrailOk(r) && Place(r) && Decided(approvals, run, r)
  }

  predicate SystemConforms(s: System) {
    && BatchesApproved(s.approvals, s.executed)
    && forall run :: 0 <= run < |s.runs| ==> RowConforms(s.approvals, run, s.runs[run])
  }

  /** One run's row changes; the approvals of all others stay as they were. */
  lemma {:induction false} OneRunConforms(s: System, s': System, run: nat, r': Row)
    requires SystemConforms(s) && run < |s.runs| && s'.runs == s.runs[run := r']
    requires |s.approvals| <= |s'.approvals|
    requires forall id :: 0 <= id < |s'.approvals| && s'.approvals[id].run != run ==>
                            id < |s.approvals| && s'.approvals[id] == s.approvals[id]
    requires RowConforms(s'.approvals, run, r') && BatchesApproved(s'.approvals, s'.executed)
    ensures SystemConforms(s')
  {
    forall other | 0 <= other < |s'.runs|
      ensures RowConforms(s'.approvals, other, s'.runs[other])
    {
      assert RowConforms(s.approvals, other, s.runs[other]);
    }
  }

  /** A conforming delivery starts from a settled, lawfully placed run. */
  lemma {:induction false} BeginConforms(d: Deps, s: System, run: nat)
    requires WorkerRegistry(d.registry) && SystemOk(d, s) && SystemConforms(s)
    requires run < |s.runs| && !IsTerminal(s.runs[run].status) && DeliveryConforms(s, run)
    ensures var w := Begin(WorldOf(s, run));
            && DriveSettled(w) && (s.runs[run].at.AtEnd? || OnTrack(w.row))
            && (s.runs[run].at.AtEnd? ==> w.row == s.runs[run])
  {
    var r := s.runs[run];
    assert RowOk(d, s.approvals, s.executed, run, r) && RowConforms(s.approvals, run, r);
    assert Settled(s.approvals, run);
    if r.status == Running && IsGate(r.at) { PassGateSays(WorldOf(s, run)); }
  }

  lemma {:induction false} DriveConforms(d: Deps, s: System, run: nat, env: nat -> NodeInput)
    requires WorkerRegistry(d.registry) && SystemOk(d, s) && SystemConforms(s)
    requires Drivable(s, run) && DeliveryConforms(s, run)
    ensures SystemConforms(Work(d, s, run, env, None))
  {
    BeginOk(d, s, run);
    BeginConforms(d, s, run);
    var w := Begin(WorldOf(s, run));
    var w' := Drive(d, w, env, 0);
    DriveKeepsGrants(d, w, env, 0);
    DriveSays(d, w, env, 0);
    DriveKeepsSettled(d, w, env, 0);
    assert RowConforms(s.approvals, run, s.runs[run]);
    DrivenConforms(s, w', run);
    OneRunConforms(s, Work(d, s, run, env, None), run, w'.row);
  }

  /** A settled run that stopped at a pause on track, or had already ended, is lawfully placed. */
  lemma {:induction false} DrivenConforms(s: System, w': World, run: nat)
    requires run < |s.runs| && RowConforms(s.approvals, run, s.runs[run]) && !IsTerminal(s.runs[run].status)
    requires w'.run == run && DriveSettled(w') && Shape(w'.row) && Paused(w'.row.at)
    requires OnTrack(w'.row) || (w'.row == s.runs[run] && w'.row.at.AtEnd?)
    ensures RowConforms(w'.approvals, run, w'.row)
  {
  }

  lemma {:induction false} StepSettled(d: Deps, w: World, input: NodeInput)
    requires WorkerRegistry(d.registry) && Control(w.row) && Grants(d, w) && DriveSettled(w) && !Paused(w.row.at)
    ensures var w1 := Step(d, w, input); Control(w1.row) && Grants(d, w1) && DriveSettled(w1)
  {
    StepOk(d, w, input);
    StepKeepsSettled(d, w, input);
  }

  /** Where the exception strikes, whatever part of a batch had run was approved as a whole. */
  lemma {:induction false} StruckSettled(d: Deps, w: World, input: NodeInput, part: nat)
    requires WorkerRegistry(d.registry) && Grants(d, w) && DriveSettled(w)
    ensures BatchesApproved(w.approvals, Struck(d, w, input, part).executed)
  {
    if w.row.at.AtApplyEdits? { SettledBatch(d, w, Take(w.row.state.proposals, part), input); }
  }

  lemma {:induction false} CrashSettled(d: Deps, w: World, env: nat -> NodeInput, k: nat, crash: Crash)
    requires WorkerRegistry(d.registry) && Control(w.row) && Grants(d, w) && DriveSettled(w)
    ensures var w' := CrashWorld(d, w, env, k, crash); BatchesApproved(w'.approvals, w'.executed)
    decreases crash.steps
  {
    if crash.steps == 0 || Paused(w.row.at) {
      CrashStops(d, w, env, k, crash);
      StruckSettled(d, w, env(k), crash.part);
    } else {
      CrashOnce(d, w, env, k, crash);
      StepSettled(d, w, env(k));
      CrashSettled(d, Step(d, w, env(k)), env, k + 1, Crash(crash.steps - 1, crash.part));
    }
  }

  /** Approved batches are older than the drive that runs them. */
  lemma {:induction false} RollbackBatches(run: nat, before: seq<Approval>, after: seq<Approval>,
                                           executed: seq<Execution>)
    requires AppendsOwn(run, before, after) && BatchesApproved(after, executed)
    ensures BatchesApproved(before, executed)
  {
    forall e | e in executed
      ensures BatchApproved(before, e.batch)
    {
      assert BatchApproved(after, e.batch);
    }
  }

  lemma {:induction false} CrashConforms(d: Deps, s: System, run: nat, env: nat -> NodeInput, crash: Crash)
    requires WorkerRegistry(d.registry) && SystemOk(d, s) && SystemConforms(s)
    requires Drivable(s, run) && DeliveryConforms(s, run)
    ensures SystemConforms(Work(d, s, run, env, Some(crash)))
  {
    BeginOk(d, s, run);
    BeginConforms(d, s, run);
    var w := Begin(WorldOf(s, run));
    CrashOk(d, w, env, 0, crash);
    CrashSettled(d, w, env, 0, crash);
    var w' := CrashWorld(d, w, env, 0, crash);
    RollbackBatches(run, s.approvals, w'.approvals, w'.executed);
    assert RowConforms(s.approvals, run, s.runs[run]);
    Snoc(s.runs[run].events, StatusChanged(Failed));
    OneRunConforms(s, Work(d, s, run, env, Some(crash)), run, FailedRow(s.runs[run], w'.row));
  }

  lemma {:induction false} ResolveConforms(s: System, actor: nat, run: nat, id: nat, approved: bool)
    requires SystemConforms(s) && Resolve(s, actor, run, id, approved).Ok?
    ensures SystemConforms(Resolve(s, actor, run, id, approved).value)
  {
    var s' := Resolve(s, actor, run, id, approved).value;
    assert RowConforms(s.approvals, run, s.runs[run]);
    BatchesEvolve(s.approvals, s'.approvals, s.executed);
    DecidedTrail(s.runs[run], s'.runs[run], ApprovalResolved(id, approved));
    OneRunConforms(s, s', run, s'.runs[run]);
  }

  /** A decision is announced, then the transition it causes, if any. */
  lemma {:induction false} DecidedTrail(r: Row, r': Row, decision: Event)
    requires TrailOk(r) && decision.ApprovalResolved?
    requires || (r'.status == r.status && r'.events == r.events + [decision])
             || (CanTransition(r.status, r'.status) && r'.events == r.events + [decision] + [StatusChanged(r'.status)])
    ensures TrailOk(r')
  {
    Snoc(r.events, decision);
    Snoc(r.events + [decision], StatusChanged(r'.status));
  }

  lemma {:induction false} MoveConforms(s: System, s': System, run: nat, target: RunStatus)
    requires SystemConforms(s) && run < |s.runs| && CanTransition(s.runs[run].status, target)
    requires target == Cancelled || (target == Running && !HasPending(s.approvals, run)
                                     && (s.runs[run].status == AwaitingApproval || s.runs[run].status == NeedsHuman))
    requires s' == s.(runs := s.runs[run := Transition(s.runs[run], target)], queue := s'.queue)
    ensures SystemConforms(s')
  {
    assert RowConforms(s.approvals, run, s.runs[run]);
    Snoc(s.runs[run].events, StatusChanged(target));
    OneRunConforms(s, s', run, Transition(s.runs[run], target));
  }

  lemma {:induction false} EditConforms(s: System, actor: nat, run: nat, steps: seq<PlanStep>)
    requires SystemConforms(s) && EditPlan(s, actor, run, steps).Ok?
    ensures SystemConforms(EditPlan(s, actor, run, steps).value)
  {
    var s' := EditPlan(s, actor, run, steps).value;
    assert RowConforms(s.approvals, run, s.runs[run]);
    Snoc(s.runs[run].events, Last(s'.runs[run].events));
    OneRunConforms(s, s', run, s'.runs[run]);
  }

  lemma {:induction false} CreateConforms(d: Deps, s: System, r: Row)
    requires SystemOk(d, s) && SystemConforms(s)
    requires r.status == Pending && r.at.AtPlan? && r.events == [RunStarted]
    ensures SystemConforms(s.(runs := s.runs + [r]))
  {
    Snoc([], RunStarted);
    assert r.events == [] + [RunStarted];
    var s' := s.(runs := s.runs + [r]);
    forall run | 0 <= run < |s'.runs|
      ensures RowConforms(s'.approvals, run, s'.runs[run])
    {
      if run < |s.runs| { assert RowConforms(s.approvals, run, s.runs[run]); }
    }
  }

  lemma {:induction false} NextConforms(d: Deps, s: System, a: Action)
    requires WorkerRegistry(d.registry) && SystemOk(d, s) && SystemConforms(s) && ActionConforms(s, a)
    ensures SystemConforms(Next(d, s, a))
  {
    var s' := Next(d, s, a);
    if a.DoCreate? {
      CreateConforms(d, s, NewRow(a.owner, a.workspace, a.maxSteps, a.maxTokens, a.maxCost));
    } else if s' != s {
      match a
      case DoEdit(actor, run, steps) => EditConforms(s, actor, run, steps);
      case DoCancel(actor, run) => MoveConforms(s, s', run, Cancelled);
      case DoResume(actor, run) => MoveConforms(s, s', run, Running);
      case DoResolve(actor, run, id, approved) => ResolveConforms(s, actor, run, id, approved);
      case Deliver(run, env, crash) => WorkConforms(d, Taken(s, run), run, env, crash);
      case Redeliver(run, env, crash) => WorkConforms(d, s, run, env, crash);
    }
  }

  lemma {:induction false} WorkConforms(d: Deps, s: System, run: nat, env: nat -> NodeInput, crash: Option<Crash>)
    requires WorkerRegistry(d.registry) && SystemOk(d, s) && SystemConforms(s) && DeliveryConforms(s, run)
    ensures SystemConforms(Work(d, s, run, env, crash))
  {
    if Drivable(s, run) {
      match crash
      case None => DriveConforms(d, s, run, env);
      case Some(c) => CrashConforms(d, s, run, env, c);
    }
  }

  lemma {:induction false} AlwaysConforms(d: Deps, history: seq<Action>)
    requires WorkerRegistry(d.registry) && Conforming(d, history)
    ensures SystemConforms(Exec(d, history))
    decreases |history|
  {
    if history != [] {
      var before := history[..|history| - 1];
      AlwaysConforms(d, before);
      AlwaysOk(d, before);
      NextConforms(d, Exec(d, before), history[|history| - 1]);
    }
  }

  /**
   * With deliveries processed only while a run is pending or running: every stored status change of
   * every run was an allowed transition or a repetition, and every executed mutation belonged to a
   * batch approved as a whole. A completed run has executed its whole plan with tests not failing.
   */
  lemma {:induction false} ConformingHistories(d: Deps, history: seq<Action>)
    requires WorkerRegistry(d.registry) && Conforming(d, history)
    ensures var s := Exec(d, history);
            && (forall run :: 0 <= run < |s.runs| ==>
                                && Lawful(s.runs[run].events) && LastStatus(s.runs[run].events) == s.runs[run].status
                                && (s.runs[run].status == Completed ==>
                                      && s.runs[run].state.stepIndex == |s.runs[run].state.plan|
                                      && s.runs[run].state.testsPassed != Some(false)))
            && (forall e, id :: e in s.executed && id in e.batch ==>
                                  id < |s.approvals| && s.approvals[id].status == Approved)
  {
    AlwaysOk(d, history);
    AlwaysConforms(d, history);
    var s := Exec(d, history);
    forall run | 0 <= run < |s.runs|
      ensures RowConforms(s.approvals, run, s.runs[run]) && Shape(s.runs[run])
    {
      assert RowOk(d, s.approvals, s.executed, run, s.runs[run]);
    }
    forall e | e in s.executed
      ensures BatchApproved(s.approvals, e.batch)
    {
    }
  }
}
