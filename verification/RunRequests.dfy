/** What each request to the run service is granted for, and what it changes (agents/application/run_service.py). */
module RunRequests {
  import opened Common
  import opened RunDomain
  import opened ToolRegistry
  import opened RunGraph
  import opened RunControl
  import opened RunGrants
  import opened RunHistory
  import opened RunSystem
  import opened RunTheorems

  /** The statuses from which a status may be entered. */
  function Sources(target: RunStatus): set<RunStatus> {
    match target
    case Pending => {}
    case Planning => {Pending}
    case AwaitingApproval => {Planning, Running}
    case Running => {Planning, AwaitingApproval, NeedsHuman}
    case NeedsHuman => {AwaitingApproval, Running}
    case Completed => {Running}
    case Failed => {Pending, Planning, AwaitingApproval, Running, NeedsHuman}
    case Cancelled => {Pending, Planning, AwaitingApproval, Running, NeedsHuman}
  }

  /** The transition table read backwards; the statuses nothing leaves are the terminal ones. */
  lemma TransitionsBackwards(current: RunStatus, target: RunStatus)
    ensures CanTransition(current, target) <==> current in Sources(target)
    ensures IsTerminal(current) <==> forall next :: !CanTransition(current, next)
  {
    assert !IsTerminal(current) ==> CanTransition(current, Failed);
  }

  predicate Owns(s: System, actor: nat, run: nat) { run < |s.runs| && s.runs[run].owner == actor }

  /** An approval of the run other than `id` waits for its decision. */
  predicate OtherWaits(s: System, run: nat, id: nat) {
    exists k :: 0 <= k < |s.approvals| && k != id && s.approvals[k].run == run && s.approvals[k].status == Undecided
  }

  predicate NothingWaits(s: System, run: nat) {
    forall k :: 0 <= k < |s.approvals| && s.approvals[k].run == run ==> s.approvals[k].status != Undecided
  }

  /** A created run is pending, has nothing charged and waits in the queue; nothing else changes. */
  lemma CreateQueues(d: Deps, s: System, owner: nat, workspace: Option<nat>, maxSteps: int, maxTokens: int,
                     maxCost: real)
    ensures var s', n := Next(d, s, DoCreate(owner, workspace, maxSteps, maxTokens, maxCost)), |s.runs|;
            && |s'.runs| == n + 1 && s'.runs[..n] == s.runs && s'.approvals == s.approvals && s'.executed == s.executed
            && s'.queue == s.queue + multiset{n}
            && var r := s'.runs[n];
            && r.owner == owner && r.workspace == workspace && r.status == Pending && r.at.AtPlan? && r.saved.None?
            && r.budget == RunBudget(maxSteps, maxTokens, maxCost, 0, 0, 0.0)
            && r.events == [RunStarted] && r.commits == [] && r.prs == []
  {
  }

  /**
   * The owner's plan of one to fifty steps is stored as it was submitted, one version on, exactly before the run
   * executes; a refusal says why.
   */
  lemma EditIsGranted(s: System, actor: nat, run: nat, steps: seq<PlanStep>)
    ensures var e := EditPlan(s, actor, run, steps);
            && (e == Err(Invalid) <==> |steps| == 0 || |steps| > 50)
            && (e == Err(NotFound) <==> 1 <= |steps| <= 50 && !Owns(s, actor, run))
            && (e.Ok? <==> 1 <= |steps| <= 50 && Owns(s, actor, run)
                           && s.runs[run].status in {Planning, AwaitingApproval})
            && (e.Ok? ==>
                  var r := s.runs[run]; var version := if r.saved == None then 1 else r.saved.value.version + 1;
                  var r' := r.(saved := Some(Plan(version, steps)),
                               events := r.events + [PlanCreated(version, |steps|)]);
                  e.value == s.(runs := s.runs[run := r']))
  {
  }

  /** The owner may cancel any run that has not finished. */
  lemma CancelIsGranted(s: System, actor: nat, run: nat)
    ensures var e := Cancel(s, actor, run);
            && (e == Err(NotFound) <==> !Owns(s, actor, run))
            && (e.Ok? <==> Owns(s, actor, run) && s.runs[run].status !in {Completed, Failed, Cancelled})
            && (e.Ok? ==>
                  var r := s.runs[run];
                  e.value == s.(runs := s.runs[run := r.(status := Cancelled,
                                                         events := r.events + [StatusChanged(Cancelled)])]))
  {
  }

  /** The owner may resume a parked run none of whose approvals waits; it is set running and queued once. */
  lemma ResumeIsGranted(s: System, actor: nat, run: nat)
    ensures var e := Resume(s, actor, run);
            && (e == Err(NotFound) <==> !Owns(s, actor, run))
            && (e.Ok? <==> && Owns(s, actor, run) && s.runs[run].status in {AwaitingApproval, NeedsHuman}
                           && NothingWaits(s, run))
            && (e.Ok? ==>
                  var r := s.runs[run];
                  e.value == s.(runs := s.runs[run := r.(status := Running,
                                                         events := r.events + [StatusChanged(Running)])],
                                queue := s.queue + multiset{run}))
  {
  }

  /**
   * The owner decides each approval of the run once: a rejection cancels a run that has not finished, the last
   * approval sets a run going that waits, and any other approval is only recorded.
   */
  lemma ResolveIsGranted(s: System, actor: nat, run: nat, id: nat, approved: bool)
    ensures var e := Resolve(s, actor, run, id, approved);
            var mine := Owns(s, actor, run) && id < |s.approvals| && s.approvals[id].run == run;
            var last := approved && !OtherWaits(s, run, id);
            && (e == Err(NotFound) <==> !mine)
            && (e.Ok? <==> && mine && s.approvals[id].status == Undecided
                           && (!approved ==> s.runs[run].status !in {Completed, Failed, Cancelled})
                           && (last ==> s.runs[run].status in {Planning, AwaitingApproval, NeedsHuman}))
            && (e.Ok? ==>
                  var r, a := s.runs[run], s.approvals[id];
                  var target := if !approved then Cancelled else if last then Running else r.status;
                  var moved := if !approved || last then [StatusChanged(target)] else [];
                  var a' := a.(status := if approved then Approved else Rejected, decidedBy := Some(actor));
                  var r' := r.(status := target, events := r.events + [ApprovalResolved(id, approved)] + moved);
                  e.value == s.(approvals := s.approvals[id := a'], runs := s.runs[run := r'],
                                queue := if last then s.queue + multiset{run} else s.queue))
  {
    if Owns(s, actor, run) && id < |s.approvals| && s.approvals[id].run == run && s.approvals[id].status == Undecided {
      OthersWait(s, actor, run, id, approved);
      ResolvedAs(s, actor, run, id, approved);
    }
  }

  /** What waits once one approval is decided. */
  lemma OthersWait(s: System, actor: nat, run: nat, id: nat, approved: bool)
    requires id < |s.approvals|
    ensures var verdict := if approved then Approved else Rejected;
            var decided := s.approvals[id := s.approvals[id].(status := verdict, decidedBy := Some(actor))];
            HasPending(decided, run) <==> OtherWaits(s, run, id)
  {
    var verdict := if approved then Approved else Rejected;
    var decided := s.approvals[id := s.approvals[id].(status := verdict, decidedBy := Some(actor))];
    if OtherWaits(s, run, id) {
      var k :| 0 <= k < |s.approvals| && k != id && s.approvals[k].run == run && s.approvals[k].status == Undecided;
      assert decided[k] == s.approvals[k];
    }
    if HasPending(decided, run) {
      var k :| 0 <= k < |decided| && decided[k].run == run && decided[k].status == Undecided;
      assert k != id && s.approvals[k] == decided[k];
    }
  }

  lemma ResolvedAs(s: System, actor: nat, run: nat, id: nat, approved: bool)
    requires Owns(s, actor, run) && id < |s.approvals| && s.approvals[id].run == run
    requires s.approvals[id].status == Undecided
    requires var verdict := if approved then Approved else Rejected;
             var decided := s.approvals[id := s.approvals[id].(status := verdict, decidedBy := Some(actor))];
             HasPending(decided, run) <==> OtherWaits(s, run, id)
    ensures var e := Resolve(s, actor, run, id, approved); var last := approved && !OtherWaits(s, run, id);
            && (e.Ok? <==> && (!approved ==> s.runs[run].status !in {Completed, Failed, Cancelled})
                           && (last ==> s.runs[run].status in {Planning, AwaitingApproval, NeedsHuman}))
            && (e.Err? ==> e == Err(Conflict))
            && (e.Ok? ==>
                  var r, a := s.runs[run], s.approvals[id];
                  var target := if !approved then Cancelled else if last then Running else r.status;
                  var moved := if !approved || last then [StatusChanged(target)] else [];
                  var a' := a.(status := if approved then Approved else Rejected, decidedBy := Some(actor));
                  var r' := r.(status := target, events := r.events + [ApprovalResolved(id, approved)] + moved);
                  e.value == s.(approvals := s.approvals[id := a'], runs := s.runs[run := r'],
                                queue := if last then s.queue + multiset{run} else s.queue))
  {
    var r := s.runs[run];
    assert r.events + [ApprovalResolved(id, approved)] + [] == r.events + [ApprovalResolved(id, approved)];
  }

  /** A drive that raises fails the run and rolls its session back; checkpoint, branch and provider stay advanced. */
  lemma RaisedDriveRollsBack(d: Deps, s: System, run: nat, env: nat -> NodeInput, crash: Crash)
    requires Drivable(s, run)
    ensures var r, s' := s.runs[run], Work(d, s, run, env, Some(crash));
            var left := CrashWorld(d, Begin(WorldOf(s, run)), env, 0, crash);
            && s'.approvals == s.approvals && s'.executed == left.executed && s'.queue == s.queue
            && var r' := s'.runs[run];
            && r'.status == Failed && r'.saved == r.saved && r'.budget == r.budget
            && r'.events == r.events + [StatusChanged(Failed)]
            && r'.at == left.row.at && r'.state == left.row.state
            && r'.commits == left.row.commits && r'.prs == left.row.prs
  {
  }

  /**
   * A node that raises leaves nothing of its own, except that part way through a batch the mutations that ran have
   * run: exactly those of the approved proposals among the first `part` that pass the checks.
   */
  lemma RaisedNodeLeaves(d: Deps, w: World, env: nat -> NodeInput, k: nat, part: nat)
    requires WorkerRegistry(d.registry) && Control(w.row) && Grants(d, w)
    ensures var all := w.row.state.proposals;
            var ran := if w.row.at.AtApplyEdits?
              then Entries(d, w.run, w.approvals, Take(all, part), env(k), 0, BatchOf(all)) else [];
            CrashWorld(d, w, env, k, Crash(0, part)) == w.(executed := w.executed + ran)
  {
    var all := w.row.state.proposals;
    CrashStops(d, w, env, k, Crash(0, part));
    PrefixRecorded(d, w.approvals, w.run, all, Take(all, part));
    BatchExecutesExactly(d, w, Take(all, part), env(k), 0, BatchOf(all));
    assert w.executed + [] == w.executed;
  }

  /**
   * What the owner submitted is what runs: after an accepted edit and the resume that answers the plan gate, the
   * drive works on exactly the submitted steps, to which only debugging appends.
   */
  lemma SubmittedPlanIsExecuted(d: Deps, history: seq<Action>, actor: nat, run: nat, steps: seq<PlanStep>,
                                env: nat -> NodeInput)
    requires WorkerRegistry(d.registry)
    requires var s := Exec(d, history);
             EditPlan(s, actor, run, steps).Ok? && s.runs[run].at.AtApprove?
             && Resume(EditPlan(s, actor, run, steps).value, actor, run).Ok?
    ensures var s := Exec(d, history + [DoEdit(actor, run, steps)] + [DoResume(actor, run)]);
            var s' := Work(d, s, run, env, None);
            && run in s.queue && run < |s'.runs|
            && steps <= s'.runs[run].state.plan
            && |s'.runs[run].state.plan| == |steps| + s'.runs[run].state.debugRound
  {
    var edit, resume := DoEdit(actor, run, steps), DoResume(actor, run);
    var edited := history + [edit];
    var resumed := edited + [resume];
    assert edited[..|history|] == history && resumed[..|edited|] == edited;
    EditIsGranted(Exec(d, history), actor, run, steps);
    ResumeIsGranted(Exec(d, edited), actor, run);
    WorkFrame(d, Exec(d, resumed), run, env, None);
    ApprovedPlanIsExecuted(d, resumed, run, env);
  }
}
