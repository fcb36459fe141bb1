/**
 * The gates of a run when every delivery comes from the service: who answers them, and the one nobody can
 * answer (agents/graph/nodes.py, agents/application/run_service.py).
 */
module RunGates {
  import opened Common
  import opened RunDomain
  import opened ToolRegistry
  import opened RunGraph
  import opened RunControl
  import opened RunGrants
  import opened RunHistory
  import opened RunSystem
  import opened RunTheorems

  // ---------------------------------------------------------------- deliveries from the service only

  /** No message was duplicated or invented. */
  ghost predicate ServiceOnly(history: seq<Action>) {
    forall a :: a in history ==> !a.Redeliver?
  }

  /** A run that waits for a human has no message queued, and no run has two. */
  predicate QueueOk(s: System) {
    && (forall run :: run in s.queue ==> run < |s.runs| && s.queue[run] <= 1)
    && (forall run :: 0 <= run < |s.runs| && s.runs[run].status in {AwaitingApproval, NeedsHuman} ==> run !in s.queue)
  }

  lemma {:induction false} EdgeQueue(s: System, s': System, run: nat)
    requires QueueOk(s) && ServiceEdge(s, s', run) && s.runs[run].status != Planning
    ensures QueueOk(s')
  {
  }

  lemma {:induction false} DeliverQueue(d: Deps, s: System, run: nat, env: nat -> NodeInput, crash: Option<Crash>)
    requires QueueOk(s) && run in s.queue
    ensures QueueOk(Work(d, Taken(s, run), run, env, crash))
  {
    var q := s.queue - multiset{run};
    assert run !in q && forall other :: other != run ==> q[other] == s.queue[other];
    WorkFrame(d, s.(queue := q), run, env, crash);
  }

  lemma {:induction false} NextQueue(d: Deps, s: System, a: Action)
    requires QueueOk(s) && SystemConforms(s) && !a.Redeliver?
    ensures QueueOk(Next(d, s, a)) && ActionConforms(s, a)
  {
    if a.Deliver? {
      if a.run in s.queue {
        assert RowConforms(s.approvals, a.run, s.runs[a.run]);
        DeliverQueue(d, s, a.run, a.env, a.crash);
      }
    } else if IsRequest(a) {
      RequestEdge(d, s, a);
      if Next(d, s, a) != s {
        assert RowConforms(s.approvals, a.run, s.runs[a.run]);
        EdgeQueue(s, Next(d, s, a), a.run);
      }
    }
  }

  lemma {:induction false} ServiceOnlyQueue(d: Deps, history: seq<Action>)
    requires WorkerRegistry(d.registry) && ServiceOnly(history)
    ensures Conforming(d, history) && QueueOk(Exec(d, history))
    decreases |history|
  {
    if history != [] {
      var before, a := history[..|history| - 1], history[|history| - 1];
      assert forall b :: b in before ==> b in history;
      ServiceOnlyQueue(d, before);
      AlwaysConforms(d, before);
      assert a in history;
      NextQueue(d, Exec(d, before), a);
    }
  }

  /** When every delivery comes from the service, every history conforms. */
  lemma {:induction false} ServiceDeliveriesConform(d: Deps, history: seq<Action>)
    requires WorkerRegistry(d.registry) && ServiceOnly(history)
    ensures Conforming(d, history)
  {
    ServiceOnlyQueue(d, history);
  }

  // ---------------------------------------------------------------- the pull-request gate

  /** Nothing was delivered, and the run is not on its way to delivering. */
  predicate Undelivered(r: Row) {
    r.prs == [] && r.state.status != Completed && !r.at.AtOpenPr? && !r.at.AtFinalize? && r.status != Completed
  }

  lemma {:induction false} CoderUndelivered(d: Deps, w: World, input: NodeInput)
    requires Undelivered(w.row)
    ensures Undelivered(CoderNode(d, w, input).row)
  {
    CoderEffect(d, w, input);
    CoderRoundsFrame(d, w, input, 0, 0);
  }

  lemma {:induction false} ApplyUndelivered(d: Deps, w: World, input: NodeInput)
    requires Undelivered(w.row)
    ensures Undelivered(ApplyEditsNode(d, w, input).row)
  {
    ApplyAllFrame(d, w, w.row.state.proposals, input, 0, BatchOf(w.row.state.proposals));
  }

  lemma {:induction false} ReviewerUndelivered(d: Deps, w: World, input: NodeInput)
    requires Undelivered(w.row)
    ensures Undelivered(ReviewerNode(d, w, input).row)
  {
    ReviewerEffect(d, w, input);
  }

  lemma {:induction false} TestUndelivered(d: Deps, w: World, input: NodeInput)
    requires Undelivered(w.row)
    ensures Undelivered(TestNode(d, w, input).row)
  {
    TestEffect(d, w, input);
  }

  /** Where delivery is configured, only the pull-request gate leads to it. */
  lemma {:induction false} AdvanceUndelivered(d: Deps, w: World, input: NodeInput)
    requires d.pr && w.row.workspace.Some? && Undelivered(w.row) && !w.row.at.AtEnd? && !w.row.at.AtPrGate?
    ensures Undelivered(Advance(d, w, input).row)
  {
    match w.row.at
    case AtCoder => CoderUndelivered(d, w, input);
    case AtReviewer => ReviewerUndelivered(d, w, input);
    case AtTest => TestUndelivered(d, w, input);
    case AtApplyEdits => ApplyUndelivered(d, w, input);
    case _ =>
  }

  lemma {:induction false} DriveUndelivered(d: Deps, w: World, env: nat -> NodeInput, k: nat)
    requires d.pr && w.row.workspace.Some? && Undelivered(w.row) && Control(w.row)
    ensures Undelivered(Drive(d, w, env, k).row)
    decreases Stage(w.row.at), DebugLeft(w.row.state), StepsLeft(w.row.state), ReviewsLeft(w.row.state),
              NodeRank(w.row.at)
  {
    if !Paused(w.row.at) {
      AdvanceUndelivered(d, w, env(k));
      AdvanceProgress(d, w, env(k));
      DriveUndelivered(d, Step(d, w, env(k)), env, k + 1);
    }
  }

  lemma {:induction false} CrashUndelivered(d: Deps, w: World, env: nat -> NodeInput, k: nat, crash: Crash)
    requires d.pr && w.row.workspace.Some? && Undelivered(w.row) && Control(w.row)
    ensures Undelivered(CrashWorld(d, w, env, k, crash).row)
    decreases crash.steps
  {
    if crash.steps != 0 && !Paused(w.row.at) {
      AdvanceUndelivered(d, w, env(k));
      AdvanceProgress(d, w, env(k));
      CrashUndelivered(d, Step(d, w, env(k)), env, k + 1, Crash(crash.steps - 1, crash.part));
    }
  }

  predicate NothingDelivered(s: System) {
    forall run :: 0 <= run < |s.runs| && s.runs[run].workspace.Some? ==>
                    && Undelivered(s.runs[run])
                    && (s.runs[run].at.AtPrGate? && !IsTerminal(s.runs[run].status) ==> run !in s.queue)
  }

  lemma {:induction false} WorkUndelivered(d: Deps, s: System, run: nat, env: nat -> NodeInput, crash: Option<Crash>)
    requires d.pr && NothingDelivered(s) && WorkerRegistry(d.registry) && SystemOk(d, s)
    requires run < |s.runs| ==> run !in s.queue
                                && (s.runs[run].at.AtPrGate? ==>
                                    s.runs[run].workspace.None? || IsTerminal(s.runs[run].status))
    ensures NothingDelivered(Work(d, s, run, env, crash))
  {
    WorkFrame(d, s, run, env, crash);
    if Drivable(s, run) { WorkedUndelivered(d, s, run, env, crash); }
  }

  lemma {:induction false} WorkedUndelivered(d: Deps, s: System, run: nat, env: nat -> NodeInput, crash: Option<Crash>)
    requires d.pr && WorkerRegistry(d.registry) && SystemOk(d, s) && Drivable(s, run)
    requires s.runs[run].workspace.Some? ==> Undelivered(s.runs[run]) && !s.runs[run].at.AtPrGate?
    ensures var r, r' := s.runs[run], Work(d, s, run, env, crash).runs[run];
            r'.workspace == r.workspace && (r'.workspace.Some? ==> Undelivered(r'))
  {
    BeginOk(d, s, run);
    var w := WorldOf(s, run);
    if crash.Some? { CrashOk(d, Begin(w), env, 0, crash.value); }
    if w.row.workspace.Some? {
      if IsGate(w.row.at) { AdvanceUndelivered(d, w, env(0)); }
      match crash
      case None => DriveUndelivered(d, Begin(w), env, 0);
      case Some(c) => CrashUndelivered(d, Begin(w), env, 0, c);
    }
  }

  lemma {:induction false} EdgeUndelivered(s: System, s': System, run: nat)
    requires NothingDelivered(s) && ServiceEdge(s, s', run) && RowConforms(s.approvals, run, s.runs[run])
    ensures NothingDelivered(s')
  {
  }

  lemma {:induction false} RequestUndelivered(d: Deps, s: System, a: Action)
    requires SystemConforms(s) && NothingDelivered(s) && !a.Deliver? && !a.Redeliver?
    ensures NothingDelivered(Next(d, s, a))
  {
    if IsRequest(a) {
      RequestEdge(d, s, a);
      if Next(d, s, a) != s {
        assert RowConforms(s.approvals, a.run, s.runs[a.run]);
        EdgeUndelivered(s, Next(d, s, a), a.run);
      }
    }
  }

  lemma {:induction false} DeliverUndelivered(d: Deps, s: System, a: Action)
    requires d.pr && NothingDelivered(s) && WorkerRegistry(d.registry) && SystemOk(d, s) && QueueOk(s) && a.Deliver?
    ensures NothingDelivered(Next(d, s, a))
  {
    if a.run in s.queue {
      TakenOk(d, s, a.run);
      NextIsWork(d, s, a);
      TakenUndelivered(s, a.run);
      WorkUndelivered(d, Taken(s, a.run), a.run, a.env, a.crash);
    }
  }

  /** A message of a run at the gate is never queued, so none is taken. */
  lemma {:induction false} TakenUndelivered(s: System, run: nat)
    requires NothingDelivered(s) && QueueOk(s) && run in s.queue
    ensures var t := Taken(s, run);
            && NothingDelivered(t) && run < |t.runs| && run !in t.queue
            && (t.runs[run].at.AtPrGate? ==> t.runs[run].workspace.None? || IsTerminal(t.runs[run].status))
  {
    assert Taken(s, run).queue[run] == 0;
    assert forall other :: other != run ==> Taken(s, run).queue[other] == s.queue[other];
  }

  lemma {:induction false} ServiceOnlyUndelivered(d: Deps, history: seq<Action>)
    requires WorkerRegistry(d.registry) && d.pr && ServiceOnly(history)
    ensures NothingDelivered(Exec(d, history))
    decreases |history|
  {
    if history != [] {
      var before, a := history[..|history| - 1], history[|history| - 1];
      assert forall b :: b in before ==> b in history;
      assert a in history;
      ServiceOnlyUndelivered(d, before);
      ServiceOnlyQueue(d, before);
      AlwaysConforms(d, before);
      AlwaysOk(d, before);
      if a.Deliver? { DeliverUndelivered(d, Exec(d, before), a); } else { RequestUndelivered(d, Exec(d, before), a); }
    }
  }

  /**
   * The pull-request gate parks a run while its stored status is still running, and resuming such a
   * run is refused. So with delivery configured, a run with a workspace opens a pull request or
   * completes only through a delivery the service never queued.
   */
  lemma {:induction false} PrGateNeedsRedelivery(d: Deps, history: seq<Action>, run: nat)
    requires WorkerRegistry(d.registry) && d.pr && ServiceOnly(history)
    requires run < |Exec(d, history).runs| && Exec(d, history).runs[run].workspace.Some?
    ensures var r := Exec(d, history).runs[run]; r.prs == [] && r.status != Completed
  {
    ServiceOnlyUndelivered(d, history);
  }

  // ---------------------------------------------------------------- what passes the gate

  predicate Delivered(r: Row) { r.prs != [] || r.status == Completed }

  /** Delivery is configured, there is something to deliver, and the provider answers. */
  predicate Opens(d: Deps, r: Row, input: NodeInput) {
    d.pr && r.workspace.Some? && r.state.branch != "" && input.pull.Some?
  }

  /** From the gate, two nodes finish the run; the branch and the provider decide about the pull request. */
  lemma {:induction false} DriveFromGate(d: Deps, w: World, env: nat -> NodeInput)
    requires Control(w.row) && w.row.at.AtPrGate?
    ensures Control(PassGate(w).row)
    ensures var r, r' := w.row, Drive(d, PassGate(w), env, 0).row;
            && r'.status == Completed
            && r'.prs == if Opens(d, r, env(0)) then [env(0).pull.value.url] else []
  {
    GateProgress(w);
    var w1 := PassGate(w);
    StepProgress(d, w1, env(0));
    var w2 := Step(d, w1, env(0));
    StepProgress(d, w2, env(1));
    DriveTwice(d, w1, env);
  }

  lemma {:induction false} DriveTwice(d: Deps, w: World, env: nat -> NodeInput)
    requires Control(w.row) && w.row.at.AtOpenPr?
    ensures Drive(d, w, env, 0) == FinalizeNode(OpenPrNode(d, w, env(0)))
  {
    DriveOnce(d, w, env, 0);
    var w1 := Step(d, w, env(0));
    assert w1 == OpenPrNode(d, w, env(0)) && w1.row.at.AtFinalize?;
    DriveLast(d, w1, env, 1);
  }

  lemma {:induction false} DriveLast(d: Deps, w: World, env: nat -> NodeInput, k: nat)
    requires Control(w.row) && w.row.at.AtFinalize?
    ensures Drive(d, w, env, k) == FinalizeNode(w)
  {
    DriveOnce(d, w, env, k);
    FinalizeEnds(d, w, env(k));
    DriveEnds(d, Step(d, w, env(k)), env, k + 1);
  }

  lemma {:induction false} FinalizeEnds(d: Deps, w: World, input: NodeInput)
    requires w.row.at.AtFinalize?
    ensures Step(d, w, input) == FinalizeNode(w) && Paused(Step(d, w, input).row.at)
  {
  }

  /**
   * The other way round: a delivery of a live run at the gate, queued or not, completes it, and opens its
   * pull request whenever the run has a branch and the provider answers.
   */
  lemma {:induction false} DriveAtGateDelivers(d: Deps, s: System, run: nat, env: nat -> NodeInput)
    requires WorkerRegistry(d.registry) && SystemOk(d, s) && run < |s.runs|
    requires !IsTerminal(s.runs[run].status) && s.runs[run].at.AtPrGate?
    ensures var r, r' := s.runs[run], Work(d, s, run, env, None).runs[run];
            && r'.status == Completed
            && r'.prs == if Opens(d, r, env(0)) then [env(0).pull.value.url] else []
  {
    BeginOk(d, s, run);
    assert RowOk(d, s.approvals, s.executed, run, s.runs[run]);
    DriveFromGate(d, WorldOf(s, run), env);
  }

  /** A live run has delivered nothing. */
  lemma {:induction false} LiveIsUndelivered(d: Deps, s: System, run: nat)
    requires SystemOk(d, s) && run < |s.runs| && !IsTerminal(s.runs[run].status)
    ensures Undelivered(s.runs[run])
  {
    assert RowOk(d, s.approvals, s.executed, run, s.runs[run]);
  }

  /**
   * So in every history, spurious deliveries included, a drive of a live run with a workspace opens a pull
   * request or completes exactly when it starts at the gate.
   */
  lemma {:induction false} DeliversIffAtGate(d: Deps, history: seq<Action>, run: nat, env: nat -> NodeInput)
    requires WorkerRegistry(d.registry) && d.pr
    requires var s := Exec(d, history);
             run < |s.runs| && !IsTerminal(s.runs[run].status) && s.runs[run].workspace.Some?
    ensures var s := Exec(d, history);
            Delivered(Work(d, s, run, env, None).runs[run]) <==> s.runs[run].at.AtPrGate?
  {
    AlwaysOk(d, history);
    var s := Exec(d, history);
    if s.runs[run].at.AtPrGate? {
      DriveAtGateDelivers(d, s, run, env);
    } else {
      DriveElsewhere(d, s, run, env);
    }
  }

  lemma {:induction false} DriveElsewhere(d: Deps, s: System, run: nat, env: nat -> NodeInput)
    requires WorkerRegistry(d.registry) && d.pr && SystemOk(d, s) && run < |s.runs|
    requires !IsTerminal(s.runs[run].status) && s.runs[run].workspace.Some? && !s.runs[run].at.AtPrGate?
    ensures Undelivered(Work(d, s, run, env, None).runs[run])
  {
    BeginOk(d, s, run);
    LiveIsUndelivered(d, s, run);
    var w := WorldOf(s, run);
    if IsGate(w.row.at) { AdvanceUndelivered(d, w, env(0)); }
    DriveUndelivered(d, Begin(w), env, 0);
  }

  /**
   * And nobody can ask for that delivery: a live run at the gate is stored as running, has no message
   * queued, and resuming it is refused to everyone.
   */
  lemma {:induction false} GateCannotBeResumed(d: Deps, history: seq<Action>, run: nat, actor: nat)
    requires WorkerRegistry(d.registry) && d.pr && ServiceOnly(history)
    requires var s := Exec(d, history);
             && run < |s.runs| && !IsTerminal(s.runs[run].status)
             && s.runs[run].workspace.Some? && s.runs[run].at.AtPrGate?
    ensures var s := Exec(d, history);
            s.runs[run].status == Running && run !in s.queue && Resume(s, actor, run).Err?
  {
    ServiceOnlyUndelivered(d, history);
    ServiceOnlyQueue(d, history);
    AlwaysConforms(d, history);
    var s := Exec(d, history);
    assert RowConforms(s.approvals, run, s.runs[run]);
  }

  // ---------------------------------------------------------------- the gates a human answers

  /** Somewhere in the history the run's owner resumed it, granted, from this very pause. */
  ghost predicate Resumed(d: Deps, history: seq<Action>, run: nat) {
    exists i :: 0 <= i < |history| && ResumedAt(d, history, run, i)
  }

  ghost predicate ResumedAt(d: Deps, history: seq<Action>, run: nat, i: nat)
    requires i < |history|
  {
    var past, now := Exec(d, history[..i]), Exec(d, history);
    && run < |past.runs| && run < |now.runs|
    && history[i] == DoResume(now.runs[run].owner, run) && Resume(past, now.runs[run].owner, run).Ok?
    && past.runs[run].at == now.runs[run].at && past.runs[run].state == now.runs[run].state
  }

  function Before(history: seq<Action>): seq<Action>
    requires history != []
  {
    history[..|history| - 1]
  }

  /** Same owner, position and state. */
  predicate SamePause(r: Row, r': Row) { r'.owner == r.owner && r'.at == r.at && r'.state == r.state }

  lemma ResumedStays(d: Deps, history: seq<Action>, run: nat)
    requires history != [] && run < |Exec(d, Before(history)).runs| && run < |Exec(d, history).runs|
    requires Resumed(d, Before(history), run)
    requires SamePause(Exec(d, Before(history)).runs[run], Exec(d, history).runs[run])
    ensures Resumed(d, history, run)
  {
    var i :| 0 <= i < |Before(history)| && ResumedAt(d, Before(history), run, i);
    ResumedAtStays(d, history, run, i);
  }

  lemma ResumedAtStays(d: Deps, history: seq<Action>, run: nat, i: nat)
    requires history != [] && run < |Exec(d, Before(history)).runs| && run < |Exec(d, history).runs|
    requires i < |history| - 1 && ResumedAt(d, Before(history), run, i)
    requires SamePause(Exec(d, Before(history)).runs[run], Exec(d, history).runs[run])
    ensures ResumedAt(d, history, run, i)
  {
    assert Before(history)[..i] == history[..i];
  }

  /** A live running run that waits where only a person can let it on. */
  predicate LetOn(r: Row) { r.status == Running && (r.at.AtApprove? || r.at.AtBudgetGate?) }

  /** The drive of a conforming delivery never leaves a run let on: it ends at a gate with the gate's own status. */
  lemma {:induction false} DriveNotLetOn(d: Deps, s: System, run: nat, env: nat -> NodeInput, crash: Option<Crash>)
    requires WorkerRegistry(d.registry) && SystemOk(d, s) && SystemConforms(s)
    requires Drivable(s, run) && DeliveryConforms(s, run)
    ensures !LetOn(Work(d, s, run, env, crash).runs[run])
  {
    BeginOk(d, s, run);
    BeginConforms(d, s, run);
    match crash
    case None =>
      var w := Begin(WorldOf(s, run));
      DriveSays(d, w, env, 0);
    case Some(c) =>
  }

  /** Nor does deciding an approval, since a run waiting elsewhere than at an edit gate has none open. */
  lemma {:induction false} ResolveLetsNobodyOn(d: Deps, s: System, a: Action, run: nat)
    requires SystemConforms(s) && a.DoResolve? && run < |s.runs| && run < |Next(d, s, a).runs|
    ensures LetOn(Next(d, s, a).runs[run]) ==> LetOn(s.runs[run])
  {
    RequestEdge(d, s, a);
    assert RowConforms(s.approvals, run, s.runs[run]);
  }

  /** So only the owner's granted resume does. */
  lemma {:induction false} RequestLetsOn(d: Deps, s: System, a: Action, run: nat)
    requires SystemConforms(s) && IsRequest(a) && run < |s.runs|
    requires run < |Next(d, s, a).runs| && LetOn(Next(d, s, a).runs[run]) && !LetOn(s.runs[run])
    ensures a == DoResume(s.runs[run].owner, run) && Resume(s, s.runs[run].owner, run).Ok?
    ensures Next(d, s, a).runs[run].owner == s.runs[run].owner
    ensures Next(d, s, a).runs[run].at == s.runs[run].at && Next(d, s, a).runs[run].state == s.runs[run].state
  {
    RequestEdge(d, s, a);
    if a.DoResolve? { ResolveLetsNobodyOn(d, s, a, run); }
  }

  /** A delivery that leaves a run let on left that run alone. */
  lemma {:induction false} DeliveredLetOn(d: Deps, s: System, a: Action, run: nat)
    requires WorkerRegistry(d.registry) && SystemOk(d, s) && SystemConforms(s) && ActionConforms(s, a)
    requires a.Deliver? || a.Redeliver?
    requires run < |Next(d, s, a).runs| && LetOn(Next(d, s, a).runs[run])
    ensures run < |s.runs| && s.runs[run] == Next(d, s, a).runs[run]
  {
    var s0 := if a.Deliver? && a.run in s.queue then Taken(s, a.run) else s;
    WorkFrame(d, s0, a.run, a.env, a.crash);
    if a.run == run && Drivable(s0, run) && (a.Redeliver? || run in s.queue) {
      DriveNotLetOn(d, s0, run, a.env, a.crash);
    }
  }

  lemma ResumedNow(d: Deps, history: seq<Action>, run: nat)
    requires history != [] && run < |Exec(d, Before(history)).runs| && run < |Exec(d, history).runs|
    requires var r := Exec(d, Before(history)).runs[run];
             && SamePause(r, Exec(d, history).runs[run])
             && history[|history| - 1] == DoResume(r.owner, run) && Resume(Exec(d, Before(history)), r.owner, run).Ok?
    ensures Resumed(d, history, run)
  {
    assert ResumedAt(d, history, run, |history| - 1);
  }

  /** One action before a run that is let on: it was let on already, or its owner resumed it just now. */
  lemma {:induction false} LetOnStep(d: Deps, s: System, a: Action, run: nat)
    requires WorkerRegistry(d.registry) && SystemOk(d, s) && SystemConforms(s) && ActionConforms(s, a)
    requires run < |Next(d, s, a).runs| && LetOn(Next(d, s, a).runs[run])
    ensures run < |s.runs|
    ensures var r, r' := s.runs[run], Next(d, s, a).runs[run];
            && SamePause(r, r')
            && (!LetOn(r) ==> a == DoResume(r.owner, run) && Resume(s, r.owner, run).Ok?)
  {
    if IsRequest(a) {
      RequestEdge(d, s, a);
      if !LetOn(s.runs[run]) { RequestLetsOn(d, s, a, run); }
    } else if !a.DoCreate? {
      DeliveredLetOn(d, s, a, run);
    }
  }

  lemma {:induction false} LetOnWasResumed(d: Deps, history: seq<Action>, run: nat)
    requires WorkerRegistry(d.registry) && Conforming(d, history)
    requires run < |Exec(d, history).runs| && LetOn(Exec(d, history).runs[run])
    ensures Resumed(d, history, run)
    decreases |history|
  {
    var s := Exec(d, Before(history));
    AlwaysOk(d, Before(history));
    AlwaysConforms(d, Before(history));
    LetOnStep(d, s, history[|history| - 1], run);
    if LetOn(s.runs[run]) {
      LetOnWasResumed(d, Before(history), run);
      ResumedStays(d, history, run);
    } else {
      ResumedNow(d, history, run);
    }
  }

  /** Every approval the batch at an edit gate waits for was granted by the run's owner. */
  predicate BatchGranted(s: System, run: nat)
    requires run < |s.runs|
  {
    forall p :: p in s.runs[run].state.proposals ==>
                  && p.approvalId < |s.approvals| && s.approvals[p.approvalId].status == Approved
                  && s.approvals[p.approvalId].decidedBy == Some(s.runs[run].owner)
  }

  /**
   * Where deliveries come only from the service, a message that is about to drive a run past a gate finds
   * it answered: past the plan gate, or into a new budget window, only after its owner resumed it from that
   * very pause; past an edit gate, only with every approval of the batch granted by its owner.
   */
  lemma {:induction false} GatesAreAnswered(d: Deps, history: seq<Action>, run: nat)
    requires WorkerRegistry(d.registry) && ServiceOnly(history) && run in Exec(d, history).queue
    ensures run < |Exec(d, history).runs|
    ensures var s := Exec(d, history); var r := s.runs[run];
            !IsTerminal(r.status) ==>
              && (r.at.AtApprove? || r.at.AtBudgetGate? ==> Resumed(d, history, run))
              && (r.at.AtGateEdits? ==> BatchGranted(s, run))
  {
    ServiceOnlyQueue(d, history);
    AlwaysConforms(d, history);
    AlwaysOk(d, history);
    var s := Exec(d, history);
    var r := s.runs[run];
    assert RowConforms(s.approvals, run, r) && RowOk(d, s.approvals, s.executed, run, r);
    if !IsTerminal(r.status) {
      if r.at.AtApprove? || r.at.AtBudgetGate? { LetOnWasResumed(d, history, run); }
      if r.at.AtGateEdits? { RunningBatch(d, s, run); }
    }
  }

  lemma {:induction false} RunningBatch(d: Deps, s: System, run: nat)
    requires OwnersDecide(s) && run < |s.runs| && s.runs[run].status == Running
             && Decided(s.approvals, run, s.runs[run])
    requires AllRecorded(d, s.approvals, run, s.runs[run].state.proposals)
    ensures BatchGranted(s, run)
  {
    forall p | p in s.runs[run].state.proposals
      ensures p.approvalId < |s.approvals| && s.approvals[p.approvalId].status == Approved
      ensures s.approvals[p.approvalId].decidedBy == Some(s.runs[run].owner)
    {
      assert Recorded(d, s.approvals, run, p);
    }
  }
}
