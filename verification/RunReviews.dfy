/** What lands on a run's branch was reviewed (agents/graph/nodes.py): over every history. */
module RunReviews {
  import opened Common
  import opened RunDomain
  import opened ToolRegistry
  import opened RunGraph
  import opened RunControl
  import opened RunGrants
  import opened RunHistory
  import opened RunSystem
  import opened RunTheorems
  import opened RunSteps
  import opened RunRequests
  import Text

  /** The last edit or review. */
  function LastWork(events: seq<Event>): Option<Event> {
    if events == [] then None
    else if Last(events).CodeGenerated? || Last(events).ReviewCompleted? then Some(Last(events))
    else LastWork(Init(events))
  }

  /** The last thing that happened to the files of step `step` is a review of that step. */
  predicate ReviewedLast(events: seq<Event>, step: nat) {
    var work := LastWork(events);
    work.Some? && work.value.ReviewCompleted? && work.value.stepIndex == step
  }

  /** Every commit announced so far followed a review of its own step, with no edit in between. */
  predicate AllReviewed(events: seq<Event>) {
    forall k :: 0 <= k < |events| && events[k].StepCommitted? ==> ReviewedLast(events[..k], events[k].stepIndex)
  }

  /** A run about to commit files had them reviewed last. */
  predicate CommitReady(d: Deps, r: Row) {
    r.at.AtCommit? && Reviewable(d, r) ==> ReviewedLast(r.events, r.state.stepIndex)
  }

  predicate InReview(d: Deps, r: Row) { AllReviewed(r.events) && CommitReady(d, r) }

  predicate NoCommitIn(a: seq<Event>, b: seq<Event>) {
    a <= b && forall k :: |a| <= k < |b| ==> !b[k].StepCommitted?
  }

  lemma NoCommitKeeps(a: seq<Event>, b: seq<Event>)
    requires AllReviewed(a) && NoCommitIn(a, b)
    ensures AllReviewed(b)
  {
    forall k | 0 <= k < |b| && b[k].StepCommitted?
      ensures ReviewedLast(b[..k], b[k].stepIndex)
    {
      assert b[k] == a[k] && b[..k] == a[..k];
    }
  }

  /** The coder and the batch announce no commit. */
  lemma CoderCommitsNothing(d: Deps, w: World, input: NodeInput)
    requires WorkerRegistry(d.registry) && w.row.at.AtCoder?
    ensures NoCommitIn(w.row.events, Advance(d, w, input).row.events)
    ensures Advance(d, w, input).row.at.AtCommit? ==> Advance(d, w, input).row.state.applied == []
  {
    CoderRoundsQuiet(d, w, input, 0, 0);
    CoderEffect(d, w, input);
    CodedSteps(w, CoderRounds(d, w, input, 0, 0), CoderNode(d, w, input), d, input);
    var quiet := CoderRounds(d, w, input, 0, 0).w.row.events;
    assert forall k :: |w.row.events| <= k < |quiet| ==> Quiet(quiet[k]);
  }

  lemma BatchCommitsNothing(d: Deps, w: World, input: NodeInput)
    requires WorkerRegistry(d.registry) && Grants(d, w) && w.row.at.AtApplyEdits?
    ensures NoCommitIn(w.row.events, Advance(d, w, input).row.events) && !Advance(d, w, input).row.at.AtCommit?
  {
    var all := w.row.state.proposals;
    ApplyAllQuiet(d, w, all, input, 0, BatchOf(all));
    var quiet := ApplyAll(d, w, all, input, 0, BatchOf(all)).row.events;
    assert forall k :: |w.row.events| <= k < |quiet| ==> Quiet(quiet[k]);
    ApplyAllFrame(d, w, all, input, 0, BatchOf(all));
    AppliedSteps(d, w, ApplyAll(d, w, all, input, 0, BatchOf(all)), input,
                 ApplyAll(d, w, all, input, 0, BatchOf(all)).row.state.applied[|w.row.state.applied|..]);
  }

  /** A review leaves its own event last, and what it lets through is ready to be committed. */
  lemma ReviewReadies(d: Deps, w: World, input: NodeInput)
    requires w.row.at.AtReviewer?
    ensures var r' := Advance(d, w, input).row; NoCommitIn(w.row.events, r'.events) && CommitReady(d, r')
  {
    if Reviewable(d, w.row) {
      var t := Text.Strip(input.replies(0).text, Text.IsSpace);
      ReviewIs(d, w, input);
      ReviewSays(w, t, input.replies(0).tokens);
      var events := Reviewed(w, t, input.replies(0).tokens).row.events;
      assert Last(events).ReviewCompleted? && Last(events).stepIndex == w.row.state.stepIndex;
      ReviewKeepsStep(w, t, input.replies(0).tokens);
    } else {
      NothingToReview(d, w, input);
    }
  }

  lemma ReviewKeepsStep(w: World, t: string, tokens: nat)
    ensures Reviewed(w, t, tokens).row.state.stepIndex == w.row.state.stepIndex
  {
  }

  /** A commit is announced only for what was reviewed last. */
  lemma CommitWasReady(d: Deps, w: World, input: NodeInput)
    requires Shape(w.row) && w.row.at.AtCommit? && InReview(d, w.row)
    ensures AllReviewed(Advance(d, w, input).row.events) && !Advance(d, w, input).row.at.AtCommit?
  {
    var s, before, events := w.row.state, w.row.events, Advance(d, w, input).row.events;
    CommitLandsStep(d, w, input);
    forall k | 0 <= k < |events| && events[k].StepCommitted?
      ensures ReviewedLast(events[..k], events[k].stepIndex)
    {
      if k < |before| {
        assert events[k] == before[k] && events[..k] == before[..k];
      } else {
        assert k == |before| && events[..k] == before;
      }
    }
  }

  lemma GatesCommitNothing(d: Deps, w: World, input: NodeInput)
    requires IsGate(w.row.at)
    ensures NoCommitIn(w.row.events, Advance(d, w, input).row.events) && !Advance(d, w, input).row.at.AtCommit?
  {
    GatesOpen(d, w, input);
  }

  lemma EndingCommitsNothing(d: Deps, w: World, input: NodeInput)
    requires w.row.at.AtDocument? || w.row.at.AtOpenPr? || w.row.at.AtEscalate? || w.row.at.AtFinalize?
    ensures NoCommitIn(w.row.events, Advance(d, w, input).row.events) && !Advance(d, w, input).row.at.AtCommit?
  {
    RunEnds(d, w, input);
  }

  lemma OthersCommitNothing(d: Deps, w: World, input: NodeInput)
    requires w.row.at.AtPlan? || w.row.at.AtBranch? || w.row.at.AtDebug?
    ensures NoCommitIn(w.row.events, Advance(d, w, input).row.events) && !Advance(d, w, input).row.at.AtCommit?
  {
    if w.row.at.AtPlan? {
      PlannedRow(d, w, input);
    } else if w.row.at.AtBranch? {
      BranchIsPrepared(d, w, input);
    } else {
      assert Advance(d, w, input) == DebugNode(w, input);
    }
  }

  lemma QuietNodesKeep(d: Deps, w: World, input: NodeInput)
    requires !w.row.at.AtEnd? && !w.row.at.AtCoder? && !w.row.at.AtApplyEdits? && !w.row.at.AtReviewer?
             && !w.row.at.AtCommit? && !w.row.at.AtTest?
    ensures NoCommitIn(w.row.events, Advance(d, w, input).row.events) && !Advance(d, w, input).row.at.AtCommit?
  {
    if IsGate(w.row.at) {
      GatesCommitNothing(d, w, input);
    } else if w.row.at.AtPlan? || w.row.at.AtBranch? || w.row.at.AtDebug? {
      OthersCommitNothing(d, w, input);
    } else {
      EndingCommitsNothing(d, w, input);
    }
  }

  lemma TestCommitsNothing(d: Deps, w: World, input: NodeInput)
    requires w.row.at.AtTest?
    ensures NoCommitIn(w.row.events, Advance(d, w, input).row.events) && !Advance(d, w, input).row.at.AtCommit?
  {
    TestEffect(d, w, input);
  }

  lemma AdvanceInReview(d: Deps, w: World, input: NodeInput)
    requires WorkerRegistry(d.registry) && Grants(d, w) && Shape(w.row) && InReview(d, w.row) && !w.row.at.AtEnd?
    ensures InReview(d, Advance(d, w, input).row)
  {
    var r' := Advance(d, w, input).row;
    match w.row.at
    case AtCoder => CoderCommitsNothing(d, w, input); NoCommitKeeps(w.row.events, r'.events);
    case AtApplyEdits => BatchCommitsNothing(d, w, input); NoCommitKeeps(w.row.events, r'.events);
    case AtReviewer => ReviewReadies(d, w, input); NoCommitKeeps(w.row.events, r'.events);
    case AtCommit => CommitWasReady(d, w, input);
    case AtTest => TestCommitsNothing(d, w, input); NoCommitKeeps(w.row.events, r'.events);
    case _ => QuietNodesKeep(d, w, input); NoCommitKeeps(w.row.events, r'.events);
  }

  lemma {:induction false} DriveInReview(d: Deps, w: World, env: nat -> NodeInput, k: nat)
    requires WorkerRegistry(d.registry) && Grants(d, w) && Control(w.row) && InReview(d, w.row)
    ensures InReview(d, Drive(d, w, env, k).row)
    decreases Stage(w.row.at), DebugLeft(w.row.state), StepsLeft(w.row.state), ReviewsLeft(w.row.state),
              NodeRank(w.row.at)
  {
    if !Paused(w.row.at) {
      AdvanceInReview(d, w, env(k));
      AdvanceKeepsGrants(d, w, env(k));
      AdvanceProgress(d, w, env(k));
      DriveInReview(d, Step(d, w, env(k)), env, k + 1);
    }
  }

  predicate RunsReviewed(s: System) { forall run :: 0 <= run < |s.runs| ==> AllReviewed(s.runs[run].events) }

  lemma WorkReviewed(d: Deps, s: System, run: nat, env: nat -> NodeInput, crash: Option<Crash>)
    requires WorkerRegistry(d.registry) && SystemOk(d, s) && RunsReviewed(s)
    ensures RunsReviewed(Work(d, s, run, env, crash))
  {
    WorkFrame(d, s, run, env, crash);
    if Drivable(s, run) {
      match crash
      case None => DrivenReviewed(d, s, run, env);
      case Some(c) =>
        RaisedDriveRollsBack(d, s, run, env, c);
        NoCommitKeeps(s.runs[run].events, s.runs[run].events + [StatusChanged(Failed)]);
    }
  }

  lemma DrivenReviewed(d: Deps, s: System, run: nat, env: nat -> NodeInput)
    requires WorkerRegistry(d.registry) && SystemOk(d, s) && RunsReviewed(s) && Drivable(s, run)
    ensures var s' := Work(d, s, run, env, None); run < |s'.runs| && AllReviewed(s'.runs[run].events)
  {
    var w := WorldOf(s, run);
    BeginOk(d, s, run);
    assert Resting(w.row) by { assert RowOk(d, s.approvals, s.executed, run, s.runs[run]); }
    BeginCommitsNothing(d, w, env(0));
    NoCommitKeeps(w.row.events, Begin(w).row.events);
    DriveInReview(d, Begin(w), env, 0);
  }

  lemma BeginCommitsNothing(d: Deps, w: World, input: NodeInput)
    requires Resting(w.row) && !IsTerminal(w.row.status)
    ensures NoCommitIn(w.row.events, Begin(w).row.events) && !Begin(w).row.at.AtCommit?
  {
    DeliveryStarts(d, w, input);
    if w.row.status != Pending && IsGate(w.row.at) { GatesCommitNothing(d, w, input); }
  }

  /** A request that changes one run and announces no commit. */
  lemma OneRunReviewed(s: System, s': System, run: nat, r': Row)
    requires RunsReviewed(s) && run < |s.runs| && s'.runs == s.runs[run := r']
    requires NoCommitIn(s.runs[run].events, r'.events)
    ensures RunsReviewed(s')
  {
    NoCommitKeeps(s.runs[run].events, r'.events);
  }

  lemma EditReviewed(s: System, actor: nat, run: nat, steps: seq<PlanStep>)
    requires RunsReviewed(s) && EditPlan(s, actor, run, steps).Ok?
    ensures RunsReviewed(EditPlan(s, actor, run, steps).value)
  {
    EditIsGranted(s, actor, run, steps);
    var s' := EditPlan(s, actor, run, steps).value;
    OneRunReviewed(s, s', run, s'.runs[run]);
  }

  lemma CancelReviewed(s: System, actor: nat, run: nat)
    requires RunsReviewed(s) && Cancel(s, actor, run).Ok?
    ensures RunsReviewed(Cancel(s, actor, run).value)
  {
    CancelIsGranted(s, actor, run);
    var s' := Cancel(s, actor, run).value;
    OneRunReviewed(s, s', run, s'.runs[run]);
  }

  lemma ResumeReviewed(s: System, actor: nat, run: nat)
    requires RunsReviewed(s) && Resume(s, actor, run).Ok?
    ensures RunsReviewed(Resume(s, actor, run).value)
  {
    ResumeIsGranted(s, actor, run);
    var s' := Resume(s, actor, run).value;
    OneRunReviewed(s, s', run, s'.runs[run]);
  }

  lemma ResolveReviewed(s: System, actor: nat, run: nat, id: nat, approved: bool)
    requires RunsReviewed(s) && Resolve(s, actor, run, id, approved).Ok?
    ensures RunsReviewed(Resolve(s, actor, run, id, approved).value)
  {
    ResolveIsGranted(s, actor, run, id, approved);
    var s' := Resolve(s, actor, run, id, approved).value;
    OneRunReviewed(s, s', run, s'.runs[run]);
  }

  lemma RequestReviewed(d: Deps, s: System, a: Action)
    requires RunsReviewed(s) && IsRequest(a)
    ensures RunsReviewed(Next(d, s, a))
  {
    if Next(d, s, a) != s {
      match a
      case DoEdit(actor, run, steps) => EditReviewed(s, actor, run, steps);
      case DoCancel(actor, run) => CancelReviewed(s, actor, run);
      case DoResume(actor, run) => ResumeReviewed(s, actor, run);
      case DoResolve(actor, run, id, approved) => ResolveReviewed(s, actor, run, id, approved);
    }
  }

  lemma NextReviewed(d: Deps, s: System, a: Action)
    requires WorkerRegistry(d.registry) && SystemOk(d, s) && RunsReviewed(s)
    ensures RunsReviewed(Next(d, s, a))
  {
    match a
    case DoCreate(owner, workspace, maxSteps, maxTokens, maxCost) =>
      CreateQueues(d, s, owner, workspace, maxSteps, maxTokens, maxCost);
      NewReviewed(s, Next(d, s, a));
    case Deliver(run, env, crash) =>
      if run in s.queue {
        TakenOk(d, s, run);
        WorkReviewed(d, Taken(s, run), run, env, crash);
      }
    case Redeliver(run, env, crash) => WorkReviewed(d, s, run, env, crash);
    case _ => RequestReviewed(d, s, a);
  }

  lemma NewReviewed(s: System, s': System)
    requires RunsReviewed(s) && |s'.runs| == |s.runs| + 1 && s'.runs[..|s.runs|] == s.runs
    requires s'.runs[|s.runs|].events == [RunStarted]
    ensures RunsReviewed(s')
  {
    forall run | 0 <= run < |s'.runs|
      ensures AllReviewed(s'.runs[run].events)
    {
      if run < |s.runs| { assert s'.runs[run] == s'.runs[..|s.runs|][run]; }
    }
  }

  lemma {:induction false} AlwaysReviewed(d: Deps, history: seq<Action>)
    requires WorkerRegistry(d.registry)
    ensures RunsReviewed(Exec(d, history))
    decreases |history|
  {
    if history != [] {
      var before := history[..|history| - 1];
      AlwaysReviewed(d, before);
      AlwaysOk(d, before);
      NextReviewed(d, Exec(d, before), history[|history| - 1]);
    }
  }

  /**
   * Over every history of requests, deliveries and crashes: every commit a run announces follows a review of that
   * very step, with no edit in between.
   */
  lemma CommitsAreReviewed(d: Deps, history: seq<Action>, run: nat, k: nat)
    requires WorkerRegistry(d.registry) && run < |Exec(d, history).runs|
    requires k < |Exec(d, history).runs[run].events| && Exec(d, history).runs[run].events[k].StepCommitted?
    ensures var events := Exec(d, history).runs[run].events; var work := LastWork(events[..k]);
            work.Some? && work.value.ReviewCompleted? && work.value.stepIndex == events[k].stepIndex
  {
    AlwaysReviewed(d, history);
    assert AllReviewed(Exec(d, history).runs[run].events);
  }

  /** But not every one was approved: a rejected diff is let through exactly in the last round, or by a blank reply. */
  lemma RejectedIsCommittedIff(d: Deps, w: World, input: NodeInput, t: string)
    requires Shape(w.row) && w.row.at.AtReviewer? && Reviewable(d, w.row) && !StartsApprove(t)
    requires Text.Strips(input.replies(0).text, Text.SPACES, t)
    ensures Advance(d, w, input).row.at.AtCommit? <==> t == "" || w.row.state.reviewRound == 1
  {
    ReviewDecides(d, w, input, t);
  }

  /** A blank reply to the first review: the diff is announced as not approved, and the next superstep commits it. */
  lemma BlankReviewCommits(d: Deps, w: World, input: NodeInput, next: NodeInput)
    requires Control(w.row) && w.row.at.AtReviewer? && Reviewable(d, w.row) && w.row.state.reviewRound == 0
    requires input.replies(0).text == " " && next.commit.Committed?
    ensures var w1 := Advance(d, w, input);
            && w1.row.events == w.row.events + [ReviewCompleted(w.row.state.stepIndex, 1, false)]
            && !w1.row.at.AtEnd? && Advance(d, w1, next).row.commits == w.row.commits + [next.commit.sha]
  {
    assert Text.KeepsRange(" ", Text.SPACES, 0, 0) && " "[0..0] == "";
    ReviewDecides(d, w, input, "");
    AdvanceProgress(d, w, input);
    ReviewerEffect(d, w, input);
    var w1 := Advance(d, w, input);
    ReviewKeepsFiles(d, w, input);
    CommitLandsStep(d, w1, next);
  }

  lemma ReviewKeepsFiles(d: Deps, w: World, input: NodeInput)
    requires w.row.at.AtReviewer?
    ensures var r, r' := w.row, Advance(d, w, input).row;
            r'.state.applied == r.state.applied && r'.workspace == r.workspace && r'.commits == r.commits
  {
    ReviewerEffect(d, w, input);
  }
}
