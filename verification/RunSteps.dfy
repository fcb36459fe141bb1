/**
 * What one superstep does to a run (agents/graph/nodes.py), told by the row before, the row after and the
 * replies of the outside world.
 */
module RunSteps {
  import opened Common
  import opened RunDomain
  import opened ToolRegistry
  import opened RunGraph
  import opened RunControl
  import opened RunGrants
  import Text

  // ---------------------------------------------------------------- review

  /** The first seven characters spell APPROVE, in any mix of cases. */
  predicate StartsApprove(t: string) {
    |t| >= 7 && forall i :: 0 <= i < 7 ==> t[i] == "APPROVE"[i] || t[i] == "approve"[i]
  }

  lemma ApproveSpelled(t: string)
    ensures SaysApprove(t) <==> StartsApprove(t)
  {
    if |t| >= 7 {
      var upper := Text.Upper(t[..7]);
      assert forall i :: 0 <= i < 7 ==> upper[i] == Text.ToUpper(t[i]);
      if StartsApprove(t) { assert upper == "APPROVE"; }
      if upper == "APPROVE" {
        forall i | 0 <= i < 7
          ensures t[i] == "APPROVE"[i] || t[i] == "approve"[i]
        {
          assert Text.ToUpper(t[i]) == "APPROVE"[i];
        }
      }
    }
  }

  /** The run has a diff somebody can review. */
  predicate Reviewable(d: Deps, r: Row) { d.git && r.workspace.Some? && r.state.applied != [] }

  /**
   * A review of applied files: an approval clears the critique and lets the step through; anything else is
   * the critique, and sends the run back to the coder exactly when it says something and a round is left.
   */
  lemma ReviewDecides(d: Deps, w: World, input: NodeInput, t: string)
    requires w.row.at.AtReviewer? && Reviewable(d, w.row)
    requires Text.Strips(input.replies(0).text, Text.SPACES, t)
    ensures var s, r' := w.row.state, Advance(d, w, input).row; var approved := StartsApprove(t);
            && r'.state.critique == (if approved then "" else t)
            && (if !approved && t != "" && s.reviewRound + 1 < 2 then r'.at.AtCoder? else r'.at.AtCommit?)
            && r'.events == w.row.events + [ReviewCompleted(s.stepIndex, s.reviewRound + 1, approved)]
    ensures Advance(d, w, input) == w.(row := Advance(d, w, input).row)
  {
    var reply := input.replies(0);
    Text.StripLaws(reply.text, Text.IsSpace, Text.SPACES);
    Text.StripIsUnique(reply.text, Text.SPACES, Text.Strip(reply.text, Text.IsSpace), t);
    ReviewIs(d, w, input);
    ReviewSays(w, t, reply.tokens);
  }

  lemma ReviewIs(d: Deps, w: World, input: NodeInput)
    requires w.row.at.AtReviewer? && Reviewable(d, w.row)
    ensures Advance(d, w, input) ==
            Reviewed(w, Text.Strip(input.replies(0).text, Text.IsSpace), input.replies(0).tokens)
  {
    assert Advance(d, w, input) == ReviewerNode(d, w, input);
  }

  lemma ReviewSays(w: World, t: string, tokens: nat)
    ensures var s, r' := w.row.state, Reviewed(w, t, tokens).row; var approved := StartsApprove(t);
            && r'.state.critique == (if approved then "" else t)
            && (if !approved && t != "" && s.reviewRound + 1 < 2 then r'.at.AtCoder? else r'.at.AtCommit?)
            && r'.events == w.row.events + [ReviewCompleted(s.stepIndex, s.reviewRound + 1, approved)]
            && Reviewed(w, t, tokens) == w.(row := r')
  {
    ApproveSpelled(t);
  }

  /** Without a diff to review nobody is asked, and the step goes on to its commit. */
  lemma NothingToReview(d: Deps, w: World, input: NodeInput)
    requires w.row.at.AtReviewer? && !Reviewable(d, w.row)
    ensures Advance(d, w, input) == w.(row := w.row.(at := AtCommit, state := w.row.state.(critique := "")))
  {
  }

  // ---------------------------------------------------------------- coder

  /** A conversation ends with the first reply without tool calls, and with the third reply. */
  function Rounds(input: NodeInput): nat {
    if input.replies(0).calls == [] then 1 else if input.replies(1).calls == [] then 2 else 3
  }

  function CallsIn(input: NodeInput, n: nat): seq<ToolCall> {
    if n == 0 then [] else CallsIn(input, n - 1) + input.replies(n - 1).calls
  }

  function TokensIn(input: NodeInput, n: nat): nat {
    if n == 0 then 0 else TokensIn(input, n - 1) + input.replies(n - 1).tokens
  }

  predicate IsWrite(d: Deps, call: ToolCall) {
    call.name in d.registry.byName && d.registry.byName[call.name].sideEffect != Read
  }

  function Kept<T>(keep: T -> bool, xs: seq<T>): seq<T> {
    if xs == [] then [] else (if keep(xs[0]) then [xs[0]] else []) + Kept(keep, xs[1..])
  }

  lemma {:induction false} KeptConcat<T>(keep: T -> bool, a: seq<T>, b: seq<T>)
    ensures Kept(keep, a + b) == Kept(keep, a) + Kept(keep, b)
    decreases |a|
  {
    if a == [] {
      assert a + b == b;
    } else {
      assert (a + b)[1..] == a[1..] + b;
      KeptConcat(keep, a[1..], b);
    }
  }

  /** What is told of each element in order; those to keep are numbered from `base`. */
  function Told<T, E>(tell: (T, nat) -> seq<E>, keep: T -> bool, xs: seq<T>, base: nat): seq<E> {
    if xs == [] then [] else tell(xs[0], base) + Told(tell, keep, xs[1..], if keep(xs[0]) then base + 1 else base)
  }

  lemma {:induction false} ToldConcat<T, E>(tell: (T, nat) -> seq<E>, keep: T -> bool, a: seq<T>, b: seq<T>, base: nat)
    ensures Told(tell, keep, a + b, base) == Told(tell, keep, a, base) + Told(tell, keep, b, base + |Kept(keep, a)|)
    decreases |a|
  {
    if a == [] {
      assert a + b == b;
    } else {
      var next := if keep(a[0]) then base + 1 else base;
      assert (a + b)[1..] == a[1..] + b && (a + b)[0] == a[0];
      ToldConcat(tell, keep, a[1..], b, next);
      Associates(tell(a[0], base), Told(tell, keep, a[1..], next), Told(tell, keep, b, next + |Kept(keep, a[1..])|));
    }
  }

  lemma ToldOne<T, E>(tell: (T, nat) -> seq<E>, keep: T -> bool, x: T, base: nat)
    ensures Told(tell, keep, [x], base) == tell(x, base)
    ensures Kept(keep, [x]) == if keep(x) then [x] else []
  {
    assert [x][1..] == [];
    assert Kept(keep, [x]) == (if keep(x) then [x] else []) + Kept(keep, []);
  }

  function Writing(d: Deps): ToolCall -> bool { (call: ToolCall) => IsWrite(d, call) }

  /** The write calls among `calls`, in order. */
  function Writes(d: Deps, calls: seq<ToolCall>): seq<ToolCall> { Kept(Writing(d), calls) }

  /** The approval asked for one call: an excerpt of its arguments, and nothing decided. */
  predicate Asks(d: Deps, run: nat, call: ToolCall, a: Approval) {
    && IsWrite(d, call)
    && a == Approval(run, call.name, d.registry.byName[call.name].sideEffect, a.preview, Undecided, None)
    && a.preview <= call.arguments.json && |a.preview| == Min(500, |call.arguments.json|)
  }

  /** What is announced for one call: a write asks for approval `base`, a read is answered by the registry. */
  function SaidOf(d: Deps, run: nat, call: ToolCall, base: nat): seq<Event> {
    if IsWrite(d, call) then [ApprovalRequested(base, call.name)]
    else ToolEvents(call.name, d.registry.Invoke(call.name, Viewer, Some(run), None, call.reply), call.reply)
  }

  function Saying(d: Deps, run: nat): (ToolCall, nat) -> seq<Event> {
    (call: ToolCall, base: nat) => SaidOf(d, run, call, base)
  }

  /** And for all of them in order, approvals numbered from `base`. */
  function Said(d: Deps, run: nat, calls: seq<ToolCall>, base: nat): seq<Event> {
    Told(Saying(d, run), Writing(d), calls, base)
  }

  /** One request for each write call is added, in order. */
  predicate AsksFor(d: Deps, run: nat, writes: seq<ToolCall>, before: seq<Approval>, after: seq<Approval>) {
    && before <= after && |after| == |before| + |writes|
    && forall i :: 0 <= i < |writes| ==> Asks(d, run, writes[i], after[|before| + i])
  }

  function Queued(base: nat, writes: seq<ToolCall>): seq<Proposal> {
    seq(|writes|, i requires 0 <= i < |writes| => Proposal(base + i, writes[i].name, writes[i].arguments))
  }

  /** One proposal for each write call is added, in order, under the identifiers from `base`. */
  predicate Queues(base: nat, writes: seq<ToolCall>, before: seq<Proposal>, after: seq<Proposal>) {
    after == before + Queued(base, writes)
  }

  predicate Says(d: Deps, run: nat, base: nat, calls: seq<ToolCall>, before: seq<Event>, after: seq<Event>) {
    after == before + Said(d, run, calls, base)
  }

  /** What answering calls adds: an approval and a proposal for each write call, in order, and what is announced. */
  predicate Answered(d: Deps, w: World, calls: seq<ToolCall>, w': World) {
    && AsksFor(d, w.run, Writes(d, calls), w.approvals, w'.approvals)
    && Queues(|w.approvals|, Writes(d, calls), w.row.state.proposals, w'.row.state.proposals)
    && Says(d, w.run, |w.approvals|, calls, w.row.events, w'.row.events)
  }

  lemma NoneAnswered(d: Deps, w: World)
    ensures Answered(d, w, [], w)
  {
  }

  lemma OneAnswered(d: Deps, w: World, call: ToolCall)
    ensures Answered(d, w, [call], CoderCall(d, w, call))
  {
    ToldOne(Saying(d, w.run), Writing(d), call, |w.approvals|);
    CallAnswered(d, w, call);
  }

  lemma CallAnswered(d: Deps, w: World, call: ToolCall)
    ensures var w', writes := CoderCall(d, w, call), if IsWrite(d, call) then [call] else [];
            && AsksFor(d, w.run, writes, w.approvals, w'.approvals)
            && Queues(|w.approvals|, writes, w.row.state.proposals, w'.row.state.proposals)
            && w'.row.events == w.row.events + SaidOf(d, w.run, call, |w.approvals|)
  {
  }

  lemma BothAnswered(d: Deps, w: World, a: seq<ToolCall>, w1: World, b: seq<ToolCall>, w2: World)
    requires Answered(d, w, a, w1) && Answered(d, w1, b, w2) && w1.run == w.run
    ensures Answered(d, w, a + b, w2)
  {
    var n := |w.approvals|;
    KeptConcat(Writing(d), a, b);
    BothAsked(d, w.run, Writes(d, a), Writes(d, b), w.approvals, w1.approvals, w2.approvals);
    BothQueued(n, Writes(d, a), Writes(d, b), w.row.state.proposals, w1.row.state.proposals, w2.row.state.proposals);
    BothSaid(d, w.run, n, a, b, w.row.events, w1.row.events, w2.row.events);
  }

  lemma BothQueued(base: nat, a: seq<ToolCall>, b: seq<ToolCall>, before: seq<Proposal>, middle: seq<Proposal>,
                   after: seq<Proposal>)
    requires Queues(base, a, before, middle) && Queues(base + |a|, b, middle, after)
    ensures Queues(base, a + b, before, after)
  {
    assert Queued(base, a) + Queued(base + |a|, b) == Queued(base, a + b);
    Associates(before, Queued(base, a), Queued(base + |a|, b));
  }

  lemma BothSaid(d: Deps, run: nat, base: nat, a: seq<ToolCall>, b: seq<ToolCall>, before: seq<Event>,
                 middle: seq<Event>, after: seq<Event>)
    requires Says(d, run, base, a, before, middle) && Says(d, run, base + |Writes(d, a)|, b, middle, after)
    ensures Says(d, run, base, a + b, before, after)
  {
    ToldConcat(Saying(d, run), Writing(d), a, b, base);
    Associates(before, Said(d, run, a, base), Said(d, run, b, base + |Writes(d, a)|));
  }

  lemma BothAsked(d: Deps, run: nat, a: seq<ToolCall>, b: seq<ToolCall>, before: seq<Approval>, middle: seq<Approval>,
                  after: seq<Approval>)
    requires AsksFor(d, run, a, before, middle) && AsksFor(d, run, b, middle, after)
    ensures AsksFor(d, run, a + b, before, after)
  {
    forall i | 0 <= i < |a + b|
      ensures Asks(d, run, (a + b)[i], after[|before| + i])
    {
      if i < |a| {
        assert after[|before| + i] == middle[|before| + i];
      } else {
        assert (a + b)[i] == b[i - |a|] && |before| + i == |middle| + (i - |a|);
      }
    }
  }

  lemma {:induction false} CallsAnswered(d: Deps, w: World, calls: seq<ToolCall>)
    ensures Answered(d, w, calls, CoderCalls(d, w, calls)) && CoderCalls(d, w, calls).run == w.run
    decreases |calls|
  {
    if calls == [] {
      NoneAnswered(d, w);
    } else {
      var w1 := CoderCall(d, w, calls[0]);
      OneAnswered(d, w, calls[0]);
      CallsAnswered(d, w1, calls[1..]);
      BothAnswered(d, w, [calls[0]], w1, calls[1..], CoderCalls(d, w, calls));
      assert [calls[0]] + calls[1..] == calls;
    }
  }

  /** The first `n` replies are answered. */
  predicate Heard(d: Deps, w: World, input: NodeInput, n: nat, w1: World) {
    Answered(d, w, CallsIn(input, n), w1) && w1.run == w.run
  }

  predicate HeardAll(d: Deps, w: World, input: NodeInput, done: CoderResult) {
    Heard(d, w, input, Rounds(input), done.w) && done.tokens == TokensIn(input, Rounds(input))
  }

  lemma RoundHeard(d: Deps, w: World, input: NodeInput, n: nat, w1: World)
    requires Heard(d, w, input, n, w1)
    ensures Heard(d, w, input, n + 1, CoderCalls(d, CountGateway(w1), input.replies(n).calls))
  {
    var calls := input.replies(n).calls;
    CallsAnswered(d, CountGateway(w1), calls);
    BothAnswered(d, w, CallsIn(input, n), w1, calls, CoderCalls(d, CountGateway(w1), calls));
    assert CallsIn(input, n + 1) == CallsIn(input, n) + calls;
  }

  lemma LastHeard(d: Deps, w: World, input: NodeInput, round: nat, w1: World)
    requires round + 1 == Rounds(input) && Heard(d, w, input, round, w1)
    ensures HeardAll(d, w, input, CoderRounds(d, w1, input, round, TokensIn(input, round)))
  {
    RoundHeard(d, w, input, round, w1);
    LastRound(d, w1, input, round, TokensIn(input, round));
  }

  lemma {:induction false} RoundsAnswered(d: Deps, w: World, input: NodeInput, round: nat, w1: World)
    requires round < Rounds(input) && Heard(d, w, input, round, w1)
    ensures HeardAll(d, w, input, CoderRounds(d, w1, input, round, TokensIn(input, round)))
    decreases Rounds(input) - round
  {
    if round + 1 < Rounds(input) {
      RoundHeard(d, w, input, round, w1);
      RoundsAnswered(d, w, input, round + 1, CoderCalls(d, CountGateway(w1), input.replies(round).calls));
      NextRound(d, w1, input, round, TokensIn(input, round));
    } else {
      LastHeard(d, w, input, round, w1);
    }
  }

  lemma NextRound(d: Deps, w: World, input: NodeInput, round: nat, tokens: nat)
    requires round + 1 < Rounds(input)
    ensures CoderRounds(d, w, input, round, tokens) ==
            CoderRounds(d, CoderCalls(d, CountGateway(w), input.replies(round).calls), input, round + 1,
                        tokens + input.replies(round).tokens)
  {
    CoderRoundsStep(d, w, input, round, tokens);
  }

  lemma LastRound(d: Deps, w: World, input: NodeInput, round: nat, tokens: nat)
    requires round + 1 == Rounds(input)
    ensures CoderRounds(d, w, input, round, tokens) ==
            CoderResult(CoderCalls(d, CountGateway(w), input.replies(round).calls),
                        tokens + input.replies(round).tokens)
  {
    CoderRoundsStep(d, w, input, round, tokens);
    if input.replies(round).calls != [] {
      CoderRoundsEnd(d, CoderCalls(d, CountGateway(w), input.replies(round).calls), input,
                     tokens + input.replies(round).tokens);
    }
  }

  /**
   * One coder execution hears at most three replies, as long as they hold tool calls. Each write call among
   * them becomes one undecided approval and one proposal that names it, in order, and none is executed; with
   * proposals the run parks, without it goes to review exactly when files are applied.
   */
  lemma CoderQueuesWrites(d: Deps, w: World, input: NodeInput)
    requires w.row.at.AtCoder?
    ensures var w', calls, n := Advance(d, w, input), CallsIn(input, Rounds(input)), |w.approvals|;
            var writes := Writes(d, calls); var parked := w.row.state.proposals != [] || writes != [];
            && w'.executed == w.executed
            && AsksFor(d, w.run, writes, w.approvals, w'.approvals)
            && w'.row.state.proposals == w.row.state.proposals + Queued(n, writes)
            && w'.row.events == w.row.events + Said(d, w.run, calls, n)
                                + (if parked then [StatusChanged(AwaitingApproval)] else [])
            && w'.row.at == (if parked then AtGateEdits else if w.row.state.applied != [] then AtReviewer else AtCommit)
  {
    RoundsAnswered(d, w, input, 0, w);
    CoderRoundsFrame(d, w, input, 0, 0);
    CodedSteps(w, CoderRounds(d, w, input, 0, 0), CoderNode(d, w, input), d, input);
  }

  lemma CodedSteps(w: World, done: CoderResult, w': World, d: Deps, input: NodeInput)
    requires done == CoderRounds(d, w, input, 0, 0) && w' == CoderNode(d, w, input)
    ensures var parked := done.w.row.state.proposals != [];
            && w'.executed == done.w.executed && w'.approvals == done.w.approvals
            && w'.row.state.proposals == done.w.row.state.proposals
            && w'.row.events == done.w.row.events + (if parked then [StatusChanged(AwaitingApproval)] else [])
            && w'.row.at == (if parked then AtGateEdits
                             else if done.w.row.state.applied != [] then AtReviewer else AtCommit)
  {
  }

  // ---------------------------------------------------------------- apply

  /** What the registry announces while a batch is applied. */
  function BatchSaid(d: Deps, run: nat, approvals: seq<Approval>, proposals: seq<Proposal>, input: NodeInput,
                     i: nat): seq<Event>
    requires i <= |proposals|
    decreases |proposals| - i
  {
    if i == |proposals| then []
    else
      var p := proposals[i];
      var approval := if p.approvalId < |approvals| then Some(approvals[p.approvalId]) else None;
      var v := d.registry.Invoke(p.tool, Developer, Some(run), approval, input.tools(i));
      ToolEvents(p.tool, v, input.tools(i)) + BatchSaid(d, run, approvals, proposals, input, i + 1)
  }

  lemma {:induction false} ApplyAllSays(d: Deps, w: World, proposals: seq<Proposal>, input: NodeInput, i: nat,
                                        batch: seq<nat>)
    requires i <= |proposals|
    ensures ApplyAll(d, w, proposals, input, i, batch).row.events ==
            w.row.events + BatchSaid(d, w.run, w.approvals, proposals, input, i)
    decreases |proposals| - i
  {
    if i < |proposals| {
      var w1 := ApplyOne(d, w, proposals[i], input.tools(i), batch);
      ApplyAllSays(d, w1, proposals, input, i + 1, batch);
    }
  }

  /** Every execution of a batch names the approvals of all its proposals. */
  predicate NamesBatch(e: Execution, proposals: seq<Proposal>) {
    |e.batch| == |proposals| && forall i :: 0 <= i < |proposals| ==> e.batch[i] == proposals[i].approvalId
  }

  lemma {:induction false} EntriesNameBatch(d: Deps, run: nat, approvals: seq<Approval>, proposals: seq<Proposal>,
                                            input: NodeInput, i: nat)
    requires i <= |proposals|
    ensures forall e :: e in Entries(d, run, approvals, proposals, input, i, BatchOf(proposals)) ==>
                          NamesBatch(e, proposals)
    decreases |proposals| - i
  {
    if i < |proposals| { EntriesNameBatch(d, run, approvals, proposals, input, i + 1); }
  }

  /**
   * The node past the edit gate executes exactly the approved proposals of the batch that pass the checks, notes
   * and announces exactly the files of those that succeeded, and leaves no proposal behind.
   */
  lemma BatchIsApplied(d: Deps, w: World, input: NodeInput)
    requires WorkerRegistry(d.registry) && Grants(d, w) && w.row.at.AtApplyEdits?
    ensures var w', s, all := Advance(d, w, input), w.row.state, w.row.state.proposals;
            var files := Files(d, w.approvals, all, input, 0);
            && w'.executed == w.executed + Entries(d, w.run, w.approvals, all, input, 0, BatchOf(all))
            && (forall e :: e in w'.executed[|w.executed|..] ==> NamesBatch(e, all))
            && w'.row.state == s.(applied := s.applied + files, proposals := [])
            && w'.row.events == w.row.events + BatchSaid(d, w.run, w.approvals, all, input, 0)
                                + (if files != [] then [CodeGenerated(s.stepIndex, files)] else [])
            && w'.row.at.AtReviewer? && w'.approvals == w.approvals
  {
    var all := w.row.state.proposals;
    BatchExecutesExactly(d, w, all, input, 0, BatchOf(all));
    ApplyAllSays(d, w, all, input, 0, BatchOf(all));
    ApplyAllFrame(d, w, all, input, 0, BatchOf(all));
    EntriesNameBatch(d, w.run, w.approvals, all, input, 0);
    AppliedSteps(d, w, ApplyAll(d, w, all, input, 0, BatchOf(all)), input, Files(d, w.approvals, all, input, 0));
  }

  lemma AppliedSteps(d: Deps, w: World, w1: World, input: NodeInput, files: seq<string>)
    requires w.row.at.AtApplyEdits?
    requires w1 == ApplyAll(d, w, w.row.state.proposals, input, 0, BatchOf(w.row.state.proposals))
    requires ApplyFrame(w, w1) && w1.row.state.applied == w.row.state.applied + files
    ensures var w', s := Advance(d, w, input), w.row.state;
            && w'.executed == w1.executed && w'.approvals == w.approvals && w'.row.at.AtReviewer?
            && w'.row.state == s.(applied := s.applied + files, proposals := [])
            && w'.row.events == w1.row.events + (if files != [] then [CodeGenerated(s.stepIndex, files)] else [])
  {
    assert (w.row.state.applied + files)[|w.row.state.applied|..] == files;
    assert Advance(d, w, input) == ApplyEditsNode(d, w, input);
  }

  // ---------------------------------------------------------------- commit

  /** A ceiling of the run's budget is reached. */
  predicate WindowSpent(b: RunBudget) {
    b.stepsUsed >= b.maxSteps || b.tokensUsed >= b.maxTokens || b.costUsed >= b.maxCost
  }

  /** What landing a step announces. */
  function Landed(s: RunState, outcome: CommitOutcome): seq<Event> {
    match outcome
    case NothingToCommit => []
    case Blocked => [CommitBlocked(s.stepIndex)]
    case Committed(sha) => [StepCommitted(s.stepIndex, sha, s.branch)]
  }

  /**
   * A step lands on the branch exactly when its files were applied and git committed them, as announced. Then
   * the next step starts clean, behind the budget gate exactly when a ceiling is reached and steps remain.
   */
  lemma CommitLandsStep(d: Deps, w: World, input: NodeInput)
    requires Shape(w.row) && w.row.at.AtCommit?
    ensures var r, s, r' := w.row, w.row.state, Advance(d, w, input).row; var next := s.stepIndex + 1;
            var paused := next < |s.plan| && WindowSpent(r.budget);
            var landed := Reviewable(d, r) && input.commit.Committed?;
            && r'.commits == r.commits + (if landed then [input.commit.sha] else [])
            && r'.events == r.events + (if Reviewable(d, r) then Landed(s, input.commit) else [])
                            + (if paused then [StatusChanged(NeedsHuman)] else [])
            && r'.state == s.(stepIndex := next, proposals := [], applied := [], critique := "", reviewRound := 0,
                              status := if paused then NeedsHuman else s.status)
            && r'.status == (if paused then NeedsHuman else r.status)
            && r'.at == (if next == |s.plan| then AtTest else if paused then AtBudgetGate else AtCoder)
  {
    LandedSteps(d, w, input.commit);
    CommittedSteps(d, w, LandStep(d, w, input.commit), input);
  }

  lemma LandedSteps(d: Deps, w: World, outcome: CommitOutcome)
    ensures var r, r1 := w.row, LandStep(d, w, outcome).row;
            && r1.commits == r.commits + (if Reviewable(d, r) && outcome.Committed? then [outcome.sha] else [])
            && r1.events == r.events + (if Reviewable(d, r) then Landed(r.state, outcome) else [])
            && r1 == r.(commits := r1.commits, events := r1.events)
  {
  }

  lemma CommittedSteps(d: Deps, w: World, w1: World, input: NodeInput)
    requires Shape(w.row) && w.row.at.AtCommit? && w1 == LandStep(d, w, input.commit)
    requires w1.row == w.row.(commits := w1.row.commits, events := w1.row.events)
    ensures var s, r1, r' := w.row.state, w1.row, Advance(d, w, input).row; var next := s.stepIndex + 1;
            var paused := next < |s.plan| && WindowSpent(w.row.budget);
            && r'.commits == r1.commits && r'.events == r1.events + (if paused then [StatusChanged(NeedsHuman)] else [])
            && r'.state == s.(stepIndex := next, proposals := [], applied := [], critique := "", reviewRound := 0,
                              status := if paused then NeedsHuman else s.status)
            && r'.status == (if paused then NeedsHuman else w.row.status)
            && r'.at == (if next == |s.plan| then AtTest else if paused then AtBudgetGate else AtCoder)
  {
    assert Advance(d, w, input) == CommitNode(d, w, input);
  }

  // ---------------------------------------------------------------- test

  /** The test tool ran for this phase and its report says that tests were executed. */
  predicate TestsRan(d: Deps, r: Row, reply: ToolReply) {
    && r.workspace.Some? && TESTER_TOOL in d.registry.byName
    && reply.schemaOk && reply.outcome == Success && reply.report.Reported? && reply.report.ran
  }

  /** The run goes by what this phase's tests said, and only a failure keeps it from shipping. */
  lemma TestsDecide(d: Deps, w: World, input: NodeInput)
    requires WorkerRegistry(d.registry) && w.row.at.AtTest?
    ensures var r, r', reply := w.row, Advance(d, w, input).row, input.tools(0);
            var failed := TestsRan(d, r, reply) && !reply.report.passed;
            && r'.state.testsPassed == (if TestsRan(d, r, reply) then Some(reply.report.passed) else None)
            && r'.at == (if !failed then AtDocument else if r.state.debugRound < 2 then AtDebug else AtEscalate)
  {
  }

  // ---------------------------------------------------------------- plan

  const BULLETS: set<char> := {' ', '-', '*', '\t'}

  predicate HasText(line: string) { exists k :: 0 <= k < |line| && line[k] !in Text.SPACES }

  lemma TextIsNotBlank(line: string)
    ensures NotBlank(line) <==> HasText(line)
  {
    Text.StripLaws(line, Text.IsSpace, Text.SPACES);
    var i, j :| 0 <= i <= j <= |line| && Text.KeepsRange(line, Text.SPACES, i, j)
                && Text.Strip(line, Text.IsSpace) == line[i..j];
  }

  /** `at` lists the positions of the lines with text, in order. */
  predicate TextAt(lines: seq<string>, at: seq<nat>) {
    && (forall k :: 0 <= k < |at| ==> at[k] < |lines| && HasText(lines[at[k]]))
    && (forall j, k :: 0 <= j < k < |at| ==> at[j] < at[k])
    && (forall i :: 0 <= i < |lines| && HasText(lines[i]) ==> i in at)
  }

  /** The kept lines are those with text, each without its bullet. */
  predicate Picks(lines: seq<string>, at: seq<nat>, kept: seq<string>) {
    |kept| == |at| && forall k :: 0 <= k < |at| ==> at[k] < |lines| && Text.Strips(lines[at[k]], BULLETS, kept[k])
  }

  lemma {:induction false} PlanLinesSnoc(lines: seq<string>, last: string)
    ensures PlanLines(lines + [last]) ==
            PlanLines(lines) + if NotBlank(last) then [Text.Strip(last, Bullet)] else []
    decreases |lines|
  {
    if lines == [] {
      assert lines + [last] == [last] && [last][1..] == [];
    } else {
      assert (lines + [last])[1..] == lines[1..] + [last];
      PlanLinesSnoc(lines[1..], last);
    }
  }

  lemma {:induction false} PlanLinesPicked(lines: seq<string>) returns (at: seq<nat>)
    ensures TextAt(lines, at) && Picks(lines, at, PlanLines(lines))
    decreases |lines|
  {
    at := [];
    if lines != [] {
      var init, last := lines[..|lines| - 1], lines[|lines| - 1];
      assert lines == init + [last];
      at := PlanLinesPicked(init);
      PlanLinesSnoc(init, last);
      TextIsNotBlank(last);
      Text.StripLaws(last, Bullet, BULLETS);
      OneLineMore(init, last, at, PlanLines(init), Text.Strip(last, Bullet));
      if HasText(last) { at := at + [|init|]; }
    }
  }

  lemma OneLineMore(lines: seq<string>, last: string, at: seq<nat>, kept: seq<string>, text: string)
    requires TextAt(lines, at) && Picks(lines, at, kept) && Text.Strips(last, BULLETS, text)
    ensures var all := lines + [last];
            if HasText(last) then TextAt(all, at + [|lines|]) && Picks(all, at + [|lines|], kept + [text])
            else TextAt(all, at) && Picks(all, at, kept)
  {
    var all, at' := lines + [last], at + [|lines|];
    assert forall i :: 0 <= i < |lines| ==> all[i] == lines[i];
    if HasText(last) { assert at'[|at|] == |lines|; }
  }

  /** The plan drafted from a reply: its first twelve lines with text, without bullets and cut at 200 characters. */
  ghost predicate Drafts(lines: seq<string>, at: seq<nat>, steps: seq<PlanStep>) {
    if at == [] then steps == [PlanStep(0, "Complete the goal")]
    else
      && |steps| == Min(12, |at|)
      && forall i :: 0 <= i < |steps| ==> steps[i].index == i && at[i] < |lines| && Titles(lines[at[i]], steps[i].title)
  }

  ghost predicate Titles(line: string, title: string) {
    exists text :: Text.Strips(line, BULLETS, text) && title <= text && |title| == Min(200, |text|)
  }

  lemma NothingDrafted(lines: seq<string>)
    requires PlanLines(lines) == []
    ensures ParsePlan(lines) == [PlanStep(0, "Complete the goal")]
  {
    var goal, steps := "Complete the goal", ParsePlan(lines);
    var titles := [goal];
    assert Take(PlanLines(lines), MAX_STEPS) == [];
    assert |goal| == 17 && Take(titles[0], 200) == goal;
    assert |steps| == |titles| && steps[0] == PlanStep(0, Take(titles[0], 200));
  }

  lemma ParsedDrafts(lines: seq<string>, at: seq<nat>)
    requires TextAt(lines, at) && Picks(lines, at, PlanLines(lines))
    ensures Drafts(lines, at, ParsePlan(lines))
  {
    var kept, steps := PlanLines(lines), ParsePlan(lines);
    if at == [] {
      assert kept == [];
      NothingDrafted(lines);
    } else {
      forall i | 0 <= i < |steps|
        ensures Titles(lines[at[i]], steps[i].title)
      {
        assert Text.Strips(lines[at[i]], BULLETS, kept[i]);
        assert steps[i].title == Take(kept[i], 200);
      }
    }
  }

  /** The planner stores and keeps the drafted steps, announces their number between two status changes, and parks. */
  lemma PlanIsDrafted(d: Deps, w: World, input: NodeInput) returns (at: seq<nat>)
    requires w.row.at.AtPlan?
    ensures var w' := Advance(d, w, input); var steps := w'.row.state.plan;
            && TextAt(input.planText, at) && Drafts(input.planText, at, steps)
            && w'.row.saved == Some(Plan(1, steps)) && w'.row.status == AwaitingApproval && w'.row.at.AtApprove?
            && w'.row.events == w.row.events + [StatusChanged(Planning), PlanCreated(1, |steps|),
                                                StatusChanged(AwaitingApproval)]
  {
    at := PlanLinesPicked(input.planText);
    ParsedDrafts(input.planText, at);
    PlannedRow(d, w, input);
  }

  lemma PlannedRow(d: Deps, w: World, input: NodeInput)
    requires w.row.at.AtPlan?
    ensures var w', steps := Advance(d, w, input), ParsePlan(input.planText);
            && w'.row.state.plan == steps
            && w'.row.saved == Some(Plan(1, steps)) && w'.row.status == AwaitingApproval && w'.row.at.AtApprove?
            && w'.row.events == w.row.events + [StatusChanged(Planning), PlanCreated(1, |steps|),
                                                StatusChanged(AwaitingApproval)]
  {
    var steps := ParsePlan(input.planText);
    assert Advance(d, w, input) == PlanNode(w, input);
    assert w.row.events + [StatusChanged(Planning)] + [PlanCreated(1, |steps|)] + [StatusChanged(AwaitingApproval)] ==
           w.row.events + [StatusChanged(Planning), PlanCreated(1, |steps|), StatusChanged(AwaitingApproval)];
  }

  // ---------------------------------------------------------------- what is charged

  /** The model replies a superstep asks for, and the tokens of theirs it charges: planning is not charged. */
  function Asked(d: Deps, r: Row, input: NodeInput): (nat, nat) {
    match r.at
    case AtPlan => (1, 0)
    case AtCoder => (Rounds(input), TokensIn(input, Rounds(input)))
    case AtReviewer => if Reviewable(d, r) then (1, input.replies(0).tokens) else (0, 0)
    case AtDebug => (1, input.replies(0).tokens)
    case AtDocument => (1, input.replies(0).tokens)
    case _ => (0, 0)
  }

  lemma {:induction false} RoundsCounted(d: Deps, w: World, input: NodeInput, round: nat, tokens: nat)
    requires round < Rounds(input)
    ensures CoderRounds(d, w, input, round, tokens).w.row.gatewayCalls == w.row.gatewayCalls + Rounds(input) - round
    decreases Rounds(input) - round
  {
    var calls := input.replies(round).calls;
    CoderCallsFrame(d, CountGateway(w), calls);
    if round + 1 < Rounds(input) {
      NextRound(d, w, input, round, tokens);
      RoundsCounted(d, CoderCalls(d, CountGateway(w), calls), input, round + 1, tokens + input.replies(round).tokens);
    } else {
      LastRound(d, w, input, round, tokens);
    }
  }

  lemma CoderSpends(d: Deps, w: World, input: NodeInput)
    requires w.row.at.AtCoder?
    ensures var r, r' := w.row, CoderNode(d, w, input).row; var n := Rounds(input);
            && r'.gatewayCalls == r.gatewayCalls + n && r'.coderRuns == r.coderRuns + 1
            && r'.budget == r.budget.(stepsUsed := r.budget.stepsUsed + 1,
                                      tokensUsed := r.budget.tokensUsed + TokensIn(input, n))
  {
    RoundsCounted(d, w, input, 0, 0);
    CoderRoundsFrame(d, w, input, 0, 0);
    RoundsAnswered(d, w, input, 0, w);
  }

  /**
   * Every superstep charges exactly the tokens of the replies it asked for, and one step exactly for a coder
   * execution; answering the budget gate takes the steps back and nothing else.
   */
  lemma SuperstepSpends(d: Deps, w: World, input: NodeInput)
    requires !w.row.at.AtEnd?
    ensures var r, r' := w.row, Advance(d, w, input).row; var asked := Asked(d, r, input);
            && r'.gatewayCalls == r.gatewayCalls + asked.0
            && r'.budget == r.budget.(tokensUsed := r.budget.tokensUsed + asked.1,
                                      stepsUsed := if r.at.AtBudgetGate? then 0
                                                   else r.budget.stepsUsed + if r.at.AtCoder? then 1 else 0)
  {
    if w.row.at.AtCoder? {
      CoderSpends(d, w, input);
    } else if w.row.at.AtApplyEdits? {
      ApplyAllFrame(d, w, w.row.state.proposals, input, 0, BatchOf(w.row.state.proposals));
    } else if w.row.at.AtReviewer? {
      ReviewSpends(d, w, input);
    } else if IsGate(w.row.at) {
      GateSpends(d, w, input);
    } else if w.row.at.AtTest? {
      TestSpends(d, w, input);
    } else if w.row.at.AtCommit? {
      CommitSpends(d, w, input);
    } else {
      OtherSpends(d, w, input);
    }
  }

  lemma ReviewSpends(d: Deps, w: World, input: NodeInput)
    requires w.row.at.AtReviewer?
    ensures var r, r' := w.row, Advance(d, w, input).row; var asked := Asked(d, r, input);
            && r'.gatewayCalls == r.gatewayCalls + asked.0
            && r'.budget == r.budget.(tokensUsed := r.budget.tokensUsed + asked.1)
  {
    if Reviewable(d, w.row) { ReviewIs(d, w, input); } else { NothingToReview(d, w, input); }
  }

  lemma GateSpends(d: Deps, w: World, input: NodeInput)
    requires IsGate(w.row.at)
    ensures var r, r' := w.row, Advance(d, w, input).row;
            && r'.gatewayCalls == r.gatewayCalls
            && r'.budget == if r.at.AtBudgetGate? then r.budget.(stepsUsed := 0) else r.budget
  {
  }

  lemma TestSpends(d: Deps, w: World, input: NodeInput)
    requires w.row.at.AtTest?
    ensures var r, r' := w.row, Advance(d, w, input).row; r'.gatewayCalls == r.gatewayCalls && r'.budget == r.budget
  {
    TestEffect(d, w, input);
  }

  lemma CommitSpends(d: Deps, w: World, input: NodeInput)
    requires w.row.at.AtCommit?
    ensures var r, r' := w.row, Advance(d, w, input).row; r'.gatewayCalls == r.gatewayCalls && r'.budget == r.budget
  {
    CommitEffect(d, w, input);
  }

  lemma OtherSpends(d: Deps, w: World, input: NodeInput)
    requires w.row.at.AtPlan? || w.row.at.AtBranch? || w.row.at.AtDebug? || w.row.at.AtDocument? || w.row.at.AtOpenPr?
             || w.row.at.AtEscalate? || w.row.at.AtFinalize?
    ensures var r, r' := w.row, Advance(d, w, input).row; var asked := Asked(d, r, input);
            && r'.gatewayCalls == r.gatewayCalls + asked.0
            && r'.budget == r.budget.(tokensUsed := r.budget.tokensUsed + asked.1)
  {
  }

  // ---------------------------------------------------------------- branch, gates, ending

  /** Where an answered pause continues. */
  function Behind(at: Node): Node
    requires IsGate(at)
  {
    match at
    case AtApprove => AtBranch
    case AtGateEdits => AtApplyEdits
    case AtBudgetGate => AtCoder
    case AtPrGate => AtOpenPr
  }

  /**
   * Passing a gate sets the checkpoint running and moves on. The stored plan is adopted exactly at the plan gate;
   * running is stored and announced exactly at the plan and budget gates.
   */
  lemma GatesOpen(d: Deps, w: World, input: NodeInput)
    requires IsGate(w.row.at)
    ensures var r, r' := w.row, Advance(d, w, input).row; var announced := r.at.AtApprove? || r.at.AtBudgetGate?;
            var plan := if r.at.AtApprove? && r.saved.Some? then r.saved.value.steps else r.state.plan;
            && r'.at == Behind(r.at)
            && r'.state == r.state.(status := Running, plan := plan,
                                    stepIndex := if r.at.AtApprove? then 0 else r.state.stepIndex)
            && r'.status == (if announced then Running else r.status)
            && r'.events == r.events + (if announced then [StatusChanged(Running)] else [])
    ensures Advance(d, w, input) == w.(row := Advance(d, w, input).row)
  {
  }

  /**
   * A delivery starts a pending run at the planner with nothing kept, lets a parked one through its gate, and
   * leaves any other where it is.
   */
  lemma DeliveryStarts(d: Deps, w: World, input: NodeInput)
    ensures w.row.status == Pending ==>
              && Begin(w).row == w.row.(at := AtPlan, state := Begin(w).row.state)
              && var s := Begin(w).row.state;
              && s.plan == [] && s.stepIndex == 0 && s.status == Pending && s.proposals == [] && s.applied == []
              && s.critique == "" && s.reviewRound == 0 && s.branch == "" && s.testsPassed == None
              && s.debugRound == 0 && s.prUrl == ""
    ensures w.row.status != Pending ==> Begin(w) == if IsGate(w.row.at) then Advance(d, w, input) else w
    ensures Begin(w) == w.(row := Begin(w).row)
  {
  }

  /** The run works on the branch that was prepared, exactly when it has a workspace under git. */
  lemma BranchIsPrepared(d: Deps, w: World, input: NodeInput)
    requires w.row.at.AtBranch?
    ensures var branch := if d.git && w.row.workspace.Some? then input.branch else w.row.state.branch;
            Advance(d, w, input) == w.(row := w.row.(at := AtCoder, state := w.row.state.(branch := branch)))
  {
  }

  /** A debug round adds one step under its own number and starts it clean. */
  lemma DebugAddsStep(d: Deps, w: World, input: NodeInput)
    requires Shape(w.row) && w.row.at.AtDebug?
    ensures var s, r' := w.row.state, Advance(d, w, input).row; var n := s.debugRound + 1;
            var title := if n == 1 then "Fix failing tests (1)" else "Fix failing tests (2)";
            && r'.at.AtCoder? && r'.events == w.row.events + [FixGenerated(n)]
            && r'.state == s.(plan := s.plan + [PlanStep(|s.plan|, title)], debugRound := n, testsPassed := None,
                              proposals := [], applied := [], critique := "", reviewRound := 0)
  {
    assert FixTitle(1) == "Fix failing tests (1)" && FixTitle(2) == "Fix failing tests (2)";
  }

  /** What a pull request needs: delivery configured, a workspace, a branch, and an answer of the provider. */
  predicate PullRequested(d: Deps, r: Row, input: NodeInput) {
    d.pr && r.workspace.Some? && r.state.branch != "" && input.pull.Some?
  }

  /** What the nodes that end a run announce. */
  function Ending(d: Deps, r: Row, input: NodeInput): seq<Event> {
    var steps, tests := |r.state.plan|, r.state.testsPassed;
    match r.at
    case AtDocument => [DocsGenerated]
    case AtOpenPr =>
      if !PullRequested(d, r, input) then []
      else [PullRequestOpened(input.pull.value.number, input.pull.value.url, r.state.branch)]
    case AtEscalate => [StatusChanged(NeedsHuman), RunReported("needs_human", steps, tests, None)]
    case AtFinalize =>
      [StatusChanged(Completed), RunCompleted,
       RunReported("completed", steps, tests, if r.state.prUrl == "" then None else Some(r.state.prUrl))]
    case _ => []
  }

  /**
   * After the tests: documentation leads to the pull-request gate exactly when there is something to deliver; past
   * it a pull request is opened exactly when it can be; and the run ends as completed or needing a human.
   */
  lemma RunEnds(d: Deps, w: World, input: NodeInput)
    requires w.row.at.AtDocument? || w.row.at.AtOpenPr? || w.row.at.AtEscalate? || w.row.at.AtFinalize?
    ensures var r, r' := w.row, Advance(d, w, input).row; var opens := r.at.AtOpenPr? && PullRequested(d, r, input);
            && r'.events == r.events + Ending(d, r, input)
            && r'.prs == r.prs + (if opens then [input.pull.value.url] else [])
            && r'.state.prUrl == (if opens then input.pull.value.url else r.state.prUrl)
            && r'.commits == r.commits && r'.state.testsPassed == r.state.testsPassed
            && (r.at.AtDocument? ==> r'.at == if d.pr && r.workspace.Some? then AtPrGate else AtFinalize)
            && (r.at.AtOpenPr? ==> r'.at.AtFinalize?)
            && (r.at.AtEscalate? || r.at.AtFinalize? ==> r'.at.AtEnd? && r'.status == r'.state.status)
            && (r.at.AtEscalate? ==> r'.status == NeedsHuman) && (r.at.AtFinalize? ==> r'.status == Completed)
  {
  }

  /** A registry call announces that the provider was entered, then the test tool's own report, then the outcome. */
  lemma CallIsAnnounced(tool: string, v: Verdict, reply: ToolReply)
    requires v.outcome.Success? ==> v.ran
    ensures var said, reports := ToolEvents(tool, v, reply),
                tool == "tester.run" && v.outcome.Success? && reply.report.Reported?;
            && (ToolStarted(tool) in said <==> v.ran)
            && ((exists passed :: TestsCompleted(passed) in said) <==> reports)
            && (reports ==> TestsCompleted(reply.report.passed) in said)
            && (ToolCompleted(tool, v.outcome) in said <==> v.announced)
            && |said| == (if v.ran then 1 else 0) + (if reports then 1 else 0) + (if v.announced then 1 else 0)
            && (v.ran ==> said[0] == ToolStarted(tool))
            && (v.announced ==> said[|said| - 1] == ToolCompleted(tool, v.outcome))
  {
    var said := ToolEvents(tool, v, reply);
    if v.ran && tool == "tester.run" && v.outcome.Success? && reply.report.Reported? {
      assert said[1] == TestsCompleted(reply.report.passed);
    }
  }
}
