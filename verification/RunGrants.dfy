/** Approvals and the mutations executed under them. */
module RunGrants {
  import opened Common
  import opened RunDomain
  import opened ToolRegistry
  import opened RunGraph
  import opened RunControl

  /** The registry a worker wires: no blanket permission, and a read-only test tool for developers. */
  predicate WorkerRegistry(registry: Registry) {
    && WellKeyed(registry.byName)
    && !registry.allowMutations
    && (TESTER_TOOL in registry.byName ==>
          registry.byName[TESTER_TOOL].sideEffect.Read? && registry.byName[TESTER_TOOL].requiredRole == Developer)
  }

  /** An approved grant for the same run and tool that previews exactly these arguments. */
  predicate Granted(approvals: seq<Approval>, e: Execution) {
    && e.approvalId < |approvals|
    && var a := approvals[e.approvalId];
    && a.status == Approved && a.run == e.run && a.tool == e.tool && a.preview == Preview(e.arguments)
  }

  predicate Recorded(d: Deps, approvals: seq<Approval>, run: nat, p: Proposal) {
    && p.approvalId < |approvals|
    && p.tool in d.registry.byName && !d.registry.byName[p.tool].sideEffect.Read?
    && var a := approvals[p.approvalId];
    && a.run == run && a.tool == p.tool && a.preview == Preview(p.arguments)
  }

  predicate AllGranted(approvals: seq<Approval>, executed: seq<Execution>) {
    forall e :: e in executed ==> Granted(approvals, e)
  }

  predicate SpentOnce(executed: seq<Execution>) {
    forall i, j :: 0 <= i < j < |executed| ==> executed[i].approvalId != executed[j].approvalId
  }

  predicate AllRecorded(d: Deps, approvals: seq<Approval>, run: nat, proposals: seq<Proposal>) {
    && (forall p :: p in proposals ==> Recorded(d, approvals, run, p))
    && (forall i, j :: 0 <= i < j < |proposals| ==> proposals[i].approvalId < proposals[j].approvalId)
  }

  /** Some proposal waits on this approval. */
  predicate ProposedIn(proposals: seq<Proposal>, id: nat) {
    exists p :: p in proposals && p.approvalId == id
  }

  lemma {:induction false} ProposedGrows(a: seq<Proposal>, b: seq<Proposal>)
    requires a <= b
    ensures forall id :: ProposedIn(a, id) ==> ProposedIn(b, id)
  {
    forall id | ProposedIn(a, id)
      ensures ProposedIn(b, id)
    {
      var p :| p in a && p.approvalId == id;
      assert p in b;
    }
  }

  predicate Unspent(proposals: seq<Proposal>, executed: seq<Execution>) {
    forall p, e :: p in proposals && e in executed ==> p.approvalId != e.approvalId
  }

  predicate Grants(d: Deps, w: World) {
    && AllGranted(w.approvals, w.executed)
    && SpentOnce(w.executed)
    && AllRecorded(d, w.approvals, w.run, w.row.state.proposals)
    && Unspent(w.row.state.proposals, w.executed)
  }

  /** Later stores: approvals are only appended or decided, and a decision is final. */
  predicate Evolves(a: seq<Approval>, b: seq<Approval>) {
    && |a| <= |b|
    && forall i :: 0 <= i < |a| ==>
                     b[i] == a[i].(status := b[i].status, decidedBy := b[i].decidedBy)
                     && (a[i].status != Undecided ==> b[i] == a[i])
  }

  /** What a run appends belongs to it and is undecided. */
  predicate AppendsOwn(run: nat, a: seq<Approval>, b: seq<Approval>) {
    && a <= b
    && forall i :: |a| <= i < |b| ==> b[i].run == run && b[i].status == Undecided && b[i].decidedBy == None
  }

  lemma {:induction false} CoderCallGrants(d: Deps, w: World, call: ToolCall)
    requires Grants(d, w)
    ensures var w' := CoderCall(d, w, call);
            && Grants(d, w') && AppendsOwn(w.run, w.approvals, w'.approvals)
            && w'.executed == w.executed && w'.run == w.run
            && w.row.state.proposals <= w'.row.state.proposals
            && |w'.approvals| <= |w.approvals| + 1
            && (|| w'.approvals == w.approvals
                || w'.row.state.proposals ==
                   w.row.state.proposals + [Proposal(|w.approvals|, call.name, call.arguments)])
  {
    var w' := CoderCall(d, w, call);
    var before, after := w.row.state.proposals, w'.row.state.proposals;
    if w'.approvals != w.approvals {
      forall p | p in after
        ensures Recorded(d, w'.approvals, w.run, p)
      {
        if p in before { assert Recorded(d, w.approvals, w.run, p); }
      }
      forall i, j | 0 <= i < j < |after|
        ensures after[i].approvalId < after[j].approvalId
      {
        assert before[i] in before && Recorded(d, w.approvals, w.run, before[i]);
        if j < |before| { assert after[j] == before[j]; }
      }
      forall e | e in w.executed
        ensures Granted(w'.approvals, e)
      {
        assert Granted(w.approvals, e);
      }
    }
  }

  /** What proposing does: grants stay in place, and every new approval is some proposal's. */
  predicate Proposes(d: Deps, w: World, w': World) {
    && Grants(d, w') && AppendsOwn(w.run, w.approvals, w'.approvals)
    && w'.executed == w.executed && w'.run == w.run
    && w.row.state.proposals <= w'.row.state.proposals
    && (forall i :: |w.approvals| <= i < |w'.approvals| ==> ProposedIn(w'.row.state.proposals, i))
  }

  lemma {:induction false} ProposesCompose(d: Deps, w: World, w1: World, w2: World)
    requires Proposes(d, w, w1) && Proposes(d, w1, w2)
    ensures Proposes(d, w, w2)
  {
    ProposedGrows(w1.row.state.proposals, w2.row.state.proposals);
  }

  lemma {:induction false} CoderCallsGrants(d: Deps, w: World, calls: seq<ToolCall>)
    requires Grants(d, w)
    ensures Proposes(d, w, CoderCalls(d, w, calls))
    decreases |calls|
  {
    if calls != [] {
      var w1 := CoderCall(d, w, calls[0]);
      CoderCallProposes(d, w, calls[0]);
      CoderCallsGrants(d, w1, calls[1..]);
      ProposesCompose(d, w, w1, CoderCalls(d, w, calls));
    }
  }

  lemma {:induction false} CoderCallProposes(d: Deps, w: World, call: ToolCall)
    requires Grants(d, w)
    ensures Proposes(d, w, CoderCall(d, w, call))
  {
    CoderCallGrants(d, w, call);
    var w1 := CoderCall(d, w, call);
    if |w.approvals| < |w1.approvals| {
      assert w1.row.state.proposals[|w1.row.state.proposals| - 1].approvalId == |w.approvals|;
      assert ProposedIn(w1.row.state.proposals, |w.approvals|);
    }
  }

  lemma {:induction false} CoderRoundsGrants(d: Deps, w: World, input: NodeInput, round: nat, tokens: nat)
    requires Grants(d, w) && round <= MAX_TOOL_ROUNDS
    ensures Proposes(d, w, CoderRounds(d, w, input, round, tokens).w)
    decreases MAX_TOOL_ROUNDS - round
  {
    if round < MAX_TOOL_ROUNDS && input.replies(round).calls != [] {
      var reply := input.replies(round);
      var w1 := CoderCalls(d, CountGateway(w), reply.calls);
      CoderCallsGrants(d, CountGateway(w), reply.calls);
      CoderRoundsGrants(d, w1, input, round + 1, tokens + reply.tokens);
      ProposesCompose(d, w, w1, CoderRounds(d, w, input, round, tokens).w);
    }
  }

  /** Executions appended by one batch: only its own proposals, each at most once, all granted. */
  predicate BatchLog(proposals: seq<Proposal>, batch: seq<nat>, run: nat, before: seq<Execution>,
                     after: seq<Execution>) {
    && before <= after
    && forall k :: |before| <= k < |after| ==>
                     after[k].run == run && after[k].batch == batch
                     && exists p :: p in proposals && after[k].approvalId == p.approvalId
                                    && after[k].tool == p.tool && after[k].arguments == p.arguments
  }

  lemma {:induction false} ApplyAllGrants(d: Deps, w: World, proposals: seq<Proposal>, input: NodeInput, i: nat,
                                          batch: seq<nat>)
    requires WorkerRegistry(d.registry)
    requires i <= |proposals| && AllRecorded(d, w.approvals, w.run, proposals)
    requires AllGranted(w.approvals, w.executed) && SpentOnce(w.executed)
    requires Unspent(proposals[i..], w.executed)
    ensures var w' := ApplyAll(d, w, proposals, input, i, batch);
            && AllGranted(w.approvals, w'.executed) && SpentOnce(w'.executed)
            && BatchLog(proposals, batch, w.run, w.executed, w'.executed)
    decreases |proposals| - i
  {
    if i < |proposals| {
      var p := proposals[i];
      var w1 := ApplyOne(d, w, p, input.tools(i), batch);
      assert p in proposals[i..];
      assert p in proposals && Recorded(d, w.approvals, w.run, p);
      forall q, e | q in proposals[i + 1..] && e in w1.executed
        ensures q.approvalId != e.approvalId
      {
        assert q in proposals[i..];
        if e !in w.executed { assert e.approvalId == p.approvalId; }
      }
      ApplyAllGrants(d, w1, proposals, input, i + 1, batch);
    }
  }

  /** Whether the registry runs a recorded proposal: approved, and past the role and schema checks. */
  predicate Runs(d: Deps, approvals: seq<Approval>, p: Proposal, reply: ToolReply) {
    && p.tool in d.registry.byName && Developer.Satisfies(d.registry.byName[p.tool].requiredRole) && reply.schemaOk
    && p.approvalId < |approvals| && approvals[p.approvalId].status == Approved
  }

  /** What one proposal of a batch adds to the log. */
  function Entry(d: Deps, run: nat, approvals: seq<Approval>, p: Proposal, reply: ToolReply,
                 batch: seq<nat>): seq<Execution> {
    if Runs(d, approvals, p, reply) then [Execution(run, p.approvalId, p.tool, p.arguments, batch)] else []
  }

  /** The file it touches, when it ran and succeeded. */
  function File(d: Deps, approvals: seq<Approval>, p: Proposal, reply: ToolReply): seq<string> {
    if Runs(d, approvals, p, reply) && reply.outcome.Success? && p.arguments.path.Some?
    then [p.arguments.path.value] else []
  }

  /** The log of a batch, in its order. */
  function Entries(d: Deps, run: nat, approvals: seq<Approval>, proposals: seq<Proposal>, input: NodeInput, i: nat,
                   batch: seq<nat>): seq<Execution>
    requires i <= |proposals|
    decreases |proposals| - i
  {
    if i == |proposals| then []
    else
      Entry(d, run, approvals, proposals[i], input.tools(i), batch)
      + Entries(d, run, approvals, proposals, input, i + 1, batch)
  }

  function Files(d: Deps, approvals: seq<Approval>, proposals: seq<Proposal>, input: NodeInput, i: nat): seq<string>
    requires i <= |proposals|
    decreases |proposals| - i
  {
    if i == |proposals| then []
    else File(d, approvals, proposals[i], input.tools(i)) + Files(d, approvals, proposals, input, i + 1)
  }

  lemma {:induction false} ApplyOneExactly(d: Deps, w: World, p: Proposal, reply: ToolReply, batch: seq<nat>)
    requires WorkerRegistry(d.registry) && Recorded(d, w.approvals, w.run, p)
    ensures var w' := ApplyOne(d, w, p, reply, batch);
            && w'.executed == w.executed + Entry(d, w.run, w.approvals, p, reply, batch)
            && w'.row.state.applied == w.row.state.applied + File(d, w.approvals, p, reply)
            && w'.run == w.run && w'.approvals == w.approvals
  {
  }

  /**
   * Applying a batch executes every approved proposal that passes the role and schema checks, exactly once
   * and in order, and nothing else; the files it notes are exactly those of the executions that succeeded.
   */
  lemma {:induction false} BatchExecutesExactly(d: Deps, w: World, proposals: seq<Proposal>, input: NodeInput, i: nat,
                                                batch: seq<nat>)
    requires WorkerRegistry(d.registry) && i <= |proposals| && AllRecorded(d, w.approvals, w.run, proposals)
    ensures ApplyAll(d, w, proposals, input, i, batch).executed ==
            w.executed + Entries(d, w.run, w.approvals, proposals, input, i, batch)
    ensures ApplyAll(d, w, proposals, input, i, batch).row.state.applied ==
            w.row.state.applied + Files(d, w.approvals, proposals, input, i)
    decreases |proposals| - i
  {
    if i < |proposals| {
      var p, reply := proposals[i], input.tools(i);
      assert p in proposals;
      ApplyOneExactly(d, w, p, reply, batch);
      BatchExecutesExactly(d, ApplyOne(d, w, p, reply, batch), proposals, input, i + 1, batch);
      Associates(w.executed, Entry(d, w.run, w.approvals, p, reply, batch),
                 Entries(d, w.run, w.approvals, proposals, input, i + 1, batch));
      Associates(w.row.state.applied, File(d, w.approvals, p, reply), Files(d, w.approvals, proposals, input, i + 1));
    }
  }

  /** What a run executes is logged under its own identity. */
  predicate OwnLog(run: nat, a: seq<Execution>, b: seq<Execution>) {
    a <= b && forall k :: |a| <= k < |b| ==> b[k].run == run
  }

  /** What one superstep must keep about grants: all of them in order, and no approval decided. */
  predicate GrantsStep(d: Deps, w: World, w': World) {
    && Grants(d, w') && w'.run == w.run
    && AppendsOwn(w.run, w.approvals, w'.approvals) && OwnLog(w.run, w.executed, w'.executed)
  }

  lemma {:induction false} CoderKeepsGrants(d: Deps, w: World, input: NodeInput)
    requires Grants(d, w)
    ensures GrantsStep(d, w, CoderNode(d, w, input))
  {
    CoderRoundsGrants(d, w, input, 0, 0);
    var w', done := CoderNode(d, w, input), CoderRounds(d, w, input, 0, 0).w;
    assert w'.approvals == done.approvals && w'.executed == done.executed
           && w'.row.state.proposals == done.row.state.proposals;
  }

  lemma {:induction false} ApplyKeepsGrants(d: Deps, w: World, input: NodeInput)
    requires WorkerRegistry(d.registry) && Grants(d, w)
    ensures GrantsStep(d, w, ApplyEditsNode(d, w, input))
  {
    var proposals := w.row.state.proposals;
    assert proposals[0..] == proposals;
    ApplyAllFrame(d, w, proposals, input, 0, BatchOf(proposals));
    ApplyAllGrants(d, w, proposals, input, 0, BatchOf(proposals));
  }

  /** All other nodes and gates leave approvals and executions alone. */
  lemma {:induction false} OtherNodes(d: Deps, w: World, input: NodeInput)
    requires !w.row.at.AtEnd? && !w.row.at.AtCoder? && !w.row.at.AtApplyEdits?
    ensures var w' := Advance(d, w, input);
            && w'.run == w.run && w'.approvals == w.approvals && w'.executed == w.executed
            && (w'.row.state.proposals == [] || w'.row.state.proposals == w.row.state.proposals)
  {
  }

  lemma {:induction false} AdvanceKeepsGrants(d: Deps, w: World, input: NodeInput)
    requires WorkerRegistry(d.registry) && Grants(d, w) && !w.row.at.AtEnd?
    ensures GrantsStep(d, w, Advance(d, w, input))
  {
    if w.row.at.AtCoder? {
      CoderKeepsGrants(d, w, input);
    } else if w.row.at.AtApplyEdits? {
      ApplyKeepsGrants(d, w, input);
    } else {
      OtherNodes(d, w, input);
    }
  }

  lemma {:induction false} DriveKeepsGrants(d: Deps, w: World, env: nat -> NodeInput, k: nat)
    requires WorkerRegistry(d.registry) && Grants(d, w) && Control(w.row)
    ensures GrantsStep(d, w, Drive(d, w, env, k))
    decreases Stage(w.row.at), DebugLeft(w.row.state), StepsLeft(w.row.state), ReviewsLeft(w.row.state),
              NodeRank(w.row.at)
  {
    if !Paused(w.row.at) {
      AdvanceKeepsGrants(d, w, env(k));
      AdvanceProgress(d, w, env(k));
      DriveKeepsGrants(d, Step(d, w, env(k)), env, k + 1);
    }
  }

  // ---------------------------------------------------------------- whole batches

  /** Nothing of this run waits for a decision or was refused. */
  predicate Settled(approvals: seq<Approval>, run: nat) {
    forall id :: 0 <= id < |approvals| && approvals[id].run == run ==> approvals[id].status == Approved
  }

  /** What is undecided is exactly part of the batch at the gate; nothing was refused. */
  predicate Waiting(approvals: seq<Approval>, run: nat, proposals: seq<Proposal>) {
    forall id :: 0 <= id < |approvals| && approvals[id].run == run ==>
                   approvals[id].status == Approved || (approvals[id].status == Undecided && ProposedIn(proposals, id))
  }

  predicate BatchesApproved(approvals: seq<Approval>, executed: seq<Execution>) {
    forall e :: e in executed ==> BatchApproved(approvals, e.batch)
  }

  predicate BatchApproved(approvals: seq<Approval>, batch: seq<nat>) {
    forall id :: id in batch ==> id < |approvals| && approvals[id].status == Approved
  }

  lemma {:induction false} BatchesEvolve(a: seq<Approval>, b: seq<Approval>, executed: seq<Execution>)
    requires Evolves(a, b) && BatchesApproved(a, executed)
    ensures BatchesApproved(b, executed)
  {
    forall e | e in executed
      ensures BatchApproved(b, e.batch)
    {
      assert BatchApproved(a, e.batch);
    }
  }

  /** A settled run applies only batches that are approved as a whole. */
  lemma {:induction false} SettledBatch(d: Deps, w: World, proposals: seq<Proposal>, input: NodeInput)
    requires WorkerRegistry(d.registry) && Grants(d, w) && Settled(w.approvals, w.run)
    requires proposals <= w.row.state.proposals
    requires BatchesApproved(w.approvals, w.executed)
    ensures var batch := BatchOf(w.row.state.proposals);
            BatchesApproved(w.approvals, ApplyAll(d, w, proposals, input, 0, batch).executed)
  {
    var all := w.row.state.proposals;
    var batch := BatchOf(all);
    assert BatchApproved(w.approvals, batch) by {
      forall id | id in batch
        ensures id < |w.approvals| && w.approvals[id].status == Approved
      {
        var i :| 0 <= i < |all| && all[i].approvalId == id;
        assert Recorded(d, w.approvals, w.run, all[i]);
      }
    }
    PrefixRecorded(d, w.approvals, w.run, all, proposals);
    assert proposals[0..] == proposals;
    ApplyAllGrants(d, w, proposals, input, 0, batch);
    var after := ApplyAll(d, w, proposals, input, 0, batch).executed;
    forall e | e in after
      ensures BatchApproved(w.approvals, e.batch)
    {
      var k :| 0 <= k < |after| && after[k] == e;
      if k < |w.executed| { assert e == w.executed[k]; }
    }
  }

  lemma {:induction false} PrefixRecorded(d: Deps, approvals: seq<Approval>, run: nat, all: seq<Proposal>,
                                          some: seq<Proposal>)
    requires AllRecorded(d, approvals, run, all) && some <= all
    ensures AllRecorded(d, approvals, run, some)
    ensures forall p :: p in some ==> p in all
  {
    forall p | p in some
      ensures p in all
    {
      var i :| 0 <= i < |some| && some[i] == p;
      assert all[i] == p;
    }
  }

  /** Where a settled drive can be: at the gate with its own batch, or with nothing pending. */
  predicate DriveSettled(w: World) {
    && BatchesApproved(w.approvals, w.executed)
    && (if w.row.at.AtGateEdits? then Waiting(w.approvals, w.run, w.row.state.proposals)
        else Settled(w.approvals, w.run))
  }

  lemma {:induction false} CoderKeepsSettled(d: Deps, w: World, input: NodeInput)
    requires Grants(d, w) && DriveSettled(w) && w.row.at.AtCoder?
    ensures DriveSettled(CoderNode(d, w, input))
  {
    CoderRoundsGrants(d, w, input, 0, 0);
    var w', done := CoderNode(d, w, input), CoderRounds(d, w, input, 0, 0).w;
    assert w'.run == w.run && w'.executed == w.executed;
    assert w'.approvals == done.approvals && w'.row.state.proposals == done.row.state.proposals;
    assert w'.row.at.AtGateEdits? <==> w'.row.state.proposals != [];
    CodedSettled(w.run, w.approvals, w'.approvals, w'.row.state.proposals, w.executed);
  }

  /** Whatever a settled run appends waits in its proposals; with no proposals nothing was appended. */
  lemma {:induction false} CodedSettled(run: nat, before: seq<Approval>, after: seq<Approval>,
                                        proposals: seq<Proposal>, executed: seq<Execution>)
    requires Settled(before, run) && AppendsOwn(run, before, after) && BatchesApproved(before, executed)
    requires forall i :: |before| <= i < |after| ==> ProposedIn(proposals, i)
    ensures BatchesApproved(after, executed) && Waiting(after, run, proposals)
    ensures proposals == [] ==> Settled(after, run)
  {
    BatchesEvolve(before, after, executed);
    forall id | 0 <= id < |after| && after[id].run == run
      ensures after[id].status == Approved || (after[id].status == Undecided && ProposedIn(proposals, id))
    {
      if id < |before| { assert after[id] == before[id]; }
    }
  }

  lemma {:induction false} StepKeepsSettled(d: Deps, w: World, input: NodeInput)
    requires WorkerRegistry(d.registry) && Grants(d, w) && DriveSettled(w) && !Paused(w.row.at)
    ensures DriveSettled(Step(d, w, input))
  {
    if w.row.at.AtCoder? {
      CoderKeepsSettled(d, w, input);
    } else if w.row.at.AtApplyEdits? {
      ApplyAllFrame(d, w, w.row.state.proposals, input, 0, BatchOf(w.row.state.proposals));
      SettledBatch(d, w, w.row.state.proposals, input);
    } else {
      OtherNodes(d, w, input);
    }
  }

  lemma {:induction false} DriveKeepsSettled(d: Deps, w: World, env: nat -> NodeInput, k: nat)
    requires WorkerRegistry(d.registry) && Grants(d, w) && Control(w.row) && DriveSettled(w)
    ensures DriveSettled(Drive(d, w, env, k))
    decreases Stage(w.row.at), DebugLeft(w.row.state), StepsLeft(w.row.state), ReviewsLeft(w.row.state),
              NodeRank(w.row.at)
  {
    if !Paused(w.row.at) {
      StepKeepsSettled(d, w, env(k));
      AdvanceKeepsGrants(d, w, env(k));
      AdvanceProgress(d, w, env(k));
      DriveKeepsSettled(d, Step(d, w, env(k)), env, k + 1);
    }
  }
}
