/** The single choke point for tool calls (agents/application/registry.py). */
module ToolRegistry {
  import opened Common
  import opened RunDomain

  datatype Role = Viewer | Developer | Admin {
    function Rank(): nat {
      match this
      case Viewer => 1
      case Developer => 2
      case Admin => 3
    }

    predicate Satisfies(required: Role) { Rank() >= required.Rank() }
  }

  datatype ToolSpec = ToolSpec(name: string, sideEffect: SideEffect, requiredRole: Role)

  datatype ToolOutcome = Success | Error | Unavailable | Denied

  /** What the test tool would report; `Silent` when it yields no readable report. */
  datatype TestOutcome = Reported(ran: bool, passed: bool) | Silent

  /** What the outside world would answer: the schema verdict, and the provider's outcome. */
  datatype ToolReply = ToolReply(schemaOk: bool, outcome: ToolOutcome, report: TestOutcome)

  datatype Registry = Registry(byName: map<string, ToolSpec>, allowMutations: bool) {

    function SpecFor(name: string): Option<ToolSpec> {
      if name in byName then Some(byName[name]) else None
    }

    predicate Permitted(spec: ToolSpec, run: Option<nat>, approval: Option<Approval>) {
      if allowMutations then true
      else if approval.None? || approval.value.status != Approved then false
      else if approval.value.tool != spec.name then false
      else run.None? || run.value == approval.value.run
    }

    /** Decides one invocation; `ran` says whether the provider was entered. */
    function Invoke(name: string, role: Role, run: Option<nat>, approval: Option<Approval>,
                    reply: ToolReply): (v: Verdict)
      ensures v.ran && name in byName && !byName[name].sideEffect.Read? ==>
                allowMutations
                || (approval.Some? && approval.value.status == Approved
                    && approval.value.tool == byName[name].name
                    && (run.Some? ==> approval.value.run == run.value))
      ensures v.ran ==> name in byName && role.Satisfies(byName[name].requiredRole)
      ensures v.outcome.Success? ==> v.ran
    {
      match SpecFor(name)
      case None => Verdict(false, Error, false)
      case Some(spec) =>
        if !role.Satisfies(spec.requiredRole) then Verdict(false, Denied, true)
        else if !reply.schemaOk then Verdict(false, Error, false)
        else if !spec.sideEffect.Read? && !Permitted(spec, run, approval) then Verdict(false, Denied, true)
        else Verdict(true, reply.outcome, true)
    }
  }

  /**
   * The guards in their order: an unknown tool and refused arguments are errors nobody hears of, a missing role
   * or grant is an announced denial, and only past all of them the provider answers.
   */
  lemma InvokeExactly(r: Registry, name: string, role: Role, run: Option<nat>, a: Option<Approval>, reply: ToolReply)
    ensures var v := r.Invoke(name, role, run, a, reply);
            if name !in r.byName then v == Verdict(false, Error, false)
            else
              var spec := r.byName[name];
              var granted :=
                a.Some? && a.value.status == Approved && a.value.tool == spec.name
                && (run == Some(a.value.run) || run == None);
              && (v.ran <==> role.Satisfies(spec.requiredRole) && reply.schemaOk
                             && (spec.sideEffect == Read || r.allowMutations || granted))
              && (v.ran ==> v.outcome == reply.outcome && v.announced)
              && (!v.ran ==>
                    v.outcome == if role.Satisfies(spec.requiredRole) && !reply.schemaOk then Error else Denied)
              && (v.announced <==> !role.Satisfies(spec.requiredRole) || reply.schemaOk)
  {
  }

  /** Roles are ranked: a viewer satisfies only its own, an administrator all of them. */
  lemma RolesAreRanked(a: Role, b: Role)
    ensures a.Satisfies(b) <==> a == b || a == Admin || b == Viewer
  {
  }

  /** `announced` is set when a completion event is emitted. */
  datatype Verdict = Verdict(ran: bool, outcome: ToolOutcome, announced: bool)

  /** Every registered name is the name of its own specification. */
  predicate WellKeyed(byName: map<string, ToolSpec>) {
    forall name :: name in byName ==> byName[name].name == name
  }

  function LastNamed(specs: seq<ToolSpec>, name: string): Option<ToolSpec> {
    if specs == [] then None
    else if specs[|specs| - 1].name == name then Some(specs[|specs| - 1])
    else LastNamed(specs[..|specs| - 1], name)
  }

  function Flatten(providers: seq<seq<ToolSpec>>): seq<ToolSpec> {
    if providers == [] then [] else Flatten(providers[..|providers| - 1]) + providers[|providers| - 1]
  }

  /** The constructor's loop: of two tools with one name, the later registration wins. */
  method Register(providers: seq<seq<ToolSpec>>) returns (byName: map<string, ToolSpec>)
    ensures WellKeyed(byName)
    ensures forall name :: LastNamed(Flatten(providers), name) ==
                           if name in byName then Some(byName[name]) else None
  {
    byName := map[];
    for i := 0 to |providers|
      invariant WellKeyed(byName)
      invariant forall name :: LastNamed(Flatten(providers[..i]), name) ==
                               if name in byName then Some(byName[name]) else None
    {
      ghost var before := Flatten(providers[..i]);
      assert before + providers[i][..0] == before;
      for j := 0 to |providers[i]|
        invariant WellKeyed(byName)
        invariant forall name :: LastNamed(before + providers[i][..j], name) ==
                                 if name in byName then Some(byName[name]) else None
      {
        var spec := providers[i][j];
        byName := byName[spec.name := spec];
        ghost var seen := before + providers[i][..j];
        assert before + providers[i][..j + 1] == seen + [spec];
        assert (seen + [spec])[..|seen + [spec]| - 1] == seen;
      }
      assert before + providers[i][..|providers[i]|] == before + providers[i];
      assert providers[..i + 1][..i] == providers[..i];
      assert Flatten(providers[..i + 1]) == before + providers[i];
    }
    assert providers[..|providers|] == providers;
  }
}
