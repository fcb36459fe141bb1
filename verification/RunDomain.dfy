/** The run lifecycle, budgets, plans and approvals (agents/domain/runs.py). */
module RunDomain {
  import opened Common
  import Text

  datatype RunStatus =
    | Pending | Planning | AwaitingApproval | Running
    | NeedsHuman | Completed | Failed | Cancelled

  const TERMINAL: set<RunStatus> := {Completed, Failed, Cancelled}

  function Transitions(current: RunStatus): set<RunStatus> {
    match current
    case Pending => {Planning, Cancelled, Failed}
    case Planning => {AwaitingApproval, Running, Failed, Cancelled}
    case AwaitingApproval => {Running, Cancelled, Failed, NeedsHuman}
    case Running => {AwaitingApproval, NeedsHuman, Completed, Failed, Cancelled}
    case NeedsHuman => {Running, Cancelled, Failed}
    case _ => {}
  }

  predicate CanTransition(current: RunStatus, target: RunStatus) {
    target in Transitions(current)
  }

  predicate IsTerminal(status: RunStatus) { status in TERMINAL }

  /** Graph nodes may write the status a run already has; nothing else is skipped over. */
  predicate AllowedOrSame(current: RunStatus, target: RunStatus) {
    current == target || CanTransition(current, target)
  }

  datatype RunBudget = RunBudget(
    maxSteps: int, maxTokens: int, maxCost: real,
    stepsUsed: int, tokensUsed: int, costUsed: real)
  {
    predicate Exhausted() {
      stepsUsed >= maxSteps || tokensUsed >= maxTokens || costUsed >= maxCost
    }
  }

  datatype PlanStep = PlanStep(index: int, title: string)

  datatype Plan = Plan(version: nat, steps: seq<PlanStep>)

  const MAX_STEPS: nat := 12

  predicate Bullet(c: char) { c == ' ' || c == '-' || c == '*' || c == '\t' }

  predicate NotBlank(line: string) { Text.Strip(line, Text.IsSpace) != "" }

  function PlanLines(lines: seq<string>): seq<string> {
    if lines == [] then []
    else (if NotBlank(lines[0]) then [Text.Strip(lines[0], Bullet)] else []) + PlanLines(lines[1..])
  }

  /** The drafted plan: at most twelve steps, numbered in order, and never empty. */
  function ParsePlan(lines: seq<string>): (steps: seq<PlanStep>)
    ensures 1 <= |steps| <= MAX_STEPS
    ensures forall i :: 0 <= i < |steps| ==> steps[i].index == i && |steps[i].title| <= 200
  {
    var kept := Take(PlanLines(lines), MAX_STEPS);
    var titles := if kept == [] then ["Complete the goal"] else kept;
    seq(|titles|, i requires 0 <= i < |titles| => PlanStep(i, Take(titles[i], 200)))
  }

  datatype SideEffect = Read | Write | Destructive

  datatype ApprovalStatus = Undecided | Approved | Rejected

  /** An approval is identified by its position in the store, so identifiers are never reused. */
  datatype Approval = Approval(
    run: nat, tool: string, sideEffect: SideEffect, preview: string,
    status: ApprovalStatus, decidedBy: Option<nat>)

  /** Tool-call arguments: their JSON dump, and the value under "path" when it is a string. */
  datatype Arguments = Arguments(json: string, path: Option<string>)

  function Preview(arguments: Arguments): string { Take(arguments.json, 500) }
}
