/**
 Nodes: ordinary bodies, the human gate, and bodies guarded by the per-task budget policy.
 */
module Gates {
  import opened Options
  import opened RunState
  import Usage

  datatype NodeResult = NodeResult(
    dataUpdate: Data, nextNode: Option<NodeId>, awaitingApproval: bool, error: Option<string>)

  /** What one invocation does: return, or raise. */
  datatype Outcome = Returned(result: NodeResult) | Raised

  /**
   What a node can observe besides its state: the usage log (absent when none is wired) and anything else,
   such as a model's answer, behind one opaque value.
   */
  datatype Env = Env(usage: Option<seq<Usage.UsageRow>>, oracle: int)

  type NodeFn = (TaskRunState, Env) -> Outcome

  datatype Node =
    | Plain(body: NodeFn)
    | HumanGate(gateId: string, whenApproved: NodeId, whenRejected: Option<NodeId>)
    | BudgetGuarded(body: NodeFn)

  const BUDGET_GATE_ID := "budget"

  /** The gate node: consume a decision, or pause. */
  function RunHumanGate(gateId: string, whenApproved: NodeId, whenRejected: Option<NodeId>, s: TaskRunState): NodeResult
  {
    var clear := map[HumanDecision := Null, HumanGateAt := Null];
    match PendingDecision(s.data)
    case Some(Approve) => NodeResult(clear, Some(whenApproved), false, None)
    case Some(Reject) =>
      if whenRejected.None? then NodeResult(clear[RejectedByHuman := Bool(true)], Some(End), false, None)
      else NodeResult(clear[RejectedWithFeedback := Bool(true)], whenRejected, false, None)
    case None => NodeResult(map[HumanGateAt := Str(gateId)], None, true, None)
  }

  predicate PolicyActive(data: Data) {
    Get(data, BudgetPolicy) == Str("gate_on_threshold") || Get(data, BudgetPolicy) == Str("abort_on_threshold")
  }

  /** The positive ceiling, if the state carries one. */
  function Threshold(data: Data): Option<int> {
    var n := AsInt(Get(data, BudgetThreshold));
    if n.Some? && n.value > 0 then n else None
  }

  /** A decision for the budget gate is waiting to be consumed. */
  predicate AtBudgetGate(data: Data) {
    Get(data, HumanGateAt) == Str(BUDGET_GATE_ID) && PendingDecision(data).Some?
  }

  /** `None` lets the guarded body run; anything else must be returned verbatim. */
  function CheckBudgetPolicy(s: TaskRunState, usage: Option<seq<Usage.UsageRow>>, thisNode: NodeId): Option<NodeResult>
  {
    if usage.None? || !PolicyActive(s.data) then None
    else if AtBudgetGate(s.data) then
      var clear := map[HumanDecision := Null, HumanGateAt := Null];
      if PendingDecision(s.data) == Some(Approve) then
        Some(NodeResult(clear[BudgetGatePassed := Bool(true)], Some(thisNode), false, None))
      else
        Some(NodeResult(clear[BudgetExceeded := Bool(true)], Some(End), false,
                        Some("budget gate rejected by operator")))
    else if Threshold(s.data).None? then None
    else if Truthy(Get(s.data, BudgetGatePassed)) then None
    else
      var spent := Usage.Spend(usage.value, s.tenantId, s.taskId);
      var threshold := Threshold(s.data).value;
      if spent < threshold then None
      else if Get(s.data, BudgetPolicy) == Str("abort_on_threshold") then
        Some(NodeResult(map[BudgetExceeded := Bool(true), BudgetSpent := Int(spent),
                            BudgetThresholdAtAbort := Int(threshold)],
                        Some(End), false, Some("budget exceeded")))
      else
        Some(NodeResult(map[HumanGateAt := Str(BUDGET_GATE_ID), BudgetSpent := Int(spent)], None, true, None))
  }

  function Execute(node: Node, name: NodeId, s: TaskRunState, env: Env): Outcome {
    match node
    case Plain(body) => body(s, env)
    case HumanGate(gateId, whenApproved, whenRejected) =>
      Returned(RunHumanGate(gateId, whenApproved, whenRejected, s))
    case BudgetGuarded(body) =>
      var verdict := CheckBudgetPolicy(s, env.usage, name);
      if verdict.Some? then Returned(verdict.value) else body(s, env)
  }

  /** The keys the gates and the gateway own. */
  const RESERVED: set<Key> := {HumanDecision, HumanGateAt, BudgetPolicy, BudgetThreshold, BudgetGatePassed}

  /** A body leaves the gates' keys alone. */
  ghost predicate KeepsReserved(body: NodeFn) {
    forall s, env :: body(s, env).Returned? ==> body(s, env).result.dataUpdate.Keys !! RESERVED
  }

  ghost predicate WellBehaved(node: Node) {
    match node
    case HumanGate(_, _, _) => true
    case Plain(body) => KeepsReserved(body)
    case BudgetGuarded(body) => KeepsReserved(body)
  }
}
