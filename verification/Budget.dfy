/**
 The budget policy of a task, exactly: what every guarded node does, told by the task's own rule, the usage log and the
 approvals the run has consumed so far.
 */
module Budget {
  import opened Options
  import opened RunState
  import opened Gates
  import opened Graph
  import opened Chain
  import Usage

  // ----- What a run carries of its task -----

  ghost predicate SameIdentity(task: Task, s: TaskRunState) {
    s.taskId == task.taskId && s.tenantId == task.tenantId && s.traceId == task.traceId && s.graphId == task.graphId
  }

  /** The task's own settings win over its payload; every other key is the payload's, or the session's history. */
  lemma SeedIsTrusted(task: Task, prior: Option<Value>)
    ensures var s := Seed(task, prior);
      && SameIdentity(task, s) && s.currentNode == Start && s.sequence == 0
      && !s.finished && !s.awaitingApproval && s.error.None?
    ensures var data := Seed(task, prior).data;
      && Get(data, PermissionMode) == Str(task.permissionMode) && Get(data, BudgetPolicy) == Str(task.budgetPolicy)
      && (task.budgetThresholdMicros.Some? ==> Get(data, BudgetThreshold) == Int(task.budgetThresholdMicros.value))
      && (prior.Some? ==> Get(data, PriorMessages) == prior.value)
      && forall key | key !in {PermissionMode, BudgetPolicy, BudgetThreshold, PriorMessages} ::
           Get(data, key) == Get(task.inputPayload, key)
  {
  }

  /** The state is the task's, and says the task's budget rule. */
  ghost predicate Carries(task: Task, s: TaskRunState) {
    && SameIdentity(task, s) && Get(s.data, BudgetPolicy) == Str(task.budgetPolicy)
    && Get(s.data, BudgetThreshold)
       == if task.budgetThresholdMicros.Some? then Int(task.budgetThresholdMicros.value) else Null
  }

  lemma StepCarries(task: Task, g: Topology, s: TaskRunState, env: Env)
    requires forall n :: n in g.nodes ==> WellBehaved(g.nodes[n])
    requires Carries(task, s) && !s.finished && !s.awaitingApproval && Step(g, s, env).Ok?
    ensures Carries(task, Step(g, s, env).value)
  {
    StepMerges(g, s, env);
    NodeOnBudgetKeys(g.nodes[Executing(g, s)], Executing(g, s), s, env);
  }

  /** Every entry of a run is its task's, with its task's budget rule. */
  lemma {:induction false} ChainCarries(task: Task, g: Topology, log: seq<TaskRunState>, hist: seq<Cause>, k: nat,
                                        prior: Option<Value>)
    requires Disciplined(task, g) && IsChain(task, g, log, hist) && k <= |log|
    ensures Carries(task, Base(task, log, k, prior))
    decreases k
  {
    if k > 0 {
      var p := k - 1;
      assert Follows(task, g, log, hist, p);
      if hist[p].Merged? {
        ChainCarries(task, g, log, hist, p, None);
      } else {
        ChainCarries(task, g, log, hist, p, hist[p].prior);
        ReseedKeeps(Base(task, log, p, hist[p].prior), hist[p].workspace);
        StepCarries(task, g, Input(task, log, hist, p), hist[p].env);
      }
    }
  }

  ghost predicate ApprovedBefore(task: Task, g: Topology, log: seq<TaskRunState>, hist: seq<Cause>, k: nat)
    requires k <= |log| == |hist|
  {
    exists j :: 0 <= j < k && BudgetApprovedAt(task, g, log, hist, j)
  }

  lemma ApprovalRaisesFlag(g: Topology, s: TaskRunState, env: Env)
    requires !s.finished && !s.awaitingApproval && Step(g, s, env).Ok?
    requires Passage(g, s, env) && AtGuardedNode(g, s) && PendingDecision(s.data) == Some(Approve)
    ensures Truthy(Get(Step(g, s, env).value.data, BudgetGatePassed))
  {
    StepMerges(g, s, env);
  }

  /** An entry that consumes an approval raises the flag, and no entry lowers it. */
  lemma FlagStays(task: Task, g: Topology, log: seq<TaskRunState>, hist: seq<Cause>, k: nat, prior: Option<Value>)
    requires Disciplined(task, g) && IsChain(task, g, log, hist) && k < |log|
    requires (hist[k].Stepped? ==> hist[k].prior == prior)
    requires Truthy(Get(Base(task, log, k, prior).data, BudgetGatePassed)) || BudgetApprovedAt(task, g, log, hist, k)
    ensures Truthy(Get(log[k].data, BudgetGatePassed))
  {
    assert Follows(task, g, log, hist, k);
    if hist[k].Stepped? {
      var s, env := Input(task, log, hist, k), hist[k].env;
      ReseedKeeps(Base(task, log, k, prior), hist[k].workspace);
      StepOnBudgetKeys(g, s, env);
      if BudgetApprovedAt(task, g, log, hist, k) { ApprovalRaisesFlag(g, s, env); }
    }
  }

  lemma {:induction false} ApprovedStaysPassed(task: Task, g: Topology, log: seq<TaskRunState>, hist: seq<Cause>,
                                               j: nat, k: nat)
    requires Disciplined(task, g) && IsChain(task, g, log, hist) && j < k <= |log|
    requires BudgetApprovedAt(task, g, log, hist, j)
    ensures Truthy(Get(log[k - 1].data, BudgetGatePassed))
    decreases k
  {
    var p := k - 1;
    if j < p { ApprovedStaysPassed(task, g, log, hist, j, p); }
    FlagStays(task, g, log, hist, p, if hist[p].Stepped? then hist[p].prior else None);
  }

  /** The flag that lets a body overspend is up exactly when the budget gate has consumed an approval. */
  lemma PassedIffApproved(task: Task, g: Topology, log: seq<TaskRunState>, hist: seq<Cause>, k: nat, prior: Option<Value>)
    requires Disciplined(task, g) && IsChain(task, g, log, hist) && k <= |log|
    ensures Truthy(Get(Base(task, log, k, prior).data, BudgetGatePassed)) <==> ApprovedBefore(task, g, log, hist, k)
  {
    if ApprovedBefore(task, g, log, hist, k) {
      var j :| 0 <= j < k && BudgetApprovedAt(task, g, log, hist, j);
      ApprovedStaysPassed(task, g, log, hist, j, k);
    } else if Truthy(Get(Base(task, log, k, prior).data, BudgetGatePassed)) {
      var j := PassedWasApproved(task, g, log, hist, k, prior);
    }
  }

  // ----- The rule -----

  /** The task asks for its budget to be watched, and its usage can be seen. */
  ghost predicate Watched(task: Task, env: Env) {
    env.usage.Some? && (task.budgetPolicy == "gate_on_threshold" || task.budgetPolicy == "abort_on_threshold")
  }

  /** It has a positive ceiling and has spent at least that much. */
  ghost predicate OverBudget(task: Task, env: Env) {
    && Watched(task, env) && task.budgetThresholdMicros.Some?
    && 0 < task.budgetThresholdMicros.value <= Usage.Spend(env.usage.value, task.tenantId, task.taskId)
  }

  /** An operator's verdict on a budget pause waits in the state. */
  ghost predicate VerdictWaits(s: TaskRunState) {
    Get(s.data, HumanGateAt) == Str("budget") && Get(s.data, HumanDecision) in {Str("approve"), Str("reject")}
  }

  /** The run ends with an error and this update. */
  ghost predicate Ends(r: Option<NodeResult>, update: Data) {
    r.Some? && r.value.error.Some? && r.value == NodeResult(update, Some(End), false, r.value.error)
  }

  /**
   What comes before a guarded body, by the task's rule: a verdict that waits is consumed; else nothing while the task is
   unwatched, under its ceiling or approved before; else a pause or an abort, as the policy says.
   */
  ghost predicate Rule(task: Task, s: TaskRunState, env: Env, approved: bool, at: NodeId, r: Option<NodeResult>) {
    if Watched(task, env) && VerdictWaits(s) then
      if Get(s.data, HumanDecision) == Str("approve")
      then r == Some(NodeResult(map[HumanDecision := Null, HumanGateAt := Null, BudgetGatePassed := Bool(true)],
                                Some(at), false, None))
      else Ends(r, map[HumanDecision := Null, HumanGateAt := Null, BudgetExceeded := Bool(true)])
    else if approved || !OverBudget(task, env) then r.None?
    else
      var spent := Usage.Spend(env.usage.value, task.tenantId, task.taskId);
      if task.budgetPolicy == "gate_on_threshold"
      then r == Some(NodeResult(map[HumanGateAt := Str("budget"), BudgetSpent := Int(spent)], None, true, None))
      else Ends(r, map[BudgetExceeded := Bool(true), BudgetSpent := Int(spent),
                       BudgetThresholdAtAbort := Int(task.budgetThresholdMicros.value)])
  }

  /** On a state that carries its task's rule, the check is that rule. */
  lemma CheckIsRule(task: Task, s: TaskRunState, env: Env, at: NodeId)
    requires Carries(task, s)
    ensures Rule(task, s, env, Truthy(Get(s.data, BudgetGatePassed)), at, CheckBudgetPolicy(s, env.usage, at))
  {
  }

  /** The task's rule and the state's agree on what is over. */
  lemma OverBudgetIsOverThreshold(task: Task, s: TaskRunState, env: Env)
    requires Carries(task, s)
    ensures OverBudget(task, env) <==> OverThreshold(s, env)
  {
    if OverBudget(task, env) { assert Ceiling(Get(s.data, BudgetThreshold), task.budgetThresholdMicros.value); }
  }

  /** The body runs and its result is merged if the rule says nothing; else what the rule says is. */
  ghost predicate Obeys(g: Topology, s: TaskRunState, env: Env, r: Option<NodeResult>, t: TaskRunState)
    requires AtGuardedNode(g, s)
  {
    var at := Executing(g, s);
    if r.Some? then t == Resulting(s, r.value, if r.value.nextNode.Some? then r.value.nextNode.value else at)
    else
      var outcome := g.nodes[at].body(s, env);
      outcome.Returned? && exists dst :: t == Resulting(s, outcome.result, dst)
  }

  lemma StepObeys(g: Topology, s: TaskRunState, env: Env)
    requires Compiled(g) && Positioned(g, s) && AtGuardedNode(g, s) && !s.finished && !s.awaitingApproval
    requires Step(g, s, env).Ok?
    ensures Obeys(g, s, env, CheckBudgetPolicy(s, env.usage, Executing(g, s)), Step(g, s, env).value)
  {
    StepFollowsNode(g, s, env);
  }

  /** The entry is what the task's rule, the usage seen and the approvals consumed before make of a guarded node. */
  ghost predicate RuledAt(task: Task, g: Topology, log: seq<TaskRunState>, hist: seq<Cause>, k: nat)
    requires k < |log| == |hist| && hist[k].Stepped? && AtGuardedNode(g, Input(task, log, hist, k))
  {
    var s, env := Input(task, log, hist, k), hist[k].env;
    exists r ::
      Rule(task, s, env, ApprovedBefore(task, g, log, hist, k), Executing(g, s), r) && Obeys(g, s, env, r, log[k])
  }

  /** The states a check reads in a run carry the task's rule, and the approvals before. */
  lemma InputCarries(task: Task, g: Topology, log: seq<TaskRunState>, hist: seq<Cause>, k: nat)
    requires Disciplined(task, g) && IsChain(task, g, log, hist) && k < |log| && hist[k].Stepped?
    ensures var s := Input(task, log, hist, k);
      Carries(task, s) && (Truthy(Get(s.data, BudgetGatePassed)) <==> ApprovedBefore(task, g, log, hist, k))
  {
    ReseedKeeps(Base(task, log, k, hist[k].prior), hist[k].workspace);
    ChainCarries(task, g, log, hist, k, hist[k].prior);
    PassedIffApproved(task, g, log, hist, k, hist[k].prior);
  }

  lemma GuardedStepsAreRuled(task: Task, g: Topology, log: seq<TaskRunState>, hist: seq<Cause>, k: nat)
    requires Compiled(g) && Disciplined(task, g) && IsChain(task, g, log, hist) && k < |log|
    requires hist[k].Stepped? && AtGuardedNode(g, Input(task, log, hist, k))
    ensures RuledAt(task, g, log, hist, k)
  {
    assert Follows(task, g, log, hist, k);
    var s := Input(task, log, hist, k);
    InputIsPositioned(task, g, log, hist, k);
    InputCarries(task, g, log, hist, k);
    CheckIsRule(task, s, hist[k].env, Executing(g, s));
    StepObeys(g, s, hist[k].env);
  }

  /** A budget pause comes exactly where the task gates, is over its ceiling, was not approved, and no verdict waits. */
  lemma PausesExactlyOverBudget(task: Task, g: Topology, log: seq<TaskRunState>, hist: seq<Cause>, k: nat)
    requires Disciplined(task, g) && IsChain(task, g, log, hist) && k < |log|
    requires hist[k].Stepped? && AtGuardedNode(g, Input(task, log, hist, k))
    ensures BudgetPauseAt(task, g, log, hist, k) <==>
      && OverBudget(task, hist[k].env) && task.budgetPolicy == "gate_on_threshold"
      && !VerdictWaits(Input(task, log, hist, k)) && !ApprovedBefore(task, g, log, hist, k)
    ensures BudgetPauseAt(task, g, log, hist, k) ==> OverThreshold(Input(task, log, hist, k), hist[k].env)
  {
    var s := Input(task, log, hist, k);
    InputCarries(task, g, log, hist, k);
    CheckIsRule(task, s, hist[k].env, Executing(g, s));
    OverBudgetIsOverThreshold(task, s, hist[k].env);
  }
}
