/**
 What a task's checkpoint log means: a chain in which every entry is one graph step, or one merged operator
 verdict, on top of the entry before it.  Approval, budget and replay guarantees are properties of such chains.
 */
module Chain {
  import opened Options
  import opened RunState
  import opened Gates
  import opened Graph

  datatype Task = Task(
    taskId: string, tenantId: string, traceId: string, graphId: string, inputPayload: Data,
    permissionMode: string, budgetPolicy: string, budgetThresholdMicros: Option<nat>)

  /** The state of a task that has no checkpoint yet; `prior` is the session history, when there is any. */
  function Seed(task: Task, prior: Option<Value>): TaskRunState {
    var trusted := task.inputPayload[PermissionMode := Str(task.permissionMode)]
                                    [BudgetPolicy := Str(task.budgetPolicy)];
    var budgeted := if task.budgetThresholdMicros.Some?
                    then trusted[BudgetThreshold := Int(task.budgetThresholdMicros.value)] else trusted;
    var data := if prior.Some? then budgeted[PriorMessages := prior.value] else budgeted;
    TaskRunState(task.taskId, task.tenantId, task.traceId, task.graphId, Start, 0, data, false, false, None)
  }

  /** How a checkpoint came to be. */
  datatype Cause =
    | Stepped(prior: Option<Value>, workspace: Option<Workspace>, env: Env)
    | Merged(verdict: Verdict)

  /** The state entry `k` was built on, before any workspace is stamped. */
  ghost function Base(task: Task, log: seq<TaskRunState>, k: nat, prior: Option<Value>): TaskRunState
    requires k <= |log|
  {
    if k == 0 then Seed(task, prior) else log[k - 1]
  }

  /** The state the executed node saw. */
  ghost function Input(task: Task, log: seq<TaskRunState>, hist: seq<Cause>, k: nat): TaskRunState
    requires k < |log| == |hist| && hist[k].Stepped?
  {
    Reseed(Base(task, log, k, hist[k].prior), hist[k].workspace)
  }

  ghost predicate Follows(task: Task, g: Topology, log: seq<TaskRunState>, hist: seq<Cause>, k: nat)
    requires k < |log| == |hist|
  {
    match hist[k]
    case Stepped(_, _, env) =>
      var s := Input(task, log, hist, k);
      !s.finished && !s.awaitingApproval && Step(g, s, env) == Ok(log[k])
    case Merged(verdict) =>
      k > 0 && log[k] == MergeDecision(log[k - 1], verdict, k + 1)
  }

  /** One unbranched chain, numbered from 1 without gap or repeat. */
  ghost predicate IsChain(task: Task, g: Topology, log: seq<TaskRunState>, hist: seq<Cause>) {
    && |log| == |hist|
    && (forall k :: 0 <= k < |log| ==> Follows(task, g, log, hist, k))
    && (forall k :: 0 <= k < |log| ==> log[k].sequence == k + 1)
  }

  // ----- Position -----

  /**
   In every chain over a compiled graph: `finished` holds exactly at the end sentinel, a paused entry sits on a
   registered node, and no entry is back at the start.
   */
  lemma {:induction false} ChainKeepsPosition(task: Task, g: Topology, log: seq<TaskRunState>, hist: seq<Cause>, k: nat)
    requires Compiled(g) && IsChain(task, g, log, hist) && k < |log|
    ensures Positioned(g, log[k]) && log[k].currentNode != Start
    decreases k
  {
    assert Follows(task, g, log, hist, k);
    if k > 0 { ChainKeepsPosition(task, g, log, hist, k - 1); }
    if hist[k].Stepped? {
      StepKeepsPosition(g, Input(task, log, hist, k), hist[k].env);
    }
  }

  /** Every verdict was merged onto a paused entry. */
  ghost predicate DecidedOnlyAtPauses(log: seq<TaskRunState>, hist: seq<Cause>)
    requires |log| == |hist|
  {
    forall k :: 0 < k < |log| && hist[k].Merged? ==> log[k - 1].awaitingApproval
  }

  /** One more entry keeps the discipline exactly when it is no verdict on an entry that is not paused. */
  lemma GrownDecided(log: seq<TaskRunState>, hist: seq<Cause>, next: TaskRunState, cause: Cause)
    requires |log| == |hist|
    ensures DecidedOnlyAtPauses(log + [next], hist + [cause])
       <==> DecidedOnlyAtPauses(log, hist) && (cause.Merged? && log != [] ==> log[|log| - 1].awaitingApproval)
  {
    var grown, causes := log + [next], hist + [cause];
    if DecidedOnlyAtPauses(grown, causes) {
      forall k | 0 < k < |log| && hist[k].Merged? ensures log[k - 1].awaitingApproval {
        assert causes[k] == hist[k] && grown[k - 1].awaitingApproval;
      }
      assert log != [] ==> causes[|log|] == cause && grown[|log| - 1] == log[|log| - 1];
    } else {
      var k :| 0 < k < |grown| && causes[k].Merged? && !grown[k - 1].awaitingApproval;
      assert k < |log| ==> hist[k].Merged? && !log[k - 1].awaitingApproval;
    }
  }

  lemma FinishedIsLast(task: Task, g: Topology, log: seq<TaskRunState>, hist: seq<Cause>, k: nat)
    requires Compiled(g) && IsChain(task, g, log, hist) && DecidedOnlyAtPauses(log, hist)
    requires k < |log| && log[k].finished
    ensures k == |log| - 1
  {
    ChainKeepsPosition(task, g, log, hist, k);
    assert k + 1 < |log| ==> Follows(task, g, log, hist, k + 1);
  }

  /** Entry `j` is the step of a node whose result led to the end, with this error. */
  ghost predicate EndsAt(task: Task, g: Topology, log: seq<TaskRunState>, hist: seq<Cause>, j: nat, error: Option<string>)
    requires j < |log| == |hist|
  {
    && hist[j].Stepped? && g.entry.Some?
    && var s := Input(task, log, hist, j);
       var at := Executing(g, s);
       && at in g.nodes && at in g.edges
       && match Execute(g.nodes[at], at, s, hist[j].env)
          case Raised => false
          case Returned(r) => !r.awaitingApproval && Destination(g, s, r, at) == End && r.error == error
  }

  lemma InputIsPositioned(task: Task, g: Topology, log: seq<TaskRunState>, hist: seq<Cause>, k: nat)
    requires Compiled(g) && IsChain(task, g, log, hist) && k < |log| && hist[k].Stepped?
    ensures var s := Input(task, log, hist, k); Positioned(g, s) && !s.finished && !s.awaitingApproval
  {
    assert Follows(task, g, log, hist, k);
    if k > 0 { ChainKeepsPosition(task, g, log, hist, k - 1); }
  }

  /** A finished entry was brought to the end by some node, and carries the error that node returned. */
  lemma {:induction false} FinishedBy(task: Task, g: Topology, log: seq<TaskRunState>, hist: seq<Cause>, k: nat)
      returns (j: nat)
    requires Compiled(g) && IsChain(task, g, log, hist) && k < |log| && log[k].finished
    ensures j <= k && EndsAt(task, g, log, hist, j, log[k].error)
    ensures DecidedOnlyAtPauses(log, hist) ==> j == k
    decreases k
  {
    assert Follows(task, g, log, hist, k);
    if hist[k].Stepped? {
      j := k;
      InputIsPositioned(task, g, log, hist, k);
      StepFollowsNode(g, Input(task, log, hist, k), hist[k].env);
      ChainKeepsPosition(task, g, log, hist, k);
    } else {
      ChainKeepsPosition(task, g, log, hist, k - 1);
      j := FinishedBy(task, g, log, hist, k - 1);
    }
  }

  // ----- Approvals -----

  /** Payload and node bodies leave the reserved keys to the gates and the gateway. */
  ghost predicate Disciplined(task: Task, g: Topology) {
    && task.inputPayload.Keys !! RESERVED
    && (forall n :: n in g.nodes ==> WellBehaved(g.nodes[n]))
  }

  /** The step consumes an operator's decision at a human gate or at the budget gate. */
  ghost predicate Passage(g: Topology, s: TaskRunState, env: Env) {
    && g.entry.Some? && Executing(g, s) in g.nodes
    && match g.nodes[Executing(g, s)]
       case Plain(_) => false
       case HumanGate(_, _, _) => PendingDecision(s.data).Some?
       case BudgetGuarded(_) => env.usage.Some? && PolicyActive(s.data) && AtBudgetGate(s.data)
  }

  ghost predicate PassageAt(task: Task, g: Topology, log: seq<TaskRunState>, hist: seq<Cause>, k: nat)
    requires k < |log| == |hist|
  {
    hist[k].Stepped? && Passage(g, Input(task, log, hist, k), hist[k].env)
  }

  /** A step that succeeds merges exactly the executed node's update. */
  lemma StepMerges(g: Topology, s: TaskRunState, env: Env)
    requires !s.finished && !s.awaitingApproval && Step(g, s, env).Ok?
    ensures g.entry.Some? && Executing(g, s) in g.nodes
    ensures var outcome := Execute(g.nodes[Executing(g, s)], Executing(g, s), s, env);
      outcome.Returned? && Step(g, s, env).value.data == s.data + outcome.result.dataUpdate
  {
  }

  lemma NodeOnDecision(node: Node, name: NodeId, s: TaskRunState, env: Env)
    requires WellBehaved(node) && Execute(node, name, s, env).Returned?
    ensures var update := Execute(node, name, s, env).result.dataUpdate;
      var consumed := PendingDecision(s.data).Some? && (node.HumanGate? ||
        (node.BudgetGuarded? && env.usage.Some? && PolicyActive(s.data) && AtBudgetGate(s.data)));
      if consumed then HumanDecision in update && update[HumanDecision] == Null else HumanDecision !in update
  {
  }

  /** A passage clears the decision; every other step leaves it as it was. */
  lemma StepOnDecision(g: Topology, s: TaskRunState, env: Env)
    requires forall n :: n in g.nodes ==> WellBehaved(g.nodes[n])
    requires !s.finished && !s.awaitingApproval && Step(g, s, env).Ok?
    ensures var t := Step(g, s, env).value;
      if Passage(g, s, env) then PendingDecision(t.data).None?
      else PendingDecision(t.data) == PendingDecision(s.data)
  {
    StepMerges(g, s, env);
    NodeOnDecision(g.nodes[Executing(g, s)], Executing(g, s), s, env);
  }

  lemma ReseedKeeps(s: TaskRunState, workspace: Option<Workspace>)
    ensures Reseed(s, workspace).(data := s.data) == s
    ensures forall key :: key !in WORKSPACE_KEYS ==> Get(Reseed(s, workspace).data, key) == Get(s.data, key)
    ensures PendingDecision(Reseed(s, workspace).data) == PendingDecision(s.data)
    ensures Similar(Reseed(s, workspace), s)
    ensures workspace.Some? ==> && Get(Reseed(s, workspace).data, WorkspacePath) == Str(workspace.value.worktreePath)
                                && Get(Reseed(s, workspace).data, WorkspaceBranch) == Str(workspace.value.branch)
  {
    assert SameData(Reseed(s, workspace).data, s.data);
  }

  ghost predicate QuietBetween(task: Task, g: Topology, log: seq<TaskRunState>, hist: seq<Cause>, j: nat, k: nat)
    requires k <= |log| == |hist|
  {
    forall i :: j < i < k ==> hist[i].Stepped? && !PassageAt(task, g, log, hist, i)
  }

  /** Entry `j` merged `decision`, and nothing merged or consumed a decision between it and entry `k`. */
  ghost predicate DecidedAt(task: Task, g: Topology, log: seq<TaskRunState>, hist: seq<Cause>,
                            j: nat, k: nat, decision: Decision)
    requires k <= |log| == |hist|
  {
    j < k && hist[j].Merged? && hist[j].verdict.decision == decision && QuietBetween(task, g, log, hist, j, k)
  }

  /** A pending decision is always the newest verdict the gateway merged, not yet consumed. */
  lemma {:induction false} PendingHasSource(task: Task, g: Topology, log: seq<TaskRunState>, hist: seq<Cause>,
                                            k: nat, prior: Option<Value>)
      returns (j: nat)
    requires Disciplined(task, g) && IsChain(task, g, log, hist) && k <= |log|
    requires PendingDecision(Base(task, log, k, prior).data).Some?
    ensures DecidedAt(task, g, log, hist, j, k, PendingDecision(Base(task, log, k, prior).data).value)
    decreases k
  {
    var p := k - 1;
    assert Follows(task, g, log, hist, p);
    if hist[p].Merged? {
      j := p;
    } else {
      var s := Input(task, log, hist, p);
      StepOnDecision(g, s, hist[p].env);
      ReseedKeeps(Base(task, log, p, hist[p].prior), hist[p].workspace);
      j := PendingHasSource(task, g, log, hist, p, hist[p].prior);
    }
  }

  /**
   No gate is passed without its own operator decision: each passage has a merged verdict before it, with no
   other passage and no other verdict in between, so two passages never share a verdict.
   */
  lemma PassageHasOwnDecision(task: Task, g: Topology, log: seq<TaskRunState>, hist: seq<Cause>, k: nat)
      returns (j: nat)
    requires Disciplined(task, g) && IsChain(task, g, log, hist) && k < |log|
    requires PassageAt(task, g, log, hist, k)
    ensures PendingDecision(Input(task, log, hist, k).data).Some?
    ensures DecidedAt(task, g, log, hist, j, k, PendingDecision(Input(task, log, hist, k).data).value)
    ensures forall k': nat, j': nat, d | j' < k' < k && PassageAt(task, g, log, hist, k') ::
      DecidedAt(task, g, log, hist, j', k', d) ==> j' != j
  {
    ReseedKeeps(Base(task, log, k, hist[k].prior), hist[k].workspace);
    j := PendingHasSource(task, g, log, hist, k, hist[k].prior);
  }

  /** Leaving a human gate takes a verdict of that gate's own, and the verdict decides where the run goes. */
  lemma LeavingHumanGate(task: Task, g: Topology, log: seq<TaskRunState>, hist: seq<Cause>, k: nat)
      returns (j: nat)
    requires Disciplined(task, g) && IsChain(task, g, log, hist) && k < |log|
    requires hist[k].Stepped? && !log[k].awaitingApproval && g.entry.Some?
    requires var at := Executing(g, Input(task, log, hist, k)); at in g.nodes && g.nodes[at].HumanGate?
    ensures j < k && hist[j].Merged? && DecidedAt(task, g, log, hist, j, k, hist[j].verdict.decision)
    ensures PendingDecision(Input(task, log, hist, k).data) == Some(hist[j].verdict.decision) && log[k].error.None?
    ensures var gate := g.nodes[Executing(g, Input(task, log, hist, k))];
      log[k].currentNode ==
        match hist[j].verdict.decision
        case Approve => gate.whenApproved
        case Reject => if gate.whenRejected.None? then End else gate.whenRejected.value
  {
    assert Follows(task, g, log, hist, k);
    j := PassageHasOwnDecision(task, g, log, hist, k);
  }

  /** A human gate pauses exactly while no verdict waits, says which gate it is, and changes nothing else. */
  lemma HumanGateWaits(task: Task, g: Topology, log: seq<TaskRunState>, hist: seq<Cause>, k: nat)
    requires Compiled(g) && IsChain(task, g, log, hist) && k < |log| && hist[k].Stepped?
    requires var at := Executing(g, Input(task, log, hist, k)); at in g.nodes && g.nodes[at].HumanGate?
    ensures var s := Input(task, log, hist, k);
      var at := Executing(g, s);
      && (log[k].awaitingApproval <==> PendingDecision(s.data).None?)
      && (log[k].awaitingApproval ==> log[k] == s.(currentNode := at, sequence := k + 1, awaitingApproval := true,
            error := None, data := s.data[HumanGateAt := Str(g.nodes[at].gateId)]))
  {
    assert Follows(task, g, log, hist, k);
    InputIsPositioned(task, g, log, hist, k);
    StepFollowsNode(g, Input(task, log, hist, k), hist[k].env);
  }

  // ----- Feedback -----

  /** Bodies leave the operator's feedback alone. */
  ghost predicate KeepsFeedback(g: Topology) {
    forall n, s, env :: n in g.nodes && !g.nodes[n].HumanGate? && g.nodes[n].body(s, env).Returned? ==>
                          HumanFeedback !in g.nodes[n].body(s, env).result.dataUpdate
  }

  lemma StepKeepsFeedback(g: Topology, s: TaskRunState, env: Env)
    requires KeepsFeedback(g) && !s.finished && !s.awaitingApproval && Step(g, s, env).Ok?
    ensures Get(Step(g, s, env).value.data, HumanFeedback) == Get(s.data, HumanFeedback)
  {
    StepMerges(g, s, env);
    var node := g.nodes[Executing(g, s)];
    assert HumanFeedback !in Execute(node, Executing(g, s), s, env).result.dataUpdate;
  }

  /** From a merged verdict on, as long as no other is merged, every step reads and leaves its feedback. */
  lemma {:induction false} FeedbackStays(task: Task, g: Topology, log: seq<TaskRunState>, hist: seq<Cause>, j: nat, k: nat)
    requires KeepsFeedback(g) && IsChain(task, g, log, hist) && j <= k < |log|
    requires forall i :: j < i <= k ==> hist[i].Stepped?
    ensures Get(log[k].data, HumanFeedback) == Get(log[j].data, HumanFeedback)
    decreases k
  {
    if j < k {
      FeedbackStays(task, g, log, hist, j, k - 1);
      assert Follows(task, g, log, hist, k);
      ReseedKeeps(log[k - 1], hist[k].workspace);
      StepKeepsFeedback(g, Input(task, log, hist, k), hist[k].env);
    }
  }

  /** The way a rejection went is flagged; a flag nobody sets stays as it was. */
  ghost predicate Flags(gate: Node, before: Data, after: Data)
    requires gate.HumanGate?
  {
    var rejected := PendingDecision(before) == Some(Reject);
    && Get(after, RejectedByHuman)
       == (if rejected && gate.whenRejected.None? then Bool(true) else Get(before, RejectedByHuman))
    && Get(after, RejectedWithFeedback)
       == (if rejected && gate.whenRejected.Some? then Bool(true) else Get(before, RejectedWithFeedback))
  }

  lemma PassedGateData(g: Topology, s: TaskRunState, env: Env)
    requires !s.finished && !s.awaitingApproval && Step(g, s, env).Ok? && !Step(g, s, env).value.awaitingApproval
    requires g.entry.Some? && Executing(g, s) in g.nodes && g.nodes[Executing(g, s)].HumanGate?
    ensures var data := Step(g, s, env).value.data;
      && Get(data, HumanDecision) == Null && Get(data, HumanGateAt) == Null
      && Flags(g.nodes[Executing(g, s)], s.data, data)
  {
    StepMerges(g, s, env);
    assert PendingDecision(s.data).Some?;
  }

  /**
   What a passed human gate hands to the next node: the decision and its marker cleared, a rejection flagged by the way
   it went, and the feedback the operator gave with the verdict.
   */
  ghost predicate HandsOn(gate: Node, verdict: Verdict, before: Data, after: Data)
    requires gate.HumanGate?
  {
    && Get(after, HumanDecision) == Null && Get(after, HumanGateAt) == Null
    && Flags(gate, before, after) && PendingDecision(before) == Some(verdict.decision)
    && (verdict.feedback.Some? ==> Get(after, HumanFeedback) == Str(verdict.feedback.value))
  }

  /** A run that leaves a human gate hands on what the verdict it left on brought. */
  lemma GateHandsOnVerdict(task: Task, g: Topology, log: seq<TaskRunState>, hist: seq<Cause>, k: nat, j: nat)
    requires KeepsFeedback(g) && IsChain(task, g, log, hist) && k < |log|
    requires hist[k].Stepped? && !log[k].awaitingApproval && g.entry.Some?
    requires var at := Executing(g, Input(task, log, hist, k)); at in g.nodes && g.nodes[at].HumanGate?
    requires j < k && hist[j].Merged? && DecidedAt(task, g, log, hist, j, k, hist[j].verdict.decision)
    requires PendingDecision(Input(task, log, hist, k).data) == Some(hist[j].verdict.decision)
    ensures var input := Input(task, log, hist, k);
      HandsOn(g.nodes[Executing(g, input)], hist[j].verdict, input.data, log[k].data)
  {
    assert Follows(task, g, log, hist, j) && Follows(task, g, log, hist, k);
    PassedGateData(g, Input(task, log, hist, k), hist[k].env);
    FeedbackStays(task, g, log, hist, j, k);
  }

  ghost function Passages(task: Task, g: Topology, log: seq<TaskRunState>, hist: seq<Cause>, k: nat): nat
    requires k <= |log| == |hist|
  {
    if k == 0 then 0
    else Passages(task, g, log, hist, k - 1) + if PassageAt(task, g, log, hist, k - 1) then 1 else 0
  }

  ghost function Verdicts(hist: seq<Cause>, k: nat): nat
    requires k <= |hist|
  {
    if k == 0 then 0 else Verdicts(hist, k - 1) + if hist[k - 1].Merged? then 1 else 0
  }

  /** Approvals are conserved: passages plus a pending decision never exceed the verdicts merged so far. */
  lemma {:induction false} ApprovalsConserved(task: Task, g: Topology, log: seq<TaskRunState>, hist: seq<Cause>,
                                              k: nat, prior: Option<Value>)
    requires Disciplined(task, g) && IsChain(task, g, log, hist) && k <= |log|
    ensures Passages(task, g, log, hist, k)
            + (if PendingDecision(Base(task, log, k, prior).data).Some? then 1 else 0)
            <= Verdicts(hist, k)
    decreases k
  {
    if k > 0 {
      var p := k - 1;
      assert Follows(task, g, log, hist, p);
      if hist[p].Merged? {
        ApprovalsConserved(task, g, log, hist, p, None);
      } else {
        ApprovalsConserved(task, g, log, hist, p, hist[p].prior);
        StepOnDecision(g, Input(task, log, hist, p), hist[p].env);
        ReseedKeeps(Base(task, log, p, hist[p].prior), hist[p].workspace);
      }
    }
  }

  // ----- Budget -----

  ghost predicate AtGuardedNode(g: Topology, s: TaskRunState) {
    g.entry.Some? && Executing(g, s) in g.nodes && g.nodes[Executing(g, s)].BudgetGuarded?
  }

  /** A positive ceiling; true counts as one. */
  ghost predicate Ceiling(v: Value, n: int) {
    n > 0 && (v == Int(n) || (v == Bool(true) && n == 1))
  }

  /** The policy is on, the ceiling is positive, and the task has spent at least that much. */
  ghost predicate OverThreshold(s: TaskRunState, env: Env) {
    && env.usage.Some? && Get(s.data, BudgetPolicy) in {Str("gate_on_threshold"), Str("abort_on_threshold")}
    && exists n :: Ceiling(Get(s.data, BudgetThreshold), n) && Usage.Spend(env.usage.value, s.tenantId, s.taskId) >= n
  }

  /**
   With no verdict waiting for it, the budget gate lets the body run exactly while the task is under its threshold or has
   passed the gate; else it pauses or ends the run with an error, by the policy.
   */
  lemma GateActsIffOver(s: TaskRunState, env: Env, name: NodeId)
    requires !AtBudgetGate(s.data)
    ensures var r := CheckBudgetPolicy(s, env.usage, name);
      && (r.Some? <==> OverThreshold(s, env) && !Truthy(Get(s.data, BudgetGatePassed)))
      && (r.Some? ==>
            && (r.value.awaitingApproval <==> Get(s.data, BudgetPolicy) == Str("gate_on_threshold"))
            && (!r.value.awaitingApproval ==> r.value.nextNode == Some(End) && r.value.error.Some?))
  {
    var n := Threshold(s.data);
    assert n.Some? ==> Ceiling(Get(s.data, BudgetThreshold), n.value);
  }

  ghost predicate BodyRunsAt(task: Task, g: Topology, log: seq<TaskRunState>, hist: seq<Cause>, k: nat)
    requires k < |log| == |hist|
  {
    && hist[k].Stepped?
    && var s := Input(task, log, hist, k);
       AtGuardedNode(g, s) && CheckBudgetPolicy(s, hist[k].env.usage, Executing(g, s)).None?
  }

  ghost predicate BudgetPauseAt(task: Task, g: Topology, log: seq<TaskRunState>, hist: seq<Cause>, k: nat)
    requires k < |log| == |hist|
  {
    && hist[k].Stepped?
    && var s := Input(task, log, hist, k);
       && AtGuardedNode(g, s)
       && var r := CheckBudgetPolicy(s, hist[k].env.usage, Executing(g, s));
          r.Some? && r.value.awaitingApproval
  }

  /** The budget gate consumed an approval. */
  ghost predicate BudgetApprovedAt(task: Task, g: Topology, log: seq<TaskRunState>, hist: seq<Cause>, k: nat)
    requires k < |log| == |hist|
  {
    && PassageAt(task, g, log, hist, k)
    && AtGuardedNode(g, Input(task, log, hist, k))
    && PendingDecision(Input(task, log, hist, k).data) == Some(Approve)
  }

  lemma NodeOnBudgetKeys(node: Node, name: NodeId, s: TaskRunState, env: Env)
    requires WellBehaved(node) && Execute(node, name, s, env).Returned?
    ensures var update := Execute(node, name, s, env).result.dataUpdate;
      && BudgetPolicy !in update && BudgetThreshold !in update
      && (BudgetGatePassed in update ==>
            && update[BudgetGatePassed] == Bool(true) && node.BudgetGuarded? && env.usage.Some?
            && PolicyActive(s.data) && AtBudgetGate(s.data) && PendingDecision(s.data) == Some(Approve))
  {
  }

  /** Only the budget gate's approval raises the passed flag, and nothing lowers it or changes the policy. */
  lemma StepOnBudgetKeys(g: Topology, s: TaskRunState, env: Env)
    requires forall n :: n in g.nodes ==> WellBehaved(g.nodes[n])
    requires !s.finished && !s.awaitingApproval && Step(g, s, env).Ok?
    ensures var t := Step(g, s, env).value;
      && Get(t.data, BudgetPolicy) == Get(s.data, BudgetPolicy)
      && (Truthy(Get(s.data, BudgetGatePassed)) ==> Truthy(Get(t.data, BudgetGatePassed)))
      && (Truthy(Get(t.data, BudgetGatePassed)) ==>
            || Truthy(Get(s.data, BudgetGatePassed))
            || (Passage(g, s, env) && AtGuardedNode(g, s) && PendingDecision(s.data) == Some(Approve)))
  {
    StepMerges(g, s, env);
    NodeOnBudgetKeys(g.nodes[Executing(g, s)], Executing(g, s), s, env);
  }

  lemma {:induction false} PassedWasApproved(task: Task, g: Topology, log: seq<TaskRunState>, hist: seq<Cause>,
                                             k: nat, prior: Option<Value>)
      returns (j: nat)
    requires Disciplined(task, g) && IsChain(task, g, log, hist) && k <= |log|
    requires Truthy(Get(Base(task, log, k, prior).data, BudgetGatePassed))
    ensures j < k && BudgetApprovedAt(task, g, log, hist, j)
    decreases k
  {
    var p := k - 1;
    assert Follows(task, g, log, hist, p);
    if hist[p].Merged? {
      j := PassedWasApproved(task, g, log, hist, p, None);
    } else {
      StepOnBudgetKeys(g, Input(task, log, hist, p), hist[p].env);
      ReseedKeeps(Base(task, log, p, hist[p].prior), hist[p].workspace);
      if BudgetApprovedAt(task, g, log, hist, p) {
        j := p;
      } else {
        j := PassedWasApproved(task, g, log, hist, p, hist[p].prior);
      }
    }
  }

  /**
   A guarded body runs at or above its positive threshold only after the budget gate was approved earlier in the
   run, on an operator's own approval.
   */
  lemma OverspendWasApproved(task: Task, g: Topology, log: seq<TaskRunState>, hist: seq<Cause>, k: nat)
      returns (gate: nat, verdict: nat)
    requires Disciplined(task, g) && IsChain(task, g, log, hist) && k < |log|
    requires BodyRunsAt(task, g, log, hist, k) && OverThreshold(Input(task, log, hist, k), hist[k].env)
    ensures verdict < gate < k && BudgetApprovedAt(task, g, log, hist, gate)
    ensures DecidedAt(task, g, log, hist, verdict, gate, Approve)
  {
    ReseedKeeps(Base(task, log, k, hist[k].prior), hist[k].workspace);
    gate := PassedWasApproved(task, g, log, hist, k, hist[k].prior);
    verdict := PassageHasOwnDecision(task, g, log, hist, gate);
  }

  /** Every node invocation sees a usage log. */
  ghost predicate Metered(hist: seq<Cause>) {
    forall k :: 0 <= k < |hist| && hist[k].Stepped? ==> hist[k].env.usage.Some?
  }

  /** One wiring for the whole run: either every invocation sees the usage log or none does. */
  ghost predicate OneWiring(hist: seq<Cause>) {
    Metered(hist) || forall k :: 0 <= k < |hist| && hist[k].Stepped? ==> hist[k].env.usage.None?
  }

  /** A guarded node runs without a usage log while a verdict for the budget gate waits, and so leaves it there. */
  ghost predicate UnseenVerdict(g: Topology, s: TaskRunState, env: Env) {
    AtGuardedNode(g, s) && PolicyActive(s.data) && AtBudgetGate(s.data) && env.usage.None?
  }

  ghost predicate UnseenVerdictAt(task: Task, g: Topology, log: seq<TaskRunState>, hist: seq<Cause>, k: nat)
    requires k < |log| == |hist|
  {
    hist[k].Stepped? && UnseenVerdict(g, Input(task, log, hist, k), hist[k].env)
  }

  /** After a budget pause: waiting for a verdict, about to consume it, approved, or over. */
  ghost predicate BudgetSettled(g: Topology, s: TaskRunState) {
    || (&& s.currentNode != Start && AtGuardedNode(g, s) && PolicyActive(s.data) && !s.finished
        && Get(s.data, HumanGateAt) == Str(BUDGET_GATE_ID)
        && (s.awaitingApproval || PendingDecision(s.data).Some?))
    || Truthy(Get(s.data, BudgetGatePassed))
    || s.finished
  }

  lemma SettledStep(g: Topology, s: TaskRunState, env: Env)
    requires forall n :: n in g.nodes ==> WellBehaved(g.nodes[n])
    requires BudgetSettled(g, s) && !s.finished && !s.awaitingApproval && Step(g, s, env).Ok?
    requires !UnseenVerdict(g, s, env)
    ensures BudgetSettled(g, Step(g, s, env).value)
    ensures AtGuardedNode(g, s) && CheckBudgetPolicy(s, env.usage, Executing(g, s)).Some? ==>
      !CheckBudgetPolicy(s, env.usage, Executing(g, s)).value.awaitingApproval
  {
    StepOnBudgetKeys(g, s, env);
  }

  lemma SettledReseed(g: Topology, s: TaskRunState, workspace: Option<Workspace>)
    ensures BudgetSettled(g, Reseed(s, workspace)) == BudgetSettled(g, s)
  {
    ReseedKeeps(s, workspace);
  }

  lemma PauseSettles(g: Topology, s: TaskRunState, env: Env)
    requires WellFormed(g) && !s.finished && !s.awaitingApproval && Step(g, s, env).Ok? && AtGuardedNode(g, s)
    requires var r := CheckBudgetPolicy(s, env.usage, Executing(g, s)); r.Some? && r.value.awaitingApproval
    ensures BudgetSettled(g, Step(g, s, env).value)
  {
  }

  lemma SettledMerge(g: Topology, s: TaskRunState, verdict: Verdict, sequence: nat)
    requires BudgetSettled(g, s)
    ensures BudgetSettled(g, MergeDecision(s, verdict, sequence))
  {
  }

  lemma SettledNext(task: Task, g: Topology, log: seq<TaskRunState>, hist: seq<Cause>, m: nat)
    requires Disciplined(task, g) && IsChain(task, g, log, hist) && 0 < m < |log|
    requires BudgetSettled(g, log[m - 1]) && !UnseenVerdictAt(task, g, log, hist, m)
    ensures BudgetSettled(g, log[m]) && !BudgetPauseAt(task, g, log, hist, m)
  {
    assert Follows(task, g, log, hist, m);
    if hist[m].Stepped? {
      SettledReseed(g, log[m - 1], hist[m].workspace);
      SettledStep(g, Input(task, log, hist, m), hist[m].env);
    } else {
      SettledMerge(g, log[m - 1], hist[m].verdict, m + 1);
    }
  }

  lemma {:induction false} StaysSettled(task: Task, g: Topology, log: seq<TaskRunState>, hist: seq<Cause>, k: nat, m: nat)
    requires Compiled(g) && Disciplined(task, g) && IsChain(task, g, log, hist)
    requires k <= m < |log| && BudgetPauseAt(task, g, log, hist, k)
    requires forall i :: k < i <= m ==> !UnseenVerdictAt(task, g, log, hist, i)
    ensures BudgetSettled(g, log[m])
    decreases m
  {
    if k == m {
      assert Follows(task, g, log, hist, k);
      PauseSettles(g, Input(task, log, hist, k), hist[k].env);
    } else {
      StaysSettled(task, g, log, hist, k, m - 1);
      SettledNext(task, g, log, hist, m);
    }
  }

  /** The budget gate pauses a task again only after a verdict for it went unseen in between. */
  lemma SecondPauseNeedsUnseenVerdict(task: Task, g: Topology, log: seq<TaskRunState>, hist: seq<Cause>, k: nat, m: nat)
    requires Compiled(g) && Disciplined(task, g) && IsChain(task, g, log, hist) && k < m < |log|
    requires BudgetPauseAt(task, g, log, hist, k) && BudgetPauseAt(task, g, log, hist, m)
    ensures exists i :: k < i < m && UnseenVerdictAt(task, g, log, hist, i)
  {
    if forall i :: k < i < m ==> !UnseenVerdictAt(task, g, log, hist, i) {
      StaysSettled(task, g, log, hist, k, m - 1);
      SettledNext(task, g, log, hist, m);
    }
  }

  /** With one wiring the budget gate pauses a task at most once. */
  lemma BudgetPausesOnce(task: Task, g: Topology, log: seq<TaskRunState>, hist: seq<Cause>, k: nat, m: nat)
    requires Compiled(g) && Disciplined(task, g) && IsChain(task, g, log, hist) && OneWiring(hist)
    requires k < |log| && m < |log|
    requires BudgetPauseAt(task, g, log, hist, k) && BudgetPauseAt(task, g, log, hist, m)
    ensures k == m
  {
    if k < m { SecondPauseNeedsUnseenVerdict(task, g, log, hist, k, m); }
    if m < k { SecondPauseNeedsUnseenVerdict(task, g, log, hist, m, k); }
  }
}
