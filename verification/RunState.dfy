/**
 The immutable run state that flows between graph nodes, and its JSON-valued data.

 String sentinels and reserved data keys are constructors, so that two names are equal exactly when their
 constructors are.
 */
module RunState {
  import opened Options

  /** `Start` and `End` are the two reserved sentinels; every registered node is `Named`. */
  datatype NodeId = Start | End | Named(name: string)

  datatype Value =
    | Null
    | Bool(flag: bool)
    | Int(n: int)
    | Num(r: real)
    | Str(s: string)
    | List(items: seq<Value>)
    | Dict(entries: map<string, Value>)

  datatype Key =
    | HumanDecision | HumanFeedback | HumanGateAt | RejectedByHuman | RejectedWithFeedback
    | BudgetPolicy | BudgetThreshold | BudgetGatePassed | BudgetExceeded | BudgetSpent | BudgetThresholdAtAbort
    | WorkspacePath | WorkspaceBranch
    | PermissionMode | PriorMessages | Output
    | Other(name: string)

  type Data = map<Key, Value>

  /** `data.get(key)`: absent reads as null. */
  function Get(data: Data, key: Key): Value {
    if key in data then data[key] else Null
  }

  /** Python truthiness of a JSON value. */
  predicate Truthy(v: Value) {
    match v
    case Null => false
    case Bool(flag) => flag
    case Int(n) => n != 0
    case Num(r) => r != 0.0
    case Str(s) => s != ""
    case List(items) => items != []
    case Dict(entries) => |entries| > 0
  }

  /** `isinstance(v, int)`, which booleans satisfy. */
  function AsInt(v: Value): Option<int> {
    match v
    case Int(n) => Some(n)
    case Bool(flag) => Some(if flag then 1 else 0)
    case _ => None
  }

  datatype TaskRunState = TaskRunState(
    taskId: string, tenantId: string, traceId: string, graphId: string,
    currentNode: NodeId, sequence: nat, data: Data,
    finished: bool, awaitingApproval: bool, error: Option<string>)

  /** The next state: cursor moved, data shallow-merged, one sequence number later. */
  function Advance(s: TaskRunState, nextNode: NodeId, update: Data,
                   finished: Option<bool>, awaiting: Option<bool>, error: Option<string>): TaskRunState
  {
    s.(currentNode := nextNode,
       sequence := s.sequence + 1,
       data := s.data + update,
       finished := if finished.Some? then finished.value else nextNode == End,
       awaitingApproval := if awaiting.Some? then awaiting.value else false,
       error := error)
  }

  datatype Decision = Approve | Reject

  /** The wire value the gateway writes under `HumanDecision`. */
  function Wire(d: Decision): Value {
    match d
    case Approve => Str("approve")
    case Reject => Str("reject")
  }

  /** The decision a gate would read, if any; every other value means "no decision yet". */
  function PendingDecision(data: Data): Option<Decision> {
    if Get(data, HumanDecision) == Str("approve") then Some(Approve)
    else if Get(data, HumanDecision) == Str("reject") then Some(Reject)
    else None
  }

  datatype Verdict = Verdict(decision: Decision, feedback: Option<string>)

  /** The snapshot a worker resumes from after an operator's verdict. */
  function MergeDecision(snapshot: TaskRunState, verdict: Verdict, sequence: nat): TaskRunState {
    var decided := snapshot.data[HumanDecision := Wire(verdict.decision)];
    var data := if verdict.feedback.Some? then decided[HumanFeedback := Str(verdict.feedback.value)] else decided;
    snapshot.(awaitingApproval := false, sequence := sequence, data := data)
  }

  /** A merge brings the verdict and its feedback, ends the pause, and leaves everything else as it was. */
  lemma MergeBringsVerdict(snapshot: TaskRunState, verdict: Verdict, sequence: nat)
    ensures var t := MergeDecision(snapshot, verdict, sequence);
      && t.(data := snapshot.data) == snapshot.(awaitingApproval := false, sequence := sequence)
      && PendingDecision(t.data) == Some(verdict.decision)
      && (verdict.feedback.Some? ==> Get(t.data, HumanFeedback) == Str(verdict.feedback.value))
      && forall key | key != HumanDecision && (key == HumanFeedback ==> verdict.feedback.None?) ::
           Get(t.data, key) == Get(snapshot.data, key)
  {
  }

  datatype Workspace = Workspace(worktreePath: string, branch: string)

  /** Stamps a freshly provisioned workspace over the stale one a snapshot carries. */
  function Reseed(s: TaskRunState, workspace: Option<Workspace>): TaskRunState {
    if workspace.None? then s
    else s.(data := s.data[WorkspacePath := Str(workspace.value.worktreePath)]
                          [WorkspaceBranch := Str(workspace.value.branch)])
  }

  const WORKSPACE_KEYS: set<Key> := {WorkspacePath, WorkspaceBranch}

  /** Equal up to the two workspace keys. */
  ghost predicate SameData(d: Data, e: Data) {
    d - WORKSPACE_KEYS == e - WORKSPACE_KEYS
  }

  ghost predicate Similar(s: TaskRunState, t: TaskRunState) {
    s.(data := map[]) == t.(data := map[]) && SameData(s.data, t.data)
  }
}
