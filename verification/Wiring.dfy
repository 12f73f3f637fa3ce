/**
 When the budget gate can pause a task twice: exactly when the usage repository is wired at some step, missing two or
 more entries later, and wired again two or more after that.  The approval of the first pause then waits at a guarded
 node that cannot see it, and a human gate behind that node takes it for its own.
 */
module Wiring {
  import opened Options
  import opened RunState
  import opened Gates
  import opened Graph
  import opened Chain
  import opened Execution
  import opened Realization

  /** `wired(k)` says whether the step that writes entry `k` sees a usage repository. */
  ghost predicate WiredAs(hist: seq<Cause>, wired: nat -> bool) {
    forall k :: 0 <= k < |hist| && hist[k].Stepped? ==> (hist[k].env.usage.Some? <==> wired(k))
  }

  ghost predicate Gap(wired: nat -> bool, k: nat, i: nat, m: nat) {
    k + 2 <= i && i + 2 <= m && wired(k) && !wired(i) && wired(m)
  }

  // ----- Two pauses need a gap -----

  lemma VerdictFollowsPause(task: Task, g: Topology, log: seq<TaskRunState>, hist: seq<Cause>, k: nat, i: nat)
    requires IsChain(task, g, log, hist) && k < i < |log| && BudgetPauseAt(task, g, log, hist, k) && hist[i].Stepped?
    ensures k + 2 <= i
  {
    assert Follows(task, g, log, hist, k) && Follows(task, g, log, hist, k + 1);
    assert log[k].awaitingApproval;
    if hist[k + 1].Stepped? { ReseedKeeps(log[k], hist[k + 1].workspace); }
  }

  /** A guarded body that cannot see the verdict leaves it where it is. */
  lemma UnseenVerdictStays(g: Topology, s: TaskRunState, env: Env)
    requires forall n :: n in g.nodes ==> WellBehaved(g.nodes[n])
    requires !s.finished && !s.awaitingApproval && Step(g, s, env).Ok? && UnseenVerdict(g, s, env)
    ensures AtBudgetGate(Step(g, s, env).value.data)
  {
    StepMerges(g, s, env);
    var node := g.nodes[Executing(g, s)];
    assert KeepsReserved(node.body);
    assert Execute(node, Executing(g, s), s, env) == node.body(s, env);
    var update := node.body(s, env).result.dataUpdate;
    assert HumanDecision in RESERVED && HumanGateAt in RESERVED;
    assert HumanDecision !in update && HumanGateAt !in update;
  }

  lemma PauseNeedsNoVerdict(task: Task, g: Topology, log: seq<TaskRunState>, hist: seq<Cause>, i: nat, m: nat)
    requires Disciplined(task, g) && IsChain(task, g, log, hist) && i < m < |log|
    requires UnseenVerdictAt(task, g, log, hist, i) && BudgetPauseAt(task, g, log, hist, m)
    ensures i + 2 <= m
  {
    assert Follows(task, g, log, hist, i);
    UnseenVerdictStays(g, Input(task, log, hist, i), hist[i].env);
    if m == i + 1 { ReseedKeeps(log[i], hist[m].workspace); }
  }

  lemma TwoPausesNeedGap(task: Task, g: Topology, log: seq<TaskRunState>, hist: seq<Cause>, wired: nat -> bool,
                         k: nat, m: nat)
      returns (i: nat)
    requires Compiled(g) && Disciplined(task, g) && IsChain(task, g, log, hist) && WiredAs(hist, wired) && k < m < |log|
    requires BudgetPauseAt(task, g, log, hist, k) && BudgetPauseAt(task, g, log, hist, m)
    ensures Gap(wired, k, i, m)
  {
    SecondPauseNeedsUnseenVerdict(task, g, log, hist, k, m);
    i :| k < i < m && UnseenVerdictAt(task, g, log, hist, i);
    VerdictFollowsPause(task, g, log, hist, k, i);
    PauseNeedsNoVerdict(task, g, log, hist, i, m);
  }

  // ----- A gap gives two pauses -----

  const WORK := Named("work")
  const REVIEW := Named("review")

  /** A guarded node that runs itself again and again, but sends entry `i` to a human gate, which sends it back. */
  function Looping(i: nat): Topology {
    var body: NodeFn := (s, e) => Returned(NodeResult(map[], None, false, None));
    var route := (s: TaskRunState) => if s.sequence == i + 1 then REVIEW else WORK;
    Topology(map[WORK := BudgetGuarded(body), REVIEW := HumanGate("review", WORK, None)],
             map[WORK := Router(route), REVIEW := Static(WORK)], Some(WORK))
  }

  const TASK := Task("task", "tenant", "trace", "graph", map[], "auto", "gate_on_threshold", Some(1))
  const YES := Verdict(Approve, None)

  /** A usage table in which the task has spent five, and one in which it has spent nothing. */
  datatype Books = Books(spent: seq<Usage.UsageRow>, empty: seq<Usage.UsageRow>) {
    ghost predicate Valid() {
      Usage.Spend(spent, "tenant", "task") == 5 && Usage.Spend(empty, "tenant", "task") == 0
    }
  }

  const PAUSE: Data := map[HumanGateAt := Str(BUDGET_GATE_ID), BudgetSpent := Int(5)]
  const CLEAR: Data := map[HumanDecision := Null, HumanGateAt := Null]

  lemma LoopingIsSound(i: nat)
    ensures Compiled(Looping(i)) && Disciplined(TASK, Looping(i))
  {
  }

  lemma BooksExist() returns (books: Books)
    ensures books.Valid()
  {
    var rows := [Usage.UsageRow("r", "tenant", Some("task"), None, None, Some(5))];
    books := Books(rows, []);
    Usage.SpendIsFlatSum(rows, "tenant", "task");
    Usage.SpendIsFlatSum([], "tenant", "task");
    assert rows[..0] == [];
    assert Usage.ForTask(rows, "tenant", "task") == rows;
  }

  /** A state of this task at the guarded node, with the gate not passed. */
  ghost predicate Ready(s: TaskRunState) {
    && s.tenantId == "tenant" && s.taskId == "task" && !s.finished && !s.awaitingApproval && s.error == None
    && Get(s.data, BudgetPolicy) == Str("gate_on_threshold") && Get(s.data, BudgetThreshold) == Int(1)
    && Get(s.data, BudgetGatePassed) == Null
  }

  /** Over its threshold, with no verdict waiting, the node is paused. */
  lemma GatedWorkPauses(books: Books, i: nat, s: TaskRunState)
    requires books.Valid() && Ready(s) && s.currentNode in {Start, WORK} && Get(s.data, HumanGateAt) == Null
    ensures var env := Env(Some(books.spent), 0);
      && CheckBudgetPolicy(s, env.usage, WORK) == Some(NodeResult(PAUSE, None, true, None))
      && Step(Looping(i), s, env)
         == Ok(s.(currentNode := WORK, sequence := s.sequence + 1, awaitingApproval := true, data := s.data + PAUSE))
  {
    assert WORK in Looping(i).nodes;
  }

  lemma WorkPauses(books: Books, i: nat, s: TaskRunState, env: Env, t: TaskRunState)
    requires books.Valid() && Ready(s) && s.currentNode in {Start, WORK} && Get(s.data, HumanGateAt) == Null
    requires env == Env(Some(books.spent), 0)
    requires t == s.(currentNode := WORK, sequence := s.sequence + 1, awaitingApproval := true, data := s.data + PAUSE)
    ensures Step(Looping(i), s, env) == Ok(t)
  {
    GatedWorkPauses(books, i, s);
  }

  lemma WorkRuns(books: Books, i: nat, s: TaskRunState, env: Env, t: TaskRunState)
    requires books.Valid() && Ready(s) && s.currentNode in {Start, WORK}
    requires env.usage.None? || (env.usage == Some(books.empty) && Get(s.data, HumanGateAt) == Null)
    requires t == s.(currentNode := if s.sequence == i then REVIEW else WORK, sequence := s.sequence + 1)
    ensures Step(Looping(i), s, env) == Ok(t)
  {
    assert WORK in Looping(i).nodes && REVIEW in Looping(i).nodes;
    assert s.data + map[] == s.data;
    assert CheckBudgetPolicy(s, env.usage, WORK) == None;
  }

  lemma ReviewPasses(i: nat, s: TaskRunState, env: Env, t: TaskRunState)
    requires Ready(s) && s.currentNode == REVIEW && PendingDecision(s.data) == Some(Approve)
    requires t == s.(currentNode := WORK, sequence := s.sequence + 1, data := s.data + CLEAR)
    ensures Step(Looping(i), s, env) == Ok(t)
  {
    assert WORK in Looping(i).nodes && REVIEW in Looping(i).nodes;
  }

  /** The data of entry `j`: paused at `k`, approved until the gate takes the approval at `i + 1`, paused again at `m`. */
  function DataAt(k: nat, i: nat, m: nat, j: nat): Data
    requires k + 2 <= i && i + 2 <= m
  {
    var first := Seed(TASK, None).data;
    var approved := (first + PAUSE)[HumanDecision := Wire(Approve)];
    if j < k then first
    else if j == k then first + PAUSE
    else if j <= i then approved
    else if j == i + 1 then approved + CLEAR
    else if j < m then (approved + CLEAR)[HumanDecision := Wire(Approve)]
    else if m == i + 2 then approved + CLEAR + PAUSE
    else (approved + CLEAR)[HumanDecision := Wire(Approve)] + PAUSE
  }

  function StateAt(k: nat, i: nat, m: nat, j: nat): TaskRunState
    requires k + 2 <= i && i + 2 <= m
  {
    Seed(TASK, None).(currentNode := if j == i then REVIEW else WORK, sequence := j + 1, data := DataAt(k, i, m, j),
                      awaitingApproval := j == k || j == m)
  }

  function EnvAt(books: Books, wired: nat -> bool, k: nat, m: nat, j: nat): Env {
    Env(if !wired(j) then None else if j == k || j == m then Some(books.spent) else Some(books.empty), 0)
  }

  /** Between the pauses, entries that are not the two steps past the gate are verdicts. */
  function CauseAt(books: Books, wired: nat -> bool, k: nat, i: nat, m: nat, j: nat): Cause {
    if k < j < i || i + 1 < j < m then Merged(YES) else Stepped(None, None, EnvAt(books, wired, k, m, j))
  }

  /** The state entry `j` is built on. */
  function Before(k: nat, i: nat, m: nat, j: nat): TaskRunState
    requires k + 2 <= i && i + 2 <= m
  {
    if j == 0 then Seed(TASK, None) else StateAt(k, i, m, j - 1)
  }

  lemma VerdictEntry(books: Books, wired: nat -> bool, k: nat, i: nat, m: nat, j: nat)
    requires Gap(wired, k, i, m) && j <= m && CauseAt(books, wired, k, i, m, j).Merged?
    ensures j > 0 && StateAt(k, i, m, j) == MergeDecision(Before(k, i, m, j), YES, j + 1)
  {
    assert DataAt(k, i, m, j) == DataAt(k, i, m, j - 1)[HumanDecision := Wire(Approve)];
  }

  /** What the steps need to know of the state they are made on. */
  lemma BeforeStep(books: Books, wired: nat -> bool, k: nat, i: nat, m: nat, j: nat)
    requires Gap(wired, k, i, m) && j <= m && CauseAt(books, wired, k, i, m, j).Stepped?
    ensures var s := Before(k, i, m, j);
      && Ready(s) && s.sequence == j
      && (if j == i + 1 then s.currentNode == REVIEW && PendingDecision(s.data) == Some(Approve)
          else s.currentNode in {Start, WORK} && (j != i ==> Get(s.data, HumanGateAt) == Null))
  {
  }

  lemma PausedState(k: nat, i: nat, m: nat, j: nat)
    requires k + 2 <= i && i + 2 <= m && (j == k || j == m)
    ensures var s := Before(k, i, m, j);
      StateAt(k, i, m, j) == s.(currentNode := WORK, sequence := j + 1, awaitingApproval := true, data := s.data + PAUSE)
  {
  }

  lemma ReviewedState(k: nat, i: nat, m: nat)
    requires k + 2 <= i && i + 2 <= m
    ensures var s := Before(k, i, m, i + 1);
      StateAt(k, i, m, i + 1) == s.(currentNode := WORK, sequence := i + 2, data := s.data + CLEAR)
  {
  }

  lemma WorkedState(k: nat, i: nat, m: nat, j: nat)
    requires k + 2 <= i && i + 2 <= m && (j < k || j == i)
    ensures var s := Before(k, i, m, j);
      StateAt(k, i, m, j) == s.(currentNode := if j == i then REVIEW else WORK, sequence := j + 1)
  {
  }

  lemma StepEntry(books: Books, wired: nat -> bool, k: nat, i: nat, m: nat, j: nat)
    requires books.Valid() && Gap(wired, k, i, m) && j <= m && CauseAt(books, wired, k, i, m, j).Stepped?
    ensures Step(Looping(i), Before(k, i, m, j), EnvAt(books, wired, k, m, j)) == Ok(StateAt(k, i, m, j))
  {
    BeforeStep(books, wired, k, i, m, j);
    if j == k || j == m {
      PausedState(k, i, m, j);
      WorkPauses(books, i, Before(k, i, m, j), EnvAt(books, wired, k, m, j), StateAt(k, i, m, j));
    } else if j == i + 1 {
      ReviewedState(k, i, m);
      ReviewPasses(i, Before(k, i, m, j), EnvAt(books, wired, k, m, j), StateAt(k, i, m, j));
    } else {
      WorkedState(k, i, m, j);
      WorkRuns(books, i, Before(k, i, m, j), EnvAt(books, wired, k, m, j), StateAt(k, i, m, j));
    }
  }

  ghost function WitnessLog(k: nat, i: nat, m: nat): seq<TaskRunState>
    requires k + 2 <= i && i + 2 <= m
  {
    seq(m + 1, j requires 0 <= j <= m => StateAt(k, i, m, j))
  }

  ghost function WitnessHist(books: Books, wired: nat -> bool, k: nat, i: nat, m: nat): seq<Cause> {
    seq(m + 1, j requires 0 <= j <= m => CauseAt(books, wired, k, i, m, j))
  }

  lemma WitnessInput(books: Books, wired: nat -> bool, k: nat, i: nat, m: nat, j: nat)
    requires Gap(wired, k, i, m) && j <= m
    ensures var log, hist := WitnessLog(k, i, m), WitnessHist(books, wired, k, i, m);
      && log[j] == StateAt(k, i, m, j) && hist[j] == CauseAt(books, wired, k, i, m, j)
      && (j > 0 ==> log[j - 1] == Before(k, i, m, j))
      && (hist[j].Stepped? ==>
            Input(TASK, log, hist, j) == Before(k, i, m, j) && hist[j].env == EnvAt(books, wired, k, m, j))
  {
    var log := WitnessLog(k, i, m);
    assert j > 0 ==> log[j - 1] == StateAt(k, i, m, j - 1);
  }

  lemma WitnessFollows(books: Books, wired: nat -> bool, k: nat, i: nat, m: nat, j: nat)
    requires books.Valid() && Gap(wired, k, i, m) && j <= m
    ensures Follows(TASK, Looping(i), WitnessLog(k, i, m), WitnessHist(books, wired, k, i, m), j)
  {
    WitnessInput(books, wired, k, i, m, j);
    if CauseAt(books, wired, k, i, m, j).Stepped? {
      StepEntry(books, wired, k, i, m, j);
      BeforeStep(books, wired, k, i, m, j);
    } else {
      VerdictEntry(books, wired, k, i, m, j);
    }
  }

  lemma WitnessIsChain(books: Books, wired: nat -> bool, k: nat, i: nat, m: nat)
    requires books.Valid() && Gap(wired, k, i, m)
    ensures var log, hist := WitnessLog(k, i, m), WitnessHist(books, wired, k, i, m);
      IsChain(TASK, Looping(i), log, hist) && VerdictsAfterPause(log, hist) && WiredAs(hist, wired)
  {
    var log, hist := WitnessLog(k, i, m), WitnessHist(books, wired, k, i, m);
    forall j | 0 <= j <= m ensures Follows(TASK, Looping(i), log, hist, j) { WitnessFollows(books, wired, k, i, m, j); }
    assert log[k].awaitingApproval;
  }

  lemma WitnessPauses(books: Books, wired: nat -> bool, k: nat, i: nat, m: nat, j: nat)
    requires books.Valid() && Gap(wired, k, i, m) && (j == k || j == m)
    ensures BudgetPauseAt(TASK, Looping(i), WitnessLog(k, i, m), WitnessHist(books, wired, k, i, m), j)
  {
    BeforeStep(books, wired, k, i, m, j);
    WitnessInput(books, wired, k, i, m, j);
    GatedIsPause(books, i, Before(k, i, m, j));
  }

  lemma GatedIsPause(books: Books, i: nat, s: TaskRunState)
    requires books.Valid() && Ready(s) && s.currentNode in {Start, WORK} && Get(s.data, HumanGateAt) == Null
    ensures AtGuardedNode(Looping(i), s)
    ensures var r := CheckBudgetPolicy(s, Some(books.spent), Executing(Looping(i), s));
      r.Some? && r.value.awaitingApproval
  {
    GatedWorkPauses(books, i, s);
    assert WORK in Looping(i).nodes;
  }

  // ----- The exact condition -----

  ghost predicate PausesOnce(p: Params, s: System) {
    |s.hist| == |s.db.checkpoints|
    && forall k, m :: 0 <= k < m < |s.hist| ==>
                        !(BudgetPauseAt(p.task, p.graph, Log(s.db), s.hist, k)
                          && BudgetPauseAt(p.task, p.graph, Log(s.db), s.hist, m))
  }

  /** A system that some run of a compiled graph with disciplined nodes, wired so, leads to. */
  ghost predicate Wired(p: Params, s: System, wired: nat -> bool) {
    Compiled(p.graph) && Disciplined(p.task, p.graph) && Reachable(p, s) && WiredAs(s.hist, wired)
  }

  lemma GapPausesTwice(wired: nat -> bool, k: nat, i: nat, m: nat) returns (p: Params, s: System)
    requires Gap(wired, k, i, m)
    ensures Wired(p, s, wired) && !PausesOnce(p, s)
  {
    var books := BooksExist();
    p := Params(TASK, Looping(i));
    var log, hist := WitnessLog(k, i, m), WitnessHist(books, wired, k, i, m);
    LoopingIsSound(i);
    WitnessIsChain(books, wired, k, i, m);
    WitnessPauses(books, wired, k, i, m, k);
    WitnessPauses(books, wired, k, i, m, m);
    LogsAreExactlySuchChains(p, log, hist);
    var acts :| IsLogOf(p, log, hist, acts);
    s := Exec(p, acts);
  }

  lemma NoGapPausesOnce(p: Params, s: System, wired: nat -> bool)
    requires Wired(p, s, wired) && forall k: nat, i: nat, m: nat :: !Gap(wired, k, i, m)
    ensures PausesOnce(p, s)
  {
    ReachableIsSound(p, s);
    forall k, m | 0 <= k < m < |s.hist|
      ensures !(BudgetPauseAt(p.task, p.graph, Log(s.db), s.hist, k)
                && BudgetPauseAt(p.task, p.graph, Log(s.db), s.hist, m))
    {
      if BudgetPauseAt(p.task, p.graph, Log(s.db), s.hist, k) && BudgetPauseAt(p.task, p.graph, Log(s.db), s.hist, m) {
        var i := TwoPausesNeedGap(p.task, p.graph, Log(s.db), s.hist, wired, k, m);
      }
    }
  }

  /** Runs wired so pause for the budget at most once if and only if the wiring has no gap. */
  lemma PausesOnceIffNoGap(wired: nat -> bool)
    ensures (forall p, s :: Wired(p, s, wired) ==> PausesOnce(p, s))
       <==> forall k: nat, i: nat, m: nat :: !Gap(wired, k, i, m)
  {
    if k: nat, i: nat, m: nat :| Gap(wired, k, i, m) {
      var p, s := GapPausesTwice(wired, k, i, m);
    } else {
      forall p, s | Wired(p, s, wired) ensures PausesOnce(p, s) {
        NoGapPausesOnce(p, s, wired);
      }
    }
  }
}
