/**
 Replay: a log pieced together by any number of workers is the log of the run nobody interrupts, up to the workspace
 keys that are stamped anew at every start.
 */
module Replay {
  import opened Options
  import opened RunState
  import opened Gates
  import opened Graph
  import opened Chain

  ghost predicate SimilarOutcome(a: Outcome, b: Outcome) {
    match (a, b)
    case (Raised, Raised) => true
    case (Returned(r), Returned(q)) =>
      r.(dataUpdate := map[]) == q.(dataUpdate := map[]) && SameData(r.dataUpdate, q.dataUpdate)
    case _ => false
  }

  /** Nodes and routers treat the workspace keys as opaque: they do the same whatever those hold. */
  ghost predicate WorkspaceOpaque(g: Topology) {
    && (forall n, s, t, e :: n in g.nodes && Similar(s, t) ==>
          SimilarOutcome(Execute(g.nodes[n], n, s, e), Execute(g.nodes[n], n, t, e)))
    && (forall n, s, t :: n in g.edges && g.edges[n].Router? && Similar(s, t) ==>
          g.edges[n].route(s) == g.edges[n].route(t))
  }

  ghost predicate OpaqueBody(body: NodeFn) {
    forall s, t, e :: Similar(s, t) ==> SimilarOutcome(body(s, e), body(t, e))
  }

  lemma SimilarReads(s: TaskRunState, t: TaskRunState, key: Key)
    requires Similar(s, t) && key !in WORKSPACE_KEYS
    ensures Get(s.data, key) == Get(t.data, key)
  {
    assert Get(s.data, key) == Get(s.data - WORKSPACE_KEYS, key);
    assert Get(t.data, key) == Get(t.data - WORKSPACE_KEYS, key);
  }

  /** The gates read none of the workspace keys. */
  lemma GatesAreOpaque(node: Node, name: NodeId, s: TaskRunState, t: TaskRunState, env: Env)
    requires Similar(s, t) && (!node.HumanGate? ==> OpaqueBody(node.body))
    ensures SimilarOutcome(Execute(node, name, s, env), Execute(node, name, t, env))
  {
    SimilarReads(s, t, HumanDecision);
    if node.BudgetGuarded? {
      SimilarReads(s, t, HumanGateAt);
      SimilarReads(s, t, BudgetPolicy);
      SimilarReads(s, t, BudgetThreshold);
      SimilarReads(s, t, BudgetGatePassed);
      assert CheckBudgetPolicy(s, env.usage, name) == CheckBudgetPolicy(t, env.usage, name);
    }
  }

  /** Gates of either kind are allowed: it is enough that bodies and routers are opaque. */
  lemma OpaqueBodiesSuffice(g: Topology)
    requires forall n :: n in g.nodes && !g.nodes[n].HumanGate? ==> OpaqueBody(g.nodes[n].body)
    requires forall n, s, t :: n in g.edges && g.edges[n].Router? && Similar(s, t) ==>
               g.edges[n].route(s) == g.edges[n].route(t)
    ensures WorkspaceOpaque(g)
  {
    forall n, s, t, e | n in g.nodes && Similar(s, t)
      ensures SimilarOutcome(Execute(g.nodes[n], n, s, e), Execute(g.nodes[n], n, t, e))
    {
      GatesAreOpaque(g.nodes[n], n, s, t, e);
    }
  }

  lemma SameDataMerge(d: Data, e: Data, u: Data, v: Data)
    requires SameData(d, e) && SameData(u, v)
    ensures SameData(d + u, e + v)
  {
    assert (d + u) - WORKSPACE_KEYS == (d - WORKSPACE_KEYS) + (u - WORKSPACE_KEYS);
    assert (e + v) - WORKSPACE_KEYS == (e - WORKSPACE_KEYS) + (v - WORKSPACE_KEYS);
  }

  lemma AdvanceSimilar(s: TaskRunState, t: TaskRunState, n: NodeId, u: Data, v: Data,
                       finished: Option<bool>, awaiting: Option<bool>, error: Option<string>)
    requires Similar(s, t) && SameData(u, v)
    ensures Similar(Advance(s, n, u, finished, awaiting, error), Advance(t, n, v, finished, awaiting, error))
  {
    SameDataMerge(s.data, t.data, u, v);
  }

  lemma SettleSimilar(g: Topology, s: TaskRunState, t: TaskRunState, n: NodeId, a: Outcome, b: Outcome)
    requires WorkspaceOpaque(g) && Similar(s, t) && SimilarOutcome(a, b)
    ensures Settle(g, s, n, a).Ok? == Settle(g, t, n, b).Ok?
    ensures Settle(g, s, n, a).Ok? ==> Similar(Settle(g, s, n, a).value, Settle(g, t, n, b).value)
  {
    if a.Returned? {
      var r, q := a.result, b.result;
      AdvanceSimilar(s, t, n, r.dataUpdate, q.dataUpdate, Some(false), Some(true), None);
      AdvanceSimilar(s, t, n, r.dataUpdate, q.dataUpdate, None, None, r.error);
    }
  }

  lemma StepSimilar(g: Topology, s: TaskRunState, t: TaskRunState, env: Env)
    requires WorkspaceOpaque(g) && Similar(s, t)
    ensures Step(g, s, env).Ok? == Step(g, t, env).Ok?
    ensures Step(g, s, env).Ok? ==> Similar(Step(g, s, env).value, Step(g, t, env).value)
  {
    if !s.finished && !s.awaitingApproval && g.entry.Some? && Executing(g, s) in g.nodes {
      var n := Executing(g, s);
      SettleSimilar(g, s, t, n, Execute(g.nodes[n], n, s, env), Execute(g.nodes[n], n, t, env));
    }
  }

  lemma MergeSimilar(s: TaskRunState, t: TaskRunState, verdict: Verdict, sequence: nat)
    requires Similar(s, t)
    ensures Similar(MergeDecision(s, verdict, sequence), MergeDecision(t, verdict, sequence))
  {
    var u := map[HumanDecision := Wire(verdict.decision)];
    var v := if verdict.feedback.Some? then u[HumanFeedback := Str(verdict.feedback.value)] else u;
    SameDataMerge(s.data, t.data, v, v);
    assert MergeDecision(s, verdict, sequence).data == s.data + v;
    assert MergeDecision(t, verdict, sequence).data == t.data + v;
  }

  // What a worker observes beside the state is `world`, indexed by the number of entries before the step: a step that
  // was lost with its worker may have observed something else, a checkpointed one is what the world says.

  ghost predicate Sees(hist: seq<Cause>, world: nat -> Env) {
    forall k :: 0 <= k < |hist| && hist[k].Stepped? ==> hist[k].env == world(k)
  }

  /** `verdicts(k)` is merged as entry `k`; every other entry is a step. */
  ghost predicate Answers(hist: seq<Cause>, verdicts: nat -> Option<Verdict>) {
    forall k :: 0 <= k < |hist| ==> verdicts(k) == if hist[k].Merged? then Some(hist[k].verdict) else None
  }

  /** Every history sees a world and answers a schedule. */
  lemma HistoryHasWorld(hist: seq<Cause>) returns (world: nat -> Env, verdicts: nat -> Option<Verdict>)
    ensures Sees(hist, world) && Answers(hist, verdicts) && forall k :: |hist| <= k ==> verdicts(k) == None
  {
    world := (k: nat) => if k < |hist| && hist[k].Stepped? then hist[k].env else Env(None, 0);
    verdicts := (k: nat) => if k < |hist| && hist[k].Merged? then Some(hist[k].verdict) else None;
  }

  /** What the next entry after a state is, given the verdict merged for it, if any; no entry when the run stops there. */
  type Entry = (TaskRunState, Option<Verdict>) -> Option<TaskRunState>

  ghost function NextEntry(g: Topology, s: TaskRunState, verdict: Option<Verdict>, env: Env): Option<TaskRunState> {
    if verdict.Some? then Some(MergeDecision(s, verdict.value, s.sequence + 1))
    else if s.finished || s.awaitingApproval || Step(g, s, env).Err? then None
    else Some(Step(g, s, env).value)
  }

  /** The entries of a graph in a world. */
  ghost function Entries(g: Topology, world: nat -> Env): Entry {
    (s: TaskRunState, verdict: Option<Verdict>) => NextEntry(g, s, verdict, world(s.sequence))
  }

  ghost predicate SimilarEntries(a: Option<TaskRunState>, b: Option<TaskRunState>) {
    a.Some? == b.Some? && (a.Some? ==> Similar(a.value, b.value))
  }

  ghost predicate OpaqueEntry(next: Entry) {
    forall s, t, v :: Similar(s, t) ==> SimilarEntries(next(s, v), next(t, v))
  }

  lemma EntriesAreOpaque(g: Topology, world: nat -> Env)
    requires WorkspaceOpaque(g)
    ensures OpaqueEntry(Entries(g, world))
  {
    forall s, t, v | Similar(s, t) ensures SimilarEntries(Entries(g, world)(s, v), Entries(g, world)(t, v)) {
      StepSimilar(g, s, t, world(s.sequence));
      if v.Some? { MergeSimilar(s, t, v.value, s.sequence + 1); }
    }
  }

  /**
   The run nobody interrupts, with each verdict taken at its entry number: merge what is scheduled, else step; stop at
   the end of the graph, at an error, at a pause nobody answers, or after `fuel` entries.
   */
  ghost function Scheduled(next: Entry, s: TaskRunState, verdicts: nat -> Option<Verdict>, fuel: nat): seq<TaskRunState>
    decreases fuel
  {
    if fuel == 0 then []
    else
      match next(s, verdicts(s.sequence))
      case None => []
      case Some(t) => [t] + Scheduled(next, t, verdicts, fuel - 1)
  }

  ghost predicate SimilarLogs(a: seq<TaskRunState>, b: seq<TaskRunState>) {
    |a| == |b| && forall i :: 0 <= i < |a| ==> Similar(a[i], b[i])
  }

  lemma SimilarCons(s: TaskRunState, a: seq<TaskRunState>, t: TaskRunState, b: seq<TaskRunState>)
    requires Similar(s, t) && SimilarLogs(a, b)
    ensures SimilarLogs([s] + a, [t] + b)
  {
  }

  lemma {:induction false} ScheduledSimilar(next: Entry, s: TaskRunState, t: TaskRunState,
                                            verdicts: nat -> Option<Verdict>, fuel: nat)
    requires OpaqueEntry(next) && Similar(s, t)
    ensures SimilarLogs(Scheduled(next, s, verdicts, fuel), Scheduled(next, t, verdicts, fuel))
    decreases fuel
  {
    if fuel > 0 {
      var v := verdicts(s.sequence);
      assert SimilarEntries(next(s, v), next(t, v));
      if next(s, v).Some? {
        var sn, tn := next(s, v).value, next(t, v).value;
        ScheduledSimilar(next, sn, tn, verdicts, fuel - 1);
        SimilarCons(sn, Scheduled(next, sn, verdicts, fuel - 1), tn, Scheduled(next, tn, verdicts, fuel - 1));
      }
    }
  }

  ghost function VerdictIn(cause: Cause): Option<Verdict> {
    if cause.Merged? then Some(cause.verdict) else None
  }

  /** The states a history went through, from the seed on, each similar to the entry after the one before. */
  ghost predicate Unfolds(next: Entry, states: seq<TaskRunState>, hist: seq<Cause>) {
    && |states| == |hist| + 1
    && (forall k :: 0 <= k < |states| ==> states[k].sequence == k)
    && forall k :: 0 <= k < |hist| ==> SimilarEntries(Some(states[k + 1]), next(states[k], VerdictIn(hist[k])))
  }

  lemma ChainEntry(task: Task, g: Topology, log: seq<TaskRunState>, hist: seq<Cause>, k: nat, env: Env)
    requires WorkspaceOpaque(g) && IsChain(task, g, log, hist) && k < |log|
    requires hist[k].Stepped? ==> hist[k].env == env
    ensures hist[k].Merged? ==> k > 0
    ensures var prior := if hist[k].Stepped? then hist[k].prior else None;
      SimilarEntries(Some(log[k]), NextEntry(g, Base(task, log, k, prior), VerdictIn(hist[k]), env))
  {
    assert Follows(task, g, log, hist, k);
    if hist[k].Stepped? {
      var base := Base(task, log, k, hist[k].prior);
      ReseedKeeps(base, hist[k].workspace);
      StepSimilar(g, Input(task, log, hist, k), base, env);
    }
  }

  /** A chain unfolds in every world its steps saw. */
  lemma ChainUnfolds(task: Task, g: Topology, log: seq<TaskRunState>, hist: seq<Cause>, prior: Option<Value>,
                     world: nat -> Env)
    requires WorkspaceOpaque(g) && IsChain(task, g, log, hist) && Sees(hist, world)
    requires log != [] && hist[0].Stepped? ==> hist[0].prior == prior
    ensures Unfolds(Entries(g, world), [Seed(task, prior)] + log, hist)
    ensures log != [] ==> hist[0].Stepped?
  {
    var states := [Seed(task, prior)] + log;
    if log != [] { ChainEntry(task, g, log, hist, 0, world(0)); }
    forall k | 0 <= k < |hist|
      ensures SimilarEntries(Some(states[k + 1]), Entries(g, world)(states[k], VerdictIn(hist[k])))
    {
      ChainEntry(task, g, log, hist, k, world(k));
      assert states[k].sequence == k;
    }
  }

  /** From a state similar to the `k`-th of a history, the same entry is similar to the next. */
  lemma NextUnfolds(next: Entry, states: seq<TaskRunState>, hist: seq<Cause>, k: nat, s: TaskRunState)
      returns (t: TaskRunState)
    requires OpaqueEntry(next) && Unfolds(next, states, hist) && k < |hist| && Similar(states[k], s)
    ensures s.sequence == k && next(s, VerdictIn(hist[k])) == Some(t) && Similar(states[k + 1], t)
  {
    var v := VerdictIn(hist[k]);
    assert SimilarEntries(Some(states[k + 1]), next(states[k], v));
    assert SimilarEntries(next(states[k], v), next(s, v));
    t := next(s, v).value;
  }

  /**
   The part of a history from its `k`-th state on, and whatever the schedule does after it, is what the schedule does
   from there.
   */
  lemma {:induction false} SuffixIsScheduled(next: Entry, states: seq<TaskRunState>, hist: seq<Cause>, k: nat,
                                             s: TaskRunState, verdicts: nat -> Option<Verdict>, more: nat)
    requires OpaqueEntry(next) && Unfolds(next, states, hist) && Answers(hist, verdicts)
    requires k <= |hist| && Similar(states[k], s)
    ensures SimilarLogs(states[k + 1..] + Scheduled(next, states[|hist|], verdicts, more),
                        Scheduled(next, s, verdicts, |hist| - k + more))
    decreases |hist| - k
  {
    var after := Scheduled(next, states[|hist|], verdicts, more);
    if k == |hist| {
      ScheduledSimilar(next, states[k], s, verdicts, more);
      assert states[k + 1..] + after == after;
    } else {
      var t := NextUnfolds(next, states, hist, k, s);
      SuffixIsScheduled(next, states, hist, k + 1, t, verdicts, more);
      SimilarCons(states[k + 1], states[k + 2..] + after, t, Scheduled(next, t, verdicts, |hist| - k - 1 + more));
      assert states[k + 1..] + after == [states[k + 1]] + (states[k + 2..] + after);
    }
  }

  lemma WholeIsScheduled(next: Entry, seed: TaskRunState, log: seq<TaskRunState>, hist: seq<Cause>,
                         verdicts: nat -> Option<Verdict>, more: nat)
    requires OpaqueEntry(next) && Unfolds(next, [seed] + log, hist) && Answers(hist, verdicts)
    ensures SimilarLogs(log + Scheduled(next, ([seed] + log)[|log|], verdicts, more),
                        Scheduled(next, seed, verdicts, |log| + more))
  {
    SuffixIsScheduled(next, [seed] + log, hist, 0, seed, verdicts, more);
    assert ([seed] + log)[1..] == log;
  }

  /**
   Whatever observations and verdicts went into a log, and whoever wrote it, it is the log of the uninterrupted run
   that makes the same observations and takes the same verdicts, and that run goes on as from the log's last entry.
   */
  lemma LogIsScheduledRun(task: Task, g: Topology, log: seq<TaskRunState>, hist: seq<Cause>, prior: Option<Value>,
                          verdicts: nat -> Option<Verdict>, world: nat -> Env, more: nat)
    requires WorkspaceOpaque(g) && IsChain(task, g, log, hist) && Sees(hist, world) && Answers(hist, verdicts)
    requires log != [] && hist[0].Stepped? ==> hist[0].prior == prior
    ensures var next, seed := Entries(g, world), Seed(task, prior);
      SimilarLogs(log + Scheduled(next, Base(task, log, |log|, prior), verdicts, more),
                  Scheduled(next, seed, verdicts, |log| + more))
  {
    ChainUnfolds(task, g, log, hist, prior, world);
    EntriesAreOpaque(g, world);
    WholeIsScheduled(Entries(g, world), Seed(task, prior), log, hist, verdicts, more);
    assert ([Seed(task, prior)] + log)[|log|] == Base(task, log, |log|, prior);
  }

  // With verdicts only at pauses it does not matter at which entries they came, only in which order.

  /** The verdicts a history merged, in order. */
  ghost function VerdictsOf(hist: seq<Cause>): seq<Verdict> {
    if hist == [] then []
    else if hist[0].Merged? then [hist[0].verdict] + VerdictsOf(hist[1..])
    else VerdictsOf(hist[1..])
  }

  /**
   The run nobody interrupts: step while running, take the next verdict at each pause, stop at the end of the
   graph, at an error, when no verdict is left, or after `fuel` entries.
   */
  ghost function Uninterrupted(next: Entry, s: TaskRunState, verdicts: seq<Verdict>, fuel: nat): seq<TaskRunState>
    decreases fuel
  {
    if fuel == 0 || s.finished then []
    else
      var answered := s.awaitingApproval && verdicts != [];
      match next(s, if answered then Some(verdicts[0]) else None)
      case None => []
      case Some(t) => [t] + Uninterrupted(next, t, if answered then verdicts[1..] else verdicts, fuel - 1)
  }

  /** Steps are made where nothing waits, and verdicts are merged where something does. */
  ghost predicate AtPauses(states: seq<TaskRunState>, hist: seq<Cause>) {
    && |states| == |hist| + 1
    && forall i :: 0 <= i < |hist| ==> !states[i].finished && (hist[i].Merged? <==> states[i].awaitingApproval)
  }

  /** The part of a history from its `k`-th state on is what the uninterrupted run does from there. */
  lemma {:induction false} SuffixIsUninterrupted(next: Entry, states: seq<TaskRunState>, hist: seq<Cause>, k: nat,
                                                 s: TaskRunState, more: seq<Verdict>, fuel: nat)
    requires OpaqueEntry(next) && Unfolds(next, states, hist) && AtPauses(states, hist)
    requires k <= |hist| && Similar(states[k], s)
    requires fuel == |hist| - k || (states[|hist|].finished && fuel >= |hist| - k)
    ensures SimilarLogs(states[k + 1..], Uninterrupted(next, s, VerdictsOf(hist[k..]) + more, fuel))
    decreases |hist| - k
  {
    if k < |hist| {
      var verdicts, rest := VerdictsOf(hist[k..]) + more, VerdictsOf(hist[k + 1..]) + more;
      assert hist[k..][1..] == hist[k + 1..];
      var t := NextUnfolds(next, states, hist, k, s);
      SuffixIsUninterrupted(next, states, hist, k + 1, t, more, fuel - 1);
      assert hist[k].Merged? ==> verdicts[1..] == rest;
      var after := Uninterrupted(next, t, rest, fuel - 1);
      assert Uninterrupted(next, s, verdicts, fuel) == [t] + after;
      SimilarCons(states[k + 1], states[k + 2..], t, after);
      assert states[k + 1..] == [states[k + 1]] + states[k + 2..];
    }
  }

  lemma ChainAtPauses(task: Task, g: Topology, log: seq<TaskRunState>, hist: seq<Cause>, prior: Option<Value>)
    requires Compiled(g) && IsChain(task, g, log, hist) && DecidedOnlyAtPauses(log, hist)
    ensures AtPauses([Seed(task, prior)] + log, hist)
  {
    var states := [Seed(task, prior)] + log;
    forall i | 0 <= i < |hist| ensures !states[i].finished && (hist[i].Merged? <==> states[i].awaitingApproval) {
      assert Follows(task, g, log, hist, i);
      if i > 0 {
        assert states[i] == log[i - 1];
        if log[i - 1].finished { FinishedIsLast(task, g, log, hist, i - 1); }
      }
    }
  }

  /**
   With verdicts given at pauses, a log pieced together by any number of workers is the log of the uninterrupted run
   that makes the same observations; if it has reached the end, so has the uninterrupted run, whatever fuel and
   verdicts it has left.
   */
  lemma LogIsUninterruptedRun(task: Task, g: Topology, log: seq<TaskRunState>, hist: seq<Cause>, prior: Option<Value>,
                              more: seq<Verdict>, world: nat -> Env, extra: nat)
    requires Compiled(g) && WorkspaceOpaque(g) && IsChain(task, g, log, hist) && DecidedOnlyAtPauses(log, hist)
    requires Sees(hist, world) && (log != [] && hist[0].Stepped? ==> hist[0].prior == prior)
    ensures var next, seed, verdicts := Entries(g, world), Seed(task, prior), VerdictsOf(hist) + more;
      && SimilarLogs(log, Uninterrupted(next, seed, verdicts, |log|))
      && (log != [] && log[|log| - 1].finished ==> SimilarLogs(log, Uninterrupted(next, seed, verdicts, |log| + extra)))
  {
    var seed, next := Seed(task, prior), Entries(g, world);
    var states := [seed] + log;
    ChainUnfolds(task, g, log, hist, prior, world);
    EntriesAreOpaque(g, world);
    ChainAtPauses(task, g, log, hist, prior);
    assert states[1..] == log && hist[0..] == hist;
    SuffixIsUninterrupted(next, states, hist, 0, seed, more, |log|);
    if log != [] && log[|log| - 1].finished {
      SuffixIsUninterrupted(next, states, hist, 0, seed, more, |log| + extra);
    }
  }

  /** Nodes that observe nothing but the state. */
  ghost predicate Unobserving(g: Topology) {
    forall n, s, e, f :: n in g.nodes ==> Execute(g.nodes[n], n, s, e) == Execute(g.nodes[n], n, s, f)
  }

  /** Nodes that observe nothing step alike in every world. */
  lemma WorldDoesNotMatter(g: Topology, s: TaskRunState, verdict: Option<Verdict>, world: nat -> Env, other: nat -> Env)
    requires Unobserving(g)
    ensures Entries(g, world)(s, verdict) == Entries(g, other)(s, verdict)
  {
    if g.entry.Some? && Executing(g, s) in g.nodes {
      var n := Executing(g, s);
      assert Execute(g.nodes[n], n, s, world(s.sequence)) == Execute(g.nodes[n], n, s, other(s.sequence));
    }
  }

  /** Entries that are alike state by state make the same run. */
  lemma {:induction false} SameEntriesSameRun(next: Entry, other: Entry, s: TaskRunState,
                                              verdicts: nat -> Option<Verdict>, fuel: nat)
    requires forall t, v :: next(t, v) == other(t, v)
    ensures Scheduled(next, s, verdicts, fuel) == Scheduled(other, s, verdicts, fuel)
    decreases fuel
  {
    if fuel > 0 && next(s, verdicts(s.sequence)).Some? {
      SameEntriesSameRun(next, other, next(s, verdicts(s.sequence)).value, verdicts, fuel - 1);
    }
  }

  lemma {:induction false} SameEntriesSameAnswers(next: Entry, other: Entry, s: TaskRunState, verdicts: seq<Verdict>,
                                                  fuel: nat)
    requires forall t, v :: next(t, v) == other(t, v)
    ensures Uninterrupted(next, s, verdicts, fuel) == Uninterrupted(other, s, verdicts, fuel)
    decreases fuel
  {
    if fuel > 0 && !s.finished {
      var answered := s.awaitingApproval && verdicts != [];
      var t := next(s, if answered then Some(verdicts[0]) else None);
      if t.Some? { SameEntriesSameAnswers(next, other, t.value, if answered then verdicts[1..] else verdicts, fuel - 1); }
    }
  }
}
