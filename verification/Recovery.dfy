/**
 Crash recovery and approval guarantees, lifted to every run of the execution protocol.
 */
module Recovery {
  import opened Options
  import opened RunState
  import opened Gates
  import opened Graph
  import opened Chain
  import opened Replay
  import opened TaskStore
  import opened Execution
  import opened Durability
  import opened Budget

  /** What the result builder reads does not depend on the workspace keys. */
  lemma SimilarResults(s: TaskRunState, t: TaskRunState)
    requires Similar(s, t)
    ensures BuildResult(s) == BuildResult(t) && Reports(BuildResult(s).0, t)
  {
    SimilarReads(s, t, Output);
    BuiltResultReports(t);
  }

  // ----- Every run -----

  /** What went into a run's log: the session history at its start, the verdicts merged, and the observations made. */
  datatype Feed = Feed(prior: Option<Value>, verdicts: nat -> Option<Verdict>, world: nat -> Env)

  ghost predicate Fed(s: System, feed: Feed) {
    && Sees(s.hist, feed.world) && Answers(s.hist, feed.verdicts)
    && (s.hist != [] && s.hist[0].Stepped? ==> s.hist[0].prior == feed.prior)
  }

  /** Every state of the system was fed something. */
  lemma RunsAreFed(s: System) returns (feed: Feed)
    ensures Fed(s, feed) && forall k :: |s.hist| <= k ==> feed.verdicts(k) == None
  {
    var world, verdicts := HistoryHasWorld(s.hist);
    feed := Feed(if s.hist != [] && s.hist[0].Stepped? then s.hist[0].prior else None, verdicts, world);
  }

  /** The first `n` states of the run nobody interrupts. */
  ghost function Reference(p: Params, feed: Feed, n: nat): seq<TaskRunState> {
    Scheduled(Entries(p.graph, feed.world), Seed(p.task, feed.prior), feed.verdicts, n)
  }

  /** What that run does in `n` more entries from a state on. */
  ghost function Onward(p: Params, s: System, feed: Feed, n: nat): seq<TaskRunState> {
    Scheduled(Entries(p.graph, feed.world), Base(p.task, Log(s.db), |s.db.checkpoints|, feed.prior), feed.verdicts, n)
  }

  lemma LogIsReference(p: Params, s: System, feed: Feed, more: nat)
    requires WorkspaceOpaque(p.graph) && LogOk(p, s.db, s.hist) && Fed(s, feed)
    ensures SimilarLogs(Log(s.db) + Onward(p, s, feed, more), Reference(p, feed, |s.db.checkpoints| + more))
  {
    LogIsScheduledRun(p.task, p.graph, Log(s.db), s.hist, feed.prior, feed.verdicts, feed.world, more);
  }

  /**
   In every run, whatever crashed, raced and was resumed, the log is that of the run nobody interrupts, entry by entry
   and up to the workspace keys, and that run goes on from there as it would from the newest checkpoint.
   */
  lemma RecoveredLogIsReference(p: Params, s: System, feed: Feed, more: nat)
    requires WorkspaceOpaque(p.graph) && Reachable(p, s) && Fed(s, feed)
    ensures SimilarLogs(Log(s.db) + Onward(p, s, feed, more), Reference(p, feed, |s.db.checkpoints| + more))
  {
    ReachableIsSound(p, s);
    LogIsReference(p, s, feed, more);
  }

  /** A stored result that does not come from giving the task up. */
  ghost predicate Completed(row: Row) {
    row.result.Some? && !(row.result.value.error.Some? && row.result.value.error.value.code == Abandoned)
  }

  /** The stored result reports a finished state of the reference, within the length of the log. */
  ghost predicate ResultIsIn(s: System, reference: seq<TaskRunState>) {
    && s.db.row.result.Some?
    && exists k :: 0 <= k < |reference| && reference[k].finished
                   && Reports(s.db.row.result.value, reference[k])
  }

  /** In every run, a result that does not come from giving up is that of a state in which the reference finished. */
  lemma RecoveredResultIsReference(p: Params, s: System, feed: Feed)
    requires WorkspaceOpaque(p.graph) && Reachable(p, s) && Fed(s, feed) && Completed(s.db.row)
    ensures ResultIsIn(s, Reference(p, feed, |s.db.checkpoints|))
  {
    ReachableIsSound(p, s);
    var k :| 0 <= k < |s.db.checkpoints| && s.db.checkpoints[k].snapshot.finished
             && s.db.row.result.value == BuildResult(s.db.checkpoints[k].snapshot).0;
    LogIsReference(p, s, feed, 0);
    var log, reference := Log(s.db), Reference(p, feed, |s.db.checkpoints|);
    assert log + Onward(p, s, feed, 0) == log;
    assert Similar(log[k], reference[k]);
    SimilarResults(log[k], reference[k]);
  }

  ghost predicate SimilarPrefix(a: seq<TaskRunState>, b: seq<TaskRunState>) {
    forall i :: 0 <= i < |a| && i < |b| ==> Similar(a[i], b[i])
  }

  lemma CommonPrefix(a: seq<TaskRunState>, c: seq<TaskRunState>, b: seq<TaskRunState>, d: seq<TaskRunState>,
                     reference: seq<TaskRunState>)
    requires SimilarLogs(a + c, reference) && SimilarLogs(b + d, reference)
    ensures SimilarPrefix(a, b)
  {
    forall i | 0 <= i < |a| && i < |b| ensures Similar(a[i], b[i]) {
      assert (a + c)[i] == a[i] && (b + d)[i] == b[i];
      assert Similar((a + c)[i], reference[i]) && Similar((b + d)[i], reference[i]);
    }
  }

  /** Two runs fed the same write the same log as far as both have come, however each was cut. */
  lemma RunsAgree(p: Params, a: System, b: System, feed: Feed)
    requires WorkspaceOpaque(p.graph) && Reachable(p, a) && Reachable(p, b) && Fed(a, feed) && Fed(b, feed)
    ensures SimilarPrefix(Log(a.db), Log(b.db))
  {
    var m, n := |a.db.checkpoints|, |b.db.checkpoints|;
    RecoveredLogIsReference(p, a, feed, n);
    RecoveredLogIsReference(p, b, feed, m);
    CommonPrefix(Log(a.db), Onward(p, a, feed, n), Log(b.db), Onward(p, b, feed, m), Reference(p, feed, m + n));
  }

  lemma ReferenceIgnoresWorld(p: Params, feed: Feed, world: nat -> Env, n: nat)
    requires Unobserving(p.graph)
    ensures Reference(p, feed, n) == Reference(p, feed.(world := world), n)
  {
    var next, other := Entries(p.graph, feed.world), Entries(p.graph, world);
    forall t, v ensures next(t, v) == other(t, v) { WorldDoesNotMatter(p.graph, t, v, feed.world, world); }
    SameEntriesSameRun(next, other, Seed(p.task, feed.prior), feed.verdicts, n);
  }

  /** Nodes that observe nothing recover the same run whatever the world shows them. */
  lemma UnobservedRunsNeedNoWorld(p: Params, s: System, feed: Feed, world: nat -> Env)
    requires WorkspaceOpaque(p.graph) && Unobserving(p.graph) && Reachable(p, s) && Fed(s, feed)
    ensures SimilarLogs(Log(s.db), Reference(p, feed.(world := world), |s.db.checkpoints|))
  {
    RecoveredLogIsReference(p, s, feed, 0);
    assert Log(s.db) + Onward(p, s, feed, 0) == Log(s.db);
    ReferenceIgnoresWorld(p, feed, world, |s.db.checkpoints|);
  }

  // ----- Runs in which every verdict meets its pause -----

  /** The run nobody interrupts, taking the next verdict at each pause. */
  ghost function Answered(p: Params, feed: Feed, verdicts: seq<Verdict>, n: nat): seq<TaskRunState> {
    Uninterrupted(Entries(p.graph, feed.world), Seed(p.task, feed.prior), verdicts, n)
  }

  /** As long as it goes, and to its end once it has finished, the log is the answered run's. */
  ghost predicate LogIsAnswered(p: Params, s: System, feed: Feed, more: seq<Verdict>, extra: nat) {
    var log, verdicts := Log(s.db), VerdictsOf(s.hist) + more;
    && SimilarLogs(log, Answered(p, feed, verdicts, |log|))
    && (ReachedEnd(s) ==> SimilarLogs(log, Answered(p, feed, verdicts, |log| + extra)))
  }

  ghost predicate ReachedEnd(s: System) {
    |s.db.checkpoints| > 0 && s.db.checkpoints[|s.db.checkpoints| - 1].snapshot.finished
  }

  /**
   When verdicts meet their pauses their order is all that matters: the log is that of the uninterrupted run which takes
   the next verdict at each pause.  Once the log has reached the end that run ends there too, however many entries and
   verdicts it is allowed.
   */
  lemma MetRunsAreAnswered(p: Params, s: System, feed: Feed, more: seq<Verdict>, extra: nat)
    requires Compiled(p.graph) && WorkspaceOpaque(p.graph) && Reachable(p, s) && Met(s) && Fed(s, feed)
    ensures LogIsAnswered(p, s, feed, more, extra)
  {
    ReachableIsSound(p, s);
    LogIsUninterruptedRun(p.task, p.graph, Log(s.db), s.hist, feed.prior, more, feed.world, extra);
  }

  /** A completed task's result is the one its newest checkpoint, a finished one, gives. */
  lemma CompletedIsNewest(p: Params, s: System)
    requires Compiled(p.graph) && Reachable(p, s) && Met(s) && Completed(s.db.row)
    ensures ReachedEnd(s) && s.db.row.result.value == BuildResult(Log(s.db)[|Log(s.db)| - 1]).0
  {
    ReachableIsSound(p, s);
    var k :| 0 <= k < |s.db.checkpoints| && s.db.checkpoints[k].snapshot.finished
             && s.db.row.result.value == BuildResult(s.db.checkpoints[k].snapshot).0;
    FinishedIsLast(p.task, p.graph, Log(s.db), s.hist, k);
  }

  lemma LastSimilar(a: seq<TaskRunState>, b: seq<TaskRunState>)
    requires SimilarLogs(a, b) && a != []
    ensures b != [] && b[|b| - 1].finished == a[|a| - 1].finished
    ensures Reports(BuildResult(a[|a| - 1]).0, b[|b| - 1])
  {
    SimilarResults(a[|a| - 1], b[|b| - 1]);
  }

  /** The stored result reports the end of the answered run. */
  ghost predicate ResultIsAnswered(p: Params, s: System, feed: Feed, more: seq<Verdict>, extra: nat) {
    var answered := Answered(p, feed, VerdictsOf(s.hist) + more, |s.hist| + extra);
    && s.db.row.result.Some? && answered != [] && answered[|answered| - 1].finished
    && Reports(s.db.row.result.value, answered[|answered| - 1])
  }

  /** Unless the task was given up, the stored result reports the state in which the answered run ends. */
  lemma MetResultsAreAnswered(p: Params, s: System, feed: Feed, more: seq<Verdict>, extra: nat)
    requires Compiled(p.graph) && WorkspaceOpaque(p.graph) && Reachable(p, s) && Met(s) && Fed(s, feed)
    requires Completed(s.db.row)
    ensures ResultIsAnswered(p, s, feed, more, extra)
  {
    CompletedIsNewest(p, s);
    MetRunsAreAnswered(p, s, feed, more, extra);
    LastSimilar(Log(s.db), Answered(p, feed, VerdictsOf(s.hist) + more, |s.hist| + extra));
  }

  /** The stored result fails with the error that the node which led to the end returned, and succeeds if it had none. */
  ghost predicate ToldBy(p: Params, s: System, j: nat) {
    && j < |Log(s.db)| == |s.hist| && s.db.row.result.Some?
    && var result := s.db.row.result.value;
       exists error :: EndsAt(p.task, p.graph, Log(s.db), s.hist, j, error)
         && (result.status == ResultFailed <==> error.Some?)
         && (ResultMatches(s.db.row) ==> (s.db.row.state == Failed <==> error.Some?))
         && result.error == if error.Some? then Some(TaskError(GraphFailure, error.value)) else None
  }

  /** In every run, a task that was not given up failed exactly if the node that led it to the end returned an error. */
  lemma RunsFailOnNodeErrors(p: Params, s: System)
    requires Compiled(p.graph) && Reachable(p, s) && Completed(s.db.row)
    ensures exists j: nat :: ToldBy(p, s, j)
  {
    ReachableIsSound(p, s);
    var k :| 0 <= k < |s.db.checkpoints| && s.db.checkpoints[k].snapshot.finished
             && s.db.row.result.value == BuildResult(s.db.checkpoints[k].snapshot).0;
    BuiltResultReports(Log(s.db)[k]);
    var j := FinishedBy(p.task, p.graph, Log(s.db), s.hist, k);
    assert ToldBy(p, s, j);
  }

  lemma SimilarVia(a: seq<TaskRunState>, b: seq<TaskRunState>, c: seq<TaskRunState>)
    requires SimilarLogs(a, c) && SimilarLogs(b, c)
    ensures SimilarLogs(a, b)
  {
  }

  lemma AnsweredIgnoresWorld(p: Params, i: Feed, j: Feed, verdicts: seq<Verdict>, n: nat)
    requires i.prior == j.prior && (i.world == j.world || Unobserving(p.graph))
    ensures Answered(p, i, verdicts, n) == Answered(p, j, verdicts, n)
  {
    if i.world != j.world {
      var next, other := Entries(p.graph, i.world), Entries(p.graph, j.world);
      forall t, v ensures next(t, v) == other(t, v) { WorldDoesNotMatter(p.graph, t, v, i.world, j.world); }
      SameEntriesSameAnswers(next, other, Seed(p.task, i.prior), verdicts, n);
    }
  }

  /**
   Two runs of met verdicts that both finish, with the same start and the same verdicts in the same order, at whatever
   entries, write the same log: if they observed the same, or if their nodes observe nothing but the state.
   */
  lemma FinishedRunsAgree(p: Params, a: System, b: System, i: Feed, j: Feed)
    requires Compiled(p.graph) && WorkspaceOpaque(p.graph) && Reachable(p, a) && Met(a) && Reachable(p, b) && Met(b)
    requires ReachedEnd(a) && ReachedEnd(b) && Fed(a, i) && Fed(b, j)
    requires i.prior == j.prior && VerdictsOf(a.hist) == VerdictsOf(b.hist)
    requires i.world == j.world || Unobserving(p.graph)
    ensures SimilarLogs(Log(a.db), Log(b.db))
  {
    var m, n := |a.db.checkpoints|, |b.db.checkpoints|;
    MetRunsAreAnswered(p, a, i, [], n);
    MetRunsAreAnswered(p, b, j, [], m);
    AnsweredIgnoresWorld(p, i, j, VerdictsOf(a.hist) + [], m + n);
    SimilarVia(Log(a.db), Log(b.db), Answered(p, i, VerdictsOf(a.hist) + [], m + n));
  }

  // ----- Gates and budget -----

  /** In every run, at every moment of the log, passages plus a pending decision never exceed the merged verdicts. */
  lemma RunsConserveApprovals(p: Params, s: System, k: nat, prior: Option<Value>)
    requires Disciplined(p.task, p.graph) && Reachable(p, s) && k <= |s.db.checkpoints|
    ensures |Log(s.db)| == |s.hist|
    ensures Passages(p.task, p.graph, Log(s.db), s.hist, k)
            + (if PendingDecision(Base(p.task, Log(s.db), k, prior).data).Some? then 1 else 0) <= Verdicts(s.hist, k)
  {
    ReachableIsSound(p, s);
    ApprovalsConserved(p.task, p.graph, Log(s.db), s.hist, k, prior);
  }

  /** Entry `k` is a step out of a human gate. */
  ghost predicate LeavesGateAt(p: Params, s: System, k: nat)
    requires k < |s.hist| == |s.db.checkpoints|
  {
    && s.hist[k].Stepped? && !Log(s.db)[k].awaitingApproval && p.graph.entry.Some?
    && var at := Executing(p.graph, Input(p.task, Log(s.db), s.hist, k));
       at in p.graph.nodes && p.graph.nodes[at].HumanGate?
  }

  /** In every run, a step that leaves a human gate had an operator's verdict committed for it, and for nothing else. */
  lemma RunsGateOnVerdicts(p: Params, s: System)
    requires Disciplined(p.task, p.graph) && Reachable(p, s)
    ensures |s.hist| == |s.db.checkpoints|
    ensures forall k | 0 <= k < |s.hist| && LeavesGateAt(p, s, k) ::
           exists j :: 0 <= j < k && s.hist[j].Merged? && Resume(j + 1) in s.db.outbox
             && DecidedAt(p.task, p.graph, Log(s.db), s.hist, j, k, s.hist[j].verdict.decision)
  {
    ReachableIsSound(p, s);
    forall k | 0 <= k < |s.hist| && LeavesGateAt(p, s, k)
      ensures exists j :: 0 <= j < k && s.hist[j].Merged? && Resume(j + 1) in s.db.outbox
                && DecidedAt(p.task, p.graph, Log(s.db), s.hist, j, k, s.hist[j].verdict.decision)
    {
      var j := LeavingHumanGate(p.task, p.graph, Log(s.db), s.hist, k);
      assert Resume(j + 1) in s.db.outbox;
    }
  }

  /** Entry `j` is the verdict that entry `k` left its gate on, and what it brought is handed on. */
  ghost predicate HandsOnAt(p: Params, s: System, j: int, k: nat)
    requires k < |s.hist| == |s.db.checkpoints| && LeavesGateAt(p, s, k)
  {
    && 0 <= j < k && s.hist[j].Merged?
    && DecidedAt(p.task, p.graph, Log(s.db), s.hist, j, k, s.hist[j].verdict.decision)
    && var input := Input(p.task, Log(s.db), s.hist, k);
       HandsOn(p.graph.nodes[Executing(p.graph, input)], s.hist[j].verdict, input.data, Log(s.db)[k].data)
  }

  /** In every run, the node behind a human gate reads the feedback given with the verdict that let the run through. */
  lemma RunsHandOnFeedback(p: Params, s: System)
    requires Disciplined(p.task, p.graph) && KeepsFeedback(p.graph) && Reachable(p, s)
    ensures |s.hist| == |s.db.checkpoints|
    ensures forall k | 0 <= k < |s.hist| && LeavesGateAt(p, s, k) :: exists j :: HandsOnAt(p, s, j, k)
  {
    ReachableIsSound(p, s);
    forall k | 0 <= k < |s.hist| && LeavesGateAt(p, s, k) ensures exists j :: HandsOnAt(p, s, j, k) {
      var j := LeavingHumanGate(p.task, p.graph, Log(s.db), s.hist, k);
      GateHandsOnVerdict(p.task, p.graph, Log(s.db), s.hist, k, j);
      assert HandsOnAt(p, s, j, k);
    }
  }

  /** Entry `k` is a guarded body running at or above its threshold. */
  ghost predicate OverspendsAt(p: Params, s: System, k: nat)
    requires k < |s.hist| == |s.db.checkpoints|
  {
    && BodyRunsAt(p.task, p.graph, Log(s.db), s.hist, k)
    && OverThreshold(Input(p.task, Log(s.db), s.hist, k), s.hist[k].env)
  }

  /** Entry `verdict` merged an approval, committed with its resume row, that entry `gate` consumed at the budget gate. */
  ghost predicate ApprovedOverspend(p: Params, s: System, verdict: int, gate: int, k: nat)
    requires k < |s.hist| == |s.db.checkpoints|
  {
    && 0 <= verdict < gate < k && BudgetApprovedAt(p.task, p.graph, Log(s.db), s.hist, gate)
    && DecidedAt(p.task, p.graph, Log(s.db), s.hist, verdict, gate, Approve) && Resume(verdict + 1) in s.db.outbox
  }

  /**
   In every run, a guarded body runs at or above its threshold only after the budget gate consumed an approval, and that
   approval was an operator's own, committed before.
   */
  lemma RunsOverspendOnApproval(p: Params, s: System)
    requires Disciplined(p.task, p.graph) && Reachable(p, s)
    ensures |s.hist| == |s.db.checkpoints|
    ensures forall k | 0 <= k < |s.hist| && OverspendsAt(p, s, k) ::
           exists gate, verdict :: ApprovedOverspend(p, s, verdict, gate, k)
  {
    ReachableIsSound(p, s);
    forall k | 0 <= k < |s.hist| && OverspendsAt(p, s, k)
      ensures exists gate, verdict :: ApprovedOverspend(p, s, verdict, gate, k)
    {
      var gate, verdict := OverspendWasApproved(p.task, p.graph, Log(s.db), s.hist, k);
      assert ApprovedOverspend(p, s, verdict, gate, k);
    }
  }

  /** In every run with one usage wiring, the budget gate pauses the task at most once. */
  lemma RunsPauseForBudgetOnce(p: Params, s: System)
    requires Compiled(p.graph) && Disciplined(p.task, p.graph) && Reachable(p, s) && OneWiring(s.hist)
    ensures |s.hist| == |s.db.checkpoints|
    ensures forall k, m | 0 <= k < |s.hist| && 0 <= m < |s.hist|
             && BudgetPauseAt(p.task, p.graph, Log(s.db), s.hist, k)
             && BudgetPauseAt(p.task, p.graph, Log(s.db), s.hist, m) :: k == m
  {
    ReachableIsSound(p, s);
    forall k, m | 0 <= k < |s.hist| && 0 <= m < |s.hist|
                  && BudgetPauseAt(p.task, p.graph, Log(s.db), s.hist, k)
                  && BudgetPauseAt(p.task, p.graph, Log(s.db), s.hist, m)
      ensures k == m
    {
      BudgetPausesOnce(p.task, p.graph, Log(s.db), s.hist, k, m);
    }
  }

  /**
   In every run, a guarded node does what its task's budget rule makes of the usage it sees and of the approvals the
   budget gate has consumed before.
   */
  lemma RunsKeepBudgetRule(p: Params, s: System)
    requires Compiled(p.graph) && Disciplined(p.task, p.graph) && Reachable(p, s)
    ensures |s.hist| == |s.db.checkpoints|
    ensures forall k | 0 <= k < |s.hist| && s.hist[k].Stepped? ::
              AtGuardedNode(p.graph, Input(p.task, Log(s.db), s.hist, k)) ==> RuledAt(p.task, p.graph, Log(s.db), s.hist, k)
  {
    ReachableIsSound(p, s);
    forall k | 0 <= k < |s.hist| && s.hist[k].Stepped? && AtGuardedNode(p.graph, Input(p.task, Log(s.db), s.hist, k))
      ensures RuledAt(p.task, p.graph, Log(s.db), s.hist, k)
    {
      GuardedStepsAreRuled(p.task, p.graph, Log(s.db), s.hist, k);
    }
  }

  /** In every run, the budget gate pauses only a task that gates and has spent its ceiling. */
  lemma RunsPauseOnlyOverBudget(p: Params, s: System)
    requires Disciplined(p.task, p.graph) && Reachable(p, s)
    ensures |s.hist| == |s.db.checkpoints|
    ensures forall k | 0 <= k < |s.hist| && BudgetPauseAt(p.task, p.graph, Log(s.db), s.hist, k) ::
              && OverBudget(p.task, s.hist[k].env) && p.task.budgetPolicy == "gate_on_threshold"
              && OverThreshold(Input(p.task, Log(s.db), s.hist, k), s.hist[k].env)
  {
    ReachableIsSound(p, s);
    forall k | 0 <= k < |s.hist| && BudgetPauseAt(p.task, p.graph, Log(s.db), s.hist, k)
      ensures OverBudget(p.task, s.hist[k].env) && p.task.budgetPolicy == "gate_on_threshold"
      ensures OverThreshold(Input(p.task, Log(s.db), s.hist, k), s.hist[k].env)
    {
      PausesExactlyOverBudget(p.task, p.graph, Log(s.db), s.hist, k);
    }
  }
}
