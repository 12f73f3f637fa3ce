/**
 The progress half of recovery: one delivery that nobody disturbs carries a task from wherever a run left it to the
 end the uninterrupted run comes to.
 */
module Progress {
  import opened Options
  import opened RunState
  import opened Gates
  import opened Graph
  import opened Chain
  import opened Replay
  import opened TaskStore
  import opened Execution
  import opened Recovery
  import opened Worker

  /** Without verdicts to come, what the schedule does is what a worker drives. */
  lemma {:induction false} DrivenIsScheduled(g: Topology, s: TaskRunState, envs: seq<Env>,
                                             verdicts: nat -> Option<Verdict>, world: nat -> Env)
    requires forall i :: 0 <= i < |envs| ==> envs[i] == world(s.sequence + i)
    requires forall k :: s.sequence <= k ==> verdicts(k) == None
    ensures Driven(g, s, envs) == Scheduled(Entries(g, world), s, verdicts, |envs|)
    decreases |envs|
  {
    if envs != [] && !s.finished && !s.awaitingApproval && Step(g, s, envs[0]).Ok? {
      assert envs[0] == world(s.sequence + 0);
      var t, rest := Step(g, s, envs[0]).value, envs[1..];
      StepAdvances(g, s, envs[0]);
      assert forall i :: 0 <= i < |rest| ==> rest[i] == envs[i + 1];
      DrivenIsScheduled(g, t, rest, verdicts, world);
    } else if envs != [] {
      assert envs[0] == world(s.sequence + 0);
    }
  }

  lemma {:induction false} DrivenKeepsPosition(g: Topology, s: TaskRunState, envs: seq<Env>)
    requires Compiled(g) && Positioned(g, s)
    ensures Positioned(g, EndState(s, Driven(g, s, envs)))
    decreases |envs|
  {
    if envs != [] && !s.finished && !s.awaitingApproval && Step(g, s, envs[0]).Ok? {
      StepKeepsPosition(g, s, envs[0]);
      DrivenKeepsPosition(g, Step(g, s, envs[0]).value, envs[1..]);
    }
  }

  /** The environments are what the world shows next, and no verdict comes meanwhile. */
  ghost predicate Foreseen(s: System, feed: Feed, envs: seq<Env>) {
    && Fed(s, feed) && (forall k :: |s.hist| <= k ==> feed.verdicts(k) == None)
    && (forall i :: 0 <= i < |envs| ==> envs[i] == feed.world(|s.hist| + i))
  }

  /** Where the uninterrupted run is after at most `n` entries. */
  ghost function ReferenceEnd(p: Params, feed: Feed, n: nat): TaskRunState {
    EndState(Seed(p.task, feed.prior), Reference(p, feed, n))
  }

  /** A state to go on from: the newest entry, or the seed, up to the workspace. */
  ghost predicate GoesOn(p: Params, s: System, feed: Feed, start: TaskRunState) {
    && Similar(Base(p.task, Log(s.db), |s.db.checkpoints|, feed.prior), start)
    && start.sequence == |s.hist| && Positioned(p.graph, start)
  }

  /** What a delivery starts from is such a state. */
  lemma {:induction false} LoadedIsNewest(p: Params, s: System, feed: Feed, prior: Option<Value>,
                                          workspace: Option<Workspace>)
    requires Compiled(p.graph) && LogOk(p, s.db, s.hist) && (s.hist == [] ==> feed.prior == prior)
    ensures GoesOn(p, s, feed, LoadState(p, s.db, prior, workspace))
  {
    LatestIsLast(s.db.checkpoints);
    var n := |s.db.checkpoints|;
    ReseedKeeps(Base(p.task, Log(s.db), n, feed.prior), workspace);
    if n > 0 { ChainKeepsPosition(p.task, p.graph, Log(s.db), s.hist, n - 1); }
  }

  lemma {:induction false} DrivenIsOnward(p: Params, s: System, feed: Feed, start: TaskRunState, envs: seq<Env>)
    requires WorkspaceOpaque(p.graph) && Foreseen(s, feed, envs) && GoesOn(p, s, feed, start)
    ensures SimilarLogs(Onward(p, s, feed, |envs|), Driven(p.graph, start, envs))
  {
    DrivenIsScheduled(p.graph, start, envs, feed.verdicts, feed.world);
    EntriesAreOpaque(p.graph, feed.world);
    ScheduledSimilar(Entries(p.graph, feed.world), Base(p.task, Log(s.db), |s.db.checkpoints|, feed.prior), start,
                     feed.verdicts, |envs|);
  }

  /** A log carried on alike ends alike. */
  lemma {:induction false} EndsAlike(seed: TaskRunState, log: seq<TaskRunState>, onward: seq<TaskRunState>,
                                     start: TaskRunState, driven: seq<TaskRunState>, reference: seq<TaskRunState>)
    requires SimilarLogs(log + onward, reference) && SimilarLogs(onward, driven) && Similar(EndState(seed, log), start)
    ensures SimilarLogs(log + driven, reference)
    ensures Similar(EndState(start, driven), EndState(seed, reference))
  {
    var all := log + onward;
    assert all != [] ==> Similar(all[|all| - 1], reference[|reference| - 1]);
    forall i | 0 <= i < |log + driven| ensures Similar((log + driven)[i], reference[i]) {
      assert Similar(all[i], reference[i]);
      if i >= |log| { assert Similar(onward[i - |log|], driven[i - |log|]); }
    }
  }

  /** The driven log is the reference's and ends where the reference does. */
  ghost predicate EndsAsReference(p: Params, s: System, feed: Feed, start: TaskRunState, envs: seq<Env>) {
    var driven, n := Driven(p.graph, start, envs), |s.db.checkpoints| + |envs|;
    && SimilarLogs(Log(s.db) + driven, Reference(p, feed, n))
    && Similar(EndState(start, driven), ReferenceEnd(p, feed, n)) && Positioned(p.graph, EndState(start, driven))
  }

  lemma {:induction false} DrivenEnds(p: Params, s: System, feed: Feed, start: TaskRunState, envs: seq<Env>,
                                      driven: seq<TaskRunState>, onward: seq<TaskRunState>)
    requires GoesOn(p, s, feed, start) && driven == Driven(p.graph, start, envs)
    requires SimilarLogs(onward, driven) && Positioned(p.graph, EndState(start, driven))
    requires SimilarLogs(Log(s.db) + onward, Reference(p, feed, |s.db.checkpoints| + |envs|))
    ensures EndsAsReference(p, s, feed, start, envs)
  {
    EndsAlike(Seed(p.task, feed.prior), Log(s.db), onward, start, driven,
              Reference(p, feed, |s.db.checkpoints| + |envs|));
  }

  /** A delivery drives the log as far as the uninterrupted run gets on the same observations. */
  lemma {:induction false} DeliveryFollows(p: Params, s: System, feed: Feed, prior: Option<Value>,
                                           workspace: Option<Workspace>, envs: seq<Env>)
    requires Compiled(p.graph) && WorkspaceOpaque(p.graph) && LogOk(p, s.db, s.hist) && Foreseen(s, feed, envs)
    requires s.hist == [] ==> feed.prior == prior
    ensures EndsAsReference(p, s, feed, LoadState(p, s.db, prior, workspace), envs)
  {
    LoadedIsNewest(p, s, feed, prior, workspace);
    LogIsReference(p, s, feed, |envs|);
    var start := LoadState(p, s.db, prior, workspace);
    DrivenIsOnward(p, s, feed, start, envs);
    DrivenKeepsPosition(p.graph, start, envs);
    DrivenEnds(p, s, feed, start, envs, Driven(p.graph, start, envs), Onward(p, s, feed, |envs|));
  }

  /** What a row becomes when a run has come to `end`: its result, the pause, or still running. */
  ghost predicate RowSays(row: Row, end: TaskRunState) {
    if end.finished then
      && row.state == (if end.error.Some? then Failed else Succeeded)
      && row.result.Some? && Reports(row.result.value, end)
    else row.state == if end.awaitingApproval then AwaitingApproval else Running
  }

  lemma RowFollows(g: Topology, row: Row, end: TaskRunState, reference: TaskRunState)
    requires WellFormed(g) && Positioned(g, end) && Similar(end, reference) && !Terminal(row.state)
    ensures RowSays(RowAfter(row, end), reference)
  {
    SimilarResults(end, reference);
    BuiltResultReports(reference);
  }

  lemma LogIsNumbered(p: Params, s: System)
    requires LogOk(p, s.db, s.hist)
    ensures NumberedLog(s.db.checkpoints)
  {
    forall i | 0 <= i < |s.db.checkpoints| ensures s.db.checkpoints[i].snapshot.sequence == i + 1 {
      assert Log(s.db)[i].sequence == i + 1;
    }
  }

  lemma LogOfGrown(db: Db, after: Db, driven: seq<TaskRunState>)
    requires after.checkpoints == db.checkpoints + Rows(driven)
    ensures Log(after) == Log(db) + driven
  {
    var n := |db.checkpoints|;
    forall i | 0 <= i < |Log(after)| ensures Log(after)[i] == (Log(db) + driven)[i] {
      assert after.checkpoints[i] == if i < n then db.checkpoints[i] else Rows(driven)[i - n];
    }
  }

  /**
   From every reachable state whose row is not terminal, one delivery that nobody disturbs and that gets its workspace
   takes the log as far as the uninterrupted run gets on the same observations, and is a run.  The row then has that
   run's result where it finishes, waits for approval where it pauses, and is running where it raises or has more to do.
   */
  method Redeliver(store: Store, p: Params, w: nat, prior: Option<Value>, provision: Provision, envs: seq<Env>,
                   ghost s0: System, ghost feed: Feed)
      returns (ghost s: System)
    requires Compiled(p.graph) && WorkspaceOpaque(p.graph) && Reachable(p, s0)
    requires store.View() == s0.db && w !in s0.workers && !Terminal(store.row.state) && !Lacking(provision)
    requires Foreseen(s0, feed, envs) && (s0.hist == [] ==> feed.prior == prior)
    modifies store
    ensures Reachable(p, s) && s.db == store.View()
    ensures SimilarLogs(Log(store.View()), Reference(p, feed, |s0.db.checkpoints| + |envs|))
    ensures RowSays(store.row, ReferenceEnd(p, feed, |s0.db.checkpoints| + |envs|))
  {
    ReachableIsSound(p, s0);
    LogIsNumbered(p, s0);
    DeliveryFollows(p, s0, feed, prior, Stamped(provision), envs);
    ghost var start := LoadState(p, s0.db, prior, Stamped(provision));
    ghost var driven := Driven(p.graph, start, envs);
    RowFollows(p.graph, s0.db.row, EndState(start, driven), ReferenceEnd(p, feed, |s0.db.checkpoints| + |envs|));
    var ran: bool;
    ran, s := HandleMessage(store, p, w, prior, provision, envs, s0);
    ReachedIsReachable(p, s0, s);
    LogOfGrown(s0.db, store.View(), driven);
  }
}
