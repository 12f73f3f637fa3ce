/**
 Which logs the execution protocol can write: exactly the chains in which no verdict comes before the first pause.  So
 what is shown of such chains is shown of runs, and a chain that breaks a rule is a run that does.
 */
module Realization {
  import opened Options
  import opened RunState
  import opened Graph
  import opened Chain
  import opened TaskStore
  import opened Execution
  import opened Durability
  import opened Worker

  ghost predicate PausedBefore(log: seq<TaskRunState>, k: nat)
    requires k <= |log|
  {
    exists j :: 0 <= j < k && log[j].awaitingApproval
  }

  /** Every verdict comes after some pause, if not onto it. */
  ghost predicate VerdictsAfterPause(log: seq<TaskRunState>, hist: seq<Cause>)
    requires |log| == |hist|
  {
    forall k :: 0 <= k < |hist| && hist[k].Merged? ==> PausedBefore(log, k)
  }

  ghost predicate IsLogOf(p: Params, log: seq<TaskRunState>, hist: seq<Cause>, acts: seq<Action>) {
    Log(Exec(p, acts).db) == log && Exec(p, acts).hist == hist
  }

  // ----- A log is such a chain -----

  ghost predicate PauseFirst(s: System) {
    && |s.hist| == |s.db.checkpoints| && VerdictsAfterPause(Log(s.db), s.hist)
    && (s.db.row.state == AwaitingApproval ==> PausedBefore(Log(s.db), |s.hist|))
  }

  /** A worker that writes a pause holds a paused checkpoint. */
  lemma PauseNeedsPaused(p: Params, s: System, a: Action)
    requires Inv(p, s) && PauseLands(s, a)
    ensures PausedBefore(Log(s.db), |s.db.checkpoints|)
  {
    var held := s.workers[a.w].held;
    assert HeldOk(p, Log(s.db), held);
    assert Log(s.db)[held.state.sequence - 1].awaitingApproval;
  }

  lemma GrownStaysPausedFirst(log: seq<TaskRunState>, hist: seq<Cause>, next: TaskRunState, cause: Cause)
    requires |log| == |hist| && VerdictsAfterPause(log, hist) && (cause.Merged? ==> PausedBefore(log, |log|))
    ensures VerdictsAfterPause(log + [next], hist + [cause])
    ensures PausedBefore(log, |log|) ==> PausedBefore(log + [next], |log| + 1)
  {
    var grown := log + [next];
    forall k | 0 <= k <= |hist| && (hist + [cause])[k].Merged? ensures PausedBefore(grown, k) {
      assert k < |hist| ==> hist[k].Merged?;
      var j :| 0 <= j < k && log[j].awaitingApproval;
      assert grown[j] == log[j];
    }
    if PausedBefore(log, |log|) {
      var j :| 0 <= j < |log| && log[j].awaitingApproval;
      assert grown[j] == log[j];
    }
  }

  /** No row waits before a pause, and a verdict needs a row that waits. */
  lemma PauseFirstKept(s: System, a: Action, t: System)
    requires PauseFirst(s) && LogMoves(s, a, t) && (VerdictLands(s, a) ==> s.db.row.state == AwaitingApproval)
    requires t.db.row.state == AwaitingApproval ==>
               s.db.row.state == AwaitingApproval || PausedBefore(Log(s.db), |s.db.checkpoints|)
    ensures PauseFirst(t)
  {
    if t.hist == s.hist {
      assert Log(t.db) == Log(s.db);
    } else {
      var n := |s.hist|;
      GrownStaysPausedFirst(Log(s.db), s.hist, Log(t.db)[n], t.hist[n]);
      assert Log(t.db) == Log(s.db) + [Log(t.db)[n]] && t.hist == s.hist + [t.hist[n]];
    }
  }

  lemma PauseFirstStep(p: Params, s: System, a: Action)
    requires Inv(p, s) && PauseFirst(s)
    ensures PauseFirst(Next(p, s, a))
  {
    LogStep(p, s, a);
    PauseTransitions(p, s, a);
    if PauseLands(s, a) { PauseNeedsPaused(p, s, a); }
    PauseFirstKept(s, a, Next(p, s, a));
  }

  lemma {:induction false} LogsPauseFirst(p: Params, acts: seq<Action>)
    ensures PauseFirst(Exec(p, acts))
  {
    if acts != [] {
      var front := acts[..|acts| - 1];
      LogsPauseFirst(p, front);
      InvHolds(p, front);
      PauseFirstStep(p, Exec(p, front), acts[|acts| - 1]);
    }
  }

  // ----- Such a chain is a log -----

  /** The worker is at its loop head with a paused state. */
  ghost predicate Pausing(s: System, w: nat) {
    w in s.workers && s.workers[w].Driving? && s.workers[w].held.state.awaitingApproval
  }

  /** Workers `k + 1` to `n`, who all loaded the same pause, are still about to write it. */
  ghost predicate Stocked(s: System, k: nat, n: nat) {
    forall w :: k < w <= n ==> Pausing(s, w)
  }

  ghost predicate Newest(s: System, state: TaskRunState) {
    NumberedLog(s.db.checkpoints) && s.db.checkpoints != [] && s.db.checkpoints[|s.db.checkpoints| - 1].snapshot == state
  }

  /** While the newest checkpoint is paused, any number of workers can load it. */
  lemma {:induction false} StockUp(p: Params, s: System, k: nat, n: nat, paused: TaskRunState) returns (t: System)
    requires Reaches(p, Init(), s) && s.db.row.state == Running && Newest(s, paused) && paused.awaitingApproval
    requires forall w :: k < w <= n ==> w !in s.workers
    ensures Reaches(p, Init(), t) && t.(workers := s.workers) == s && Stocked(t, k, n)
    ensures forall w :: !(k < w <= n) && w in t.workers ==> w in s.workers
    decreases n
  {
    if n <= k {
      t := s;
    } else {
      var u := StockUp(p, s, k, n - 1, paused);
      t := Arrive(p, Init(), u, n, None, None);
      LatestIsLast(u.db.checkpoints);
      assert UpdateState(u.db, Running) == u.db && LoadState(p, u.db, None, None) == paused;
      assert Pausing(t, n);
      assert forall w :: k < w < n ==> Pausing(u, w) ==> Pausing(t, w);
    }
  }

  /**
   A run has written the first `k` entries.  Before the first pause nobody else is about; from it on, one worker is
   about to write that pause for each entry to come.
   */
  ghost predicate Written(p: Params, s: System, log: seq<TaskRunState>, hist: seq<Cause>, k: nat)
    requires k <= |log| == |hist|
  {
    && Reaches(p, Init(), s) && Log(s.db) == log[..k] && s.hist == hist[..k]
    && s.operators == map[] && 0 !in s.workers
    && (if PausedBefore(log, k) then s.db.row.state == Running && Stocked(s, k, |log|)
        else s.db.row.state in {Pending, Running} && s.workers == map[])
  }

  lemma WrittenIsNumbered(p: Params, s: System, log: seq<TaskRunState>, hist: seq<Cause>, k: nat)
    requires k <= |log| == |hist| && Written(p, s, log, hist, k)
    ensures NumberedLog(s.db.checkpoints) && |s.db.checkpoints| == k
    ensures k > 0 ==> Latest(s.db.checkpoints) == Some(Checkpoint(k, log[k - 1]))
    ensures !SequenceTaken(s.db.checkpoints, k + 1) && Resume(k + 1) !in s.db.outbox
  {
    ReachedIsSound(p, s);
    assert |Log(s.db)| == k;
    forall i | 0 <= i < k ensures s.db.checkpoints[i] == Checkpoint(i + 1, log[i]) && log[i].sequence == i + 1 {
      assert Log(s.db)[i] == log[i];
    }
    LatestIsLast(s.db.checkpoints);
  }

  lemma LoadedIsInput(p: Params, s: System, log: seq<TaskRunState>, hist: seq<Cause>, k: nat)
    requires IsChain(p.task, p.graph, log, hist) && k < |log| && Written(p, s, log, hist, k) && hist[k].Stepped?
    ensures var loaded := LoadState(p, s.db, hist[k].prior, hist[k].workspace);
      !loaded.finished && !loaded.awaitingApproval && Step(p.graph, loaded, hist[k].env) == Ok(log[k])
    ensures log[k].sequence == k + 1 && !SequenceTaken(s.db.checkpoints, k + 1)
  {
    WrittenIsNumbered(p, s, log, hist, k);
    assert Follows(p.task, p.graph, log, hist, k);
    assert LoadState(p, s.db, hist[k].prior, hist[k].workspace) == Input(p.task, log, hist, k);
  }

  /** The worker dies. */
  lemma Die(p: Params, s: System, w: nat) returns (t: System)
    requires Reaches(p, Init(), s)
    ensures Reaches(p, Init(), t) && t == Drop(s, w)
  {
    t := Next(p, s, Crash(w));
    ReachesNext(p, Init(), s, Crash(w));
  }

  /** A worker dispatched for one step writes the entry and is gone. */
  lemma StepOnce(p: Params, s: System, log: seq<TaskRunState>, hist: seq<Cause>, k: nat) returns (t: System)
    requires IsChain(p.task, p.graph, log, hist) && k < |log| && Written(p, s, log, hist, k) && hist[k].Stepped?
    ensures Reaches(p, Init(), t) && t.workers == s.workers && t.operators == s.operators
    ensures t.hist == s.hist + [hist[k]] && t.db.row.state == Running
    ensures t.db.checkpoints == s.db.checkpoints + [Checkpoint(k + 1, log[k])]
  {
    var prior, workspace := hist[k].prior, hist[k].workspace;
    LoadedIsInput(p, s, log, hist, k);
    var u := Arrive(p, Init(), s, 0, prior, workspace);
    var v := Save(p, Init(), u, 0, Held(LoadState(p, s.db, prior, workspace), prior, workspace), hist[k].env, log[k]);
    t := Die(p, v, 0);
    assert t.workers == s.workers;
  }

  lemma LogGrows(db: Db, after: Db, log: seq<TaskRunState>, k: nat)
    requires k < |log| && Log(db) == log[..k] && after.checkpoints == db.checkpoints + [Checkpoint(k + 1, log[k])]
    ensures Log(after) == log[..k + 1]
  {
    assert |Log(db)| == k;
    forall i | 0 <= i <= k ensures Log(after)[i] == log[..k + 1][i] {
      if i < k { assert Log(after)[i] == Log(db)[i]; }
    }
  }

  lemma WriteStep(p: Params, s: System, log: seq<TaskRunState>, hist: seq<Cause>, k: nat) returns (t: System)
    requires IsChain(p.task, p.graph, log, hist) && k < |log| && Written(p, s, log, hist, k) && hist[k].Stepped?
    ensures Written(p, t, log, hist, k + 1)
  {
    var u := StepOnce(p, s, log, hist, k);
    LogGrows(s.db, u.db, log, k);
    assert hist[..k + 1] == hist[..k] + [hist[k]];
    if PausedBefore(log, k) {
      assert PausedBefore(log, k + 1);
      assert forall w :: Pausing(s, w) ==> Pausing(u, w);
      t := u;
    } else if log[k].awaitingApproval {
      assert PausedBefore(log, k + 1);
      WrittenIsNumbered(p, s, log, hist, k);
      assert log[k].sequence == k + 1;
      t := StockUp(p, u, k + 1, |log|, log[k]);
    } else {
      assert !PausedBefore(log, k + 1);
      t := u;
    }
  }

  /** A worker that holds a pause, however old, writes it to a running row. */
  lemma WritePause(p: Params, s: System, w: nat) returns (t: System)
    requires Reaches(p, Init(), s) && Pausing(s, w) && s.db.row.state == Running
    ensures Reaches(p, Init(), t) && t == Drop(s.(db := UpdateState(s.db, AwaitingApproval)), w)
  {
    t := Next(p, s, Pause(w));
    ReachesNext(p, Init(), s, Pause(w));
  }

  /** A verdict given to a running row once a held pause is written to it. */
  lemma VerdictOnce(p: Params, s: System, w: nat, verdict: Verdict, latest: Checkpoint) returns (t: System)
    requires Reaches(p, Init(), s) && Pausing(s, w) && s.db.row.state == Running && s.operators == map[]
    requires Latest(s.db.checkpoints) == Some(latest) && !SequenceTaken(s.db.checkpoints, latest.sequence + 1)
    requires Resume(latest.sequence + 1) !in s.db.outbox
    ensures Reaches(p, Init(), t) && t.workers == s.workers - {w} && t.operators == map[]
    ensures t.hist == s.hist + [Merged(verdict)] && t.db.row.state == Running
    ensures var n := latest.sequence + 1;
      t.db.checkpoints == s.db.checkpoints + [Checkpoint(n, MergeDecision(latest.snapshot, verdict, n))]
  {
    var u := WritePause(p, s, w);
    ResolveIsAtomic(u.db, verdict, latest);
    t := Decide(p, Init(), u, 0, verdict, latest);
  }

  lemma WriteVerdict(p: Params, s: System, log: seq<TaskRunState>, hist: seq<Cause>, k: nat) returns (t: System)
    requires IsChain(p.task, p.graph, log, hist) && k < |log| && Written(p, s, log, hist, k)
    requires hist[k].Merged? && PausedBefore(log, k)
    ensures Written(p, t, log, hist, k + 1)
  {
    assert Follows(p.task, p.graph, log, hist, k);
    WrittenIsNumbered(p, s, log, hist, k);
    assert Pausing(s, k + 1);
    t := VerdictOnce(p, s, k + 1, hist[k].verdict, Checkpoint(k, log[k - 1]));
    LogGrows(s.db, t.db, log, k);
    assert hist[..k + 1] == hist[..k] + [hist[k]] && PausedBefore(log, k + 1);
    assert forall w :: w != k + 1 && Pausing(s, w) ==> Pausing(t, w);
  }

  lemma {:induction false} ChainIsWritten(p: Params, log: seq<TaskRunState>, hist: seq<Cause>, k: nat) returns (s: System)
    requires IsChain(p.task, p.graph, log, hist) && VerdictsAfterPause(log, hist) && k <= |log|
    ensures Written(p, s, log, hist, k)
    decreases k
  {
    if k == 0 {
      s := Init();
      ReachesSelf(p, s);
    } else {
      var before := ChainIsWritten(p, log, hist, k - 1);
      if hist[k - 1].Stepped? {
        s := WriteStep(p, before, log, hist, k - 1);
      } else {
        s := WriteVerdict(p, before, log, hist, k - 1);
      }
    }
  }

  /** The logs of runs, with how each entry came to be, are exactly the chains in which every verdict follows a pause. */
  lemma LogsAreExactlySuchChains(p: Params, log: seq<TaskRunState>, hist: seq<Cause>)
    ensures (exists acts :: IsLogOf(p, log, hist, acts))
       <==> IsChain(p.task, p.graph, log, hist) && VerdictsAfterPause(log, hist)
  {
    if acts :| IsLogOf(p, log, hist, acts) {
      InvHolds(p, acts);
      LogsPauseFirst(p, acts);
    }
    if IsChain(p.task, p.graph, log, hist) && VerdictsAfterPause(log, hist) {
      var s := ChainIsWritten(p, log, hist, |log|);
      ReachedIsSound(p, s);
      var acts :| Exec(p, acts) == s;
      assert log[..|log|] == log && hist[..|log|] == hist;
      assert IsLogOf(p, log, hist, acts);
    }
  }
}
