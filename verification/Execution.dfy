/**
 Durable task execution as a state machine: any number of workers, operators and sweepers act on one task's rows,
 each action being one statement or transaction, and any of them may crash between two actions.

 A run is any sequence of actions; an action that is not enabled changes nothing.  A worker may start on the task
 at any moment, which covers every delivery and redelivery the queue can make.
 */
module Execution {
  import opened Options
  import opened RunState
  import opened Gates
  import opened Graph
  import opened Chain
  import opened TaskStore

  datatype Params = Params(task: Task, graph: Topology)

  /** The state a worker holds in memory, and what it was loaded with. */
  datatype Held = Held(state: TaskRunState, prior: Option<Value>, workspace: Option<Workspace>)

  /** Where a worker is between two of its writes. */
  datatype Worker =
    | Fetched(seen: TaskStatus)                              // row read, not terminal
    | Loaded(seen: TaskStatus, held: Held)                   // newest checkpoint read
    | Driving(held: Held)                                    // at the head of the step loop
    | Unsaved(held: Held, env: Env, next: TaskRunState)      // node executed, checkpoint not yet written
    | Abandoning                                             // delivered too often, row read
    | AbandonReady(sequence: nat)                            // newest checkpoint read
    | Recovering                                             // row listed as RUNNING, not yet enqueued again

  /** Where an operator's approve / reject call is between its reads and its transaction. */
  datatype Operator = Checked(verdict: Verdict) | Ready(verdict: Verdict, latest: Checkpoint)

  /** `hist` records how each checkpoint came to be; no action reads it. */
  datatype System = System(db: Db, hist: seq<Cause>, workers: map<nat, Worker>, operators: map<nat, Operator>)

  datatype Action =
    | Dispatch(w: nat)
    | Load(w: nat, prior: Option<Value>, workspace: Option<Workspace>)
    | EnterRunning(w: nat)
    | RunNode(w: nat, env: Env)
    | Persist(w: nat)
    | Pause(w: nat)
    | Finish(w: nat)
    | StartAbandon(w: nat)
    | ReadForAbandon(w: nat)
    | Abandon(w: nat)
    | Crash(w: nat)
    | CheckApproval(o: nat, verdict: Verdict)
    | ReadApproval(o: nat)
    | CommitApproval(o: nat)
    | DropOperator(o: nat)
    | Abort
    | Expire
    | ListRunning(w: nat)
    | Recover(w: nat, stamp: int)

  function Init(): System {
    System(Db(Row(Pending, None), [], [Submit]), [], map[], map[])
  }

  function Put(s: System, w: nat, worker: Worker): System {
    s.(workers := s.workers[w := worker])
  }

  function Drop(s: System, w: nat): System {
    s.(workers := s.workers - {w})
  }

  /** The state a worker starts from: the newest snapshot, or the seed, with its own workspace stamped on. */
  function LoadState(p: Params, db: Db, prior: Option<Value>, workspace: Option<Workspace>): TaskRunState {
    var latest := Latest(db.checkpoints);
    Reseed(if latest.Some? then latest.value.snapshot else Seed(p.task, prior), workspace)
  }

  /** The unguarded write to RUNNING is made only by a worker that saw another state. */
  function DoEnterRunning(s: System, w: nat, worker: Worker): System
    requires worker.Loaded?
  {
    Put(if worker.seen == Running then s else s.(db := UpdateState(s.db, Running)), w, Driving(worker.held))
  }

  /** An error leaves the message for redelivery: the worker is gone. */
  function DoRunNode(p: Params, s: System, w: nat, held: Held, env: Env): System {
    match Step(p.graph, held.state, env)
    case Ok(next) => Put(s, w, Unsaved(held, env, next))
    case Err(_) => Drop(s, w)
  }

  /** A duplicate sequence number is an error, and the worker is gone. */
  function DoPersist(s: System, w: nat, worker: Worker): System
    requires worker.Unsaved?
  {
    var (db, landed) := AppendCheckpoint(s.db, Checkpoint(worker.next.sequence, worker.next));
    if landed then
      Put(s.(db := db, hist := s.hist + [Stepped(worker.held.prior, worker.held.workspace, worker.env)]),
          w, Driving(Held(worker.next, None, None)))
    else Drop(s, w)
  }

  function DoCommit(s: System, o: nat, op: Operator): System
    requires op.Ready?
  {
    var (db, landed) := ResolveApproval(s.db, op.verdict, op.latest);
    s.(db := db, hist := if landed then s.hist + [Merged(op.verdict)] else s.hist, operators := s.operators - {o})
  }

  function Next(p: Params, s: System, a: Action): System {
    match a
    case Dispatch(w) =>
      if w !in s.workers && !Terminal(s.db.row.state) then Put(s, w, Fetched(s.db.row.state)) else s
    case Load(w, prior, workspace) =>
      if w in s.workers && s.workers[w].Fetched?
      then Put(s, w, Loaded(s.workers[w].seen, Held(LoadState(p, s.db, prior, workspace), prior, workspace))) else s
    case EnterRunning(w) =>
      if w in s.workers && s.workers[w].Loaded? then DoEnterRunning(s, w, s.workers[w]) else s
    case RunNode(w, env) =>
      if w in s.workers && s.workers[w].Driving? && !s.workers[w].held.state.finished
         && !s.workers[w].held.state.awaitingApproval
      then DoRunNode(p, s, w, s.workers[w].held, env) else s
    case Persist(w) =>
      if w in s.workers && s.workers[w].Unsaved? then DoPersist(s, w, s.workers[w]) else s
    case Pause(w) =>
      if w in s.workers && s.workers[w].Driving? && s.workers[w].held.state.awaitingApproval
      then Drop(s.(db := SetAwaitingApproval(s.db).0), w) else s
    case Finish(w) =>
      if w in s.workers && s.workers[w].Driving? && s.workers[w].held.state.finished
         && !s.workers[w].held.state.awaitingApproval
      then
        var (result, state) := BuildResult(s.workers[w].held.state);
        Drop(s.(db := Complete(s.db, result, state).0), w)
      else s
    case StartAbandon(w) =>
      if w !in s.workers && s.db.row.state !in {Succeeded, Failed, Cancelled} then Put(s, w, Abandoning) else s
    case ReadForAbandon(w) =>
      if w in s.workers && s.workers[w].Abandoning? then
        var latest := Latest(s.db.checkpoints);
        Put(s, w, AbandonReady(if latest.Some? then latest.value.sequence else 0))
      else s
    case Abandon(w) =>
      if w in s.workers && s.workers[w].AbandonReady?
      then Drop(s.(db := Complete(s.db, AbandonedResult(s.workers[w].sequence), Failed).0), w) else s
    case Crash(w) => Drop(s, w)
    case CheckApproval(o, verdict) =>
      if o !in s.operators && s.db.row.state == AwaitingApproval
      then s.(operators := s.operators[o := Checked(verdict)]) else s
    case ReadApproval(o) =>
      if o in s.operators && s.operators[o].Checked? then
        var latest := Latest(s.db.checkpoints);
        if latest.None? then s.(operators := s.operators - {o})
        else s.(operators := s.operators[o := Ready(s.operators[o].verdict, latest.value)])
      else s
    case CommitApproval(o) =>
      if o in s.operators && s.operators[o].Ready? then DoCommit(s, o, s.operators[o]) else s
    case DropOperator(o) => s.(operators := s.operators - {o})
    case Abort => s.(db := TransitionFromAwaiting(s.db, Cancelled).0)
    case Expire => s.(db := TransitionFromAwaiting(s.db, Expired).0)
    case ListRunning(w) =>
      if w !in s.workers && s.db.row.state == Running then Put(s, w, Recovering) else s
    case Recover(w, stamp) =>
      if w in s.workers && s.workers[w].Recovering? then Drop(s.(db := Enqueue(s.db, Recovered(stamp)).0), w) else s
  }

  function Exec(p: Params, acts: seq<Action>): System {
    if acts == [] then Init() else Next(p, Exec(p, acts[..|acts| - 1]), acts[|acts| - 1])
  }

  /** The system after the first `i` actions of a run. */
  function At(p: Params, acts: seq<Action>, i: nat): System
    requires i <= |acts|
  {
    Exec(p, acts[..i])
  }

  lemma AtStep(p: Params, acts: seq<Action>, i: nat)
    requires i < |acts|
    ensures At(p, acts, i + 1) == Next(p, At(p, acts, i), acts[i])
  {
    assert acts[..i + 1][..i] == acts[..i];
  }

  lemma ExecSnoc(p: Params, acts: seq<Action>, a: Action)
    ensures Exec(p, acts + [a]) == Next(p, Exec(p, acts), a)
  {
    assert (acts + [a])[..|acts|] == acts;
  }

  // ----- The invariant -----

  ghost function Log(db: Db): seq<TaskRunState> {
    seq(|db.checkpoints|, i requires 0 <= i < |db.checkpoints| => db.checkpoints[i].snapshot)
  }

  /** What a worker holds is a checkpoint of the log, or the seed, up to its own workspace. */
  ghost predicate HeldOk(p: Params, log: seq<TaskRunState>, held: Held) {
    && held.state.sequence <= |log|
    && held.state == Reseed(Base(p.task, log, held.state.sequence, held.prior), held.workspace)
  }

  ghost predicate WorkerOk(p: Params, log: seq<TaskRunState>, worker: Worker) {
    match worker
    case Loaded(_, held) => HeldOk(p, log, held)
    case Driving(held) => HeldOk(p, log, held)
    case Unsaved(held, env, next) =>
      && HeldOk(p, log, held) && !held.state.finished && !held.state.awaitingApproval
      && Step(p.graph, held.state, env) == Ok(next)
    case _ => true
  }

  ghost predicate OperatorOk(checkpoints: seq<Checkpoint>, op: Operator) {
    op.Ready? ==> 1 <= op.latest.sequence <= |checkpoints| && checkpoints[op.latest.sequence - 1] == op.latest
  }

  ghost predicate LogOk(p: Params, db: Db, hist: seq<Cause>) {
    && (forall i :: 0 <= i < |db.checkpoints| ==> db.checkpoints[i].sequence == i + 1)
    && IsChain(p.task, p.graph, Log(db), hist)
  }

  /** Resume rows of the outbox and merged checkpoints correspond one to one. */
  ghost predicate OutboxOk(db: Db, hist: seq<Cause>) {
    && (forall i, j :: 0 <= i < j < |db.outbox| ==> db.outbox[i] != db.outbox[j])
    && (forall k: nat :: Resume(k) in db.outbox <==> 1 <= k <= |hist| && hist[k - 1].Merged?)
  }

  /** A result comes from giving the task up, or from a finished checkpoint. */
  ghost predicate ResultOk(db: Db) {
    db.row.result.Some? ==>
      || (exists k: nat :: db.row.result.value == AbandonedResult(k))
      || (exists k :: 0 <= k < |db.checkpoints| && db.checkpoints[k].snapshot.finished
            && db.row.result.value == BuildResult(db.checkpoints[k].snapshot).0)
  }

  ghost predicate Inv(p: Params, s: System) {
    && LogOk(p, s.db, s.hist)
    && OutboxOk(s.db, s.hist)
    && ResultOk(s.db)
    && (forall w :: w in s.workers ==> WorkerOk(p, Log(s.db), s.workers[w]))
    && (forall o :: o in s.operators ==> OperatorOk(s.db.checkpoints, s.operators[o]))
  }

  /** A chain grows by one entry that follows from its last. */
  lemma ChainExtends(task: Task, g: Topology, log: seq<TaskRunState>, hist: seq<Cause>, next: TaskRunState, cause: Cause)
    requires IsChain(task, g, log, hist) && next.sequence == |log| + 1
    requires Follows(task, g, log + [next], hist + [cause], |log|)
    ensures IsChain(task, g, log + [next], hist + [cause])
  {
    forall k | 0 <= k <= |log| ensures Follows(task, g, log + [next], hist + [cause], k) {
      if k < |log| { assert Follows(task, g, log, hist, k); }
    }
  }

  lemma GrownLogKeepsWorkers(p: Params, log: seq<TaskRunState>, next: TaskRunState, worker: Worker)
    requires WorkerOk(p, log, worker)
    ensures WorkerOk(p, log + [next], worker)
  {
  }

  /** A write that leaves checkpoints, outbox and history alone keeps the whole invariant but the result clause. */
  lemma InvKept(p: Params, s: System, t: System)
    requires Inv(p, s) && ResultOk(t.db)
    requires t.db.checkpoints == s.db.checkpoints && t.db.outbox == s.db.outbox && t.hist == s.hist
    requires forall w :: w in t.workers ==> WorkerOk(p, Log(s.db), t.workers[w])
    requires forall o :: o in t.operators ==> OperatorOk(s.db.checkpoints, t.operators[o])
    ensures Inv(p, t)
  {
    assert Log(t.db) == Log(s.db);
  }

  lemma LoadedIsHeld(p: Params, s: System, prior: Option<Value>, workspace: Option<Workspace>)
    requires LogOk(p, s.db, s.hist)
    ensures HeldOk(p, Log(s.db), Held(LoadState(p, s.db, prior, workspace), prior, workspace))
  {
    LatestIsLast(s.db.checkpoints);
    assert s.db.checkpoints != [] ==> Log(s.db)[|s.db.checkpoints| - 1].sequence == |s.db.checkpoints|;
  }

  lemma StepAdvances(g: Topology, s: TaskRunState, env: Env)
    requires !s.finished && !s.awaitingApproval && Step(g, s, env).Ok?
    ensures Step(g, s, env).value.sequence == s.sequence + 1
  {
  }

  /** Growing the log by an entry, and the outbox by its resume row if the entry is a verdict. */
  lemma GrowthKeepsRows(db: Db, hist: seq<Cause>, after: Db, cause: Cause)
    requires OutboxOk(db, hist) && ResultOk(db)
    requires db.checkpoints <= after.checkpoints && after.row.result == db.row.result
    requires after.outbox == if cause.Merged? then db.outbox + [Resume(|hist| + 1)] else db.outbox
    ensures OutboxOk(after, hist + [cause]) && ResultOk(after)
  {
    assert forall i :: 0 <= i < |db.checkpoints| ==> after.checkpoints[i] == db.checkpoints[i];
  }

  lemma GrownLog(p: Params, s: System, t: System, checkpoint: Checkpoint, cause: Cause)
    requires LogOk(p, s.db, s.hist) && checkpoint.sequence == checkpoint.snapshot.sequence == |s.db.checkpoints| + 1
    requires t.db.checkpoints == s.db.checkpoints + [checkpoint] && t.hist == s.hist + [cause]
    requires Follows(p.task, p.graph, Log(s.db) + [checkpoint.snapshot], s.hist + [cause], |s.db.checkpoints|)
    ensures LogOk(p, t.db, t.hist) && Log(t.db) == Log(s.db) + [checkpoint.snapshot]
  {
    ChainExtends(p.task, p.graph, Log(s.db), s.hist, checkpoint.snapshot, cause);
    assert Log(t.db) == Log(s.db) + [checkpoint.snapshot];
  }

  /** A step lands exactly when it was taken from the newest checkpoint, and then extends the chain. */
  lemma PersistKeepsInv(p: Params, s: System, w: nat)
    requires Inv(p, s) && w in s.workers && s.workers[w].Unsaved?
    ensures Inv(p, DoPersist(s, w, s.workers[w]))
  {
    var worker := s.workers[w];
    var (held, env, next) := (worker.held, worker.env, worker.next);
    var log, t := Log(s.db), DoPersist(s, w, worker);
    LatestIsLast(s.db.checkpoints);
    StepAdvances(p.graph, held.state, env);
    if next.sequence == |log| + 1 {
      var cause := Stepped(held.prior, held.workspace, env);
      assert Base(p.task, log + [next], |log|, held.prior) == Base(p.task, log, |log|, held.prior);
      GrownLog(p, s, t, Checkpoint(next.sequence, next), cause);
      GrowthKeepsRows(s.db, s.hist, t.db, cause);
      forall v | v in t.workers ensures WorkerOk(p, log + [next], t.workers[v]) {
        if v != w { GrownLogKeepsWorkers(p, log, next, s.workers[v]); }
      }
    } else {
      InvKept(p, s, t);
    }
  }

  /** A verdict lands exactly on top of the newest checkpoint, while the row is paused. */
  lemma CommitKeepsInv(p: Params, s: System, o: nat)
    requires Inv(p, s) && o in s.operators && s.operators[o].Ready?
    ensures Inv(p, DoCommit(s, o, s.operators[o]))
    ensures ResolveApproval(s.db, s.operators[o].verdict, s.operators[o].latest).1 ==>
      s.operators[o].latest.sequence == |s.db.checkpoints|
  {
    var (verdict, latest) := (s.operators[o].verdict, s.operators[o].latest);
    var log, t := Log(s.db), DoCommit(s, o, s.operators[o]);
    LatestIsLast(s.db.checkpoints);
    if ResolveApproval(s.db, verdict, latest).1 {
      var next := MergeDecision(latest.snapshot, verdict, latest.sequence + 1);
      assert latest.sequence == |log| && log[|log| - 1] == latest.snapshot;
      GrownLog(p, s, t, Checkpoint(next.sequence, next), Merged(verdict));
      GrowthKeepsRows(s.db, s.hist, t.db, Merged(verdict));
      forall v | v in t.workers ensures WorkerOk(p, log + [next], t.workers[v]) {
        GrownLogKeepsWorkers(p, log, next, s.workers[v]);
      }
    } else {
      InvKept(p, s, t);
    }
  }

  lemma FinishKeepsInv(p: Params, s: System, w: nat)
    requires Inv(p, s) && w in s.workers && s.workers[w].Driving? && s.workers[w].held.state.finished
    ensures Inv(p, Next(p, s, Finish(w)))
  {
    var st, t := s.workers[w].held.state, Next(p, s, Finish(w));
    if st.sequence > 0 {
      var k := st.sequence - 1;
      ReseedKeeps(Log(s.db)[k], s.workers[w].held.workspace);
      assert s.db.checkpoints[k].snapshot.finished && BuildResult(s.db.checkpoints[k].snapshot) == BuildResult(st);
    }
    assert ResultOk(t.db);
    InvKept(p, s, t);
  }

  /** Actions that only move a worker along. */
  lemma WorkerMovesKeepInv(p: Params, s: System, a: Action)
    requires Inv(p, s)
    requires a.Dispatch? || a.Load? || a.RunNode? || a.Crash? || a.StartAbandon? || a.ReadForAbandon? || a.ListRunning?
    ensures Inv(p, Next(p, s, a))
  {
    if a.Load? { LoadedIsHeld(p, s, a.prior, a.workspace); }
    InvKept(p, s, Next(p, s, a));
  }

  /** Actions that write the row alone. */
  lemma RowWritesKeepInv(p: Params, s: System, a: Action)
    requires Inv(p, s)
    requires a.EnterRunning? || a.Pause? || a.Abandon? || a.Abort? || a.Expire?
    ensures Inv(p, Next(p, s, a))
  {
    var t := Next(p, s, a);
    assert ResultOk(t.db);
    InvKept(p, s, t);
  }

  /** Actions of an operator before the transaction. */
  lemma OperatorMovesKeepInv(p: Params, s: System, a: Action)
    requires Inv(p, s)
    requires a.CheckApproval? || a.ReadApproval? || a.DropOperator?
    ensures Inv(p, Next(p, s, a))
  {
    LatestIsLast(s.db.checkpoints);
    InvKept(p, s, Next(p, s, a));
  }

  lemma RecoverKeepsInv(p: Params, s: System, w: nat, stamp: int)
    requires Inv(p, s)
    ensures Inv(p, Next(p, s, Recover(w, stamp)))
  {
    assert Log(Next(p, s, Recover(w, stamp)).db) == Log(s.db);
  }

  /** Every action keeps the invariant. */
  lemma NextKeepsInv(p: Params, s: System, a: Action)
    requires Inv(p, s)
    ensures Inv(p, Next(p, s, a))
  {
    match a
    case Persist(w) => if w in s.workers && s.workers[w].Unsaved? { PersistKeepsInv(p, s, w); }
    case CommitApproval(o) => if o in s.operators && s.operators[o].Ready? { CommitKeepsInv(p, s, o); }
    case Finish(w) =>
      if w in s.workers && s.workers[w].Driving? && s.workers[w].held.state.finished { FinishKeepsInv(p, s, w); }
    case Recover(w, stamp) => RecoverKeepsInv(p, s, w, stamp);
    case CheckApproval(_, _) => OperatorMovesKeepInv(p, s, a);
    case ReadApproval(_) => OperatorMovesKeepInv(p, s, a);
    case DropOperator(_) => OperatorMovesKeepInv(p, s, a);
    case EnterRunning(_) => RowWritesKeepInv(p, s, a);
    case Pause(_) => RowWritesKeepInv(p, s, a);
    case Abandon(_) => RowWritesKeepInv(p, s, a);
    case Abort => RowWritesKeepInv(p, s, a);
    case Expire => RowWritesKeepInv(p, s, a);
    case _ => WorkerMovesKeepInv(p, s, a);
  }

  lemma {:induction false} InvHolds(p: Params, acts: seq<Action>)
    ensures Inv(p, Exec(p, acts))
  {
    if acts != [] {
      InvHolds(p, acts[..|acts| - 1]);
      NextKeepsInv(p, Exec(p, acts[..|acts| - 1]), acts[|acts| - 1]);
    }
  }

  /** Some run leads here. */
  ghost predicate Reachable(p: Params, s: System) {
    exists acts :: Exec(p, acts) == s
  }

  lemma ReachableIsSound(p: Params, s: System)
    requires Reachable(p, s)
    ensures Inv(p, s)
  {
    var acts :| Exec(p, acts) == s;
    InvHolds(p, acts);
  }
}
