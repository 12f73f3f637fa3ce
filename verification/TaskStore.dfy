/**
 One task's rows, and the guarded statements that change them: the task row, the checkpoint table with its unique
 (task, sequence) constraint, and the outbox with its unique idempotency key.  Each statement or transaction is
 one atomic function of the database.
 */
module TaskStore {
  import opened Options
  import opened RunState

  datatype TaskStatus = Pending | Running | AwaitingApproval | Succeeded | Failed | Cancelled | Expired

  predicate Terminal(state: TaskStatus) {
    state in {Succeeded, Failed, Cancelled, Expired}
  }

  datatype ErrorCode = GraphFailure | Abandoned
  datatype TaskError = TaskError(code: ErrorCode, message: string)
  datatype ResultStatus = ResultSucceeded | ResultFailed

  datatype TaskResult = TaskResult(
    status: ResultStatus, output: Option<map<string, Value>>, error: Option<TaskError>, nodeSequence: nat)

  /** The result of a run that reached the end of its graph, and the state the row takes with it. */
  function BuildResult(s: TaskRunState): (TaskResult, TaskStatus) {
    var raw := Get(s.data, Output);
    var output := if raw.Dict? then Some(raw.entries) else None;
    if s.error.Some?
    then (TaskResult(ResultFailed, output, Some(TaskError(GraphFailure, s.error.value)), s.sequence), Failed)
    else (TaskResult(ResultSucceeded, output, None, s.sequence), Succeeded)
  }

  /**
   The result tells how a run ended: its output if that is a dictionary, the number of its last state, and the error it
   ended with, which is what makes it a failure.
   */
  ghost predicate Reports(result: TaskResult, end: TaskRunState) {
    && (forall entries :: result.output == Some(entries) <==> Get(end.data, Output) == Dict(entries))
    && result.nodeSequence == end.sequence
    && result.error == (if end.error.Some? then Some(TaskError(GraphFailure, end.error.value)) else None)
    && (result.status == ResultFailed <==> end.error.Some?)
  }

  lemma BuiltResultReports(end: TaskRunState)
    ensures Reports(BuildResult(end).0, end)
    ensures BuildResult(end).1 == if end.error.Some? then Failed else Succeeded
  {
  }

  /** The result of a task whose message was delivered too often. */
  function AbandonedResult(sequence: nat): TaskResult {
    TaskResult(ResultFailed, None, Some(TaskError(Abandoned, "delivery_count exceeded")), sequence)
  }

  datatype Row = Row(state: TaskStatus, result: Option<TaskResult>)
  datatype Checkpoint = Checkpoint(sequence: nat, snapshot: TaskRunState)

  /** Idempotency keys of this task's outbox rows. */
  datatype OutboxKey = Submit | Resume(sequence: nat) | Recovered(stamp: int)

  datatype Db = Db(row: Row, checkpoints: seq<Checkpoint>, outbox: seq<OutboxKey>)

  /** ORDER BY sequence DESC LIMIT 1 */
  function Latest(checkpoints: seq<Checkpoint>): Option<Checkpoint> {
    if checkpoints == [] then None
    else
      var last := checkpoints[|checkpoints| - 1];
      var before := Latest(checkpoints[..|checkpoints| - 1]);
      if before.Some? && before.value.sequence > last.sequence then before else Some(last)
  }

  predicate SequenceTaken(checkpoints: seq<Checkpoint>, sequence: nat) {
    exists i :: 0 <= i < |checkpoints| && checkpoints[i].sequence == sequence
  }

  function UpdateState(db: Db, state: TaskStatus): Db {
    db.(row := db.row.(state := state))
  }

  function SetAwaitingApproval(db: Db): (Db, bool) {
    if db.row.state == Running then (UpdateState(db, AwaitingApproval), true) else (db, false)
  }

  function TransitionFromAwaiting(db: Db, state: TaskStatus): (Db, bool) {
    if db.row.state == AwaitingApproval then (UpdateState(db, state), true) else (db, false)
  }

  function Complete(db: Db, result: TaskResult, state: TaskStatus): (Db, bool) {
    if Terminal(state) && !Terminal(db.row.state) then (db.(row := Row(state, Some(result))), true) else (db, false)
  }

  function AppendCheckpoint(db: Db, checkpoint: Checkpoint): (Db, bool) {
    if SequenceTaken(db.checkpoints, checkpoint.sequence) then (db, false)
    else (db.(checkpoints := db.checkpoints + [checkpoint]), true)
  }

  function Enqueue(db: Db, key: OutboxKey): (Db, bool) {
    if key in db.outbox then (db, false) else (db.(outbox := db.outbox + [key]), true)
  }

  /** The approve / reject transaction: checkpoint, row and outbox row land together or not at all. */
  function ResolveApproval(db: Db, verdict: Verdict, latest: Checkpoint): (Db, bool) {
    var sequence := latest.sequence + 1;
    var (appended, a) := AppendCheckpoint(db, Checkpoint(sequence, MergeDecision(latest.snapshot, verdict, sequence)));
    var (moved, b) := TransitionFromAwaiting(appended, Running);
    var (enqueued, c) := Enqueue(moved, Resume(sequence));
    if a && b && c then (enqueued, true) else (db, false)
  }

  /** All or nothing, and exactly when the row is paused and both keys are free. */
  lemma ResolveIsAtomic(db: Db, verdict: Verdict, latest: Checkpoint)
    ensures var (after, landed) := ResolveApproval(db, verdict, latest);
      && (landed <==> && db.row.state == AwaitingApproval
                      && !SequenceTaken(db.checkpoints, latest.sequence + 1)
                      && Resume(latest.sequence + 1) !in db.outbox)
      && (!landed ==> after == db)
      && (landed ==> && |after.checkpoints| == |db.checkpoints| + 1 && db.checkpoints < after.checkpoints
                     && after.row == db.row.(state := Running)
                     && after.outbox == db.outbox + [Resume(latest.sequence + 1)])
  {
  }

  /** With checkpoints numbered 1..n in order, the newest is the last and the only free next number is n + 1. */
  lemma {:induction false} LatestIsLast(checkpoints: seq<Checkpoint>)
    requires forall i :: 0 <= i < |checkpoints| ==> checkpoints[i].sequence == i + 1
    ensures checkpoints == [] ==> Latest(checkpoints) == None
    ensures checkpoints != [] ==> Latest(checkpoints) == Some(checkpoints[|checkpoints| - 1])
    ensures forall n: nat :: n > 0 ==> (SequenceTaken(checkpoints, n) <==> n <= |checkpoints|)
  {
    if checkpoints != [] {
      var front := checkpoints[..|checkpoints| - 1];
      LatestIsLast(front);
      forall n: nat | n > 0 ensures SequenceTaken(checkpoints, n) <==> n <= |checkpoints| {
        if n <= |checkpoints| { assert checkpoints[n - 1].sequence == n; }
      }
    }
  }

  /** The repositories over this task's rows. */
  class Store {
    var row: Row
    var checkpoints: seq<Checkpoint>
    var outbox: seq<OutboxKey>

    ghost function View(): Db
      reads this
    {
      Db(row, checkpoints, outbox)
    }

    /** A freshly submitted task: its row and its outbox row, written in one transaction. */
    constructor ()
      ensures View() == Db(Row(Pending, None), [], [Submit])
    {
      row, checkpoints, outbox := Row(Pending, None), [], [Submit];
    }

    /** No guard: whatever the row holds is overwritten. */
    method WriteState(state: TaskStatus)
      modifies this
      ensures View() == UpdateState(old(View()), state)
    {
      row := row.(state := state);
    }

    method PauseRow() returns (landed: bool)
      modifies this
      ensures (View(), landed) == SetAwaitingApproval(old(View()))
      ensures landed <==> old(row.state) == Running
      ensures View() == old(View()).(row := if landed then old(row).(state := AwaitingApproval) else old(row))
    {
      landed := row.state == Running;
      if landed { row := row.(state := AwaitingApproval); }
    }

    method LeavePause(state: TaskStatus) returns (landed: bool)
      modifies this
      ensures (View(), landed) == TransitionFromAwaiting(old(View()), state)
      ensures landed <==> old(row.state) == AwaitingApproval
      ensures View() == old(View()).(row := if landed then old(row).(state := state) else old(row))
    {
      landed := row.state == AwaitingApproval;
      if landed { row := row.(state := state); }
    }

    method WriteResult(result: TaskResult, state: TaskStatus) returns (landed: bool)
      modifies this
      ensures (View(), landed) == Complete(old(View()), result, state)
      ensures landed <==> && state in {Succeeded, Failed, Cancelled, Expired}
                          && old(row.state) !in {Succeeded, Failed, Cancelled, Expired}
      ensures View() == old(View()).(row := if landed then Row(state, Some(result)) else old(row))
    {
      landed := Terminal(state) && !Terminal(row.state);
      if landed { row := Row(state, Some(result)); }
    }

    /** INSERT under the unique (task, sequence) constraint. */
    method Append(checkpoint: Checkpoint) returns (landed: bool)
      modifies this
      ensures (View(), landed) == AppendCheckpoint(old(View()), checkpoint)
      ensures landed <==> forall c :: c in old(checkpoints) ==> c.sequence != checkpoint.sequence
      ensures View() == old(View()).(checkpoints := if landed then old(checkpoints) + [checkpoint] else old(checkpoints))
    {
      assert forall i :: 0 <= i < |checkpoints| ==> checkpoints[i] in checkpoints;
      landed := !SequenceTaken(checkpoints, checkpoint.sequence);
      if landed { checkpoints := checkpoints + [checkpoint]; }
    }

    /** The newest checkpoint, by scan. */
    method FindLatest() returns (latest: Option<Checkpoint>)
      ensures latest == Latest(checkpoints)
    {
      latest := None;
      for i := 0 to |checkpoints|
        invariant latest == Latest(checkpoints[..i])
      {
        assert checkpoints[..i + 1][..i] == checkpoints[..i];
        if latest.None? || latest.value.sequence <= checkpoints[i].sequence { latest := Some(checkpoints[i]); }
      }
      assert checkpoints[..|checkpoints|] == checkpoints;
    }

    /** Rolls everything back if any of the three writes is refused. */
    method Resolve(verdict: Verdict, latest: Checkpoint) returns (landed: bool)
      modifies this
      ensures (View(), landed) == ResolveApproval(old(View()), verdict, latest)
    {
      var savedRow, savedCheckpoints, savedOutbox := row, checkpoints, outbox;
      var sequence := latest.sequence + 1;
      landed := Append(Checkpoint(sequence, MergeDecision(latest.snapshot, verdict, sequence)));
      if landed { landed := LeavePause(Running); }
      if landed {
        landed := Resume(sequence) !in outbox;
        if landed { outbox := outbox + [Resume(sequence)]; }
      }
      if !landed { row, checkpoints, outbox := savedRow, savedCheckpoints, savedOutbox; }
    }
  }
}
