/**
 What holds over every run of the execution protocol: whatever the interleaving of workers, crashes, redeliveries,
 operators and sweeps.
 */
module Durability {
  import opened Options
  import opened Graph
  import opened Chain
  import opened TaskStore
  import opened Execution

  // ----- The log -----

  /** The checkpoint log is one unbranched chain numbered 1..n, and on a compiled graph every entry is in position. */
  lemma LogIsOneChain(p: Params, acts: seq<Action>)
    ensures var s := Exec(p, acts);
      && IsChain(p.task, p.graph, Log(s.db), s.hist)
      && (forall i :: 0 <= i < |s.db.checkpoints| ==> s.db.checkpoints[i].sequence == i + 1)
      && (Compiled(p.graph) ==> forall i :: 0 <= i < |s.db.checkpoints| ==>
            Positioned(p.graph, s.db.checkpoints[i].snapshot))
  {
    InvHolds(p, acts);
    var s := Exec(p, acts);
    if Compiled(p.graph) {
      forall i | 0 <= i < |s.db.checkpoints| ensures Positioned(p.graph, s.db.checkpoints[i].snapshot) {
        ChainKeepsPosition(p.task, p.graph, Log(s.db), s.hist, i);
      }
    }
  }

  lemma NextOnlyAppends(p: Params, s: System, a: Action)
    ensures s.db.checkpoints <= Next(p, s, a).db.checkpoints && s.hist <= Next(p, s, a).hist
    ensures s.db.outbox <= Next(p, s, a).db.outbox
  {
  }

  lemma AppendsAt(p: Params, acts: seq<Action>, k: nat)
    requires k < |acts|
    ensures Extends(At(p, acts, k), At(p, acts, k + 1))
  {
    AtStep(p, acts, k);
    NextOnlyAppends(p, At(p, acts, k), acts[k]);
  }

  /** What holds at one moment and is kept by every step from it holds at a later one. */
  lemma {:induction false} Steps(holds: nat -> bool, i: nat, j: nat)
    requires i <= j && holds(i) && forall k :: i <= k < j && holds(k) ==> holds(k + 1)
    ensures holds(j)
    decreases j
  {
    if i < j { Steps(holds, i, j - 1); }
  }

  ghost predicate Extends(before: System, after: System) {
    before.db.checkpoints <= after.db.checkpoints && before.hist <= after.hist
  }

  lemma ExtendsOn(a: System, b: System, c: System)
    requires Extends(a, b) && Extends(b, c)
    ensures Extends(a, c)
  {
  }

  /** Nothing is ever rewritten: the rows of a run's earlier moments are a prefix of those of its later ones. */
  lemma {:induction false} LogOnlyGrows(p: Params, acts: seq<Action>, i: nat, j: nat)
    requires i <= j <= |acts|
    ensures Extends(At(p, acts, i), At(p, acts, j))
    decreases j
  {
    if i < j {
      LogOnlyGrows(p, acts, i, j - 1);
      AppendsAt(p, acts, j - 1);
      ExtendsOn(At(p, acts, i), At(p, acts, j - 1), At(p, acts, j));
    }
  }

  // ----- Resolutions -----

  /** The action writes AWAITING_APPROVAL. */
  ghost predicate PauseLands(s: System, a: Action) {
    && a.Pause? && a.w in s.workers && s.workers[a.w].Driving? && s.workers[a.w].held.state.awaitingApproval
    && s.db.row.state == Running
  }

  ghost predicate VerdictLands(s: System, a: Action) {
    && a.CommitApproval? && a.o in s.operators && s.operators[a.o].Ready?
    && ResolveApproval(s.db, s.operators[a.o].verdict, s.operators[a.o].latest).1
  }

  /** The action is an approve, reject, abort or expire that lands. */
  ghost predicate Resolves(s: System, a: Action) {
    || VerdictLands(s, a)
    || ((a.Abort? || a.Expire?) && s.db.row.state == AwaitingApproval)
  }

  /** Only a pause write enters AWAITING_APPROVAL, and a resolution needs it and leaves it. */
  lemma PauseTransitions(p: Params, s: System, a: Action)
    ensures Resolves(s, a) ==>
      && s.db.row.state == AwaitingApproval
      && Next(p, s, a).db.row
         == s.db.row.(state := if a.Abort? then Cancelled else if a.Expire? then Expired else Running)
    ensures s.db.row.state != AwaitingApproval && !PauseLands(s, a) ==> Next(p, s, a).db.row.state != AwaitingApproval
  {
  }

  lemma UnpausedAt(p: Params, acts: seq<Action>, k: nat)
    requires k < |acts| && At(p, acts, k).db.row.state != AwaitingApproval && !PauseLands(At(p, acts, k), acts[k])
    ensures At(p, acts, k + 1).db.row.state != AwaitingApproval
  {
    AtStep(p, acts, k);
    PauseTransitions(p, At(p, acts, k), acts[k]);
  }

  lemma {:induction false} UnpausedUntilPause(p: Params, acts: seq<Action>, i: nat, j: nat)
    requires i <= j <= |acts| && At(p, acts, i).db.row.state != AwaitingApproval
    requires forall k :: i <= k < j ==> !PauseLands(At(p, acts, k), acts[k])
    ensures At(p, acts, j).db.row.state != AwaitingApproval
    decreases j
  {
    if i < j {
      UnpausedUntilPause(p, acts, i, j - 1);
      UnpausedAt(p, acts, j - 1);
    }
  }

  /** Between two pause writes at most one of approve, reject, abort and expire lands. */
  lemma OneResolutionPerPause(p: Params, acts: seq<Action>, i: nat, j: nat)
    requires i < j < |acts|
    requires Resolves(At(p, acts, i), acts[i]) && Resolves(At(p, acts, j), acts[j])
    ensures exists k :: i < k < j && PauseLands(At(p, acts, k), acts[k])
  {
    AtStep(p, acts, i);
    PauseTransitions(p, At(p, acts, i), acts[i]);
    PauseTransitions(p, At(p, acts, j), acts[j]);
    if forall k :: i < k < j ==> !PauseLands(At(p, acts, k), acts[k]) {
      UnpausedUntilPause(p, acts, i + 1, j);
    }
  }

  /** Verdict checkpoints and resume rows of the outbox correspond one to one at every moment of every run. */
  lemma VerdictsAreWhole(p: Params, acts: seq<Action>)
    ensures var s := Exec(p, acts);
      && (forall k: nat :: Resume(k) in s.db.outbox <==> 1 <= k <= |s.hist| && s.hist[k - 1].Merged?)
      && (forall i, j :: 0 <= i < j < |s.db.outbox| ==> s.db.outbox[i] != s.db.outbox[j])
  {
    InvHolds(p, acts);
  }

  // ----- Terminal rows -----

  /** The unguarded write lands on a row that another actor has finished meanwhile. */
  ghost predicate Revives(s: System, a: Action) {
    && a.EnterRunning? && a.w in s.workers && s.workers[a.w].Loaded? && s.workers[a.w].seen != Running
    && Terminal(s.db.row.state)
  }

  ghost predicate NoRevival(p: Params, acts: seq<Action>) {
    forall i :: 0 <= i < |acts| ==> !Revives(At(p, acts, i), acts[i])
  }

  ghost predicate TerminalAbsorbs(p: Params, acts: seq<Action>) {
    forall i, j :: 0 <= i <= j <= |acts| && Terminal(At(p, acts, i).db.row.state) ==>
      At(p, acts, j).db.row == At(p, acts, i).db.row
  }

  /** One action leaves a terminal row alone exactly when it is not the unguarded write. */
  lemma TerminalStep(p: Params, s: System, a: Action)
    requires Terminal(s.db.row.state)
    ensures Next(p, s, a).db.row == s.db.row <==> !Revives(s, a)
  {
  }

  lemma TerminalStepAt(p: Params, acts: seq<Action>, i: nat)
    requires i < |acts| && Terminal(At(p, acts, i).db.row.state)
    ensures At(p, acts, i + 1).db.row == At(p, acts, i).db.row <==> !Revives(At(p, acts, i), acts[i])
  {
    AtStep(p, acts, i);
    TerminalStep(p, At(p, acts, i), acts[i]);
  }

  lemma TerminalStays(p: Params, acts: seq<Action>, i: nat, j: nat)
    requires i <= j <= |acts| && Terminal(At(p, acts, i).db.row.state)
    requires forall k :: i <= k < j ==> !Revives(At(p, acts, k), acts[k])
    ensures At(p, acts, j).db.row == At(p, acts, i).db.row
  {
    var row := At(p, acts, i).db.row;
    var same := (k: nat) => k <= |acts| && At(p, acts, k).db.row == row;
    forall k | i <= k < j && same(k) ensures same(k + 1) { TerminalStepAt(p, acts, k); }
    Steps(same, i, j);
  }

  /** Terminal rows are absorbing in exactly the runs where no unguarded write lands on one. */
  lemma TerminalAbsorbsIffNoRevival(p: Params, acts: seq<Action>)
    ensures TerminalAbsorbs(p, acts) <==> NoRevival(p, acts)
  {
    if NoRevival(p, acts) {
      forall i, j | 0 <= i <= j <= |acts| && Terminal(At(p, acts, i).db.row.state)
        ensures At(p, acts, j).db.row == At(p, acts, i).db.row
      {
        TerminalStays(p, acts, i, j);
      }
    } else {
      var i :| 0 <= i < |acts| && Revives(At(p, acts, i), acts[i]);
      TerminalStepAt(p, acts, i);
    }
  }

  /** The action is an abort or an expiry that lands. */
  ghost predicate Closes(s: System, a: Action) {
    (a.Abort? || a.Expire?) && s.db.row.state == AwaitingApproval
  }

  /** It writes the row's state and touches nothing else. */
  lemma CloseStep(p: Params, s: System, a: Action)
    requires Closes(s, a)
    ensures Next(p, s, a) == s.(db := s.db.(row := Row(if a.Abort? then Cancelled else Expired, s.db.row.result)))
  {
  }

  /**
   An abort or expiry that lands adds no checkpoint, outbox row or result, and the row says cancelled or expired from
   then on, as long as no unguarded write lands on it.
   */
  lemma ClosedStaysClosed(p: Params, acts: seq<Action>, i: nat, j: nat)
    requires i < j <= |acts| && Closes(At(p, acts, i), acts[i])
    requires forall k :: i < k < j ==> !Revives(At(p, acts, k), acts[k])
    ensures var s, closed := At(p, acts, i), if acts[i].Abort? then Cancelled else Expired;
      && At(p, acts, j).db.row == Row(closed, s.db.row.result)
      && At(p, acts, i + 1) == s.(db := s.db.(row := Row(closed, s.db.row.result)))
      && (NoRevival(p, acts) ==> s.db.row.result == None)
  {
    AtStep(p, acts, i);
    CloseStep(p, At(p, acts, i), acts[i]);
    TerminalStays(p, acts, i + 1, j);
    if NoRevival(p, acts) { ResultsMatch(p, acts, i); }
  }

  /** A worker has dispatched and loaded a pending task. */
  lemma LoadedPending(p: Params) returns (acts: seq<Action>)
    ensures var s := Exec(p, acts);
      && s.db == Init().db && s.workers.Keys == {0}
      && s.workers[0].Loaded? && s.workers[0].seen == Pending
  {
    acts := [] + [Dispatch(0)] + [Load(0, None, None)];
    ExecSnoc(p, [], Dispatch(0));
    ExecSnoc(p, [] + [Dispatch(0)], Load(0, None, None));
  }

  /** Meanwhile another worker abandons the task, which fails the row. */
  lemma AbandonedMeanwhile(p: Params) returns (acts: seq<Action>)
    ensures Revives(Exec(p, acts), EnterRunning(0))
  {
    var before := LoadedPending(p);
    var s := Exec(p, before);
    var started, counted := before + [StartAbandon(1)], before + [StartAbandon(1)] + [ReadForAbandon(1)];
    acts := counted + [Abandon(1)];
    AbandonStarts(p, s);
    ExecSnoc(p, before, StartAbandon(1));
    AbandonCounts(p, Exec(p, started));
    ExecSnoc(p, started, ReadForAbandon(1));
    AbandonFails(p, Exec(p, counted));
    ExecSnoc(p, counted, Abandon(1));
  }

  /** Worker 0 is about to enter, having seen a pending row. */
  ghost predicate AboutToEnter(s: System) {
    0 in s.workers && s.workers[0].Loaded? && s.workers[0].seen == Pending
  }

  lemma AbandonStarts(p: Params, s: System)
    requires AboutToEnter(s) && s.db.row.state == Pending && 1 !in s.workers
    ensures var t := Next(p, s, StartAbandon(1));
      AboutToEnter(t) && t.db.row.state == Pending && 1 in t.workers && t.workers[1] == Abandoning
  {
  }

  lemma AbandonCounts(p: Params, s: System)
    requires AboutToEnter(s) && s.db.row.state == Pending && 1 in s.workers && s.workers[1] == Abandoning
    ensures var t := Next(p, s, ReadForAbandon(1));
      AboutToEnter(t) && t.db.row.state == Pending && 1 in t.workers && t.workers[1].AbandonReady?
  {
  }

  lemma AbandonFails(p: Params, s: System)
    requires AboutToEnter(s) && s.db.row.state == Pending && 1 in s.workers && s.workers[1].AbandonReady?
    ensures Revives(Next(p, s, Abandon(1)), EnterRunning(0))
  {
  }

  /** Runs where it happens exist for every task and graph: a dispatch overtaken by an abandonment. */
  lemma RevivalHappens(p: Params)
    ensures exists acts :: !TerminalAbsorbs(p, acts)
  {
    var before := AbandonedMeanwhile(p);
    var acts := before + [EnterRunning(0)];
    assert acts[..|before|] == before;
    assert Revives(At(p, acts, |before|), acts[|before|]);
    TerminalAbsorbsIffNoRevival(p, acts);
  }

  // ----- Results -----

  /** A result exists exactly for SUCCEEDED and FAILED, with the matching status and an error exactly on failure. */
  ghost predicate ResultMatches(row: Row) {
    && (row.result.Some? <==> row.state == Succeeded || row.state == Failed)
    && (row.result.Some? ==>
          && (row.result.value.status == ResultSucceeded <==> row.state == Succeeded)
          && (row.result.value.error.None? <==> row.state == Succeeded))
  }

  lemma ResultStep(p: Params, s: System, a: Action)
    requires ResultMatches(s.db.row) && !Revives(s, a)
    ensures ResultMatches(Next(p, s, a).db.row)
    ensures s.db.row.result.Some? ==> Next(p, s, a).db.row == s.db.row
  {
  }

  lemma ResultAt(p: Params, acts: seq<Action>, k: nat)
    requires k < |acts| && ResultMatches(At(p, acts, k).db.row) && !Revives(At(p, acts, k), acts[k])
    ensures ResultMatches(At(p, acts, k + 1).db.row)
  {
    AtStep(p, acts, k);
    ResultStep(p, At(p, acts, k), acts[k]);
  }

  lemma ResultsMatch(p: Params, acts: seq<Action>, i: nat)
    requires NoRevival(p, acts) && i <= |acts|
    ensures ResultMatches(At(p, acts, i).db.row)
  {
    var matching := (k: nat) => k <= |acts| && ResultMatches(At(p, acts, k).db.row);
    assert matching(0);
    forall k | 0 <= k < i && matching(k) ensures matching(k + 1) { ResultAt(p, acts, k); }
    Steps(matching, 0, i);
  }

  /** Under the same condition a result, once written, is never rewritten. */
  lemma ResultWrittenOnce(p: Params, acts: seq<Action>, i: nat, j: nat)
    requires NoRevival(p, acts) && i <= j <= |acts| && At(p, acts, i).db.row.result.Some?
    ensures At(p, acts, j).db.row == At(p, acts, i).db.row
  {
    ResultsMatch(p, acts, i);
    TerminalStays(p, acts, i, j);
  }

  // ----- Decisions land on pauses -----

  ghost predicate PausedRowIsPausedLog(s: System) {
    s.db.row.state == AwaitingApproval ==>
      |s.db.checkpoints| > 0 && s.db.checkpoints[|s.db.checkpoints| - 1].snapshot.awaitingApproval
  }

  /** A pause write that lands while the newest checkpoint is not paused: its worker was overtaken. */
  ghost predicate StalePause(s: System, a: Action) {
    && PauseLands(s, a)
    && !(|s.db.checkpoints| > 0 && s.db.checkpoints[|s.db.checkpoints| - 1].snapshot.awaitingApproval)
  }

  ghost predicate FreshPauses(p: Params, acts: seq<Action>) {
    forall i :: 0 <= i < |acts| ==> !StalePause(At(p, acts, i), acts[i])
  }

  /** A paused newest checkpoint blocks every step: workers hold older states, whose next number is taken. */
  lemma PauseBlocksSteps(p: Params, s: System, w: nat)
    requires Inv(p, s) && w in s.workers && s.workers[w].Unsaved?
    requires |s.db.checkpoints| > 0 && s.db.checkpoints[|s.db.checkpoints| - 1].snapshot.awaitingApproval
    ensures DoPersist(s, w, s.workers[w]).db == s.db
  {
    var held := s.workers[w].held;
    LatestIsLast(s.db.checkpoints);
    StepAdvances(p.graph, held.state, s.workers[w].env);
    ReseedKeeps(Base(p.task, Log(s.db), held.state.sequence, held.prior), held.workspace);
    assert held.state.sequence != |s.db.checkpoints|;
  }

  /** A paused checkpoint can be followed only by a verdict, so a paused row keeps its paused checkpoint. */
  lemma PausedRowStep(p: Params, s: System, a: Action)
    requires Inv(p, s) && PausedRowIsPausedLog(s)
    ensures PausedRowIsPausedLog(Next(p, s, a)) <==> !StalePause(s, a)
  {
    if a.Persist? {
      if a.w in s.workers && s.workers[a.w].Unsaved? && s.db.row.state == AwaitingApproval {
        PauseBlocksSteps(p, s, a.w);
      }
    }
  }

  lemma {:induction false} PausedRowAlong(p: Params, acts: seq<Action>, i: nat)
    requires FreshPauses(p, acts) && i <= |acts|
    ensures PausedRowIsPausedLog(At(p, acts, i))
  {
    if i > 0 {
      PausedRowAlong(p, acts, i - 1);
      InvHolds(p, acts[..i - 1]);
      AtStep(p, acts, i - 1);
      PausedRowStep(p, At(p, acts, i - 1), acts[i - 1]);
    }
  }

  /** The row says paused only over a paused log, in exactly the runs where every pause write is fresh. */
  lemma PausedRowIffFresh(p: Params, acts: seq<Action>)
    ensures (forall i :: 0 <= i <= |acts| ==> PausedRowIsPausedLog(At(p, acts, i))) <==> FreshPauses(p, acts)
  {
    if FreshPauses(p, acts) {
      forall i | 0 <= i <= |acts| ensures PausedRowIsPausedLog(At(p, acts, i)) {
        PausedRowAlong(p, acts, i);
      }
    } else {
      var i :| 0 <= i < |acts| && StalePause(At(p, acts, i), acts[i]);
      InvHolds(p, acts[..i]);
      AtStep(p, acts, i);
      if PausedRowIsPausedLog(At(p, acts, i)) { PausedRowStep(p, At(p, acts, i), acts[i]); }
      assert !PausedRowIsPausedLog(At(p, acts, i)) || !PausedRowIsPausedLog(At(p, acts, i + 1));
    }
  }

  // ----- When a verdict meets its pause -----

  /** A verdict lands on a checkpoint that is not paused: its operator read no pause. */
  ghost predicate MissesPause(s: System, a: Action) {
    VerdictLands(s, a) && !s.operators[a.o].latest.snapshot.awaitingApproval
  }

  ghost predicate MeetsPauses(p: Params, acts: seq<Action>) {
    forall i :: 0 <= i < |acts| ==> !MissesPause(At(p, acts, i), acts[i])
  }

  /** Every verdict in the log was merged onto a paused entry. */
  ghost predicate Met(s: System) {
    |Log(s.db)| == |s.hist| && DecidedOnlyAtPauses(Log(s.db), s.hist)
  }

  /** The log is as it was, or longer by a step, or by a verdict on top of the entry its operator read. */
  ghost predicate LogMoves(s: System, a: Action, t: System) {
    if t.hist == s.hist then t.db.checkpoints == s.db.checkpoints && !VerdictLands(s, a)
    else && |t.hist| == |s.hist| + 1 && s.hist <= t.hist
         && |t.db.checkpoints| == |s.db.checkpoints| + 1 && s.db.checkpoints <= t.db.checkpoints
         && (t.hist[|s.hist|].Merged? <==> VerdictLands(s, a))
         && (VerdictLands(s, a) ==> 0 < |s.hist| == |s.db.checkpoints|
                                    && s.operators[a.o].latest == s.db.checkpoints[|s.hist| - 1])
  }

  lemma PersistMovesLog(p: Params, s: System, w: nat)
    ensures LogMoves(s, Persist(w), Next(p, s, Persist(w)))
  {
  }

  lemma CommitMovesLog(p: Params, s: System, o: nat)
    requires Inv(p, s)
    ensures LogMoves(s, CommitApproval(o), Next(p, s, CommitApproval(o)))
  {
    if VerdictLands(s, CommitApproval(o)) { CommitKeepsInv(p, s, o); }
  }

  /** What one action does to the log. */
  lemma LogStep(p: Params, s: System, a: Action)
    requires Inv(p, s)
    ensures LogMoves(s, a, Next(p, s, a))
  {
    match a
    case CommitApproval(o) => CommitMovesLog(p, s, o);
    case Persist(w) => PersistMovesLog(p, s, w);
    case _ =>
  }

  lemma MetGrown(s: System, t: System)
    requires |Log(s.db)| == |s.hist|
    requires |t.hist| == |s.hist| + 1 && s.hist <= t.hist
    requires |t.db.checkpoints| == |s.db.checkpoints| + 1 && s.db.checkpoints <= t.db.checkpoints
    ensures Met(t) <==> Met(s) && (t.hist[|s.hist|].Merged? && s.hist != [] ==>
                                     s.db.checkpoints[|s.hist| - 1].snapshot.awaitingApproval)
  {
    var n := |s.hist|;
    GrownDecided(Log(s.db), s.hist, Log(t.db)[n], t.hist[n]);
    assert Log(t.db) == Log(s.db) + [Log(t.db)[n]] && t.hist == s.hist + [t.hist[n]];
  }

  lemma MetSame(s: System, t: System)
    requires t.hist == s.hist && t.db.checkpoints == s.db.checkpoints
    ensures Met(t) == Met(s)
  {
    assert Log(t.db) == Log(s.db);
  }

  /** One action keeps every verdict on its pause exactly when it does not miss one, and never mends a miss. */
  lemma MetStep(p: Params, s: System, a: Action)
    requires Inv(p, s)
    ensures Met(Next(p, s, a)) <==> Met(s) && !MissesPause(s, a)
  {
    var t := Next(p, s, a);
    LogStep(p, s, a);
    if t.hist == s.hist { MetSame(s, t); } else { MetGrown(s, t); }
  }

  lemma MetAt(p: Params, acts: seq<Action>, k: nat)
    requires k < |acts|
    ensures Met(At(p, acts, k + 1)) <==> Met(At(p, acts, k)) && !MissesPause(At(p, acts, k), acts[k])
  {
    AtStep(p, acts, k);
    InvHolds(p, acts[..k]);
    MetStep(p, At(p, acts, k), acts[k]);
  }

  lemma {:induction false} MetAlong(p: Params, acts: seq<Action>, i: nat)
    requires MeetsPauses(p, acts) && i <= |acts|
    ensures Met(At(p, acts, i))
  {
    if i > 0 {
      MetAlong(p, acts, i - 1);
      MetAt(p, acts, i - 1);
    }
  }

  lemma {:induction false} MissedForGood(p: Params, acts: seq<Action>, i: nat, j: nat)
    requires i < j <= |acts| && MissesPause(At(p, acts, i), acts[i])
    ensures !Met(At(p, acts, j))
    decreases j
  {
    MetAt(p, acts, j - 1);
    if i < j - 1 { MissedForGood(p, acts, i, j - 1); }
  }

  /**
   Every verdict of a run's log was merged onto a paused entry if and only if every verdict that landed was given by
   an operator who read a paused checkpoint.
   */
  lemma VerdictsMetIffReadPaused(p: Params, acts: seq<Action>)
    ensures Met(Exec(p, acts)) <==> MeetsPauses(p, acts)
  {
    assert acts[..|acts|] == acts;
    if MeetsPauses(p, acts) {
      MetAlong(p, acts, |acts|);
    } else {
      var i :| 0 <= i < |acts| && MissesPause(At(p, acts, i), acts[i]);
      MissedForGood(p, acts, i, |acts|);
    }
  }

  /** Where every pause write is fresh, every verdict meets its pause. */
  lemma FreshPausesAreMet(p: Params, acts: seq<Action>)
    requires FreshPauses(p, acts)
    ensures MeetsPauses(p, acts)
  {
    forall i | 0 <= i < |acts| ensures !MissesPause(At(p, acts, i), acts[i]) {
      PausedRowAlong(p, acts, i);
      InvHolds(p, acts[..i]);
      LogStep(p, At(p, acts, i), acts[i]);
    }
  }

  lemma VerdictsOnlyAtPauses(p: Params, acts: seq<Action>)
    requires FreshPauses(p, acts)
    ensures Met(Exec(p, acts))
  {
    FreshPausesAreMet(p, acts);
    VerdictsMetIffReadPaused(p, acts);
  }
}
