/**
 What a write that lands goes back to: whoever makes it acted on a row it had found in the right state, and carries what
 it read there.
 */
module Provenance {
  import opened Options
  import opened RunState
  import opened Gates
  import opened Graph
  import opened Chain
  import opened TaskStore
  import opened Execution
  import opened Durability
  import opened Worker

  // ----- Actors -----

  /** The worker an action is by, if it is by one. */
  ghost function WorkerOf(a: Action): Option<nat> {
    match a
    case CheckApproval(_, _) => None
    case ReadApproval(_) => None
    case CommitApproval(_) => None
    case DropOperator(_) => None
    case Abort => None
    case Expire => None
    case _ => Some(a.w)
  }

  ghost function OperatorOf(a: Action): Option<nat> {
    match a
    case CheckApproval(o, _) => Some(o)
    case ReadApproval(o) => Some(o)
    case CommitApproval(o) => Some(o)
    case DropOperator(o) => Some(o)
    case _ => None
  }

  /** An action touches nobody's memory but its own actor's; actors meet in the rows alone. */
  lemma OthersAreUntouched(p: Params, s: System, a: Action)
    ensures forall w | WorkerOf(a) != Some(w) ::
      (w in Next(p, s, a).workers <==> w in s.workers) && (w in s.workers ==> Next(p, s, a).workers[w] == s.workers[w])
    ensures forall o | OperatorOf(a) != Some(o) ::
      && (o in Next(p, s, a).operators <==> o in s.operators)
      && (o in s.operators ==> Next(p, s, a).operators[o] == s.operators[o])
  {
  }

  /** A worker whose node fails, or whose checkpoint is refused, is gone and leaves the rows as they were. */
  lemma FailureEndsWorker(p: Params, s: System, w: nat, env: Env)
    requires w in s.workers
    ensures s.workers[w].Driving? && !s.workers[w].held.state.finished && !s.workers[w].held.state.awaitingApproval
            && Step(p.graph, s.workers[w].held.state, env).Err? ==>
      var t := Next(p, s, RunNode(w, env)); w !in t.workers && t.db == s.db && t.hist == s.hist
    ensures s.workers[w].Unsaved? && SequenceTaken(s.db.checkpoints, s.workers[w].next.sequence) ==>
      var t := Next(p, s, Persist(w)); w !in t.workers && t.db == s.db && t.hist == s.hist
  {
  }

  // ----- Operators -----

  /** An operator in the middle of a call was there before, or has just found the row paused. */
  lemma OperatorStep(p: Params, s: System, a: Action, o: nat)
    requires o in Next(p, s, a).operators
    ensures var verdict := Next(p, s, a).operators[o].verdict;
      || (o in s.operators && s.operators[o].verdict == verdict)
      || (a == CheckApproval(o, verdict) && s.db.row.state == AwaitingApproval)
  {
  }

  lemma {:induction false} CheckedBefore(p: Params, acts: seq<Action>, i: nat, o: nat) returns (j: nat)
    requires i <= |acts| && o in At(p, acts, i).operators
    ensures j < i && acts[j] == CheckApproval(o, At(p, acts, i).operators[o].verdict)
    ensures At(p, acts, j).db.row.state == AwaitingApproval
    decreases i
  {
    var m := i - 1;
    AtStep(p, acts, m);
    OperatorStep(p, At(p, acts, m), acts[m], o);
    if o in At(p, acts, m).operators && At(p, acts, m).operators[o].verdict == At(p, acts, i).operators[o].verdict {
      j := CheckedBefore(p, acts, m, o);
    } else {
      j := m;
    }
  }

  /** A verdict that lands was given by an operator who had found the row waiting, and is the one that was given. */
  lemma LandedVerdictWasChecked(p: Params, acts: seq<Action>, i: nat) returns (j: nat)
    requires i < |acts| && VerdictLands(At(p, acts, i), acts[i])
    ensures j < i && At(p, acts, j).db.row.state == AwaitingApproval && |At(p, acts, i + 1).hist| > 0
    ensures var hist := At(p, acts, i + 1).hist;
      hist[|hist| - 1].Merged? && acts[j] == CheckApproval(acts[i].o, hist[|hist| - 1].verdict)
  {
    j := CheckedBefore(p, acts, i, acts[i].o);
    AtStep(p, acts, i);
  }

  // ----- Giving up -----

  lemma AbandonStep(p: Params, s: System, a: Action, w: nat)
    requires LogOk(p, s.db, s.hist)
    requires w in Next(p, s, a).workers && Next(p, s, a).workers[w].AbandonReady?
    ensures || (w in s.workers && s.workers[w] == Next(p, s, a).workers[w])
            || (a == ReadForAbandon(w) && Next(p, s, a).workers[w].sequence == |s.db.checkpoints|)
  {
    LatestIsLast(s.db.checkpoints);
  }

  lemma {:induction false} CountedBefore(p: Params, acts: seq<Action>, i: nat, w: nat) returns (j: nat)
    requires i <= |acts| && w in At(p, acts, i).workers && At(p, acts, i).workers[w].AbandonReady?
    ensures j < i && acts[j] == ReadForAbandon(w)
    ensures |At(p, acts, j).db.checkpoints| == At(p, acts, i).workers[w].sequence
    decreases i
  {
    var m := i - 1;
    AtStep(p, acts, m);
    InvHolds(p, acts[..m]);
    AbandonStep(p, At(p, acts, m), acts[m], w);
    if w in At(p, acts, m).workers && At(p, acts, m).workers[w] == At(p, acts, i).workers[w] {
      j := CountedBefore(p, acts, m, w);
    } else {
      j := m;
    }
  }

  lemma StartStep(p: Params, s: System, a: Action, w: nat)
    requires var t := Next(p, s, a); w in t.workers && (t.workers[w].Abandoning? || t.workers[w].AbandonReady?)
    ensures || (w in s.workers && (s.workers[w].Abandoning? || s.workers[w].AbandonReady?))
            || (a == StartAbandon(w) && s.db.row.state !in {Succeeded, Failed, Cancelled})
  {
  }

  lemma {:induction false} StartedBefore(p: Params, acts: seq<Action>, i: nat, w: nat) returns (j: nat)
    requires i <= |acts| && w in At(p, acts, i).workers
    requires At(p, acts, i).workers[w].Abandoning? || At(p, acts, i).workers[w].AbandonReady?
    ensures j < i && acts[j] == StartAbandon(w) && At(p, acts, j).db.row.state !in {Succeeded, Failed, Cancelled}
    decreases i
  {
    var m := i - 1;
    AtStep(p, acts, m);
    var s := At(p, acts, m);
    StartStep(p, s, acts[m], w);
    if w in s.workers && (s.workers[w].Abandoning? || s.workers[w].AbandonReady?) {
      j := StartedBefore(p, acts, m, w);
    } else {
      j := m;
    }
  }

  /** The action gives the task up, and its result lands. */
  ghost predicate GivesUp(s: System, a: Action) {
    a.Abandon? && a.w in s.workers && s.workers[a.w].AbandonReady? && !Terminal(s.db.row.state)
  }

  /** The log had `n` checkpoints when the task was given up. */
  ghost predicate GivenUpAfter(row: Row, n: nat) {
    && row.state == Failed && row.result.Some?
    && row.result.value.status == ResultFailed && row.result.value.output == None && row.result.value.nodeSequence == n
    && row.result.value.error.Some? && row.result.value.error.value.code == Abandoned
  }

  /**
   A task given up is a failure without output that counts the checkpoints its worker had read, and keeps its log; the
   worker had found the row neither succeeded, failed nor cancelled.
   */
  lemma GivenUpIsCounted(p: Params, acts: seq<Action>, i: nat) returns (k: nat, j: nat)
    requires i < |acts| && GivesUp(At(p, acts, i), acts[i])
    ensures k < i && acts[k] == StartAbandon(acts[i].w) && At(p, acts, k).db.row.state !in {Succeeded, Failed, Cancelled}
    ensures j < i && acts[j] == ReadForAbandon(acts[i].w)
    ensures GivenUpAfter(At(p, acts, i + 1).db.row, |At(p, acts, j).db.checkpoints|)
    ensures At(p, acts, i + 1).hist == At(p, acts, i).hist
    ensures At(p, acts, i + 1).db == At(p, acts, i).db.(row := At(p, acts, i + 1).db.row)
  {
    k := StartedBefore(p, acts, i, acts[i].w);
    j := CountedBefore(p, acts, i, acts[i].w);
    AtStep(p, acts, i);
  }

  // ----- Recovery sweeps -----

  lemma ListedStep(p: Params, s: System, a: Action, w: nat)
    requires w in Next(p, s, a).workers && Next(p, s, a).workers[w].Recovering?
    ensures (w in s.workers && s.workers[w].Recovering?) || (a == ListRunning(w) && s.db.row.state == Running)
  {
  }

  lemma {:induction false} ListedBefore(p: Params, acts: seq<Action>, i: nat, w: nat) returns (j: nat)
    requires i <= |acts| && w in At(p, acts, i).workers && At(p, acts, i).workers[w].Recovering?
    ensures j < i && acts[j] == ListRunning(w) && At(p, acts, j).db.row.state == Running
    decreases i
  {
    var m := i - 1;
    AtStep(p, acts, m);
    ListedStep(p, At(p, acts, m), acts[m], w);
    if w in At(p, acts, m).workers && At(p, acts, m).workers[w].Recovering? {
      j := ListedBefore(p, acts, m, w);
    } else {
      j := m;
    }
  }

  lemma OutboxStep(p: Params, s: System, a: Action, stamp: int)
    requires Recovered(stamp) in Next(p, s, a).db.outbox && Recovered(stamp) !in s.db.outbox
    ensures a.Recover? && a.stamp == stamp && a.w in s.workers && s.workers[a.w].Recovering?
    ensures Next(p, s, a).db == s.db.(outbox := s.db.outbox + [Recovered(stamp)])
  {
  }

  /** A task is queued again only by a sweep that had listed it as running, and the sweep changes nothing else. */
  lemma {:induction false} RequeuedWasRunning(p: Params, acts: seq<Action>, n: nat, stamp: int) returns (j: nat, i: nat)
    requires n <= |acts| && Recovered(stamp) in At(p, acts, n).db.outbox
    ensures j < i < n && acts[i].Recover? && acts[i].stamp == stamp
    ensures acts[j] == ListRunning(acts[i].w) && At(p, acts, j).db.row.state == Running
    ensures At(p, acts, i + 1).db == At(p, acts, i).db.(outbox := At(p, acts, i).db.outbox + [Recovered(stamp)])
    decreases n
  {
    var m := n - 1;
    AtStep(p, acts, m);
    if Recovered(stamp) in At(p, acts, m).db.outbox {
      j, i := RequeuedWasRunning(p, acts, m, stamp);
    } else {
      OutboxStep(p, At(p, acts, m), acts[m], stamp);
      i := m;
      j := ListedBefore(p, acts, m, acts[m].w);
    }
  }

  // ----- When a terminal row is final -----

  /** Some worker has read another state than running and has not written RUNNING yet. */
  ghost predicate Poised(s: System, w: nat) {
    w in s.workers && (s.workers[w].Fetched? || s.workers[w].Loaded?) && s.workers[w].seen != Running
  }

  ghost predicate Settled(s: System) {
    Terminal(s.db.row.state) && forall w :: !Poised(s, w)
  }

  /** Nobody is dispatched onto a terminal row. */
  lemma SettledStep(p: Params, s: System, a: Action)
    requires Settled(s)
    ensures Settled(Next(p, s, a)) && Next(p, s, a).db.row == s.db.row
  {
    forall w ensures !Poised(Next(p, s, a), w) {
      assert !Poised(s, w);
    }
    if a.EnterRunning? { assert !Poised(s, a.w); }
    TerminalStep(p, s, a);
  }

  lemma {:induction false} SettledStays(p: Params, s: System, acts: seq<Action>)
    requires Settled(s)
    ensures Settled(Play(p, s, acts)) && Play(p, s, acts).db.row == s.db.row
  {
    if acts != [] {
      SettledStays(p, s, acts[..|acts| - 1]);
      SettledStep(p, Play(p, s, acts[..|acts| - 1]), acts[|acts| - 1]);
    }
  }

  /** A poised worker can still write RUNNING. */
  lemma PoisedWrites(p: Params, s: System, w: nat) returns (t: System)
    requires Poised(s, w)
    ensures Reaches(p, s, t) && t.db.row.state == Running
  {
    ReachesSelf(p, s);
    var loaded := s;
    if s.workers[w].Fetched? {
      loaded := Next(p, s, Load(w, None, None));
      ReachesNext(p, s, s, Load(w, None, None));
    }
    t := Next(p, loaded, EnterRunning(w));
    ReachesNext(p, s, loaded, EnterRunning(w));
  }

  /**
   A terminal row is final, whatever anybody does from here on, if and only if no worker that read it in another state
   than running is still about to enter.
   */
  lemma FinalIffNobodyPoised(p: Params, s: System)
    requires Terminal(s.db.row.state)
    ensures (forall t :: Reaches(p, s, t) ==> t.db.row == s.db.row) <==> forall w :: !Poised(s, w)
  {
    if w: nat :| Poised(s, w) {
      var t := PoisedWrites(p, s, w);
    } else {
      forall t | Reaches(p, s, t) ensures t.db.row == s.db.row {
        var acts :| Play(p, s, acts) == t;
        SettledStays(p, s, acts);
      }
    }
  }
}
