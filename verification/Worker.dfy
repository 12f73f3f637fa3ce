/**
 The worker's dispatch as imperative code over the store, undisturbed by others.  It is proved to be one run of
 the execution protocol, and to append exactly the states the graph goes through.
 */
module Worker {
  import opened Options
  import opened RunState
  import opened Gates
  import opened Graph
  import opened Chain
  import opened TaskStore
  import opened Execution

  /** The system after `acts`, from any state. */
  ghost function Play(p: Params, s: System, acts: seq<Action>): System {
    if acts == [] then s else Next(p, Play(p, s, acts[..|acts| - 1]), acts[|acts| - 1])
  }

  lemma PlaySnoc(p: Params, s: System, acts: seq<Action>, a: Action)
    ensures Play(p, s, acts + [a]) == Next(p, Play(p, s, acts), a)
  {
    assert (acts + [a])[..|acts|] == acts;
  }

  /** What follows a reachable state is reachable. */
  lemma {:induction false} PlayFromReachable(p: Params, before: seq<Action>, acts: seq<Action>)
    ensures Play(p, Exec(p, before), acts) == Exec(p, before + acts)
  {
    if acts == [] {
      assert before + acts == before;
    } else {
      var front := acts[..|acts| - 1];
      PlayFromReachable(p, before, front);
      assert before + acts == (before + front) + [acts[|acts| - 1]];
      ExecSnoc(p, before + front, acts[|acts| - 1]);
    }
  }

  /** `t` is reached from `s` by some actions. */
  ghost predicate Reaches(p: Params, s: System, t: System) {
    exists acts :: Play(p, s, acts) == t
  }

  lemma ReachesSelf(p: Params, s: System)
    ensures Reaches(p, s, s)
  {
    assert Play(p, s, []) == s;
  }

  lemma ReachesNext(p: Params, s: System, t: System, a: Action)
    requires Reaches(p, s, t)
    ensures Reaches(p, s, Next(p, t, a))
  {
    var acts :| Play(p, s, acts) == t;
    PlaySnoc(p, s, acts, a);
  }

  /** What is reached from a reachable state is reachable. */
  lemma ReachedIsReachable(p: Params, s: System, t: System)
    requires Reachable(p, s) && Reaches(p, s, t)
    ensures Reachable(p, t)
  {
    var before :| Exec(p, before) == s;
    var acts :| Play(p, s, acts) == t;
    PlayFromReachable(p, before, acts);
  }

  lemma ReachedIsSound(p: Params, s: System)
    requires Reaches(p, Init(), s)
    ensures Reachable(p, s) && Inv(p, s)
  {
    assert Exec(p, []) == Init();
    ReachedIsReachable(p, Init(), s);
    ReachableIsSound(p, s);
  }

  /** The states a graph goes through, one environment a step, until it stops or the environments run out. */
  function Driven(g: Topology, s: TaskRunState, envs: seq<Env>): seq<TaskRunState>
    decreases |envs|
  {
    if envs == [] || s.finished || s.awaitingApproval then []
    else
      match Step(g, s, envs[0])
      case Err(_) => []
      case Ok(t) => [t] + Driven(g, t, envs[1..])
  }

  function Rows(states: seq<TaskRunState>): seq<Checkpoint> {
    seq(|states|, i requires 0 <= i < |states| => Checkpoint(states[i].sequence, states[i]))
  }

  ghost predicate NumberedLog(checkpoints: seq<Checkpoint>) {
    forall i :: 0 <= i < |checkpoints| ==> checkpoints[i].sequence == checkpoints[i].snapshot.sequence == i + 1
  }

  /** The row a dispatch leaves, as a function of the row it found and the state it ended in. */
  function RowAfter(row: Row, end: TaskRunState): Row {
    if Terminal(row.state) then row
    else if end.awaitingApproval then row.(state := AwaitingApproval)
    else if end.finished then Row(BuildResult(end).1, Some(BuildResult(end).0))
    else row.(state := Running)
  }

  /** The state a run over `envs` ends in. */
  function EndState(start: TaskRunState, states: seq<TaskRunState>): TaskRunState {
    if states == [] then start else states[|states| - 1]
  }

  /** The worker is at the loop head with this state in hand. */
  ghost predicate Holds(s: System, w: nat, state: TaskRunState) {
    w in s.workers && s.workers[w].Driving? && s.workers[w].held.state == state
  }

  /** Dispatch, load, enter: the worker is at its loop head and the row is RUNNING. */
  lemma Arrive(p: Params, s0: System, s: System, w: nat, prior: Option<Value>, workspace: Option<Workspace>)
      returns (t: System)
    requires Reaches(p, s0, s) && w !in s.workers && !Terminal(s.db.row.state)
    ensures Reaches(p, s0, t)
    ensures t == Put(s.(db := UpdateState(s.db, Running)), w,
                     Driving(Held(LoadState(p, s.db, prior, workspace), prior, workspace)))
  {
    var fetched := Next(p, s, Dispatch(w));
    var loaded := Next(p, fetched, Load(w, prior, workspace));
    t := Next(p, loaded, EnterRunning(w));
    ReachesNext(p, s0, s, Dispatch(w));
    ReachesNext(p, s0, fetched, Load(w, prior, workspace));
    ReachesNext(p, s0, loaded, EnterRunning(w));
  }

  /** Execute a node and persist its checkpoint. */
  lemma Save(p: Params, s0: System, s: System, w: nat, held: Held, env: Env, next: TaskRunState)
      returns (t: System)
    requires Reaches(p, s0, s) && w in s.workers && s.workers[w] == Driving(held)
    requires !held.state.finished && !held.state.awaitingApproval
    requires Step(p.graph, held.state, env) == Ok(next) && !SequenceTaken(s.db.checkpoints, next.sequence)
    ensures Reaches(p, s0, t)
    ensures t == Put(s.(db := s.db.(checkpoints := s.db.checkpoints + [Checkpoint(next.sequence, next)]),
                        hist := s.hist + [Stepped(held.prior, held.workspace, env)]),
                     w, Driving(Held(next, None, None)))
  {
    var stepped := Next(p, s, RunNode(w, env));
    t := Next(p, stepped, Persist(w));
    ReachesNext(p, s0, s, RunNode(w, env));
    ReachesNext(p, s0, stepped, Persist(w));
  }

  /** The operator has checked the row and read the newest checkpoint. */
  lemma ReadyToDecide(p: Params, s0: System, s: System, o: nat, verdict: Verdict, latest: Checkpoint)
      returns (t: System)
    requires Reaches(p, s0, s) && o !in s.operators && s.db.row.state == AwaitingApproval
    requires Latest(s.db.checkpoints) == Some(latest)
    ensures Reaches(p, s0, t) && t == s.(operators := s.operators[o := Ready(verdict, latest)])
  {
    var checked := Next(p, s, CheckApproval(o, verdict));
    t := Next(p, checked, ReadApproval(o));
    ReachesNext(p, s0, s, CheckApproval(o, verdict));
    ReachesNext(p, s0, checked, ReadApproval(o));
  }

  /** An operator's call that meets no interference. */
  lemma Decide(p: Params, s0: System, s: System, o: nat, verdict: Verdict, latest: Checkpoint) returns (t: System)
    requires Reaches(p, s0, s) && o !in s.operators && s.db.row.state == AwaitingApproval
    requires Latest(s.db.checkpoints) == Some(latest) && ResolveApproval(s.db, verdict, latest).1
    ensures Reaches(p, s0, t)
    ensures t == s.(db := ResolveApproval(s.db, verdict, latest).0, hist := s.hist + [Merged(verdict)])
  {
    var ready := ReadyToDecide(p, s0, s, o, verdict, latest);
    t := Next(p, ready, CommitApproval(o));
    ReachesNext(p, s0, ready, CommitApproval(o));
    assert t.operators == s.operators;
  }

  lemma Conclude(p: Params, s0: System, s: System, w: nat, state: TaskRunState) returns (t: System)
    requires Reaches(p, s0, s) && Holds(s, w, state)
    ensures Reaches(p, s0, t)
    ensures t.db ==
      if state.awaitingApproval then SetAwaitingApproval(s.db).0
      else if state.finished then Complete(s.db, BuildResult(state).0, BuildResult(state).1).0
      else s.db
  {
    var a := if state.awaitingApproval then Pause(w) else if state.finished then Finish(w) else Crash(w);
    t := Next(p, s, a);
    ReachesNext(p, s0, s, a);
  }

  lemma DrivenGrows(g: Topology, start: TaskRunState, envs: seq<Env>, i: nat, done: seq<TaskRunState>,
                    state: TaskRunState, next: TaskRunState)
    requires i < |envs| && !state.finished && !state.awaitingApproval && Step(g, state, envs[i]) == Ok(next)
    requires Driven(g, start, envs) == done + Driven(g, state, envs[i..])
    ensures Driven(g, start, envs) == (done + [next]) + Driven(g, next, envs[i + 1..])
    ensures Rows(done + [next]) == Rows(done) + [Checkpoint(next.sequence, next)]
  {
    assert envs[i..][1..] == envs[i + 1..];
  }

  /** Undisturbed, the next checkpoint's number is free. */
  lemma NextIsFree(g: Topology, state: TaskRunState, env: Env, next: TaskRunState, checkpoints: seq<Checkpoint>)
    requires !state.finished && !state.awaitingApproval && Step(g, state, env) == Ok(next)
    requires NumberedLog(checkpoints) && state.sequence == |checkpoints|
    ensures !SequenceTaken(checkpoints, next.sequence) && next.sequence == |checkpoints| + 1
    ensures NumberedLog(checkpoints + [Checkpoint(next.sequence, next)])
  {
    StepAdvances(g, state, env);
    LatestIsLast(checkpoints);
  }

  /** The step loop: execute, persist, repeat. */
  method Drive(store: Store, p: Params, w: nat, start: TaskRunState, envs: seq<Env>, ghost s0: System, ghost s1: System)
      returns (state: TaskRunState, ghost s: System)
    requires Reaches(p, s0, s1) && Holds(s1, w, start) && s1.db == store.View()
    requires NumberedLog(store.checkpoints) && start.sequence == |store.checkpoints|
    modifies store
    ensures Reaches(p, s0, s) && Holds(s, w, state) && s.db == store.View()
    ensures store.checkpoints == old(store.checkpoints) + Rows(Driven(p.graph, start, envs))
    ensures store.row == old(store.row) && store.outbox == old(store.outbox)
    ensures state == EndState(start, Driven(p.graph, start, envs))
  {
    state, s := start, s1;
    var i := 0;
    ghost var done: seq<TaskRunState> := [];
    while i < |envs| && !state.finished && !state.awaitingApproval
      invariant 0 <= i <= |envs|
      invariant Reaches(p, s0, s) && Holds(s, w, state) && s.db == store.View()
      invariant store.checkpoints == old(store.checkpoints) + Rows(done) && NumberedLog(store.checkpoints)
      invariant store.outbox == old(store.outbox) && store.row == old(store.row)
      invariant state == EndState(start, done) && state.sequence == |store.checkpoints|
      invariant Driven(p.graph, start, envs) == done + Driven(p.graph, state, envs[i..])
    {
      var next := Step(p.graph, state, envs[i]);
      if next.Err? { return; }
      NextIsFree(p.graph, state, envs[i], next.value, store.checkpoints);
      s := Save(p, s0, s, w, s.workers[w].held, envs[i], next.value);
      var landed := store.Append(Checkpoint(next.value.sequence, next.value));
      DrivenGrows(p.graph, start, envs, i, done, state, next.value);
      done, state, i := done + [next.value], next.value, i + 1;
    }
  }

  lemma LoadedSequence(p: Params, db: Db, prior: Option<Value>, workspace: Option<Workspace>)
    requires NumberedLog(db.checkpoints)
    ensures LoadState(p, db, prior, workspace).sequence == |db.checkpoints|
  {
    LatestIsLast(db.checkpoints);
  }

  /**
   Load the newest state, drive the graph, write the outcome.  `envs` holds what each executed node observes; a run that
   still has steps to make when they are used up is one cut by a crash.
   */
  method RunGraph(store: Store, p: Params, w: nat, prior: Option<Value>, workspace: Option<Workspace>, envs: seq<Env>,
                  ghost s0: System)
      returns (ghost s: System)
    requires s0.db == store.View() && w !in s0.workers && NumberedLog(store.checkpoints) && !Terminal(store.row.state)
    modifies store
    ensures Reaches(p, s0, s) && s.db == store.View()
    ensures Ran(p, old(store.View()), prior, workspace, envs, store.View())
  {
    ReachesSelf(p, s0);
    s := Arrive(p, s0, s0, w, prior, workspace);
    LoadedSequence(p, store.View(), prior, workspace);
    var latest := store.FindLatest();
    var start := Reseed(if latest.Some? then latest.value.snapshot else Seed(p.task, prior), workspace);
    if store.row.state != Running { store.WriteState(Running); }
    var state: TaskRunState;
    state, s := Drive(store, p, w, start, envs, s0, s);
    s := Conclude(p, s0, s, w, state);
    if state.awaitingApproval {
      var landed := store.PauseRow();
    } else if state.finished {
      var (result, terminal) := BuildResult(state);
      var landed := store.WriteResult(result, terminal);
    }
  }

  /** The driven states are appended, the row is what the last of them calls for, and the outbox is left alone. */
  ghost predicate Ran(p: Params, before: Db, prior: Option<Value>, workspace: Option<Workspace>, envs: seq<Env>,
                      after: Db)
  {
    var start := LoadState(p, before, prior, workspace);
    var states := Driven(p.graph, start, envs);
    && after.checkpoints == before.checkpoints + Rows(states)
    && after.outbox == before.outbox && after.row == RowAfter(before.row, EndState(start, states))
  }

  /** What a dispatch gets to work in. */
  datatype Provision =
    | NotRequired
    | Provided(workspace: Workspace)
    | Unavailable            // no workspace manager is wired: the message is dropped
    | ProvisionFailed        // the message stays for redelivery

  /** The workspace to stamp on the loaded state. */
  function Stamped(provision: Provision): Option<Workspace> {
    if provision.Provided? then Some(provision.workspace) else None
  }

  predicate Lacking(provision: Provision) {
    provision.Unavailable? || provision.ProvisionFailed?
  }

  /** One message: a terminal row, or a workspace that cannot be had, leaves everything as it is. */
  method HandleMessage(store: Store, p: Params, w: nat, prior: Option<Value>, provision: Provision,
                       envs: seq<Env>, ghost s0: System)
      returns (ran: bool, ghost s: System)
    requires s0.db == store.View() && w !in s0.workers && NumberedLog(store.checkpoints)
    modifies store
    ensures Reaches(p, s0, s) && s.db == store.View()
    ensures ran <==> !Terminal(old(store.row.state)) && (provision.NotRequired? || provision.Provided?)
    ensures !ran ==> store.View() == old(store.View())
    ensures ran ==>
      var workspace := if provision.Provided? then Some(provision.workspace) else None;
      Ran(p, old(store.View()), prior, workspace, envs, store.View())
  {
    ReachesSelf(p, s0);
    if Terminal(store.row.state) { return false, s0; }
    match provision {
      case NotRequired =>
        s := RunGraph(store, p, w, prior, None, envs, s0);
      case Provided(workspace) =>
        s := RunGraph(store, p, w, prior, Some(workspace), envs, s0);
      case _ =>
        return false, s0;
    }
    ran := true;
  }
}
