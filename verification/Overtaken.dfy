/**
 A run in which an overtaken worker's pause write lands over a log that has moved on, so that an operator's
 verdict is merged onto a checkpoint that is not paused.
 */
module Overtaken {
  import opened Options
  import opened RunState
  import opened Gates
  import opened Graph
  import opened Chain
  import opened TaskStore
  import opened Execution
  import opened Durability
  import opened Worker

  const GATE := Named("gate")
  const WORK := Named("work")

  /** A gate in front of one ordinary node. */
  function Gated(): Topology {
    var body: NodeFn := (s, e) => Returned(NodeResult(map[], None, false, None));
    Topology(map[GATE := HumanGate("review", WORK, None), WORK := Plain(body)],
             map[GATE := Static(WORK), WORK := Static(End)], Some(GATE))
  }

  function Setting(): Params {
    Params(Task("task", "tenant", "trace", "graph", map[], "auto", "none", None), Gated())
  }

  const ENV := Env(None, 0)
  const YES := Verdict(Approve, None)

  function PausedAtGate(): TaskRunState {
    Seed(Setting().task, None).(
      currentNode := GATE, sequence := 1, awaitingApproval := true,
      data := Seed(Setting().task, None).data + map[HumanGateAt := Str("review")])
  }

  function Decided(): TaskRunState {
    MergeDecision(PausedAtGate(), YES, 2)
  }

  function PastGate(): TaskRunState {
    Decided().(currentNode := WORK, sequence := 3, data := Decided().data + map[HumanDecision := Null, HumanGateAt := Null])
  }

  lemma GatePauses()
    ensures Step(Gated(), Seed(Setting().task, None), ENV) == Ok(PausedAtGate())
  {
    assert GATE in Gated().nodes;
    assert PendingDecision(Seed(Setting().task, None).data) == None;
  }

  lemma GatePasses()
    ensures Step(Gated(), Decided(), ENV) == Ok(PastGate())
  {
    assert GATE in Gated().nodes && WORK in Gated().nodes;
    assert PendingDecision(Decided().data) == Some(Approve);
  }

  lemma ResumedAfterGate(p: Params, s: System) returns (t: System)
    requires p == Setting() && Reaches(p, Init(), s) && 2 in s.workers
    requires s.workers[2] == Driving(Held(Decided(), None, None)) && !SequenceTaken(s.db.checkpoints, 3)
    ensures Reaches(p, Init(), t)
    ensures t == Put(s.(db := s.db.(checkpoints := s.db.checkpoints + [Checkpoint(3, PastGate())]),
                        hist := s.hist + [FIRST]), 2, Driving(Held(PastGate(), None, None)))
  {
    GatePasses();
    t := Save(p, Init(), s, 2, Held(Decided(), None, None), ENV, PastGate());
  }

  const FIRST := Stepped(None, None, ENV)
  const PAUSED_WORKER := Driving(Held(PausedAtGate(), None, None))

  ghost function Rowed(state: TaskStatus, log: seq<Checkpoint>, outbox: seq<OutboxKey>): Db {
    Db(Row(state, None), log, outbox)
  }

  /** Worker 0 has run the gate and saved the paused checkpoint. */
  lemma Saved() returns (s: System)
    ensures Reaches(Setting(), Init(), s)
    ensures s == System(Rowed(Running, [Checkpoint(1, PausedAtGate())], [Submit]), [FIRST],
                        map[0 := PAUSED_WORKER], map[])
  {
    var p := Setting();
    ReachesSelf(p, Init());
    s := Arrive(p, Init(), Init(), 0, None, None);
    GatePauses();
    s := Save(p, Init(), s, 0, Held(Seed(p.task, None), None, None), ENV, PausedAtGate());
  }

  /** Worker 1 has picked the task up as well and holds the paused state; worker 0's pause write has landed. */
  lemma Waiting() returns (s: System)
    ensures Reaches(Setting(), Init(), s)
    ensures s == System(Rowed(AwaitingApproval, [Checkpoint(1, PausedAtGate())], [Submit]), [FIRST],
                        map[1 := PAUSED_WORKER], map[])
  {
    var p := Setting();
    s := Saved();
    LatestIsLast(s.db.checkpoints);
    s := Arrive(p, Init(), s, 1, None, None);
    ReachesNext(p, Init(), s, Pause(0));
    s := Next(p, s, Pause(0));
    assert s.workers == map[1 := PAUSED_WORKER];
  }

  /** An operator has approved. */
  lemma Approved() returns (s: System)
    ensures Reaches(Setting(), Init(), s)
    ensures s == System(
      Rowed(Running, [Checkpoint(1, PausedAtGate()), Checkpoint(2, Decided())], [Submit, Resume(2)]),
      [FIRST, Merged(YES)], map[1 := PAUSED_WORKER], map[])
  {
    s := Waiting();
    LatestIsLast(s.db.checkpoints);
    s := Decide(Setting(), Init(), s, 0, YES, Checkpoint(1, PausedAtGate()));
  }

  /** Worker 2 has resumed and passed the gate; worker 1 still holds the old pause. */
  lemma MovedOn() returns (s: System)
    ensures Reaches(Setting(), Init(), s)
    ensures s == System(
      Rowed(Running, [Checkpoint(1, PausedAtGate()), Checkpoint(2, Decided()), Checkpoint(3, PastGate())],
            [Submit, Resume(2)]),
      [FIRST, Merged(YES), FIRST],
      map[1 := PAUSED_WORKER, 2 := Driving(Held(PastGate(), None, None))], map[])
  {
    var p := Setting();
    s := Approved();
    LatestIsLast(s.db.checkpoints);
    s := Arrive(p, Init(), s, 2, None, None);
    s := ResumedAfterGate(p, s);
  }

  /** The overtaken worker's pause write lands on a log that has moved on. */
  lemma PausedOver() returns (s: System)
    ensures Reaches(Setting(), Init(), s)
    ensures s.db == Rowed(AwaitingApproval,
                          [Checkpoint(1, PausedAtGate()), Checkpoint(2, Decided()), Checkpoint(3, PastGate())],
                          [Submit, Resume(2)])
    ensures s.hist == [FIRST, Merged(YES), FIRST] && s.operators == map[]
  {
    var p := Setting();
    s := MovedOn();
    ReachesNext(p, Init(), s, Pause(1));
    s := Next(p, s, Pause(1));
  }

  /** A second verdict is merged onto the running checkpoint. */
  lemma Misplaced() returns (s: System)
    ensures Reaches(Setting(), Init(), s)
    ensures |s.hist| == |s.db.checkpoints| == 4 && s.hist[3].Merged? && !s.db.checkpoints[2].snapshot.awaitingApproval
  {
    s := PausedOver();
    LatestIsLast(s.db.checkpoints);
    s := Decide(Setting(), Init(), s, 0, YES, Checkpoint(3, PastGate()));
  }

  /** Verdicts are not always merged onto a pause: a run that is not fresh merges one onto a running checkpoint. */
  lemma VerdictCanMissItsPause()
    ensures exists acts :: !FreshPauses(Setting(), acts) && !MeetsPauses(Setting(), acts) && !Met(Exec(Setting(), acts))
  {
    var p := Setting();
    var s := Misplaced();
    var acts :| Play(p, Init(), acts) == s;
    PlayFromReachable(p, [], acts);
    assert [] + acts == acts;
    assert !Met(s) by { assert !Log(s.db)[2].awaitingApproval; }
    VerdictsMetIffReadPaused(p, acts);
    if FreshPauses(p, acts) { FreshPausesAreMet(p, acts); }
  }
}
