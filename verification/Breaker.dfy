/**
 The single-process circuit breaker: a three-state machine with a sliding failure window.  Deciding whether a call
 may proceed and recording its outcome are separate atomic steps, so any number of calls can be in flight between
 them.  Times are seconds on one nondecreasing clock.
 */
module Breaker {
  import opened Options

  datatype Config = Config(threshold: nat, window: real, cooldown: real) {
    predicate Valid() {
      threshold >= 1 && window > 0.0 && cooldown > 0.0
    }
  }

  datatype Phase = Closed | Open | HalfOpen

  datatype Bucket = Bucket(phase: Phase, failures: seq<real>, openedAt: Option<real>, probeInFlight: bool)

  const FRESH := Bucket(Closed, [], None, false)

  /** What the gate tells a caller; `Broken` is the failed assertion that an open bucket has an opening time. */
  datatype Answer = Pass | Probe | Reject(retryMs: Option<int>) | Broken

  /** How the protected call ended; a failure counts unless it is no downstream fault. */
  datatype Outcome = Success | Failure(counted: bool)

  function RetryMs(remaining: real): int {
    var ms := (remaining * 1000.0).Floor;
    if ms < 1 then 1 else ms
  }

  function Gate(cfg: Config, b: Bucket, now: real): (Answer, Bucket) {
    match b.phase
    case Closed => (Pass, b)
    case Open =>
      if b.openedAt.None? then (Broken, b)
      else
        var elapsed := now - b.openedAt.value;
        if elapsed < cfg.cooldown then (Reject(Some(RetryMs(cfg.cooldown - elapsed))), b)
        else (Probe, b.(phase := HalfOpen, probeInFlight := true))
    case HalfOpen => (Reject(None), b)
  }

  /** Drops the entries older than the cutoff from the head. */
  function Prune(failures: seq<real>, cutoff: real): seq<real> {
    if failures != [] && failures[0] < cutoff then Prune(failures[1..], cutoff) else failures
  }

  function Record(cfg: Config, b: Bucket, now: real, outcome: Outcome, isProbe: bool): Bucket {
    if isProbe then
      if outcome.Success? then Bucket(Closed, [], None, false) else Bucket(Open, [], Some(now), false)
    else if outcome.Success? || !outcome.counted then b
    else
      var failures := Prune(b.failures + [now], now - cfg.window);
      if |failures| >= cfg.threshold then b.(failures := failures, phase := Open, openedAt := Some(now))
      else b.(failures := failures)
  }

  /** One key's state, updated in place. */
  class BucketState {
    const cfg: Config
    var phase: Phase
    var failures: seq<real>
    var openedAt: Option<real>
    var probeInFlight: bool

    ghost function View(): Bucket
      reads this
    {
      Bucket(phase, failures, openedAt, probeInFlight)
    }

    constructor (cfg: Config)
      ensures this.cfg == cfg && View() == FRESH
    {
      this.cfg := cfg;
      phase, failures, openedAt, probeInFlight := Closed, [], None, false;
    }

    method AskGate(now: real) returns (answer: Answer)
      modifies this
      ensures (answer, View()) == Gate(cfg, old(View()), now)
    {
      if phase == Closed { return Pass; }
      if phase == Open {
        if openedAt.None? { return Broken; }
        var elapsed := now - openedAt.value;
        if elapsed < cfg.cooldown { return Reject(Some(RetryMs(cfg.cooldown - elapsed))); }
        phase := HalfOpen;
        probeInFlight := true;
        return Probe;
      }
      return Reject(None);
    }

    method RecordOutcome(now: real, outcome: Outcome, isProbe: bool)
      modifies this
      ensures View() == Record(cfg, old(View()), now, outcome, isProbe)
    {
      if isProbe {
        probeInFlight := false;
        if outcome.Success? {
          phase, openedAt := Closed, None;
        } else {
          phase, openedAt := Open, Some(now);
        }
        failures := [];
        return;
      }
      if outcome.Success? || !outcome.counted { return; }
      failures := failures + [now];
      var cutoff := now - cfg.window;
      while failures != [] && failures[0] < cutoff
        invariant phase == old(phase) && openedAt == old(openedAt) && probeInFlight == old(probeInFlight)
        invariant Prune(failures, cutoff) == Prune(old(failures) + [now], cutoff)
        decreases |failures|
      {
        failures := failures[1..];
      }
      if |failures| >= cfg.threshold {
        phase, openedAt := Open, Some(now);
      }
    }
  }

  // ----- Runs: calls overlap freely -----

  datatype Event =
    | Asked(call: nat, time: real)
    | Ended(call: nat, time: real, outcome: Outcome)

  /** The bucket and the calls in flight, each marked as probe or not. */
  datatype System = System(bucket: Bucket, inFlight: map<nat, bool>)

  function Next(cfg: Config, s: System, e: Event): System {
    match e
    case Asked(call, time) =>
      if call in s.inFlight then s
      else
        var (answer, bucket) := Gate(cfg, s.bucket, time);
        System(bucket, if answer.Pass? || answer.Probe? then s.inFlight[call := answer.Probe?] else s.inFlight)
    case Ended(call, time, outcome) =>
      if call !in s.inFlight then s
      else System(Record(cfg, s.bucket, time, outcome, s.inFlight[call]), s.inFlight - {call})
  }

  function Exec(cfg: Config, evs: seq<Event>): System {
    if evs == [] then System(FRESH, map[]) else Next(cfg, Exec(cfg, evs[..|evs| - 1]), evs[|evs| - 1])
  }

  function At(cfg: Config, evs: seq<Event>, i: nat): System
    requires i <= |evs|
  {
    Exec(cfg, evs[..i])
  }

  lemma AtStep(cfg: Config, evs: seq<Event>, i: nat)
    requires i < |evs|
    ensures At(cfg, evs, i + 1) == Next(cfg, At(cfg, evs, i), evs[i])
  {
    assert evs[..i + 1][..i] == evs[..i];
  }

  ghost predicate Timed(evs: seq<Event>) {
    forall i, j :: 0 <= i <= j < |evs| ==> evs[i].time <= evs[j].time
  }

  /** The gate's answer to event `i`, if it is a call asking. */
  function AnswerAt(cfg: Config, evs: seq<Event>, i: nat): Option<Answer>
    requires i < |evs|
  {
    var s := At(cfg, evs, i);
    if evs[i].Asked? && evs[i].call !in s.inFlight then Some(Gate(cfg, s.bucket, evs[i].time).0) else None
  }

  // ----- Shape -----

  ghost predicate Shaped(b: Bucket) {
    (b.phase == Open ==> b.openedAt.Some?) && (b.phase == HalfOpen ==> b.probeInFlight)
  }

  lemma ShapedNext(cfg: Config, s: System, e: Event)
    requires Shaped(s.bucket)
    ensures Shaped(Next(cfg, s, e).bucket)
  {
  }

  /** In every run an open bucket has its opening time and a half-open one its probe flag: the assertion never fails. */
  lemma {:induction false} AlwaysShaped(cfg: Config, evs: seq<Event>, i: nat)
    requires i <= |evs|
    ensures Shaped(At(cfg, evs, i).bucket)
    ensures i < |evs| ==> AnswerAt(cfg, evs, i) != Some(Broken)
  {
    if i > 0 {
      AlwaysShaped(cfg, evs, i - 1);
      AtStep(cfg, evs, i - 1);
      ShapedNext(cfg, At(cfg, evs, i - 1), evs[i - 1]);
    }
  }

  // ----- Probes are a cooldown apart -----

  /** Not before `t`: a bucket that is open was opened at `t` or later. */
  ghost predicate OpenedSince(b: Bucket, t: real) {
    b.phase == Open ==> b.openedAt.Some? && b.openedAt.value >= t
  }

  lemma OpenedSinceNext(cfg: Config, s: System, e: Event, t: real)
    requires OpenedSince(s.bucket, t) && e.time >= t
    ensures OpenedSince(Next(cfg, s, e).bucket, t)
  {
  }

  lemma {:induction false} OpenedAfterProbe(cfg: Config, evs: seq<Event>, i: nat, j: nat)
    requires Timed(evs) && i < j <= |evs| && AnswerAt(cfg, evs, i) == Some(Probe)
    ensures OpenedSince(At(cfg, evs, j).bucket, evs[i].time)
    decreases j
  {
    AtStep(cfg, evs, j - 1);
    if j - 1 > i {
      OpenedAfterProbe(cfg, evs, i, j - 1);
      OpenedSinceNext(cfg, At(cfg, evs, j - 1), evs[j - 1], evs[i].time);
    }
  }

  /** Any two probe admissions are at least one cooldown apart, however many calls overlap. */
  lemma ProbesAreSpaced(cfg: Config, evs: seq<Event>, i: nat, j: nat)
    requires Timed(evs) && i < j < |evs|
    requires AnswerAt(cfg, evs, i) == Some(Probe) && AnswerAt(cfg, evs, j) == Some(Probe)
    ensures evs[j].time - evs[i].time >= cfg.cooldown
  {
    OpenedAfterProbe(cfg, evs, i, j);
  }

  // ----- Nothing gets through while open -----

  /** Event `k` is a probe's success. */
  ghost predicate ProbeSucceedsAt(cfg: Config, evs: seq<Event>, k: nat)
    requires k < |evs|
  {
    && evs[k].Ended? && evs[k].outcome.Success?
    && evs[k].call in At(cfg, evs, k).inFlight && At(cfg, evs, k).inFlight[evs[k].call]
  }

  /** Still open since `t`, and no call beyond those already in flight. */
  ghost predicate Holding(s: System, t: real, inFlight: map<nat, bool>) {
    && s.bucket.phase == Open && s.bucket.openedAt.Some? && s.bucket.openedAt.value >= t
    && forall c :: c in s.inFlight ==> c in inFlight && s.inFlight[c] == inFlight[c]
  }

  lemma HoldingNext(cfg: Config, s: System, e: Event, t: real, inFlight: map<nat, bool>)
    requires Holding(s, t, inFlight) && t <= e.time < t + cfg.cooldown
    ensures Holding(Next(cfg, s, e), t, inFlight)
         || (e.Ended? && e.outcome.Success? && e.call in s.inFlight && s.inFlight[e.call])
  {
  }

  lemma {:induction false} HoldsUntilProbe(cfg: Config, evs: seq<Event>, i: nat, j: nat, t: real)
    requires Timed(evs) && i <= j <= |evs|
    requires At(cfg, evs, i).bucket.phase == Open && At(cfg, evs, i).bucket.openedAt == Some(t)
    requires forall k :: i <= k < j ==> t <= evs[k].time < t + cfg.cooldown
    ensures Holding(At(cfg, evs, j), t, At(cfg, evs, i).inFlight)
         || exists k :: i <= k < j && ProbeSucceedsAt(cfg, evs, k) && evs[k].call in At(cfg, evs, i).inFlight
                          && At(cfg, evs, i).inFlight[evs[k].call]
    decreases j
  {
    if i < j {
      var m := j - 1;
      HoldsUntilProbe(cfg, evs, i, m, t);
      if Holding(At(cfg, evs, m), t, At(cfg, evs, i).inFlight) {
        AtStep(cfg, evs, m);
        HoldingNext(cfg, At(cfg, evs, m), evs[m], t, At(cfg, evs, i).inFlight);
      }
    }
  }

  /**
   After event `i` has opened the breaker, no call is let through within the cooldown unless a probe that was
   already in flight has succeeded in between.
   */
  lemma NothingPassesWhileOpen(cfg: Config, evs: seq<Event>, i: nat, j: nat)
    requires Timed(evs) && i < j < |evs|
    requires At(cfg, evs, i + 1).bucket.phase == Open && At(cfg, evs, i + 1).bucket.openedAt == Some(evs[i].time)
    requires AnswerAt(cfg, evs, j) == Some(Pass) || AnswerAt(cfg, evs, j) == Some(Probe)
    requires evs[j].time < evs[i].time + cfg.cooldown
    ensures exists k :: i < k < j && ProbeSucceedsAt(cfg, evs, k) && evs[k].call in At(cfg, evs, i + 1).inFlight
                          && At(cfg, evs, i + 1).inFlight[evs[k].call]
  {
    HoldsUntilProbe(cfg, evs, i + 1, j, evs[i].time);
  }

  // ----- A probe's success alone closes -----

  /** Only a probe's success leads to closed. */
  lemma StaysShut(cfg: Config, s: System, e: Event)
    requires s.bucket.phase != Closed
    ensures Next(cfg, s, e).bucket.phase != Closed
         || (e.Ended? && e.outcome.Success? && e.call in s.inFlight && s.inFlight[e.call])
  {
  }

  lemma {:induction false} ShutUntilProbe(cfg: Config, evs: seq<Event>, i: nat, j: nat)
    requires i <= j <= |evs| && At(cfg, evs, i).bucket.phase != Closed
    requires forall k :: i <= k < j ==> !ProbeSucceedsAt(cfg, evs, k)
    ensures At(cfg, evs, j).bucket.phase != Closed
    decreases j
  {
    if i < j {
      ShutUntilProbe(cfg, evs, i, j - 1);
      AtStep(cfg, evs, j - 1);
      assert !ProbeSucceedsAt(cfg, evs, j - 1);
      StaysShut(cfg, At(cfg, evs, j - 1), evs[j - 1]);
    }
  }

  /** Once tripped, the breaker lets calls pass again only after a probe has succeeded. */
  lemma NothingPassesBesideProbe(cfg: Config, evs: seq<Event>, i: nat, j: nat)
    requires i < j < |evs| && (AnswerAt(cfg, evs, i) == Some(Probe) || At(cfg, evs, i + 1).bucket.phase == Open)
    ensures AnswerAt(cfg, evs, j) == Some(Pass) ==> exists k :: i < k < j && ProbeSucceedsAt(cfg, evs, k)
  {
    AtStep(cfg, evs, i);
    if forall k :: i < k < j ==> !ProbeSucceedsAt(cfg, evs, k) { ShutUntilProbe(cfg, evs, i + 1, j); }
  }

  /** Half open, with a probe in flight, and nothing that has ended since tripped the breaker again. */
  ghost predicate Probing(s: System, call: nat) {
    s.bucket.phase == HalfOpen && call in s.inFlight && s.inFlight[call]
  }

  lemma ProbingNext(cfg: Config, s: System, e: Event, call: nat)
    requires Probing(s, call) && e.Asked?
    ensures Probing(Next(cfg, s, e), call) && Next(cfg, s, e).inFlight == s.inFlight
  {
  }

  lemma {:induction false} ProbingWhileNothingEnds(cfg: Config, evs: seq<Event>, i: nat, j: nat)
    requires i < j <= |evs| && AnswerAt(cfg, evs, i) == Some(Probe)
    requires forall k :: i < k < j ==> evs[k].Asked?
    ensures Probing(At(cfg, evs, j), evs[i].call)
    decreases j
  {
    AtStep(cfg, evs, j - 1);
    if j - 1 > i {
      ProbingWhileNothingEnds(cfg, evs, i, j - 1);
      ProbingNext(cfg, At(cfg, evs, j - 1), evs[j - 1], evs[i].call);
    }
  }

  /** Until some call ends, every caller beside an admitted probe is turned away without a hint. */
  lemma ProbeIsAlone(cfg: Config, evs: seq<Event>, i: nat, j: nat)
    requires i < j < |evs| && AnswerAt(cfg, evs, i) == Some(Probe)
    requires forall k :: i < k < j ==> evs[k].Asked?
    ensures AnswerAt(cfg, evs, j).Some? ==> AnswerAt(cfg, evs, j) == Some(Reject(None))
  {
    ProbingWhileNothingEnds(cfg, evs, i, j);
  }

  /** How many calls have ended in a counted failure from event `i` to event `j`. */
  ghost function FailuresBetween(cfg: Config, evs: seq<Event>, i: nat, j: nat): nat
    requires i <= j <= |evs|
    decreases j
  {
    if i == j then 0
    else
      var s, e := At(cfg, evs, j - 1), evs[j - 1];
      FailuresBetween(cfg, evs, i, j - 1)
      + if e.Ended? && e.call in s.inFlight && e.outcome == Failure(true) then 1 else 0
  }

  ghost predicate ProbeFailsAt(cfg: Config, evs: seq<Event>, k: nat)
    requires k < |evs|
  {
    && evs[k].Ended? && evs[k].outcome.Failure?
    && evs[k].call in At(cfg, evs, k).inFlight && At(cfg, evs, k).inFlight[evs[k].call]
  }

  lemma {:induction false} PruneShortens(failures: seq<real>, cutoff: real)
    ensures |Prune(failures, cutoff)| <= |failures|
  {
    if failures != [] && failures[0] < cutoff { PruneShortens(failures[1..], cutoff); }
  }

  lemma ClosedNext(cfg: Config, s: System, e: Event)
    requires s.bucket.phase == Closed
    requires e.Ended? && e.call in s.inFlight && s.inFlight[e.call] ==> e.outcome.Success?
    ensures var failed := if e.Ended? && e.call in s.inFlight && e.outcome == Failure(true) then 1 else 0;
      var b := Next(cfg, s, e).bucket;
      |s.bucket.failures| + failed < cfg.threshold ==> b.phase == Closed && |b.failures| <= |s.bucket.failures| + failed
  {
    PruneShortens(s.bucket.failures + [e.time], e.time - cfg.window);
  }

  lemma {:induction false} ClosedUntilTrip(cfg: Config, evs: seq<Event>, i: nat, j: nat)
    requires i < j <= |evs| && ProbeSucceedsAt(cfg, evs, i) && FailuresBetween(cfg, evs, i + 1, j) < cfg.threshold
    requires forall k :: i < k < j ==> !ProbeFailsAt(cfg, evs, k)
    ensures var b := At(cfg, evs, j).bucket;
      b.phase == Closed && |b.failures| <= FailuresBetween(cfg, evs, i + 1, j)
    decreases j
  {
    var m := j - 1;
    AtStep(cfg, evs, m);
    if i < m {
      ClosedUntilTrip(cfg, evs, i, m);
      assert !ProbeFailsAt(cfg, evs, m);
      ClosedNext(cfg, At(cfg, evs, m), evs[m]);
    }
  }

  /** After a probe's success every call passes, until failures reach the threshold or another probe fails. */
  lemma SuccessfulProbeCloses(cfg: Config, evs: seq<Event>, i: nat, j: nat)
    requires i < j < |evs| && ProbeSucceedsAt(cfg, evs, i) && FailuresBetween(cfg, evs, i + 1, j) < cfg.threshold
    requires forall k :: i < k < j ==> !ProbeFailsAt(cfg, evs, k)
    ensures AnswerAt(cfg, evs, j).Some? ==> AnswerAt(cfg, evs, j) == Some(Pass)
  {
    ClosedUntilTrip(cfg, evs, i, j);
  }

  lemma {:induction false} OpenUntilCooldown(cfg: Config, evs: seq<Event>, i: nat, j: nat)
    requires i < j <= |evs| && ProbeFailsAt(cfg, evs, i)
    requires forall k :: i < k < j ==> evs[k].Asked? && evs[k].time < evs[i].time + cfg.cooldown
    ensures At(cfg, evs, j).bucket.phase == Open && At(cfg, evs, j).bucket.openedAt == Some(evs[i].time)
    decreases j
  {
    AtStep(cfg, evs, j - 1);
    if j - 1 > i { OpenUntilCooldown(cfg, evs, i, j - 1); }
  }

  /** A probe's failure starts the cooldown anew, and the first call to ask after it is the next probe. */
  lemma FailedProbeReopens(cfg: Config, evs: seq<Event>, i: nat, j: nat)
    requires i < j < |evs| && ProbeFailsAt(cfg, evs, i)
    requires forall k :: i < k < j ==> evs[k].Asked? && evs[k].time < evs[i].time + cfg.cooldown
    ensures AnswerAt(cfg, evs, j).Some? ==>
      if evs[j].time < evs[i].time + cfg.cooldown
      then AnswerAt(cfg, evs, j).value.Reject? && AnswerAt(cfg, evs, j).value.retryMs.Some?
      else AnswerAt(cfg, evs, j) == Some(Probe)
  {
    OpenUntilCooldown(cfg, evs, i, j);
  }

  // ----- The deque is the windowed history -----

  function Within(history: seq<real>, cutoff: real): seq<real> {
    if history == [] then []
    else (if history[0] >= cutoff then [history[0]] else []) + Within(history[1..], cutoff)
  }

  ghost predicate Sorted(s: seq<real>) {
    forall i, j :: 0 <= i <= j < |s| ==> s[i] <= s[j]
  }

  lemma {:induction false} WithinAppend(a: seq<real>, b: seq<real>, cutoff: real)
    ensures Within(a + b, cutoff) == Within(a, cutoff) + Within(b, cutoff)
  {
    if a == [] {
      assert a + b == b;
    } else {
      WithinAppend(a[1..], b, cutoff);
      assert (a + b)[1..] == a[1..] + b && (a + b)[0] == a[0];
      var head, rest, more := if a[0] >= cutoff then [a[0]] else [], Within(a[1..], cutoff), Within(b, cutoff);
      assert Within(a + b, cutoff) == head + (rest + more);
      assert Within(a, cutoff) == head + rest;
      assert head + (rest + more) == (head + rest) + more;
    }
  }

  lemma {:induction false} WithinTwice(h: seq<real>, early: real, late: real)
    requires early <= late
    ensures Within(Within(h, early), late) == Within(h, late)
  {
    if h != [] {
      WithinTwice(h[1..], early, late);
      var head := if h[0] >= early then [h[0]] else [];
      WithinAppend(head, Within(h[1..], early), late);
    }
  }

  lemma {:induction false} WithinSelects(h: seq<real>, cutoff: real, x: real)
    ensures x in Within(h, cutoff) ==> x in h
  {
    if h != [] {
      WithinSelects(h[1..], cutoff, x);
      assert h == [h[0]] + h[1..];
    }
  }

  lemma SortedCons(x: real, s: seq<real>)
    requires Sorted(s) && forall y :: y in s ==> x <= y
    ensures Sorted([x] + s)
  {
    assert forall i :: 0 <= i < |s| ==> s[i] in s;
  }

  lemma {:induction false} WithinSorted(h: seq<real>, cutoff: real)
    requires Sorted(h)
    ensures Sorted(Within(h, cutoff))
  {
    if h != [] {
      var rest := Within(h[1..], cutoff);
      WithinSorted(h[1..], cutoff);
      forall y | y in rest ensures h[0] <= y {
        WithinSelects(h[1..], cutoff, y);
        var i :| 0 <= i < |h[1..]| && h[1..][i] == y;
        assert h[i + 1] == y;
      }
      SortedCons(h[0], rest);
    }
  }

  /** On a sorted log, popping stale heads keeps exactly the entries inside the window. */
  lemma {:induction false} PruneIsWithin(s: seq<real>, cutoff: real)
    requires Sorted(s)
    ensures Prune(s, cutoff) == Within(s, cutoff)
  {
    if s != [] {
      PruneIsWithin(s[1..], cutoff);
      if s[0] >= cutoff { AllWithin(s, cutoff); }
    }
  }

  lemma {:induction false} AllWithin(s: seq<real>, cutoff: real)
    requires forall i :: 0 <= i < |s| ==> s[i] >= cutoff
    ensures Within(s, cutoff) == s
  {
    if s != [] { AllWithin(s[1..], cutoff); }
  }

  /** Every counted failure of an ordinary call since the last probe outcome, oldest first, none pruned. */
  function History(cfg: Config, evs: seq<Event>): seq<real> {
    if evs == [] then []
    else
      var before, e := evs[..|evs| - 1], evs[|evs| - 1];
      var s := Exec(cfg, before);
      if !e.Ended? || e.call !in s.inFlight then History(cfg, before)
      else if s.inFlight[e.call] then []
      else if e.outcome == Failure(true) then History(cfg, before) + [e.time]
      else History(cfg, before)
  }

  /** The part of a history inside the window that ends at its newest entry. */
  function Windowed(cfg: Config, history: seq<real>): seq<real> {
    if history == [] then [] else Within(history, history[|history| - 1] - cfg.window)
  }

  ghost predicate SortedUpTo(h: seq<real>, t: real) {
    Sorted(h) && forall x :: x in h ==> x <= t
  }

  lemma {:induction false} HistorySorted(cfg: Config, evs: seq<Event>)
    requires Timed(evs)
    ensures evs != [] ==> SortedUpTo(History(cfg, evs), evs[|evs| - 1].time)
  {
    if evs != [] {
      var before := evs[..|evs| - 1];
      HistorySorted(cfg, before);
      assert before != [] ==> before[|before| - 1].time <= evs[|evs| - 1].time;
      var h := History(cfg, before);
      if before == [] { assert h == []; }
      SortedSnoc(h, evs[|evs| - 1].time);
    }
  }

  lemma SortedSnoc(h: seq<real>, now: real)
    requires SortedUpTo(h, now)
    ensures Sorted(h + [now]) && SortedUpTo(h + [now], now)
  {
    assert forall i :: 0 <= i < |h| ==> h[i] in h;
  }

  lemma WindowSorted(cfg: Config, h: seq<real>, now: real)
    requires SortedUpTo(h, now)
    ensures SortedUpTo(Windowed(cfg, h), now)
  {
    if h != [] {
      var early := h[|h| - 1] - cfg.window;
      WithinSorted(h, early);
      forall x | x in Windowed(cfg, h) ensures x in h { WithinSelects(h, early, x); }
    }
  }

  lemma WindowThenCut(cfg: Config, h: seq<real>, now: real)
    requires h != [] ==> h[|h| - 1] <= now
    ensures Within(Windowed(cfg, h), now - cfg.window) == Within(h, now - cfg.window)
  {
    if h != [] { WithinTwice(h, h[|h| - 1] - cfg.window, now - cfg.window); }
  }

  lemma CutAppend(a: seq<real>, b: seq<real>, now: real, cutoff: real)
    requires Within(a, cutoff) == Within(b, cutoff)
    ensures Within(a + [now], cutoff) == Within(b + [now], cutoff)
  {
    WithinAppend(a, [now], cutoff);
    WithinAppend(b, [now], cutoff);
  }

  lemma PruneIsCut(cfg: Config, h: seq<real>, now: real)
    requires SortedUpTo(h, now)
    ensures Prune(Windowed(cfg, h) + [now], now - cfg.window) == Within(Windowed(cfg, h) + [now], now - cfg.window)
  {
    WindowSorted(cfg, h, now);
    SortedSnoc(Windowed(cfg, h), now);
    PruneIsWithin(Windowed(cfg, h) + [now], now - cfg.window);
  }

  /** Pruning after a push gives the window of the grown history. */
  lemma PushKeepsWindow(cfg: Config, h: seq<real>, now: real)
    requires SortedUpTo(h, now)
    ensures Prune(Windowed(cfg, h) + [now], now - cfg.window) == Windowed(cfg, h + [now])
  {
    PruneIsCut(cfg, h, now);
    assert h != [] ==> h[|h| - 1] in h;
    WindowThenCut(cfg, h, now);
    CutAppend(Windowed(cfg, h), h, now, now - cfg.window);
  }

  /** In every run the pruned deque is the window of the full history. */
  lemma {:induction false} DequeIsWindow(cfg: Config, evs: seq<Event>)
    requires cfg.Valid() && Timed(evs)
    ensures Exec(cfg, evs).bucket.failures == Windowed(cfg, History(cfg, evs))
  {
    if evs != [] {
      var before, e := evs[..|evs| - 1], evs[|evs| - 1];
      DequeIsWindow(cfg, before);
      HistorySorted(cfg, before);
      var h := History(cfg, before);
      assert SortedUpTo(h, e.time) by {
        if before == [] { assert h == []; } else { assert before[|before| - 1].time <= e.time; }
      }
      if e.Ended? && e.outcome == Failure(true) { PushKeepsWindow(cfg, h, e.time); }
    }
  }

  /**
   A counted failure of an ordinary call trips the breaker exactly when the failures inside the window, counted over
   the whole history, reach the threshold; otherwise it leaves phase and opening time alone.
   */
  lemma TripsExactlyAtThreshold(cfg: Config, evs: seq<Event>)
    requires cfg.Valid() && Timed(evs) && evs != []
    requires var s, e := Exec(cfg, evs[..|evs| - 1]), evs[|evs| - 1];
      e.Ended? && e.call in s.inFlight && !s.inFlight[e.call] && e.outcome == Failure(true)
    ensures var before, after := Exec(cfg, evs[..|evs| - 1]).bucket, Exec(cfg, evs).bucket;
      var now := evs[|evs| - 1].time;
      if |Within(History(cfg, evs), now - cfg.window)| >= cfg.threshold
      then after.phase == Open && after.openedAt == Some(now)
      else after.phase == before.phase && after.openedAt == before.openedAt
  {
    DequeIsWindow(cfg, evs);
  }

  // ----- The retry hint -----

  /** How many milliseconds an open breaker still rejects. */
  function LeftMs(cfg: Config, b: Bucket, now: real): real
    requires b.openedAt.Some?
  {
    (b.openedAt.value + cfg.cooldown - now) * 1000.0
  }

  /**
   The hint is cut to whole milliseconds.  If nothing happens meanwhile, waiting it out is enough exactly when nothing
   was cut off, or what is left is under its minimum of one; one millisecond more always is.
   */
  lemma HintIsEnoughIffWhole(cfg: Config, b: Bucket, now: real)
    requires Gate(cfg, b, now).0.Reject? && Gate(cfg, b, now).0.retryMs.Some?
    ensures b.openedAt.Some?
    ensures var hint, left := Gate(cfg, b, now).0.retryMs.value, LeftMs(cfg, b, now);
      && (Gate(cfg, b, now + hint as real / 1000.0).0 == Probe <==> left <= 1.0 || left == left.Floor as real)
      && Gate(cfg, b, now + (hint + 1) as real / 1000.0).0 == Probe
  {
    var left, hint := LeftMs(cfg, b, now), Gate(cfg, b, now).0.retryMs.value;
    assert hint == if left.Floor < 1 then 1 else left.Floor;
    assert left.Floor as real <= left < left.Floor as real + 1.0;
    assert Gate(cfg, b, now + hint as real / 1000.0).0 == Probe <==> hint as real >= left;
  }
}
