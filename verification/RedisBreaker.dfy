/**
 The cross-replica circuit breaker: two scripts over a state hash and a failure list, both with a time to live.
 Times are integer milliseconds on one nondecreasing clock, which also drives key expiry.
 */
module RedisBreaker {
  import opened Options
  import B = Breaker

  function CeilOf(x: real): int {
    -((-x).Floor)
  }

  function WindowMs(cfg: B.Config): int {
    (cfg.window * 1000.0).Floor
  }

  function CooldownMs(cfg: B.Config): int {
    (cfg.cooldown * 1000.0).Floor
  }

  /** max(1, ceil((window + cooldown) * 2)) seconds, in milliseconds. */
  function TtlMs(cfg: B.Config): int {
    var sec := CeilOf((cfg.window + cfg.cooldown) * 2.0);
    1000 * (if sec < 1 then 1 else sec)
  }

  /** The time to live, in whole seconds, is the least that covers twice a window and a cooldown, so it outlasts both. */
  lemma TtlOutlasts(cfg: B.Config)
    requires cfg.Valid()
    ensures TtlMs(cfg) > WindowMs(cfg) && TtlMs(cfg) > CooldownMs(cfg)
    ensures TtlMs(cfg) as real > cfg.window * 1000.0 && TtlMs(cfg) as real > cfg.cooldown * 1000.0
    ensures TtlMs(cfg) % 1000 == 0
    ensures TtlMs(cfg) as real - 1000.0 < (cfg.window + cfg.cooldown) * 2000.0 <= TtlMs(cfg) as real
  {
    var twice := (cfg.window + cfg.cooldown) * 2.0;
    assert CeilOf(twice) as real >= twice;
  }

  datatype Hash = Hash(state: B.Phase, openedAtMs: int, probeInFlight: bool)

  /** Both keys, each with the instant it expires at; an expired key reads as missing. */
  datatype Store = Store(hash: Option<Hash>, hashExpiry: int, fail: seq<int>, failExpiry: int)

  const EMPTY := Store(None, 0, [], 0)

  function Live(st: Store, now: int): Store {
    st.(hash := if now < st.hashExpiry then st.hash else None,
        fail := if now < st.failExpiry then st.fail else [])
  }

  function Gate(cfg: B.Config, stored: Store, now: int): (B.Answer, Store) {
    var st := Live(stored, now);
    if st.hash.None? || st.hash.value.state == B.Closed then (B.Pass, st)
    else if st.hash.value.state == B.Open then
      var elapsed := now - st.hash.value.openedAtMs;
      if elapsed < CooldownMs(cfg) then
        var retry := CooldownMs(cfg) - elapsed;
        (B.Reject(Some(if retry < 1 then 1 else retry)), st)
      else (B.Probe, st.(hash := Some(st.hash.value.(state := B.HalfOpen, probeInFlight := true))))
    else if st.hash.value.probeInFlight then (B.Reject(None), st)
    else (B.Probe, st.(hash := Some(st.hash.value.(probeInFlight := true))))
  }

  function Prune(fail: seq<int>, cutoff: int): seq<int> {
    if fail != [] && fail[0] < cutoff then Prune(fail[1..], cutoff) else fail
  }

  function Record(cfg: B.Config, stored: Store, now: int, outcome: B.Outcome, isProbe: bool): Store {
    var st := Live(stored, now);
    var expiry := now + TtlMs(cfg);
    if isProbe then
      var hash := if outcome.Success? then Hash(B.Closed, 0, false) else Hash(B.Open, now, false);
      st.(hash := Some(hash), hashExpiry := expiry, fail := [])
    else if outcome.Success? || !outcome.counted then st
    else
      var fail := Prune(st.fail + [now], now - WindowMs(cfg));
      if |fail| >= cfg.threshold
      then st.(hash := Some(Hash(B.Open, now, false)), hashExpiry := expiry, fail := [])
      else st.(fail := fail, failExpiry := expiry, hashExpiry := if st.hash.Some? then expiry else st.hashExpiry)
  }

  /** The two scripts, step by step, over the stored keys. */
  class Keys {
    const cfg: B.Config
    var hash: Option<Hash>
    var hashExpiry: int
    var fail: seq<int>
    var failExpiry: int

    ghost function View(): Store
      reads this
    {
      Store(hash, hashExpiry, fail, failExpiry)
    }

    constructor (cfg: B.Config)
      ensures this.cfg == cfg && View() == EMPTY
    {
      this.cfg := cfg;
      hash, hashExpiry, fail, failExpiry := None, 0, [], 0;
    }

    method DropExpired(now: int)
      modifies this
      ensures View() == Live(old(View()), now)
    {
      if now >= hashExpiry { hash := None; }
      if now >= failExpiry { fail := []; }
    }

    method GateScript(now: int) returns (answer: B.Answer)
      modifies this
      ensures (answer, View()) == Gate(cfg, old(View()), now)
    {
      DropExpired(now);
      if hash.None? || hash.value.state == B.Closed { return B.Pass; }
      if hash.value.state == B.Open {
        var elapsed := now - hash.value.openedAtMs;
        if elapsed < CooldownMs(cfg) {
          var retry := CooldownMs(cfg) - elapsed;
          if retry < 1 { retry := 1; }
          return B.Reject(Some(retry));
        }
        hash := Some(hash.value.(state := B.HalfOpen, probeInFlight := true));
        return B.Probe;
      }
      if hash.value.probeInFlight { return B.Reject(None); }
      hash := Some(hash.value.(probeInFlight := true));
      return B.Probe;
    }

    method RecordScript(now: int, outcome: B.Outcome, isProbe: bool)
      modifies this
      ensures View() == Record(cfg, old(View()), now, outcome, isProbe)
    {
      DropExpired(now);
      if isProbe {
        hash := Some(if outcome.Success? then Hash(B.Closed, 0, false) else Hash(B.Open, now, false));
        fail := [];
        hashExpiry := now + TtlMs(cfg);
        return;
      }
      if outcome.Success? || !outcome.counted { return; }
      ghost var live := Live(old(View()), now);
      fail := fail + [now];
      var cutoff := now - WindowMs(cfg);
      while fail != [] && fail[0] < cutoff
        invariant View() == live.(fail := fail)
        invariant Prune(fail, cutoff) == Prune(live.fail + [now], cutoff)
        decreases |fail|
      {
        fail := fail[1..];
      }
      if |fail| >= cfg.threshold {
        hash := Some(Hash(B.Open, now, false));
        fail := [];
      } else {
        failExpiry := now + TtlMs(cfg);
      }
      if hash.Some? { hashExpiry := now + TtlMs(cfg); }
    }
  }

  // ----- Runs: calls overlap freely -----

  datatype Event =
    | Asked(call: nat, time: int)
    | Ended(call: nat, time: int, outcome: B.Outcome)

  datatype System = System(store: Store, inFlight: map<nat, bool>)

  function Next(cfg: B.Config, s: System, e: Event): System {
    match e
    case Asked(call, time) =>
      if call in s.inFlight then s
      else
        var (answer, store) := Gate(cfg, s.store, time);
        System(store, if answer.Pass? || answer.Probe? then s.inFlight[call := answer.Probe?] else s.inFlight)
    case Ended(call, time, outcome) =>
      if call !in s.inFlight then s
      else System(Record(cfg, s.store, time, outcome, s.inFlight[call]), s.inFlight - {call})
  }

  function Exec(cfg: B.Config, evs: seq<Event>): System {
    if evs == [] then System(EMPTY, map[]) else Next(cfg, Exec(cfg, evs[..|evs| - 1]), evs[|evs| - 1])
  }

  function At(cfg: B.Config, evs: seq<Event>, i: nat): System
    requires i <= |evs|
  {
    Exec(cfg, evs[..i])
  }

  lemma AtStep(cfg: B.Config, evs: seq<Event>, i: nat)
    requires i < |evs|
    ensures At(cfg, evs, i + 1) == Next(cfg, At(cfg, evs, i), evs[i])
  {
    assert evs[..i + 1][..i] == evs[..i];
  }

  ghost predicate Timed(evs: seq<Event>) {
    forall i, j :: 0 <= i <= j < |evs| ==> evs[i].time <= evs[j].time
  }

  function AnswerAt(cfg: B.Config, evs: seq<Event>, i: nat): Option<B.Answer>
    requires i < |evs|
  {
    var s := At(cfg, evs, i);
    if evs[i].Asked? && evs[i].call !in s.inFlight then Some(Gate(cfg, s.store, evs[i].time).0) else None
  }

  /** Half open means a probe is in flight, so the gate script's last branch is unreachable. */
  ghost predicate Shaped(st: Store) {
    st.hash.Some? && st.hash.value.state == B.HalfOpen ==> st.hash.value.probeInFlight
  }

  lemma ShapedNext(cfg: B.Config, s: System, e: Event)
    requires Shaped(s.store)
    ensures Shaped(Next(cfg, s, e).store)
  {
  }

  /** In every run: a probe is only ever admitted from an open breaker. */
  lemma {:induction false} AlwaysShaped(cfg: B.Config, evs: seq<Event>, i: nat)
    requires i <= |evs|
    ensures Shaped(At(cfg, evs, i).store)
    ensures i < |evs| && AnswerAt(cfg, evs, i) == Some(B.Probe) ==>
      var hash := Live(At(cfg, evs, i).store, evs[i].time).hash;
      hash.Some? && hash.value.state == B.Open
  {
    if i > 0 {
      AlwaysShaped(cfg, evs, i - 1);
      AtStep(cfg, evs, i - 1);
      ShapedNext(cfg, At(cfg, evs, i - 1), evs[i - 1]);
    }
  }

  // ----- Probes are a cooldown apart -----

  ghost predicate OpenedSince(st: Store, t: int) {
    st.hash.Some? ==>
      && (st.hash.value.state == B.Open ==> st.hash.value.openedAtMs >= t)
      && (st.hash.value.state == B.HalfOpen ==> st.hash.value.probeInFlight)
  }

  lemma OpenedSinceNext(cfg: B.Config, s: System, e: Event, t: int)
    requires OpenedSince(s.store, t) && e.time >= t
    ensures OpenedSince(Next(cfg, s, e).store, t)
  {
  }

  lemma {:induction false} OpenedAfterProbe(cfg: B.Config, evs: seq<Event>, i: nat, j: nat)
    requires Timed(evs) && i < j <= |evs| && AnswerAt(cfg, evs, i) == Some(B.Probe)
    ensures OpenedSince(At(cfg, evs, j).store, evs[i].time)
    decreases j
  {
    AtStep(cfg, evs, j - 1);
    if j - 1 > i {
      OpenedAfterProbe(cfg, evs, i, j - 1);
      OpenedSinceNext(cfg, At(cfg, evs, j - 1), evs[j - 1], evs[i].time);
    }
  }

  /** Any two probe admissions are at least one cooldown apart, whatever expires in between. */
  lemma ProbesAreSpaced(cfg: B.Config, evs: seq<Event>, i: nat, j: nat)
    requires Timed(evs) && i < j < |evs|
    requires AnswerAt(cfg, evs, i) == Some(B.Probe) && AnswerAt(cfg, evs, j) == Some(B.Probe)
    ensures evs[j].time - evs[i].time >= CooldownMs(cfg)
  {
    OpenedAfterProbe(cfg, evs, i, j);
  }

  // ----- Nothing gets through while open, and expiry cannot shorten it -----

  ghost predicate ProbeSucceedsAt(cfg: B.Config, evs: seq<Event>, k: nat)
    requires k < |evs|
  {
    && evs[k].Ended? && evs[k].outcome.Success?
    && evs[k].call in At(cfg, evs, k).inFlight && At(cfg, evs, k).inFlight[evs[k].call]
  }

  ghost predicate Holding(cfg: B.Config, s: System, t: int, inFlight: map<nat, bool>) {
    && s.store.hash.Some? && s.store.hash.value.state == B.Open && s.store.hash.value.openedAtMs >= t
    && s.store.hashExpiry >= t + TtlMs(cfg)
    && forall c :: c in s.inFlight ==> c in inFlight && s.inFlight[c] == inFlight[c]
  }

  lemma HoldingNext(cfg: B.Config, s: System, e: Event, t: int, inFlight: map<nat, bool>)
    requires cfg.Valid() && Holding(cfg, s, t, inFlight) && t <= e.time < t + CooldownMs(cfg)
    ensures Holding(cfg, Next(cfg, s, e), t, inFlight)
         || (e.Ended? && e.outcome.Success? && e.call in s.inFlight && s.inFlight[e.call])
  {
    TtlOutlasts(cfg);
  }

  lemma {:induction false} HoldsUntilProbe(cfg: B.Config, evs: seq<Event>, i: nat, j: nat, t: int)
    requires cfg.Valid() && Timed(evs) && i <= j <= |evs|
    requires Holding(cfg, At(cfg, evs, i), t, At(cfg, evs, i).inFlight)
    requires forall k :: i <= k < j ==> t <= evs[k].time < t + CooldownMs(cfg)
    ensures Holding(cfg, At(cfg, evs, j), t, At(cfg, evs, i).inFlight)
         || exists k :: i <= k < j && ProbeSucceedsAt(cfg, evs, k) && evs[k].call in At(cfg, evs, i).inFlight
                          && At(cfg, evs, i).inFlight[evs[k].call]
    decreases j
  {
    if i < j {
      var m := j - 1;
      HoldsUntilProbe(cfg, evs, i, m, t);
      if Holding(cfg, At(cfg, evs, m), t, At(cfg, evs, i).inFlight) {
        AtStep(cfg, evs, m);
        HoldingNext(cfg, At(cfg, evs, m), evs[m], t, At(cfg, evs, i).inFlight);
      }
    }
  }

  /** The write that opens the breaker renews the key for longer than a cooldown. */
  lemma OpeningRenews(cfg: B.Config, s: System, e: Event)
    requires e.Ended? && e.call in s.inFlight
    requires s.store.hash.None? || s.store.hash.value.state != B.Open || s.store.hash.value.openedAtMs != e.time
    requires var h := Next(cfg, s, e).store.hash; h.Some? && h.value.state == B.Open && h.value.openedAtMs == e.time
    ensures Next(cfg, s, e).store.hashExpiry == e.time + TtlMs(cfg)
  {
  }

  /** Event `i` is the outcome that opens the breaker. */
  ghost predicate OpensAt(cfg: B.Config, evs: seq<Event>, i: nat)
    requires i < |evs|
  {
    var s, t := At(cfg, evs, i), At(cfg, evs, i + 1);
    && evs[i].Ended? && evs[i].call in s.inFlight
    && t.store.hash.Some? && t.store.hash.value.state == B.Open && t.store.hash.value.openedAtMs == evs[i].time
    && !(s.store.hash.Some? && s.store.hash.value.state == B.Open && s.store.hash.value.openedAtMs == evs[i].time)
  }

  /**
   After event `i` has opened the breaker, no call is let through within the cooldown unless a probe that was
   already in flight has succeeded in between; key expiry never lets one through earlier.
   */
  lemma NothingPassesWhileOpen(cfg: B.Config, evs: seq<Event>, i: nat, j: nat)
    requires cfg.Valid() && Timed(evs) && i < j < |evs| && OpensAt(cfg, evs, i)
    requires AnswerAt(cfg, evs, j) == Some(B.Pass) || AnswerAt(cfg, evs, j) == Some(B.Probe)
    requires evs[j].time < evs[i].time + CooldownMs(cfg)
    ensures exists k :: i < k < j && ProbeSucceedsAt(cfg, evs, k) && evs[k].call in At(cfg, evs, i + 1).inFlight
                          && At(cfg, evs, i + 1).inFlight[evs[k].call]
  {
    AtStep(cfg, evs, i);
    OpeningRenews(cfg, At(cfg, evs, i), evs[i]);
    HoldsUntilProbe(cfg, evs, i + 1, j, evs[i].time);
    TtlOutlasts(cfg);
  }

  // ----- A probe's success, or expiry, alone closes -----

  /** The state key is there and says open or half open. */
  ghost predicate Shut(st: Store) {
    st.hash.Some? && st.hash.value.state != B.Closed
  }

  lemma StaysShut(cfg: B.Config, s: System, e: Event)
    requires Shut(s.store)
    ensures Shut(Next(cfg, s, e).store) || e.time >= s.store.hashExpiry
         || (e.Ended? && e.outcome.Success? && e.call in s.inFlight && s.inFlight[e.call])
  {
  }

  lemma {:induction false} ShutUntilProbe(cfg: B.Config, evs: seq<Event>, i: nat, j: nat)
    requires i <= j <= |evs| && Shut(At(cfg, evs, i).store)
    requires forall k :: i <= k < j ==> !ProbeSucceedsAt(cfg, evs, k) && evs[k].time < At(cfg, evs, k).store.hashExpiry
    ensures Shut(At(cfg, evs, j).store)
    decreases j
  {
    if i < j {
      ShutUntilProbe(cfg, evs, i, j - 1);
      AtStep(cfg, evs, j - 1);
      assert !ProbeSucceedsAt(cfg, evs, j - 1);
      StaysShut(cfg, At(cfg, evs, j - 1), evs[j - 1]);
    }
  }

  /** While the state key lives, everybody gets through again only after a probe has succeeded. */
  lemma NothingPassesBesideProbe(cfg: B.Config, evs: seq<Event>, i: nat, j: nat)
    requires i < j < |evs| && (AnswerAt(cfg, evs, i) == Some(B.Probe) || OpensAt(cfg, evs, i))
    ensures AnswerAt(cfg, evs, j) == Some(B.Pass) ==>
      exists k :: i < k <= j
                  && ((k < j && ProbeSucceedsAt(cfg, evs, k)) || evs[k].time >= At(cfg, evs, k).store.hashExpiry)
  {
    AtStep(cfg, evs, i);
    if forall k :: i < k < j ==> !ProbeSucceedsAt(cfg, evs, k) && evs[k].time < At(cfg, evs, k).store.hashExpiry {
      ShutUntilProbe(cfg, evs, i + 1, j);
    }
  }

  /** Half open, with a probe in flight. */
  ghost predicate Probing(s: System, call: nat) {
    && s.store.hash.Some? && s.store.hash.value.state == B.HalfOpen && s.store.hash.value.probeInFlight
    && call in s.inFlight && s.inFlight[call]
  }

  lemma ProbingNext(cfg: B.Config, s: System, e: Event, call: nat)
    requires Probing(s, call) && e.Asked? && e.time < s.store.hashExpiry
    ensures Probing(Next(cfg, s, e), call)
  {
  }

  lemma {:induction false} ProbingWhileNothingEnds(cfg: B.Config, evs: seq<Event>, i: nat, j: nat)
    requires i < j <= |evs| && AnswerAt(cfg, evs, i) == Some(B.Probe)
    requires forall k :: i < k < j ==> evs[k].Asked? && evs[k].time < At(cfg, evs, k).store.hashExpiry
    ensures Probing(At(cfg, evs, j), evs[i].call)
    decreases j
  {
    AtStep(cfg, evs, j - 1);
    if j - 1 > i {
      ProbingWhileNothingEnds(cfg, evs, i, j - 1);
      ProbingNext(cfg, At(cfg, evs, j - 1), evs[j - 1], evs[i].call);
    }
  }

  /** While the key lives and no call ends, every caller beside an admitted probe is turned away without a hint. */
  lemma ProbeIsAlone(cfg: B.Config, evs: seq<Event>, i: nat, j: nat)
    requires i < j < |evs| && AnswerAt(cfg, evs, i) == Some(B.Probe)
    requires forall k :: i < k < j ==> evs[k].Asked? && evs[k].time < At(cfg, evs, k).store.hashExpiry
    ensures AnswerAt(cfg, evs, j).Some? && evs[j].time < At(cfg, evs, j).store.hashExpiry ==>
      AnswerAt(cfg, evs, j) == Some(B.Reject(None))
  {
    ProbingWhileNothingEnds(cfg, evs, i, j);
  }

  /** How many calls have ended in a counted failure from event `i` to event `j`. */
  ghost function FailuresBetween(cfg: B.Config, evs: seq<Event>, i: nat, j: nat): nat
    requires i <= j <= |evs|
    decreases j
  {
    if i == j then 0
    else
      var s, e := At(cfg, evs, j - 1), evs[j - 1];
      FailuresBetween(cfg, evs, i, j - 1)
      + if e.Ended? && e.call in s.inFlight && e.outcome == B.Failure(true) then 1 else 0
  }

  ghost predicate ProbeFailsAt(cfg: B.Config, evs: seq<Event>, k: nat)
    requires k < |evs|
  {
    && evs[k].Ended? && evs[k].outcome.Failure?
    && evs[k].call in At(cfg, evs, k).inFlight && At(cfg, evs, k).inFlight[evs[k].call]
  }

  lemma {:induction false} PruneShortens(fail: seq<int>, cutoff: int)
    ensures |Prune(fail, cutoff)| <= |fail|
  {
    if fail != [] && fail[0] < cutoff { PruneShortens(fail[1..], cutoff); }
  }

  lemma ClosedNext(cfg: B.Config, s: System, e: Event)
    requires !Shut(s.store)
    requires e.Ended? && e.call in s.inFlight && s.inFlight[e.call] ==> e.outcome.Success?
    ensures var failed := if e.Ended? && e.call in s.inFlight && e.outcome == B.Failure(true) then 1 else 0;
      var st := Next(cfg, s, e).store;
      |s.store.fail| + failed < cfg.threshold ==> !Shut(st) && |st.fail| <= |s.store.fail| + failed
  {
    PruneShortens(Live(s.store, e.time).fail + [e.time], e.time - WindowMs(cfg));
  }

  lemma {:induction false} ClosedUntilTrip(cfg: B.Config, evs: seq<Event>, i: nat, j: nat)
    requires i < j <= |evs| && ProbeSucceedsAt(cfg, evs, i) && FailuresBetween(cfg, evs, i + 1, j) < cfg.threshold
    requires forall k :: i < k < j ==> !ProbeFailsAt(cfg, evs, k)
    ensures var st := At(cfg, evs, j).store; !Shut(st) && |st.fail| <= FailuresBetween(cfg, evs, i + 1, j)
    decreases j
  {
    var m := j - 1;
    AtStep(cfg, evs, m);
    if i < m {
      ClosedUntilTrip(cfg, evs, i, m);
      assert !ProbeFailsAt(cfg, evs, m);
      ClosedNext(cfg, At(cfg, evs, m), evs[m]);
    }
  }

  /** After a probe's success every call passes, until failures reach the threshold or another probe fails. */
  lemma SuccessfulProbeCloses(cfg: B.Config, evs: seq<Event>, i: nat, j: nat)
    requires i < j < |evs| && ProbeSucceedsAt(cfg, evs, i) && FailuresBetween(cfg, evs, i + 1, j) < cfg.threshold
    requires forall k :: i < k < j ==> !ProbeFailsAt(cfg, evs, k)
    ensures AnswerAt(cfg, evs, j).Some? ==> AnswerAt(cfg, evs, j) == Some(B.Pass)
  {
    ClosedUntilTrip(cfg, evs, i, j);
  }

  // ----- How long the state key lives, and what a trip counts -----

  /** Event `k` is a recorded outcome that renews the keys: a probe's, or a counted failure. */
  ghost predicate RenewsAt(cfg: B.Config, evs: seq<Event>, k: nat)
    requires k < |evs|
  {
    && evs[k].Ended? && evs[k].call in At(cfg, evs, k).inFlight
    && (At(cfg, evs, k).inFlight[evs[k].call] || evs[k].outcome == B.Failure(true))
  }

  lemma {:induction false} LivesFromLastRecord(cfg: B.Config, evs: seq<Event>, i: nat, j: nat)
    requires i < j <= |evs| && RenewsAt(cfg, evs, i) && forall k :: i < k < j ==> !RenewsAt(cfg, evs, k)
    ensures At(cfg, evs, j).store.hash.Some? ==> At(cfg, evs, j).store.hashExpiry == evs[i].time + TtlMs(cfg)
    decreases j
  {
    AtStep(cfg, evs, j - 1);
    if j - 1 > i {
      LivesFromLastRecord(cfg, evs, i, j - 1);
      assert !RenewsAt(cfg, evs, j - 1);
    }
  }

  /**
   The state key lives for its time from the last outcome that renews it, whatever asks meanwhile; so a probe that is
   never heard of again blocks no longer than that.
   */
  lemma LostProbeExpires(cfg: B.Config, evs: seq<Event>, i: nat, j: nat)
    requires i < j < |evs| && RenewsAt(cfg, evs, i) && forall k :: i < k < j ==> !RenewsAt(cfg, evs, k)
    ensures At(cfg, evs, j).store.hash.Some? ==> At(cfg, evs, j).store.hashExpiry == evs[i].time + TtlMs(cfg)
    ensures AnswerAt(cfg, evs, j).Some? && evs[j].time >= evs[i].time + TtlMs(cfg) ==>
      AnswerAt(cfg, evs, j) == Some(B.Pass)
  {
    LivesFromLastRecord(cfg, evs, i, j);
  }

  /** Event `k` empties the failure list: a probe's outcome, or a failure that trips. */
  ghost predicate ClearsAt(cfg: B.Config, evs: seq<Event>, k: nat)
    requires k < |evs|
  {
    RenewsAt(cfg, evs, k) && (At(cfg, evs, k).inFlight[evs[k].call] || OpensAt(cfg, evs, k))
  }

  lemma PushCounts(cfg: B.Config, s: System, e: Event)
    ensures var failed := if e.Ended? && e.call in s.inFlight && e.outcome == B.Failure(true) then 1 else 0;
      |Next(cfg, s, e).store.fail| <= |s.store.fail| + failed
  {
    PruneShortens(Live(s.store, e.time).fail + [e.time], e.time - WindowMs(cfg));
  }

  lemma ClearingEmpties(cfg: B.Config, evs: seq<Event>, i: nat)
    requires i < |evs| && ClearsAt(cfg, evs, i)
    ensures At(cfg, evs, i + 1).store.fail == []
  {
    AtStep(cfg, evs, i);
  }

  lemma {:induction false} ListCountsFresh(cfg: B.Config, evs: seq<Event>, i: nat, j: nat)
    requires i < j <= |evs| && ClearsAt(cfg, evs, i)
    ensures |At(cfg, evs, j).store.fail| <= FailuresBetween(cfg, evs, i + 1, j)
    decreases j
  {
    if j - 1 == i {
      ClearingEmpties(cfg, evs, i);
    } else {
      ListCountsFresh(cfg, evs, i, j - 1);
      AtStep(cfg, evs, j - 1);
      PushCounts(cfg, At(cfg, evs, j - 1), evs[j - 1]);
    }
  }

  lemma TripCounts(cfg: B.Config, s: System, e: Event)
    requires e.Ended? && e.call in s.inFlight && !s.inFlight[e.call]
    requires var h := Next(cfg, s, e).store.hash; h.Some? && h.value.state == B.Open && h.value.openedAtMs == e.time
    requires !(s.store.hash.Some? && s.store.hash.value.state == B.Open && s.store.hash.value.openedAtMs == e.time)
    ensures e.outcome == B.Failure(true) && |s.store.fail| + 1 >= cfg.threshold
  {
    PruneShortens(Live(s.store, e.time).fail + [e.time], e.time - WindowMs(cfg));
  }

  /** Between a trip or a probe's outcome and the next trip lie as many counted failures as the threshold asks for. */
  lemma TripTakesFreshFailures(cfg: B.Config, evs: seq<Event>, i: nat, j: nat)
    requires i < j < |evs| && ClearsAt(cfg, evs, i) && OpensAt(cfg, evs, j)
    requires evs[j].call in At(cfg, evs, j).inFlight && !At(cfg, evs, j).inFlight[evs[j].call]
    ensures FailuresBetween(cfg, evs, i + 1, j + 1) >= cfg.threshold
  {
    ListCountsFresh(cfg, evs, i, j);
    AtStep(cfg, evs, j);
    TripCounts(cfg, At(cfg, evs, j), evs[j]);
  }

  lemma {:induction false} OpenUntilCooldown(cfg: B.Config, evs: seq<Event>, i: nat, j: nat)
    requires cfg.Valid() && i < j <= |evs| && ProbeFailsAt(cfg, evs, i)
    requires forall k :: i < k < j ==> evs[k].Asked? && evs[k].time < evs[i].time + CooldownMs(cfg)
    ensures var st := At(cfg, evs, j).store;
      st.hash == Some(Hash(B.Open, evs[i].time, false)) && st.hashExpiry == evs[i].time + TtlMs(cfg)
    decreases j
  {
    TtlOutlasts(cfg);
    AtStep(cfg, evs, j - 1);
    if j - 1 > i { OpenUntilCooldown(cfg, evs, i, j - 1); }
  }

  /**
   A probe's failure starts the cooldown anew, and the first call to ask after it is the next probe, unless the key is
   gone by then.
   */
  lemma FailedProbeReopens(cfg: B.Config, evs: seq<Event>, i: nat, j: nat)
    requires cfg.Valid() && i < j < |evs| && ProbeFailsAt(cfg, evs, i)
    requires forall k :: i < k < j ==> evs[k].Asked? && evs[k].time < evs[i].time + CooldownMs(cfg)
    ensures AnswerAt(cfg, evs, j).Some? ==>
      if evs[j].time < evs[i].time + CooldownMs(cfg)
      then AnswerAt(cfg, evs, j).value.Reject? && AnswerAt(cfg, evs, j).value.retryMs.Some?
      else AnswerAt(cfg, evs, j) == Some(if evs[j].time < evs[i].time + TtlMs(cfg) then B.Probe else B.Pass)
  {
    TtlOutlasts(cfg);
    OpenUntilCooldown(cfg, evs, i, j);
  }

  /** In whole milliseconds the hint is exact: if nothing happens and the key lives, the gate rejects until just then. */
  lemma HintIsExact(cfg: B.Config, st: Store, now: int, later: int)
    requires Gate(cfg, st, now).0.Reject? && Gate(cfg, st, now).0.retryMs.Some? && now <= later < st.hashExpiry
    ensures Gate(cfg, st, later).0.Reject? <==> later < now + Gate(cfg, st, now).0.retryMs.value
    ensures !Gate(cfg, st, later).0.Reject? ==> Gate(cfg, st, later).0 == B.Probe
  {
  }
}
