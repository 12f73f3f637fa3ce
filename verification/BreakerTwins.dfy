/**
 The two breakers side by side, on calls that do not overlap, at the same millisecond instants.
 */
module BreakerTwins {
  import opened Options
  import opened B = Breaker
  import R = RedisBreaker

  /** One call: when it asks, when it ends if it was let through, and how. */
  datatype Call = Call(askedMs: int, endedMs: int, outcome: B.Outcome)

  function Sec(ms: int): real {
    ms as real / 1000.0
  }

  function MemoryCall(cfg: Config, b: Bucket, c: Call): (Answer, Bucket) {
    var (answer, gated) := B.Gate(cfg, b, Sec(c.askedMs));
    if answer.Pass? || answer.Probe?
    then (answer, B.Record(cfg, gated, Sec(c.endedMs), c.outcome, answer.Probe?))
    else (answer, gated)
  }

  function RedisCall(cfg: Config, st: R.Store, c: Call): (Answer, R.Store) {
    var (answer, gated) := R.Gate(cfg, st, c.askedMs);
    if answer.Pass? || answer.Probe?
    then (answer, R.Record(cfg, gated, c.endedMs, c.outcome, answer.Probe?))
    else (answer, gated)
  }

  function MemoryAfter(cfg: Config, calls: seq<Call>): Bucket {
    if calls == [] then B.FRESH else MemoryCall(cfg, MemoryAfter(cfg, calls[..|calls| - 1]), calls[|calls| - 1]).1
  }

  function RedisAfter(cfg: Config, calls: seq<Call>): R.Store {
    if calls == [] then R.EMPTY else RedisCall(cfg, RedisAfter(cfg, calls[..|calls| - 1]), calls[|calls| - 1]).1
  }

  /** Calls follow one another. */
  ghost predicate Ordered(calls: seq<Call>) {
    && (forall i :: 0 <= i < |calls| ==> calls[i].askedMs <= calls[i].endedMs)
    && (forall i, j :: 0 <= i < j < |calls| ==> calls[i].endedMs <= calls[j].askedMs)
  }

  /** The twins give the same answer, with the same hint, to the next call. */
  ghost predicate AgreeOn(cfg: Config, before: seq<Call>, c: Call) {
    MemoryCall(cfg, MemoryAfter(cfg, before), c).0 == RedisCall(cfg, RedisAfter(cfg, before), c).0
  }

  ghost predicate AgreeThroughout(cfg: Config, calls: seq<Call>) {
    calls == [] || (AgreeThroughout(cfg, calls[..|calls| - 1]) && AgreeOn(cfg, calls[..|calls| - 1], calls[|calls| - 1]))
  }

  /** The next call comes while an open breaker's key is still alive. */
  ghost predicate InTime(cfg: Config, b: Bucket, c: Call) {
    b.phase == Open && b.openedAt.Some? ==> Sec(c.askedMs) < b.openedAt.value + Sec(R.TtlMs(cfg))
  }

  /** No open period outlives the state key's time to live. */
  ghost predicate NeverOutlived(cfg: Config, calls: seq<Call>) {
    calls == [] || (NeverOutlived(cfg, calls[..|calls| - 1])
                    && InTime(cfg, MemoryAfter(cfg, calls[..|calls| - 1]), calls[|calls| - 1]))
  }

  ghost predicate WholeMs(cfg: Config) {
    R.CooldownMs(cfg) as real == cfg.cooldown * 1000.0
  }

  // ----- The relation between the two states, after a call that ended at `now` -----

  ghost predicate SameTimes(failures: seq<real>, fail: seq<int>) {
    |failures| == |fail| && forall i :: 0 <= i < |fail| ==> failures[i] == Sec(fail[i])
  }

  /** The list expires only after every entry has left the window. */
  ghost predicate ListKept(cfg: Config, fail: seq<int>, failExpiry: int) {
    forall i :: 0 <= i < |fail| ==> fail[i] + R.TtlMs(cfg) <= failExpiry
  }

  ghost predicate NoneLater(fail: seq<int>, now: int) {
    forall i :: 0 <= i < |fail| ==> fail[i] <= now
  }

  /** Every remembered failure has left the window. */
  ghost predicate AllStale(cfg: Config, failures: seq<real>, now: int) {
    forall i :: 0 <= i < |failures| ==> failures[i] < Sec(now) - cfg.window
  }

  /** The same failures; or the list has expired, and the deque holds nothing that still counts. */
  ghost predicate LogsRelated(cfg: Config, failures: seq<real>, st: R.Store, now: int) {
    || (SameTimes(failures, st.fail) && ListKept(cfg, st.fail, st.failExpiry) && NoneLater(st.fail, now))
    || (st.fail == [] && AllStale(cfg, failures, now))
  }

  /** What ties the two states together after a call that ended at `now`. */
  ghost predicate Related(cfg: Config, b: Bucket, st: R.Store, now: int) {
    match b.phase
    case Closed => (st.hash.Some? ==> st.hash.value.state == Closed) && LogsRelated(cfg, b.failures, st, now)
    case Open =>
      // the failure log no longer matters: only a probe can come next, and it clears both
      && b.openedAt.Some? && st.hash.Some? && st.hash.value.state == Open
      && b.openedAt.value == Sec(st.hash.value.openedAtMs) && st.hash.value.openedAtMs <= now
      && st.hashExpiry == st.hash.value.openedAtMs + R.TtlMs(cfg)
    case HalfOpen => false
  }

  /** On whole milliseconds the truncated window prunes the same entries. */
  lemma SameCut(cfg: Config, t: int, now: int)
    ensures Sec(t) < Sec(now) - cfg.window <==> t < now - R.WindowMs(cfg)
  {
    var w := cfg.window * 1000.0;
    assert Sec(t) < Sec(now) - cfg.window <==> (now - t) as real > w;
  }

  lemma {:induction false} SamePrune(cfg: Config, failures: seq<real>, fail: seq<int>, now: int)
    requires SameTimes(failures, fail)
    ensures SameTimes(B.Prune(failures, Sec(now) - cfg.window), R.Prune(fail, now - R.WindowMs(cfg)))
    decreases |fail|
  {
    if fail != [] {
      SameCut(cfg, fail[0], now);
      SamePrune(cfg, failures[1..], fail[1..], now);
    }
  }

  /** Entries whose list has expired are all outside the window. */
  lemma ExpiredAreStale(cfg: Config, failures: seq<real>, fail: seq<int>, now: int)
    requires cfg.Valid() && SameTimes(failures, fail)
    requires forall i :: 0 <= i < |fail| ==> fail[i] + R.TtlMs(cfg) <= now
    ensures AllStale(cfg, failures, now)
  {
    R.TtlOutlasts(cfg);
    forall i | 0 <= i < |fail| ensures failures[i] < Sec(now) - cfg.window {
      SameCut(cfg, fail[i], now);
    }
  }

  /** A script run at `now` sees a failure log related to the deque, expired or not. */
  lemma LiveLogsRelated(cfg: Config, failures: seq<real>, st: R.Store, was: int, now: int)
    requires cfg.Valid() && LogsRelated(cfg, failures, st, was) && was <= now
    ensures LogsRelated(cfg, failures, R.Live(st, now), now)
  {
    if SameTimes(failures, st.fail) && ListKept(cfg, st.fail, st.failExpiry) && now >= st.failExpiry {
      ExpiredAreStale(cfg, failures, st.fail, now);
    }
  }

  lemma {:induction false} StaleIsPruned(cfg: Config, failures: seq<real>, now: int)
    requires cfg.Valid() && AllStale(cfg, failures, now)
    ensures B.Prune(failures + [Sec(now)], Sec(now) - cfg.window) == [Sec(now)]
    decreases |failures|
  {
    if failures == [] {
      assert failures + [Sec(now)] == [Sec(now)];
    } else {
      StaleIsPruned(cfg, failures[1..], now);
      assert (failures + [Sec(now)])[1..] == failures[1..] + [Sec(now)];
    }
  }

  lemma {:induction false} PruneKeeps(cfg: Config, fail: seq<int>, cutoff: int, now: int)
    requires NoneLater(fail, now)
    ensures NoneLater(R.Prune(fail, cutoff), now) && ListKept(cfg, R.Prune(fail, cutoff), now + R.TtlMs(cfg))
    decreases |fail|
  {
    if fail != [] && fail[0] < cutoff { PruneKeeps(cfg, fail[1..], cutoff, now); }
  }

  /** The failure log after a counted failure is the same on both sides. */
  lemma SameLogAfterFailure(cfg: Config, failures: seq<real>, st: R.Store, now: int)
    requires cfg.Valid() && LogsRelated(cfg, failures, st, now)
    ensures var fail := R.Prune(st.fail + [now], now - R.WindowMs(cfg));
      && SameTimes(B.Prune(failures + [Sec(now)], Sec(now) - cfg.window), fail)
      && ListKept(cfg, fail, now + R.TtlMs(cfg)) && NoneLater(fail, now)
  {
    if SameTimes(failures, st.fail) && NoneLater(st.fail, now) {
      PruneKeeps(cfg, st.fail + [now], now - R.WindowMs(cfg), now);
      SamePrune(cfg, failures + [Sec(now)], st.fail + [now], now);
    } else {
      StaleIsPruned(cfg, failures, now);
      SamePrune(cfg, [Sec(now)], [now], now);
      SameCut(cfg, now, now);
      assert st.fail + [now] == [now];
    }
  }

  lemma RelatedLater(cfg: Config, b: Bucket, st: R.Store, was: int, now: int)
    requires Related(cfg, b, st, was) && was <= now
    ensures Related(cfg, b, st, now)
  {
  }

  /** Recording keeps the relation, from a closed breaker or after a probe. */
  lemma RecordRelates(cfg: Config, b: Bucket, st: R.Store, was: int, now: int, outcome: B.Outcome, isProbe: bool)
    requires cfg.Valid() && was <= now
    requires isProbe || (b.phase == Closed && Related(cfg, b, st, was))
    ensures Related(cfg, B.Record(cfg, b, Sec(now), outcome, isProbe), R.Record(cfg, st, now, outcome, isProbe), now)
  {
    if !isProbe {
      LiveLogsRelated(cfg, b.failures, st, was, now);
      if outcome.Failure? && outcome.counted { SameLogAfterFailure(cfg, b.failures, R.Live(st, now), now); }
    }
  }

  /** From related states, a call that is in time gets the same answer from both. */
  lemma GateAgrees(cfg: Config, b: Bucket, st: R.Store, was: int, now: int)
    requires cfg.Valid() && WholeMs(cfg) && Related(cfg, b, st, was) && was <= now
    requires b.phase == Open ==> now < st.hashExpiry
    ensures B.Gate(cfg, b, Sec(now)).0 == R.Gate(cfg, st, now).0
    ensures B.Gate(cfg, b, Sec(now)).0.Pass? ==>
      B.Gate(cfg, b, Sec(now)).1.phase == Closed && Related(cfg, B.Gate(cfg, b, Sec(now)).1, R.Gate(cfg, st, now).1, now)
    ensures B.Gate(cfg, b, Sec(now)).0.Reject? ==> Related(cfg, B.Gate(cfg, b, Sec(now)).1, R.Gate(cfg, st, now).1, now)
  {
    if b.phase == Closed {
      LiveLogsRelated(cfg, b.failures, st, was, now);
    } else {
      var openedMs := st.hash.value.openedAtMs;
      var elapsed := Sec(now) - Sec(openedMs);
      assert elapsed * 1000.0 == (now - openedMs) as real;
      assert (cfg.cooldown - elapsed) * 1000.0 == (R.CooldownMs(cfg) - (now - openedMs)) as real;
    }
  }

  /** An open period that has outlived its key: one twin probes, the other has forgotten. */
  lemma OutlivedDiffers(cfg: Config, b: Bucket, st: R.Store, was: int, now: int)
    requires cfg.Valid() && Related(cfg, b, st, was) && b.phase == Open && now >= st.hashExpiry
    ensures B.Gate(cfg, b, Sec(now)).0 == Probe && R.Gate(cfg, st, now).0 == Pass
  {
    R.TtlOutlasts(cfg);
    assert (Sec(now) - b.openedAt.value) * 1000.0 >= R.TtlMs(cfg) as real;
  }

  /** One more call: the twins agree on it exactly when it is in time, and then stay related. */
  lemma CallAgreesIffInTime(cfg: Config, b: Bucket, st: R.Store, was: int, c: Call)
    requires cfg.Valid() && WholeMs(cfg) && Related(cfg, b, st, was) && was <= c.askedMs <= c.endedMs
    ensures MemoryCall(cfg, b, c).0 == RedisCall(cfg, st, c).0 <==> InTime(cfg, b, c)
    ensures InTime(cfg, b, c) ==> Related(cfg, MemoryCall(cfg, b, c).1, RedisCall(cfg, st, c).1, c.endedMs)
  {
    if b.phase == Open {
      assert InTime(cfg, b, c) <==> c.askedMs < st.hashExpiry;
    }
    if InTime(cfg, b, c) {
      GateAgrees(cfg, b, st, was, c.askedMs);
      var (answer, gated) := B.Gate(cfg, b, Sec(c.askedMs));
      if answer.Pass? || answer.Probe? {
        RecordRelates(cfg, gated, R.Gate(cfg, st, c.askedMs).1, c.askedMs, c.endedMs, c.outcome, answer.Probe?);
      } else {
        RelatedLater(cfg, gated, R.Gate(cfg, st, c.askedMs).1, c.askedMs, c.endedMs);
      }
    } else {
      OutlivedDiffers(cfg, b, st, was, c.askedMs);
    }
  }

  /**
   The two breakers are bisimilar on non-overlapping calls: with a cooldown of whole milliseconds they answer every
   call alike, hint included, exactly when no open period outlives the state key.
   */
  lemma {:induction false} TwinsAgreeIffNeverOutlived(cfg: Config, calls: seq<Call>)
    requires cfg.Valid() && WholeMs(cfg) && Ordered(calls)
    ensures AgreeThroughout(cfg, calls) <==> NeverOutlived(cfg, calls)
    ensures AgreeThroughout(cfg, calls) && calls != [] ==>
      Related(cfg, MemoryAfter(cfg, calls), RedisAfter(cfg, calls), calls[|calls| - 1].endedMs)
  {
    if calls != [] {
      var before, c := calls[..|calls| - 1], calls[|calls| - 1];
      TwinsAgreeIffNeverOutlived(cfg, before);
      if AgreeThroughout(cfg, before) {
        var was := if before == [] then c.askedMs else before[|before| - 1].endedMs;
        CallAgreesIffInTime(cfg, MemoryAfter(cfg, before), RedisAfter(cfg, before), was, c);
      }
    }
  }

  // ----- A cooldown that is not whole milliseconds -----

  /** `n` failing calls at instant zero. */
  function Failing(n: nat): seq<Call> {
    if n == 0 then [] else Failing(n - 1) + [Call(0, 0, Failure(true))]
  }

  function Zeros(n: nat): seq<real> {
    seq(n, _ => 0.0)
  }

  function ZerosMs(n: nat): seq<int> {
    seq(n, _ => 0)
  }

  lemma AfterSnoc(cfg: Config, calls: seq<Call>, c: Call)
    ensures MemoryAfter(cfg, calls + [c]) == MemoryCall(cfg, MemoryAfter(cfg, calls), c).1
    ensures RedisAfter(cfg, calls + [c]) == RedisCall(cfg, RedisAfter(cfg, calls), c).1
    ensures NeverOutlived(cfg, calls + [c]) <==> NeverOutlived(cfg, calls) && InTime(cfg, MemoryAfter(cfg, calls), c)
    ensures AgreeThroughout(cfg, calls + [c]) <==> AgreeThroughout(cfg, calls) && AgreeOn(cfg, calls, c)
  {
    assert (calls + [c])[..|calls|] == calls;
  }

  /** Another failure at zero, on the in-process side. */
  lemma MemoryFailsAtZero(cfg: Config, n: nat)
    requires cfg.Valid()
    ensures MemoryCall(cfg, Bucket(Closed, Zeros(n), None, false), Call(0, 0, Failure(true))).1
         == if n + 1 >= cfg.threshold then Bucket(Open, Zeros(n + 1), Some(0.0), false)
            else Bucket(Closed, Zeros(n + 1), None, false)
  {
    assert Zeros(n) + [0.0] == Zeros(n + 1) && Zeros(n + 1)[0] == 0.0;
    assert B.Prune(Zeros(n) + [0.0], 0.0 - cfg.window) == Zeros(n + 1);
  }

  /** Another failure at zero, on the shared side. */
  lemma RedisFailsAtZero(cfg: Config, st: R.Store, n: nat)
    requires cfg.Valid() && st.hash == None && st.fail == ZerosMs(n) && (n > 0 ==> st.failExpiry == R.TtlMs(cfg))
    ensures var after := RedisCall(cfg, st, Call(0, 0, Failure(true))).1;
      if n + 1 >= cfg.threshold then after.hash == Some(R.Hash(Open, 0, false)) && after.hashExpiry == R.TtlMs(cfg)
      else after.hash == None && after.fail == ZerosMs(n + 1) && after.failExpiry == R.TtlMs(cfg)
  {
    R.TtlOutlasts(cfg);
    assert R.Live(st, 0).fail == ZerosMs(n) by { if n == 0 { assert st.fail == []; } }
    assert ZerosMs(n) + [0] == ZerosMs(n + 1) && ZerosMs(n + 1)[0] == 0;
    assert R.Prune(ZerosMs(n) + [0], 0 - R.WindowMs(cfg)) == ZerosMs(n + 1);
  }

  lemma {:induction false} FailingIsOrdered(n: nat)
    ensures |Failing(n)| == n && forall i :: 0 <= i < n ==> Failing(n)[i] == Call(0, 0, Failure(true))
  {
    if n > 0 { FailingIsOrdered(n - 1); }
  }

  /** Short of the threshold both stay closed, with the same failures on record. */
  lemma {:induction false} FailingRun(cfg: Config, n: nat)
    requires cfg.Valid() && n < cfg.threshold
    ensures NeverOutlived(cfg, Failing(n))
    ensures MemoryAfter(cfg, Failing(n)) == Bucket(Closed, Zeros(n), None, false)
    ensures var st := RedisAfter(cfg, Failing(n));
      st.hash == None && st.fail == ZerosMs(n) && (n > 0 ==> st.failExpiry == R.TtlMs(cfg))
  {
    if n == 0 {
      assert Zeros(0) == [] && ZerosMs(0) == [];
    } else {
      var m := n - 1;
      FailingRun(cfg, m);
      AfterSnoc(cfg, Failing(m), Call(0, 0, Failure(true)));
      MemoryFailsAtZero(cfg, m);
      RedisFailsAtZero(cfg, RedisAfter(cfg, Failing(m)), m);
      assert Failing(n) == Failing(m) + [Call(0, 0, Failure(true))];
    }
  }

  /** The run that trips the breaker at zero and asks again at the truncated cooldown. */
  function Telltale(cfg: Config): seq<Call> {
    Failing(cfg.threshold) + [Call(R.CooldownMs(cfg), R.CooldownMs(cfg), Success)]
  }

  lemma TrippedAtZero(cfg: Config)
    requires cfg.Valid()
    ensures var b, st := MemoryAfter(cfg, Failing(cfg.threshold)), RedisAfter(cfg, Failing(cfg.threshold));
      && NeverOutlived(cfg, Failing(cfg.threshold))
      && b.phase == Open && b.openedAt == Some(0.0)
      && st.hash == Some(R.Hash(Open, 0, false)) && st.hashExpiry == R.TtlMs(cfg)
  {
    var n := cfg.threshold - 1;
    FailingRun(cfg, n);
    AfterSnoc(cfg, Failing(n), Call(0, 0, Failure(true)));
    MemoryFailsAtZero(cfg, n);
    RedisFailsAtZero(cfg, RedisAfter(cfg, Failing(n)), n);
  }

  /** Otherwise the twins differ: at the truncated cooldown one still rejects and the other already probes. */
  lemma FractionalCooldownDiffers(cfg: Config)
    requires cfg.Valid() && !WholeMs(cfg)
    ensures Ordered(Telltale(cfg)) && NeverOutlived(cfg, Telltale(cfg)) && !AgreeThroughout(cfg, Telltale(cfg))
  {
    var f := R.CooldownMs(cfg);
    FailingIsOrdered(cfg.threshold);
    TrippedAtZero(cfg);
    R.TtlOutlasts(cfg);
    AfterSnoc(cfg, Failing(cfg.threshold), Call(f, f, Success));
    assert Sec(f) < cfg.cooldown;
  }

  /**
   Exactly when: the twins answer alike on every run of non-overlapping calls in which no open period outlives its
   key, if and only if the cooldown is a whole number of milliseconds.
   */
  lemma TwinsAgreeIffWholeMs(cfg: Config)
    requires cfg.Valid()
    ensures WholeMs(cfg) <==>
      forall calls | Ordered(calls) && NeverOutlived(cfg, calls) :: AgreeThroughout(cfg, calls)
  {
    if WholeMs(cfg) {
      forall calls | Ordered(calls) && NeverOutlived(cfg, calls) ensures AgreeThroughout(cfg, calls) {
        TwinsAgreeIffNeverOutlived(cfg, calls);
      }
    } else {
      FractionalCooldownDiffers(cfg);
    }
  }
}
