/**
 The in-process token bucket, one bucket a key, on one nondecreasing clock in seconds.
 */
module TokenBucket {
  import opened Options

  datatype Config = Config(rate: real, burst: int) {
    predicate Valid() {
      rate > 0.0 && burst >= 1
    }
  }

  datatype Bucket = Bucket(tokens: real, lastRefill: real)

  datatype Decision = Decision(allowed: bool, remaining: int, retryAfterMs: Option<int>)

  /** What a caller gets back: a decision, or the error for a cost below one. */
  datatype Reply = InvalidCost | Decided(decision: Decision)

  function Min(x: real, y: real): real {
    if x <= y then x else y
  }

  function CeilOf(x: real): int {
    -((-x).Floor)
  }

  /** max(1, ceil(deficit / rate * 1000)) */
  function RetryMs(cfg: Config, deficit: real): int
    requires cfg.Valid()
  {
    var ms := CeilOf(deficit / cfg.rate * 1000.0);
    if ms < 1 then 1 else ms
  }

  /** The bucket at `now`: a new one is full, an old one has gained what the elapsed time is worth. */
  function Refill(cfg: Config, bucket: Option<Bucket>, now: real): Bucket {
    match bucket
    case None => Bucket(cfg.burst as real, now)
    case Some(b) =>
      var elapsed := if now - b.lastRefill > 0.0 then now - b.lastRefill else 0.0;
      Bucket(Min(cfg.burst as real, b.tokens + elapsed * cfg.rate), now)
  }

  /** Takes the cost if the bucket can pay for it. */
  function Take(cfg: Config, b: Bucket, cost: int): (Decision, Bucket)
    requires cfg.Valid()
  {
    if b.tokens >= cost as real then
      var left := b.tokens - cost as real;
      (Decision(true, left.Floor, None), b.(tokens := left))
    else
      (Decision(false, b.tokens.Floor, Some(RetryMs(cfg, cost as real - b.tokens))), b)
  }

  function Acquire(cfg: Config, bucket: Option<Bucket>, cost: int, now: real): (Reply, Option<Bucket>)
    requires cfg.Valid()
  {
    if cost < 1 then (InvalidCost, bucket)
    else if cost > cfg.burst then (Decided(Decision(false, 0, None)), bucket)
    else
      var (decision, after) := Take(cfg, Refill(cfg, bucket, now), cost);
      (Decided(decision), Some(after))
  }

  type Buckets = map<string, Bucket>

  function Lookup(buckets: Buckets, key: string): Option<Bucket> {
    if key in buckets then Some(buckets[key]) else None
  }

  function Store(buckets: Buckets, key: string, bucket: Option<Bucket>): Buckets {
    if bucket.Some? then buckets[key := bucket.value] else buckets
  }

  class RateLimiter {
    const cfg: Config
    var buckets: Buckets

    constructor (cfg: Config)
      requires cfg.Valid()
      ensures this.cfg == cfg && buckets == map[]
    {
      this.cfg := cfg;
      buckets := map[];
    }

    method AcquireKey(key: string, cost: int, now: real) returns (reply: Reply)
      requires cfg.Valid()
      modifies this
      ensures reply == Acquire(cfg, Lookup(old(buckets), key), cost, now).0
      ensures buckets == Store(old(buckets), key, Acquire(cfg, Lookup(old(buckets), key), cost, now).1)
    {
      if cost < 1 { return InvalidCost; }
      if cost > cfg.burst { return Decided(Decision(false, 0, None)); }
      if key !in buckets {
        buckets := buckets[key := Bucket(cfg.burst as real, now)];
      } else {
        var bucket := buckets[key];
        var elapsed := if now - bucket.lastRefill > 0.0 then now - bucket.lastRefill else 0.0;
        var filled := Bucket(Min(cfg.burst as real, bucket.tokens + elapsed * cfg.rate), now);
        assert filled == Refill(cfg, Some(bucket), now);
        buckets := buckets[key := filled];
      }
      var tokens := buckets[key].tokens;
      if tokens >= cost as real {
        buckets := buckets[key := Bucket(tokens - cost as real, now)];
        return Decided(Decision(true, (tokens - cost as real).Floor, None));
      }
      return Decided(Decision(false, tokens.Floor, Some(RetryMs(cfg, cost as real - tokens))));
    }
  }

  // ----- Runs -----

  datatype Event = Event(key: string, cost: int, time: real)

  function Exec(cfg: Config, evs: seq<Event>): Buckets
    requires cfg.Valid()
  {
    if evs == [] then map[]
    else
      var before, e := Exec(cfg, evs[..|evs| - 1]), evs[|evs| - 1];
      Store(before, e.key, Acquire(cfg, Lookup(before, e.key), e.cost, e.time).1)
  }

  function At(cfg: Config, evs: seq<Event>, i: nat): Buckets
    requires cfg.Valid() && i <= |evs|
  {
    Exec(cfg, evs[..i])
  }

  function ReplyAt(cfg: Config, evs: seq<Event>, i: nat): Reply
    requires cfg.Valid() && i < |evs|
  {
    Acquire(cfg, Lookup(At(cfg, evs, i), evs[i].key), evs[i].cost, evs[i].time).0
  }

  predicate Grants(r: Reply) {
    r.Decided? && r.decision.allowed
  }

  ghost predicate Timed(evs: seq<Event>) {
    forall i, j :: 0 <= i <= j < |evs| ==> evs[i].time <= evs[j].time
  }

  lemma AtStep(cfg: Config, evs: seq<Event>, i: nat)
    requires cfg.Valid() && i < |evs|
    ensures var before, e := At(cfg, evs, i), evs[i];
      At(cfg, evs, i + 1) == Store(before, e.key, Acquire(cfg, Lookup(before, e.key), e.cost, e.time).1)
  {
    assert evs[..i + 1][..i] == evs[..i];
  }

  /** Calls on other keys leave a key's bucket alone. */
  lemma {:induction false} Untouched(cfg: Config, evs: seq<Event>, key: string, i: nat, j: nat)
    requires cfg.Valid() && i <= j <= |evs| && forall k :: i <= k < j ==> evs[k].key != key
    ensures Lookup(At(cfg, evs, j), key) == Lookup(At(cfg, evs, i), key)
    decreases j
  {
    if i < j {
      Untouched(cfg, evs, key, i, j - 1);
      AtStep(cfg, evs, j - 1);
    }
  }

  // ----- The rate bound -----

  /** The cost granted to `key` by the events between instants `s` and `t`. */
  function Granted(cfg: Config, evs: seq<Event>, key: string, s: real, t: real): int
    requires cfg.Valid()
  {
    if evs == [] then 0
    else
      var n := |evs| - 1;
      Granted(cfg, evs[..n], key, s, t)
      + if evs[n].key == key && s <= evs[n].time <= t && Grants(ReplyAt(cfg, evs, n)) then evs[n].cost else 0
  }

  /** A bucket never holds less than nothing or more than the burst. */
  ghost predicate Bounded(cfg: Config, b: Bucket) {
    0.0 <= b.tokens <= cfg.burst as real
  }

  lemma RefillBounded(cfg: Config, bucket: Option<Bucket>, now: real)
    requires cfg.Valid() && (bucket.Some? ==> Bounded(cfg, bucket.value))
    ensures Bounded(cfg, Refill(cfg, bucket, now))
  {
    if bucket.Some? {
      var elapsed := now - bucket.value.lastRefill;
      if elapsed > 0.0 { Product(cfg.rate, 0.0, elapsed, elapsed); }
    }
  }

  lemma {:induction false} TokensBounded(cfg: Config, evs: seq<Event>, key: string)
    requires cfg.Valid()
    ensures key in Exec(cfg, evs) ==> Bounded(cfg, Exec(cfg, evs)[key])
  {
    if evs != [] {
      var before, e := evs[..|evs| - 1], evs[|evs| - 1];
      TokensBounded(cfg, before, key);
      if e.key == key { RefillBounded(cfg, Lookup(Exec(cfg, before), key), e.time); }
    }
  }

  /**
   The amount granted since `s`, plus what the bucket still holds, is covered by the burst and the refill since
   `s`; nothing was granted while the bucket was last touched before `s`.
   */
  ghost predicate Covered(cfg: Config, b: Bucket, granted: int, s: real) {
    if b.lastRefill < s then granted == 0 && Bounded(cfg, b)
    else Bounded(cfg, b) && granted as real + b.tokens <= cfg.burst as real + cfg.rate * (b.lastRefill - s)
  }

  lemma RefillCovered(cfg: Config, b: Bucket, granted: int, s: real, now: real)
    requires cfg.Valid() && Covered(cfg, b, granted, s) && b.lastRefill <= now
    ensures Covered(cfg, Refill(cfg, Some(b), now), granted, s)
  {
    RefillBounded(cfg, Some(b), now);
    var elapsed := now - b.lastRefill;
    if b.lastRefill >= s {
      Product(cfg.rate, b.lastRefill - s, elapsed, now - s);
    } else if now >= s {
      NonNegative(cfg.rate, now - s);
    }
  }

  lemma TakeCovered(cfg: Config, b: Bucket, granted: int, s: real, cost: int)
    requires cfg.Valid() && Covered(cfg, b, granted, s) && cost >= 1
    ensures var (decision, after) := Take(cfg, b, cost);
      Covered(cfg, after, granted + (if decision.allowed && s <= b.lastRefill then cost else 0), s)
  {
  }

  lemma NonNegative(rate: real, x: real)
    requires rate > 0.0 && x >= 0.0
    ensures rate * x >= 0.0
  {
  }

  /** One call keeps its key's bucket covered. */
  lemma CallCovered(cfg: Config, bucket: Option<Bucket>, granted: int, s: real, now: real, cost: int)
    requires cfg.Valid() && 1 <= cost <= cfg.burst
    requires if bucket.Some? then Covered(cfg, bucket.value, granted, s) && bucket.value.lastRefill <= now else granted == 0
    ensures var (reply, after) := Acquire(cfg, bucket, cost, now);
      && after.Some? && after.value.lastRefill == now
      && Covered(cfg, after.value, granted + (if Grants(reply) && s <= now then cost else 0), s)
  {
    if bucket.Some? {
      RefillCovered(cfg, bucket.value, granted, s, now);
    } else if now >= s {
      NonNegative(cfg.rate, now - s);
    }
    TakeCovered(cfg, Refill(cfg, bucket, now), granted, s, cost);
  }

  /** No event of the run is later than `t`. */
  ghost predicate Before(evs: seq<Event>, t: real) {
    forall i :: 0 <= i < |evs| ==> evs[i].time <= t
  }

  /** What a key holds covers what it was granted; a key without a bucket was granted nothing. */
  ghost predicate KeyCovered(cfg: Config, bucket: Option<Bucket>, granted: int, s: real, t: real) {
    if bucket.Some? then Covered(cfg, bucket.value, granted, s) && bucket.value.lastRefill <= t else granted == 0
  }

  lemma EventCovered(cfg: Config, m: Buckets, e: Event, key: string, granted: int, s: real, t: real)
    requires cfg.Valid() && KeyCovered(cfg, Lookup(m, key), granted, s, e.time) && e.time <= t
    ensures var (reply, after) := Acquire(cfg, Lookup(m, e.key), e.cost, e.time);
      var more := if e.key == key && s <= e.time <= t && Grants(reply) then e.cost else 0;
      KeyCovered(cfg, Lookup(Store(m, e.key, after), key), granted + more, s, t)
  {
    if e.key == key && 1 <= e.cost <= cfg.burst { CallCovered(cfg, Lookup(m, key), granted, s, e.time, e.cost); }
  }

  lemma {:induction false} AlwaysCovered(cfg: Config, evs: seq<Event>, key: string, s: real, t: real)
    requires cfg.Valid() && Timed(evs) && Before(evs, t)
    ensures KeyCovered(cfg, Lookup(Exec(cfg, evs), key), Granted(cfg, evs, key, s, t), s, t)
  {
    if evs != [] {
      var n := |evs| - 1;
      var before, e := evs[..n], evs[n];
      AlwaysCovered(cfg, before, key, s, e.time);
      SameHorizon(cfg, before, key, s, e.time, t);
      EventCovered(cfg, Exec(cfg, before), e, key, Granted(cfg, before, key, s, t), s, t);
    }
  }

  /** Moving the end of the interval past every event changes nothing. */
  lemma {:induction false} SameHorizon(cfg: Config, evs: seq<Event>, key: string, s: real, t: real, u: real)
    requires cfg.Valid() && Before(evs, t) && t <= u
    ensures Granted(cfg, evs, key, s, t) == Granted(cfg, evs, key, s, u)
  {
    if evs != [] { SameHorizon(cfg, evs[..|evs| - 1], key, s, t, u); }
  }

  lemma Product(rate: real, x: real, y: real, sum: real)
    requires rate > 0.0 && y >= 0.0 && sum == x + y
    ensures rate * y >= 0.0 && rate * sum == rate * x + rate * y
  {
  }

  /** A bound over `x` holds over the longer `sum`. */
  lemma Widen(burst: real, rate: real, amount: real, x: real, y: real, sum: real)
    requires rate > 0.0 && y >= 0.0 && sum == x + y && amount <= burst + rate * x
    ensures amount <= burst + rate * sum
  {
    Product(rate, x, y, sum);
  }

  /** What `Covered` says at the end of the interval. */
  lemma CoveredIsWithin(cfg: Config, b: Bucket, granted: int, s: real, t: real)
    requires cfg.Valid() && Covered(cfg, b, granted, s) && b.lastRefill <= t && s <= t
    ensures granted as real <= cfg.burst as real + cfg.rate * (t - s)
  {
    if b.lastRefill >= s {
      Widen(cfg.burst as real, cfg.rate, granted as real + b.tokens, b.lastRefill - s, t - b.lastRefill, t - s);
    } else {
      NonNegative(cfg.rate, t - s);
    }
  }

  lemma KeyIsWithin(cfg: Config, bucket: Option<Bucket>, granted: int, s: real, t: real)
    requires cfg.Valid() && KeyCovered(cfg, bucket, granted, s, t) && s <= t
    ensures granted as real <= cfg.burst as real + cfg.rate * (t - s)
  {
    match bucket
    case Some(b) => CoveredIsWithin(cfg, b, granted, s, t);
    case None => NonNegative(cfg.rate, t - s);
  }

  /** In every run, for every key and interval, the cost granted is at most the burst plus what the interval refills. */
  lemma {:induction false} RateIsBounded(cfg: Config, evs: seq<Event>, key: string, s: real, t: real)
    requires cfg.Valid() && Timed(evs) && s <= t
    ensures Granted(cfg, evs, key, s, t) as real <= cfg.burst as real + cfg.rate * (t - s)
  {
    if evs != [] && evs[|evs| - 1].time > t {
      RateIsBounded(cfg, evs[..|evs| - 1], key, s, t);
    } else {
      AlwaysCovered(cfg, evs, key, s, t);
      KeyIsWithin(cfg, Lookup(Exec(cfg, evs), key), Granted(cfg, evs, key, s, t), s, t);
    }
  }

  // ----- Denied calls leave no trace -----

  /** Refilling on the way to a later refill changes nothing. */
  lemma RefillTwice(cfg: Config, b: Bucket, mid: real, now: real)
    requires cfg.Valid() && b.lastRefill <= mid <= now
    ensures Refill(cfg, Some(Refill(cfg, Some(b), mid)), now) == Refill(cfg, Some(b), now)
  {
    Product(cfg.rate, mid - b.lastRefill, now - mid, now - b.lastRefill);
    assert (now - b.lastRefill) * cfg.rate == (mid - b.lastRefill) * cfg.rate + (now - mid) * cfg.rate;
  }

  ghost predicate Refilled(cfg: Config, b: Bucket, later: Bucket) {
    b.lastRefill <= later.lastRefill && later == Refill(cfg, Some(b), later.lastRefill)
  }

  /** The two bucket maps differ at most by a refill of one key at an instant no later than `now`. */
  ghost predicate SameButRefill(cfg: Config, m: Buckets, without: Buckets, key: string, now: real) {
    && m.Keys == without.Keys
    && (forall k :: k in m && k != key ==> m[k] == without[k])
    && (key in m ==> m[key].lastRefill <= now && without[key].lastRefill <= now
                     && (m[key] == without[key] || Refilled(cfg, without[key], m[key])))
  }

  /** Such maps answer the next call alike, and still differ at most so. */
  lemma SameAnswer(cfg: Config, m: Buckets, without: Buckets, key: string, was: real, e: Event)
    requires cfg.Valid() && SameButRefill(cfg, m, without, key, was) && was <= e.time
    ensures var (r, b) := Acquire(cfg, Lookup(m, e.key), e.cost, e.time);
      var (q, c) := Acquire(cfg, Lookup(without, e.key), e.cost, e.time);
      r == q && SameButRefill(cfg, Store(m, e.key, b), Store(without, e.key, c), key, e.time)
  {
    if key in m && m[key] != without[key] { RefillTwice(cfg, without[key], m[key].lastRefill, e.time); }
    assert e.key in m && e.key == key ==>
      Refill(cfg, Lookup(m, e.key), e.time) == Refill(cfg, Lookup(without, e.key), e.time);
  }

  /** A denied call does no more than refill its key's bucket. */
  lemma DenialOnlyRefills(cfg: Config, m: Buckets, e: Event)
    requires cfg.Valid() && !Grants(Acquire(cfg, Lookup(m, e.key), e.cost, e.time).0)
    requires forall k :: k in m ==> m[k].lastRefill <= e.time
    ensures SameButRefill(cfg, Store(m, e.key, Acquire(cfg, Lookup(m, e.key), e.cost, e.time).1), m, e.key, e.time)
  {
  }

  lemma {:induction false} RefilledBefore(cfg: Config, evs: seq<Event>, t: real)
    requires cfg.Valid() && Before(evs, t)
    ensures forall k :: k in Exec(cfg, evs) ==> Exec(cfg, evs)[k].lastRefill <= t
  {
    if evs != [] { RefilledBefore(cfg, evs[..|evs| - 1], t); }
  }

  /** The run with its `i`-th call left out. */
  function Omit(evs: seq<Event>, i: nat): seq<Event>
    requires i < |evs|
  {
    evs[..i] + evs[i + 1..]
  }

  ghost predicate OmittedAt(cfg: Config, evs: seq<Event>, i: nat, j: nat)
    requires cfg.Valid() && i < j <= |evs|
  {
    SameButRefill(cfg, At(cfg, evs, j), At(cfg, Omit(evs, i), j - 1), evs[i].key, evs[j - 1].time)
  }

  lemma OmittedFirst(cfg: Config, evs: seq<Event>, i: nat)
    requires cfg.Valid() && Timed(evs) && i < |evs| && !Grants(ReplyAt(cfg, evs, i))
    ensures OmittedAt(cfg, evs, i, i + 1)
  {
    AtStep(cfg, evs, i);
    assert Omit(evs, i)[..i] == evs[..i];
    RefilledBefore(cfg, evs[..i], evs[i].time);
    DenialOnlyRefills(cfg, At(cfg, evs, i), evs[i]);
  }

  lemma OmittedNext(cfg: Config, evs: seq<Event>, i: nat, j: nat)
    requires cfg.Valid() && Timed(evs) && i < j < |evs| && OmittedAt(cfg, evs, i, j)
    ensures OmittedAt(cfg, evs, i, j + 1)
  {
    var others := Omit(evs, i);
    assert others[j - 1] == evs[j];
    AtStep(cfg, evs, j);
    AtStep(cfg, others, j - 1);
    SameAnswer(cfg, At(cfg, evs, j), At(cfg, others, j - 1), evs[i].key, evs[j - 1].time, evs[j]);
  }

  lemma {:induction false} OmittedStates(cfg: Config, evs: seq<Event>, i: nat, j: nat)
    requires cfg.Valid() && Timed(evs) && i < j <= |evs| && !Grants(ReplyAt(cfg, evs, i))
    ensures OmittedAt(cfg, evs, i, j)
    decreases j
  {
    if j == i + 1 {
      OmittedFirst(cfg, evs, i);
    } else {
      OmittedStates(cfg, evs, i, j - 1);
      OmittedNext(cfg, evs, i, j - 1);
    }
  }

  /** Leaving a denied call out of a run changes no later reply. */
  lemma DenialsLeaveNoTrace(cfg: Config, evs: seq<Event>, i: nat, j: nat)
    requires cfg.Valid() && Timed(evs) && i < j < |evs| && !Grants(ReplyAt(cfg, evs, i))
    ensures ReplyAt(cfg, evs, j) == ReplyAt(cfg, Omit(evs, i), j - 1)
  {
    OmittedStates(cfg, evs, i, j);
    assert Omit(evs, i)[j - 1] == evs[j];
    SameAnswer(cfg, At(cfg, evs, j), At(cfg, Omit(evs, i), j - 1), evs[i].key, evs[j - 1].time, evs[j]);
  }

  // ----- What a reply says -----

  /** A cost below one is an error; one above the burst is denied for good; any other denial comes with a hint. */
  lemma RepliesByCost(cfg: Config, evs: seq<Event>, i: nat)
    requires cfg.Valid() && i < |evs|
    ensures var r := ReplyAt(cfg, evs, i);
      && (r == InvalidCost <==> evs[i].cost < 1)
      && (evs[i].cost > cfg.burst ==> r == Decided(Decision(false, 0, None)))
      && (1 <= evs[i].cost <= cfg.burst ==> r.Decided? && (r.decision.allowed <==> r.decision.retryAfterMs.None?))
  {
  }

  lemma FloorPays(left: real, cost: int)
    ensures left >= cost as real <==> left.Floor >= cost
  {
  }

  /** What a reply says remains is what the key can still spend at that instant, whole tokens and no more. */
  lemma RemainingIsSpendable(cfg: Config, evs: seq<Event>, i: nat, j: nat)
    requires cfg.Valid() && i < j < |evs| && 1 <= evs[i].cost <= cfg.burst && evs[j].cost >= 1
    requires evs[j].key == evs[i].key && evs[j].time == evs[i].time && forall k :: i < k < j ==> evs[k].key != evs[i].key
    ensures ReplyAt(cfg, evs, i).Decided?
    ensures Grants(ReplyAt(cfg, evs, j)) <==> evs[j].cost <= ReplyAt(cfg, evs, i).decision.remaining
  {
    var key := evs[i].key;
    AtStep(cfg, evs, i);
    Untouched(cfg, evs, key, i + 1, j);
    TokensBounded(cfg, evs[..i + 1], key);
    FloorPays(At(cfg, evs, i + 1)[key].tokens, evs[j].cost);
  }

  // ----- The retry hint is sufficient and tight -----

  /** Waiting `ms` refills the deficit exactly when `ms` reaches the unrounded hint. */
  lemma HintArithmetic(rate: real, deficit: real, wait: real)
    requires rate > 0.0
    ensures wait * rate >= deficit <==> wait * 1000.0 >= deficit / rate * 1000.0
  {
    var q := deficit / rate;
    assert q * rate == deficit;
    if wait >= q { assert (wait - q) * rate >= 0.0; } else { assert (q - wait) * rate > 0.0; }
  }

  /** The hint for a deficit against the wait until `now`. */
  lemma HintFitsWait(cfg: Config, b: Bucket, cost: int, now: real)
    requires cfg.Valid() && b.lastRefill <= now && b.tokens < cost as real <= cfg.burst as real
    ensures var hint, waited := RetryMs(cfg, cost as real - b.tokens), (now - b.lastRefill) * 1000.0;
      var refilled := Refill(cfg, Some(b), now).tokens;
      && (waited >= hint as real ==> refilled >= cost as real)
      && (hint > 1 && waited <= (hint - 1) as real ==> refilled < cost as real)
  {
    var deficit, wait := cost as real - b.tokens, now - b.lastRefill;
    HintArithmetic(cfg.rate, deficit, wait);
    var exact := deficit / cfg.rate * 1000.0;
    assert (CeilOf(exact) - 1) as real < exact <= CeilOf(exact) as real;
    assert Refill(cfg, Some(b), now).tokens == Min(cfg.burst as real, b.tokens + wait * cfg.rate);
  }

  /** No call on `key` from `i` on, up to `j`, is granted. */
  ghost predicate NoGrants(cfg: Config, evs: seq<Event>, key: string, i: nat, j: nat)
    requires cfg.Valid() && j <= |evs|
  {
    forall k :: i <= k < j && evs[k].key == key ==> !Grants(ReplyAt(cfg, evs, k))
  }

  /** With no grants in between, a bucket is only refilled. */
  lemma {:induction false} OnlyRefilled(cfg: Config, evs: seq<Event>, key: string, i: nat, j: nat, now: real)
    requires cfg.Valid() && Timed(evs) && i <= j <= |evs| && NoGrants(cfg, evs, key, i, j)
    requires key in At(cfg, evs, i) && forall k :: 0 <= k < j ==> evs[k].time <= now
    ensures key in At(cfg, evs, j)
    ensures Refill(cfg, Some(At(cfg, evs, j)[key]), now) == Refill(cfg, Some(At(cfg, evs, i)[key]), now)
    decreases j
  {
    if i < j {
      var m := j - 1;
      OnlyRefilled(cfg, evs, key, i, m, now);
      AtStep(cfg, evs, m);
      RefilledBefore(cfg, evs[..m], evs[m].time);
      if evs[m].key == key { RefillTwice(cfg, At(cfg, evs, m)[key], evs[m].time, now); }
    }
  }

  /**
   A denied call is told how long to wait.  With nothing granted to the key in between, the same cost is granted to
   anyone who waits that long, and still denied to anyone who waits a millisecond less or shorter.
   */
  lemma HintIsSufficientAndTight(cfg: Config, evs: seq<Event>, i: nat, j: nat)
    requires cfg.Valid() && Timed(evs) && i < j < |evs|
    requires evs[j].key == evs[i].key && evs[j].cost == evs[i].cost && NoGrants(cfg, evs, evs[i].key, i, j)
    requires var r := ReplyAt(cfg, evs, i); r.Decided? && !r.decision.allowed && r.decision.retryAfterMs.Some?
    ensures var hint := ReplyAt(cfg, evs, i).decision.retryAfterMs.value;
      var waited := (evs[j].time - evs[i].time) * 1000.0;
      && (waited >= hint as real ==> Grants(ReplyAt(cfg, evs, j)))
      && (hint > 1 && waited <= (hint - 1) as real ==> !Grants(ReplyAt(cfg, evs, j)))
  {
    var key, cost, now := evs[i].key, evs[i].cost, evs[j].time;
    AtStep(cfg, evs, i);
    var b := At(cfg, evs, i + 1)[key];
    OnlyRefilled(cfg, evs, key, i + 1, j, now);
    HintFitsWait(cfg, b, cost, now);
  }
}
