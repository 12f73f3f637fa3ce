/**
 The cross-replica token bucket: one script over a hash a key, in integer milliseconds of the callers' clock.  The
 hash lives for twice the time an empty bucket needs to fill, by the server's clock.
 */
module RedisTokenBucket {
  import opened Options
  import T = TokenBucket

  /** max(1, ceil(burst / rate * 2)) seconds, in milliseconds. */
  function TtlMs(cfg: T.Config): int
    requires cfg.Valid()
  {
    var sec := T.CeilOf(cfg.burst as real / cfg.rate * 2.0);
    1000 * (if sec < 1 then 1 else sec)
  }

  datatype Hash = Hash(tokens: real, lastMs: int, expiresAt: int)

  /** The three integers the script returns. */
  datatype Returned = Returned(allowed: int, remaining: int, retryMs: int)

  /** An expired key reads as missing. */
  function Live(stored: Option<Hash>, server: int): Option<Hash> {
    if stored.Some? && server >= stored.value.expiresAt then None else stored
  }

  /** The tokens at `now`: a missing hash is a full bucket. */
  function Filled(cfg: T.Config, hash: Option<Hash>, now: int): real {
    match hash
    case None => cfg.burst as real
    case Some(h) =>
      var elapsedMs := if now - h.lastMs > 0 then now - h.lastMs else 0;
      T.Min(cfg.burst as real, h.tokens + elapsedMs as real / 1000.0 * cfg.rate)
  }

  function Script(cfg: T.Config, stored: Option<Hash>, cost: int, now: int, server: int): (Returned, Option<Hash>)
    requires cfg.Valid()
  {
    var hash := Live(stored, server);
    if cost > cfg.burst then (Returned(0, 0, -1), hash)
    else
      var tokens := Filled(cfg, hash, now);
      var left := if tokens >= cost as real then tokens - cost as real else tokens;
      var retryMs := if tokens >= cost as real then 0 else T.RetryMs(cfg, cost as real - tokens);
      (Returned(if tokens >= cost as real then 1 else 0, left.Floor, retryMs),
       Some(Hash(left, now, server + TtlMs(cfg))))
  }

  /** What the client makes of the script's integers. */
  function Read(raw: Returned): T.Decision {
    T.Decision(raw.allowed != 0, raw.remaining, if raw.retryMs <= 0 then None else Some(raw.retryMs))
  }

  function Acquire(cfg: T.Config, stored: Option<Hash>, cost: int, now: int, server: int): (T.Reply, Option<Hash>)
    requires cfg.Valid()
  {
    if cost < 1 then (T.InvalidCost, stored)
    else
      var (raw, hash) := Script(cfg, stored, cost, now, server);
      (T.Decided(Read(raw)), hash)
  }

  type Hashes = map<string, Hash>

  function Lookup(hashes: Hashes, key: string): Option<Hash> {
    if key in hashes then Some(hashes[key]) else None
  }

  function Store(hashes: Hashes, key: string, hash: Option<Hash>): Hashes {
    if hash.Some? then hashes[key := hash.value] else hashes - {key}
  }

  /** The limiter's keys, with the script step by step. */
  class Keys {
    const cfg: T.Config
    var hashes: Hashes

    constructor (cfg: T.Config)
      requires cfg.Valid()
      ensures this.cfg == cfg && hashes == map[]
    {
      this.cfg := cfg;
      hashes := map[];
    }

    method DropExpired(key: string, server: int)
      modifies this
      ensures hashes == Store(old(hashes), key, Live(Lookup(old(hashes), key), server))
    {
      if key in hashes && server >= hashes[key].expiresAt { hashes := hashes - {key}; }
    }

    method Eval(key: string, cost: int, now: int, server: int) returns (raw: Returned)
      requires cfg.Valid()
      modifies this
      ensures raw == Script(cfg, Lookup(old(hashes), key), cost, now, server).0
      ensures hashes == Store(old(hashes), key, Script(cfg, Lookup(old(hashes), key), cost, now, server).1)
    {
      DropExpired(key, server);
      if cost > cfg.burst { return Returned(0, 0, -1); }
      var tokens := cfg.burst as real;
      if key in hashes {
        var elapsedMs := if now - hashes[key].lastMs > 0 then now - hashes[key].lastMs else 0;
        tokens := T.Min(cfg.burst as real, hashes[key].tokens + elapsedMs as real / 1000.0 * cfg.rate);
      }
      assert tokens == Filled(cfg, Lookup(hashes, key), now);
      var allowed, retryMs := 0, 0;
      if tokens >= cost as real {
        tokens := tokens - cost as real;
        allowed := 1;
      } else {
        retryMs := T.CeilOf((cost as real - tokens) / cfg.rate * 1000.0);
        if retryMs < 1 { retryMs := 1; }
      }
      hashes := hashes[key := Hash(tokens, now, server + TtlMs(cfg))];
      return Returned(allowed, tokens.Floor, retryMs);
    }

    method AcquireKey(key: string, cost: int, now: int, server: int) returns (reply: T.Reply)
      requires cfg.Valid()
      modifies this
      ensures reply == Acquire(cfg, Lookup(old(hashes), key), cost, now, server).0
      ensures hashes == Store(old(hashes), key, Acquire(cfg, Lookup(old(hashes), key), cost, now, server).1)
    {
      if cost < 1 { return T.InvalidCost; }
      var raw := Eval(key, cost, now, server);
      return T.Decided(Read(raw));
    }
  }

  // ----- Runs -----

  /** A call at `ms` by the callers' clock and `server` by the server's. */
  datatype Event = Event(key: string, cost: int, ms: int, server: int)

  function Exec(cfg: T.Config, evs: seq<Event>): Hashes
    requires cfg.Valid()
  {
    if evs == [] then map[]
    else
      var before, e := Exec(cfg, evs[..|evs| - 1]), evs[|evs| - 1];
      Store(before, e.key, Acquire(cfg, Lookup(before, e.key), e.cost, e.ms, e.server).1)
  }

  function At(cfg: T.Config, evs: seq<Event>, i: nat): Hashes
    requires cfg.Valid() && i <= |evs|
  {
    Exec(cfg, evs[..i])
  }

  function ReplyAt(cfg: T.Config, evs: seq<Event>, i: nat): T.Reply
    requires cfg.Valid() && i < |evs|
  {
    Acquire(cfg, Lookup(At(cfg, evs, i), evs[i].key), evs[i].cost, evs[i].ms, evs[i].server).0
  }

  lemma AtStep(cfg: T.Config, evs: seq<Event>, i: nat)
    requires cfg.Valid() && i < |evs|
    ensures var before, e := At(cfg, evs, i), evs[i];
      At(cfg, evs, i + 1) == Store(before, e.key, Acquire(cfg, Lookup(before, e.key), e.cost, e.ms, e.server).1)
  {
    assert evs[..i + 1][..i] == evs[..i];
  }

  // ----- The twin -----

  function Sec(ms: int): real {
    ms as real / 1000.0
  }

  /** The same calls as the in-process limiter sees them. */
  function InSeconds(evs: seq<Event>): seq<T.Event> {
    seq(|evs|, i requires 0 <= i < |evs| => T.Event(evs[i].key, evs[i].cost, Sec(evs[i].ms)))
  }

  /** When a call is made: its stamp by the callers' clock, and when the server runs its script. */
  datatype Instant = Instant(ms: int, server: int)

  function Times(evs: seq<Event>): seq<Instant> {
    seq(|evs|, i requires 0 <= i < |evs| => Instant(evs[i].ms, evs[i].server))
  }

  /** The server's clock does not go back.  Stamps may: a client reads its clock before its script gets to run. */
  ghost predicate Ticking(times: seq<Instant>) {
    forall i, j :: 0 <= i <= j < |times| ==> times[i].server <= times[j].server
  }

  /** A hash written at `i` has expired by `j`. */
  predicate Expires(cfg: T.Config, times: seq<Instant>, i: nat, j: nat)
    requires cfg.Valid() && i < |times| && j < |times|
  {
    times[j].server >= times[i].server + TtlMs(cfg)
  }

  /** From `i` to `j` the stamps give the time an empty bucket needs to fill. */
  predicate Fills(cfg: T.Config, times: seq<Instant>, i: nat, j: nat)
    requires cfg.Valid() && i < |times| && j < |times|
  {
    Sec(times[j].ms) - Sec(times[i].ms) >= cfg.burst as real / cfg.rate
  }

  /** No hash expires before the stamps would have filled its bucket. */
  ghost predicate Unhurried(cfg: T.Config, times: seq<Instant>)
    requires cfg.Valid()
  {
    forall i, j :: 0 <= i < j < |times| && Expires(cfg, times, i, j) ==> Fills(cfg, times, i, j)
  }

  /** The time to live, in whole seconds, is the least that covers twice the time an empty bucket needs to fill. */
  lemma TtlOutlasts(cfg: T.Config)
    requires cfg.Valid()
    ensures TtlMs(cfg) % 1000 == 0
    ensures TtlMs(cfg) as real - 1000.0 < 2000.0 * (cfg.burst as real / cfg.rate) <= TtlMs(cfg) as real
  {
    var twice := cfg.burst as real / cfg.rate * 2.0;
    assert T.CeilOf(twice) as real >= twice;
  }

  /** With stamps in order, as of one shared clock, and a server's clock at most twice as fast, none does. */
  lemma PacedIsUnhurried(cfg: T.Config, times: seq<Instant>)
    requires cfg.Valid()
    requires forall i, j :: 0 <= i <= j < |times| ==>
               times[j].server - times[i].server <= 2 * (times[j].ms - times[i].ms)
    ensures Unhurried(cfg, times)
  {
    TtlOutlasts(cfg);
    forall i, j | 0 <= i < j < |times| && Expires(cfg, times, i, j) ensures Fills(cfg, times, i, j) {
      assert 2 * (times[j].ms - times[i].ms) >= TtlMs(cfg);
    }
  }

  /**
   Before call `n` the hash holds what the bucket holds, written at `i`; a missing hash stands for a bucket that was
   last touched at an `i` whose hash has expired.
   */
  ghost predicate SameKey(cfg: T.Config, hash: Option<Hash>, bucket: Option<T.Bucket>, times: seq<Instant>, n: nat)
    requires cfg.Valid() && n <= |times|
  {
    match hash
    case None =>
      bucket.Some? ==>
        exists i, j :: 0 <= i < j < n && bucket.value.lastRefill == Sec(times[i].ms) && Expires(cfg, times, i, j)
    case Some(h) =>
      && bucket == Some(T.Bucket(h.tokens, Sec(h.lastMs)))
      && exists i :: 0 <= i < n && Written(cfg, h, times[i])
  }

  predicate Written(cfg: T.Config, h: Hash, at: Instant)
    requires cfg.Valid()
  {
    h.lastMs == at.ms && h.expiresAt == at.server + TtlMs(cfg)
  }

  /** Reading the hash through its expiry keeps the two in step. */
  lemma LiveIsSame(cfg: T.Config, hash: Option<Hash>, bucket: Option<T.Bucket>, times: seq<Instant>, n: nat)
    requires cfg.Valid() && n < |times| && SameKey(cfg, hash, bucket, times, n)
    ensures SameKey(cfg, Live(hash, times[n].server), bucket, times, n + 1)
  {
    if hash.Some? {
      var i :| 0 <= i < n && Written(cfg, hash.value, times[i]);
      if times[n].server >= hash.value.expiresAt { assert Expires(cfg, times, i, n); }
    } else if bucket.Some? {
      var i, j :| 0 <= i < j < n && bucket.value.lastRefill == Sec(times[i].ms) && Expires(cfg, times, i, j);
    }
  }

  /** A bucket that has had the time to fill refills to the full burst, like a new one. */
  lemma FilledIsFull(cfg: T.Config, b: T.Bucket, now: real)
    requires cfg.Valid() && T.Bounded(cfg, b) && now - b.lastRefill >= cfg.burst as real / cfg.rate
    ensures T.Refill(cfg, Some(b), now) == T.Refill(cfg, None, now)
  {
    var fill, elapsed := cfg.burst as real / cfg.rate, now - b.lastRefill;
    assert fill * cfg.rate == cfg.burst as real;
    T.Product(cfg.rate, fill, elapsed - fill, elapsed);
    assert fill > 0.0;
  }

  /** In step, the two refill alike. */
  lemma FilledIsRefill(cfg: T.Config, hash: Option<Hash>, bucket: Option<T.Bucket>, times: seq<Instant>, n: nat)
    requires cfg.Valid() && Ticking(times) && Unhurried(cfg, times) && n < |times|
    requires SameKey(cfg, hash, bucket, times, n + 1) && (bucket.Some? ==> T.Bounded(cfg, bucket.value))
    ensures T.Refill(cfg, bucket, Sec(times[n].ms)) == T.Bucket(Filled(cfg, hash, times[n].ms), Sec(times[n].ms))
  {
    if hash.None? && bucket.Some? {
      var i, j :| 0 <= i < j < n + 1 && bucket.value.lastRefill == Sec(times[i].ms) && Expires(cfg, times, i, j);
      assert Expires(cfg, times, i, n);
      FilledIsFull(cfg, bucket.value, Sec(times[n].ms));
    } else if hash.Some? {
      assert Sec(times[n].ms) - Sec(hash.value.lastMs) == (times[n].ms - hash.value.lastMs) as real / 1000.0;
    }
  }

  /** A longer past keeps a key in step. */
  lemma StillSame(cfg: T.Config, hash: Option<Hash>, bucket: Option<T.Bucket>, times: seq<Instant>, n: nat)
    requires cfg.Valid() && n < |times| && SameKey(cfg, hash, bucket, times, n)
    ensures SameKey(cfg, hash, bucket, times, n + 1)
  {
    if hash.None? && bucket.Some? {
      var i, j :| 0 <= i < j < n && bucket.value.lastRefill == Sec(times[i].ms) && Expires(cfg, times, i, j);
    }
  }

  /** One call, in step before it, gets one reply and is in step after it. */
  lemma CallIsSame(cfg: T.Config, hash: Option<Hash>, bucket: Option<T.Bucket>, times: seq<Instant>, n: nat, cost: int)
    requires cfg.Valid() && Ticking(times) && Unhurried(cfg, times) && n < |times|
    requires SameKey(cfg, hash, bucket, times, n) && (bucket.Some? ==> T.Bounded(cfg, bucket.value))
    ensures var (r, h) := Acquire(cfg, hash, cost, times[n].ms, times[n].server);
      var (q, b) := T.Acquire(cfg, bucket, cost, Sec(times[n].ms));
      r == q && SameKey(cfg, h, b, times, n + 1)
  {
    if cost < 1 {
      StillSame(cfg, hash, bucket, times, n);
    } else {
      LiveIsSame(cfg, hash, bucket, times, n);
      if cost <= cfg.burst {
        FilledIsRefill(cfg, Live(hash, times[n].server), bucket, times, n);
        var h := Acquire(cfg, hash, cost, times[n].ms, times[n].server).1;
        assert Written(cfg, h.value, times[n]);
      }
    }
  }

  /** Every key is in step after every prefix of a run. */
  lemma {:induction false} StaysSame(cfg: T.Config, evs: seq<Event>, n: nat, key: string)
    requires cfg.Valid() && Ticking(Times(evs)) && Unhurried(cfg, Times(evs)) && n <= |evs|
    ensures SameKey(cfg, Lookup(At(cfg, evs, n), key), T.Lookup(T.At(cfg, InSeconds(evs), n), key), Times(evs), n)
    decreases n
  {
    if n > 0 {
      var m, twin := n - 1, InSeconds(evs);
      StaysSame(cfg, evs, m, key);
      AtStep(cfg, evs, m);
      T.AtStep(cfg, twin, m);
      var hash, bucket := Lookup(At(cfg, evs, m), key), T.Lookup(T.At(cfg, twin, m), key);
      if evs[m].key == key {
        T.TokensBounded(cfg, twin[..m], key);
        CallIsSame(cfg, hash, bucket, Times(evs), m, evs[m].cost);
      } else {
        StillSame(cfg, hash, bucket, Times(evs), m);
      }
    }
  }

  /**
   Swapping the backend is not observable: over every run the script replies what the in-process limiter replies to the
   same stamps, in whatever order they come and expiry included, unless a hash expires too early.
   */
  lemma TwinsAgree(cfg: T.Config, evs: seq<Event>, j: nat)
    requires cfg.Valid() && Ticking(Times(evs)) && Unhurried(cfg, Times(evs)) && j < |evs|
    ensures ReplyAt(cfg, evs, j) == T.ReplyAt(cfg, InSeconds(evs), j)
  {
    var key, twin := evs[j].key, InSeconds(evs);
    StaysSame(cfg, evs, j, key);
    T.TokensBounded(cfg, twin[..j], key);
    CallIsSame(cfg, Lookup(At(cfg, evs, j), key), T.Lookup(T.At(cfg, twin, j), key), Times(evs), j, evs[j].cost);
  }

  // ----- The exact condition -----

  /** Calls on other keys leave a key's hash alone. */
  lemma {:induction false} Untouched(cfg: T.Config, evs: seq<Event>, key: string, i: nat, j: nat)
    requires cfg.Valid() && i <= j <= |evs| && forall k :: i <= k < j ==> evs[k].key != key
    ensures Lookup(At(cfg, evs, j), key) == Lookup(At(cfg, evs, i), key)
    decreases j
  {
    if i < j {
      Untouched(cfg, evs, key, i, j - 1);
      AtStep(cfg, evs, j - 1);
    }
  }

  /** Two calls for the whole burst, at `i` and `j`, and everything else on another key. */
  function Drain(cfg: T.Config, times: seq<Instant>, i: nat, j: nat): seq<Event> {
    seq(|times|, k requires 0 <= k < |times| =>
      Event(if k == i || k == j then "key" else "other", cfg.burst, times[k].ms, times[k].server))
  }

  lemma DrainedTwice(cfg: T.Config, times: seq<Instant>, i: nat, j: nat)
    requires cfg.Valid() && i < j < |times| && Expires(cfg, times, i, j)
    ensures T.Grants(ReplyAt(cfg, Drain(cfg, times, i, j), j))
  {
    var evs := Drain(cfg, times, i, j);
    Untouched(cfg, evs, "key", 0, i);
    AtStep(cfg, evs, i);
    Untouched(cfg, evs, "key", i + 1, j);
  }

  lemma DrainedOnce(cfg: T.Config, times: seq<Instant>, i: nat, j: nat)
    requires cfg.Valid() && i < j < |times| && !Fills(cfg, times, i, j)
    ensures !T.Grants(T.ReplyAt(cfg, InSeconds(Drain(cfg, times, i, j)), j))
  {
    var evs := InSeconds(Drain(cfg, times, i, j));
    T.Untouched(cfg, evs, "key", 0, i);
    T.AtStep(cfg, evs, i);
    T.Untouched(cfg, evs, "key", i + 1, j);
    EmptyIsShort(cfg, Sec(times[i].ms), Sec(times[j].ms));
  }

  lemma EmptyIsShort(cfg: T.Config, from: real, now: real)
    requires cfg.Valid() && now - from < cfg.burst as real / cfg.rate
    ensures T.Refill(cfg, Some(T.Bucket(0.0, from)), now).tokens < cfg.burst as real
  {
    var fill := cfg.burst as real / cfg.rate;
    assert fill * cfg.rate == cfg.burst as real;
    if now > from {
      var short := fill - (now - from);
      assert short * cfg.rate > 0.0;
      assert (now - from) * cfg.rate == fill * cfg.rate - short * cfg.rate;
    }
  }

  ghost predicate AgreeThroughout(cfg: T.Config, evs: seq<Event>)
    requires cfg.Valid()
  {
    forall j :: 0 <= j < |evs| ==> ReplyAt(cfg, evs, j) == T.ReplyAt(cfg, InSeconds(evs), j)
  }

  /** All runs at these instants get the same replies from both backends if and only if no hash expires too early. */
  lemma TwinsAgreeIffUnhurried(cfg: T.Config, times: seq<Instant>)
    requires cfg.Valid() && Ticking(times)
    ensures (forall evs :: Times(evs) == times ==> AgreeThroughout(cfg, evs)) <==> Unhurried(cfg, times)
  {
    if Unhurried(cfg, times) {
      forall evs | Times(evs) == times ensures AgreeThroughout(cfg, evs) {
        forall j | 0 <= j < |evs| ensures ReplyAt(cfg, evs, j) == T.ReplyAt(cfg, InSeconds(evs), j) {
          TwinsAgree(cfg, evs, j);
        }
      }
    } else {
      var i, j :| 0 <= i < j < |times| && Expires(cfg, times, i, j) && !Fills(cfg, times, i, j);
      DrainedTwice(cfg, times, i, j);
      DrainedOnce(cfg, times, i, j);
      assert Times(Drain(cfg, times, i, j)) == times;
    }
  }
}
