/**
 What the cross-replica rate limiter bounds when scripts run out of the order of their stamps.  A stamp that goes back
 resets the bucket's clock, and the way up again is refilled a second time.
 */
module StampOrder {
  import opened Options
  import T = TokenBucket
  import R = RedisTokenBucket

  // ----- Sums -----

  function Sum(f: nat -> int, i: nat, n: nat): int
    decreases n
  {
    if n <= i then 0 else Sum(f, i, n - 1) + f(n - 1)
  }

  lemma {:induction false} SumFromLeft(f: nat -> int, i: nat, n: nat)
    requires i < n
    ensures Sum(f, i, n) == f(i) + Sum(f, i + 1, n)
    decreases n
  {
    if i + 1 < n { SumFromLeft(f, i, n - 1); }
  }

  lemma {:induction false} SumBelow(f: nat -> int, g: nat -> int, i: nat, n: nat)
    requires forall k :: i <= k < n ==> f(k) <= g(k)
    ensures Sum(f, i, n) <= Sum(g, i, n)
    decreases n
  {
    if i < n { SumBelow(f, g, i, n - 1); }
  }

  lemma {:induction false} SumAtLeast(f: nat -> int, n: nat, i: nat, k: nat)
    requires i < k < n && forall j :: 0 <= j < n ==> f(j) >= 0
    ensures Sum(f, 0, n) >= f(i) + f(k)
    decreases n
  {
    if k < n - 1 { SumAtLeast(f, n - 1, i, k); } else { SumHolds(f, n - 1, i); }
  }

  lemma {:induction false} SumHolds(f: nat -> int, n: nat, i: nat)
    requires i < n && forall j :: 0 <= j < n ==> f(j) >= 0
    ensures Sum(f, 0, n) >= f(i) && Sum(f, 0, n - 1) >= 0
    decreases n
  {
    if n > 1 { SumHolds(f, n - 1, if i < n - 1 then i else 0); }
  }

  // ----- How far stamps climb -----

  function Rise(x: int, y: int): int {
    if y > x then y - x else 0
  }

  /** All the way up from call `i` to call `k`, however often the stamps fall back in between. */
  function Climb(times: seq<R.Instant>, i: nat, k: nat): int
    requires k < |times|
    decreases k
  {
    if k <= i then 0 else Climb(times, i, k - 1) + Rise(times[k - 1].ms, times[k].ms)
  }

  function Distance(x: int, y: int): int {
    if x <= y then y - x else x - y
  }

  /** No stretch of calls climbs further than its ends are apart. */
  ghost predicate Steady(times: seq<R.Instant>) {
    forall i, k :: 0 <= i <= k < |times| ==> Climb(times, i, k) <= Distance(times[i].ms, times[k].ms)
  }

  lemma {:induction false} ClimbCovers(times: seq<R.Instant>, i: nat, m: nat, k: nat)
    requires i <= m <= k < |times|
    ensures Climb(times, i, k) >= Climb(times, i, m) + Rise(times[m].ms, times[k].ms)
    decreases k
  {
    if m < k { ClimbCovers(times, i, m, k - 1); }
  }

  /** Stamps in order are steady. */
  lemma {:induction false} OrderedClimb(times: seq<R.Instant>, i: nat, k: nat)
    requires i <= k < |times| && forall a, b :: 0 <= a <= b < |times| ==> times[a].ms <= times[b].ms
    ensures Climb(times, i, k) == times[k].ms - times[i].ms
    decreases k
  {
    if i < k { OrderedClimb(times, i, k - 1); }
  }

  lemma OrderedIsSteady(times: seq<R.Instant>)
    requires forall a, b :: 0 <= a <= b < |times| ==> times[a].ms <= times[b].ms
    ensures Steady(times)
  {
    forall i, k | 0 <= i <= k < |times| ensures Climb(times, i, k) <= Distance(times[i].ms, times[k].ms) {
      OrderedClimb(times, i, k);
    }
  }

  // ----- What is granted is covered by the climb -----

  /** What call `k` was granted from the key's bucket by the in-process limiter. */
  function Paid(cfg: T.Config, evs: seq<R.Event>, key: string): nat -> int
    requires cfg.Valid()
  {
    (k: nat) => if k < |evs| && evs[k].key == key && T.Grants(T.ReplyAt(cfg, R.InSeconds(evs), k)) then evs[k].cost else 0
  }

  /** Milliseconds of climb in tokens. */
  function Worth(cfg: T.Config, ms: int): real {
    cfg.rate * R.Sec(ms)
  }

  lemma WorthAdds(cfg: T.Config, x: int, y: int)
    requires cfg.Valid() && y >= 0
    ensures Worth(cfg, x + y) == Worth(cfg, x) + Worth(cfg, y) && Worth(cfg, y) >= 0.0
  {
    T.Product(cfg.rate, R.Sec(x), R.Sec(y), R.Sec(x + y));
  }

  lemma WorthGrows(cfg: T.Config, x: int, y: int)
    requires cfg.Valid() && x <= y
    ensures Worth(cfg, x) <= Worth(cfg, y)
  {
    WorthAdds(cfg, x, y - x);
  }

  /**
   Before call `n` the key's bucket was last touched at `m`.  What was granted since `i` and what is left is covered by
   the burst and the climb from `i` to `m`; if it was touched only before `i`, nothing was granted since.
   */
  ghost predicate Funded(cfg: T.Config, times: seq<R.Instant>, bucket: Option<T.Bucket>, spent: int,
                         i: nat, m: int, n: nat)
    requires cfg.Valid() && n <= |times|
  {
    match bucket
    case None => spent == 0
    case Some(b) =>
      && 0 <= m < n && b.lastRefill == R.Sec(times[m].ms) && T.Bounded(cfg, b)
      && if m < i then spent == 0 else spent as real + b.tokens <= cfg.burst as real + Worth(cfg, Climb(times, i, m))
  }

  lemma RefillAddsRise(cfg: T.Config, b: T.Bucket, from: int, now: int)
    requires cfg.Valid() && b.lastRefill == R.Sec(from)
    ensures T.Refill(cfg, Some(b), R.Sec(now)).tokens
         == T.Min(cfg.burst as real, b.tokens + Worth(cfg, Rise(from, now)))
  {
    assert R.Sec(now) - R.Sec(from) == R.Sec(now - from);
    if now > from { assert R.Sec(now - from) > 0.0; }
  }

  /** The bucket, refilled for call `n`, is covered by the climb up to `n`. */
  lemma RefillFunded(cfg: T.Config, times: seq<R.Instant>, bucket: Option<T.Bucket>, spent: int, i: nat, m: int, n: nat)
    requires cfg.Valid() && i <= n < |times| && Funded(cfg, times, bucket, spent, i, m, n)
    ensures var full := T.Refill(cfg, bucket, R.Sec(times[n].ms));
      T.Bounded(cfg, full) && spent as real + full.tokens <= cfg.burst as real + Worth(cfg, Climb(times, i, n))
  {
    T.RefillBounded(cfg, bucket, R.Sec(times[n].ms));
    ClimbCovers(times, i, i, n);
    WorthAdds(cfg, 0, Climb(times, i, n));
    if bucket.Some? && m >= i {
      RefillAddsRise(cfg, bucket.value, times[m].ms, times[n].ms);
      ClimbCovers(times, i, m, n);
      WorthAdds(cfg, Climb(times, i, m), Rise(times[m].ms, times[n].ms));
      WorthGrows(cfg, Climb(times, i, m) + Rise(times[m].ms, times[n].ms), Climb(times, i, n));
    }
  }

  /** One call on the key keeps its bucket funded. */
  lemma CallFunded(cfg: T.Config, times: seq<R.Instant>, bucket: Option<T.Bucket>, spent: int, i: nat, m: int, n: nat,
                   cost: int)
      returns (at: int)
    requires cfg.Valid() && n < |times| && Funded(cfg, times, bucket, spent, i, m, n) && (n < i ==> spent == 0)
    ensures var (reply, after) := T.Acquire(cfg, bucket, cost, R.Sec(times[n].ms));
      Funded(cfg, times, after, if n < i then 0 else spent + (if T.Grants(reply) then cost else 0), i, at, n + 1)
  {
    if cost < 1 || cost > cfg.burst {
      at := m;
    } else {
      at := n;
      T.RefillBounded(cfg, bucket, R.Sec(times[n].ms));
      if i <= n { RefillFunded(cfg, times, bucket, spent, i, m, n); }
    }
  }

  lemma {:induction false} AlwaysFunded(cfg: T.Config, evs: seq<R.Event>, key: string, i: nat, n: nat) returns (m: int)
    requires cfg.Valid() && n <= |evs|
    ensures Funded(cfg, R.Times(evs), T.Lookup(T.At(cfg, R.InSeconds(evs), n), key), Sum(Paid(cfg, evs, key), i, n),
                   i, m, n)
    decreases n
  {
    if n == 0 {
      m := 0;
    } else {
      var j, twin := n - 1, R.InSeconds(evs);
      m := AlwaysFunded(cfg, evs, key, i, j);
      var bucket, spent := T.Lookup(T.At(cfg, twin, j), key), Sum(Paid(cfg, evs, key), i, j);
      T.AtStep(cfg, twin, j);
      if evs[j].key == key { m := CallFunded(cfg, R.Times(evs), bucket, spent, i, m, j, evs[j].cost); }
    }
  }

  /** From call `i` to call `k` no more is granted than the burst and the climb between them. */
  lemma SpentWithinClimb(cfg: T.Config, evs: seq<R.Event>, key: string, i: nat, k: nat)
    requires cfg.Valid() && i <= k < |evs|
    ensures Sum(Paid(cfg, evs, key), i, k + 1) as real <= cfg.burst as real + Worth(cfg, Climb(R.Times(evs), i, k))
  {
    var times := R.Times(evs);
    var m := AlwaysFunded(cfg, evs, key, i, k + 1);
    ClimbCovers(times, i, i, k);
    WorthAdds(cfg, 0, Climb(times, i, k));
    if T.Lookup(T.At(cfg, R.InSeconds(evs), k + 1), key).Some? && m >= i {
      ClimbCovers(times, i, m, k);
      WorthGrows(cfg, Climb(times, i, m), Climb(times, i, k));
    }
  }

  // ----- The bound by the stamps -----

  /** What the script granted the key at call `k`, if its stamp lies between `from` and `to`. */
  function GrantedAt(cfg: T.Config, evs: seq<R.Event>, key: string, from: int, to: int): nat -> int
    requires cfg.Valid()
  {
    (k: nat) =>
      if k < |evs| && evs[k].key == key && from <= evs[k].ms <= to && T.Grants(R.ReplyAt(cfg, evs, k)) then evs[k].cost
      else 0
  }

  function Granted(cfg: T.Config, evs: seq<R.Event>, key: string, from: int, to: int): int
    requires cfg.Valid()
  {
    Sum(GrantedAt(cfg, evs, key, from, to), 0, |evs|)
  }

  /** No key is granted more between two stamps than the burst and what the time between them is worth. */
  ghost predicate RateKept(cfg: T.Config, evs: seq<R.Event>)
    requires cfg.Valid()
  {
    forall key, from, to :: from <= to ==>
                              Granted(cfg, evs, key, from, to) as real <= cfg.burst as real + Worth(cfg, to - from)
  }

  /** Clocks under which the script replies as the in-process limiter does. */
  ghost predicate Sound(cfg: T.Config, times: seq<R.Instant>)
    requires cfg.Valid()
  {
    R.Ticking(times) && R.Unhurried(cfg, times)
  }

  /** A bound on the stretches that begin and end with something holds of all. */
  lemma {:induction false} TrimmedBound(f: nat -> int, i: nat, n: nat, bound: real)
    requires bound >= 0.0
    requires forall a, b :: i <= a < b <= n && f(a) != 0 && f(b - 1) != 0 ==> Sum(f, a, b) as real <= bound
    ensures Sum(f, i, n) as real <= bound
    decreases n - i
  {
    if i < n {
      if f(i) == 0 {
        SumFromLeft(f, i, n);
        TrimmedBound(f, i + 1, n, bound);
      } else if f(n - 1) == 0 {
        TrimmedBound(f, i, n - 1, bound);
      }
    }
  }

  /** A stretch that begins and ends inside the window. */
  lemma StretchIsBounded(cfg: T.Config, evs: seq<R.Event>, key: string, from: int, to: int, i: nat, n: nat)
    requires cfg.Valid() && Sound(cfg, R.Times(evs)) && Steady(R.Times(evs)) && i < n <= |evs|
    requires from <= evs[i].ms <= to && from <= evs[n - 1].ms <= to
    ensures Sum(GrantedAt(cfg, evs, key, from, to), i, n) as real <= cfg.burst as real + Worth(cfg, to - from)
  {
    var times := R.Times(evs);
    GrantedIsPaid(cfg, evs, key, from, to, i, n);
    SpentWithinClimb(cfg, evs, key, i, n - 1);
    assert Climb(times, i, n - 1) <= Distance(times[i].ms, times[n - 1].ms) <= to - from;
    WorthGrows(cfg, Climb(times, i, n - 1), to - from);
  }

  lemma GrantedIsPaid(cfg: T.Config, evs: seq<R.Event>, key: string, from: int, to: int, i: nat, n: nat)
    requires cfg.Valid() && Sound(cfg, R.Times(evs)) && i <= n <= |evs|
    ensures Sum(GrantedAt(cfg, evs, key, from, to), i, n) <= Sum(Paid(cfg, evs, key), i, n)
  {
    var f, g := GrantedAt(cfg, evs, key, from, to), Paid(cfg, evs, key);
    forall k | i <= k < n ensures f(k) <= g(k) { R.TwinsAgree(cfg, evs, k); }
    SumBelow(f, g, i, n);
  }

  /** Steady stamps keep the rate; stamps in order are steady. */
  lemma SteadyKeepsRate(cfg: T.Config, evs: seq<R.Event>)
    requires cfg.Valid() && Sound(cfg, R.Times(evs)) && Steady(R.Times(evs))
    ensures RateKept(cfg, evs)
  {
    forall key, from, to | from <= to
      ensures Granted(cfg, evs, key, from, to) as real <= cfg.burst as real + Worth(cfg, to - from)
    {
      var f, bound := GrantedAt(cfg, evs, key, from, to), cfg.burst as real + Worth(cfg, to - from);
      WorthAdds(cfg, 0, to - from);
      forall a, b | 0 <= a < b <= |evs| && f(a) != 0 && f(b - 1) != 0 ensures Sum(f, a, b) as real <= bound {
        StretchIsBounded(cfg, evs, key, from, to, a, b);
      }
      TrimmedBound(f, 0, |evs|, bound);
    }
  }

  // ----- Stamps that climb too far -----

  /** A token a millisecond, and a burst that no climb fills and no time to live outruns. */
  function Wide(times: seq<R.Instant>, i: nat, k: nat): T.Config
    requires i < k < |times|
  {
    T.Config(1000.0, 1 + Climb(times, i, k) + Distance(times[0].server, times[|times| - 1].server))
  }

  lemma {:induction false} ClimbIsUp(times: seq<R.Instant>, i: nat, k: nat)
    requires k < |times|
    ensures Climb(times, i, k) >= 0
    decreases k
  {
    if i < k { ClimbIsUp(times, i, k - 1); }
  }

  lemma WideIsSound(times: seq<R.Instant>, i: nat, k: nat)
    requires R.Ticking(times) && i < k < |times|
    ensures Wide(times, i, k).Valid() && Sound(Wide(times, i, k), times)
  {
    var cfg := Wide(times, i, k);
    ClimbIsUp(times, i, k);
    R.TtlOutlasts(cfg);
    assert 2000.0 * (cfg.burst as real / cfg.rate) == 2.0 * cfg.burst as real;
    forall a, b | 0 <= a < b < |times| ensures !R.Expires(cfg, times, a, b) {
      assert times[0].server <= times[a].server && times[b].server <= times[|times| - 1].server;
    }
  }

  /** The whole burst at `i`, then calls it cannot pay until `k` asks for all that was refilled on the way. */
  function Greedy(times: seq<R.Instant>, i: nat, k: nat): seq<R.Event>
    requires i < k < |times|
  {
    var cfg := Wide(times, i, k);
    seq(|times|, j requires 0 <= j < |times| =>
      R.Event(if i <= j <= k then "key" else "other", if j == k then Climb(times, i, k) else cfg.burst,
              times[j].ms, times[j].server))
  }

  lemma GreedyCall(cfg: T.Config, tokens: int, from: int, now: int)
    requires cfg.Valid() && cfg.rate == 1000.0 && 0 <= tokens && tokens + Rise(from, now) <= cfg.burst
    ensures T.Refill(cfg, Some(T.Bucket(tokens as real, R.Sec(from))), R.Sec(now))
         == T.Bucket((tokens + Rise(from, now)) as real, R.Sec(now))
  {
    RefillAddsRise(cfg, T.Bucket(tokens as real, R.Sec(from)), from, now);
    assert Worth(cfg, Rise(from, now)) == Rise(from, now) as real;
  }

  /** A call for the whole burst on a bucket that does not hold it only refills. */
  lemma GreedyDenied(cfg: T.Config, tokens: int, from: int, now: int)
    requires cfg.Valid() && cfg.rate == 1000.0 && 0 <= tokens && tokens + Rise(from, now) < cfg.burst
    ensures T.Acquire(cfg, Some(T.Bucket(tokens as real, R.Sec(from))), cfg.burst, R.Sec(now)).1
         == Some(T.Bucket((tokens + Rise(from, now)) as real, R.Sec(now)))
  {
    GreedyCall(cfg, tokens, from, now);
  }

  lemma GreedyFirst(times: seq<R.Instant>, i: nat, k: nat)
    requires R.Ticking(times) && i < k < |times| && Wide(times, i, k).Valid()
    ensures var cfg, twin := Wide(times, i, k), R.InSeconds(Greedy(times, i, k));
      && T.Grants(T.ReplyAt(cfg, twin, i))
      && T.Lookup(T.At(cfg, twin, i + 1), "key") == Some(T.Bucket(0.0, R.Sec(times[i].ms)))
  {
    var cfg, twin := Wide(times, i, k), R.InSeconds(Greedy(times, i, k));
    T.Untouched(cfg, twin, "key", 0, i);
    T.AtStep(cfg, twin, i);
  }

  ghost predicate HoldsClimb(times: seq<R.Instant>, i: nat, k: nat, j: nat)
    requires i <= j < k < |times| && Wide(times, i, k).Valid()
  {
    T.Lookup(T.At(Wide(times, i, k), R.InSeconds(Greedy(times, i, k)), j + 1), "key")
    == Some(T.Bucket(Climb(times, i, j) as real, R.Sec(times[j].ms)))
  }

  lemma ClimbStaysBelow(times: seq<R.Instant>, i: nat, j: nat, k: nat)
    requires i < j < k < |times|
    ensures var climb := Climb(times, i, j - 1);
      0 <= climb && climb + Rise(times[j - 1].ms, times[j].ms) < Wide(times, i, k).burst
  {
    ClimbIsUp(times, i, j - 1);
    ClimbCovers(times, i, j, k);
  }

  lemma GreedyNext(times: seq<R.Instant>, i: nat, k: nat, j: nat)
    requires i < j < k < |times| && Wide(times, i, k).Valid() && HoldsClimb(times, i, k, j - 1)
    ensures HoldsClimb(times, i, k, j)
  {
    var cfg, twin := Wide(times, i, k), R.InSeconds(Greedy(times, i, k));
    assert twin[j] == T.Event("key", cfg.burst, R.Sec(times[j].ms));
    T.AtStep(cfg, twin, j);
    ClimbStaysBelow(times, i, j, k);
    GreedyDenied(cfg, Climb(times, i, j - 1), times[j - 1].ms, times[j].ms);
  }

  /** Between `i` and `k` the bucket holds the climb so far. */
  lemma {:induction false} GreedyHolds(times: seq<R.Instant>, i: nat, k: nat, j: nat)
    requires R.Ticking(times) && i <= j < k < |times| && Wide(times, i, k).Valid()
    ensures HoldsClimb(times, i, k, j)
    decreases j
  {
    if j == i {
      GreedyFirst(times, i, k);
    } else {
      GreedyHolds(times, i, k, j - 1);
      GreedyNext(times, i, k, j);
    }
  }

  lemma GreedyLast(times: seq<R.Instant>, i: nat, k: nat)
    requires R.Ticking(times) && i < k < |times| && Wide(times, i, k).Valid() && Climb(times, i, k) >= 1
    ensures T.Grants(T.ReplyAt(Wide(times, i, k), R.InSeconds(Greedy(times, i, k)), k))
  {
    var cfg := Wide(times, i, k);
    GreedyHolds(times, i, k, k - 1);
    ClimbIsUp(times, i, k - 1);
    GreedyCall(cfg, Climb(times, i, k - 1), times[k - 1].ms, times[k].ms);
  }

  /** The script grants the burst at `i` and the climb at `k`. */
  lemma GreedyGrants(times: seq<R.Instant>, i: nat, k: nat, from: int, to: int)
    requires R.Ticking(times) && i < k < |times| && Climb(times, i, k) >= 1
    requires from <= times[i].ms <= to && from <= times[k].ms <= to
    ensures Wide(times, i, k).Valid()
    ensures var cfg := Wide(times, i, k);
      Granted(cfg, Greedy(times, i, k), "key", from, to) >= cfg.burst + Climb(times, i, k)
  {
    var cfg, evs := Wide(times, i, k), Greedy(times, i, k);
    WideIsSound(times, i, k);
    assert R.Times(evs) == times;
    GreedyFirst(times, i, k);
    GreedyLast(times, i, k);
    R.TwinsAgree(cfg, evs, i);
    R.TwinsAgree(cfg, evs, k);
    var f := GrantedAt(cfg, evs, "key", from, to);
    assert f(i) == cfg.burst && f(k) == Climb(times, i, k);
    SumAtLeast(f, |evs|, i, k);
  }

  lemma OverclimbBreaksRate(times: seq<R.Instant>, i: nat, k: nat)
    requires R.Ticking(times) && i < k < |times| && Climb(times, i, k) > Distance(times[i].ms, times[k].ms)
    ensures Wide(times, i, k).Valid() && Sound(Wide(times, i, k), times)
    ensures R.Times(Greedy(times, i, k)) == times && !RateKept(Wide(times, i, k), Greedy(times, i, k))
  {
    var cfg, evs := Wide(times, i, k), Greedy(times, i, k);
    var a, b := times[i].ms, times[k].ms;
    var from, to := if a <= b then a else b, if a <= b then b else a;
    WideIsSound(times, i, k);
    GreedyGrants(times, i, k, from, to);
    assert Worth(cfg, to - from) == (to - from) as real;
    assert Granted(cfg, evs, "key", from, to) as real > cfg.burst as real + Worth(cfg, to - from);
  }

  /** Every run at these instants keeps every configured rate if and only if the stamps are steady. */
  lemma RateKeptIffSteady(times: seq<R.Instant>)
    requires R.Ticking(times)
    ensures (forall cfg: T.Config, evs :: cfg.Valid() && Sound(cfg, times) && R.Times(evs) == times ==> RateKept(cfg, evs))
       <==> Steady(times)
  {
    if Steady(times) {
      forall cfg: T.Config, evs | cfg.Valid() && Sound(cfg, times) && R.Times(evs) == times ensures RateKept(cfg, evs) {
        SteadyKeepsRate(cfg, evs);
      }
    } else {
      var i, k :| 0 <= i <= k < |times| && Climb(times, i, k) > Distance(times[i].ms, times[k].ms);
      OverclimbBreaksRate(times, i, k);
    }
  }

  /** Two clients whose scripts overtake each other: the second between 1000 and 2000 ms is paid for twice. */
  lemma OvertakingScriptsBreakRate()
    ensures exists times, cfg: T.Config, evs ::
              cfg.Valid() && Sound(cfg, times) && R.Times(evs) == times && |times| == 4 && !RateKept(cfg, evs)
  {
    var times := [R.Instant(1000, 2000), R.Instant(2000, 2001), R.Instant(1000, 2002), R.Instant(2000, 2003)];
    assert Climb(times, 1, 3) == 1000 by {
      assert Climb(times, 1, 1) == 0 && Climb(times, 1, 2) == 0;
    }
    OverclimbBreaksRate(times, 1, 3);
    assert |times| == 4;
  }
}
