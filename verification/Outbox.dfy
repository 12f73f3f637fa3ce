/**
 The transactional outbox: the table and its statements, one dispatcher that claims, publishes and marks, and the runs
 of that dispatcher with producers beside it and crashes anywhere.
 */
module Outbox {
  import opened Options

  datatype Config = Config(batchSize: nat, maxAttempts: int, baseBackoff: int, maxBackoff: int)

  datatype Status = Pending | Dispatched | Failed

  datatype Row = Row(
    tenant: string, idempotencyKey: string, createdAt: int,
    status: Status, attempts: nat, nextAttempt: Option<int>, dispatchedAt: Option<int>)

  type Rows = map<string, Row>

  /** What the dispatcher keeps of a claimed row. */
  datatype Claim = Claim(id: string, attempts: nat)

  // ----- Statements -----

  predicate KeyTaken(rows: Rows, tenant: string, key: string) {
    exists id :: id in rows && rows[id].tenant == tenant && rows[id].idempotencyKey == key
  }

  /** No row of the tenant has the key. */
  ghost predicate Free(rows: Rows, tenant: string, key: string) {
    forall id :: id in rows && rows[id].tenant == tenant ==> rows[id].idempotencyKey != key
  }

  /** What a producer hands in. */
  datatype Event = Event(id: string, tenant: string, idempotencyKey: string, createdAt: int,
                         status: Status, attempts: nat, dispatchedAt: Option<int>)

  /** As every producer builds it, with the defaults of the event model. */
  function NewEvent(id: string, tenant: string, key: string, now: int): Event {
    Event(id, tenant, key, now, Pending, 0, None)
  }

  /** The row is due from its creation on. */
  function RowOf(e: Event): Row {
    Row(e.tenant, e.idempotencyKey, e.createdAt, e.status, e.attempts, Some(e.createdAt), e.dispatchedAt)
  }

  function Insert(rows: Rows, e: Event): Rows {
    if e.id in rows || KeyTaken(rows, e.tenant, e.idempotencyKey) then rows else rows[e.id := RowOf(e)]
  }

  predicate Due(row: Row, now: int) {
    row.status == Pending && (row.nextAttempt.Some? ==> row.nextAttempt.value <= now)
  }

  function MarkDispatched(rows: Rows, id: string, now: int): Rows {
    if id !in rows then rows
    else rows[id := rows[id].(status := Dispatched, dispatchedAt := Some(now))]
  }

  function MarkFailed(rows: Rows, id: string, nextAttempt: Option<int>, terminal: bool): Rows {
    if id !in rows then rows
    else rows[id := rows[id].(status := if terminal then Failed else Pending,
                              attempts := rows[id].attempts + 1, nextAttempt := nextAttempt)]
  }

  /**
   The claimed batch: due rows, each once, oldest first; a due row is left out only when the batch is full and
   nothing on it is younger.
   */
  ghost predicate IsBatch(rows: Rows, batch: seq<Claim>, size: nat, now: int) {
    && |batch| <= size && Distinct(batch)
    && (forall c :: c in batch ==> c.id in rows && Due(rows[c.id], now) && c.attempts == rows[c.id].attempts)
    && OldestFirst(rows, batch)
    && (forall id :: id in rows && Due(rows[id], now) && !Claims(batch, id) ==> |batch| == size && Younger(rows, batch, id))
  }

  ghost predicate Distinct(batch: seq<Claim>) {
    forall i, j :: 0 <= i < j < |batch| ==> batch[i].id != batch[j].id
  }

  ghost predicate Claims(batch: seq<Claim>, id: string) {
    exists c :: c in batch && c.id == id
  }

  ghost predicate OldestFirst(rows: Rows, batch: seq<Claim>)
    requires forall c :: c in batch ==> c.id in rows
  {
    forall i, j :: 0 <= i < j < |batch| ==> rows[batch[i].id].createdAt <= rows[batch[j].id].createdAt
  }

  ghost predicate Younger(rows: Rows, batch: seq<Claim>, id: string)
    requires id in rows && forall c :: c in batch ==> c.id in rows
  {
    forall c :: c in batch ==> rows[c.id].createdAt <= rows[id].createdAt
  }

  // ----- Settling one claimed row -----

  function Pow2(n: nat): int {
    if n == 0 then 1 else 2 * Pow2(n - 1)
  }

  /** min(base * 2^attempts, max) */
  function Backoff(cfg: Config, attempts: nat): int {
    var delay := cfg.baseBackoff * Pow2(attempts);
    if delay <= cfg.maxBackoff then delay else cfg.maxBackoff
  }

  function Least(a: int, b: int): int {
    if a <= b then a else b
  }

  lemma {:induction false} Pow2IsPositive(n: nat)
    ensures Pow2(n) >= 1
  {
    if n > 0 { Pow2IsPositive(n - 1); }
  }

  /** The first wait is the base, and each next one twice the last, up to the maximum and no further. */
  lemma BackoffDoubles(cfg: Config, attempts: nat)
    requires 0 <= cfg.baseBackoff
    ensures Backoff(cfg, 0) == Least(cfg.baseBackoff, cfg.maxBackoff)
    ensures Backoff(cfg, attempts + 1) == if Backoff(cfg, attempts) == cfg.maxBackoff then cfg.maxBackoff
                                          else Least(2 * Backoff(cfg, attempts), cfg.maxBackoff)
  {
    Pow2IsPositive(attempts);
    assert cfg.baseBackoff * Pow2(attempts + 1) == 2 * (cfg.baseBackoff * Pow2(attempts));
    assert cfg.baseBackoff * Pow2(attempts) >= 0;
  }

  predicate LastTry(cfg: Config, attempts: nat) {
    attempts + 1 >= cfg.maxAttempts
  }

  function Settle(cfg: Config, rows: Rows, claim: Claim, ok: bool, now: int): Rows {
    if ok then MarkDispatched(rows, claim.id, now)
    else if LastTry(cfg, claim.attempts) then MarkFailed(rows, claim.id, None, true)
    else MarkFailed(rows, claim.id, Some(now + Backoff(cfg, claim.attempts)), false)
  }

  /** A whole batch, its `k`-th publish ending as `outcomes(k)` and marked at `clock(k)`. */
  function SettleAll(cfg: Config, rows: Rows, batch: seq<Claim>, outcomes: nat -> bool, clock: nat -> int): Rows {
    if batch == [] then rows
    else
      var n := |batch| - 1;
      Settle(cfg, SettleAll(cfg, rows, batch[..n], outcomes, clock), batch[n], outcomes(n), clock(n))
  }

  // ----- The table and its dispatcher -----

  /** Puts a claim behind the older ones. */
  function InsertByAge(rows: Rows, c: Claim, batch: seq<Claim>): seq<Claim>
    requires c.id in rows && forall b :: b in batch ==> b.id in rows
  {
    if batch == [] || rows[c.id].createdAt < rows[batch[0].id].createdAt then [c] + batch
    else [batch[0]] + InsertByAge(rows, c, batch[1..])
  }

  /** A claim no younger than the rest goes in front of it. */
  lemma OldestInFront(rows: Rows, c: Claim, rest: seq<Claim>)
    requires c.id in rows && forall b :: b in rest ==> b.id in rows
    requires Distinct(rest) && OldestFirst(rows, rest)
    requires forall b :: b in rest ==> b.id != c.id && rows[c.id].createdAt <= rows[b.id].createdAt
    ensures Distinct([c] + rest) && OldestFirst(rows, [c] + rest)
  {
  }

  lemma OldestComesOff(rows: Rows, batch: seq<Claim>)
    requires batch != [] && (forall b :: b in batch ==> b.id in rows) && Distinct(batch) && OldestFirst(rows, batch)
    ensures Distinct(batch[1..]) && OldestFirst(rows, batch[1..])
    ensures forall b :: b in batch[1..] ==>
                          b.id != batch[0].id && rows[batch[0].id].createdAt <= rows[b.id].createdAt
  {
    forall b | b in batch[1..] ensures b.id != batch[0].id && rows[batch[0].id].createdAt <= rows[b.id].createdAt {
      var k :| 0 <= k < |batch[1..]| && batch[1..][k] == b;
      assert batch[k + 1] == b;
    }
  }

  lemma {:induction false} InsertKeepsAge(rows: Rows, c: Claim, batch: seq<Claim>)
    requires c.id in rows && forall b :: b in batch ==> b.id in rows
    requires Distinct(batch) && !Claims(batch, c.id) && OldestFirst(rows, batch)
    ensures var after := InsertByAge(rows, c, batch);
      && (forall b :: b in after <==> b in batch || b == c)
      && Distinct(after) && OldestFirst(rows, after)
  {
    if batch != [] {
      var head, rest := batch[0], batch[1..];
      assert batch == [head] + rest && head in batch;
      OldestComesOff(rows, batch);
      if rows[c.id].createdAt < rows[head.id].createdAt {
        OldestInFront(rows, c, batch);
      } else {
        assert !Claims(rest, c.id);
        InsertKeepsAge(rows, c, rest);
        OldestInFront(rows, head, InsertByAge(rows, c, rest));
      }
    }
  }

  /** What a cut leaves out is no older than what it keeps. */
  lemma CutKeepsOldest(rows: Rows, all: seq<Claim>, size: nat, id: string)
    requires size <= |all| && (forall c :: c in all ==> c.id in rows) && OldestFirst(rows, all)
    requires Claims(all, id) && !Claims(all[..size], id)
    ensures Younger(rows, all[..size], id)
  {
    var c :| c in all && c.id == id;
    var k :| 0 <= k < |all| && all[k] == c;
    assert k >= size by {
      assert forall m :: 0 <= m < size ==> all[m] in all[..size];
    }
    forall b | b in all[..size] ensures rows[b.id].createdAt <= rows[id].createdAt {
      var m :| 0 <= m < size && all[m] == b;
    }
  }

  /** Cutting the due rows, oldest first, to the batch size is a claim. */
  lemma CutIsBatch(rows: Rows, all: seq<Claim>, size: nat, now: int)
    requires Distinct(all) && (forall c :: c in all ==> c.id in rows) && OldestFirst(rows, all)
    requires forall c :: c in all ==> Due(rows[c.id], now) && c.attempts == rows[c.id].attempts
    requires forall id :: id in rows && Due(rows[id], now) ==> Claims(all, id)
    ensures IsBatch(rows, if |all| <= size then all else all[..size], size, now)
  {
    if |all| > size {
      forall id | id in rows && Due(rows[id], now) && !Claims(all[..size], id) ensures Younger(rows, all[..size], id) {
        CutKeepsOldest(rows, all, size, id);
      }
    }
  }

  class OutboxRepository {
    var rows: Rows

    constructor ()
      ensures rows == map[]
    {
      rows := map[];
    }

    /** INSERT; refused when the identifier or the tenant's idempotency key is taken. */
    method Enqueue(event: Event) returns (ok: bool)
      modifies this
      ensures rows == Insert(old(rows), event)
      ensures ok <==> event.id !in old(rows) && Free(old(rows), event.tenant, event.idempotencyKey)
    {
      ok := event.id !in rows && !KeyTaken(rows, event.tenant, event.idempotencyKey);
      if ok {
        rows := rows[event.id := Row(event.tenant, event.idempotencyKey, event.createdAt, event.status, event.attempts,
                                     Some(event.createdAt), event.dispatchedAt)];
      }
    }

    /** The claim query; rows of one age come in any order. */
    method ClaimPending(size: nat, now: int) returns (batch: seq<Claim>)
      ensures IsBatch(rows, batch, size, now)
    {
      var left := rows.Keys;
      batch := [];
      while left != {}
        invariant left <= rows.Keys
        invariant Distinct(batch) && (forall c :: c in batch ==> c.id in rows && c.id !in left)
        invariant OldestFirst(rows, batch)
        invariant forall c :: c in batch ==> Due(rows[c.id], now) && c.attempts == rows[c.id].attempts
        invariant forall id :: id in rows && id !in left && Due(rows[id], now) ==> Claims(batch, id)
        decreases |left|
      {
        var id :| id in left;
        left := left - {id};
        if Due(rows[id], now) {
          var c := Claim(id, rows[id].attempts);
          InsertKeepsAge(rows, c, batch);
          ghost var was := batch;
          batch := InsertByAge(rows, c, batch);
          assert c in batch && forall b :: b in was ==> b in batch;
        }
      }
      CutIsBatch(rows, batch, size, now);
      if |batch| > size { batch := batch[..size]; }
    }

    method Dispatched(id: string, now: int)
      modifies this
      ensures rows == MarkDispatched(old(rows), id, now)
    {
      if id in rows { rows := rows[id := rows[id].(status := Status.Dispatched, dispatchedAt := Some(now))]; }
    }

    method Failed(id: string, nextAttempt: Option<int>, terminal: bool)
      modifies this
      ensures rows == MarkFailed(old(rows), id, nextAttempt, terminal)
    {
      if id in rows {
        var status := if terminal then Status.Failed else Pending;
        rows := rows[id := rows[id].(status := status, attempts := rows[id].attempts + 1, nextAttempt := nextAttempt)];
      }
    }
  }

  /** The failure path: the budget and the delay come from the claimed row, not the stored one. */
  method HandleFailure(repo: OutboxRepository, cfg: Config, claim: Claim, now: int)
    modifies repo
    ensures repo.rows == Settle(cfg, old(repo.rows), claim, false, now)
  {
    var nextAttempt := claim.attempts + 1;
    var terminal := nextAttempt >= cfg.maxAttempts;
    if terminal {
      repo.Failed(claim.id, None, true);
    } else {
      var delay := cfg.baseBackoff * Pow2(claim.attempts);
      if delay > cfg.maxBackoff { delay := cfg.maxBackoff; }
      repo.Failed(claim.id, Some(now + delay), false);
    }
  }

  /** Drains one batch; `outcomes` and `clock` answer for the publisher and the time of each mark. */
  method RunOnce(repo: OutboxRepository, cfg: Config, now: int, outcomes: nat -> bool, clock: nat -> int)
    returns (drained: nat, ghost batch: seq<Claim>)
    modifies repo
    ensures IsBatch(old(repo.rows), batch, cfg.batchSize, now) && drained == |batch|
    ensures repo.rows == SettleAll(cfg, old(repo.rows), batch, outcomes, clock)
  {
    var events := repo.ClaimPending(cfg.batchSize, now);
    batch := events;
    for i := 0 to |events|
      invariant repo.rows == SettleAll(cfg, old(repo.rows), events[..i], outcomes, clock)
    {
      assert events[..i + 1][..i] == events[..i];
      if outcomes(i) {
        repo.Dispatched(events[i].id, clock(i));
      } else {
        HandleFailure(repo, cfg, events[i], clock(i));
      }
    }
    assert events[..|events|] == events;
    return |events|, batch;
  }

  // ----- Runs -----

  datatype Delivery = Delivery(id: string, ok: bool)

  datatype Phase =
    | Draining(batch: seq<Claim>)
    | Publishing(claim: Claim, ok: bool, rest: seq<Claim>)

  /** The table, what the dispatcher is doing, and every publish so far with its outcome. */
  datatype System = System(rows: Rows, phase: Phase, published: seq<Delivery>)

  datatype Action =
    | Produce(id: string, tenant: string, key: string, now: int)
    | ClaimBatch(batch: seq<Claim>, now: int)
    | Publish(ok: bool, now: int)
    | Mark(now: int)
    | Crash(now: int)

  const START := System(map[], Draining([]), [])

  /** An action that is not enabled leaves the system as it is. */
  ghost function Next(cfg: Config, s: System, a: Action): System {
    match a
    case Produce(id, tenant, key, now) => s.(rows := Insert(s.rows, NewEvent(id, tenant, key, now)))
    case ClaimBatch(batch, now) =>
      if s.phase == Draining([]) && IsBatch(s.rows, batch, cfg.batchSize, now) then s.(phase := Draining(batch)) else s
    case Publish(ok, _) =>
      if s.phase.Draining? && s.phase.batch != [] then
        var claim := s.phase.batch[0];
        s.(phase := Publishing(claim, ok, s.phase.batch[1..]), published := s.published + [Delivery(claim.id, ok)])
      else s
    case Mark(now) =>
      if s.phase.Publishing? then
        System(Settle(cfg, s.rows, s.phase.claim, s.phase.ok, now), Draining(s.phase.rest), s.published)
      else s
    case Crash(_) => s.(phase := Draining([]))
  }

  ghost function Exec(cfg: Config, acts: seq<Action>): System {
    if acts == [] then START else Next(cfg, Exec(cfg, acts[..|acts| - 1]), acts[|acts| - 1])
  }

  ghost function At(cfg: Config, acts: seq<Action>, i: nat): System
    requires i <= |acts|
  {
    Exec(cfg, acts[..i])
  }

  lemma AtStep(cfg: Config, acts: seq<Action>, i: nat)
    requires i < |acts|
    ensures At(cfg, acts, i + 1) == Next(cfg, At(cfg, acts, i), acts[i])
  {
    assert acts[..i + 1][..i] == acts[..i];
  }

  // ----- What becomes of a row -----

  /** How often `id` was published with the given outcome. */
  function Count(published: seq<Delivery>, id: string, ok: bool): nat {
    if published == [] then 0
    else
      var n := |published| - 1;
      Count(published[..n], id, ok) + if published[n] == Delivery(id, ok) then 1 else 0
  }

  /** The tries a row gets: a budget below one still allows the first. */
  function Budget(cfg: Config): nat {
    if cfg.maxAttempts < 1 then 1 else cfg.maxAttempts
  }

  /** Pending with tries left, dispatched after a publish that worked, or failed after as many that did not. */
  ghost predicate Accounted(cfg: Config, row: Row, id: string, published: seq<Delivery>) {
    && row.attempts <= Count(published, id, false)
    && match row.status
       case Pending => row.attempts < Budget(cfg)
       case Dispatched => row.attempts < Budget(cfg) && Count(published, id, true) >= 1
       case Failed => row.attempts == Budget(cfg)
  }

  /** A claimed row still waits as it was claimed. */
  ghost predicate Held(rows: Rows, claim: Claim) {
    claim.id in rows && rows[claim.id].status == Pending && rows[claim.id].attempts == claim.attempts
  }

  function Claimed(phase: Phase): seq<Claim> {
    match phase
    case Draining(batch) => batch
    case Publishing(claim, _, rest) => [claim] + rest
  }

  ghost predicate Inv(cfg: Config, s: System) {
    && (forall id :: id in s.rows ==> Accounted(cfg, s.rows[id], id, s.published))
    && Distinct(Claimed(s.phase)) && (forall c :: c in Claimed(s.phase) ==> Held(s.rows, c))
    && (s.phase.Publishing? ==>
          var id := s.phase.claim.id;
          if s.phase.ok then Count(s.published, id, true) >= 1
          else id in s.rows && Count(s.published, id, false) > s.rows[id].attempts)
  }

  lemma CountStep(published: seq<Delivery>, d: Delivery, id: string, ok: bool)
    ensures Count(published + [d], id, ok) == Count(published, id, ok) + if d == Delivery(id, ok) then 1 else 0
  {
    assert (published + [d])[..|published|] == published;
  }

  /** One more publish leaves every row accounted for. */
  lemma StillAccounted(cfg: Config, row: Row, id: string, published: seq<Delivery>, d: Delivery)
    requires Accounted(cfg, row, id, published)
    ensures Accounted(cfg, row, id, published + [d])
  {
    CountStep(published, d, id, true);
    CountStep(published, d, id, false);
  }

  lemma SettleAccounts(cfg: Config, rows: Rows, claim: Claim, ok: bool, now: int, published: seq<Delivery>)
    requires Held(rows, claim) && Accounted(cfg, rows[claim.id], claim.id, published)
    requires Count(published, claim.id, ok) >= if ok then 1 else claim.attempts + 1
    ensures var after := Settle(cfg, rows, claim, ok, now);
      && after.Keys == rows.Keys && Accounted(cfg, after[claim.id], claim.id, published)
      && forall id :: id in rows && id != claim.id ==> after[id] == rows[id]
  {
  }

  /** The rest of a batch is distinct, and none of it is the first claim. */
  lemma RestOfBatch(claim: Claim, rest: seq<Claim>)
    requires Distinct([claim] + rest)
    ensures Distinct(rest) && forall c :: c in rest ==> c.id != claim.id && c in [claim] + rest
  {
    var all := [claim] + rest;
    assert all[1..] == rest;
    forall c | c in rest ensures c.id != claim.id {
      var i :| 0 <= i < |rest| && rest[i] == c;
      assert all[0] == claim && all[i + 1] == c;
    }
  }

  lemma MarkKeepsInv(cfg: Config, s: System, now: int)
    requires Inv(cfg, s) && s.phase.Publishing?
    ensures Inv(cfg, Next(cfg, s, Mark(now)))
  {
    var claim, rest := s.phase.claim, s.phase.rest;
    var all := [claim] + rest;
    assert all[0] in all && Held(s.rows, claim);
    RestOfBatch(claim, rest);
    SettleAccounts(cfg, s.rows, claim, s.phase.ok, now, s.published);
    var after := Settle(cfg, s.rows, claim, s.phase.ok, now);
    forall c | c in rest ensures Held(after, c) {
      assert Held(s.rows, c);
    }
  }

  lemma PublishKeepsInv(cfg: Config, s: System, ok: bool, now: int)
    requires Inv(cfg, s) && s.phase.Draining? && s.phase.batch != []
    ensures Inv(cfg, Next(cfg, s, Publish(ok, now)))
  {
    var batch, d := s.phase.batch, Delivery(s.phase.batch[0].id, ok);
    assert [batch[0]] + batch[1..] == batch && batch[0] in batch && Held(s.rows, batch[0]);
    forall id | id in s.rows ensures Accounted(cfg, s.rows[id], id, s.published + [d]) {
      StillAccounted(cfg, s.rows[id], id, s.published, d);
    }
    CountStep(s.published, d, d.id, ok);
    assert Accounted(cfg, s.rows[d.id], d.id, s.published);
  }

  lemma NextKeepsInv(cfg: Config, s: System, a: Action)
    requires Inv(cfg, s)
    ensures Inv(cfg, Next(cfg, s, a))
  {
    match a
    case Publish(ok, now) => if s.phase.Draining? && s.phase.batch != [] { PublishKeepsInv(cfg, s, ok, now); }
    case Mark(now) => if s.phase.Publishing? { MarkKeepsInv(cfg, s, now); }
    case _ =>
  }

  lemma {:induction false} InvHolds(cfg: Config, acts: seq<Action>)
    ensures Inv(cfg, Exec(cfg, acts))
  {
    if acts != [] {
      InvHolds(cfg, acts[..|acts| - 1]);
      NextKeepsInv(cfg, Exec(cfg, acts[..|acts| - 1]), acts[|acts| - 1]);
    }
  }

  /** In every run, with crashes anywhere, every row is accounted for. */
  lemma RowsAreAccounted(cfg: Config, acts: seq<Action>, id: string)
    requires id in Exec(cfg, acts).rows
    ensures Accounted(cfg, Exec(cfg, acts).rows[id], id, Exec(cfg, acts).published)
  {
    InvHolds(cfg, acts);
  }

  /** A failed row shows the configured number of attempts exactly when that number is at least one. */
  lemma FailedAtTheLimitIffPositive(cfg: Config, acts: seq<Action>, id: string)
    requires id in Exec(cfg, acts).rows && Exec(cfg, acts).rows[id].status == Failed
    ensures Exec(cfg, acts).rows[id].attempts == cfg.maxAttempts <==> cfg.maxAttempts >= 1
  {
    InvHolds(cfg, acts);
  }

  // ----- Keys -----

  ghost predicate UniqueKeys(rows: Rows) {
    forall a, b | a in rows && b in rows && rows[a].tenant == rows[b].tenant ::
      rows[a].idempotencyKey == rows[b].idempotencyKey ==> a == b
  }

  lemma {:induction false} KeysAreUnique(cfg: Config, acts: seq<Action>)
    ensures UniqueKeys(Exec(cfg, acts).rows)
  {
    if acts != [] { KeysAreUnique(cfg, acts[..|acts| - 1]); }
  }

  /** What a producer hands in is kept with its tenant and key, is due from that instant on, and not before. */
  lemma ProducedIsDue(cfg: Config, s: System, id: string, tenant: string, key: string, now: int, later: int)
    requires id !in s.rows && Free(s.rows, tenant, key)
    ensures var rows := Next(cfg, s, Produce(id, tenant, key, now)).rows;
      && rows.Keys == s.rows.Keys + {id} && (forall other :: other in s.rows ==> rows[other] == s.rows[other])
      && rows[id].tenant == tenant && rows[id].idempotencyKey == key && rows[id].attempts == 0
      && rows[id].createdAt == now && (Due(rows[id], later) <==> now <= later)
  {
  }

  // ----- Terminal rows -----

  ghost predicate Over(s: System, id: string) {
    id in s.rows && s.rows[id].status != Pending
  }

  lemma OverIsNotClaimed(cfg: Config, s: System, id: string)
    requires Inv(cfg, s) && Over(s, id)
    ensures !Claims(Claimed(s.phase), id)
  {
    forall c | c in Claimed(s.phase) ensures c.id != id {
      assert Held(s.rows, c);
    }
  }

  /** A row nobody holds is neither published nor changed. */
  lemma UnclaimedStep(cfg: Config, s: System, a: Action, id: string)
    requires id in s.rows && !Claims(Claimed(s.phase), id)
    ensures var after := Next(cfg, s, a);
      && id in after.rows && after.rows[id] == s.rows[id]
      && (forall ok :: Count(after.published, id, ok) == Count(s.published, id, ok))
  {
    if a.Publish? && s.phase.Draining? && s.phase.batch != [] {
      assert s.phase.batch[0] in Claimed(s.phase);
      forall ok { CountStep(s.published, Delivery(s.phase.batch[0].id, a.ok), id, ok); }
    } else if a.Mark? && s.phase.Publishing? {
      assert Claimed(s.phase)[0] == s.phase.claim && s.phase.claim in Claimed(s.phase);
    }
  }

  /** A terminal row never changes, is never claimed and is never published again. */
  lemma {:induction false} TerminalRowsAreLeftAlone(cfg: Config, acts: seq<Action>, i: nat, j: nat, id: string)
    requires i <= j <= |acts| && Over(At(cfg, acts, i), id)
    ensures var s, t := At(cfg, acts, i), At(cfg, acts, j);
      && id in t.rows && t.rows[id] == s.rows[id]
      && (forall ok :: Count(t.published, id, ok) == Count(s.published, id, ok))
      && !Claims(Claimed(t.phase), id)
    decreases j
  {
    if i < j {
      TerminalRowsAreLeftAlone(cfg, acts, i, j - 1, id);
      AtStep(cfg, acts, j - 1);
      UnclaimedStep(cfg, At(cfg, acts, j - 1), acts[j - 1], id);
    }
    InvHolds(cfg, acts[..j]);
    OverIsNotClaimed(cfg, At(cfg, acts, j), id);
  }

  /** Step `i` records a publish of `id` that worked. */
  ghost predicate RecordsSuccess(cfg: Config, acts: seq<Action>, i: nat, id: string)
    requires i < |acts|
  {
    var s := At(cfg, acts, i);
    acts[i].Mark? && s.phase.Publishing? && s.phase.ok && s.phase.claim.id == id
  }

  /** From then on the row is dispatched, at the instant of the record, and its attempts are those it was claimed with. */
  lemma SuccessIsRecorded(cfg: Config, acts: seq<Action>, i: nat, j: nat, id: string)
    requires i < j <= |acts| && RecordsSuccess(cfg, acts, i, id)
    ensures id in At(cfg, acts, j).rows && id in At(cfg, acts, i).rows
    ensures At(cfg, acts, j).rows[id]
         == At(cfg, acts, i).rows[id].(status := Dispatched, dispatchedAt := Some(acts[i].now))
    ensures At(cfg, acts, j).rows[id].attempts == At(cfg, acts, i).phase.claim.attempts
  {
    var s := At(cfg, acts, i);
    AtStep(cfg, acts, i);
    InvHolds(cfg, acts[..i]);
    assert Claimed(s.phase)[0] in Claimed(s.phase) && Held(s.rows, s.phase.claim);
    TerminalRowsAreLeftAlone(cfg, acts, i + 1, j, id);
  }

  // ----- Retries wait -----

  ghost predicate Timed(acts: seq<Action>) {
    forall i, j :: 0 <= i <= j < |acts| ==> acts[i].now <= acts[j].now
  }

  /** Step `i` records a failed publish of `id` that is to be tried again. */
  ghost predicate Reschedules(cfg: Config, acts: seq<Action>, i: nat, id: string, attempts: nat)
    requires i < |acts|
  {
    var s := At(cfg, acts, i);
    acts[i].Mark? && s.phase.Publishing? && !s.phase.ok && s.phase.claim == Claim(id, attempts) && !LastTry(cfg, attempts)
  }

  /** Nobody may take `id` before `until`. */
  ghost predicate Resting(s: System, id: string, until: int) {
    && id in s.rows && s.rows[id].nextAttempt == Some(until)
    && !Claims(Claimed(s.phase), id)
  }

  lemma RestStep(cfg: Config, s: System, a: Action, id: string, until: int)
    requires Resting(s, id, until) && a.now < until
    ensures Resting(Next(cfg, s, a), id, until)
  {
    UnclaimedStep(cfg, s, a, id);
    var after := Next(cfg, s, a);
    forall c | c in Claimed(after.phase) ensures c.id != id {
      if a.Publish? && s.phase.Draining? && s.phase.batch != [] {
        assert [s.phase.batch[0]] + s.phase.batch[1..] == s.phase.batch;
        assert c in Claimed(s.phase);
      } else if a.Mark? && s.phase.Publishing? {
        assert c in Claimed(s.phase);
      } else if a.ClaimBatch? && c !in Claimed(s.phase) {
        assert Due(s.rows[c.id], a.now);
      }
    }
  }

  lemma RescheduledRests(cfg: Config, acts: seq<Action>, i: nat, id: string, attempts: nat)
    requires i < |acts| && Reschedules(cfg, acts, i, id, attempts)
    ensures Resting(At(cfg, acts, i + 1), id, acts[i].now + Backoff(cfg, attempts))
  {
    var s := At(cfg, acts, i);
    AtStep(cfg, acts, i);
    InvHolds(cfg, acts[..i]);
    assert Claimed(s.phase)[0] in Claimed(s.phase) && Held(s.rows, s.phase.claim);
    RestOfBatch(s.phase.claim, s.phase.rest);
  }

  /** A rescheduled row is due again exactly when its wait is over. */
  lemma RescheduledIsDueAgain(cfg: Config, acts: seq<Action>, i: nat, id: string, attempts: nat, later: int)
    requires i < |acts| && Reschedules(cfg, acts, i, id, attempts)
    ensures id in At(cfg, acts, i + 1).rows && At(cfg, acts, i + 1).rows[id].attempts == attempts + 1
    ensures Due(At(cfg, acts, i + 1).rows[id], later) <==> later >= acts[i].now + Backoff(cfg, attempts)
  {
    var s := At(cfg, acts, i);
    AtStep(cfg, acts, i);
    InvHolds(cfg, acts[..i]);
    assert Claimed(s.phase)[0] in Claimed(s.phase) && Held(s.rows, s.phase.claim);
  }

  lemma RestsAt(cfg: Config, acts: seq<Action>, j: nat, id: string, until: int)
    requires j < |acts| && Resting(At(cfg, acts, j), id, until) && acts[j].now < until
    ensures Resting(At(cfg, acts, j + 1), id, until)
  {
    AtStep(cfg, acts, j);
    RestStep(cfg, At(cfg, acts, j), acts[j], id, until);
  }

  lemma {:induction false} KeepsResting(cfg: Config, acts: seq<Action>, i: nat, j: nat, id: string, until: int)
    requires i <= j <= |acts| && Resting(At(cfg, acts, i), id, until) && forall k :: i <= k < j ==> acts[k].now < until
    ensures Resting(At(cfg, acts, j), id, until)
    decreases j
  {
    if i < j {
      KeepsResting(cfg, acts, i, j - 1, id, until);
      RestsAt(cfg, acts, j - 1, id, until);
    }
  }

  lemma RestsUntilThen(cfg: Config, acts: seq<Action>, i: nat, j: nat, id: string, attempts: nat)
    requires i < j <= |acts| && Timed(acts) && Reschedules(cfg, acts, i, id, attempts)
    requires acts[j - 1].now < acts[i].now + Backoff(cfg, attempts) || j == i + 1
    ensures Resting(At(cfg, acts, j), id, acts[i].now + Backoff(cfg, attempts))
  {
    RescheduledRests(cfg, acts, i, id, attempts);
    KeepsResting(cfg, acts, i + 1, j, id, acts[i].now + Backoff(cfg, attempts));
  }

  /** After its k-th failed try a row is not published again before min(base * 2^k, max) has passed. */
  lemma RetriesWait(cfg: Config, acts: seq<Action>, i: nat, j: nat, id: string, attempts: nat)
    requires i < j < |acts| && Timed(acts) && Reschedules(cfg, acts, i, id, attempts)
    requires Count(At(cfg, acts, j + 1).published, id, true) + Count(At(cfg, acts, j + 1).published, id, false)
          != Count(At(cfg, acts, j).published, id, true) + Count(At(cfg, acts, j).published, id, false)
    ensures acts[j].now >= acts[i].now + Backoff(cfg, attempts)
  {
    AtStep(cfg, acts, j);
    if acts[j].now < acts[i].now + Backoff(cfg, attempts) {
      RestsUntilThen(cfg, acts, i, j, id, attempts);
      UnclaimedStep(cfg, At(cfg, acts, j), acts[j], id);
    }
  }

  // ----- A drained batch is a run -----

  /** Publish and mark, claim by claim. */
  function BatchRun(n: nat, outcomes: nat -> bool, clock: nat -> int): seq<Action> {
    if n == 0 then []
    else BatchRun(n - 1, outcomes, clock) + [Publish(outcomes(n - 1), clock(n - 1)), Mark(clock(n - 1))]
  }

  ghost function Play(cfg: Config, s: System, acts: seq<Action>): System {
    if acts == [] then s else Next(cfg, Play(cfg, s, acts[..|acts| - 1]), acts[|acts| - 1])
  }

  lemma PlaySnoc(cfg: Config, s: System, acts: seq<Action>, a: Action)
    ensures Play(cfg, s, acts + [a]) == Next(cfg, Play(cfg, s, acts), a)
  {
    assert (acts + [a])[..|acts|] == acts;
  }

  lemma SettledClaimIsRun(cfg: Config, s: System, ok: bool, now: int)
    requires s.phase.Draining? && s.phase.batch != []
    ensures var t := Next(cfg, Next(cfg, s, Publish(ok, now)), Mark(now));
      t.rows == Settle(cfg, s.rows, s.phase.batch[0], ok, now) && t.phase == Draining(s.phase.batch[1..])
  {
  }

  lemma BatchRunStep(cfg: Config, s: System, n: nat, outcomes: nat -> bool, clock: nat -> int)
    requires n > 0
    ensures Play(cfg, s, BatchRun(n, outcomes, clock))
         == Next(cfg, Next(cfg, Play(cfg, s, BatchRun(n - 1, outcomes, clock)), Publish(outcomes(n - 1), clock(n - 1))),
                 Mark(clock(n - 1)))
  {
    var before, publish := BatchRun(n - 1, outcomes, clock), Publish(outcomes(n - 1), clock(n - 1));
    assert BatchRun(n, outcomes, clock) == before + [publish] + [Mark(clock(n - 1))];
    PlaySnoc(cfg, s, before, publish);
    PlaySnoc(cfg, s, before + [publish], Mark(clock(n - 1)));
  }

  /** What `RunOnce` does to the table is what the machine does when it publishes and marks the whole batch. */
  lemma {:induction false} DrainedBatchIsRun(cfg: Config, s: System, n: nat, outcomes: nat -> bool, clock: nat -> int)
    requires s.phase.Draining? && n <= |s.phase.batch|
    ensures var t := Play(cfg, s, BatchRun(n, outcomes, clock));
      && t.rows == SettleAll(cfg, s.rows, s.phase.batch[..n], outcomes, clock)
      && t.phase == Draining(s.phase.batch[n..])
    decreases n
  {
    if n > 0 {
      var m, batch := n - 1, s.phase.batch;
      DrainedBatchIsRun(cfg, s, m, outcomes, clock);
      BatchRunStep(cfg, s, n, outcomes, clock);
      SettledClaimIsRun(cfg, Play(cfg, s, BatchRun(m, outcomes, clock)), outcomes(m), clock(m));
      assert batch[..n][..m] == batch[..m];
      assert batch[m..][1..] == batch[n..];
    }
  }
}
