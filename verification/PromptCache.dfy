/**
 The read-through cache over a prompt registry.  Operations do not overlap; the inner rows may also be changed behind
 the cache's back.
 */
module PromptCache {
  import opened Options
  import opened PromptRegistry

  datatype Config = Config(ttl: real, negativeTtl: real) {
    predicate Valid() {
      ttl > 0.0 && negativeTtl > 0.0
    }

    /** How long an answer is kept: the shorter time for an absent prompt. */
    function TtlFor(answer: Option<Asset>): real {
      if answer.Some? then ttl else negativeTtl
    }
  }

  datatype Key = Key(id: string, version: Option<int>, tenant: Option<string>)

  datatype Entry = Entry(asset: Option<Asset>, expiresAt: real)

  type Cache = map<Key, Entry>

  function Inner(rows: Rows, key: Key): Option<Asset> {
    Resolve(rows, key.id, key.version, key.tenant)
  }

  predicate Fresh(cache: Cache, key: Key, now: real) {
    key in cache && cache[key].expiresAt > now
  }

  function Read(rows: Rows, cache: Cache, key: Key, now: real): Option<Asset> {
    if Fresh(cache, key, now) then cache[key].asset else Inner(rows, key)
  }

  /** A miss keeps the inner answer from the instant it is stored. */
  function AfterRead(cfg: Config, rows: Rows, cache: Cache, key: Key, now: real, stored: real): Cache {
    if Fresh(cache, key, now) then cache
    else cache[key := Entry(Inner(rows, key), stored + cfg.TtlFor(Inner(rows, key)))]
  }

  /** No entry of one prompt is left. */
  function Dropped(cache: Cache, id: string): Cache {
    map k | k in cache && k.id != id :: cache[k]
  }

  class CachingRegistry {
    const cfg: Config
    const inner: InMemoryRegistry
    var cache: Cache

    constructor (cfg: Config, inner: InMemoryRegistry)
      ensures this.cfg == cfg && this.inner == inner && cache == map[]
    {
      this.cfg := cfg;
      this.inner := inner;
      cache := map[];
    }

    /** A read at `now`; a missed one is stored at `stored`. */
    method FetchOrNone(key: Key, now: real, stored: real) returns (answer: Option<Asset>)
      modifies this
      ensures answer == Read(inner.rows, old(cache), key, now)
      ensures cache == AfterRead(cfg, inner.rows, old(cache), key, now, stored)
    {
      if key in cache && cache[key].expiresAt > now { return cache[key].asset; }
      answer := Resolve(inner.rows, key.id, key.version, key.tenant);
      var ttl := if answer.Some? then cfg.ttl else cfg.negativeTtl;
      cache := cache[key := Entry(answer, stored + ttl)];
    }

    /** A refused registration raises before anything is dropped. */
    method RegisterAsset(asset: Asset) returns (ok: bool)
      modifies this, inner
      ensures ok <==> !Taken(old(inner.rows), asset)
      ensures inner.rows == if ok then old(inner.rows) + [asset] else old(inner.rows)
      ensures cache == if ok then Dropped(old(cache), asset.id) else old(cache)
    {
      ok := inner.Register(asset);
      if !ok { return; }
      var stale := set k | k in cache && k.id == asset.id;
      ghost var all := stale;
      while stale != {}
        invariant stale <= all && cache == old(cache) - (all - stale)
        invariant inner.rows == old(inner.rows) + [asset]
        decreases |stale|
      {
        var k :| k in stale;
        cache := cache - {k};
        stale := stale - {k};
      }
      assert all - stale == all;
    }
  }

  // ----- Runs -----

  datatype Op =
    | Fetch(key: Key, now: real, stored: real)
    | Register(asset: Asset, now: real)
    | Change(rows: Rows, now: real)

  datatype System = System(rows: Rows, cache: Cache)

  function Next(cfg: Config, s: System, op: Op): System {
    match op
    case Fetch(key, now, stored) => s.(cache := AfterRead(cfg, s.rows, s.cache, key, now, stored))
    case Register(asset, _) =>
      if Taken(s.rows, asset) then s else System(s.rows + [asset], Dropped(s.cache, asset.id))
    case Change(rows, _) => s.(rows := rows)
  }

  function Exec(cfg: Config, start: Rows, ops: seq<Op>): System {
    if ops == [] then System(start, map[])
    else Next(cfg, Exec(cfg, start, ops[..|ops| - 1]), ops[|ops| - 1])
  }

  function At(cfg: Config, start: Rows, ops: seq<Op>, i: nat): System
    requires i <= |ops|
  {
    Exec(cfg, start, ops[..i])
  }

  lemma AtStep(cfg: Config, start: Rows, ops: seq<Op>, i: nat)
    requires i < |ops|
    ensures At(cfg, start, ops, i + 1) == Next(cfg, At(cfg, start, ops, i), ops[i])
  {
    assert ops[..i + 1][..i] == ops[..i];
  }

  function AnswerAt(cfg: Config, start: Rows, ops: seq<Op>, i: nat): Option<Asset>
    requires i < |ops| && ops[i].Fetch?
  {
    var s := At(cfg, start, ops, i);
    Read(s.rows, s.cache, ops[i].key, ops[i].now)
  }

  /** What the inner registry answers while operation `i` is under way. */
  function InnerAt(cfg: Config, start: Rows, ops: seq<Op>, i: nat, key: Key): Option<Asset>
    requires i <= |ops|
  {
    Inner(At(cfg, start, ops, i).rows, key)
  }

  /** An operation is over before the next begins. */
  ghost predicate Sequential(ops: seq<Op>) {
    && (forall i :: 0 <= i < |ops| && ops[i].Fetch? ==> ops[i].now <= ops[i].stored)
    && (forall i, j :: 0 <= i < j < |ops| ==> (if ops[i].Fetch? then ops[i].stored else ops[i].now) <= ops[j].now)
  }

  // ----- Staleness -----

  /** Operation `i` fetched the key, was given this answer by the inner registry and kept it until then. */
  ghost predicate Source(cfg: Config, start: Rows, ops: seq<Op>, i: nat, key: Key, entry: Entry)
    requires i < |ops|
  {
    && ops[i].Fetch? && ops[i].key == key
    && entry == Entry(InnerAt(cfg, start, ops, i, key), ops[i].stored + cfg.TtlFor(entry.asset))
  }

  lemma {:induction false} EntriesHaveSources(cfg: Config, start: Rows, ops: seq<Op>, n: nat, key: Key) returns (i: nat)
    requires n <= |ops| && key in At(cfg, start, ops, n).cache
    ensures i < n && Source(cfg, start, ops, i, key, At(cfg, start, ops, n).cache[key])
    decreases n
  {
    var m := n - 1;
    AtStep(cfg, start, ops, m);
    var s, op := At(cfg, start, ops, m), ops[m];
    if op.Fetch? && op.key == key && !Fresh(s.cache, key, op.now) {
      i := m;
    } else {
      i := EntriesHaveSources(cfg, start, ops, m, key);
    }
  }

  /**
   Every read is the inner registry's answer at a moment `i` of the run that is this one, or lies back less than the
   time to live, the shorter one for an absent prompt.
   */
  lemma ReadsAreRecent(cfg: Config, start: Rows, ops: seq<Op>, j: nat) returns (i: nat)
    requires cfg.Valid() && Sequential(ops) && j < |ops| && ops[j].Fetch?
    ensures i <= j && ops[i].Fetch? && ops[i].key == ops[j].key
    ensures AnswerAt(cfg, start, ops, j) == InnerAt(cfg, start, ops, i, ops[j].key)
    ensures i < j ==>
      && ops[i].stored <= ops[j].now
      && ops[j].now < ops[i].stored + if AnswerAt(cfg, start, ops, j).Some? then cfg.ttl else cfg.negativeTtl
  {
    var s, key := At(cfg, start, ops, j), ops[j].key;
    if Fresh(s.cache, key, ops[j].now) {
      i := EntriesHaveSources(cfg, start, ops, j, key);
    } else {
      i := j;
    }
  }

  // ----- What was fetched is kept -----

  /** Operation `k` drops the entries of the prompt. */
  ghost predicate Drops(cfg: Config, start: Rows, ops: seq<Op>, k: nat, id: string)
    requires k < |ops|
  {
    ops[k].Register? && ops[k].asset.id == id && !Taken(At(cfg, start, ops, k).rows, ops[k].asset)
  }

  lemma {:induction false} EntryStays(cfg: Config, start: Rows, ops: seq<Op>, i: nat, j: nat, key: Key, entry: Entry)
    requires i <= j <= |ops| && key in At(cfg, start, ops, i).cache && At(cfg, start, ops, i).cache[key] == entry
    requires forall k :: i <= k < j ==> ops[k].now < entry.expiresAt && !Drops(cfg, start, ops, k, key.id)
    ensures key in At(cfg, start, ops, j).cache && At(cfg, start, ops, j).cache[key] == entry
    decreases j
  {
    if i < j {
      EntryStays(cfg, start, ops, i, j - 1, key, entry);
      AtStep(cfg, start, ops, j - 1);
      assert !Drops(cfg, start, ops, j - 1, key.id);
    }
  }

  /**
   A missed fetch is kept for the time to live: until then, unless the prompt is registered anew through the cache, every
   fetch of the key gets the same answer, even when the rows have changed behind the cache.
   */
  lemma MissIsKept(cfg: Config, start: Rows, ops: seq<Op>, i: nat, j: nat)
    requires Sequential(ops) && i < j < |ops| && ops[i].Fetch? && ops[j].Fetch? && ops[j].key == ops[i].key
    requires !Fresh(At(cfg, start, ops, i).cache, ops[i].key, ops[i].now)
    requires forall k :: i < k < j ==> !Drops(cfg, start, ops, k, ops[i].key.id)
    requires var answer := InnerAt(cfg, start, ops, i, ops[i].key);
      ops[j].now < ops[i].stored + if answer.Some? then cfg.ttl else cfg.negativeTtl
    ensures AnswerAt(cfg, start, ops, j) == InnerAt(cfg, start, ops, i, ops[i].key)
  {
    AtStep(cfg, start, ops, i);
    var key := ops[i].key;
    EntryStays(cfg, start, ops, i + 1, j, key, At(cfg, start, ops, i + 1).cache[key]);
  }

  // ----- Registration is seen at once -----

  /** Every entry of the prompt is what the inner registry says now. */
  ghost predicate UpToDate(s: System, id: string) {
    forall k :: k in s.cache && k.id == id ==> s.cache[k].asset == Inner(s.rows, k)
  }

  /** Rows of another prompt do not matter to a lookup. */
  lemma OtherPromptsDoNotMatter(rows: Rows, asset: Asset, key: Key)
    requires asset.id != key.id
    ensures Inner(rows + [asset], key) == Inner(rows, key)
  {
    ScopeJoin(rows, asset, key.id, key.tenant);
    ScopeJoin(rows, asset, key.id, None);
    assert Scope(rows, key.id, key.tenant) + [] == Scope(rows, key.id, key.tenant);
    assert Scope(rows, key.id, None) + [] == Scope(rows, key.id, None);
  }

  lemma StepKeepsUpToDate(cfg: Config, s: System, op: Op, id: string)
    requires UpToDate(s, id) && !op.Change?
    ensures UpToDate(Next(cfg, s, op), id)
  {
    if op.Register? && op.asset.id != id && !Taken(s.rows, op.asset) {
      forall k | k in s.cache && k.id == id ensures Inner(s.rows + [op.asset], k) == Inner(s.rows, k) {
        OtherPromptsDoNotMatter(s.rows, op.asset, k);
      }
    }
  }

  lemma {:induction false} StaysUpToDate(cfg: Config, start: Rows, ops: seq<Op>, i: nat, j: nat)
    requires i < j <= |ops| && ops[i].Register? && !Taken(At(cfg, start, ops, i).rows, ops[i].asset)
    requires forall k :: i < k < j ==> !ops[k].Change?
    ensures UpToDate(At(cfg, start, ops, j), ops[i].asset.id)
    decreases j
  {
    AtStep(cfg, start, ops, j - 1);
    if j - 1 > i {
      StaysUpToDate(cfg, start, ops, i, j - 1);
      StepKeepsUpToDate(cfg, At(cfg, start, ops, j - 1), ops[j - 1], ops[i].asset.id);
    }
  }

  /**
   After a registration through the cache, and until the rows are changed behind its back, every read of that prompt,
   at any version and in any tenant's scope, is what the inner registry would say.
   */
  lemma RegistrationIsSeen(cfg: Config, start: Rows, ops: seq<Op>, i: nat, j: nat)
    requires i < j < |ops| && ops[i].Register? && !Taken(At(cfg, start, ops, i).rows, ops[i].asset)
    requires forall k :: i < k < j ==> !ops[k].Change?
    requires ops[j].Fetch? && ops[j].key.id == ops[i].asset.id
    ensures AnswerAt(cfg, start, ops, j) == InnerAt(cfg, start, ops, j, ops[j].key)
  {
    StaysUpToDate(cfg, start, ops, i, j);
  }
}
