/**
 Versioned prompts with tenant overrides, and the seeding of built-in prompts at worker start.
 */
module PromptRegistry {
  import opened Options

  datatype Asset = Asset(
    id: string, version: int, tenant: Option<string>, content: string, description: string, createdAt: int)

  datatype Seed = Seed(id: string, description: string, content: string)

  type Rows = seq<Asset>

  // ----- Lookup -----

  /** The rows of one prompt in one scope, oldest first. */
  function Scope(rows: Rows, id: string, tenant: Option<string>): Rows {
    if rows == [] then []
    else
      var last := rows[|rows| - 1];
      Scope(rows[..|rows| - 1], id, tenant) + if last.id == id && last.tenant == tenant then [last] else []
  }

  /** The first of the rows with the highest version. */
  function Highest(rows: Rows): Asset
    requires rows != []
  {
    var last := rows[|rows| - 1];
    if |rows| == 1 then last
    else
      var best := Highest(rows[..|rows| - 1]);
      if last.version > best.version then last else best
  }

  /** The first of the rows with the given version. */
  function Pinned(rows: Rows, version: int): Option<Asset> {
    if rows == [] then None
    else if rows[0].version == version then Some(rows[0])
    else Pinned(rows[1..], version)
  }

  function LatestVersion(rows: Rows, id: string, tenant: Option<string>): Option<int> {
    var scope := Scope(rows, id, tenant);
    if scope == [] then None else Some(Highest(scope).version)
  }

  function InScope(rows: Rows, id: string, version: Option<int>, tenant: Option<string>): Option<Asset> {
    var scope := Scope(rows, id, tenant);
    if scope == [] then None
    else if version.Some? then Pinned(scope, version.value)
    else Some(Highest(scope))
  }

  /** The tenant's own row if it has one that serves, else the global one. */
  function Resolve(rows: Rows, id: string, version: Option<int>, tenant: Option<string>): Option<Asset> {
    var own := if tenant.Some? then InScope(rows, id, version, tenant) else None;
    if own.Some? then own else InScope(rows, id, version, None)
  }

  predicate Taken(rows: Rows, asset: Asset) {
    exists i :: 0 <= i < |rows| && rows[i].id == asset.id && rows[i].version == asset.version
                && rows[i].tenant == asset.tenant
  }

  // ----- What a lookup finds -----

  lemma {:induction false} ScopeSelects(rows: Rows, id: string, tenant: Option<string>, a: Asset)
    ensures a in Scope(rows, id, tenant) <==> a in rows && a.id == id && a.tenant == tenant
  {
    if rows != [] {
      var n := |rows| - 1;
      ScopeSelects(rows[..n], id, tenant, a);
      assert rows == rows[..n] + [rows[n]];
    }
  }

  lemma {:induction false} HighestIsHighest(rows: Rows)
    requires rows != []
    ensures Highest(rows) in rows && forall a :: a in rows ==> a.version <= Highest(rows).version
  {
    var n := |rows| - 1;
    assert rows == rows[..n] + [rows[n]];
    if n > 0 { HighestIsHighest(rows[..n]); }
  }

  lemma {:induction false} PinnedIsPinned(rows: Rows, version: int)
    ensures Pinned(rows, version).Some? ==>
              Pinned(rows, version).value in rows && Pinned(rows, version).value.version == version
    ensures Pinned(rows, version).None? ==> forall a :: a in rows ==> a.version != version
  {
    if rows != [] {
      PinnedIsPinned(rows[1..], version);
      assert rows == [rows[0]] + rows[1..];
    }
  }

  /** A row of the scope that serves the request: the pinned version, or one with no newer beside it. */
  ghost predicate Serves(rows: Rows, id: string, version: Option<int>, tenant: Option<string>, a: Asset) {
    && a in rows && a.id == id && a.tenant == tenant
    && match version
       case Some(v) => a.version == v
       case None => forall b :: b in rows && b.id == id && b.tenant == tenant ==> b.version <= a.version
  }

  lemma InScopeServes(rows: Rows, id: string, version: Option<int>, tenant: Option<string>)
    ensures var r := InScope(rows, id, version, tenant);
      && (r.Some? ==> Serves(rows, id, version, tenant, r.value))
      && (r.None? ==> forall a :: !Serves(rows, id, version, tenant, a))
  {
    var scope := Scope(rows, id, tenant);
    forall a ensures a in scope <==> a in rows && a.id == id && a.tenant == tenant {
      ScopeSelects(rows, id, tenant, a);
    }
    if scope != [] {
      HighestIsHighest(scope);
      if version.Some? { PinnedIsPinned(scope, version.value); }
    }
  }

  /** A tenant's row that serves shadows the global one; nothing is found exactly when neither scope serves. */
  lemma ResolveShadows(rows: Rows, id: string, version: Option<int>, tenant: Option<string>)
    ensures var r := Resolve(rows, id, version, tenant);
      && (r.Some? ==> || Serves(rows, id, version, tenant, r.value)
                      || (Serves(rows, id, version, None, r.value) && forall a :: !Serves(rows, id, version, tenant, a)))
      && (r.None? ==> forall a :: !Serves(rows, id, version, tenant, a) && !Serves(rows, id, version, None, a))
  {
    InScopeServes(rows, id, version, tenant);
    InScopeServes(rows, id, version, None);
  }

  // ----- The in-process registry -----

  class InMemoryRegistry {
    var rows: Rows

    constructor ()
      ensures rows == []
    {
      rows := [];
    }

    /** Versions are immutable: a taken (prompt, version, tenant) is refused. */
    method Register(asset: Asset) returns (ok: bool)
      modifies this
      ensures ok <==> !Taken(old(rows), asset)
      ensures ok <==> forall a :: a in old(rows) && a.id == asset.id && a.tenant == asset.tenant ==>
                                    a.version != asset.version
      ensures rows == if ok then old(rows) + [asset] else old(rows)
    {
      assert forall i :: 0 <= i < |rows| ==> rows[i] in rows;
      for i := 0 to |rows|
        invariant rows == old(rows)
        invariant !Taken(rows[..i], asset)
      {
        if rows[i].id == asset.id && rows[i].version == asset.version && rows[i].tenant == asset.tenant {
          return false;
        }
        assert rows[..i + 1] == rows[..i] + [rows[i]];
      }
      assert rows[..|rows|] == rows;
      rows := rows + [asset];
      return true;
    }
  }

  // ----- Seeding -----

  type Hash = string -> string

  function Latest(rows: Rows, id: string): Option<Asset> {
    Resolve(rows, id, None, None)
  }

  function FromSeed(seed: Seed, version: int, now: int): Asset {
    Asset(seed.id, version, None, seed.content, seed.description, now)
  }

  /** The rows after reconciling one seed, and the asset that stands for it. */
  function SeedOne(rows: Rows, seed: Seed, now: int, hash: Hash): (Rows, Asset) {
    var current := LatestVersion(rows, seed.id, None);
    var next := if current.None? then 1 else current.value + 1;
    var existing := if current.None? then None else Resolve(rows, seed.id, current, None);
    if existing.Some? && hash(existing.value.content) == hash(seed.content) then (rows, existing.value)
    else (rows + [FromSeed(seed, next, now)], FromSeed(seed, next, now))
  }

  function SeedAll(rows: Rows, seeds: seq<Seed>, now: int, hash: Hash): (Rows, seq<Asset>) {
    if seeds == [] then (rows, [])
    else
      var n := |seeds| - 1;
      var (before, assets) := SeedAll(rows, seeds[..n], now, hash);
      var (after, asset) := SeedOne(before, seeds[n], now, hash);
      (after, assets + [asset])
  }

  /** The newest global row of the seed's prompt has the seed's content, by hash. */
  ghost predicate Current(rows: Rows, seed: Seed, hash: Hash) {
    Latest(rows, seed.id).Some? && hash(Latest(rows, seed.id).value.content) == hash(seed.content)
  }

  /** Two seeds of one prompt agree on its content, by hash; with distinct prompts they always do. */
  ghost predicate Consistent(seeds: seq<Seed>, hash: Hash) {
    forall i, j :: 0 <= i < j < |seeds| && seeds[i].id == seeds[j].id ==> hash(seeds[i].content) == hash(seeds[j].content)
  }

  lemma {:induction false} PinnedHighest(rows: Rows)
    requires rows != []
    ensures Pinned(rows, Highest(rows).version) == Some(Highest(rows))
  {
    var n := |rows| - 1;
    HighestIsHighest(rows);
    if n > 0 {
      var front := rows[..n];
      assert rows == front + [rows[n]];
      PinnedHighest(front);
      HighestIsHighest(front);
      PinnedJoin(front, rows[n], Highest(rows).version);
      PinnedIsPinned(front, Highest(rows).version);
    }
  }

  lemma {:induction false} PinnedJoin(rows: Rows, last: Asset, version: int)
    ensures Pinned(rows + [last], version)
         == if Pinned(rows, version).Some? then Pinned(rows, version)
            else if last.version == version then Some(last) else None
  {
    if rows == [] {
      assert rows + [last] == [last];
    } else {
      PinnedJoin(rows[1..], last, version);
      assert (rows + [last])[1..] == rows[1..] + [last];
    }
  }

  /** Pinning the latest version finds the latest row. */
  lemma PinnedLatest(rows: Rows, id: string)
    ensures var current := LatestVersion(rows, id, None);
      && (current.None? ==> Latest(rows, id) == None)
      && (current.Some? ==> Latest(rows, id).Some? && Resolve(rows, id, current, None) == Latest(rows, id))
  {
    var scope := Scope(rows, id, None);
    if scope != [] { PinnedHighest(scope); }
  }

  /** So a seed is left alone exactly when it is current. */
  lemma SeedOneDecides(rows: Rows, seed: Seed, now: int, hash: Hash)
    ensures Current(rows, seed, hash) ==> SeedOne(rows, seed, now, hash) == (rows, Latest(rows, seed.id).value)
    ensures !Current(rows, seed, hash) ==>
              var (after, asset) := SeedOne(rows, seed, now, hash);
              && after == rows + [asset] && asset.id == seed.id && asset.tenant == None && asset.createdAt == now
              && asset.content == seed.content && asset.description == seed.description
  {
    PinnedLatest(rows, seed.id);
    var current := LatestVersion(rows, seed.id, None);
    assert current.Some? ==> Resolve(rows, seed.id, current, None) == Latest(rows, seed.id);
  }

  lemma ScopeJoin(rows: Rows, a: Asset, id: string, tenant: Option<string>)
    ensures Scope(rows + [a], id, tenant) == Scope(rows, id, tenant) + if a.id == id && a.tenant == tenant then [a] else []
  {
    assert (rows + [a])[..|rows|] == rows;
  }

  /** A global row above all of its prompt becomes the latest; other prompts keep theirs. */
  lemma AppendedIsLatest(rows: Rows, asset: Asset, other: string)
    requires asset.tenant == None
    requires var current := LatestVersion(rows, asset.id, None); current.Some? ==> current.value < asset.version
    ensures Latest(rows + [asset], asset.id) == Some(asset)
    ensures other != asset.id ==> Latest(rows + [asset], other) == Latest(rows, other)
  {
    ScopeJoin(rows, asset, asset.id, None);
    ScopeJoin(rows, asset, other, None);
    var scope := Scope(rows, asset.id, None);
    assert (scope + [asset])[..|scope|] == scope;
    assert Highest(scope + [asset]) == asset;
    assert Scope(rows, other, None) + [] == Scope(rows, other, None);
  }

  /** One seed: its asset is the latest of its prompt; other prompts keep theirs. */
  lemma SeedOneIsLatest(rows: Rows, seed: Seed, now: int, hash: Hash, other: string)
    ensures var (after, asset) := SeedOne(rows, seed, now, hash);
      && Latest(after, seed.id) == Some(asset) && Current(after, seed, hash)
      && (other != seed.id ==> Latest(after, other) == Latest(rows, other))
  {
    SeedOneDecides(rows, seed, now, hash);
    if !Current(rows, seed, hash) {
      AppendedIsLatest(rows, SeedOne(rows, seed, now, hash).1, other);
    }
  }

  /** Old rows stay as they are, and a version is registered only where none is taken. */
  lemma SeedOneAppends(rows: Rows, seed: Seed, now: int, hash: Hash)
    ensures var (after, asset) := SeedOne(rows, seed, now, hash);
      rows <= after && (after != rows ==> !Taken(rows, asset))
  {
    NextVersionIsFree(rows, seed.id);
    assert forall i :: 0 <= i < |rows| ==> rows[i] in rows;
  }

  lemma NextVersionIsFree(rows: Rows, id: string)
    ensures var current := LatestVersion(rows, id, None);
      forall a :: a in rows && a.id == id && a.tenant == None ==> current.Some? && a.version <= current.value
  {
    var scope := Scope(rows, id, None);
    forall a ensures a in scope <==> a in rows && a.id == id && a.tenant == None {
      ScopeSelects(rows, id, None, a);
    }
    if scope != [] { HighestIsHighest(scope); }
  }

  /** Seeding only appends, and registers no taken version. */
  lemma {:induction false} SeedAllAppends(rows: Rows, seeds: seq<Seed>, now: int, hash: Hash)
    ensures rows <= SeedAll(rows, seeds, now, hash).0 && |SeedAll(rows, seeds, now, hash).1| == |seeds|
  {
    if seeds != [] {
      var n := |seeds| - 1;
      SeedAllAppends(rows, seeds[..n], now, hash);
      SeedOneAppends(SeedAll(rows, seeds[..n], now, hash).0, seeds[n], now, hash);
    }
  }

  /** The global versions of a prompt are 1, 2, 3 and so on, in the order they were registered. */
  ghost predicate Numbered(rows: Rows, id: string) {
    var scope := Scope(rows, id, None);
    forall i :: 0 <= i < |scope| ==> scope[i].version == i + 1
  }

  lemma {:induction false} NumberedHighest(scope: Rows)
    requires scope != [] && forall i :: 0 <= i < |scope| ==> scope[i].version == i + 1
    ensures Highest(scope).version == |scope|
  {
    var n := |scope| - 1;
    if n > 0 { NumberedHighest(scope[..n]); }
  }

  lemma SeedOneNumbers(rows: Rows, seed: Seed, now: int, hash: Hash, id: string)
    requires Numbered(rows, id)
    ensures Numbered(SeedOne(rows, seed, now, hash).0, id)
  {
    var (after, asset) := SeedOne(rows, seed, now, hash);
    if after != rows {
      ScopeJoin(rows, asset, id, None);
      var scope := Scope(rows, id, None);
      if id == seed.id && scope != [] { NumberedHighest(scope); }
    }
  }

  /** Seeding numbers the versions of a prompt without a gap, from 1 on a registry that had none. */
  lemma {:induction false} SeedAllNumbers(rows: Rows, seeds: seq<Seed>, now: int, hash: Hash, id: string)
    requires Numbered(rows, id)
    ensures Numbered(SeedAll(rows, seeds, now, hash).0, id)
  {
    if seeds != [] {
      var n := |seeds| - 1;
      SeedAllNumbers(rows, seeds[..n], now, hash, id);
      SeedOneNumbers(SeedAll(rows, seeds[..n], now, hash).0, seeds[n], now, hash, id);
    }
  }

  /** A current seed stays current and keeps its asset while seeds that agree with it are reconciled. */
  lemma AgreeingSeedKeepsCurrent(rows: Rows, seed: Seed, next: Seed, now: int, hash: Hash)
    requires Current(rows, seed, hash) && (next.id == seed.id ==> hash(next.content) == hash(seed.content))
    ensures var after := SeedOne(rows, next, now, hash).0;
      Current(after, seed, hash) && Latest(after, seed.id) == Latest(rows, seed.id)
  {
    SeedOneIsLatest(rows, next, now, hash, seed.id);
    SeedOneDecides(rows, next, now, hash);
  }

  /** Seeds that agree with each other are all current afterwards, each represented by the asset returned for it. */
  lemma {:induction false} ConsistentSeedsEndCurrent(rows: Rows, seeds: seq<Seed>, now: int, hash: Hash, i: nat)
    requires Consistent(seeds, hash) && i < |seeds|
    ensures var (after, assets) := SeedAll(rows, seeds, now, hash);
      Current(after, seeds[i], hash) && |assets| == |seeds| && Latest(after, seeds[i].id) == Some(assets[i])
    decreases |seeds|
  {
    var n := |seeds| - 1;
    var before := SeedAll(rows, seeds[..n], now, hash).0;
    SeedAllAppends(rows, seeds[..n], now, hash);
    if i < n {
      ConsistentSeedsEndCurrent(rows, seeds[..n], now, hash, i);
      AgreeingSeedKeepsCurrent(before, seeds[i], seeds[n], now, hash);
    } else {
      SeedOneIsLatest(before, seeds[n], now, hash, "");
    }
  }

  ghost predicate AllCurrent(rows: Rows, seeds: seq<Seed>, hash: Hash) {
    forall i :: 0 <= i < |seeds| ==> Current(rows, seeds[i], hash)
  }

  lemma AllCurrentSplits(rows: Rows, seeds: seq<Seed>, hash: Hash)
    requires seeds != []
    ensures AllCurrent(rows, seeds, hash)
       <==> AllCurrent(rows, seeds[..|seeds| - 1], hash) && Current(rows, seeds[|seeds| - 1], hash)
  {
    var front := seeds[..|seeds| - 1];
    assert forall i :: 0 <= i < |front| ==> front[i] == seeds[i];
  }

  /** Seeding changes nothing exactly when every seed is current. */
  lemma {:induction false} NothingAddedIffCurrent(rows: Rows, seeds: seq<Seed>, now: int, hash: Hash)
    ensures SeedAll(rows, seeds, now, hash).0 == rows <==> AllCurrent(rows, seeds, hash)
  {
    if seeds != [] {
      var n := |seeds| - 1;
      var before := SeedAll(rows, seeds[..n], now, hash).0;
      NothingAddedIffCurrent(rows, seeds[..n], now, hash);
      SeedAllAppends(rows, seeds[..n], now, hash);
      SeedOneDecides(before, seeds[n], now, hash);
      AllCurrentSplits(rows, seeds, hash);
    }
  }

  /** Seeding twice is seeding once, whatever was registered before, exactly when the seeds agree with each other. */
  lemma SeedingIsIdempotentIffConsistent(rows: Rows, seeds: seq<Seed>, now: int, later: int, hash: Hash)
    ensures var after := SeedAll(rows, seeds, now, hash).0;
      SeedAll(after, seeds, later, hash).0 == after <==> Consistent(seeds, hash)
  {
    var after := SeedAll(rows, seeds, now, hash).0;
    NothingAddedIffCurrent(after, seeds, later, hash);
    if Consistent(seeds, hash) {
      forall i | 0 <= i < |seeds| ensures Current(after, seeds[i], hash) {
        ConsistentSeedsEndCurrent(rows, seeds, now, hash, i);
      }
    }
  }

  /** Two seeds of one prompt with different contents are registered anew at every start. */
  lemma QuarrellingSeedsGrow(hash: Hash)
    requires hash("x") != hash("y")
    ensures var seeds := [Seed("p", "", "x"), Seed("p", "", "y")];
      var after := SeedAll([], seeds, 0, hash).0;
      SeedAll(after, seeds, 1, hash).0 != after
  {
    var seeds := [Seed("p", "", "x"), Seed("p", "", "y")];
    SeedingIsIdempotentIffConsistent([], seeds, 0, 1, hash);
    assert seeds[0].id == seeds[1].id;
  }

  /** Reconciles the seeds with the registry; no registration is ever refused. */
  method EnsureSeeded(registry: InMemoryRegistry, seeds: seq<Seed>, now: int, hash: Hash)
    returns (materialised: seq<Asset>)
    modifies registry
    ensures (registry.rows, materialised) == SeedAll(old(registry.rows), seeds, now, hash)
  {
    materialised := [];
    for i := 0 to |seeds|
      invariant (registry.rows, materialised) == SeedAll(old(registry.rows), seeds[..i], now, hash)
    {
      assert seeds[..i + 1][..i] == seeds[..i];
      var seed, rows := seeds[i], registry.rows;
      SeedOneAppends(rows, seed, now, hash);
      var currentVersion := LatestVersion(rows, seed.id, None);
      var nextVersion := if currentVersion.None? then 1 else currentVersion.value + 1;
      if currentVersion.Some? {
        var existing := Resolve(rows, seed.id, currentVersion, None);
        if existing.Some? && hash(existing.value.content) == hash(seed.content) {
          materialised := materialised + [existing.value];
          continue;
        }
      }
      var asset := FromSeed(seed, nextVersion, now);
      var ok := registry.Register(asset);
      assert ok;
      materialised := materialised + [asset];
    }
    assert seeds[..|seeds|] == seeds;
  }
}
