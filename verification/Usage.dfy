/**
 The per-call usage log and the grouped sums read from it.

 `llm_usage_logs` is append-only and idempotent on the record id.  The task aggregate groups a task's rows by
 step kind, with NULL collapsing to one sentinel bucket and NULL costs and token counts summing as zero.
 */
module Usage {
  import opened Options

  datatype UsageRow = UsageRow(
    recordId: string, tenantId: string, taskId: Option<string>, stepKind: Option<string>,
    totalTokens: Option<nat>, costMicros: Option<nat>)

  datatype Bucket = Bucket(key: string, tokens: nat, costMicros: nat, calls: nat)

  /** COALESCE(step_kind, 'unspecified') */
  function KeyOf(row: UsageRow): string {
    if row.stepKind.Some? then row.stepKind.value else "unspecified"
  }

  function OrZero(n: Option<nat>): nat {
    if n.Some? then n.value else 0
  }

  /** INSERT ... ON CONFLICT (record_id) DO NOTHING */
  function Insert(rows: seq<UsageRow>, row: UsageRow): seq<UsageRow> {
    if exists i :: 0 <= i < |rows| && rows[i].recordId == row.recordId then rows else rows + [row]
  }

  /** The rows a task query selects. */
  function ForTask(rows: seq<UsageRow>, tenantId: string, taskId: string): seq<UsageRow> {
    if rows == [] then []
    else
      var rest := ForTask(rows[..|rows| - 1], tenantId, taskId);
      var row := rows[|rows| - 1];
      if row.tenantId == tenantId && row.taskId == Some(taskId) then rest + [row] else rest
  }

  /** The flat sum of the cost column, NULL as zero. */
  function FlatCost(rows: seq<UsageRow>): nat {
    if rows == [] then 0 else FlatCost(rows[..|rows| - 1]) + OrZero(rows[|rows| - 1].costMicros)
  }

  /** One group's share of the cost column. */
  function CostOf(rows: seq<UsageRow>, key: string): nat {
    if rows == [] then 0
    else CostOf(rows[..|rows| - 1], key) +
         if KeyOf(rows[|rows| - 1]) == key then OrZero(rows[|rows| - 1].costMicros) else 0
  }

  function TokensOf(rows: seq<UsageRow>, key: string): nat {
    if rows == [] then 0
    else TokensOf(rows[..|rows| - 1], key) +
         if KeyOf(rows[|rows| - 1]) == key then OrZero(rows[|rows| - 1].totalTokens) else 0
  }

  function CallsOf(rows: seq<UsageRow>, key: string): nat {
    if rows == [] then 0
    else CallsOf(rows[..|rows| - 1], key) + if KeyOf(rows[|rows| - 1]) == key then 1 else 0
  }

  /** What GROUP BY promises, in whatever order the buckets come back. */
  ghost predicate IsGroupBy(rows: seq<UsageRow>, buckets: seq<Bucket>) {
    && DistinctKeys(buckets)
    && (forall r :: r in rows ==> exists i :: 0 <= i < |buckets| && buckets[i].key == KeyOf(r))
    && (forall b :: b in buckets ==>
          && b.costMicros == CostOf(rows, b.key)
          && b.tokens == TokensOf(rows, b.key)
          && b.calls == CallsOf(rows, b.key) > 0)
  }

  function BucketSum(buckets: seq<Bucket>): nat {
    if buckets == [] then 0 else buckets[0].costMicros + BucketSum(buckets[1..])
  }

  /** The distinct group keys, in order of first sight. */
  function KeysOf(rows: seq<UsageRow>): seq<string> {
    if rows == [] then []
    else
      var seen := KeysOf(rows[..|rows| - 1]);
      var key := KeyOf(rows[|rows| - 1]);
      if key in seen then seen else seen + [key]
  }

  /** The grouped aggregate: one bucket a key. */
  function GroupByStepKind(rows: seq<UsageRow>): seq<Bucket> {
    seq(|KeysOf(rows)|, i requires 0 <= i < |KeysOf(rows)| =>
      var key := KeysOf(rows)[i];
      Bucket(key, TokensOf(rows, key), CostOf(rows, key), CallsOf(rows, key)))
  }

  /** What the budget gate compares: the bucket costs of one task, summed. */
  function Spend(rows: seq<UsageRow>, tenantId: string, taskId: string): nat {
    BucketSum(GroupByStepKind(ForTask(rows, tenantId, taskId)))
  }

  /** A row counts in the bucket of its step kind, or in the sentinel's if it has none, and NULL counts as zero. */
  lemma RowCountsInItsBucket(rows: seq<UsageRow>, row: UsageRow, key: string)
    ensures var here := row.stepKind == Some(key) || (row.stepKind.None? && key == "unspecified");
      var cost := if row.costMicros.Some? then row.costMicros.value else 0;
      var tokens := if row.totalTokens.Some? then row.totalTokens.value else 0;
      && CostOf(rows + [row], key) == CostOf(rows, key) + (if here then cost else 0)
      && TokensOf(rows + [row], key) == TokensOf(rows, key) + (if here then tokens else 0)
      && CallsOf(rows + [row], key) == CallsOf(rows, key) + (if here then 1 else 0)
      && FlatCost(rows + [row]) == FlatCost(rows) + cost
  {
    assert (rows + [row])[..|rows|] == rows;
  }

  // ----- The sum over buckets is the flat sum -----

  function Without(rows: seq<UsageRow>, key: string): seq<UsageRow> {
    if rows == [] then []
    else if KeyOf(rows[|rows| - 1]) == key then Without(rows[..|rows| - 1], key)
    else Without(rows[..|rows| - 1], key) + [rows[|rows| - 1]]
  }

  lemma {:induction false} WithoutSplits(rows: seq<UsageRow>, key: string)
    ensures FlatCost(rows) == CostOf(rows, key) + FlatCost(Without(rows, key))
  {
    if rows != [] {
      var front, last := rows[..|rows| - 1], rows[|rows| - 1];
      WithoutSplits(front, key);
      var others := Without(front, key);
      assert (others + [last])[..|others|] == others;
    }
  }

  lemma {:induction false} WithoutSelects(rows: seq<UsageRow>, key: string, r: UsageRow)
    ensures r in Without(rows, key) <==> r in rows && KeyOf(r) != key
  {
    if rows != [] {
      var front, last := rows[..|rows| - 1], rows[|rows| - 1];
      WithoutSelects(front, key, r);
      assert rows == front + [last];
    }
  }

  lemma {:induction false} WithoutKeepsOthers(rows: seq<UsageRow>, key: string, other: string)
    requires other != key
    ensures CostOf(Without(rows, key), other) == CostOf(rows, other)
    ensures TokensOf(Without(rows, key), other) == TokensOf(rows, other)
    ensures CallsOf(Without(rows, key), other) == CallsOf(rows, other)
  {
    if rows != [] {
      var front, last := rows[..|rows| - 1], rows[|rows| - 1];
      WithoutKeepsOthers(front, key, other);
      assert (Without(front, key) + [last])[..|Without(front, key)|] == Without(front, key);
    }
  }

  /** Taking a bucket off, with the rows it stands for, leaves a GROUP BY. */
  lemma RestIsGroupBy(rows: seq<UsageRow>, buckets: seq<Bucket>)
    requires IsGroupBy(rows, buckets) && buckets != []
    ensures IsGroupBy(Without(rows, buckets[0].key), buckets[1..])
  {
    var key, rest := buckets[0].key, buckets[1..];
    var others := Without(rows, key);
    forall b | b in rest
      ensures && b.costMicros == CostOf(others, b.key) && b.tokens == TokensOf(others, b.key)
              && b.calls == CallsOf(others, b.key) > 0
    {
      WithoutKeepsOthers(rows, key, b.key);
    }
    forall r | r in others ensures exists i :: 0 <= i < |rest| && rest[i].key == KeyOf(r) {
      WithoutSelects(rows, key, r);
      var i :| 0 <= i < |buckets| && buckets[i].key == KeyOf(r);
      assert rest[i - 1].key == KeyOf(r);
    }
  }

  lemma FirstIsIn(rows: seq<UsageRow>)
    ensures rows != [] ==> rows[0] in rows
  {
  }

  /** Any bucket list GROUP BY may return sums to the flat sum of the rows. */
  lemma {:induction false} BucketsSumToFlat(rows: seq<UsageRow>, buckets: seq<Bucket>)
    requires IsGroupBy(rows, buckets)
    ensures BucketSum(buckets) == FlatCost(rows)
    decreases |buckets|
  {
    if buckets == [] {
      FirstIsIn(rows);
    } else {
      WithoutSplits(rows, buckets[0].key);
      RestIsGroupBy(rows, buckets);
      BucketsSumToFlat(Without(rows, buckets[0].key), buckets[1..]);
      assert buckets[0] in buckets;
    }
  }

  lemma {:induction false} KeysAreDistinctAndUsed(rows: seq<UsageRow>)
    ensures forall i, j :: 0 <= i < j < |KeysOf(rows)| ==> KeysOf(rows)[i] != KeysOf(rows)[j]
    ensures forall r :: r in rows ==> KeyOf(r) in KeysOf(rows)
    ensures forall key :: key in KeysOf(rows) ==> CallsOf(rows, key) > 0
  {
    if rows != [] {
      var front, last := rows[..|rows| - 1], rows[|rows| - 1];
      KeysAreDistinctAndUsed(front);
      forall r | r in rows ensures KeyOf(r) in KeysOf(rows) {
        assert r in front || r == last;
      }
    }
  }

  /** The aggregate is a GROUP BY of its rows. */
  lemma GroupingIsGroupBy(rows: seq<UsageRow>)
    ensures IsGroupBy(rows, GroupByStepKind(rows))
  {
    KeysAreDistinctAndUsed(rows);
    forall r | r in rows
      ensures exists i :: 0 <= i < |GroupByStepKind(rows)| && GroupByStepKind(rows)[i].key == KeyOf(r)
    {
      var i :| 0 <= i < |KeysOf(rows)| && KeysOf(rows)[i] == KeyOf(r);
      assert GroupByStepKind(rows)[i].key == KeyOf(r);
    }
  }

  // ----- ORDER BY tokens DESC, key ASC -----

  /** `rank` is the place of a key in the database's order of keys. */
  predicate Comes(rank: string -> int, a: Bucket, b: Bucket) {
    a.tokens > b.tokens || (a.tokens == b.tokens && rank(a.key) <= rank(b.key))
  }

  ghost predicate Ordered(rank: string -> int, buckets: seq<Bucket>) {
    forall i, j :: 0 <= i < j < |buckets| ==>
      || buckets[i].tokens > buckets[j].tokens
      || (buckets[i].tokens == buckets[j].tokens && rank(buckets[i].key) <= rank(buckets[j].key))
  }

  function Place(rank: string -> int, b: Bucket, buckets: seq<Bucket>): seq<Bucket> {
    if buckets == [] || Comes(rank, b, buckets[0]) then [b] + buckets
    else [buckets[0]] + Place(rank, b, buckets[1..])
  }

  function OrderBuckets(rank: string -> int, buckets: seq<Bucket>): seq<Bucket> {
    if buckets == [] then [] else Place(rank, buckets[0], OrderBuckets(rank, buckets[1..]))
  }

  ghost predicate DistinctKeys(buckets: seq<Bucket>) {
    forall i, j :: 0 <= i < j < |buckets| ==> buckets[i].key != buckets[j].key
  }

  lemma FrontBucket(rank: string -> int, b: Bucket, rest: seq<Bucket>)
    requires Ordered(rank, rest) && DistinctKeys(rest)
    requires forall x :: x in rest ==> Comes(rank, b, x) && x.key != b.key
    ensures Ordered(rank, [b] + rest) && DistinctKeys([b] + rest)
  {
    assert forall i :: 0 <= i < |rest| ==> rest[i] in rest;
  }

  lemma RestOfBuckets(rank: string -> int, buckets: seq<Bucket>, x: Bucket)
    requires buckets != [] && Ordered(rank, buckets) && DistinctKeys(buckets) && x in buckets[1..]
    ensures Comes(rank, buckets[0], x) && x.key != buckets[0].key && x in buckets
  {
    var i :| 0 <= i < |buckets[1..]| && buckets[1..][i] == x;
    assert buckets[i + 1] == x;
  }

  lemma {:induction false} PlaceHolds(rank: string -> int, b: Bucket, buckets: seq<Bucket>, x: Bucket)
    ensures x in Place(rank, b, buckets) <==> x == b || x in buckets
  {
    if buckets != [] {
      PlaceHolds(rank, b, buckets[1..], x);
      assert buckets == [buckets[0]] + buckets[1..];
    }
  }

  lemma {:induction false} PlaceOrders(rank: string -> int, b: Bucket, buckets: seq<Bucket>)
    requires Ordered(rank, buckets) && DistinctKeys(buckets) && forall x :: x in buckets ==> x.key != b.key
    ensures Ordered(rank, Place(rank, b, buckets)) && DistinctKeys(Place(rank, b, buckets))
  {
    if buckets != [] {
      var head, rest := buckets[0], buckets[1..];
      assert buckets == [head] + rest && head in buckets;
      forall x | x in rest ensures Comes(rank, head, x) && x.key != head.key && x in buckets {
        RestOfBuckets(rank, buckets, x);
      }
      if Comes(rank, b, head) {
        FrontBucket(rank, b, buckets);
      } else {
        PlaceOrders(rank, b, rest);
        forall x ensures x in Place(rank, b, rest) <==> x == b || x in rest { PlaceHolds(rank, b, rest, x); }
        FrontBucket(rank, head, Place(rank, b, rest));
      }
    }
  }

  /** Ordering keeps the buckets, each once, and puts them in order. */
  lemma {:induction false} OrderBucketsOrders(rank: string -> int, buckets: seq<Bucket>)
    requires DistinctKeys(buckets)
    ensures Ordered(rank, OrderBuckets(rank, buckets)) && DistinctKeys(OrderBuckets(rank, buckets))
    ensures forall x :: x in OrderBuckets(rank, buckets) <==> x in buckets
  {
    if buckets != [] {
      var head, rest := buckets[0], buckets[1..];
      OrderBucketsOrders(rank, rest);
      assert buckets == [head] + rest;
      forall x | x in rest ensures x.key != head.key {
        var i :| 0 <= i < |rest| && rest[i] == x;
        assert buckets[i + 1] == x;
      }
      PlaceOrders(rank, head, OrderBuckets(rank, rest));
      forall x ensures x in OrderBuckets(rank, buckets) <==> x in buckets {
        PlaceHolds(rank, head, OrderBuckets(rank, rest), x);
      }
    }
  }

  /** The query: the buckets of a GROUP BY, most tokens first and by key among equals. */
  function Aggregate(rank: string -> int, rows: seq<UsageRow>): seq<Bucket> {
    OrderBuckets(rank, GroupByStepKind(rows))
  }

  lemma AggregateIsOrderedGroupBy(rank: string -> int, rows: seq<UsageRow>)
    ensures IsGroupBy(rows, Aggregate(rank, rows)) && Ordered(rank, Aggregate(rank, rows))
  {
    var buckets, ordered := GroupByStepKind(rows), Aggregate(rank, rows);
    GroupingIsGroupBy(rows);
    OrderBucketsOrders(rank, buckets);
    forall r | r in rows ensures exists i :: 0 <= i < |ordered| && ordered[i].key == KeyOf(r) {
      var i :| 0 <= i < |buckets| && buckets[i].key == KeyOf(r);
      assert buckets[i] in ordered;
      var j :| 0 <= j < |ordered| && ordered[j] == buckets[i];
    }
  }

  /** The spend the budget gate compares is the flat sum of the task's rows, NULL costs as zero. */
  lemma SpendIsFlatSum(rows: seq<UsageRow>, tenantId: string, taskId: string)
    ensures Spend(rows, tenantId, taskId) == FlatCost(ForTask(rows, tenantId, taskId))
  {
    var mine := ForTask(rows, tenantId, taskId);
    GroupingIsGroupBy(mine);
    BucketsSumToFlat(mine, GroupByStepKind(mine));
  }

  /** Replaying a record never changes what any task has spent; a new record adds exactly its own cost. */
  lemma RecordIsIdempotent(rows: seq<UsageRow>, row: UsageRow, tenantId: string, taskId: string)
    ensures Insert(Insert(rows, row), row) == Insert(rows, row)
    ensures var added := if (forall r :: r in rows ==> r.recordId != row.recordId) && row.tenantId == tenantId
                            && row.taskId == Some(taskId) && row.costMicros.Some? then row.costMicros.value else 0;
      Spend(Insert(rows, row), tenantId, taskId) == Spend(rows, tenantId, taskId) + added
  {
    SpendIsFlatSum(rows, tenantId, taskId);
    SpendIsFlatSum(Insert(rows, row), tenantId, taskId);
    if Insert(rows, row) != rows {
      assert (rows + [row])[|rows|].recordId == row.recordId;
      assert (rows + [row])[..|rows|] == rows;
      var mine := ForTask(rows, tenantId, taskId);
      assert (mine + [row])[..|mine|] == mine;
    }
  }

  class UsageRepository {
    var rows: seq<UsageRow>

    constructor ()
      ensures rows == []
    {
      rows := [];
    }

    /** Appends the record unless its id is already present. */
    method Record(row: UsageRow)
      modifies this
      ensures rows == Insert(old(rows), row)
      ensures rows == if forall r :: r in old(rows) ==> r.recordId != row.recordId then old(rows) + [row] else old(rows)
    {
      if forall i :: 0 <= i < |rows| ==> rows[i].recordId != row.recordId {
        rows := rows + [row];
      }
    }

    /** The buckets of one task. */
    method AggregateForTask(tenantId: string, taskId: string, rank: string -> int) returns (buckets: seq<Bucket>)
      ensures IsGroupBy(ForTask(rows, tenantId, taskId), buckets) && Ordered(rank, buckets)
      ensures BucketSum(buckets) == FlatCost(ForTask(rows, tenantId, taskId))
    {
      var mine := ForTask(rows, tenantId, taskId);
      buckets := Aggregate(rank, mine);
      AggregateIsOrderedGroupBy(rank, mine);
      BucketsSumToFlat(mine, buckets);
    }
  }
}
