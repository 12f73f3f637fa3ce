/**
 Keyset paging over the append-only audit table: the two ordered queries, the loop that reads a whole task, and the
 client that follows `next_cursor`.  Instants and identifiers enter by their rank in the database's order.
 */
module AuditPaging {
  import opened Options

  datatype Event = Event(id: int, at: int, tenant: string, task: Option<string>, action: string)

  datatype Cursor = Cursor(at: int, id: int)

  datatype Direction = Ascending | Descending

  /** The row filter of each query, without its cursor. */
  datatype Filter =
    | ForTask(tenant: string, task: string)
    | Window(tenant: string, since: int, until: int, action: Option<string>, taskId: Option<string>)

  predicate Matches(f: Filter, e: Event) {
    match f
    case ForTask(tenant, task) => e.tenant == tenant && e.task == Some(task)
    case Window(tenant, since, until, action, taskId) =>
      && e.tenant == tenant && since <= e.at < until
      && (action.Some? ==> e.action == action.value)
      && (taskId.Some? ==> e.task == taskId)
  }

  function KeyOf(e: Event): Cursor {
    Cursor(e.at, e.id)
  }

  predicate Precedes(dir: Direction, a: Cursor, b: Cursor) {
    match dir
    case Ascending => a.at < b.at || (a.at == b.at && a.id < b.id)
    case Descending => a.at > b.at || (a.at == b.at && a.id > b.id)
  }

  /** The keyset clause: strictly past the cursor, if there is one. */
  predicate Past(dir: Direction, cursor: Option<Cursor>, e: Event) {
    cursor.Some? ==> Precedes(dir, cursor.value, KeyOf(e))
  }

  function Where(f: Filter, dir: Direction, cursor: Option<Cursor>, table: seq<Event>): seq<Event> {
    if table == [] then []
    else
      var e := table[0];
      (if Matches(f, e) && Past(dir, cursor, e) then [e] else []) + Where(f, dir, cursor, table[1..])
  }

  function Insert(dir: Direction, e: Event, s: seq<Event>): seq<Event> {
    if s == [] || Precedes(dir, KeyOf(e), KeyOf(s[0])) then [e] + s else [s[0]] + Insert(dir, e, s[1..])
  }

  function OrderBy(dir: Direction, s: seq<Event>): seq<Event> {
    if s == [] then [] else Insert(dir, s[0], OrderBy(dir, s[1..]))
  }

  /** SELECT with WHERE, ORDER BY and LIMIT. */
  function Page(f: Filter, dir: Direction, cursor: Option<Cursor>, limit: nat, table: seq<Event>): seq<Event> {
    var all := OrderBy(dir, Where(f, dir, cursor, table));
    if |all| <= limit then all else all[..limit]
  }

  // ----- What a query returns -----

  /** The primary key: no two rows share an identifier. */
  ghost predicate Keyed(table: seq<Event>) {
    forall i, j :: 0 <= i < j < |table| ==> table[i].id != table[j].id
  }

  /** Strictly in order, so no row twice. */
  ghost predicate InOrder(dir: Direction, s: seq<Event>) {
    forall i, j :: 0 <= i < j < |s| ==>
      if dir.Ascending? then s[i].at < s[j].at || (s[i].at == s[j].at && s[i].id < s[j].id)
      else s[i].at > s[j].at || (s[i].at == s[j].at && s[i].id > s[j].id)
  }

  lemma {:induction false} WhereSelects(f: Filter, dir: Direction, cursor: Option<Cursor>, table: seq<Event>, e: Event)
    ensures e in Where(f, dir, cursor, table) <==> e in table && Matches(f, e) && Past(dir, cursor, e)
  {
    if table != [] {
      WhereSelects(f, dir, cursor, table[1..], e);
      assert table == [table[0]] + table[1..];
    }
  }

  lemma {:induction false} WhereKeyed(f: Filter, dir: Direction, cursor: Option<Cursor>, table: seq<Event>)
    requires Keyed(table)
    ensures Keyed(Where(f, dir, cursor, table))
  {
    if table != [] {
      var rest := Where(f, dir, cursor, table[1..]);
      WhereKeyed(f, dir, cursor, table[1..]);
      forall i | 0 <= i < |rest| ensures rest[i].id != table[0].id {
        WhereSelects(f, dir, cursor, table[1..], rest[i]);
      }
    }
  }

  lemma {:induction false} InsertAddsOne(dir: Direction, e: Event, s: seq<Event>)
    ensures multiset(Insert(dir, e, s)) == multiset(s) + multiset{e}
  {
    if s != [] && !Precedes(dir, KeyOf(e), KeyOf(s[0])) {
      InsertAddsOne(dir, e, s[1..]);
      assert s == [s[0]] + s[1..];
    }
  }

  /** A row that precedes all of a list in order goes in front of it. */
  lemma FrontInOrder(dir: Direction, e: Event, s: seq<Event>)
    requires InOrder(dir, s) && forall x :: x in s ==> Precedes(dir, KeyOf(e), KeyOf(x))
    ensures InOrder(dir, [e] + s)
  {
    assert forall i :: 0 <= i < |s| ==> s[i] in s;
  }

  /** The first row of a list in order precedes the rest. */
  lemma FirstPrecedes(dir: Direction, s: seq<Event>, x: Event)
    requires InOrder(dir, s) && s != [] && x in s[1..]
    ensures Precedes(dir, KeyOf(s[0]), KeyOf(x))
  {
    var i :| 0 <= i < |s[1..]| && s[1..][i] == x;
    assert s[i + 1] == x;
  }

  lemma {:induction false} InsertInOrder(dir: Direction, e: Event, s: seq<Event>)
    requires InOrder(dir, s) && forall x :: x in s ==> x.id != e.id
    ensures InOrder(dir, Insert(dir, e, s))
  {
    if s == [] {
    } else if Precedes(dir, KeyOf(e), KeyOf(s[0])) {
      assert s == [s[0]] + s[1..];
      forall x | x in s[1..] ensures Precedes(dir, KeyOf(e), KeyOf(x)) { FirstPrecedes(dir, s, x); }
      FrontInOrder(dir, e, s);
    } else {
      var rest := s[1..];
      InsertInOrder(dir, e, rest);
      InsertAddsOne(dir, e, rest);
      assert s[0] in s;
      var inserted := Insert(dir, e, rest);
      forall x | x in inserted ensures Precedes(dir, KeyOf(s[0]), KeyOf(x)) {
        assert x in multiset(inserted);
        if x != e { FirstPrecedes(dir, s, x); }
      }
      FrontInOrder(dir, s[0], inserted);
    }
  }

  /** ORDER BY puts the rows strictly in order and neither drops nor repeats one. */
  lemma {:induction false} OrderByOrders(dir: Direction, s: seq<Event>)
    requires Keyed(s)
    ensures InOrder(dir, OrderBy(dir, s)) && multiset(OrderBy(dir, s)) == multiset(s)
  {
    if s != [] {
      OrderByOrders(dir, s[1..]);
      assert s == [s[0]] + s[1..];
      var rest := OrderBy(dir, s[1..]);
      forall x | x in rest ensures x.id != s[0].id {
        assert x in multiset(rest);
        assert x in s[1..];
      }
      InsertInOrder(dir, s[0], rest);
      InsertAddsOne(dir, s[0], rest);
    }
  }

  /**
   A page is in order, holds only wanted rows past the cursor, and leaves one out only when it is full and the row
   comes after everything on it.
   */
  ghost predicate IsPage(f: Filter, dir: Direction, cursor: Option<Cursor>, limit: nat, table: seq<Event>,
                         page: seq<Event>)
  {
    && InOrder(dir, page) && |page| <= limit
    && (forall e :: e in page ==> e in table && Matches(f, e) && Past(dir, cursor, e))
    && (forall e :: e in table && Matches(f, e) && Past(dir, cursor, e) && e !in page ==>
          |page| == limit && Behind(dir, page, e))
  }

  ghost predicate Behind(dir: Direction, page: seq<Event>, e: Event) {
    forall x :: x in page ==> Precedes(dir, KeyOf(x), KeyOf(e))
  }

  lemma AllInOrder(f: Filter, dir: Direction, cursor: Option<Cursor>, table: seq<Event>)
    requires Keyed(table)
    ensures InOrder(dir, OrderBy(dir, Where(f, dir, cursor, table)))
  {
    WhereKeyed(f, dir, cursor, table);
    OrderByOrders(dir, Where(f, dir, cursor, table));
  }

  lemma AllSelects(f: Filter, dir: Direction, cursor: Option<Cursor>, table: seq<Event>, e: Event)
    requires Keyed(table)
    ensures e in OrderBy(dir, Where(f, dir, cursor, table)) <==> e in table && Matches(f, e) && Past(dir, cursor, e)
  {
    var wanted := Where(f, dir, cursor, table);
    WhereKeyed(f, dir, cursor, table);
    OrderByOrders(dir, wanted);
    WhereSelects(f, dir, cursor, table, e);
    assert e in OrderBy(dir, wanted) <==> e in multiset(OrderBy(dir, wanted));
  }

  /** What a cut leaves out comes after what it keeps. */
  lemma CutLeavesBehind(dir: Direction, all: seq<Event>, limit: nat, e: Event)
    requires InOrder(dir, all) && limit <= |all| && e in all && e !in all[..limit]
    ensures Behind(dir, all[..limit], e)
  {
    var i :| 0 <= i < |all| && all[i] == e;
    assert forall m :: 0 <= m < limit ==> all[m] in all[..limit];
    forall x | x in all[..limit] ensures Precedes(dir, KeyOf(x), KeyOf(e)) {
      var m :| 0 <= m < limit && all[m] == x;
    }
  }

  lemma PageIsPage(f: Filter, dir: Direction, cursor: Option<Cursor>, limit: nat, table: seq<Event>)
    requires Keyed(table)
    ensures IsPage(f, dir, cursor, limit, table, Page(f, dir, cursor, limit, table))
  {
    var all, page := OrderBy(dir, Where(f, dir, cursor, table)), Page(f, dir, cursor, limit, table);
    AllInOrder(f, dir, cursor, table);
    forall e ensures e in all <==> e in table && Matches(f, e) && Past(dir, cursor, e) {
      AllSelects(f, dir, cursor, table, e);
    }
    if |all| > limit {
      forall e | e in all && e !in page ensures Behind(dir, page, e) { CutLeavesBehind(dir, all, limit, e); }
    }
  }

  /** The table and its two paged queries. */
  class AuditRepository {
    var rows: seq<Event>

    constructor ()
      ensures rows == [] && Keyed(rows)
    {
      rows := [];
    }

    /** INSERT; a taken identifier is refused. */
    method Append(event: Event) returns (ok: bool)
      requires Keyed(rows)
      modifies this
      ensures Keyed(rows)
      ensures ok <==> forall e :: e in old(rows) ==> e.id != event.id
      ensures rows == if ok then old(rows) + [event] else old(rows)
    {
      for i := 0 to |rows|
        invariant forall e :: e in rows[..i] ==> e.id != event.id
        invariant rows == old(rows)
      {
        if rows[i].id == event.id { return false; }
      }
      rows := rows + [event];
      return true;
    }

    method ListForTaskSince(tenant: string, task: string, after: Option<Cursor>, limit: nat)
      returns (page: seq<Event>)
      requires Keyed(rows)
      ensures page == Page(ForTask(tenant, task), Ascending, after, limit, rows)
      ensures IsPage(ForTask(tenant, task), Ascending, after, limit, rows, page)
    {
      PageIsPage(ForTask(tenant, task), Ascending, after, limit, rows);
      page := Page(ForTask(tenant, task), Ascending, after, limit, rows);
    }

    method ListFiltered(filter: Filter, before: Option<Cursor>, limit: nat) returns (page: seq<Event>)
      requires Keyed(rows) && filter.Window?
      ensures page == Page(filter, Descending, before, limit, rows)
      ensures IsPage(filter, Descending, before, limit, rows, page)
    {
      PageIsPage(filter, Descending, before, limit, rows);
      page := Page(filter, Descending, before, limit, rows);
    }
  }

  // ----- Reading page after page while others append -----

  /** The `k`-th query of a reader sees `log[..seen(k)]`: rows are only ever added. */
  ghost predicate Growing(log: seq<Event>, seen: nat -> nat) {
    && Keyed(log)
    && (forall k: nat :: seen(k) <= |log|)
    && (forall i: nat, j: nat :: i <= j ==> seen(i) <= seen(j))
  }

  /**
   What a reader has so far: matching rows, strictly in order, the cursor at the last; of the rows that were there at
   the first query, every one the cursor has passed.
   */
  ghost predicate ReadUpTo(f: Filter, dir: Direction, log: seq<Event>, first: nat, rows: seq<Event>,
                           cursor: Option<Cursor>)
    requires first <= |log|
  {
    && InOrder(dir, rows)
    && (forall e :: e in rows ==> e in log && Matches(f, e))
    && cursor == (if rows == [] then None else Some(KeyOf(rows[|rows| - 1])))
    && (forall e :: e in log[..first] && Matches(f, e) && !Past(dir, cursor, e) ==> e in rows)
  }

  /** Each once and in order, nothing else, and everything that was there at the first query. */
  ghost predicate ReadAll(f: Filter, dir: Direction, log: seq<Event>, first: nat, rows: seq<Event>)
    requires first <= |log|
  {
    && InOrder(dir, rows)
    && (forall e :: e in rows ==> e in log && Matches(f, e))
    && (forall e :: e in log[..first] && Matches(f, e) ==> e in rows)
  }

  lemma JoinInOrder(dir: Direction, rows: seq<Event>, page: seq<Event>, cursor: Option<Cursor>)
    requires InOrder(dir, rows) && InOrder(dir, page) && forall e :: e in page ==> Past(dir, cursor, e)
    requires cursor == if rows == [] then None else Some(KeyOf(rows[|rows| - 1]))
    ensures InOrder(dir, rows + page)
  {
    var s := rows + page;
    forall i, j | 0 <= i < j < |s| ensures Precedes(dir, KeyOf(s[i]), KeyOf(s[j])) {
      if i < |rows| <= j {
        assert s[j] == page[j - |rows|] && Past(dir, cursor, s[j]);
        assert i < |rows| - 1 ==> Precedes(dir, KeyOf(rows[i]), KeyOf(rows[|rows| - 1]));
      }
    }
  }

  /** A full page moves the reader on. */
  lemma FullPage(f: Filter, dir: Direction, log: seq<Event>, first: nat, now: nat, rows: seq<Event>,
                 cursor: Option<Cursor>, page: seq<Event>)
    requires first <= now <= |log| && ReadUpTo(f, dir, log, first, rows, cursor)
    requires page != [] && IsPage(f, dir, cursor, |page|, log[..now], page)
    ensures ReadUpTo(f, dir, log, first, rows + page, Some(KeyOf(page[|page| - 1])))
    ensures page[|page| - 1] in log && Matches(f, page[|page| - 1]) && Past(dir, cursor, page[|page| - 1])
  {
    var last, all := page[|page| - 1], rows + page;
    assert last in page && all[|all| - 1] == last;
    JoinInOrder(dir, rows, page, cursor);
    forall e | e in log[..first] && Matches(f, e) && !Past(dir, Some(KeyOf(last)), e) ensures e in all {
      assert e in log[..now];
      assert Past(dir, cursor, e) && e !in page ==> Behind(dir, page, e);
    }
  }

  /** A short page ends the reading. */
  lemma ShortPage(f: Filter, dir: Direction, log: seq<Event>, first: nat, now: nat, rows: seq<Event>,
                  cursor: Option<Cursor>, limit: nat, page: seq<Event>)
    requires first <= now <= |log| && ReadUpTo(f, dir, log, first, rows, cursor)
    requires |page| < limit && IsPage(f, dir, cursor, limit, log[..now], page)
    ensures ReadAll(f, dir, log, first, rows + page)
  {
    JoinInOrder(dir, rows, page, cursor);
    forall e | e in log[..first] && Matches(f, e) ensures e in rows + page {
      assert e in log[..now];
    }
  }

  /** Every row the cursor passes is one fewer to read. */
  lemma {:induction false} FewerLeft(f: Filter, dir: Direction, cursor: Option<Cursor>, e: Event, log: seq<Event>)
    requires Past(dir, cursor, e)
    ensures |Where(f, dir, Some(KeyOf(e)), log)| <= |Where(f, dir, cursor, log)|
    ensures e in log && Matches(f, e) ==> |Where(f, dir, Some(KeyOf(e)), log)| < |Where(f, dir, cursor, log)|
  {
    if log != [] { FewerLeft(f, dir, cursor, e, log[1..]); }
  }

  /** With nothing added meanwhile, reading everything is the one ordered query without a limit. */
  lemma QuietReadIsTheQuery(f: Filter, dir: Direction, log: seq<Event>, rows: seq<Event>)
    requires Keyed(log) && ReadAll(f, dir, log, |log|, rows)
    ensures rows == OrderBy(dir, Where(f, dir, None, log))
  {
    var all := OrderBy(dir, Where(f, dir, None, log));
    assert log[..|log|] == log;
    PageIsPage(f, dir, None, |all|, log);
    WhereKeyed(f, dir, None, log);
    OrderByOrders(dir, Where(f, dir, None, log));
    forall e ensures e in all <==> e in rows {
      WhereSelects(f, dir, None, log, e);
      assert e in all <==> e in multiset(all);
    }
    SameRowsSameOrder(dir, all, rows);
  }

  lemma HeadIsIn(s: seq<Event>)
    ensures s != [] ==> s[0] in s
  {
  }

  /** Two lists in order with the same rows are the same list. */
  lemma {:induction false} SameRowsSameOrder(dir: Direction, s: seq<Event>, t: seq<Event>)
    requires InOrder(dir, s) && InOrder(dir, t) && forall e :: e in s <==> e in t
    ensures s == t
  {
    if s == [] {
      HeadIsIn(t);
    } else {
      assert s[0] in t && t[0] in s;
      var i :| 0 <= i < |t| && t[i] == s[0];
      var j :| 0 <= j < |s| && s[j] == t[0];
      assert s[0] == t[0];
      forall e ensures e in s[1..] <==> e in t[1..] {
        RestOfOrder(dir, s, e);
        RestOfOrder(dir, t, e);
      }
      SameRowsSameOrder(dir, s[1..], t[1..]);
    }
  }

  lemma RestOfOrder(dir: Direction, s: seq<Event>, e: Event)
    requires s != [] && InOrder(dir, s)
    ensures e in s[1..] <==> e in s && e != s[0]
  {
    assert s == [s[0]] + s[1..];
  }

  /** Nothing but rows of the task, and every one of those that were there. */
  ghost predicate TaskIsRead(tenant: string, task: string, there: seq<Event>, rows: seq<Event>) {
    && (forall e :: e in rows ==> e.tenant == tenant && e.task == Some(task))
    && (forall e :: e in there && e.tenant == tenant && e.task == Some(task) ==> e in rows)
  }

  lemma ReadAllIsTask(tenant: string, task: string, dir: Direction, log: seq<Event>, first: nat, rows: seq<Event>)
    requires first <= |log| && ReadAll(ForTask(tenant, task), dir, log, first, rows)
    ensures TaskIsRead(tenant, task, log[..first], rows)
  {
  }

  /** Nothing but rows a list request asks for, and every one of those that were there. */
  ghost predicate WindowIsRead(f: Filter, there: seq<Event>, rows: seq<Event>)
    requires f.Window?
  {
    && (forall e :: e in rows ==> Asked(f, e))
    && (forall e :: e in there && Asked(f, e) ==> e in rows)
  }

  ghost predicate Asked(f: Filter, e: Event)
    requires f.Window?
  {
    && e.tenant == f.tenant && f.since <= e.at && e.at < f.until
    && f.action in {None, Some(e.action)} && f.taskId in {None, e.task}
  }

  lemma ReadAllIsWindow(f: Filter, dir: Direction, log: seq<Event>, first: nat, rows: seq<Event>)
    requires f.Window? && first <= |log| && ReadAll(f, dir, log, first, rows)
    ensures WindowIsRead(f, log[..first], rows)
  {
    forall e | e in rows ensures Asked(f, e) { assert Matches(f, e); }
    forall e | e in log[..first] && Asked(f, e) ensures e in rows { assert Matches(f, e); }
  }

  /**
   Reads a whole task in ascending pages, whatever is appended between two queries; with nothing appended the result
   is exactly the matching events in (occurred_at, event_id) order.
   */
  method ListAllTaskAudits(log: seq<Event>, seen: nat -> nat, tenant: string, task: string, size: nat)
    returns (rows: seq<Event>)
    requires Growing(log, seen) && size >= 1
    ensures ReadAll(ForTask(tenant, task), Ascending, log, seen(0), rows)
    ensures TaskIsRead(tenant, task, log[..seen(0)], rows)
    ensures seen(0) == |log| ==> rows == OrderBy(Ascending, Where(ForTask(tenant, task), Ascending, None, log))
  {
    var f := ForTask(tenant, task);
    rows := [];
    var cursor: Option<Cursor> := None;
    var k: nat := 0;
    while true
      invariant ReadUpTo(f, Ascending, log, seen(0), rows, cursor)
      decreases |Where(f, Ascending, cursor, log)|
    {
      var table := log[..seen(k)];
      PageIsPage(f, Ascending, cursor, size, table);
      var page := Page(f, Ascending, cursor, size, table);
      if |page| < size {
        ShortPage(f, Ascending, log, seen(0), seen(k), rows, cursor, size, page);
      }
      if page == [] {
        assert rows + page == rows;
        break;
      }
      rows := rows + page;
      if |page| < size { break; }
      var last := page[|page| - 1];
      FullPage(f, Ascending, log, seen(0), seen(k), rows[..|rows| - |page|], cursor, page);
      FewerLeft(f, Ascending, cursor, last, log);
      assert rows[..|rows| - |page|] + page == rows;
      cursor := Some(KeyOf(last));
      k := k + 1;
    }
    ReadAllIsTask(tenant, task, Ascending, log, seen(0), rows);
    if seen(0) == |log| { QuietReadIsTheQuery(f, Ascending, log, rows); }
  }

  /** One answer of the list endpoint: the cursor is given only with a full page. */
  method ListAudits(table: seq<Event>, filter: Filter, before: Option<Cursor>, limit: nat)
    returns (items: seq<Event>, nextCursor: Option<Cursor>)
    requires Keyed(table) && limit >= 1
    ensures IsPage(filter, Descending, before, limit, table, items)
    ensures nextCursor == if |items| == limit then Some(KeyOf(items[|items| - 1])) else None
  {
    PageIsPage(filter, Descending, before, limit, table);
    items := Page(filter, Descending, before, limit, table);
    nextCursor := None;
    if |items| == limit {
      nextCursor := Some(KeyOf(items[|items| - 1]));
    }
  }

  /** A client that passes `next_cursor` back until none comes. */
  method FollowCursor(log: seq<Event>, seen: nat -> nat, filter: Filter, limit: nat) returns (rows: seq<Event>)
    requires Growing(log, seen) && limit >= 1
    ensures ReadAll(filter, Descending, log, seen(0), rows)
    ensures filter.Window? ==> WindowIsRead(filter, log[..seen(0)], rows)
    ensures seen(0) == |log| ==> rows == OrderBy(Descending, Where(filter, Descending, None, log))
  {
    var k: nat := 0;
    var page, cursor := ListAudits(log[..seen(0)], filter, None, limit);
    rows := page;
    ghost var was: seq<Event>, from: Option<Cursor> := [], None;
    while cursor.Some?
      invariant rows == was + page && ReadUpTo(filter, Descending, log, seen(0), was, from)
      invariant IsPage(filter, Descending, from, limit, log[..seen(k)], page)
      invariant cursor == if |page| == limit then Some(KeyOf(page[|page| - 1])) else None
      decreases |Where(filter, Descending, from, log)|
    {
      FullPage(filter, Descending, log, seen(0), seen(k), was, from, page);
      FewerLeft(filter, Descending, from, page[|page| - 1], log);
      was, from := rows, cursor;
      k := k + 1;
      page, cursor := ListAudits(log[..seen(k)], filter, cursor, limit);
      rows := rows + page;
    }
    ShortPage(filter, Descending, log, seen(0), seen(k), was, from, limit, page);
    if filter.Window? { ReadAllIsWindow(filter, Descending, log, seen(0), rows); }
    if seen(0) == |log| { QuietReadIsTheQuery(filter, Descending, log, rows); }
  }
}
