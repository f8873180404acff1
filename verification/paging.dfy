/** Keyset pagination of request history
    (internal/persistence/postgres/reader.go, internal/adminapi/handler.go).

    A request identifier is represented by its rank in the database's ordering of
    identifiers, a time by an integer. */
module Paging {
  import opened Common

  datatype Position = Position(startedAt: int, requestID: nat)

  datatype Row = Row(key: Position, initialProvider: Option<string>, finalProvider: Option<string>,
                     policy: string, outcome: string, streaming: bool, cacheHit: bool)

  /** The optional conditions of a list query; an empty text means none. */
  datatype Conditions = Conditions(
    provider: string, policy: string, outcome: string, streaming: Option<bool>, cacheHit: Option<bool>,
    startedAfter: Option<int>, startedBefore: Option<int>)

  const MAX_PAGE_SIZE: nat := 100

  /** The row comparison (started_at, request_id) < (stamp, id). */
  predicate Older(a: Position, b: Position)
  {
    a.startedAt < b.startedAt || (a.startedAt == b.startedAt && a.requestID < b.requestID)
  }

  /** The WHERE clause without its keyset bound. */
  predicate Meets(c: Conditions, r: Row)
  {
    && (c.provider != "" ==> r.initialProvider == Some(c.provider) || r.finalProvider == Some(c.provider))
    && (c.policy != "" ==> r.policy == c.policy)
    && (c.outcome != "" ==> r.outcome == c.outcome)
    && (c.streaming.Some? ==> r.streaming == c.streaming.value)
    && (c.cacheHit.Some? ==> r.cacheHit == c.cacheHit.value)
    && (c.startedAfter.Some? ==> r.key.startedAt > c.startedAfter.value)
    && (c.startedBefore.Some? ==> r.key.startedAt < c.startedBefore.value)
  }

  predicate BelowCursor(cursor: Option<Position>, r: Row) { cursor.Some? ==> Older(r.key, cursor.value) }

  /** The rows the WHERE clause selects. */
  function Selected(table: set<Row>, c: Conditions, cursor: Option<Position>): set<Row>
  {
    set r | r in table && Meets(c, r) && BelowCursor(cursor, r)
  }

  ghost predicate Descending(rows: seq<Row>)
  {
    forall i, j :: 0 <= i < j < |rows| ==> Older(rows[j].key, rows[i].key)
  }

  /** The primary key: one row per identifier. */
  ghost predicate KeysUnique(table: set<Row>)
  {
    forall r, q :: r in table && q in table && r.key == q.key ==> r == q
  }

  /** The relational meaning of ORDER BY ... DESC LIMIT n over the selected rows. */
  ghost predicate IsTop(selected: set<Row>, n: nat, rows: seq<Row>)
  {
    && Descending(rows) && |rows| <= n
    && (forall i :: 0 <= i < |rows| ==> rows[i] in selected)
    && (|rows| < n ==> forall r :: r in selected ==> r in rows)
    && (forall r, i :: r in selected && r !in rows && 0 <= i < |rows| ==> Older(r.key, rows[i].key))
  }

  lemma {:induction false} NewestExists(s: set<Row>) returns (m: Row)
    requires s != {} && KeysUnique(s)
    ensures m in s && forall r :: r in s && r != m ==> Older(r.key, m.key)
    decreases |s|
  {
    m :| m in s;
    var rest := s - {m};
    if rest != {} {
      var n := NewestExists(rest);
      if Older(m.key, n.key) {
        m := n;
      } else {
        assert m.key != n.key;
      }
    }
  }

  /** A page exists for every table, bound and size. */
  lemma {:induction false} TopExists(s: set<Row>, n: nat) returns (rows: seq<Row>)
    requires KeysUnique(s)
    ensures IsTop(s, n, rows)
  {
    if n == 0 || s == {} {
      rows := [];
    } else {
      var m := NewestExists(s);
      var rest := TopExists(s - {m}, n - 1);
      rows := [m] + rest;
      assert forall r :: r in s && r !in rows ==> r in s - {m} && r !in rest;
    }
  }

  /** The list handler's page cut and next-cursor choice. */
  method CutPage(records: seq<Row>, limit: nat) returns (items: seq<Row>, next: Option<Position>)
    requires 1 <= limit
    ensures items == Items(records, limit) && next == Next(records, limit)
  {
    var page := records;
    next := None;
    if |page| > limit {
      page := page[..limit];
      var last := page[|page| - 1];
      next := Some(last.key);
    }
    items := [];
    var i := 0;
    while i < |page|
      invariant 0 <= i <= |page| && items == page[..i]
    {
      items := items + [page[i]];
      i := i + 1;
    }
  }

  function Items(records: seq<Row>, limit: nat): seq<Row> { if |records| > limit then records[..limit] else records }

  function Next(records: seq<Row>, limit: nat): Option<Position>
  {
    if |records| > limit && limit > 0 then Some(records[limit - 1].key) else None
  }

  // --------------------------------------------------------------- walks

  /** One request of a walk: the table as it stood then, the cursor sent, and the
      records the query returned. */
  datatype Page = Page(table: set<Row>, cursor: Option<Position>, records: seq<Row>)

  ghost predicate IsPage(c: Conditions, limit: nat, p: Page)
  {
    KeysUnique(p.table) && IsTop(Selected(p.table, c, p.cursor), limit + 1, p.records)
  }

  /** Pages fetched by following next_cursor; the table may change in between. */
  ghost predicate IsWalk(c: Conditions, limit: nat, pages: seq<Page>)
  {
    && 1 <= limit <= MAX_PAGE_SIZE && pages != [] && pages[0].cursor == None
    && (forall i :: 0 <= i < |pages| ==> IsPage(c, limit, pages[i]))
    && (forall i :: 0 < i < |pages| ==>
          pages[i].cursor.Some? && pages[i].cursor == Next(pages[i - 1].records, limit))
  }

  ghost predicate Ended(pages: seq<Page>, limit: nat)
  {
    pages != [] && Next(pages[|pages| - 1].records, limit) == None
  }

  /** Everything the walk showed, in order. */
  function Shown(pages: seq<Page>, limit: nat): seq<Row>
  {
    if pages == [] then [] else Shown(pages[..|pages| - 1], limit) + Items(pages[|pages| - 1].records, limit)
  }

  lemma WalkPrefix(c: Conditions, limit: nat, pages: seq<Page>)
    requires IsWalk(c, limit, pages) && |pages| > 1
    ensures IsWalk(c, limit, pages[..|pages| - 1])
  {
    var front := pages[..|pages| - 1];
    assert forall i :: 0 <= i < |front| ==> front[i] == pages[i];
  }

  /** What a page shows is newest first and not older than the cursor it hands on. */
  lemma PageIsOrdered(c: Conditions, limit: nat, p: Page)
    requires IsPage(c, limit, p) && limit >= 1
    ensures Descending(Items(p.records, limit))
    ensures forall i :: 0 <= i < |Items(p.records, limit)| ==>
              BelowCursor(p.cursor, Items(p.records, limit)[i]) && Items(p.records, limit)[i] in p.table
              && Meets(c, Items(p.records, limit)[i])
    ensures Next(p.records, limit).Some? ==>
              AtOrAbove(Items(p.records, limit), Next(p.records, limit).value)
              && (p.cursor.Some? ==> Older(Next(p.records, limit).value, p.cursor.value))
  {
  }

  lemma {:induction false} ShownBounds(c: Conditions, limit: nat, pages: seq<Page>)
    requires IsWalk(c, limit, pages)
    ensures Descending(Shown(pages, limit))
    ensures Next(pages[|pages| - 1].records, limit).Some? ==>
              AtOrAbove(Shown(pages, limit), Next(pages[|pages| - 1].records, limit).value)
  {
    var last := pages[|pages| - 1];
    PageIsOrdered(c, limit, last);
    if |pages| == 1 {
      assert pages[..0] == [];
      assert Shown(pages, limit) == Items(last.records, limit);
    } else {
      WalkPrefix(c, limit, pages);
      ShownBounds(c, limit, pages[..|pages| - 1]);
      assert pages[..|pages| - 1][|pages| - 2] == pages[|pages| - 2];
      CursorSeparates(Shown(pages[..|pages| - 1], limit), Items(last.records, limit), last.cursor.value);
    }
  }

  /** Rows not older than a position. */
  ghost predicate AtOrAbove(rows: seq<Row>, p: Position) { forall i :: 0 <= i < |rows| ==> !Older(rows[i].key, p) }

  lemma CursorSeparates(a: seq<Row>, b: seq<Row>, cursor: Position)
    requires Descending(a) && Descending(b)
    requires AtOrAbove(a, cursor) && forall i :: 0 <= i < |b| ==> Older(b[i].key, cursor)
    ensures Descending(a + b)
    ensures forall p :: Older(p, cursor) && AtOrAbove(b, p) ==> AtOrAbove(a + b, p)
  {
  }

  /** Newest first, nothing twice: a walk shows rows in strictly descending order,
      whatever is inserted or deleted between its pages. */
  lemma WalkIsDescending(c: Conditions, limit: nat, pages: seq<Page>)
    requires IsWalk(c, limit, pages)
    ensures forall i, j :: 0 <= i < j < |Shown(pages, limit)| ==>
              var newer, older := Shown(pages, limit)[i], Shown(pages, limit)[j];
              && newer != older && older.key.startedAt <= newer.key.startedAt
              && (older.key.startedAt == newer.key.startedAt ==> older.key.requestID < newer.key.requestID)
  {
    ShownBounds(c, limit, pages);
  }

  /** Newest first also against what is not shown yet: a matching row that was there
      throughout and has not been shown is not newer than any that has. */
  lemma NothingNewerIsLeft(c: Conditions, limit: nat, pages: seq<Page>, r: Row, i: nat)
    requires IsWalk(c, limit, pages) && Meets(c, r) && i < |Shown(pages, limit)| && r !in Shown(pages, limit)
    requires forall k :: 0 <= k < |pages| ==> r in pages[k].table
    ensures r.key.startedAt <= Shown(pages, limit)[i].key.startedAt
  {
    SeenOrBelow(c, limit, pages, r);
    ShownBounds(c, limit, pages);
  }

  /** Every page that hands on a cursor is full, and none is more than full. */
  lemma PagesAreFull(c: Conditions, limit: nat, pages: seq<Page>, i: nat)
    requires IsWalk(c, limit, pages) && i < |pages|
    ensures |Items(pages[i].records, limit)| <= limit
    ensures i < |pages| - 1 || !Ended(pages, limit) ==> |Items(pages[i].records, limit)| == limit
  {
    if i < |pages| - 1 {
      assert pages[i + 1].cursor == Next(pages[i].records, limit);
    }
  }

  /** A row meets the conditions exactly when each is either not made or true of it. */
  lemma MeetsEachCondition(c: Conditions, r: Row)
    ensures Meets(c, r)
            <==> && (c.provider == "" || Some(c.provider) == r.initialProvider || Some(c.provider) == r.finalProvider)
                 && (c.policy == "" || c.policy == r.policy) && (c.outcome == "" || c.outcome == r.outcome)
                 && (c.streaming == None || c.streaming == Some(r.streaming)) && (c.cacheHit == None || c.cacheHit == Some(r.cacheHit))
                 && (c.startedAfter.None? || c.startedAfter.value < r.key.startedAt)
                 && (c.startedBefore.None? || r.key.startedAt < c.startedBefore.value)
  {
  }

  /** What a walk shows is what was asked for. */
  lemma {:induction false} ShownIsAskedFor(c: Conditions, limit: nat, pages: seq<Page>, i: nat)
    requires IsWalk(c, limit, pages) && i < |Shown(pages, limit)|
    ensures Meets(c, Shown(pages, limit)[i])
  {
    var last := pages[|pages| - 1];
    PageIsOrdered(c, limit, last);
    var front := Shown(pages[..|pages| - 1], limit);
    if i < |front| {
      if |pages| > 1 {
        WalkPrefix(c, limit, pages);
        ShownIsAskedFor(c, limit, pages[..|pages| - 1], i);
      }
    } else {
      assert Shown(pages, limit)[i] == Items(last.records, limit)[i - |front|];
    }
  }

  /** A row selected for a page is shown there, or lies below the cursor handed on. */
  lemma ShownOrBelow(c: Conditions, limit: nat, p: Page, r: Row)
    requires IsPage(c, limit, p) && limit >= 1 && r in Selected(p.table, c, p.cursor)
    ensures r in Items(p.records, limit) || (Next(p.records, limit).Some? && Older(r.key, Next(p.records, limit).value))
  {
    if |p.records| > limit {
      if r in p.records {
        var i :| 0 <= i < |p.records| && p.records[i] == r;
        assert i < limit ==> Items(p.records, limit)[i] == r;
      }
    }
  }

  lemma {:induction false} SeenOrBelow(c: Conditions, limit: nat, pages: seq<Page>, r: Row)
    requires IsWalk(c, limit, pages) && Meets(c, r)
    requires forall i :: 0 <= i < |pages| ==> r in pages[i].table
    ensures r in Shown(pages, limit)
            || (Next(pages[|pages| - 1].records, limit).Some? && Older(r.key, Next(pages[|pages| - 1].records, limit).value))
  {
    var last := pages[|pages| - 1];
    if |pages| > 1 {
      WalkPrefix(c, limit, pages);
      SeenOrBelow(c, limit, pages[..|pages| - 1], r);
      assert pages[..|pages| - 1][|pages| - 2] == pages[|pages| - 2];
    }
    if r !in Shown(pages[..|pages| - 1], limit) {
      ShownOrBelow(c, limit, last, r);
    }
  }

  /** Nothing is missed: a walk followed to its end shows every matching row that was
      there throughout, even when other rows come and go between pages. */
  lemma WalkIsComplete(c: Conditions, limit: nat, pages: seq<Page>, r: Row)
    requires IsWalk(c, limit, pages) && Ended(pages, limit) && Meets(c, r)
    requires forall i :: 0 <= i < |pages| ==> r in pages[i].table
    ensures r in Shown(pages, limit)
  {
    SeenOrBelow(c, limit, pages, r);
  }

  // --------------------------------------------------------- termination

  lemma {:induction false} DistinctWithin(rows: seq<Row>, s: set<Row>)
    requires forall i :: 0 <= i < |rows| ==> rows[i] in s
    requires forall i, j :: 0 <= i < j < |rows| ==> rows[i] != rows[j]
    ensures |rows| <= |s|
  {
    if rows != [] {
      var last := rows[|rows| - 1];
      DistinctWithin(rows[..|rows| - 1], s - {last});
    }
  }

  lemma {:induction false} ShownFromTable(c: Conditions, limit: nat, pages: seq<Page>, table: set<Row>)
    requires IsWalk(c, limit, pages) && forall i :: 0 <= i < |pages| ==> pages[i].table == table
    ensures forall i :: 0 <= i < |Shown(pages, limit)| ==> Shown(pages, limit)[i] in Selected(table, c, None)
    ensures |Shown(pages, limit)| >= |pages| - 1
    ensures !Ended(pages, limit) ==> |Shown(pages, limit)| >= |pages|
  {
    var last := pages[|pages| - 1];
    PageIsOrdered(c, limit, last);
    if |pages| == 1 {
      assert pages[..0] == [];
    } else {
      WalkPrefix(c, limit, pages);
      ShownFromTable(c, limit, pages[..|pages| - 1], table);
      assert pages[..|pages| - 1][|pages| - 2] == pages[|pages| - 2];
    }
  }

  /** On a table that stands still a walk cannot go on for ever: it has at most one
      page more than there are matching rows. */
  lemma WalkTerminates(c: Conditions, limit: nat, pages: seq<Page>, table: set<Row>)
    requires IsWalk(c, limit, pages) && forall i :: 0 <= i < |pages| ==> pages[i].table == table
    ensures |pages| <= |Selected(table, c, None)| + 1
    ensures |pages| == |Selected(table, c, None)| + 1 ==> Ended(pages, limit)
  {
    ShownFromTable(c, limit, pages, table);
    WalkIsDescending(c, limit, pages);
    DistinctWithin(Shown(pages, limit), Selected(table, c, None));
  }

  /** And it is never stuck: a walk that has not ended has a next page. */
  lemma WalkContinues(c: Conditions, limit: nat, pages: seq<Page>, table: set<Row>) returns (page: Page)
    requires IsWalk(c, limit, pages) && !Ended(pages, limit) && KeysUnique(table)
    ensures page.table == table && IsWalk(c, limit, pages + [page])
  {
    var cursor := Next(pages[|pages| - 1].records, limit);
    var records := TopExists(Selected(table, c, cursor), limit + 1);
    page := Page(table, cursor, records);
    var longer := pages + [page];
    forall i | 0 < i < |longer|
      ensures longer[i].cursor.Some? && longer[i].cursor == Next(longer[i - 1].records, limit)
    {
      assert longer[i - 1] == pages[i - 1];
    }
  }
}
