/**
 Cursor pagination. A table is the ordered result of a query: rows with distinct ids, in strictly increasing
 rank of the query's order. A cursor means the rows strictly after the row with that id.
 */
module Pagination {
  import opened Wrappers
  import opened Sequences

  datatype Row<T> = Row(id: Id, rank: int, data: T)

  datatype CursorQuery = CursorQuery(take: nat, cursor: Option<Id>)

  datatype Page<T> = Page(items: seq<T>, nextCursor: Option<Id>)

  /** `Math.min(Math.max(take, 1), 50)`. */
  function Limit(take: int): (limit: nat)
    ensures 1 <= limit <= 50
    ensures 1 <= take <= 50 ==> limit == take
    ensures (take <= 1 ==> limit == 1) && (take >= 50 ==> limit == 50)
  {
    if take < 1 then 1 else if take > 50 then 50 else take
  }

  function BuildCursorQuery(cursor: Option<Id>, take: int): CursorQuery
  {
    CursorQuery(Limit(take) + 1, cursor)
  }

  function ToCursorPage<T>(rows: seq<T>, id: T -> Id, take: int): Page<T>
  {
    var limit := Limit(take);
    if |rows| > limit then Page(rows[..limit], Some(id(rows[limit - 1]))) else Page(rows, None)
  }

  predicate Ordered<T>(table: seq<Row<T>>)
  {
    && (forall i, j :: 0 <= i < j < |table| ==> table[i].rank < table[j].rank)
    && (forall i, j :: 0 <= i < j < |table| ==> table[i].id != table[j].id)
  }

  /** How many rows come up to and including the cursor; an unknown cursor matches nothing that follows. */
  function AfterCursor<T>(table: seq<Row<T>>, cursor: Option<Id>): nat
  {
    if cursor.None? then 0 else IndexAfter(table, cursor.value)
  }

  function IndexAfter<T>(table: seq<Row<T>>, id: Id): (n: nat)
    ensures n <= |table|
    ensures (exists i :: 0 <= i < |table| && table[i].id == id) ==> n > 0 && table[n - 1].id == id
    ensures (forall i :: 0 <= i < |table| ==> table[i].id != id) ==> n == |table|
  {
    if table == [] then 0
    else if table[0].id == id then 1
    else
      var n := IndexAfter(table[1..], id);
      assert forall i :: 1 <= i < |table| ==> table[i] == table[1..][i - 1];
      1 + n
  }

  /** The rows the database returns for a query. */
  function FindMany<T>(table: seq<Row<T>>, q: CursorQuery): seq<Row<T>>
  {
    var rest := table[AfterCursor(table, q.cursor)..];
    if |rest| > q.take then rest[..q.take] else rest
  }

  function FetchPage<T>(table: seq<Row<T>>, cursor: Option<Id>, take: int): Page<Row<T>>
  {
    ToCursorPage(FindMany(table, BuildCursorQuery(cursor, take)), (r: Row<T>) => r.id, take)
  }

  /** A page is the next run of rows after its cursor, and says exactly whether more follow. */
  lemma PageIsTheNextRun<T>(table: seq<Row<T>>, cursor: Option<Id>, take: int)
    ensures var page, n, limit := FetchPage(table, cursor, take), AfterCursor(table, cursor), Limit(take);
            && n <= |table|
            && (page.nextCursor.None? ==> page.items == table[n..] && |page.items| <= limit)
            && (page.nextCursor.Some? ==>
                  n + limit < |table| && page.items == table[n..n + limit]
                    && page.nextCursor == Some(table[n + limit - 1].id))
  {
    var n, limit := AfterCursor(table, cursor), Limit(take);
    var rest := table[n..];
    if |rest| > limit {
      assert FindMany(table, BuildCursorQuery(cursor, take)) == rest[..limit + 1];
      TakeOfTake(rest, limit, limit + 1);
      SliceOfSlice(table, n, limit);
    }
  }

  lemma CursorOfRow<T>(table: seq<Row<T>>, i: nat)
    requires Ordered(table) && i < |table|
    ensures AfterCursor(table, Some(table[i].id)) == i + 1
  {
    var n := IndexAfter(table, table[i].id);
    assert table[n - 1].id == table[i].id;
  }

  // ------------------------------------------------------------ a walk over a table at rest

  function Rest<T>(table: seq<Row<T>>, cursor: Option<Id>): nat { |table| - AfterCursor(table, cursor) }

  /** All pages from a cursor on, following `nextCursor` to the end. */
  function Walk<T>(table: seq<Row<T>>, cursor: Option<Id>, take: int): seq<Page<Row<T>>>
    requires Ordered(table)
    decreases Rest(table, cursor)
  {
    var page := FetchPage(table, cursor, take);
    PageIsTheNextRun(table, cursor, take);
    if page.nextCursor.None? then [page]
    else
      var last := AfterCursor(table, cursor) + Limit(take) - 1;
      CursorOfRow(table, last);
      [page] + Walk(table, page.nextCursor, take)
  }

  function Concat<T>(pages: seq<Page<Row<T>>>): seq<Row<T>>
  {
    if pages == [] then [] else pages[0].items + Concat(pages[1..])
  }

  /** A walk returns the rest of the table, each row once and in order, in as few pages as the limit allows. */
  lemma {:induction false} WalkCoversRest<T>(table: seq<Row<T>>, cursor: Option<Id>, take: int)
    requires Ordered(table)
    ensures Concat(Walk(table, cursor, take)) == table[AfterCursor(table, cursor)..]
    ensures var n, limit := Rest(table, cursor), Limit(take);
            |Walk(table, cursor, take)| == if n == 0 then 1 else (n + limit - 1) / limit
    decreases Rest(table, cursor)
  {
    hide FetchPage, AfterCursor, Limit, Ordered;
    var page, n, limit := FetchPage(table, cursor, take), AfterCursor(table, cursor), Limit(take);
    PageIsTheNextRun(table, cursor, take);
    WalkUnfolds(table, cursor, take);
    if page.nextCursor.None? {
      assert [page][1..] == [] && Concat<T>([]) == [];
      OnePage(Rest(table, cursor), limit);
    } else {
      CursorOfRow(table, n + limit - 1);
      WalkCoversRest(table, page.nextCursor, take);
      var tail := Walk(table, page.nextCursor, take);
      assert ([page] + tail)[1..] == tail;
      assert table[n..] == table[n..n + limit] + table[n + limit..];
      OneMorePage(Rest(table, cursor), limit);
    }
  }

  lemma WalkUnfolds<T>(table: seq<Row<T>>, cursor: Option<Id>, take: int)
    requires Ordered(table)
    ensures var page := FetchPage(table, cursor, take);
            Walk(table, cursor, take) == if page.nextCursor.None? then [page]
              else [page] + Walk(table, page.nextCursor, take)
  {
    hide FetchPage, AfterCursor, Limit, Ordered;
  }

  lemma OnePage(n: nat, limit: nat)
    requires n <= limit && limit > 0
    ensures n > 0 ==> (n + limit - 1) / limit == 1
  {
    if n > 0 { Quotient(n + limit - 1, limit, 1); }
  }

  lemma OneMorePage(n: nat, limit: nat)
    requires n > limit > 0
    ensures (n + limit - 1) / limit == 1 + (n - limit + limit - 1) / limit
  {
    var q := (n - 1) / limit;
    assert q * limit + (n - 1) % limit == n - 1;
    assert (q + 1) * limit == q * limit + limit;
    Quotient(n + limit - 1, limit, q + 1);
  }

  lemma MulOrder(x: nat, y: nat, d: nat)
    ensures x <= y || (y + 1) * d <= x * d
  {
    if x > y {
      assert x * d == (y + 1) * d + (x - y - 1) * d;
    }
  }

  lemma Quotient(a: nat, d: nat, q: nat)
    requires d > 0 && q * d <= a < (q + 1) * d
    ensures a / d == q
  {
    var r := a / d;
    assert r * d + a % d == a;
    assert (r + 1) * d == r * d + d;
    MulOrder(q, r, d);
    MulOrder(r, q, d);
  }

  /** Following cursors from the start refines the whole ordered list. */
  lemma WalkIsTheWholeTable<T>(table: seq<Row<T>>, take: int)
    requires Ordered(table)
    ensures Concat(Walk(table, None, take)) == table
    ensures var n, limit := |table|, Limit(take);
            |Walk(table, None, take)| == if n == 0 then 1 else (n + limit - 1) / limit
  {
    WalkCoversRest(table, None, take);
  }

  // ------------------------------------------------------------ a walk while rows are inserted

  /** Rows have only been added, anywhere. */
  ghost predicate Grown<T>(before: seq<Row<T>>, after: seq<Row<T>>)
  {
    forall r :: r in before ==> r in after
  }

  /** The tables that successive fetches see. */
  ghost predicate Growing<T>(tables: seq<seq<Row<T>>>)
  {
    && (forall i :: 0 <= i < |tables| ==> Ordered(tables[i]))
    && (forall i :: 0 < i < |tables| ==> Grown(tables[i - 1], tables[i]))
  }

  /** The rows returned by fetches of successive tables, until the cursor ends or the tables do. */
  function LiveWalk<T>(tables: seq<seq<Row<T>>>, cursor: Option<Id>, take: int): seq<Row<T>>
  {
    if tables == [] then [] else
      var page := FetchPage(tables[0], cursor, take);
      if page.nextCursor.None? then page.items else page.items + LiveWalk(tables[1..], page.nextCursor, take)
  }

  /** The walk reaches a page without a next cursor. */
  predicate Completes<T>(tables: seq<seq<Row<T>>>, cursor: Option<Id>, take: int)
  {
    tables != [] &&
    var page := FetchPage(tables[0], cursor, take);
    page.nextCursor.None? || Completes(tables[1..], page.nextCursor, take)
  }

  /** The cursor is a row of the table, or none yet. */
  predicate CursorIn<T>(table: seq<Row<T>>, cursor: Option<Id>)
  {
    cursor.None? || exists i :: 0 <= i < |table| && table[i].id == cursor.value
  }

  /** A row lies after the cursor. */
  predicate Ahead<T>(table: seq<Row<T>>, cursor: Option<Id>, r: Row<T>)
    requires CursorIn(table, cursor)
  {
    cursor.None? || r.rank > table[AfterCursor(table, cursor) - 1].rank
  }

  lemma AheadOfRow<T(!new)>(table: seq<Row<T>>, last: Row<T>)
    requires Ordered(table) && last in table
    ensures CursorIn(table, Some(last.id)) && forall r :: Ahead(table, Some(last.id), r) <==> r.rank > last.rank
  {
    var i :| 0 <= i < |table| && table[i] == last;
    CursorOfRow(table, i);
  }

  predicate InOrder<T>(rows: seq<Row<T>>) { forall i, j :: 0 <= i < j < |rows| ==> rows[i].rank < rows[j].rank }

  /** A page holds, in order, all rows ahead of its cursor up to its last one, or all there are. */
  ghost predicate HoldsTheNext<T(!new)>(table: seq<Row<T>>, cursor: Option<Id>, items: seq<Row<T>>, next: Option<Id>)
    requires CursorIn(table, cursor)
  {
    && InOrder(items)
    && (forall r :: r in items ==> r in table && Ahead(table, cursor, r))
    && (next.None? ==> forall r :: r in table && Ahead(table, cursor, r) ==> r in items)
    && (next.Some? ==>
          && items != []
          && var last := items[|items| - 1];
          && next == Some(last.id)
          && (forall r :: r in items ==> r.rank <= last.rank)
          && (forall r :: r in table && Ahead(table, cursor, r) && r.rank <= last.rank ==> r in items))
  }

  lemma PageHoldsTheNext<T(!new)>(table: seq<Row<T>>, cursor: Option<Id>, take: int)
    requires Ordered(table) && CursorIn(table, cursor)
    ensures var page := FetchPage(table, cursor, take);
            HoldsTheNext(table, cursor, page.items, page.nextCursor)
  {
    hide FetchPage, Limit, Ahead, AfterCursor, Ordered, CursorIn, InOrder, HoldsTheNext;
    PageIsTheNextRun(table, cursor, take);
    if FetchPage(table, cursor, take).nextCursor.None? {
      RunHoldsTheNext(table, cursor, |table|, None);
      assert table[AfterCursor(table, cursor)..] == table[AfterCursor(table, cursor)..|table|];
    } else {
      var m := AfterCursor(table, cursor) + Limit(take);
      RunHoldsTheNext(table, cursor, m, Some(table[m - 1].id));
    }
  }

  /** The rows between the cursor and the place m. */
  lemma RunHoldsTheNext<T(!new)>(table: seq<Row<T>>, cursor: Option<Id>, m: nat, next: Option<Id>)
    requires Ordered(table) && CursorIn(table, cursor) && AfterCursor(table, cursor) <= m <= |table|
    requires if next.None? then m == |table| else AfterCursor(table, cursor) < m && next.value == table[m - 1].id
    ensures HoldsTheNext(table, cursor, table[AfterCursor(table, cursor)..m], next)
  {
    hide AfterCursor, Ahead, Ordered, InOrder, CursorIn;
    var n := AfterCursor(table, cursor);
    RunRanks(table, n, m);
    RowsAhead(table, cursor);
    assert n < m ==> table[n..m][m - 1 - n] == table[m - 1];
  }

  /** The rows ahead of a cursor are those at the indices after it. */
  lemma RowsAhead<T>(table: seq<Row<T>>, cursor: Option<Id>)
    requires Ordered(table) && CursorIn(table, cursor)
    ensures AfterCursor(table, cursor) <= |table|
    ensures forall r :: r in table[AfterCursor(table, cursor)..] <==> r in table && Ahead(table, cursor, r)
  {
    hide Ahead, Ordered, CursorIn;
    var n := AfterCursor(table, cursor);
    forall i | 0 <= i < |table| ensures Ahead(table, cursor, table[i]) <==> i >= n {
      AheadIsIndex(table, cursor, i);
    }
    forall r | r in table && Ahead(table, cursor, r) ensures r in table[n..] {
      var i :| 0 <= i < |table| && table[i] == r;
      assert table[n..][i - n] == r;
    }
  }

  lemma RunRanks<T>(table: seq<Row<T>>, n: nat, m: nat)
    requires Ordered(table) && n <= m <= |table|
    ensures InOrder(table[n..m])
    ensures m == |table| ==> table[n..m] == table[n..]
    ensures forall r :: r in table[n..m] ==> r in table[n..]
    ensures n < m ==> forall r :: r in table[n..m] ==> r.rank <= table[m - 1].rank
    ensures n < m ==> forall r :: r in table[n..] && r.rank <= table[m - 1].rank ==> r in table[n..m]
  {
    hide Ordered, InOrder;
    RunInOrder(table, n, m);
    forall r | r in table[n..m] ensures r in table[n..] && r.rank <= table[m - 1].rank {
      var i :| n <= i < m && table[i] == r;
      RankAt(table, i, m - 1);
      assert table[n..][i - n] == r;
    }
    forall r | n < m && r in table[n..] && r.rank <= table[m - 1].rank ensures r in table[n..m] {
      var i :| n <= i < |table| && table[i] == r;
      if i >= m {
        RankAt(table, m - 1, i);
        assert false;
      }
      assert table[n..m][i - n] == r;
    }
  }

  lemma RankAt<T>(table: seq<Row<T>>, i: nat, j: nat)
    requires Ordered(table) && i <= j < |table|
    ensures i < j ==> table[i].rank < table[j].rank
  {
  }

  lemma RunInOrder<T>(table: seq<Row<T>>, n: nat, m: nat)
    requires Ordered(table) && n <= m <= |table|
    ensures InOrder(table[n..m])
  {
    var run := table[n..m];
    forall i, j | 0 <= i < j < |run| ensures run[i].rank < run[j].rank {
      assert run[i] == table[n + i] && run[j] == table[n + j];
    }
  }

  lemma AheadIsIndex<T>(table: seq<Row<T>>, cursor: Option<Id>, i: nat)
    requires Ordered(table) && CursorIn(table, cursor) && i < |table|
    ensures Ahead(table, cursor, table[i]) <==> i >= AfterCursor(table, cursor)
  {
    hide IndexAfter;
    if cursor.Some? {
      var n := IndexAfter(table, cursor.value);
      assert i < n - 1 ==> table[i].rank < table[n - 1].rank;
      assert i > n - 1 ==> table[i].rank > table[n - 1].rank;
    }
  }

  /**
   With rows inserted between fetches, the rows returned are strictly in order, so none comes twice, and a
   walk that completes returns every row that was ahead of its first fetch.
   */
  lemma {:induction false} LiveWalkMissesNothing<T(!new)>(tables: seq<seq<Row<T>>>, cursor: Option<Id>, take: int)
    requires Growing(tables) && tables != [] && CursorIn(tables[0], cursor)
    ensures InOrder(LiveWalk(tables, cursor, take))
    ensures forall r :: r in LiveWalk(tables, cursor, take) ==> Ahead(tables[0], cursor, r)
    ensures Completes(tables, cursor, take) ==>
      forall r :: r in tables[0] && Ahead(tables[0], cursor, r) ==> r in LiveWalk(tables, cursor, take)
    decreases |tables|
  {
    hide FetchPage, Ordered, AfterCursor, CursorIn;
    var table := tables[0];
    var page := FetchPage(table, cursor, take);
    PageHoldsTheNext(table, cursor, take);
    if page.nextCursor.Some? {
      var last := page.items[|page.items| - 1];
      if |tables| > 1 {
        assert Grown(tables[0], tables[1]);
        AheadOfRow(tables[1], last);
        AheadGrows(table, cursor, last);
        LiveWalkMissesNothing(tables[1..], page.nextCursor, take);
      } else {
        assert tables[1..] == [];
      }
      var more := LiveWalk(tables[1..], page.nextCursor, take);
      assert LiveWalk(tables, cursor, take) == page.items + more;
      if Completes(tables, cursor, take) {
        assert Completes(tables[1..], page.nextCursor, take);
        forall r | r in table && Ahead(table, cursor, r) ensures r in page.items + more {
          if r.rank > last.rank {
            assert r in tables[1..][0] && Ahead(tables[1..][0], page.nextCursor, r);
          }
        }
      }
      hide LiveWalk, Ahead;
      InOrderConcat(page.items, more, last.rank);
    }
  }

  lemma InOrderConcat<T>(xs: seq<Row<T>>, ys: seq<Row<T>>, bound: int)
    requires InOrder(xs) && InOrder(ys)
    requires forall r :: r in xs ==> r.rank <= bound
    requires forall r :: r in ys ==> r.rank > bound
    ensures InOrder(xs + ys)
  {
  }

  lemma AheadGrows<T(!new)>(table: seq<Row<T>>, cursor: Option<Id>, last: Row<T>)
    requires CursorIn(table, cursor) && Ahead(table, cursor, last)
    ensures forall r: Row<T> :: r.rank > last.rank ==> Ahead(table, cursor, r)
  {
  }

  lemma LiveWalkFromTheStart<T(!new)>(tables: seq<seq<Row<T>>>, take: int)
    requires Growing(tables) && tables != []
    ensures var rows := LiveWalk(tables, None, take); forall i, j :: 0 <= i < j < |rows| ==> rows[i] != rows[j]
    ensures Completes(tables, None, take) ==> forall r :: r in tables[0] ==> r in LiveWalk(tables, None, take)
  {
    LiveWalkMissesNothing(tables, None, take);
  }
}
