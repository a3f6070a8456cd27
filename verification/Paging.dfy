/**
 * Keyset pages of the public API's lists (src/lib/server/api/pagination.ts and
 * src/lib/server/services/api-read.service.ts).
 */
module Paging {
  import opened Prelude

  type Id = nat

  /** Whose the row is, and the time the list is sorted by. */
  datatype Row = Row(owner: nat, at: int)

  type Table = map<Id, Row>

  /** A page, and the id of its last row while more rows exist. */
  datatype Page = Page(data: seq<Id>, nextCursor: Option<Id>)

  // ---------------------------------------------------------------------------------------------
  // The order
  // ---------------------------------------------------------------------------------------------

  /** Newest first, and the larger id first among rows of one time. */
  predicate Before(t: Table, a: Id, b: Id)
    requires a in t && b in t
  {
    t[a].at > t[b].at || (t[a].at == t[b].at && a > b)
  }

  predicate Leads(t: Table, ids: set<Id>, id: Id)
    requires ids <= t.Keys
  {
    id in ids && forall j :: j in ids && j != id ==> Before(t, id, j)
  }

  lemma {:induction false} SomeLeads(t: Table, ids: set<Id>)
    requires ids <= t.Keys && ids != {}
    ensures exists id :: Leads(t, ids, id)
    decreases |ids|
  {
    var any :| any in ids;
    var others := ids - {any};
    if others == {} {
      assert ids == {any};
      assert Leads(t, ids, any);
    } else {
      SomeLeads(t, others);
      var id :| Leads(t, others, id);
      if Before(t, any, id) {
        forall j | j in ids && j != any ensures Before(t, any, j) {
          if j != id { assert Before(t, id, j); }
        }
        assert Leads(t, ids, any);
      } else {
        assert Leads(t, ids, id);
      }
    }
  }

  /** The rows as ORDER BY lists them. */
  function Ordered(t: Table, ids: set<Id>): seq<Id>
    requires ids <= t.Keys
    decreases |ids|
  {
    if ids == {} then []
    else
      SomeLeads(t, ids);
      var id :| Leads(t, ids, id);
      [id] + Ordered(t, ids - {id})
  }

  /** Strictly in list order, so without repetition. */
  ghost predicate InOrder(t: Table, list: seq<Id>) {
    && (forall i :: 0 <= i < |list| ==> list[i] in t)
    && (forall i, j :: 0 <= i < j < |list| ==> Before(t, list[i], list[j]))
  }

  lemma {:induction false} LeaderFirst(t: Table, ids: set<Id>, id: Id, rest: seq<Id>)
    requires ids <= t.Keys && Leads(t, ids, id) && InOrder(t, rest)
    requires forall j :: j in rest <==> j in ids - {id}
    ensures InOrder(t, [id] + rest)
    ensures forall j :: j in [id] + rest <==> j in ids
  {
    forall i | 0 <= i < |rest| ensures Before(t, id, rest[i]) { assert rest[i] in rest; }
  }

  lemma {:induction false} OrderedListsAll(t: Table, ids: set<Id>)
    requires ids <= t.Keys
    ensures InOrder(t, Ordered(t, ids))
    ensures forall id :: id in Ordered(t, ids) <==> id in ids
    ensures |Ordered(t, ids)| == |ids|
    decreases |ids|
  {
    if ids != {} {
      SomeLeads(t, ids);
      var id :| Leads(t, ids, id) && Ordered(t, ids) == [id] + Ordered(t, ids - {id});
      OrderedListsAll(t, ids - {id});
      LeaderFirst(t, ids, id, Ordered(t, ids - {id}));
    }
  }

  /** A list in order is determined by its elements. */
  lemma {:induction false} OrderIsUnique(t: Table, a: seq<Id>, b: seq<Id>)
    requires InOrder(t, a) && InOrder(t, b)
    requires forall id :: id in a <==> id in b
    ensures a == b
  {
    var head := if b == [] then 0 else b[0];
    assert b != [] ==> head in b;
    if a == [] {
    } else {
      assert a[0] in b;
      assert b[0] in a;
      assert a[0] == b[0];
      forall id ensures id in a[1..] <==> id in b[1..] {
        assert id in a[1..] <==> id in a && id != a[0];
        assert id in b[1..] <==> id in b && id != b[0];
      }
      OrderIsUnique(t, a[1..], b[1..]);
    }
  }

  // ---------------------------------------------------------------------------------------------
  // One page
  // ---------------------------------------------------------------------------------------------

  function Owned(t: Table, owner: nat): set<Id> {
    set id | id in t && t[id].owner == owner
  }

  /** What the query may return: the owner's rows that the order puts after the cursor's. */
  function After(t: Table, owner: nat, after: Option<Id>): set<Id>
    requires after.Some? ==> after.value in t
  {
    set id | id in Owned(t, owner) && (after.None? || Before(t, after.value, id))
  }

  function Take(rows: seq<Id>, n: nat): seq<Id> {
    if |rows| <= n then rows else rows[..n]
  }

  /** One row more than fits was asked for, and its only use is to tell whether a cursor goes with the page. */
  function ToPage(rows: seq<Id>, limit: nat): Page {
    var data := Take(rows, limit);
    Page(data, if |rows| > limit && data != [] then Some(data[|data| - 1]) else None)
  }

  /** One request. None stands for a cursor that is refused. */
  function List(t: Table, owner: nat, limit: nat, after: Option<Id>): Option<Page> {
    if after.Some? && after.value !in Owned(t, owner) then None
    else Some(ToPage(Take(Ordered(t, After(t, owner, after)), limit + 1), limit))
  }

  /** The first row is later than the second, or as late and of a larger id. */
  ghost predicate Newer(t: Table, a: Id, b: Id) {
    a in t && b in t && (t[a].at > t[b].at || (t[a].at == t[b].at && a > b))
  }

  /** What a page holds: the first rows after the cursor, with a next cursor exactly when more remain. */
  lemma {:induction false} PageIsAPrefix(t: Table, owner: nat, limit: nat, after: Option<Id>)
    requires limit > 0 && List(t, owner, limit, after).Some?
    ensures var all, page := Ordered(t, After(t, owner, after)), List(t, owner, limit, after).value;
            && page.data == Take(all, limit)
            && page.nextCursor == if |all| > limit then Some(all[limit - 1]) else None
  {
    var all := Ordered(t, After(t, owner, after));
    if |all| > limit + 1 { assert all[..limit + 1][..limit] == all[..limit]; }
  }

  lemma {:induction false} PageComesNext(t: Table, owner: nat, limit: nat, after: Option<Id>)
    requires limit > 0 && List(t, owner, limit, after).Some?
    ensures var page, rows := List(t, owner, limit, after).value, After(t, owner, after);
            && InOrder(t, page.data) && |page.data| == (if |rows| <= limit then |rows| else limit)
            && (forall id :: id in page.data ==> id in rows)
            && (forall id, d :: id in rows && id !in page.data && d in page.data ==> Before(t, d, id))
            && (page.nextCursor.Some? <==> exists id :: id in rows && id !in page.data)
            && (page.nextCursor.Some? ==> page.nextCursor.value == page.data[|page.data| - 1])
  {
    var rows := After(t, owner, after);
    OrderedListsAll(t, rows);
    PageIsAPrefix(t, owner, limit, after);
    TakenComeFirst(t, Ordered(t, rows), limit);
  }

  /** The owner's rows after the cursor, or all of them. */
  ghost function Following(t: Table, owner: nat, after: Option<Id>): set<Id> {
    set id | id in t && t[id].owner == owner && (after.None? || Newer(t, after.value, id))
  }

  /**
   * A cursor that names no row of the owner's is refused, such as one whose row was deleted. Any other
   * gets the owner's next rows in order: whatever comes after the cursor and is not on the page comes
   * after everything on it, and there is a next cursor, the page's last row, just when there is such a row.
   */
  lemma {:induction false} PageShowsTheNextRows(t: Table, owner: nat, limit: nat, after: Option<Id>)
    requires limit > 0
    ensures List(t, owner, limit, after).Some?
            <==> after.None? || (after.value in t && t[after.value].owner == owner)
    ensures List(t, owner, limit, after).Some? ==>
              var page, rows := List(t, owner, limit, after).value, Following(t, owner, after);
              && (forall i, j :: 0 <= i < j < |page.data| ==> Newer(t, page.data[i], page.data[j]))
              && |page.data| == (if |rows| <= limit then |rows| else limit)
              && (forall id :: id in page.data ==> id in rows)
              && (forall id, d :: id in rows && id !in page.data && d in page.data ==> Newer(t, d, id))
              && (page.nextCursor.Some? <==> exists id :: id in rows && id !in page.data)
              && (page.nextCursor.Some? ==> page.nextCursor.value == page.data[|page.data| - 1])
  {
    if List(t, owner, limit, after).Some? {
      assert Following(t, owner, after) == After(t, owner, after);
      PageComesNext(t, owner, limit, after);
    }
  }

  lemma {:induction false} TakenComeFirst(t: Table, all: seq<Id>, limit: nat)
    requires InOrder(t, all) && limit > 0
    ensures var data := Take(all, limit);
            && InOrder(t, data) && (forall id :: id in data ==> id in all)
            && (forall id, d :: id in all && id !in data && d in data ==> Before(t, d, id))
            && (|all| > limit <==> exists id :: id in all && id !in data)
  {
    var data := Take(all, limit);
    forall id, d | id in all && id !in data && d in data ensures Before(t, d, id) {
      var i, j :| 0 <= i < |data| && data[i] == d && 0 <= j < |all| && all[j] == id;
      assert forall k :: 0 <= k < |data| ==> all[k] == data[k] && data[k] in data;
      assert j >= |data|;
    }
    if |all| > limit {
      assert all[limit] in all;
      forall i | 0 <= i < |data| ensures data[i] != all[limit] { assert Before(t, all[i], all[limit]); }
    }
  }

  // ---------------------------------------------------------------------------------------------
  // Every page, of a table that stays as it is
  // ---------------------------------------------------------------------------------------------

  /** The rows after a later cursor are fewer. */
  lemma {:induction false} FewerAfter(t: Table, owner: nat, after: Option<Id>, cursor: Id)
    requires after.Some? ==> after.value in t
    requires cursor in After(t, owner, after)
    ensures After(t, owner, Some(cursor)) < After(t, owner, after)
    ensures |After(t, owner, Some(cursor))| < |After(t, owner, after)|
  {
    var fewer, more := After(t, owner, Some(cursor)), After(t, owner, after);
    assert cursor !in fewer;
    SmallerSet(fewer, more - {cursor});
  }

  lemma {:induction false} CursorIsAfter(t: Table, owner: nat, limit: nat, after: Option<Id>)
    requires limit > 0 && List(t, owner, limit, after).Some?
    requires List(t, owner, limit, after).value.nextCursor.Some?
    ensures List(t, owner, limit, after).value.nextCursor.value in After(t, owner, after)
  {
    PageIsAPrefix(t, owner, limit, after);
    var ids := After(t, owner, after);
    OrderedListsAll(t, ids);
    assert Ordered(t, ids)[limit - 1] in Ordered(t, ids);
  }

  /** The pages a client reads by following the cursor. */
  function Walk(t: Table, owner: nat, limit: nat, after: Option<Id>): seq<Page>
    requires limit > 0 && (after.Some? ==> after.value in Owned(t, owner))
    decreases |After(t, owner, after)|
  {
    var page := List(t, owner, limit, after).value;
    if page.nextCursor.None? then [page]
    else
      CursorIsAfter(t, owner, limit, after);
      FewerAfter(t, owner, after, page.nextCursor.value);
      [page] + Walk(t, owner, limit, page.nextCursor)
  }

  function Rows(pages: seq<Page>): seq<Id> {
    if pages == [] then [] else pages[0].data + Rows(pages[1..])
  }

  /** n rows in pages of `limit`, and one page even for none. */
  function PageCount(n: nat, limit: nat): nat
    requires limit > 0
  {
    if n <= limit then 1 else 1 + PageCount(n - limit, limit)
  }

  /** The count is n / limit rounded up: one page fewer would not hold the rows. */
  lemma {:induction false} PageCountRoundsUp(n: nat, limit: nat)
    requires limit > 0 && n > 0
    ensures limit * (PageCount(n, limit) - 1) < n <= limit * PageCount(n, limit)
  {
    if n > limit {
      PageCountRoundsUp(n - limit, limit);
      var c := PageCount(n - limit, limit);
      assert limit * (c + 1) == limit * c + limit && limit * c == limit * (c - 1) + limit;
    }
  }

  lemma {:induction false} RestComesAfter(t: Table, list: seq<Id>, n: nat, id: Id)
    requires InOrder(t, list) && n < |list|
    ensures id in list[n + 1..] <==> id in list && Before(t, list[n], id)
  {
    var rest := list[n + 1..];
    if id in list && Before(t, list[n], id) {
      var k :| 0 <= k < |list| && list[k] == id;
      assert k > n;
      assert rest[k - n - 1] == id;
    }
    if id in rest {
      var k :| 0 <= k < |rest| && rest[k] == id;
      assert list[k + n + 1] == id;
    }
  }

  /** The rows after a later cursor are those of the rows after an earlier one that come after it. */
  lemma {:induction false} LaterIsAmong(t: Table, owner: nat, after: Option<Id>, cursor: Id, id: Id)
    requires after.Some? ==> after.value in t
    requires cursor in After(t, owner, after)
    ensures id in After(t, owner, Some(cursor)) <==> id in After(t, owner, after) && Before(t, cursor, id)
  {}

  /** The rows after the last row of a page are the rest of the list. */
  lemma {:induction false} AfterIsTheRest(t: Table, owner: nat, after: Option<Id>, n: nat)
    requires after.Some? ==> after.value in t
    requires n < |Ordered(t, After(t, owner, after))|
    ensures var all := Ordered(t, After(t, owner, after));
            all[n] in Owned(t, owner) && Ordered(t, After(t, owner, Some(all[n]))) == all[n + 1..]
  {
    var ids := After(t, owner, after);
    var all := Ordered(t, ids);
    OrderedListsAll(t, ids);
    assert all[n] in all;
    var later := After(t, owner, Some(all[n]));
    OrderedListsAll(t, later);
    forall id ensures id in Ordered(t, later) <==> id in all[n + 1..] {
      RestComesAfter(t, all, n, id);
      LaterIsAmong(t, owner, after, all[n], id);
    }
    OrderIsUnique(t, Ordered(t, later), all[n + 1..]);
  }

  lemma {:induction false} WalkUnfolds(t: Table, owner: nat, limit: nat, after: Option<Id>)
    requires limit > 0 && (after.Some? ==> after.value in Owned(t, owner))
    ensures var page, pages := List(t, owner, limit, after).value, Walk(t, owner, limit, after);
            if page.nextCursor.None? then Rows(pages) == page.data && |pages| == 1
            else
              && page.nextCursor.value in After(t, owner, after)
              && Rows(pages) == page.data + Rows(Walk(t, owner, limit, page.nextCursor))
              && |pages| == 1 + |Walk(t, owner, limit, page.nextCursor)|
  {
    var page, pages := List(t, owner, limit, after).value, Walk(t, owner, limit, after);
    if page.nextCursor.None? {
      assert pages == [page] && pages[1..] == [];
    } else {
      CursorIsAfter(t, owner, limit, after);
      assert pages[0] == page && pages[1..] == Walk(t, owner, limit, page.nextCursor);
    }
  }

  /** One page of the walk, and what is left to walk. */
  lemma {:induction false} WalkStep(t: Table, owner: nat, limit: nat, after: Option<Id>)
    requires limit > 0 && (after.Some? ==> after.value in Owned(t, owner))
    ensures var all, pages := Ordered(t, After(t, owner, after)), Walk(t, owner, limit, after);
            if |all| <= limit then Rows(pages) == all && |pages| == 1
            else
              var cursor := all[limit - 1];
              && cursor in Owned(t, owner)
              && |After(t, owner, Some(cursor))| < |After(t, owner, after)|
              && Ordered(t, After(t, owner, Some(cursor))) == all[limit..]
              && Rows(pages) == all[..limit] + Rows(Walk(t, owner, limit, Some(cursor)))
              && |pages| == 1 + |Walk(t, owner, limit, Some(cursor))|
  {
    var all := Ordered(t, After(t, owner, after));
    PageIsAPrefix(t, owner, limit, after);
    WalkUnfolds(t, owner, limit, after);
    if |all| > limit {
      FewerAfter(t, owner, after, all[limit - 1]);
      AfterIsTheRest(t, owner, after, limit - 1);
    }
  }

  lemma {:induction false} WalkListsTheRest(t: Table, owner: nat, limit: nat, after: Option<Id>, all: seq<Id>,
                                            pages: seq<Page>)
    requires limit > 0 && (after.Some? ==> after.value in Owned(t, owner))
    requires all == Ordered(t, After(t, owner, after)) && pages == Walk(t, owner, limit, after)
    ensures Rows(pages) == all && |pages| == PageCount(|all|, limit)
    decreases |After(t, owner, after)|
  {
    WalkStep(t, owner, limit, after);
    if |all| > limit {
      var head, rest := all[..limit], all[limit..];
      var cursor := Some(all[limit - 1]);
      WalkListsTheRest(t, owner, limit, cursor, rest, Walk(t, owner, limit, cursor));
      assert head + rest == all;
    }
  }

  /**
   * Following the cursor until there is none lists every row of the owner's once, newest first, in as
   * few pages as the limit allows: one for an empty list, else the count over the limit, rounded up.
   */
  lemma {:induction false} PagesAreTheWholeList(t: Table, owner: nat, limit: nat)
    requires limit > 0
    ensures var pages := Walk(t, owner, limit, None);
            var rows := Rows(pages);
            && (forall i, j :: 0 <= i < j < |rows| ==> Newer(t, rows[i], rows[j]))
            && (forall id :: id in rows <==> id in t && t[id].owner == owner)
            && if rows == [] then |pages| == 1 else limit * (|pages| - 1) < |rows| <= limit * |pages|
  {
    assert After(t, owner, None) == Owned(t, owner);
    var all := Ordered(t, Owned(t, owner));
    WalkListsTheRest(t, owner, limit, None, all, Walk(t, owner, limit, None));
    OrderedListsAll(t, Owned(t, owner));
    if all != [] { PageCountRoundsUp(|all|, limit); }
  }

  // ---------------------------------------------------------------------------------------------
  // Every page, of a table that changes between pages
  // ---------------------------------------------------------------------------------------------

  function CursorOf(pages: seq<Page>): Option<Id> {
    if pages == [] then None else pages[|pages| - 1].nextCursor
  }

  /** Each page was read from its own version of the table, at the cursor of the page before. */
  predicate Read(tables: seq<Table>, owner: nat, limit: nat, pages: seq<Page>) {
    |pages| == |tables| &&
    (pages != [] ==>
       var n := |pages| - 1;
       && Read(tables[..n], owner, limit, pages[..n])
       && (n > 0 ==> CursorOf(pages[..n]).Some?)
       && List(tables[n], owner, limit, CursorOf(pages[..n])) == Some(pages[n]))
  }

  /** Pages that were read end, or go on with whatever the table then holds after the cursor, if that is still there. */
  lemma {:induction false} ReadsGoOn(tables: seq<Table>, owner: nat, limit: nat, pages: seq<Page>, t: Table, page: Page)
    requires Read(tables, owner, limit, pages)
    ensures Read(tables + [t], owner, limit, pages + [page])
            <==> (pages == [] || pages[|pages| - 1].nextCursor.Some?)
                 && List(t, owner, limit, if pages == [] then None else pages[|pages| - 1].nextCursor) == Some(page)
  {
    assert (pages + [page])[..|pages|] == pages && (tables + [t])[..|tables|] == tables;
  }

  /** Rows come and go, but a row's owner and sort key never change: `ever` holds every row there ever was. */
  ghost predicate Versions(tables: seq<Table>, ever: Table) {
    forall i, id :: 0 <= i < |tables| && id in tables[i] ==> id in ever && ever[id] == tables[i][id]
  }

  ghost predicate Throughout(tables: seq<Table>, owner: nat, id: Id) {
    forall i :: 0 <= i < |tables| ==> id in Owned(tables[i], owner)
  }

  /** Whether reading up to the cursor must have come past the row. */
  predicate Passed(ever: Table, cursor: Option<Id>, id: Id) {
    cursor.None? || id == cursor.value || (id in ever && cursor.value in ever && Before(ever, id, cursor.value))
  }

  lemma {:induction false} RowsAppend(pages: seq<Page>, page: Page)
    ensures Rows(pages + [page]) == Rows(pages) + page.data
  {
    if pages == [] {
      assert pages + [page] == [page] && [page][1..] == [];
    } else {
      RowsAppend(pages[1..], page);
      assert (pages + [page])[1..] == pages[1..] + [page];
    }
  }

  lemma {:induction false} InOrderJoined(t: Table, a: seq<Id>, b: seq<Id>)
    requires InOrder(t, a) && InOrder(t, b)
    requires a != [] ==> forall j :: 0 <= j < |b| ==> Before(t, a[|a| - 1], b[j])
    ensures InOrder(t, a + b)
  {
    forall i, j | 0 <= i < j < |a + b| ensures Before(t, (a + b)[i], (a + b)[j]) {
      if i < |a| <= j {
        assert Before(t, a[|a| - 1], b[j - |a|]);
        assert i == |a| - 1 || Before(t, a[i], a[|a| - 1]);
      }
    }
  }

  lemma {:induction false} PageInOrder(t: Table, owner: nat, limit: nat, cursor: Option<Id>)
    requires limit > 0 && List(t, owner, limit, cursor).Some?
    ensures var data := List(t, owner, limit, cursor).value.data;
            InOrder(t, data) && forall j :: 0 <= j < |data| ==> data[j] in After(t, owner, cursor)
  {
    PageIsAPrefix(t, owner, limit, cursor);
    var ids := After(t, owner, cursor);
    OrderedListsAll(t, ids);
    var all, data := Ordered(t, ids), List(t, owner, limit, cursor).value.data;
    forall j | 0 <= j < |data| ensures data[j] in ids { assert data[j] == all[j] && all[j] in all; }
  }

  /** One page more, read from `t`, carries on where the cursor stood. */
  lemma {:induction false} PageCarriesOn(t: Table, ever: Table, owner: nat, limit: nat, rows: seq<Id>,
                                         cursor: Option<Id>)
    requires limit > 0 && List(t, owner, limit, cursor).Some?
    requires forall id :: id in t ==> id in ever && ever[id] == t[id]
    requires InOrder(ever, rows)
    requires if cursor.Some? then rows != [] && rows[|rows| - 1] == cursor.value else rows == []
    ensures InOrder(ever, rows + List(t, owner, limit, cursor).value.data)
  {
    PageInOrder(t, owner, limit, cursor);
    InOrderJoined(ever, rows, List(t, owner, limit, cursor).value.data);
  }

  /** A row the page's table holds after the old cursor, and not after the new one, is on the page. */
  lemma {:induction false} PageSkipsNothing(t: Table, owner: nat, limit: nat, cursor: Option<Id>, id: Id)
    requires limit > 0 && List(t, owner, limit, cursor).Some?
    requires id in After(t, owner, cursor)
    requires var next := List(t, owner, limit, cursor).value.nextCursor;
             next.Some? ==> next.value in t && (id == next.value || Before(t, id, next.value))
    ensures id in List(t, owner, limit, cursor).value.data
  {
    PageIsAPrefix(t, owner, limit, cursor);
    var ids := After(t, owner, cursor);
    OrderedListsAll(t, ids);
    var all := Ordered(t, ids);
    assert id in all;
    var k :| 0 <= k < |all| && all[k] == id;
    var data := List(t, owner, limit, cursor).value.data;
    if |all| > limit { assert k <= limit - 1; }
    assert data[k] == id;
  }

  lemma {:induction false} RowsUnfold(pages: seq<Page>)
    requires pages != []
    ensures Rows(pages) == Rows(pages[..|pages| - 1]) + pages[|pages| - 1].data
  {
    var n := |pages| - 1;
    assert pages == pages[..n] + [pages[n]];
    RowsAppend(pages[..n], pages[n]);
  }

  lemma {:induction false} EarlierVersions(tables: seq<Table>, ever: Table, n: nat)
    requires Versions(tables, ever) && n < |tables|
    ensures Versions(tables[..n], ever)
    ensures forall id :: id in tables[n] ==> id in ever && ever[id] == tables[n][id]
  {
    forall i, id | 0 <= i < n && id in tables[..n][i] ensures id in ever && ever[id] == tables[..n][i][id] {
      assert id in tables[i];
    }
  }

  lemma {:induction false} ReadsInOrder(tables: seq<Table>, ever: Table, owner: nat, limit: nat, pages: seq<Page>)
    requires limit > 0 && Read(tables, owner, limit, pages) && Versions(tables, ever)
    ensures InOrder(ever, Rows(pages))
    ensures if CursorOf(pages).Some? then Rows(pages) != [] && Rows(pages)[|Rows(pages)| - 1] == CursorOf(pages).value
            else pages == [] ==> Rows(pages) == []
    decreases |pages|
  {
    if pages != [] {
      var n := |pages| - 1;
      RowsUnfold(pages);
      EarlierVersions(tables, ever, n);
      ReadsInOrder(tables[..n], ever, owner, limit, pages[..n]);
      PageCarriesOn(tables[n], ever, owner, limit, Rows(pages[..n]), CursorOf(pages[..n]));
    }
  }

  /** The last page adds every lasting row between its two cursors. */
  lemma {:induction false} PageAdds(t: Table, ever: Table, owner: nat, limit: nat, cursor: Option<Id>, id: Id)
    requires limit > 0 && List(t, owner, limit, cursor).Some?
    requires forall i :: i in t ==> i in ever && ever[i] == t[i]
    requires id in Owned(t, owner) && Passed(ever, List(t, owner, limit, cursor).value.nextCursor, id)
    requires cursor.None? || !Passed(ever, cursor, id)
    ensures id in List(t, owner, limit, cursor).value.data
  {
    if List(t, owner, limit, cursor).value.nextCursor.Some? { CursorIsAfter(t, owner, limit, cursor); }
    assert id in After(t, owner, cursor);
    PageSkipsNothing(t, owner, limit, cursor, id);
  }

  lemma {:induction false} ReadsAreComplete(tables: seq<Table>, ever: Table, owner: nat, limit: nat,
                                            pages: seq<Page>, id: Id)
    requires limit > 0 && pages != [] && Read(tables, owner, limit, pages) && Versions(tables, ever)
    requires Throughout(tables, owner, id) && Passed(ever, CursorOf(pages), id)
    ensures id in Rows(pages)
    decreases |pages|
  {
    var n := |pages| - 1;
    RowsUnfold(pages);
    EarlierVersions(tables, ever, n);
    assert id in Owned(tables[n], owner) && Throughout(tables[..n], owner, id);
    if n > 0 && Passed(ever, CursorOf(pages[..n]), id) {
      ReadsAreComplete(tables[..n], ever, owner, limit, pages[..n], id);
    } else {
      PageAdds(tables[n], ever, owner, limit, CursorOf(pages[..n]), id);
    }
  }

  /**
   * Rows inserted or deleted between pages, other than the row a cursor names, neither repeat nor drop
   * a row that was there throughout: once the cursor runs out, the pages hold each such row exactly
   * once, and in order.
   */
  lemma {:induction false} ChangesBetweenPagesDoNoHarm(tables: seq<Table>, ever: Table, owner: nat, limit: nat,
                                                       pages: seq<Page>, id: Id)
    requires limit > 0 && Read(tables, owner, limit, pages) && Versions(tables, ever)
    requires pages != [] && pages[|pages| - 1].nextCursor.None?
    requires Throughout(tables, owner, id)
    ensures forall i, j :: 0 <= i < j < |Rows(pages)| ==> Newer(ever, Rows(pages)[i], Rows(pages)[j])
    ensures multiset(Rows(pages))[id] == 1
  {
    ReadsInOrder(tables, ever, owner, limit, pages);
    ReadsAreComplete(tables, ever, owner, limit, pages, id);
    OnceInOrder(ever, Rows(pages), id);
  }

  lemma {:induction false} OnceInOrder(t: Table, list: seq<Id>, id: Id)
    requires InOrder(t, list) && id in list
    ensures multiset(list)[id] == 1
  {
    var k :| 0 <= k < |list| && list[k] == id;
    assert id !in list[..k] && id !in list[k + 1..];
    assert list == list[..k] + [id] + list[k + 1..];
    assert multiset(list) == multiset(list[..k]) + multiset{id} + multiset(list[k + 1..]);
  }
}
