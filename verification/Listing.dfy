/** Keyset paging of the queue list: RUNNING band first, then key ascending with nulls last, then id. */
module Listing {
  import opened Domain

  /** A row's sort key: band 0 is RUNNING; the key is startedAt there and the priority elsewhere. */
  datatype Item = Item(band: int, key: Option<real>, id: int)

  /** The opaque cursor carries the full sort key of a page's last row. */
  datatype Cursor = Cursor(r: int, k: Option<real>, id: int)

  datatype Page = Page(items: seq<Item>, nextCursor: Option<Cursor>)

  /** The order the list promises. */
  predicate Precedes(a: Item, b: Item) {
    a.band < b.band ||
    (a.band == b.band &&
     ((a.key.Some? && b.key.None?) ||
      (a.key.Some? && b.key.Some? && a.key.value < b.key.value) ||
      (a.key == b.key && a.id < b.id)))
  }

  /** The WHERE clause built from a cursor. */
  predicate AfterCursor(c: Cursor, row: Item) {
    row.band > c.r ||
    (row.band == c.r &&
     match c.k
     case None => row.key.None? && row.id > c.id
     case Some(k) =>
       row.key.None? || row.key.value > k || (row.key.value == k && row.id > c.id))
  }

  /** The rows in the order of the ORDER BY clause; ids are unique. */
  ghost predicate Ordered(rows: seq<Item>) {
    forall a, b | 0 <= a < b < |rows| :: Precedes(rows[a], rows[b])
  }

  function Matching(rows: seq<Item>, cursor: Option<Cursor>): seq<Item> {
    if rows == [] then []
    else
      (if cursor.None? || AfterCursor(cursor.value, rows[0]) then [rows[0]] else []) + Matching(rows[1..], cursor)
  }

  /** SELECT ... WHERE after the cursor ORDER BY the sort key LIMIT limit + 1 */
  function Query(rows: seq<Item>, cursor: Option<Cursor>, limit: nat): seq<Item> {
    var all := Matching(rows, cursor);
    if |all| <= limit + 1 then all else all[..limit + 1]
  }

  function CursorOf(row: Item): Cursor {
    Cursor(row.band, row.key, row.id)
  }

  /** One request: a page, and a cursor if and only if rows remain. */
  method List(rows: seq<Item>, limit: nat, cursor: Option<Cursor>) returns (r: Page)
    requires limit >= 1
    ensures r == PageAt(rows, limit, cursor)
    ensures r.nextCursor.Some? <==> |Matching(rows, cursor)| > limit
    ensures r.items <= Matching(rows, cursor) && |r.items| <= limit
  {
    var keys := Query(rows, cursor, limit);
    var page := if |keys| > limit then keys[..limit] else keys;
    var nextCursor := None;
    if |keys| > limit && |page| > 0 { nextCursor := Some(CursorOf(page[|page| - 1])); }
    r := Page(page, nextCursor);
  }

  function PageAt(rows: seq<Item>, limit: nat, cursor: Option<Cursor>): Page
    requires limit >= 1
  {
    var all := Matching(rows, cursor);
    if |all| <= limit then Page(all, None) else Page(all[..limit], Some(CursorOf(all[limit - 1])))
  }

  /** The WHERE clause says exactly "comes later in the order", null keys included. */
  lemma CursorAgreesWithOrder(a: Item, b: Item)
    ensures AfterCursor(CursorOf(a), b) <==> Precedes(a, b)
  {}

  /** Restarting from a row's cursor resumes right behind that row. */
  lemma {:induction false} ResumesBehind(rows: seq<Item>, k: nat)
    requires Ordered(rows) && k < |rows|
    ensures Matching(rows, Some(CursorOf(rows[k]))) == rows[k + 1..]
    decreases |rows|
  {
    CursorAgreesWithOrder(rows[k], rows[0]);
    if k == 0 {
      AllMatch(rows[1..], rows[0]);
    } else {
      assert Precedes(rows[0], rows[k]);
      ResumesBehind(rows[1..], k - 1);
    }
  }

  lemma {:induction false} AllMatch(rows: seq<Item>, first: Item)
    requires forall b | 0 <= b < |rows| :: Precedes(first, rows[b])
    ensures Matching(rows, Some(CursorOf(first))) == rows
  {
    if rows != [] {
      CursorAgreesWithOrder(first, rows[0]);
      AllMatch(rows[1..], first);
    }
  }

  lemma {:induction false} NoCursorMatchesAll(rows: seq<Item>)
    ensures Matching(rows, None) == rows
  {
    if rows != [] { NoCursorMatchesAll(rows[1..]); }
  }

  /** Following nextCursor from the given position until there is none. */
  function Pages(rows: seq<Item>, limit: nat, cursor: Option<Cursor>, fuel: nat): seq<seq<Item>>
    requires limit >= 1
    decreases fuel
  {
    var page := PageAt(rows, limit, cursor);
    if page.nextCursor.None? || fuel == 0 then [page.items]
    else [page.items] + Pages(rows, limit, page.nextCursor, fuel - 1)
  }

  function Flatten(pages: seq<seq<Item>>): seq<Item> {
    if pages == [] then [] else pages[0] + Flatten(pages[1..])
  }

  function PageCount(n: nat, limit: nat): nat
    requires limit >= 1
  {
    if n <= limit then 1 else 1 + PageCount(n - limit, limit)
  }

  /** n / limit rounded up, and 1 for an empty list. */
  lemma {:induction false} PageCountIsCeiling(n: nat, limit: nat)
    requires limit >= 1
    ensures n == 0 ==> PageCount(n, limit) == 1
    ensures n > 0 ==> (PageCount(n, limit) - 1) * limit < n <= PageCount(n, limit) * limit
  {
    if n > limit {
      PageCountIsCeiling(n - limit, limit);
      var p := PageCount(n - limit, limit);
      assert p * limit == (p - 1) * limit + limit;
      assert (p + 1) * limit == p * limit + limit;
    }
  }

  /** The rows cut into pages. */
  function InPages(rest: seq<Item>, limit: nat): seq<seq<Item>>
    requires limit >= 1
    decreases |rest|
  {
    if |rest| <= limit then [rest] else [rest[..limit]] + InPages(rest[limit..], limit)
  }

  lemma {:induction false} CutIsComplete(rest: seq<Item>, limit: nat)
    requires limit >= 1
    ensures Flatten(InPages(rest, limit)) == rest && |InPages(rest, limit)| == PageCount(|rest|, limit)
    decreases |rest|
  {
    if |rest| <= limit {
      assert Flatten([rest]) == rest + Flatten([]);
    } else {
      var more := InPages(rest[limit..], limit);
      CutIsComplete(rest[limit..], limit);
      assert ([rest[..limit]] + more)[1..] == more;
      assert rest[..limit] + rest[limit..] == rest;
    }
  }

  /** A page that is not the last, and the cursor it ends with. */
  lemma PageWithMore(rows: seq<Item>, limit: nat, cursor: Option<Cursor>, k: nat)
    requires limit >= 1 && k + limit < |rows| && Matching(rows, cursor) == rows[k..]
    ensures PageAt(rows, limit, cursor) == Page(rows[k..][..limit], Some(CursorOf(rows[k + limit - 1])))
    ensures rows[k..][limit..] == rows[k + limit..]
  {
    assert rows[k..][limit - 1] == rows[k + limit - 1];
  }

  predicate ResumesAt(rows: seq<Item>, k: nat)
    requires k < |rows|
  {
    Matching(rows, Some(CursorOf(rows[k]))) == rows[k + 1..]
  }

  /** Every row's cursor resumes right behind it. */
  ghost predicate Restartable(rows: seq<Item>) {
    forall k: nat | k < |rows| :: ResumesAt(rows, k)
  }

  /** From a cursor behind row k - 1 the requests return the rest, cut into pages. */
  lemma {:induction false} PagesFrom(rows: seq<Item>, limit: nat, cursor: Option<Cursor>, k: nat, fuel: nat)
    requires Restartable(rows) && limit >= 1 && k <= |rows| && fuel >= |rows| - k && Matching(rows, cursor) == rows[k..]
    ensures Pages(rows, limit, cursor, fuel) == InPages(rows[k..], limit)
    decreases |rows| - k
  {
    if |rows| - k > limit {
      assert ResumesAt(rows, k + limit - 1);
      PageWithMore(rows, limit, cursor, k);
      PagesFrom(rows, limit, Some(CursorOf(rows[k + limit - 1])), k + limit, fuel - 1);
    }
  }

  /**
   * Following nextCursor over a fixed set of rows yields every row exactly once, in order,
   * in ceil(n / limit) pages, or in one empty page when there are none.
   */
  lemma PagingIsComplete(rows: seq<Item>, limit: nat)
    requires Ordered(rows) && limit >= 1
    ensures Flatten(Pages(rows, limit, None, |rows|)) == rows
    ensures var n, pages := |rows|, |Pages(rows, limit, None, |rows|)|;
      if n == 0 then pages == 1 else (pages - 1) * limit < n <= pages * limit
  {
    NoCursorMatchesAll(rows);
    forall k: nat | k < |rows| ensures ResumesAt(rows, k) { ResumesBehind(rows, k); }
    PagesFrom(rows, limit, None, 0, |rows|);
    assert rows[0..] == rows;
    CutIsComplete(rows, limit);
    PageCountIsCeiling(|rows|, limit);
  }
}
