/** `search_with_cursor`: keyset pagination chained through opaque cursors. */
module Keyset {
  import opened Prelude
  import opened Text
  import opened Paging
  import opened Rows
  import Cursor

  /** The row comparison `(created_at, id) < (cursor_time, cursor_id)` of the query. */
  predicate Before(r: Row, t: int, id: Uuid) {
    r.createdAt < t || (r.createdAt == t && r.id < id)
  }

  lemma BeforeIsPast(r: Row, t: int, id: Uuid)
    ensures Before(r, t, id) <==> Past(Some(Key(-t, 0 - id)), NewestFirst(r))
  {
  }

  /** Full-text matching is left uninterpreted. */
  ghost function Matching(table: set<Row>, matches: Row -> bool): set<Row> {
    set r | r in table && matches(r)
  }

  /** `WHERE (created_at, id) < cursor ORDER BY created_at DESC, id DESC LIMIT limit`. */
  ghost predicate IsSearchPage(table: set<Row>, matches: Row -> bool, cursor: Option<(Cursor.Instant, Uuid)>,
                               limit: nat, rows: seq<Row>) {
    && |rows| <= limit
    && (forall i, j :: 0 <= i < j < |rows| ==> Before(rows[j], rows[i].createdAt, rows[i].id))
    && (forall r :: r in rows ==> r in Matching(table, matches) && Continues(r, cursor))
    && (forall r :: r in Matching(table, matches) && Continues(r, cursor) && r !in rows ==>
          |rows| == limit && forall q :: q in rows ==> Before(r, q.createdAt, q.id))
  }

  predicate Continues(r: Row, cursor: Option<(Cursor.Instant, Uuid)>) {
    cursor == None || Before(r, Cursor.Micros(cursor.value.0), cursor.value.1)
  }

  /** The query is a page of the listing by `NewestFirst`. */
  lemma SearchPageIsPage(table: set<Row>, matches: Row -> bool, cursor: Option<(Cursor.Instant, Uuid)>,
                         limit: nat, rows: seq<Row>)
    requires IsSearchPage(table, matches, cursor, limit, rows)
    ensures IsPage(Matching(table, matches), NewestFirst, PositionOf(cursor), limit, rows)
  {
    forall r ensures Continues(r, cursor) <==> Past(PositionOf(cursor), NewestFirst(r)) {
      if cursor.Some? {
        BeforeIsPast(r, Cursor.Micros(cursor.value.0), cursor.value.1);
      }
    }
    forall r: Row, q: Row ensures Before(r, q.createdAt, q.id) <==> Below(NewestFirst(q), NewestFirst(r)) {
      BeforeIsPast(r, q.createdAt, q.id);
    }
  }

  function PositionOf(cursor: Option<(Cursor.Instant, Uuid)>): Option<Key> {
    if cursor == None then None else Some(Key(-Cursor.Micros(cursor.value.0), 0 - cursor.value.1))
  }

  predicate Representable(r: Row) {
    Cursor.FromMicros(r.createdAt).Some?
  }

  /** The cursor a client sends back to continue after `r`. */
  function CursorAfter(r: Row): string
    requires Representable(r)
  {
    Cursor.Encode(Cursor.FromMicros(r.createdAt).value, r.id)
  }

  lemma PositionOfStored(r: Row, c: Option<(Cursor.Instant, Uuid)>)
    requires Representable(r) && c == Some((Cursor.FromMicros(r.createdAt).value, r.id))
    ensures PositionOf(c) == Some(NewestFirst(r))
  {
    Cursor.MicrosOfFromMicros(r.createdAt);
  }

  /** Timestamps are stored to the microsecond, so the text of a cursor keeps the
      exact position of its row. */
  lemma CursorKeepsPosition(r: Row)
    requires Representable(r)
    ensures Cursor.Decode(CursorAfter(r)).Some?
    ensures PositionOf(Cursor.Decode(CursorAfter(r))) == Some(NewestFirst(r))
  {
    Cursor.DecodeOfStored(r.createdAt, r.id);
    PositionOfStored(r, Cursor.Decode(CursorAfter(r)));
  }

  /** A client that starts at `cursor` and sends back the cursor of the last row
      of each page, until a page is empty or it loses interest. Between two pages
      the table may change in any way. */
  ghost predicate IsClientWalk(tables: seq<set<Row>>, matches: Row -> bool, cursor: Option<(Cursor.Instant, Uuid)>,
                               limit: nat, pages: seq<seq<Row>>) {
    && |tables| == |pages|
    && (pages != [] ==>
          && (forall r :: r in pages[0] ==> Representable(r))
          && IsSearchPage(tables[0], matches, cursor, limit, pages[0])
          && if pages[0] == [] then |pages| == 1
             else
               var next := CursorAfter(pages[0][|pages[0]| - 1]);
               IsClientWalk(tables[1..], matches, Cursor.Decode(next), limit, pages[1..]))
  }

  ghost function Matched(tables: seq<set<Row>>, matches: Row -> bool): seq<set<Row>> {
    seq(|tables|, i requires 0 <= i < |tables| => Matching(tables[i], matches))
  }

  lemma {:induction false} ClientWalkIsWalk(tables: seq<set<Row>>, matches: Row -> bool,
      cursor: Option<(Cursor.Instant, Uuid)>, limit: nat, pages: seq<seq<Row>>)
    requires IsClientWalk(tables, matches, cursor, limit, pages)
    ensures IsWalk(Matched(tables, matches), NewestFirst, PositionOf(cursor), limit, pages)
    decreases |pages|
  {
    if pages == [] {
    } else {
      assert Matched(tables, matches)[1..] == Matched(tables[1..], matches);
      SearchPageIsPage(tables[0], matches, cursor, limit, pages[0]);
      if pages[0] != [] {
        var last := pages[0][|pages[0]| - 1];
        assert last in pages[0];
        CursorKeepsPosition(last);
        ClientWalkIsWalk(tables[1..], matches, Cursor.Decode(CursorAfter(last)), limit, pages[1..]);
      }
    }
  }

  /** No row is returned twice, whatever changes between pages. */
  lemma SearchNeverRepeats(tables: seq<set<Row>>, matches: Row -> bool, limit: nat, pages: seq<seq<Row>>)
    requires limit >= 1 && IsClientWalk(tables, matches, None, limit, pages)
    ensures var rows := Flatten(pages);
      forall i, j :: 0 <= i < j < |rows| ==>
        rows[j].createdAt < rows[i].createdAt || (rows[j].createdAt == rows[i].createdAt && rows[j].id < rows[i].id)
  {
    ClientWalkIsWalk(tables, matches, None, limit, pages);
    WalkAscends(Matched(tables, matches), NewestFirst, None, limit, pages);
    var rows := Flatten(pages);
    forall i, j | 0 <= i < j < |rows| ensures Before(rows[j], rows[i].createdAt, rows[i].id) {
      assert Below(NewestFirst(rows[i]), NewestFirst(rows[j]));
    }
  }

  /** Every row returned matches the query and was in the table when its page was read. */
  lemma SearchReturnsMatches(tables: seq<set<Row>>, matches: Row -> bool, limit: nat, pages: seq<seq<Row>>, r: Row)
    requires IsClientWalk(tables, matches, None, limit, pages) && r in Flatten(pages)
    ensures matches(r) && exists i :: 0 <= i < |tables| && r in tables[i]
  {
    ClientWalkIsWalk(tables, matches, None, limit, pages);
    WalkIsSound(Matched(tables, matches), NewestFirst, None, limit, pages, r);
    var i :| 0 <= i < |tables| && r in Matched(tables, matches)[i];
    assert r in Matching(tables[i], matches);
  }

  /** A matching row that stays put is returned exactly once, down to where the
      walk stops, and without exception once a page comes back short. */
  lemma SearchFinds(tables: seq<set<Row>>, matches: Row -> bool, limit: nat, pages: seq<seq<Row>>, r: Row)
    requires limit >= 1 && IsClientWalk(tables, matches, None, limit, pages) && pages != []
    requires matches(r) && forall i :: 0 <= i < |tables| ==> r in tables[i]
    requires !Past(EndOfWalk(NewestFirst, None, pages), NewestFirst(r)) || LastPageIsShort(limit, pages)
    ensures multiset(Flatten(pages))[r] == 1
  {
    ClientWalkIsWalk(tables, matches, None, limit, pages);
    WalkFinds(Matched(tables, matches), NewestFirst, None, limit, pages, r);
  }

  /** On a table that does not change, the first short page is the one after
      n / limit full ones, and then the pages are the whole sorted listing. */
  lemma SearchIsListing(table: set<Row>, matches: Row -> bool, limit: nat, pages: seq<seq<Row>>, all: seq<Row>)
    requires limit >= 1 && IsClientWalk(seq(|pages|, i => table), matches, None, limit, pages)
    requires IsListing(Matching(table, matches), NewestFirst, None, all) && DistinctKeys(NewestFirst, table)
    ensures StopsAtShortPage(limit, pages) <==> |pages| == |all| / limit + 1
    ensures StopsAtShortPage(limit, pages) ==> Flatten(pages) == all
  {
    var tables := seq(|pages|, i => table);
    ClientWalkIsWalk(tables, matches, None, limit, pages);
    assert Matched(tables, matches) == seq(|pages|, i => Matching(table, matches));
    FetchCount(Matching(table, matches), NewestFirst, None, limit, pages, all);
  }
}
