/** Pages of a database listing. Both paged reads of live-search, the replay by
    `event_seq` and the keyset search by `(created_at, id)`, ask for the first
    `limit` rows past a cursor in a fixed strict order. A query is specified by
    what it returns, not by how: `rows` is the answer when `IsPage` holds. */
module Paging {
  import opened Prelude

  /** The position of a row in the listing; smaller keys are listed first. */
  datatype Key = Key(major: int, minor: int)

  predicate Below(a: Key, b: Key) {
    a.major < b.major || (a.major == b.major && a.minor < b.minor)
  }

  predicate Past(cursor: Option<Key>, k: Key) {
    cursor == None || Below(cursor.value, k)
  }

  predicate Ascending<T>(key: T -> Key, rows: seq<T>) {
    forall i, j :: 0 <= i < j < |rows| ==> Below(key(rows[i]), key(rows[j]))
  }

  ghost predicate DistinctKeys<T>(key: T -> Key, table: set<T>) {
    forall r, q :: r in table && q in table && key(r) == key(q) ==> r == q
  }

  /** The answer to the query without a LIMIT. */
  ghost predicate IsListing<T>(table: set<T>, key: T -> Key, cursor: Option<Key>, rows: seq<T>) {
    && Ascending(key, rows)
    && (forall r :: r in rows ==> r in table && Past(cursor, key(r)))
    && (forall r :: r in table && Past(cursor, key(r)) ==> r in rows)
  }

  /** The answer to the query with `LIMIT limit`: a row is left out only when the
      page is full of rows listed before it. */
  ghost predicate IsPage<T>(table: set<T>, key: T -> Key, cursor: Option<Key>, limit: nat, rows: seq<T>) {
    && Ascending(key, rows)
    && |rows| <= limit
    && (forall r :: r in rows ==> r in table && Past(cursor, key(r)))
    && (forall r :: r in table && Past(cursor, key(r)) && r !in rows ==>
          |rows| == limit && forall q :: q in rows ==> Below(key(q), key(r)))
  }

  function EndOf<T>(key: T -> Key, cursor: Option<Key>, rows: seq<T>): Option<Key> {
    if rows == [] then cursor else Some(key(rows[|rows| - 1]))
  }

  /** `pages[i]` was read from `tables[i]`, each page past the end of the one before. */
  ghost predicate IsWalk<T>(tables: seq<set<T>>, key: T -> Key, cursor: Option<Key>, limit: nat, pages: seq<seq<T>>) {
    && |tables| == |pages|
    && (pages != [] ==>
          && IsPage(tables[0], key, cursor, limit, pages[0])
          && IsWalk(tables[1..], key, EndOf(key, cursor, pages[0]), limit, pages[1..]))
  }

  function Flatten<T>(pages: seq<seq<T>>): seq<T> {
    if pages == [] then [] else pages[0] + Flatten(pages[1..])
  }

  function EndOfWalk<T>(key: T -> Key, cursor: Option<Key>, pages: seq<seq<T>>): Option<Key>
    decreases |pages|
  {
    if pages == [] then cursor else EndOfWalk(key, EndOf(key, cursor, pages[0]), pages[1..])
  }

  // ---- The queries always have an answer, and only one ----

  lemma {:induction false} LeastOf<T>(table: set<T>, key: T -> Key) returns (least: T)
    requires table != {} && DistinctKeys(key, table)
    ensures least in table
    ensures forall r :: r in table && r != least ==> Below(key(least), key(r))
  {
    var x :| x in table;
    if table == {x} {
      least := x;
    } else {
      var smaller := table - {x};
      assert table == smaller + {x};
      var m := LeastOf(smaller, key);
      least := if Below(key(x), key(m)) then x else m;
    }
  }

  lemma {:induction false} ListingExists<T>(table: set<T>, key: T -> Key, cursor: Option<Key>) returns (rows: seq<T>)
    requires DistinctKeys(key, table)
    ensures IsListing(table, key, cursor, rows)
    decreases |table|
  {
    if table == {} {
      rows := [];
    } else {
      var least := LeastOf(table, key);
      var rest := ListingExists(table - {least}, key, cursor);
      rows := if Past(cursor, key(least)) then [least] + rest else rest;
    }
  }

  lemma PageOfListing<T>(table: set<T>, key: T -> Key, cursor: Option<Key>, limit: nat, all: seq<T>)
    requires IsListing(table, key, cursor, all)
    ensures IsPage(table, key, cursor, limit, all[..Min(limit, |all|)])
  {
    var n := Min(limit, |all|);
    forall r | r in table && Past(cursor, key(r)) && r !in all[..n]
      ensures n == limit && forall q :: q in all[..n] ==> Below(key(q), key(r))
    {
      var at :| 0 <= at < |all| && all[at] == r;
      assert forall k :: 0 <= k < n ==> all[..n][k] == all[k];
    }
  }

  lemma Contained<T>(b: seq<T>, a: seq<T>)
    requires forall r :: r in b ==> r in a
    ensures a == [] ==> b == []
  {
    if b != [] {
      assert b[0] in b;
    }
  }

  lemma {:induction false} ListingIsUnique<T>(table: set<T>, key: T -> Key, cursor: Option<Key>, a: seq<T>, b: seq<T>)
    requires IsListing(table, key, cursor, a) && IsListing(table, key, cursor, b)
    ensures a == b
    decreases |a|
  {
    if a == [] {
      Contained(b, a);
    } else {
      assert a[0] in b;
      var i :| 0 <= i < |b| && b[i] == a[0];
      assert b[0] in a;
      var j :| 0 <= j < |a| && a[j] == b[0];
      assert i == 0 && j == 0;
      var after := Some(key(a[0]));
      Tail(table, key, cursor, a);
      Tail(table, key, cursor, b);
      ListingIsUnique(table, key, after, a[1..], b[1..]);
      assert a == [a[0]] + a[1..] && b == [b[0]] + b[1..];
    }
  }

  lemma Tail<T>(table: set<T>, key: T -> Key, cursor: Option<Key>, a: seq<T>)
    requires IsListing(table, key, cursor, a) && a != []
    ensures IsListing(table, key, Some(key(a[0])), a[1..])
  {
    forall r | r in a[1..] ensures r in table && Below(key(a[0]), key(r)) {
      var i :| 0 <= i < |a[1..]| && a[1..][i] == r;
      assert a[i + 1] == r;
    }
    forall r | r in table && Below(key(a[0]), key(r)) ensures r in a[1..] {
      assert Past(cursor, key(r)) by {
        assert a[0] in a;
      }
      var i :| 0 <= i < |a| && a[i] == r;
      assert i > 0 && a[1..][i - 1] == r;
    }
  }

  // ---- Walks over a changing table ----

  /** The end of a page is past its cursor and no row of the page is past the end. */
  lemma EndMovesForward<T>(key: T -> Key, cursor: Option<Key>, rows: seq<T>)
    requires Ascending(key, rows) && forall r :: r in rows ==> Past(cursor, key(r))
    ensures forall r :: r in rows ==> !Past(EndOf(key, cursor, rows), key(r))
    ensures forall k :: Past(EndOf(key, cursor, rows), k) ==> Past(cursor, k)
  {
    if rows != [] {
      var last := rows[|rows| - 1];
      assert last in rows;
      forall r | r in rows ensures !Below(key(last), key(r)) {
        var i :| 0 <= i < |rows| && rows[i] == r;
      }
    }
  }

  /** Whatever happens to the table between pages, the pages concatenate to a
      strictly ascending sequence: no row is returned twice. */
  lemma {:induction false} WalkAscends<T>(tables: seq<set<T>>, key: T -> Key, cursor: Option<Key>,
      limit: nat, pages: seq<seq<T>>)
    requires IsWalk(tables, key, cursor, limit, pages)
    ensures Ascending(key, Flatten(pages))
    ensures forall r :: r in Flatten(pages) ==> Past(cursor, key(r))
    ensures forall r :: r in Flatten(pages) ==> !Past(EndOfWalk(key, cursor, pages), key(r))
    ensures forall k :: Past(EndOfWalk(key, cursor, pages), k) ==> Past(cursor, k)
    decreases |pages|
  {
    if pages == [] {
    } else {
      var end := EndOf(key, cursor, pages[0]);
      EndMovesForward(key, cursor, pages[0]);
      WalkAscends(tables[1..], key, end, limit, pages[1..]);
      var head, rest := pages[0], Flatten(pages[1..]);
      forall i, j | 0 <= i < j < |head + rest| ensures Below(key((head + rest)[i]), key((head + rest)[j])) {
        if i < |head| <= j {
          assert head[i] in head && rest[j - |head|] in rest;
          assert !Past(end, key(head[i])) && Past(end, key(rest[j - |head|]));
        }
      }
    }
  }

  /** Every row returned was in the table when its page was read. */
  lemma {:induction false} WalkIsSound<T>(tables: seq<set<T>>, key: T -> Key, cursor: Option<Key>,
      limit: nat, pages: seq<seq<T>>, r: T)
    requires IsWalk(tables, key, cursor, limit, pages) && r in Flatten(pages)
    ensures exists i :: 0 <= i < |tables| && r in tables[i]
    decreases |pages|
  {
    if r !in pages[0] {
      WalkIsSound(tables[1..], key, EndOf(key, cursor, pages[0]), limit, pages[1..], r);
      var i :| 0 <= i < |tables[1..]| && r in tables[1..][i];
      assert r in tables[i + 1];
    }
  }

  /** Rows that appear later are listed after everything visible before. Rows may vanish. */
  ghost predicate Evolves<T>(tables: seq<set<T>>, key: T -> Key) {
    forall i, j, r, q :: 0 <= i < j < |tables| && r in tables[j] && r !in tables[i] && q in tables[i] ==>
      Below(key(q), key(r))
  }

  ghost predicate LastPageIsShort<T>(limit: nat, pages: seq<seq<T>>) {
    pages != [] && |pages[|pages| - 1]| < limit
  }

  /** A row of the last table that is still ahead after one page, or in that page. */
  lemma PageDoesNotSkip<T>(tables: seq<set<T>>, key: T -> Key, cursor: Option<Key>, limit: nat, page: seq<T>, r: T)
    requires tables != [] && Evolves(tables, key) && IsPage(tables[0], key, cursor, limit, page)
    requires r in tables[|tables| - 1] && Past(cursor, key(r))
    ensures r in page || Past(EndOf(key, cursor, page), key(r))
  {
    if r !in page && page != [] {
      var last := page[|page| - 1];
      assert last in page && last in tables[0];
      if r in tables[0] {
        assert Below(key(last), key(r));
      } else {
        assert 0 < |tables| - 1;
        assert Below(key(last), key(r));
      }
    }
  }

  /** A finished walk over a table that only grows at the end has met every row
      that is still there, even when rows vanish meanwhile. */
  lemma {:induction false} WalkCatchesUp<T>(tables: seq<set<T>>, key: T -> Key, cursor: Option<Key>,
      limit: nat, pages: seq<seq<T>>, r: T)
    requires IsWalk(tables, key, cursor, limit, pages) && LastPageIsShort(limit, pages) && Evolves(tables, key)
    requires r in tables[|tables| - 1] && Past(cursor, key(r))
    ensures r in Flatten(pages)
    decreases |pages|
  {
    PageDoesNotSkip(tables, key, cursor, limit, pages[0], r);
    if r !in pages[0] {
      if |pages| == 1 {
        assert false;
      }
      assert tables[1..][|tables[1..]| - 1] == tables[|tables| - 1];
      EvolvesTail(tables, key);
      WalkCatchesUp(tables[1..], key, EndOf(key, cursor, pages[0]), limit, pages[1..], r);
    }
  }

  lemma EvolvesTail<T>(tables: seq<set<T>>, key: T -> Key)
    requires Evolves(tables, key) && tables != []
    ensures Evolves(tables[1..], key)
  {
    forall i, j, r, q | 0 <= i < j < |tables[1..]| && r in tables[1..][j] && r !in tables[1..][i] && q in tables[1..][i]
      ensures Below(key(q), key(r))
    {
      assert tables[1..][i] == tables[i + 1] && tables[1..][j] == tables[j + 1];
    }
  }

  ghost predicate OnlyGrows<T>(tables: seq<set<T>>) {
    forall i, j :: 0 <= i < j < |tables| ==> tables[i] <= tables[j]
  }

  lemma WalkIsListing<T>(tables: seq<set<T>>, key: T -> Key, cursor: Option<Key>, limit: nat, pages: seq<seq<T>>)
    requires IsWalk(tables, key, cursor, limit, pages) && LastPageIsShort(limit, pages)
    requires Evolves(tables, key) && OnlyGrows(tables)
    ensures IsListing(tables[|tables| - 1], key, cursor, Flatten(pages))
  {
    var last := tables[|tables| - 1];
    forall r | r in Flatten(pages) ensures r in last {
      WalkIsSound(tables, key, cursor, limit, pages, r);
    }
    forall r | r in last && Past(cursor, key(r)) ensures r in Flatten(pages) {
      WalkCatchesUp(tables, key, cursor, limit, pages, r);
    }
    assert Ascending(key, Flatten(pages)) && forall r :: r in Flatten(pages) ==> Past(cursor, key(r)) by {
      WalkAscends(tables, key, cursor, limit, pages);
    }
  }

  /** When rows are only added, the pages are exactly one unpaged query of the
      last table: in order, without gaps, without repeats. */
  lemma PagedEqualsUnpaged<T>(tables: seq<set<T>>, key: T -> Key, cursor: Option<Key>,
      limit: nat, pages: seq<seq<T>>, all: seq<T>)
    requires IsWalk(tables, key, cursor, limit, pages) && LastPageIsShort(limit, pages)
    requires Evolves(tables, key) && OnlyGrows(tables)
    requires IsListing(tables[|tables| - 1], key, cursor, all)
    ensures Flatten(pages) == all
  {
    WalkIsListing(tables, key, cursor, limit, pages);
    ListingIsUnique(tables[|tables| - 1], key, cursor, Flatten(pages), all);
  }

  /** Full pages, then one short page: the shape at which replay stops. */
  ghost predicate StopsAtShortPage<T>(limit: nat, pages: seq<seq<T>>) {
    && LastPageIsShort(limit, pages)
    && forall i :: 0 <= i < |pages| - 1 ==> |pages[i]| == limit
  }

  lemma MultipleIsLarge(limit: nat, d: int)
    ensures d >= 1 ==> limit * d >= limit
    ensures d <= -1 ==> limit * d + limit <= 0
  {
  }

  // ---- A table that does not change ----

  lemma PageTail<T>(table: set<T>, key: T -> Key, cursor: Option<Key>, limit: nat, a: seq<T>)
    requires IsPage(table, key, cursor, limit, a) && a != []
    ensures IsPage(table, key, Some(key(a[0])), limit - 1, a[1..])
  {
    assert a[0] in a;
    forall r | r in a[1..] ensures r in table && Below(key(a[0]), key(r)) {
      var i :| 0 <= i < |a[1..]| && a[1..][i] == r;
      assert a[i + 1] == r;
    }
    forall r | r in table && Below(key(a[0]), key(r)) && r !in a[1..]
      ensures |a| == limit && forall q :: q in a[1..] ==> Below(key(q), key(r))
    {
      assert a == [a[0]] + a[1..];
      assert r !in a && Past(cursor, key(r));
    }
  }

  lemma HeadOfPage<T>(table: set<T>, key: T -> Key, cursor: Option<Key>, limit: nat, a: seq<T>, b: seq<T>)
    requires IsPage(table, key, cursor, limit, a) && IsPage(table, key, cursor, limit, b) && a != []
    ensures b != [] && !Below(key(b[0]), key(a[0]))
  {
    assert a[0] in a;
    assert b != [] ==> b[0] in b;
    assert b != [] && b[0] !in a ==> Below(key(a[0]), key(b[0]));
  }

  /** A query with a LIMIT has only one answer. */
  lemma {:induction false} PageIsUnique<T>(table: set<T>, key: T -> Key, cursor: Option<Key>, limit: nat,
      a: seq<T>, b: seq<T>)
    requires IsPage(table, key, cursor, limit, a) && IsPage(table, key, cursor, limit, b) && DistinctKeys(key, table)
    ensures a == b
    decreases |a|
  {
    if a == [] {
      if b != [] {
        HeadOfPage(table, key, cursor, limit, b, a);
      }
    } else {
      HeadOfPage(table, key, cursor, limit, a, b);
      HeadOfPage(table, key, cursor, limit, b, a);
      assert a[0] in a && b[0] in b && key(a[0]) == key(b[0]);
      PageTail(table, key, cursor, limit, a);
      PageTail(table, key, cursor, limit, b);
      PageIsUnique(table, key, Some(key(a[0])), limit - 1, a[1..], b[1..]);
      assert a == [a[0]] + a[1..] && b == [b[0]] + b[1..];
    }
  }

  lemma RestOfListing<T>(table: set<T>, key: T -> Key, cursor: Option<Key>, all: seq<T>, n: nat)
    requires IsListing(table, key, cursor, all) && n <= |all|
    ensures IsListing(table, key, EndOf(key, cursor, all[..n]), all[n..])
  {
    if n > 0 {
      assert all[n - 1] in all && all[..n][n - 1] == all[n - 1];
      forall r | r in all[n..] ensures r in table && Below(key(all[n - 1]), key(r)) {
        var i :| 0 <= i < |all[n..]| && all[n..][i] == r;
        assert all[n + i] == r;
      }
      forall r | r in table && Below(key(all[n - 1]), key(r)) ensures r in all[n..] {
        assert Past(cursor, key(r));
        var i :| 0 <= i < |all| && all[i] == r;
        assert i >= n && all[n..][i - n] == r;
      }
    } else {
      assert all[..0] == [] && all[0..] == all;
    }
  }

  lemma MultipleOfNext(limit: nat, i: nat)
    requires i > 0
    ensures limit * i == limit * (i - 1) + limit && limit * (i - 1) >= 0
  {
  }

  /** The place of the `i`th page in a listing of `n` rows. */
  function From(limit: nat, i: nat, n: nat): (at: nat)
    ensures at <= n
  {
    Min(limit * i, n)
  }

  function To(limit: nat, i: nat, n: nat): (at: nat)
    ensures From(limit, i, n) <= at <= n
  {
    Min(limit * i + limit, n)
  }

  lemma SliceOfRest<T>(all: seq<T>, limit: nat, i: nat)
    requires i > 0
    ensures var n := Min(limit, |all|);
            all[n..][From(limit, i - 1, |all| - n)..To(limit, i - 1, |all| - n)] ==
            all[From(limit, i, |all|)..To(limit, i, |all|)]
  {
    MultipleOfNext(limit, i);
  }

  lemma FirstSlice<T>(all: seq<T>, limit: nat)
    ensures all[From(limit, 0, |all|)..To(limit, 0, |all|)] == all[..Min(limit, |all|)]
  {
  }

  /** Page `i` of a table that does not change is the `i`th slice of the listing. */
  lemma {:induction false} StaticPage<T>(table: set<T>, key: T -> Key, cursor: Option<Key>, limit: nat,
      pages: seq<seq<T>>, all: seq<T>, i: nat)
    requires IsWalk(seq(|pages|, i => table), key, cursor, limit, pages) && i < |pages|
    requires IsListing(table, key, cursor, all) && DistinctKeys(key, table)
    ensures pages[i] == all[From(limit, i, |all|)..To(limit, i, |all|)]
    decreases i
  {
    hide IsPage, IsListing, DistinctKeys, Ascending, From, To;
    var n := Min(limit, |all|);
    PageOfListing(table, key, cursor, limit, all);
    PageIsUnique(table, key, cursor, limit, pages[0], all[..n]);
    if i == 0 {
      FirstSlice(all, limit);
    } else {
      RestOfListing(table, key, cursor, all, n);
      assert seq(|pages|, i => table)[1..] == seq(|pages[1..]|, i => table);
      StaticPage(table, key, EndOf(key, cursor, pages[0]), limit, pages[1..], all[n..], i - 1);
      SliceOfRest(all, limit, i);
    }
  }

  lemma {:induction false} WalkIsLimited<T>(tables: seq<set<T>>, key: T -> Key, cursor: Option<Key>, limit: nat,
      pages: seq<seq<T>>)
    requires IsWalk(tables, key, cursor, limit, pages)
    ensures forall i :: 0 <= i < |pages| ==> |pages[i]| <= limit
    decreases |pages|
  {
    if pages == [] {
    } else {
      WalkIsLimited(tables[1..], key, EndOf(key, cursor, pages[0]), limit, pages[1..]);
      assert forall i :: 1 <= i < |pages| ==> pages[i] == pages[1..][i - 1];
    }
  }

  lemma ShortWhen(n: nat, limit: nat, i: nat)
    requires limit >= 1
    ensures n < limit * i + limit <==> i >= n / limit
  {
    var d := i - n / limit;
    assert limit * d == limit * i - limit * (n / limit);
    MultipleIsLarge(limit, d);
  }

  /** On a table of n rows that does not change, fetch i comes back short exactly
      when i >= n / limit, counting from 0. So a reader that stops at a short page
      does stop, after n / limit + 1 fetches, with the whole listing. */
  lemma FetchCount<T>(table: set<T>, key: T -> Key, cursor: Option<Key>, limit: nat, pages: seq<seq<T>>, all: seq<T>)
    requires limit >= 1 && IsWalk(seq(|pages|, i => table), key, cursor, limit, pages)
    requires IsListing(table, key, cursor, all) && DistinctKeys(key, table)
    ensures forall i :: 0 <= i < |pages| ==> (|pages[i]| < limit <==> i >= |all| / limit)
    ensures StopsAtShortPage(limit, pages) <==> |pages| == |all| / limit + 1
    ensures StopsAtShortPage(limit, pages) ==> Flatten(pages) == all
  {
    forall i | 0 <= i < |pages|
      ensures |pages[i]| <= limit && (|pages[i]| < limit <==> i >= |all| / limit)
    {
      StaticPage(table, key, cursor, limit, pages, all, i);
      ShortWhen(|all|, limit, i);
    }
    if StopsAtShortPage(limit, pages) {
      assert |pages[|pages| - 1]| < limit;
      assert |pages| >= 2 ==> |pages[|pages| - 2]| == limit;
      PagedEqualsUnpaged(seq(|pages|, i => table), key, cursor, limit, pages, all);
    }
  }

  // ---- Rows present throughout, while anything else comes and goes ----

  /** A row present and unchanged in every table is returned exactly once, down
      to where the walk stops; and down to the end of the listing once a page is short. */
  lemma {:induction false} WalkFinds<T>(tables: seq<set<T>>, key: T -> Key, cursor: Option<Key>,
      limit: nat, pages: seq<seq<T>>, r: T)
    requires IsWalk(tables, key, cursor, limit, pages)
    requires (forall i :: 0 <= i < |tables| ==> r in tables[i]) && Past(cursor, key(r))
    requires !Past(EndOfWalk(key, cursor, pages), key(r)) || LastPageIsShort(limit, pages)
    ensures multiset(Flatten(pages))[r] == 1
    decreases |pages|
  {
    WalkAscends(tables, key, cursor, limit, pages);
    WalkReaches(tables, key, cursor, limit, pages, r);
    OnceInAscending(key, Flatten(pages), r);
  }

  lemma {:induction false} WalkReaches<T>(tables: seq<set<T>>, key: T -> Key, cursor: Option<Key>,
      limit: nat, pages: seq<seq<T>>, r: T)
    requires IsWalk(tables, key, cursor, limit, pages)
    requires (forall i :: 0 <= i < |tables| ==> r in tables[i]) && Past(cursor, key(r))
    requires !Past(EndOfWalk(key, cursor, pages), key(r)) || LastPageIsShort(limit, pages)
    ensures r in Flatten(pages)
    decreases |pages|
  {
    assert EndOfWalk(key, cursor, pages) == EndOfWalk(key, EndOf(key, cursor, pages[0]), pages[1..]);
    if r !in pages[0] {
      if |pages| > 1 {
        forall i | 0 <= i < |tables[1..]| ensures r in tables[1..][i] {
          assert tables[1..][i] == tables[i + 1];
        }
        assert LastPageIsShort(limit, pages) ==> LastPageIsShort(limit, pages[1..]);
        WalkReaches(tables[1..], key, EndOf(key, cursor, pages[0]), limit, pages[1..], r);
      }
    }
  }

  lemma {:induction false} OnceInAscending<T>(key: T -> Key, rows: seq<T>, r: T)
    requires Ascending(key, rows) && r in rows
    ensures multiset(rows)[r] == 1
  {
    var i :| 0 <= i < |rows| && rows[i] == r;
    assert rows == rows[..i] + [r] + rows[i + 1..];
    assert r !in rows[..i] && r !in rows[i + 1..];
  }
}
