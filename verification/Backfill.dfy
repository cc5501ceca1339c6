/** The backfill of migration 004: rows that were there before the sequence get
    their `row_number()` over `(created_at, id)`, and the sequence starts after them. */
module Backfill {
  import opened Prelude
  import opened Paging
  import opened Rows
  import opened EventLog
  import Listener

  /** `ORDER BY created_at ASC, id ASC`. */
  function OldestFirst(r: Row): Key {
    Key(r.createdAt, r.id)
  }

  ghost function Older(table: set<Row>, r: Row): set<Row> {
    set q | q in table && Below(OldestFirst(q), OldestFirst(r))
  }

  /** `row_number()`: one more than the rows listed before. */
  ghost function RowNumber(table: set<Row>, r: Row): nat {
    1 + |Older(table, r)|
  }

  function Numbered(r: Row, n: int): Row {
    r.(eventSeq := n)
  }

  /** The primary key, and no sequence number yet. */
  ghost predicate Unnumbered(table: set<Row>) {
    && (forall r :: r in table ==> r.eventSeq == 0)
    && (forall r, q :: r in table && q in table && r.id == q.id ==> r == q)
  }

  function Elements(rows: seq<Row>): set<Row> {
    set q | q in rows
  }

  lemma {:induction false} ElementsSize(rows: seq<Row>)
    requires Ascending(OldestFirst, rows)
    ensures |Elements(rows)| == |rows|
  {
    if rows == [] {
    } else {
      var n := |rows| - 1;
      ElementsSize(rows[..n]);
      assert rows == rows[..n] + [rows[n]];
      assert Elements(rows) == Elements(rows[..n]) + {rows[n]};
      assert rows[n] !in Elements(rows[..n]);
    }
  }

  lemma OrderIsPlace(all: seq<Row>, k: nat, i: nat)
    requires Ascending(OldestFirst, all) && k < |all| && i < |all|
    ensures Below(OldestFirst(all[k]), OldestFirst(all[i])) <==> k < i
  {
  }

  /** A row's number is its place in the sorted listing. */
  lemma RowNumberIsPlace(table: set<Row>, all: seq<Row>, i: nat)
    requires IsListing(table, OldestFirst, None, all) && i < |all|
    ensures RowNumber(table, all[i]) == i + 1
  {
    forall q | q in Older(table, all[i]) ensures q in all[..i] {
      var k :| 0 <= k < |all| && all[k] == q;
      OrderIsPlace(all, k, i);
      assert all[..i][k] == q;
    }
    forall q | q in all[..i] ensures q in Older(table, all[i]) {
      var k :| 0 <= k < i && all[k] == q;
      assert all[k] in all;
    }
    assert Older(table, all[i]) == Elements(all[..i]);
    ElementsSize(all[..i]);
  }

  /** The world that migration 004 leaves behind. */
  function Migrated(log: seq<Row>): World {
    World(|log| + 1, None, map[], log, {}, false, [], 0, 0, NoReply, Listener.START,
          seq(|log|, i => 0), {}, {}, {}, {}, 0, 0)
  }

  /** Rows numbered in ascending order make a starting point of the event log. */
  lemma NumberedIsInit(all: seq<Row>, log: seq<Row>)
    requires Ascending(OldestFirst, all) && |log| == |all|
    requires forall i, j :: 0 <= i < j < |all| ==> all[i].id != all[j].id
    requires forall i :: 0 <= i < |all| ==> log[i] == Numbered(all[i], i + 1)
    ensures Init(Migrated(log))
  {
    forall i, j | 0 <= i < j < |log| ensures Below(NewestFirst(log[j]), NewestFirst(log[i])) && log[i].id != log[j].id {
      assert Below(OldestFirst(all[i]), OldestFirst(all[j]));
    }
  }

  lemma ListedIdsDiffer(table: set<Row>, all: seq<Row>, i: nat, j: nat)
    requires Unnumbered(table) && IsListing(table, OldestFirst, None, all) && i < j < |all|
    ensures all[i].id != all[j].id
  {
    assert all[i] in all && all[j] in all;
    assert Below(OldestFirst(all[i]), OldestFirst(all[j]));
  }

  lemma SortedListing(table: set<Row>) returns (all: seq<Row>)
    requires Unnumbered(table)
    ensures IsListing(table, OldestFirst, None, all) && |all| == |table|
  {
    assert DistinctKeys(OldestFirst, table);
    all := ListingExists(table, OldestFirst, None);
    ElementsSize(all);
    assert table == Elements(all);
  }

  /** Whatever rows there were, the backfill numbers them 1..n without gaps, oldest
      first, every row once, and the event log starts from there. */
  lemma BackfillStartsTheLog(table: set<Row>) returns (log: seq<Row>)
    requires Unnumbered(table)
    ensures Init(Migrated(log)) && |log| == |table| && Migrated(log).nextSeq == |table| + 1
    ensures forall i, j :: 0 <= i < j < |log| ==>
              log[i].eventSeq < log[j].eventSeq &&
              (log[i].createdAt < log[j].createdAt || (log[i].createdAt == log[j].createdAt && log[i].id < log[j].id))
    ensures forall r :: r in table ==> Numbered(r, RowNumber(table, r)) in log
    ensures forall e :: e in log ==> exists r :: r in table && e == Numbered(r, RowNumber(table, r))
  {
    hide Init, RowNumber, Unnumbered;
    var all := SortedListing(table);
    log := seq(|all|, i requires 0 <= i < |all| => Numbered(all[i], i + 1));
    forall i | 0 <= i < |all| ensures log[i] == Numbered(all[i], RowNumber(table, all[i])) && all[i] in table {
      RowNumberIsPlace(table, all, i);
      assert all[i] in all;
    }
    forall i, j | 0 <= i < j < |all| ensures all[i].id != all[j].id {
      ListedIdsDiffer(table, all, i, j);
    }
    NumberedIsInit(all, log);
    forall r | r in table ensures Numbered(r, RowNumber(table, r)) in log {
      var i :| 0 <= i < |all| && all[i] == r;
      assert log[i] == Numbered(r, RowNumber(table, r));
    }
  }
}
