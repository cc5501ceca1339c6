/** Replay after a reconnect, page by page, against one query of the whole backlog. */
module Replay {
  import opened Prelude
  import opened Paging
  import opened Rows
  import opened EventLog
  import Listener

  function PageAnswers(pages: seq<seq<Row>>): seq<Listener.Answer> {
    seq(|pages|, i requires 0 <= i < |pages| => Listener.Page(pages[i]))
  }

  lemma {:induction false} ConsConforms(l: Listener.State, a: Listener.Answer, rest: seq<Listener.Answer>)
    requires Listener.Expects(l.phase, a) && Listener.Conforms(Listener.React(l, a), rest)
    ensures Listener.Conforms(l, [a] + rest)
    ensures Listener.After(l, [a] + rest) == Listener.After(Listener.React(l, a), rest)
    decreases |rest|
  {
    var answers := [a] + rest;
    if rest == [] {
      assert answers[..0] == [] && answers[0] == a;
      assert Listener.Conforms(l, answers[..0]);
    } else {
      var n := |rest| - 1;
      ConsConforms(l, a, rest[..n]);
      assert answers[..n + 1] == [a] + rest[..n] && answers[n + 1] == rest[n];
    }
  }

  /** What the listener does with the pages of one replay, up to a short one. */
  lemma {:induction false} PagesReplayed(l: Listener.State, pages: seq<seq<Row>>)
    requires l.phase.Replaying? && StopsAtShortPage(Listener.RESYNC_BATCH_SIZE, pages)
    ensures Listener.Conforms(l, PageAnswers(pages))
    ensures var after, all := Listener.After(l, PageAnswers(pages)), Flatten(pages);
      && after.phase.Live?
      && after.broadcast == l.broadcast + all
      && after.lastSeen == Listener.LastSeq(l.phase.cursor, all)
      && after.bumps == l.bumps + if l.phase.replayedAny || all != [] then 1 else 0
    decreases |pages|
  {
    var first, rest := pages[0], pages[1..];
    var mid := Listener.React(l, Listener.Page(first));
    assert PageAnswers(pages) == [Listener.Page(first)] + PageAnswers(rest);
    if |pages| == 1 {
      assert PageAnswers(rest) == [] && Flatten(rest) == [];
      assert Flatten(pages) == first;
      ConsConforms(l, Listener.Page(first), []);
    } else {
      assert |pages[0]| == Listener.RESYNC_BATCH_SIZE;
      assert rest[|rest| - 1] == pages[|pages| - 1];
      assert forall i :: 0 <= i < |rest| - 1 ==> rest[i] == pages[i + 1];
      PagesReplayed(mid, rest);
      ConsConforms(l, Listener.Page(first), PageAnswers(rest));
      assert l.broadcast + first + Flatten(rest) == l.broadcast + (first + Flatten(rest));
    }
  }

  /** Whatever inserts commit between pages, a successful replay broadcasts
      exactly what one unpaged query of the last table read would have returned:
      every row after the start, in order, without gaps or repeats. */
  lemma ReplayEqualsQuery(l: Listener.State, tables: seq<set<Row>>, pages: seq<seq<Row>>, all: seq<Row>)
    requires l.phase == Listener.Replaying(l.lastSeen, false)
    requires IsWalk(tables, BySeq, Some(Key(l.lastSeen, 0)), Listener.RESYNC_BATCH_SIZE, pages)
    requires StopsAtShortPage(Listener.RESYNC_BATCH_SIZE, pages)
    requires Evolves(tables, BySeq) && OnlyGrows(tables)
    requires IsListing(tables[|tables| - 1], BySeq, Some(Key(l.lastSeen, 0)), all)
    ensures Listener.Conforms(l, PageAnswers(pages))
    ensures Listener.After(l, PageAnswers(pages)).broadcast == l.broadcast + all
    ensures Listener.After(l, PageAnswers(pages)).lastSeen == Listener.LastSeq(l.lastSeen, all)
  {
    PagesReplayed(l, pages);
    PagedEqualsUnpaged(tables, BySeq, Some(Key(l.lastSeen, 0)), Listener.RESYNC_BATCH_SIZE, pages, all);
  }

  /** Deletions between pages cannot hide a surviving row from replay. */
  lemma ReplayMeetsSurvivors(l: Listener.State, tables: seq<set<Row>>, pages: seq<seq<Row>>, r: Row)
    requires l.phase == Listener.Replaying(l.lastSeen, false)
    requires IsWalk(tables, BySeq, Some(Key(l.lastSeen, 0)), Listener.RESYNC_BATCH_SIZE, pages)
    requires StopsAtShortPage(Listener.RESYNC_BATCH_SIZE, pages)
    requires Evolves(tables, BySeq)
    requires r in tables[|tables| - 1] && r.eventSeq > l.lastSeen
    ensures Listener.Conforms(l, PageAnswers(pages))
    ensures r in Listener.After(l, PageAnswers(pages)).broadcast
  {
    PagesReplayed(l, pages);
    WalkCatchesUp(tables, BySeq, Some(Key(l.lastSeen, 0)), Listener.RESYNC_BATCH_SIZE, pages, r);
  }

  /** With a backlog of n rows that does not change, replay goes on through n / 100
      full pages and stops at the fetch after them: after that many answers the
      listener is live, and after fewer it is still replaying. */
  lemma ReplayFetchCount(l: Listener.State, table: set<Row>, pages: seq<seq<Row>>, all: seq<Row>)
    requires l.phase == Listener.Replaying(l.lastSeen, false)
    requires IsWalk(seq(|pages|, i => table), BySeq, Some(Key(l.lastSeen, 0)), Listener.RESYNC_BATCH_SIZE, pages)
    requires IsListing(table, BySeq, Some(Key(l.lastSeen, 0)), all) && DistinctKeys(BySeq, table)
    requires |pages| <= |all| / 100 + 1
    ensures Listener.Conforms(l, PageAnswers(pages))
    ensures Listener.After(l, PageAnswers(pages)).phase.Live? <==> |pages| == |all| / 100 + 1
    ensures |pages| == |all| / 100 + 1 ==>
              Listener.After(l, PageAnswers(pages)).broadcast == l.broadcast + all
  {
    hide IsWalk, IsListing, DistinctKeys, Listener.Conforms, Listener.After;
    FetchCount(table, BySeq, Some(Key(l.lastSeen, 0)), Listener.RESYNC_BATCH_SIZE, pages, all);
    WalkIsLimited(seq(|pages|, i => table), BySeq, Some(Key(l.lastSeen, 0)), Listener.RESYNC_BATCH_SIZE, pages);
    if |pages| == |all| / 100 + 1 {
      PagesReplayed(l, pages);
    } else {
      FullPagesReplayed(l, pages);
    }
  }

  /** Full pages alone do not end a replay. */
  lemma {:induction false} FullPagesReplayed(l: Listener.State, pages: seq<seq<Row>>)
    requires l.phase.Replaying? && forall i :: 0 <= i < |pages| ==> |pages[i]| == Listener.RESYNC_BATCH_SIZE
    ensures Listener.Conforms(l, PageAnswers(pages)) && Listener.After(l, PageAnswers(pages)).phase.Replaying?
    decreases |pages|
  {
    if pages == [] {
    } else {
      var n := |pages| - 1;
      FullPagesReplayed(l, pages[..n]);
      assert PageAnswers(pages)[..n] == PageAnswers(pages[..n]);
    }
  }

  /** The visible rows of any reachable state are told apart by `event_seq`. */
  lemma SeqIsKey(w: World)
    requires OrderInv(w)
    ensures DistinctKeys(BySeq, Visible(w))
  {
    forall r, q | r in Visible(w) && q in Visible(w) && BySeq(r) == BySeq(q) ensures r == q {
      SeqIdentifiesRow(w, r, q);
    }
  }

  /** In any reachable world whose table stays as it is, the replay just begun is over
      after exactly n / 100 + 1 fetches, n being the rows above the position. */
  lemma BacklogFetchCount(w: World, pages: seq<seq<Row>>, all: seq<Row>)
    requires OrderInv(w) && w.l.phase == Listener.Replaying(w.l.lastSeen, false)
    requires IsWalk(seq(|pages|, i => Visible(w)), BySeq, Some(Key(w.l.lastSeen, 0)), Listener.RESYNC_BATCH_SIZE, pages)
    requires IsListing(Visible(w), BySeq, Some(Key(w.l.lastSeen, 0)), all) && |pages| <= |all| / 100 + 1
    ensures Listener.Conforms(w.l, PageAnswers(pages))
    ensures Listener.After(w.l, PageAnswers(pages)).phase.Live? <==> |pages| == |all| / 100 + 1
    ensures |pages| == |all| / 100 + 1 ==>
              Listener.After(w.l, PageAnswers(pages)).broadcast == w.l.broadcast + all
  {
    SeqIsKey(w);
    ReplayFetchCount(w.l, Visible(w), pages, all);
  }

  // ---- The tables a run shows to its readers ----

  lemma {:induction false} DeletionsStay(w: World, steps: seq<Step>)
    requires OrderInv(w) && CanRun(w, steps)
    ensures w.deleted <= RunOf(w, steps).deleted
    decreases |steps|
  {
    if steps == [] {
    } else {
      var n := |steps| - 1;
      DeletionsStay(w, steps[..n]);
      OrderRun(w, steps[..n]);
      LogOnlyGrows(RunOf(w, steps[..n]), steps[n]);
    }
  }

  /** A row visible later and not now has a greater sequence number than every row visible now. */
  lemma NewlyVisibleIsAbove(w: World, steps: seq<Step>, r: Row, q: Row)
    requires OrderInv(w) && CanRun(w, steps)
    requires r in Visible(RunOf(w, steps)) && r !in Visible(w) && q in Visible(w)
    ensures q.eventSeq < r.eventSeq
  {
    CommitOrder(w, steps);
    DeletionsStay(w, steps);
    var log := RunOf(w, steps).log;
    var j :| 0 <= j < |log| && log[j] == r;
    var i :| 0 <= i < |w.log| && w.log[i] == q;
    assert j < |w.log| ==> r in w.log;
  }

  /** The tables a reader meets when it queries after `cuts[0]`, `cuts[1]`, ... steps. */
  ghost function TablesAlong(w: World, steps: seq<Step>, cuts: seq<nat>): seq<set<Row>>
    requires forall i :: 0 <= i < |cuts| ==> cuts[i] <= |steps| && CanRun(w, steps[..cuts[i]])
  {
    seq(|cuts|, i requires 0 <= i < |cuts| => Visible(RunOf(w, steps[..cuts[i]])))
  }

  lemma LaterTable(w: World, steps: seq<Step>, n: nat, m: nat)
    requires OrderInv(w) && CanRun(w, steps) && n <= m <= |steps|
    requires CanRun(w, steps[..n]) && CanRun(w, steps[..m])
    ensures var a, b := RunOf(w, steps[..n]), RunOf(w, steps[..m]);
      && (forall r, q :: r in Visible(b) && r !in Visible(a) && q in Visible(a) ==> Below(BySeq(q), BySeq(r)))
      && (a.deleted == b.deleted ==> Visible(a) <= Visible(b))
  {
    var a, b := RunOf(w, steps[..n]), RunOf(w, steps[..m]);
    RunSplits(w, steps[..m], n);
    assert steps[..m][..n] == steps[..n];
    OrderRun(w, steps[..n]);
    forall r, q | r in Visible(b) && r !in Visible(a) && q in Visible(a) ensures Below(BySeq(q), BySeq(r)) {
      NewlyVisibleIsAbove(a, steps[..m][n..], r, q);
    }
    CommitOrder(a, steps[..m][n..]);
  }

  /** Along every run the tables evolve as replay needs them to, and without
      deletions they only grow. */
  lemma TablesEvolve(w: World, steps: seq<Step>, cuts: seq<nat>)
    requires OrderInv(w) && CanRun(w, steps)
    requires forall i :: 0 <= i < |cuts| ==> cuts[i] <= |steps| && CanRun(w, steps[..cuts[i]])
    requires forall i, j :: 0 <= i < j < |cuts| ==> cuts[i] <= cuts[j]
    ensures Evolves(TablesAlong(w, steps, cuts), BySeq)
    ensures (forall i :: 0 <= i < |cuts| ==> RunOf(w, steps[..cuts[i]]).deleted == w.deleted) ==>
              OnlyGrows(TablesAlong(w, steps, cuts))
  {
    var tables := TablesAlong(w, steps, cuts);
    forall i, j | 0 <= i < j < |cuts|
      ensures forall r, q :: r in tables[j] && r !in tables[i] && q in tables[i] ==> Below(BySeq(q), BySeq(r))
      ensures RunOf(w, steps[..cuts[i]]).deleted == RunOf(w, steps[..cuts[j]]).deleted ==> tables[i] <= tables[j]
    {
      LaterTable(w, steps, cuts[i], cuts[j]);
    }
  }

  /** Replay in any run without deletions: fetch whenever you like, the rows
      broadcast are those of the last table read. */
  lemma ReplayInRun(w: World, steps: seq<Step>, cuts: seq<nat>, l: Listener.State, pages: seq<seq<Row>>, all: seq<Row>)
    requires OrderInv(w) && CanRun(w, steps)
    requires forall i :: 0 <= i < |cuts| ==> cuts[i] <= |steps| && CanRun(w, steps[..cuts[i]])
    requires forall i, j :: 0 <= i < j < |cuts| ==> cuts[i] <= cuts[j]
    requires forall i :: 0 <= i < |cuts| ==> RunOf(w, steps[..cuts[i]]).deleted == w.deleted
    requires l.phase == Listener.Replaying(l.lastSeen, false)
    requires IsWalk(TablesAlong(w, steps, cuts), BySeq, Some(Key(l.lastSeen, 0)), Listener.RESYNC_BATCH_SIZE, pages)
    requires StopsAtShortPage(Listener.RESYNC_BATCH_SIZE, pages)
    requires IsListing(Visible(RunOf(w, steps[..cuts[|cuts| - 1]])), BySeq, Some(Key(l.lastSeen, 0)), all)
    ensures Listener.Conforms(l, PageAnswers(pages))
    ensures Listener.After(l, PageAnswers(pages)).broadcast == l.broadcast + all
    ensures Listener.After(l, PageAnswers(pages)).lastSeen == Listener.LastSeq(l.lastSeen, all)
  {
    TablesEvolve(w, steps, cuts);
    ReplayEqualsQuery(l, TablesAlong(w, steps, cuts), pages, all);
  }
}
