/** Replays that fail after sending rows: exactly there a row can go out twice. */
module Redelivery {
  import opened Prelude
  import opened Paging
  import opened Rows
  import opened EventLog
  import opened Delivery
  import Backfill
  import Replay
  import Listener

  // ---- A replay under way has sent every surviving row up to its cursor ----

  ghost predicate SentSoFar(w: World) {
    w.l.phase.Replaying? ==>
      forall r :: r in Visible(w) && w.l.lastSeen < r.eventSeq <= w.l.phase.cursor ==> r in w.l.broadcast
  }

  lemma SentCommit(w: World, t: TxnId)
    requires Inv(w) && SentSoFar(w) && t in w.open
    ensures SentSoFar(CommitTxn(w, t))
  {
    if w.l.phase.Replaying? {
      NewRowsAreAbove(w, t, w.l.phase.cursor);
      forall r | r in Visible(CommitTxn(w, t)) && r.eventSeq <= w.l.phase.cursor ensures r in Visible(w) {
      }
    }
  }

  lemma SentPage(w: World)
    requires Inv(w) && SentSoFar(w) && Enabled(w, Deliver)
    ensures SentSoFar(Apply(w, Deliver))
  {
    if w.reply.PageReply? {
      assert PageCovers(w, w.l.phase.cursor, w.reply.rows);
    }
  }

  /** Nothing but a commit or a delivery changes what a replay has to send or has sent. */
  lemma SentOther(w: World, s: Step)
    requires CursorInv(w) && SentSoFar(w) && Enabled(w, s) && !s.Commit? && !s.Deliver?
    ensures SentSoFar(Apply(w, s))
  {
    var w' := Apply(w, s);
    assert w'.log == w.log && w'.deleted == w.deleted && w'.l.broadcast == w.l.broadcast;
    hide Enabled, Apply;
  }

  lemma SentStep(w: World, s: Step)
    requires Inv(w) && SentSoFar(w) && Enabled(w, s)
    ensures SentSoFar(Apply(w, s))
  {
    hide SentSoFar, CursorInv;
    if s.Commit? {
      assert Apply(w, s) == CommitTxn(w, s.t);
      SentCommit(w, s.t);
    } else if s.Deliver? {
      SentPage(w);
    } else {
      SentOther(w, s);
    }
  }

  lemma {:induction false} SentRun(w0: World, steps: seq<Step>)
    requires Init(w0) && CanRun(w0, steps)
    ensures SentSoFar(RunOf(w0, steps)) && Inv(RunOf(w0, steps))
    decreases |steps|
  {
    InvInit(w0);
    if steps == [] {
    } else {
      var n := |steps| - 1;
      SentRun(w0, steps[..n]);
      InvStep(RunOf(w0, steps[..n]), steps[n]);
      SentStep(RunOf(w0, steps[..n]), steps[n]);
    }
  }

  // ---- A replay left alone reaches every surviving row ----

  lemma {:induction false} RunAppend(w: World, a: seq<Step>, b: seq<Step>)
    requires CanRun(w, a) && CanRun(RunOf(w, a), b)
    ensures CanRun(w, a + b) && RunOf(w, a + b) == RunOf(RunOf(w, a), b)
    decreases |b|
  {
    if b == [] {
      assert a + b == a;
    } else {
      var n := |b| - 1;
      RunAppend(w, a, b[..n]);
      assert (a + b)[..|a + b| - 1] == a + b[..n];
    }
  }

  lemma RunTwo(w: World, a: Step, b: Step)
    requires Enabled(w, a) && Enabled(Apply(w, a), b)
    ensures CanRun(w, [a, b]) && RunOf(w, [a, b]) == Apply(Apply(w, a), b)
  {
    hide Enabled, Apply;
    assert CanRun(w, []);
    RunSnoc(w, [], a);
    RunSnoc(w, [] + [a], b);
    assert [] + [a] + [b] == [a, b];
  }

  lemma RunThree(w: World, a: Step, b: Step, c: Step)
    requires Enabled(w, a) && Enabled(Apply(w, a), b) && Enabled(Apply(Apply(w, a), b), c)
    ensures CanRun(w, [a, b, c]) && RunOf(w, [a, b, c]) == Apply(Apply(Apply(w, a), b), c)
  {
    hide Enabled, Apply;
    RunTwo(w, a, b);
    RunSnoc(w, [a, b], c);
    assert [a, b] + [c] == [a, b, c];
  }

  lemma NextPage(w: World) returns (page: seq<Row>)
    requires Inv(w) && Idle(w) && w.l.phase.Replaying?
    ensures Enabled(w, FetchPage(page)) && LogInOrder(page) && |page| <= Listener.RESYNC_BATCH_SIZE
    ensures forall r :: r in page ==> r.eventSeq > w.l.phase.cursor
    ensures forall r :: r in Visible(w) && r.eventSeq > w.l.phase.cursor && r !in page ==>
              |page| == Listener.RESYNC_BATCH_SIZE && r.eventSeq > Listener.LastSeq(w.l.phase.cursor, page)
  {
    var table, from := Visible(w), Some(Key(w.l.phase.cursor, 0));
    Replay.SeqIsKey(w);
    var all := ListingExists(table, BySeq, from);
    page := all[..Min(Listener.RESYNC_BATCH_SIZE, |all|)];
    PageOfListing(table, BySeq, from, Listener.RESYNC_BATCH_SIZE, all);
    FetchKeepsReply(w, page);
    assert PageCovers(w, w.l.phase.cursor, page);
    forall r | r in table && r.eventSeq > w.l.phase.cursor && r !in page
      ensures |page| == Listener.RESYNC_BATCH_SIZE && r.eventSeq > Listener.LastSeq(w.l.phase.cursor, page)
    {
      assert Past(from, BySeq(r));
      assert page != [] ==> Below(BySeq(page[|page| - 1]), BySeq(r));
    }
  }

  lemma PageProcessed(w: World, page: seq<Row>)
    requires Idle(w) && w.l.phase.Replaying? && Enabled(w, FetchPage(page))
    ensures var w1 := Apply(w, FetchPage(page));
      && Enabled(w1, Deliver)
      && var w' := Apply(w1, Deliver);
         && w'.log == w.log && w'.deleted == w.deleted && w'.reply == NoReply && w'.l.broadcast == w.l.broadcast + page
         && w'.nextSeq == w.nextSeq && w'.listening == w.listening
         && w'.missed == w.missed && w'.failedLookups == w.failedLookups && w'.dropped == w.dropped
         && w'.replayErrors == w.replayErrors
         && (|page| == Listener.RESYNC_BATCH_SIZE ==>
               w'.l.phase.Replaying? && w'.l.phase.cursor == page[|page| - 1].eventSeq)
         && (|page| < Listener.RESYNC_BATCH_SIZE ==> w'.l.phase.Live?)
  {
  }

  /** One page fetched and processed with nothing in between. */
  lemma TakeNextPage(w: World) returns (page: seq<Row>, w': World)
    requires Inv(w) && Idle(w) && w.l.phase.Replaying?
    ensures CanRun(w, [FetchPage(page), Deliver]) && w' == RunOf(w, [FetchPage(page), Deliver]) && Inv(w')
    ensures Visible(w') == Visible(w) && Idle(w') && w'.l.broadcast == w.l.broadcast + page
    ensures forall r :: r in Visible(w) && r.eventSeq > w.l.phase.cursor && r !in page ==>
              w'.l.phase.Replaying? && w.l.phase.cursor < w'.l.phase.cursor < r.eventSeq
    ensures w'.log == w.log && w'.deleted == w.deleted && w'.nextSeq == w.nextSeq && w'.listening == w.listening
    ensures w'.missed == w.missed && w'.failedLookups == w.failedLookups && w'.dropped == w.dropped
    ensures w'.replayErrors == w.replayErrors
    ensures w'.l.phase.Live? || (w'.l.phase.Replaying? && w.l.phase.cursor < w'.l.phase.cursor)
  {
    hide Inv, Enabled, Apply, CanRun, RunOf;
    page := NextPage(w);
    PageProcessed(w, page);
    RunTwo(w, FetchPage(page), Deliver);
    InvStep(w, FetchPage(page));
    InvStep(Apply(w, FetchPage(page)), Deliver);
    w' := Apply(Apply(w, FetchPage(page)), Deliver);
    assert page != [] ==> page[|page| - 1] in page;
  }

  lemma {:induction false} ReplayReaches(w: World, r: Row) returns (steps: seq<Step>, sent: seq<Row>)
    requires Inv(w) && Idle(w) && w.l.phase.Replaying?
    requires r in Visible(w) && r.eventSeq > w.l.phase.cursor
    ensures CanRun(w, steps) && RunOf(w, steps).l.broadcast == w.l.broadcast + sent && r in sent
    decreases r.eventSeq - w.l.phase.cursor
  {
    hide Inv, IsPage, Enabled, Apply, CanRun, RunOf, Visible;
    var page, w' := TakeNextPage(w);
    steps, sent := [FetchPage(page), Deliver], page;
    if r !in page {
      var rest, more := ReplayReaches(w', r);
      RunAppend(w, steps, rest);
      steps, sent := steps + rest, page + more;
    }
  }

  // ---- So a torn replay can send a row twice ----

  function Reconnecting(): seq<Step> {
    [FetchFails, ReceiveFails, Connect]
  }

  lemma AfterTear(w: World)
    requires Enabled(w, FetchFails)
    ensures var w1 := Apply(w, FetchFails);
      && Enabled(w1, ReceiveFails)
      && var w2 := Apply(w1, ReceiveFails);
         && Enabled(w2, Connect)
         && var w' := Apply(w2, Connect);
            && w'.log == w.log && w'.deleted == w.deleted && w'.reply == NoReply && w'.l.broadcast == w.l.broadcast
            && w'.l.phase == Listener.Replaying(w.l.lastSeen, false)
  {
  }

  lemma ReconnectAfterTear(w: World)
    requires Inv(w) && Enabled(w, FetchFails)
    ensures CanRun(w, Reconnecting()) && Inv(RunOf(w, Reconnecting()))
    ensures var w' := RunOf(w, Reconnecting());
      && Visible(w') == Visible(w) && Idle(w') && w'.l.broadcast == w.l.broadcast
      && w'.l.phase == Listener.Replaying(w.l.lastSeen, false)
  {
    hide Inv, Enabled, Apply, CanRun, RunOf;
    AfterTear(w);
    RunThree(w, FetchFails, ReceiveFails, Connect);
    InvStep(w, FetchFails);
    InvStep(Apply(w, FetchFails), ReceiveFails);
    InvStep(Apply(Apply(w, FetchFails), ReceiveFails), Connect);
  }

  /** The other half: whenever a replay fails after it has sent a row that survives,
      some continuation sends that row again. */
  lemma TornReplayRepeats(w0: World, steps: seq<Step>, r: Row) returns (more: seq<Step>)
    requires Init(w0) && CanRun(w0, steps) && Enabled(RunOf(w0, steps), FetchFails)
    requires var w := RunOf(w0, steps);
      r in Visible(w) && w.l.lastSeen < r.eventSeq <= w.l.phase.cursor
    ensures more != [] && more[0] == FetchFails && CanRun(w0, steps + more)
    ensures multiset(RunOf(w0, steps + more).l.broadcast)[r] >= 2
  {
    hide Inv, Apply, CanRun, RunOf, Visible;
    SentRun(w0, steps);
    var w := RunOf(w0, steps);
    ReconnectAfterTear(w);
    var w' := RunOf(w, Reconnecting());
    var rest, sent := ReplayReaches(w', r);
    more := Reconnecting() + rest;
    RunAppend(w, Reconnecting(), rest);
    RunAppend(w0, steps, more);
    assert r in w.l.broadcast && r in sent;
  }

  // ---- A concrete run ----

  function OldRow(n: nat): Row
    requires n < 100
  {
    Row(n, "title", "url", "snippet", n, n + 1)
  }

  /** A hundred rows of history. */
  function History(): seq<Row> {
    seq(100, i requires 0 <= i < 100 => OldRow(i))
  }

  function Hearing(): World {
    Backfill.Migrated(History()).(
      listening := true, listenedAt := 100, heard := 100, l := Listener.START.(phase := Listener.Replaying(0, false)))
  }

  function Sent(): World {
    Hearing().(l := Hearing().l.(phase := Listener.Replaying(100, true), broadcast := History()))
  }

  lemma HistoryIsPage()
    ensures Init(Backfill.Migrated(History())) && Enabled(Hearing(), FetchPage(History()))
  {
    forall r | r in Visible(Hearing()) ensures r in History() {
    }
  }

  lemma HistoryIsSent()
    ensures var w0 := Backfill.Migrated(History()); Enabled(w0, Connect) && Apply(w0, Connect) == Hearing()
    ensures var w := Hearing().(reply := PageReply(History())); Enabled(w, Deliver) && Apply(w, Deliver) == Sent()
    ensures Enabled(Sent(), FetchFails) && OldRow(0) in Visible(Sent())
  {
    var w := Hearing().(reply := PageReply(History()));
    assert History()[99].eventSeq == 100 && History()[0] == OldRow(0);
    assert [] + History() == History();
    assert Sent().log[0] == OldRow(0);
  }

  /** A hundred rows, one full page sent, the next fetch fails, the connection is
      lost: after the reconnect the first row goes out a second time. */
  lemma TornReplayRepeatsRows() returns (w0: World, steps: seq<Step>, r: Row)
    ensures Init(w0) && CanRun(w0, steps) && multiset(RunOf(w0, steps).l.broadcast)[r] >= 2
  {
    hide Init, Enabled, Apply, CanRun, RunOf, Visible, History;
    w0, r := Backfill.Migrated(History()), OldRow(0);
    HistoryIsPage();
    HistoryIsSent();
    steps := [Connect, FetchPage(History()), Deliver];
    FetchIsReply(Hearing(), History());
    RunThree(w0, Connect, FetchPage(History()), Deliver);
    var more := TornReplayRepeats(w0, steps, r);
    steps := steps + more;
  }

  /** The same run up to the failed fetch: the listener is live, the rows went out,
      and no invalidation followed their commits. */
  lemma TornReplayKeepsCache() returns (w0: World, steps: seq<Step>)
    ensures Init(w0) && CanRun(w0, steps)
    ensures var w := RunOf(w0, steps);
      && w.l.phase.Live? && |w.log| == |w.commitBumps| == 100
      && forall i :: 0 <= i < 100 ==> w.log[i] in w.l.broadcast && w.commitBumps[i] == w.l.bumps
  {
    w0 := Backfill.Migrated(History());
    TornIsLive();
    hide Init, Enabled, Apply, CanRun, RunOf, Visible, History;
    HistoryIsPage();
    HistoryIsSent();
    FetchIsReply(Hearing(), History());
    RunThree(w0, Connect, FetchPage(History()), Deliver);
    RunSnoc(w0, [Connect, FetchPage(History()), Deliver], FetchFails);
    steps := [Connect, FetchPage(History()), Deliver] + [FetchFails];
  }

  lemma TornIsLive()
    ensures Enabled(Sent(), FetchFails)
    ensures var w := Apply(Sent(), FetchFails);
      && w.l.phase.Live? && |w.log| == |w.commitBumps| == 100
      && forall i :: 0 <= i < 100 ==> w.log[i] in w.l.broadcast && w.commitBumps[i] == w.l.bumps
  {
  }

  lemma FetchIsReply(w: World, rows: seq<Row>)
    requires Enabled(w, FetchPage(rows))
    ensures Apply(w, FetchPage(rows)) == w.(reply := PageReply(rows))
  {
  }
}
