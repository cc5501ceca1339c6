/** What the listener has delivered, in every run of the event log. */
module Delivery {
  import opened Prelude
  import opened Paging
  import opened Rows
  import opened EventLog
  import Listener

  // ---- Where the listener stands ----

  /** `n` is not ahead of the committed log. */
  predicate Reached(w: World, n: int) {
    n == 0 || (w.log != [] && n <= w.log[|w.log| - 1].eventSeq)
  }

  ghost predicate CursorInv(w: World) {
    && Reached(w, w.l.lastSeen)
    && (forall r :: r in w.l.broadcast ==> r in w.log)
    && (w.l.phase.Replaying? ==>
          && Reached(w, w.l.phase.cursor)
          && w.l.lastSeen <= w.l.phase.cursor
          && (!w.l.phase.replayedAny ==> w.l.phase.cursor == w.l.lastSeen))
  }

  ghost predicate QueueInv(w: World) {
    && w.listenedAt <= w.heard <= |w.log|
    && (w.listening ==> w.heard == |w.log|)
    && (forall k :: 0 <= k < |w.queue| && w.queue[k].Note? ==> w.listenedAt <= w.queue[k].at < w.heard)
    && (forall k, m :: 0 <= k < m < |w.queue| && w.queue[k].Note? && w.queue[m].Note? ==>
          w.queue[k].at < w.queue[m].at)
    && (w.l.phase.Replaying? ==> forall i :: w.listenedAt <= i < w.heard ==> Note(i) in w.queue)
    && (w.l.phase.Connecting? || w.l.phase.Stopped? ==> !w.listening && w.queue == [] && w.reply == NoReply)
  }

  /** What a reply still in flight is known to be worth when it is processed. */
  ghost predicate ReplyInv(w: World) {
    match w.reply
    case NoReply => true
    case PageReply(rows) => w.l.phase.Replaying? && PageCovers(w, w.l.phase.cursor, rows)
    case LookupReply(at, lookup) => w.l.phase.Live? && LookupAnswers(w, at, lookup)
  }

  ghost predicate PageCovers(w: World, cursor: int, rows: seq<Row>) {
    && LogInOrder(rows)
    && (forall r :: r in rows ==> r in w.log && r.eventSeq > cursor)
    && (forall r :: r in w.log && r.eventSeq !in w.deleted && cursor < r.eventSeq <= Listener.LastSeq(cursor, rows) ==>
          r in rows)
    && (|rows| < Listener.RESYNC_BATCH_SIZE ==>
          forall i :: 0 <= i < w.listenedAt && i < |w.log| && w.log[i].eventSeq > cursor ==>
            w.log[i].eventSeq in w.deleted || w.log[i] in rows)
  }

  ghost predicate LookupAnswers(w: World, at: nat, lookup: Listener.Lookup) {
    && at < w.heard && at < |w.log|
    && (forall k :: 0 <= k < |w.queue| && w.queue[k].Note? ==> at < w.queue[k].at)
    && match lookup
       case Found(row) =>
         && row in w.log && row.eventSeq >= w.log[at].eventSeq
         && (row != w.log[at] ==> w.log[at].eventSeq in w.deleted && SharesId(w.log, w.log[at], row))
       case Gone => w.log[at].eventSeq in w.deleted
       case _ => false
  }

  ghost predicate SharesId(log: seq<Row>, a: Row, b: Row) {
    a in log && b in log && a.eventSeq < b.eventSeq && a.id == b.id
  }

  // ---- The accounts ----

  /** Broadcast, deleted, or charged to one of four accounts. */
  ghost predicate Settled(w: World, r: Row) {
    || r in w.l.broadcast
    || r.eventSeq in w.deleted
    || r.eventSeq in w.missed
    || r.eventSeq in w.failedLookups
    || r.eventSeq in w.overtaken
    || r.eventSeq in w.dropped
  }

  ghost predicate AccountInv(w: World) {
    && (forall i :: 0 <= i < |w.log| && w.log[i].eventSeq <= w.l.lastSeen ==> Settled(w, w.log[i]))
    && (w.l.phase.Replaying? ==>
          forall i :: 0 <= i < |w.log| && w.log[i].eventSeq <= w.l.phase.cursor ==> Settled(w, w.log[i]))
    && (w.l.phase.Live? ==>
          forall i :: 0 <= i < |w.log| ==> Settled(w, w.log[i]) || Ahead(w, i))
  }

  /** Still to come on this connection: queued, in hand, or committed after it died. */
  ghost predicate Ahead(w: World, i: nat) {
    Note(i) in w.queue || i >= w.heard || (w.reply.LookupReply? && w.reply.at == i)
  }

  ghost predicate Inv(w: World) {
    OrderInv(w) && IdInv(w) && CursorInv(w) && QueueInv(w) && ReplyInv(w) && AccountInv(w)
  }

  lemma InvInit(w: World)
    requires Init(w)
    ensures Inv(w)
  {
    OrderInit(w);
  }

  // ---- Preservation ----

  /** Everything these invariants speak of, except the writers' own business. */
  predicate SameView(w: World, w': World) {
    && w'.log == w.log && w'.deleted == w.deleted
    && w'.listening == w.listening && w'.queue == w.queue && w'.listenedAt == w.listenedAt && w'.heard == w.heard
    && w'.reply == w.reply && w'.l == w.l
    && w'.missed == w.missed && w'.failedLookups == w.failedLookups && w'.overtaken == w.overtaken
    && w'.dropped == w.dropped
  }

  ghost predicate ViewInv(w: World) {
    CursorInv(w) && QueueInv(w) && ReplyInv(w) && AccountInv(w)
  }

  lemma ViewUnchanged(w: World, w': World)
    requires ViewInv(w) && SameView(w, w')
    ensures ViewInv(w')
  {
    forall i | 0 <= i < |w'.log| ensures Settled(w', w'.log[i]) <==> Settled(w, w.log[i]) {}
    forall i: nat ensures Ahead(w', i) <==> Ahead(w, i) {}
  }

  lemma NotesGrow(w: World, n: nat)
    requires QueueInv(w) && w.listening
    ensures forall i :: |w.log| <= i < |w.log| + n ==> Note(i) in w.queue + Notes(|w.log|, n)
    ensures forall k :: 0 <= k < |w.queue + Notes(|w.log|, n)| && (w.queue + Notes(|w.log|, n))[k].Note? ==>
              w.listenedAt <= (w.queue + Notes(|w.log|, n))[k].at < |w.log| + n
  {
    forall i | |w.log| <= i < |w.log| + n ensures Note(i) in w.queue + Notes(|w.log|, n) {
      assert (w.queue + Notes(|w.log|, n))[|w.queue| + (i - |w.log|)] == Note(i);
    }
  }

  lemma CommitKeepsQueue(w: World, t: TxnId)
    requires QueueInv(w) && t in w.open
    ensures QueueInv(CommitTxn(w, t))
  {
    if w.listening {
      NotesGrow(w, |w.open[t].rows|);
    }
  }

  lemma CommitKeepsCursor(w: World, t: TxnId)
    requires OrderInv(w) && CursorInv(w) && t in w.open
    ensures CursorInv(CommitTxn(w, t))
  {
    var w' := CommitTxn(w, t);
    OrderCommit(w, t);
    if w.open[t].rows != [] && w.log != [] {
      assert w'.log[|w.log| - 1] == w.log[|w.log| - 1];
      assert w'.log[|w.log| - 1].eventSeq < w'.log[|w'.log| - 1].eventSeq;
    } else if w.log == [] && w'.log != [] {
      assert w'.log[|w'.log| - 1].eventSeq >= 1;
    }
  }

  /** A row committed now is past every row of the log before it. */
  lemma NewRowsAreAbove(w: World, t: TxnId, n: int)
    requires OrderInv(w) && t in w.open && Reached(w, n)
    ensures forall r :: r in w.open[t].rows ==> r.eventSeq > n
  {
    assert OpenRowsInOrder(w, w.open[t].rows);
    forall r | r in w.open[t].rows ensures r.eventSeq > n {
      var k :| 0 <= k < |w.open[t].rows| && w.open[t].rows[k] == r;
      if w.log != [] {
        assert w.log[|w.log| - 1].eventSeq < w.open[t].rows[k].eventSeq;
      }
    }
  }

  lemma InLogIsReached(w: World, r: Row)
    requires OrderInv(w) && r in w.log
    ensures Reached(w, r.eventSeq)
  {
    var i :| 0 <= i < |w.log| && w.log[i] == r;
    if i < |w.log| - 1 {
      assert w.log[i].eventSeq < w.log[|w.log| - 1].eventSeq;
    }
  }

  lemma LastOfPage(cursor: int, rows: seq<Row>)
    requires LogInOrder(rows)
    ensures rows != [] ==> rows[|rows| - 1] in rows && Listener.LastSeq(cursor, rows) == rows[|rows| - 1].eventSeq
    ensures forall r :: r in rows ==> r.eventSeq <= Listener.LastSeq(cursor, rows)
  {
    forall r | r in rows ensures r.eventSeq <= Listener.LastSeq(cursor, rows) {
      var i :| 0 <= i < |rows| && rows[i] == r;
      if i < |rows| - 1 {
        assert rows[i].eventSeq < rows[|rows| - 1].eventSeq;
      }
    }
  }

  lemma CommitKeepsPage(w: World, t: TxnId, cursor: int, rows: seq<Row>)
    requires Inv(w) && t in w.open && PageCovers(w, cursor, rows) && Reached(w, cursor)
    ensures PageCovers(CommitTxn(w, t), cursor, rows)
  {
    LastOfPage(cursor, rows);
    if rows != [] {
      InLogIsReached(w, rows[|rows| - 1]);
    }
    NewRowsAreAbove(w, t, Listener.LastSeq(cursor, rows));
  }

  lemma CommitKeepsLookup(w: World, t: TxnId, at: nat, lookup: Listener.Lookup)
    requires Inv(w) && t in w.open && LookupAnswers(w, at, lookup)
    ensures LookupAnswers(CommitTxn(w, t), at, lookup)
  {
    assert CommitTxn(w, t).log[at] == w.log[at];
  }

  lemma CommitKeepsReply(w: World, t: TxnId)
    requires Inv(w) && t in w.open
    ensures ReplyInv(CommitTxn(w, t))
  {
    match w.reply
    case NoReply =>
    case PageReply(rows) => CommitKeepsPage(w, t, w.l.phase.cursor, rows);
    case LookupReply(at, lookup) => CommitKeepsLookup(w, t, at, lookup);
  }

  lemma CommitKeepsEntry(w: World, t: TxnId, i: nat)
    requires Inv(w) && t in w.open && i < |w.log|
    ensures var w' := CommitTxn(w, t);
      && w'.log[i] == w.log[i]
      && (Settled(w, w.log[i]) ==> Settled(w', w.log[i]))
      && (Ahead(w, i) ==> Ahead(w', i))
  {
  }

  lemma CommitAddsEntry(w: World, t: TxnId, i: nat)
    requires Inv(w) && t in w.open && |w.log| <= i < |CommitTxn(w, t).log|
    ensures CommitTxn(w, t).log[i] in w.open[t].rows && Ahead(CommitTxn(w, t), i)
  {
    assert CommitTxn(w, t).log[i] == w.open[t].rows[i - |w.log|];
    if w.listening {
      NotesGrow(w, |w.open[t].rows|);
    }
  }

  lemma CommitKeepsAccount(w: World, t: TxnId)
    requires Inv(w) && t in w.open
    ensures AccountInv(CommitTxn(w, t))
  {
    NewRowsAreAbove(w, t, w.l.lastSeen);
    if w.l.phase.Replaying? {
      NewRowsAreAbove(w, t, w.l.phase.cursor);
    }
    forall i | 0 <= i < |CommitTxn(w, t).log|
      ensures i < |w.log| ==> CommitTxn(w, t).log[i] == w.log[i]
      ensures i < |w.log| && Settled(w, w.log[i]) ==> Settled(CommitTxn(w, t), w.log[i])
      ensures i < |w.log| && Ahead(w, i) ==> Ahead(CommitTxn(w, t), i)
      ensures i >= |w.log| ==> CommitTxn(w, t).log[i] in w.open[t].rows && Ahead(CommitTxn(w, t), i)
    {
      if i < |w.log| {
        CommitKeepsEntry(w, t, i);
      } else {
        CommitAddsEntry(w, t, i);
      }
    }
  }

  lemma FetchKeepsReply(w: World, rows: seq<Row>)
    requires Inv(w) && Enabled(w, FetchPage(rows))
    ensures ReplyInv(Apply(w, FetchPage(rows)))
  {
    var cursor := w.l.phase.cursor;
    var from := Some(Key(cursor, 0));
    assert LogInOrder(rows) by {
      forall i, j | 0 <= i < j < |rows| ensures rows[i].eventSeq < rows[j].eventSeq {
        assert Below(BySeq(rows[i]), BySeq(rows[j]));
      }
    }
    LastOfPage(cursor, rows);
    forall r | r in rows ensures r in w.log && r.eventSeq > cursor {
      assert r in Visible(w) && Past(from, BySeq(r));
    }
    forall r | r in w.log && r.eventSeq !in w.deleted && r.eventSeq > cursor && r !in rows
      ensures |rows| == Listener.RESYNC_BATCH_SIZE && r.eventSeq > Listener.LastSeq(cursor, rows)
    {
      assert r in Visible(w) && Past(from, BySeq(r));
      assert rows != [] ==> Below(BySeq(rows[|rows| - 1]), BySeq(r));
    }
    assert PageCovers(Apply(w, FetchPage(rows)), cursor, rows);
  }

  lemma TakeNoteKeepsReply(w: World, lookup: Listener.Lookup)
    requires Inv(w) && Enabled(w, TakeNote(lookup))
    ensures ReplyInv(Apply(w, TakeNote(lookup)))
  {
    var at := w.queue[0].at;
    var w' := Apply(w, TakeNote(lookup));
    forall k | 0 <= k < |w'.queue| && w'.queue[k].Note? ensures at < w'.queue[k].at {
      assert w'.queue[k] == w.queue[k + 1];
    }
    var named := w.log[at];
    assert named in Visible(w) <==> named.eventSeq !in w.deleted;
    if lookup.Gone? {
    } else if lookup.row != named {
      var j :| 0 <= j < |w.log| && w.log[j] == lookup.row;
      assert j != at;
      assert j > at && named.eventSeq in w.deleted;
      assert SharesId(w.log, named, lookup.row);
    }
    assert LookupAnswers(w', at, lookup);
  }

  lemma TailKeepsNotes(queue: seq<Note>)
    requires queue != []
    ensures forall n :: n in queue && n != queue[0] ==> n in queue[1..]
    ensures forall k :: 0 <= k < |queue| - 1 ==> queue[1..][k] == queue[k + 1]
  {
    assert queue == [queue[0]] + queue[1..];
  }

  predicate IsTaking(s: Step) { s.TakeNote? || s.LookupFails? || s.TakeMalformed? }

  lemma TakingKeepsQueue(w: World, s: Step)
    requires Inv(w) && Enabled(w, s) && IsTaking(s)
    ensures QueueInv(Apply(w, s)) && CursorInv(Apply(w, s))
  {
    TailKeepsNotes(w.queue);
  }

  lemma TakingKeepsEntry(w: World, s: Step, i: nat)
    requires Inv(w) && Enabled(w, s) && IsTaking(s) && i < |w.log|
    ensures Settled(w, w.log[i]) ==> Settled(Apply(w, s), w.log[i])
    ensures Ahead(w, i) ==> Ahead(Apply(w, s), i) || Settled(Apply(w, s), w.log[i])
  {
    TailKeepsNotes(w.queue);
  }

  lemma TakingMovesNothing(w: World, s: Step)
    requires Inv(w) && Enabled(w, s) && IsTaking(s)
    ensures Apply(w, s).log == w.log && Apply(w, s).l.phase.Live? && Apply(w, s).l.lastSeen == w.l.lastSeen
  {
  }

  lemma AccountFromEntries(w: World, w': World)
    requires AccountInv(w) && w.l.phase.Live? && w'.l.phase.Live?
    requires w'.log == w.log && w'.l.lastSeen == w.l.lastSeen
    requires forall i :: 0 <= i < |w.log| ==> (Settled(w, w.log[i]) ==> Settled(w', w.log[i]))
    requires forall i :: 0 <= i < |w.log| ==> (Ahead(w, i) ==> Ahead(w', i) || Settled(w', w.log[i]))
    ensures AccountInv(w')
  {
  }

  lemma TakingKeepsAccount(w: World, s: Step)
    requires Inv(w) && Enabled(w, s) && IsTaking(s)
    ensures AccountInv(Apply(w, s))
  {
    var w' := Apply(w, s);
    TakingMovesNothing(w, s);
    forall i | 0 <= i < |w.log|
      ensures Settled(w, w.log[i]) ==> Settled(w', w.log[i])
      ensures Ahead(w, i) ==> Ahead(w', i) || Settled(w', w.log[i])
    {
      TakingKeepsEntry(w, s, i);
    }
    AccountFromEntries(w, w');
  }

  lemma PageIsReached(w: World)
    requires Inv(w) && w.reply.PageReply?
    ensures Reached(w, Listener.LastSeq(w.l.phase.cursor, w.reply.rows))
    ensures w.l.phase.cursor <= Listener.LastSeq(w.l.phase.cursor, w.reply.rows)
    ensures forall r :: r in w.reply.rows ==> r in w.log
  {
    var rows := w.reply.rows;
    LastOfPage(w.l.phase.cursor, rows);
    if rows != [] {
      InLogIsReached(w, rows[|rows| - 1]);
    }
  }

  lemma PageMovesCursor(w: World)
    requires Inv(w) && Enabled(w, Deliver) && w.reply.PageReply?
    ensures CursorInv(Apply(w, Deliver)) && QueueInv(Apply(w, Deliver))
  {
    PageIsReached(w);
  }

  lemma PageSettles(w: World, i: nat)
    requires Inv(w) && Enabled(w, Deliver) && w.reply.PageReply? && i < |w.log|
    ensures var w' := Apply(w, Deliver);
      && (w.log[i].eventSeq <= Listener.LastSeq(w.l.phase.cursor, w.reply.rows) ==> Settled(w', w'.log[i]))
      && (w'.l.phase.Live? ==> Settled(w', w'.log[i]) || Ahead(w', i))
  {
    var w', rows := Apply(w, Deliver), w.reply.rows;
    LastOfPage(w.l.phase.cursor, rows);
    assert PageCovers(w, w.l.phase.cursor, rows);
    assert w.log[i] in w.log;
    assert w.log[i] in rows ==> w.log[i] in w'.l.broadcast;
    assert Settled(w, w.log[i]) ==> Settled(w', w'.log[i]);
  }

  /** Replay found the next rows, or all that were left. */
  lemma DeliverPage(w: World)
    requires Inv(w) && Enabled(w, Deliver) && w.reply.PageReply?
    ensures CursorInv(Apply(w, Deliver)) && QueueInv(Apply(w, Deliver)) && AccountInv(Apply(w, Deliver))
  {
    PageMovesCursor(w);
    forall i | 0 <= i < |w.log|
      ensures var w' := Apply(w, Deliver);
        && (w.log[i].eventSeq <= Listener.LastSeq(w.l.phase.cursor, w.reply.rows) ==> Settled(w', w'.log[i]))
        && (w'.l.phase.Live? ==> Settled(w', w'.log[i]) || Ahead(w', i))
    {
      PageSettles(w, i);
    }
  }

  lemma LookupMovesCursor(w: World)
    requires Inv(w) && Enabled(w, Deliver) && w.reply.LookupReply?
    ensures CursorInv(Apply(w, Deliver)) && QueueInv(Apply(w, Deliver))
  {
    hide AccountInv, OrderInv, IdInv, SharesId, PassedOver;
    if Listener.Forwards(w.l.lastSeen, w.reply.lookup) {
      InLogIsReached(w, w.reply.lookup.row);
    }
  }

  /** A live notification moves the position past rows that are all settled,
      unless it found a younger row under its id. */
  lemma DeliverLookup(w: World)
    requires Inv(w) && Enabled(w, Deliver) && w.reply.LookupReply?
    ensures CursorInv(Apply(w, Deliver)) && QueueInv(Apply(w, Deliver)) && AccountInv(Apply(w, Deliver))
  {
    hide Settled, Ahead;
    var w' := Apply(w, Deliver);
    LookupMovesCursor(w);
    forall i | 0 <= i < |w.log|
      ensures Settled(w', w'.log[i]) || (Ahead(w', i) && w'.log[i].eventSeq > w'.l.lastSeen)
    {
      LookupSettles(w, i);
    }
  }

  lemma LookupSettles(w: World, i: nat)
    requires Inv(w) && Enabled(w, Deliver) && w.reply.LookupReply? && i < |w.log|
    ensures var w' := Apply(w, Deliver);
      Settled(w', w'.log[i]) || (Ahead(w', i) && w'.log[i].eventSeq > w'.l.lastSeen)
  {
    var w', at, lookup := Apply(w, Deliver), w.reply.at, w.reply.lookup;
    assert Settled(w, w.log[i]) ==> Settled(w', w'.log[i]);
    assert i < at ==> w.log[i].eventSeq < w.log[at].eventSeq;
    assert i > at ==> w.log[at].eventSeq < w.log[i].eventSeq;
    if !Settled(w, w.log[i]) {
      assert Ahead(w, i) && w.log[i].eventSeq > w.l.lastSeen;
      if Listener.Forwards(w.l.lastSeen, lookup) {
        assert lookup.row in w'.l.broadcast;
        SeqIdentifiesRow(w, w.log[i], lookup.row);
        if lookup.row != w.log[at] && w.log[i].eventSeq < lookup.row.eventSeq {
          assert w.log[i].eventSeq in PassedOver(w, at, lookup);
        }
      }
    }
  }

  lemma ConnectStep(w: World)
    requires Inv(w) && Enabled(w, Connect)
    ensures ViewInv(Apply(w, Connect))
  {
    var w' := Apply(w, Connect);
    forall i | 0 <= i < |w.log| ensures Settled(w', w'.log[i]) <==> Settled(w, w.log[i]) {}
  }

  lemma DisconnectStep(w: World, l: Listener.State)
    requires Inv(w) && w.reply == NoReply
    requires l.phase.Connecting? || l.phase.Stopped?
    requires l.lastSeen == w.l.lastSeen && l.broadcast == w.l.broadcast
    ensures ViewInv(Disconnect(w, l))
  {
    var w' := Disconnect(w, l);
    forall i | 0 <= i < |w.log| ensures Settled(w', w'.log[i]) <==> Settled(w, w.log[i]) {}
  }

  lemma ForeignStep(w: World)
    requires Inv(w) && Enabled(w, ForeignNotify)
    ensures ViewInv(Apply(w, ForeignNotify))
  {
    var w' := Apply(w, ForeignNotify);
    forall i | 0 <= i < |w.log|
      ensures Settled(w', w'.log[i]) <==> Settled(w, w.log[i])
      ensures Ahead(w, i) ==> Ahead(w', i)
    {
    }
  }

  lemma SilentSettles(w: World, i: nat)
    requires AccountInv(w) && Enabled(w, SilentReconnect) && i < |w.log|
    ensures Settled(Apply(w, SilentReconnect), w.log[i])
  {
    if Note(i) in w.queue {
      assert Notified(w, w.log[i]);
    } else if i >= w.heard {
      assert w.log[w.heard..][i - w.heard] == w.log[i];
    }
  }

  /** What was queued on the old connection, or sent after it died, is charged to `dropped`. */
  lemma SilentStep(w: World)
    requires Inv(w) && Enabled(w, SilentReconnect)
    ensures ViewInv(Apply(w, SilentReconnect))
  {
    hide OrderInv, IdInv, Settled, Unreceived;
    forall i | 0 <= i < |w.log| ensures Settled(Apply(w, SilentReconnect), w.log[i]) {
      SilentSettles(w, i);
    }
  }

  lemma DyingStep(w: World)
    requires Inv(w) && Enabled(w, ConnectionDies)
    ensures ViewInv(Apply(w, ConnectionDies))
  {
    var w' := Apply(w, ConnectionDies);
    forall i | 0 <= i < |w.log|
      ensures Settled(w', w'.log[i]) <==> Settled(w, w.log[i])
      ensures Ahead(w, i) <==> Ahead(w', i)
    {
    }
  }

  lemma ReplayFails(w: World)
    requires Inv(w) && Enabled(w, FetchFails)
    ensures ViewInv(Apply(w, FetchFails))
  {
    var w', cursor := Apply(w, FetchFails), w.l.phase.cursor;
    forall i | 0 <= i < |w.log|
      ensures Settled(w, w.log[i]) ==> Settled(w', w'.log[i])
      ensures Settled(w', w'.log[i]) || Ahead(w', i)
    {
      if i < w.listenedAt && w.log[i].eventSeq > cursor {
        assert w.log[..Min(w.listenedAt, |w.log|)][i] == w.log[i];
        assert w.log[i].eventSeq in Unreached(w, cursor);
      }
    }
  }

  lemma WriteKeepsView(w: World, s: Step)
    requires Inv(w) && Enabled(w, s) && IsWrite(s)
    ensures ViewInv(Apply(w, s))
  {
    if s.Commit? {
      CommitKeepsCursor(w, s.t);
      CommitKeepsQueue(w, s.t);
      CommitKeepsReply(w, s.t);
      CommitKeepsAccount(w, s.t);
    } else {
      OtherWritesAreUnseen(w, s);
      ViewUnchanged(w, Apply(w, s));
    }
  }

  lemma OtherWritesAreUnseen(w: World, s: Step)
    requires Enabled(w, s) && IsWrite(s) && !s.Commit?
    ensures SameView(w, Apply(w, s))
  {
  }

  lemma TakingKeepsView(w: World, s: Step)
    requires Inv(w) && Enabled(w, s) && IsTaking(s)
    ensures ViewInv(Apply(w, s))
  {
    TakingKeepsQueue(w, s);
    TakingKeepsAccount(w, s);
    if s.TakeNote? {
      TakeNoteKeepsReply(w, s.lookup);
    }
  }

  lemma ReadKeepsView(w: World, s: Step)
    requires Inv(w) && Enabled(w, s) && !IsWrite(s)
    ensures ViewInv(Apply(w, s))
  {
    match s
    case FetchPage(rows) => FetchKeepsReply(w, rows); FetchKeepsRest(w, rows);
    case FetchFails => ReplayFails(w);
    case TakeNote(_) => TakingKeepsView(w, s);
    case LookupFails => TakingKeepsView(w, s);
    case TakeMalformed => TakingKeepsView(w, s);
    case Deliver => if w.reply.PageReply? { DeliverPage(w); } else { DeliverLookup(w); }
    case Connect => ConnectStep(w);
    case ConnectFails => DisconnectStep(w, Apply(w, s).l);
    case ReceiveFails => DisconnectStep(w, Apply(w, s).l);
    case ShutDown => DisconnectStep(w, Apply(w, s).l);
    case ForeignNotify => ForeignStep(w);
    case ConnectionDies => DyingStep(w);
    case SilentReconnect => SilentStep(w);
  }

  lemma InvStep(w: World, s: Step)
    requires Inv(w) && Enabled(w, s)
    ensures Inv(Apply(w, s))
  {
    OrderStep(w, s);
    IdStep(w, s);
    if IsWrite(s) {
      WriteKeepsView(w, s);
    } else {
      ReadKeepsView(w, s);
    }
  }

  lemma FetchKeepsRest(w: World, rows: seq<Row>)
    requires Inv(w) && Enabled(w, FetchPage(rows))
    ensures var w' := Apply(w, FetchPage(rows)); CursorInv(w') && QueueInv(w') && AccountInv(w')
  {
    var w' := Apply(w, FetchPage(rows));
    forall i | 0 <= i < |w'.log| ensures Settled(w', w'.log[i]) <==> Settled(w, w.log[i]) {}
  }

  lemma {:induction false} InvRun(w: World, steps: seq<Step>)
    requires Inv(w) && CanRun(w, steps)
    ensures Inv(RunOf(w, steps))
    decreases |steps|
  {
    if steps == [] {
    } else {
      var n := |steps| - 1;
      InvRun(w, steps[..n]);
      InvStep(RunOf(w, steps[..n]), steps[n]);
    }
  }
}
