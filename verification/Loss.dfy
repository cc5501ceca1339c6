/** Which rows are lost, exactly, in every run whatsoever: torn replays, failed
    lookups, silent reconnects and reused ids included. */
module Loss {
  import opened Rows
  import opened EventLog
  import opened Delivery
  import opened Guarantees
  import opened Redelivery
  import Listener

  /** The position is past the row and it was not broadcast. */
  ghost predicate Lost(w: World, r: Row) {
    r in w.log && r.eventSeq <= w.l.lastSeen && r !in w.l.broadcast
  }

  /** The step delivers a notification that moves the position over `r`, a committed
      row the listener has not broadcast. */
  ghost predicate Skips(w: World, s: Step, r: Row) {
    && s.Deliver? && w.reply.LookupReply? && Listener.Forwards(w.l.lastSeen, w.reply.lookup)
    && r in w.log && r !in w.l.broadcast && w.l.lastSeen < r.eventSeq < w.reply.lookup.row.eventSeq
  }

  ghost predicate SkippedAt(w0: World, steps: seq<Step>, k: nat, r: Row) {
    && k < |steps| && CanRun(w0, steps[..k]) && Enabled(RunOf(w0, steps[..k]), steps[k])
    && Skips(RunOf(w0, steps[..k]), steps[k], r)
  }

  // ---- One step ----

  lemma CommitLosesNothing(w: World, t: TxnId, r: Row)
    requires Inv(w) && t in w.open
    ensures Lost(CommitTxn(w, t), r) <==> Lost(w, r)
  {
    NewRowsAreAbove(w, t, w.l.lastSeen);
  }

  /** Replay moves the position only over rows it has sent. */
  lemma PageLosesNothing(w: World, r: Row)
    requires Inv(w) && SentSoFar(w) && Enabled(w, Deliver) && w.reply.PageReply? && r.eventSeq !in w.deleted
    ensures Lost(Apply(w, Deliver), r) <==> Lost(w, r)
  {
    assert PageCovers(w, w.l.phase.cursor, w.reply.rows);
    LastOfPage(w.l.phase.cursor, w.reply.rows);
    assert r in w.log && w.l.lastSeen < r.eventSeq <= w.l.phase.cursor ==> r in Visible(w);
  }

  lemma LookupLosesSkipped(w: World, r: Row)
    requires Inv(w) && Enabled(w, Deliver) && w.reply.LookupReply?
    ensures Lost(Apply(w, Deliver), r) <==> Lost(w, r) || Skips(w, Deliver, r)
  {
    var lookup := w.reply.lookup;
    if Listener.Forwards(w.l.lastSeen, lookup) && r in w.log {
      assert lookup.row in w.log;
      SeqIdentifiesRow(w, r, lookup.row);
    }
  }

  lemma OtherLosesNothing(w: World, s: Step, r: Row)
    requires Enabled(w, s) && !s.Commit? && !s.Deliver?
    ensures Lost(Apply(w, s), r) <==> Lost(w, r)
  {
  }

  lemma LossStep(w: World, s: Step, r: Row)
    requires Inv(w) && SentSoFar(w) && Enabled(w, s) && r.eventSeq !in w.deleted
    ensures Lost(Apply(w, s), r) <==> Lost(w, r) || Skips(w, s, r)
  {
    hide Lost, Inv, SentSoFar;
    if s.Commit? {
      assert Apply(w, s) == CommitTxn(w, s.t);
      CommitLosesNothing(w, s.t, r);
    } else if !s.Deliver? {
      OtherLosesNothing(w, s, r);
    } else if w.reply.PageReply? {
      PageLosesNothing(w, r);
    } else {
      LookupLosesSkipped(w, r);
    }
  }

  // ---- Every run ----

  lemma SkippedEarlier(w0: World, steps: seq<Step>, k: nat, r: Row)
    requires CanRun(w0, steps) && k < |steps|
    ensures var m := |steps| - 1;
      && (k < m ==> (SkippedAt(w0, steps, k, r) <==> SkippedAt(w0, steps[..m], k, r)))
      && (k == m ==> (SkippedAt(w0, steps, k, r) <==> Skips(RunOf(w0, steps[..m]), steps[m], r)))
  {
    hide Skips;
    assert steps[..|steps| - 1][..k] == steps[..k];
  }

  lemma {:induction false} LossHistory(w0: World, steps: seq<Step>, r: Row)
    requires Init(w0) && CanRun(w0, steps) && r.eventSeq !in RunOf(w0, steps).deleted
    ensures Lost(RunOf(w0, steps), r) <==> exists k: nat :: SkippedAt(w0, steps, k, r)
    decreases |steps|
  {
    if steps == [] {
      assert r in w0.log ==> r.eventSeq > w0.l.lastSeen;
    } else {
      var m := |steps| - 1;
      SentRun(w0, steps[..m]);
      OrderBefore(w0, steps[..m], steps[m]);
      LossHistory(w0, steps[..m], r);
      LossStep(RunOf(w0, steps[..m]), steps[m], r);
      hide Lost, Skips, Inv, SentSoFar, Init;
      SkippedEarlier(w0, steps, m, r);
      if exists k: nat :: SkippedAt(w0, steps, k, r) {
        var k: nat :| SkippedAt(w0, steps, k, r);
        SkippedEarlier(w0, steps, k, r);
      }
      if exists k: nat :: SkippedAt(w0, steps[..m], k, r) {
        var k: nat :| SkippedAt(w0, steps[..m], k, r);
        SkippedEarlier(w0, steps, k, r);
      }
    }
  }

  lemma OrderBefore(w0: World, steps: seq<Step>, s: Step)
    requires Init(w0) && CanRun(w0, steps) && Enabled(RunOf(w0, steps), s)
    ensures RunOf(w0, steps).deleted <= Apply(RunOf(w0, steps), s).deleted
  {
    OrderInit(w0);
    OrderRun(w0, steps);
    LogOnlyGrows(RunOf(w0, steps), s);
  }

  /** In every run, whatever failed in it: a surviving row that the position has passed
      was never broadcast exactly when, at some step, a notification moved the position
      over it. */
  lemma LostExactlyWhenSkipped(w0: World, steps: seq<Step>, r: Row)
    requires Init(w0) && CanRun(w0, steps)
    requires r in Visible(RunOf(w0, steps)) && r.eventSeq <= RunOf(w0, steps).l.lastSeen
    ensures r !in RunOf(w0, steps).l.broadcast <==> exists k: nat :: SkippedAt(w0, steps, k, r)
  {
    LossHistory(w0, steps, r);
  }

  lemma LostStays(w: World, s: Step, r: Row)
    requires Inv(w) && Enabled(w, s) && Lost(w, r)
    ensures Lost(Apply(w, s), r)
  {
    if s.Commit? {
      CommitLosesNothing(w, s.t, r);
    } else if !s.Deliver? {
      OtherLosesNothing(w, s, r);
    } else if w.reply.LookupReply? {
      LookupLosesSkipped(w, r);
    } else {
      LastOfPage(w.l.phase.cursor, w.reply.rows);
    }
  }

  /** And then it is lost for good: no continuation broadcasts it. */
  lemma {:induction false} LostForever(w: World, steps: seq<Step>, r: Row)
    requires Inv(w) && CanRun(w, steps) && Lost(w, r)
    ensures Lost(RunOf(w, steps), r)
    decreases |steps|
  {
    if steps == [] {
    } else {
      var n := |steps| - 1;
      LostForever(w, steps[..n], r);
      InvRun(w, steps[..n]);
      LostStays(RunOf(w, steps[..n]), steps[n], r);
    }
  }
}
