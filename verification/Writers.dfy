/** What writers can rely on: numbers are drawn once, a lock is held only by an open
    transaction, and a transaction shows all of its rows at commit or none ever. */
module Writers {
  import opened Prelude
  import opened Rows
  import opened EventLog

  lemma SeqStep(w: World, s: Step)
    requires Enabled(w, s)
    ensures w.nextSeq <= Apply(w, s).nextSeq
    ensures s.Insert? ==> s.row.eventSeq == w.nextSeq && Apply(w, s).nextSeq == w.nextSeq + 1
    ensures s.InsertFails? || s.InsertSkipped? ==> Apply(w, s).nextSeq == w.nextSeq + 1
  {
  }

  /** The sequence never goes back, rollbacks or not. */
  lemma {:induction false} SeqNeverDecreases(w: World, steps: seq<Step>)
    requires CanRun(w, steps)
    ensures w.nextSeq <= RunOf(w, steps).nextSeq
    decreases |steps|
  {
    hide Enabled, Apply;
    if steps == [] {
    } else {
      var n := |steps| - 1;
      SeqNeverDecreases(w, steps[..n]);
      SeqStep(RunOf(w, steps[..n]), steps[n]);
    }
  }

  /** No value is drawn twice in a run: a later insert gets a greater number, whether the
      earlier one was committed, rolled back or is still open. */
  lemma DrawnOnce(w: World, steps: seq<Step>, i: nat, j: nat)
    requires CanRun(w, steps) && i < j < |steps| && steps[i].Insert? && steps[j].Insert?
    ensures steps[i].row.eventSeq < steps[j].row.eventSeq
  {
    hide Enabled, Apply;
    RunPrefix(w, steps, j + 1);
    assert steps[..j + 1][..j] == steps[..j];
    RunSplits(w, steps[..j], i + 1);
    assert steps[..j][..i + 1] == steps[..i + 1] && steps[..i + 1][..i] == steps[..i];
    SeqStep(RunOf(w, steps[..i]), steps[i]);
    SeqNeverDecreases(RunOf(w, steps[..i + 1]), steps[..j][i + 1..]);
    SeqStep(RunOf(w, steps[..j]), steps[j]);
  }

  // ---- The lock ----

  predicate LockInv(w: World) {
    w.lockHolder.Some? ==> w.lockHolder.value in w.open
  }

  lemma LockStep(w: World, s: Step)
    requires LockInv(w) && Enabled(w, s)
    ensures LockInv(Apply(w, s))
  {
  }

  /** Only an open transaction ever holds the lock. */
  lemma {:induction false} LockIsHeldByOpen(w0: World, steps: seq<Step>)
    requires Init(w0) && CanRun(w0, steps)
    ensures LockInv(RunOf(w0, steps))
    decreases |steps|
  {
    hide Enabled, Apply;
    if steps == [] {
    } else {
      var n := |steps| - 1;
      LockIsHeldByOpen(w0, steps[..n]);
      LockStep(RunOf(w0, steps[..n]), steps[n]);
    }
  }

  /** A number is drawn only under the lock, and the lock stays with the transaction
      until it ends. */
  lemma DrawingLocks(w: World, s: Step, t: TxnId)
    requires Enabled(w, s)
    ensures Apply(w, s).nextSeq != w.nextSeq ==>
              && (s.Insert? || s.InsertSkipped? || s.InsertFails?)
              && (w.lockHolder == None || w.lockHolder == Some(s.t))
              && Apply(w, s).nextSeq == w.nextSeq + 1
    ensures s.Insert? || s.InsertSkipped? ==> Apply(w, s).lockHolder == Some(s.t)
    ensures w.lockHolder == Some(t) && !Ends(s, t) ==> Apply(w, s).lockHolder == Some(t)
  {
  }

  predicate Ends(s: Step, t: TxnId) {
    (s.Commit? || s.Rollback? || s.InsertFails?) && s.t == t
  }

  /** Commit, rollback and a failed statement close the transaction and free its lock. */
  lemma EndReleasesLock(w0: World, steps: seq<Step>, s: Step, t: TxnId)
    requires Init(w0) && CanRun(w0, steps) && Enabled(RunOf(w0, steps), s) && Ends(s, t)
    ensures t !in Apply(RunOf(w0, steps), s).open
    ensures RunOf(w0, steps).lockHolder == Some(t) ==> Apply(RunOf(w0, steps), s).lockHolder == None
  {
  }

  // ---- All at commit, or never ----

  /** A commit shows the transaction's rows and hides what it deleted, all at once;
      no other step changes what readers see. */
  lemma OnlyCommitShows(w: World, s: Step, r: Row)
    requires Enabled(w, s) && OrderInv(w)
    ensures !s.Commit? ==> (r in Visible(Apply(w, s)) <==> r in Visible(w))
    ensures s.Commit? ==> var txn := w.open[s.t];
              r in Visible(Apply(w, s)) <==>
                (r in Visible(w) || r in txn.rows) && r.eventSeq !in w.deleted && r.eventSeq !in txn.deletes
  {
    if s.Commit? {
      assert Apply(w, s) == CommitTxn(w, s.t);
    }
  }

  /** On a connection that listens, a commit queues one notification for each of its rows,
      in order, a foreign sender one unreadable payload, and no other writer anything. */
  lemma CommitNotifies(w: World, s: Step)
    requires Enabled(w, s) && w.listening
    ensures s.Commit? ==> var n := |w.open[s.t].rows|;
              Apply(w, s).queue == w.queue + seq(n, k requires 0 <= k < n => Note(|w.log| + k))
    ensures s.ForeignNotify? ==> Apply(w, s).queue == w.queue + [Malformed]
    ensures IsWrite(s) && !s.Commit? ==> Apply(w, s).queue == w.queue
  {
  }

  /** The number is spent: no committed row has it and no open transaction holds it. */
  ghost predicate Spent(w: World, n: int) {
    && n < w.nextSeq
    && (forall r :: r in w.log ==> r.eventSeq != n)
    && (forall t, r :: t in w.open && r in w.open[t].rows ==> r.eventSeq != n)
  }

  lemma SpentStep(w: World, s: Step, n: int)
    requires Spent(w, n) && Enabled(w, s)
    ensures Spent(Apply(w, s), n)
  {
  }

  lemma {:induction false} SpentRun(w: World, steps: seq<Step>, n: int)
    requires Spent(w, n) && CanRun(w, steps)
    ensures Spent(RunOf(w, steps), n)
    decreases |steps|
  {
    hide Enabled, Apply, Spent;
    if steps == [] {
    } else {
      var m := |steps| - 1;
      SpentRun(w, steps[..m], n);
      SpentStep(RunOf(w, steps[..m]), steps[m], n);
    }
  }

  lemma RollbackSpends(w: World, s: Step, r: Row)
    requires OrderInv(w) && Enabled(w, s) && (s.Rollback? || s.InsertFails?) && r in w.open[s.t].rows
    ensures Spent(Apply(w, s), r.eventSeq)
  {
    assert OpenRowsInOrder(w, w.open[s.t].rows);
  }

  /** A row whose transaction was rolled back never becomes visible, and its number is
      never used again, in any continuation. */
  lemma RolledBackForever(w: World, s: Step, r: Row, steps: seq<Step>)
    requires OrderInv(w) && Enabled(w, s) && (s.Rollback? || s.InsertFails?) && r in w.open[s.t].rows
    requires CanRun(Apply(w, s), steps)
    ensures forall q :: q in RunOf(Apply(w, s), steps).log ==> q.eventSeq != r.eventSeq
  {
    RollbackSpends(w, s, r);
    SpentRun(Apply(w, s), steps, r.eventSeq);
  }
}
