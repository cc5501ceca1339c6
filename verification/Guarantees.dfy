/** What the event log promises its readers, for every run from a migrated database. */
module Guarantees {
  import opened Rows
  import opened EventLog
  import opened Delivery
  import Listener

  // ---- Accounting ----

  /** Every committed row the listener's position has passed, and nobody deleted,
      was broadcast; or its own lookup failed; or it was committed before a LISTEN
      whose replay failed before reaching it; or a lookup overtook it under a reused
      id; or its notification went down with a connection replaced without an error. */
  lemma DeliveryAccounting(w0: World, steps: seq<Step>, r: Row)
    requires Init(w0) && CanRun(w0, steps)
    requires r in RunOf(w0, steps).log && r.eventSeq <= RunOf(w0, steps).l.lastSeen
    requires r.eventSeq !in RunOf(w0, steps).deleted
    ensures var w := RunOf(w0, steps);
      || r in w.l.broadcast
      || r.eventSeq in w.failedLookups
      || r.eventSeq in w.missed
      || r.eventSeq in w.overtaken
      || r.eventSeq in w.dropped
  {
    InvInit(w0);
    InvRun(w0, steps);
    var w := RunOf(w0, steps);
    var i :| 0 <= i < |w.log| && w.log[i] == r;
    assert Settled(w, w.log[i]);
  }

  /** Only committed rows are ever broadcast. */
  lemma BroadcastWasCommitted(w0: World, steps: seq<Step>, r: Row)
    requires Init(w0) && CanRun(w0, steps) && r in RunOf(w0, steps).l.broadcast
    ensures r in RunOf(w0, steps).log
  {
    InvInit(w0);
    InvRun(w0, steps);
  }

  // ---- Reused ids ----

  ghost predicate ReusesId(log: seq<Row>) {
    exists a, b :: SharesId(log, a, b)
  }

  lemma PassingOverNeedsReuse(w: World)
    requires Inv(w) && w.reply.LookupReply?
    ensures PassedOver(w, w.reply.at, w.reply.lookup) != {} ==> ReusesId(w.log)
  {
    if PassedOver(w, w.reply.at, w.reply.lookup) != {} {
      assert SharesId(w.log, w.log[w.reply.at], w.reply.lookup.row);
    }
  }

  /** Only a client that inserts under the id of a deleted row can cause overtaking. */
  lemma {:induction false} OvertakingNeedsReuse(w0: World, steps: seq<Step>)
    requires Init(w0) && CanRun(w0, steps)
    ensures RunOf(w0, steps).overtaken != {} ==> ReusesId(RunOf(w0, steps).log)
    decreases |steps|
  {
    if steps == [] {
    } else {
      var n := |steps| - 1;
      var w, s := RunOf(w0, steps[..n]), steps[n];
      OvertakingNeedsReuse(w0, steps[..n]);
      InvInit(w0);
      InvRun(w0, steps[..n]);
      LogOnlyGrows(w, s);
      if ReusesId(w.log) {
        var a, b :| SharesId(w.log, a, b);
        assert SharesId(Apply(w, s).log, a, b);
      } else if s.Deliver? && w.reply.LookupReply? {
        PassingOverNeedsReuse(w);
      }
    }
  }

  // ---- The order of what goes out ----

  function Position(l: Listener.State): int {
    if l.phase.Replaying? then l.phase.cursor else l.lastSeen
  }

  /** As long as no replay fails after it has sent rows. */
  ghost predicate OrderlyInv(w: World) {
    w.tornReplays == 0 ==>
      && LogInOrder(w.l.broadcast)
      && (forall r :: r in w.l.broadcast ==> r.eventSeq <= Position(w.l) && r.eventSeq !in w.overtaken)
      && (forall n :: n in w.overtaken ==> n <= w.l.lastSeen)
  }

  lemma AppendKeepsOrder(sent: seq<Row>, rows: seq<Row>, position: int)
    requires LogInOrder(sent) && forall r :: r in sent ==> r.eventSeq <= position
    requires LogInOrder(rows) && forall r :: r in rows ==> r.eventSeq > position
    ensures LogInOrder(sent + rows)
    ensures forall r :: r in sent + rows ==> r.eventSeq <= Listener.LastSeq(position, rows)
  {
    LastOfPage(position, rows);
    forall i, j | 0 <= i < j < |sent + rows| ensures (sent + rows)[i].eventSeq < (sent + rows)[j].eventSeq {
      if i < |sent| <= j {
        assert sent[i] in sent && rows[j - |sent|] in rows;
      }
    }
  }

  lemma OnlyDeliveryBroadcasts(w: World, s: Step)
    requires Enabled(w, s) && !s.Deliver? && CursorInv(w)
    ensures Apply(w, s).l.broadcast == w.l.broadcast && Apply(w, s).tornReplays >= w.tornReplays
    ensures Apply(w, s).overtaken == w.overtaken && Apply(w, s).l.lastSeen == w.l.lastSeen
    ensures Apply(w, s).tornReplays == w.tornReplays ==> Position(Apply(w, s).l) == Position(w.l)
  {
  }

  lemma OrderlyPage(w: World)
    requires Inv(w) && OrderlyInv(w) && Enabled(w, Deliver) && w.reply.PageReply?
    ensures OrderlyInv(Apply(w, Deliver))
  {
    if w.tornReplays == 0 {
      AppendKeepsOrder(w.l.broadcast, w.reply.rows, w.l.phase.cursor);
    }
  }

  lemma OrderlyLookup(w: World)
    requires Inv(w) && OrderlyInv(w) && Enabled(w, Deliver) && w.reply.LookupReply?
    ensures OrderlyInv(Apply(w, Deliver))
  {
    if w.tornReplays == 0 && Listener.Forwards(w.l.lastSeen, w.reply.lookup) {
      AppendKeepsOrder(w.l.broadcast, [w.reply.lookup.row], w.l.lastSeen);
    }
  }

  lemma OrderlyStep(w: World, s: Step)
    requires Inv(w) && OrderlyInv(w) && Enabled(w, s)
    ensures OrderlyInv(Apply(w, s))
  {
    if !s.Deliver? {
      OnlyDeliveryBroadcasts(w, s);
    } else if w.reply.PageReply? {
      OrderlyPage(w);
    } else {
      OrderlyLookup(w);
    }
  }

  lemma {:induction false} OrderlyRun(w0: World, steps: seq<Step>)
    requires Init(w0) && CanRun(w0, steps)
    ensures OrderlyInv(RunOf(w0, steps)) && Inv(RunOf(w0, steps))
    decreases |steps|
  {
    InvInit(w0);
    if steps == [] {
    } else {
      var n := |steps| - 1;
      OrderlyRun(w0, steps[..n]);
      InvStep(RunOf(w0, steps[..n]), steps[n]);
      OrderlyStep(RunOf(w0, steps[..n]), steps[n]);
    }
  }

  /** Step `k` is a replay that fails after it has sent rows. */
  ghost predicate TornAt(w0: World, steps: seq<Step>, k: nat) {
    && k < |steps| && steps[k].FetchFails? && CanRun(w0, steps[..k])
    && RunOf(w0, steps[..k]).l.phase.Replaying? && RunOf(w0, steps[..k]).l.phase.replayedAny
  }

  lemma {:induction false} NothingTorn(w0: World, steps: seq<Step>)
    requires Init(w0) && CanRun(w0, steps) && forall k :: 0 <= k < |steps| ==> !TornAt(w0, steps, k)
    ensures RunOf(w0, steps).tornReplays == 0
    decreases |steps|
  {
    if steps == [] {
    } else {
      var n := |steps| - 1;
      forall k | 0 <= k < n ensures !TornAt(w0, steps[..n], k) {
        assert !TornAt(w0, steps, k) && steps[..n][..k] == steps[..k];
      }
      NothingTorn(w0, steps[..n]);
      assert !TornAt(w0, steps, n);
    }
  }

  /** While every replay that fails does so before sending a row, rows go out in
      strictly increasing order, so each at most once, even when its queued
      notification follows its replay. */
  lemma BroadcastIsOrderly(w0: World, steps: seq<Step>)
    requires Init(w0) && CanRun(w0, steps) && forall k :: 0 <= k < |steps| ==> !TornAt(w0, steps, k)
    ensures forall i, j :: 0 <= i < j < |RunOf(w0, steps).l.broadcast| ==>
              RunOf(w0, steps).l.broadcast[i].eventSeq < RunOf(w0, steps).l.broadcast[j].eventSeq
  {
    NothingTorn(w0, steps);
    OrderlyRun(w0, steps);
  }

  // ---- What is lost, exactly ----

  /** The listener has caught up: connected, nothing queued, nothing in hand. */
  predicate CaughtUp(w: World) {
    w.l.phase.Live? && w.listening && w.queue == [] && w.reply == NoReply
  }

  /** No query failed, and no connection was replaced behind the listener's back. */
  ghost predicate ErrorFree(w: World) {
    w.replayErrors == 0 && w.failedLookups == {} && w.dropped == {}
  }

  lemma {:induction false} NoReplayErrors(w0: World, steps: seq<Step>)
    requires Init(w0) && CanRun(w0, steps) && RunOf(w0, steps).replayErrors == 0
    ensures RunOf(w0, steps).missed == {} && RunOf(w0, steps).tornReplays == 0
    decreases |steps|
  {
    if steps == [] {
    } else {
      var n := |steps| - 1;
      var w := RunOf(w0, steps[..n]);
      OnlyFailureCounts(w, steps[n]);
      NoReplayErrors(w0, steps[..n]);
    }
  }

  lemma OnlyFailureCounts(w: World, s: Step)
    requires Enabled(w, s)
    ensures Apply(w, s).replayErrors == w.replayErrors + if s.FetchFails? then 1 else 0
    ensures !s.FetchFails? ==> Apply(w, s).missed == w.missed && Apply(w, s).tornReplays == w.tornReplays
  {
  }

  /** At step `k` the lookup for one row finds a younger row under its id, and the
      position moves there past number `n`. */
  ghost predicate OvertakenAt(w0: World, steps: seq<Step>, k: nat, n: int) {
    && k < |steps| && CanRun(w0, steps[..k]) && Enabled(RunOf(w0, steps[..k]), steps[k])
    && Overtakes(RunOf(w0, steps[..k]), steps[k], n)
  }

  ghost predicate Overtakes(w: World, s: Step, n: int)
    requires Enabled(w, s)
  {
    s.Deliver? && w.reply.LookupReply? && n in PassedOver(w, w.reply.at, w.reply.lookup)
  }

  /** No lookup overtook a row that is still visible. */
  ghost predicate NoneOvertaken(w0: World, steps: seq<Step>)
    requires CanRun(w0, steps)
  {
    forall r, k: nat :: r in Visible(RunOf(w0, steps)) ==> !OvertakenAt(w0, steps, k, r.eventSeq)
  }

  lemma OvertakenStep(w: World, s: Step, n: int)
    requires Enabled(w, s)
    ensures n in Apply(w, s).overtaken <==> n in w.overtaken || Overtakes(w, s, n)
  {
  }

  lemma OvertakenEarlier(w0: World, steps: seq<Step>, k: nat, n: int)
    requires CanRun(w0, steps) && k < |steps|
    ensures var m := |steps| - 1;
      && (k < m ==> (OvertakenAt(w0, steps, k, n) <==> OvertakenAt(w0, steps[..m], k, n)))
      && (k == m ==> (OvertakenAt(w0, steps, k, n) <==> Overtakes(RunOf(w0, steps[..m]), steps[m], n)))
  {
    hide Overtakes;
    assert steps[..|steps| - 1][..k] == steps[..k];
  }

  lemma {:induction false} OvertakenHistory(w0: World, steps: seq<Step>, n: int)
    requires Init(w0) && CanRun(w0, steps)
    ensures n in RunOf(w0, steps).overtaken <==> exists k: nat :: OvertakenAt(w0, steps, k, n)
    decreases |steps|
  {
    if steps == [] {
    } else {
      var m := |steps| - 1;
      OvertakenHistory(w0, steps[..m], n);
      OvertakenStep(RunOf(w0, steps[..m]), steps[m], n);
      OvertakenEarlier(w0, steps, m, n);
      if exists k: nat :: OvertakenAt(w0, steps, k, n) {
        var k: nat :| OvertakenAt(w0, steps, k, n);
        OvertakenEarlier(w0, steps, k, n);
      }
      if n in RunOf(w0, steps[..m]).overtaken {
        var k: nat :| OvertakenAt(w0, steps[..m], k, n);
        OvertakenEarlier(w0, steps, k, n);
      }
    }
  }

  /** In a run without errors, a surviving row that the position has passed was never
      broadcast exactly when some lookup overtook it. */
  lemma LostExactlyWhenOvertaken(w0: World, steps: seq<Step>, r: Row)
    requires Init(w0) && CanRun(w0, steps) && ErrorFree(RunOf(w0, steps))
    requires r in Visible(RunOf(w0, steps)) && r.eventSeq <= RunOf(w0, steps).l.lastSeen
    ensures r !in RunOf(w0, steps).l.broadcast <==> exists k :: OvertakenAt(w0, steps, k, r.eventSeq)
  {
    OrderlyRun(w0, steps);
    NoReplayErrors(w0, steps);
    OvertakenHistory(w0, steps, r.eventSeq);
    DeliveryAccounting(w0, steps, r);
  }

  /** In a run without errors, a listener that has caught up has broadcast every
      surviving row exactly when no lookup overtook any of them. */
  lemma NothingIsLostExactly(w0: World, steps: seq<Step>)
    requires Init(w0) && CanRun(w0, steps)
    requires CaughtUp(RunOf(w0, steps)) && ErrorFree(RunOf(w0, steps))
    ensures (forall r :: r in Visible(RunOf(w0, steps)) ==> r in RunOf(w0, steps).l.broadcast) <==>
            NoneOvertaken(w0, steps)
  {
    OrderlyRun(w0, steps);
    NoReplayErrors(w0, steps);
    var w := RunOf(w0, steps);
    forall r | r in Visible(w) ensures r !in w.l.broadcast <==> exists k :: OvertakenAt(w0, steps, k, r.eventSeq) {
      OvertakenHistory(w0, steps, r.eventSeq);
      var i :| 0 <= i < |w.log| && w.log[i] == r;
      assert Settled(w, w.log[i]) || Ahead(w, i);
    }
  }

  /** A condition writers can keep: when no id is used twice, nothing is overtaken. */
  lemma NothingIsLost(w0: World, steps: seq<Step>)
    requires Init(w0) && CanRun(w0, steps)
    requires CaughtUp(RunOf(w0, steps)) && ErrorFree(RunOf(w0, steps)) && !ReusesId(RunOf(w0, steps).log)
    ensures forall r :: r in Visible(RunOf(w0, steps)) ==> r in RunOf(w0, steps).l.broadcast
  {
    OvertakingNeedsReuse(w0, steps);
    forall n, k | OvertakenAt(w0, steps, k, n) ensures false {
      OvertakenHistory(w0, steps, n);
    }
    NothingIsLostExactly(w0, steps);
  }

  // ---- The position ----

  lemma OnlyDeliveryMoves(w: World, s: Step)
    requires Enabled(w, s) && !s.Deliver?
    ensures Apply(w, s).l.lastSeen == w.l.lastSeen
  {
  }

  lemma PositionStep(w: World, s: Step)
    requires Inv(w) && Enabled(w, s)
    ensures w.l.lastSeen <= Apply(w, s).l.lastSeen
  {
    if !s.Deliver? {
      OnlyDeliveryMoves(w, s);
    } else if w.reply.PageReply? {
      LastOfPage(w.l.phase.cursor, w.reply.rows);
    }
  }

  /** In every run whatsoever the listener's position never moves back. */
  lemma {:induction false} PositionNeverDecreases(w: World, steps: seq<Step>)
    requires Inv(w) && CanRun(w, steps)
    ensures w.l.lastSeen <= RunOf(w, steps).l.lastSeen
    decreases |steps|
  {
    if steps == [] {
    } else {
      var n := |steps| - 1;
      PositionNeverDecreases(w, steps[..n]);
      InvRun(w, steps[..n]);
      PositionStep(RunOf(w, steps[..n]), steps[n]);
    }
  }

  // ---- Cache invalidations ----

  /** Each row the position has passed was committed before some invalidation. */
  ghost predicate BumpInv(w: World) {
    && |w.commitBumps| == |w.log|
    && (forall i :: 0 <= i < |w.log| ==> w.commitBumps[i] <= w.l.bumps)
    && (forall i :: 0 <= i < |w.log| && w.log[i].eventSeq <= w.l.lastSeen ==> w.commitBumps[i] < w.l.bumps)
  }

  lemma BumpStep(w: World, s: Step)
    requires Inv(w) && BumpInv(w) && Enabled(w, s)
    ensures BumpInv(Apply(w, s)) && w.l.bumps <= Apply(w, s).l.bumps
  {
    if s.Commit? {
      BumpCommit(w, s.t);
    } else {
      NoCommitNoRows(w, s);
    }
  }

  lemma BumpCommit(w: World, t: TxnId)
    requires Inv(w) && BumpInv(w) && t in w.open
    ensures BumpInv(CommitTxn(w, t))
  {
    NewRowsAreAbove(w, t, w.l.lastSeen);
    var w' := CommitTxn(w, t);
    forall i | 0 <= i < |w'.log|
      ensures w'.commitBumps[i] <= w.l.bumps
      ensures w'.log[i].eventSeq <= w.l.lastSeen ==> w'.commitBumps[i] < w.l.bumps
    {
      if i >= |w.log| {
        assert w'.log[i] in w.open[t].rows;
      } else {
        assert w'.log[i] == w.log[i];
      }
    }
  }

  predicate NoBump(w: World, w': World) {
    w'.log == w.log && w'.commitBumps == w.commitBumps && w'.l.lastSeen == w.l.lastSeen && w'.l.bumps == w.l.bumps
  }

  lemma OnlyDeliveryBumps(w: World, s: Step)
    requires Enabled(w, s) && !s.Commit? && !s.Deliver?
    ensures NoBump(w, Apply(w, s))
  {
  }

  /** The position moves only together with an invalidation. */
  lemma NoCommitNoRows(w: World, s: Step)
    requires Inv(w) && Enabled(w, s) && !s.Commit?
    ensures Apply(w, s).log == w.log && Apply(w, s).commitBumps == w.commitBumps
    ensures Apply(w, s).l.lastSeen != w.l.lastSeen ==> Apply(w, s).l.bumps > w.l.bumps
    ensures Apply(w, s).l.bumps >= w.l.bumps
  {
    if !s.Deliver? {
      OnlyDeliveryBumps(w, s);
    }
  }

  lemma {:induction false} BumpRun(w0: World, steps: seq<Step>)
    requires Init(w0) && CanRun(w0, steps)
    ensures BumpInv(RunOf(w0, steps))
    decreases |steps|
  {
    InvInit(w0);
    if steps != [] {
      var n := |steps| - 1;
      BumpRun(w0, steps[..n]);
      InvRun(w0, steps[..n]);
      BumpStep(RunOf(w0, steps[..n]), steps[n]);
    } else {
      assert forall i :: 0 <= i < |w0.log| ==> w0.log[i].eventSeq > 0;
    }
  }

  /** Unless a replay fails after sending rows, every row broadcast was committed
      before some invalidation of the cache, once no replay is under way. */
  lemma BroadcastWasBumped(w0: World, steps: seq<Step>, i: nat)
    requires Init(w0) && CanRun(w0, steps) && forall k :: 0 <= k < |steps| ==> !TornAt(w0, steps, k)
    requires var w := RunOf(w0, steps);
      !w.l.phase.Replaying? && i < |w.log| && w.log[i] in w.l.broadcast
    ensures i < |RunOf(w0, steps).commitBumps| && RunOf(w0, steps).commitBumps[i] < RunOf(w0, steps).l.bumps
  {
    NothingTorn(w0, steps);
    OrderlyRun(w0, steps);
    BumpRun(w0, steps);
  }
}
