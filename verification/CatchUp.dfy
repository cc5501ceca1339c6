/** Left alone, the listener always recovers: from every reachable state in which it has
    not been shut down, there is a way on without writers and without new errors after
    which it has caught up. And no notification is taken twice. */
module CatchUp {
  import opened Prelude
  import opened Rows
  import opened EventLog
  import opened Delivery
  import opened Guarantees
  import opened Redelivery
  import Listener

  /** The table is as it was, and nothing new has failed. */
  predicate SameTable(w: World, w': World) {
    && w'.log == w.log && w'.deleted == w.deleted
    && w'.missed == w.missed && w'.failedLookups == w.failedLookups && w'.dropped == w.dropped
    && w'.replayErrors == w.replayErrors
  }

  // ---- One reply ----

  lemma ReplyIsExpected(w: World)
    requires ReplyInv(w) && !Idle(w)
    ensures Enabled(w, Deliver) && SameTable(w, Apply(w, Deliver)) && Idle(Apply(w, Deliver))
    ensures !Apply(w, Deliver).l.phase.Stopped?
  {
  }

  lemma RunOne(w: World, s: Step)
    requires Enabled(w, s)
    ensures CanRun(w, [s]) && RunOf(w, [s]) == Apply(w, s)
  {
    hide Enabled, Apply;
    assert CanRun(w, []);
    RunSnoc(w, [], s);
    assert [] + [s] == [s];
  }

  lemma Settle(w: World) returns (steps: seq<Step>)
    requires Inv(w) && !w.l.phase.Stopped?
    ensures CanRun(w, steps) && Inv(RunOf(w, steps)) && Idle(RunOf(w, steps)) && SameTable(w, RunOf(w, steps))
    ensures !RunOf(w, steps).l.phase.Stopped?
  {
    if Idle(w) {
      steps := [];
    } else {
      ReplyIsExpected(w);
      InvStep(w, Deliver);
      hide Inv, Enabled, Apply;
      RunOne(w, Deliver);
      steps := [Deliver];
    }
  }

  // ---- To the end of a replay ----

  lemma CursorIsDrawn(w: World)
    requires Inv(w) && w.l.phase.Replaying?
    ensures w.l.phase.cursor < w.nextSeq
  {
    hide AccountInv, QueueInv, IdInv, ReplyInv;
  }

  lemma {:induction false} FinishReplay(w: World) returns (steps: seq<Step>)
    requires Inv(w) && Idle(w) && w.l.phase.Replaying?
    ensures CanRun(w, steps) && Inv(RunOf(w, steps)) && Idle(RunOf(w, steps)) && SameTable(w, RunOf(w, steps))
    ensures RunOf(w, steps).l.phase.Live? && RunOf(w, steps).listening == w.listening
    decreases w.nextSeq - w.l.phase.cursor
  {
    hide Inv, Enabled, Apply, CanRun, RunOf, Visible;
    CursorIsDrawn(w);
    var page, w' := TakeNextPage(w);
    steps := [FetchPage(page), Deliver];
    if w'.l.phase.Replaying? {
      var rest := FinishReplay(w');
      RunAppend(w, steps, rest);
      steps := steps + rest;
    }
  }

  // ---- To the end of the queue ----

  /** Every lookup has an answer. */
  lemma SomeLookup(w: World, id: nat) returns (lookup: Listener.Lookup)
    requires id < 0x1_0000_0000_0000_0000_0000_0000_0000_0000
    ensures IsLookup(w, id, lookup)
  {
    if r :| r in Visible(w) && r.id == id {
      lookup := Listener.Found(r);
    } else {
      lookup := Listener.Gone;
    }
  }

  lemma NoteIsInLog(w: World)
    requires Inv(w) && w.queue != [] && w.queue[0].Note?
    ensures w.queue[0].at < |w.log|
  {
    hide AccountInv, OrderInv, IdInv, ReplyInv, CursorInv;
  }

  predicate Listening(w: World) {
    Idle(w) && w.l.phase.Live? && w.listening
  }

  lemma NoteTaken(w: World, lookup: Listener.Lookup)
    requires Listening(w) && Enabled(w, TakeNote(lookup))
    ensures var w1 := Apply(w, TakeNote(lookup));
      && Enabled(w1, Deliver)
      && Listening(Apply(w1, Deliver)) && SameTable(w, Apply(w1, Deliver)) && Apply(w1, Deliver).queue == w.queue[1..]
  {
  }

  lemma MalformedTaken(w: World)
    requires Listening(w) && Enabled(w, TakeMalformed)
    ensures var w' := Apply(w, TakeMalformed);
      Listening(w') && SameTable(w, w') && w'.queue == w.queue[1..]
  {
  }

  /** The notification at the head of the queue is dealt with. */
  lemma TakeHead(w: World) returns (steps: seq<Step>)
    requires Inv(w) && Listening(w) && w.queue != []
    ensures CanRun(w, steps) && Inv(RunOf(w, steps))
    ensures Listening(RunOf(w, steps)) && SameTable(w, RunOf(w, steps)) && RunOf(w, steps).queue == w.queue[1..]
  {
    hide Inv, Apply, CanRun, RunOf;
    if w.queue[0].Malformed? {
      MalformedTaken(w);
      InvStep(w, TakeMalformed);
      RunOne(w, TakeMalformed);
      steps := [TakeMalformed];
    } else {
      NoteIsInLog(w);
      var lookup := SomeLookup(w, w.log[w.queue[0].at].id);
      NoteTaken(w, lookup);
      InvStep(w, TakeNote(lookup));
      InvStep(Apply(w, TakeNote(lookup)), Deliver);
      RunTwo(w, TakeNote(lookup), Deliver);
      steps := [TakeNote(lookup), Deliver];
    }
  }

  lemma {:induction false} Drain(w: World) returns (steps: seq<Step>)
    requires Inv(w) && Listening(w)
    ensures CanRun(w, steps) && Inv(RunOf(w, steps)) && CaughtUp(RunOf(w, steps)) && SameTable(w, RunOf(w, steps))
    decreases |w.queue|
  {
    hide Inv, Enabled, Apply;
    if w.queue == [] {
      steps := [];
    } else {
      steps := TakeHead(w);
      var rest := Drain(RunOf(w, steps));
      RunAppend(w, steps, rest);
      steps := steps + rest;
    }
  }

  // ---- From anywhere ----

  lemma ConnectStarts(w: World)
    requires Idle(w) && w.l.phase.Connecting?
    ensures Enabled(w, Connect)
    ensures var w' := Apply(w, Connect); Idle(w') && w'.l.phase.Replaying? && w'.listening && SameTable(w, w')
  {
  }

  lemma ErrorIsNoticed(w: World)
    requires Idle(w) && w.l.phase.Live?
    ensures Enabled(w, ReceiveFails)
    ensures var w' := Apply(w, ReceiveFails); Idle(w') && w'.l.phase.Connecting? && SameTable(w, w')
  {
  }

  lemma FromConnecting(w: World) returns (steps: seq<Step>)
    requires Inv(w) && Idle(w) && w.l.phase.Connecting?
    ensures CanRun(w, steps) && Inv(RunOf(w, steps)) && CaughtUp(RunOf(w, steps)) && SameTable(w, RunOf(w, steps))
  {
    hide Inv, Enabled, Apply, CanRun, RunOf;
    ConnectStarts(w);
    InvStep(w, Connect);
    RunOne(w, Connect);
    steps := [Connect];
    var replay := FinishReplay(RunOf(w, steps));
    RunAppend(w, steps, replay);
    steps := steps + replay;
    var rest := Drain(RunOf(w, steps));
    RunAppend(w, steps, rest);
    steps := steps + rest;
  }

  lemma FromLive(w: World) returns (steps: seq<Step>)
    requires Inv(w) && Idle(w) && w.l.phase.Live?
    ensures CanRun(w, steps) && Inv(RunOf(w, steps)) && CaughtUp(RunOf(w, steps)) && SameTable(w, RunOf(w, steps))
  {
    hide Inv, Enabled, Apply, CanRun, RunOf;
    if w.listening {
      steps := Drain(w);
    } else {
      ErrorIsNoticed(w);
      InvStep(w, ReceiveFails);
      RunOne(w, ReceiveFails);
      steps := [ReceiveFails];
      var rest := FromConnecting(RunOf(w, steps));
      RunAppend(w, steps, rest);
      steps := steps + rest;
    }
  }

  lemma FromIdle(w: World) returns (steps: seq<Step>)
    requires Inv(w) && Idle(w) && !w.l.phase.Stopped?
    ensures CanRun(w, steps) && Inv(RunOf(w, steps)) && CaughtUp(RunOf(w, steps)) && SameTable(w, RunOf(w, steps))
  {
    hide Inv, Enabled, Apply, CanRun, RunOf, CaughtUp;
    if w.l.phase.Replaying? {
      steps := FinishReplay(w);
      var rest := FromLive(RunOf(w, steps));
      RunAppend(w, steps, rest);
      steps := steps + rest;
    } else if w.l.phase.Connecting? {
      steps := FromConnecting(w);
    } else {
      steps := FromLive(w);
    }
  }

  /** From every reachable state, unless shutdown was requested, some continuation that
      changes no table ends with a listener that has caught up, and then every surviving
      row is broadcast or on one of the accounts. */
  lemma CanCatchUp(w0: World, steps: seq<Step>) returns (more: seq<Step>)
    requires Init(w0) && CanRun(w0, steps) && !RunOf(w0, steps).l.phase.Stopped?
    ensures CanRun(w0, steps + more) && CaughtUp(RunOf(w0, steps + more))
    ensures SameTable(RunOf(w0, steps), RunOf(w0, steps + more))
    ensures forall r :: r in Visible(RunOf(w0, steps + more)) ==> Settled(RunOf(w0, steps + more), r)
  {
    hide Inv, Enabled, Apply, CanRun, RunOf, Init, CaughtUp, Settled;
    OrderlyRun(w0, steps);
    var w := RunOf(w0, steps);
    more := Settle(w);
    var rest := FromIdle(RunOf(w, more));
    RunAppend(w, more, rest);
    more := more + rest;
    RunAppend(w0, steps, more);
    CaughtUpIsSettled(RunOf(w0, steps + more));
  }

  lemma CaughtUpIsSettled(w: World)
    requires Inv(w) && CaughtUp(w)
    ensures forall r :: r in Visible(w) ==> Settled(w, r)
  {
    forall r | r in Visible(w) ensures Settled(w, r) {
      var i :| 0 <= i < |w.log| && w.log[i] == r;
      assert Settled(w, w.log[i]) || Ahead(w, i);
    }
  }

  // ---- No notification is taken twice ----

  /** Note `i` has been sent and is not waiting. */
  predicate Taken(w: World, i: nat) {
    i < w.heard && Note(i) !in w.queue
  }

  lemma HeadIsTaken(w: World, s: Step)
    requires Inv(w) && Enabled(w, s) && IsTaking(s)
    ensures Apply(w, s).queue == w.queue[1..]
    ensures w.queue[0].Note? ==> Taken(Apply(w, s), w.queue[0].at)
  {
  }

  lemma TakenStep(w: World, s: Step, i: nat)
    requires Inv(w) && Enabled(w, s) && Taken(w, i)
    ensures Taken(Apply(w, s), i)
  {
    hide AccountInv, OrderInv, IdInv, CursorInv, ReplyInv;
    if s.Commit? {
      assert Apply(w, s) == CommitTxn(w, s.t);
      forall n | n in Notes(|w.log|, |w.open[s.t].rows|) ensures n != Note(i) {
        var k :| 0 <= k < |w.open[s.t].rows| && Notes(|w.log|, |w.open[s.t].rows|)[k] == n;
      }
    }
  }

  /** Once taken, or lost with its connection, a notification is never queued again. */
  lemma {:induction false} TakenForever(w: World, steps: seq<Step>, i: nat)
    requires Inv(w) && CanRun(w, steps) && Taken(w, i)
    ensures Taken(RunOf(w, steps), i)
    decreases |steps|
  {
    hide Enabled, Apply, Taken, Inv;
    if steps == [] {
    } else {
      var n := |steps| - 1;
      TakenForever(w, steps[..n], i);
      InvRun(w, steps[..n]);
      TakenStep(RunOf(w, steps[..n]), steps[n], i);
    }
  }
}
