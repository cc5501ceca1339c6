/** From the insert to the browser: the event log, the broadcast channel and one
    client stream put together. */
module EndToEnd {
  import opened Rows
  import EventLog
  import Guarantees
  import Loss
  import Sse

  /** The channel carries what the listener broadcast, and nothing else. */
  predicate Feeds(w: EventLog.World, h: Sse.Hub) {
    h.sent == Sse.EventsOf(w.l.broadcast)
  }

  lemma EventIsSent(rows: seq<Row>, r: Row)
    requires r in rows
    ensures Sse.EventOf(r) in Sse.EventsOf(rows)
  {
    var i :| 0 <= i < |rows| && rows[i] == r;
    assert Sse.EventsOf(rows)[i] == Sse.EventOf(r);
  }

  /** A client that has read everything and never lagged was shown, in order, the
      event of every row broadcast since it subscribed; and if it was there from
      the start, the event of every surviving row, provided the listener has caught
      up without errors and no lookup overtook one of them. */
  lemma ClientSeesTheTable(w0: EventLog.World, steps: seq<EventLog.Step>, h0: Sse.Hub, hops: seq<Sse.Step>, c: nat)
    requires EventLog.Init(w0) && EventLog.CanRun(w0, steps) && Sse.Init(h0) && Sse.CanRun(h0, hops)
    requires Feeds(EventLog.RunOf(w0, steps), Sse.RunOf(h0, hops))
    requires c in Sse.RunOf(h0, hops).clients
    requires var client, sent := Sse.RunOf(h0, hops).clients[c], Sse.RunOf(h0, hops).sent;
      client.pos == |sent| && Sse.TotalSkipped(client.shown) == 0
    ensures var w, client := EventLog.RunOf(w0, steps), Sse.RunOf(h0, hops).clients[c];
      && client.start <= |w.l.broadcast|
      && Sse.Delivered(client.shown) == Sse.EventsOf(w.l.broadcast[client.start..])
    ensures var w, client := EventLog.RunOf(w0, steps), Sse.RunOf(h0, hops).clients[c];
      client.start == 0 && Guarantees.CaughtUp(w) && Guarantees.ErrorFree(w) && Guarantees.NoneOvertaken(w0, steps) ==>
        forall r :: r in EventLog.Visible(w) ==> Sse.EventOf(r) in Sse.Delivered(client.shown)
  {
    var w, h := EventLog.RunOf(w0, steps), Sse.RunOf(h0, hops);
    var client := h.clients[c];
    Sse.UnlaggedClient(h0, hops, c);
    assert Sse.Delivered(client.shown) == Sse.EventsOf(w.l.broadcast[client.start..]);
    if client.start == 0 && Guarantees.CaughtUp(w) && Guarantees.ErrorFree(w) && Guarantees.NoneOvertaken(w0, steps) {
      Guarantees.NothingIsLostExactly(w0, steps);
      assert w.l.broadcast[0..] == w.l.broadcast;
      forall r | r in EventLog.Visible(w) ensures Sse.EventOf(r) in Sse.Delivered(client.shown) {
        EventIsSent(w.l.broadcast, r);
      }
    }
  }

  /** Whatever failed on the way, such a client, there from the start, has been shown
      every surviving row the position has passed and no notification skipped. */
  lemma ClientMissesOnlySkipped(w0: EventLog.World, steps: seq<EventLog.Step>, h0: Sse.Hub, hops: seq<Sse.Step>,
                                c: nat, r: Row)
    requires EventLog.Init(w0) && EventLog.CanRun(w0, steps) && Sse.Init(h0) && Sse.CanRun(h0, hops)
    requires Feeds(EventLog.RunOf(w0, steps), Sse.RunOf(h0, hops))
    requires c in Sse.RunOf(h0, hops).clients
    requires var client, sent := Sse.RunOf(h0, hops).clients[c], Sse.RunOf(h0, hops).sent;
      client.start == 0 && client.pos == |sent| && Sse.TotalSkipped(client.shown) == 0
    requires r in EventLog.Visible(EventLog.RunOf(w0, steps)) && r.eventSeq <= EventLog.RunOf(w0, steps).l.lastSeen
    requires forall k: nat :: !Loss.SkippedAt(w0, steps, k, r)
    ensures Sse.SearchResult(r.title, r.url, r.snippet) in Sse.Delivered(Sse.RunOf(h0, hops).clients[c].shown)
  {
    var w := EventLog.RunOf(w0, steps);
    ClientSeesTheTable(w0, steps, h0, hops, c);
    Loss.LostExactlyWhenSkipped(w0, steps, r);
    assert w.l.broadcast[0..] == w.l.broadcast;
    EventIsSent(w.l.broadcast, r);
  }
}
