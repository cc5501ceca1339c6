/** The broadcast channel, one SSE client stream, and the live page's window. */
module Sse {
  import opened Prelude
  import opened Rows

  datatype Event = Connected | SearchResult(title: string, url: string, snippet: string) | StreamLagged(skipped: nat)

  /** `broadcast_row` sends the row without its id and sequence number. */
  function EventOf(r: Row): Event {
    SearchResult(r.title, r.url, r.snippet)
  }

  function EventsOf(rows: seq<Row>): (events: seq<Event>)
    ensures |events| == |rows|
  {
    seq(|rows|, i requires 0 <= i < |rows| => EventOf(rows[i]))
  }

  /** A client: where it subscribed, the next message it will read, what it was shown. */
  datatype Client = Client(start: nat, pos: nat, shown: seq<Event>)

  /** The channel keeps the last `capacity` messages of `sent`. */
  datatype Hub = Hub(capacity: nat, sent: seq<Event>, clients: map<nat, Client>)

  datatype Step = Send(r: Row) | Subscribe(c: nat) | Poll(c: nat) | Leave(c: nat)

  function Oldest(h: Hub): nat {
    if |h.sent| <= h.capacity then 0 else |h.sent| - h.capacity
  }

  predicate Enabled(h: Hub, s: Step) {
    match s
    case Send(_) => true
    case Subscribe(c) => c !in h.clients
    case Poll(c) => c in h.clients && h.clients[c].pos < |h.sent|
    case Leave(c) => c in h.clients
  }

  /** A receiver that has fallen behind is told how much it lost and moved to the
      oldest message kept. */
  function PollClient(h: Hub, c: Client): Client
    requires c.pos < |h.sent|
  {
    if c.pos < Oldest(h) then
      Client(c.start, Oldest(h), c.shown + [StreamLagged(Oldest(h) - c.pos)])
    else
      Client(c.start, c.pos + 1, c.shown + [h.sent[c.pos]])
  }

  function Apply(h: Hub, s: Step): Hub
    requires Enabled(h, s)
  {
    match s
    case Send(r) => h.(sent := h.sent + [EventOf(r)])
    case Subscribe(c) => h.(clients := h.clients[c := Client(|h.sent|, |h.sent|, [Connected])])
    case Poll(c) => h.(clients := h.clients[c := PollClient(h, h.clients[c])])
    case Leave(c) => h.(clients := h.clients - {c})
  }

  predicate CanRun(h: Hub, steps: seq<Step>)
    decreases |steps|, 0
  {
    steps == [] ||
    (var n := |steps| - 1; CanRun(h, steps[..n]) && Enabled(RunOf(h, steps[..n]), steps[n]))
  }

  function RunOf(h: Hub, steps: seq<Step>): Hub
    requires CanRun(h, steps)
    decreases |steps|, 1
  {
    if steps == [] then h
    else
      var n := |steps| - 1;
      Apply(RunOf(h, steps[..n]), steps[n])
  }

  predicate Init(h: Hub) { h.sent == [] && h.clients == map[] }

  /** `shown` is what a reader sees that moves from `from` to `to`: each result is
      the next message, each lag notice jumps over as many messages as it says. */
  predicate Traces(shown: seq<Event>, sent: seq<Event>, from: nat, to: nat) {
    if shown == [] then from == to
    else
      var n := |shown| - 1;
      match shown[n]
      case Connected => false
      case StreamLagged(skipped) => skipped <= to && Traces(shown[..n], sent, from, to - skipped)
      case SearchResult(_, _, _) =>
        1 <= to <= |sent| && sent[to - 1] == shown[n] && Traces(shown[..n], sent, from, to - 1)
  }

  predicate ClientOk(h: Hub, c: Client) {
    && c.start <= c.pos <= |h.sent|
    && c.shown != [] && c.shown[0] == Connected
    && Traces(c.shown[1..], h.sent, c.start, c.pos)
  }

  predicate HubInv(h: Hub) {
    && (forall i :: 0 <= i < |h.sent| ==> h.sent[i].SearchResult?)
    && (forall c :: c in h.clients ==> ClientOk(h, h.clients[c]))
  }

  lemma {:induction false} TracesSurviveSend(shown: seq<Event>, sent: seq<Event>, e: Event, from: nat, to: nat)
    requires Traces(shown, sent, from, to)
    ensures Traces(shown, sent + [e], from, to)
  {
    if shown == [] {
    } else {
      var n := |shown| - 1;
      match shown[n]
      case StreamLagged(skipped) => TracesSurviveSend(shown[..n], sent, e, from, to - skipped);
      case SearchResult(_, _, _) => TracesSurviveSend(shown[..n], sent, e, from, to - 1);
    }
  }

  lemma PollKeepsClient(h: Hub, c: Client)
    requires ClientOk(h, c) && c.pos < |h.sent| && h.sent[c.pos].SearchResult?
    ensures ClientOk(h, PollClient(h, c))
  {
    var c' := PollClient(h, c);
    var last := c'.shown[|c.shown|];
    assert c'.shown[1..] == c.shown[1..] + [last];
    assert c'.shown[1..][..|c.shown| - 1] == c.shown[1..];
  }

  lemma StepKeepsInv(h: Hub, s: Step)
    requires HubInv(h) && Enabled(h, s)
    ensures HubInv(Apply(h, s))
  {
    match s
    case Send(r) =>
      forall c | c in h.clients ensures ClientOk(Apply(h, s), h.clients[c]) {
        assert ClientOk(h, h.clients[c]);
        TracesSurviveSend(h.clients[c].shown[1..], h.sent, EventOf(r), h.clients[c].start, h.clients[c].pos);
      }
    case Poll(c) => PollKeepsClient(h, h.clients[c]);
    case _ =>
  }

  lemma {:induction false} RunKeepsInv(h: Hub, steps: seq<Step>)
    requires Init(h) && CanRun(h, steps)
    ensures HubInv(RunOf(h, steps))
    decreases |steps|
  {
    if steps == [] {
    } else {
      RunKeepsInv(h, steps[..|steps| - 1]);
      StepKeepsInv(RunOf(h, steps[..|steps| - 1]), steps[|steps| - 1]);
    }
  }

  /** The results among what a client was shown. */
  function Delivered(shown: seq<Event>): seq<Event> {
    if shown == [] then []
    else
      var n := |shown| - 1;
      Delivered(shown[..n]) + if shown[n].SearchResult? then [shown[n]] else []
  }

  function TotalSkipped(shown: seq<Event>): nat {
    if shown == [] then 0
    else
      var n := |shown| - 1;
      TotalSkipped(shown[..n]) + if shown[n].StreamLagged? then shown[n].skipped else 0
  }

  /** `events` are, in order, the messages of `sent` at the places `at`, all in [from, to). */
  predicate Embeds(at: seq<nat>, events: seq<Event>, sent: seq<Event>, from: nat, to: nat) {
    && |at| == |events| && to <= |sent|
    && (forall k :: 0 <= k < |at| ==> from <= at[k] < to && sent[at[k]] == events[k])
    && (forall k, m :: 0 <= k < m < |at| ==> at[k] < at[m])
  }

  lemma EmbedsOneMore(at: seq<nat>, events: seq<Event>, sent: seq<Event>, from: nat, to: nat)
    requires from < to <= |sent| && Embeds(at, events, sent, from, to - 1)
    ensures Embeds(at + [to - 1], events + [sent[to - 1]], sent, from, to)
  {
  }

  lemma EmbedsNothing(sent: seq<Event>, from: nat, to: nat)
    requires to <= |sent|
    ensures Embeds([], [], sent, from, to)
  {
  }

  lemma EmbedsWiden(at: seq<nat>, events: seq<Event>, sent: seq<Event>, from: nat, to: nat, end: nat)
    requires to <= end <= |sent| && Embeds(at, events, sent, from, to)
    ensures Embeds(at, events, sent, from, end)
  {
  }

  lemma {:induction false} ConnectedOnce(shown: seq<Event>, sent: seq<Event>, from: nat, to: nat)
    requires Traces(shown, sent, from, to)
    ensures forall i :: 0 <= i < |shown| ==> shown[i] != Connected
  {
    if shown == [] {
    } else {
      var n := |shown| - 1;
      match shown[n]
      case StreamLagged(skipped) => ConnectedOnce(shown[..n], sent, from, to - skipped);
      case SearchResult(_, _, _) => ConnectedOnce(shown[..n], sent, from, to - 1);
    }
  }

  lemma {:induction false} TraceAccounts(shown: seq<Event>, sent: seq<Event>, from: nat, to: nat) returns (at: seq<nat>)
    requires Traces(shown, sent, from, to) && to <= |sent|
    ensures from <= to && |Delivered(shown)| + TotalSkipped(shown) == to - from
    ensures Embeds(at, Delivered(shown), sent, from, to)
  {
    hide Embeds;
    at := [];
    if shown == [] {
      assert Embeds(at, [], sent, from, to) by { EmbedsNothing(sent, from, to); }
    } else {
      var n := |shown| - 1;
      match shown[n]
      case StreamLagged(skipped) =>
        at := TraceAccounts(shown[..n], sent, from, to - skipped);
        assert Delivered(shown) == Delivered(shown[..n]);
        EmbedsWiden(at, Delivered(shown), sent, from, to - skipped, to);
      case SearchResult(_, _, _) =>
        at := TraceAccounts(shown[..n], sent, from, to - 1);
        EmbedsOneMore(at, Delivered(shown[..n]), sent, from, to);
        at := at + [to - 1];
    }
  }

  lemma {:induction false} UnlaggedTrace(shown: seq<Event>, sent: seq<Event>, from: nat, to: nat)
    requires Traces(shown, sent, from, to) && to <= |sent| && TotalSkipped(shown) == 0
    ensures from <= to && Delivered(shown) == sent[from..to]
  {
    if shown == [] {
    } else {
      var n := |shown| - 1;
      match shown[n]
      case StreamLagged(skipped) =>
        UnlaggedTrace(shown[..n], sent, from, to - skipped);
      case SearchResult(_, _, _) =>
        UnlaggedTrace(shown[..n], sent, from, to - 1);
        assert sent[from..to] == sent[from..to - 1] + [sent[to - 1]];
    }
  }

  lemma {:induction false} DeliveredAfterFirst(e: Event, shown: seq<Event>)
    requires e == Connected
    ensures Delivered([e] + shown) == Delivered(shown) && TotalSkipped([e] + shown) == TotalSkipped(shown)
  {
    var all := [e] + shown;
    if shown == [] {
      assert all[..0] == [];
    } else {
      var n := |shown| - 1;
      DeliveredAfterFirst(e, shown[..n]);
      assert all[..n + 1] == [e] + shown[..n];
    }
  }

  /** Each client is shown one `Connected`, then results sent after it subscribed,
      in order, each at most once; results plus skipped counts are exactly how far
      it has moved. */
  lemma ClientAccounting(h: Hub, steps: seq<Step>, c: nat) returns (at: seq<nat>)
    requires Init(h) && CanRun(h, steps) && c in RunOf(h, steps).clients
    ensures var client, sent := RunOf(h, steps).clients[c], RunOf(h, steps).sent;
      && client.start <= client.pos <= |sent|
      && client.shown != [] && client.shown[0] == Connected
      && (forall i :: 1 <= i < |client.shown| ==> client.shown[i] != Connected)
      && |Delivered(client.shown)| + TotalSkipped(client.shown) == client.pos - client.start
      && Embeds(at, Delivered(client.shown), sent, client.start, client.pos)
  {
    RunKeepsInv(h, steps);
    var client := RunOf(h, steps).clients[c];
    assert ClientOk(RunOf(h, steps), client);
    at := TraceAccounts(client.shown[1..], RunOf(h, steps).sent, client.start, client.pos);
    ConnectedOnce(client.shown[1..], RunOf(h, steps).sent, client.start, client.pos);
    assert client.shown == [Connected] + client.shown[1..];
    DeliveredAfterFirst(Connected, client.shown[1..]);
  }

  /** A client that was never told of a lag has been shown everything it moved past. */
  lemma UnlaggedClient(h: Hub, steps: seq<Step>, c: nat)
    requires Init(h) && CanRun(h, steps) && c in RunOf(h, steps).clients
    requires TotalSkipped(RunOf(h, steps).clients[c].shown) == 0
    ensures var client, sent := RunOf(h, steps).clients[c], RunOf(h, steps).sent;
      client.start <= client.pos <= |sent| && Delivered(client.shown) == sent[client.start..client.pos]
  {
    RunKeepsInv(h, steps);
    var client := RunOf(h, steps).clients[c];
    assert ClientOk(RunOf(h, steps), client);
    assert client.shown == [Connected] + client.shown[1..];
    DeliveredAfterFirst(Connected, client.shown[1..]);
    UnlaggedTrace(client.shown[1..], RunOf(h, steps).sent, client.start, client.pos);
  }

  // ---- When a client is told of a lag ----

  /** How many messages a client has yet to read. */
  function Behind(h: Hub, c: nat): int
    requires c in h.clients
  {
    |h.sent| - h.clients[c].pos
  }

  /** In every run: a poll shows a client that is at most `capacity` messages behind
      exactly the next message; one that is further behind is told how much it lost and
      left exactly `capacity` behind. */
  lemma PollShows(h0: Hub, steps: seq<Step>, c: nat)
    requires Init(h0) && CanRun(h0, steps) && Enabled(RunOf(h0, steps), Poll(c))
    ensures var h, h' := RunOf(h0, steps), Apply(RunOf(h0, steps), Poll(c));
      var before, after := h.clients[c], h'.clients[c];
      && h'.sent == h.sent && after.start == before.start
      && (Behind(h, c) <= h.capacity ==>
            after.shown == before.shown + [h.sent[before.pos]] && h.sent[before.pos].SearchResult? &&
            Behind(h', c) == Behind(h, c) - 1)
      && (Behind(h, c) > h.capacity ==>
            after.shown == before.shown + [StreamLagged(Behind(h, c) - h.capacity)] && Behind(h', c) == h.capacity)
  {
    RunKeepsInv(h0, steps);
  }

  /** At step `k` client `c` polls, more than `capacity` messages behind. */
  predicate LagsAt(h0: Hub, steps: seq<Step>, k: nat, c: nat) {
    && k < |steps| && steps[k] == Poll(c) && CanRun(h0, steps[..k])
    && c in RunOf(h0, steps[..k]).clients && Behind(RunOf(h0, steps[..k]), c) > RunOf(h0, steps[..k]).capacity
  }

  /** A client that never polls more than `capacity` messages behind is never told of a lag. */
  lemma {:induction false} NeverBehindNeverLags(h0: Hub, steps: seq<Step>, c: nat)
    requires Init(h0) && CanRun(h0, steps) && forall k :: 0 <= k < |steps| ==> !LagsAt(h0, steps, k, c)
    ensures c in RunOf(h0, steps).clients ==> TotalSkipped(RunOf(h0, steps).clients[c].shown) == 0
    decreases |steps|
  {
    if steps == [] {
    } else {
      var n := |steps| - 1;
      forall k | 0 <= k < n ensures !LagsAt(h0, steps[..n], k, c) {
        assert !LagsAt(h0, steps, k, c) && steps[..n][..k] == steps[..k];
      }
      NeverBehindNeverLags(h0, steps[..n], c);
      assert !LagsAt(h0, steps, n, c);
      if steps[n] == Poll(c) {
        PollShows(h0, steps[..n], c);
        var before, after := RunOf(h0, steps[..n]).clients[c], RunOf(h0, steps).clients[c];
        assert after.shown[..|after.shown| - 1] == before.shown;
      }
    }
  }

  // ---- Where a client starts, and what the channel carries ----

  function SentBy(steps: seq<Step>): seq<Row> {
    if steps == [] then []
    else
      var n := |steps| - 1;
      SentBy(steps[..n]) + if steps[n].Send? then [steps[n].r] else []
  }

  /** The channel has carried one event for each row sent, in order. */
  lemma {:induction false} ChannelCarriesRows(h0: Hub, steps: seq<Step>)
    requires Init(h0) && CanRun(h0, steps)
    ensures RunOf(h0, steps).sent == EventsOf(SentBy(steps)) && RunOf(h0, steps).capacity == h0.capacity
    decreases |steps|
  {
    if steps == [] {
    } else {
      ChannelCarriesRows(h0, steps[..|steps| - 1]);
    }
  }

  /** The latest subscription of `c` was step `k`. */
  predicate SubscribedAt(steps: seq<Step>, k: nat, c: nat) {
    && k < |steps| && steps[k] == Subscribe(c)
    && forall i :: k < i < |steps| ==> steps[i] != Leave(c) && steps[i] != Subscribe(c)
  }

  /** A client starts with the first message sent after it subscribed. */
  lemma {:induction false} StartsAtSubscription(h0: Hub, steps: seq<Step>, c: nat) returns (k: nat)
    requires Init(h0) && CanRun(h0, steps) && c in RunOf(h0, steps).clients
    ensures SubscribedAt(steps, k, c) && RunOf(h0, steps).clients[c].start == |SentBy(steps[..k])|
    decreases |steps|
  {
    var n := |steps| - 1;
    ChannelCarriesRows(h0, steps[..n]);
    if steps[n] == Subscribe(c) {
      k := n;
    } else {
      k := StartsAtSubscription(h0, steps[..n], c);
      assert steps[..n][..k] == steps[..k];
    }
  }

  // ---- The live page ----

  const WINDOW: nat := 200

  /** `apply_sse_event` on the page's deque. */
  class LiveFeed {
    var items: seq<Event>
    var connected: bool
    /** Every result received so far. */
    ghost var received: seq<Event>

    ghost predicate Valid()
      reads this
    {
      items == LastN(received, WINDOW)
    }

    constructor ()
      ensures Valid() && received == [] && !connected
    {
      items, connected, received := [], false, [];
    }

    /** The page shows exactly the last min(n, 200) of the n results it received. */
    method ApplySseEvent(event: Event)
      requires Valid()
      modifies this
      ensures Valid()
      ensures received == old(received) + if event.SearchResult? then [event] else []
      ensures items == if |received| <= 200 then received else received[|received| - 200..]
      ensures connected == (old(connected) || event.Connected?)
    {
      match event
      case Connected => connected := true;
      case SearchResult(_, _, _) =>
        if |items| >= WINDOW {
          items := items[1..];
        }
        items := items + [event];
        received := received + [event];
      case StreamLagged(_) =>
    }
  }
}
