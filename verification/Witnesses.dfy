/** Concrete runs showing that the conditions of the main results are needed. */
module Witnesses {
  import opened Prelude
  import opened Rows
  import opened EventLog
  import opened Delivery
  import opened Guarantees
  import opened SearchCache
  import opened CacheFreshness
  import Listener

  /** A database migrated while empty. */
  function Empty(): World {
    World(1, None, map[], [], {}, false, [], 0, 0, NoReply, Listener.START, [], {}, {}, {}, {}, 0, 0)
  }

  function Sample(n: nat, id: nat): Row
    requires id < 100
  {
    Row(id, "title", "url", "snippet", 0, n)
  }

  /** One more step of a run from the empty database. */
  lemma StepTo(steps: seq<Step>, w: World, s: Step, w': World) returns (longer: seq<Step>)
    requires CanRun(Empty(), steps) && RunOf(Empty(), steps) == w
    requires Enabled(w, s) && Apply(w, s) == w'
    ensures CanRun(Empty(), longer) && RunOf(Empty(), longer) == w'
  {
    RunSnoc(Empty(), steps, s);
    longer := steps + [s];
  }

  // ---- A reused id hides another row ----

  /** Connected, with nothing to replay. */
  function Listening(): World {
    Empty().(listening := true, l := Listener.START.(phase := Listener.Live))
  }

  /** On top of `w` one transaction is open. */
  function Writing(w: World, rows: seq<Row>, deletes: set<int>): World {
    w.(nextSeq := w.nextSeq + |rows|, lockHolder := if rows == [] then None else Some(0),
       open := map[0 := Txn(rows, deletes)])
  }

  /** Rows A and B are committed. */
  function Stored(): World {
    Listening().(nextSeq := 3, log := [Sample(1, 1), Sample(2, 2)], queue := [Note(0), Note(1)], heard := 2,
                 commitBumps := [0, 0])
  }

  /** A second transaction has deleted A and inserted C under its id. */
  function Written(): World {
    Listening().(nextSeq := 4, log := [Sample(1, 1), Sample(2, 2), Sample(3, 1)], deleted := {1},
                 queue := [Note(0), Note(1), Note(2)], heard := 3, commitBumps := [0, 0, 0])
  }

  function Waiting(): World {
    Empty().(listening := true, l := Listener.START.(phase := Listener.Replaying(0, false)))
  }

  lemma NothingToReplay()
    ensures Enabled(Empty(), Connect) && Apply(Empty(), Connect) == Waiting()
    ensures Enabled(Waiting(), FetchPage([]))
  {
    assert Visible(Waiting()) == {};
  }

  lemma NoneReplayed()
    ensures var w := Waiting().(reply := PageReply([])); Enabled(w, Deliver) && Apply(w, Deliver) == Listening()
  {
  }

  lemma ReachListening() returns (steps: seq<Step>)
    ensures CanRun(Empty(), steps) && RunOf(Empty(), steps) == Listening()
  {
    var w := Waiting().(reply := PageReply([]));
    NothingToReplay();
    NoneReplayed();
    hide Listener.React;
    steps := StepTo([], Empty(), Connect, Waiting());
    steps := StepTo(steps, Waiting(), FetchPage([]), w);
    steps := StepTo(steps, w, Deliver, Listening());
  }

  lemma InsertOne(w: World, rows: seq<Row>, deletes: set<int>, row: Row)
    requires w.open == map[] && w.lockHolder == None && row.eventSeq == w.nextSeq + |rows| <= MAX_BIGINT
    requires forall r :: r in w.log + rows && r.id == row.id ==> r.eventSeq in w.deleted || r.eventSeq in deletes
    requires forall r :: r in rows ==> r.id != row.id
    ensures Enabled(Writing(w, rows, deletes), Insert(0, row))
    ensures Apply(Writing(w, rows, deletes), Insert(0, row)) == Writing(w, rows + [row], deletes)
  {
  }

  lemma CommitFirst()
    ensures Enabled(Writing(Listening(), [Sample(1, 1), Sample(2, 2)], {}), Commit(0))
    ensures Apply(Writing(Listening(), [Sample(1, 1), Sample(2, 2)], {}), Commit(0)) == Stored()
  {
    var w' := CommitTxn(Writing(Listening(), [Sample(1, 1), Sample(2, 2)], {}), 0);
    assert Notes(0, 2) == [Note(0), Note(1)];
    assert w'.log == Stored().log && w'.queue == Stored().queue;
    assert w'.commitBumps == [0, 0] && w'.open == map[];
  }

  lemma CommitSecond()
    ensures Enabled(Writing(Stored(), [Sample(3, 1)], {1}), Commit(0))
    ensures Apply(Writing(Stored(), [Sample(3, 1)], {1}), Commit(0)) == Written()
  {
    var w' := CommitTxn(Writing(Stored(), [Sample(3, 1)], {1}), 0);
    assert Notes(2, 1) == [Note(2)];
    assert w'.log == Written().log && w'.queue == Written().queue;
    assert w'.commitBumps == [0, 0, 0] && w'.open == map[];
  }

  lemma ReachTwoRows() returns (steps: seq<Step>)
    ensures CanRun(Empty(), steps) && RunOf(Empty(), steps) == Stored()
  {
    var a, b := Sample(1, 1), Sample(2, 2);
    steps := ReachListening();
    steps := StepTo(steps, Listening(), Begin(0), Writing(Listening(), [], {}));
    InsertOne(Listening(), [], {}, a);
    InsertOne(Listening(), [a], {}, b);
    assert [] + [a] == [a] && [a] + [b] == [a, b];
    steps := StepTo(steps, Writing(Listening(), [], {}), Insert(0, a), Writing(Listening(), [a], {}));
    steps := StepTo(steps, Writing(Listening(), [a], {}), Insert(0, b), Writing(Listening(), [a, b], {}));
    CommitFirst();
    steps := StepTo(steps, Writing(Listening(), [a, b], {}), Commit(0), Stored());
  }

  lemma DeleteFirst()
    ensures var w := Writing(Stored(), [], {});
      Enabled(w, Delete(0, 1)) && Apply(w, Delete(0, 1)) == Writing(Stored(), [], {1})
  {
    var none: set<int> := {};
    assert Sample(1, 1) in Visible(Writing(Stored(), [], none)) && none + {1} == {1};
  }

  lemma ReachWritten() returns (steps: seq<Step>)
    ensures CanRun(Empty(), steps) && RunOf(Empty(), steps) == Written()
  {
    var c := Sample(3, 1);
    steps := ReachTwoRows();
    steps := StepTo(steps, Stored(), Begin(0), Writing(Stored(), [], {}));
    DeleteFirst();
    steps := StepTo(steps, Writing(Stored(), [], {}), Delete(0, 1), Writing(Stored(), [], {1}));
    InsertOne(Stored(), [], {1}, c);
    assert [] + [c] == [c];
    steps := StepTo(steps, Writing(Stored(), [], {1}), Insert(0, c), Writing(Stored(), [c], {1}));
    CommitSecond();
    steps := StepTo(steps, Writing(Stored(), [c], {1}), Commit(0), Written());
  }

  /** The listener after C has gone out. */
  function Jumped(queue: seq<Note>): World {
    Written().(queue := queue, overtaken := {1, 2},
               l := Listening().l.(broadcast := [Sample(3, 1)], bumps := 1, lastSeen := 3))
  }

  /** The notification of A resolves to C. */
  function Resolved(): World {
    Written().(queue := [Note(1), Note(2)], reply := LookupReply(0, Listener.Found(Sample(3, 1))))
  }

  lemma TakeFirst()
    ensures Enabled(Written(), TakeNote(Listener.Found(Sample(3, 1))))
    ensures Apply(Written(), TakeNote(Listener.Found(Sample(3, 1)))) == Resolved()
  {
    assert Sample(3, 1) in Visible(Written());
  }

  lemma PassedRows()
    ensures PassedOver(Resolved(), 0, Listener.Found(Sample(3, 1))) == {1, 2}
  {
    var between := PassedOver(Resolved(), 0, Listener.Found(Sample(3, 1)));
    assert Sample(1, 1) in Resolved().log && Sample(2, 2) in Resolved().log;
    assert 1 in between && 2 in between;
  }

  /** The position jumps past B. */
  lemma Jump()
    ensures Enabled(Resolved(), Deliver) && Apply(Resolved(), Deliver) == Jumped([Note(1), Note(2)])
  {
    hide PassedOver;
    PassedRows();
    var none: set<int> := {};
    assert none + {1, 2} == {1, 2};
  }

  lemma ReachJumped() returns (steps: seq<Step>)
    ensures CanRun(Empty(), steps) && RunOf(Empty(), steps) == Jumped([Note(1), Note(2)])
  {
    steps := ReachWritten();
    TakeFirst();
    Jump();
    steps := StepTo(steps, Written(), TakeNote(Listener.Found(Sample(3, 1))), Resolved());
    steps := StepTo(steps, Resolved(), Deliver, Jumped([Note(1), Note(2)]));
  }

  /** The notification at the head of the queue is suppressed. */
  lemma Suppress(steps: seq<Step>, at: nat, queue: seq<Note>) returns (longer: seq<Step>)
    requires (at == 1 || at == 2) && queue != [] && queue[0] == Note(at)
    requires CanRun(Empty(), steps) && RunOf(Empty(), steps) == Jumped(queue)
    ensures CanRun(Empty(), longer) && RunOf(Empty(), longer) == Jumped(queue[1..])
  {
    var lookup := Listener.Found(Written().log[at]);
    var w, w' := Jumped(queue), Jumped(queue[1..]).(reply := LookupReply(at, lookup));
    assert w.log[at] in Visible(w);
    longer := StepTo(steps, w, TakeNote(lookup), w');
    longer := StepTo(longer, w', Deliver, Jumped(queue[1..]));
  }

  /** Without any error, B ends up visible, passed, and never broadcast. */
  lemma ReusedIdHidesRow() returns (steps: seq<Step>, lost: Row)
    ensures Init(Empty()) && CanRun(Empty(), steps)
    ensures var w := RunOf(Empty(), steps);
      && ErrorFree(w) && CaughtUp(w) && ReusesId(w.log)
      && lost in Visible(w) && lost.eventSeq <= w.l.lastSeen && lost !in w.l.broadcast
  {
    steps := ReachJumped();
    steps := Suppress(steps, 1, [Note(1), Note(2)]);
    assert [Note(1), Note(2)][1..] == [Note(2)] && [Note(2)][1..] == [];
    steps := Suppress(steps, 2, [Note(2)]);
    lost := Sample(2, 2);
    assert SharesId(Jumped([]).log, Sample(1, 1), Sample(3, 1));
    assert lost in Visible(Jumped([]));
  }

  // ---- A reconnect inside the client library ----

  /** The connection has died, and row A was committed before anybody noticed. */
  function Unnoticed(): World {
    Listening().(listening := false, nextSeq := 2, log := [Sample(1, 1)], commitBumps := [0])
  }

  lemma CommitUnnoticed()
    ensures var dead := Listening().(listening := false);
      && Enabled(Writing(dead, [Sample(1, 1)], {}), Commit(0))
      && Apply(Writing(dead, [Sample(1, 1)], {}), Commit(0)) == Unnoticed()
  {
    var w' := CommitTxn(Writing(Listening().(listening := false), [Sample(1, 1)], {}), 0);
    assert w'.log == [Sample(1, 1)] && w'.commitBumps == [0] && w'.open == map[];
  }

  lemma ReachUnnoticed() returns (steps: seq<Step>)
    ensures CanRun(Empty(), steps) && RunOf(Empty(), steps) == Unnoticed()
  {
    var dead, a := Listening().(listening := false), Sample(1, 1);
    steps := ReachListening();
    steps := StepTo(steps, Listening(), ConnectionDies, dead);
    steps := StepTo(steps, dead, Begin(0), Writing(dead, [], {}));
    InsertOne(dead, [], {}, a);
    assert [] + [a] == [a];
    steps := StepTo(steps, Writing(dead, [], {}), Insert(0, a), Writing(dead, [a], {}));
    CommitUnnoticed();
    steps := StepTo(steps, Writing(dead, [a], {}), Commit(0), Unnoticed());
  }

  /** A new connection listens; nothing was reported. */
  function Reopened(): World {
    Unnoticed().(listening := true, listenedAt := 1, heard := 1, dropped := {1})
  }

  lemma Reopen()
    ensures Enabled(Unnoticed(), SilentReconnect) && Apply(Unnoticed(), SilentReconnect) == Reopened()
  {
    assert Unnoticed().log[0..] == Unnoticed().log && Sample(1, 1) in Unnoticed().log;
    assert Unreceived(Unnoticed()) == {1};
  }

  /** Row B is committed and announced. */
  function Announced(queue: seq<Note>): World {
    Reopened().(nextSeq := 3, log := [Sample(1, 1), Sample(2, 2)], commitBumps := [0, 0], queue := queue, heard := 2)
  }

  lemma CommitAnnounced()
    ensures Enabled(Writing(Reopened(), [Sample(2, 2)], {}), Commit(0))
    ensures Apply(Writing(Reopened(), [Sample(2, 2)], {}), Commit(0)) == Announced([Note(1)])
  {
    var w' := CommitTxn(Writing(Reopened(), [Sample(2, 2)], {}), 0);
    assert Notes(1, 1) == [Note(1)];
    assert w'.log == [Sample(1, 1), Sample(2, 2)] && w'.queue == [Note(1)];
    assert w'.commitBumps == [0, 0] && w'.open == map[];
  }

  lemma ReachAnnounced() returns (steps: seq<Step>)
    ensures CanRun(Empty(), steps) && RunOf(Empty(), steps) == Announced([Note(1)])
  {
    var b := Sample(2, 2);
    steps := ReachUnnoticed();
    Reopen();
    steps := StepTo(steps, Unnoticed(), SilentReconnect, Reopened());
    steps := StepTo(steps, Reopened(), Begin(0), Writing(Reopened(), [], {}));
    InsertOne(Reopened(), [], {}, b);
    assert [] + [b] == [b];
    steps := StepTo(steps, Writing(Reopened(), [], {}), Insert(0, b), Writing(Reopened(), [b], {}));
    CommitAnnounced();
    steps := StepTo(steps, Writing(Reopened(), [b], {}), Commit(0), Announced([Note(1)]));
  }

  function Delivered(): World {
    Announced([]).(l := Listening().l.(broadcast := [Sample(2, 2)], bumps := 1, lastSeen := 2))
  }

  function Found(): World {
    Announced([]).(reply := LookupReply(1, Listener.Found(Sample(2, 2))))
  }

  lemma TakeAnnounced()
    ensures Enabled(Announced([Note(1)]), TakeNote(Listener.Found(Sample(2, 2))))
    ensures Apply(Announced([Note(1)]), TakeNote(Listener.Found(Sample(2, 2)))) == Found()
  {
    assert Sample(2, 2) in Visible(Announced([Note(1)]));
    assert [Note(1)][1..] == [];
  }

  lemma DeliverAnnounced()
    ensures Enabled(Found(), Deliver) && Apply(Found(), Deliver) == Delivered()
  {
  }

  /** No query fails, nothing is slept, no id is used twice, and the listener has
      caught up; yet row A is visible, passed, and was never broadcast. */
  lemma SilentReconnectHidesRow() returns (steps: seq<Step>, lost: Row)
    ensures Init(Empty()) && CanRun(Empty(), steps)
    ensures var w := RunOf(Empty(), steps);
      && CaughtUp(w) && w.replayErrors == 0 && w.failedLookups == {} && w.l.sleeps == [] && !ReusesId(w.log)
      && lost in Visible(w) && lost.eventSeq <= w.l.lastSeen && lost !in w.l.broadcast
  {
    lost := Sample(1, 1);
    steps := ReachAnnounced();
    TakeAnnounced();
    DeliverAnnounced();
    steps := StepTo(steps, Announced([Note(1)]), TakeNote(Listener.Found(Sample(2, 2))), Found());
    steps := StepTo(steps, Found(), Deliver, Delivered());
    assert Delivered().log[0] == lost;
  }

  // ---- A late stamp keeps a stale answer alive ----

  /** One row committed before the first connect and delivered by replay. */
  function Replayed(): World {
    Empty().(nextSeq := 2, log := [Sample(1, 1)], commitBumps := [0],
             listening := true, listenedAt := 1, heard := 1,
             l := Listener.START.(phase := Listener.Live, broadcast := [Sample(1, 1)], bumps := 1, lastSeen := 1))
  }

  function Committed(): World {
    Empty().(nextSeq := 2, log := [Sample(1, 1)], commitBumps := [0])
  }

  lemma ReachCommitted() returns (steps: seq<Step>)
    ensures CanRun(Empty(), steps) && RunOf(Empty(), steps) == Committed()
  {
    var r := Sample(1, 1);
    var w1 := Empty().(open := map[0 := Txn([], {})]);
    var w2 := Empty().(nextSeq := 2, lockHolder := Some(0), open := map[0 := Txn([r], {})]);
    steps := StepTo([], Empty(), Begin(0), w1);
    assert [] + [r] == [r];
    steps := StepTo(steps, w1, Insert(0, r), w2);
    assert CommitTxn(w2, 0).log == [r] && CommitTxn(w2, 0).commitBumps == [0] && CommitTxn(w2, 0).open == map[];
    steps := StepTo(steps, w2, Commit(0), Committed());
  }

  function Backlogged(): World {
    Committed().(listening := true, listenedAt := 1, heard := 1,
                 l := Listener.START.(phase := Listener.Replaying(0, false)))
  }

  lemma OneToReplay()
    ensures Enabled(Committed(), Connect) && Apply(Committed(), Connect) == Backlogged()
    ensures Enabled(Backlogged(), FetchPage([Sample(1, 1)]))
  {
    assert Visible(Backlogged()) == {Sample(1, 1)};
  }

  lemma OneReplayed()
    ensures var w := Backlogged().(reply := PageReply([Sample(1, 1)]));
      Enabled(w, Deliver) && Apply(w, Deliver) == Replayed()
  {
  }

  lemma ReachReplayed() returns (steps: seq<Step>)
    ensures CanRun(Empty(), steps) && RunOf(Empty(), steps) == Replayed()
  {
    var page := [Sample(1, 1)];
    var w := Backlogged().(reply := PageReply(page));
    steps := ReachCommitted();
    OneToReplay();
    OneReplayed();
    hide Listener.React;
    steps := StepTo(steps, Committed(), Connect, Backlogged());
    steps := StepTo(steps, Backlogged(), FetchPage(page), w);
    steps := StepTo(steps, w, Deliver, Replayed());
  }

  lemma MoveTo(s0: System, moves: seq<Move>, s: System, m: Move, s': System) returns (longer: seq<Move>)
    requires CanMove(s0, moves) && AfterMoves(s0, moves) == s && Allowed(s, m) && Moved(s, m) == s'
    ensures CanMove(s0, longer) && AfterMoves(s0, longer) == s'
  {
    longer := moves + [m];
    assert longer[..|moves|] == moves;
  }

  lemma {:induction false} MoveOutside(s0: System, moves: seq<Move>, s: System, steps: seq<Step>)
    returns (longer: seq<Move>)
    requires CanMove(s0, moves) && AfterMoves(s0, moves) == s && CanRun(s.w, steps)
    ensures CanMove(s0, longer) && AfterMoves(s0, longer) == s.(w := RunOf(s.w, steps))
    decreases |steps|
  {
    longer := moves;
    if steps == [] {
    } else {
      var n := |steps| - 1;
      longer := MoveOutside(s0, moves, s, steps[..n]);
      var mid := s.(w := RunOf(s.w, steps[..n]));
      longer := MoveTo(s0, longer, mid, Outside(steps[n]), s.(w := RunOf(s.w, steps)));
    }
  }

  /** The answer returns the sample row once it is visible. */
  function AskSample(): Query {
    (q, table) => if Sample(1, 1) in table then [Sample(1, 1)] else []
  }

  function Searching(w: World, stage: Stage): System {
    System(w, map[], map[0 := Search("t", stage)], AskSample())
  }

  /** What the slow search made of its early, empty read. */
  const LateStamp: Stamped := Stamped(Entry([], 1), "t", {}, 0, 0, 1)

  /** Search 0 queries the empty table; a row is committed, delivered and the cache
      invalidated; only then does search 0 stamp and store its empty answer. */
  lemma ReachStored() returns (moves: seq<Move>)
    ensures var s0 := System(Empty(), map[], map[], AskSample());
      && CanMove(s0, moves)
      && AfterMoves(s0, moves) == Searching(Replayed(), Answered([])).(cache := map["t" := LateStamp])
  {
    var s0 := System(Empty(), map[], map[], AskSample());
    moves := MoveTo(s0, [], s0, Start(0, "t"), Searching(Empty(), Asked));
    moves := MoveTo(s0, moves, Searching(Empty(), Asked), Fetch(0), Searching(Empty(), Missed));
    assert Visible(Empty()) == {};
    moves := MoveTo(s0, moves, Searching(Empty(), Missed), QueryTable(0), Searching(Empty(), Read([], {}, 0, 0)));
    var steps := ReachReplayed();
    moves := MoveOutside(s0, moves, Searching(Empty(), Read([], {}, 0, 0)), steps);
    moves := MoveTo(s0, moves, Searching(Replayed(), Read([], {}, 0, 0)), LoadVersion(0),
                    Searching(Replayed(), Holding(LateStamp)));
    moves := MoveTo(s0, moves, Searching(Replayed(), Holding(LateStamp)), Store(0),
                    Searching(Replayed(), Answered([])).(cache := map["t" := LateStamp]));
  }

  /** So the qualification is needed: a later search is answered from the cache
      with no rows, although the row is visible and the listener has passed it. */
  lemma LateStampIsHit() returns (s0: System, moves: seq<Move>)
    ensures SystemInit(s0) && CanMove(s0, moves)
    ensures var s := AfterMoves(s0, moves);
      && Serves(s, 1, LateStamp) && LateStamp.entry.data == []
      && Sample(1, 1) in Visible(s.w) && Sample(1, 1).eventSeq <= s.w.l.lastSeen
      && s.ask("t", Visible(s.w)) == [Sample(1, 1)]
  {
    s0 := System(Empty(), map[], map[], AskSample());
    moves := ReachStored();
    var s := Searching(Replayed(), Answered([])).(cache := map["t" := LateStamp]);
    var s1 := s.(searches := s.searches[1 := Search("t", Asked)]);
    var s2 := s.(searches := s.searches[1 := Search("t", Fetched(LateStamp))]);
    moves := MoveTo(s0, moves, s, Start(1, "t"), s1);
    moves := MoveTo(s0, moves, s1, Fetch(1), s2);
    assert Sample(1, 1) in Visible(s2.w);
  }
}
