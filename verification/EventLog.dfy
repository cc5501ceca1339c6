/** `search_results` with its writers, and the listener that follows it, as one
    state machine. Writers hold the advisory lock of migration 004 from their
    first insert to the end of their transaction; commit publishes their rows and
    queues their notifications at once. A reply of the database to the listener
    is computed at one step and processed at a later one, with anything in between. */
module EventLog {
  import opened Prelude
  import opened Text
  import opened Paging
  import opened Rows
  import Listener

  const MAX_BIGINT: int := 0x7fff_ffff_ffff_ffff

  type TxnId = nat

  /** An open transaction: the rows it has inserted and the rows it has deleted. */
  datatype Txn = Txn(rows: seq<Row>, deletes: set<int>)

  /** A notification in the queue of the listening connection: `Note(i)` was sent
      by the insert trigger for the row `log[i]`, and its payload is that row's id. */
  datatype Note = Note(at: nat) | Malformed

  datatype Reply = NoReply | PageReply(rows: seq<Row>) | LookupReply(at: nat, lookup: Listener.Lookup)

  datatype World = World(
    nextSeq: int,               // what nextval returns next
    lockHolder: Option<TxnId>,  // the advisory lock
    open: map<TxnId, Txn>,
    log: seq<Row>,              // every row ever committed, in commit order
    deleted: set<int>,          // event_seq of the committed rows deleted since
    listening: bool,            // the LISTEN connection is up
    queue: seq<Note>,
    listenedAt: nat,            // |log| when the current LISTEN took effect
    heard: nat,                 // rows before this position have sent their notification
    reply: Reply,
    l: Listener.State,
    // History only; no step depends on what follows.
    commitBumps: seq<nat>,      // cache invalidations before each row's commit
    missed: set<int>,           // committed before a LISTEN whose replay failed before reaching them
    failedLookups: set<int>,    // rows whose own notification lookup failed
    overtaken: set<int>,        // passed over by a lookup that found a younger row under a reused id
    dropped: set<int>,          // notified on a connection that was replaced without an error
    replayErrors: nat,
    tornReplays: nat)           // failed replays that had already sent rows

  ghost function Visible(w: World): set<Row> {
    set r | r in w.log && r.eventSeq !in w.deleted
  }

  /** After migration 004: history numbered 1..n by (created_at, id), sequence at n + 1. */
  ghost predicate Init(w: World) {
    && (forall i :: 0 <= i < |w.log| ==> w.log[i].eventSeq == i + 1)
    && (forall i, j :: 0 <= i < j < |w.log| ==> Below(NewestFirst(w.log[j]), NewestFirst(w.log[i])))
    && (forall i, j :: 0 <= i < j < |w.log| ==> w.log[i].id != w.log[j].id)
    && w.nextSeq == |w.log| + 1
    && w.lockHolder == None && w.open == map[] && w.deleted == {}
    && !w.listening && w.queue == [] && w.listenedAt == w.heard == 0
    && w.reply == NoReply && w.l == Listener.START
    && |w.commitBumps| == |w.log| && (forall i :: 0 <= i < |w.log| ==> w.commitBumps[i] == 0)
    && w.missed == w.failedLookups == w.overtaken == w.dropped == {}
    && w.replayErrors == 0 && w.tornReplays == 0
  }

  datatype Step =
    | Begin(t: TxnId)
    | Insert(t: TxnId, row: Row)
    | InsertFails(t: TxnId)        // an error after nextval: the value is spent, the transaction gone
    | InsertSkipped(t: TxnId)      // ON CONFLICT DO NOTHING: the value is spent, nothing is stored
    | Delete(t: TxnId, eventSeq: int)
    | Commit(t: TxnId)
    | Rollback(t: TxnId)
    | ForeignNotify                // somebody else's unreadable payload on the channel
    | Connect
    | ConnectFails
    | ConnectionDies               // unnoticed by the listener until it receives an error
    | ReceiveFails
    | SilentReconnect              // the client library opens a new connection and reports nothing
    | ShutDown
    | FetchPage(rows: seq<Row>)
    | FetchFails
    | TakeNote(lookup: Listener.Lookup)
    | LookupFails
    | TakeMalformed
    | Deliver                      // the listener processes the reply

  /** The lock is free or already held by this transaction. */
  predicate LockGranted(w: World, t: TxnId) {
    w.lockHolder == None || w.lockHolder == Some(t)
  }

  /** The primary key: no row that `t` can still see carries this id. */
  predicate IdFree(w: World, t: TxnId, id: Uuid)
    requires t in w.open
  {
    && (forall r :: r in w.log && r.id == id ==> r.eventSeq in w.deleted || r.eventSeq in w.open[t].deletes)
    && (forall r :: r in w.open[t].rows && r.id == id ==> r.eventSeq in w.open[t].deletes)
  }

  /** `SELECT ... WHERE id = $1` against the committed table. */
  ghost predicate IsLookup(w: World, id: Uuid, lookup: Listener.Lookup) {
    match lookup
    case Found(row) => row in Visible(w) && row.id == id
    case Gone => forall r :: r in Visible(w) ==> r.id != id
    case _ => false
  }

  predicate Idle(w: World) { w.reply == NoReply }

  ghost predicate Enabled(w: World, s: Step) {
    match s
    case Begin(t) => t !in w.open
    case Insert(t, row) =>
      t in w.open && LockGranted(w, t) && row.eventSeq == w.nextSeq <= MAX_BIGINT && IdFree(w, t, row.id)
    case InsertFails(t) => t in w.open && LockGranted(w, t) && w.nextSeq <= MAX_BIGINT
    case InsertSkipped(t) => t in w.open && LockGranted(w, t) && w.nextSeq <= MAX_BIGINT
    case Delete(t, n) =>
      t in w.open && exists r :: (r in Visible(w) || r in w.open[t].rows) && r.eventSeq == n
    case Commit(t) => t in w.open
    case Rollback(t) => t in w.open
    case ForeignNotify => w.listening
    case Connect => Idle(w) && w.l.phase.Connecting?
    case ConnectFails => Idle(w) && w.l.phase.Connecting?
    case ConnectionDies => w.listening
    case ReceiveFails => Idle(w) && w.l.phase.Live?
    case SilentReconnect => Idle(w) && w.l.phase.Live? && !w.listening
    case ShutDown => Idle(w) && (w.l.phase.Connecting? || w.l.phase.Live?)
    case FetchPage(rows) =>
      Idle(w) && w.l.phase.Replaying? &&
      IsPage(Visible(w), BySeq, Some(Key(w.l.phase.cursor, 0)), Listener.RESYNC_BATCH_SIZE, rows)
    case FetchFails => Idle(w) && w.l.phase.Replaying?
    case TakeNote(lookup) =>
      Idle(w) && w.l.phase.Live? && w.queue != [] && w.queue[0].Note? && w.queue[0].at < |w.log| &&
      IsLookup(w, w.log[w.queue[0].at].id, lookup)
    case LookupFails =>
      Idle(w) && w.l.phase.Live? && w.queue != [] && w.queue[0].Note? && w.queue[0].at < |w.log|
    case TakeMalformed => Idle(w) && w.l.phase.Live? && w.queue != [] && w.queue[0].Malformed?
    case Deliver =>
      !Idle(w) && Listener.Expects(w.l.phase, AnswerOf(w.reply)) &&
      (w.reply.LookupReply? ==> w.reply.at < |w.log|)
  }

  function AnswerOf(reply: Reply): Listener.Answer
    requires reply != NoReply
  {
    match reply
    case PageReply(rows) => Listener.Page(rows)
    case LookupReply(_, lookup) => Listener.Notified(lookup)
  }

  function Notes(from: nat, n: nat): seq<Note> {
    seq(n, i requires 0 <= i < n => Note(from + i))
  }

  function EndTxn(w: World, t: TxnId): World {
    w.(open := w.open - {t}, lockHolder := if w.lockHolder == Some(t) then None else w.lockHolder)
  }

  function CommitTxn(w: World, t: TxnId): World
    requires t in w.open
  {
    var txn := w.open[t];
    var log := w.log + txn.rows;
    EndTxn(w, t).(
      log := log,
      deleted := w.deleted + txn.deletes,
      commitBumps := w.commitBumps + seq(|txn.rows|, i => w.l.bumps),
      queue := if w.listening then w.queue + Notes(|w.log|, |txn.rows|) else w.queue,
      heard := if w.listening then |log| else w.heard)
  }

  function Disconnect(w: World, l: Listener.State): World {
    w.(l := l, listening := false, queue := [])
  }

  /** Rows the connection's LISTEN came too late for and the failed replay did not reach. */
  ghost function Unreached(w: World, cursor: int): set<int> {
    set r | r in w.log[..Min(w.listenedAt, |w.log|)] && r.eventSeq > cursor :: r.eventSeq
  }

  /** Rows between the listener's position and a row found under another row's id. */
  ghost function PassedOver(w: World, at: nat, lookup: Listener.Lookup): set<int>
    requires at < |w.log|
  {
    if Listener.Forwards(w.l.lastSeen, lookup) && lookup.row != w.log[at] then
      set r | r in w.log && w.l.lastSeen < r.eventSeq < lookup.row.eventSeq :: r.eventSeq
    else {}
  }

  /** Rows whose notification the listener had yet to take when its connection was replaced. */
  ghost function Unreceived(w: World): set<int> {
    (set r | r in w.log && Notified(w, r) :: r.eventSeq) + (set r | r in w.log[Min(w.heard, |w.log|)..] :: r.eventSeq)
  }

  ghost predicate Notified(w: World, r: Row) {
    exists i :: 0 <= i < |w.log| && w.log[i] == r && Note(i) in w.queue
  }

  ghost function Apply(w: World, s: Step): World
    requires Enabled(w, s)
  {
    match s
    case Begin(t) => w.(open := w.open[t := Txn([], {})])
    case Insert(t, row) =>
      w.(nextSeq := w.nextSeq + 1, lockHolder := Some(t),
         open := w.open[t := w.open[t].(rows := w.open[t].rows + [row])])
    case InsertFails(t) => EndTxn(w, t).(nextSeq := w.nextSeq + 1)
    case InsertSkipped(t) => w.(nextSeq := w.nextSeq + 1, lockHolder := Some(t))
    case Delete(t, n) => w.(open := w.open[t := w.open[t].(deletes := w.open[t].deletes + {n})])
    case Commit(t) => CommitTxn(w, t)
    case Rollback(t) => EndTxn(w, t)
    case ForeignNotify => w.(queue := w.queue + [Malformed])
    case Connect =>
      w.(l := Listener.React(w.l, Listener.Connected), listening := true, queue := [],
         listenedAt := |w.log|, heard := |w.log|)
    case ConnectFails => Disconnect(w, Listener.React(w.l, Listener.ConnectFailed))
    case ConnectionDies => w.(listening := false)
    case ReceiveFails => Disconnect(w, Listener.React(w.l, Listener.ReceiveFailed))
    case SilentReconnect =>
      w.(listening := true, queue := [], listenedAt := |w.log|, heard := |w.log|, dropped := w.dropped + Unreceived(w))
    case ShutDown => Disconnect(w, Listener.React(w.l, Listener.ShutdownRequested))
    case FetchPage(rows) => w.(reply := PageReply(rows))
    case FetchFails =>
      w.(l := Listener.React(w.l, Listener.PageFailed), replayErrors := w.replayErrors + 1,
         tornReplays := w.tornReplays + if w.l.phase.replayedAny then 1 else 0,
         missed := w.missed + Unreached(w, w.l.phase.cursor))
    case TakeNote(lookup) => w.(reply := LookupReply(w.queue[0].at, lookup), queue := w.queue[1..])
    case LookupFails =>
      w.(l := Listener.React(w.l, Listener.Notified(Listener.LookupFailed)), queue := w.queue[1..],
         failedLookups := w.failedLookups + {w.log[w.queue[0].at].eventSeq})
    case TakeMalformed =>
      w.(l := Listener.React(w.l, Listener.Notified(Listener.BadPayload)), queue := w.queue[1..])
    case Deliver =>
      w.(l := Listener.React(w.l, AnswerOf(w.reply)), reply := NoReply,
         overtaken := w.overtaken +
           if w.reply.LookupReply? then PassedOver(w, w.reply.at, w.reply.lookup) else {})
  }

  // ---- Runs ----

  ghost predicate CanRun(w: World, steps: seq<Step>)
    decreases |steps|, 0
  {
    steps == [] ||
    (var n := |steps| - 1;
     CanRun(w, steps[..n]) && Enabled(RunOf(w, steps[..n]), steps[n]))
  }

  ghost function RunOf(w: World, steps: seq<Step>): World
    requires CanRun(w, steps)
    decreases |steps|, 1
  {
    if steps == [] then w
    else
      var n := |steps| - 1;
      Apply(RunOf(w, steps[..n]), steps[n])
  }

  lemma RunSnoc(w: World, steps: seq<Step>, s: Step)
    requires CanRun(w, steps) && Enabled(RunOf(w, steps), s)
    ensures CanRun(w, steps + [s]) && RunOf(w, steps + [s]) == Apply(RunOf(w, steps), s)
  {
    assert (steps + [s])[..|steps|] == steps;
  }

  lemma {:induction false} RunPrefix(w: World, steps: seq<Step>, n: nat)
    requires CanRun(w, steps) && n <= |steps|
    ensures CanRun(w, steps[..n])
    decreases |steps|
  {
    if n == |steps| {
      assert steps[..n] == steps;
    } else {
      var m := |steps| - 1;
      RunPrefix(w, steps[..m], n);
      assert steps[..m][..n] == steps[..n];
    }
  }

  /** A run is a shorter run followed by the rest of its steps. */
  lemma {:induction false} RunSplits(w: World, steps: seq<Step>, n: nat)
    requires CanRun(w, steps) && n <= |steps|
    ensures CanRun(w, steps[..n])
    ensures CanRun(RunOf(w, steps[..n]), steps[n..])
    ensures RunOf(RunOf(w, steps[..n]), steps[n..]) == RunOf(w, steps)
    decreases |steps|
  {
    hide Enabled, Apply;
    RunPrefix(w, steps, n);
    if n == |steps| {
      assert steps[..n] == steps;
      assert |steps[n..]| == 0;
    } else {
      var m := |steps| - 1;
      RunSplits(w, steps[..m], n);
      assert steps[..m][..n] == steps[..n];
      SliceOfPrefix(steps, n, m);
    }
  }

  lemma SliceOfPrefix(steps: seq<Step>, n: nat, m: nat)
    requires n <= m <= |steps|
    ensures steps[n..][..m - n] == steps[..m][n..]
  {
  }

  // ---- Sequence order is commit order ----

  ghost predicate LogInOrder(log: seq<Row>) {
    forall i, j :: 0 <= i < j < |log| ==> log[i].eventSeq < log[j].eventSeq
  }

  /** Rows of open transactions exist only under the lock, above everything committed. */
  ghost predicate OrderInv(w: World) {
    && w.nextSeq >= 1
    && LogInOrder(w.log)
    && (forall i :: 0 <= i < |w.log| ==> 1 <= w.log[i].eventSeq < w.nextSeq)
    && (forall t :: t in w.open && w.open[t].rows != [] ==> w.lockHolder == Some(t))
    && (forall t :: t in w.open ==> OpenRowsInOrder(w, w.open[t].rows))
  }

  ghost predicate OpenRowsInOrder(w: World, rows: seq<Row>) {
    && LogInOrder(rows)
    && (forall k :: 0 <= k < |rows| ==> 1 <= rows[k].eventSeq < w.nextSeq)
    && (forall i, k :: 0 <= i < |w.log| && 0 <= k < |rows| ==> w.log[i].eventSeq < rows[k].eventSeq)
  }

  lemma OrderInit(w: World)
    requires Init(w)
    ensures OrderInv(w)
  {
  }

  predicate IsWrite(s: Step) {
    s.Begin? || s.Insert? || s.InsertFails? || s.InsertSkipped? || s.Delete? || s.Commit? || s.Rollback?
  }

  predicate SameTables(w: World, w': World) {
    w'.nextSeq == w.nextSeq && w'.lockHolder == w.lockHolder && w'.open == w.open &&
    w'.log == w.log && w'.deleted == w.deleted
  }

  /** The listener only reads. */
  lemma OthersOnlyRead(w: World, s: Step)
    requires Enabled(w, s) && !IsWrite(s)
    ensures SameTables(w, Apply(w, s))
  {
  }

  lemma OrderStep(w: World, s: Step)
    requires OrderInv(w) && Enabled(w, s)
    ensures OrderInv(Apply(w, s))
  {
    if !IsWrite(s) {
      OthersOnlyRead(w, s);
      OrderUnchanged(w, Apply(w, s));
    } else if s.Insert? {
      OrderInsert(w, s.t, s.row);
    } else if s.Commit? {
      OrderCommit(w, s.t);
    } else {
      OrderOtherWrite(w, s);
    }
  }

  lemma OrderUnchanged(w: World, w': World)
    requires OrderInv(w) && SameTables(w, w')
    ensures OrderInv(w')
  {
    forall u | u in w'.open ensures OpenRowsInOrder(w', w'.open[u].rows) {
      assert OpenRowsInOrder(w, w.open[u].rows);
    }
  }

  lemma OrderInsert(w: World, t: TxnId, row: Row)
    requires OrderInv(w) && Enabled(w, Insert(t, row))
    ensures OrderInv(Apply(w, Insert(t, row)))
  {
    var w' := Apply(w, Insert(t, row));
    assert OpenRowsInOrder(w, w.open[t].rows);
    assert OpenRowsInOrder(w', w'.open[t].rows);
    forall u | u in w'.open && u != t ensures OpenRowsInOrder(w', w'.open[u].rows) {
      assert OpenRowsInOrder(w, w.open[u].rows);
    }
  }

  lemma OrderOtherWrite(w: World, s: Step)
    requires OrderInv(w) && Enabled(w, s)
    requires s.Begin? || s.Delete? || s.InsertFails? || s.InsertSkipped? || s.Rollback?
    ensures OrderInv(Apply(w, s))
  {
    var w' := Apply(w, s);
    assert w'.log == w.log && w'.nextSeq >= w.nextSeq;
    forall u | u in w'.open
      ensures OpenRowsInOrder(w', w'.open[u].rows)
      ensures w'.open[u].rows != [] ==> w'.lockHolder == Some(u)
    {
      assert u in w.open ==> w'.open[u].rows == w.open[u].rows && OpenRowsInOrder(w, w.open[u].rows);
      assert u !in w.open ==> w'.open[u].rows == [];
    }
  }

  lemma OrderCommit(w: World, t: TxnId)
    requires OrderInv(w) && t in w.open
    ensures OrderInv(CommitTxn(w, t))
  {
    var rows, w' := w.open[t].rows, CommitTxn(w, t);
    assert OpenRowsInOrder(w, rows);
    forall u | u in w'.open ensures OpenRowsInOrder(w', w'.open[u].rows) {
      assert OpenRowsInOrder(w, w.open[u].rows);
      if rows != [] {
        assert w.open[u].rows == [];
      } else {
        assert w'.log == w.log;
      }
    }
  }

  lemma {:induction false} OrderRun(w: World, steps: seq<Step>)
    requires OrderInv(w) && CanRun(w, steps)
    ensures OrderInv(RunOf(w, steps))
    decreases |steps|
  {
    if steps == [] {
    } else {
      var n := |steps| - 1;
      OrderRun(w, steps[..n]);
      OrderStep(RunOf(w, steps[..n]), steps[n]);
    }
  }

  lemma LogOnlyGrows(w: World, s: Step)
    requires OrderInv(w) && Enabled(w, s)
    ensures w.log <= Apply(w, s).log
    ensures w.deleted <= Apply(w, s).deleted
  {
  }

  lemma SeqIdentifiesRow(w: World, a: Row, b: Row)
    requires OrderInv(w) && a in w.log && b in w.log
    ensures a.eventSeq == b.eventSeq <==> a == b
  {
    var i :| 0 <= i < |w.log| && w.log[i] == a;
    var j :| 0 <= j < |w.log| && w.log[j] == b;
    assert i < j ==> w.log[i].eventSeq < w.log[j].eventSeq;
    assert j < i ==> w.log[j].eventSeq < w.log[i].eventSeq;
  }

  /** From any reachable state on, whatever commits later has a greater sequence
      number than everything committed so far: nothing ever becomes visible below
      a number already visible, gaps left by rollbacks included. */
  lemma {:induction false} CommitOrder(w: World, steps: seq<Step>)
    requires OrderInv(w) && CanRun(w, steps)
    ensures w.log <= RunOf(w, steps).log
    ensures LogInOrder(RunOf(w, steps).log)
    ensures forall i, j :: 0 <= i < |w.log| <= j < |RunOf(w, steps).log| ==>
              w.log[i].eventSeq < RunOf(w, steps).log[j].eventSeq
    decreases |steps|
  {
    OrderRun(w, steps);
    if steps == [] {
    } else {
      var n := |steps| - 1;
      CommitOrder(w, steps[..n]);
      OrderRun(w, steps[..n]);
      LogOnlyGrows(RunOf(w, steps[..n]), steps[n]);
    }
  }

  /** Backfilled history keeps its numbers 1..n and everything else comes after it. */
  lemma BackfillStaysBelow(w: World, steps: seq<Step>)
    requires Init(w) && CanRun(w, steps)
    ensures w.log <= RunOf(w, steps).log && forall i :: 0 <= i < |w.log| ==> w.log[i].eventSeq == i + 1
    ensures forall j :: |w.log| <= j < |RunOf(w, steps).log| ==> RunOf(w, steps).log[j].eventSeq > |w.log|
  {
    OrderInit(w);
    CommitOrder(w, steps);
    var log := RunOf(w, steps).log;
    OrderRun(w, steps);
    forall j | |w.log| <= j < |log| ensures log[j].eventSeq > |w.log| {
      if |w.log| > 0 {
        assert w.log[|w.log| - 1].eventSeq == |w.log|;
      }
    }
  }

  // ---- Ids ----

  /** Two rows with one id never coexist: the older is deleted before the younger is visible. */
  ghost predicate IdInv(w: World) {
    && (forall i, j :: 0 <= i < j < |w.log| && w.log[i].id == w.log[j].id ==> w.log[i].eventSeq in w.deleted)
    && (forall t :: t in w.open ==> OpenIds(w, w.open[t]))
  }

  ghost predicate OpenIds(w: World, txn: Txn) {
    && (forall i, k :: 0 <= i < |w.log| && 0 <= k < |txn.rows| && w.log[i].id == txn.rows[k].id ==>
          w.log[i].eventSeq in w.deleted || w.log[i].eventSeq in txn.deletes)
    && (forall i, k :: 0 <= i < k < |txn.rows| && txn.rows[i].id == txn.rows[k].id ==>
          txn.rows[i].eventSeq in txn.deletes)
  }

  lemma IdStep(w: World, s: Step)
    requires OrderInv(w) && IdInv(w) && Enabled(w, s)
    ensures IdInv(Apply(w, s))
  {
    if !IsWrite(s) {
      OthersOnlyRead(w, s);
      IdUnchanged(w, Apply(w, s));
    } else if s.Commit? {
      IdCommit(w, s.t);
    } else {
      IdOtherWrite(w, s);
    }
  }

  lemma IdUnchanged(w: World, w': World)
    requires IdInv(w) && SameTables(w, w')
    ensures IdInv(w')
  {
    forall u | u in w'.open ensures OpenIds(w', w'.open[u]) {
      assert OpenIds(w, w.open[u]);
    }
  }

  lemma IdOtherWrite(w: World, s: Step)
    requires IdInv(w) && Enabled(w, s) && IsWrite(s) && !s.Commit?
    ensures IdInv(Apply(w, s))
  {
    var w' := Apply(w, s);
    forall u | u in w'.open ensures OpenIds(w', w'.open[u]) {
      assert u in w.open ==> OpenIds(w, w.open[u]);
    }
  }

  lemma IdCommit(w: World, t: TxnId)
    requires OrderInv(w) && IdInv(w) && t in w.open
    ensures IdInv(CommitTxn(w, t))
  {
    var rows, w' := w.open[t].rows, CommitTxn(w, t);
    assert OpenIds(w, w.open[t]);
    forall u | u in w'.open ensures OpenIds(w', w'.open[u]) {
      assert OpenIds(w, w.open[u]);
      if rows == [] {
        assert w'.log == w.log;
      } else {
        assert w.open[u].rows == [];
      }
    }
  }
}
