/** Concurrent searches over the event log: when a cache hit can be stale.
    Every access of a search to shared state is a step of its own, so anything
    may happen between its lookup, its read of the table, and its insert. */
module CacheFreshness {
  import opened Rows
  import opened EventLog
  import opened Delivery
  import opened Guarantees
  import opened SearchCache

  /** A cached entry with its history: the table its query saw, how much had been
      committed and how often the cache had been invalidated at that moment, and
      the invalidations when it was stamped. Only `entry` is real. */
  datatype Stamped = Stamped(entry: Entry, query: string, seen: set<Row>, readAt: nat, readBumps: nat, stampBumps: nat)

  datatype Stage =
    | Asked
    | Fetched(hit: Stamped)      // entry taken from the cache, version not compared yet
    | Missed
    | Read(data: seq<Row>, seen: set<Row>, readAt: nat, readBumps: nat)
    | Holding(made: Stamped)     // version loaded, entry not stored yet
    | Served(answer: Stamped)    // answered from the cache
    | Answered(rows: seq<Row>)   // answered from the database
    | Failed

  datatype Search = Search(query: string, stage: Stage)

  type Query = (string, set<Row>) -> seq<Row>

  /** `ask` is the search query as a function of the normalized text and the visible rows. */
  datatype System = System(
    w: World,
    cache: map<string, Stamped>,
    searches: map<nat, Search>,
    ask: Query)

  function Version(s: System): nat { VersionAfter(s.w.l.bumps) }

  datatype Move =
    | Outside(step: Step)        // writers and the listener
    | Start(i: nat, query: string)
    | Fetch(i: nat)
    | Compare(i: nat)
    | QueryTable(i: nat)
    | QueryFails(i: nat)
    | LoadVersion(i: nat)
    | Store(i: nat)
    | Evict(query: string)       // expiry or capacity

  ghost predicate Allowed(s: System, m: Move) {
    match m
    case Outside(step) => EventLog.Enabled(s.w, step)
    case Start(i, _) => i !in s.searches
    case Fetch(i) => i in s.searches && s.searches[i].stage.Asked?
    case Compare(i) => i in s.searches && s.searches[i].stage.Fetched?
    case QueryTable(i) => i in s.searches && s.searches[i].stage.Missed?
    case QueryFails(i) => i in s.searches && s.searches[i].stage.Missed?
    case LoadVersion(i) => i in s.searches && s.searches[i].stage.Read?
    case Store(i) => i in s.searches && s.searches[i].stage.Holding?
    case Evict(_) => true
  }

  function Put(s: System, i: nat, stage: Stage): System
    requires i in s.searches
  {
    s.(searches := s.searches[i := s.searches[i].(stage := stage)])
  }

  ghost function Moved(s: System, m: Move): System
    requires Allowed(s, m)
  {
    match m
    case Outside(step) => s.(w := EventLog.Apply(s.w, step))
    case Start(i, query) => s.(searches := s.searches[i := Search(query, Asked)])
    case Fetch(i) =>
      var q := s.searches[i].query;
      Put(s, i, if q in s.cache then Fetched(s.cache[q]) else Missed)
    case Compare(i) =>
      var hit := s.searches[i].stage.hit;
      Put(s, i, if hit.entry.version == Version(s) then Served(hit) else Missed)
    case QueryTable(i) =>
      Put(s, i, Read(s.ask(s.searches[i].query, Visible(s.w)), Visible(s.w), |s.w.log|, s.w.l.bumps))
    case QueryFails(i) => Put(s, i, Failed)
    case LoadVersion(i) =>
      var r := s.searches[i].stage;
      var entry := Entry(r.data, Version(s));
      Put(s, i, Holding(Stamped(entry, s.searches[i].query, r.seen, r.readAt, r.readBumps, s.w.l.bumps)))
    case Store(i) =>
      var made := s.searches[i].stage.made;
      Put(s, i, Answered(made.entry.data)).(cache := s.cache[s.searches[i].query := made])
    case Evict(query) => s.(cache := s.cache - {query})
  }

  ghost predicate CanMove(s: System, moves: seq<Move>)
    decreases |moves|, 0
  {
    moves == [] ||
    (var n := |moves| - 1; CanMove(s, moves[..n]) && Allowed(AfterMoves(s, moves[..n]), moves[n]))
  }

  ghost function AfterMoves(s: System, moves: seq<Move>): System
    requires CanMove(s, moves)
    decreases |moves|, 1
  {
    if moves == [] then s
    else
      var n := |moves| - 1;
      Moved(AfterMoves(s, moves[..n]), moves[n])
  }

  ghost predicate SystemInit(s: System) {
    EventLog.Init(s.w) && s.cache == map[] && s.searches == map[]
  }

  // ---- Invariant ----

  /** A read that saw the table when `readAt` rows had committed, after `readBumps` bumps. */
  ghost predicate ReadOk(w: World, seen: set<Row>, readAt: nat, readBumps: nat) {
    && readAt <= |w.log| && readBumps <= w.l.bumps && |w.commitBumps| == |w.log|
    && (forall i :: 0 <= i < readAt && w.log[i].eventSeq !in w.deleted ==> w.log[i] in seen)
    && (forall r :: r in seen ==> r in w.log[..readAt])
    && (forall i :: readAt <= i < |w.log| ==> readBumps <= w.commitBumps[i])
  }

  ghost predicate StampedOk(w: World, ask: Query, b: Stamped) {
    && ReadOk(w, b.seen, b.readAt, b.readBumps)
    && b.readBumps <= b.stampBumps <= w.l.bumps
    && b.entry == Entry(ask(b.query, b.seen), VersionAfter(b.stampBumps))
  }

  ghost predicate SearchOk(w: World, ask: Query, search: Search) {
    match search.stage
    case Fetched(b) => StampedOk(w, ask, b) && b.query == search.query
    case Read(data, seen, readAt, readBumps) =>
      ReadOk(w, seen, readAt, readBumps) && data == ask(search.query, seen)
    case Holding(b) => StampedOk(w, ask, b) && b.query == search.query
    case Served(b) => StampedOk(w, ask, b) && b.query == search.query
    case _ => true
  }

  ghost predicate CacheOk(s: System) {
    && (forall q :: q in s.cache ==> StampedOk(s.w, s.ask, s.cache[q]) && s.cache[q].query == q)
    && (forall i :: i in s.searches ==> SearchOk(s.w, s.ask, s.searches[i]))
  }

  ghost predicate SystemInv(s: System) {
    Delivery.Inv(s.w) && BumpInv(s.w) && CacheOk(s)
  }

  /** How one step outside changes what a read of the table depends on. */
  ghost predicate Grew(w: World, w': World) {
    && w.log <= w'.log && w.deleted <= w'.deleted && w.l.bumps <= w'.l.bumps
    && |w'.commitBumps| == |w'.log| && w.commitBumps <= w'.commitBumps
    && (forall i :: |w.log| <= i < |w'.log| ==> w'.commitBumps[i] == w.l.bumps)
  }

  lemma StepGrows(w: World, step: Step)
    requires Delivery.Inv(w) && BumpInv(w) && EventLog.Enabled(w, step)
    ensures Grew(w, EventLog.Apply(w, step))
  {
    BumpStep(w, step);
    if !step.Commit? {
      NoCommitNoRows(w, step);
      LogOnlyGrows(w, step);
    }
  }

  lemma StampedSurvives(w: World, w': World, ask: Query, b: Stamped)
    requires Grew(w, w') && StampedOk(w, ask, b)
    ensures StampedOk(w', ask, b)
  {
  }

  lemma SearchSurvives(w: World, w': World, ask: Query, search: Search)
    requires Grew(w, w') && SearchOk(w, ask, search)
    ensures SearchOk(w', ask, search)
  {
    match search.stage
    case Fetched(b) => StampedSurvives(w, w', ask, b);
    case Holding(b) => StampedSurvives(w, w', ask, b);
    case Served(b) => StampedSurvives(w, w', ask, b);
    case _ =>
  }

  lemma CacheSurvives(s: System, w': World)
    requires Grew(s.w, w') && CacheOk(s)
    ensures CacheOk(s.(w := w'))
  {
    forall q | q in s.cache ensures StampedOk(w', s.ask, s.cache[q]) {
      StampedSurvives(s.w, w', s.ask, s.cache[q]);
    }
    forall i | i in s.searches ensures SearchOk(w', s.ask, s.searches[i]) {
      SearchSurvives(s.w, w', s.ask, s.searches[i]);
    }
  }

  lemma PutKeepsCache(s: System, i: nat, stage: Stage)
    requires CacheOk(s) && i in s.searches && SearchOk(s.w, s.ask, s.searches[i].(stage := stage))
    ensures CacheOk(Put(s, i, stage))
  {
  }

  lemma SearchKeepsCache(s: System, m: Move)
    requires CacheOk(s) && |s.w.commitBumps| == |s.w.log| && Allowed(s, m) && !m.Outside?
    ensures CacheOk(Moved(s, m)) && Moved(s, m).w == s.w
  {
    match m
    case Start(_, _) =>
    case Evict(_) =>
    case Store(i) => PutKeepsCache(s, i, Moved(s, m).searches[i].stage);
    case Fetch(i) => PutKeepsCache(s, i, Moved(s, m).searches[i].stage);
    case Compare(i) => PutKeepsCache(s, i, Moved(s, m).searches[i].stage);
    case QueryTable(i) => PutKeepsCache(s, i, Moved(s, m).searches[i].stage);
    case QueryFails(i) => PutKeepsCache(s, i, Failed);
    case LoadVersion(i) => PutKeepsCache(s, i, Moved(s, m).searches[i].stage);
  }

  lemma MoveKeepsInv(s: System, m: Move)
    requires SystemInv(s) && Allowed(s, m)
    ensures SystemInv(Moved(s, m))
  {
    if m.Outside? {
      InvStep(s.w, m.step);
      BumpStep(s.w, m.step);
      StepGrows(s.w, m.step);
      CacheSurvives(s, EventLog.Apply(s.w, m.step));
    } else {
      SearchKeepsCache(s, m);
    }
  }

  lemma {:induction false} MovesKeepInv(s: System, moves: seq<Move>)
    requires SystemInit(s) && CanMove(s, moves)
    ensures SystemInv(AfterMoves(s, moves))
    decreases |moves|
  {
    if moves == [] {
      InvInit(s.w);
      BumpRun(s.w, []);
    } else {
      var n := |moves| - 1;
      MovesKeepInv(s, moves[..n]);
      MoveKeepsInv(AfterMoves(s, moves[..n]), moves[n]);
    }
  }

  // ---- What a search is served ----

  /** The step compares versions, and search `i` is answered from the cache with `b`. */
  ghost predicate Serves(s: System, i: nat, b: Stamped) {
    Allowed(s, Compare(i)) && Moved(s, Compare(i)).searches[i].stage == Served(b)
  }

  lemma FetchedIsStamped(s0: System, moves: seq<Move>, i: nat)
    requires SystemInit(s0) && CanMove(s0, moves) && Allowed(AfterMoves(s0, moves), Compare(i))
    ensures var s := AfterMoves(s0, moves);
      StampedOk(s.w, s.ask, s.searches[i].stage.hit) && s.searches[i].stage.hit.query == s.searches[i].query
  {
    MovesKeepInv(s0, moves);
    var s := AfterMoves(s0, moves);
    assert SearchOk(s.w, s.ask, s.searches[i]);
  }

  /** In every run, the comparison serves the entry exactly when no invalidation came
      after its stamp, and otherwise the search goes on to the database. */
  lemma ServedExactlyWhenCurrent(s0: System, moves: seq<Move>, i: nat)
    requires SystemInit(s0) && CanMove(s0, moves) && Allowed(AfterMoves(s0, moves), Compare(i))
    requires AfterMoves(s0, moves).w.l.bumps < TWO64
    ensures var s := AfterMoves(s0, moves);
      var b, stage := s.searches[i].stage.hit, Moved(s, Compare(i)).searches[i].stage;
      && (b.stampBumps == s.w.l.bumps ==> stage == Served(b))
      && (b.stampBumps != s.w.l.bumps ==> stage == Missed)
  {
    FetchedIsStamped(s0, moves, i);
    var s := AfterMoves(s0, moves);
    VersionsAreDistinct(s.searches[i].stage.hit.stampBumps, s.w.l.bumps);
  }

  /** A lookup takes the entry stored under its query, if there is one. */
  lemma LookupTakesEntry(s: System, i: nat)
    requires Allowed(s, Fetch(i))
    ensures var query, stage := s.searches[i].query, Moved(s, Fetch(i)).searches[i].stage;
      && (stage.Missed? <==> query !in s.cache)
      && (query in s.cache ==> stage == Fetched(s.cache[query]))
  {
  }

  /** A search that missed is answered with the query's answer on the table it read, and
      that answer, stamped, is what later lookups of the query find. */
  lemma MissIsAnsweredByQuery(s0: System, moves: seq<Move>, i: nat)
    requires SystemInit(s0) && CanMove(s0, moves) && Allowed(AfterMoves(s0, moves), Store(i))
    ensures var s := AfterMoves(s0, moves);
      var query, made, s' := s.searches[i].query, s.searches[i].stage.made, Moved(s, Store(i));
      && s'.searches[i].stage == Answered(s.ask(query, made.seen))
      && query in s'.cache && s'.cache[query] == made && made.entry.data == s.ask(query, made.seen)
  {
    MovesKeepInv(s0, moves);
    var s := AfterMoves(s0, moves);
    assert SearchOk(s.w, s.ask, s.searches[i]);
  }

  /** Only a store adds an entry, under its own query, and only expiry or eviction takes
      one away; a failed query stores nothing and fails its search. */
  lemma OnlyStoreAndEvictTouchCache(s: System, m: Move, q: string)
    requires Allowed(s, m)
    ensures var s' := Moved(s, m);
      && (q in s'.cache <==> (q in s.cache && m != Evict(q)) || (m.Store? && s.searches[m.i].query == q))
      && (q in s'.cache ==>
            s'.cache[q] == if m.Store? && s.searches[m.i].query == q then s.searches[m.i].stage.made else s.cache[q])
    ensures m.QueryFails? ==> Moved(s, m).searches[m.i].stage == Failed
    ensures m.Start? ==> Moved(s, m).searches[m.i] == Search(m.query, Asked)
  {
  }

  // ---- Freshness ----

  /** The read of `b` came before the commit of `r`, and an invalidation that
      followed the commit came before the stamp. */
  ghost predicate CommitAndBumpBetween(w: World, b: Stamped, r: Row) {
    exists k :: b.readAt <= k < |w.log| && k < |w.commitBumps| && w.log[k] == r &&
      b.readBumps <= w.commitBumps[k] < b.stampBumps
  }

  /** An answer served from the cache misses a visible row that the listener has passed
      exactly when the row was committed after the answer's query and an invalidation
      that followed the commit fell before the stamp. */
  lemma StaleHitWasStampedLate(s0: System, moves: seq<Move>, i: nat, b: Stamped, r: Row)
    requires SystemInit(s0) && CanMove(s0, moves)
    requires var s := AfterMoves(s0, moves);
      Serves(s, i, b) && s.w.l.bumps < TWO64 && r in Visible(s.w) && r.eventSeq <= s.w.l.lastSeen
    ensures r !in b.seen <==> CommitAndBumpBetween(AfterMoves(s0, moves).w, b, r)
  {
    MovesKeepInv(s0, moves);
    FetchedIsStamped(s0, moves, i);
    ServedExactlyWhenCurrent(s0, moves, i);
    var s := AfterMoves(s0, moves);
    var k :| 0 <= k < |s.w.log| && s.w.log[k] == r;
    if r in b.seen {
      SeenWasCommitted(s.w, b, r);
    }
  }

  /** What a query saw was committed by then, at one place in the log. */
  lemma SeenWasCommitted(w: World, b: Stamped, r: Row)
    requires OrderInv(w) && ReadOk(w, b.seen, b.readAt, b.readBumps) && r in b.seen
    ensures !CommitAndBumpBetween(w, b, r)
  {
    assert r in w.log[..b.readAt];
    var m :| 0 <= m < b.readAt && w.log[m] == r;
    forall k | b.readAt <= k < |w.log| ensures w.log[k] != r {
      assert w.log[m].eventSeq < w.log[k].eventSeq;
    }
  }

  /** A search with no invalidation between its query and its stamp leaves an
      entry that, whenever it is served, is the query's answer on a table holding
      every visible row the listener has passed. */
  lemma PromptEntryIsFresh(s0: System, moves: seq<Move>, i: nat, b: Stamped)
    requires SystemInit(s0) && CanMove(s0, moves)
    requires var s := AfterMoves(s0, moves); Serves(s, i, b) && s.w.l.bumps < TWO64
    requires b.readBumps == b.stampBumps
    ensures var s := AfterMoves(s0, moves);
      && b.entry.data == s.ask(s.searches[i].query, b.seen)
      && forall r :: r in Visible(s.w) && r.eventSeq <= s.w.l.lastSeen ==> r in b.seen
  {
    FetchedIsStamped(s0, moves, i);
    ServedExactlyWhenCurrent(s0, moves, i);
    var s := AfterMoves(s0, moves);
    forall r | r in Visible(s.w) && r.eventSeq <= s.w.l.lastSeen ensures r in b.seen {
      StaleHitWasStampedLate(s0, moves, i, b, r);
      assert !CommitAndBumpBetween(s.w, b, r);
    }
  }
}
