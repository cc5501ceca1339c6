/** A concrete run in which a bulk revocation does not see the row that a rotation
    under way is about to commit, so the condition of the main results is needed. */
module TokenWitnesses {
  import opened Prelude
  import opened Text
  import opened TokenFamilies
  import opened RefreshStore
  import opened TokenInterleaving
  import opened TokenRevocation

  lemma StepTo(ops: seq<Op>, s: State, op: Op, s': State) returns (longer: seq<Op>)
    requires CanRun(ops) && RunOf(ops) == s && Enabled(s, op) && Apply(s, op) == s'
    ensures longer == ops + [op] && CanRun(longer) && RunOf(longer) == s'
  {
    longer := ops + [op];
    assert longer[..|ops|] == ops;
  }

  const FIRST := Draw(1, 101)
  const SECOND := Draw(2, 102)
  const THIRD := Draw(3, 103)

  function Fresher(draw: Draw): TokenRow {
    NewRow(1, 1, draw.digest, 10, 0)
  }

  function Spent(draw: Draw, next: Draw): TokenRow {
    Fresher(draw).(revokedAt := Some(0), replacedBy := Some(next.jti))
  }

  /** Subject 1 has logged in and been given the first token. */
  function LoggedIn(): State {
    State(map[1 := Fresher(FIRST)], map[], {101}, {}, [])
  }

  lemma ReachLoggedIn() returns (ops: seq<Op>)
    ensures CanRun(ops) && RunOf(ops) == LoggedIn()
  {
    var pending := State(map[1 := Fresher(FIRST)], map[], {}, {1}, []);
    ops := StepTo([], START, Login(1, FIRST, 10, 0), pending);
    ops := StepTo(ops, pending, Issue(1), LoggedIn());
  }

  /** A rotation of token `d` has made its UPDATE and its INSERT. */
  function Open(s: State, d: Digest, j: Uuid, draw: Draw): State {
    With(s, Inserted(d, 0, j, draw, 10))
  }

  /** Transaction 0 is the only one open. */
  function With(s: State, x: Txn): State {
    s.(txns := map[0 := x])
  }

  lemma ReachOpen(start: seq<Op>, s: State, d: Digest, j: Uuid, draw: Draw) returns (ops: seq<Op>)
    requires CanRun(start) && RunOf(start) == s && s.txns == map[] && d in s.issued
    requires j in s.rows && IsActive(s.rows[j], d, 0) && Fresh(s, draw)
    ensures CanRun(ops) && RunOf(ops) == Open(s, d, j, draw)
  {
    hide CanRun, RunOf, InsertConflicts;
    var begun, waiting := With(s, Begun(d, 0)), With(s, Waiting(d, 0, j));
    var locked, updated := With(s, Locked(d, 0, j)), With(s, Updated(d, 0, j, draw));
    ops := StepTo(start, s, Begin(0, d, 0), begun);
    ops := StepTo(ops, begun, SelectActive(0, Some(j)), waiting);
    ops := StepTo(ops, waiting, LockActive(0), locked);
    ops := StepTo(ops, locked, Update(0, draw), updated);
    ops := StepTo(ops, updated, Insert(0, 10), Open(s, d, j, draw));
  }

  /** The first token has been exchanged for the second. */
  function Rotated(): State {
    State(map[1 := Spent(FIRST, SECOND), 2 := Fresher(SECOND)], map[], {101, 102}, {}, [101])
  }

  lemma ReachRotated() returns (ops: seq<Op>)
    ensures CanRun(ops) && RunOf(ops) == Rotated()
  {
    ops := ReachLoggedIn();
    ops := ReachOpen(ops, LoggedIn(), 101, 1, SECOND);
    ops := StepTo(ops, Open(LoggedIn(), 101, 1, SECOND), CommitRotation(0, true), Rotated());
  }

  /** Beside the rotation of the second token, transaction 1 does `x`. */
  function Beside(x: Txn): State {
    Rotated().(txns := map[0 := Inserted(102, 0, 2, THIRD, 10), 1 := x])
  }

  /** The snapshot of the revocation shows rows 1 and 2. */
  function Sweep(scope: Scope, targets: set<Uuid>): Txn {
    Sweeping(scope, 0, {1, 2}, targets, {})
  }

  lemma SnapshotIs(scope: Scope)
    requires scope == OfFamily(1) || scope == OfSubject(1)
    ensures Snapshot(Rotated(), scope, 0) == Sweep(scope, {2})
  {
    assert RowsInScope(Rotated().rows, scope) == {1, 2};
  }

  /** The rotation has committed, with its new row. */
  function Committed(scope: Scope, targets: set<Uuid>): State {
    State(map[1 := Spent(FIRST, SECOND), 2 := Spent(SECOND, THIRD), 3 := Fresher(THIRD)],
          map[1 := Sweep(scope, targets)], {101, 102, 103}, {}, [101, 102])
  }

  lemma RotationCommits(scope: Scope)
    ensures Enabled(Beside(Sweep(scope, {2})), CommitRotation(0, true))
    ensures Apply(Beside(Sweep(scope, {2})), CommitRotation(0, true)) == Committed(scope, {2})
  {
  }

  lemma NothingToMark(scope: Scope)
    ensures Enabled(Committed(scope, {2}), SweepRow(1, 2))
    ensures Apply(Committed(scope, {2}), SweepRow(1, 2)) == Committed(scope, {})
  {
    var none: set<Uuid> := {};
    assert {2} - {2} == none;
  }

  lemma NothingToRevoke(scope: Scope)
    ensures Enabled(Committed(scope, {}), CommitSweep(1))
    ensures var s := Apply(Committed(scope, {}), CommitSweep(1));
            s.txns == map[] && 3 in s.rows && s.rows[3] == Fresher(THIRD) && 103 in s.issued
  {
    var s := Apply(Committed(scope, {}), CommitSweep(1));
    assert s.txns == map[];
  }

  /** What a run must show: transaction 1 starts its revocation at step `at` and is about
      to commit it; afterwards nothing is open, and a row is unrevoked, unexpired and issued. */
  ghost predicate Escapes(ops: seq<Op>, at: nat, k: Uuid) {
    && CanRun(ops) && at < |ops| && Uninterrupted(ops, at, 1) && Enabled(RunOf(ops), CommitSweep(1))
    && var s := Apply(RunOf(ops), CommitSweep(1));
       s.txns == map[] && k in s.rows && s.rows[k].familyId == 1 && s.rows[k].subject == 1 &&
       IsActive(s.rows[k], s.rows[k].digest, 0) && s.rows[k].digest in s.issued
  }

  lemma Finish(start: seq<Op>, scope: Scope, at: nat) returns (ops: seq<Op>)
    requires CanRun(start) && RunOf(start) == Beside(Sweep(scope, {2})) && |start| == at + 1
    ensures Escapes(ops, at, 3) && ops[..at + 1] == start
  {
    RotationCommits(scope);
    NothingToMark(scope);
    NothingToRevoke(scope);
    hide Enabled, Apply, RunOf, CanRun;
    ops := StepTo(start, Beside(Sweep(scope, {2})), CommitRotation(0, true), Committed(scope, {2}));
    ops := StepTo(ops, Committed(scope, {2}), SweepRow(1, 2), Committed(scope, {}));
    assert ops == start + [CommitRotation(0, true), SweepRow(1, 2)];
  }

  /** The first token is presented again while the second is being rotated: the
      replay is refused and its revocation commits, yet the third token is active. */
  lemma ReplayCanMissARow() returns (ops: seq<Op>, at: nat)
    ensures Escapes(ops, at, 3) && ops[at] == StartRevoke(1)
  {
    ops := ReachRotated();
    ops := ReachOpen(ops, Rotated(), 102, 2, THIRD);
    SnapshotIs(OfFamily(1));
    hide CanRun, RunOf;
    ops := StepTo(ops, Open(Rotated(), 102, 2, THIRD), Begin(1, 101, 0), Beside(Begun(101, 0)));
    ops := StepTo(ops, Beside(Begun(101, 0)), SelectActive(1, None), Beside(Missed(101, 0)));
    ops := StepTo(ops, Beside(Missed(101, 0)), SelectAny(1, Some(1)), Beside(Known(101, 0, 1)));
    at := |ops|;
    ops := StepTo(ops, Beside(Known(101, 0, 1)), StartRevoke(1), Beside(Sweep(OfFamily(1), {2})));
    ops := Finish(ops, OfFamily(1), at);
  }

  /** The same with a logout of the subject. */
  lemma LogoutCanMissARow() returns (ops: seq<Op>, at: nat)
    ensures Escapes(ops, at, 3) && ops[at] == StartLogout(1, 1, 0)
  {
    ops := ReachRotated();
    ops := ReachOpen(ops, Rotated(), 102, 2, THIRD);
    SnapshotIs(OfSubject(1));
    hide CanRun, RunOf;
    at := |ops|;
    ops := StepTo(ops, Open(Rotated(), 102, 2, THIRD), StartLogout(1, 1, 0), Beside(Sweep(OfSubject(1), {2})));
    ops := Finish(ops, OfSubject(1), at);
  }
}
