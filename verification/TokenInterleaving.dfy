/** Rotations, family revocations, logouts and logins interleaved statement by
    statement under READ COMMITTED: each statement sees the rows committed when it
    starts, waits for the locks of the rows it changes, and then looks at their
    committed versions again. Uncommitted writes are visible to nobody else. */
module TokenInterleaving {
  import opened Prelude
  import opened Text
  import opened TokenFamilies
  import opened RefreshStore

  datatype Scope = OfFamily(f: Uuid) | OfSubject(subject: Uuid)

  /** How far a transaction has come. */
  datatype Txn =
    | Begun(d: Digest, now: Time)
    | Waiting(d: Digest, now: Time, j: Uuid)
    | Locked(d: Digest, now: Time, j: Uuid)
    | Updated(d: Digest, now: Time, j: Uuid, draw: Draw)
    | Inserted(d: Digest, now: Time, j: Uuid, draw: Draw, expiresAt: Time)
    | Missed(d: Digest, now: Time)
    | Known(d: Digest, now: Time, f: Uuid)
      /** A bulk UPDATE: `targets` are still to be locked, `marked` are locked and
          rewritten; `seen` are the rows of its scope that its snapshot shows and
          that have not been deleted since. */
    | Sweeping(scope: Scope, now: Time, seen: set<Uuid>, targets: set<Uuid>, marked: set<Uuid>)

  /** `rows` is what is committed; `wins` are the tokens that were exchanged. */
  datatype State = State(rows: Table, txns: map<nat, Txn>, issued: set<Digest>, pending: set<Uuid>, wins: seq<Digest>)

  datatype Op =
    | Begin(t: nat, d: Digest, now: Time)
    | SelectActive(t: nat, found: Option<Uuid>)
    | LockActive(t: nat)
    | Update(t: nat, draw: Draw)
    | Insert(t: nat, ttl: int)
    | CommitRotation(t: nat, heard: bool)
    | SelectAny(t: nat, found: Option<Uuid>)
    | StartRevoke(t: nat)
    | StartLogout(t: nat, subject: Uuid, now: Time)
    | SweepRow(t: nat, j: Uuid)
    | CommitSweep(t: nat)
    | Abort(t: nat)
    | Login(subject: Uuid, draw: Draw, expiresAt: Time, now: Time)
    | Issue(f: Uuid)
    | Abandon(f: Uuid)

  function Holds(x: Txn): set<Uuid> {
    match x
    case Locked(_, _, j) => {j}
    case Updated(_, _, j, _) => {j}
    case Inserted(_, _, j, _, _) => {j}
    case Sweeping(_, _, _, _, marked) => marked
    case _ => {}
  }

  /** No transaction but `t` holds the lock of row `j`. */
  predicate Free(s: State, t: Option<nat>, j: Uuid) {
    forall u :: u in s.txns && Some(u) != t ==> j !in Holds(s.txns[u])
  }

  predicate InScope(scope: Scope, row: TokenRow) {
    match scope
    case OfFamily(f) => row.familyId == f
    case OfSubject(subject) => row.subject == subject
  }

  /** The unique indexes look at committed rows and at inserts under way. */
  predicate Fresh(s: State, draw: Draw) {
    && !InsertConflicts(s.rows, draw.jti, draw.digest)
    && (forall u :: u in s.txns && s.txns[u].Inserted? ==> Differ(s.txns[u].draw, draw))
  }

  predicate Differ(a: Draw, b: Draw) {
    a.jti != b.jti && a.digest != b.digest
  }

  predicate FoundActive(rows: Table, d: Digest, now: Time, found: Option<Uuid>) {
    match found
    case Some(j) => j in rows && IsActive(rows[j], d, now)
    case None => forall j :: j in rows ==> !IsActive(rows[j], d, now)
  }

  predicate FoundAny(rows: Table, d: Digest, found: Option<Uuid>) {
    match found
    case Some(j) => j in rows && rows[j].digest == d
    case None => forall j :: j in rows ==> rows[j].digest != d
  }

  function RowsInScope(rows: Table, scope: Scope): set<Uuid> {
    set j | j in rows && InScope(scope, rows[j])
  }

  function Snapshot(s: State, scope: Scope, now: Time): Txn {
    var seen := RowsInScope(s.rows, scope);
    Sweeping(scope, now, seen, set j | j in seen && s.rows[j].revokedAt == None, {})
  }

  /** A deleted row is no longer waited for. */
  function Forget(x: Txn, f: Uuid): Txn {
    if x.Sweeping? then x.(seen := x.seen - {f}, targets := x.targets - {f}) else x
  }

  /** The row the bulk UPDATE has locked: is it still to be revoked? */
  predicate StillMatches(s: State, x: Txn, j: Uuid)
    requires x.Sweeping?
  {
    j in s.rows && InScope(x.scope, s.rows[j]) && s.rows[j].revokedAt == None
  }

  function Swept(rows: Table, marked: set<Uuid>, now: Time): Table {
    map j | j in rows :: Revoked(rows[j], j in marked, now)
  }

  predicate InPhase(s: State, op: Op) {
    match op
    case SelectActive(t, _) => t in s.txns && s.txns[t].Begun?
    case LockActive(t) => t in s.txns && s.txns[t].Waiting?
    case Update(t, _) => t in s.txns && s.txns[t].Locked?
    case Insert(t, _) => t in s.txns && s.txns[t].Updated?
    case CommitRotation(t, _) => t in s.txns && s.txns[t].Inserted? && s.txns[t].j in s.rows
    case SelectAny(t, _) => t in s.txns && s.txns[t].Missed?
    case StartRevoke(t) => t in s.txns && s.txns[t].Known?
    case SweepRow(t, _) => t in s.txns && s.txns[t].Sweeping?
    case CommitSweep(t) => t in s.txns && s.txns[t].Sweeping?
    case Issue(f) => f in s.pending && f in s.rows
    case _ => true
  }

  predicate Enabled(s: State, op: Op) {
    InPhase(s, op) &&
    match op
    case Begin(t, d, _) => t !in s.txns && d in s.issued
    case SelectActive(t, found) => FoundActive(s.rows, s.txns[t].d, s.txns[t].now, found)
    case LockActive(t) => Free(s, Some(t), s.txns[t].j)
    case Insert(t, ttl) => ttl > 0 && Fresh(s, s.txns[t].draw)
    case SelectAny(t, found) => FoundAny(s.rows, s.txns[t].d, found)
    case StartLogout(t, _, _) => t !in s.txns
    case SweepRow(t, j) => j in s.txns[t].targets && Free(s, Some(t), j)
    case CommitSweep(t) => s.txns[t].targets == {}
    case Abort(t) => t in s.txns
    case Login(subject, draw, _, _) => subject != NIL && Fresh(s, draw)
    case Abandon(f) => f in s.pending && Free(s, None, f)
    case _ => true
  }

  function Moved(s: State, t: nat, x: Txn): State {
    s.(txns := s.txns[t := x])
  }

  function Apply(s: State, op: Op): State
    requires InPhase(s, op)
  {
    match op
    case Begin(t, d, now) => Moved(s, t, Begun(d, now))
    case SelectActive(t, found) =>
      var x := s.txns[t];
      Moved(s, t, if found.Some? then Waiting(x.d, x.now, found.value) else Missed(x.d, x.now))
    case LockActive(t) =>
      var x := s.txns[t];
      var active := x.j in s.rows && IsActive(s.rows[x.j], x.d, x.now);
      Moved(s, t, if active then Locked(x.d, x.now, x.j) else Missed(x.d, x.now))
    case Update(t, draw) => var x := s.txns[t]; Moved(s, t, Updated(x.d, x.now, x.j, draw))
    case Insert(t, ttl) => var x := s.txns[t]; Moved(s, t, Inserted(x.d, x.now, x.j, x.draw, x.now + ttl))
    case CommitRotation(t, heard) =>
      var x := s.txns[t];
      State(Replace(s.rows, x.j, x.draw, x.expiresAt, x.now), s.txns - {t},
            if heard then s.issued + {x.draw.digest} else s.issued, s.pending, s.wins + [x.d])
    case SelectAny(t, found) =>
      var x := s.txns[t];
      if found.Some? && found.value in s.rows then Moved(s, t, Known(x.d, x.now, s.rows[found.value].familyId))
      else s.(txns := s.txns - {t})
    case StartRevoke(t) => Moved(s, t, Snapshot(s, OfFamily(s.txns[t].f), s.txns[t].now))
    case StartLogout(t, subject, now) => Moved(s, t, Snapshot(s, OfSubject(subject), now))
    case SweepRow(t, j) =>
      var x := s.txns[t];
      Moved(s, t, x.(targets := x.targets - {j}, marked := if StillMatches(s, x, j) then x.marked + {j} else x.marked))
    case CommitSweep(t) => s.(rows := Swept(s.rows, s.txns[t].marked, s.txns[t].now), txns := s.txns - {t})
    case Abort(t) => s.(txns := s.txns - {t})
    case Login(subject, draw, expiresAt, now) =>
      s.(rows := s.rows[draw.jti := NewRow(draw.jti, subject, draw.digest, expiresAt, now)],
         pending := s.pending + {draw.jti})
    case Issue(f) => s.(pending := s.pending - {f}, issued := s.issued + {s.rows[f].digest})
    case Abandon(f) =>
      s.(rows := s.rows - {f}, txns := map u | u in s.txns :: Forget(s.txns[u], f), pending := s.pending - {f})
  }

  // ---- The invariant ----

  predicate OneUnrevoked(rows: Table) {
    forall j, k :: j in rows && k in rows && BothUnrevoked(rows[j], rows[k]) ==> j == k
  }

  predicate BothUnrevoked(a: TokenRow, b: TokenRow) {
    a.familyId == b.familyId && a.revokedAt == None && b.revokedAt == None
  }

  predicate Rooted(rows: Table) {
    forall j {:trigger HasRoot(rows, j)} :: j in rows ==> HasRoot(rows, j)
  }

  predicate HasRoot(rows: Table, j: Uuid)
    requires j in rows
  {
    rows[j].familyId in rows && rows[rows[j].familyId].familyId == rows[j].familyId
  }

  ghost predicate RowsOk(rows: Table) {
    UniqueDigests(rows) && Rooted(rows) && OneUnrevoked(rows)
  }

  /** A locked row is unrevoked in the committed table. */
  predicate LockOk(rows: Table, j: Uuid) {
    j in rows && rows[j].revokedAt == None
  }

  predicate RotationOk(rows: Table, issued: set<Digest>, d: Digest, j: Uuid) {
    j in rows && rows[j].digest == d && d in issued
  }

  /** The family to be revoked is that of the presented token. */
  ghost predicate KnownOk(rows: Table, issued: set<Digest>, d: Digest, f: Uuid) {
    exists j :: RotationOk(rows, issued, d, j) && rows[j].familyId == f
  }

  /** The bulk UPDATE has not overlooked row `j`. */
  predicate SeenOk(rows: Table, x: Txn, j: Uuid)
    requires x.Sweeping?
  {
    && j in rows && InScope(x.scope, rows[j])
    && (rows[j].revokedAt.Some? || j in x.targets || j in x.marked)
  }

  ghost predicate TxnOk(rows: Table, issued: set<Digest>, x: Txn) {
    && (forall j :: j in Holds(x) ==> LockOk(rows, j))
    && (x.Begun? || x.Waiting? || x.Missed? || x.Known? ==> x.d in issued)
    && (x.Locked? || x.Updated? || x.Inserted? ==> RotationOk(rows, issued, x.d, x.j) && rows[x.j].expiresAt > x.now)
    && (x.Inserted? ==> !InsertConflicts(rows, x.draw.jti, x.draw.digest))
    && (x.Known? ==> KnownOk(rows, issued, x.d, x.f))
    && (x.Sweeping? ==> x.targets + x.marked <= x.seen && forall j :: j in x.seen ==> SeenOk(rows, x, j))
  }

  predicate Apart(x: Txn, y: Txn) {
    && (forall j :: j in Holds(x) ==> j !in Holds(y))
    && (x.Inserted? && y.Inserted? ==> Differ(x.draw, y.draw))
  }

  /** A login whose token was not returned is alone in its family. */
  predicate PendingOk(s: State, f: Uuid) {
    && f in s.rows && s.rows[f].familyId == f && s.rows[f].digest !in s.issued
    && (forall j :: j in s.rows && s.rows[j].familyId == f ==> j == f)
  }

  predicate HasRow(rows: Table, d: Digest) {
    exists j :: j in rows && rows[j].digest == d
  }

  /** An exchanged token was issued, and its row is revoked. */
  predicate WinOk(s: State, d: Digest) {
    d in s.issued && forall j :: j in s.rows && s.rows[j].digest == d ==> s.rows[j].revokedAt.Some?
  }

  predicate Distinct(wins: seq<Digest>) {
    forall k, l :: 0 <= k < l < |wins| ==> wins[k] != wins[l]
  }

  ghost predicate Inv(s: State) {
    && RowsOk(s.rows)
    && (forall t :: t in s.txns ==> TxnOk(s.rows, s.issued, s.txns[t]))
    && (forall t, u :: t in s.txns && u in s.txns && t != u ==> Apart(s.txns[t], s.txns[u]))
    && (forall f :: f in s.pending ==> PendingOk(s, f))
    && (forall d :: d in s.issued ==> HasRow(s.rows, d))
    && (forall d :: d in s.wins ==> WinOk(s, d))
    && Distinct(s.wins)
  }

  // ---- Steps that commit nothing ----

  lemma MoveKeepsInv(s: State, t: nat, x: Txn)
    requires Inv(s) && TxnOk(s.rows, s.issued, x)
    requires forall u :: u in s.txns && u != t ==> Apart(x, s.txns[u])
    ensures Inv(Moved(s, t, x))
  {
    var s' := Moved(s, t, x);
    forall u | u in s'.txns ensures TxnOk(s.rows, s.issued, s'.txns[u]) {
    }
    forall u, v | u in s'.txns && v in s'.txns && u != v ensures Apart(s'.txns[u], s'.txns[v]) {
      assert v in s.txns && v != t ==> Apart(x, s.txns[v]);
      assert u in s.txns && u != t ==> Apart(x, s.txns[u]);
    }
    hide TxnOk, RowsOk, Apart;
    forall f | f in s'.pending ensures PendingOk(s', f) {
      assert PendingOk(s, f);
    }
    forall d | d in s'.wins ensures WinOk(s', d) {
      assert WinOk(s, d);
    }
  }

  lemma DropKeepsInv(s: State, t: nat)
    requires Inv(s)
    ensures Inv(s.(txns := s.txns - {t}))
  {
    hide TxnOk, RowsOk, Apart;
    var s' := s.(txns := s.txns - {t});
    forall f | f in s'.pending ensures PendingOk(s', f) {
      assert PendingOk(s, f);
    }
    forall d | d in s'.wins ensures WinOk(s', d) {
      assert WinOk(s, d);
    }
  }

  lemma SnapshotIsOk(s: State, scope: Scope, now: Time)
    ensures TxnOk(s.rows, s.issued, Snapshot(s, scope, now))
  {
  }

  predicate IsRotateStep(op: Op) {
    op.Begin? || op.SelectActive? || op.LockActive? || op.Update? || op.Insert? || op.SelectAny?
  }

  lemma RotateStepIsOk(s: State, op: Op)
    requires Enabled(s, op) && IsRotateStep(op) && op.t in Apply(s, op).txns
    requires op.t in s.txns ==> TxnOk(s.rows, s.issued, s.txns[op.t])
    ensures TxnOk(s.rows, s.issued, Apply(s, op).txns[op.t])
  {
    if op.Insert? {
      hide InsertConflicts;
    }
  }

  lemma RotateStaysApart(s: State, op: Op, u: nat)
    requires Enabled(s, op) && IsRotateStep(op) && op.t in Apply(s, op).txns && u in s.txns && u != op.t
    requires op.t in s.txns ==> Apart(s.txns[op.t], s.txns[u])
    ensures Apart(Apply(s, op).txns[op.t], s.txns[u])
  {
  }

  lemma RotateStepsKeepInv(s: State, op: Op)
    requires Inv(s) && Enabled(s, op) && IsRotateStep(op)
    ensures Inv(Apply(s, op))
  {
    hide RowsOk, TxnOk, Apart, PendingOk, WinOk, Distinct, Free, FoundActive, FoundAny, Fresh;
    if op.t in Apply(s, op).txns {
      RotateStepIsOk(s, op);
      forall u | u in s.txns && u != op.t ensures Apart(Apply(s, op).txns[op.t], s.txns[u]) {
        RotateStaysApart(s, op, u);
      }
      MoveKeepsInv(s, op.t, Apply(s, op).txns[op.t]);
    } else {
      DropKeepsInv(s, op.t);
    }
  }

  lemma SweepRowIsOk(s: State, x: Txn, j: Uuid)
    requires x.Sweeping? && TxnOk(s.rows, s.issued, x) && j in x.targets
    ensures TxnOk(s.rows, s.issued,
                  x.(targets := x.targets - {j}, marked := if StillMatches(s, x, j) then x.marked + {j} else x.marked))
  {
    var x' := x.(targets := x.targets - {j}, marked := if StillMatches(s, x, j) then x.marked + {j} else x.marked);
    forall k | k in x'.seen ensures SeenOk(s.rows, x', k) {
      assert SeenOk(s.rows, x, k);
    }
  }

  lemma SweepStaysApart(s: State, op: Op, u: nat)
    requires Enabled(s, op) && (op.StartRevoke? || op.StartLogout? || op.SweepRow?) && u in s.txns && u != op.t
    requires op.t in s.txns ==> Apart(s.txns[op.t], s.txns[u])
    ensures Apart(Apply(s, op).txns[op.t], s.txns[u])
  {
  }

  lemma SweepStepsKeepInv(s: State, op: Op)
    requires Inv(s) && Enabled(s, op) && (op.StartRevoke? || op.StartLogout? || op.SweepRow?)
    ensures Inv(Apply(s, op))
  {
    hide RowsOk, TxnOk, Apart, PendingOk, WinOk, Distinct, Free, StillMatches;
    var x := Apply(s, op).txns[op.t];
    if op.SweepRow? {
      SweepRowIsOk(s, s.txns[op.t], op.j);
    } else {
      SnapshotIsOk(s, x.scope, x.now);
    }
    forall u | u in s.txns && u != op.t ensures Apart(x, s.txns[u]) {
      SweepStaysApart(s, op, u);
    }
    MoveKeepsInv(s, op.t, x);
  }

  // ---- Steps that commit ----

  /** Rows stay, keep what identifies them, and stay revoked. */
  predicate Persists(rows: Table, rows': Table) {
    forall j :: j in rows ==> j in rows' && SameIdentity(rows[j], rows'[j])
  }

  predicate SameIdentity(a: TokenRow, b: TokenRow) {
    && a.digest == b.digest && a.familyId == b.familyId && a.subject == b.subject && a.expiresAt == b.expiresAt
    && (a.revokedAt.Some? ==> b.revokedAt == a.revokedAt)
  }

  lemma KnownFrame(rows: Table, rows': Table, issued: set<Digest>, issued': set<Digest>, d: Digest, f: Uuid)
    requires KnownOk(rows, issued, d, f) && issued <= issued' && Persists(rows, rows')
    ensures KnownOk(rows', issued', d, f)
  {
    var j :| RotationOk(rows, issued, d, j) && rows[j].familyId == f;
    assert RotationOk(rows', issued', d, j);
  }

  /** A transaction does not notice a commit that leaves its own rows alone. */
  lemma TxnFrame(rows: Table, rows': Table, issued: set<Digest>, issued': set<Digest>, x: Txn)
    requires TxnOk(rows, issued, x) && issued <= issued' && Persists(rows, rows')
    requires forall j :: j in Holds(x) ==> j in rows' && rows'[j].revokedAt == None
    requires x.Inserted? ==> !InsertConflicts(rows', x.draw.jti, x.draw.digest)
    ensures TxnOk(rows', issued', x)
  {
    hide KnownOk, InsertConflicts;
    if x.Known? {
      KnownFrame(rows, rows', issued, issued', x.d, x.f);
    }
    if x.Sweeping? {
      forall j | j in x.seen ensures SeenOk(rows', x, j) {
        assert SeenOk(rows, x, j);
      }
    }
  }

  /** The deletion of a row whose token was never issued. */
  lemma TxnForgets(rows: Table, issued: set<Digest>, x: Txn, f: Uuid)
    requires TxnOk(rows, issued, x) && f in rows && f !in Holds(x) && rows[f].digest !in issued
    ensures TxnOk(rows - {f}, issued, Forget(x, f))
  {
    if x.Known? {
      var j :| RotationOk(rows, issued, x.d, j) && rows[j].familyId == x.f;
      assert RotationOk(rows - {f}, issued, x.d, j);
    }
    if x.Sweeping? {
      forall j | j in Forget(x, f).seen ensures SeenOk(rows - {f}, Forget(x, f), j) {
        assert SeenOk(rows, x, j);
      }
    }
  }

  lemma ReplaceIsUnrevokedOnce(rows: Table, j: Uuid, draw: Draw, expiresAt: Time, now: Time, a: Uuid, b: Uuid)
    requires OneUnrevoked(rows) && LockOk(rows, j) && draw.jti !in rows
    requires a in rows || a == draw.jti
    requires b in rows || b == draw.jti
    requires BothUnrevoked(Replace(rows, j, draw, expiresAt, now)[a], Replace(rows, j, draw, expiresAt, now)[b])
    ensures a == b
  {
    assert a in rows && a != j ==> !BothUnrevoked(rows[a], rows[j]);
    assert b in rows && b != j ==> !BothUnrevoked(rows[b], rows[j]);
    assert a in rows && b in rows && a != j && b != j ==> BothUnrevoked(rows[a], rows[b]);
  }

  lemma ReplaceIsUnique(rows: Table, j: Uuid, draw: Draw, expiresAt: Time, now: Time)
    requires UniqueDigests(rows) && j in rows && !InsertConflicts(rows, draw.jti, draw.digest)
    ensures UniqueDigests(Replace(rows, j, draw, expiresAt, now))
  {
  }

  lemma ReplaceIsRooted(rows: Table, j: Uuid, draw: Draw, expiresAt: Time, now: Time)
    requires Rooted(rows) && j in rows && draw.jti !in rows
    ensures Rooted(Replace(rows, j, draw, expiresAt, now))
  {
    var rows' := Replace(rows, j, draw, expiresAt, now);
    forall k | k in rows' ensures HasRoot(rows', k) {
      assert HasRoot(rows, if k == draw.jti then j else k);
    }
  }

  lemma ReplaceIsOk(rows: Table, j: Uuid, draw: Draw, expiresAt: Time, now: Time)
    requires RowsOk(rows) && LockOk(rows, j) && !InsertConflicts(rows, draw.jti, draw.digest)
    ensures RowsOk(Replace(rows, j, draw, expiresAt, now))
  {
    hide UniqueDigests, Rooted;
    ReplaceIsUnique(rows, j, draw, expiresAt, now);
    ReplaceIsRooted(rows, j, draw, expiresAt, now);
    var rows' := Replace(rows, j, draw, expiresAt, now);
    forall a, b | a in rows' && b in rows' && BothUnrevoked(rows'[a], rows'[b]) ensures a == b {
      ReplaceIsUnrevokedOnce(rows, j, draw, expiresAt, now, a, b);
    }
  }

  lemma ReplaceKeepsFree(rows: Table, j: Uuid, draw: Draw, expiresAt: Time, now: Time, other: Draw)
    requires j in rows && !InsertConflicts(rows, other.jti, other.digest)
    requires other.jti != draw.jti && other.digest != draw.digest
    ensures !InsertConflicts(Replace(rows, j, draw, expiresAt, now), other.jti, other.digest)
  {
  }

  lemma ReplacePersists(rows: Table, j: Uuid, draw: Draw, expiresAt: Time, now: Time)
    requires LockOk(rows, j) && !InsertConflicts(rows, draw.jti, draw.digest)
    ensures Persists(rows, Replace(rows, j, draw, expiresAt, now))
  {
  }

  /** The state after the commit of rotation `x`. */
  predicate Exchanged(s: State, x: Txn, s': State)
    requires x.Inserted? && x.j in s.rows
  {
    && s'.rows == Replace(s.rows, x.j, x.draw, x.expiresAt, x.now)
    && s.issued <= s'.issued <= s.issued + {x.draw.digest}
    && s'.wins == s.wins + [x.d] && s'.pending == s.pending
  }

  lemma ExchangedTxn(s: State, x: Txn, s': State, y: Txn)
    requires x.Inserted? && LockOk(s.rows, x.j) && Exchanged(s, x, s')
    requires !InsertConflicts(s.rows, x.draw.jti, x.draw.digest)
    requires TxnOk(s.rows, s.issued, y) && Apart(x, y)
    ensures TxnOk(s'.rows, s'.issued, y)
  {
    hide SeenOk, KnownOk, InsertConflicts, Persists;
    if y.Inserted? {
      ReplaceKeepsFree(s.rows, x.j, x.draw, x.expiresAt, x.now, y.draw);
    }
    ReplacePersists(s.rows, x.j, x.draw, x.expiresAt, x.now);
    forall j | j in Holds(y) ensures j in s'.rows && s'.rows[j].revokedAt == None {
      assert LockOk(s.rows, j) && x.j in Holds(x);
    }
    TxnFrame(s.rows, s'.rows, s.issued, s'.issued, y);
  }

  lemma ExchangedPending(s: State, x: Txn, s': State, f: Uuid)
    requires x.Inserted? && RotationOk(s.rows, s.issued, x.d, x.j) && Exchanged(s, x, s')
    requires !InsertConflicts(s.rows, x.draw.jti, x.draw.digest) && PendingOk(s, f)
    ensures PendingOk(s', f)
  {
  }

  lemma ExchangedWin(s: State, x: Txn, s': State, d: Digest)
    requires RowsOk(s.rows) && x.Inserted? && RotationOk(s.rows, s.issued, x.d, x.j) && Exchanged(s, x, s')
    requires !InsertConflicts(s.rows, x.draw.jti, x.draw.digest)
    requires d == x.d || WinOk(s, d)
    requires forall e :: e in s.issued ==> HasRow(s.rows, e)
    ensures WinOk(s', d)
  {
    hide Rooted, OneUnrevoked;
  }

  lemma ExchangeIsOk(s: State, x: Txn, s': State)
    requires RowsOk(s.rows) && x.Inserted? && LockOk(s.rows, x.j) && Exchanged(s, x, s')
    requires !InsertConflicts(s.rows, x.draw.jti, x.draw.digest)
    ensures RowsOk(s'.rows)
  {
    ReplaceIsOk(s.rows, x.j, x.draw, x.expiresAt, x.now);
  }

  lemma ExchangedHasRow(s: State, x: Txn, s': State, d: Digest)
    requires x.Inserted? && LockOk(s.rows, x.j) && Exchanged(s, x, s')
    requires !InsertConflicts(s.rows, x.draw.jti, x.draw.digest)
    requires d == x.draw.digest || HasRow(s.rows, d)
    ensures HasRow(s'.rows, d)
  {
    if d == x.draw.digest {
      assert s'.rows[x.draw.jti].digest == d;
    } else {
      var j :| j in s.rows && s.rows[j].digest == d;
      assert s'.rows[j].digest == d;
    }
  }

  predicate SameLocks(x: Txn, y: Txn) {
    Holds(x) == Holds(y) && (x.Inserted? || y.Inserted? ==> x == y)
  }

  /** What is left to show of a step that commits, one clause at a time. */
  ghost predicate Commits(s: State, s': State) {
    && (forall u :: u in s'.txns ==> u in s.txns && SameLocks(s'.txns[u], s.txns[u]))
    && (forall u :: u in s'.txns ==> TxnOk(s'.rows, s'.issued, s'.txns[u]))
    && (forall f :: f in s'.pending ==> PendingOk(s', f))
    && (forall d :: d in s'.issued ==> HasRow(s'.rows, d))
    && (forall d :: d in s'.wins ==> WinOk(s', d))
  }

  lemma CommitKeepsInv(s: State, s': State)
    requires Inv(s) && Commits(s, s') && RowsOk(s'.rows) && Distinct(s'.wins)
    ensures Inv(s')
  {
    hide RowsOk, TxnOk, PendingOk, HasRow, WinOk, Distinct;
    forall u, v | u in s'.txns && v in s'.txns && u != v ensures Apart(s'.txns[u], s'.txns[v]) {
      assert Apart(s.txns[u], s.txns[v]);
      assert SameLocks(s'.txns[u], s.txns[u]) && SameLocks(s'.txns[v], s.txns[v]);
    }
  }

  lemma PersistsHasRow(rows: Table, rows': Table, d: Digest)
    requires Persists(rows, rows') && HasRow(rows, d)
    ensures HasRow(rows', d)
  {
    var j :| j in rows && rows[j].digest == d;
    assert SameIdentity(rows[j], rows'[j]);
  }

  /** The token to be exchanged is still unrevoked, and was not exchanged before. */
  lemma RotationIsReady(s: State, t: nat)
    requires Inv(s) && t in s.txns && s.txns[t].Inserted?
    ensures var x := s.txns[t];
            && LockOk(s.rows, x.j) && RotationOk(s.rows, s.issued, x.d, x.j)
            && !InsertConflicts(s.rows, x.draw.jti, x.draw.digest) && Distinct(s.wins + [x.d])
  {
    var x := s.txns[t];
    assert TxnOk(s.rows, s.issued, x) && x.j in Holds(x);
    assert x.d in s.wins ==> WinOk(s, x.d);
  }

  lemma CommitRotationKeepsInv(s: State, t: nat, heard: bool)
    requires Inv(s) && Enabled(s, CommitRotation(t, heard))
    ensures Inv(Apply(s, CommitRotation(t, heard)))
  {
    hide RowsOk, TxnOk, Apart, PendingOk, WinOk, HasRow, Distinct, LockOk, RotationOk, InsertConflicts;
    var x, s' := s.txns[t], Apply(s, CommitRotation(t, heard));
    RotationIsReady(s, t);
    ExchangeIsOk(s, x, s');
    forall u | u in s'.txns ensures TxnOk(s'.rows, s'.issued, s.txns[u]) {
      ExchangedTxn(s, x, s', s.txns[u]);
    }
    forall f | f in s'.pending ensures PendingOk(s', f) {
      ExchangedPending(s, x, s', f);
    }
    forall d | d in s'.issued ensures HasRow(s'.rows, d) {
      ExchangedHasRow(s, x, s', d);
    }
    forall d | d in s'.wins ensures WinOk(s', d) {
      ExchangedWin(s, x, s', d);
    }
    CommitKeepsInv(s, s');
  }

  lemma SweptIsUnique(rows: Table, marked: set<Uuid>, now: Time)
    requires UniqueDigests(rows)
    ensures UniqueDigests(Swept(rows, marked, now))
  {
  }

  lemma SweptIsRooted(rows: Table, marked: set<Uuid>, now: Time)
    requires Rooted(rows)
    ensures Rooted(Swept(rows, marked, now))
  {
    var rows' := Swept(rows, marked, now);
    forall k | k in rows' ensures HasRoot(rows', k) {
      assert HasRoot(rows, k);
    }
  }

  lemma SweptIsOk(rows: Table, marked: set<Uuid>, now: Time)
    requires RowsOk(rows)
    ensures RowsOk(Swept(rows, marked, now))
  {
    hide UniqueDigests, Rooted;
    SweptIsUnique(rows, marked, now);
    SweptIsRooted(rows, marked, now);
    var rows' := Swept(rows, marked, now);
    forall a, b | a in rows' && b in rows' && BothUnrevoked(rows'[a], rows'[b]) ensures a == b {
      assert BothUnrevoked(rows[a], rows[b]);
    }
  }

  lemma SweptPersists(rows: Table, marked: set<Uuid>, now: Time)
    ensures Persists(rows, Swept(rows, marked, now))
  {
  }

  lemma CommitSweepTxns(rows: Table, issued: set<Digest>, x: Txn, y: Txn)
    requires x.Sweeping? && TxnOk(rows, issued, y) && Apart(x, y)
    ensures TxnOk(Swept(rows, x.marked, x.now), issued, y)
  {
    hide SeenOk;
    var rows' := Swept(rows, x.marked, x.now);
    SweptPersists(rows, x.marked, x.now);
    forall j | j in Holds(y) ensures j in rows' && rows'[j].revokedAt == None {
      assert LockOk(rows, j) && j !in Holds(x);
    }
    TxnFrame(rows, rows', issued, issued, y);
  }

  lemma CommitSweepKeepsInv(s: State, t: nat)
    requires Inv(s) && Enabled(s, CommitSweep(t))
    ensures Inv(Apply(s, CommitSweep(t)))
  {
    hide RowsOk, TxnOk, Apart, Distinct, Persists;
    var x, s' := s.txns[t], Apply(s, CommitSweep(t));
    SweptIsOk(s.rows, x.marked, x.now);
    SweptPersists(s.rows, x.marked, x.now);
    forall u | u in s'.txns ensures TxnOk(s'.rows, s'.issued, s.txns[u]) {
      CommitSweepTxns(s.rows, s.issued, x, s.txns[u]);
    }
    forall f | f in s'.pending ensures PendingOk(s', f) {
      assert PendingOk(s, f);
    }
    forall d | d in s'.issued ensures HasRow(s'.rows, d) {
      PersistsHasRow(s.rows, s'.rows, d);
    }
    forall d | d in s'.wins ensures WinOk(s', d) {
      assert WinOk(s, d);
    }
    CommitKeepsInv(s, s');
  }

  lemma NoFamilyYet(rows: Table, f: Uuid)
    requires Rooted(rows) && f !in rows
    ensures forall j :: j in rows ==> rows[j].familyId != f
  {
    forall j | j in rows ensures rows[j].familyId != f {
      assert HasRoot(rows, j);
    }
  }

  lemma LoginIsOk(rows: Table, draw: Draw, row: TokenRow)
    requires RowsOk(rows) && !InsertConflicts(rows, draw.jti, draw.digest)
    requires row.familyId == draw.jti && row.digest == draw.digest
    ensures RowsOk(rows[draw.jti := row])
  {
    var rows' := rows[draw.jti := row];
    assert UniqueDigests(rows');
    NoFamilyYet(rows, draw.jti);
    hide UniqueDigests, InsertConflicts;
    forall k | k in rows' ensures HasRoot(rows', k) {
      assert k in rows ==> HasRoot(rows, k);
    }
    forall a, b | a in rows' && b in rows' && BothUnrevoked(rows'[a], rows'[b]) ensures a == b {
      assert a in rows && b in rows && a != draw.jti && b != draw.jti ==> BothUnrevoked(rows[a], rows[b]);
    }
  }

  lemma LoginPending(s: State, op: Op, f: Uuid)
    requires Enabled(s, op) && op.Login? && f in Apply(s, op).pending && Rooted(s.rows)
    requires f in s.pending ==> PendingOk(s, f)
    requires op.draw.digest in s.issued ==> HasRow(s.rows, op.draw.digest)
    ensures PendingOk(Apply(s, op), f)
  {
    NoFamilyYet(s.rows, op.draw.jti);
  }

  lemma LoginKeepsInv(s: State, op: Op)
    requires Inv(s) && Enabled(s, op) && op.Login?
    ensures Inv(Apply(s, op))
  {
    var s' := Apply(s, op);
    LoginIsOk(s.rows, op.draw, s'.rows[op.draw.jti]);
    assert Persists(s.rows, s'.rows);
    hide RowsOk, Distinct, Persists;
    forall u | u in s'.txns ensures TxnOk(s'.rows, s'.issued, s.txns[u]) {
      hide SeenOk;
      assert TxnOk(s.rows, s.issued, s.txns[u]);
      TxnFrame(s.rows, s'.rows, s.issued, s'.issued, s.txns[u]);
    }
    hide TxnOk;
    forall f | f in s'.pending ensures PendingOk(s', f) {
      LoginPending(s, op, f);
    }
    hide PendingOk;
    forall d | d in s'.issued ensures HasRow(s'.rows, d) {
      PersistsHasRow(s.rows, s'.rows, d);
    }
    forall d | d in s'.wins ensures WinOk(s', d) {
      assert WinOk(s, d) && HasRow(s.rows, d);
    }
    CommitKeepsInv(s, s');
  }

  lemma IssueKeepsInv(s: State, f: Uuid)
    requires Inv(s) && Enabled(s, Issue(f))
    ensures Inv(Apply(s, Issue(f)))
  {
    var s' := Apply(s, Issue(f));
    forall u | u in s'.txns ensures TxnOk(s'.rows, s'.issued, s.txns[u]) {
      assert TxnOk(s.rows, s.issued, s.txns[u]);
      TxnFrame(s.rows, s'.rows, s.issued, s'.issued, s.txns[u]);
    }
    hide TxnOk, Distinct;
    forall g | g in s'.pending ensures PendingOk(s', g) {
      assert PendingOk(s, g);
    }
    forall d | d in s'.issued ensures HasRow(s'.rows, d) {
      assert d !in s.issued ==> s.rows[f].digest == d;
    }
    forall d | d in s'.wins ensures WinOk(s', d) {
      assert WinOk(s, d);
    }
    CommitKeepsInv(s, s');
  }

  lemma RemoveIsOk(s: State, f: Uuid)
    requires RowsOk(s.rows) && PendingOk(s, f)
    ensures RowsOk(s.rows - {f})
  {
    forall k | k in s.rows - {f} ensures HasRoot(s.rows - {f}, k) {
      assert HasRoot(s.rows, k);
    }
  }

  lemma RemoveHasRow(s: State, f: Uuid, d: Digest)
    requires PendingOk(s, f) && d in s.issued && HasRow(s.rows, d)
    ensures HasRow(s.rows - {f}, d)
  {
    var j :| j in s.rows && s.rows[j].digest == d;
    assert (s.rows - {f})[j].digest == d;
  }

  lemma AbandonKeepsInv(s: State, f: Uuid)
    requires Inv(s) && Enabled(s, Abandon(f))
    ensures Inv(Apply(s, Abandon(f)))
  {
    hide RowsOk, TxnOk, Distinct, HasRow;
    var s' := Apply(s, Abandon(f));
    assert PendingOk(s, f);
    RemoveIsOk(s, f);
    forall u | u in s'.txns ensures TxnOk(s'.rows, s'.issued, s'.txns[u]) {
      TxnForgets(s.rows, s.issued, s.txns[u], f);
    }
    forall g | g in s'.pending ensures PendingOk(s', g) {
      assert PendingOk(s, g);
    }
    forall d | d in s'.issued ensures HasRow(s'.rows, d) {
      RemoveHasRow(s, f, d);
    }
    forall d | d in s'.wins ensures WinOk(s', d) {
      assert WinOk(s, d);
    }
    CommitKeepsInv(s, s');
  }

  lemma StepKeepsInv(s: State, op: Op)
    requires Inv(s) && Enabled(s, op)
    ensures Inv(Apply(s, op))
  {
    hide Inv, Enabled;
    match op
    case CommitRotation(t, heard) => CommitRotationKeepsInv(s, t, heard);
    case CommitSweep(t) => CommitSweepKeepsInv(s, t);
    case Login(_, _, _, _) => LoginKeepsInv(s, op);
    case Issue(f) => IssueKeepsInv(s, f);
    case Abandon(f) => AbandonKeepsInv(s, f);
    case Abort(t) => DropKeepsInv(s, t);
    case StartRevoke(_) => SweepStepsKeepInv(s, op);
    case StartLogout(_, _, _) => SweepStepsKeepInv(s, op);
    case SweepRow(_, _) => SweepStepsKeepInv(s, op);
    case _ => RotateStepsKeepInv(s, op);
  }

  // ---- Runs ----

  const START := State(map[], map[], {}, {}, [])

  predicate CanRun(ops: seq<Op>)
    decreases |ops|, 0
  {
    ops == [] || (CanRun(ops[..|ops| - 1]) && Enabled(RunOf(ops[..|ops| - 1]), ops[|ops| - 1]))
  }

  /** The state after the steps `ops`, from the empty table. */
  function RunOf(ops: seq<Op>): State
    requires CanRun(ops)
    decreases |ops|, 1
  {
    if ops == [] then START else Apply(RunOf(ops[..|ops| - 1]), ops[|ops| - 1])
  }

  lemma {:induction false} RunHasInv(ops: seq<Op>)
    requires CanRun(ops)
    ensures Inv(RunOf(ops))
  {
    if ops == [] {
    } else {
      RunHasInv(ops[..|ops| - 1]);
      StepKeepsInv(RunOf(ops[..|ops| - 1]), ops[|ops| - 1]);
    }
  }

  /** However the statements interleave, at most one row of a family is unrevoked. */
  lemma AtMostOneActive(ops: seq<Op>, j: Uuid, k: Uuid)
    requires CanRun(ops)
    requires var rows := RunOf(ops).rows;
             j in rows && k in rows && rows[j].familyId == rows[k].familyId &&
             rows[j].revokedAt == None && rows[k].revokedAt == None
    ensures j == k
  {
    RunHasInv(ops);
    assert BothUnrevoked(RunOf(ops).rows[j], RunOf(ops).rows[k]);
  }

  /** However the statements interleave, no token is exchanged twice. */
  lemma NoTokenTwice(ops: seq<Op>, k: nat, l: nat)
    requires CanRun(ops) && k < l < |RunOf(ops).wins|
    ensures RunOf(ops).wins[k] != RunOf(ops).wins[l]
  {
    RunHasInv(ops);
  }

  /** A recorded revocation is neither rewritten nor cleared by any step. */
  lemma RevocationsStay(ops: seq<Op>, op: Op, j: Uuid)
    requires CanRun(ops) && Enabled(RunOf(ops), op)
    requires j in RunOf(ops).rows && RunOf(ops).rows[j].revokedAt.Some? && op != Abandon(j)
    ensures j in Apply(RunOf(ops), op).rows && Apply(RunOf(ops), op).rows[j].revokedAt == RunOf(ops).rows[j].revokedAt
  {
    var s := RunOf(ops);
    RunHasInv(ops);
    if op.CommitRotation? {
      var x := s.txns[op.t];
      assert TxnOk(s.rows, s.issued, x) && x.j in Holds(x);
      assert LockOk(s.rows, x.j);
    }
  }
}
