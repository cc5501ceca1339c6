/** The token store of the gateway: `rotate`, the login and logout handlers, each
    database statement in turn. `fams` is what the table means after each call. */
module RefreshStore {
  import opened Prelude
  import opened Text
  import opened TokenFamilies
  import opened TokenRuns

  // ---- The statements ----

  predicate IsActive(row: TokenRow, d: Digest, now: Time) {
    row.digest == d && row.revokedAt == None && row.expiresAt > now
  }

  /** `UPDATE ... SET revoked_at WHERE family_id = $2 AND revoked_at IS NULL`. */
  function RevokeFamily(rows: Table, f: Uuid, now: Time): Table {
    map j | j in rows :: Revoked(rows[j], rows[j].familyId == f, now)
  }

  /** `UPDATE ... SET revoked_at WHERE subject = $1 AND revoked_at IS NULL`. */
  function RevokeSubject(rows: Table, subject: Uuid, now: Time): Table {
    map j | j in rows :: Revoked(rows[j], rows[j].subject == subject, now)
  }

  function Revoked(row: TokenRow, chosen: bool, now: Time): TokenRow {
    if chosen && row.revokedAt == None then row.(revokedAt := Some(now)) else row
  }

  predicate InsertConflicts(rows: Table, jti: Uuid, d: Digest) {
    jti in rows || exists j :: j in rows && rows[j].digest == d
  }

  /** No row is lost, a recorded revocation is never rewritten and never cleared,
      and every stamp written is `now`. */
  predicate Stamps(rows: Table, rows': Table, now: Time) {
    && (forall j :: j in rows ==> j in rows' && Stamped(rows[j], rows'[j], now))
    && (forall j :: j in rows' && j !in rows ==> rows'[j].createdAt == now && rows'[j].revokedAt == None)
  }

  predicate Stamped(row: TokenRow, row': TokenRow, now: Time) {
    && row'.createdAt == row.createdAt
    && (row'.revokedAt == row.revokedAt || (row.revokedAt == None && row'.revokedAt == Some(now)))
  }

  /** The families and the stamps leave no choice: they determine the whole table. */
  lemma StampedTablesAgree(rows: Table, a: Table, b: Table, fams: Families, now: Time)
    requires Refines(a, fams) && Refines(b, fams) && Stamps(rows, a, now) && Stamps(rows, b, now)
    ensures a == b
  {
    StampedRowsAgree(rows, a, b, fams, now);
    StampedRowsAgree(rows, b, a, fams, now);
    assert a.Keys == b.Keys;
  }

  lemma StampedRowsAgree(rows: Table, a: Table, b: Table, fams: Families, now: Time)
    requires Refines(a, fams) && Refines(b, fams) && Stamps(rows, a, now) && Stamps(rows, b, now)
    ensures forall j :: j in a ==> j in b && a[j] == b[j]
  {
    hide Refines, WellFormed;
    forall j | j in a ensures j in b && a[j] == b[j] {
      var i := PlaceOf(a, fams, j);
      StoredMember(b, fams, a[j].familyId, i);
      if j in rows {
        assert Stamped(rows[j], a[j], now) && Stamped(rows[j], b[j], now);
      }
    }
  }

  /** The UPDATE touches neither key nor digest of any row. */
  lemma UpdateKeepsDigests(rows: Table, tx: Table, draw: Draw)
    requires tx.Keys == rows.Keys && forall j :: j in rows ==> tx[j].digest == rows[j].digest
    ensures InsertConflicts(tx, draw.jti, draw.digest) <==> InsertConflicts(rows, draw.jti, draw.digest)
  {
  }

  // ---- Each statement refines an operation on families ----

  lemma ActiveIsLiveTip(rows: Table, fams: Families, j: Uuid, d: Digest, now: Time)
    requires Refines(rows, fams) && j in rows && IsActive(rows[j], d, now)
    ensures LiveTip(fams, rows[j].familyId, d, now) && Tip(fams[rows[j].familyId]).jti == j
    ensures rows[j].subject == fams[rows[j].familyId].subject && rows[j].subject != NIL
  {
    var i := PlaceOf(rows, fams, j);
  }

  lemma NoActiveNoLiveTip(rows: Table, fams: Families, d: Digest, now: Time)
    requires Refines(rows, fams) && forall j :: j in rows ==> !IsActive(rows[j], d, now)
    ensures forall f :: !LiveTip(fams, f, d, now)
  {
    forall f | f in fams ensures !LiveTip(fams, f, d, now) {
      assert fams[f].chain != [];
      assert Stored(rows, f, fams[f], |fams[f].chain| - 1);
    }
  }

  lemma KnownIsOwned(rows: Table, fams: Families, j: Uuid, d: Digest)
    requires Refines(rows, fams) && j in rows && rows[j].digest == d
    ensures Owns(fams, rows[j].familyId, d)
  {
    var i := PlaceOf(rows, fams, j);
  }

  lemma UnknownIsUnowned(rows: Table, fams: Families, d: Digest)
    requires Refines(rows, fams) && forall j :: j in rows ==> rows[j].digest != d
    ensures forall f :: !Owns(fams, f, d)
  {
    forall f, i | f in fams && 0 <= i < |fams[f].chain| ensures fams[f].chain[i].digest != d {
      assert Stored(rows, f, fams[f], i);
    }
  }

  lemma ConflictIsTaken(rows: Table, fams: Families, draw: Draw)
    requires Refines(rows, fams)
    ensures InsertConflicts(rows, draw.jti, draw.digest) <==> Taken(fams, draw)
    ensures Taken(fams, draw) <==> draw.jti in rows || exists j :: j in rows && rows[j].digest == draw.digest
  {
    if draw.jti in rows {
      var i := PlaceOf(rows, fams, draw.jti);
      assert TakenAt(fams, draw, rows[draw.jti].familyId, i);
    } else if j :| j in rows && rows[j].digest == draw.digest {
      var i := PlaceOf(rows, fams, j);
      assert TakenAt(fams, draw, rows[j].familyId, i);
    }
    if Taken(fams, draw) {
      var f, i :| TakenAt(fams, draw, f, i);
      assert Stored(rows, f, fams[f], i);
    }
  }

  /** Revoking whole families, and nothing else. */
  ghost predicate Revokes(rows: Table, rows': Table, fams: Families, fams': Families, chosen: set<Uuid>, now: Time) {
    && rows'.Keys == rows.Keys && fams'.Keys == fams.Keys
    && (forall j :: j in rows ==> rows'[j] == Revoked(rows[j], rows[j].familyId in chosen, now))
    && (forall f :: f in fams ==> fams'[f] == if f in chosen then fams[f].(live := false) else fams[f])
  }

  lemma RevokePlaces(rows: Table, rows': Table, fams: Families, fams': Families, chosen: set<Uuid>, now: Time, j: Uuid)
    requires Refines(rows, fams) && Revokes(rows, rows', fams, fams', chosen, now) && j in rows
    ensures Placed(rows', fams', j)
  {
    hide Refines;
    var i := PlaceOf(rows, fams, j);
    assert fams'[rows'[j].familyId].chain[i].jti == j;
  }

  lemma RevokeStores(rows: Table, rows': Table, fams: Families, fams': Families, chosen: set<Uuid>, now: Time,
                     f: Uuid, i: nat)
    requires Refines(rows, fams) && Revokes(rows, rows', fams, fams', chosen, now) && f in fams && i < |fams[f].chain|
    ensures Stored(rows', f, fams'[f], i)
  {
    hide Refines;
    StoredMember(rows, fams, f, i);
  }

  lemma RefineRevoke(rows: Table, rows': Table, fams: Families, fams': Families, chosen: set<Uuid>, now: Time)
    requires Refines(rows, fams) && Revokes(rows, rows', fams, fams', chosen, now)
    ensures Refines(rows', fams')
  {
    hide WellFormed, Stored, Placed;
    RevokeIsWellFormed(fams, fams');
    forall f, i: nat | f in fams' && i < |fams'[f].chain| ensures Stored(rows', f, fams'[f], i) {
      RevokeStores(rows, rows', fams, fams', chosen, now, f, i);
    }
    forall j | j in rows' ensures Placed(rows', fams', j) {
      RevokePlaces(rows, rows', fams, fams', chosen, now, j);
    }
  }

  lemma RefineKill(rows: Table, fams: Families, f: Uuid, now: Time)
    requires Refines(rows, fams) && f in fams
    ensures Refines(RevokeFamily(rows, f, now), Kill(fams, f))
  {
    hide Refines;
    RefineRevoke(rows, RevokeFamily(rows, f, now), fams, Kill(fams, f), {f}, now);
  }

  lemma RefineLogout(rows: Table, fams: Families, subject: Uuid, now: Time)
    requires Refines(rows, fams)
    ensures Refines(RevokeSubject(rows, subject, now), LogoutFamilies(fams, subject))
  {
    hide Refines;
    var chosen := set f | f in fams && fams[f].subject == subject;
    forall j | j in rows ensures rows[j].subject == subject <==> rows[j].familyId in chosen {
      var i := PlaceOf(rows, fams, j);
    }
    RefineRevoke(rows, RevokeSubject(rows, subject, now), fams, LogoutFamilies(fams, subject), chosen, now);
  }

  function NewRow(f: Uuid, subject: Uuid, d: Digest, expiresAt: Time, now: Time): TokenRow {
    TokenRow(f, subject, d, expiresAt, None, None, now)
  }

  /** The two writes of a successful rotation. */
  function Replace(rows: Table, oldJti: Uuid, draw: Draw, expiresAt: Time, now: Time): Table
    requires oldJti in rows
  {
    rows[oldJti := rows[oldJti].(revokedAt := Some(now), replacedBy := Some(draw.jti))]
        [draw.jti := NewRow(rows[oldJti].familyId, rows[oldJti].subject, draw.digest, expiresAt, now)]
  }

  lemma ExtendStores(rows: Table, fams: Families, f: Uuid, draw: Draw, expiresAt: Time, now: Time, g: Uuid, i: nat)
    requires Refines(rows, fams) && f in fams && fams[f].chain != [] && fams[f].live
    requires draw.jti !in rows && Tip(fams[f]).jti in rows
    requires g in fams && i < |fams[g].chain|
    ensures Stored(Replace(rows, Tip(fams[f]).jti, draw, expiresAt, now), g, Extend(fams, f, draw, expiresAt)[g], i)
  {
    hide Refines, WellFormed;
    StoredMember(rows, fams, g, i);
    var n := |fams[f].chain|;
    if g != f || i != n - 1 {
      RefinesIsWellFormed(rows, fams);
      MembersApart(fams, g, i, f, n - 1);
    }
    assert g == f ==> Extend(fams, f, draw, expiresAt)[g].chain[i] == fams[g].chain[i];
  }

  lemma ExtendPlaces(rows: Table, fams: Families, f: Uuid, draw: Draw, expiresAt: Time, now: Time, j: Uuid)
    requires Refines(rows, fams) && f in fams && fams[f].chain != []
    requires draw.jti !in rows && Tip(fams[f]).jti in rows && rows[Tip(fams[f]).jti].familyId == f
    requires j in rows || j == draw.jti
    ensures Placed(Replace(rows, Tip(fams[f]).jti, draw, expiresAt, now), Extend(fams, f, draw, expiresAt), j)
  {
    hide Refines, WellFormed;
    var fams' := Extend(fams, f, draw, expiresAt);
    if j == draw.jti {
      assert fams'[f].chain[|fams[f].chain|].jti == j;
    } else {
      var i := PlaceOf(rows, fams, j);
      assert fams'[rows[j].familyId].chain[i].jti == j;
    }
  }

  lemma RefineExtend(rows: Table, fams: Families, f: Uuid, draw: Draw, expiresAt: Time, now: Time)
    requires Refines(rows, fams) && f in fams && fams[f].chain != [] && fams[f].live && !Taken(fams, draw)
    ensures Tip(fams[f]).jti in rows
    ensures Refines(Replace(rows, Tip(fams[f]).jti, draw, expiresAt, now), Extend(fams, f, draw, expiresAt))
  {
    var n := |fams[f].chain|;
    StoredMember(rows, fams, f, n - 1);
    ConflictIsTaken(rows, fams, draw);
    ExtendIsWellFormed(fams, f, draw, expiresAt);
    hide WellFormed, Placed;
    var rows', fams' := Replace(rows, Tip(fams[f]).jti, draw, expiresAt, now), Extend(fams, f, draw, expiresAt);
    forall g, i: nat | g in fams' && i < |fams'[g].chain| ensures Stored(rows', g, fams'[g], i) {
      if g != f || i < n {
        ExtendStores(rows, fams, f, draw, expiresAt, now, g, i);
      }
    }
    forall j | j in rows' ensures Placed(rows', fams', j) {
      ExtendPlaces(rows, fams, f, draw, expiresAt, now, j);
    }
  }

  lemma RefineLogin(rows: Table, fams: Families, subject: Uuid, draw: Draw, expiresAt: Time, now: Time)
    requires Refines(rows, fams) && subject != NIL && !Taken(fams, draw)
    ensures Refines(rows[draw.jti := NewRow(draw.jti, subject, draw.digest, expiresAt, now)],
                    fams[draw.jti := LoginFamily(subject, draw, expiresAt)])
    ensures draw.jti !in fams
  {
    ConflictIsTaken(rows, fams, draw);
    var rows' := rows[draw.jti := NewRow(draw.jti, subject, draw.digest, expiresAt, now)];
    var fams' := fams[draw.jti := LoginFamily(subject, draw, expiresAt)];
    LoginIsWellFormed(fams, subject, draw, expiresAt);
    hide WellFormed;
    forall f, i | f in fams' && 0 <= i < |fams'[f].chain| ensures Stored(rows', f, fams'[f], i) {
      if f != draw.jti {
        assert Stored(rows, f, fams[f], i);
      }
    }
    forall j | j in rows' ensures Placed(rows', fams', j) {
      if j == draw.jti {
        assert fams'[j].chain[0].jti == j;
      } else {
        var i := PlaceOf(rows, fams, j);
        assert fams'[rows'[j].familyId].chain[i].jti == j;
      }
    }
  }

  lemma RefineRemove(rows: Table, fams: Families, f: Uuid)
    requires Refines(rows, fams) && f in fams && |fams[f].chain| == 1
    ensures Refines(rows - {f}, fams - {f})
  {
    RemoveIsWellFormed(fams, f);
    hide WellFormed, Placed;
    var rows', fams' := rows - {f}, fams - {f};
    forall g, i: nat | g in fams' && i < |fams'[g].chain| ensures Stored(rows', g, fams'[g], i) {
      StoredMember(rows, fams, g, i);
      MembersApart(fams, g, i, f, 0);
    }
    forall j | j in rows' ensures Placed(rows', fams', j) {
      RemovePlaces(rows, fams, f, j);
    }
  }

  lemma RemovePlaces(rows: Table, fams: Families, f: Uuid, j: Uuid)
    requires Refines(rows, fams) && f in fams && |fams[f].chain| == 1 && fams[f].chain[0].jti == f
    requires j in rows && j != f
    ensures Placed(rows - {f}, fams - {f}, j)
  {
    hide Refines;
    var i := PlaceOf(rows, fams, j);
    assert rows[j].familyId == f ==> i == 0;
    assert (fams - {f})[rows[j].familyId].chain[i].jti == j;
  }

  // ---- A rotation, read off the table ----

  /** All that is known of the tables before and after a call of `rotate`. */
  ghost predicate Rotates(rows: Table, s: Auth, op: Op, rows': Table, t: Auth) {
    && op.Rotate? && Refines(rows, s.fams)
    && Step(s, op, t) && Refines(rows', t.fams) && Stamps(rows, rows', op.now)
  }

  /** An unrevoked, unexpired token is replaced by what was drawn: its row is stamped
      and linked, one row is added, and nothing else changes. */
  lemma AcceptedTable(rows: Table, s: Auth, op: Op, rows': Table, t: Auth, j: Uuid)
    requires Rotates(rows, s, op, rows', t) && op.ttl > 0 && op.draw.Some?
    requires !op.fault.BeginFails? && !op.fault.SelectActiveFails? && !op.fault.UpdateFails? && !op.fault.InsertFails?
    requires op.fault != CommitFails(false)
    requires j in rows && rows[j].digest == op.d && rows[j].revokedAt == None && rows[j].expiresAt > op.now
    requires op.draw.value.jti !in rows && forall k :: k in rows ==> rows[k].digest != op.draw.value.digest
    ensures op.r == if op.fault == CommitFails(true) then Failed else Rotated(op.draw.value.digest, rows[j].subject)
    ensures var k, digest := op.draw.value.jti, op.draw.value.digest;
      && rows'.Keys == rows.Keys + {k}
      && rows'[j] == rows[j].(revokedAt := Some(op.now), replacedBy := Some(k))
      && rows'[k] == TokenRow(rows[j].familyId, rows[j].subject, digest, op.now + op.ttl, None, None, op.now)
      && (forall i :: i in rows && i != j ==> rows'[i] == rows[i])
  {
    hide Refines, WellFormed, Taken, Step, Stamps;
    var f := rows[j].familyId;
    assert IsActive(rows[j], op.d, op.now) && !InsertConflicts(rows, op.draw.value.jti, op.draw.value.digest);
    RefinesIsWellFormed(rows, s.fams);
    ActiveIsLiveTip(rows, s.fams, j, op.d, op.now);
    ConflictIsTaken(rows, s.fams, op.draw.value);
    AcceptedFamilies(s, op, t, f);
    RefineExtend(rows, s.fams, f, op.draw.value, op.now + op.ttl, op.now);
    ReplaceStamps(rows, j, op.draw.value, op.now + op.ttl, op.now);
    StampedTablesAgree(rows, rows', Replace(rows, j, op.draw.value, op.now + op.ttl, op.now), t.fams, op.now);
  }

  lemma AcceptedFamilies(s: Auth, op: Op, t: Auth, f: Uuid)
    requires WellFormed(s.fams) && op.Rotate? && Step(s, op, t) && op.ttl > 0 && LiveTip(s.fams, f, op.d, op.now)
    requires op.draw.Some? && !Taken(s.fams, op.draw.value) && !StopsAccepting(op.fault)
    ensures t.fams == Extend(s.fams, f, op.draw.value, op.now + op.ttl)
    ensures op.r == if op.fault == CommitFails(true) then Failed else Rotated(op.draw.value.digest, s.fams[f].subject)
  {
    hide WellFormed, Taken;
    OnlyLiveTip(s.fams, f, op.d, op.now);
  }

  lemma ReplaceStamps(rows: Table, j: Uuid, draw: Draw, expiresAt: Time, now: Time)
    requires j in rows && rows[j].revokedAt == None && draw.jti !in rows
    ensures Stamps(rows, Replace(rows, j, draw, expiresAt, now), now)
  {
  }

  lemma RevokeStamps(rows: Table, f: Uuid, now: Time)
    ensures Stamps(rows, RevokeFamily(rows, f, now), now)
  {
  }

  lemma OnlyLiveTip(fams: Families, f: Uuid, d: Digest, now: Time)
    requires WellFormed(fams) && LiveTip(fams, f, d, now)
    ensures forall g :: LiveTip(fams, g, d, now) ==> g == f
  {
    forall g | LiveTip(fams, g, d, now) ensures g == f {
      TipIsOwned(fams, f, d, now);
      TipIsOwned(fams, g, d, now);
      OneOwner(fams, f, g, d);
    }
  }

  /** Any other known token: every unrevoked row of its family is stamped, every
      other row stays as it is, and no token is handed out. */
  lemma ReplayedTable(rows: Table, s: Auth, op: Op, rows': Table, t: Auth, j: Uuid)
    requires Rotates(rows, s, op, rows', t) && op.ttl > 0
    requires !op.fault.BeginFails? && !op.fault.SelectActiveFails?
    requires !op.fault.SelectAnyFails? && !op.fault.RevokeFails?
    requires op.fault != CommitFails(false)
    requires j in rows && rows[j].digest == op.d && (rows[j].revokedAt.Some? || rows[j].expiresAt <= op.now)
    ensures op.r == if op.fault == CommitFails(true) then Failed else Refused
    ensures rows'.Keys == rows.Keys
    ensures forall k :: k in rows ==>
              rows'[k] == if rows[k].familyId == rows[j].familyId && rows[k].revokedAt == None
                          then rows[k].(revokedAt := Some(op.now)) else rows[k]
  {
    hide Refines, WellFormed, Stamps, LiveTip, Owns;
    var f := rows[j].familyId;
    assert !IsActive(rows[j], op.d, op.now) && !StopsRefusing(op.fault, true);
    RefinesIsWellFormed(rows, s.fams);
    NoOtherActive(rows, s.fams, j, op.now);
    NoActiveNoLiveTip(rows, s.fams, op.d, op.now);
    KnownIsOwned(rows, s.fams, j, op.d);
    KnownFamily(rows, s.fams, j);
    ReplayKillsFamily(s.fams, f, op.d, op.now, op.ttl, op.draw, op.fault, t.fams, op.r);
    RefineKill(rows, s.fams, f, op.now);
    RevokeStamps(rows, f, op.now);
    StampedTablesAgree(rows, rows', RevokeFamily(rows, f, op.now), t.fams, op.now);
  }

  lemma NoOtherActive(rows: Table, fams: Families, j: Uuid, now: Time)
    requires Refines(rows, fams) && j in rows && !IsActive(rows[j], rows[j].digest, now)
    ensures forall k :: k in rows ==> !IsActive(rows[k], rows[j].digest, now)
  {
    hide Refines;
    DigestsAreUnique(rows, fams);
  }

  lemma KnownFamily(rows: Table, fams: Families, j: Uuid)
    requires Refines(rows, fams) && j in rows
    ensures rows[j].familyId in fams
  {
    assert Placed(rows, fams, j);
  }

  /** An error before the outcome is committed: `Failed`, and the table is the same. */
  lemma FailedTable(rows: Table, s: Auth, op: Op, rows': Table, t: Auth)
    requires Rotates(rows, s, op, rows', t)
    requires var active := exists j :: j in rows && IsActive(rows[j], op.d, op.now);
             var known := exists j :: j in rows && rows[j].digest == op.d;
      || op.ttl <= 0
      || op.fault.BeginFails? || op.fault.SelectActiveFails? || op.fault == CommitFails(false)
      || (active && (op.draw == None || op.fault.UpdateFails? || op.fault.InsertFails?))
      || (active && op.draw.Some? && InsertConflicts(rows, op.draw.value.jti, op.draw.value.digest))
      || (!active && op.fault.SelectAnyFails?)
      || (!active && known && op.fault.RevokeFails?)
    ensures op.r == Failed && rows' == rows
  {
    hide Refines, WellFormed, Stamps, LiveTip, Owns, Taken, Tally, CanPresent;
    RefinesIsWellFormed(rows, s.fams);
    if j :| j in rows && IsActive(rows[j], op.d, op.now) {
      ActiveIsLiveTip(rows, s.fams, j, op.d, op.now);
    } else {
      NoActiveNoLiveTip(rows, s.fams, op.d, op.now);
      if j :| j in rows && rows[j].digest == op.d {
        KnownIsOwned(rows, s.fams, j, op.d);
      }
    }
    if op.draw.Some? {
      ConflictIsTaken(rows, s.fams, op.draw.value);
    }
    assert t.fams == s.fams && op.r == Failed;
    SameFamiliesSameRows(rows, rows', s.fams, op.now);
  }

  lemma NothingStamped(rows: Table, now: Time)
    ensures Stamps(rows, rows, now)
  {
  }

  /** With the same families before and after, no row was touched. */
  lemma SameFamiliesSameRows(rows: Table, rows': Table, fams: Families, now: Time)
    requires Refines(rows, fams) && Refines(rows', fams) && Stamps(rows, rows', now)
    ensures rows == rows'
  {
    hide Refines, Stamps;
    NothingStamped(rows, now);
    StampedTablesAgree(rows, rows', rows, fams, now);
  }

  /** A token no row knows, or any error but an unheard commit: the table is the same. */
  lemma UntouchedTable(rows: Table, s: Auth, op: Op, rows': Table, t: Auth)
    requires Rotates(rows, s, op, rows', t)
    requires (forall j :: j in rows ==> rows[j].digest != op.d) || (op.r == Failed && op.fault != CommitFails(true))
    ensures rows' == rows && !op.r.Rotated?
  {
    hide Refines, WellFormed, Stamps, Owns;
    RefinesIsWellFormed(rows, s.fams);
    if forall j :: j in rows ==> rows[j].digest != op.d {
      UnknownIsUnowned(rows, s.fams, op.d);
    }
    UnknownOrErrorChangesNothing(s.fams, op.d, op.now, op.ttl, op.draw, op.fault, t.fams, op.r);
    SameFamiliesSameRows(rows, rows', s.fams, op.now);
  }

  // ---- The store ----

  /** A statement that commits by itself: it may fail after it took effect. */
  datatype Write = Done | NotDone | Unreported

  /** Outcomes of the session calls of a login. */
  datatype SessionCalls = SessionCalls(hadId: bool, cycled: bool, inserted: bool, saved: bool)

  datatype LoginOutcome = LoggedIn(digest: Digest) | LoginFailed

  function Exchange(s: Auth, f: Uuid, d: Digest, draw: Draw, expiresAt: Time): Auth
    requires f in s.fams
  {
    s.(fams := Extend(s.fams, f, draw, expiresAt), wins := s.wins + [Win(f, d)])
  }

  function LoggedInto(s: Auth, subject: Uuid, draw: Draw, expiresAt: Time): Auth {
    s.(fams := s.fams[draw.jti := LoginFamily(subject, draw, expiresAt)], pending := s.pending + {draw.jti})
  }

  /** The table, and the run of operations that led to it. */
  class TokenStore {
    var rows: Table
    ghost var auth: Auth

    ghost predicate Valid()
      reads this
    {
      Reached(auth) && Refines(rows, auth.fams)
    }

    constructor ()
      ensures Valid() && rows == map[] && auth == EMPTY
    {
      EmptyIsReached();
      rows, auth := map[], EMPTY;
    }

    method SelectActive(tx: Table, d: Digest, now: Time) returns (found: Option<Uuid>)
      ensures found.Some? ==> found.value in tx && IsActive(tx[found.value], d, now)
      ensures found.None? ==> forall j :: j in tx ==> !IsActive(tx[j], d, now)
    {
      if j :| j in tx && IsActive(tx[j], d, now) {
        found := Some(j);
      } else {
        found := None;
      }
    }

    method SelectAny(tx: Table, d: Digest) returns (found: Option<Uuid>)
      ensures found.Some? ==> found.value in tx && tx[found.value].digest == d
      ensures found.None? ==> forall j :: j in tx ==> tx[j].digest != d
    {
      if j :| j in tx && tx[j].digest == d {
        found := Some(j);
      } else {
        found := None;
      }
    }

    /** `rotate`: `draw` is None when the random generator fails. A run of the model
        takes the same step, and time stamps are written once. */
    method Rotate(presented: Digest, now: Time, ttl: int, draw: Option<Draw>, fault: Fault) returns (r: Outcome)
      requires Valid() && CanPresent(auth, presented)
      modifies this
      ensures Valid() && Stamps(old(rows), rows, now)
      ensures Step(old(auth), Op.Rotate(presented, now, ttl, draw, fault, r), auth)
    {
      hide Reached, Refines, LiveTip, Owns, Taken;
      if ttl <= 0 {
        r := Failed;
        Stays(Op.Rotate(presented, now, ttl, draw, fault, r));
        return;
      }
      if fault.BeginFails? || fault.SelectActiveFails? {
        r := AbortRotate(presented, now, ttl, draw, fault);
        return;
      }
      var tx := rows;
      var active := SelectActive(tx, presented, now);
      if active.None? {
        r := RefuseToken(tx, presented, now, ttl, draw, fault);
        return;
      }
      r := ReplaceToken(tx, active.value, presented, now, ttl, draw, fault);
    }

    /** A rotation that changes nothing, as a step of the run. */
    lemma Stays(op: Op)
      requires Valid() && op.Rotate? && CanPresent(auth, op.d)
      requires RotateStep(auth.fams, op.d, op.now, op.ttl, op.draw, op.fault, auth.fams, op.r)
      requires forall f :: !Exchanges(auth, op, f)
      ensures Step(auth, op, auth)
    {
    }

    /** The transaction could not even look the token up. */
    method AbortRotate(presented: Digest, now: Time, ttl: int, draw: Option<Draw>, fault: Fault) returns (r: Outcome)
      requires Valid() && CanPresent(auth, presented) && ttl > 0 && (fault.BeginFails? || fault.SelectActiveFails?)
      ensures r == Failed && Step(auth, Op.Rotate(presented, now, ttl, draw, fault, r), auth)
    {
      hide Reached, Refines, Taken;
      r := Failed;
      if f :| LiveTip(auth.fams, f, presented, now) {
        assert AcceptStep(auth.fams, f, now, ttl, draw, fault, auth.fams, r);
      } else if f :| Owns(auth.fams, f, presented) {
        assert KillStep(auth.fams, f, fault, auth.fams, r);
      }
      Stays(Op.Rotate(presented, now, ttl, draw, fault, r));
    }

    /** No active row: revoke the family of a known token. */
    method RefuseToken(snapshot: Table, presented: Digest, now: Time, ttl: int, draw: Option<Draw>, fault: Fault)
      returns (r: Outcome)
      requires Valid() && CanPresent(auth, presented) && snapshot == rows
      requires ttl > 0 && !fault.BeginFails? && !fault.SelectActiveFails?
      requires forall j :: j in rows ==> !IsActive(rows[j], presented, now)
      modifies this
      ensures Valid() && Stamps(old(rows), rows, now)
      ensures Step(old(auth), Op.Rotate(presented, now, ttl, draw, fault, r), auth)
    {
      hide Reached, Refines;
      var tx := snapshot;
      NoActiveNoLiveTip(rows, auth.fams, presented, now);
      if fault.SelectAnyFails? {
        r := Failed;
        if f :| Owns(auth.fams, f, presented) {
          assert KillStep(auth.fams, f, fault, auth.fams, r);
        }
        Stays(Op.Rotate(presented, now, ttl, draw, fault, r));
        return;
      }
      var any := SelectAny(tx, presented);
      if any.None? {
        UnknownIsUnowned(rows, auth.fams, presented);
        r := if fault.CommitFails? then Failed else Refused;
        Stays(Op.Rotate(presented, now, ttl, draw, fault, r));
        return;
      }
      var stolenFamily := tx[any.value].familyId;
      KnownIsOwned(rows, auth.fams, any.value, presented);
      if fault.RevokeFails? || fault == CommitFails(false) {
        r := Failed;
        assert KillStep(auth.fams, stolenFamily, fault, auth.fams, r);
        Stays(Op.Rotate(presented, now, ttl, draw, fault, r));
        return;
      }
      tx := RevokeFamily(tx, stolenFamily, now);
      RefineKill(rows, auth.fams, stolenFamily, now);
      ghost var before := auth;
      auth := auth.(fams := Kill(auth.fams, stolenFamily));
      rows := tx;
      r := if fault.CommitFails? then Failed else Refused;
      assert KillStep(before.fams, stolenFamily, fault, auth.fams, r);
      ReachedStep(before, Op.Rotate(presented, now, ttl, draw, fault, r), auth);
    }

    /** An active row was found: replace it, or fail and change nothing. */
    method ReplaceToken(snapshot: Table, oldJti: Uuid, presented: Digest, now: Time, ttl: int, draw: Option<Draw>,
                        fault: Fault) returns (r: Outcome)
      requires Valid() && CanPresent(auth, presented) && snapshot == rows
      requires ttl > 0 && !fault.BeginFails? && !fault.SelectActiveFails?
      requires oldJti in rows && IsActive(rows[oldJti], presented, now)
      modifies this
      ensures Valid() && Stamps(old(rows), rows, now)
      ensures Step(old(auth), Op.Rotate(presented, now, ttl, draw, fault, r), auth)
    {
      hide Reached, Refines, LiveTip, Owns, Taken;
      var tx := snapshot;
      ActiveIsLiveTip(rows, auth.fams, oldJti, presented, now);
      var familyId, subject := tx[oldJti].familyId, tx[oldJti].subject;
      if subject == NIL || draw.None? || fault.UpdateFails? {
        r := Failed;
        assert AcceptStep(auth.fams, familyId, now, ttl, draw, fault, auth.fams, r);
        Stays(Op.Rotate(presented, now, ttl, draw, fault, r));
        return;
      }
      tx := tx[oldJti := tx[oldJti].(revokedAt := Some(now), replacedBy := Some(draw.value.jti))];
      ConflictIsTaken(rows, auth.fams, draw.value);
      UpdateKeepsDigests(rows, tx, draw.value);
      var conflict := draw.value.jti in tx || exists j | j in tx :: tx[j].digest == draw.value.digest;
      if fault.InsertFails? || conflict || fault == CommitFails(false) {
        r := Failed;
        assert AcceptStep(auth.fams, familyId, now, ttl, draw, fault, auth.fams, r);
        Stays(Op.Rotate(presented, now, ttl, draw, fault, r));
        return;
      }
      tx := tx[draw.value.jti := NewRow(familyId, subject, draw.value.digest, now + ttl, now)];
      r := if fault == CommitFails(true) then Failed else Rotated(draw.value.digest, subject);
      CommitReplace(familyId, oldJti, Op.Rotate(presented, now, ttl, draw, fault, r));
      ghost var before := auth;
      auth := Exchange(auth, familyId, presented, draw.value, now + ttl);
      rows := tx;
      ReachedStep(before, Op.Rotate(presented, now, ttl, draw, fault, r), auth);
    }

    /** The commit of a rotation, as a step of the run. */
    lemma CommitReplace(f: Uuid, oldJti: Uuid, op: Op)
      requires Valid() && op.Rotate? && CanPresent(auth, op.d) && LiveTip(auth.fams, f, op.d, op.now)
      requires oldJti == Tip(auth.fams[f]).jti && Exchanges(auth, op, f)
      requires op.r ==
               if op.fault == CommitFails(true) then Failed else Rotated(op.draw.value.digest, auth.fams[f].subject)
      ensures oldJti in rows
      ensures var t := Exchange(auth, f, op.d, op.draw.value, op.now + op.ttl);
              && Step(auth, op, t)
              && Refines(Replace(rows, oldJti, op.draw.value, op.now + op.ttl, op.now), t.fams)
    {
      hide Reached, Taken, Refines, WellFormed;
      RefineExtend(rows, auth.fams, f, op.draw.value, op.now + op.ttl, op.now);
      var t := Exchange(auth, f, op.d, op.draw.value, op.now + op.ttl);
      assert AcceptStep(auth.fams, f, op.now, op.ttl, op.draw, op.fault, t.fams, op.r);
    }

    /** The INSERT of a login, as a step of the run. */
    lemma CommitLogin(subject: Uuid, draw: Draw, expiresAt: Time, now: Time)
      requires Valid() && subject != NIL && !Taken(auth.fams, draw)
      ensures draw.jti !in rows && draw.jti !in auth.fams && draw.jti !in auth.pending
      ensures var t := LoggedInto(auth, subject, draw, expiresAt);
              && Step(auth, Op.Login(subject, draw, expiresAt), t) && Reached(t)
              && Refines(rows[draw.jti := NewRow(draw.jti, subject, draw.digest, expiresAt, now)], t.fams)
    {
      hide Reached, Refines, WellFormed, Taken;
      PendingIsUnissued(auth, draw.jti);
      ConflictIsTaken(rows, auth.fams, draw);
      RefineLogin(rows, auth.fams, subject, draw, expiresAt, now);
      ReachedStep(auth, Op.Login(subject, draw, expiresAt), LoggedInto(auth, subject, draw, expiresAt));
    }

    /** The INSERT of `login_handler`: the first row of a family is its own root. */
    method InsertLogin(subject: Uuid, draw: Draw, now: Time, ttl: int, insert: Write) returns (ok: bool)
      requires Valid() && subject != NIL
      modifies this
      ensures Valid() && Stamps(old(rows), rows, now)
      ensures ok <==> insert.Done? && !Taken(old(auth.fams), draw)
      ensures insert.NotDone? || Taken(old(auth.fams), draw) ==> rows == old(rows) && auth == old(auth)
      ensures !insert.NotDone? && !Taken(old(auth.fams), draw) ==>
                draw.jti !in old(rows) && draw.jti !in old(auth.fams) && draw.jti !in old(auth.pending) &&
                rows == old(rows)[draw.jti := TokenRow(draw.jti, subject, draw.digest, now + ttl, None, None, now)] &&
                Step(old(auth), Op.Login(subject, draw, now + ttl), auth)
    {
      hide Reached, Refines, Taken, Step, LoggedInto;
      ConflictIsTaken(rows, auth.fams, draw);
      if insert.NotDone? || draw.jti in rows || exists j | j in rows :: rows[j].digest == draw.digest {
        return false;
      }
      CommitLogin(subject, draw, now + ttl, now);
      rows := rows[draw.jti := NewRow(draw.jti, subject, draw.digest, now + ttl, now)];
      auth := LoggedInto(auth, subject, draw, now + ttl);
      ok := insert.Done?;
    }

    /** `remove_unissued_refresh_token`: an error is only logged. */
    method RemoveUnissued(jti: Uuid, remove: Write)
      requires Valid() && jti in auth.pending
      modifies this
      ensures Valid()
      ensures remove.NotDone? ==> rows == old(rows) && auth == old(auth)
      ensures !remove.NotDone? ==> rows == old(rows) - {jti} && Step(old(auth), Op.Abandon(jti), auth)
    {
      PendingIsUnissued(auth, jti);
      hide Reached, Refines;
      if remove.NotDone? {
        return;
      }
      RefineRemove(rows, auth.fams, jti);
      ghost var before := auth;
      rows := rows - {jti};
      auth := Auth(auth.fams - {jti}, auth.pending - {jti}, auth.wins);
      ReachedStep(before, Op.Abandon(jti), auth);
    }

    /** The session calls of a login, in order; the first failure stops it. */
    method RunSession(session: SessionCalls) returns (ready: bool)
      ensures ready <==> (session.hadId ==> session.cycled) && session.inserted && session.saved
    {
      if session.hadId && !session.cycled {
        return false;
      }
      if !session.inserted {
        return false;
      }
      ready := session.saved;
    }

    /** `login_handler` after the credentials were accepted. A failed login leaves
        either nothing, or a family whose token nobody was given. */
    method Login(subject: Uuid, draw: Option<Draw>, now: Time, ttl: int, insert: Write,
                 session: SessionCalls, remove: Write) returns (r: LoginOutcome)
      requires Valid() && subject != NIL
      modifies this
      ensures Valid() && Stamps(old(rows), rows, now)
      ensures r.LoggedIn? <==>
                draw.Some? && insert.Done? && !Taken(old(auth.fams), draw.value) &&
                session.saved && session.inserted && (session.hadId ==> session.cycled)
      ensures (session.hadId && !session.cycled) || !session.inserted || !session.saved ==> r.LoginFailed?
      ensures r.LoggedIn? ==>
                r.digest == draw.value.digest &&
                auth == LoggedInto(old(auth), subject, draw.value, now + ttl).(pending := old(auth.pending)) &&
                rows == old(rows)[draw.value.jti :=
                  TokenRow(draw.value.jti, subject, draw.value.digest, now + ttl, None, None, now)]
      ensures r.LoginFailed? && !insert.Unreported? && !remove.NotDone? ==> rows == old(rows) && auth == old(auth)
      ensures r.LoginFailed? && auth != old(auth) ==>
                draw.Some? && draw.value.jti !in old(auth.fams) &&
                Step(old(auth), Op.Login(subject, draw.value, now + ttl), auth)
    {
      hide Reached, Refines, Taken;
      if draw.None? {
        return LoginFailed;
      }
      var jti := draw.value.jti;
      var ok := InsertLogin(subject, draw.value, now, ttl, insert);
      if !ok {
        return LoginFailed;
      }
      var ready := RunSession(session);
      if !ready {
        RemoveUnissued(jti, remove);
        if !remove.NotDone? {
          assert rows == old(rows) && auth.fams == old(auth.fams) && auth.pending == old(auth.pending);
        }
        return LoginFailed;
      }
      ghost var before := auth;
      auth := auth.(pending := auth.pending - {jti});
      ReachedStep(before, Op.Issue(jti), auth);
      assert auth.pending == old(auth.pending);
      r := LoggedIn(draw.value.digest);
    }

    /** `logout_handler`: revoke whatever is still unrevoked for the subject. */
    method Logout(subject: Uuid, now: Time, update: Write) returns (ok: bool)
      requires Valid()
      modifies this
      ensures Valid() && ok == update.Done? && Stamps(old(rows), rows, now)
      ensures update.NotDone? ==> rows == old(rows) && auth == old(auth)
      ensures !update.NotDone? ==> Step(old(auth), Op.Logout(subject), auth)
      ensures rows.Keys == old(rows).Keys
      ensures !update.NotDone? ==>
                forall j :: j in rows ==>
                  rows[j] == if old(rows)[j].subject == subject && old(rows)[j].revokedAt == None
                             then old(rows)[j].(revokedAt := Some(now)) else old(rows)[j]
    {
      hide Reached, Refines;
      if update.NotDone? {
        return false;
      }
      RefineLogout(rows, auth.fams, subject, now);
      ghost var before := auth;
      rows := RevokeSubject(rows, subject, now);
      auth := auth.(fams := LogoutFamilies(auth.fams, subject));
      ReachedStep(before, Op.Logout(subject), auth);
      ok := update.Done?;
    }
  }
}
