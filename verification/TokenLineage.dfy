/** The interleaved transactions leave the same chains as transactions run one at
    a time: every committed table stores a map of families. */
module TokenLineage {
  import opened Prelude
  import opened Text
  import opened TokenFamilies
  import opened RefreshStore
  import opened TokenInterleaving

  lemma TipOfLocked(rows: Table, fams: Families, j: Uuid)
    requires Refines(rows, fams) && LockOk(rows, j)
    ensures var f := rows[j].familyId;
            f in fams && fams[f].chain != [] && fams[f].live && Tip(fams[f]).jti == j
  {
    hide Refines, WellFormed;
    var i := PlaceOf(rows, fams, j);
  }

  lemma AloneInFamily(s: State, fams: Families, f: Uuid)
    requires Refines(s.rows, fams) && PendingOk(s, f)
    ensures f in fams && |fams[f].chain| == 1
  {
    hide Refines, WellFormed;
    RefinesIsWellFormed(s.rows, fams);
    var i := PlaceOf(s.rows, fams, f);
    RootOf(fams, f);
    if |fams[f].chain| > 1 {
      StoredMember(s.rows, fams, f, 1);
      MembersApart(fams, f, 0, f, 1);
    }
  }

  /** Revoking locked rows is killing the families whose tips they are. */
  lemma SweptRefines(rows: Table, fams: Families, marked: set<Uuid>, now: Time) returns (fams': Families)
    requires Refines(rows, fams) && forall j :: j in marked ==> LockOk(rows, j)
    ensures Refines(Swept(rows, marked, now), fams')
  {
    hide Refines, WellFormed;
    var chosen := set j | j in marked && j in rows :: rows[j].familyId;
    fams' := map f | f in fams :: if f in chosen then fams[f].(live := false) else fams[f];
    forall j | j in rows
      ensures Swept(rows, marked, now)[j] == Revoked(rows[j], rows[j].familyId in chosen, now)
    {
      if rows[j].revokedAt == None && rows[j].familyId in chosen {
        var k :| k in marked && k in rows && rows[k].familyId == rows[j].familyId;
        TipOfLocked(rows, fams, j);
        TipOfLocked(rows, fams, k);
      }
    }
    RefineRevoke(rows, Swept(rows, marked, now), fams, fams', chosen, now);
  }

  lemma StepRefines(s: State, fams: Families, op: Op) returns (fams': Families)
    requires Inv(s) && Enabled(s, op) && Refines(s.rows, fams)
    ensures Refines(Apply(s, op).rows, fams')
  {
    hide Refines, WellFormed, RowsOk, WinOk, Distinct, Apart;
    match op
    case CommitRotation(t, _) =>
      var x := s.txns[t];
      RotationIsReady(s, t);
      TipOfLocked(s.rows, fams, x.j);
      ConflictIsTaken(s.rows, fams, x.draw);
      RefineExtend(s.rows, fams, s.rows[x.j].familyId, x.draw, x.expiresAt, x.now);
      fams' := Extend(fams, s.rows[x.j].familyId, x.draw, x.expiresAt);
    case CommitSweep(t) =>
      assert TxnOk(s.rows, s.issued, s.txns[t]);
      fams' := SweptRefines(s.rows, fams, s.txns[t].marked, s.txns[t].now);
    case Login(subject, draw, expiresAt, now) =>
      ConflictIsTaken(s.rows, fams, draw);
      RefineLogin(s.rows, fams, subject, draw, expiresAt, now);
      fams' := fams[draw.jti := LoginFamily(subject, draw, expiresAt)];
    case Abandon(f) =>
      assert PendingOk(s, f);
      AloneInFamily(s, fams, f);
      RefineRemove(s.rows, fams, f);
      fams' := fams - {f};
    case _ =>
      fams' := fams;
  }

  /** However statements interleave, every committed table stores families exactly. */
  lemma {:induction false} RunRefines(ops: seq<Op>) returns (fams: Families)
    requires CanRun(ops)
    ensures Refines(RunOf(ops).rows, fams)
    decreases |ops|
  {
    if ops == [] {
      fams := map[];
    } else {
      var n := |ops| - 1;
      fams := RunRefines(ops[..n]);
      RunHasInv(ops[..n]);
      fams := StepRefines(RunOf(ops[..n]), fams, ops[n]);
    }
  }

  predicate BothTips(a: TokenRow, b: TokenRow) {
    a.familyId == b.familyId && a.replacedBy == None && b.replacedBy == None
  }

  /** Hence the lineage: in every committed state each row is reached from its root
      `jti = family_id` along `replaced_by` in exactly one number of steps and never
      again; its subject is its root's; only an unreplaced row is unrevoked, and a
      family has a single unreplaced row. */
  lemma Lineage(ops: seq<Op>, j: Uuid) returns (depth: nat)
    requires CanRun(ops) && j in RunOf(ops).rows
    ensures var rows := RunOf(ops).rows;
            var f := rows[j].familyId;
            && f in rows && rows[f].familyId == f
            && Follow(rows, f, depth) == Some(j)
            && (forall n :: Follow(rows, f, n) == Some(j) ==> n == depth)
            && (forall n: nat :: n > 0 ==> Follow(rows, j, n) != Some(j))
            && rows[j].subject == rows[f].subject && rows[j].subject != NIL
            && (rows[j].revokedAt == None ==> rows[j].replacedBy == None)
            && (rows[j].replacedBy.Some? ==>
                  rows[j].replacedBy.value in rows && rows[rows[j].replacedBy.value].familyId == f)
            && (forall k :: k in rows && BothTips(rows[j], rows[k]) ==> j == k)
  {
    hide Refines, WellFormed, Follow, CanRun, RunOf;
    var fams := RunRefines(ops);
    var rows := RunOf(ops).rows;
    depth := LineageOfRow(rows, fams, j);
    forall k | k in rows && BothTips(rows[j], rows[k]) ensures j == k {
      OneTip(rows, fams, j, k);
    }
  }
}
