/** What a bulk revocation reaches when rotations run beside it. Its statement
    works on the rows its snapshot shows; a rotation that commits its new row
    afterwards adds one the statement does not look for. */
module TokenRevocation {
  import opened Prelude
  import opened Text
  import opened TokenFamilies
  import opened RefreshStore
  import opened TokenInterleaving

  // ---- A revocation from its first statement to its commit ----

  predicate Starts(op: Op, t: nat) {
    (op.StartRevoke? || op.StartLogout?) && op.t == t
  }

  function ScopeOf(s: State, op: Op): Scope
    requires (op.StartRevoke? || op.StartLogout?) && InPhase(s, op)
  {
    match op
    case StartRevoke(t) => OfFamily(s.txns[t].f)
    case StartLogout(_, subject, _) => OfSubject(subject)
  }

  /** The time the revocation writes. */
  function NowOf(s: State, op: Op): Time
    requires (op.StartRevoke? || op.StartLogout?) && InPhase(s, op)
  {
    match op
    case StartRevoke(t) => s.txns[t].now
    case StartLogout(_, _, now) => now
  }

  /** Transaction `t` neither commits nor aborts after step `at`. */
  predicate Uninterrupted(ops: seq<Op>, at: nat, t: nat) {
    forall i :: at < i < |ops| ==> ops[i] != Abort(t) && ops[i] != CommitSweep(t)
  }

  /** The logins taken back after step `at`. */
  function TakenBack(ops: seq<Op>, at: nat): set<Uuid> {
    set i | at < i < |ops| && ops[i].Abandon? :: ops[i].f
  }

  lemma {:induction false} PrefixRuns(ops: seq<Op>, n: nat)
    requires CanRun(ops) && n <= |ops|
    ensures CanRun(ops[..n])
    decreases |ops|
  {
    if n == |ops| {
      assert ops[..n] == ops;
    } else {
      PrefixRuns(ops[..|ops| - 1], n);
      assert ops[..|ops| - 1][..n] == ops[..n];
    }
  }

  lemma SweepGoesOn(s: State, op: Op, t: nat)
    requires Enabled(s, op) && t in s.txns && s.txns[t].Sweeping? && op != Abort(t) && op != CommitSweep(t)
    ensures var s' := Apply(s, op);
            && t in s'.txns && s'.txns[t].Sweeping? && s'.txns[t].now == s.txns[t].now
            && s'.txns[t].seen == s.txns[t].seen - if op.Abandon? then {op.f} else {}
  {
  }

  lemma {:induction false} SeenAlong(ops: seq<Op>, at: nat, t: nat)
    requires CanRun(ops) && at < |ops| && Starts(ops[at], t) && Uninterrupted(ops, at, t)
    ensures CanRun(ops[..at]) && Enabled(RunOf(ops[..at]), ops[at])
    ensures t in RunOf(ops).txns && RunOf(ops).txns[t].Sweeping?
    ensures var s := RunOf(ops[..at]);
            RunOf(ops).txns[t].seen == RowsInScope(s.rows, ScopeOf(s, ops[at])) - TakenBack(ops, at)
    ensures RunOf(ops).txns[t].now == NowOf(RunOf(ops[..at]), ops[at])
    decreases |ops|
  {
    hide Enabled, Apply;
    var n := |ops| - 1;
    PrefixRuns(ops, at);
    if n == at {
      assert TakenBack(ops, at) == {};
      StartTakesSnapshot(RunOf(ops[..at]), ops[at]);
    } else {
      SeenAlong(ops[..n], at, t);
      assert ops[..n][..at] == ops[..at];
      SweepGoesOn(RunOf(ops[..n]), ops[n], t);
      TakenBackGrows(ops, at);
    }
  }

  lemma StartTakesSnapshot(s: State, op: Op)
    requires (op.StartRevoke? || op.StartLogout?) && Enabled(s, op)
    ensures op.t in Apply(s, op).txns && Apply(s, op).txns[op.t].Sweeping?
    ensures Apply(s, op).txns[op.t].seen == RowsInScope(s.rows, ScopeOf(s, op))
    ensures Apply(s, op).txns[op.t].now == NowOf(s, op)
  {
  }

  lemma TakenBackGrows(ops: seq<Op>, at: nat)
    requires at < |ops| - 1
    ensures var n := |ops| - 1;
            TakenBack(ops, at) == TakenBack(ops[..n], at) + if ops[n].Abandon? then {ops[n].f} else {}
  {
    var n := |ops| - 1;
    var last := if ops[n].Abandon? then {ops[n].f} else {};
    forall k | k in TakenBack(ops, at) ensures k in TakenBack(ops[..n], at) + last {
      var i :| at < i < |ops| && ops[i].Abandon? && ops[i].f == k;
      assert i < n ==> ops[..n][i] == ops[i];
    }
    forall k | k in TakenBack(ops[..n], at) ensures k in TakenBack(ops, at) {
      var i :| at < i < n && ops[..n][i].Abandon? && ops[..n][i].f == k;
      assert ops[i] == ops[..n][i];
    }
  }

  /** The commit revokes exactly the unrevoked rows its snapshot showed. */
  lemma SweepEffect(s: State, t: nat, k: Uuid)
    requires Inv(s) && Enabled(s, CommitSweep(t)) && k in s.rows
    ensures var rows := Apply(s, CommitSweep(t)).rows;
            k in rows && (rows[k].revokedAt == None <==> s.rows[k].revokedAt == None && k !in s.txns[t].seen)
  {
    hide RowsOk, PendingOk, WinOk, Distinct, Apart;
    assert TxnOk(s.rows, s.issued, s.txns[t]);
    assert k in s.txns[t].seen ==> SeenOk(s.rows, s.txns[t], k);
  }

  /** A revocation that commits has revoked every row of its scope that its statement
      saw and that was not deleted since. */
  lemma SweepReachesWhatItSaw(ops: seq<Op>, t: nat, k: Uuid)
    requires CanRun(ops) && Enabled(RunOf(ops), CommitSweep(t)) && k in RunOf(ops).txns[t].seen
    ensures var rows := Apply(RunOf(ops), CommitSweep(t)).rows;
            k in rows && rows[k].revokedAt.Some?
  {
    RunHasInv(ops);
    SawRow(RunOf(ops), t, k);
    SweepEffect(RunOf(ops), t, k);
  }

  lemma SawRow(s: State, t: nat, k: Uuid)
    requires Inv(s) && Enabled(s, CommitSweep(t)) && k in s.txns[t].seen
    ensures k in s.rows
  {
    hide RowsOk, PendingOk, WinOk, Distinct, Apart;
    assert TxnOk(s.rows, s.issued, s.txns[t]);
    assert SeenOk(s.rows, s.txns[t], k);
  }

  /** After a revocation commits, of a family or of a subject, a row is unrevoked
      exactly when it was unrevoked just before and is not one that its statement
      saw (other than a login taken back meanwhile, should its jti be drawn again). */
  lemma RevocationMisses(ops: seq<Op>, at: nat, t: nat, k: Uuid)
    requires CanRun(ops) && at < |ops| && Starts(ops[at], t) && Uninterrupted(ops, at, t)
    requires Enabled(RunOf(ops), CommitSweep(t)) && k in RunOf(ops).rows
    ensures CanRun(ops[..at]) && Enabled(RunOf(ops[..at]), ops[at])
    ensures var before, s, after := RunOf(ops[..at]), RunOf(ops), Apply(RunOf(ops), CommitSweep(t));
            && k in after.rows
            && (after.rows[k].revokedAt == None <==>
                  && s.rows[k].revokedAt == None
                  && k !in RowsInScope(before.rows, ScopeOf(before, ops[at])) - TakenBack(ops, at))
  {
    hide Inv, Enabled, Apply;
    SeenAlong(ops, at, t);
    RunHasInv(ops);
    SweepEffect(RunOf(ops), t, k);
  }

  /** The rows it revokes get its time, and nothing else of any row changes. */
  lemma RevocationStamps(ops: seq<Op>, at: nat, t: nat, k: Uuid)
    requires CanRun(ops) && at < |ops| && Starts(ops[at], t) && Uninterrupted(ops, at, t)
    requires Enabled(RunOf(ops), CommitSweep(t)) && k in RunOf(ops).rows
    ensures CanRun(ops[..at]) && Enabled(RunOf(ops[..at]), ops[at])
    ensures var before, row := RunOf(ops[..at]), RunOf(ops).rows[k];
            var row' := Apply(RunOf(ops), CommitSweep(t)).rows[k];
            row' == row || (row.revokedAt == None && row' == row.(revokedAt := Some(NowOf(before, ops[at]))))
  {
    SeenAlong(ops, at, t);
  }

  // ---- Rows whose login is not pending stay ----

  lemma ReturnedStays(s: State, op: Op, k: Uuid)
    requires Enabled(s, op) && k in s.rows && k !in s.pending
    ensures op != Abandon(k) && k in Apply(s, op).rows && k !in Apply(s, op).pending
  {
  }

  lemma {:induction false} ReturnedIsNotTakenBack(ops: seq<Op>, at: nat, k: Uuid)
    requires CanRun(ops) && at <= |ops| && CanRun(ops[..at])
    requires k in RunOf(ops[..at]).rows && k !in RunOf(ops[..at]).pending
    ensures k in RunOf(ops).rows && k !in RunOf(ops).pending && k !in TakenBack(ops, at)
    ensures at < |ops| ==> ops[at] != Abandon(k)
    decreases |ops|
  {
    hide Enabled, Apply;
    if at == |ops| {
      assert ops[..at] == ops;
    } else {
      var n := |ops| - 1;
      assert ops[..n][..at] == ops[..at];
      ReturnedIsNotTakenBack(ops[..n], at, k);
      ReturnedStays(RunOf(ops[..n]), ops[n], k);
      if at < n {
        TakenBackGrows(ops, at);
      } else {
        assert TakenBack(ops, at) == {};
      }
    }
  }

  /** No row of a family about to be revoked is a login that could be taken back. */
  lemma KnownIsReturned(s: State, t: nat, k: Uuid)
    requires Inv(s) && t in s.txns && s.txns[t].Known?
    requires k in s.rows && s.rows[k].familyId == s.txns[t].f
    ensures k !in s.pending
  {
    hide Apart, WinOk, Distinct, Rooted, UniqueDigests, OneUnrevoked;
    var x := s.txns[t];
    assert TxnOk(s.rows, s.issued, x);
    var j :| RotationOk(s.rows, s.issued, x.d, j) && s.rows[j].familyId == x.f;
    assert k in s.pending ==> PendingOk(s, k);
  }

  lemma KnownHasRoot(s: State, t: nat)
    requires Inv(s) && t in s.txns && s.txns[t].Known?
    ensures s.txns[t].f in s.rows && s.rows[s.txns[t].f].familyId == s.txns[t].f
  {
    hide Apart, WinOk, Distinct, UniqueDigests, OneUnrevoked, PendingOk;
    var x := s.txns[t];
    assert TxnOk(s.rows, s.issued, x);
    var j :| RotationOk(s.rows, s.issued, x.d, j) && s.rows[j].familyId == x.f;
    assert HasRoot(s.rows, j);
  }

  /** For the revocation after a replay nothing is taken back: the only rows of the
      family that escape are those the statement did not see. */
  lemma ReplayMisses(ops: seq<Op>, at: nat, t: nat, k: Uuid)
    requires CanRun(ops) && at < |ops| && ops[at] == StartRevoke(t) && Uninterrupted(ops, at, t)
    requires Enabled(RunOf(ops), CommitSweep(t)) && k in RunOf(ops).rows
    ensures CanRun(ops[..at]) && Enabled(RunOf(ops[..at]), ops[at])
    ensures var before, s, after := RunOf(ops[..at]), RunOf(ops), Apply(RunOf(ops), CommitSweep(t));
            && k in after.rows
            && (after.rows[k].revokedAt == None <==>
                  s.rows[k].revokedAt == None && k !in RowsInScope(before.rows, OfFamily(before.txns[t].f)))
  {
    RevocationMisses(ops, at, t, k);
    var before := RunOf(ops[..at]);
    if k in RowsInScope(before.rows, OfFamily(before.txns[t].f)) {
      RunHasInv(ops[..at]);
      hide Inv, Apply;
      KnownIsReturned(before, t, k);
      ReturnedIsNotTakenBack(ops, at, k);
    }
  }

  /** The same for a logout, for every row whose login had been returned. */
  lemma LogoutMisses(ops: seq<Op>, at: nat, t: nat, subject: Uuid, now: Time, k: Uuid)
    requires CanRun(ops) && at < |ops| && ops[at] == StartLogout(t, subject, now) && Uninterrupted(ops, at, t)
    requires Enabled(RunOf(ops), CommitSweep(t)) && k in RunOf(ops).rows
    ensures CanRun(ops[..at])
    ensures var before, s, after := RunOf(ops[..at]), RunOf(ops), Apply(RunOf(ops), CommitSweep(t));
            k in after.rows && (k !in before.pending ==>
              (after.rows[k].revokedAt == None <==>
                 s.rows[k].revokedAt == None && k !in RowsInScope(before.rows, OfSubject(subject))))
  {
    RevocationMisses(ops, at, t, k);
    var before := RunOf(ops[..at]);
    if k in RowsInScope(before.rows, OfSubject(subject)) && k !in before.pending {
      ReturnedIsNotTakenBack(ops, at, k);
    }
  }

  // ---- Dead families ----

  /** Every committed row of the family is revoked, and its login was returned. */
  predicate Dead(s: State, f: Uuid) {
    f in s.rows && f !in s.pending && forall k :: k in s.rows && s.rows[k].familyId == f ==> s.rows[k].revokedAt.Some?
  }

  lemma DeadStep(s: State, op: Op, f: Uuid)
    requires Inv(s) && Enabled(s, op) && Dead(s, f)
    ensures Dead(Apply(s, op), f)
    ensures op.CommitRotation? ==> s.txns[op.t].j in s.rows && s.rows[s.txns[op.t].j].familyId != f
  {
    hide RowsOk, PendingOk, WinOk, Distinct, Apart;
    if op.CommitRotation? {
      assert TxnOk(s.rows, s.issued, s.txns[op.t]);
      assert s.txns[op.t].j in Holds(s.txns[op.t]);
      assert LockOk(s.rows, s.txns[op.t].j);
    }
  }

  /** However statements interleave, a dead family stays dead and none of its tokens
      is exchanged again: a rotation under way would hold the lock of an unrevoked row. */
  lemma {:induction false} DeadStaysDead(ops: seq<Op>, at: nat, f: Uuid)
    requires CanRun(ops) && at <= |ops| && CanRun(ops[..at]) && Dead(RunOf(ops[..at]), f)
    ensures Dead(RunOf(ops), f)
    ensures forall i :: at <= i < |ops| ==> CanRun(ops[..i]) && !Exchanges(RunOf(ops[..i]), ops[i], f)
    decreases |ops|
  {
    hide Enabled, Apply, Inv, Dead, Exchanges;
    if at == |ops| {
      assert ops[..at] == ops;
    } else {
      var n := |ops| - 1;
      assert ops[..n][..at] == ops[..at];
      DeadStaysDead(ops[..n], at, f);
      RunHasInv(ops[..n]);
      DeadStep(RunOf(ops[..n]), ops[n], f);
      DeadDoesNotExchange(RunOf(ops[..n]), ops[n], f);
      forall i | at <= i < |ops| ensures CanRun(ops[..i]) && !Exchanges(RunOf(ops[..i]), ops[i], f) {
        assert i < n ==> ops[..n][..i] == ops[..i] && ops[..n][i] == ops[i];
      }
    }
  }

  /** The step commits the exchange of a token of family `f`. */
  predicate Exchanges(s: State, op: Op, f: Uuid) {
    && op.CommitRotation? && op.t in s.txns && s.txns[op.t].Inserted?
    && s.txns[op.t].j in s.rows && s.rows[s.txns[op.t].j].familyId == f
  }

  lemma DeadDoesNotExchange(s: State, op: Op, f: Uuid)
    requires Inv(s) && Enabled(s, op) && Dead(s, f)
    ensures !Exchanges(s, op, f)
  {
    DeadStep(s, op, f);
  }

  /** The revocation after a replay makes its family dead exactly when its statement
      saw every row of the family that is unrevoked just before its commit. */
  lemma ReplayMakesDeadExactly(ops: seq<Op>, at: nat, t: nat)
    requires CanRun(ops) && at < |ops| && ops[at] == StartRevoke(t) && Uninterrupted(ops, at, t)
    requires Enabled(RunOf(ops), CommitSweep(t))
    ensures CanRun(ops[..at]) && Enabled(RunOf(ops[..at]), ops[at])
    ensures var before, s := RunOf(ops[..at]), RunOf(ops);
            var f := before.txns[t].f;
            Dead(Apply(s, CommitSweep(t)), f) <==>
              forall k :: k in s.rows && s.rows[k].familyId == f && s.rows[k].revokedAt == None ==>
                k in RowsInScope(before.rows, OfFamily(f))
  {
    SeenAlong(ops, at, t);
    RunHasInv(ops[..at]);
    hide Inv;
    var before, s := RunOf(ops[..at]), RunOf(ops);
    var f := before.txns[t].f;
    KnownHasRoot(before, t);
    KnownIsReturned(before, t, f);
    ReturnedIsNotTakenBack(ops, at, f);
    SweepKeepsFamilies(s, t);
    forall k | k in s.rows
      ensures Apply(s, CommitSweep(t)).rows[k].revokedAt == None <==>
                s.rows[k].revokedAt == None && k !in RowsInScope(before.rows, OfFamily(f))
    {
      ReplayMisses(ops, at, t, k);
    }
  }

  lemma SweepKeepsFamilies(s: State, t: nat)
    requires Enabled(s, CommitSweep(t))
    ensures var s' := Apply(s, CommitSweep(t));
            && s'.rows.Keys == s.rows.Keys && s'.pending == s.pending
            && forall k :: k in s.rows ==> s'.rows[k].familyId == s.rows[k].familyId
  {
  }

  // ---- The steps that let a row escape ----

  /** The step commits a rotation that adds row `k` to family `f`. */
  predicate Adds(s: State, op: Op, f: Uuid, k: Uuid) {
    Exchanges(s, op, f) && s.txns[op.t].draw.jti == k
  }

  predicate AddedAt(ops: seq<Op>, i: nat, f: Uuid, k: Uuid) {
    i < |ops| && CanRun(ops[..i]) && Adds(RunOf(ops[..i]), ops[i], f, k)
  }

  predicate InFamily(rows: Table, f: Uuid, k: Uuid) {
    k in rows && rows[k].familyId == f
  }

  /** Only the commit of a rotation adds a row to a family that is there, and nothing
      takes one away. */
  lemma FamilyStep(s: State, op: Op, f: Uuid, k: Uuid)
    requires Inv(s) && Enabled(s, op) && f in s.rows && f !in s.pending
    ensures InFamily(Apply(s, op).rows, f, k) <==> InFamily(s.rows, f, k) || Adds(s, op, f, k)
    ensures Adds(s, op, f, k) ==> k !in s.rows
  {
    hide RowsOk, TxnOk, WinOk, Distinct, Apart;
    if op.CommitRotation? {
      RotationIsReady(s, op.t);
    } else if op.Abandon? {
      assert PendingOk(s, op.f);
    }
  }

  lemma AddedEarlier(ops: seq<Op>, i: nat, f: Uuid, k: Uuid)
    requires CanRun(ops) && i < |ops|
    ensures var n := |ops| - 1;
            && (i < n ==> (AddedAt(ops, i, f, k) <==> AddedAt(ops[..n], i, f, k)))
            && (i == n ==> (AddedAt(ops, i, f, k) <==> Adds(RunOf(ops[..n]), ops[n], f, k)))
  {
    hide Adds;
    assert ops[..|ops| - 1][..i] == ops[..i];
  }

  /** Since step `at` the family has grown by what rotations added, and by nothing else. */
  lemma {:induction false} FamilyHistory(ops: seq<Op>, at: nat, f: Uuid, k: Uuid)
    requires CanRun(ops) && at <= |ops| && CanRun(ops[..at])
    requires f in RunOf(ops[..at]).rows && f !in RunOf(ops[..at]).pending
    ensures InFamily(RunOf(ops).rows, f, k) <==>
              InFamily(RunOf(ops[..at]).rows, f, k) || exists i: nat :: at <= i && AddedAt(ops, i, f, k)
    ensures InFamily(RunOf(ops[..at]).rows, f, k) ==> forall i: nat :: at <= i ==> !AddedAt(ops, i, f, k)
    decreases |ops|
  {
    hide Enabled, Apply, Inv, Adds;
    if at == |ops| {
      assert ops[..at] == ops;
    } else {
      var n := |ops| - 1;
      assert ops[..n][..at] == ops[..at];
      FamilyHistory(ops[..n], at, f, k);
      ReturnedIsNotTakenBack(ops[..n], at, f);
      RunHasInv(ops[..n]);
      FamilyStep(RunOf(ops[..n]), ops[n], f, k);
      AddedEarlier(ops, n, f, k);
      forall i: nat | at <= i && AddedAt(ops, i, f, k)
        ensures i == n || AddedAt(ops[..n], i, f, k)
      {
        AddedEarlier(ops, i, f, k);
      }
      if i: nat :| at <= i && AddedAt(ops[..n], i, f, k) {
        AddedEarlier(ops, i, f, k);
      }
    }
  }

  /** The revocation after a replay makes its family dead exactly when every row that
      a rotation of the family committed since the statement began is revoked already. */
  lemma ReplayMakesDeadBySteps(ops: seq<Op>, at: nat, t: nat)
    requires CanRun(ops) && at < |ops| && ops[at] == StartRevoke(t) && Uninterrupted(ops, at, t)
    requires Enabled(RunOf(ops), CommitSweep(t))
    ensures CanRun(ops[..at]) && Enabled(RunOf(ops[..at]), ops[at])
    ensures var s, f := RunOf(ops), RunOf(ops[..at]).txns[t].f;
            Dead(Apply(s, CommitSweep(t)), f) <==>
              forall i: nat, k :: at <= i && AddedAt(ops, i, f, k) ==> k in s.rows && s.rows[k].revokedAt.Some?
  {
    hide Inv, Apply, Dead, AddedAt, InFamily, RowsInScope;
    ReplayMakesDeadExactly(ops, at, t);
    var s, f := RunOf(ops), RunOf(ops[..at]).txns[t].f;
    RunHasInv(ops[..at]);
    KnownHasRoot(RunOf(ops[..at]), t);
    KnownIsReturned(RunOf(ops[..at]), t, f);
    forall k
      ensures InFamily(s.rows, f, k) <==>
                InFamily(RunOf(ops[..at]).rows, f, k) || exists i: nat :: at <= i && AddedAt(ops, i, f, k)
      ensures InFamily(RunOf(ops[..at]).rows, f, k) ==> forall i: nat :: at <= i ==> !AddedAt(ops, i, f, k)
      ensures InFamily(s.rows, f, k) <==> k in s.rows && s.rows[k].familyId == f
      ensures InFamily(RunOf(ops[..at]).rows, f, k) <==> k in RowsInScope(RunOf(ops[..at]).rows, OfFamily(f))
    {
      FamilyHistory(ops, at, f, k);
      FamilyIsScope(s.rows, f, k);
      FamilyIsScope(RunOf(ops[..at]).rows, f, k);
    }
  }

  lemma FamilyIsScope(rows: Table, f: Uuid, k: Uuid)
    ensures InFamily(rows, f, k) <==> k in rows && rows[k].familyId == f
    ensures InFamily(rows, f, k) <==> k in RowsInScope(rows, OfFamily(f))
  {
  }

  /** So it is enough that no rotation of the family commits in between. */
  lemma UndisturbedReplayMakesDead(ops: seq<Op>, at: nat, t: nat)
    requires CanRun(ops) && at < |ops| && ops[at] == StartRevoke(t) && Uninterrupted(ops, at, t)
    requires Enabled(RunOf(ops), CommitSweep(t)) && CanRun(ops[..at]) && Enabled(RunOf(ops[..at]), ops[at])
    requires forall i :: at < i < |ops| && CanRun(ops[..i]) ==>
               !Exchanges(RunOf(ops[..i]), ops[i], RunOf(ops[..at]).txns[t].f)
    ensures Dead(Apply(RunOf(ops), CommitSweep(t)), RunOf(ops[..at]).txns[t].f)
  {
    hide Apply, Enabled, Dead;
    ReplayMakesDeadBySteps(ops, at, t);
  }
}
