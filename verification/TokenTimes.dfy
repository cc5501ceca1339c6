/** What the statements of a rotation write, traced back to the steps that brought
    the values: its time from its begin, the drawn token from its UPDATE, the lifetime
    from its INSERT. And which tokens have been handed out. */
module TokenTimes {
  import opened Prelude
  import opened Text
  import opened TokenFamilies
  import opened TokenInterleaving
  import opened TokenRevocation

  predicate BeginsAt(ops: seq<Op>, b: nat, t: nat) {
    b < |ops| && ops[b].Begin? && ops[b].t == t && forall i :: b < i < |ops| ==> !(ops[i].Begin? && ops[i].t == t)
  }

  predicate Drew(x: Txn) {
    x.Updated? || x.Inserted?
  }

  /** Where the contents of an open rotation come from at its latest step. */
  lemma TxnOrigin(s: State, op: Op, t: nat)
    requires Enabled(s, op) && t in Apply(s, op).txns && !Apply(s, op).txns[t].Sweeping?
    ensures var x' := Apply(s, op).txns[t];
      if op.Begin? && op.t == t then
        op.d == x'.d && op.now == x'.now && !Drew(x')
      else
        && t in s.txns && !s.txns[t].Sweeping? && s.txns[t].d == x'.d && s.txns[t].now == x'.now
        && (Drew(x') ==>
              if op.Update? && op.t == t then op.draw == x'.draw && x'.Updated?
              else Drew(s.txns[t]) && s.txns[t].draw == x'.draw)
        && (x'.Inserted? ==>
              if op.Insert? && op.t == t then x'.expiresAt == x'.now + op.ttl && op.ttl > 0
              else s.txns[t] == x')
  {
  }

  /** The open rotation `t` began at `b`, drew at `m` and inserted at `u`. */
  lemma {:induction false} RotationHistory(ops: seq<Op>, t: nat) returns (b: nat, m: nat, u: nat)
    requires CanRun(ops) && t in RunOf(ops).txns && !RunOf(ops).txns[t].Sweeping?
    ensures BeginsAt(ops, b, t) && ops[b].d == RunOf(ops).txns[t].d && ops[b].now == RunOf(ops).txns[t].now
    ensures Drew(RunOf(ops).txns[t]) ==> b < m < |ops| && ops[m] == Update(t, RunOf(ops).txns[t].draw)
    ensures RunOf(ops).txns[t].Inserted? ==>
              && m < u < |ops| && ops[u].Insert? && ops[u].t == t
              && RunOf(ops).txns[t].expiresAt == ops[b].now + ops[u].ttl && ops[u].ttl > 0
    decreases |ops|
  {
    hide Enabled, Apply;
    var n := |ops| - 1;
    TxnOrigin(RunOf(ops[..n]), ops[n], t);
    if ops[n].Begin? && ops[n].t == t {
      b, m, u := n, n, n;
    } else {
      b, m, u := RotationHistory(ops[..n], t);
      if ops[n].Update? && ops[n].t == t && Drew(RunOf(ops).txns[t]) {
        m := n;
      }
      if ops[n].Insert? && ops[n].t == t && RunOf(ops).txns[t].Inserted? {
        u := n;
      }
    }
  }

  /** Nothing but row `j` is changed and row `k` added. */
  predicate Writes(rows: Table, rows': Table, j: Uuid, k: Uuid) {
    && rows'.Keys == rows.Keys + {k}
    && forall i :: i in rows && i != j ==> i in rows' && rows'[i] == rows[i]
  }

  /** When a rotation commits a new row `k` of family `f`, the row it replaces is that of
      the token presented at its begin, unrevoked and unexpired at the time of the begin;
      the old row is revoked at that time and linked; the new row carries the token drawn,
      was created at that time, and expires one lifetime later. */
  lemma RotationWrites(ops: seq<Op>, i: nat, f: Uuid, k: Uuid)
    returns (b: nat, m: nat, u: nat, j: Uuid)
    requires CanRun(ops) && AddedAt(ops, i, f, k)
    ensures CanRun(ops[..i + 1])
    ensures BeginsAt(ops[..i], b, ops[i].t) && b < m < u < i
    ensures ops[m].Update? && ops[m].t == ops[i].t && ops[m].draw.jti == k
    ensures ops[u].Insert? && ops[u].t == ops[i].t && ops[u].ttl > 0
    ensures var rows, rows' := RunOf(ops[..i]).rows, RunOf(ops[..i + 1]).rows;
      var now, ttl := ops[b].now, ops[u].ttl;
      && j in rows && rows[j].familyId == f && rows[j].digest == ops[b].d
      && rows[j].revokedAt == None && rows[j].expiresAt > now
      && k !in rows && Writes(rows, rows', j, k)
      && rows'[j] == rows[j].(revokedAt := Some(now), replacedBy := Some(k))
      && rows'[k] == TokenRow(f, rows[j].subject, ops[m].draw.digest, now + ttl, None, None, now)
    ensures RunOf(ops[..i + 1]).wins == RunOf(ops[..i]).wins + [ops[b].d]
  {
    PrefixRuns(ops, i + 1);
    assert ops[..i + 1][..i] == ops[..i];
    var s, t := RunOf(ops[..i]), ops[i].t;
    j := s.txns[t].j;
    b, m, u := RotationHistory(ops[..i], t);
    RunHasInv(ops[..i]);
    ExchangeWrites(s, ops[i]);
  }

  lemma ExchangeWrites(s: State, op: Op)
    requires Inv(s) && Enabled(s, op) && op.CommitRotation?
    ensures var x, s' := s.txns[op.t], Apply(s, op);
      && x.j in s.rows && s.rows[x.j].digest == x.d && s.rows[x.j].revokedAt == None && s.rows[x.j].expiresAt > x.now
      && x.draw.jti !in s.rows && Writes(s.rows, s'.rows, x.j, x.draw.jti)
      && s'.rows[x.j] == s.rows[x.j].(revokedAt := Some(x.now), replacedBy := Some(x.draw.jti))
      && s'.rows[x.draw.jti] ==
           TokenRow(s.rows[x.j].familyId, s.rows[x.j].subject, x.draw.digest, x.expiresAt, None, None, x.now)
      && s'.wins == s.wins + [x.d]
  {
    hide RowsOk, PendingOk, WinOk, Distinct, Apart;
    RotationIsReady(s, op.t);
    assert TxnOk(s.rows, s.issued, s.txns[op.t]);
  }

  /** A login adds one row, its own root. */
  lemma LoginWrites(s: State, op: Op)
    requires Enabled(s, op) && op.Login?
    ensures var k := op.draw.jti;
      && k !in s.rows && Writes(s.rows, Apply(s, op).rows, k, k) && k in Apply(s, op).pending
      && Apply(s, op).rows[k] == TokenRow(k, op.subject, op.draw.digest, op.expiresAt, None, None, op.now)
  {
  }

  /** Every other statement leaves the committed table and the exchanges alone, aborts included. */
  lemma OnlyCommitsWrite(s: State, op: Op)
    requires Enabled(s, op) && !op.CommitRotation? && !op.CommitSweep? && !op.Login? && !op.Abandon?
    ensures Apply(s, op).rows == s.rows && Apply(s, op).wins == s.wins
    ensures op.Abort? ==>
              op.t !in Apply(s, op).txns && Apply(s, op).issued == s.issued && Apply(s, op).pending == s.pending
  {
  }

  /** The second lookup finds the family of a known token, and ends the transaction for an
      unknown one. */
  lemma LookupDecides(s: State, op: Op)
    requires Enabled(s, op) && op.SelectAny?
    ensures op.found == None ==> op.t !in Apply(s, op).txns
    ensures op.found.Some? ==>
              Apply(s, op).txns[op.t] == Known(s.txns[op.t].d, s.txns[op.t].now, s.rows[op.found.value].familyId)
  {
  }

  /** A token that was handed out always has its row, so that lookup never comes back empty. */
  lemma PresentedTokenHasRow(ops: seq<Op>, op: Op)
    requires CanRun(ops) && Enabled(RunOf(ops), op) && op.SelectAny?
    ensures op.found.Some? && op.found.value in RunOf(ops).rows
    ensures RunOf(ops).rows[op.found.value].digest == RunOf(ops).txns[op.t].d
  {
    RunHasInv(ops);
    var s := RunOf(ops);
    assert TxnOk(s.rows, s.issued, s.txns[op.t]) && HasRow(s.rows, s.txns[op.t].d);
  }

  // ---- Which tokens were handed out ----

  predicate HandsOut(s: State, op: Op, d: Digest) {
    || (op.Issue? && op.f in s.pending && op.f in s.rows && s.rows[op.f].digest == d)
    || (op.CommitRotation? && op.heard && op.t in s.txns && s.txns[op.t].Inserted? && s.txns[op.t].draw.digest == d)
  }

  predicate HandedOutAt(ops: seq<Op>, i: nat, d: Digest) {
    i < |ops| && CanRun(ops[..i]) && HandsOut(RunOf(ops[..i]), ops[i], d)
  }

  lemma IssuedStep(s: State, op: Op, d: Digest)
    requires Enabled(s, op)
    ensures d in Apply(s, op).issued <==> d in s.issued || HandsOut(s, op, d)
  {
  }

  lemma HandedOutEarlier(ops: seq<Op>, i: nat, d: Digest)
    requires CanRun(ops) && i < |ops|
    ensures var n := |ops| - 1;
      && (i < n ==> (HandedOutAt(ops, i, d) <==> HandedOutAt(ops[..n], i, d)))
      && (i == n ==> (HandedOutAt(ops, i, d) <==> HandsOut(RunOf(ops[..n]), ops[n], d)))
  {
    hide HandsOut;
    assert ops[..|ops| - 1][..i] == ops[..i];
  }

  /** A token can be presented exactly when a login returned it, or a rotation whose
      commit was heard of. */
  lemma {:induction false} IssuedExactlyWhenHandedOut(ops: seq<Op>, d: Digest)
    requires CanRun(ops)
    ensures d in RunOf(ops).issued <==> exists i: nat :: HandedOutAt(ops, i, d)
    decreases |ops|
  {
    hide Enabled, Apply, HandsOut;
    if ops == [] {
    } else {
      var n := |ops| - 1;
      IssuedExactlyWhenHandedOut(ops[..n], d);
      IssuedStep(RunOf(ops[..n]), ops[n], d);
      HandedOutEarlier(ops, n, d);
      if i: nat :| HandedOutAt(ops, i, d) {
        HandedOutEarlier(ops, i, d);
      }
      if i: nat :| HandedOutAt(ops[..n], i, d) {
        HandedOutEarlier(ops, i, d);
      }
    }
  }
}
