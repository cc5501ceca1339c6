/** Runs of the token operations, each a transaction of its own: logins that may
    be taken back, rotations that may fail, and logouts, in any order. */
module TokenRuns {
  import opened Prelude
  import opened Text
  import opened TokenFamilies

  /** A token that was exchanged: the rotation took effect, heard of or not. */
  datatype Win = Win(family: Uuid, digest: Digest)

  /** `pending` are the logins whose token has not been returned to anybody. */
  datatype Auth = Auth(fams: Families, pending: set<Uuid>, wins: seq<Win>)

  datatype Op =
    | Login(subject: Uuid, first: Draw, expiresAt: Time)
    | Issue(family: Uuid)
    | Abandon(family: Uuid)
    | Rotate(d: Digest, now: Time, ttl: int, draw: Option<Draw>, fault: Fault, r: Outcome)
    | Logout(subject: Uuid)

  /** Only a token that was returned can be presented. */
  ghost predicate CanPresent(s: Auth, d: Digest) {
    forall f :: f in s.pending ==> !Owns(s.fams, f, d)
  }

  /** The rotation exchanges the presented token, a tip of family `f`. */
  ghost predicate Exchanges(s: Auth, op: Op, f: Uuid)
    requires op.Rotate?
  {
    Accepts(s.fams, f, op.d, op.now, op.ttl, op.draw, op.fault)
  }

  ghost predicate Tally(s: Auth, op: Op, wins: seq<Win>)
    requires op.Rotate?
  {
    if exists f :: Exchanges(s, op, f) then
      exists f :: Exchanges(s, op, f) && wins == s.wins + [Win(f, op.d)]
    else
      wins == s.wins
  }

  ghost predicate Step(s: Auth, op: Op, t: Auth) {
    match op
    case Login(subject, draw, expiresAt) =>
      && subject != NIL && !Taken(s.fams, draw)
      && t == Auth(s.fams[draw.jti := LoginFamily(subject, draw, expiresAt)], s.pending + {draw.jti}, s.wins)
    case Issue(f) => f in s.pending && t == s.(pending := s.pending - {f})
    case Abandon(f) => f in s.pending && t == Auth(s.fams - {f}, s.pending - {f}, s.wins)
    case Rotate(d, now, ttl, draw, fault, r) =>
      && CanPresent(s, d) && t.pending == s.pending
      && RotateStep(s.fams, d, now, ttl, draw, fault, t.fams, r)
      && Tally(s, op, t.wins)
    case Logout(subject) => t == s.(fams := LogoutFamilies(s.fams, subject))
  }

  ghost predicate IsPath(states: seq<Auth>, ops: seq<Op>) {
    |states| == |ops| + 1 && forall i :: 0 <= i < |ops| ==> Step(states[i], ops[i], states[i + 1])
  }

  const EMPTY := Auth(map[], {}, [])

  ghost predicate IsRun(states: seq<Auth>, ops: seq<Op>) {
    IsPath(states, ops) && states[0] == EMPTY
  }

  /** Some run from the empty table leads here. */
  ghost predicate Reached(s: Auth) {
    exists states, ops :: IsRun(states, ops) && states[|ops|] == s
  }

  lemma EmptyIsReached()
    ensures Reached(EMPTY)
  {
    assert IsRun([EMPTY], []);
  }

  lemma ReachedStep(s: Auth, op: Op, t: Auth)
    requires Reached(s) && Step(s, op, t)
    ensures Reached(t)
  {
    var states, ops :| IsRun(states, ops) && states[|ops|] == s;
    var longer, more := states + [t], ops + [op];
    forall i | 0 <= i < |more| ensures Step(longer[i], more[i], longer[i + 1]) {
      assert i < |ops| ==> Step(states[i], ops[i], states[i + 1]);
    }
    assert IsRun(longer, more) && longer[|more|] == t;
  }

  // ---- The history of a family is its chain ----

  /** The tokens exchanged from family `f`, in order. */
  function WinsOf(wins: seq<Win>, f: Uuid): seq<Digest> {
    if wins == [] then []
    else
      var last := wins[|wins| - 1];
      WinsOf(wins[..|wins| - 1], f) + (if last.family == f then [last.digest] else [])
  }

  /** Every member's digest but the tip's. */
  function Spent(fam: Family): seq<Digest> {
    if fam.chain == [] then [] else seq(|fam.chain| - 1, i requires 0 <= i < |fam.chain| => fam.chain[i].digest)
  }

  predicate Accounted(s: Auth, f: Uuid) {
    WinsOf(s.wins, f) == if f in s.fams then Spent(s.fams[f]) else []
  }

  predicate Unissued(s: Auth, f: Uuid) {
    f in s.fams && |s.fams[f].chain| == 1
  }

  ghost predicate Inv(s: Auth) {
    && WellFormed(s.fams)
    && (forall f :: f in s.pending ==> Unissued(s, f))
    && (forall f :: Accounted(s, f))
  }

  ghost predicate Extends(s: Auth, op: Op, t: Auth, f: Uuid)
    requires op.Rotate?
  {
    && Exchanges(s, op, f)
    && t.fams == Extend(s.fams, f, op.draw.value, op.now + op.ttl) && t.wins == s.wins + [Win(f, op.d)]
  }

  /** What a rotation can do to the families. */
  lemma RotateShape(s: Auth, op: Op, t: Auth)
    requires WellFormed(s.fams) && op.Rotate? && Step(s, op, t)
    ensures || (t.fams == s.fams && t.wins == s.wins)
            || (exists f :: Owns(s.fams, f, op.d) && t.fams == Kill(s.fams, f) && t.wins == s.wins)
            || (exists f :: Extends(s, op, t, f))
  {
    hide WellFormed, Taken, CanPresent;
    var fams := s.fams;
    forall f, g | LiveTip(fams, f, op.d, op.now) && LiveTip(fams, g, op.d, op.now) ensures f == g {
      TipIsOwned(fams, f, op.d, op.now);
      TipIsOwned(fams, g, op.d, op.now);
      OneOwner(fams, f, g, op.d);
    }
    if op.ttl > 0 && exists f :: LiveTip(fams, f, op.d, op.now) {
      var f :| LiveTip(fams, f, op.d, op.now) && AcceptStep(fams, f, op.now, op.ttl, op.draw, op.fault, t.fams, op.r);
      if Exchanges(s, op, f) {
        var g :| Exchanges(s, op, g) && t.wins == s.wins + [Win(g, op.d)];
        assert LiveTip(fams, g, op.d, op.now);
        assert Extends(s, op, t, f);
      }
    } else if op.ttl > 0 && exists f :: Owns(fams, f, op.d) {
      var f :| Owns(fams, f, op.d) && KillStep(fams, f, op.fault, t.fams, op.r);
    }
  }

  lemma LoginKeepsInv(s: Auth, op: Op, t: Auth)
    requires Inv(s) && op.Login? && Step(s, op, t)
    ensures Inv(t)
  {
    LoginIsWellFormed(s.fams, op.subject, op.first, op.expiresAt);
    hide WellFormed;
    forall f ensures Accounted(t, f) {
      assert Accounted(s, f);
    }
    forall f | f in t.pending ensures Unissued(t, f) {
      assert f in s.pending ==> Unissued(s, f);
    }
  }

  lemma AbandonKeepsInv(s: Auth, op: Op, t: Auth)
    requires Inv(s) && (op.Abandon? || op.Issue?) && Step(s, op, t)
    ensures Inv(t)
  {
    assert WellFormed(t.fams);
    hide WellFormed;
    assert Unissued(s, op.family);
    forall f ensures Accounted(t, f) {
      assert Accounted(s, f);
    }
    forall f | f in t.pending ensures Unissued(t, f) {
      assert Unissued(s, f);
    }
  }

  /** Families may die, no chain changes. */
  lemma RevokeKeepsInv(s: Auth, t: Auth)
    requires Inv(s) && t.wins == s.wins && t.pending == s.pending && t.fams.Keys == s.fams.Keys
    requires forall f :: f in s.fams ==> t.fams[f].chain == s.fams[f].chain && t.fams[f].subject == s.fams[f].subject
    ensures Inv(t)
  {
    RevokeIsWellFormed(s.fams, t.fams);
    hide WellFormed;
    forall f ensures Accounted(t, f) {
      assert Accounted(s, f);
    }
    forall f | f in t.pending ensures Unissued(t, f) {
      assert Unissued(s, f);
    }
  }

  lemma ExtendKeepsInv(s: Auth, t: Auth, f: Uuid, draw: Draw, expiresAt: Time)
    requires Inv(s) && f in s.fams && f !in s.pending && !Taken(s.fams, draw)
    requires t.fams == Extend(s.fams, f, draw, expiresAt) && t.pending == s.pending
    requires s.fams[f].chain != [] && t.wins == s.wins + [Win(f, Tip(s.fams[f]).digest)]
    ensures Inv(t)
  {
    ExtendIsWellFormed(s.fams, f, draw, expiresAt);
    hide WellFormed;
    assert t.wins[..|t.wins| - 1] == s.wins;
    forall g ensures Accounted(t, g) {
      assert Accounted(s, g);
      assert g == f ==> Spent(t.fams[f]) == Spent(s.fams[f]) + [Tip(s.fams[f]).digest];
    }
    forall g | g in t.pending ensures Unissued(t, g) {
      assert Unissued(s, g);
    }
  }

  lemma RotateKeepsInv(s: Auth, op: Op, t: Auth)
    requires Inv(s) && op.Rotate? && Step(s, op, t)
    ensures Inv(t)
  {
    hide WellFormed, Taken, RotateStep, Tally, Accounted, Unissued;
    RotateShape(s, op, t);
    if f :| Extends(s, op, t, f) {
      TipIsOwned(s.fams, f, op.d, op.now);
      ExtendKeepsInv(s, t, f, op.draw.value, op.now + op.ttl);
    } else {
      RevokeKeepsInv(s, t);
    }
  }

  lemma StepKeepsInv(s: Auth, op: Op, t: Auth)
    requires Inv(s) && Step(s, op, t)
    ensures Inv(t)
  {
    hide Inv;
    match op
    case Login(_, _, _) => LoginKeepsInv(s, op, t);
    case Issue(_) => AbandonKeepsInv(s, op, t);
    case Abandon(_) => AbandonKeepsInv(s, op, t);
    case Logout(_) => RevokeKeepsInv(s, t);
    case Rotate(_, _, _, _, _, _) => RotateKeepsInv(s, op, t);
  }

  /** In every reachable state, what was exchanged from a family, in order, is all
      of its chain but the tip. */
  lemma {:induction false} RunKeepsInv(states: seq<Auth>, ops: seq<Op>, n: nat)
    requires IsPath(states, ops) && Inv(states[0]) && n <= |ops|
    ensures Inv(states[n])
  {
    if n == 0 {
    } else {
      RunKeepsInv(states, ops, n - 1);
      StepKeepsInv(states[n - 1], ops[n - 1], states[n]);
    }
  }

  lemma ReachedHasInv(s: Auth)
    requires Reached(s)
    ensures Inv(s)
  {
    var states, ops :| IsRun(states, ops) && states[|ops|] == s;
    assert Inv(states[0]);
    RunKeepsInv(states, ops, |ops|);
  }

  lemma PendingIsUnissued(s: Auth, f: Uuid)
    requires Reached(s)
    ensures f in s.pending ==> f in s.fams && |s.fams[f].chain| == 1
  {
    ReachedHasInv(s);
    assert f in s.pending ==> Unissued(s, f);
  }

  // ---- No token is exchanged twice ----

  lemma {:induction false} WinsGrow(wins: seq<Win>, k: nat, l: nat, f: Uuid)
    requires k <= l <= |wins|
    ensures WinsOf(wins[..k], f) <= WinsOf(wins[..l], f)
  {
    if k < l {
      WinsGrow(wins, k, l - 1, f);
      assert wins[..l][..l - 1] == wins[..l - 1];
    }
  }

  /** Where the `k`th exchange of all stands among those of its family. */
  lemma WinAt(wins: seq<Win>, k: nat)
    requires k < |wins|
    ensures var before := |WinsOf(wins[..k], wins[k].family)|;
            before < |WinsOf(wins, wins[k].family)| && WinsOf(wins, wins[k].family)[before] == wins[k].digest &&
            forall l :: k < l <= |wins| ==> before < |WinsOf(wins[..l], wins[k].family)|
  {
    var f := wins[k].family;
    assert wins[..k + 1][..k] == wins[..k] && wins[..|wins|] == wins;
    WinsGrow(wins, k + 1, |wins|, f);
    forall l | k < l <= |wins| ensures |WinsOf(wins[..k], f)| < |WinsOf(wins[..l], f)| {
      WinsGrow(wins, k + 1, l, f);
    }
  }

  /** No token is ever accepted twice, over any run. */
  lemma NoTokenTwice(s: Auth, k: nat, l: nat)
    requires Reached(s) && k < l < |s.wins|
    ensures s.wins[k].digest != s.wins[l].digest
  {
    ReachedHasInv(s);
    WinAt(s.wins, k);
    WinAt(s.wins, l);
    var f, g := s.wins[k].family, s.wins[l].family;
    assert Accounted(s, f) && Accounted(s, g);
    MembersApart(s.fams, f, |WinsOf(s.wins[..k], f)|, g, |WinsOf(s.wins[..l], g)|);
  }

  /** Rows of a family: one for the login and one for each exchange. */
  lemma RowsAreExchanges(rows: Table, s: Auth, f: Uuid)
    requires Reached(s) && Refines(rows, s.fams) && f in s.fams
    ensures |set j | j in rows && rows[j].familyId == f| == |WinsOf(s.wins, f)| + 1
  {
    ReachedHasInv(s);
    assert Accounted(s, f);
    RowCount(rows, s.fams, f);
  }

  // ---- Dead families ----

  /** Killed, and its token was once handed out. */
  predicate Dead(s: Auth, f: Uuid) {
    f in s.fams && !s.fams[f].live && f !in s.pending
  }

  lemma DeadStep(s: Auth, op: Op, t: Auth, f: Uuid)
    requires Inv(s) && Step(s, op, t) && Dead(s, f)
    ensures Dead(t, f) && t.fams[f] == s.fams[f]
    ensures op.Rotate? && Owns(s.fams, f, op.d) ==> !op.r.Rotated? && t.wins == s.wins
  {
    if op.Login? {
      LoginIsWellFormed(s.fams, op.subject, op.first, op.expiresAt);
    } else if op.Rotate? {
      RotateShape(s, op, t);
      RotateSucceedsExactly(s.fams, op.d, op.now, op.ttl, op.draw, op.fault, t.fams, op.r);
      if Owns(s.fams, f, op.d) {
        forall g | LiveTip(s.fams, g, op.d, op.now) ensures g == f {
          TipIsOwned(s.fams, g, op.d, op.now);
          OneOwner(s.fams, f, g, op.d);
        }
      }
    }
  }

  /** Dead families are absorbing: no continuation of any length changes their
      chain, accepts one of their tokens, or hands out another. */
  lemma {:induction false} DeadStaysDead(states: seq<Auth>, ops: seq<Op>, f: Uuid, n: nat)
    requires IsPath(states, ops) && Inv(states[0]) && Dead(states[0], f) && n <= |ops|
    ensures Dead(states[n], f) && states[n].fams[f] == states[0].fams[f]
    ensures WinsOf(states[n].wins, f) == WinsOf(states[0].wins, f)
    ensures n < |ops| && ops[n].Rotate? && Owns(states[n].fams, f, ops[n].d) ==>
              !ops[n].r.Rotated? && states[n + 1].wins == states[n].wins
  {
    RunKeepsInv(states, ops, n);
    if n > 0 {
      DeadStaysDead(states, ops, f, n - 1);
      RunKeepsInv(states, ops, n - 1);
      DeadStep(states[n - 1], ops[n - 1], states[n], f);
    }
    assert Accounted(states[0], f) && Accounted(states[n], f);
    if n < |ops| {
      DeadStep(states[n], ops[n], states[n + 1], f);
    }
  }

  /** Presenting a known token that is spent, revoked or expired makes its family dead. */
  lemma ReplayMakesDead(s: Auth, op: Op, t: Auth, f: Uuid)
    requires Inv(s) && Step(s, op, t) && op.Rotate? && op.ttl > 0
    requires Owns(s.fams, f, op.d) && !LiveTip(s.fams, f, op.d, op.now) && !StopsRefusing(op.fault, true)
    ensures Dead(t, f) && !op.r.Rotated?
  {
    ReplayKillsFamily(s.fams, f, op.d, op.now, op.ttl, op.draw, op.fault, t.fams, op.r);
  }

  /** Logout makes every family of its subject dead whose token was handed out,
      and leaves all other families as they were. */
  lemma LogoutMakesDead(s: Auth, op: Op, t: Auth, f: Uuid)
    requires Step(s, op, t) && op.Logout? && f in s.fams
    ensures s.fams[f].subject == op.subject && f !in s.pending ==> Dead(t, f)
    ensures s.fams[f].subject != op.subject ==> f in t.fams && t.fams[f] == s.fams[f]
  {
  }
}
