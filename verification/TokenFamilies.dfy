/** Refresh tokens as families: what the token table means. A family is the
    history of one login, and its last member may still be live. */
module TokenFamilies {
  import opened Prelude
  import opened Text

  /** SHA-256 digests stand for the tokens they identify. */
  type Digest = nat
  type Time = int

  const NIL: Uuid := 0

  // ---- The table of migrations 100 and 101 ----

  datatype TokenRow = TokenRow(
    familyId: Uuid, subject: Uuid, digest: Digest, expiresAt: Time,
    revokedAt: Option<Time>, replacedBy: Option<Uuid>, createdAt: Time)

  type Table = map<Uuid, TokenRow>

  predicate UniqueDigests(rows: Table) {
    forall j, k :: j in rows && k in rows && rows[j].digest == rows[k].digest ==> j == k
  }

  // ---- Families ----

  datatype Member = Member(jti: Uuid, digest: Digest, expiresAt: Time)

  datatype Family = Family(subject: Uuid, chain: seq<Member>, live: bool)

  type Families = map<Uuid, Family>

  function Tip(fam: Family): Member
    requires fam.chain != []
  {
    fam.chain[|fam.chain| - 1]
  }

  predicate WellFormed(fams: Families) {
    && (forall f :: f in fams ==> fams[f].chain != [] && fams[f].chain[0].jti == f && fams[f].subject != NIL)
    && (forall f, g, i, k :: f in fams && g in fams && 0 <= i < |fams[f].chain| && 0 <= k < |fams[g].chain| ==>
          SameMember(fams[f].chain[i], fams[g].chain[k]) ==> f == g && i == k)
  }

  /** Primary key and unique index: members that agree on either are one member. */
  predicate SameMember(a: Member, b: Member) {
    a.jti == b.jti || a.digest == b.digest
  }

  lemma MembersApart(fams: Families, f: Uuid, i: nat, g: Uuid, k: nat)
    requires WellFormed(fams) && f in fams && g in fams && i < |fams[f].chain| && k < |fams[g].chain|
    requires f != g || i != k
    ensures !SameMember(fams[f].chain[i], fams[g].chain[k])
  {
  }

  predicate Owns(fams: Families, f: Uuid, d: Digest) {
    f in fams && exists i :: 0 <= i < |fams[f].chain| && fams[f].chain[i].digest == d
  }

  predicate LiveTip(fams: Families, f: Uuid, d: Digest, now: Time) {
    f in fams && fams[f].chain != [] && fams[f].live && Tip(fams[f]).digest == d && Tip(fams[f]).expiresAt > now
  }

  /** The row that stores member `i`. Only the tip of a live family is unrevoked,
      and each other member names its successor. */
  predicate Stores(row: TokenRow, f: Uuid, fam: Family, i: nat)
    requires i < |fam.chain|
  {
    && row.familyId == f && row.subject == fam.subject
    && row.digest == fam.chain[i].digest && row.expiresAt == fam.chain[i].expiresAt
    && row.replacedBy == (if i + 1 < |fam.chain| then Some(fam.chain[i + 1].jti) else None)
    && (row.revokedAt == None <==> fam.live && i + 1 == |fam.chain|)
  }

  predicate Stored(rows: Table, f: Uuid, fam: Family, i: nat)
    requires i < |fam.chain|
  {
    fam.chain[i].jti in rows && Stores(rows[fam.chain[i].jti], f, fam, i)
  }

  /** The refinement: the table holds exactly the members of the families. */
  ghost predicate Refines(rows: Table, fams: Families) {
    && WellFormed(fams)
    && (forall f, i :: f in fams && 0 <= i < |fams[f].chain| ==> Stored(rows, f, fams[f], i))
    && (forall j :: j in rows ==> Placed(rows, fams, j))
  }

  ghost predicate Placed(rows: Table, fams: Families, j: Uuid)
    requires j in rows
  {
    var f := rows[j].familyId;
    f in fams && exists i :: 0 <= i < |fams[f].chain| && fams[f].chain[i].jti == j
  }

  lemma RefinesIsWellFormed(rows: Table, fams: Families)
    requires Refines(rows, fams)
    ensures WellFormed(fams)
  {
  }

  lemma StoredMember(rows: Table, fams: Families, f: Uuid, i: nat)
    requires Refines(rows, fams) && f in fams && i < |fams[f].chain|
    ensures Stored(rows, f, fams[f], i)
  {
  }

  lemma PlaceOf(rows: Table, fams: Families, j: Uuid) returns (i: nat)
    requires Refines(rows, fams) && j in rows
    ensures rows[j].familyId in fams && i < |fams[rows[j].familyId].chain|
    ensures fams[rows[j].familyId].chain[i].jti == j
    ensures Stores(rows[j], rows[j].familyId, fams[rows[j].familyId], i)
  {
    assert Placed(rows, fams, j);
    i :| 0 <= i < |fams[rows[j].familyId].chain| && fams[rows[j].familyId].chain[i].jti == j;
    assert Stored(rows, rows[j].familyId, fams[rows[j].familyId], i);
  }

  /** The unique index of migration 101 follows from the refinement. */
  lemma DigestsAreUnique(rows: Table, fams: Families)
    requires Refines(rows, fams)
    ensures UniqueDigests(rows)
  {
    forall j, k | j in rows && k in rows && rows[j].digest == rows[k].digest ensures j == k {
      var a := PlaceOf(rows, fams, j);
      var b := PlaceOf(rows, fams, k);
      var f, g := rows[j].familyId, rows[k].familyId;
      assert SameMember(fams[f].chain[a], fams[g].chain[b]);
    }
  }

  // ---- The operations on families ----

  datatype Draw = Draw(jti: Uuid, digest: Digest)

  /** Where the database may fail. A commit may fail after it took effect. */
  datatype Fault =
    | NoFault
    | BeginFails | SelectActiveFails | SelectAnyFails | RevokeFails | UpdateFails | InsertFails
    | CommitFails(applied: bool)

  datatype Outcome = Rotated(digest: Digest, subject: Uuid) | Refused | Failed

  /** A drawn identifier already in the table makes the INSERT fail. */
  ghost predicate Taken(fams: Families, draw: Draw) {
    exists f, i :: TakenAt(fams, draw, f, i)
  }

  predicate TakenAt(fams: Families, draw: Draw, f: Uuid, i: int) {
    f in fams && 0 <= i < |fams[f].chain| &&
    (fams[f].chain[i].jti == draw.jti || fams[f].chain[i].digest == draw.digest)
  }

  /** The fault undoes a transaction that accepts the token. */
  predicate StopsAccepting(fault: Fault) {
    fault.BeginFails? || fault.SelectActiveFails? || fault.UpdateFails? || fault.InsertFails? ||
    fault == CommitFails(false)
  }

  /** The fault undoes a transaction that finds the token inactive, or not at all. */
  predicate StopsRefusing(fault: Fault, known: bool) {
    fault.BeginFails? || fault.SelectActiveFails? || fault.SelectAnyFails? || (known && fault.RevokeFails?) ||
    fault == CommitFails(false)
  }

  function Kill(fams: Families, f: Uuid): Families
    requires f in fams
  {
    fams[f := fams[f].(live := false)]
  }

  function Extend(fams: Families, f: Uuid, draw: Draw, expiresAt: Time): Families
    requires f in fams
  {
    fams[f := fams[f].(chain := fams[f].chain + [Member(draw.jti, draw.digest, expiresAt)])]
  }

  /** Can the presented token be exchanged, given what was drawn and what fails? */
  ghost predicate Accepts(fams: Families, f: Uuid, d: Digest, now: Time, ttl: int, draw: Option<Draw>, fault: Fault) {
    ttl > 0 && LiveTip(fams, f, d, now) && draw.Some? && !Taken(fams, draw.value) && !StopsAccepting(fault)
  }

  /** The presented token is the live tip of `f`: exchange it, or fail and change nothing. */
  ghost predicate AcceptStep(fams: Families, f: Uuid, now: Time, ttl: int, draw: Option<Draw>, fault: Fault,
                       fams': Families, r: Outcome)
    requires f in fams
  {
    if draw == None || Taken(fams, draw.value) || StopsAccepting(fault) then
      fams' == fams && r == Failed
    else
      fams' == Extend(fams, f, draw.value, now + ttl) &&
      r == (if fault == CommitFails(true) then Failed else Rotated(draw.value.digest, fams[f].subject))
  }

  /** The presented token belongs to `f` but is not its live tip: kill the family. */
  predicate KillStep(fams: Families, f: Uuid, fault: Fault, fams': Families, r: Outcome)
    requires f in fams
  {
    if StopsRefusing(fault, true) then
      fams' == fams && r == Failed
    else
      fams' == Kill(fams, f) && r == (if fault == CommitFails(true) then Failed else Refused)
  }

  /** `rotate` as a relation between families before and after. */
  ghost predicate RotateStep(fams: Families, d: Digest, now: Time, ttl: int, draw: Option<Draw>, fault: Fault,
                             fams': Families, r: Outcome) {
    if ttl <= 0 then
      fams' == fams && r == Failed
    else if exists f :: LiveTip(fams, f, d, now) then
      exists f :: LiveTip(fams, f, d, now) && AcceptStep(fams, f, now, ttl, draw, fault, fams', r)
    else if exists f :: Owns(fams, f, d) then
      exists f :: Owns(fams, f, d) && KillStep(fams, f, fault, fams', r)
    else
      fams' == fams && r == if StopsRefusing(fault, false) || fault == CommitFails(true) then Failed else Refused
  }

  function LoginFamily(subject: Uuid, draw: Draw, expiresAt: Time): Family {
    Family(subject, [Member(draw.jti, draw.digest, expiresAt)], true)
  }

  function LogoutFamilies(fams: Families, subject: Uuid): Families {
    map f | f in fams :: if fams[f].subject == subject then fams[f].(live := false) else fams[f]
  }

  // ---- Primary key and unique index are kept ----

  lemma RevokeIsWellFormed(fams: Families, fams': Families)
    requires WellFormed(fams) && fams'.Keys == fams.Keys
    requires forall f :: f in fams ==> fams'[f].chain == fams[f].chain && fams'[f].subject == fams[f].subject
    ensures WellFormed(fams')
  {
  }

  lemma ExtendIsWellFormed(fams: Families, f: Uuid, draw: Draw, expiresAt: Time)
    requires WellFormed(fams) && f in fams && !Taken(fams, draw)
    ensures WellFormed(Extend(fams, f, draw, expiresAt))
  {
    var fams' := Extend(fams, f, draw, expiresAt);
    forall g, h, i, k | g in fams' && h in fams' && 0 <= i < |fams'[g].chain| && 0 <= k < |fams'[h].chain| &&
        SameMember(fams'[g].chain[i], fams'[h].chain[k])
      ensures g == h && i == k
    {
      assert i < |fams[g].chain| ==> fams'[g].chain[i] == fams[g].chain[i] && !TakenAt(fams, draw, g, i);
      assert k < |fams[h].chain| ==> fams'[h].chain[k] == fams[h].chain[k] && !TakenAt(fams, draw, h, k);
    }
  }

  lemma RemoveIsWellFormed(fams: Families, f: Uuid)
    requires WellFormed(fams)
    ensures WellFormed(fams - {f})
    ensures f in fams ==> fams[f].chain[0].jti == f
  {
  }

  lemma LoginIsWellFormed(fams: Families, subject: Uuid, draw: Draw, expiresAt: Time)
    requires WellFormed(fams) && subject != NIL && !Taken(fams, draw)
    ensures WellFormed(fams[draw.jti := LoginFamily(subject, draw, expiresAt)])
    ensures draw.jti !in fams
  {
    assert draw.jti in fams ==> TakenAt(fams, draw, draw.jti, 0);
    var fams' := fams[draw.jti := LoginFamily(subject, draw, expiresAt)];
    forall g, h, i, k | g in fams' && h in fams' && 0 <= i < |fams'[g].chain| && 0 <= k < |fams'[h].chain| &&
        SameMember(fams'[g].chain[i], fams'[h].chain[k])
      ensures g == h && i == k
    {
      assert g in fams && i < |fams[g].chain| ==> !TakenAt(fams, draw, g, i);
      assert h in fams && k < |fams[h].chain| ==> !TakenAt(fams, draw, h, k);
    }
  }

  // ---- Which family a digest belongs to ----

  lemma OneOwner(fams: Families, f: Uuid, g: Uuid, d: Digest)
    requires WellFormed(fams) && Owns(fams, f, d) && Owns(fams, g, d)
    ensures f == g
  {
    var i :| 0 <= i < |fams[f].chain| && fams[f].chain[i].digest == d;
    var k :| 0 <= k < |fams[g].chain| && fams[g].chain[k].digest == d;
    assert SameMember(fams[f].chain[i], fams[g].chain[k]);
  }

  lemma TipIsOwned(fams: Families, f: Uuid, d: Digest, now: Time)
    requires LiveTip(fams, f, d, now)
    ensures Owns(fams, f, d)
  {
  }

  /** `rotate` hands out a new token exactly when the presented one is the
      unexpired tip of a live family, and nothing fails on the way. */
  lemma RotateSucceedsExactly(fams: Families, d: Digest, now: Time, ttl: int, draw: Option<Draw>, fault: Fault,
                              fams': Families, r: Outcome)
    requires WellFormed(fams) && RotateStep(fams, d, now, ttl, draw, fault, fams', r)
    ensures r.Rotated? <==> fault != CommitFails(true) && exists f :: Accepts(fams, f, d, now, ttl, draw, fault)
    ensures r.Rotated? ==> r.digest == draw.value.digest
    ensures r.Rotated? ==>
              exists f :: LiveTip(fams, f, d, now) && r.subject == fams[f].subject &&
                fams' == Extend(fams, f, draw.value, now + ttl)
  {
    hide WellFormed;
    forall f, g | LiveTip(fams, f, d, now) && LiveTip(fams, g, d, now) ensures f == g {
      TipIsOwned(fams, f, d, now);
      TipIsOwned(fams, g, d, now);
      OneOwner(fams, f, g, d);
    }
    if ttl > 0 && exists f :: LiveTip(fams, f, d, now) {
      var f :| LiveTip(fams, f, d, now) && AcceptStep(fams, f, now, ttl, draw, fault, fams', r);
      assert Accepts(fams, f, d, now, ttl, draw, fault) <==>
        draw.Some? && !Taken(fams, draw.value) && !StopsAccepting(fault);
    } else if ttl > 0 && exists f :: Owns(fams, f, d) {
      var f :| Owns(fams, f, d) && KillStep(fams, f, fault, fams', r);
    }
  }

  /** Presenting any known token that is not the live tip kills its family. */
  lemma ReplayKillsFamily(fams: Families, f: Uuid, d: Digest, now: Time, ttl: int, draw: Option<Draw>, fault: Fault,
                          fams': Families, r: Outcome)
    requires WellFormed(fams) && RotateStep(fams, d, now, ttl, draw, fault, fams', r)
    requires ttl > 0 && Owns(fams, f, d) && !LiveTip(fams, f, d, now)
    requires !StopsRefusing(fault, true)
    ensures fams' == Kill(fams, f) && !r.Rotated?
  {
    forall g | LiveTip(fams, g, d, now) ensures false {
      OneOwner(fams, f, g, d);
    }
    forall g | Owns(fams, g, d) ensures g == f {
      OneOwner(fams, f, g, d);
    }
  }

  /** An unknown token, or any error whose commit did not take effect, changes nothing. */
  lemma UnknownOrErrorChangesNothing(fams: Families, d: Digest, now: Time, ttl: int, draw: Option<Draw>, fault: Fault,
                                     fams': Families, r: Outcome)
    requires WellFormed(fams) && RotateStep(fams, d, now, ttl, draw, fault, fams', r)
    requires (forall f :: f in fams ==> !Owns(fams, f, d)) || (r == Failed && fault != CommitFails(true))
    ensures fams' == fams && !r.Rotated?
  {
    hide WellFormed;
    forall f | LiveTip(fams, f, d, now) ensures Owns(fams, f, d) {
      TipIsOwned(fams, f, d, now);
    }
    if ttl > 0 && exists f :: LiveTip(fams, f, d, now) {
      var f :| LiveTip(fams, f, d, now) && AcceptStep(fams, f, now, ttl, draw, fault, fams', r);
    } else if ttl > 0 && exists f :: Owns(fams, f, d) {
      var f :| Owns(fams, f, d) && KillStep(fams, f, fault, fams', r);
    }
  }

  // ---- Lineage, read off the table ----

  /** The row reached from `j` by following `replaced_by` `n` times. */
  function Follow(rows: Table, j: Uuid, n: nat): Option<Uuid>
    decreases n
  {
    if j !in rows then None
    else if n == 0 then Some(j)
    else if rows[j].replacedBy == None then None
    else Follow(rows, rows[j].replacedBy.value, n - 1)
  }

  lemma {:induction false} FollowChain(rows: Table, fams: Families, f: Uuid, i: nat, n: nat)
    requires Refines(rows, fams) && f in fams && i < |fams[f].chain|
    ensures Follow(rows, fams[f].chain[i].jti, n) ==
            if i + n < |fams[f].chain| then Some(fams[f].chain[i + n].jti) else None
    decreases n
  {
    hide WellFormed;
    var chain := fams[f].chain;
    assert Stored(rows, f, fams[f], i);
    var row := rows[chain[i].jti];
    if n == 0 {
    } else {
      assert Follow(rows, chain[i].jti, n) ==
        if row.replacedBy == None then None else Follow(rows, row.replacedBy.value, n - 1);
      if i + 1 < |chain| {
        FollowChain(rows, fams, f, i + 1, n - 1);
      }
    }
  }

  lemma DepthIsUnique(rows: Table, fams: Families, f: Uuid, depth: nat, n: nat)
    requires Refines(rows, fams) && f in fams && depth < |fams[f].chain|
    ensures Follow(rows, f, n) == Some(fams[f].chain[depth].jti) <==> n == depth
    ensures n > 0 ==> Follow(rows, fams[f].chain[depth].jti, n) != Some(fams[f].chain[depth].jti)
  {
    hide Refines, WellFormed;
    RefinesIsWellFormed(rows, fams);
    RootOf(fams, f);
    FollowChain(rows, fams, f, 0, n);
    FollowChain(rows, fams, f, depth, n);
    if n < |fams[f].chain| && n != depth {
      MembersApart(fams, f, n, f, depth);
    }
    if n > 0 && depth + n < |fams[f].chain| {
      MembersApart(fams, f, depth + n, f, depth);
    }
  }

  lemma RootOf(fams: Families, f: Uuid)
    requires WellFormed(fams) && f in fams
    ensures fams[f].chain != [] && fams[f].chain[0].jti == f && fams[f].subject != NIL
  {
  }

  /** Every row is reached from its family's root, `jti = family_id`, in exactly one
      number of steps; following `replaced_by` never comes back; rows of a family
      share one non-nil subject; a row is unrevoked only if nothing replaced it. */
  lemma LineageOfRow(rows: Table, fams: Families, j: Uuid) returns (depth: nat)
    requires Refines(rows, fams) && j in rows
    ensures rows[j].familyId in rows && rows[rows[j].familyId].familyId == rows[j].familyId
    ensures Follow(rows, rows[j].familyId, depth) == Some(j)
    ensures forall n :: Follow(rows, rows[j].familyId, n) == Some(j) ==> n == depth
    ensures forall n: nat :: n > 0 ==> Follow(rows, j, n) != Some(j)
    ensures rows[j].subject == rows[rows[j].familyId].subject && rows[j].subject != NIL
    ensures rows[j].revokedAt == None ==> rows[j].replacedBy == None
    ensures rows[j].replacedBy.Some? ==>
              rows[j].replacedBy.value in rows && rows[rows[j].replacedBy.value].familyId == rows[j].familyId
  {
    hide Refines, WellFormed, Follow;
    depth := PlaceOf(rows, fams, j);
    var f := rows[j].familyId;
    RefinesIsWellFormed(rows, fams);
    RootOf(fams, f);
    StoredMember(rows, fams, f, 0);
    if depth + 1 < |fams[f].chain| {
      StoredMember(rows, fams, f, depth + 1);
    }
    forall n: nat
      ensures Follow(rows, f, n) == Some(j) <==> n == depth
      ensures n > 0 ==> Follow(rows, j, n) != Some(j)
    {
      DepthIsUnique(rows, fams, f, depth, n);
    }
  }

  /** A family has a single tip, and at most one unrevoked row. */
  lemma OneTip(rows: Table, fams: Families, j: Uuid, k: Uuid)
    requires Refines(rows, fams) && j in rows && k in rows && rows[j].familyId == rows[k].familyId
    ensures rows[j].replacedBy == None && rows[k].replacedBy == None ==> j == k
    ensures rows[j].revokedAt == None && rows[k].revokedAt == None ==> j == k
  {
    var a := PlaceOf(rows, fams, j);
    var b := PlaceOf(rows, fams, k);
  }

  function MembersOf(chain: seq<Member>, n: nat): set<Uuid>
    requires n <= |chain|
  {
    set i | 0 <= i < n :: chain[i].jti
  }

  lemma {:induction false} CountMembers(fams: Families, f: Uuid, n: nat)
    requires WellFormed(fams) && f in fams && n <= |fams[f].chain|
    ensures |MembersOf(fams[f].chain, n)| == n
  {
    hide WellFormed;
    var chain := fams[f].chain;
    if n == 0 {
    } else {
      CountMembers(fams, f, n - 1);
      assert MembersOf(chain, n) == MembersOf(chain, n - 1) + {chain[n - 1].jti};
      assert chain[n - 1].jti !in MembersOf(chain, n - 1) by {
        forall i | 0 <= i < n - 1 ensures chain[i].jti != chain[n - 1].jti {
          MembersApart(fams, f, i, f, n - 1);
        }
      }
    }
  }

  /** The rows of a family are as many as its members. */
  lemma RowCount(rows: Table, fams: Families, f: Uuid)
    requires Refines(rows, fams) && f in fams
    ensures |set j | j in rows && rows[j].familyId == f| == |fams[f].chain|
  {
    var chain := fams[f].chain;
    var ours := set j | j in rows && rows[j].familyId == f;
    forall j | j in ours ensures j in MembersOf(chain, |chain|) {
      var i := PlaceOf(rows, fams, j);
    }
    forall j | j in MembersOf(chain, |chain|) ensures j in ours {
      var i :| 0 <= i < |chain| && chain[i].jti == j;
      assert Stored(rows, f, fams[f], i);
    }
    assert ours == MembersOf(chain, |chain|);
    CountMembers(fams, f, |chain|);
  }
}
