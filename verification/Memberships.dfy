/** Organisations, their members and invitations: the last administrator cannot leave, and
    an invitation is used at most once. */
module Memberships {
  import opened Domain

  datatype Role = ADMIN | QA_LEAD | TESTER | VIEWER

  datatype InviteStatus = PENDING | ACCEPTED | REVOKED

  datatype Membership = Membership(organizationId: Id, userId: Id, role: Role)

  /** An invitation is kept under its token; email addresses are opaque. */
  datatype Invitation = Invitation(organizationId: Id, email: Id, role: Role, status: InviteStatus, expiresAt: int)

  datatype OrgDb = OrgDb(orgs: set<Id>, members: map<Id, Membership>, invitations: map<Id, Invitation>, nextId: Id)

  const INVITATION_TTL_MS: int := 7 * 24 * 60 * 60 * 1000

  // ----- what each call does -----

  ghost predicate IsMember(db: OrgDb, org: Id, user: Id) {
    exists m :: m in db.members && db.members[m].organizationId == org && db.members[m].userId == user
  }

  ghost function MemberRow(db: OrgDb, org: Id, user: Id): (m: Id)
    requires IsMember(db, org, user)
    ensures m in db.members && db.members[m].organizationId == org && db.members[m].userId == user
  {
    var m :| m in db.members && db.members[m].organizationId == org && db.members[m].userId == user;
    m
  }

  ghost function Admins(db: OrgDb, org: Id): set<Id> {
    set m | m in db.members && db.members[m].organizationId == org && db.members[m].role == ADMIN
  }

  ghost function OrgCreated(db: OrgDb, user: Id): OrgDb {
    db.(orgs := db.orgs + {db.nextId}, members := db.members[db.nextId + 1 := Membership(db.nextId, user, ADMIN)],
        nextId := db.nextId + 2)
  }

  ghost function Invited(db: OrgDb, org: Id, email: Id, role: Role, now: int): (OrgDb, Result<Id>) {
    if org !in db.orgs then (db, Err(NotFound))
    else
      var invitation := Invitation(org, email, role, PENDING, now + INVITATION_TTL_MS);
      (db.(invitations := db.invitations[db.nextId := invitation], nextId := db.nextId + 1), Ok(db.nextId))
  }

  ghost function InviteRevoked(db: OrgDb, org: Id, id: Id): (OrgDb, Result<()>) {
    if id !in db.invitations || db.invitations[id].organizationId != org || db.invitations[id].status != PENDING
    then (db, Err(NotFound))
    else (db.(invitations := db.invitations[id := db.invitations[id].(status := REVOKED)]), Ok(()))
  }

  ghost function AcceptProblem(db: OrgDb, user: Id, email: Id, token: Id, now: int): Option<DomainError> {
    if token !in db.invitations || db.invitations[token].email != email then Some(NotFound)
    else if db.invitations[token].status != PENDING || db.invitations[token].expiresAt < now then Some(Conflict)
    else if IsMember(db, db.invitations[token].organizationId, user) then Some(Conflict)
    else None
  }

  ghost function Accepted(db: OrgDb, user: Id, email: Id, token: Id, now: int): (OrgDb, Result<Id>) {
    if AcceptProblem(db, user, email, token, now).Some? then (db, Err(AcceptProblem(db, user, email, token, now).value))
    else
      var invitation := db.invitations[token];
      (db.(members := db.members[db.nextId := Membership(invitation.organizationId, user, invitation.role)],
           invitations := db.invitations[token := invitation.(status := ACCEPTED)], nextId := db.nextId + 1),
       Ok(db.nextId))
  }

  ghost function RoleSet(db: OrgDb, org: Id, user: Id, role: Role): (OrgDb, Result<Id>) {
    if !IsMember(db, org, user) then (db, Err(NotFound))
    else
      var m := MemberRow(db, org, user);
      if db.members[m].role == ADMIN && role != ADMIN && Admins(db, org) - {m} == {} then (db, Err(MemberLastAdmin))
      else (db.(members := db.members[m := db.members[m].(role := role)]), Ok(m))
  }

  ghost function MemberRemoved(db: OrgDb, org: Id, user: Id): (OrgDb, Result<Id>) {
    if !IsMember(db, org, user) then (db, Err(NotFound))
    else
      var m := MemberRow(db, org, user);
      if db.members[m].role == ADMIN && Admins(db, org) - {m} == {} then (db, Err(MemberLastAdmin))
      else (db.(members := db.members - {m}), Ok(m))
  }

  // ----- the invariant -----

  /** The table's unique key on user and organisation. */
  ghost predicate OneRowPerUser(members: map<Id, Membership>) {
    forall m, n | m in members && n in members
                  && members[m].organizationId == members[n].organizationId
                  && members[m].userId == members[n].userId :: m == n
  }

  ghost predicate Sound(db: OrgDb) {
    && (forall o :: o in db.orgs ==> o < db.nextId && Admins(db, o) != {})
    && (forall m :: m in db.members ==> m < db.nextId && db.members[m].organizationId in db.orgs)
    && (forall i :: i in db.invitations ==> i < db.nextId && db.invitations[i].organizationId in db.orgs)
    && OneRowPerUser(db.members)
  }

  // ----- the services -----

  class OrganizationServices {
    var orgs: set<Id>
    var members: map<Id, Membership>
    var invitations: map<Id, Invitation>
    var nextId: Id

    ghost function Db(): OrgDb
      reads this
    {
      OrgDb(orgs, members, invitations, nextId)
    }

    method FindMember(org: Id, user: Id) returns (m: Option<Id>)
      requires Sound(Db())
      ensures m.Some? <==> IsMember(Db(), org, user)
      ensures m.Some? ==> m.value == MemberRow(Db(), org, user)
    {
      var todo := members.Keys;
      while todo != {}
        invariant todo <= members.Keys
        invariant forall x :: x in members && x !in todo ==>
                    !(members[x].organizationId == org && members[x].userId == user)
      {
        var x :| x in todo;
        if members[x].organizationId == org && members[x].userId == user {
          return Some(x);
        }
        todo := todo - {x};
      }
      m := None;
    }

    method RemainingAdmins(org: Id, exclude: Id) returns (n: nat)
      ensures n == |Admins(Db(), org) - {exclude}|
    {
      var rows := set x | x in members && members[x].organizationId == org && members[x].role == ADMIN && x != exclude;
      assert rows == Admins(Db(), org) - {exclude};
      n := |rows|;
    }

    /** The creator becomes the first administrator. */
    method CreateOrganization(user: Id) returns (org: Id)
      requires Sound(Db())
      modifies this
      ensures org == old(nextId) && Db() == OrgCreated(old(Db()), user) && Sound(Db())
    {
      CreateKeepsSound(Db(), user);
      org := nextId;
      orgs := orgs + {org};
      members := members[org + 1 := Membership(org, user, ADMIN)];
      nextId := nextId + 2;
    }

    method Invite(org: Id, email: Id, role: Role, now: int) returns (r: Result<Id>)
      requires Sound(Db())
      modifies this
      ensures (Db(), r) == Invited(old(Db()), org, email, role, now) && Sound(Db())
    {
      if org !in orgs {
        return Err(NotFound);
      }
      invitations := invitations[nextId := Invitation(org, email, role, PENDING, now + INVITATION_TTL_MS)];
      r := Ok(nextId);
      nextId := nextId + 1;
      SameMembersSound(old(Db()), Db());
    }

    method Revoke(org: Id, id: Id) returns (r: Result<()>)
      requires Sound(Db())
      modifies this
      ensures (Db(), r) == InviteRevoked(old(Db()), org, id) && Sound(Db())
    {
      if id !in invitations || invitations[id].organizationId != org || invitations[id].status != PENDING {
        return Err(NotFound);
      }
      invitations := invitations[id := invitations[id].(status := REVOKED)];
      r := Ok(());
      SameMembersSound(old(Db()), Db());
    }

    method Accept(user: Id, email: Id, token: Id, now: int) returns (r: Result<Id>)
      requires Sound(Db())
      modifies this
      ensures (Db(), r) == Accepted(old(Db()), user, email, token, now) && Sound(Db())
    {
      hide Sound;
      AcceptKeepsSound(Db(), user, email, token, now);
      if token !in invitations || invitations[token].email != email {
        return Err(NotFound);
      }
      var invitation := invitations[token];
      if invitation.status != PENDING || invitation.expiresAt < now {
        return Err(Conflict);
      }
      var existing := FindMember(invitation.organizationId, user);
      if existing.Some? {
        return Err(Conflict);
      }
      members := members[nextId := Membership(invitation.organizationId, user, invitation.role)];
      invitations := invitations[token := invitation.(status := ACCEPTED)];
      r := Ok(nextId);
      nextId := nextId + 1;
    }

    method UpdateRole(org: Id, user: Id, role: Role) returns (r: Result<Id>)
      requires Sound(Db())
      modifies this
      ensures (Db(), r) == RoleSet(old(Db()), org, user, role) && Sound(Db())
    {
      hide Sound;
      RoleKeepsSound(Db(), org, user, role);
      var m := FindMember(org, user);
      if m.None? {
        return Err(NotFound);
      }
      if members[m.value].role == ADMIN && role != ADMIN {
        var remaining := RemainingAdmins(org, m.value);
        if remaining == 0 {
          return Err(MemberLastAdmin);
        }
      }
      members := members[m.value := members[m.value].(role := role)];
      r := Ok(m.value);
    }

    method Remove(org: Id, user: Id) returns (r: Result<Id>)
      requires Sound(Db())
      modifies this
      ensures (Db(), r) == MemberRemoved(old(Db()), org, user) && Sound(Db())
    {
      hide Sound;
      RemoveKeepsSound(Db(), org, user);
      var m := FindMember(org, user);
      if m.None? {
        return Err(NotFound);
      }
      if members[m.value].role == ADMIN {
        var remaining := RemainingAdmins(org, m.value);
        if remaining == 0 {
          return Err(MemberLastAdmin);
        }
      }
      members := members - {m.value};
      r := Ok(m.value);
    }
  }

  lemma SameMembersSound(db: OrgDb, db': OrgDb)
    requires Sound(db) && db'.orgs == db.orgs && db'.members == db.members && db.nextId <= db'.nextId
    requires forall i :: i in db'.invitations ==> i < db'.nextId && db'.invitations[i].organizationId in db.orgs
    ensures Sound(db')
  {
    forall o ensures Admins(db', o) == Admins(db, o) {}
  }

  lemma CreateKeepsAdmins(db: OrgDb, user: Id)
    requires Sound(db)
    ensures forall o :: o in db.orgs + {db.nextId} ==> Admins(OrgCreated(db, user), o) != {}
  {
    var db' := OrgCreated(db, user);
    assert db.nextId + 1 in Admins(db', db.nextId);
    assert db.nextId + 1 !in db.members;
    forall o | o in db.orgs ensures Admins(db', o) != {} { AdminsGrow(db, db', o); }
  }

  lemma CreateKeepsKey(db: OrgDb, user: Id)
    requires Sound(db)
    ensures OneRowPerUser(OrgCreated(db, user).members)
  {
    assert db.nextId !in db.orgs && db.nextId + 1 !in db.members;
    assert forall m :: m in db.members ==> db.members[m].organizationId != db.nextId;
    hide Admins;
    NewMemberIsAlone(db.members, db.nextId + 1, Membership(db.nextId, user, ADMIN));
  }

  lemma CreateKeepsSound(db: OrgDb, user: Id)
    requires Sound(db)
    ensures Sound(OrgCreated(db, user))
  {
    hide Admins, OneRowPerUser;
    CreateKeepsAdmins(db, user);
    CreateKeepsKey(db, user);
  }

  lemma AdminsGrow(db: OrgDb, db': OrgDb, o: Id)
    requires forall m :: m in db.members ==> m in db'.members && db'.members[m] == db.members[m]
    ensures Admins(db, o) <= Admins(db', o)
    ensures Admins(db, o) != {} ==> Admins(db', o) != {}
  {
  }

  /** A fresh membership of a user who had none in the organisation. */
  lemma JoinKeepsSound(db: OrgDb, db': OrgDb, row: Membership)
    requires Sound(db) && row.organizationId in db.orgs && !IsMember(db, row.organizationId, row.userId)
    requires db'.orgs == db.orgs && db'.nextId == db.nextId + 1 && db'.members == db.members[db.nextId := row]
    requires db'.invitations.Keys == db.invitations.Keys
    requires forall i :: i in db.invitations ==>
               db'.invitations[i].organizationId == db.invitations[i].organizationId
    ensures Sound(db')
  {
    assert db.nextId !in db.members;
    forall o | o in db.orgs ensures Admins(db', o) != {} { AdminsGrow(db, db', o); }
    NewMemberIsAlone(db.members, db.nextId, row);
    hide Admins, IsMember, OneRowPerUser;
  }

  lemma NewMemberIsAlone(members: map<Id, Membership>, id: Id, row: Membership)
    requires OneRowPerUser(members) && id !in members
    requires forall m :: m in members ==>
               !(members[m].organizationId == row.organizationId && members[m].userId == row.userId)
    ensures OneRowPerUser(members[id := row])
  {
  }

  /** Another role, or no row at all, keeps the key unique. */
  lemma ChangedRowIsAlone(members: map<Id, Membership>, id: Id, role: Role)
    requires OneRowPerUser(members) && id in members
    ensures OneRowPerUser(members[id := members[id].(role := role)]) && OneRowPerUser(members - {id})
  {
  }

  lemma AcceptKeepsSound(db: OrgDb, user: Id, email: Id, token: Id, now: int)
    requires Sound(db)
    ensures Sound(Accepted(db, user, email, token, now).0)
  {
    if AcceptProblem(db, user, email, token, now).None? {
      var invitation := db.invitations[token];
      assert invitation.organizationId in db.orgs;
      hide Sound, IsMember;
      JoinKeepsSound(db, Accepted(db, user, email, token, now).0,
                     Membership(invitation.organizationId, user, invitation.role));
    }
  }

  lemma RoleKeepsSound(db: OrgDb, org: Id, user: Id, role: Role)
    requires Sound(db)
    ensures Sound(RoleSet(db, org, user, role).0)
  {
    var (db', r) := RoleSet(db, org, user, role);
    if r.Ok? {
      ChangedRowIsAlone(db.members, r.value, role);
      forall o | o in db.orgs ensures Admins(db', o) != {} {
        assert Admins(db, o) - {r.value} <= Admins(db', o);
        if o != org { assert r.value !in Admins(db, o); }
        if o == org && role == ADMIN { assert r.value in Admins(db', o); }
      }
      hide Admins, OneRowPerUser, IsMember;
    }
  }

  lemma RemoveKeepsSound(db: OrgDb, org: Id, user: Id)
    requires Sound(db)
    ensures Sound(MemberRemoved(db, org, user).0)
  {
    var (db', r) := MemberRemoved(db, org, user);
    if r.Ok? {
      ChangedRowIsAlone(db.members, r.value, ADMIN);
      forall o | o in db.orgs ensures Admins(db', o) != {} {
        assert Admins(db, o) - {r.value} == Admins(db', o);
        if o != org { assert r.value !in Admins(db, o); }
      }
      hide Admins, OneRowPerUser, IsMember;
    }
  }

  /** A demotion or removal is refused as the last administrator's exactly when carrying it
      out would leave the organisation without one. */
  lemma RefusedIffLastAdmin(db: OrgDb, org: Id, user: Id, role: Role)
    requires Sound(db) && IsMember(db, org, user)
    ensures var m := MemberRow(db, org, user);
            && (RoleSet(db, org, user, role).1 == Err(MemberLastAdmin) <==>
                  Admins(db.(members := db.members[m := db.members[m].(role := role)]), org) == {})
            && (MemberRemoved(db, org, user).1 == Err(MemberLastAdmin) <==>
                  Admins(db.(members := db.members - {m}), org) == {})
  {
    var m := MemberRow(db, org, user);
    var demoted := db.(members := db.members[m := db.members[m].(role := role)]);
    var removed := db.(members := db.members - {m});
    assert db.members[m].organizationId in db.orgs;
    assert Admins(removed, org) == Admins(db, org) - {m};
    assert Admins(demoted, org) == if role == ADMIN then (Admins(db, org) - {m}) + {m} else Admins(db, org) - {m};
    assert db.members[m].role != ADMIN ==> Admins(db, org) - {m} == Admins(db, org);
  }

  // ----- sequences -----

  datatype OrgOp =
    | CreateOp(user: Id)
    | InviteOp(org: Id, email: Id, role: Role, now: int)
    | RevokeOp(org: Id, id: Id)
    | AcceptOp(user: Id, email: Id, token: Id, now: int)
    | RoleOp(org: Id, user: Id, role: Role)
    | RemoveOp(org: Id, user: Id)

  ghost function Step(db: OrgDb, op: OrgOp): OrgDb {
    match op
    case CreateOp(user) => OrgCreated(db, user)
    case InviteOp(org, email, role, now) => Invited(db, org, email, role, now).0
    case RevokeOp(org, id) => InviteRevoked(db, org, id).0
    case AcceptOp(user, email, token, now) => Accepted(db, user, email, token, now).0
    case RoleOp(org, user, role) => RoleSet(db, org, user, role).0
    case RemoveOp(org, user) => MemberRemoved(db, org, user).0
  }

  ghost function Run(db: OrgDb, ops: seq<OrgOp>): OrgDb
    decreases |ops|
  {
    if ops == [] then db else Run(Step(db, ops[0]), ops[1..])
  }

  lemma StepKeepsSound(db: OrgDb, op: OrgOp)
    requires Sound(db)
    ensures Sound(Step(db, op))
    ensures db.orgs <= Step(db, op).orgs
  {
    hide Admins, IsMember;
    match op
    case CreateOp(user) => CreateKeepsSound(db, user);
    case InviteOp(_, _, _, _) => SameMembersSound(db, Step(db, op));
    case RevokeOp(_, _) => SameMembersSound(db, Step(db, op));
    case AcceptOp(user, email, token, now) => AcceptKeepsSound(db, user, email, token, now);
    case RoleOp(org, user, role) => RoleKeepsSound(db, org, user, role);
    case RemoveOp(org, user) => RemoveKeepsSound(db, org, user);
  }

  /** Whatever happens, every organisation ever created keeps an administrator, and nobody
      is a member of one organisation twice. */
  lemma {:induction false} MembershipSafety(db: OrgDb, ops: seq<OrgOp>)
    requires Sound(db)
    ensures Sound(Run(db, ops)) && db.orgs <= Run(db, ops).orgs
    ensures forall o :: o in db.orgs ==> Admins(Run(db, ops), o) != {}
    decreases |ops|
  {
    if ops != [] {
      StepKeepsSound(db, ops[0]);
      MembershipSafety(Step(db, ops[0]), ops[1..]);
    }
  }

  /** How often the invitation of this token has been turned into a membership. */
  ghost function TimesAccepted(db: OrgDb, ops: seq<OrgOp>, token: Id): nat
    decreases |ops|
  {
    if ops == [] then 0
    else
      var op := ops[0];
      (if op.AcceptOp? && op.token == token && Accepted(db, op.user, op.email, token, op.now).1.Ok? then 1 else 0)
      + TimesAccepted(Step(db, op), ops[1..], token)
  }

  ghost predicate Settled(db: OrgDb, token: Id) {
    token in db.invitations && db.invitations[token].status != PENDING
  }

  lemma StepSettles(db: OrgDb, op: OrgOp, token: Id)
    requires Sound(db)
    ensures Settled(db, token) ==>
              Settled(Step(db, op), token) && Step(db, op).invitations[token] == db.invitations[token]
    ensures op.AcceptOp? && op.token == token && Accepted(db, op.user, op.email, token, op.now).1.Ok? ==>
              !Settled(db, token) && Settled(Step(db, op), token)
  {
  }

  /** An invitation that is no longer pending stays as it is and gives no membership; a
      pending one gives at most one. */
  lemma {:induction false} InvitationUsedOnce(db: OrgDb, ops: seq<OrgOp>, token: Id)
    requires Sound(db)
    ensures TimesAccepted(db, ops, token) <= 1
    ensures Settled(db, token) ==>
              && TimesAccepted(db, ops, token) == 0
              && Settled(Run(db, ops), token) && Run(db, ops).invitations[token] == db.invitations[token]
    decreases |ops|
  {
    if ops != [] {
      hide Sound, Step, Accepted;
      StepKeepsSound(db, ops[0]);
      StepSettles(db, ops[0], token);
      InvitationUsedOnce(Step(db, ops[0]), ops[1..], token);
    }
  }

  // ----- what a call stores -----

  /** When an acceptance succeeds, and everything it changes: one fresh membership with the
      invitation's organisation and role, and that invitation's status. */
  lemma AcceptStoresInvitation(db: OrgDb, user: Id, email: Id, token: Id, now: int)
    ensures var (after, r) := Accepted(db, user, email, token, now);
            && (r.Ok? <==>
                  && token in db.invitations && db.invitations[token].email == email
                  && db.invitations[token].status == PENDING && now <= db.invitations[token].expiresAt
                  && forall m :: m in db.members ==>
                       !(db.members[m].organizationId == db.invitations[token].organizationId
                         && db.members[m].userId == user))
            && (r == Err(NotFound) <==> token !in db.invitations || db.invitations[token].email != email)
            && (r.Err? ==> after == db && r.error in {NotFound, Conflict})
            && (r.Ok? ==>
                  var invitation := db.invitations[token];
                  && r.value == db.nextId && after.nextId == db.nextId + 1 && after.orgs == db.orgs
                  && after.members ==
                     db.members[db.nextId := Membership(invitation.organizationId, user, invitation.role)]
                  && after.invitations.Keys == db.invitations.Keys
                  && after.invitations[token] ==
                     Invitation(invitation.organizationId, email, invitation.role, ACCEPTED, invitation.expiresAt)
                  && forall i :: i in db.invitations && i != token ==> after.invitations[i] == db.invitations[i])
  {
  }

  /** A new organisation has its creator as its only member, an administrator. */
  lemma CreateStoresCreator(db: OrgDb, user: Id)
    requires Sound(db)
    ensures var after := OrgCreated(db, user);
            && db.nextId !in db.orgs && after.orgs == db.orgs + {db.nextId} && after.invitations == db.invitations
            && (forall m :: m in db.members ==> m in after.members && after.members[m] == db.members[m])
            && IsMember(after, db.nextId, user)
            && forall m :: m in after.members && m !in db.members ==>
                 after.members[m] == Membership(db.nextId, user, ADMIN)
  {
    var after := OrgCreated(db, user);
    assert after.members[db.nextId + 1] == Membership(db.nextId, user, ADMIN);
  }

  /** An invitation carries the request and is open for seven days; it needs the organisation. */
  lemma InviteStoresRequest(db: OrgDb, org: Id, email: Id, role: Role, now: int)
    ensures var (after, r) := Invited(db, org, email, role, now);
            && (r == Err(NotFound) <==> org !in db.orgs) && (r.Err? ==> after == db && r == Err(NotFound))
            && (r.Ok? ==>
                  && r.value == db.nextId && after.nextId == db.nextId + 1
                  && after.orgs == db.orgs && after.members == db.members
                  && after.invitations ==
                     db.invitations[db.nextId := Invitation(org, email, role, PENDING, now + 7 * 24 * 60 * 60 * 1000)])
  {
  }

  /** A revocation needs a pending invitation of the organisation and changes its status only. */
  lemma RevokeStoresStatus(db: OrgDb, org: Id, id: Id)
    ensures var (after, r) := InviteRevoked(db, org, id);
            && (r.Ok? <==> id in db.invitations && db.invitations[id].organizationId == org
                           && db.invitations[id].status == PENDING)
            && (r.Err? ==> after == db && r == Err(NotFound))
            && (r.Ok? ==>
                  && after.orgs == db.orgs && after.members == db.members && after.nextId == db.nextId
                  && after.invitations.Keys == db.invitations.Keys && after.invitations[id].status == REVOKED
                  && after.invitations[id] == db.invitations[id].(status := after.invitations[id].status)
                  && forall i :: i in db.invitations && i != id ==> after.invitations[i] == db.invitations[i])
  {
  }

  /** A role change gives the user's row the new role and changes nothing else; a removal takes
      that row away and nothing else. */
  lemma ChangesAreLocal(db: OrgDb, org: Id, user: Id, role: Role, m: Id)
    requires Sound(db)
    ensures var (after, r) := RoleSet(db, org, user, role);
            && (r == Err(NotFound) <==> !IsMember(db, org, user)) && (r.Err? ==> after == db)
            && (r.Ok? ==>
                  && after.orgs == db.orgs && after.invitations == db.invitations && after.nextId == db.nextId
                  && after.members.Keys == db.members.Keys
                  && (m in db.members ==>
                        after.members[m] ==
                        if db.members[m].organizationId == org && db.members[m].userId == user
                        then Membership(org, user, role) else db.members[m]))
    ensures var (after, r) := MemberRemoved(db, org, user);
            && (r == Err(NotFound) <==> !IsMember(db, org, user)) && (r.Err? ==> after == db)
            && (r.Ok? ==>
                  && after.orgs == db.orgs && after.invitations == db.invitations && after.nextId == db.nextId
                  && (m in after.members <==>
                        m in db.members && !(db.members[m].organizationId == org && db.members[m].userId == user))
                  && (m in after.members ==> after.members[m] == db.members[m]))
  {
    hide Admins;
  }
}
