/** Role changes, removals, acceptances and revocations whose reads and writes are separate
    steps, interleaved freely with each other and with every other call: when organisations
    keep an administrator, and when an invitation is used once. */
module MembershipRaces {
  import opened Domain
  import opened Memberships

  type CallId = nat

  datatype Change = SetRole(role: Role) | Delete

  /** A request between its steps.  A change knows the row it found and the row's role, and
      whether the count of other administrators has been taken; an acceptance and a
      revocation have found their invitation pending. */
  datatype Pending =
    | Changing(org: Id, row: Id, found: Role, change: Change, counted: bool)
    | Accepting(user: Id, token: Id)
    | Revoking(token: Id)

  datatype Office = Office(db: OrgDb, open: map<CallId, Pending>)

  datatype Event =
    | FindsMember(call: CallId, org: Id, user: Id, change: Change)
    | CountsAdmins(call: CallId)
    | ReadsForAccept(call: CallId, user: Id, email: Id, token: Id, now: int)
    | ReadsForRevoke(call: CallId, org: Id, token: Id)
    | Writes(call: CallId)
    | Whole(op: OrgOp)

  /** The change takes an administrator away if the row is one. */
  predicate Demotes(change: Change) {
    change.Delete? || change.role != ADMIN
  }

  predicate NeedsCount(p: Pending) {
    p.Changing? && p.found == ADMIN && Demotes(p.change) && !p.counted
  }

  /** A row that is gone, and a user who joined meanwhile, make the database refuse the
      write; otherwise nothing read before is looked at again. */
  ghost function Written(db: OrgDb, p: Pending): OrgDb {
    match p
    case Changing(_, row, _, change, _) =>
      if row !in db.members then db
      else if change.Delete? then db.(members := db.members - {row})
      else db.(members := db.members[row := db.members[row].(role := change.role)])
    case Accepting(user, token) =>
      if token !in db.invitations || IsMember(db, db.invitations[token].organizationId, user) then db
      else
        var invitation := db.invitations[token];
        db.(members := db.members[db.nextId := Membership(invitation.organizationId, user, invitation.role)],
            invitations := db.invitations[token := invitation.(status := ACCEPTED)], nextId := db.nextId + 1)
    case Revoking(token) =>
      if token !in db.invitations then db
      else db.(invitations := db.invitations[token := db.invitations[token].(status := REVOKED)])
  }

  /** An event whose call is not at that point, or is refused there, opens nothing. */
  ghost function Next(s: Office, e: Event): Office {
    match e
    case FindsMember(call, org, user, change) =>
      if call in s.open || !IsMember(s.db, org, user) then s
      else
        var row := MemberRow(s.db, org, user);
        s.(open := s.open[call := Changing(org, row, s.db.members[row].role, change, false)])
    case CountsAdmins(call) =>
      if call !in s.open || !NeedsCount(s.open[call]) then s
      else if Admins(s.db, s.open[call].org) - {s.open[call].row} == {} then s.(open := s.open - {call})
      else s.(open := s.open[call := s.open[call].(counted := true)])
    case ReadsForAccept(call, user, email, token, now) =>
      if call in s.open || token !in s.db.invitations || s.db.invitations[token].email != email
         || s.db.invitations[token].status != PENDING || s.db.invitations[token].expiresAt < now then s
      else s.(open := s.open[call := Accepting(user, token)])
    case ReadsForRevoke(call, org, token) =>
      if call in s.open || token !in s.db.invitations || s.db.invitations[token].organizationId != org
         || s.db.invitations[token].status != PENDING then s
      else s.(open := s.open[call := Revoking(token)])
    case Writes(call) =>
      if call !in s.open || NeedsCount(s.open[call]) then s
      else Office(Written(s.db, s.open[call]), s.open - {call})
    case Whole(op) => s.(db := Step(s.db, op))
  }

  /** The state after the first k events. */
  ghost function StateAt(s: Office, events: seq<Event>, k: nat): Office
    requires k <= |events|
  {
    if k == 0 then s else Next(StateAt(s, events, k - 1), events[k - 1])
  }

  predicate IsWrite(s: Office, e: Event) {
    e.Writes? && e.call in s.open && !NeedsCount(s.open[e.call])
  }

  // ----- what no interleaving breaks -----

  /** All of Memberships.Sound but the administrators. */
  ghost predicate Structured(db: OrgDb) {
    && (forall o :: o in db.orgs ==> o < db.nextId)
    && (forall m :: m in db.members ==> m < db.nextId && db.members[m].organizationId in db.orgs)
    && (forall i :: i in db.invitations ==> i < db.nextId && db.invitations[i].organizationId in db.orgs)
    && OneRowPerUser(db.members)
  }

  ghost predicate Staffed(db: OrgDb) {
    forall o :: o in db.orgs ==> Admins(db, o) != {}
  }

  lemma SoundIsBoth(db: OrgDb)
    ensures Sound(db) <==> Structured(db) && Staffed(db)
  {
  }

  /** An open request still points at its own organisation's row or at its invitation. */
  ghost predicate Fits(db: OrgDb, p: Pending) {
    match p
    case Changing(org, row, _, _, _) =>
      org in db.orgs && row < db.nextId && (row in db.members ==> db.members[row].organizationId == org)
    case Accepting(_, token) => token in db.invitations
    case Revoking(token) => token in db.invitations
  }

  ghost predicate OpenFits(s: Office) {
    forall c :: c in s.open ==> Fits(s.db, s.open[c])
  }

  /** How any step may change the tables. */
  ghost predicate Extends(db: OrgDb, db': OrgDb) {
    && db.orgs <= db'.orgs && db.nextId <= db'.nextId
    && (forall m :: m in db'.members ==>
          if m in db.members then db'.members[m].organizationId == db.members[m].organizationId else m >= db.nextId)
    && (forall i :: i in db.invitations ==>
          && i in db'.invitations
          && db'.invitations[i] == db.invitations[i].(status := db'.invitations[i].status))
  }

  lemma StepExtends(db: OrgDb, op: OrgOp)
    requires Structured(db)
    ensures Extends(db, Step(db, op)) && Structured(Step(db, op))
  {
    hide Admins;
    match op
    case RoleOp(_, _, _) => ChangeExtends(db, op);
    case RemoveOp(_, _) => ChangeExtends(db, op);
    case AcceptOp(_, _, _, _) => AcceptExtends(db, op);
    case CreateOp(user) =>
      assert forall m :: m in db.members ==> db.members[m].organizationId != db.nextId;
      NewMemberIsAlone(db.members, db.nextId + 1, Membership(db.nextId, user, ADMIN));
      hide OneRowPerUser;
    case _ => hide OneRowPerUser;
  }

  lemma ChangeExtends(db: OrgDb, op: OrgOp)
    requires Structured(db) && (op.RoleOp? || op.RemoveOp?)
    ensures Extends(db, Step(db, op)) && Structured(Step(db, op))
  {
    if IsMember(db, op.org, op.user) {
      ChangedRowIsAlone(db.members, MemberRow(db, op.org, op.user), if op.RoleOp? then op.role else ADMIN);
    }
    hide Admins, OneRowPerUser;
  }

  lemma AcceptExtends(db: OrgDb, op: OrgOp)
    requires Structured(db) && op.AcceptOp?
    ensures Extends(db, Step(db, op)) && Structured(Step(db, op))
  {
    if AcceptProblem(db, op.user, op.email, op.token, op.now).None? {
      var invitation := db.invitations[op.token];
      assert !IsMember(db, invitation.organizationId, op.user);
      NewMemberIsAlone(db.members, db.nextId, Membership(invitation.organizationId, op.user, invitation.role));
    }
    hide IsMember, OneRowPerUser;
  }

  lemma WriteExtends(db: OrgDb, p: Pending)
    requires Structured(db) && Fits(db, p)
    ensures Extends(db, Written(db, p)) && Structured(Written(db, p))
  {
    match p
    case Changing(_, row, _, change, _) =>
      if row in db.members { ChangedRowIsAlone(db.members, row, if change.SetRole? then change.role else ADMIN); }
      hide OneRowPerUser;
    case Accepting(user, token) =>
      var invitation := db.invitations[token];
      if !IsMember(db, invitation.organizationId, user) {
        NewMemberIsAlone(db.members, db.nextId, Membership(invitation.organizationId, user, invitation.role));
      }
      hide IsMember, OneRowPerUser;
    case Revoking(_) => hide OneRowPerUser;
  }

  lemma ExtensionFits(db: OrgDb, db': OrgDb, p: Pending)
    requires Extends(db, db') && Fits(db, p)
    ensures Fits(db', p)
  {
  }

  lemma NextKeepsStructure(s: Office, e: Event)
    requires Structured(s.db) && OpenFits(s)
    ensures Structured(Next(s, e).db) && OpenFits(Next(s, e)) && Extends(s.db, Next(s, e).db)
  {
    match e
    case Writes(call) =>
      if IsWrite(s, e) {
        assert Fits(s.db, s.open[call]);
        WriteExtends(s.db, s.open[call]);
        forall c | c in Next(s, e).open ensures Fits(Next(s, e).db, Next(s, e).open[c]) {
          ExtensionFits(s.db, Next(s, e).db, s.open[c]);
        }
      }
    case Whole(op) =>
      StepExtends(s.db, op);
      hide Step, Structured;
      forall c | c in s.open ensures Fits(Next(s, e).db, s.open[c]) { ExtensionFits(s.db, Next(s, e).db, s.open[c]); }
    case _ =>
  }

  lemma {:induction false} StructureStays(s: Office, events: seq<Event>, k: nat)
    requires Structured(s.db) && OpenFits(s) && k <= |events|
    ensures Structured(StateAt(s, events, k).db) && OpenFits(StateAt(s, events, k))
  {
    hide Structured, OpenFits, Next, Extends;
    if k > 0 {
      StructureStays(s, events, k - 1);
      NextKeepsStructure(StateAt(s, events, k - 1), events[k - 1]);
    }
  }

  // ----- administrators -----

  predicate DemotesRow(db: OrgDb, p: Pending) {
    p.Changing? && p.row in db.members && Demotes(p.change)
  }

  /** A write that demotes or removes still finds another administrator. */
  ghost predicate LeavesAdmin(s: Office, e: Event) {
    IsWrite(s, e) && DemotesRow(s.db, s.open[e.call]) ==>
      Admins(s.db, s.open[e.call].org) - {s.open[e.call].row} != {}
  }

  lemma AdminsAfterChange(db: OrgDb, p: Pending, o: Id)
    requires p.Changing? && Fits(db, p) && p.row in db.members
    ensures Admins(Written(db, p), o) ==
            if o != p.org then Admins(db, o)
            else if Demotes(p.change) then Admins(db, o) - {p.row} else Admins(db, o) + {p.row}
  {
  }

  lemma ChangeStaffedIff(db: OrgDb, p: Pending)
    requires Staffed(db) && Fits(db, p) && p.Changing? && p.row in db.members
    ensures Staffed(Written(db, p)) <==> (Demotes(p.change) ==> Admins(db, p.org) - {p.row} != {})
  {
    var db', o := Written(db, p), p.org;
    assert db'.orgs == db.orgs && o in db.orgs;
    hide Admins, Written;
    AdminsAfterChange(db, p, o);
    assert Admins(db, o) != {};
    forall q | q in db.orgs && q != o ensures Admins(db', q) != {} {
      AdminsAfterChange(db, p, q);
      assert Admins(db, q) != {};
    }
    assert Staffed(db') <==> Admins(db', o) != {};
    assert p.row in Admins(db, o) + {p.row};
  }

  /** The exact guard of one write. */
  lemma WriteStaffedIff(db: OrgDb, p: Pending)
    requires Structured(db) && Staffed(db) && Fits(db, p)
    ensures Staffed(Written(db, p)) <==> (DemotesRow(db, p) ==> Admins(db, p.org) - {p.row} != {})
  {
    var db' := Written(db, p);
    match p
    case Changing(_, row, _, _, _) => if row in db.members { ChangeStaffedIff(db, p); }
    case Accepting(_, _) =>
      forall o | o in db.orgs ensures Admins(db, o) <= Admins(db', o) {}
    case Revoking(_) =>
      forall o | o in db.orgs ensures Admins(db, o) == Admins(db', o) {}
  }

  lemma NextStaffedIff(s: Office, e: Event)
    requires Structured(s.db) && OpenFits(s) && Staffed(s.db)
    ensures Staffed(Next(s, e).db) <==> LeavesAdmin(s, e)
  {
    hide Structured, Staffed, Written, Step, Admins;
    match e
    case Writes(call) =>
      if IsWrite(s, e) {
        assert Fits(s.db, s.open[call]);
        WriteStaffedIff(s.db, s.open[call]);
      }
    case Whole(op) =>
      SoundIsBoth(s.db);
      StepKeepsSound(s.db, op);
      SoundIsBoth(Step(s.db, op));
    case _ =>
  }

  /** Every organisation has an administrator after every prefix. */
  ghost predicate StaffedThroughout(s: Office, events: seq<Event>) {
    forall k :: 0 <= k <= |events| ==> Staffed(StateAt(s, events, k).db)
  }

  ghost predicate LeavesAdminThroughout(s: Office, events: seq<Event>) {
    forall k :: 0 <= k < |events| ==> LeavesAdmin(StateAt(s, events, k), events[k])
  }

  /** Over every interleaving: each organisation has an administrator after every prefix if
      and only if each demoting or removing write still finds another one. */
  lemma StaffedThroughoutIff(s: Office, events: seq<Event>)
    requires Structured(s.db) && OpenFits(s) && Staffed(s.db)
    ensures StaffedThroughout(s, events) <==> LeavesAdminThroughout(s, events)
  {
    hide Structured, OpenFits, Staffed, LeavesAdmin, Next;
    if StaffedThroughout(s, events) {
      forall k | 0 <= k < |events| ensures LeavesAdmin(StateAt(s, events, k), events[k]) {
        StructureStays(s, events, k);
        assert Staffed(StateAt(s, events, k).db) && Staffed(StateAt(s, events, k + 1).db);
        NextStaffedIff(StateAt(s, events, k), events[k]);
      }
    }
    if LeavesAdminThroughout(s, events) {
      forall k | 0 <= k <= |events| ensures Staffed(StateAt(s, events, k).db) {
        LeavingAdminKeepsStaffed(s, events, k);
      }
    }
  }

  lemma {:induction false} LeavingAdminKeepsStaffed(s: Office, events: seq<Event>, k: nat)
    requires Structured(s.db) && OpenFits(s) && Staffed(s.db) && k <= |events|
    requires forall j :: 0 <= j < k ==> LeavesAdmin(StateAt(s, events, j), events[j])
    ensures Staffed(StateAt(s, events, k).db)
  {
    hide Structured, OpenFits, Staffed, LeavesAdmin, Next;
    if k > 0 {
      LeavingAdminKeepsStaffed(s, events, k - 1);
      StructureStays(s, events, k - 1);
      NextStaffedIff(StateAt(s, events, k - 1), events[k - 1]);
    }
  }

  // ----- a condition to be met before a demotion starts -----

  /** Rows with an open demotion or removal. */
  ghost function Targeted(s: Office): set<Id> {
    set c | c in s.open && s.open[c].Changing? && Demotes(s.open[c].change) :: s.open[c].row
  }

  /** Some administrator of the organisation has no demotion or removal open against it. */
  ghost predicate Secure(s: Office, o: Id) {
    Admins(s.db, o) - Targeted(s) != {}
  }

  /** The row that a demotion or removal starting now is about. */
  ghost predicate StartsAgainst(s: Office, e: Event, org: Id, row: Id) {
    match e
    case FindsMember(call, o, user, change) =>
      o == org && call !in s.open && Demotes(change) && IsMember(s.db, org, user) && row == MemberRow(s.db, org, user)
    case Whole(RoleOp(o, user, role)) =>
      o == org && role != ADMIN && IsMember(s.db, org, user) && row == MemberRow(s.db, org, user)
    case Whole(RemoveOp(o, user)) => o == org && IsMember(s.db, org, user) && row == MemberRow(s.db, org, user)
    case _ => false
  }

  /** Another administrator without an open demotion remains. */
  ghost predicate StartsSecurely(s: Office, e: Event) {
    forall o, row :: StartsAgainst(s, e, o, row) ==> Admins(s.db, o) - Targeted(s) - {row} != {}
  }

  ghost predicate AllSecure(s: Office) {
    forall o :: o in s.db.orgs ==> Secure(s, o)
  }

  lemma SecureIsStaffed(s: Office)
    requires AllSecure(s)
    ensures Staffed(s.db)
  {
    forall o | o in s.db.orgs ensures Admins(s.db, o) != {} { assert Secure(s, o); }
  }

  /** Administrators that no demotion or removal touches now remain administrators. */
  lemma AdminsRemain(s: Office, e: Event, o: Id, m: Id)
    requires Structured(s.db) && OpenFits(s) && m in Admins(s.db, o) - Targeted(s) && !StartsAgainst(s, e, o, m)
    ensures m in Admins(Next(s, e).db, o) - Targeted(Next(s, e))
  {
    var s' := Next(s, e);
    assert m in s.db.members && s.db.members[m].organizationId == o;
    assert m !in Targeted(s');
    if IsWrite(s, e) && s.open[e.call].Changing? && s.open[e.call].row == m {
      assert !Demotes(s.open[e.call].change);
    }
  }

  lemma NextKeepsSecure(s: Office, e: Event)
    requires Structured(s.db) && OpenFits(s) && AllSecure(s) && StartsSecurely(s, e)
    ensures AllSecure(Next(s, e))
  {
    var s' := Next(s, e);
    forall o | o in s'.db.orgs ensures Secure(s', o) {
      if o in s.db.orgs {
        assert Secure(s, o);
        var m :| m in Admins(s.db, o) - Targeted(s);
        if StartsAgainst(s, e, o, m) {
          var n :| n in Admins(s.db, o) - Targeted(s) - {m};
          AdminsRemain(s, e, o, n);
        } else {
          AdminsRemain(s, e, o, m);
        }
      } else {
        NewOrgIsSecure(s, e, o);
      }
    }
  }

  lemma NewOrgIsSecure(s: Office, e: Event, o: Id)
    requires Structured(s.db) && OpenFits(s) && o in Next(s, e).db.orgs && o !in s.db.orgs
    ensures Secure(Next(s, e), o)
  {
    var s' := Next(s, e);
    assert e.Whole? && e.op.CreateOp? && o == s.db.nextId;
    assert s.db.nextId + 1 in Admins(s'.db, o);
    assert forall c :: c in s.open ==> Fits(s.db, s.open[c]);
    assert forall row :: row in Targeted(s') ==> row < s.db.nextId;
    assert s.db.nextId + 1 in Admins(s'.db, o) - Targeted(s');
  }

  lemma NothingOpenIsSecure(s: Office)
    requires Staffed(s.db) && s.open == map[]
    ensures AllSecure(s) && OpenFits(s)
  {
    assert Targeted(s) == {};
    forall o | o in s.db.orgs ensures Secure(s, o) { assert Admins(s.db, o) - {} == Admins(s.db, o); }
  }

  /** If a demotion or removal of an administrator only starts while another administrator
      has none open against it, every organisation keeps one, whatever is interleaved. */
  lemma {:induction false} SecureStartsKeepStaffed(s: Office, events: seq<Event>, k: nat)
    requires Structured(s.db) && Staffed(s.db) && s.open == map[] && k <= |events|
    requires forall j :: 0 <= j < k ==> StartsSecurely(StateAt(s, events, j), events[j])
    ensures AllSecure(StateAt(s, events, k)) && Staffed(StateAt(s, events, k).db)
  {
    hide Structured, Staffed, OpenFits, AllSecure, StartsSecurely, Next;
    NothingOpenIsSecure(s);
    if k > 0 {
      SecureStartsKeepStaffed(s, events, k - 1);
      StructureStays(s, events, k - 1);
      NextKeepsSecure(StateAt(s, events, k - 1), events[k - 1]);
      SecureIsStaffed(StateAt(s, events, k));
    }
  }

  ghost predicate OpenAgainst(s: Office, o: Id, c: CallId) {
    c in s.open && s.open[c].Changing? && s.open[c].org == o && Demotes(s.open[c].change)
  }

  ghost function OpenDemotions(s: Office, o: Id): set<CallId> {
    set c | c in s.open && OpenAgainst(s, o, c)
  }

  ghost function RowsOf(open: map<CallId, Pending>, calls: set<CallId>): set<Id> {
    set c | c in calls && c in open && open[c].Changing? :: open[c].row
  }

  lemma {:induction false} NoMoreRowsThanCalls(open: map<CallId, Pending>, calls: set<CallId>)
    ensures |RowsOf(open, calls)| <= |calls|
    decreases |calls|
  {
    if calls == {} {
      assert RowsOf(open, calls) == {};
    } else {
      var c :| c in calls;
      NoMoreRowsThanCalls(open, calls - {c});
      var own := if c in open && open[c].Changing? then {open[c].row} else {};
      assert RowsOf(open, calls) == RowsOf(open, calls - {c}) + own;
    }
  }

  /** Fewer open demotions and removals than administrators leave one without. */
  lemma FewerDemotionsThanAdmins(s: Office, o: Id)
    requires OpenFits(s) && |OpenDemotions(s, o)| < |Admins(s.db, o)|
    ensures Secure(s, o)
  {
    var rows := RowsOf(s.open, OpenDemotions(s, o));
    NoMoreRowsThanCalls(s.open, OpenDemotions(s, o));
    if Admins(s.db, o) - Targeted(s) == {} {
      forall m | m in Admins(s.db, o) ensures m in rows {
        assert m in Targeted(s) || m in Admins(s.db, o) - Targeted(s);
        var c :| c in s.open && s.open[c].Changing? && Demotes(s.open[c].change) && s.open[c].row == m;
        assert Fits(s.db, s.open[c]);
        assert c in OpenDemotions(s, o);
      }
      SubsetIsSmaller(Admins(s.db, o), rows);
    }
  }

  lemma SubsetIsSmaller(a: set<Id>, b: set<Id>)
    requires a <= b
    ensures |a| <= |b|
  {
    assert b == a + (b - a);
  }

  // ----- two demotions that overlap -----

  /** Two administrators of one organisation. */
  function TwoAdmins(a: Id, b: Id): Office {
    Office(OrgDb({0}, map[1 := Membership(0, a, ADMIN), 2 := Membership(0, b, ADMIN)], map[], 3), map[])
  }

  /** Both rows are found and both counts taken before either write. */
  function BothDemoted(a: Id, b: Id): seq<Event> {
    [FindsMember(0, 0, a, SetRole(VIEWER)), FindsMember(1, 0, b, SetRole(VIEWER)), CountsAdmins(0), CountsAdmins(1),
     Writes(0), Writes(1)]
  }

  lemma TwoRows(a: Id, b: Id, db: OrgDb, user: Id, row: Id)
    requires a != b && db.members.Keys == {1, 2} && row in {1, 2} && user == if row == 1 then a else b
    requires db.members[1].organizationId == 0 && db.members[1].userId == a
    requires db.members[2].organizationId == 0 && db.members[2].userId == b
    ensures IsMember(db, 0, user) && MemberRow(db, 0, user) == row
  {
    assert db.members[row].userId == user;
  }

  function Demotion(row: Id, counted: bool): Pending {
    Changing(0, row, ADMIN, SetRole(VIEWER), counted)
  }

  lemma BothAreFound(a: Id, b: Id)
    requires a != b
    ensures var s, events := TwoAdmins(a, b), BothDemoted(a, b);
            Sound(s.db) && StateAt(s, events, 2) == Office(s.db, map[0 := Demotion(1, false), 1 := Demotion(2, false)])
  {
    var s, events := TwoAdmins(a, b), BothDemoted(a, b);
    TwoRows(a, b, s.db, a, 1);
    TwoRows(a, b, s.db, b, 2);
    assert Admins(s.db, 0) == {1, 2};
    hide IsMember, MemberRow, Sound, Step, Written;
    assert StateAt(s, events, 0) == s;
    assert StateAt(s, events, 1) == Office(s.db, map[0 := Demotion(1, false)]);
  }

  lemma StateAfter(s: Office, events: seq<Event>, k: nat)
    requires k < |events|
    ensures StateAt(s, events, k + 1) == Next(StateAt(s, events, k), events[k])
  {
  }

  lemma CountLetsPass(s: Office, call: CallId, row: Id)
    requires call in s.open && s.open[call] == Demotion(row, false) && Admins(s.db, 0) - {row} != {}
    ensures Next(s, CountsAdmins(call)) == s.(open := s.open[call := Demotion(row, true)])
  {
  }

  lemma BothAreCounted(a: Id, b: Id)
    requires a != b
    ensures var s, events := TwoAdmins(a, b), BothDemoted(a, b);
            StateAt(s, events, 4) == Office(s.db, map[0 := Demotion(1, true), 1 := Demotion(2, true)])
  {
    var s, events := TwoAdmins(a, b), BothDemoted(a, b);
    BothAreFound(a, b);
    assert 2 in Admins(s.db, 0) - {1} && 1 in Admins(s.db, 0) - {2};
    hide StateAt, Next, Sound, Admins, Demotion;
    StateAfter(s, events, 2);
    CountLetsPass(StateAt(s, events, 2), 0, 1);
    StateAfter(s, events, 3);
    CountLetsPass(StateAt(s, events, 3), 1, 2);
  }

  lemma DemotionIsWritten(s: Office, call: CallId, row: Id)
    requires call in s.open && s.open[call] == Demotion(row, true) && row in s.db.members
    ensures Next(s, Writes(call)).open == s.open - {call}
    ensures Next(s, Writes(call)).db == s.db.(members := s.db.members[row := s.db.members[row].(role := VIEWER)])
  {
  }

  /** The second write, after the first has made row 1 a viewer. */
  lemma SecondDemotion(s: Office, b: Id)
    requires s.db.members.Keys == {1, 2} && s.db.members[1].role == VIEWER && s.db.members[2] == Membership(0, b, ADMIN)
    requires 1 in s.open && s.open[1] == Demotion(2, true)
    ensures !LeavesAdmin(s, Writes(1)) && Admins(Next(s, Writes(1)).db, 0) == {}
  {
    hide Step;
    DemotionIsWritten(s, 1, 2);
    assert s.open[1] == Demotion(2, true);
    assert Admins(s.db, 0) == {2};
  }

  lemma FirstDemotion(s: Office, b: Id)
    requires s.db.members.Keys == {1, 2} && s.db.members[2] == Membership(0, b, ADMIN)
    requires s.open.Keys == {0, 1} && s.open[0] == Demotion(1, true) && s.open[1] == Demotion(2, true)
    ensures var s' := Next(s, Writes(0));
            && s'.db.members.Keys == {1, 2} && s'.db.members[1].role == VIEWER && s'.db.members[2] == s.db.members[2]
            && 1 in s'.open && s'.open[1] == Demotion(2, true)
  {
    hide Step;
    DemotionIsWritten(s, 0, 1);
  }

  /** Both counts see the other administrator, both demotions are carried out, and the
      organisation ends without an administrator. */
  lemma ConcurrentDemotionsLeaveNone(a: Id, b: Id)
    requires a != b
    ensures var s, events := TwoAdmins(a, b), BothDemoted(a, b);
            && Sound(s.db) && OpenFits(s)
            && !LeavesAdmin(StateAt(s, events, 5), events[5])
            && Admins(StateAt(s, events, 6).db, 0) == {}
  {
    var s, events := TwoAdmins(a, b), BothDemoted(a, b);
    assert OpenFits(s);
    hide StateAt, Next, Sound, Step, Written, IsMember, OpenFits, Admins, LeavesAdmin, Demotion;
    BothAreFound(a, b);
    BothAreCounted(a, b);
    StateAfter(s, events, 4);
    FirstDemotion(StateAt(s, events, 4), b);
    StateAfter(s, events, 5);
    SecondDemotion(StateAt(s, events, 5), b);
  }

  // ----- invitations -----

  ghost predicate Joins(s: Office, e: Event, token: Id) {
    match e
    case Writes(call) =>
      && IsWrite(s, e) && s.open[call].Accepting? && s.open[call].token == token && token in s.db.invitations
      && !IsMember(s.db, s.db.invitations[token].organizationId, s.open[call].user)
    case Whole(op) =>
      op.AcceptOp? && op.token == token && Accepted(s.db, op.user, op.email, token, op.now).1.Ok?
    case _ => false
  }

  ghost predicate Revokes(s: Office, e: Event, token: Id) {
    IsWrite(s, e) && s.open[e.call].Revoking? && s.open[e.call].token == token && token in s.db.invitations
  }

  /** An acceptance that makes a membership still finds the invitation pending, and a
      revocation does not find it accepted. */
  ghost predicate InvitationInTime(s: Office, e: Event, token: Id) {
    && (Joins(s, e, token) ==> s.db.invitations[token].status == PENDING)
    && (Revokes(s, e, token) ==> s.db.invitations[token].status != ACCEPTED)
  }

  /** How many memberships the first k events make out of the invitation. */
  ghost function TimesJoined(s: Office, events: seq<Event>, token: Id, k: nat): nat
    requires k <= |events|
  {
    if k == 0 then 0
    else TimesJoined(s, events, token, k - 1) + if Joins(StateAt(s, events, k - 1), events[k - 1], token) then 1 else 0
  }

  /** At most one membership, and once settled the invitation stays as it is. */
  ghost predicate UsedOnce(s: Office, events: seq<Event>, token: Id) {
    && (forall k :: 0 <= k <= |events| ==> TimesJoined(s, events, token, k) <= 1)
    && (forall k :: 0 <= k < |events| && Settled(StateAt(s, events, k).db, token) ==>
          token in StateAt(s, events, k + 1).db.invitations
          && StateAt(s, events, k + 1).db.invitations[token] == StateAt(s, events, k).db.invitations[token])
  }

  ghost predicate InTimeThroughout(s: Office, events: seq<Event>, token: Id) {
    forall k :: 0 <= k < |events| ==> InvitationInTime(StateAt(s, events, k), events[k], token)
  }

  predicate StatusIs(db: OrgDb, token: Id, status: InviteStatus) {
    token in db.invitations && db.invitations[token].status == status
  }

  /** What one event does to an invitation. */
  lemma InvitationAfter(s: Office, e: Event, token: Id)
    requires Structured(s.db) && OpenFits(s)
    ensures var db, db' := s.db, Next(s, e).db;
            && (Joins(s, e, token) ==> token in db.invitations && StatusIs(db', token, ACCEPTED))
            && (Revokes(s, e, token) ==> token in db.invitations && StatusIs(db', token, REVOKED))
            && (!Joins(s, e, token) && StatusIs(db', token, ACCEPTED) ==> StatusIs(db, token, ACCEPTED))
            && (Settled(db, token) && !Joins(s, e, token) && !Revokes(s, e, token) ==>
                  token in db'.invitations && db'.invitations[token] == db.invitations[token])
            && (token in db.invitations ==>
                  token in db'.invitations
                  && db'.invitations[token] == db.invitations[token].(status := db'.invitations[token].status))
  {
    match e
    case Writes(call) =>
      hide Step, Structured;
      if IsWrite(s, e) { assert Fits(s.db, s.open[call]); }
    case Whole(op) => InvitationAfterStep(s.db, op, token);
    case _ =>
  }

  lemma InvitationAfterStep(db: OrgDb, op: OrgOp, token: Id)
    requires Structured(db)
    ensures var db' := Step(db, op);
            var joins := op.AcceptOp? && op.token == token && Accepted(db, op.user, op.email, token, op.now).1.Ok?;
            && (joins ==> token in db.invitations && StatusIs(db', token, ACCEPTED))
            && (!joins && StatusIs(db', token, ACCEPTED) ==> StatusIs(db, token, ACCEPTED))
            && (Settled(db, token) && !joins ==>
                  token in db'.invitations && db'.invitations[token] == db.invitations[token])
            && (token in db.invitations ==>
                  token in db'.invitations
                  && db'.invitations[token] == db.invitations[token].(status := db'.invitations[token].status))
  {
    hide Admins;
  }

  /** Joins never go down, and only an accepted invitation has been used. */
  lemma {:induction false} AcceptedWasJoined(s: Office, events: seq<Event>, token: Id, k: nat)
    requires Structured(s.db) && OpenFits(s) && !Settled(s.db, token) && k <= |events|
    ensures StatusIs(StateAt(s, events, k).db, token, ACCEPTED) ==> TimesJoined(s, events, token, k) >= 1
  {
    hide Structured, OpenFits, Next, Joins, Revokes;
    if k > 0 {
      AcceptedWasJoined(s, events, token, k - 1);
      StructureStays(s, events, k - 1);
      InvitationAfter(StateAt(s, events, k - 1), events[k - 1], token);
    }
  }

  lemma {:induction false} InTimeUsesOnce(s: Office, events: seq<Event>, token: Id, k: nat)
    requires Structured(s.db) && OpenFits(s) && !Settled(s.db, token) && k <= |events|
    requires InTimeThroughout(s, events, token)
    ensures TimesJoined(s, events, token, k) <= if Settled(StateAt(s, events, k).db, token) then 1 else 0
  {
    hide Structured, OpenFits, Next, Joins, Revokes;
    if k > 0 {
      InTimeUsesOnce(s, events, token, k - 1);
      StructureStays(s, events, k - 1);
      InvitationAfter(StateAt(s, events, k - 1), events[k - 1], token);
      assert InvitationInTime(StateAt(s, events, k - 1), events[k - 1], token);
    }
  }

  lemma SettledStays(s: Office, e: Event, token: Id)
    requires Structured(s.db) && OpenFits(s) && Settled(s.db, token)
    ensures (token in Next(s, e).db.invitations && Next(s, e).db.invitations[token] == s.db.invitations[token]) <==>
            (Joins(s, e, token) ==> s.db.invitations[token].status == ACCEPTED)
            && (Revokes(s, e, token) ==> s.db.invitations[token].status == REVOKED)
  {
    hide Structured, OpenFits, Next, Joins, Revokes;
    InvitationAfter(s, e, token);
  }

  /** Over every interleaving: an invitation that is not settled yet gives at most one
      membership and stays as it is once settled if and only if every acceptance that makes
      a membership still finds it pending and no revocation finds it accepted. */
  lemma UsedOnceIff(s: Office, events: seq<Event>, token: Id)
    requires Structured(s.db) && OpenFits(s) && !Settled(s.db, token)
    ensures UsedOnce(s, events, token) <==> InTimeThroughout(s, events, token)
  {
    hide Structured, OpenFits, Next, Joins, Revokes;
    if UsedOnce(s, events, token) {
      forall k | 0 <= k < |events| ensures InvitationInTime(StateAt(s, events, k), events[k], token) {
        OnceIsInTime(s, events, token, k);
      }
    }
    if InTimeThroughout(s, events, token) {
      forall k | 0 <= k <= |events| ensures TimesJoined(s, events, token, k) <= 1 {
        InTimeUsesOnce(s, events, token, k);
      }
      forall k | 0 <= k < |events| && Settled(StateAt(s, events, k).db, token)
        ensures token in StateAt(s, events, k + 1).db.invitations
        ensures StateAt(s, events, k + 1).db.invitations[token] == StateAt(s, events, k).db.invitations[token]
      {
        StructureStays(s, events, k);
        assert InvitationInTime(StateAt(s, events, k), events[k], token);
        SettledStays(StateAt(s, events, k), events[k], token);
      }
    }
  }

  lemma OnceIsInTime(s: Office, events: seq<Event>, token: Id, k: nat)
    requires Structured(s.db) && OpenFits(s) && !Settled(s.db, token)
    requires UsedOnce(s, events, token) && k < |events|
    ensures InvitationInTime(StateAt(s, events, k), events[k], token)
  {
    hide Structured, OpenFits, Next, Joins, Revokes;
    var now, e := StateAt(s, events, k), events[k];
    StructureStays(s, events, k);
    AcceptedWasJoined(s, events, token, k);
    InvitationAfter(now, e, token);
    assert TimesJoined(s, events, token, k + 1) <= 1;
    assert StateAt(s, events, k + 1) == Next(now, e);
    if Settled(now.db, token) { SettledStays(now, e, token); }
  }

  // ----- an acceptance that overlaps a revocation -----

  /** One administrator and one pending invitation. */
  function OneInvited(admin: Id, email: Id): Office {
    var invitation := Invitation(0, email, TESTER, PENDING, 0);
    Office(OrgDb({0}, map[1 := Membership(0, admin, ADMIN)], map[2 := invitation], 3), map[])
  }

  /** Both read the invitation as pending; the revocation is written first. */
  function RevokedMeanwhile(user: Id, email: Id): seq<Event> {
    [ReadsForAccept(0, user, email, 2, 0), ReadsForRevoke(1, 0, 2), Writes(1), Writes(0)]
  }

  /** The revoked invitation makes its user a member and ends as accepted. */
  lemma RevokedInvitationStillJoins(admin: Id, user: Id, email: Id)
    requires user != admin
    ensures var s, events := OneInvited(admin, email), RevokedMeanwhile(user, email);
            && Sound(s.db) && OpenFits(s)
            && StatusIs(StateAt(s, events, 3).db, 2, REVOKED) && !InvitationInTime(StateAt(s, events, 3), events[3], 2)
            && StatusIs(StateAt(s, events, 4).db, 2, ACCEPTED) && IsMember(StateAt(s, events, 4).db, 0, user)
  {
    var s, events := OneInvited(admin, email), RevokedMeanwhile(user, email);
    assert Admins(s.db, 0) == {1};
    assert StateAt(s, events, 0) == s;
    assert StateAt(s, events, 1) == Office(s.db, map[0 := Accepting(user, 2)]);
    assert StateAt(s, events, 2) == Office(s.db, map[0 := Accepting(user, 2), 1 := Revoking(2)]);
    var db3 := s.db.(invitations := map[2 := Invitation(0, email, TESTER, REVOKED, 0)]);
    assert StateAt(s, events, 3) == Office(db3, map[0 := Accepting(user, 2)]);
    var db4 := StateAt(s, events, 4).db;
    assert db4.members[3] == Membership(0, user, TESTER);
  }

  // ----- calls that nothing interrupts -----

  lemma StateAtStart(s: Office, events: seq<Event>)
    ensures StateAt(s, events, 0) == s
  {
  }

  function OpOf(org: Id, user: Id, change: Change): OrgOp {
    match change case SetRole(role) => RoleOp(org, user, role) case Delete => RemoveOp(org, user)
  }

  /** A role change or removal whose steps follow each other is the call that takes effect at
      once, refused or not. */
  lemma UninterruptedChange(s: Office, call: CallId, org: Id, user: Id, change: Change)
    requires call !in s.open
    ensures StateAt(s, [FindsMember(call, org, user, change), CountsAdmins(call), Writes(call)], 3).db ==
            Step(s.db, OpOf(org, user, change))
  {
    var events := [FindsMember(call, org, user, change), CountsAdmins(call), Writes(call)];
    StateAtStart(s, events);
    StateAfter(s, events, 0);
    StateAfter(s, events, 1);
    StateAfter(s, events, 2);
    hide StateAt, Admins;
  }

  /** So is an acceptance whose read and write follow each other. */
  lemma UninterruptedAcceptance(s: Office, call: CallId, user: Id, email: Id, token: Id, now: int)
    requires call !in s.open
    ensures StateAt(s, [ReadsForAccept(call, user, email, token, now), Writes(call)], 2).db ==
            Step(s.db, AcceptOp(user, email, token, now))
  {
    var events := [ReadsForAccept(call, user, email, token, now), Writes(call)];
    StateAtStart(s, events);
    StateAfter(s, events, 0);
    StateAfter(s, events, 1);
    hide StateAt, Admins, IsMember;
  }

  /** And a revocation. */
  lemma UninterruptedRevocation(s: Office, call: CallId, org: Id, token: Id)
    requires call !in s.open
    ensures StateAt(s, [ReadsForRevoke(call, org, token), Writes(call)], 2).db == Step(s.db, RevokeOp(org, token))
  {
    var events := [ReadsForRevoke(call, org, token), Writes(call)];
    StateAtStart(s, events);
    StateAfter(s, events, 0);
    StateAfter(s, events, 1);
    hide StateAt, Admins;
  }
}
