/** Refreshes whose read and rotation are separate steps, interleaved freely with each other
    and with every other call: when a family keeps at most one usable token, and when a
    family that was taken down stays down. */
module RefreshRace {
  import opened Domain
  import opened AuthService

  type CallId = nat

  /** A refresh call that has read its row and not acted on it yet. */
  datatype Reading = Reading(token: Token, found: Lookup)

  datatype Server = Server(db: AuthDb, open: map<CallId, Reading>)

  datatype Event =
    | Reads(call: CallId, token: Token, now: int)
    | Acts(call: CallId, now: int)
    | Whole(op: AuthOp)

  /** An event whose call is not at that point changes nothing. */
  function Next(s: Server, e: Event): Server {
    match e
    case Reads(call, token, now) =>
      if call in s.open then s else s.(open := s.open[call := Reading(token, LookUp(s.db, token, now))])
    case Acts(call, now) =>
      if call !in s.open then s
      else Server(Finished(s.db, s.open[call].token, s.open[call].found, now).0, s.open - {call})
    case Whole(op) => s.(db := Step(s.db, op))
  }

  /** The state after the first k events. */
  function StateAt(s: Server, events: seq<Event>, k: nat): Server
    requires k <= |events|
  {
    if k == 0 then s else Next(StateAt(s, events, k - 1), events[k - 1])
  }

  ghost predicate AllSingle(db: AuthDb) {
    forall f :: AtMostOneLive(db, f)
  }

  /** What a read found is still the row, its revocation aside. */
  ghost predicate Fits(db: AuthDb, r: Reading) {
    match r.found
    case Usable(row) => r.token in db.tokens && row == db.tokens[r.token].(revokedAt := None)
    case Revoked(row) => r.token in db.tokens && row.(revokedAt := None) == db.tokens[r.token].(revokedAt := None)
    case _ => true
  }

  ghost predicate Sound(s: Server) {
    && Numbered(s.db)
    && (forall c :: c in s.open ==> Fits(s.db, s.open[c]))
  }

  /** The event is the rotation of a token that was usable when it was read. */
  predicate Rotates(s: Server, e: Event) {
    e.Acts? && e.call in s.open && s.open[e.call].found.Usable?
  }

  /** A rotation finds its token still unrevoked, or its whole family without a usable token. */
  ghost predicate RotatesInTime(s: Server, e: Event) {
    Rotates(s, e) ==>
      Live(s.db, s.open[e.call].token) || FamilyDead(s.db, s.open[e.call].found.row.familyId)
  }

  // ----- one rotation -----

  lemma RotationKeepsSingle(db: AuthDb, token: Token, row: RefreshRow, now: int)
    requires Numbered(db) && AllSingle(db)
    requires token in db.tokens && row == db.tokens[token].(revokedAt := None)
    requires Live(db, token) || FamilyDead(db, row.familyId)
    ensures AllSingle(Finished(db, token, Usable(row), now).0)
  {
    var db' := Finished(db, token, Usable(row), now).0;
    forall f, t, u | LiveIn(db', t, f) && LiveIn(db', u, f) ensures t == u {
      assert AtMostOneLive(db, f);
      assert t != db.nextToken ==> LiveIn(db, t, f);
      assert u != db.nextToken ==> LiveIn(db, u, f);
      if Live(db, token) { assert LiveIn(db, token, row.familyId); }
    }
  }

  /** The exact guard of one rotation. */
  lemma RotationSingleIff(db: AuthDb, token: Token, row: RefreshRow, now: int)
    requires Numbered(db) && AllSingle(db)
    requires token in db.tokens && row == db.tokens[token].(revokedAt := None)
    ensures AllSingle(Finished(db, token, Usable(row), now).0) <==> Live(db, token) || FamilyDead(db, row.familyId)
  {
    if Live(db, token) || FamilyDead(db, row.familyId) {
      RotationKeepsSingle(db, token, row, now);
    } else {
      var db' := Finished(db, token, Usable(row), now).0;
      var u :| LiveIn(db, u, row.familyId);
      assert LiveIn(db', u, row.familyId) && LiveIn(db', db.nextToken, row.familyId);
      assert !AtMostOneLive(db', row.familyId);
    }
  }

  // ----- every event -----

  lemma NextKeepsSound(s: Server, e: Event)
    requires Sound(s)
    ensures Sound(Next(s, e))
  {
    match e
    case Reads(_, _, _) =>
    case Acts(call, now) =>
      if call in s.open { assert Fits(s.db, s.open[call]); }
    case Whole(op) => StepKeepsRows(s.db, op);
  }

  lemma {:induction false} StaysSound(s: Server, events: seq<Event>, k: nat)
    requires Sound(s) && k <= |events|
    ensures Sound(StateAt(s, events, k))
  {
    if k > 0 {
      StaysSound(s, events, k - 1);
      NextKeepsSound(StateAt(s, events, k - 1), events[k - 1]);
    }
  }

  lemma NextSingleIff(s: Server, e: Event)
    requires Sound(s) && AllSingle(s.db)
    ensures AllSingle(Next(s, e).db) <==> RotatesInTime(s, e)
  {
    match e
    case Reads(_, _, _) =>
    case Acts(call, now) =>
      if call in s.open {
        assert Fits(s.db, s.open[call]);
        match s.open[call].found
        case Usable(row) => RotationSingleIff(s.db, s.open[call].token, row, now);
        case Revoked(row) => RevocationKeepsSingle(s.db, s.open[call].token, row, now);
        case _ =>
      }
    case Whole(op) => StepKeepsOneLive(s.db, op);
  }

  lemma RevocationKeepsSingle(db: AuthDb, token: Token, row: RefreshRow, now: int)
    requires AllSingle(db)
    ensures AllSingle(Finished(db, token, Revoked(row), now).0)
  {
    var db' := Finished(db, token, Revoked(row), now).0;
    forall f, t, u | LiveIn(db', t, f) && LiveIn(db', u, f) ensures t == u {
      assert AtMostOneLive(db, f) && LiveIn(db, t, f) && LiveIn(db, u, f);
    }
  }

  /** Every family has at most one usable token after every prefix. */
  ghost predicate SingleThroughout(s: Server, events: seq<Event>) {
    forall k :: 0 <= k <= |events| ==> AllSingle(StateAt(s, events, k).db)
  }

  ghost predicate InTimeThroughout(s: Server, events: seq<Event>) {
    forall k :: 0 <= k < |events| ==> RotatesInTime(StateAt(s, events, k), events[k])
  }

  /** Over every interleaving: all families have at most one usable token after every prefix
      if and only if every rotation comes while its token is unrevoked or its family dead. */
  lemma SingleThroughoutIff(s: Server, events: seq<Event>)
    requires Sound(s) && AllSingle(s.db)
    ensures SingleThroughout(s, events) <==> InTimeThroughout(s, events)
  {
    hide AllSingle, Sound, RotatesInTime, Next;
    if SingleThroughout(s, events) {
      forall k | 0 <= k < |events| ensures RotatesInTime(StateAt(s, events, k), events[k]) {
        StaysSound(s, events, k);
        assert AllSingle(StateAt(s, events, k).db) && AllSingle(StateAt(s, events, k + 1).db);
        NextSingleIff(StateAt(s, events, k), events[k]);
      }
    }
    if InTimeThroughout(s, events) {
      forall k | 0 <= k <= |events| ensures AllSingle(StateAt(s, events, k).db) {
        InTimeKeepsSingle(s, events, k);
      }
    }
  }

  lemma {:induction false} InTimeKeepsSingle(s: Server, events: seq<Event>, k: nat)
    requires Sound(s) && AllSingle(s.db) && k <= |events|
    requires forall j :: 0 <= j < k ==> RotatesInTime(StateAt(s, events, j), events[j])
    ensures AllSingle(StateAt(s, events, k).db)
  {
    hide AllSingle, Sound, RotatesInTime, Next;
    if k > 0 {
      InTimeKeepsSingle(s, events, k - 1);
      StaysSound(s, events, k - 1);
      NextSingleIff(StateAt(s, events, k - 1), events[k - 1]);
    }
  }

  // ----- a family that was taken down -----

  predicate RotatesFamily(s: Server, e: Event, familyId: Id) {
    Rotates(s, e) && s.open[e.call].found.row.familyId == familyId
  }

  lemma NextDeadIff(s: Server, e: Event, f: Id)
    requires Sound(s) && f < s.db.nextFamily && FamilyDead(s.db, f)
    ensures f < Next(s, e).db.nextFamily
    ensures FamilyDead(Next(s, e).db, f) <==> !RotatesFamily(s, e, f)
  {
    match e
    case Reads(_, _, _) =>
    case Acts(call, now) =>
      if call in s.open {
        var db' := Next(s, e).db;
        assert Fits(s.db, s.open[call]);
        if RotatesFamily(s, e, f) {
          assert LiveIn(db', s.db.nextToken, f);
        } else {
          forall t ensures !LiveIn(db', t, f) { assert !LiveIn(s.db, t, f); }
        }
      }
    case Whole(op) => StepKeepsRows(s.db, op);
  }

  ghost predicate DeadThroughout(s: Server, events: seq<Event>, familyId: Id) {
    forall k :: 0 <= k <= |events| ==> FamilyDead(StateAt(s, events, k).db, familyId)
  }

  ghost predicate NeverRotated(s: Server, events: seq<Event>, familyId: Id) {
    forall k :: 0 <= k < |events| ==> !RotatesFamily(StateAt(s, events, k), events[k], familyId)
  }

  /** A family without a usable token stays without one after every prefix if and only if no
      refresh that read one of its tokens before completes its rotation. */
  lemma DeadThroughoutIff(s: Server, events: seq<Event>, f: Id)
    requires Sound(s) && f < s.db.nextFamily && FamilyDead(s.db, f)
    ensures DeadThroughout(s, events, f) <==> NeverRotated(s, events, f)
  {
    hide FamilyDead, Sound, RotatesFamily, Next;
    if DeadThroughout(s, events, f) {
      forall k | 0 <= k < |events| ensures !RotatesFamily(StateAt(s, events, k), events[k], f) {
        StaysSound(s, events, k);
        KnownFamily(s, events, k, f);
        assert FamilyDead(StateAt(s, events, k).db, f) && FamilyDead(StateAt(s, events, k + 1).db, f);
        NextDeadIff(StateAt(s, events, k), events[k], f);
      }
    }
    if NeverRotated(s, events, f) {
      forall k | 0 <= k <= |events| ensures FamilyDead(StateAt(s, events, k).db, f) {
        UnrotatedStaysDead(s, events, k, f);
      }
    }
  }

  lemma {:induction false} KnownFamily(s: Server, events: seq<Event>, k: nat, f: Id)
    requires Sound(s) && k <= |events| && f < s.db.nextFamily
    ensures f < StateAt(s, events, k).db.nextFamily
  {
    if k > 0 {
      KnownFamily(s, events, k - 1, f);
      StaysSound(s, events, k - 1);
      if events[k - 1].Whole? { StepKeepsRows(StateAt(s, events, k - 1).db, events[k - 1].op); }
    }
  }

  lemma {:induction false} UnrotatedStaysDead(s: Server, events: seq<Event>, k: nat, f: Id)
    requires Sound(s) && f < s.db.nextFamily && FamilyDead(s.db, f) && k <= |events|
    requires forall j :: 0 <= j < k ==> !RotatesFamily(StateAt(s, events, j), events[j], f)
    ensures FamilyDead(StateAt(s, events, k).db, f) && f < StateAt(s, events, k).db.nextFamily
  {
    hide FamilyDead, Sound, RotatesFamily, Next;
    if k > 0 {
      UnrotatedStaysDead(s, events, k - 1, f);
      StaysSound(s, events, k - 1);
      NextDeadIff(StateAt(s, events, k - 1), events[k - 1], f);
    }
  }

  // ----- a condition to be met before a refresh starts -----

  /** The family of a token that a refresh starting now would rotate. */
  predicate Starts(s: Server, e: Event, familyId: Id) {
    match e
    case Reads(call, token, now) =>
      call !in s.open && LookUp(s.db, token, now).Usable? && s.db.tokens[token].familyId == familyId
    case Whole(op) =>
      op.RefreshOp? && LookUp(s.db, op.token, op.now).Usable? && s.db.tokens[op.token].familyId == familyId
    case Acts(_, _) => false
  }

  predicate OpenFor(s: Server, c: CallId, familyId: Id) {
    c in s.open && s.open[c].found.Usable? && s.open[c].found.row.familyId == familyId
  }

  /** No refresh of the family is open when another one starts. */
  ghost predicate StartsAlone(s: Server, e: Event) {
    forall f, c :: Starts(s, e, f) ==> !OpenFor(s, c, f)
  }

  ghost predicate OnePerFamily(s: Server) {
    forall f, c, d :: OpenFor(s, c, f) && OpenFor(s, d, f) ==> c == d
  }

  ghost predicate OpenInTime(s: Server) {
    forall f, c :: OpenFor(s, c, f) ==> Live(s.db, s.open[c].token) || FamilyDead(s.db, f)
  }

  /** What a step may do to a family without ruining a refresh of t that is open for it. */
  ghost predicate Spared(db: AuthDb, db': AuthDb, t: Token, f: Id) {
    Live(db, t) || FamilyDead(db, f) ==> Live(db', t) || FamilyDead(db', f)
  }

  lemma RotationSpares(db: AuthDb, token: Token, row: RefreshRow, now: int, t: Token, f: Id)
    requires Numbered(db) && token in db.tokens && row == db.tokens[token].(revokedAt := None)
    requires t in db.tokens && db.tokens[t].familyId == f != row.familyId
    ensures Spared(db, Finished(db, token, Usable(row), now).0, t, f)
  {
    var db' := Finished(db, token, Usable(row), now).0;
    assert forall u :: LiveIn(db', u, f) ==> LiveIn(db, u, f);
  }

  lemma StepSpares(db: AuthDb, op: AuthOp, t: Token, f: Id)
    requires Numbered(db) && AtMostOneLive(db, f) && t in db.tokens && db.tokens[t].familyId == f
    requires op.RefreshOp? && LookUp(db, op.token, op.now).Usable? ==> db.tokens[op.token].familyId != f
    ensures Spared(db, Step(db, op), t, f)
  {
    var db' := Step(db, op);
    StepKeepsRows(db, op);
    if Live(db, t) && !Live(db', t) {
      forall u ensures !LiveIn(db', u, f) {
        assert LiveIn(db, t, f);
        assert LiveIn(db, u, f) ==> u == t;
      }
    }
  }

  lemma ReuseSpares(db: AuthDb, token: Token, row: RefreshRow, now: int, t: Token, f: Id)
    requires t in db.tokens && db.tokens[t].familyId == f
    ensures Spared(db, Finished(db, token, Revoked(row), now).0, t, f)
  {
    var db' := Finished(db, token, Revoked(row), now).0;
    assert forall u :: LiveIn(db', u, f) ==> LiveIn(db, u, f) && f != row.familyId;
  }

  ghost predicate Orderly(s: Server) {
    Sound(s) && AllSingle(s.db) && OnePerFamily(s) && OpenInTime(s)
  }

  lemma NextKeepsOpenInTime(s: Server, e: Event, c: CallId, f: Id)
    requires Orderly(s) && StartsAlone(s, e) && OpenFor(Next(s, e), c, f)
    ensures Live(Next(s, e).db, Next(s, e).open[c].token) || FamilyDead(Next(s, e).db, f)
  {
    if c !in s.open {
      assert e.Reads? && e.call == c;
    } else {
      assert OpenFor(s, c, f) && Fits(s.db, s.open[c]) && AtMostOneLive(s.db, f);
      match e
      case Reads(_, _, _) =>
      case Acts(d, now) =>
        if d in s.open {
          assert Fits(s.db, s.open[d]);
          match s.open[d].found
          case Usable(row) =>
            assert OpenFor(s, d, row.familyId);
            RotationSpares(s.db, s.open[d].token, row, now, s.open[c].token, f);
          case Revoked(row) => ReuseSpares(s.db, s.open[d].token, row, now, s.open[c].token, f);
          case _ =>
        }
      case Whole(op) =>
        if op.RefreshOp? && LookUp(s.db, op.token, op.now).Usable? {
          assert Starts(s, e, s.db.tokens[op.token].familyId);
        }
        StepSpares(s.db, op, s.open[c].token, f);
    }
  }

  lemma NextKeepsOrderly(s: Server, e: Event)
    requires Orderly(s) && StartsAlone(s, e)
    ensures RotatesInTime(s, e) && Orderly(Next(s, e))
  {
    var s' := Next(s, e);
    NextKeepsSound(s, e);
    if Rotates(s, e) {
      assert OpenFor(s, e.call, s.open[e.call].found.row.familyId);
    }
    NextSingleIff(s, e);
    forall f, c, d | OpenFor(s', c, f) && OpenFor(s', d, f) ensures c == d {
      if c !in s.open { assert Starts(s, e, f); }
      if d !in s.open { assert Starts(s, e, f); }
      assert c in s.open ==> OpenFor(s, c, f);
      assert d in s.open ==> OpenFor(s, d, f);
    }
    forall f, c | OpenFor(s', c, f) ensures Live(s'.db, s'.open[c].token) || FamilyDead(s'.db, f) {
      NextKeepsOpenInTime(s, e, c, f);
    }
  }

  lemma NothingOpenIsOrderly(s: Server)
    requires Sound(s) && AllSingle(s.db) && s.open == map[]
    ensures Orderly(s)
  {
    hide Sound, AllSingle;
  }

  /** Refreshes of one family that never overlap keep every family single, whatever else is
      interleaved. */
  lemma {:induction false} RefreshesAloneStaySingle(s: Server, events: seq<Event>, k: nat)
    requires Sound(s) && AllSingle(s.db) && s.open == map[] && k <= |events|
    requires forall j :: 0 <= j < k ==> StartsAlone(StateAt(s, events, j), events[j])
    ensures Orderly(StateAt(s, events, k))
  {
    hide Orderly, Next, StartsAlone, Sound, AllSingle;
    if k == 0 {
      NothingOpenIsOrderly(s);
    } else {
      RefreshesAloneStaySingle(s, events, k - 1);
      NextKeepsOrderly(StateAt(s, events, k - 1), events[k - 1]);
    }
  }

  // ----- two refreshes that overlap -----

  const NOBODY: Server := Server(AuthDb(map[], 0, 0, []), map[])

  /** One login; two refreshes of its token both read before either rotates. */
  function Overlap(userId: Id, now: int): seq<Event> {
    [Whole(LoginOp(userId, now)), Reads(0, 0, now), Reads(1, 0, now), Acts(0, now), Acts(1, now)]
  }

  /** The family of the login is single up to the second rotation and has two usable tokens
      after it. */
  lemma InterleavedRefreshesSplitFamily(userId: Id, now: int)
    ensures Sound(NOBODY) && AllSingle(NOBODY.db)
    ensures forall k :: 0 <= k <= 4 ==> AllSingle(StateAt(NOBODY, Overlap(userId, now), k).db)
    ensures !RotatesInTime(StateAt(NOBODY, Overlap(userId, now), 4), Acts(1, now))
    ensures !AtMostOneLive(StateAt(NOBODY, Overlap(userId, now), 5).db, 0)
  {
    var events := Overlap(userId, now);
    var end := now + REFRESH_TOKEN_TTL_MS;
    var row := RefreshRow(userId, 0, end, None);
    var s1 := Next(NOBODY, events[0]);
    var s2 := Next(s1, events[1]);
    var s3 := Next(s2, events[2]);
    var s4 := Next(s3, events[3]);
    var s5 := Next(s4, events[4]);
    assert StateAt(NOBODY, events, 0) == NOBODY;
    assert StateAt(NOBODY, events, 1) == s1;
    assert StateAt(NOBODY, events, 2) == s2;
    assert StateAt(NOBODY, events, 3) == s3;
    assert StateAt(NOBODY, events, 4) == s4;
    assert StateAt(NOBODY, events, 5) == s5;
    assert s1.db.tokens == map[0 := row];
    assert s3 == Server(s1.db, map[0 := Reading(0, Usable(row)), 1 := Reading(0, Usable(row))]);
    assert s4.db.tokens == map[0 := row.(revokedAt := Some(now)), 1 := row];
    assert s4.open == map[1 := Reading(0, Usable(row))];
    assert LiveIn(s4.db, 1, 0);
    assert LiveIn(s5.db, 1, 0) && LiveIn(s5.db, 2, 0);
  }

  /** One login; its token is read for a refresh, the user logs out, the refresh goes on. */
  function Revival(userId: Id, now: int): seq<Event> {
    [Whole(LoginOp(userId, now)), Reads(0, 0, now), Whole(LogoutOp(userId, 0, now)), Acts(0, now)]
  }

  /** After the logout the family is dead; the refresh that was open gives it a usable token
      again. */
  lemma OpenRefreshRevivesFamily(userId: Id, now: int)
    ensures FamilyDead(StateAt(NOBODY, Revival(userId, now), 3).db, 0)
    ensures RotatesFamily(StateAt(NOBODY, Revival(userId, now), 3), Acts(0, now), 0)
    ensures LiveIn(StateAt(NOBODY, Revival(userId, now), 4).db, 1, 0)
  {
    var events := Revival(userId, now);
    var row := RefreshRow(userId, 0, now + REFRESH_TOKEN_TTL_MS, None);
    var s1 := Next(NOBODY, events[0]);
    var s2 := Next(s1, events[1]);
    var s3 := Next(s2, events[2]);
    var s4 := Next(s3, events[3]);
    assert StateAt(NOBODY, events, 0) == NOBODY;
    assert StateAt(NOBODY, events, 1) == s1;
    assert StateAt(NOBODY, events, 2) == s2;
    assert StateAt(NOBODY, events, 3) == s3;
    assert StateAt(NOBODY, events, 4) == s4;
    assert s1.db.tokens == map[0 := row];
    assert s2.open == map[0 := Reading(0, Usable(row))];
    assert s3.db.tokens == map[0 := row.(revokedAt := Some(now))] && s3.open == s2.open;
  }

  // ----- refreshes that nothing interrupts -----

  /** A refresh whose read and rotation follow each other is the one that takes effect at
      once, refused or not. */
  lemma UninterruptedRefresh(s: Server, call: CallId, token: Token, now: int)
    requires call !in s.open
    ensures StateAt(s, [Reads(call, token, now), Acts(call, now)], 2).db == Step(s.db, RefreshOp(token, now))
  {
    var events := [Reads(call, token, now), Acts(call, now)];
    var s1 := Next(s, events[0]);
    assert StateAt(s, events, 0) == s;
    assert StateAt(s, events, 1) == s1;
    assert StateAt(s, events, 2) == Next(s1, events[1]);
    hide StateAt, Finished;
  }
}
