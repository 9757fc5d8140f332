/** Refresh-token rotation on the server: every token belongs to a family, a refresh
    replaces the presented token by a new one of its family, and a token that comes back
    after it was revoked takes its whole family down. */
module AuthService {
  import opened Domain

  /** A refresh token in plain text.  The table stores only its hash; hashing is taken to
      be injective, so rows are looked up by the token itself. */
  type Token = nat

  datatype TokenPair = TokenPair(accessToken: Token, refreshToken: Token)

  datatype RefreshRow = RefreshRow(userId: Id, familyId: Id, expiresAt: int, revokedAt: Option<int>)

  datatype AuthEvent = LoginSucceeded(userId: Id) | ReuseDetected(userId: Id)

  /** Random tokens and family ids are drawn from counters, so that they are fresh. */
  datatype AuthDb = AuthDb(tokens: map<Token, RefreshRow>, nextToken: Token, nextFamily: Id, audit: seq<AuthEvent>)

  const REFRESH_TOKEN_TTL_MS: int := 7 * 24 * 60 * 60 * 1000

  // ----- what each call does -----

  function Issued(db: AuthDb, userId: Id, familyId: Id, now: int): (AuthDb, TokenPair) {
    var row := RefreshRow(userId, familyId, now + REFRESH_TOKEN_TTL_MS, None);
    (db.(tokens := db.tokens[db.nextToken := row], nextToken := db.nextToken + 1),
     TokenPair(db.nextToken, db.nextToken))
  }

  function LoggedIn(db: AuthDb, userId: Id, now: int): (AuthDb, TokenPair) {
    var (db', pair) := Issued(db.(nextFamily := db.nextFamily + 1), userId, db.nextFamily, now);
    (db'.(audit := db'.audit + [LoginSucceeded(userId)]), pair)
  }

  /** What the first read of a refresh finds. */
  datatype Lookup = Unknown | Revoked(row: RefreshRow) | Expired | Usable(row: RefreshRow)

  function LookUp(db: AuthDb, token: Token, now: int): Lookup {
    if token !in db.tokens then Unknown
    else if db.tokens[token].revokedAt.Some? then Revoked(db.tokens[token])
    else if db.tokens[token].expiresAt < now then Expired
    else Usable(db.tokens[token])
  }

  function RevokedWhere(db: AuthDb, familyId: Id, now: int): map<Token, RefreshRow> {
    map t | t in db.tokens ::
      if db.tokens[t].familyId == familyId && db.tokens[t].revokedAt.None?
      then db.tokens[t].(revokedAt := Some(now)) else db.tokens[t]
  }

  /** The transaction that follows the read and acts on what the read found. */
  function Finished(db: AuthDb, token: Token, found: Lookup, now: int): (AuthDb, Result<TokenPair>) {
    match found
    case Unknown => (db, Err(RefreshInvalid))
    case Revoked(row) =>
      (db.(tokens := RevokedWhere(db, row.familyId, now), audit := db.audit + [ReuseDetected(row.userId)]),
       Err(RefreshReuse))
    case Expired => (db, Err(RefreshInvalid))
    case Usable(row) =>
      var retired := db.(tokens := db.tokens[token := row.(revokedAt := Some(now))]);
      var (db', pair) := Issued(retired, row.userId, row.familyId, now);
      (db', Ok(pair))
  }

  function Refreshed(db: AuthDb, token: Token, now: int): (AuthDb, Result<TokenPair>) {
    Finished(db, token, LookUp(db, token, now), now)
  }

  function LoggedOut(db: AuthDb, userId: Id, token: Token, now: int): AuthDb {
    if token in db.tokens && db.tokens[token].userId == userId && db.tokens[token].revokedAt.None?
    then db.(tokens := db.tokens[token := db.tokens[token].(revokedAt := Some(now))])
    else db
  }

  class AuthService {
    var tokens: map<Token, RefreshRow>
    var nextToken: Token
    var nextFamily: Id
    var audit: seq<AuthEvent>

    ghost function Db(): AuthDb
      reads this
    {
      AuthDb(tokens, nextToken, nextFamily, audit)
    }

    method IssueTokenPair(userId: Id, family: Option<Id>, now: int) returns (pair: TokenPair)
      modifies this
      ensures (Db(), pair) ==
              if family.Some? then Issued(old(Db()), userId, family.value, now)
              else Issued(old(Db()).(nextFamily := old(nextFamily) + 1), userId, old(nextFamily), now)
    {
      var familyId := nextFamily;
      if family.Some? { familyId := family.value; } else { nextFamily := nextFamily + 1; }
      tokens := tokens[nextToken := RefreshRow(userId, familyId, now + REFRESH_TOKEN_TTL_MS, None)];
      pair := TokenPair(nextToken, nextToken);
      nextToken := nextToken + 1;
    }

    /** The credentials have been accepted; they are not part of the model. */
    method Login(userId: Id, now: int) returns (pair: TokenPair)
      modifies this
      ensures (Db(), pair) == LoggedIn(old(Db()), userId, now)
    {
      pair := IssueTokenPair(userId, None, now);
      audit := audit + [LoginSucceeded(userId)];
    }

    method Refresh(refreshToken: Token, now: int) returns (r: Result<TokenPair>)
      modifies this
      ensures (Db(), r) == Refreshed(old(Db()), refreshToken, now)
    {
      if refreshToken !in tokens {
        return Err(RefreshInvalid);
      }
      var stored := tokens[refreshToken];
      if stored.revokedAt.Some? {
        tokens := map t | t in tokens ::
          if tokens[t].familyId == stored.familyId && tokens[t].revokedAt.None?
          then tokens[t].(revokedAt := Some(now)) else tokens[t];
        audit := audit + [ReuseDetected(stored.userId)];
        return Err(RefreshReuse);
      }
      if stored.expiresAt < now {
        return Err(RefreshInvalid);
      }
      tokens := tokens[refreshToken := stored.(revokedAt := Some(now))];
      var pair := IssueTokenPair(stored.userId, Some(stored.familyId), now);
      r := Ok(pair);
    }

    method Logout(userId: Id, refreshToken: Token, now: int)
      modifies this
      ensures Db() == LoggedOut(old(Db()), userId, refreshToken, now)
    {
      if refreshToken in tokens {
        var stored := tokens[refreshToken];
        if stored.userId == userId && stored.revokedAt.None? {
          tokens := tokens[refreshToken := stored.(revokedAt := Some(now))];
        }
      }
    }
  }

  // ----- sequences of calls -----

  datatype AuthOp =
    | LoginOp(userId: Id, now: int)
    | RefreshOp(token: Token, now: int)
    | LogoutOp(userId: Id, token: Token, now: int)

  function Step(db: AuthDb, op: AuthOp): AuthDb {
    match op
    case LoginOp(userId, now) => LoggedIn(db, userId, now).0
    case RefreshOp(token, now) => Refreshed(db, token, now).0
    case LogoutOp(userId, token, now) => LoggedOut(db, userId, token, now)
  }

  function Run(db: AuthDb, ops: seq<AuthOp>): AuthDb
    decreases |ops|
  {
    if ops == [] then db else Run(Step(db, ops[0]), ops[1..])
  }

  ghost predicate Numbered(db: AuthDb) {
    forall t :: t in db.tokens ==> t < db.nextToken && db.tokens[t].familyId < db.nextFamily
  }

  ghost predicate Live(db: AuthDb, t: Token) {
    t in db.tokens && db.tokens[t].revokedAt.None?
  }

  ghost predicate LiveIn(db: AuthDb, t: Token, familyId: Id) {
    Live(db, t) && db.tokens[t].familyId == familyId
  }

  ghost predicate AtMostOneLive(db: AuthDb, familyId: Id) {
    forall t, u :: LiveIn(db, t, familyId) && LiveIn(db, u, familyId) ==> t == u
  }

  ghost predicate FamilyDead(db: AuthDb, familyId: Id) {
    forall t :: !LiveIn(db, t, familyId)
  }

  /** No call invents a token in an existing family except by retiring the live one it was
      given: rows never disappear or change family, and revocation is final. */
  lemma StepKeepsRows(db: AuthDb, op: AuthOp)
    requires Numbered(db)
    ensures Numbered(Step(db, op))
    ensures forall t :: t in db.tokens ==>
              && t in Step(db, op).tokens
              && Step(db, op).tokens[t] == db.tokens[t].(revokedAt := Step(db, op).tokens[t].revokedAt)
              && (db.tokens[t].revokedAt.Some? ==> Step(db, op).tokens[t].revokedAt == db.tokens[t].revokedAt)
    ensures forall f: Id :: f < db.nextFamily && FamilyDead(db, f) ==>
              f < Step(db, op).nextFamily && FamilyDead(Step(db, op), f)
    ensures db.nextFamily <= Step(db, op).nextFamily
  {
    var db' := Step(db, op);
    forall f: Id, t | f < db.nextFamily && FamilyDead(db, f) ensures !LiveIn(db', t, f) {
      assert !LiveIn(db, t, f);
      if op.RefreshOp? && op.token in db.tokens { assert !LiveIn(db, op.token, f); }
    }
  }

  lemma StepKeepsOneLive(db: AuthDb, op: AuthOp)
    requires Numbered(db) && forall f :: AtMostOneLive(db, f)
    ensures forall f :: AtMostOneLive(Step(db, op), f)
  {
    var db' := Step(db, op);
    forall f, t, u | LiveIn(db', t, f) && LiveIn(db', u, f) ensures t == u {
      assert AtMostOneLive(db, f);
      assert t in db.tokens ==> LiveIn(db, t, f);
      assert u in db.tokens ==> LiveIn(db, u, f);
      if op.RefreshOp? && Live(db, op.token) { assert LiveIn(db, op.token, db.tokens[op.token].familyId); }
    }
  }

  /** Whatever is called, in any order: each family has at most one usable token, and a
      revoked token keeps its revocation date for ever. */
  lemma {:induction false} FamiliesStaySingle(db: AuthDb, ops: seq<AuthOp>)
    requires Numbered(db) && forall f :: AtMostOneLive(db, f)
    ensures Numbered(Run(db, ops)) && forall f :: AtMostOneLive(Run(db, ops), f)
    ensures forall t :: t in db.tokens && db.tokens[t].revokedAt.Some? ==>
              t in Run(db, ops).tokens && Run(db, ops).tokens[t] == db.tokens[t]
    decreases |ops|
  {
    if ops != [] {
      StepKeepsRows(db, ops[0]);
      StepKeepsOneLive(db, ops[0]);
      FamiliesStaySingle(Step(db, ops[0]), ops[1..]);
    }
  }

  lemma {:induction false} DeadFamilyStaysDead(db: AuthDb, ops: seq<AuthOp>, familyId: Id)
    requires Numbered(db) && familyId < db.nextFamily && FamilyDead(db, familyId)
    ensures FamilyDead(Run(db, ops), familyId)
    decreases |ops|
  {
    if ops != [] {
      StepKeepsRows(db, ops[0]);
      DeadFamilyStaysDead(Step(db, ops[0]), ops[1..], familyId);
    }
  }

  lemma {:induction false} RunKeepsRows(db: AuthDb, ops: seq<AuthOp>, t: Token)
    requires Numbered(db) && t in db.tokens
    ensures Numbered(Run(db, ops)) && t in Run(db, ops).tokens
    ensures Run(db, ops).tokens[t].familyId == db.tokens[t].familyId
    ensures db.tokens[t].revokedAt.Some? ==> Run(db, ops).tokens[t].revokedAt.Some?
    decreases |ops|
  {
    if ops != [] {
      StepKeepsRows(db, ops[0]);
      RunKeepsRows(Step(db, ops[0]), ops[1..], t);
    }
  }

  /** When a refresh succeeds, and everything it changes: the presented token is retired,
      one fresh token of the same user and family takes its place for a full term, and no
      other row moves. */
  lemma RefreshRotatesIff(db: AuthDb, token: Token, now: int)
    requires Numbered(db)
    ensures var (db', r) := Refreshed(db, token, now);
            && (r.Ok? <==> Live(db, token) && now <= db.tokens[token].expiresAt)
            && (r.Ok? ==>
                  var t := r.value.refreshToken;
                  && t !in db.tokens && LiveIn(db', t, db.tokens[token].familyId)
                  && db'.tokens[t].userId == db.tokens[token].userId
                  && db'.tokens[t].expiresAt == now + REFRESH_TOKEN_TTL_MS
                  && token in db'.tokens && db'.tokens[token].revokedAt == Some(now)
                  && db'.tokens.Keys == db.tokens.Keys + {t}
                  && forall u :: u in db.tokens && u != token ==> db'.tokens[u] == db.tokens[u])
            && (r.Ok? ==> db'.audit == db.audit && db'.nextFamily == db.nextFamily)
            && (r.Err? && r.error != RefreshReuse ==> db' == db && r.error == RefreshInvalid)
            && (r == Err(RefreshReuse) <==> token in db.tokens && !Live(db, token))
  {
  }

  /** A token that is presented after its revocation, whether that came from a rotation, a
      logout or the end of its family, at any later moment and whatever happened between and
      afterwards, is answered with AUTH_REFRESH_REUSE and leaves its family without a usable
      token for good. */
  lemma SecondPresentationKillsFamily(db: AuthDb, token: Token, between: seq<AuthOp>, again: int, after: seq<AuthOp>)
    requires Numbered(db) && token in db.tokens && !Live(db, token)
    ensures var later := Run(db, between);
            && Refreshed(later, token, again).1 == Err(RefreshReuse)
            && FamilyDead(Run(Refreshed(later, token, again).0, after), db.tokens[token].familyId)
  {
    RunKeepsRows(db, between, token);
    var later := Run(db, between);
    var dead := Refreshed(later, token, again).0;
    StepKeepsRows(later, RefreshOp(token, again));
    assert FamilyDead(dead, later.tokens[token].familyId);
    DeadFamilyStaysDead(dead, after, later.tokens[token].familyId);
  }

  /** A login opens a fresh family with one fresh token that is live for seven days, and
      leaves all other rows alone. */
  lemma LoginIssuesToken(db: AuthDb, userId: Id, now: int)
    requires Numbered(db)
    ensures var (after, pair) := LoggedIn(db, userId, now);
            && pair.refreshToken !in db.tokens && after.tokens.Keys == db.tokens.Keys + {pair.refreshToken}
            && after.tokens[pair.refreshToken] ==
               RefreshRow(userId, db.nextFamily, now + 7 * 24 * 60 * 60 * 1000, None)
            && (forall t :: t in db.tokens ==>
                  after.tokens[t] == db.tokens[t] && db.tokens[t].familyId != db.nextFamily)
            && after.nextFamily == db.nextFamily + 1 && after.audit == db.audit + [LoginSucceeded(userId)]
  {
  }

  /** A logout revokes the named token if it is the caller's own and still live, and changes
      nothing otherwise. */
  lemma LogoutRevokesOwnToken(db: AuthDb, userId: Id, token: Token, now: int)
    ensures var after := LoggedOut(db, userId, token, now);
            && (token in db.tokens && db.tokens[token].userId == userId && db.tokens[token].revokedAt == None ==>
                  && after.tokens.Keys == db.tokens.Keys && after.tokens[token].revokedAt == Some(now)
                  && after.tokens[token] == db.tokens[token].(revokedAt := after.tokens[token].revokedAt)
                  && (forall t :: t in db.tokens && t != token ==> after.tokens[t] == db.tokens[t])
                  && after.nextToken == db.nextToken && after.nextFamily == db.nextFamily && after.audit == db.audit)
            && (token !in db.tokens || db.tokens[token].userId != userId || db.tokens[token].revokedAt != None ==>
                  after == db)
  {
  }

  /** A reuse revokes the live tokens of the family and touches no other row. */
  lemma ReuseRevokesFamily(db: AuthDb, token: Token, now: int, t: Token)
    requires token in db.tokens && db.tokens[token].revokedAt.Some?
    ensures var (after, r) := Refreshed(db, token, now);
            && r == Err(RefreshReuse) && after.tokens.Keys == db.tokens.Keys
            && after.audit == db.audit + [ReuseDetected(db.tokens[token].userId)]
            && after.nextToken == db.nextToken && after.nextFamily == db.nextFamily
            && (t in db.tokens ==>
                  && after.tokens[t] == db.tokens[t].(revokedAt := after.tokens[t].revokedAt)
                  && after.tokens[t].revokedAt ==
                     if db.tokens[t].familyId == db.tokens[token].familyId && db.tokens[t].revokedAt == None
                     then Some(now) else db.tokens[t].revokedAt)
  {
  }
}
