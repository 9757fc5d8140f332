/** One browser, the server and everybody else: all interleavings of concurrent 401s, the
    two halves of a refresh on the server, calls that the browser gives up and the server
    still processes, and the calls of other users.
    Logging in or out does not overlap a refresh; that much is left to the user. */
module RefreshProtocol {
  import opened Domain
  import opened AuthService
  import opened ApiClient

  /** A POST /auth/refresh on its way: not yet read by the server, read but not yet acted
      upon, or answered. */
  datatype Call =
    | Posted(token: Token)
    | Read(token: Token, found: Lookup)
    | Answered(token: Token, reply: Result<TokenPair>)

  /** orphans are calls the browser has given up and the server may still process; presented
      lists the tokens the browser has put into a refresh call, in order; mine holds the
      families of its logins; reused says whether a read by the server ever found one of
      its tokens revoked. */
  datatype System = System(client: Client, db: AuthDb, calls: map<PromiseId, Call>, orphans: map<PromiseId, Call>,
                           presented: seq<Token>, mine: set<Id>, reused: bool)

  datatype Event =
    | SendRequest(r: Id, isAuthEndpoint: bool)
    | Respond(r: Id, status: int)
    | ServerReads(k: PromiseId, now: int)
    | ServerActs(k: PromiseId, now: int)
    | AnswerArrives(k: PromiseId)
    | CallIsLost(k: PromiseId)
    | OrphanIsRead(k: PromiseId, now: int)
    | OrphanActs(k: PromiseId, now: int)
    | RefreshFinally
    | Resume(r: Id)
    | UserLogsIn(userId: Id, now: int)
    | UserLogsOut(now: int)
    | OthersCall(op: AuthOp)

  /** A call by somebody else never carries a token of the browser's families. */
  predicate IsForeign(s: System, op: AuthOp) {
    match op
    case LoginOp(_, _) => true
    case RefreshOp(t, _) => t in s.db.tokens ==> s.db.tokens[t].familyId !in s.mine
    case LogoutOp(_, t, _) => t in s.db.tokens ==> s.db.tokens[t].familyId !in s.mine
  }

  predicate Enabled(s: System, e: Event) {
    match e
    case SendRequest(r, _) => r !in s.client.requests
    case Respond(r, _) => r in s.client.requests && s.client.requests[r].phase.Sent?
    case ServerReads(k, _) => k in s.calls && s.calls[k].Posted?
    case ServerActs(k, _) => k in s.calls && s.calls[k].Read?
    case AnswerArrives(k) => k in s.calls && s.calls[k].Answered? && k < |s.client.refreshes|
    case CallIsLost(k) => k in s.calls && k < |s.client.refreshes|
    case OrphanIsRead(k, _) => k in s.orphans && s.orphans[k].Posted?
    case OrphanActs(k, _) => k in s.orphans && s.orphans[k].Read?
    case RefreshFinally =>
      var p := s.client.inFlightRefresh;
      p.Some? && p.value < |s.client.refreshes| && s.client.refreshes[p.value].Settled?
    case Resume(r) =>
      && r in s.client.requests && s.client.requests[r].phase.Waiting?
      && var k := s.client.requests[r].phase.promise;
         k < |s.client.refreshes| && s.client.refreshes[k].Settled? && s.client.inFlightRefresh != Some(k)
    case UserLogsIn(_, _) => s.client.inFlightRefresh.None?
    case UserLogsOut(_) =>
      s.client.inFlightRefresh.None? && s.client.session.user.Some? && s.client.session.refreshToken.Some?
    case OthersCall(op) => IsForeign(s, op)
  }

  function Next(s: System, e: Event): System
    requires Enabled(s, e)
  {
    match e
    case SendRequest(r, isAuthEndpoint) => s.(client := Issue(s.client, r, isAuthEndpoint))
    case Respond(r, status) =>
      var c := Responded(s.client, r, status);
      var s' := s.(client := c);
      if |c.refreshes| > |s.client.refreshes| && c.refreshes[|s.client.refreshes|].Posting? then
        var t := c.refreshes[|s.client.refreshes|].token;
        s'.(calls := s.calls[|s.client.refreshes| := Posted(t)], presented := s.presented + [t])
      else s'
    case ServerReads(k, now) =>
      var found := LookUp(s.db, s.calls[k].token, now);
      s.(calls := s.calls[k := Read(s.calls[k].token, found)], reused := s.reused || found.Revoked?)
    case ServerActs(k, now) =>
      var (db, reply) := Finished(s.db, s.calls[k].token, s.calls[k].found, now);
      s.(db := db, calls := s.calls[k := Answered(s.calls[k].token, reply)])
    case AnswerArrives(k) =>
      var pair := match s.calls[k].reply case Ok(p) => Some(p) case Err(_) => None;
      s.(client := RefreshAnswered(s.client, k, pair), calls := s.calls - {k})
    case CallIsLost(k) =>
      s.(client := RefreshAnswered(s.client, k, None), calls := s.calls - {k}, orphans := s.orphans[k := s.calls[k]])
    case OrphanIsRead(k, now) =>
      var found := LookUp(s.db, s.orphans[k].token, now);
      s.(orphans := s.orphans[k := Read(s.orphans[k].token, found)], reused := s.reused || found.Revoked?)
    case OrphanActs(k, now) =>
      s.(db := Finished(s.db, s.orphans[k].token, s.orphans[k].found, now).0, orphans := s.orphans - {k})
    case RefreshFinally => s.(client := RefreshCleared(s.client))
    case Resume(r) => s.(client := Resumed(s.client, r))
    case UserLogsIn(userId, now) =>
      var (db, pair) := LoggedIn(s.db, userId, now);
      s.(db := db, mine := s.mine + {s.db.nextFamily},
         client := s.client.(session := Session(Some(userId), Some(pair.accessToken), Some(pair.refreshToken))))
    case UserLogsOut(now) =>
      s.(db := LoggedOut(s.db, s.client.session.user.value, s.client.session.refreshToken.value, now),
         client := s.client.(session := SIGNED_OUT))
    case OthersCall(op) => s.(db := Step(s.db, op))
  }

  ghost predicate Trace(s: System, events: seq<Event>)
    decreases |events|
  {
    events == [] || (Enabled(s, events[0]) && Trace(Next(s, events[0]), events[1..]))
  }

  ghost function After(s: System, events: seq<Event>): System
    requires Trace(s, events)
    decreases |events|
  {
    if events == [] then s else After(Next(s, events[0]), events[1..])
  }

  ghost predicate Start(s: System) {
    && s.client == Client(SIGNED_OUT, None, [], map[]) && s.calls == map[] && s.orphans == map[]
    && s.presented == [] && s.mine == {} && !s.reused
    && Numbered(s.db)
  }

  // ----- the invariant -----

  ghost predicate Distinct(s: seq<Token>) {
    forall i, j :: 0 <= i < j < |s| ==> s[i] != s[j]
  }

  /** t is one of the browser's tokens and has not been given back. */
  ghost predicate Held(s: System, t: Token) {
    t in s.db.tokens && s.db.tokens[t].familyId in s.mine && s.db.tokens[t].revokedAt.None?
  }

  /** The client side: only the shared promise can have a call on the way. */
  ghost predicate OneRefresh(s: System) {
    && (forall k :: k in s.calls ==>
          s.client.inFlightRefresh == Some(k) && k < |s.client.refreshes|
          && s.client.refreshes[k] == Posting(s.calls[k].token))
    && (forall k :: 0 <= k < |s.client.refreshes| && s.client.refreshes[k].Posting? ==> k in s.calls)
  }

  /** Without a call on the way the stored refresh token is live and was never presented. */
  ghost predicate SessionFresh(s: System) {
    s.calls == map[] && s.client.session.refreshToken.Some? ==>
      var t := s.client.session.refreshToken.value;
      Held(s, t) && t !in s.presented
  }

  ghost predicate CallSound(s: System, call: Call) {
    match call
    case Posted(t) => Held(s, t)
    case Read(t, found) => found == Expired || (Held(s, t) && found == Usable(s.db.tokens[t]))
    case Answered(_, reply) =>
      reply.Ok? ==>
        Held(s, reply.value.refreshToken) && reply.value.refreshToken !in s.presented
  }

  ghost predicate ServerSide(s: System) {
    && Numbered(s.db)
    && (forall f :: f in s.mine ==> f < s.db.nextFamily && AtMostOneLive(s.db, f))
    && (forall t :: t in s.presented ==> t in s.db.tokens && s.db.tokens[t].familyId in s.mine)
    && (forall k :: k in s.calls ==> s.calls[k].token in s.db.tokens && CallSound(s, s.calls[k]))
  }

  /** A given-up call is as sound as one on the way, and no other call carries its token. */
  ghost predicate OrphansSound(s: System) {
    && (forall k :: k in s.calls ==> s.calls[k].token in s.presented)
    && (forall k :: k in s.orphans ==>
          && k < |s.client.refreshes| && k !in s.calls
          && s.orphans[k].token in s.presented && OrphanSound(s, s.orphans[k]))
    && (forall j, k :: j in s.orphans && k in s.orphans && s.orphans[j].token == s.orphans[k].token ==> j == k)
    && (forall j, k :: j in s.orphans && k in s.calls ==> s.orphans[j].token != s.calls[k].token)
  }

  ghost predicate OrphanSound(s: System, call: Call) {
    match call
    case Posted(t) => Held(s, t)
    case Read(t, found) => found == Expired || (Held(s, t) && found == Usable(s.db.tokens[t]))
    case Answered(_, _) => true
  }

  ghost predicate RequestsBounded(c: Client) {
    forall r :: r in c.requests ==>
      var q := c.requests[r];
      && (!q.retried ==> q.sends == 1 && !q.phase.Waiting?)
      && (q.phase.Waiting? ==> q.sends == 1)
      && q.sends <= 2
  }

  ghost predicate Inv(s: System) {
    && OneRefresh(s) && SessionFresh(s) && ServerSide(s) && OrphansSound(s) && RequestsBounded(s.client)
    && Distinct(s.presented) && !s.reused
  }

  lemma StartInv(s: System)
    requires Start(s)
    ensures Inv(s)
  {
  }

  /** A foreign call leaves every row of the browser's families as it is. */
  lemma ForeignKeepsMine(s: System, op: AuthOp)
    requires ServerSide(s) && IsForeign(s, op)
    ensures var db' := Step(s.db, op);
            && Numbered(db')
            && (forall t :: t in s.db.tokens && s.db.tokens[t].familyId in s.mine ==>
                  t in db'.tokens && db'.tokens[t] == s.db.tokens[t])
            && (forall t :: t in s.db.tokens ==> t in db'.tokens)
            && (forall t :: t in db'.tokens && db'.tokens[t].familyId in s.mine ==> t in s.db.tokens)
            && s.db.nextFamily <= db'.nextFamily
  {
    StepKeepsRows(s.db, op);
  }

  // ----- given-up calls -----

  /** What a step must leave alone for the given-up calls to stay sound. */
  lemma OrphansStay(s: System, s': System)
    requires OrphansSound(s)
    requires forall k :: k in s'.orphans ==> k in s.orphans && s'.orphans[k] == s.orphans[k]
    requires |s.client.refreshes| <= |s'.client.refreshes| && forall t :: t in s.presented ==> t in s'.presented
    requires forall k :: k in s'.calls ==>
               && s'.calls[k].token in s'.presented
               && if k in s.calls then s'.calls[k].token == s.calls[k].token
                  else k >= |s.client.refreshes| && s'.calls[k].token !in s.presented
    requires forall k :: k in s'.orphans && Held(s, s.orphans[k].token) ==>
               Held(s', s.orphans[k].token) && s'.db.tokens[s.orphans[k].token] == s.db.tokens[s.orphans[k].token]
    ensures OrphansSound(s')
  {
    forall k | k in s'.orphans ensures OrphanSound(s', s'.orphans[k]) { assert OrphanSound(s, s.orphans[k]); }
  }

  lemma OrphanFacts(s: System, k: PromiseId)
    requires OrphansSound(s) && k in s.orphans
    ensures OrphanSound(s, s.orphans[k]) && s.orphans[k].token in s.presented
    ensures forall j :: j in s.calls ==> s.calls[j].token != s.orphans[k].token
    ensures forall j :: j in s.orphans && j != k ==> s.orphans[j].token != s.orphans[k].token
  {
  }

  lemma CallFacts(s: System)
    requires OrphansSound(s)
    ensures forall j :: j in s.calls ==> s.calls[j].token in s.presented
  {
  }

  lemma OthersKeepServerSide(s: System, op: AuthOp)
    requires ServerSide(s) && IsForeign(s, op)
    ensures ServerSide(Next(s, OthersCall(op)))
  {
    var s' := Next(s, OthersCall(op));
    ForeignKeepsMine(s, op);
    hide Step, IsForeign, Numbered;
    forall f | f in s'.mine ensures AtMostOneLive(s'.db, f) {
      assert AtMostOneLive(s.db, f);
      forall t, u | LiveIn(s'.db, t, f) && LiveIn(s'.db, u, f) ensures t == u {
        assert LiveIn(s.db, t, f) && LiveIn(s.db, u, f);
      }
    }
    forall k | k in s'.calls ensures CallSound(s', s'.calls[k]) { assert CallSound(s, s.calls[k]); }
  }

  lemma OthersKeepInv(s: System, op: AuthOp)
    requires Inv(s) && IsForeign(s, op)
    ensures Inv(Next(s, OthersCall(op)))
  {
    var s' := Next(s, OthersCall(op));
    ForeignKeepsMine(s, op);
    OthersKeepServerSide(s, op);
    hide OrphansSound, ServerSide, Step, IsForeign, Numbered, RequestsBounded, Distinct;
    CallFacts(s);
    OrphansStay(s, s');
  }

  /** Events that leave the server's tables and the calls alone. */
  lemma ServerSideStays(s: System, s': System)
    requires ServerSide(s) && s'.db == s.db && s'.mine == s.mine && s'.presented == s.presented
    requires forall k :: k in s'.calls ==> k in s.calls && s'.calls[k] == s.calls[k]
    ensures ServerSide(s')
  {
    forall k | k in s'.calls ensures CallSound(s', s'.calls[k]) { assert CallSound(s, s.calls[k]); }
  }

  lemma PostKeepsServerSide(s: System, s': System, k: PromiseId, t: Token)
    requires ServerSide(s) && Held(s, t) && s.calls == map[]
    requires s'.db == s.db && s'.mine == s.mine && s'.presented == s.presented + [t] && s'.calls == map[k := Posted(t)]
    ensures ServerSide(s')
  {
  }

  lemma RespondKeepsServerSide(s: System, r: Id, status: int)
    requires OneRefresh(s) && SessionFresh(s) && ServerSide(s) && OrphansSound(s) && Enabled(s, Respond(r, status))
    ensures ServerSide(Next(s, Respond(r, status))) && OrphansSound(Next(s, Respond(r, status)))
  {
    hide OrphansSound, ServerSide, Step, Finished, LookUp, IsForeign;
    var s' := Next(s, Respond(r, status));
    CallFacts(s);
    if StartsWait(s.client, r, status) && s.client.inFlightRefresh.None? && s.client.session.refreshToken.Some? {
      assert s.calls == map[];
      PostKeepsServerSide(s, s', |s.client.refreshes|, s.client.session.refreshToken.value);
    } else {
      ServerSideStays(s, s');
    }
    OrphansStay(s, s');
  }

  lemma RespondKeepsBounds(c: Client, r: Id, status: int)
    requires RequestsBounded(c) && r in c.requests && c.requests[r].phase.Sent?
    ensures RequestsBounded(Responded(c, r, status))
  {
  }

  lemma RespondKeepsOneRefresh(s: System, r: Id, status: int)
    requires OneRefresh(s) && Enabled(s, Respond(r, status))
    ensures OneRefresh(Next(s, Respond(r, status)))
  {
    hide Step, Finished, LookUp, IsForeign;
  }

  lemma RespondKeepsSession(s: System, r: Id, status: int)
    requires OneRefresh(s) && SessionFresh(s) && Distinct(s.presented) && Enabled(s, Respond(r, status))
    ensures SessionFresh(Next(s, Respond(r, status))) && Distinct(Next(s, Respond(r, status)).presented)
  {
    hide Step, Finished, LookUp, IsForeign;
    if StartsWait(s.client, r, status) && s.client.inFlightRefresh.None? {
      assert s.calls == map[];
    }
  }

  lemma RespondKeepsInv(s: System, r: Id, status: int)
    requires Inv(s) && Enabled(s, Respond(r, status))
    ensures Inv(Next(s, Respond(r, status)))
  {
    RespondKeepsServerSide(s, r, status);
    RespondKeepsBounds(s.client, r, status);
    RespondKeepsOneRefresh(s, r, status);
    RespondKeepsSession(s, r, status);
    hide OneRefresh, SessionFresh, OrphansSound, ServerSide, RequestsBounded, Distinct;
    assert Next(s, Respond(r, status)).client == Responded(s.client, r, status);
  }

  /** Acting on a read that is still current keeps a family single. */
  lemma ActKeepsSingle(db: AuthDb, t: Token, found: Lookup, now: int, g: Id)
    requires Numbered(db) && AtMostOneLive(db, g)
    requires found == Expired || (Live(db, t) && found == Usable(db.tokens[t]))
    ensures AtMostOneLive(Finished(db, t, found, now).0, g)
  {
    var db' := Finished(db, t, found, now).0;
    forall a, b | LiveIn(db', a, g) && LiveIn(db', b, g) ensures a == b {
      assert a in db.tokens ==> LiveIn(db, a, g);
      assert b in db.tokens ==> LiveIn(db, b, g);
      assert Live(db, t) && db.tokens[t].familyId == g ==> LiveIn(db, t, g);
    }
  }

  lemma ServerActsKeepsInv(s: System, k: PromiseId, now: int)
    requires Inv(s) && Enabled(s, ServerActs(k, now))
    ensures Inv(Next(s, ServerActs(k, now)))
  {
    hide OrphansSound;
    var s' := Next(s, ServerActs(k, now));
    var t := s.calls[k].token;
    CallFacts(s);
    forall j | j in s.orphans ensures s.orphans[j].token != t { OrphanFacts(s, j); }
    OrphansStay(s, s');
    assert CallSound(s, s.calls[k]);
    assert forall j :: j in s.calls ==> j == k;
    forall g | g in s'.mine ensures AtMostOneLive(s'.db, g) {
      ActKeepsSingle(s.db, t, s.calls[k].found, now, g);
    }
    hide AtMostOneLive, RequestsBounded, Distinct;
  }

  lemma OrphanActsKeepsServerSide(s: System, k: PromiseId, now: int)
    requires ServerSide(s) && OrphansSound(s) && Enabled(s, OrphanActs(k, now))
    ensures ServerSide(Next(s, OrphanActs(k, now)))
  {
    var s' := Next(s, OrphanActs(k, now));
    var t := s.orphans[k].token;
    OrphanFacts(s, k);
    forall g | g in s'.mine ensures AtMostOneLive(s'.db, g) {
      ActKeepsSingle(s.db, t, s.orphans[k].found, now, g);
    }
    hide AtMostOneLive, OrphansSound;
    forall j | j in s'.calls ensures CallSound(s', s'.calls[j]) { assert CallSound(s, s.calls[j]); }
  }

  lemma OrphanActsKeepsInv(s: System, k: PromiseId, now: int)
    requires Inv(s) && Enabled(s, OrphanActs(k, now))
    ensures Inv(Next(s, OrphanActs(k, now)))
  {
    hide OrphansSound;
    var s' := Next(s, OrphanActs(k, now));
    var t := s.orphans[k].token;
    OrphanFacts(s, k);
    CallFacts(s);
    OrphansStay(s, s');
    OrphanActsKeepsServerSide(s, k, now);
    hide ServerSide, RequestsBounded, Distinct;
  }

  lemma LoginKeepsInv(s: System, userId: Id, now: int)
    requires Inv(s) && Enabled(s, UserLogsIn(userId, now))
    ensures Inv(Next(s, UserLogsIn(userId, now)))
  {
    hide OrphansSound;
    var s' := Next(s, UserLogsIn(userId, now));
    assert s.calls == map[];
    OrphansStay(s, s');
    forall f | f in s'.mine ensures AtMostOneLive(s'.db, f) {
      if f in s.mine { assert AtMostOneLive(s.db, f); }
      forall t, u | LiveIn(s'.db, t, f) && LiveIn(s'.db, u, f) ensures t == u {
        assert f in s.mine ==> LiveIn(s.db, t, f) && LiveIn(s.db, u, f);
      }
    }
  }

  lemma LogoutKeepsInv(s: System, now: int)
    requires Inv(s) && Enabled(s, UserLogsOut(now))
    ensures Inv(Next(s, UserLogsOut(now)))
  {
    hide OrphansSound;
    var s' := Next(s, UserLogsOut(now));
    assert s.calls == map[];
    forall j | j in s.orphans ensures s.orphans[j].token != s.client.session.refreshToken.value { OrphanFacts(s, j); }
    OrphansStay(s, s');
    forall f | f in s'.mine ensures AtMostOneLive(s'.db, f) {
      assert AtMostOneLive(s.db, f);
      forall t, u | LiveIn(s'.db, t, f) && LiveIn(s'.db, u, f) ensures t == u {
        assert LiveIn(s.db, t, f) && LiveIn(s.db, u, f);
      }
    }
  }

  lemma LostCallKeepsInv(s: System, k: PromiseId)
    requires Inv(s) && Enabled(s, CallIsLost(k))
    ensures Inv(Next(s, CallIsLost(k)))
  {
    var s' := Next(s, CallIsLost(k));
    LostCallIsSound(s, k);
    hide OrphansSound;
    assert CallSound(s, s.calls[k]) && forall j :: j in s.calls ==> j == k;
    assert s'.calls == map[];
  }

  lemma LostCallIsSound(s: System, k: PromiseId)
    requires OneRefresh(s) && OrphansSound(s) && k in s.calls && CallSound(s, s.calls[k])
    ensures OrphansSound(Next(s, CallIsLost(k)))
  {
    var s' := Next(s, CallIsLost(k));
    forall j | j in s'.orphans ensures OrphanSound(s', s'.orphans[j]) {
      assert j in s.orphans ==> OrphanSound(s, s.orphans[j]);
    }
  }

  /** Nothing but the given-up calls and the reuse flag differs. */
  lemma OnlyOrphansDiffer(s: System, s': System)
    requires s'.client == s.client && s'.db == s.db && s'.calls == s.calls
    requires s'.presented == s.presented && s'.mine == s.mine
    requires OneRefresh(s) && SessionFresh(s) && ServerSide(s)
    ensures OneRefresh(s') && SessionFresh(s') && ServerSide(s')
  {
    ServerSideStays(s, s');
    hide ServerSide;
  }

  lemma OrphanIsReadKeepsInv(s: System, k: PromiseId, now: int)
    requires Inv(s) && Enabled(s, OrphanIsRead(k, now))
    ensures Inv(Next(s, OrphanIsRead(k, now)))
  {
    var s' := Next(s, OrphanIsRead(k, now));
    OrphanFacts(s, k);
    OrphanReadIsSound(s, k, now);
    hide OneRefresh, SessionFresh, OrphansSound, ServerSide, RequestsBounded, Distinct, Step, Finished, IsForeign;
    OnlyOrphansDiffer(s, s');
  }

  lemma OrphanReadIsSound(s: System, k: PromiseId, now: int)
    requires OrphansSound(s) && Enabled(s, OrphanIsRead(k, now))
    ensures OrphansSound(Next(s, OrphanIsRead(k, now)))
  {
    var s' := Next(s, OrphanIsRead(k, now));
    forall j | j in s'.orphans ensures OrphanSound(s', s'.orphans[j]) { assert OrphanSound(s, s.orphans[j]); }
  }

  lemma ServerReadsKeepsInv(s: System, k: PromiseId, now: int)
    requires Inv(s) && Enabled(s, ServerReads(k, now))
    ensures Inv(Next(s, ServerReads(k, now)))
  {
    hide OrphansSound;
    CallFacts(s);
    OrphansStay(s, Next(s, ServerReads(k, now)));
    hide RequestsBounded, Distinct;
    assert CallSound(s, s.calls[k]) && forall j :: j in s.calls ==> j == k;
  }

  lemma AnswerKeepsInv(s: System, k: PromiseId)
    requires Inv(s) && Enabled(s, AnswerArrives(k))
    ensures Inv(Next(s, AnswerArrives(k)))
  {
    var s' := Next(s, AnswerArrives(k));
    assert CallSound(s, s.calls[k]) && forall j :: j in s.calls ==> j == k;
    ServerSideStays(s, s');
    hide OrphansSound, ServerSide;
    CallFacts(s);
    OrphansStay(s, s');
    assert s'.calls == map[];
  }

  lemma ClientEventKeepsInv(s: System, e: Event)
    requires Inv(s) && Enabled(s, e)
    requires e.SendRequest? || e.RefreshFinally? || e.Resume?
    ensures Inv(Next(s, e))
  {
    hide OrphansSound, ServerSide, Distinct, Step, Finished, LookUp, IsForeign;
    CallFacts(s);
    OrphansStay(s, Next(s, e));
    ServerSideStays(s, Next(s, e));
  }

  lemma NextKeepsInv(s: System, e: Event)
    requires Inv(s) && Enabled(s, e)
    ensures Inv(Next(s, e))
  {
    match e
    case Respond(r, status) => RespondKeepsInv(s, r, status);
    case ServerActs(k, now) => ServerActsKeepsInv(s, k, now);
    case UserLogsIn(userId, now) => LoginKeepsInv(s, userId, now);
    case UserLogsOut(now) => LogoutKeepsInv(s, now);
    case OthersCall(op) => OthersKeepInv(s, op);
    case ServerReads(k, now) => ServerReadsKeepsInv(s, k, now);
    case AnswerArrives(k) => AnswerKeepsInv(s, k);
    case CallIsLost(k) => LostCallKeepsInv(s, k);
    case OrphanIsRead(k, now) => OrphanIsReadKeepsInv(s, k, now);
    case OrphanActs(k, now) => OrphanActsKeepsInv(s, k, now);
    case _ => ClientEventKeepsInv(s, e);
  }

  lemma {:induction false} TraceKeepsInv(s: System, events: seq<Event>)
    requires Inv(s) && Trace(s, events)
    ensures Inv(After(s, events))
    decreases |events|
  {
    if events != [] {
      NextKeepsInv(s, events[0]);
      TraceKeepsInv(Next(s, events[0]), events[1..]);
    }
  }

  /** Under every interleaving: no refresh token is presented twice, the server never meets
      a revoked token of this browser, each of its families keeps at most one usable token
      although the server reads and rotates in separate steps, at most one refresh is on
      the way, and no request goes out more than twice. */
  lemma SharedRefreshIsSafe(s: System, events: seq<Event>)
    requires Start(s) && Trace(s, events)
    ensures var z := After(s, events);
            && Distinct(z.presented)
            && !z.reused
            && (forall f :: f in z.mine ==> AtMostOneLive(z.db, f))
            && (forall j, k :: j in z.calls && k in z.calls ==> j == k)
            && (forall r :: r in z.client.requests ==> z.client.requests[r].sends <= 2)
  {
    StartInv(s);
    TraceKeepsInv(s, events);
  }

  // ----- the sharing at work -----

  lemma TraceCons(s: System, e: Event, rest: seq<Event>)
    requires Enabled(s, e) && Trace(Next(s, e), rest)
    ensures Trace(s, [e] + rest) && After(s, [e] + rest) == After(Next(s, e), rest)
  {
    assert ([e] + rest)[1..] == rest;
  }

  lemma TraceNil(s: System)
    ensures Trace(s, []) && After(s, []) == s
  {
  }

  /** Two requests that are both answered with 401 after a login. */
  ghost predicate BothUnauthorized(s: System, r1: Id, r2: Id, t: Token) {
    && r1 != r2 && r1 in s.client.requests && r2 in s.client.requests
    && s.client.requests[r1].phase == Waiting(0) && s.client.requests[r2].phase == Waiting(0)
    && s.client.requests[r1].retried && s.client.requests[r2].retried
    && s.client.requests[r1].sends == 1 && s.client.requests[r2].sends == 1
    && s.client.inFlightRefresh == Some(0) && s.client.refreshes == [Posting(t)]
    && s.calls == map[0 := Posted(t)] && s.presented == [t]
    && t in s.db.tokens && s.db.tokens[t].revokedAt.None?
  }

  lemma ReachBothUnauthorized(s: System, r1: Id, r2: Id, userId: Id, now: int) returns (events: seq<Event>)
    requires Start(s) && r1 != r2
    ensures Trace(s, events) && BothUnauthorized(After(s, events), r1, r2, s.db.nextToken)
    ensures After(s, events).db.tokens[s.db.nextToken].expiresAt == now + REFRESH_TOKEN_TTL_MS
  {
    var e1, e2, e3 := UserLogsIn(userId, now), SendRequest(r1, false), SendRequest(r2, false);
    var e4, e5 := Respond(r1, UNAUTHORIZED), Respond(r2, UNAUTHORIZED);
    var s1 := Next(s, e1);
    var s2 := Next(s1, e2);
    var s3 := Next(s2, e3);
    var s4 := Next(s3, e4);
    var s5 := Next(s4, e5);
    assert BothUnauthorized(s5, r1, r2, s.db.nextToken);
    assert s5.db.tokens[s.db.nextToken].expiresAt == now + REFRESH_TOKEN_TTL_MS;
    hide Next, BothUnauthorized;
    events := [e1] + ([e2] + ([e3] + ([e4] + ([e5] + []))));
    TraceNil(s5);
    TraceCons(s4, e5, []);
    TraceCons(s3, e4, [e5] + []);
    TraceCons(s2, e3, [e4] + ([e5] + []));
    TraceCons(s1, e2, [e3] + ([e4] + ([e5] + [])));
    TraceCons(s, e1, [e2] + ([e3] + ([e4] + ([e5] + []))));
  }

  ghost predicate SentAgain(s: System, r: Id, newToken: Token) {
    && r in s.client.requests && s.client.requests[r].phase.Sent? && s.client.requests[r].retried
    && s.client.requests[r].sends == 2 && s.client.requests[r].bearer == Some(newToken)
  }

  lemma {:induction false} TraceConcat(s: System, a: seq<Event>, b: seq<Event>)
    requires Trace(s, a) && Trace(After(s, a), b)
    ensures Trace(s, a + b) && After(s, a + b) == After(After(s, a), b)
    decreases |a|
  {
    if a == [] {
      assert a + b == b;
    } else {
      assert (a + b)[1..] == a[1..] + b;
      TraceConcat(Next(s, a[0]), a[1..], b);
    }
  }

  /** The shared refresh has been answered with a new pair and its promise is cleared. */
  ghost predicate BothRefreshed(s: System, r1: Id, r2: Id, t: Token, newToken: Token) {
    && r1 != r2 && r1 in s.client.requests && r2 in s.client.requests
    && s.client.requests[r1].phase == Waiting(0) && s.client.requests[r2].phase == Waiting(0)
    && s.client.requests[r1].retried && s.client.requests[r2].retried
    && s.client.requests[r1].sends == 1 && s.client.requests[r2].sends == 1
    && s.client.inFlightRefresh == None && s.client.refreshes == [Settled(Some(newToken))]
    && s.client.session.accessToken == Some(newToken) && s.presented == [t]
  }

  lemma AnswerSharedRefresh(s: System, r1: Id, r2: Id, t: Token, now: int) returns (events: seq<Event>)
    requires BothUnauthorized(s, r1, r2, t) && now <= s.db.tokens[t].expiresAt
    ensures Trace(s, events) && BothRefreshed(After(s, events), r1, r2, t, s.db.nextToken)
  {
    var e1, e2, e3, e4 := ServerReads(0, now), ServerActs(0, now), AnswerArrives(0), RefreshFinally;
    var s1 := Next(s, e1);
    var s2 := Next(s1, e2);
    var s3 := Next(s2, e3);
    var s4 := Next(s3, e4);
    assert BothRefreshed(s4, r1, r2, t, s.db.nextToken);
    hide Next, BothRefreshed;
    events := [e1] + ([e2] + ([e3] + ([e4] + [])));
    TraceNil(s4);
    TraceCons(s3, e4, []);
    TraceCons(s2, e3, [e4] + []);
    TraceCons(s1, e2, [e3] + ([e4] + []));
    TraceCons(s, e1, [e2] + ([e3] + ([e4] + [])));
  }

  lemma ResumeBoth(s: System, r1: Id, r2: Id, t: Token, newToken: Token)
    requires BothRefreshed(s, r1, r2, t, newToken)
    ensures var events := [Resume(r1)] + ([Resume(r2)] + []);
            && Trace(s, events)
            && var z := After(s, events);
               && z.presented == [t] && z.client.session.accessToken == Some(newToken)
               && SentAgain(z, r1, newToken) && SentAgain(z, r2, newToken)
  {
    var s1 := Next(s, Resume(r1));
    var s2 := Next(s1, Resume(r2));
    assert SentAgain(s2, r1, newToken) && SentAgain(s2, r2, newToken);
    TraceNil(s2);
    TraceCons(s1, Resume(r2), []);
    TraceCons(s, Resume(r1), [Resume(r2)] + []);
  }

  lemma FinishSharedRefresh(s: System, r1: Id, r2: Id, t: Token, now: int) returns (events: seq<Event>)
    requires BothUnauthorized(s, r1, r2, t) && now <= s.db.tokens[t].expiresAt
    ensures Trace(s, events)
    ensures var z := After(s, events);
            && z.presented == [t] && z.client.session.accessToken == Some(s.db.nextToken)
            && SentAgain(z, r1, s.db.nextToken) && SentAgain(z, r2, s.db.nextToken)
  {
    hide Next, Trace, After, SentAgain, BothRefreshed;
    var answered := AnswerSharedRefresh(s, r1, r2, t, now);
    ResumeBoth(After(s, answered), r1, r2, t, s.db.nextToken);
    var resumed := [Resume(r1)] + ([Resume(r2)] + []);
    TraceConcat(s, answered, resumed);
    events := answered + resumed;
  }

  /** The sharing is not bought with blocked requests: two requests that fail together with
      401 can both go out again with the new access token after a single refresh call. */
  lemma OneRefreshServesBoth(s: System, r1: Id, r2: Id, userId: Id, now: int) returns (events: seq<Event>)
    requires Start(s) && r1 != r2
    ensures Trace(s, events)
    ensures var z := After(s, events);
            && |z.presented| == 1 && z.client.session.accessToken.Some?
            && SentAgain(z, r1, z.client.session.accessToken.value)
            && SentAgain(z, r2, z.client.session.accessToken.value)
  {
    var first := ReachBothUnauthorized(s, r1, r2, userId, now);
    var mid := After(s, first);
    hide Trace, After, BothUnauthorized, SentAgain;
    TtlIsPositive(mid, r1, r2, s.db.nextToken);
    var second := FinishSharedRefresh(mid, r1, r2, s.db.nextToken, now);
    TraceConcat(s, first, second);
    events := first + second;
  }

  lemma TtlIsPositive(s: System, r1: Id, r2: Id, t: Token)
    requires BothUnauthorized(s, r1, r2, t)
    ensures t in s.db.tokens && REFRESH_TOKEN_TTL_MS > 0
  {
  }

  // ----- what each event of the browser does -----

  /** Everything but the requests, and every request but r, is as before. */
  ghost predicate OnlyRequest(s: System, s': System, r: Id) {
    && s'.client.session == s.client.session && s'.client.inFlightRefresh == s.client.inFlightRefresh
    && s'.client.refreshes == s.client.refreshes && OtherRequestsStay(s, s', r)
    && s'.db == s.db && s'.calls == s.calls && s'.orphans == s.orphans && s'.presented == s.presented
  }

  ghost predicate OtherRequestsStay(s: System, s': System, r: Id) {
    && r in s'.client.requests && s'.client.requests.Keys == s.client.requests.Keys + {r}
    && forall q :: q in s.client.requests && q != r ==> s'.client.requests[q] == s.client.requests[q]
  }

  /** A request leaves with the access token of the moment. */
  lemma RequestLeaves(s: System, r: Id, isAuthEndpoint: bool)
    requires Enabled(s, SendRequest(r, isAuthEndpoint))
    ensures var s' := Next(s, SendRequest(r, isAuthEndpoint));
            && OnlyRequest(s, s', r)
            && s'.client.requests[r] == Request(isAuthEndpoint, false, Sent, s.client.session.accessToken, 1)
  {
  }

  /** The first 401 of a request outside the auth endpoints. */
  ghost predicate MustWait(s: System, r: Id, status: int)
    requires r in s.client.requests
  {
    status == 401 && !s.client.requests[r].retried && !s.client.requests[r].isAuthEndpoint
  }

  /** Any other answer ends the request and touches nothing else. */
  lemma AnswerEndsRequest(s: System, r: Id, status: int)
    requires Enabled(s, Respond(r, status)) && !MustWait(s, r, status)
    ensures var s' := Next(s, Respond(r, status));
            OnlyRequest(s, s', r) && s'.client.requests[r] == s.client.requests[r].(phase := Done)
  {
  }

  /** With a refresh in flight the request waits for that one, and none is started. */
  lemma AnswerJoinsRefresh(s: System, r: Id, status: int)
    requires Enabled(s, Respond(r, status)) && MustWait(s, r, status) && s.client.inFlightRefresh != None
    ensures var s', k := Next(s, Respond(r, status)), s.client.inFlightRefresh.value;
            && OnlyRequest(s, s', r)
            && s'.client.requests[r] == s.client.requests[r].(retried := true, phase := Waiting(k))
  {
  }

  /** Without one the request starts it and waits for it: the stored refresh token is posted,
      or, if there is none, the promise settles with null at once. */
  lemma AnswerStartsRefresh(s: System, r: Id, status: int)
    requires Enabled(s, Respond(r, status)) && MustWait(s, r, status) && s.client.inFlightRefresh == None
    ensures var s', n := Next(s, Respond(r, status)), |s.client.refreshes|;
            && OtherRequestsStay(s, s', r) && s'.client.session == s.client.session && s'.db == s.db
            && s'.client.requests[r] == s.client.requests[r].(retried := true, phase := Waiting(n))
            && s'.client.inFlightRefresh == Some(n)
            && (s.client.session.refreshToken == None ==>
                  s'.client.refreshes == s.client.refreshes + [Settled(None)]
                  && s'.calls == s.calls && s'.presented == s.presented)
            && (s.client.session.refreshToken != None ==>
                  var t := s.client.session.refreshToken.value;
                  && s'.client.refreshes == s.client.refreshes + [Posting(t)]
                  && s'.calls == s.calls[n := Posted(t)] && s'.presented == s.presented + [t])
  {
  }

  /** A pair replaces both tokens and settles the promise with the access token; any failure,
      a lost call included, signs out and settles it with null. */
  lemma RefreshIsSettled(s: System, k: PromiseId, lost: bool)
    requires Enabled(s, if lost then CallIsLost(k) else AnswerArrives(k))
    ensures var s' := Next(s, if lost then CallIsLost(k) else AnswerArrives(k));
            var paired := !lost && s.calls[k].reply.Ok?;
            && s'.client.requests == s.client.requests && s'.client.inFlightRefresh == s.client.inFlightRefresh
            && s'.calls == s.calls - {k} && s'.db == s.db
            && s'.orphans == (if lost then s.orphans[k := s.calls[k]] else s.orphans)
            && (paired ==>
                  var pair := s.calls[k].reply.value;
                  && s'.client.session ==
                     Session(s.client.session.user, Some(pair.accessToken), Some(pair.refreshToken))
                  && s'.client.refreshes == s.client.refreshes[k := Settled(Some(pair.accessToken))])
            && (!paired ==> s'.client.session == Session(None, None, None)
                            && s'.client.refreshes == s.client.refreshes[k := Settled(None)])
  {
  }

  lemma RefreshIsCleared(s: System)
    requires Enabled(s, RefreshFinally)
    ensures var s' := Next(s, RefreshFinally);
            && s'.client.inFlightRefresh == None
            && s' == s.(client := s.client.(inFlightRefresh := s'.client.inFlightRefresh))
  {
  }

  /** A waiting request goes out once more, with the newest access token, if its refresh
      settled with a token, and otherwise ends without being sent again. */
  lemma WaitingIsResumed(s: System, r: Id)
    requires Enabled(s, Resume(r))
    ensures var s', q := Next(s, Resume(r)), s.client.requests[r];
            var settled := s.client.refreshes[q.phase.promise].newToken;
            var q' := s'.client.requests[r];
            && OnlyRequest(s, s', r)
            && q'.isAuthEndpoint == q.isAuthEndpoint && q'.retried == q.retried
            && (settled != None ==>
                  && q'.phase == Sent && q'.sends == q.sends + 1
                  && q'.bearer ==
                     (if s.client.session.accessToken != None then s.client.session.accessToken else settled))
            && (settled == None ==> q'.phase == Done && q'.sends == q.sends && q'.bearer == q.bearer)
  {
  }

  /** Logging in stores a live pair of a fresh family; logging out revokes the stored token of
      the signed-in user and empties the session. */
  lemma SessionEvents(s: System, userId: Id, now: int)
    requires Numbered(s.db)
    ensures Enabled(s, UserLogsIn(userId, now)) ==>
              var s' := Next(s, UserLogsIn(userId, now));
              && s'.client.session.user == Some(userId) && s'.client.session.accessToken.Some?
              && s'.client.session.refreshToken.Some?
              && var t := s'.client.session.refreshToken.value;
                 && t !in s.db.tokens && t in s'.db.tokens && s'.db.tokens[t].userId == userId
                 && s'.db.tokens[t].revokedAt == None && s'.db.tokens[t].familyId in s'.mine
                 && s'.client == s.client.(session := s'.client.session)
    ensures Enabled(s, UserLogsOut(now)) ==>
              var s', t := Next(s, UserLogsOut(now)), s.client.session.refreshToken.value;
              && s'.client == s.client.(session := Session(None, None, None))
              && (t in s.db.tokens && Some(s.db.tokens[t].userId) == s.client.session.user ==>
                    t in s'.db.tokens && s'.db.tokens[t].revokedAt.Some?)
  {
  }

  /** A read by the server, of a call on its way or given up, keeps what was found of the token,
      and notices a token that is revoked. */
  lemma ServerReadsCall(s: System, k: PromiseId, now: int, givenUp: bool)
    requires Enabled(s, if givenUp then OrphanIsRead(k, now) else ServerReads(k, now))
    ensures var s' := Next(s, if givenUp then OrphanIsRead(k, now) else ServerReads(k, now));
            var t := if givenUp then s.orphans[k].token else s.calls[k].token;
            var call := Read(t, LookUp(s.db, t, now));
            && s'.client == s.client && s'.db == s.db && s'.presented == s.presented && s'.mine == s.mine
            && s'.calls == (if givenUp then s.calls else s.calls[k := call])
            && s'.orphans == (if givenUp then s.orphans[k := call] else s.orphans)
            && (s'.reused <==> s.reused || (t in s.db.tokens && s.db.tokens[t].revokedAt.Some?))
  {
    hide Finished, Step, IsForeign;
  }

  /** Acting on what was found changes the tables as the second half of a refresh does; only a
      call on its way is answered. */
  lemma ServerActsOnCall(s: System, k: PromiseId, now: int, givenUp: bool)
    requires Enabled(s, if givenUp then OrphanActs(k, now) else ServerActs(k, now))
    ensures var s' := Next(s, if givenUp then OrphanActs(k, now) else ServerActs(k, now));
            var call := if givenUp then s.orphans[k] else s.calls[k];
            var (db, reply) := Finished(s.db, call.token, call.found, now);
            && s'.client == s.client && s'.db == db && s'.reused == s.reused && s'.presented == s.presented
            && s'.calls == (if givenUp then s.calls else s.calls[k := Answered(call.token, reply)])
            && s'.orphans == (if givenUp then s.orphans - {k} else s.orphans)
  {
    hide Finished, LookUp, Step, IsForeign;
  }

  /** A request first goes out once; only the resumption after a refresh that settled with a
      token sends it again. */
  lemma SendsGrowOnlyOnResume(s: System, e: Event, r: Id)
    requires Enabled(s, e)
    ensures r in s.client.requests ==> r in Next(s, e).client.requests
    ensures r !in s.client.requests && r in Next(s, e).client.requests ==> Next(s, e).client.requests[r].sends == 1
    ensures r in s.client.requests && Next(s, e).client.requests[r].sends != s.client.requests[r].sends ==>
              e == Resume(r) && SettledWithToken(s.client, r)
  {
    hide Finished, LookUp, Step, IsForeign;
  }

  /** The request waits for a refresh that has settled with a token. */
  ghost predicate SettledWithToken(c: Client, r: Id) {
    && r in c.requests && c.requests[r].phase.Waiting? && c.requests[r].phase.promise < |c.refreshes|
    && c.refreshes[c.requests[r].phase.promise].Settled? && c.refreshes[c.requests[r].phase.promise].newToken != None
  }

  /** Over every trace: a request that went out more than once since it was made, or since
      some moment, was resumed in between, at a moment when its refresh had settled with a
      token. */
  lemma {:induction false} SentAgainAfterToken(s: System, events: seq<Event>, r: Id) returns (k: nat)
    requires Trace(s, events) && r in After(s, events).client.requests
    requires After(s, events).client.requests[r].sends
             != if r in s.client.requests then s.client.requests[r].sends else 1
    ensures k < |events| && events[k] == Resume(r) && Trace(s, events[..k])
    ensures SettledWithToken(After(s, events[..k]).client, r)
    decreases |events|
  {
    var s' := Next(s, events[0]);
    SendsGrowOnlyOnResume(s, events[0], r);
    hide Next, Enabled, SettledWithToken;
    if r in s.client.requests && s'.client.requests[r].sends != s.client.requests[r].sends {
      k := 0;
      assert events[..0] == [];
    } else {
      var j := SentAgainAfterToken(s', events[1..], r);
      k := j + 1;
      assert events[..k] == [events[0]] + events[1..][..j];
      TraceCons(s, events[0], events[1..][..j]);
    }
  }
}
