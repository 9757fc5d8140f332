/** The browser's side of token rotation: the persisted session, the request queue and the
    one refresh that all requests answered with 401 share. */
module ApiClient {
  import opened Domain
  import opened AuthService

  datatype Session = Session(user: Option<Id>, accessToken: Option<Token>, refreshToken: Option<Token>)

  const SIGNED_OUT: Session := Session(None, None, None)

  /** The session store.  Every setter overwrites the fields it names at once. */
  class AuthStore {
    var user: Option<Id>
    var accessToken: Option<Token>
    var refreshToken: Option<Token>

    ghost function Value(): Session
      reads this
    {
      Session(user, accessToken, refreshToken)
    }

    constructor ()
      ensures Value() == SIGNED_OUT
    {
      user, accessToken, refreshToken := None, None, None;
    }

    method SetAuth(user: Id, accessToken: Token, refreshToken: Token)
      modifies this
      ensures Value() == Session(Some(user), Some(accessToken), Some(refreshToken))
    {
      this.user, this.accessToken, this.refreshToken := Some(user), Some(accessToken), Some(refreshToken);
    }

    method SetTokens(accessToken: Token, refreshToken: Token)
      modifies this
      ensures Value() == Session(old(user), Some(accessToken), Some(refreshToken))
    {
      this.accessToken, this.refreshToken := Some(accessToken), Some(refreshToken);
    }

    method ClearAuth()
      modifies this
      ensures Value() == SIGNED_OUT
    {
      user, accessToken, refreshToken := None, None, None;
    }
  }

  type PromiseId = nat

  /** A refresh promise: its POST is on the way, or its body has finished with the new
      access token or null. */
  datatype Refreshing = Posting(token: Token) | Settled(newToken: Option<Token>)

  datatype Phase = Sent | Waiting(promise: PromiseId) | Done

  /** A request config; sends counts how often it went out, bearer is its header. */
  datatype Request = Request(isAuthEndpoint: bool, retried: bool, phase: Phase, bearer: Option<Token>, sends: nat)

  datatype Client = Client(session: Session, inFlightRefresh: Option<PromiseId>,
                           refreshes: seq<Refreshing>, requests: map<Id, Request>)

  const UNAUTHORIZED: int := 401

  // ----- what each event does -----

  function Issue(c: Client, r: Id, isAuthEndpoint: bool): Client {
    c.(requests := c.requests[r := Request(isAuthEndpoint, false, Sent, c.session.accessToken, 1)])
  }

  /** refreshAccessToken up to its first await: without a refresh token it has no request
      to make and its result is null. */
  function StartRefresh(c: Client): Client {
    c.(inFlightRefresh := Some(|c.refreshes|),
       refreshes := c.refreshes + [if c.session.refreshToken.Some? then Posting(c.session.refreshToken.value)
                                   else Settled(None)])
  }

  predicate StartsWait(c: Client, r: Id, status: int)
    requires r in c.requests
  {
    status == UNAUTHORIZED && !c.requests[r].retried && !c.requests[r].isAuthEndpoint
  }

  function Responded(c: Client, r: Id, status: int): Client
    requires r in c.requests
  {
    if StartsWait(c, r, status) then
      var c' := if c.inFlightRefresh.None? then StartRefresh(c) else c;
      c'.(requests := c.requests[r := c.requests[r].(retried := true, phase := Waiting(c'.inFlightRefresh.value))])
    else
      c.(requests := c.requests[r := c.requests[r].(phase := Done)])
  }

  function RefreshAnswered(c: Client, k: PromiseId, pair: Option<TokenPair>): Client
    requires k < |c.refreshes|
  {
    if pair.Some? then
      c.(session := Session(c.session.user, Some(pair.value.accessToken), Some(pair.value.refreshToken)),
         refreshes := c.refreshes[k := Settled(Some(pair.value.accessToken))])
    else
      c.(session := SIGNED_OUT, refreshes := c.refreshes[k := Settled(None)])
  }

  function RefreshCleared(c: Client): Client {
    c.(inFlightRefresh := None)
  }

  /** A waiting request goes on with the result of its promise: it is sent once more, or
      rejected. */
  function Resumed(c: Client, r: Id): Client
    requires r in c.requests && c.requests[r].phase.Waiting? && c.requests[r].phase.promise < |c.refreshes|
    requires c.refreshes[c.requests[r].phase.promise].Settled?
  {
    var newToken := c.refreshes[c.requests[r].phase.promise].newToken;
    var q := c.requests[r];
    c.(requests := c.requests[r :=
         if newToken.None? then q.(phase := Done)
         else q.(phase := Sent, sends := q.sends + 1,
                 bearer := if c.session.accessToken.Some? then c.session.accessToken else newToken)])
  }

  class ApiClient {
    const store: AuthStore
    var inFlightRefresh: Option<PromiseId>
    var refreshes: seq<Refreshing>
    var requests: map<Id, Request>

    ghost function Value(): Client
      reads this, store
    {
      Client(store.Value(), inFlightRefresh, refreshes, requests)
    }

    constructor (store: AuthStore)
      ensures this.store == store && Value() == Client(store.Value(), None, [], map[])
    {
      this.store := store;
      inFlightRefresh, refreshes, requests := None, [], map[];
    }

    /** The request interceptor attaches the access token of the moment. */
    method OnRequest(r: Id, isAuthEndpoint: bool)
      modifies this
      ensures Value() == Issue(old(Value()), r, isAuthEndpoint)
    {
      requests := requests[r := Request(isAuthEndpoint, false, Sent, store.accessToken, 1)];
    }

    method RefreshAccessToken() returns (k: PromiseId)
      modifies this`refreshes
      ensures k == |old(refreshes)|
      ensures refreshes == StartRefresh(old(Value())).refreshes
    {
      k := |refreshes|;
      if store.refreshToken.None? {
        refreshes := refreshes + [Settled(None)];
        return;
      }
      refreshes := refreshes + [Posting(store.refreshToken.value)];
    }

    /** The response interceptor.  Statuses other than 401 end the request. */
    method OnResponse(r: Id, status: int)
      requires r in requests
      modifies this
      ensures Value() == Responded(old(Value()), r, status)
    {
      var config := requests[r];
      if status == UNAUTHORIZED && !config.retried && !config.isAuthEndpoint {
        config := config.(retried := true);
        if inFlightRefresh.None? {
          var k := RefreshAccessToken();
          inFlightRefresh := Some(k);
        }
        config := config.(phase := Waiting(inFlightRefresh.value));
      } else {
        config := config.(phase := Done);
      }
      requests := requests[r := config];
    }

    /** The POST returned a pair, or failed in any way (None). */
    method OnRefreshAnswer(k: PromiseId, pair: Option<TokenPair>)
      requires k < |refreshes|
      modifies this, store
      ensures Value() == RefreshAnswered(old(Value()), k, pair)
    {
      match pair
      case Some(p) =>
        store.SetTokens(p.accessToken, p.refreshToken);
        refreshes := refreshes[k := Settled(Some(p.accessToken))];
      case None =>
        store.ClearAuth();
        refreshes := refreshes[k := Settled(None)];
    }

    method OnRefreshFinally()
      modifies this
      ensures Value() == RefreshCleared(old(Value()))
    {
      inFlightRefresh := None;
    }

    method OnResume(r: Id)
      requires r in requests && requests[r].phase.Waiting? && requests[r].phase.promise < |refreshes|
      requires refreshes[requests[r].phase.promise].Settled?
      modifies this
      ensures Value() == Resumed(old(Value()), r)
    {
      var config := requests[r];
      var newToken := refreshes[config.phase.promise].newToken;
      if newToken.Some? {
        config := config.(bearer := newToken);
        if store.accessToken.Some? { config := config.(bearer := store.accessToken); }
        config := config.(phase := Sent, sends := config.sends + 1);
      } else {
        config := config.(phase := Done);
      }
      requests := requests[r := config];
    }
  }
}
