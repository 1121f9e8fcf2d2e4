/** The authenticated request session of the web client: an HTTP client
    with two interceptors over a two-slot credential store. The request
    interceptor attaches the stored access token as a bearer header. The
    response interceptor reacts to the first 401 of a request: it calls the
    refresh endpoint with the stored refresh token (through a plain client
    that has no interceptors), stores the new access token and replays the
    request once; when refresh fails it clears both tokens and sends the user
    to the login page.

    One call is a pure function of the store, the request, and two scripted
    collaborators: the server, which answers each request it receives, and
    the refresh endpoint, which answers each refresh token it is sent. The
    page redirect is an output flag, and the calls made are recorded. */
module ApiSession {
  import opened Wrappers

  /** The `access_token` and `refresh_token` slots of local storage. */
  datatype TokenStore = TokenStore(access: Option<string>, refresh: Option<string>)

  const Cleared: TokenStore := TokenStore(None, None)

  /** JavaScript truthiness of a stored slot: present and not empty. */
  predicate Truthy(slot: Option<string>) {
    slot.Some? && slot.value != ""
  }

  function Bearer(token: string): string {
    "Bearer " + token
  }

  /** An outgoing request: its `Authorization` header and its `_retry` mark. */
  datatype Request = Request(verb: string, path: string, authorization: Option<string>, retry: bool)

  /** What came back for a request: an HTTP answer, or none at all (network
      failure or timeout, where `error.response` is undefined). */
  datatype Reply = Answered(status: int, data: string) | NoResponse

  /** The client's default `validateStatus`: 2xx answers resolve, every other
      answer and a missing answer reject. */
  predicate Succeeded(reply: Reply) {
    reply.Answered? && 200 <= reply.status < 300
  }

  predicate Unauthorized(reply: Reply) {
    reply.Answered? && reply.status == 401
  }

  /** The answer of `POST auth/jwt/refresh/`: a new access token, or any failure. */
  datatype RefreshReply = Refreshed(access: string) | RefreshFailed

  /** How the call's promise settles. */
  datatype Outcome = Resolved(response: Reply) | Rejected(error: Reply)

  /** The result of one call: the store afterwards, how the call settled,
      whether the page was sent to `/login`, the refresh tokens sent to the
      refresh endpoint, and the requests sent to the server, in order. */
  datatype Exchange = Exchange(
    store: TokenStore,
    outcome: Outcome,
    redirectToLogin: bool,
    refreshCalls: seq<string>,
    sent: seq<Request>)

  /** How a reply settles when the response interceptor leaves it alone. */
  function Settle(reply: Reply): Outcome {
    if Succeeded(reply) then Resolved(reply) else Rejected(reply)
  }

  /** The request interceptor: only the `Authorization` header can change,
      and it does exactly when a truthy access token is stored. */
  function AttachToken(store: TokenStore, req: Request): (r: Request)
    ensures r.verb == req.verb && r.path == req.path && r.retry == req.retry
    ensures Truthy(store.access) ==> r.authorization == Some(Bearer(store.access.value))
    ensures !Truthy(store.access) ==> r == req
  {
    if Truthy(store.access) then req.(authorization := Some(Bearer(store.access.value))) else req
  }

  /** One call through the client. The replay goes through both interceptors
      again, already marked `_retry`, so it cannot start a second refresh:
      each call makes at most one refresh call and at most one replay. */
  function Call(store: TokenStore, req: Request, server: Request -> Reply, refresh: string -> RefreshReply): (x: Exchange)
    ensures |x.sent| >= 1 && x.sent[0] == AttachToken(store, req)
    ensures |x.refreshCalls| <= 1 && |x.sent| <= 2
    ensures |x.sent| == 2 ==> |x.refreshCalls| == 1 && x.sent[1].retry
    ensures req.retry ==> x.store == store && !x.redirectToLogin && |x.refreshCalls| == 0 && |x.sent| == 1
    ensures req.retry ==> x.outcome == Settle(server(x.sent[0]))
    decreases if req.retry then 0 else 1
  {
    var out := AttachToken(store, req);
    var reply := server(out);
    if Succeeded(reply) then
      Exchange(store, Resolved(reply), false, [], [out])
    else if !Unauthorized(reply) || out.retry then
      Exchange(store, Rejected(reply), false, [], [out])
    else
      var marked := out.(retry := true);
      if Truthy(store.refresh) then
        var token := store.refresh.value;
        match refresh(token)
        case Refreshed(access) =>
          var renewed := store.(access := Some(access));
          var replay := Call(renewed, marked.(authorization := Some(Bearer(access))), server, refresh);
          Exchange(replay.store, replay.outcome, replay.redirectToLogin, [token] + replay.refreshCalls, [out] + replay.sent)
        case RefreshFailed =>
          Exchange(Cleared, Rejected(reply), true, [token], [out])
      else
        Exchange(store, Rejected(reply), true, [], [out])
  }

  /** The request reaches the server as `Bearer <token>` when an access token
      is stored, and with the caller's headers untouched otherwise. */
  lemma BearerAttached(store: TokenStore, req: Request, server: Request -> Reply, refresh: string -> RefreshReply)
    ensures Truthy(store.access) ==>
      Call(store, req, server, refresh).sent[0] == req.(authorization := Some(Bearer(store.access.value)))
    ensures !Truthy(store.access) ==> Call(store, req, server, refresh).sent[0] == req
  {
  }

  /** A success, any error other than 401 (a missing answer included), and a
      401 on a request already marked `_retry` pass through unchanged: the
      store is untouched, nothing is refreshed or replayed, no redirect. */
  lemma PassThrough(store: TokenStore, req: Request, server: Request -> Reply, refresh: string -> RefreshReply)
    requires Succeeded(server(AttachToken(store, req))) || !Unauthorized(server(AttachToken(store, req))) || req.retry
    ensures Call(store, req, server, refresh)
      == Exchange(store, Settle(server(AttachToken(store, req))), false, [], [AttachToken(store, req)])
  {
  }

  /** A first 401 with a refresh token that the endpoint accepts: only the
      access slot is overwritten, the replay carries the new token and the
      `_retry` mark, and the replay's own result is the call's result (it is
      returned un-awaited, so its failure does not reach the logout path). */
  lemma RefreshAndReplay(store: TokenStore, req: Request, server: Request -> Reply, refresh: string -> RefreshReply)
    requires Unauthorized(server(AttachToken(store, req))) && !req.retry
    requires Truthy(store.refresh) && refresh(store.refresh.value).Refreshed?
    ensures var x := Call(store, req, server, refresh);
      var access := refresh(store.refresh.value).access;
      && x.store == TokenStore(Some(access), store.refresh)
      && x.refreshCalls == [store.refresh.value]
      && |x.sent| == 2
      && x.sent[1] == AttachToken(store, req).(authorization := Some(Bearer(access)), retry := true)
      && x.outcome == Settle(server(x.sent[1]))
      && !x.redirectToLogin
  {
    var access := refresh(store.refresh.value).access;
    var marked := AttachToken(store, req).(authorization := Some(Bearer(access)), retry := true);
    assert AttachToken(store.(access := Some(access)), marked) == marked;
  }

  /** A first 401 whose refresh fails: both slots are cleared, the page goes to
      `/login`, and the original error is rejected. */
  lemma RefreshFailureLogsOut(store: TokenStore, req: Request, server: Request -> Reply, refresh: string -> RefreshReply)
    requires Unauthorized(server(AttachToken(store, req))) && !req.retry
    requires Truthy(store.refresh) && refresh(store.refresh.value) == RefreshFailed
    ensures Call(store, req, server, refresh)
      == Exchange(Cleared, Rejected(server(AttachToken(store, req))), true, [store.refresh.value], [AttachToken(store, req)])
  {
  }

  /** A first 401 without a refresh token: the page goes to `/login` but the
      store is left as it was, and the original error is rejected. */
  lemma MissingRefreshTokenRedirects(store: TokenStore, req: Request, server: Request -> Reply, refresh: string -> RefreshReply)
    requires Unauthorized(server(AttachToken(store, req))) && !req.retry
    requires !Truthy(store.refresh)
    ensures Call(store, req, server, refresh)
      == Exchange(store, Rejected(server(AttachToken(store, req))), true, [], [AttachToken(store, req)])
  {
  }

  /** Facts that hold on every path: the refresh slot is either kept or
      cleared together with the access slot; a redirect always comes with the
      rejection of the first reply; a settled call without a replay settles
      with the first reply; and a refresh call is always made with the stored
      refresh token. */
  lemma {:induction false} CallInvariants(store: TokenStore, req: Request, server: Request -> Reply, refresh: string -> RefreshReply)
    ensures var x := Call(store, req, server, refresh);
      && (x.store.refresh == store.refresh || x.store == Cleared)
      && (x.redirectToLogin ==> x.outcome == Rejected(server(x.sent[0])) && |x.sent| == 1)
      && (|x.sent| == 1 ==> x.outcome == Settle(server(x.sent[0])) || x.redirectToLogin)
      && (|x.refreshCalls| == 1 ==> Truthy(store.refresh) && x.refreshCalls[0] == store.refresh.value)
  {
    var out := AttachToken(store, req);
    if Unauthorized(server(out)) && !req.retry && Truthy(store.refresh) {
      match refresh(store.refresh.value)
      case Refreshed(access) =>
        var marked := out.(authorization := Some(Bearer(access)), retry := true);
        assert AttachToken(store.(access := Some(access)), marked) == marked;
      case RefreshFailed =>
    }
  }

  /** The expired-token scenario: the server refuses the old token and accepts
      the new one. The caller sees exactly one refresh call and one replay,
      and receives the replay's 200. */
  lemma ExpiredTokenScenario()
    ensures var server := (r: Request) => if r.authorization == Some(Bearer("new")) then Answered(200, "ok") else Answered(401, "");
      var refresh := (t: string) => if t == "r" then Refreshed("new") else RefreshFailed;
      var x := Call(TokenStore(Some("old"), Some("r")), Request("GET", "stats/", None, false), server, refresh);
      && x.outcome == Resolved(Answered(200, "ok"))
      && |x.refreshCalls| == 1 && |x.sent| == 2
      && x.store == TokenStore(Some("new"), Some("r"))
      && !x.redirectToLogin
  {
    var server := (r: Request) => if r.authorization == Some(Bearer("new")) then Answered(200, "ok") else Answered(401, "");
    var refresh := (t: string) => if t == "r" then Refreshed("new") else RefreshFailed;
    var store := TokenStore(Some("old"), Some("r"));
    var req := Request("GET", "stats/", None, false);
    assert Bearer("old") != Bearer("new") by {
      assert Bearer("old")[7] != Bearer("new")[7];
    }
    assert server(AttachToken(store, req)) == Answered(401, "");
    RefreshAndReplay(store, req, server, refresh);
  }
}
