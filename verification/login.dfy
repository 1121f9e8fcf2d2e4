/** The login form's submit handler. It posts the credentials to the token
    endpoint through the authenticated client, stores both issued tokens,
    notifies the application and moves to the dashboard; on failure it shows
    one of two messages. The handler is modelled as the sequence of effects it
    performs, and a page view as the fold of those effects, so that the order
    of the effects (what was stored when `onLogin` ran, what was shown while
    the request was in flight) can be stated. */
module LoginForm {
  import opened Wrappers
  import opened ApiSession

  const LoginPath: string := "/auth/jwt/create/"
  const DashboardPath: string := "/dashboard"

  /** The request body: exactly the e-mail and the password. */
  datatype Credentials = Credentials(email: string, password: string)

  /** The login request as the handler gives it to the client: no header of
      its own and not yet marked `_retry`. The request interceptor adds any
      access token still stored, and a 401 answer goes through the response
      interceptor like the answer to any other request. */
  const LoginRequest: Request := Request("POST", LoginPath, None, false)

  /** Where the response interceptor sends the page. */
  const LoginRoute: string := "/login"

  /** The `access` and `refresh` fields read from a successful answer's body. */
  datatype IssuedTokens = IssuedTokens(access: string, refresh: string)

  /** `err.response?.status`: the status of an answer, none when no answer
      arrived. */
  function StatusOf(r: Reply): (s: Option<int>)
    ensures s.Some? <==> r.Answered?
    ensures s.Some? ==> s.value == r.status
  {
    if r.Answered? then Some(r.status) else None
  }

  datatype LoginError = WrongCredentials | ConnectionFailure {
    function Text(): string {
      match this
      case WrongCredentials => "Неверный email или пароль"
      case ConnectionFailure => "Ошибка соединения с сервером"
    }
  }

  /** Only an HTTP 400 means wrong credentials; every other failure, a missing
      answer included, is reported as a connection failure. */
  function Classify(status: Option<int>): (e: LoginError)
    ensures e == WrongCredentials <==> status == Some(400)
  {
    if status == Some(400) then WrongCredentials else ConnectionFailure
  }

  /** The effects the handler can perform, those of the client's
      interceptors during the request included. */
  datatype Effect =
    | SetLoading(on: bool)
    | SetError(message: string)
    | Post(path: string, body: Credentials)
    | SetStore(store: TokenStore)
    | StoreAccess(token: string)
    | StoreRefresh(token: string)
    | CallOnLogin
    | NavigateTo(path: string)

  /** What the page and its surroundings hold: the form's `loading` and
      `error` state, the credential store, the requests posted, what the form
      showed at the moment each request left, the store as `onLogin` saw it on
      each call, and the current route. */
  datatype View = View(
    loading: bool,
    error: string,
    store: TokenStore,
    requests: seq<(string, Credentials)>,
    shownAtPost: seq<(bool, string)>,
    loginNotices: seq<TokenStore>,
    location: Option<string>)

  function Step(v: View, e: Effect): View {
    match e
    case SetLoading(on) => v.(loading := on)
    case SetError(message) => v.(error := message)
    case Post(path, body) =>
      v.(requests := v.requests + [(path, body)], shownAtPost := v.shownAtPost + [(v.loading, v.error)])
    case SetStore(store) => v.(store := store)
    case StoreAccess(token) => v.(store := v.store.(access := Some(token)))
    case StoreRefresh(token) => v.(store := v.store.(refresh := Some(token)))
    case CallOnLogin => v.(loginNotices := v.loginNotices + [v.store])
    case NavigateTo(path) => v.(location := Some(path))
  }

  function Run(v: View, effects: seq<Effect>): View
    decreases |effects|
  {
    if effects == [] then v else Run(Step(v, effects[0]), effects[1..])
  }

  lemma {:induction false} RunAppend(v: View, a: seq<Effect>, b: seq<Effect>)
    ensures Run(v, a + b) == Run(Run(v, a), b)
    decreases |a|
  {
    if a == [] {
      assert a + b == b;
    } else {
      assert (a + b)[1..] == a[1..] + b;
      RunAppend(Step(v, a[0]), a[1..], b);
    }
  }

  lemma RunSingle(v: View, e: Effect)
    ensures Run(v, [e]) == Step(v, e)
  {
    assert [e][1..] == [];
  }

  /** `n` copies of `t`. */
  function Repeat<T>(t: T, n: nat): (r: seq<T>)
    ensures |r| == n && forall i :: 0 <= i < n ==> r[i] == t
  {
    seq(n, _ => t)
  }

  /** What the client does while the handler awaits it, read off one call
      through both interceptors: the post, the store as the response
      interceptor leaves it (set before a replay is posted), and the redirect
      to the login page. */
  function Transport(x: Exchange, body: Credentials): seq<Effect> {
    [Post(LoginPath, body)]
      + (if |x.sent| == 2 then [SetStore(x.store), Post(LoginPath, body)] else [SetStore(x.store)])
      + (if x.redirectToLogin then [NavigateTo(LoginRoute)] else [])
  }

  /** What the handler does once the client's promise settled. */
  function Settled(outcome: Outcome, decode: Reply -> IssuedTokens, hasOnLogin: bool): seq<Effect> {
    match outcome
    case Resolved(response) =>
      var t := decode(response);
      [StoreAccess(t.access), StoreRefresh(t.refresh)] + (if hasOnLogin then [CallOnLogin] else []) + [NavigateTo(DashboardPath)]
    case Rejected(error) => [SetError(Classify(StatusOf(error)).Text())]
  }

  /** The call the handler awaits: the login request through the client, from
      the store as it is when the form is submitted. */
  function Attempt(store: TokenStore, server: Request -> Reply, refresh: string -> RefreshReply): Exchange {
    Call(store, LoginRequest, server, refresh)
  }

  /** `handleSubmit`: loading on and the error cleared, the request through
      the client, the settled branch, and loading off in the `finally` block.
      The server, the refresh endpoint and the reading of the answer's body
      are parameters. */
  function HandleSubmit(store: TokenStore, email: string, password: string, hasOnLogin: bool,
                        server: Request -> Reply, refresh: string -> RefreshReply, decode: Reply -> IssuedTokens): (effects: seq<Effect>)
    ensures |effects| >= 6
    ensures effects[0] == SetLoading(true) && effects[1] == SetError("")
    ensures effects[2] == Post(LoginPath, Credentials(email, password))
    ensures effects[|effects| - 1] == SetLoading(false)
  {
    var x := Attempt(store, server, refresh);
    [SetLoading(true), SetError("")] + Transport(x, Credentials(email, password))
      + Settled(x.outcome, decode, hasOnLogin) + [SetLoading(false)]
  }

  /** The client's part: every request it sends is the login post and leaves
      while the form shows what it showed before; afterwards the store is the
      one the interceptor left and the page is on `/login` iff it redirected. */
  lemma {:induction false} TransportEffect(v: View, x: Exchange, body: Credentials)
    requires 1 <= |x.sent| <= 2
    ensures var w := Run(v, Transport(x, body));
      && w.loading == v.loading && w.error == v.error
      && w.store == x.store
      && w.requests == v.requests + Repeat((LoginPath, body), |x.sent|)
      && w.shownAtPost == v.shownAtPost + Repeat((v.loading, v.error), |x.sent|)
      && w.loginNotices == v.loginNotices
      && w.location == (if x.redirectToLogin then Some(LoginRoute) else v.location)
  {
    var post := [Post(LoginPath, body)];
    var mid := if |x.sent| == 2 then [SetStore(x.store), Post(LoginPath, body)] else [SetStore(x.store)];
    var tail := if x.redirectToLogin then [NavigateTo(LoginRoute)] else [];
    RunAppend(v, post + mid, tail);
    RunAppend(v, post, mid);
    RunSingle(v, Post(LoginPath, body));
    var v1 := Step(v, Post(LoginPath, body));
    if |x.sent| == 2 {
      assert mid == [SetStore(x.store)] + [Post(LoginPath, body)];
      RunAppend(v1, [SetStore(x.store)], [Post(LoginPath, body)]);
      RunSingle(v1, SetStore(x.store));
      RunSingle(Step(v1, SetStore(x.store)), Post(LoginPath, body));
      assert Repeat((LoginPath, body), 2) == [(LoginPath, body)] + [(LoginPath, body)];
      assert Repeat((v.loading, v.error), 2) == [(v.loading, v.error)] + [(v.loading, v.error)];
    } else {
      RunSingle(v1, SetStore(x.store));
      assert Repeat((LoginPath, body), 1) == [(LoginPath, body)];
      assert Repeat((v.loading, v.error), 1) == [(v.loading, v.error)];
    }
    if x.redirectToLogin {
      RunSingle(Run(v, post + mid), NavigateTo(LoginRoute));
    }
  }

  lemma {:induction false} SettledEffect(v: View, outcome: Outcome, decode: Reply -> IssuedTokens, hasOnLogin: bool)
    ensures var w := Run(v, Settled(outcome, decode, hasOnLogin));
      && w.loading == v.loading
      && w.requests == v.requests && w.shownAtPost == v.shownAtPost
      && (outcome.Resolved? ==>
            && w.store == TokenStore(Some(decode(outcome.response).access), Some(decode(outcome.response).refresh))
            && w.error == v.error
            && w.location == Some(DashboardPath)
            && w.loginNotices == v.loginNotices + (if hasOnLogin then [w.store] else []))
      && (outcome.Rejected? ==>
            && w.store == v.store
            && w.error == Classify(StatusOf(outcome.error)).Text()
            && w.location == v.location
            && w.loginNotices == v.loginNotices)
  {
    match outcome
    case Resolved(response) =>
      var access := decode(response).access;
      var refresh := decode(response).refresh;
      var stored := [StoreAccess(access), StoreRefresh(refresh)];
      var notice: seq<Effect> := if hasOnLogin then [CallOnLogin] else [];
      RunAppend(v, stored + notice, [NavigateTo(DashboardPath)]);
      RunAppend(v, stored, notice);
      RunAppend(v, [StoreAccess(access)], [StoreRefresh(refresh)]);
      assert stored == [StoreAccess(access)] + [StoreRefresh(refresh)];
      RunSingle(v, StoreAccess(access));
      var u := Step(v, StoreAccess(access));
      RunSingle(u, StoreRefresh(refresh));
      var s := Step(u, StoreRefresh(refresh));
      if hasOnLogin {
        RunSingle(s, CallOnLogin);
      }
      RunSingle(Run(s, notice), NavigateTo(DashboardPath));
    case Rejected(error) =>
      RunSingle(v, SetError(Classify(StatusOf(error)).Text()));
  }

  /** The whole handler, from any page state. Each request the client sends
      (one, or two when it replays after a refresh) carries the credentials
      and leaves while the form shows loading and no error; loading is off at
      the end on every path. On success both issued tokens are stored before
      `onLogin` runs, no error is shown, and the route is the dashboard. On
      failure the classified message is shown, the store is whatever the
      response interceptor left, and the route is `/login` iff the
      interceptor redirected. */
  lemma {:induction false} SubmitOutcome(v: View, email: string, password: string, hasOnLogin: bool,
                                         server: Request -> Reply, refresh: string -> RefreshReply, decode: Reply -> IssuedTokens)
    ensures var x := Attempt(v.store, server, refresh);
      var w := Run(v, HandleSubmit(v.store, email, password, hasOnLogin, server, refresh, decode));
      && !w.loading
      && w.requests == v.requests + Repeat((LoginPath, Credentials(email, password)), |x.sent|)
      && w.shownAtPost == v.shownAtPost + Repeat((true, ""), |x.sent|)
      && (x.outcome.Resolved? ==>
            && w.store == TokenStore(Some(decode(x.outcome.response).access), Some(decode(x.outcome.response).refresh))
            && w.error == ""
            && w.location == Some(DashboardPath)
            && w.loginNotices == v.loginNotices + (if hasOnLogin then [w.store] else []))
      && (x.outcome.Rejected? ==>
            && w.store == x.store
            && w.error == Classify(StatusOf(x.outcome.error)).Text()
            && w.location == (if x.redirectToLogin then Some(LoginRoute) else v.location)
            && w.loginNotices == v.loginNotices)
  {
    var x := Attempt(v.store, server, refresh);
    var body := Credentials(email, password);
    var start := [SetLoading(true), SetError("")];
    var transport := Transport(x, body);
    var settled := Settled(x.outcome, decode, hasOnLogin);
    RunAppend(v, start + transport + settled, [SetLoading(false)]);
    RunAppend(v, start + transport, settled);
    RunAppend(v, start, transport);
    assert start == [SetLoading(true)] + [SetError("")];
    RunAppend(v, [SetLoading(true)], [SetError("")]);
    RunSingle(v, SetLoading(true));
    var v1 := Step(v, SetLoading(true));
    RunSingle(v1, SetError(""));
    var v2 := Step(v1, SetError(""));
    TransportEffect(v2, x, body);
    var v3 := Run(v2, transport);
    SettledEffect(v3, x.outcome, decode, hasOnLogin);
    RunSingle(Run(v3, settled), SetLoading(false));
  }

  /** A login whose first answer is a failure. An answer other than 401
      leaves the store and the route alone. A 401 (the token endpoint's answer
      to some refusals) goes through the refresh logic. Without a stored
      refresh token, the page is sent to `/login`, the store is kept and the
      connection message is shown. With one that the endpoint refuses, both
      tokens are cleared, the page is sent to `/login` and the connection
      message is shown. With one it accepts, the login is posted a second
      time with the new token, nothing redirects, and the replay's answer
      decides the outcome: a success logs the user in and goes to the
      dashboard, a failure shows the message classified from its status. */
  lemma FailedLoginEffects(v: View, email: string, password: string, hasOnLogin: bool,
                           server: Request -> Reply, refresh: string -> RefreshReply, decode: Reply -> IssuedTokens)
    requires !Succeeded(server(AttachToken(v.store, LoginRequest)))
    ensures var first := server(AttachToken(v.store, LoginRequest));
      var w := Run(v, HandleSubmit(v.store, email, password, hasOnLogin, server, refresh, decode));
      && (!Unauthorized(first) ==>
            w.store == v.store && w.location == v.location && w.error == Classify(StatusOf(first)).Text())
      && (Unauthorized(first) && !Truthy(v.store.refresh) ==>
            w.store == v.store && w.location == Some(LoginRoute) && w.error == ConnectionFailure.Text())
      && (Unauthorized(first) && Truthy(v.store.refresh) && refresh(v.store.refresh.value) == RefreshFailed ==>
            w.store == Cleared && w.location == Some(LoginRoute) && w.error == ConnectionFailure.Text())
      && (Unauthorized(first) && Truthy(v.store.refresh) && refresh(v.store.refresh.value).Refreshed? ==>
            var access := refresh(v.store.refresh.value).access;
            var replay := server(AttachToken(v.store, LoginRequest).(authorization := Some(Bearer(access)), retry := true));
            && |w.requests| == |v.requests| + 2
            && (Succeeded(replay) ==> w.error == "" && w.location == Some(DashboardPath))
            && (!Succeeded(replay) ==>
                  && w.error == Classify(StatusOf(replay)).Text()
                  && w.location == v.location
                  && w.store == TokenStore(Some(access), v.store.refresh)))
  {
    var first := server(AttachToken(v.store, LoginRequest));
    SubmitOutcome(v, email, password, hasOnLogin, server, refresh, decode);
    if !Unauthorized(first) {
      PassThrough(v.store, LoginRequest, server, refresh);
    } else if !Truthy(v.store.refresh) {
      MissingRefreshTokenRedirects(v.store, LoginRequest, server, refresh);
    } else if refresh(v.store.refresh.value) == RefreshFailed {
      RefreshFailureLogsOut(v.store, LoginRequest, server, refresh);
    } else {
      RefreshAndReplay(v.store, LoginRequest, server, refresh);
    }
  }

  /** The two messages differ, and a 401 (which the token endpoint may answer
      for unknown credentials) is reported as a connection failure. */
  lemma MessagesDistinct()
    ensures WrongCredentials.Text() != ConnectionFailure.Text()
    ensures Classify(Some(401)) == ConnectionFailure && Classify(None) == ConnectionFailure
  {
    assert WrongCredentials.Text()[0] != ConnectionFailure.Text()[0];
  }
}
