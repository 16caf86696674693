/** The application shell: which screen each route shows for the current
    session, the one-time identity fetch that decides whether a session is
    usable, and the order in which signing in and registering do their steps. */
module App {
  import opened Js
  import opened Types
  import opened Api

  const DashboardPath: string := "/dashboard"
  const LoginPath: string := "/login"
  const SetupPath: string := "/profile?setup=true"
  const LoginFallback: string := "Login failed. Please check your credentials."

  // ---------------------------------------------------------------------------
  // Route guard

  /** The route a location matches. Matching URL text to a pattern is the
      router's work; `UnknownRoute` is a location no pattern matches. */
  datatype Route =
    | LoginRoute | RegisterRoute | RootRoute
    | DashboardRoute | AssessmentRoute | HistoryRoute | HistoryDetailRoute(id: string) | ProfileRoute
    | UnknownRoute

  datatype Screen =
    | LoginScreen | RegisterScreen
    | DashboardScreen | AssessmentScreen | HistoryListScreen | HistoryDetailScreen(id: string) | ProfileScreen

  /** What the application shows. `Blank` is no match: nothing is rendered. */
  datatype View = Splash | Render(screen: Screen) | Redirect(to: string) | Blank

  /** The route whose element a screen is. */
  function RouteOf(s: Screen): Route
  {
    match s
    case LoginScreen => LoginRoute
    case RegisterScreen => RegisterRoute
    case DashboardScreen => DashboardRoute
    case AssessmentScreen => AssessmentRoute
    case HistoryListScreen => HistoryRoute
    case HistoryDetailScreen(id) => HistoryDetailRoute(id)
    case ProfileScreen => ProfileRoute
  }

  /** Routes reserved for visitors without a session. */
  predicate GuestOnly(r: Route) { r == LoginRoute || r == RegisterRoute }

  /** Routes that need a signed-in user. */
  predicate MembersOnly(r: Route)
  {
    r == DashboardRoute || r == AssessmentRoute || r == HistoryRoute || r.HistoryDetailRoute? || r == ProfileRoute
  }

  /** The element each route renders for a user who is (or is not) present. */
  function Guard(signedIn: bool, r: Route): (v: View)
    ensures GuestOnly(r) ==> (v.Render? <==> !signedIn) && (signedIn ==> v == Redirect(DashboardPath))
    ensures MembersOnly(r) ==> (v.Render? <==> signedIn) && (!signedIn ==> v == Redirect(LoginPath))
    ensures r == RootRoute ==> v == Redirect(if signedIn then DashboardPath else LoginPath)
    ensures r == UnknownRoute ==> v == Blank
    ensures v.Render? ==> RouteOf(v.screen) == r
  {
    match r
    case LoginRoute => if !signedIn then Render(LoginScreen) else Redirect(DashboardPath)
    case RegisterRoute => if !signedIn then Render(RegisterScreen) else Redirect(DashboardPath)
    case RootRoute => if signedIn then Redirect(DashboardPath) else Redirect(LoginPath)
    case DashboardRoute => if signedIn then Render(DashboardScreen) else Redirect(LoginPath)
    case AssessmentRoute => if signedIn then Render(AssessmentScreen) else Redirect(LoginPath)
    case HistoryRoute => if signedIn then Render(HistoryListScreen) else Redirect(LoginPath)
    case HistoryDetailRoute(id) => if signedIn then Render(HistoryDetailScreen(id)) else Redirect(LoginPath)
    case ProfileRoute => if signedIn then Render(ProfileScreen) else Redirect(LoginPath)
    case UnknownRoute => Blank
  }

  /** While the identity is being fetched nothing but the splash is shown. */
  function AppView(loading: bool, user: Option<User>, r: Route): (v: View)
    ensures v == Splash <==> loading
    ensures !loading ==> v == Guard(user.Some?, r)
  {
    if loading then Splash else Guard(user.Some?, r)
  }

  /** A redirect always lands on a route that renders, for the same user:
      no route redirects twice. */
  lemma RedirectsSettle(signedIn: bool, r: Route)
    requires Guard(signedIn, r).Redirect?
    ensures var target := if Guard(signedIn, r).to == DashboardPath then DashboardRoute else LoginRoute;
      Guard(signedIn, target).Render?
  {
  }

  /** A sidebar link is highlighted when the current path starts with its target. */
  predicate SidebarActive(pathname: string, to: string)
    ensures SidebarActive(pathname, to) <==> |to| <= |pathname| && forall i :: 0 <= i < |to| ==> pathname[i] == to[i]
  {
    StartsWith(pathname, to)
  }

  /** Highlighting is exactly "the path is the target followed by anything". */
  lemma SidebarActiveIffExtends(pathname: string, to: string)
    ensures SidebarActive(pathname, to) <==> exists rest :: pathname == to + rest
  {
    if SidebarActive(pathname, to) {
      assert pathname == to + pathname[|to|..];
    }
    if exists rest :: pathname == to + rest {
      var rest :| pathname == to + rest;
      assert pathname[..|to|] == to;
    }
  }

  /** A record's page keeps the History link highlighted, and no other main link. */
  lemma HistoryLinkOnDetailPage(id: string)
    ensures SidebarActive("/history/" + id, "/history")
    ensures !SidebarActive("/history/" + id, "/dashboard")
    ensures !SidebarActive("/history/" + id, "/assessment")
    ensures !SidebarActive("/history/" + id, "/profile")
  {
    var p := "/history/" + id;
    assert p[..8] == "/history";
    assert p[1] == 'h';
  }

  // ---------------------------------------------------------------------------
  // Session bootstrap

  /** The routes component's state: the user, whether the identity fetch is
      still running, and the service object it works through. */
  class AppRoutes {
    const api: ApiService
    var user: Option<User>
    var loading: bool

    /** The first render: no user yet, and loading until the identity is fetched. */
    constructor (api: ApiService)
      ensures this.api == api && user == None && loading
    {
      this.api := api;
      user := None;
      loading := true;
    }

    /** `fetchUser`: with a token, fetch the identity; any failure of that
        fetch (a 401 included) clears the token and leaves no user. */
    method FetchUser(reply: Exchange)
      modifies this, api, api.browser
      ensures !loading
      ensures old(api.Valid()) ==> api.Valid()
      ensures !old(api.IsAuthenticated()) ==>
        user == old(user) && api.State() == old(api.State()) && api.browser.requests == old(api.browser.requests)
      ensures old(api.IsAuthenticated()) && Settle(reply).Returned? ==>
        user == UserOf(Settle(reply).value) && api.State() == AfterReply(reply, old(api.State()))
      ensures old(api.IsAuthenticated()) && Settle(reply).Thrown? ==>
        user == None && api.token == None && TokenKey !in api.browser.storage &&
        api.State() == LoggedOut(AfterReply(reply, old(api.State())))
      ensures old(api.IsAuthenticated()) ==>
        |api.browser.requests| == |old(api.browser.requests)| + 1 &&
        api.browser.requests[..|old(api.browser.requests)|] == old(api.browser.requests) &&
        Last(api.browser.requests).path == "/users/me" &&
        "Authorization" in Last(api.browser.requests).headers &&
        Last(api.browser.requests).headers["Authorization"] == "Bearer " + old(api.token).value
    {
      loading := true;
      if api.IsAuthenticated() {
        var o := api.GetMe(reply);
        match o {
          case Returned(data) =>
            user := UserOf(data);
          case Thrown(_) =>
            api.Logout();
            user := None;
        }
      }
      loading := false;
    }

    /** `handleLoginSuccess`: the identity is fetched first, then a new user
        goes to profile setup and a returning one to the dashboard. */
    method LoginSuccess(isNewUser: bool, reply: Exchange)
      modifies this, api, api.browser
      ensures !loading
      ensures old(api.Valid()) ==> api.Valid()
      ensures api.browser.hash == "#" + (if isNewUser then SetupPath else DashboardPath)
      ensures !old(api.IsAuthenticated()) ==>
        user == old(user) && api.token == old(api.token) && api.browser.storage == old(api.browser.storage) &&
        api.browser.requests == old(api.browser.requests)
      ensures old(api.IsAuthenticated()) && Settle(reply).Returned? ==>
        user == UserOf(Settle(reply).value) && api.token == old(api.token)
      ensures old(api.IsAuthenticated()) && Settle(reply).Thrown? ==> user == None && api.token == None
      ensures old(api.IsAuthenticated()) ==>
        |api.browser.requests| == |old(api.browser.requests)| + 1 &&
        api.browser.requests[..|old(api.browser.requests)|] == old(api.browser.requests) &&
        Last(api.browser.requests).path == "/users/me" &&
        "Authorization" in Last(api.browser.requests).headers &&
        Last(api.browser.requests).headers["Authorization"] == "Bearer " + old(api.token).value
    {
      FetchUser(reply);
      api.browser.Navigate(if isNewUser then SetupPath else DashboardPath);
    }

    /** The steps both forms take with the credentials: `api.login`, then
        `api.setToken(res.access_token)`, then `onLoginSuccess`. Returns the
        failure of the first two, which skips the rest. */
    method SignIn(email: string, password: string, isNewUser: bool, tokenReply: Exchange, meReply: Exchange)
      returns (failure: Option<Failure>)
      modifies this, api, api.browser
      ensures old(api.Valid()) ==> api.Valid()
      ensures |api.browser.requests| > |old(api.browser.requests)|
      ensures api.browser.requests[..|old(api.browser.requests)|] == old(api.browser.requests)
      ensures api.browser.requests[|old(api.browser.requests)|] == TokenRequest(email, password)
      ensures Settle(tokenReply).Thrown? ==>
        failure == Some(Settle(tokenReply).failure) &&
        api.browser.requests == old(api.browser.requests) + [TokenRequest(email, password)] &&
        api.State() == AfterReply(tokenReply, old(api.State())) && user == old(user)
      ensures Settle(tokenReply).Returned? && Settle(tokenReply).value == JNull ==>
        failure == Some(Engine(NullPropertyRead)) &&
        api.browser.requests == old(api.browser.requests) + [TokenRequest(email, password)] &&
        api.State() == old(api.State()) && user == old(user)
      ensures Settle(tokenReply).Returned? && Settle(tokenReply).value != JNull ==>
        var token := AccessTokenOf(Settle(tokenReply).value);
        failure == None && api.browser.hash == "#" + (if isNewUser then SetupPath else DashboardPath) && !loading &&
        (token == "" ==>
          api.token == Some("") && api.browser.storage == old(api.browser.storage)[TokenKey := ""] &&
          api.browser.requests == old(api.browser.requests) + [TokenRequest(email, password)] && user == old(user)) &&
        (token != "" ==>
          |api.browser.requests| == |old(api.browser.requests)| + 2 &&
          Last(api.browser.requests).path == "/users/me" &&
          "Authorization" in Last(api.browser.requests).headers &&
          Last(api.browser.requests).headers["Authorization"] == "Bearer " + token &&
          (Settle(meReply).Returned? ==> user == UserOf(Settle(meReply).value) && api.token == Some(token)) &&
          (Settle(meReply).Thrown? ==> user == None && api.token == None))
    {
      var res := api.Login(email, password, tokenReply);
      match res {
        case Returned(data) =>
          match AccessTokenRead(data) {
            case Ok(t) =>
              api.SetToken(t);
              LoginSuccess(isNewUser, meReply);
              failure := None;
            case Err(f) =>
              failure := Some(f);
          }
        case Thrown(f) =>
          failure := Some(f);
      }
    }
  }

  // ---------------------------------------------------------------------------
  // Sign-in and registration forms

  /** The text a failed sign-in shows: the error's message, or a fixed one when that is empty. */
  function LoginErrorText(f: Failure): (t: string)
    ensures t != ""
    ensures MessageOf(f) != "" ==> t == MessageOf(f)
  {
    if MessageOf(f) != "" then MessageOf(f) else LoginFallback
  }

  /** Wrong credentials: the token endpoint answers 401, which the service
      object treats like any expired session, so the form shows "Session
      expired" and not the credentials message. */
  lemma RejectedLoginReadsAsExpired(r: Response)
    requires r.status == 401
    ensures LoginErrorText(Settle(Received(r)).failure) == SessionExpired
  {
  }

  /** An error page that is neither JSON nor long, such as an empty 500,
      throws an empty message: the sign-in form shows its fixed text, while
      the registration form, which has no fallback, shows no message at all. */
  lemma EmptyErrorBody(r: Response)
    requires r.status != 401 && !IsOk(r.status) && !IsJsonType(r.contentType) && r.text == ""
    ensures MessageOf(Settle(Received(r)).failure) == ""
    ensures LoginErrorText(Settle(Received(r)).failure) == LoginFallback
  {
    assert Normalise(r) == Thrown(Raised(TextFailure(r.status, r.text)));
  }

  /** `res.access_token` on a token body: a JSON `null` body has no
      properties, so the read throws before any token is stored. */
  function AccessTokenRead(data: Json): (r: Result<string>)
    ensures r.Err? <==> data == JNull
    ensures r.Err? ==> r.failure == Engine(NullPropertyRead)
    ensures r.Ok? ==> r.value == AccessTokenOf(data)
  {
    if data == JNull then Err(Engine(NullPropertyRead)) else Ok(AccessTokenOf(data))
  }

  class LoginPage {
    const app: AppRoutes
    var email: string
    var password: string
    var loading: bool
    var error: string

    constructor (app: AppRoutes)
      ensures this.app == app && email == "" && password == "" && !loading && error == ""
    {
      this.app := app;
      email, password := "", "";
      loading, error := false, "";
    }

    /** Sign in: exchange the credentials, store the token, then hand over to
        `LoginSuccess`; a failed exchange skips both and shows its message. */
    method Submit(tokenReply: Exchange, meReply: Exchange)
      modifies this, app, app.api, app.api.browser
      ensures old(app.api.Valid()) ==> app.api.Valid()
      ensures !loading && email == old(email) && password == old(password)
      ensures |app.api.browser.requests| > |old(app.api.browser.requests)|
      ensures app.api.browser.requests[|old(app.api.browser.requests)|] == TokenRequest(old(email), old(password))
      ensures Settle(tokenReply).Thrown? ==>
        error == LoginErrorText(Settle(tokenReply).failure) &&
        app.api.browser.requests == old(app.api.browser.requests) + [TokenRequest(old(email), old(password))] &&
        app.api.State() == AfterReply(tokenReply, old(app.api.State())) && app.user == old(app.user)
      ensures Settle(tokenReply).Returned? && Settle(tokenReply).value == JNull ==>
        error == LoginErrorText(Engine(NullPropertyRead)) &&
        app.api.browser.requests == old(app.api.browser.requests) + [TokenRequest(old(email), old(password))] &&
        app.api.State() == old(app.api.State()) && app.user == old(app.user)
      ensures Settle(tokenReply).Returned? && Settle(tokenReply).value != JNull ==>
        var token := AccessTokenOf(Settle(tokenReply).value);
        error == "" && app.api.browser.hash == "#" + DashboardPath && !app.loading &&
        (token == "" ==>
          app.api.token == Some("") && app.api.browser.storage == old(app.api.browser.storage)[TokenKey := ""] &&
          app.api.browser.requests == old(app.api.browser.requests) + [TokenRequest(old(email), old(password))] &&
          app.user == old(app.user)) &&
        (token != "" ==>
          |app.api.browser.requests| == |old(app.api.browser.requests)| + 2 &&
          Last(app.api.browser.requests).path == "/users/me" &&
          "Authorization" in Last(app.api.browser.requests).headers &&
          Last(app.api.browser.requests).headers["Authorization"] == "Bearer " + token &&
          (Settle(meReply).Returned? ==> app.user == UserOf(Settle(meReply).value) && app.api.token == Some(token)) &&
          (Settle(meReply).Thrown? ==> app.user == None && app.api.token == None))
    {
      loading := true;
      error := "";
      var failure := app.SignIn(email, password, false, tokenReply, meReply);
      if failure.Some? {
        error := LoginErrorText(failure.value);
      }
      loading := false;
    }
  }

  class RegisterPage {
    const app: AppRoutes
    var email: string
    var password: string
    var fullName: string
    var loading: bool
    var error: string

    constructor (app: AppRoutes)
      ensures this.app == app && email == "" && password == "" && fullName == "" && !loading && error == ""
    {
      this.app := app;
      email, password, fullName := "", "", "";
      loading, error := false, "";
    }

    /** Register, then sign in with the same email and password, store the
        token and hand over to `LoginSuccess` as a new user; the first failing
        step skips the rest and its message is shown as it stands. */
    method Submit(registerReply: Exchange, tokenReply: Exchange, meReply: Exchange)
      modifies this, app, app.api, app.api.browser
      ensures old(app.api.Valid()) ==> app.api.Valid()
      ensures !loading && email == old(email) && password == old(password) && fullName == old(fullName)
      ensures |app.api.browser.requests| > |old(app.api.browser.requests)|
      ensures app.api.browser.requests[|old(app.api.browser.requests)|] == RegisterRequest(old(email), old(password), old(fullName))
      ensures Settle(registerReply).Thrown? ==>
        error == MessageOf(Settle(registerReply).failure) &&
        app.api.browser.requests == old(app.api.browser.requests) + [RegisterRequest(old(email), old(password), old(fullName))] &&
        app.api.State() == AfterReply(registerReply, old(app.api.State())) && app.user == old(app.user)
      ensures Settle(registerReply).Returned? ==>
        |app.api.browser.requests| > |old(app.api.browser.requests)| + 1 &&
        app.api.browser.requests[|old(app.api.browser.requests)| + 1] == TokenRequest(old(email), old(password))
      ensures Settle(registerReply).Returned? && Settle(tokenReply).Thrown? ==>
        error == MessageOf(Settle(tokenReply).failure) &&
        |app.api.browser.requests| == |old(app.api.browser.requests)| + 2 &&
        app.api.State() == AfterReply(tokenReply, old(app.api.State())) && app.user == old(app.user)
      ensures Settle(registerReply).Returned? && Settle(tokenReply).Returned? && Settle(tokenReply).value == JNull ==>
        error == MessageOf(Engine(NullPropertyRead)) &&
        |app.api.browser.requests| == |old(app.api.browser.requests)| + 2 &&
        app.api.State() == old(app.api.State()) && app.user == old(app.user)
      ensures Settle(registerReply).Returned? && Settle(tokenReply).Returned? && Settle(tokenReply).value != JNull ==>
        var token := AccessTokenOf(Settle(tokenReply).value);
        error == old(error) && app.api.browser.hash == "#" + SetupPath && !app.loading &&
        (token == "" ==>
          app.api.token == Some("") && app.api.browser.storage == old(app.api.browser.storage)[TokenKey := ""] &&
          app.api.browser.requests == old(app.api.browser.requests) +
            [RegisterRequest(old(email), old(password), old(fullName)), TokenRequest(old(email), old(password))] &&
          app.user == old(app.user)) &&
        (token != "" ==>
          |app.api.browser.requests| == |old(app.api.browser.requests)| + 3 &&
          "Authorization" in Last(app.api.browser.requests).headers &&
          Last(app.api.browser.requests).headers["Authorization"] == "Bearer " + token &&
          (Settle(meReply).Returned? ==> app.user == UserOf(Settle(meReply).value) && app.api.token == Some(token)) &&
          (Settle(meReply).Thrown? ==> app.user == None && app.api.token == None))
    {
      loading := true;
      var created := app.api.Register(email, password, fullName, registerReply);
      if created.Thrown? {
        error := MessageOf(created.failure);
      } else {
        var failure := app.SignIn(email, password, true, tokenReply, meReply);
        if failure.Some? {
          error := MessageOf(failure.value);
        }
      }
      loading := false;
    }
  }
}
