/** The dashboard screen: it loads the stored session, admits contractors
    only, renders the web app in a web view with the session injected, and
    reacts to the web view's events. Alerts, router calls and web-view calls
    are returned as `Reaction` values; `Answer` plays out an alert's button. */
module Dashboard {
  import opened Common
  import opened Text
  import opened Storage
  import opened Navigation
  import opened JsLiteral
  import opened ScriptEscape
  import RootLayout

  const LOGOUT_MESSAGE := "LOGOUT"
  const LOADING_MESSAGE := "Loading dashboard..."
  const PREPARING_MESSAGE := "Preparing dashboard..."
  const AUTH_REQUIRED := "Authentication required"
  const NOT_FOUND_PREFIX := "Page not found (404). " + "Please check if the dashboard URL is correct: "
  const HTTP_ERROR_PREFIX := "HTTP error "
  const HTTP_ERROR_SUFFIX := ". Please check your internet connection."
  const LOAD_ERROR_PREFIX := "Failed to load dashboard: "
  const UNKNOWN_ERROR := "Unknown error"
  const URL_LABEL := ". URL: "
  const TIMEOUT_MESSAGE := "Dashboard is taking too long to load. " + "Please check your internet connection and try again."

  const BLOCKED_CUSTOMER := "/dashboard/customer"
  const BLOCKED_ADMIN_DASHBOARD := "/dashboard/admin"
  const BLOCKED_ADMIN := "/admin"

  /** The alerts the screen raises. */
  datatype Prompt = AccessDenied | SessionExpired | ConfirmLogout | ConfirmExit

  /** What a handler asks of the router, the alert system or the web view. */
  datatype Reaction = Idle | Navigate(route: string) | Ask(prompt: Prompt) | WebViewBack | WebViewReload | ExitApp

  datatype LoadDecision = RedirectToLogin | DenyAccess | Show(token: string, user: User)

  /** What `loadAuthData` does with the token and profile it read. */
  function DecideLoad(token: Option<string>, user: Option<User>): (d: LoadDecision)
    ensures d.RedirectToLogin? <==> !Truthy(token) || user.None?
    ensures d.DenyAccess? <==> Truthy(token) && user.Some? && user.value.role != CONTRACTOR
    ensures d.Show? ==> token == Some(d.token) && user == Some(d.user) && d.token != "" && d.user.role == CONTRACTOR
  {
    if !Truthy(token) || user.None? then RedirectToLogin
    else if user.value.role != CONTRACTOR then DenyAccess
    else Show(token.value, user.value)
  }

  /** An empty stored token authenticates at the root guard, which sends the
      login screen on to the dashboard, but the dashboard treats it as
      missing and sends the user back to the login screen. */
  lemma EmptyTokenBounces(store: SessionStore)
    requires store.GetToken() == Some("")
    ensures store.IsAuthenticated()
    ensures RootLayout.RedirectFor(store.IsAuthenticated(), Some(RootLayout.LOGIN_SEGMENT)) == Some(RootLayout.DASHBOARD_ROUTE)
    ensures DecideLoad(store.GetToken(), store.GetUser()) == RedirectToLogin
  {
  }

  /** Every URL naming the admin dashboard names an admin route. */
  lemma AdminDashboardIsAdmin(s: string)
    ensures Contains(s, BLOCKED_ADMIN_DASHBOARD) ==> Contains(s, BLOCKED_ADMIN)
  {
    if Contains(s, BLOCKED_ADMIN_DASHBOARD) {
      assert BLOCKED_ADMIN_DASHBOARD == "/dashboard" + BLOCKED_ADMIN;
      ContainsSuffix(s, "/dashboard", BLOCKED_ADMIN);
    }
  }

  /** `onShouldStartLoadWithRequest`: only URLs of the web app's host, and
      among those none whose lower-cased text mentions the customer dashboard
      or an admin route. */
  function AllowRequest(parse: UrlParser, webUrl: string, url: string): (allow: bool)
    ensures allow <==>
      IsInternalUrl(parse, webUrl, url) &&
      !Contains(ToLower(url), BLOCKED_CUSTOMER) && !Contains(ToLower(url), BLOCKED_ADMIN)
  {
    var lower := ToLower(url);
    AdminDashboardIsAdmin(lower);
    if !ShouldHandleInWebView(parse, webUrl, url) then false
    else if Contains(lower, BLOCKED_CUSTOMER) || Contains(lower, BLOCKED_ADMIN_DASHBOARD) || Contains(lower, BLOCKED_ADMIN) then false
    else true
  }

  /** The error `onHttpError` shows for a status; None for 401, which starts
      the session-expiry flow instead. */
  function HttpErrorMessage(status: int, dashboardUrl: string): (m: Option<string>)
    ensures m.None? <==> status == 401
    ensures status == 404 ==> m == Some(NOT_FOUND_PREFIX + dashboardUrl)
    ensures status != 401 && status != 404 ==> m == Some(HTTP_ERROR_PREFIX + IntToDecimal(status) + HTTP_ERROR_SUFFIX)
  {
    if status == 401 then None
    else if status == 404 then Some(NOT_FOUND_PREFIX + dashboardUrl)
    else Some(HTTP_ERROR_PREFIX + IntToDecimal(status) + HTTP_ERROR_SUFFIX)
  }

  /** The generic message determines its status. */
  lemma {:induction false} GenericMessageInjective(a: int, b: int)
    requires HTTP_ERROR_PREFIX + IntToDecimal(a) + HTTP_ERROR_SUFFIX == HTTP_ERROR_PREFIX + IntToDecimal(b) + HTTP_ERROR_SUFFIX
    ensures a == b
  {
    var da, db := IntToDecimal(a), IntToDecimal(b);
    var ma, mb := HTTP_ERROR_PREFIX + da + HTTP_ERROR_SUFFIX, HTTP_ERROR_PREFIX + db + HTTP_ERROR_SUFFIX;
    var n := |HTTP_ERROR_PREFIX|;
    assert |da| == |db|;
    assert da == ma[n..n + |da|];
    assert db == mb[n..n + |db|];
    IntToDecimalInjective(a, b);
  }

  /** Different statuses give different messages. */
  lemma HttpErrorMessagesDistinct(a: int, b: int, dashboardUrl: string)
    requires a != b && a != 401 && b != 401
    ensures HttpErrorMessage(a, dashboardUrl) != HttpErrorMessage(b, dashboardUrl)
  {
    if a == 404 || b == 404 {
      var generic := if a == 404 then b else a;
      var m := HTTP_ERROR_PREFIX + IntToDecimal(generic) + HTTP_ERROR_SUFFIX;
      assert m[0] == 'H';
      assert (NOT_FOUND_PREFIX + dashboardUrl)[0] == 'P';
    } else if HttpErrorMessage(a, dashboardUrl) == HttpErrorMessage(b, dashboardUrl) {
      GenericMessageInjective(a, b);
    }
  }

  /** The error `onError` shows. */
  function LoadErrorMessage(description: Option<string>, dashboardUrl: string): (m: string)
    ensures LOAD_ERROR_PREFIX <= m
    ensures Truthy(description) ==> m == LOAD_ERROR_PREFIX + description.value + URL_LABEL + dashboardUrl
    ensures !Truthy(description) ==> m == LOAD_ERROR_PREFIX + UNKNOWN_ERROR + URL_LABEL + dashboardUrl
  {
    LOAD_ERROR_PREFIX + (if Truthy(description) then description.value else UNKNOWN_ERROR) + URL_LABEL + dashboardUrl
  }

  /** The message of the web view's own error overlay, `renderError`: the
      error domain is interpolated as it is, so an absent one reads
      `undefined` and an empty one stays empty. */
  function OverlayErrorMessage(errorDomain: Option<string>, dashboardUrl: string): (m: string)
    ensures LOAD_ERROR_PREFIX <= m
    ensures m[|LOAD_ERROR_PREFIX|..] == (if errorDomain.Some? then errorDomain.value else "undefined") + URL_LABEL + dashboardUrl
  {
    LOAD_ERROR_PREFIX + (if errorDomain.Some? then errorDomain.value else "undefined") + URL_LABEL + dashboardUrl
  }

  /** `onMessage`: only the literal `LOGOUT` does anything. */
  function MessageReaction(message: string): (r: Reaction)
    ensures r != Idle <==> message == LOGOUT_MESSAGE
    ensures message == LOGOUT_MESSAGE ==> r == Ask(ConfirmLogout)
  {
    if message == LOGOUT_MESSAGE then Ask(ConfirmLogout) else Idle
  }

  datatype BackResult = BackResult(handled: bool, reaction: Reaction)

  /** The hardware back handler: always handled; steps back in the web view
      when it can go back and is mounted, asks to exit otherwise. */
  function BackPress(canGoBack: bool, webViewMounted: bool): (r: BackResult)
    ensures r.handled
    ensures r.reaction == WebViewBack <==> canGoBack && webViewMounted
    ensures r.reaction != WebViewBack ==> r.reaction == Ask(ConfirmExit)
  {
    if canGoBack && webViewMounted then BackResult(true, WebViewBack)
    else BackResult(true, Ask(ConfirmExit))
  }

  /** The bodies of the single-quoted literals the injected script writes
      into the page's storage. */
  datatype Injection = Injection(tokenLiteral: string, userLiteral: string)

  datatype Screen =
    | LoadingScreen(message: string)
    | ErrorScreen(message: string, canRetry: bool)
    | WebViewScreen(url: string, injection: Injection, overlay: bool)

  /** What the screen renders, in priority order: loading, error, missing
      session, missing URL, and the web view with the escaped session. */
  function SelectScreen(loading: bool, error: Option<string>, token: Option<string>, user: Option<User>,
                        url: string, webViewLoading: bool, stringify: User -> string): (s: Screen)
    ensures loading ==> s == LoadingScreen(LOADING_MESSAGE)
    ensures !loading && Truthy(error) ==> s == ErrorScreen(error.value, true)
    ensures !loading && !Truthy(error) && (!Truthy(token) || user.None?) ==> s == ErrorScreen(AUTH_REQUIRED, false)
    ensures s == LoadingScreen(PREPARING_MESSAGE) <==>
      !loading && !Truthy(error) && Truthy(token) && user.Some? && url == ""
    ensures s.WebViewScreen? <==> !loading && !Truthy(error) && Truthy(token) && user.Some? && url != ""
    ensures s.WebViewScreen? ==>
      s.url == url && s.overlay == webViewLoading &&
      s.injection == Injection(Escape(token.value), Escape(stringify(user.value)))
  {
    if loading then LoadingScreen(LOADING_MESSAGE)
    else if Truthy(error) then ErrorScreen(error.value, true)
    else if !Truthy(token) || user.None? then ErrorScreen(AUTH_REQUIRED, false)
    else if url == "" then LoadingScreen(PREPARING_MESSAGE)
    else WebViewScreen(url, Injection(Escape(token.value), Escape(stringify(user.value))), webViewLoading)
  }

  /** In the rendered web view, each injected literal reads back in the page
      as exactly the token and the profile JSON, closed by the quote that
      follows it, when neither holds a raw line break. */
  lemma InjectionReadsBack(s: Screen, token: string, userJson: string, rest: string)
    requires s.WebViewScreen? && s.injection == Injection(Escape(token), Escape(userJson))
    requires forall i :: 0 <= i < |token| ==> !IsLineBreak(token[i])
    requires forall i :: 0 <= i < |userJson| ==> !IsLineBreak(userJson[i])
    ensures ReadSingleQuoted(s.injection.tokenLiteral + "'" + rest) == Some((token, rest))
    ensures ReadSingleQuoted(s.injection.userLiteral + "'" + rest) == Some((userJson, rest))
  {
    EscapeRoundTrip(token, rest);
    EscapeRoundTrip(userJson, rest);
  }

  /** An alert's button: the access-denied and session-expired alerts have
      only OK, which clears the session and returns to login; the logout
      alert does the same when confirmed; the exit alert exits when
      confirmed; a cancel does nothing. */
  method Answer(store: SessionStore, prompt: Prompt, accepted: bool) returns (reaction: Reaction)
    modifies store`secure, store`general
    ensures prompt.AccessDenied? || prompt.SessionExpired? || (prompt.ConfirmLogout? && accepted) ==>
      reaction == Navigate(RootLayout.LOGIN_ROUTE) && store.ClearedFrom(old(store.secure), old(store.general))
    ensures prompt.ConfirmExit? && accepted ==> reaction == ExitApp
    ensures (prompt.ConfirmLogout? || prompt.ConfirmExit?) && !accepted ==> reaction == Idle
    ensures prompt.ConfirmExit? || (prompt.ConfirmLogout? && !accepted) ==>
      store.secure == old(store.secure) && store.general == old(store.general)
  {
    if prompt.AccessDenied? || prompt.SessionExpired? || (prompt.ConfirmLogout? && accepted) {
      store.ClearAuth();
      reaction := Navigate(RootLayout.LOGIN_ROUTE);
    } else if prompt.ConfirmExit? && accepted {
      reaction := ExitApp;
    } else {
      reaction := Idle;
    }
  }

  class DashboardScreen {
    var token: Option<string>
    var user: Option<User>
    var loading: bool
    var error: Option<string>
    var canGoBack: bool
    var refreshing: bool
    var webViewLoading: bool
    var dashboardUrl: string
    const webUrl: string

    constructor (webUrl: string)
      ensures token == None && user == None && loading && error == None
      ensures !canGoBack && !refreshing && webViewLoading && dashboardUrl == ""
      ensures this.webUrl == webUrl
    {
      token, user, loading, error := None, None, true, None;
      canGoBack, refreshing, webViewLoading, dashboardUrl := false, false, true, "";
      this.webUrl := webUrl;
    }

    /** The screen the component renders for its current state. */
    function Render(stringify: User -> string): (s: Screen)
      reads this
      ensures loading ==> s == LoadingScreen(LOADING_MESSAGE)
      ensures !loading && Truthy(error) ==> s == ErrorScreen(error.value, true)
      ensures !loading && !Truthy(error) && (!Truthy(token) || user.None?) ==> s == ErrorScreen(AUTH_REQUIRED, false)
      ensures s == LoadingScreen(PREPARING_MESSAGE) <==>
        !loading && !Truthy(error) && Truthy(token) && user.Some? && dashboardUrl == ""
      ensures s.WebViewScreen? <==> !loading && !Truthy(error) && Truthy(token) && user.Some? && dashboardUrl != ""
      ensures s.WebViewScreen? ==>
        s.url == dashboardUrl && s.overlay == webViewLoading &&
        s.injection == Injection(Escape(token.value), Escape(stringify(user.value)))
    {
      SelectScreen(loading, error, token, user, dashboardUrl, webViewLoading, stringify)
    }

    /** `loadAuthData`: redirects when the session is incomplete, raises the
        access-denied alert for a non-contractor and then sets nothing, and
        otherwise sets token, profile and the dashboard URL and stops loading. */
    method LoadAuthData(store: SessionStore) returns (reaction: Reaction)
      modifies this
      ensures var d := DecideLoad(store.GetToken(), store.GetUser());
        && (d.RedirectToLogin? ==> reaction == Navigate(RootLayout.LOGIN_ROUTE) && unchanged(this))
        && (d.DenyAccess? ==> reaction == Ask(AccessDenied) && unchanged(this))
        && (d.Show? ==>
              reaction == Idle && token == Some(d.token) && user == Some(d.user) &&
              dashboardUrl == DefaultDashboardUrl(webUrl) && !loading &&
              error == old(error) && canGoBack == old(canGoBack) &&
              refreshing == old(refreshing) && webViewLoading == old(webViewLoading))
      ensures reaction == Idle && !Truthy(error) ==> Render(store.codec.stringify).WebViewScreen?
    {
      var authToken := store.GetToken();
      var userData := store.GetUser();
      var d := DecideLoad(authToken, userData);
      match d
      case RedirectToLogin =>
        reaction := Navigate(RootLayout.LOGIN_ROUTE);
      case DenyAccess =>
        reaction := Ask(AccessDenied);
      case Show(t, u) =>
        token := Some(t);
        user := Some(u);
        dashboardUrl := DefaultDashboardUrl(webUrl);
        loading := false;
        reaction := Idle;
    }

    /** `handleRetry`: clears the error, shows loading and loads again; when
        the load does not succeed the screen stays on "Loading dashboard...". */
    method HandleRetry(store: SessionStore) returns (reaction: Reaction)
      modifies this
      ensures error == None
      ensures canGoBack == old(canGoBack) && refreshing == old(refreshing) && webViewLoading == old(webViewLoading)
      ensures var d := DecideLoad(store.GetToken(), store.GetUser());
        && (d.Show? ==>
              reaction == Idle && !loading && token == Some(d.token) && user == Some(d.user) &&
              dashboardUrl == DefaultDashboardUrl(webUrl) && Render(store.codec.stringify).WebViewScreen?)
        && (!d.Show? ==>
              reaction == (if d.RedirectToLogin? then Navigate(RootLayout.LOGIN_ROUTE) else Ask(AccessDenied)) &&
              loading && token == old(token) && user == old(user) && dashboardUrl == old(dashboardUrl) &&
              Render(store.codec.stringify) == LoadingScreen(LOADING_MESSAGE))
    {
      error := None;
      loading := true;
      reaction := LoadAuthData(store);
    }

    /** `onHttpError`: stops the loading overlay; a 401 asks to end the session,
        other statuses set the matching error. */
    method OnHttpError(status: int) returns (reaction: Reaction)
      modifies this`webViewLoading, this`error
      ensures !webViewLoading
      ensures status == 401 ==> reaction == Ask(SessionExpired) && error == old(error)
      ensures status != 401 ==> reaction == Idle && error == HttpErrorMessage(status, dashboardUrl)
    {
      webViewLoading := false;
      var message := HttpErrorMessage(status, dashboardUrl);
      if message.None? {
        reaction := Ask(SessionExpired);
      } else {
        error := message;
        reaction := Idle;
      }
    }

    /** `onError`: stops the loading overlay and shows the load error. */
    method OnError(description: Option<string>)
      modifies this`webViewLoading, this`error
      ensures !webViewLoading && error == Some(LoadErrorMessage(description, dashboardUrl))
    {
      webViewLoading := false;
      error := Some(LoadErrorMessage(description, dashboardUrl));
    }

    /** The 30-second timer armed whenever `webViewLoading` changes: if the
        page is still loading when it fires, loading stops with an error. */
    method OnLoadingTimeout()
      modifies this`webViewLoading, this`error
      ensures old(webViewLoading) ==> !webViewLoading && error == Some(TIMEOUT_MESSAGE)
      ensures !old(webViewLoading) ==> !webViewLoading && error == old(error)
    {
      if webViewLoading {
        webViewLoading := false;
        error := Some(TIMEOUT_MESSAGE);
      }
    }

    method OnLoadStart()
      modifies this`webViewLoading
      ensures webViewLoading
    {
      webViewLoading := true;
    }

    method OnLoadEnd()
      modifies this`webViewLoading
      ensures !webViewLoading
    {
      webViewLoading := false;
    }

    method OnNavigationStateChange(navCanGoBack: bool)
      modifies this`canGoBack
      ensures canGoBack == navCanGoBack
    {
      canGoBack := navCanGoBack;
    }

    /** `handleRefresh`: marks refreshing and reloads the mounted web view. */
    method HandleRefresh(webViewMounted: bool) returns (reaction: Reaction)
      modifies this`refreshing
      ensures refreshing
      ensures reaction == if webViewMounted then WebViewReload else Idle
    {
      refreshing := true;
      reaction := if webViewMounted then WebViewReload else Idle;
    }

    /** The refresh indicator's timer firing. */
    method EndRefresh()
      modifies this`refreshing
      ensures !refreshing
    {
      refreshing := false;
    }

    /** The registered back handler, reading the current `canGoBack`. */
    function OnBackPress(webViewMounted: bool): (r: BackResult)
      reads this
      ensures r.handled
      ensures r.reaction == WebViewBack <==> canGoBack && webViewMounted
      ensures r.reaction != WebViewBack ==> r.reaction == Ask(ConfirmExit)
    {
      BackPress(canGoBack, webViewMounted)
    }
  }
}
