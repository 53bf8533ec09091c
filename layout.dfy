/** The root router's guard, evaluated on every change of the navigation
    segments: unauthenticated users are sent to the login screen (`/`,
    segment `index`), authenticated users on the login screen are sent to
    `/dashboard`. */
module RootLayout {
  import opened Common
  import opened Storage

  const LOGIN_SEGMENT := "index"
  const DASHBOARD_SEGMENT := "dashboard"
  const LOGIN_ROUTE := "/"
  const DASHBOARD_ROUTE := "/dashboard"

  /** `segments[0]`, undefined for the empty list. */
  function FirstSegment(segments: seq<string>): Option<string>
  {
    if segments == [] then None else Some(segments[0])
  }

  /** The redirect target, if any, for an authentication status and a first segment. */
  function RedirectFor(isAuth: bool, first: Option<string>): (r: Option<string>)
    ensures r == Some(LOGIN_ROUTE) <==> !isAuth && first != Some(LOGIN_SEGMENT)
    ensures r == Some(DASHBOARD_ROUTE) <==> isAuth && first == Some(LOGIN_SEGMENT)
    ensures r.None? <==> (isAuth <==> first != Some(LOGIN_SEGMENT))
  {
    var inAuthGroup := first == Some(LOGIN_SEGMENT);
    if !isAuth && !inAuthGroup then Some(LOGIN_ROUTE)
    else if isAuth && inAuthGroup then Some(DASHBOARD_ROUTE)
    else None
  }

  /** `checkAuthAndRedirect`: the decision reads only whether a token is stored. */
  method CheckAuthAndRedirect(store: SessionStore, segments: seq<string>) returns (target: Option<string>)
    ensures target == RedirectFor(store.GetToken().Some?, FirstSegment(segments))
    ensures target == Some(DASHBOARD_ROUTE) ==> store.GetToken().Some?
    ensures target == Some(LOGIN_ROUTE) ==> store.GetToken().None?
  {
    var isAuth := store.IsAuthenticated();
    target := RedirectFor(isAuth, FirstSegment(segments));
  }

  /** The first segment of the screen a route leads to. */
  function SegmentOf(route: string): Option<string>
  {
    if route == LOGIN_ROUTE then Some(LOGIN_SEGMENT)
    else if route == DASHBOARD_ROUTE then Some(DASHBOARD_SEGMENT)
    else None
  }

  /** A redirect lands where the guard, evaluated again with the same
      authentication status, does not redirect. */
  lemma RedirectSettles(isAuth: bool, first: Option<string>)
    requires RedirectFor(isAuth, first).Some?
    ensures RedirectFor(isAuth, SegmentOf(RedirectFor(isAuth, first).value)).None?
  {
  }
}
