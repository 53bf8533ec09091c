/** Navigation policy: the dashboard URL under the configured web URL, and
    whether a URL belongs to the web app (same hostname). URL parsing is the
    WHATWG URL parser, taken as a partial function: None where `new URL`
    throws, otherwise the hostname and pathname components. */
module Navigation {
  import opened Common

  datatype Url = Url(hostname: string, pathname: string)

  type UrlParser = string -> Option<Url>

  /** The default argument of `getDashboardUrl`. */
  const DEFAULT_DASHBOARD_PATH := "/dashboard/contractor"

  /** `ROUTES.DASHBOARD`, the one route the core reads. */
  const DASHBOARD := "/dashboard/contractor"

  /** `getDashboardUrl(path)`: the web URL, then one slash, then the path
      without its own leading slash if it had one. */
  function GetDashboardUrl(webUrl: string, path: string): (r: string)
    ensures webUrl <= r && |r| > |webUrl| && r[|webUrl|] == '/'
    ensures r[|webUrl| + 1..] == if "/" <= path then path[1..] else path
  {
    var cleanPath := if "/" <= path then path else "/" + path;
    webUrl + cleanPath
  }

  /** A path with a leading slash is appended as it is. */
  lemma DashboardUrlKeepsRootedPath(webUrl: string, path: string)
    requires "/" <= path
    ensures GetDashboardUrl(webUrl, path) == webUrl + path
  {
    var r := GetDashboardUrl(webUrl, path);
    assert r == r[..|webUrl| + 1] + r[|webUrl| + 1..];
    assert path == path[..1] + path[1..];
  }

  /** Leaving out the leading slash makes no difference. */
  lemma DashboardUrlSlashInsensitive(webUrl: string, path: string)
    requires !("/" <= path)
    ensures GetDashboardUrl(webUrl, path) == GetDashboardUrl(webUrl, "/" + path)
  {
    var a, b := GetDashboardUrl(webUrl, path), GetDashboardUrl(webUrl, "/" + path);
    assert a == a[..|webUrl| + 1] + a[|webUrl| + 1..];
    assert b == b[..|webUrl| + 1] + b[|webUrl| + 1..];
    assert ("/" + path)[1..] == path;
  }

  /** `getDashboardUrl()`: the contractor dashboard route. */
  function DefaultDashboardUrl(webUrl: string): (r: string)
    ensures r == webUrl + DASHBOARD
  {
    DashboardUrlKeepsRootedPath(webUrl, DEFAULT_DASHBOARD_PATH);
    GetDashboardUrl(webUrl, DEFAULT_DASHBOARD_PATH)
  }

  /** `isInternalUrl`: both URLs parse and name the same host; never throws. */
  function IsInternalUrl(parse: UrlParser, webUrl: string, url: string): (r: bool)
    ensures r <==> parse(url).Some? && parse(webUrl).Some? && parse(url).value.hostname == parse(webUrl).value.hostname
  {
    match parse(url)
    case None => false
    case Some(u) =>
      match parse(webUrl)
      case None => false
      case Some(w) => u.hostname == w.hostname
  }

  /** `shouldHandleInWebView`: the same test. */
  function ShouldHandleInWebView(parse: UrlParser, webUrl: string, url: string): (r: bool)
    ensures r == IsInternalUrl(parse, webUrl, url)
  {
    if IsInternalUrl(parse, webUrl, url) then true else false
  }

  /** `getRouteFromUrl`: the pathname, or `/` when the URL does not parse. */
  function GetRouteFromUrl(parse: UrlParser, url: string): (r: string)
    ensures parse(url).None? ==> r == "/"
    ensures parse(url).Some? ==> r == parse(url).value.pathname
  {
    match parse(url)
    case None => "/"
    case Some(u) => u.pathname
  }
}
