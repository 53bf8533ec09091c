# TrustBuild mobile shell: session, API client, navigation guard and dashboard

This project models the core of the TrustBuild contractor app. The app is a
thin native shell around the TrustBuild web application. It has five parts:

- **Session store** (`Storage`, `src/services/storage.ts`). It keeps the
  access token and the refresh token in the platform's secure key-value store
  and the profile as JSON text in the general key-value store. A failed write
  throws an error with a fixed message. A failed read reports "absent". A
  failed delete is swallowed.
- **API client** (`Api`, `src/services/api.ts`). Every `apiRequest` carries the
  JSON content type unless the caller sets one, and a bearer token when the
  stored token is non-empty. A 401 answer
  with a JSON body wipes the session. `login` stores token and profile and
  then admits contractors only. `logout` always ends with the session wiped. A failed `refreshToken`
  wipes the session. `getErrorMessage` turns a thrown value into a message.
- **Navigation helpers** (`Navigation`, `src/utils/navigation.ts`). They build
  the dashboard URL under the configured web URL and decide whether a URL
  belongs to the web app (same hostname).
- **Root guard** (`RootLayout`, `app/_layout.tsx`). On every change of the route
  segments it sends users without a token to the login screen and users with a
  token away from the login screen.
- **Dashboard screen** (`Dashboard`, `app/dashboard.tsx`). It loads the stored
  session and admits contractors only. It renders the web app in a web view,
  injecting the token and profile into the page's storage through a script.
  It filters the URLs the web view may load and reacts to web-view errors, the
  back button, refreshes and the `LOGOUT` message.

Modelling choices:

- The two platform stores are `map<string, string>` fields of the class
  `Storage.SessionStore`. Which platform calls reject is an input
  (`Faults`): one flag for the write, the read and the delete of each of the
  three keys. A rejected write or delete leaves its store unchanged.
- `JSON.stringify`/`JSON.parse` on profiles are a `Codec` parameter. `Lawful`
  says its encodings decode back and are never empty.
- `fetch` is an input. It gives the reply of the server (`Reply`): a network
  failure, or a status with a body that is JSON or not.
- The WHATWG URL parser is a parameter (`UrlParser`), partial where `new URL`
  throws.
- Alerts, router calls and web-view calls that the dashboard makes are returned
  as `Reaction` values. `Dashboard.Answer` plays out the button pressed in an
  alert.
- The component's state hooks are the fields of the class
  `Dashboard.DashboardScreen`. Each event handler is a method on it.
- The configured API and web URLs (`extra.apiUrl || config.apiUrl`) are
  parameters, resolved by `Common.ResolveSetting`.
- The injected script places the escaped token and profile between single
  quotes. The model reads such a literal back with the string-literal grammar
  of ECMA-262, section 12.9.4 (`JsLiteral.ReadSingleQuoted`, covering the
  single-character escapes), and proves the escaper round-trips through it.

## Model

| member | source | states |
|---|---|---|
| Common.ResolveSetting | src/utils/navigation.ts:5 | the build-time setting wins when it is a non-empty string, otherwise the local config value is used (the same rule sets the API URL) |
| Text.ContainsIff | app/dashboard.tsx:294-296 | `includes` holds exactly when the pattern occurs at some index of the text |
| Text.Contains | app/dashboard.tsx:294-296 | `includes`: a prefix is always found, and nothing longer than the text is |
| Text.ContainsSuffix | app/dashboard.tsx:294-296 | a text that contains `a + b` contains `b` |
| Text.ToLower | app/dashboard.tsx:286 | lower-casing keeps the length and maps every ASCII capital to its small letter, every other character to itself |
| Text.IntToDecimal | app/dashboard.tsx:252 | the rendering of a status code is non-empty, starts with a digit or, for a negative number, a minus sign |
| Text.NatToDecimalValue | app/dashboard.tsx:252 | reading the rendered digits back gives the number |
| Text.IntToDecimalInjective | app/dashboard.tsx:252 | distinct status codes are rendered as distinct strings |
| Storage.ClearedSecure | src/services/storage.ts:119-125 | clearing removes the access token unless its delete rejects and the refresh token unless its own delete rejects, independently, and no other secure key changes |
| Storage.ClearedGeneral | src/services/storage.ts:119-125 | clearing removes the profile key unless the general delete fails, and no other general key changes |
| Storage.ClearIdempotent | src/services/storage.ts:119-125 | clearing twice leaves both stores as clearing once |
| Storage.SessionStore.SetToken | src/services/storage.ts:12-19 | a rejected write throws "Failed to store authentication token" and changes nothing; otherwise the token is stored, reads back, and the refresh token and profile read as before |
| Storage.SessionStore.GetToken | src/services/storage.ts:24-31 | never throws; gives the stored token, or absent when the key is missing or the read fails |
| Storage.SessionStore.RemoveToken | src/services/storage.ts:36-42 | never throws; afterwards the token reads absent unless the delete failed; the other entries read as before |
| Storage.SessionStore.SetRefreshToken | src/services/storage.ts:47-54 | a rejected write throws "Failed to store refresh token" and changes nothing; otherwise the refresh token is stored and reads back; the token and profile read as before |
| Storage.SessionStore.GetRefreshToken | src/services/storage.ts:59-66 | never throws; gives the stored refresh token, or absent when missing or the read fails |
| Storage.SessionStore.RemoveRefreshToken | src/services/storage.ts:71-77 | never throws; afterwards the refresh token reads absent unless the delete failed; the other entries read as before |
| Storage.SessionStore.SetUser | src/services/storage.ts:82-90 | a rejected write throws "Failed to store user data" and changes nothing; otherwise the encoded profile is stored, and with a lawful codec reads back as the same profile |
| Storage.SessionStore.GetUser | src/services/storage.ts:95-103 | never throws; absent when the read fails, nothing or the empty string is stored, or the text does not decode; otherwise the decoded profile |
| Storage.SessionStore.RemoveUser | src/services/storage.ts:108-114 | never throws; afterwards the profile reads absent unless the delete failed; the tokens read as before |
| Storage.SessionStore.ClearAuth | src/services/storage.ts:119-125 | never throws; removes exactly the three session keys, each unless its own delete rejects; each getter whose key was deleted reads absent |
| Storage.SessionStore.IsAuthenticated | src/services/storage.ts:130-133 | true exactly when a token reads back, whatever the stored profile |
| Api.HeadersForUnique | src/services/api.ts:62-69 | the header rule determines the header dictionary |
| Api.BuildHeaders | src/services/api.ts:62-69 | the JSON content type unless the caller set one, every caller header, and `Bearer <token>` when the token is truthy, overriding the caller's |
| Api.Settle | src/services/api.ts:73-89 | a 2xx JSON reply yields its body; a non-2xx JSON reply throws its message (or "An error occurred") with the status; a network failure or a non-JSON body throws without a status |
| Api.UnparsableUnauthorizedKeepsSession | src/services/api.ts:79-94 | a 401 whose body is not JSON is not seen as a 401, so it does not wipe the session, while a 401 with a JSON body is |
| Api.ApiRequest | src/services/api.ts:56-97 | the request goes to the API URL plus the endpoint with the rule's headers; the result is the settled reply; the session is cleared exactly when the error carries status 401 |
| Api.Login | src/services/api.ts:102-129 | a failed request is rethrown (session cleared on 401 only); a failed token or profile write is thrown after the writes before it; a non-contractor is stored, cleared, and refused with the contractor-only message; a contractor's token and profile are stored and returned |
| Api.Logout | src/services/api.ts:134-145 | whatever the reply, the session ends cleared and the getters read absent when the deletes succeed |
| Api.RefreshToken | src/services/api.ts:150-163 | the new token is stored and returned; any failure (request or write) clears the session and is rethrown |
| Api.GetMe | src/services/api.ts:168-176 | the fetched profile is cached and returned; a failed request is rethrown (session cleared on 401 only); a failed write throws "Failed to store user data" |
| Api.TestConnection | src/services/api.ts:181-188 | a bare fetch of the API URL plus `/health`, with no method and no headers (so no bearer token); up exactly when the answer is 2xx; a rejected fetch gives false |
| Api.HealthIgnoresBody | src/services/api.ts:181-188 | a 2xx answer whose body is not JSON counts as up, while an API request given the same answer throws |
| Api.GetErrorMessage | src/services/api.ts:193-213 | a truthy message wins, then the fixed texts for 401, 403, 404 and 500, then "An unexpected error occurred"; among thrown objects, the call throws exactly for one named `TypeError` whose `message` is missing or null; every message returned is non-empty |
| Api.PlainTypeErrorThrows | src/services/api.ts:209 | a thrown `{name: 'TypeError'}` with no `message` and no known status makes the classifier throw; with a known status it is classified before the throwing test |
| Api.EmptyTypeErrorUnexpected | src/services/api.ts:194-212 | a real `TypeError` built without a message (message `""`) gets "An unexpected error occurred" |
| Api.NetworkBranchUnreachable | src/services/api.ts:194-211 | a network failure's message is truthy and is returned at line 194, so the network branch is dead |
| Api.FetchFailureShownRaw | src/services/api.ts:193-211 | the rejection of a failed `fetch` is shown as "Network request failed", not as the network-error text |
| Api.GetErrorMessageIntended | src/services/api.ts:193-213 | network failures get the network-error text, then a truthy message, then the status texts, then "An unexpected error occurred"; never throws, never empty |
| Api.IntendedAgrees | src/services/api.ts:193-213 | away from network failures the corrected classifier agrees with the original wherever the original returns |
| Navigation.GetDashboardUrl | src/utils/navigation.ts:10-14 | the web URL, one slash, then the path without its own leading slash |
| Navigation.DashboardUrlKeepsRootedPath | src/utils/navigation.ts:12-13 | a path starting with a slash is appended unchanged |
| Navigation.DashboardUrlSlashInsensitive | src/utils/navigation.ts:12-13 | a path without its leading slash gives the same URL as with it |
| Navigation.DefaultDashboardUrl | src/utils/navigation.ts:10-20 | without an argument the URL is the web URL followed by the contractor dashboard route |
| Navigation.IsInternalUrl | src/utils/navigation.ts:37-45 | true exactly when both the URL and the web URL parse and name the same hostname; never throws |
| Navigation.ShouldHandleInWebView | src/utils/navigation.ts:50-58 | the web view handles exactly the internal URLs |
| Navigation.GetRouteFromUrl | src/utils/navigation.ts:63-70 | the pathname of a parsable URL, `/` otherwise |
| RootLayout.RedirectFor | app/_layout.tsx:16-25 | to `/` exactly when unauthenticated off the login screen; to `/dashboard` exactly when authenticated on it; otherwise no redirect |
| RootLayout.CheckAuthAndRedirect | app/_layout.tsx:14-26 | the redirect depends only on whether a token reads back and on the first segment; `/dashboard` only with a token, `/` only without |
| RootLayout.RedirectSettles | app/_layout.tsx:10-25 | after a redirect the guard, re-run on the new segments with the same status, does not redirect again |
| JsLiteral.EscapeValue | app/dashboard.tsx:177-178 | an escaped quote, double quote or backslash stands for itself in the page's literal |
| ScriptEscape.ReplaceAll | app/dashboard.tsx:167 | a global replacement of a character that does not occur leaves the text as it is |
| ScriptEscape.ReplaceAllAppend | app/dashboard.tsx:167 | replacing in a concatenation is replacing in each part |
| ScriptEscape.Escape | app/dashboard.tsx:167-171 | the three global replacements, backslash first; text without a backslash, quote or double quote is left unchanged |
| ScriptEscape.EscapeChar | app/dashboard.tsx:167-171 | backslash, quote and double quote gain one backslash; every other character stays |
| ScriptEscape.EscapeIsPerCharacter | app/dashboard.tsx:167-171 | the three global passes, backslash first, equal escaping each character on its own |
| ScriptEscape.EscapeLength | app/dashboard.tsx:167-171 | escaping adds exactly one character per backslash, quote and double quote |
| ScriptEscape.EscapeEachRoundTrip | app/dashboard.tsx:167-178 | escaped text followed by a quote reads back as the original text, ended by that quote |
| ScriptEscape.EscapeEachBreaks | app/dashboard.tsx:167-178 | escaped text holding a raw line break is not a well-formed literal |
| ScriptEscape.EscapeRoundTrip | app/dashboard.tsx:167-178 | both directions: without raw line breaks the escaped text reads back exactly, with one it does not read at all |
| Dashboard.DecideLoad | app/dashboard.tsx:58-84 | to login exactly when the token is falsy or no profile reads back; access denied exactly for a non-contractor; otherwise the session is shown |
| Dashboard.EmptyTokenBounces | app/dashboard.tsx:58-61 | an empty stored token counts as authenticated for the root guard, which sends the login screen to the dashboard, but the dashboard sends it back to login |
| Dashboard.AdminDashboardIsAdmin | app/dashboard.tsx:294-296 | a URL naming the admin dashboard names an admin route, so that test adds nothing |
| Dashboard.AllowRequest | app/dashboard.tsx:285-303 | a load is allowed exactly for internal URLs whose lower-cased text mentions neither the customer dashboard nor an admin route |
| Dashboard.HttpErrorMessage | app/dashboard.tsx:240-253 | no message exactly for 401; the not-found text with the dashboard URL for 404; the generic text with the status otherwise |
| Dashboard.GenericMessageInjective | app/dashboard.tsx:252 | the generic HTTP error text determines the status |
| Dashboard.HttpErrorMessagesDistinct | app/dashboard.tsx:249-253 | different statuses other than 401 give different messages |
| Dashboard.LoadErrorMessage | app/dashboard.tsx:233 | the load-failure text with the description, or "Unknown error" when it is falsy, and the dashboard URL |
| Dashboard.OverlayErrorMessage | app/dashboard.tsx:267-274 | the web view's overlay text interpolates the error domain as it is (`undefined` when absent) |
| Dashboard.MessageReaction | app/dashboard.tsx:221-228 | only the exact message `LOGOUT` reacts, by asking to confirm the logout |
| Dashboard.BackPress | app/dashboard.tsx:92-108 | the back press is always consumed; it steps back in the web view exactly when it can go back and is mounted, otherwise asks to exit |
| Dashboard.SelectScreen | app/dashboard.tsx:149-205 | loading first, then a truthy error with retry, then "Authentication required" without a session, then "Preparing dashboard..." without a URL, else the web view with the escaped token and profile and the loading overlay |
| Dashboard.InjectionReadsBack | app/dashboard.tsx:165-191 | in the rendered web view both injected literals read back as exactly the token and the profile JSON when neither holds a raw line break |
| Dashboard.Answer | app/dashboard.tsx:118-135 | the access-denied and session-expired OK and a confirmed logout clear the session and go to `/`; a confirmed exit exits; a cancel does nothing and changes nothing |
| Dashboard.DashboardScreen.constructor | app/dashboard.tsx:23-30 | the initial state: no session, loading, no error, cannot go back, not refreshing, web view loading, no URL |
| Dashboard.DashboardScreen.Render | app/dashboard.tsx:149-205 | over the component state: loading first, then a truthy error with retry, then "Authentication required" without a truthy token and a profile, then "Preparing dashboard..." exactly when the session is complete but no URL is set; the web view exactly when a URL is set too, with the URL, the loading overlay flag and the escaped token and profile |
| Dashboard.DashboardScreen.LoadAuthData | app/dashboard.tsx:51-89 | redirect or access-denied alert with the state untouched; otherwise token, profile and the contractor dashboard URL are set, loading stops, and the web view renders unless an error is shown |
| Dashboard.DashboardScreen.HandleRetry | app/dashboard.tsx:143-147 | the error is cleared and the load re-run; a successful load renders the web view, any other leaves the screen loading; the back, refresh and overlay flags keep their values |
| Dashboard.DashboardScreen.OnHttpError | app/dashboard.tsx:235-254 | the overlay stops; 401 asks to end the session and keeps the error; any other status sets its message |
| Dashboard.DashboardScreen.OnError | app/dashboard.tsx:229-234 | the overlay stops and the load-failure message is set |
| Dashboard.DashboardScreen.OnLoadingTimeout | app/dashboard.tsx:37-48 | a page still loading when the timer fires stops loading with the timeout message; otherwise nothing changes |
| Dashboard.DashboardScreen.OnLoadStart | app/dashboard.tsx:206-209 | the overlay shows |
| Dashboard.DashboardScreen.OnLoadEnd | app/dashboard.tsx:210-213 | the overlay hides |
| Dashboard.DashboardScreen.OnNavigationStateChange | app/dashboard.tsx:217-220 | the back state follows the web view's |
| Dashboard.DashboardScreen.OnBackPress | app/dashboard.tsx:92-108 | the back handler on the current state: always consumed; steps back exactly when `canGoBack` holds and the web view is mounted, otherwise asks to exit |
| Dashboard.DashboardScreen.HandleRefresh | app/dashboard.tsx:137-141 | refreshing is set and the mounted web view is reloaded |
| Dashboard.DashboardScreen.EndRefresh | app/dashboard.tsx:140 | the refresh indicator clears when its timer fires |

## Where the sources disagree

The model follows the code in each case.

- `__tests__/services/storage.test.ts:19` imports `isContractor` from the
  session store, which `src/services/storage.ts` does not define.
  `isContractor` is not part of this model.
- The test at `__tests__/services/storage.test.ts:185-203` expects
  `isAuthenticated` to reject a non-contractor profile and a missing profile.
  The code checks only
  that a token reads back (`src/services/storage.ts:130-133`).
  `Storage.SessionStore.IsAuthenticated` states that.
- The comment at `src/utils/navigation.ts:11` says the leading slash is
  removed. Line 12 adds one when it is missing. `Navigation.GetDashboardUrl`
  follows line 12.
- The `LOGOUT` message from the web app (`app/dashboard.tsx:221-228`,
  `118-135`) only asks for confirmation and then clears the local session.
  It never calls `logout` (`src/services/api.ts:134-145`), so the server-side
  session is not ended. `Dashboard.MessageReaction` and `Dashboard.Answer`
  state what the code does.

## Left out

- Timers, promises and concurrency are not modelled. `Promise.all` in
  `clearAuth` and `loadAuthData` runs its parts in order. The 30-second and
  1-second timers are the methods `OnLoadingTimeout` and `EndRefresh`, called
  when they fire.
- Storage.SessionStore.ClearAuth: guarantees a key is gone only when the
  platform's delete of that key succeeds. A rejected delete is swallowed by
  the code and leaves that key as it was, so the session can outlive a logout.
- Storage.SessionStore: which calls reject is fixed for the store's life, one
  flag per key and operation. A call that rejects once and succeeds when
  repeated on the same key (for example the second `clearAuth` in
  `refreshToken` after a 401) is not represented.
- Console logging, `onLoadProgress`, and the `useNetworkStatus` hook with the
  offline notice are not modelled. They only log or display.
- The rendering of components, styles, the refresh control's platform choice
  (`Platform.OS`) and the web-view settings are not modelled.
- `useEffect` re-runs `loadAuthData` and `setupBackHandler` on every change of
  `webViewLoading`, and the back handler's removal function is never used.
  The model treats the back handler as reading the current `canGoBack`
  (`Dashboard.BackPress`) and does not model listener registration or stale
  closures.
- The `catch` in `loadAuthData` (`app/dashboard.tsx:85-88`) is not modelled.
  It cannot be reached, because `getToken` and `getUser` never throw.
- Api.Login: the success body's shape (`token` at the top, `data.user` inside)
  is taken as given (`LoginPayload`). A 2xx JSON body lacking those fields
  is not modelled. The same holds for `refreshToken` and `getMe`.
- The request body (`JSON.stringify(credentials)`) and the rest of the fetch
  options are not modelled. Only the method, URL and headers are.
- Caller headers given as a `Headers` object or an array of pairs are not
  modelled. Only a plain dictionary is.
- `JSON.stringify`/`JSON.parse` and the WHATWG URL parser are parameters.
  Their behaviour beyond the stated laws is not modelled.
- Text.ToLower: lower-cases ASCII letters only, where JavaScript's
  `toLowerCase` also folds other letters. The verdict of `AllowRequest` is the
  same either way. The only non-ASCII letters that lower into ASCII are U+212A
  (to `k`, which no blocked route contains) and U+0130 (to `i` followed by
  U+0307, which cannot form `/admin`).
- Api.GetErrorMessage: a thrown `null` or `undefined`, which makes the
  classifier throw at `src/services/api.ts:194` when it reads `message`, is not
  modelled. Neither is a `message` that is neither a string nor null, such as
  `0`, which throws at line 209 for an object named `TypeError`. `Thrown`
  holds a string message or none.
- JsLiteral.ReadSingleQuoted reports numeric, `\x`, `\u` escapes and line
  continuations as unsupported. The escaper never produces them.
- `src/utils/permissions.ts`, `src/components/*`, `src/hooks/*` and the
  configuration files are outside the modelled core.
- The route table `ROUTES` (`src/utils/navigation.ts:19-32`) is modelled by its
  `DASHBOARD` entry only. The core reads no other entry.
- The optional nested contractor record of a profile is not modelled. The
  core never reads it.

## Findings

| source | as written | input that shows it | evidently intended | confidence | as-written member | corrected member |
|---|---|---|---|---|---|---|
| src/services/api.ts:194-211 | a truthy `message` is returned before the network test, so the network branch is dead; a thrown plain object `{name: 'TypeError'}` with no `message` property makes `message.includes` throw | the rejection `TypeError("Network request failed")` gives "Network request failed"; `{name: "TypeError"}` makes the classifier throw | a failed fetch is shown as "Network error. Please check your internet connection." and the classifier never throws on a thrown object | not executed | Api.GetErrorMessage, Api.FetchFailureShownRaw, Api.NetworkBranchUnreachable, Api.PlainTypeErrorThrows | Api.GetErrorMessageIntended, Api.IntendedAgrees |
