# AAD browser sign-in of the SDL client, modelled in Dafny

The SDL client of FreeRDP gets Azure AD access tokens through a browser sign-in.
It builds an authorization URL from the gateway client id, the well-known
authorization endpoint and a scope. A browser view (either a helper program
read through a pipe, or an in-process Qt view) follows the sign-in until a
redirect URL carries a `code` query parameter. The code then goes into a
token-request body that is handed to the token exchange. This project models
that flow and proves what its parts promise.

- `qtext.dfy` (module `QText`): `QString::split` with empty parts kept, as
  `Split`. It is proved to be the unique decomposition of a string into
  separator-free parts (`JoinSplit`, `SplitJoin`). It also defines `Concat`, the
  in-order concatenation of pipe chunks.
- `schemehandler.dfy` (module `SchemeHandlers`): the class `SchemeHandler`,
  which has the fields `windowClosed`, `storedCode` (the source's `m_code`) and
  `foundCode`.
  - `HandleUrl` is the loop over the `&`-separated parameters with its early
    `break`.
  - Its specification is the pure scan `ScanQuery`, the value of the first
    parameter that splits on `=` into exactly `code` and a value.
  - `AfterHandle` and `AfterClose` give the new state as a function of the old.
- `webview_window.dfy` (module `WebviewWindow`): what the in-process entry point
  and the helper program make of the handler's final state.
- `sdl_webview.dfy` (module `SdlWebview`): the settings and well-known lookups,
  the URL / token-request / command builders, the pipe reader `WebviewExec`
  (a loop), the two token routines and the dispatch on the token type.
  - Each routine's decision is a pure `Plan`: throw, abort, or exchange a given
    request. The routine is a method proved to carry that plan out.

Collaborators the code calls but does not define are fields of `Host`:
- the settings lookup and the well-known lookup, as maps holding the non-NULL
  strings;
- the shell that runs the helper command, giving the chunks read from the pipe,
  or nothing when the pipe cannot be opened;
- the in-process browser session, giving the handler's state when its event
  loop stops;
- `client_common_get_access_token`, the token exchange.

The builders write each `key=value` parameter with `Param` and named key
constants. The two long fixed strings (the redirect prefix and the AVD scope) are each written as two joined literals that make up the source's string, so that the verifier can show they hold no `&`.
Every string they build is character for character the one the source builds.
The variadic count of `sdl_webview_get_access_token` is the length of the
argument sequence `args`.

## Model

| member | source | states |
|---|---|---|
| `QText.Split` | client/SDL/common/aad/qt/schemehandler.cpp:45-47 | split always yields at least one part, and no part contains the separator |
| `QText.JoinSplit` | client/SDL/common/aad/qt/schemehandler.cpp:45-47 | joining the parts with the separator gives back the string |
| `QText.SplitJoin` | client/SDL/common/aad/qt/schemehandler.cpp:45-47 | splitting a join of separator-free parts gives back exactly those parts, so split is the unique such decomposition |
| `QText.SplitPartsWithin` | client/SDL/common/aad/qt/schemehandler.cpp:45-47 | every character of a part is a character of the string split |
| `QText.SplitLength` | client/SDL/common/aad/qt/schemehandler.cpp:45-47 | there is one part more than there are separators, so empty parts are kept |
| `QText.ConcatAppend` | client/SDL/common/aad/sdl_webview.cpp:65-67 | the output of chunks read in two runs is the output of the first run followed by that of the second |
| `QText.ConcatLength` | client/SDL/common/aad/sdl_webview.cpp:65-67 | the output's length is the sum of the chunk lengths |
| `SchemeHandlers.CodePieceShape` | client/SDL/common/aad/qt/schemehandler.cpp:47-53 | a parameter qualifies with value v if and only if it is `code=` followed by a v without `=` |
| `SchemeHandlers.EmptyValueQualifies` | client/SDL/common/aad/qt/schemehandler.cpp:47-53 | `code=` qualifies, with the empty value |
| `SchemeHandlers.SkippedPieces` | client/SDL/common/aad/qt/schemehandler.cpp:49-50 | `code`, `code=a=b` and `xcode=1` are skipped |
| `SchemeHandlers.FirstCodeAt` | client/SDL/common/aad/qt/schemehandler.cpp:46-57 | if parameter i is the first that qualifies, the scan yields its value |
| `SchemeHandlers.FirstCodeIsFirst` | client/SDL/common/aad/qt/schemehandler.cpp:46-57 | any value the scan yields comes from a qualifying parameter with none qualifying before it |
| `SchemeHandlers.FirstCodeNone` | client/SDL/common/aad/qt/schemehandler.cpp:46-58 | the scan yields nothing if and only if no parameter qualifies |
| `SchemeHandlers.FirstCodeIgnoresLater` | client/SDL/common/aad/qt/schemehandler.cpp:52-57 | parameters after the first qualifying one do not change the result |
| `SchemeHandlers.LaterParametersIgnored` | client/SDL/common/aad/qt/schemehandler.cpp:45-57 | appending `&` and anything else (a later `code=` included) to a query that carries a code does not change the code found |
| `SchemeHandlers.SingleCodeParameter` | client/SDL/common/aad/qt/schemehandler.cpp:45-57 | the query `code=v` carries v, for every v without `&` or `=` |
| `SchemeHandlers.HandleIdempotent` | client/SDL/common/aad/qt/schemehandler.cpp:42-59 | handling the same URL twice gives the same state as handling it once |
| `SchemeHandlers.HandleOutcome` | client/SDL/common/aad/qt/schemehandler.cpp:44-58 | on a match the first qualifying value is stored and marked found; with no match the state is unchanged; the window flag is never touched |
| `SchemeHandlers.FoundStaysFound` | client/SDL/common/aad/qt/schemehandler.cpp:52-55 | once a code was found, a later URL never clears the flag |
| `SchemeHandlers.CloseCommutesWithHandle` | client/SDL/common/aad/qt/schemehandler.cpp:69-73 | closing the window leaves the code and the found flag alone, and closing and handling commute |
| `SchemeHandlers.ScanValueClean` | client/SDL/common/aad/qt/schemehandler.cpp:45-53 | a code the scan yields holds neither `&` nor `=` |
| `SchemeHandlers.NoCodeLeavesHandlerEmpty` | client/SDL/common/aad/qt/schemehandler.cpp:44-58 | a query with no qualifying parameter leaves a fresh handler in its initial state |
| `SchemeHandlers.ReplayKeepsEmptyCode` | client/SDL/common/aad/qt/schemehandler.cpp:44-58 | a session of any number of URLs and window closes, none carrying a non-empty code, leaves an empty code empty |
| `SchemeHandlers.ReplayCodeClean` | client/SDL/common/aad/qt/schemehandler.cpp:44-58 | the code captured over a whole session holds neither `&` nor `=` |
| `SchemeHandlers.SchemeHandler.constructor` | client/SDL/common/aad/qt/schemehandler.h:19-24 | a new handler has `windowClosed` false, an empty code and `foundCode` false |
| `SchemeHandlers.SchemeHandler.HandleUrl` | client/SDL/common/aad/qt/schemehandler.cpp:42-59 | the new state is `AfterHandle` of the old state and the URL's query |
| `SchemeHandlers.SchemeHandler.RequestStarted` | client/SDL/common/aad/qt/schemehandler.cpp:21-40 | the same extraction as `HandleUrl`, on the request's URL, ending in the same state |
| `SchemeHandlers.SchemeHandler.CloseWindow` | client/SDL/common/aad/qt/schemehandler.cpp:69-73 | only `windowClosed` changes, and it becomes true |
| `SchemeHandlers.SchemeHandler.Code` | client/SDL/common/aad/qt/schemehandler.cpp:61-63 | returns the stored code and changes no field |
| `SchemeHandlers.SchemeHandler.HasFoundCode` | client/SDL/common/aad/qt/schemehandler.cpp:65-67 | returns the found flag and changes no field |
| `SchemeHandlers.HandleUrlTwice` | client/SDL/common/aad/qt/schemehandler.cpp:42-59 | two calls on the object with the same URL leave the state one call leaves |
| `WebviewWindow.SessionEnds` | client/SDL/common/aad/qt/webview_window.cpp:45-47 | the polling loop's exit condition holds after a URL carrying a code, and after the window closes |
| `WebviewWindow.ImplRun` | client/SDL/common/aad/qt/webview_window.cpp:49-54 | the entry point succeeds if and only if the captured code is non-empty; on success the caller's code is that code, and otherwise it is left as it was |
| `WebviewWindow.HelperStdout` | client/SDL/common/aad/qt/webview_window.cpp:67-72 | the helper prints nothing if and only if no code was captured, and otherwise the code followed by one line end |
| `WebviewWindow.NoCodeNoOutput` | client/SDL/common/aad/qt/webview_window.cpp:49-54 | a session of any number of URLs and window closes, none carrying a non-empty code, makes the entry point fail, and the helper prints nothing |
| `SdlWebview.FromSettings` | client/SDL/common/aad/sdl_webview.cpp:35-44 | the settings string, or `""` when it is NULL |
| `SdlWebview.FromWellKnown` | client/SDL/common/aad/sdl_webview.cpp:46-56 | the well-known string, or `""` when it is NULL |
| `SdlWebview.RedirectUriShape` | client/SDL/common/aad/sdl_webview.cpp:83 | the redirect URI is the fixed broker prefix followed by the client id, and it holds no `&` when the client id holds none |
| `SdlWebview.KeyNotCode` | client/SDL/common/aad/qt/schemehandler.cpp:49-50 | a `key=value` parameter whose key is not `code` (and holds no `=`) never qualifies |
| `SdlWebview.CodeParamQualifies` | client/SDL/common/aad/qt/schemehandler.cpp:49-53 | the `code=value` parameter the builders write qualifies, with that value |
| `SdlWebview.AuthorizationUrlIsJoined` | client/SDL/common/aad/sdl_webview.cpp:88-89 | the authorization URL is the endpoint, `?`, and its four parameters joined by `&` |
| `SdlWebview.AuthorizationUrlParams` | client/SDL/common/aad/sdl_webview.cpp:88-89 | the URL's query splits into exactly client_id, response_type=code, scope and redirect_uri, in that order; the handler's scan finds no code in it |
| `SdlWebview.TokenRequestIsJoined` | client/SDL/common/aad/sdl_webview.cpp:104-106 | the token request is its parameters joined by `&` |
| `SdlWebview.TokenRequestSplits` | client/SDL/common/aad/sdl_webview.cpp:104-106 | the body splits into grant_type, code, client_id, scope and redirect_uri, in that order, followed by req_cnf on the AAD path |
| `SdlWebview.TokenRequestCarriesCode` | client/SDL/common/aad/sdl_webview.cpp:104-106 | the handler's own scan reads back from the body exactly the code placed in it |
| `SdlWebview.AadRequestExtendsBase` | client/SDL/common/aad/sdl_webview.cpp:104-106 | the AAD body is the AVD-shaped body followed by `&req_cnf=` and the key's confirmation |
| `SdlWebview.WebviewExec` | client/SDL/common/aad/sdl_webview.cpp:58-69 | the result is the in-order concatenation of every chunk read from the pipe; a pipe that cannot be opened gives the failure |
| `SdlWebview.StripLineEnd` | client/SDL/common/aad/qt/webview_window.cpp:72 | removes exactly one trailing line end, and changes nothing when there is none |
| `SdlWebview.RdsAadPlanWithDecides` | client/SDL/common/aad/sdl_webview.cpp:101-107 | the RDS AAD path aborts if and only if the code is empty; otherwise its request has the code, client id, scope, redirect URI and req_cnf parameters, in that order |
| `SdlWebview.RdsAadNoCodeAborts` | client/SDL/common/aad/sdl_webview.cpp:96-102 | when the helper captured no code, the path returns FALSE with the token null and no exchange, whatever chunks the output came in |
| `SdlWebview.RdsAadSendsCapturedCode` | client/SDL/common/aad/sdl_webview.cpp:98-107 | with the line end removed, the request carries exactly the code the helper captured |
| `SdlWebview.RdsAadAsWrittenSendsLineEnd` | client/SDL/common/aad/sdl_webview.cpp:98-106 | as written, the request's code parameter is the captured code followed by a line end, which differs from the corrected request |
| `SdlWebview.AvdPlanDecides` | client/SDL/common/aad/sdl_webview.cpp:126-133 | the AVD path aborts if and only if the session ended without a code; otherwise the request carries that code, the fixed AVD scope and no req_cnf |
| `SdlWebview.AvdNoCodeNoExchange` | client/SDL/common/aad/sdl_webview.cpp:127-129 | a session of any number of URLs and window closes, none carrying a non-empty code, makes the AVD path return FALSE with the token null and no exchange |
| `SdlWebview.AvdSendsSessionCode` | client/SDL/common/aad/sdl_webview.cpp:127-133 | whatever non-empty code a session captures, the AVD token request carries it so that the handler's scan reads back exactly that code |
| `SdlWebview.HelperCommandQuotes` | client/SDL/common/aad/sdl_webview.cpp:96 | with no double quote in the prefix, title or URL, the command's quoted words are exactly the title and the URL, after the program path |
| `SdlWebview.RdsAadCommandQuotes` | client/SDL/common/aad/sdl_webview.cpp:90-96 | the RDS AAD helper gets the AAD title and the authorization URL as its two quoted arguments |
| `SdlWebview.GetRdsAadAccessToken` | client/SDL/common/aad/sdl_webview.cpp:71-108 | carries out the RDS AAD plan: the token is null unless the exchange was reached; a pipe failure throws; an empty code returns FALSE |
| `SdlWebview.GetAvdAccessToken` | client/SDL/common/aad/sdl_webview.cpp:110-134 | carries out the AVD plan, and it always returns (it never throws) |
| `SdlWebview.Dispatch` | client/SDL/common/aad/sdl_webview.cpp:141-176 | AAD with fewer than two arguments is rejected; with at least two it goes to the AAD routine with the first two, warning if there are more; AVD always goes to its routine, warning on any argument; any other type is rejected |
| `SdlWebview.ExtraAadArgumentsIgnored` | client/SDL/common/aad/sdl_webview.cpp:153-162 | arguments after the first two change neither the scope nor req_cnf |
| `SdlWebview.GetAccessToken` | client/SDL/common/aad/sdl_webview.cpp:136-177 | a rejected type or count returns FALSE and leaves the caller's token untouched; otherwise the outcome is that of the chosen routine |

## Left out

- libfreerdp/core/client.h (the channel tables and their prototypes) holds declarations only; their operations are not part of this model.
- The Qt event loop, `processEvents`, `qApp->exit`, scheme registration and the `closeEvent` wiring are GUI plumbing. The browser session is `Host.browse`, taken as given.
- The `urlChanged` filter in `webview_impl_run`, which hands only `https` and `ms-appx-web` URLs to the handler, is left out with the event loop. `Url.scheme` is carried but not inspected.
- Strings are sequences of characters: the UTF-16 `QString` to `std::string` conversion (client/SDL/common/aad/qt/schemehandler.cpp:53) is not modelled, nor the truncation at the first NUL when a buffer is passed on as a C string (`buffer.data()` at client/SDL/common/aad/sdl_webview.cpp:66, `code.data()` at client/SDL/common/aad/qt/webview_window.cpp:72).
- `QUrl::query()` percent-decoding is left out: the query is a plain character sequence.
- `SchemeHandlers.SchemeHandler`: Dafny has no private fields, so the model does not state that only the handler's own methods change `storedCode` and `foundCode`.
- Process and pipe I/O (`popen`, `fgets` with its 128-byte buffer, `pclose`) is the given chunk sequence `Host.run`. The shell's own reading of the unescaped command line is not modelled.
- Logging, `va_list` handling and `WINPR_ASSERT` are left out. The variadic count is the length of `args`, so a count larger than the arguments actually passed cannot be expressed.
- The exit status of the helper program is left out: its caller does not read it. The helper returns `false`, which is 0, when it prints nothing.
- `SdlWebview.GetRdsAadAccessToken`: it removes the helper's trailing line end before the emptiness check, unlike the source; see Findings.
- `SdlWebview.GetAccessToken`: it calls the corrected RDS AAD routine; `SdlWebview.RdsAadPlanAsWritten` keeps the source's behaviour.

## Findings

| source | as written | input that shows it | evidently intended | confidence | as-written member | corrected member |
|---|---|---|---|---|---|---|
| client/SDL/common/aad/sdl_webview.cpp:98 | the whole pipe output becomes the authorization code. That output includes the line end the helper writes after the code with `std::endl` (client/SDL/common/aad/qt/webview_window.cpp:72). | the helper captures code `abc` and prints `abc\n`; the token request then carries `code=abc\n` | the request carries `code=abc`, the code alone | medium; not executed | `SdlWebview.RdsAadAsWrittenSendsLineEnd` | `SdlWebview.RdsAadSendsCapturedCode` |
