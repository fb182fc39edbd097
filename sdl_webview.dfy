/**
 * Obtaining an access token through the AAD browser sign-in: the authorization
 * URL and the token request are built from the client id, the well-known
 * authorization endpoint and the scope; the authorization code comes back from
 * the browser helper; an empty code aborts before any token exchange.
 */
module SdlWebview {
  import opened Wrappers
  import opened QText
  import opened SchemeHandlers
  import opened WebviewWindow

  datatype SettingsKey = GatewayAvdClientID
  datatype WellKnownKey = AuthorizationEndpoint

  /** The token kinds a caller may ask for; any other value of the enumeration
      is `OtherTokenType`. */
  datatype AccessTokenType = AccessTokenTypeAad | AccessTokenTypeAvd | OtherTokenType(value: int)

  /** What the token exchange returns and writes into the caller's token. */
  datatype Reply = Reply(ok: bool, token: Option<string>)

  /**
   * The collaborators the routines call and do not control.
   * settings and wellknown hold the strings whose lookup is not NULL;
   * run is the shell running a command: None when the pipe cannot be opened,
   *   else the chunks read from it in order;
   * browse is the in-process browser session for a title and a URL: the
   *   handler's state when its event loop stops;
   * exchange is the token exchange for a token-request body.
   */
  datatype Host = Host(
    settings: map<SettingsKey, string>,
    wellknown: map<WellKnownKey, string>,
    installPrefix: string,
    run: string -> Option<seq<string>>,
    browse: (string, string) -> HandlerState,
    exchange: string -> Reply)

  // The two long constants are each written as two joined literals, which are
  // together the source's string. The verifier can then show that they hold no
  // `&`; it does not unfold a literal of this length.
  const RedirectPrefix: string := "ms-appx-web%3a%2f%2f" + "Microsoft.AAD.BrokerPlugin%2f"
  const AvdScope: string := "https%3A%2F%2F" + "www.wvd.microsoft.com%2F.default"
  const AadTitle: string := "FreeRDP WebView - AAD access token"
  const AvdTitle: string := "FreeRDP WebView - AVD access token"

  // ---------------------------------------------------------------------------
  // Lookups

  /** A settings string, or the empty string when the setting is NULL. */
  function FromSettings(settings: map<SettingsKey, string>, id: SettingsKey): (r: string)
    ensures id in settings ==> r == settings[id]
    ensures id !in settings ==> r == ""
  {
    if id in settings then settings[id] else ""
  }

  /** A well-known AAD value, or the empty string when it is NULL. */
  function FromWellKnown(wellknown: map<WellKnownKey, string>, which: WellKnownKey): (r: string)
    ensures which in wellknown ==> r == wellknown[which]
    ensures which !in wellknown ==> r == ""
  {
    if which in wellknown then wellknown[which] else ""
  }

  // ---------------------------------------------------------------------------
  // Strings sent to the helper and to the token endpoint

  // The keys and fixed values of the query and body parameters. The builders
  // below write each `key=value` parameter with Param; the strings they build
  // are character for character those of the source.
  const GrantTypeKey: string := "grant_type"
  const AuthorizationCodeGrant: string := "authorization_code"
  const CodeKey: string := "code"
  const ClientIdKey: string := "client_id"
  const ResponseTypeKey: string := "response_type"
  const ScopeKey: string := "scope"
  const RedirectUriKey: string := "redirect_uri"
  const ReqCnfKey: string := "req_cnf"

  function Param(key: string, value: string): string
  {
    key + "=" + value
  }

  function RedirectUri(clientId: string): string
  {
    RedirectPrefix + clientId
  }

  /** `ep?client_id=<id>&response_type=code&scope=<scope>&redirect_uri=<uri>` */
  function AuthorizationUrl(ep: string, clientId: string, scope: string, redirectUri: string): string
  {
    ep + "?" + Param(ClientIdKey, clientId) + "&" + Param(ResponseTypeKey, CodeKey) + "&" +
    Param(ScopeKey, scope) + "&" + Param(RedirectUriKey, redirectUri)
  }

  /** `grant_type=authorization_code&code=<code>&client_id=<id>&scope=<scope>&redirect_uri=<uri>`,
      followed on the AAD path by `&req_cnf=<req_cnf>`. */
  function TokenRequest(code: string, clientId: string, scope: string, redirectUri: string,
                        reqCnf: Option<string>): string
  {
    var base := Param(GrantTypeKey, AuthorizationCodeGrant) + "&" + Param(CodeKey, code) + "&" +
                Param(ClientIdKey, clientId) + "&" + Param(ScopeKey, scope) + "&" +
                Param(RedirectUriKey, redirectUri);
    match reqCnf
    case Some(c) => base + "&" + Param(ReqCnfKey, c)
    case None => base
  }

  /** The shell command that starts the helper program: the program path, then
      the title and the URL, each between double quotes. */
  function HelperCommand(installPrefix: string, title: string, url: string): string
  {
    installPrefix + "/bin/webview_window " + "\"" + title + "\"" + " " + "\"" + url + "\""
  }

  /** When neither the prefix, the title nor the URL holds a double quote, the
      command has exactly the title and the URL as its two quoted words, after
      the program path: the two arguments the helper program requires. */
  lemma HelperCommandQuotes(installPrefix: string, title: string, url: string)
    requires '"' !in installPrefix && '"' !in title && '"' !in url
    ensures Split(HelperCommand(installPrefix, title, url), '"')
            == [installPrefix + "/bin/webview_window ", title, " ", url, ""]
  {
    var program := installPrefix + "/bin/webview_window ";
    assert HelperCommand(installPrefix, title, url)
           == program + "\"" + (title + "\"" + (" " + "\"" + (url + "\"" + "")));
    SplitFour(title, " ", url, "", '"');
    SplitCons(program, '"', title + "\"" + (" " + "\"" + (url + "\"" + "")));
  }

  /** The parameters of the authorization URL's query, in order. */
  function AuthorizationParams(clientId: string, scope: string, redirectUri: string): seq<string>
  {
    [Param(ClientIdKey, clientId), Param(ResponseTypeKey, CodeKey), Param(ScopeKey, scope),
     Param(RedirectUriKey, redirectUri)]
  }

  /** The parameters of a token request, in order. */
  function TokenRequestParams(code: string, clientId: string, scope: string, redirectUri: string,
                              reqCnf: Option<string>): seq<string>
  {
    [Param(GrantTypeKey, AuthorizationCodeGrant), Param(CodeKey, code), Param(ClientIdKey, clientId),
     Param(ScopeKey, scope), Param(RedirectUriKey, redirectUri)]
    + (match reqCnf case Some(c) => [Param(ReqCnfKey, c)] case None => [])
  }

  /** A parameter whose key is not `code` never qualifies. */
  lemma KeyNotCode(key: string, value: string)
    requires key != "code" && '=' !in key
    ensures !IsCodePiece(Param(key, value))
  {
    SplitCons(key, '=', value);
  }

  /** The key `code` with a value free of `=` qualifies, with that value. */
  lemma CodeParamQualifies(value: string)
    requires '=' !in value
    ensures IsCodePiece(Param(CodeKey, value)) && PieceValue(Param(CodeKey, value)) == value
  {
    assert Param(CodeKey, value) == "code=" + value;
    CodePieceShape(Param(CodeKey, value), value);
  }

  /** The redirect URI is the fixed broker prefix followed by the client id. */
  lemma RedirectUriShape(clientId: string)
    ensures RedirectUri(clientId)[..|RedirectPrefix|] == RedirectPrefix
    ensures RedirectUri(clientId)[|RedirectPrefix|..] == clientId
    ensures '&' !in clientId ==> '&' !in RedirectUri(clientId)
  {
  }

  /** The authorization URL is the endpoint, `?`, and its parameters joined by `&`. */
  lemma AuthorizationUrlIsJoined(ep: string, clientId: string, scope: string, redirectUri: string)
    ensures var p := AuthorizationParams(clientId, scope, redirectUri);
            AuthorizationUrl(ep, clientId, scope, redirectUri) == ep + "?" + (p[0] + "&" + (p[1] + "&" + (p[2] + "&" + p[3])))
  {
  }

  /** The authorization URL is the endpoint, `?`, and a query of exactly four
      parameters in this order; none of them is mistaken for a returned code. */
  lemma AuthorizationUrlParams(ep: string, clientId: string, scope: string, redirectUri: string)
    requires '&' !in clientId && '&' !in scope && '&' !in redirectUri
    ensures exists q :: AuthorizationUrl(ep, clientId, scope, redirectUri) == ep + "?" + q
                        && Split(q, '&') == AuthorizationParams(clientId, scope, redirectUri)
                        && ScanQuery(q) == None
  {
    var p := AuthorizationParams(clientId, scope, redirectUri);
    var q := p[0] + "&" + (p[1] + "&" + (p[2] + "&" + p[3]));
    AuthorizationUrlIsJoined(ep, clientId, scope, redirectUri);
    SplitFour(p[0], p[1], p[2], p[3], '&');
    KeyNotCode(ClientIdKey, clientId);
    KeyNotCode(ResponseTypeKey, CodeKey);
    KeyNotCode(ScopeKey, scope);
    KeyNotCode(RedirectUriKey, redirectUri);
    FirstCodeNone(p);
  }

  /** A token request is its parameters joined by `&`. */
  lemma TokenRequestIsJoined(code: string, clientId: string, scope: string, redirectUri: string,
                             reqCnf: Option<string>)
    ensures var p := TokenRequestParams(code, clientId, scope, redirectUri, reqCnf);
            var last := match reqCnf case Some(c) => p[4] + "&" + p[5] case None => p[4];
            TokenRequest(code, clientId, scope, redirectUri, reqCnf) == p[0] + "&" + (p[1] + "&" + (p[2] + "&" + (p[3] + "&" + last)))
  {
    var g, k, i, sc, r := Param(GrantTypeKey, AuthorizationCodeGrant), Param(CodeKey, code),
                          Param(ClientIdKey, clientId), Param(ScopeKey, scope), Param(RedirectUriKey, redirectUri);
    var p := TokenRequestParams(code, clientId, scope, redirectUri, reqCnf);
    assert p[..5] == [g, k, i, sc, r];
    match reqCnf
    case Some(c) =>
      assert p[5] == Param(ReqCnfKey, c);
      AmpersandsNest(g, k, i, sc, r + "&" + p[5]);
      assert g + "&" + k + "&" + i + "&" + sc + "&" + r + "&" + p[5] == g + "&" + k + "&" + i + "&" + sc + "&" + (r + "&" + p[5]);
    case None =>
      AmpersandsNest(g, k, i, sc, r);
  }

  /** Joining five strings with `&` groups to the right as well as to the left. */
  lemma AmpersandsNest(a: string, b: string, c: string, d: string, e: string)
    ensures a + "&" + b + "&" + c + "&" + d + "&" + e == a + "&" + (b + "&" + (c + "&" + (d + "&" + e)))
  {
  }

  /** A token request is exactly its parameters joined by `&`, so splitting it
      gives them back in order (with `req_cnf` last on the AAD path). */
  lemma TokenRequestSplits(code: string, clientId: string, scope: string, redirectUri: string,
                           reqCnf: Option<string>)
    requires '&' !in code && '&' !in clientId && '&' !in scope && '&' !in redirectUri
    requires reqCnf.Some? ==> '&' !in reqCnf.value
    ensures Split(TokenRequest(code, clientId, scope, redirectUri, reqCnf), '&')
            == TokenRequestParams(code, clientId, scope, redirectUri, reqCnf)
  {
    var p := TokenRequestParams(code, clientId, scope, redirectUri, reqCnf);
    TokenRequestIsJoined(code, clientId, scope, redirectUri, reqCnf);
    var last := match reqCnf case Some(c) => p[4] + "&" + p[5] case None => p[4];
    var t3 := p[3] + "&" + last;
    if reqCnf.Some? {
      SplitFour(p[2], p[3], p[4], p[5], '&');
    } else {
      SplitFour(p[1], p[2], p[3], p[4], '&');
    }
    SplitCons(p[1], '&', p[2] + "&" + t3);
    SplitCons(p[0], '&', p[1] + "&" + (p[2] + "&" + t3));
  }

  /** The code placed in a token request is the code the handler's own scan
      would read back from it. */
  lemma TokenRequestCarriesCode(code: string, clientId: string, scope: string, redirectUri: string,
                                reqCnf: Option<string>)
    requires '&' !in code && '=' !in code && '&' !in clientId && '&' !in scope && '&' !in redirectUri
    requires reqCnf.Some? ==> '&' !in reqCnf.value
    ensures ScanQuery(TokenRequest(code, clientId, scope, redirectUri, reqCnf)) == Some(code)
  {
    TokenRequestSplits(code, clientId, scope, redirectUri, reqCnf);
    var p := TokenRequestParams(code, clientId, scope, redirectUri, reqCnf);
    KeyNotCode(GrantTypeKey, AuthorizationCodeGrant);
    CodeParamQualifies(code);
    FirstCodeAt(p, 1);
  }

  /** The AAD token request is the AVD-shaped request followed by `&req_cnf=`. */
  lemma AadRequestExtendsBase(code: string, clientId: string, scope: string, redirectUri: string, reqCnf: string)
    ensures TokenRequest(code, clientId, scope, redirectUri, Some(reqCnf))
            == TokenRequest(code, clientId, scope, redirectUri, None) + "&req_cnf=" + reqCnf
  {
  }

  // ---------------------------------------------------------------------------
  // Reading the helper's output

  datatype ExecResult = Output(text: string) | PopenFailed

  /** Runs the helper's pipe to its end; `pipe` is None when it cannot be opened
      (the source throws), else the chunks `fgets` reads. */
  method WebviewExec(pipe: Option<seq<string>>) returns (r: ExecResult)
    ensures pipe == None ==> r == PopenFailed
    ensures pipe.Some? ==> r == Output(Concat(pipe.value))
  {
    if pipe == None {
      return PopenFailed;
    }
    var chunks := pipe.value;
    var result := "";
    var i := 0;
    while i < |chunks|
      invariant 0 <= i <= |chunks|
      invariant result == Concat(chunks[..i])
    {
      assert chunks[..i + 1][..i] == chunks[..i];
      result := result + chunks[i];
      i := i + 1;
    }
    assert chunks[..i] == chunks;
    r := Output(result);
  }

  /** The code with the one line end the helper writes after it removed. */
  function StripLineEnd(s: string): (r: string)
    ensures s != "" && s[|s| - 1] == '\n' ==> r + "\n" == s
    ensures (s == "" || s[|s| - 1] != '\n') ==> r == s
  {
    if s != "" && s[|s| - 1] == '\n' then s[..|s| - 1] else s
  }

  // ---------------------------------------------------------------------------
  // What each routine decides to do

  /** A routine either throws (the pipe could not be opened), aborts returning
      FALSE, or hands a token request to the token exchange. */
  datatype Plan = Throws | Abort | Exchange(request: string)

  function ClientId(host: Host): string
  {
    FromSettings(host.settings, GatewayAvdClientID)
  }

  function Endpoint(host: Host): string
  {
    FromWellKnown(host.wellknown, AuthorizationEndpoint)
  }

  function RdsAadUrl(host: Host, scope: string): string
  {
    AuthorizationUrl(Endpoint(host), ClientId(host), scope, RedirectUri(ClientId(host)))
  }

  function RdsAadCommand(host: Host, scope: string): string
  {
    HelperCommand(host.installPrefix, AadTitle, RdsAadUrl(host, scope))
  }

  /** The RDS AAD helper is started with the AAD title and the authorization URL
      as its two quoted arguments. */
  lemma RdsAadCommandQuotes(host: Host, scope: string)
    requires '"' !in host.installPrefix && '"' !in RdsAadUrl(host, scope)
    ensures Split(RdsAadCommand(host, scope), '"')
            == [host.installPrefix + "/bin/webview_window ", AadTitle, " ", RdsAadUrl(host, scope), ""]
  {
    HelperCommandQuotes(host.installPrefix, AadTitle, RdsAadUrl(host, scope));
  }

  /** The RDS AAD decision once the code is known. */
  function RdsAadPlanWith(host: Host, scope: string, reqCnf: string, code: string): Plan
  {
    if code == "" then Abort
    else Exchange(TokenRequest(code, ClientId(host), scope, RedirectUri(ClientId(host)), Some(reqCnf)))
  }

  /** The RDS AAD path as written: the whole pipe output is the code. */
  function RdsAadPlanAsWritten(host: Host, scope: string, reqCnf: string): Plan
  {
    match host.run(RdsAadCommand(host, scope))
    case None => Throws
    case Some(chunks) => RdsAadPlanWith(host, scope, reqCnf, Concat(chunks))
  }

  /** The RDS AAD path with the helper's line end removed from its output. */
  function RdsAadPlan(host: Host, scope: string, reqCnf: string): Plan
  {
    match host.run(RdsAadCommand(host, scope))
    case None => Throws
    case Some(chunks) => RdsAadPlanWith(host, scope, reqCnf, StripLineEnd(Concat(chunks)))
  }

  function AvdUrl(host: Host): string
  {
    AuthorizationUrl(Endpoint(host), ClientId(host), AvdScope, RedirectUri(ClientId(host)))
  }

  /** The AVD path: the in-process session must succeed with a non-empty code. */
  function AvdPlan(host: Host): Plan
  {
    var (rc, code) := ImplRun(host.browse(AvdTitle, AvdUrl(host)), "");
    if !rc || code == "" then Abort
    else Exchange(TokenRequest(code, ClientId(host), AvdScope, RedirectUri(ClientId(host)), None))
  }

  /** How a routine returns: with its BOOL result and the caller's token, or by
      an exception (the token already cleared). */
  datatype Outcome = Returned(ok: bool, token: Option<string>) | Threw(token: Option<string>)

  /** Carrying out a plan: the token is cleared first; only an exchange calls
      the token endpoint. */
  function Perform(plan: Plan, exchange: string -> Reply): Outcome
  {
    match plan
    case Throws => Threw(None)
    case Abort => Returned(false, None)
    case Exchange(request) => Returned(exchange(request).ok, exchange(request).token)
  }

  // ---------------------------------------------------------------------------
  // Properties of the decisions

  /** The RDS AAD path aborts exactly when the code is empty; otherwise the
      request carries the code, the client id, the scope, the redirect URI and
      `req_cnf`, in that order. */
  lemma RdsAadPlanWithDecides(host: Host, scope: string, reqCnf: string, code: string)
    requires '&' !in code && '&' !in ClientId(host) && '&' !in scope && '&' !in reqCnf
    ensures RdsAadPlanWith(host, scope, reqCnf, code) == Abort <==> code == ""
    ensures code != "" ==> Split(RdsAadPlanWith(host, scope, reqCnf, code).request, '&')
                           == TokenRequestParams(code, ClientId(host), scope, RedirectUri(ClientId(host)), Some(reqCnf))
  {
    if code != "" {
      TokenRequestSplits(code, ClientId(host), scope, RedirectUri(ClientId(host)), Some(reqCnf));
    }
  }

  /** When the helper found no code it prints nothing, and the RDS AAD path
      aborts without a token exchange, whatever chunks the output came in. */
  lemma RdsAadNoCodeAborts(host: Host, scope: string, reqCnf: string, h: HandlerState)
    requires host.run(RdsAadCommand(host, scope)).Some?
    requires Concat(host.run(RdsAadCommand(host, scope)).value) == HelperStdout(h)
    requires h.code == ""
    ensures RdsAadPlan(host, scope, reqCnf) == Abort
    ensures Perform(RdsAadPlan(host, scope, reqCnf), host.exchange) == Returned(false, None)
  {
  }

  /** With the line end removed, the RDS AAD request carries exactly the code
      the helper captured. */
  lemma RdsAadSendsCapturedCode(host: Host, scope: string, reqCnf: string, h: HandlerState)
    requires host.run(RdsAadCommand(host, scope)).Some?
    requires Concat(host.run(RdsAadCommand(host, scope)).value) == HelperStdout(h)
    requires h.code != ""
    ensures RdsAadPlan(host, scope, reqCnf)
            == Exchange(TokenRequest(h.code, ClientId(host), scope, RedirectUri(ClientId(host)), Some(reqCnf)))
  {
    var out := HelperStdout(h);
    assert StripLineEnd(out) == h.code;
  }

  /** As written, the RDS AAD request carries the captured code followed by the
      helper's line end: its `code` parameter is `code=<c>\n`, not `code=<c>`. */
  lemma RdsAadAsWrittenSendsLineEnd(host: Host, scope: string, reqCnf: string, h: HandlerState)
    requires host.run(RdsAadCommand(host, scope)).Some?
    requires Concat(host.run(RdsAadCommand(host, scope)).value) == HelperStdout(h)
    requires h.code != "" && '&' !in h.code && '&' !in ClientId(host) && '&' !in scope && '&' !in reqCnf
    ensures RdsAadPlanAsWritten(host, scope, reqCnf).Exchange?
    ensures Split(RdsAadPlanAsWritten(host, scope, reqCnf).request, '&')
            == TokenRequestParams(h.code + "\n", ClientId(host), scope, RedirectUri(ClientId(host)), Some(reqCnf))
    ensures RdsAadPlanAsWritten(host, scope, reqCnf) != RdsAadPlan(host, scope, reqCnf)
  {
    var out := HelperStdout(h);
    assert out == h.code + "\n";
    RdsAadPlanWithDecides(host, scope, reqCnf, out);
    RdsAadSendsCapturedCode(host, scope, reqCnf, h);
    var cid := ClientId(host);
    var asWritten := TokenRequest(out, cid, scope, RedirectUri(cid), Some(reqCnf));
    var corrected := TokenRequest(h.code, cid, scope, RedirectUri(cid), Some(reqCnf));
    assert |asWritten| == |corrected| + 1;
  }

  /** The AVD path aborts exactly when the session ended without a code;
      otherwise its request carries the captured code and no `req_cnf`. */
  lemma AvdPlanDecides(host: Host)
    requires '&' !in ClientId(host)
    ensures var h := host.browse(AvdTitle, AvdUrl(host));
            (AvdPlan(host) == Abort <==> h.code == "")
            && (h.code != "" && '&' !in h.code ==>
                  Split(AvdPlan(host).request, '&')
                  == TokenRequestParams(h.code, ClientId(host), AvdScope, RedirectUri(ClientId(host)), None))
  {
    var h := host.browse(AvdTitle, AvdUrl(host));
    if h.code != "" && '&' !in h.code {
      TokenRequestSplits(h.code, ClientId(host), AvdScope, RedirectUri(ClientId(host)), None);
    }
  }

  /** A session whose URLs carry no non-empty code, however many it visits and
      whether or not the window closes, leads the AVD path to return FALSE with
      a cleared token and no token exchange. */
  lemma AvdNoCodeNoExchange(host: Host, events: seq<Event>)
    requires CarriesNoCode(events)
    requires host.browse(AvdTitle, AvdUrl(host)) == Replay(Initial, events)
    ensures AvdPlan(host) == Abort
    ensures Perform(AvdPlan(host), host.exchange) == Returned(false, None)
  {
    ReplayKeepsEmptyCode(Initial, events);
  }

  /** Whatever code a session captures, the AVD request carries it so that the
      handler's own scan reads back exactly that code. */
  lemma AvdSendsSessionCode(host: Host, events: seq<Event>)
    requires '&' !in ClientId(host)
    requires host.browse(AvdTitle, AvdUrl(host)) == Replay(Initial, events)
    requires Replay(Initial, events).code != ""
    ensures AvdPlan(host).Exchange?
    ensures ScanQuery(AvdPlan(host).request) == Some(Replay(Initial, events).code)
  {
    var code := Replay(Initial, events).code;
    ReplayCodeClean(Initial, events);
    TokenRequestCarriesCode(code, ClientId(host), AvdScope, RedirectUri(ClientId(host)), None);
  }

  // ---------------------------------------------------------------------------
  // The routines, writing the caller's token

  /** The RDS AAD routine: clears the token, runs the helper program, and hands
      the token request to the exchange unless the code is empty. The line end
      after the code is removed. */
  method GetRdsAadAccessToken(host: Host, scope: string, reqCnf: string) returns (outcome: Outcome)
    ensures outcome == Perform(RdsAadPlan(host, scope, reqCnf), host.exchange)
    ensures outcome.token == None || (outcome.Returned? && RdsAadPlan(host, scope, reqCnf).Exchange?)
  {
    var clientId := FromSettings(host.settings, GatewayAvdClientID);
    var redirectUri := RedirectUri(clientId);
    var token: Option<string> := None;
    var ep := FromWellKnown(host.wellknown, AuthorizationEndpoint);
    var url := AuthorizationUrl(ep, clientId, scope, redirectUri);
    var command := HelperCommand(host.installPrefix, AadTitle, url);
    var exec := WebviewExec(host.run(command));
    if exec.PopenFailed? {
      return Threw(token);
    }
    var code := StripLineEnd(exec.text);
    if code == "" {
      return Returned(false, token);
    }
    var request := TokenRequest(code, clientId, scope, redirectUri, Some(reqCnf));
    var reply := host.exchange(request);
    token := reply.token;
    outcome := Returned(reply.ok, token);
  }

  /** The AVD routine: clears the token, runs the in-process session with the
      fixed AVD scope, and fails unless it succeeded with a non-empty code. */
  method GetAvdAccessToken(host: Host) returns (outcome: Outcome)
    ensures outcome == Perform(AvdPlan(host), host.exchange)
    ensures outcome.Returned?
  {
    var clientId := FromSettings(host.settings, GatewayAvdClientID);
    var redirectUri := RedirectUri(clientId);
    var scope := AvdScope;
    var token: Option<string> := None;
    var ep := FromWellKnown(host.wellknown, AuthorizationEndpoint);
    var url := AuthorizationUrl(ep, clientId, scope, redirectUri);
    var code := "";
    var run := ImplRun(host.browse(AvdTitle, url), code);
    var rc := run.0;
    code := run.1;
    if !rc || code == "" {
      return Returned(false, token);
    }
    var request := TokenRequest(code, clientId, scope, redirectUri, None);
    var reply := host.exchange(request);
    token := reply.token;
    outcome := Returned(reply.ok, token);
  }

  // ---------------------------------------------------------------------------
  // Dispatch on the token type

  /** Where a request goes: rejected for too few arguments, rejected for an
      unknown type, or to one of the two routines (with whether the argument
      count draws a warning). */
  datatype Route =
    | TooFewArguments
    | UnknownType
    | ToAad(scope: string, reqCnf: string, warned: bool)
    | ToAvd(warned: bool)

  /** The switch on the token type; `args` are the additional arguments, so
      the count is |args|. */
  function Dispatch(tokenType: AccessTokenType, args: seq<string>): (r: Route)
    ensures tokenType == AccessTokenTypeAad ==> (r == TooFewArguments <==> |args| < 2)
    ensures tokenType == AccessTokenTypeAad && |args| >= 2 ==> r == ToAad(args[0], args[1], |args| > 2)
    ensures tokenType == AccessTokenTypeAvd ==> r == ToAvd(|args| != 0)
    ensures tokenType.OtherTokenType? ==> r == UnknownType
  {
    match tokenType
    case AccessTokenTypeAad =>
      if |args| < 2 then TooFewArguments else ToAad(args[0], args[1], |args| > 2)
    case AccessTokenTypeAvd => ToAvd(|args| != 0)
    case OtherTokenType(_) => UnknownType
  }

  /** Arguments beyond the first two of an AAD request change nothing but the
      warning. */
  lemma ExtraAadArgumentsIgnored(args: seq<string>, more: seq<string>)
    requires |args| >= 2
    ensures Dispatch(AccessTokenTypeAad, args + more).scope == Dispatch(AccessTokenTypeAad, args).scope
    ensures Dispatch(AccessTokenTypeAad, args + more).reqCnf == Dispatch(AccessTokenTypeAad, args).reqCnf
  {
  }

  /** The entry point: a rejected request returns FALSE and leaves the caller's
      token as it was; otherwise the chosen routine decides. */
  method GetAccessToken(host: Host, tokenType: AccessTokenType, args: seq<string>, tokenIn: Option<string>)
    returns (outcome: Outcome)
    ensures tokenType.OtherTokenType? ==> outcome == Returned(false, tokenIn)
    ensures tokenType == AccessTokenTypeAad && |args| < 2 ==> outcome == Returned(false, tokenIn)
    ensures tokenType == AccessTokenTypeAad && |args| >= 2 ==>
              outcome == Perform(RdsAadPlan(host, args[0], args[1]), host.exchange)
    ensures tokenType == AccessTokenTypeAvd ==> outcome == Perform(AvdPlan(host), host.exchange)
  {
    var route := Dispatch(tokenType, args);
    match route
    case TooFewArguments =>
      outcome := Returned(false, tokenIn);
    case UnknownType =>
      outcome := Returned(false, tokenIn);
    case ToAad(scope, reqCnf, _) =>
      outcome := GetRdsAadAccessToken(host, scope, reqCnf);
    case ToAvd(_) =>
      outcome := GetAvdAccessToken(host);
  }
}
