/**
 * The redirect handler of the AAD sign-in browser view (class SchemeHandler).
 * It watches the URLs the browser view visits and captures the authorization
 * code carried by the first `code=<value>` parameter of a URL's query.
 * The query is a plain character sequence; it is split on `&` into parameters
 * and each parameter on `=` into a key and a value.
 */
module SchemeHandlers {
  import opened Wrappers
  import opened QText

  /** A URL, reduced to what the handler looks at. */
  datatype Url = Url(scheme: string, query: string)

  /** A request job of the browser engine; the handler only reads its URL. */
  datatype RequestJob = RequestJob(requestUrl: Url)

  /** A parameter qualifies when it splits on `=` into exactly two parts whose
      first part is `code`. */
  predicate IsCodePiece(param: string)
  {
    var pair := Split(param, '=');
    |pair| == 2 && pair[0] == "code"
  }

  /** The value of a qualifying parameter. */
  function PieceValue(param: string): string
    requires IsCodePiece(param)
  {
    Split(param, '=')[1]
  }

  /** The value of the first qualifying parameter, if any. */
  function FirstCode(params: seq<string>): Option<string>
  {
    if params == [] then None
    else if IsCodePiece(params[0]) then Some(PieceValue(params[0]))
    else FirstCode(params[1..])
  }

  /** The code a query carries: the value of its first qualifying parameter. */
  function ScanQuery(query: string): Option<string>
  {
    FirstCode(Split(query, '&'))
  }

  // ---------------------------------------------------------------------------
  // Which parameters qualify

  /** A parameter qualifies with value `v` exactly when it is `code=` followed by
      a `v` without any further `=`. */
  lemma CodePieceShape(param: string, v: string)
    ensures (IsCodePiece(param) && PieceValue(param) == v) <==> (param == "code=" + v && '=' !in v)
  {
    if param == "code=" + v && '=' !in v {
      assert param == "code" + ['='] + v;
      SplitAround("code", '=', v);
      SplitWithoutSeparator("code", '=');
      SplitWithoutSeparator(v, '=');
    }
    if IsCodePiece(param) && PieceValue(param) == v {
      var pair := Split(param, '=');
      JoinSplit(param, '=');
      assert pair[1..] == [v];
      assert Join(pair, '=') == pair[0] + ['='] + pair[1];
    }
  }

  /** `code=` with nothing after it still qualifies, with the empty value. */
  lemma EmptyValueQualifies()
    ensures IsCodePiece("code=") && PieceValue("code=") == ""
  {
    CodePieceShape("code=", "");
  }

  /** Parameters without a value, with a second `=`, or with another key are
      skipped. */
  lemma SkippedPieces()
    ensures !IsCodePiece("code")
    ensures !IsCodePiece("code=a=b")
    ensures !IsCodePiece("xcode=1")
  {
    assert "xcode=1" == "xcode" + ['='] + "1";
    SplitCons("xcode", '=', "1");
    SplitWithoutSeparator("1", '=');
  }

  // ---------------------------------------------------------------------------
  // The scan picks the first qualifying parameter

  /** If parameter `i` is the first that qualifies, its value is the result. */
  lemma {:induction false} FirstCodeAt(params: seq<string>, i: nat)
    requires i < |params| && IsCodePiece(params[i])
    requires forall j :: 0 <= j < i ==> !IsCodePiece(params[j])
    ensures FirstCode(params) == Some(PieceValue(params[i]))
    decreases i
  {
    if i > 0 {
      assert !IsCodePiece(params[0]);
      FirstCodeAt(params[1..], i - 1);
    }
  }

  /** A result always comes from a qualifying parameter with no qualifying one
      before it. */
  lemma {:induction false} FirstCodeIsFirst(params: seq<string>) returns (i: nat)
    requires FirstCode(params).Some?
    ensures i < |params| && IsCodePiece(params[i])
    ensures PieceValue(params[i]) == FirstCode(params).value
    ensures forall j :: 0 <= j < i ==> !IsCodePiece(params[j])
    decreases |params|
  {
    if IsCodePiece(params[0]) {
      i := 0;
    } else {
      var k := FirstCodeIsFirst(params[1..]);
      i := k + 1;
    }
  }

  /** No result exactly when no parameter qualifies. */
  lemma {:induction false} FirstCodeNone(params: seq<string>)
    ensures FirstCode(params) == None <==> forall j :: 0 <= j < |params| ==> !IsCodePiece(params[j])
    decreases |params|
  {
    if params != [] {
      FirstCodeNone(params[1..]);
      assert forall j :: 1 <= j < |params| ==> params[j] == params[1..][j - 1];
    }
  }

  /** Parameters after the first qualifying one play no part. */
  lemma {:induction false} FirstCodeIgnoresLater(params: seq<string>, later: seq<string>)
    requires FirstCode(params).Some?
    ensures FirstCode(params + later) == FirstCode(params)
    decreases |params|
  {
    assert (params + later)[0] == params[0];
    if !IsCodePiece(params[0]) {
      assert (params + later)[1..] == params[1..] + later;
      FirstCodeIgnoresLater(params[1..], later);
    }
  }

  /** Once a query carries a code, anything appended after a further `&` (a
      later `code=` included) does not change the code found. */
  lemma LaterParametersIgnored(query: string, more: string)
    requires ScanQuery(query).Some?
    ensures ScanQuery(query + "&" + more) == ScanQuery(query)
  {
    SplitAround(query, '&', more);
    FirstCodeIgnoresLater(Split(query, '&'), Split(more, '&'));
  }

  /** A query that is the single parameter `code=v` carries `v`, for every `v`
      without `&` or `=` (the empty `v` included). */
  lemma SingleCodeParameter(v: string)
    requires '&' !in v && '=' !in v
    ensures ScanQuery("code=" + v) == Some(v)
  {
    SplitWithoutSeparator("code=" + v, '&');
    CodePieceShape("code=" + v, v);
  }

  /** A code found by the scan holds neither separator: no `=` because it is
      one part of a split on `=`, no `&` because its parameter is one part of a
      split on `&`. */
  lemma ScanValueClean(query: string)
    requires ScanQuery(query).Some?
    ensures '&' !in ScanQuery(query).value && '=' !in ScanQuery(query).value
  {
    var params := Split(query, '&');
    var i := FirstCodeIsFirst(params);
    var v := ScanQuery(query).value;
    assert v == Split(params[i], '=')[1];
    if '&' in v {
      SplitPartsWithin(params[i], '=', 1, '&');
    }
  }

  // ---------------------------------------------------------------------------
  // The handler's state and its transitions

  /** The handler's three fields: `windowClosed`, `m_code` and `foundCode`. */
  datatype HandlerState = HandlerState(windowClosed: bool, code: string, foundCode: bool)

  /** A freshly constructed handler. */
  const Initial := HandlerState(false, "", false)

  /** The state after the handler has looked at a URL with the given query. */
  function AfterHandle(s: HandlerState, query: string): HandlerState
  {
    match ScanQuery(query)
    case Some(v) => s.(code := v, foundCode := true)
    case None => s
  }

  /** The state after the browser window was closed. */
  function AfterClose(s: HandlerState): HandlerState
  {
    s.(windowClosed := true)
  }

  /** Looking at the same URL twice is the same as looking at it once. */
  lemma HandleIdempotent(s: HandlerState, query: string)
    ensures AfterHandle(AfterHandle(s, query), query) == AfterHandle(s, query)
  {
  }

  /** The resulting state: the first qualifying value is stored and marked found;
      otherwise nothing changes; the window flag is never touched. */
  lemma HandleOutcome(s: HandlerState, query: string)
    ensures AfterHandle(s, query).windowClosed == s.windowClosed
    ensures forall i :: 0 <= i < |Split(query, '&')| && IsCodePiece(Split(query, '&')[i])
                       && (forall j :: 0 <= j < i ==> !IsCodePiece(Split(query, '&')[j]))
                       ==> AfterHandle(s, query) == s.(code := PieceValue(Split(query, '&')[i]), foundCode := true)
    ensures (forall j :: 0 <= j < |Split(query, '&')| ==> !IsCodePiece(Split(query, '&')[j]))
            ==> AfterHandle(s, query) == s
  {
    var params := Split(query, '&');
    forall i | 0 <= i < |params| && IsCodePiece(params[i]) && (forall j :: 0 <= j < i ==> !IsCodePiece(params[j]))
      ensures AfterHandle(s, query) == s.(code := PieceValue(params[i]), foundCode := true)
    {
      FirstCodeAt(params, i);
      assert ScanQuery(query) == Some(PieceValue(params[i]));
    }
    FirstCodeNone(params);
    if forall j :: 0 <= j < |params| ==> !IsCodePiece(params[j]) {
      assert ScanQuery(query) == None;
    }
  }

  /** Once found, a code stays found whatever URL comes next. */
  lemma FoundStaysFound(s: HandlerState, query: string)
    requires s.foundCode
    ensures AfterHandle(s, query).foundCode
  {
  }

  /** Closing the window and looking at a URL do not interfere. */
  lemma CloseCommutesWithHandle(s: HandlerState, query: string)
    ensures AfterClose(AfterHandle(s, query)) == AfterHandle(AfterClose(s), query)
    ensures AfterClose(s).code == s.code && AfterClose(s).foundCode == s.foundCode
  {
  }

  /** A query without a qualifying parameter leaves a fresh handler with no code. */
  lemma NoCodeLeavesHandlerEmpty(query: string)
    requires forall j :: 0 <= j < |Split(query, '&')| ==> !IsCodePiece(Split(query, '&')[j])
    ensures AfterHandle(Initial, query) == Initial
  {
    FirstCodeNone(Split(query, '&'));
  }

  // ---------------------------------------------------------------------------
  // A whole sign-in session

  /** What the browser view makes the handler see: a visited URL, by its
      query, or the window closing. */
  datatype Event = Visit(query: string) | Close

  /** The handler's state after the events of a session, in order. */
  function Replay(s: HandlerState, events: seq<Event>): HandlerState
    decreases |events|
  {
    if events == [] then s
    else
      var next := match events[0] case Visit(q) => AfterHandle(s, q) case Close => AfterClose(s);
      Replay(next, events[1..])
  }

  /** No visited URL of the session carries a non-empty code. */
  predicate CarriesNoCode(events: seq<Event>)
  {
    forall i :: 0 <= i < |events| && events[i].Visit? ==> ScanQuery(events[i].query) in {None, Some("")}
  }

  /** A session whose URLs carry no non-empty code, however many URLs it visits
      and whether or not the window closes, leaves an empty code empty. */
  lemma {:induction false} ReplayKeepsEmptyCode(s: HandlerState, events: seq<Event>)
    requires s.code == "" && CarriesNoCode(events)
    ensures Replay(s, events).code == ""
    decreases |events|
  {
    if events != [] {
      var next := match events[0] case Visit(q) => AfterHandle(s, q) case Close => AfterClose(s);
      forall i | 0 <= i < |events[1..]| && events[1..][i].Visit?
        ensures ScanQuery(events[1..][i].query) in {None, Some("")}
      {
        assert events[1..][i] == events[i + 1];
      }
      ReplayKeepsEmptyCode(next, events[1..]);
    }
  }

  /** Whatever a session captures holds neither `&` nor `=`, provided the
      starting code did not. */
  lemma {:induction false} ReplayCodeClean(s: HandlerState, events: seq<Event>)
    requires '&' !in s.code && '=' !in s.code
    ensures '&' !in Replay(s, events).code && '=' !in Replay(s, events).code
    decreases |events|
  {
    if events != [] {
      var next := match events[0] case Visit(q) => AfterHandle(s, q) case Close => AfterClose(s);
      if events[0].Visit? && ScanQuery(events[0].query).Some? {
        ScanValueClean(events[0].query);
      }
      ReplayCodeClean(next, events[1..]);
    }
  }

  // ---------------------------------------------------------------------------
  // The handler object

  class SchemeHandler {
    /** Set when the browser window is closed; public in the source. */
    var windowClosed: bool
    /** The captured authorization code (`m_code`). */
    var storedCode: string
    /** Whether a code has been captured (`foundCode`). */
    var foundCode: bool

    /** The fields as a value. */
    function State(): HandlerState
      reads this
    {
      HandlerState(windowClosed, storedCode, foundCode)
    }

    constructor ()
      ensures State() == Initial
      ensures !windowClosed && storedCode == "" && !foundCode
    {
      windowClosed := false;
      storedCode := "";
      foundCode := false;
    }

    /** Scans the query of `url` for the first qualifying `code=` parameter and
        stores its value. */
    method HandleUrl(url: Url)
      modifies this
      ensures State() == AfterHandle(old(State()), url.query)
    {
      var params := Split(url.query, '&');
      var i := 0;
      while i < |params|
        invariant 0 <= i <= |params|
        invariant FirstCode(params[i..]) == FirstCode(params)
        invariant State() == old(State())
      {
        var pair := Split(params[i], '=');
        if |pair| != 2 || pair[0] != "code" {
          assert params[i..][1..] == params[i + 1..];
          i := i + 1;
          continue;
        }
        assert params[i..][0] == params[i];
        storedCode := pair[1];
        foundCode := true;
        break;
      }
    }

    /** The browser engine's callback for a request to the registered scheme:
        the same extraction, on the request's URL. */
    method RequestStarted(request: RequestJob)
      modifies this
      ensures State() == AfterHandle(old(State()), request.requestUrl.query)
    {
      HandleUrl(request.requestUrl);
    }

    /** Records that the browser window was closed. */
    method CloseWindow()
      modifies this
      ensures State() == AfterClose(old(State()))
    {
      windowClosed := true;
    }

    /** The captured code; reads only. */
    method Code() returns (c: string)
      ensures c == storedCode
    {
      c := storedCode;
    }

    /** Whether a code was captured; reads only. */
    method HasFoundCode() returns (b: bool)
      ensures b == foundCode
    {
      b := foundCode;
    }
  }

  /** Handling the same URL twice on a handler object leaves it as handling it once. */
  method HandleUrlTwice(h: SchemeHandler, url: Url)
    modifies h
    ensures h.State() == AfterHandle(old(h.State()), url.query)
  {
    h.HandleUrl(url);
    h.HandleUrl(url);
    HandleIdempotent(old(h.State()), url.query);
  }
}
