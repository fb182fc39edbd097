/**
 * What the browser-view helper makes of the handler's state once its event
 * loop has stopped: the in-process entry point's result, and the line the
 * stand-alone helper program writes to its standard output.
 */
module WebviewWindow {
  import opened Wrappers
  import opened SchemeHandlers

  /** The event loop keeps polling until a code was found or the window closed. */
  predicate SessionOver(h: HandlerState)
  {
    h.foundCode || h.windowClosed
  }

  /** A URL carrying a code ends the session, and so does closing the window. */
  lemma SessionEnds(h: HandlerState, query: string)
    ensures ScanQuery(query).Some? ==> SessionOver(AfterHandle(h, query))
    ensures SessionOver(AfterClose(h))
  {
  }

  /** The in-process entry point: given the handler's final state and the
      caller's `code` variable, whether it succeeds and what `code` holds after.
      It fails, leaving `code` as it was, exactly when the captured code is empty. */
  function ImplRun(final: HandlerState, codeIn: string): (r: (bool, string))
    ensures r.0 <==> final.code != ""
    ensures r.0 ==> r.1 == final.code && r.1 != ""
    ensures !r.0 ==> r.1 == codeIn
  {
    if final.code == "" then (false, codeIn) else (true, final.code)
  }

  /** What the helper program prints: nothing on failure, otherwise the code
      followed by the line end that `std::endl` writes. */
  function HelperStdout(final: HandlerState): (out: string)
    ensures out == "" <==> final.code == ""
    ensures out != "" ==> out[..|out| - 1] == final.code && out[|out| - 1] == '\n'
  {
    var (rc, code) := ImplRun(final, "");
    if !rc || code == "" then "" else code + "\n"
  }

  /** A browser session whose URLs carry no non-empty code, however many it
      visits and whether or not the window closes, makes the entry point fail
      and the helper print nothing. */
  lemma NoCodeNoOutput(events: seq<Event>)
    requires CarriesNoCode(events)
    ensures HelperStdout(Replay(Initial, events)) == ""
    ensures !ImplRun(Replay(Initial, events), "").0
  {
    ReplayKeepsEmptyCode(Initial, events);
  }
}
