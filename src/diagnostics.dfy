/** What the loader reports to webpack: warnings, build dependencies and the
    single completion callback, recorded as an ordered log of host calls, and
    the routing of a failure to that callback. */
module Diagnostics {
  import opened JsValues
  import opened Collaborators

  /** The error handed to the callback: a `CssSyntaxError` wrapped in a
      `PostCSSLoaderError`, anything else as it was thrown. */
  datatype Reported = LoaderError(cause: JsError) | Passed(cause: JsError)

  datatype CallbackArgs = Failed(error: Reported) | Succeeded(html: string)

  /** One call into the webpack loader context. */
  datatype HostEvent =
    | Warning(text: string)       // loader.emitWarning(text)
    | Dependency(file: JsValue)   // loader.addDependency(file)
    | Done(args: CallbackArgs)    // callback(error) or callback(null, html)

  /** The catch handler's routing of a rejection. */
  function Classify(e: JsError): (r: Reported)
    ensures r.cause == e
    ensures r.LoaderError? <==> e.name == "CssSyntaxError"
  {
    if e.name == "CssSyntaxError" then LoaderError(e) else Passed(e)
  }

  /** index.js:165-174: `callback(null, html)` when the handler resolved,
      otherwise `callback(error)` with the rejection routed by `Classify`. */
  function CallbackFor(outcome: Result<string>): (args: CallbackArgs)
    ensures args.Succeeded? <==> outcome.Ok?
    ensures args.Succeeded? ==> args.html == outcome.value
    ensures args.Failed? ==> args.error.cause == outcome.error
    ensures args.Failed? ==> (args.error.LoaderError? <==> outcome.error.name == "CssSyntaxError")
  {
    match outcome
    case Ok(html) => Succeeded(html)
    case Err(e) => Failed(Classify(e))
  }

  predicate IsDependency(m: Message) {
    m.kind == Str("dependency")
  }

  /** The host calls for one result's warnings, in order. */
  function WarningEvents(ws: seq<string>): seq<HostEvent> {
    if |ws| == 0 then [] else WarningEvents(ws[..|ws| - 1]) + [Warning(ws[|ws| - 1])]
  }

  /** The host calls for one result's messages: a dependency per message of
      type `dependency`, in order. */
  function DependencyEvents(ms: seq<Message>): seq<HostEvent> {
    if |ms| == 0 then []
    else
      var last := ms[|ms| - 1];
      DependencyEvents(ms[..|ms| - 1]) + if IsDependency(last) then [Dependency(last.file)] else []
  }

  /** The host calls made while walking the results (index.js:153-163):
      for each result in turn, its warnings and then its dependencies. */
  function ResultEvents(rs: seq<CssResult>): seq<HostEvent> {
    if |rs| == 0 then []
    else
      var last := rs[|rs| - 1];
      ResultEvents(rs[..|rs| - 1]) + WarningEvents(last.warnings) + DependencyEvents(last.messages)
  }

  /** The warnings a log delivers, in order. */
  function Warnings(evs: seq<HostEvent>): seq<string> {
    if |evs| == 0 then []
    else (if evs[0].Warning? then [evs[0].text] else []) + Warnings(evs[1..])
  }

  /** The dependencies a log registers, in order. */
  function Dependencies(evs: seq<HostEvent>): seq<JsValue> {
    if |evs| == 0 then []
    else (if evs[0].Dependency? then [evs[0].file] else []) + Dependencies(evs[1..])
  }

  /** How many times a log invokes the callback. */
  function Callbacks(evs: seq<HostEvent>): nat {
    if |evs| == 0 then 0
    else (if evs[0].Done? then 1 else 0) + Callbacks(evs[1..])
  }

  /** Every result's warnings, concatenated in result order. */
  function AllWarnings(rs: seq<CssResult>): seq<string> {
    if |rs| == 0 then [] else rs[0].warnings + AllWarnings(rs[1..])
  }

  /** The files of the dependency messages among `ms`, in order. */
  function DependencyFilesOf(ms: seq<Message>): seq<JsValue> {
    if |ms| == 0 then []
    else (if IsDependency(ms[0]) then [ms[0].file] else []) + DependencyFilesOf(ms[1..])
  }

  /** The files of every result's dependency messages, in result order. */
  function DependencyFiles(rs: seq<CssResult>): seq<JsValue> {
    if |rs| == 0 then [] else DependencyFilesOf(rs[0].messages) + DependencyFiles(rs[1..])
  }

  lemma Associative(a: seq<HostEvent>, b: seq<HostEvent>, c: seq<HostEvent>)
    ensures a + (b + c) == (a + b) + c
  {
  }

  lemma AppendNothing(a: seq<HostEvent>)
    ensures a + [] == a
  {
  }

  lemma {:induction false} ViewsOfAppend(a: seq<HostEvent>, b: seq<HostEvent>)
    ensures Warnings(a + b) == Warnings(a) + Warnings(b)
    ensures Dependencies(a + b) == Dependencies(a) + Dependencies(b)
    ensures Callbacks(a + b) == Callbacks(a) + Callbacks(b)
  {
    if |a| > 0 {
      ViewsOfAppend(a[1..], b);
      assert (a + b)[1..] == a[1..] + b;
    } else {
      assert a + b == b;
    }
  }

  lemma {:induction false} AllWarningsOfSnoc(rs: seq<CssResult>, r: CssResult)
    ensures AllWarnings(rs + [r]) == AllWarnings(rs) + r.warnings
    ensures DependencyFiles(rs + [r]) == DependencyFiles(rs) + DependencyFilesOf(r.messages)
  {
    if |rs| > 0 {
      AllWarningsOfSnoc(rs[1..], r);
      assert (rs + [r])[1..] == rs[1..] + [r];
    } else {
      assert rs + [r] == [r];
    }
  }

  lemma {:induction false} DependencyFilesOfSnoc(ms: seq<Message>, m: Message)
    ensures DependencyFilesOf(ms + [m]) == DependencyFilesOf(ms) + if IsDependency(m) then [m.file] else []
  {
    if |ms| > 0 {
      DependencyFilesOfSnoc(ms[1..], m);
      assert (ms + [m])[1..] == ms[1..] + [m];
    } else {
      assert ms + [m] == [m];
    }
  }

  lemma {:induction false} WarningEventsView(ws: seq<string>)
    ensures Warnings(WarningEvents(ws)) == ws
    ensures Dependencies(WarningEvents(ws)) == []
    ensures Callbacks(WarningEvents(ws)) == 0
  {
    if |ws| > 0 {
      WarningEventsView(ws[..|ws| - 1]);
      ViewsOfAppend(WarningEvents(ws[..|ws| - 1]), [Warning(ws[|ws| - 1])]);
      assert ws == ws[..|ws| - 1] + [ws[|ws| - 1]];
    }
  }

  lemma {:induction false} DependencyEventsView(ms: seq<Message>)
    ensures Warnings(DependencyEvents(ms)) == []
    ensures Dependencies(DependencyEvents(ms)) == DependencyFilesOf(ms)
    ensures Callbacks(DependencyEvents(ms)) == 0
  {
    if |ms| > 0 {
      var front, last := ms[..|ms| - 1], ms[|ms| - 1];
      DependencyEventsView(front);
      ViewsOfAppend(DependencyEvents(front), if IsDependency(last) then [Dependency(last.file)] else []);
      DependencyFilesOfSnoc(front, last);
      assert ms == front + [last];
    }
  }

  /** Walking the results delivers exactly every result's warnings in result
      order, registers exactly the files of the `dependency` messages in
      result order, and never invokes the callback. */
  lemma {:induction false} ResultEventsView(rs: seq<CssResult>)
    ensures Warnings(ResultEvents(rs)) == AllWarnings(rs)
    ensures Dependencies(ResultEvents(rs)) == DependencyFiles(rs)
    ensures Callbacks(ResultEvents(rs)) == 0
  {
    if |rs| > 0 {
      var front, last := rs[..|rs| - 1], rs[|rs| - 1];
      ResultEventsView(front);
      WarningEventsView(last.warnings);
      DependencyEventsView(last.messages);
      ViewsOfAppend(ResultEvents(front), WarningEvents(last.warnings));
      ViewsOfAppend(ResultEvents(front) + WarningEvents(last.warnings), DependencyEvents(last.messages));
      AllWarningsOfSnoc(front, last);
      assert rs == front + [last];
    }
  }
}
