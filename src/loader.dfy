/** The exported loader function (index.js:42-175): it works out the
    configuration, assembles the PostCSS options, runs every CSS fragment of
    the HTML source through PostCSS, writes the results back and reports to
    webpack through its loader context. */
module Loader {
  import opened JsValues
  import opened Collaborators
  import opened LoaderOptions
  import opened Fragments
  import opened Diagnostics
  import opened ProcessOptions

  /** The webpack loader context of one invocation. Its methods are the host
      calls the loader makes; `events` records them in order. */
  class LoaderContext {
    const resourcePath: string
    /** The resource path with its query, as `loader.exec` is given it. */
    const resource: string
    /** What `loaderUtils.getOptions(loader)` returns: the loader parameters,
        or `None` for null. */
    const query: Option<map<string, JsValue>>
    /** `loader.options`, the webpack configuration as the loader sees it. */
    const webpackOptions: JsValue
    var events: seq<HostEvent>

    constructor (resourcePath: string, resource: string, query: Option<map<string, JsValue>>, webpackOptions: JsValue)
      ensures this.resourcePath == resourcePath && this.resource == resource
      ensures this.query == query && this.webpackOptions == webpackOptions
      ensures events == []
    {
      this.resourcePath := resourcePath;
      this.resource := resource;
      this.query := query;
      this.webpackOptions := webpackOptions;
      events := [];
    }

    method EmitWarning(text: string)
      modifies this
      ensures events == old(events) + [Warning(text)]
    {
      events := events + [Warning(text)];
    }

    method AddDependency(file: JsValue)
      modifies this
      ensures events == old(events) + [Dependency(file)]
    {
      events := events + [Dependency(file)];
    }

    method Callback(args: CallbackArgs)
      modifies this
      ensures events == old(events) + [Done(args)]
    {
      events := events + [Done(args)];
    }
  }

  /** `[].concat(plugins)`: the elements of an array, or the value alone. */
  function Concat(plugins: JsValue): seq<JsValue> {
    if plugins.Arr? then plugins.items else [plugins]
  }

  /** The configuration after `if (!config) config = {}`. */
  function Defaulted(config: JsValue): (c: JsValue)
    ensures !Nullish(c)
    ensures Truthy(config) ==> c == config
    ensures !Truthy(config) ==> c == Obj(map[])
  {
    if Truthy(config) then config else Obj(map[])
  }

  /** The dependency registered for the configuration file, if any. */
  function ConfigDependency(config: JsValue): seq<HostEvent> {
    var file := Get(Defaulted(config), "file").value;
    if Truthy(file) then [Dependency(file)] else []
  }

  /** index.js:76-80: without a configuration nothing is registered, no
      option is configured, there are no plugins and no module evaluation is
      asked for. */
  lemma MissingConfig(config0: JsValue)
    requires !Truthy(config0)
    ensures ConfigDependency(config0) == []
    ensures ConfiguredOptions(Defaulted(config0)) == map[]
    ensures Or(Get(Defaulted(config0), "plugins").value, Arr([])) == Arr([])
    ensures !Truthy(Get(Defaulted(config0), "exec").value)
  {
  }

  /** The css of each result, in result order. */
  function CssOf(results: seq<CssResult>): (css: seq<string>)
    ensures |css| == |results|
  {
    seq(|results|, k requires 0 <= k < |results| => results[k].css)
  }

  /** index.js:116-119: the source, evaluated as a module when requested. */
  function Evaluated(host: Host, params: map<string, JsValue>, config: JsValue, source: string, resource: string)
    : Result<JsValue>
    requires !Nullish(config)
  {
    if ExecRequested(params, config) then host.exec(source, resource) else Ok(Str(source))
  }

  /** index.js:121-128: the plugins after the compilation's waterfall, when
      the loader runs inside a compilation. */
  function Hooked(host: Host, plugins: JsValue, params: map<string, JsValue>): Result<JsValue> {
    if host.beforeProcessing.Some? then host.beforeProcessing.value(Concat(plugins), Obj(params)) else Ok(plugins)
  }

  /** What the fragments are processed with: the plugin list, the PostCSS
      options and the source handed to cheerio (the HTML text, or what the
      evaluated module exports). */
  datatype Stage = Stage(plugins: JsValue, opts: map<string, JsValue>, source: JsValue)

  /** index.js:116-128 once the options are known: the module evaluation,
      then the waterfall over `plugins`. */
  function Continued(host: Host, config: JsValue, params: map<string, JsValue>, resource: string, source: string,
                     plugins: JsValue, opts: map<string, JsValue>): Result<Stage>
    requires !Nullish(config)
  {
    match Evaluated(host, params, config, source, resource)
    case Err(e) => Err(e)
    case Ok(html) =>
      match Hooked(host, plugins, params)
      case Err(e) => Err(e)
      case Ok(hooked) => Ok(Stage(hooked, opts, html))
  }

  /** index.js:80-128 on a configuration record: options, then the module
      evaluation, then the waterfall; the first exception ends the stage. */
  function Staged(host: Host, config: JsValue, params: map<string, JsValue>, file: string, resource: string,
                  source: string, inputMap: JsValue): Result<Stage>
    requires !Nullish(config)
  {
    match EffectiveOptions(host, ConfiguredOptions(config), params, file, inputMap)
    case Err(e) => Err(e)
    case Ok(opts) => Continued(host, config, params, resource, source, Or(Get(config, "plugins").value, Arr([])), opts)
  }

  /** The stage fails exactly when one of its three steps does, with the
      earliest step's exception. A source is evaluated only when requested,
      and outside a compilation the plugins are `config.plugins || []`. */
  lemma StagedSteps(host: Host, config: JsValue, params: map<string, JsValue>, file: string, resource: string,
                    source: string, inputMap: JsValue)
    requires !Nullish(config)
    ensures var r := Staged(host, config, params, file, resource, source, inputMap);
            var opts := EffectiveOptions(host, ConfiguredOptions(config), params, file, inputMap);
            var html := Evaluated(host, params, config, source, resource);
            var plugins := Or(Get(config, "plugins").value, Arr([]));
            && (opts.Err? ==> r == Err(opts.error))
            && (opts.Ok? && html.Err? ==> r == Err(html.error))
            && (opts.Ok? && html.Ok? && Hooked(host, plugins, params).Err? ==>
                  r == Err(Hooked(host, plugins, params).error))
            && (r.Ok? <==> opts.Ok? && html.Ok? && Hooked(host, plugins, params).Ok?)
            && (r.Ok? ==> r.value.opts == opts.value)
            && (r.Ok? && !ExecRequested(params, config) ==> r.value.source == Str(source))
            && (r.Ok? && ExecRequested(params, config) ==> host.exec(source, resource) == Ok(r.value.source))
            && (r.Ok? && host.beforeProcessing.None? ==> r.value.plugins == plugins)
            && (r.Ok? && host.beforeProcessing.Some? ==>
                  host.beforeProcessing.value(Concat(plugins), Obj(params)) == Ok(r.value.plugins))
  {
  }

  /** index.js:76-114: the configuration file is registered as a dependency
      before anything can fail; then the options are assembled and the rest
      of the stage is worked out. */
  method Configure(ctx: LoaderContext, host: Host, config0: JsValue, params: map<string, JsValue>,
                   source0: string, inputMap: JsValue) returns (r: Result<Stage>)
    modifies ctx
    ensures ctx.events == old(ctx.events) + ConfigDependency(config0)
    ensures r == Staged(host, Defaulted(config0), params, ctx.resourcePath, ctx.resource, source0, inputMap)
  {
    var config := Defaulted(config0);
    var file := Get(config, "file").value;
    if Truthy(file) {
      ctx.AddDependency(file);
    } else {
      AppendNothing(ctx.events);
    }
    var plugins := Or(Get(config, "plugins").value, Arr([]));
    var opts := AssembleOptions(host, config, params, ctx.resourcePath, inputMap);
    if opts.Err? {
      return Err(opts.error);
    }
    r := Continue(host, config, params, ctx.resource, source0, plugins, opts.value);
  }

  /** index.js:116-128: `loader.exec` and the compilation's waterfall, each
      of which can throw. */
  method Continue(host: Host, config: JsValue, params: map<string, JsValue>, resource: string, source0: string,
                  plugins0: JsValue, opts: map<string, JsValue>) returns (r: Result<Stage>)
    requires !Nullish(config)
    ensures r == Continued(host, config, params, resource, source0, plugins0, opts)
  {
    var source := Str(source0);
    if ExecRequested(params, config) {
      var evaluated := host.exec(source0, resource);
      if evaluated.Err? {
        return Err(evaluated.error);
      }
      source := evaluated.value;
    }
    var plugins := plugins0;
    if host.beforeProcessing.Some? {
      var rewritten := host.beforeProcessing.value(Concat(plugins), Obj(params));
      if rewritten.Err? {
        return Err(rewritten.error);
      }
      plugins := rewritten.value;
    }
    r := Ok(Stage(plugins, opts, source));
  }

  /** What processing a stage came to (index.js:130-167), apart from the
      host calls: `markup` is the parsed source; a failure is that of
      `postcss(plugins)` or of some fragment; a success means every fragment
      was processed by `proc` into its result, and the html is the document
      with each fragment replaced by its result's css. */
  predicate Processed(host: Host, stage: Stage, markup: Markup, proc: Processor, results: seq<CssResult>,
                      r: Result<string>)
  {
    var texts := markup.blocks + markup.attrs;
    && markup == host.parseHtml(stage.source)
    && (r.Err? ==>
          || host.postcss(stage.plugins) == Err(r.error)
          || (&& host.postcss(stage.plugins) == Ok(proc)
              && exists k :: 0 <= k < |texts| && host.process(proc, texts[k], stage.opts) == Err(r.error)))
    && (r.Ok? ==>
          && host.postcss(stage.plugins) == Ok(proc)
          && |results| == |texts|
          && (forall k :: 0 <= k < |texts| ==> host.process(proc, texts[k], stage.opts) == Ok(results[k]))
          && r.value == host.serialize(markup.skeleton, CssOf(results)[..|markup.blocks|],
                                       CssOf(results)[|markup.blocks|..]))
  }

  /** Whether `postcss(plugins)` and every fragment of the parsed source
      succeed. */
  predicate EveryFragmentSucceeds(host: Host, stage: Stage) {
    var markup := host.parseHtml(stage.source);
    var texts := markup.blocks + markup.attrs;
    var processor := host.postcss(stage.plugins);
    && processor.Ok?
    && forall k :: 0 <= k < |texts| ==> host.process(processor.value, texts[k], stage.opts).Ok?
  }

  /** Processing succeeds exactly when `postcss(plugins)` and every
      fragment of the parsed source succeed. */
  lemma ProcessedSucceedsIff(host: Host, stage: Stage, markup: Markup, proc: Processor, results: seq<CssResult>,
                             r: Result<string>)
    requires Processed(host, stage, markup, proc, results, r)
    ensures r.Ok? <==> EveryFragmentSucceeds(host, stage)
  {
    var texts := markup.blocks + markup.attrs;
    if r.Err? && host.postcss(stage.plugins).Ok? {
      var k :| 0 <= k < |texts| && host.process(proc, texts[k], stage.opts) == Err(r.error);
      assert !host.process(host.postcss(stage.plugins).value, texts[k], stage.opts).Ok?;
    }
  }

  /** index.js:130-167: every fragment of the parsed source goes through the
      one processor; a failure (of `postcss(plugins)` or of a fragment) ends
      the stage before anything is reported. On success each result's
      warnings and dependencies are reported, and the html holds each
      fragment's result in that fragment's place. The ghost results name the
      parsed document, the processor and the fragments' results. */
  method Process(ctx: LoaderContext, host: Host, stage: Stage)
    returns (r: Result<string>, ghost markup: Markup, ghost proc: Processor, ghost results: seq<CssResult>)
    modifies ctx
    ensures Processed(host, stage, markup, proc, results, r)
    ensures r.Err? ==> ctx.events == old(ctx.events)
    ensures r.Ok? ==> ctx.events == old(ctx.events) + ResultEvents(results)
  {
    var parsed := host.parseHtml(stage.source);
    markup, proc, results := parsed, Processor(0), [];
    var doc := new Document.Load(parsed);
    var processor := host.postcss(stage.plugins);
    if processor.Err? {
      return Err(processor.error), markup, proc, results;
    }
    proc := processor.value;
    assert IsCompletionOrder(Range(doc.Size()), doc.Size());
    var order :| IsCompletionOrder(order, doc.Size());
    var joined := FanOut(doc, host, processor.value, stage.opts, order);
    if joined.Err? {
      return Err(joined.error), markup, proc, results;
    }
    results := joined.value;
    ReportResults(ctx, joined.value);
    assert doc.Texts() == CssOf(results);
    assert doc.blocks == doc.Texts()[..|doc.blocks|] && doc.attrs == doc.Texts()[|doc.blocks|..];
    r := Ok(doc.Html(host.serialize));
  }

  /** index.js:75-167, the handler of the resolved configuration. It never
      invokes the callback; a failure is returned for the catch handler. The
      ghost results name the stage it worked out and the parsed document,
      processor and fragment results of its success. */
  method Transform(ctx: LoaderContext, host: Host, config0: JsValue, params: map<string, JsValue>,
                   source0: string, inputMap: JsValue)
    returns (r: Result<string>, ghost staged: Result<Stage>, ghost markup: Markup, ghost proc: Processor,
             ghost results: seq<CssResult>)
    modifies ctx
    ensures staged == Staged(host, Defaulted(config0), params, ctx.resourcePath, ctx.resource, source0, inputMap)
    ensures staged.Err? ==> r == Err(staged.error)
    ensures staged.Ok? ==> Processed(host, staged.value, markup, proc, results, r)
    ensures r.Err? ==> ctx.events == old(ctx.events) + ConfigDependency(config0)
    ensures r.Ok? ==> ctx.events == old(ctx.events) + ConfigDependency(config0) + ResultEvents(results)
  {
    markup, proc, results := Markup(Skeleton(0), [], []), Processor(0), [];
    var configured := Configure(ctx, host, config0, params, source0, inputMap);
    staged := configured;
    if configured.Err? {
      return Err(configured.error), staged, markup, proc, results;
    }
    r, markup, proc, results := Process(ctx, host, configured.value);
  }

  /** index.js:153-163: for each result in order, every warning is emitted and
      every `dependency` message registers its file. */
  method ReportResults(ctx: LoaderContext, results: seq<CssResult>)
    modifies ctx
    ensures ctx.events == old(ctx.events) + ResultEvents(results)
  {
    var i := 0;
    while i < |results|
      invariant 0 <= i <= |results|
      invariant ctx.events == old(ctx.events) + ResultEvents(results[..i])
    {
      var result := results[i];
      ghost var before := ctx.events;
      var w := 0;
      while w < |result.warnings|
        invariant 0 <= w <= |result.warnings|
        invariant ctx.events == before + WarningEvents(result.warnings[..w])
      {
        Associative(before, WarningEvents(result.warnings[..w]), [Warning(result.warnings[w])]);
        ctx.EmitWarning(result.warnings[w]);
        assert result.warnings[..w + 1][..w] == result.warnings[..w];
        w := w + 1;
      }
      assert result.warnings[..w] == result.warnings;
      ghost var warned := ctx.events;
      var m := 0;
      while m < |result.messages|
        invariant 0 <= m <= |result.messages|
        invariant ctx.events == warned + DependencyEvents(result.messages[..m])
      {
        var message := result.messages[m];
        if IsDependency(message) {
          Associative(warned, DependencyEvents(result.messages[..m]), [Dependency(message.file)]);
          ctx.AddDependency(message.file);
        } else {
          AppendNothing(DependencyEvents(result.messages[..m]));
        }
        assert result.messages[..m + 1][..m] == result.messages[..m];
        m := m + 1;
      }
      assert result.messages[..m] == result.messages;
      assert results[..i + 1][..i] == results[..i];
      Associative(old(ctx.events), ResultEvents(results[..i]), WarningEvents(result.warnings));
      Associative(old(ctx.events), ResultEvents(results[..i]) + WarningEvents(result.warnings),
                  DependencyEvents(result.messages));
      i := i + 1;
    }
    assert results[..i] == results;
  }

  /** The synchronous part of an invocation, on this loader context. */
  function Prepared(ctx: LoaderContext, host: Host): Result<Invocation> {
    Prepare(host, ctx.query, ctx.webpackOptions, ctx.resourcePath)
  }

  /** The host calls of an invocation whose configuration resolved: the
      configuration dependency, the results' warnings and dependencies when
      the callback carries html, then the callback. */
  function CompletionLog(config: JsValue, args: CallbackArgs, results: seq<CssResult>): seq<HostEvent> {
    ConfigDependency(config) + (if args.Succeeded? then ResultEvents(results) else []) + [Done(args)]
  }

  /** The callback is invoked exactly once, last. Warnings reach webpack only
      when the callback carries html, and then all of them in result order;
      the dependencies are the configuration file's, then on success every
      result's in order. */
  lemma CompletionLogShape(config: JsValue, args: CallbackArgs, results: seq<CssResult>)
    ensures var log := CompletionLog(config, args, results);
            && log[|log| - 1] == Done(args)
            && Callbacks(log) == 1
            && Warnings(log) == (if args.Succeeded? then AllWarnings(results) else [])
            && Dependencies(log) == Dependencies(ConfigDependency(config))
                                    + (if args.Succeeded? then DependencyFiles(results) else [])
  {
    var head := ConfigDependency(config);
    assert Callbacks(head) == 0 && Warnings(head) == [];
    assert Warnings([Done(args)]) == [] && Dependencies([Done(args)]) == [] && Callbacks([Done(args)]) == 1;
    if args.Succeeded? {
      ResultEventsView(results);
      ViewsOfAppend(head, ResultEvents(results));
      ViewsOfAppend(head + ResultEvents(results), [Done(args)]);
    } else {
      AppendNothing(head);
      ViewsOfAppend(head, [Done(args)]);
    }
  }

  /** The loader function. A throw before the promise chain starts escapes it
      (`thrown`) and reaches no host call; otherwise the host calls it makes
      (`reported`) end with the callback, invoked exactly once. Once the
      configuration has resolved, the callback carries what the handler came
      to (`outcome`): the html when the stage and every fragment succeeded,
      and otherwise the first exception, routed by `Classify`. */
  method Run(ctx: LoaderContext, host: Host, source: string, inputMap: JsValue)
    returns (thrown: Option<JsError>, ghost reported: seq<HostEvent>, ghost outcome: Result<string>,
             ghost staged: Result<Stage>, ghost markup: Markup, ghost proc: Processor, ghost results: seq<CssResult>)
    modifies ctx
    ensures thrown == if Prepared(ctx, host).Err? then Some(Prepared(ctx, host).error) else None
    ensures ctx.events == old(ctx.events) + reported
    ensures thrown.Some? ==> reported == []
    ensures thrown.None? ==> |reported| > 0 && reported[|reported| - 1].Done? && Callbacks(reported) == 1
    ensures thrown.None? && ResolveConfig(host, SelectSource(Prepared(ctx, host).value)).Err? ==>
              reported == [Done(Failed(Classify(ResolveConfig(host, SelectSource(Prepared(ctx, host).value)).error)))]
    ensures thrown.None? && SelectSource(Prepared(ctx, host).value).PackWithoutInline? ==>
              reported == [Done(Failed(Passed(PackNeedsInlineOptions)))]
    ensures thrown.None? && ResolveConfig(host, SelectSource(Prepared(ctx, host).value)).Ok? ==>
              var params := Prepared(ctx, host).value.params;
              var config := ResolveConfig(host, SelectSource(Prepared(ctx, host).value)).value;
              && staged == Staged(host, Defaulted(config), params, ctx.resourcePath, ctx.resource, source, inputMap)
              && (staged.Err? ==> outcome == Err(staged.error))
              && (staged.Ok? ==> Processed(host, staged.value, markup, proc, results, outcome))
              && reported == CompletionLog(config, CallbackFor(outcome), results)
              && (outcome.Ok? <==> staged.Ok? && EveryFragmentSucceeds(host, staged.value))
  {
    outcome, staged, markup, proc, results := Err(NullishRead), Err(NullishRead), Markup(Skeleton(0), [], []),
                                              Processor(0), [];
    var prepared := Prepared(ctx, host);
    if prepared.Err? {
      return Some(prepared.error), [], outcome, staged, markup, proc, results;
    }
    thrown := None;
    var config := ResolveConfig(host, SelectSource(prepared.value));
    if config.Err? {
      ctx.Callback(Failed(Classify(config.error)));
      return thrown, [Done(Failed(Classify(config.error)))], outcome, staged, markup, proc, results;
    }
    var args;
    args, outcome, staged, markup, proc, results := Complete(ctx, host, config.value, prepared.value.params, source,
                                                             inputMap);
    reported := CompletionLog(config.value, args, results);
    CompletionLogShape(config.value, args, results);
  }

  /** index.js:75-174 from a resolved configuration: the handler, then the
      callback with its html or with the routed exception. The ghost results
      name what the handler came to: its outcome, the stage, the parsed
      document, the processor and the fragments' results. */
  method Complete(ctx: LoaderContext, host: Host, config: JsValue, params: map<string, JsValue>,
                  source: string, inputMap: JsValue)
    returns (args: CallbackArgs, ghost outcome: Result<string>, ghost staged: Result<Stage>, ghost markup: Markup,
             ghost proc: Processor, ghost results: seq<CssResult>)
    modifies ctx
    ensures staged == Staged(host, Defaulted(config), params, ctx.resourcePath, ctx.resource, source, inputMap)
    ensures staged.Err? ==> outcome == Err(staged.error)
    ensures staged.Ok? ==> Processed(host, staged.value, markup, proc, results, outcome)
    ensures args == CallbackFor(outcome)
    ensures args.Succeeded? <==> staged.Ok? && EveryFragmentSucceeds(host, staged.value)
    ensures ctx.events == old(ctx.events) + CompletionLog(config, args, results)
  {
    var handled;
    handled, staged, markup, proc, results := Transform(ctx, host, config, params, source, inputMap);
    outcome := handled;
    args := match handled
            case Ok(html) => Succeeded(html)
            case Err(e) => Failed(Classify(e));
    ghost var middle: seq<HostEvent> := if args.Succeeded? then ResultEvents(results) else [];
    if handled.Ok? {
      Associative(old(ctx.events), ConfigDependency(config), middle);
    } else {
      assert ConfigDependency(config) + middle == ConfigDependency(config);
    }
    Associative(old(ctx.events), ConfigDependency(config) + middle, [Done(args)]);
    ctx.Callback(args);
    if staged.Ok? {
      ProcessedSucceedsIff(host, staged.value, markup, proc, results, outcome);
    }
  }
}
