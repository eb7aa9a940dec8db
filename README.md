# postcss-html-loader, modelled in Dafny

postcss-html-loader is a webpack loader. It runs PostCSS over the CSS inside
an HTML document: the text of every `<style>` element and the value of every
`style` attribute. It writes each result back where it came from and hands
the serialised HTML to webpack. This project models its single source file,
`index.js`, and proves what the loader promises about it.

The model follows the loader's own structure:

- `src/js_values.dfy` (module `JsValues`) holds the JavaScript values the
  loader inspects, and three pieces of the language its branches depend on:
  - truthiness;
  - property reads, which throw on `undefined` and `null`;
  - `||`.
- `src/collaborators.dfy` (module `Collaborators`) holds every library the
  loader calls, as an opaque function inside one `Host` record:
  - `path` and the working directory;
  - postcss-load-config;
  - `JSON.parse` and `require`;
  - `loader.exec` and the compilation's waterfall hook;
  - cheerio;
  - PostCSS.

  A collaborator that can throw returns a `Result`.
- `src/options.dfy` (module `LoaderOptions`) covers `parseOptions`, the
  synchronous start of the loader function, and the choice between inline
  options, a pack without inline options, and configuration discovery.
- `src/process_options.dfy` (module `ProcessOptions`) covers the PostCSS
  options of one invocation:
  - the loader's own `from`/`to`/`map`;
  - the threaded `prev` source map;
  - the `syntax`/`parser`/`stringifier` overrides;
  - the module-evaluation decision.

  The method `AssembleOptions` updates the options object field by field, as
  the loader does. It is proved equal to the specification function
  `EffectiveOptions`, and the properties are proved about that function.
- `src/fragments.dfy` (module `Fragments`) covers the fan-out:
  - the parsed document is a class whose fragment slots are overwritten in
    place;
  - one promise is launched per fragment;
  - `Promise.all` is modelled by an arbitrary completion order.
- `src/diagnostics.dfy` (module `Diagnostics`) models what reaches webpack as
  an ordered log of host calls (warnings, dependencies, the callback). It
  also holds the routing of a failure.
- `src/loader.dfy` (module `Loader`) covers the loader context (a class
  recording the host calls) and the promise chain:
  - `Configure` and `Continue` cover index.js:76-128;
  - `Process` covers index.js:130-167;
  - `Transform` is the whole `.then` handler;
  - `Complete` adds the callback and the `.catch` routing;
  - `Run` is the exported function.

`Promise.all` rejects with the first failure to settle. Reporting the
lowest-index failure among several failing fragments would be a natural
expectation, but the code does not implement it. The model follows the code: the
reported failure is the first failure in the completion order.
`Fragments.InOrderCompletionReportsLowestFailure` shows that the two agree
when the fragments settle in document order.

## Model

| member | source | states |
|---|---|---|
| JsValues.Or | index.js:21 | `a \|\| b` is truthy exactly when one of its operands is, and is one of them |
| JsValues.Get | index.js:21-38 | a property read throws TypeError exactly on undefined and null; on a plain object it yields the own field or undefined |
| JsValues.NumericKeySelectsElement | index.js:25 | `options[pack]` with a numeric pack on an array selects that element |
| LoaderOptions.Normalize | index.js:15-39 | plugins are `[]` for undefined options, the array itself for an array, otherwise `plugins` falling back to `defaults`; a truthy pack replaces them with `options[pack]` or fails with "plugin pack is not defined"; reading from null throws; the options record holds exactly stringifier/parser/syntax, or is empty for undefined options; exec is `options && options.exec` |
| LoaderOptions.ParseOptions | index.js:10-40 | function-valued options are called first, and a throw from them is the rejection; then the result is normalised |
| LoaderOptions.ConfigPath | index.js:53-63 | the discovery path is `params.config` when absolute, cwd joined with it when relative, `dirname(resourcePath)` when it is falsy; a truthy non-string throws TypeError |
| LoaderOptions.Prepare | index.js:45-63 | params default to `{}`; inline options are `params.plugins`, else `loader.options.postcss`, which throws when `loader.options` is nullish; the synchronous part fails exactly when that read or the path computation throws, with that read's TypeError or else the path computation's error |
| LoaderOptions.SelectSource | index.js:65-74 | the three configuration sources are mutually exclusive: defined options are inline, undefined options with a truthy pack are an error, and otherwise discovery runs from the configuration path |
| LoaderOptions.ResolveConfig | index.js:65-74 | a pack without inline options is rejected without consulting discovery; discovery yields the loaded configuration; inline options yield a record with no file and the parsed plugins, options and exec, or reject with `parseOptions`' own error (such as "plugin pack is not defined") |
| ProcessOptions.BaseOptionsSpec | index.js:82-89 | the options hold the configured options plus from/to/map; from and to are the resource path, map is `{inline: sourceMap === 'inline', annotation: false}`, and every other configured option is copied unchanged |
| ProcessOptions.WithPreviousSpec | index.js:92 | threading the incoming map changes only the source map options, which gain `prev` exactly when the map has truthy mappings |
| ProcessOptions.OverriddenSpec | index.js:94-100 | a falsy parameter changes nothing; a truthy one fails exactly when its module cannot be required, and otherwise sets only its own option |
| ProcessOptions.WithExtensionsSpec | index.js:94-114 | the overrides succeed exactly when every truthy parameter's reference resolves, failing with one of those failures; on success each truthy parameter (required when a string) replaces its option and everything else is kept |
| ProcessOptions.WithExtensionsKeeps | index.js:94-114 | the overrides never touch from, to or map |
| ProcessOptions.ThreadedFixedFields | index.js:82-92 | before the overrides, from/to are the resource path and the map options are exactly inline, annotation, and prev when the incoming map has mappings |
| ProcessOptions.EffectiveOptionsFailure | index.js:91-114 | a source map string that does not parse is the failure, before any module is required; otherwise the options fail exactly when a module named by a truthy parameter cannot be required |
| ProcessOptions.EffectiveOptionsPaths | index.js:82-114 | in the final options `from` and `to` are the resource path, whatever the configuration sets |
| ProcessOptions.EffectiveOptionsSourceMap | index.js:82-114 | in the final options the loader's `map` wins over the configuration: map.inline iff `sourceMap === 'inline'`, map.annotation false, and map.prev is the incoming map exactly when it has mappings |
| ProcessOptions.EffectiveOptionsKeys | index.js:82-114 | the final options are exactly the configured options, the fixed fields and the truthy overrides |
| ProcessOptions.EffectiveOptionsOverrides | index.js:94-114 | each truthy `syntax`/`parser`/`stringifier` parameter holds its resolved value (the required module for a string) |
| ProcessOptions.EffectiveOptionsKept | index.js:82-114 | every configured option that is neither fixed nor overridden keeps its configured value |
| ProcessOptions.AssembleOptions | index.js:82-114 | the in-place updates (JSON.parse, prev, three overrides with require) produce exactly the specified options or the specified failure |
| ProcessOptions.ExecRequested | index.js:116-117 | the source is evaluated as a module exactly when `params.parser === 'postcss-js'`, `params.exec` is truthy or `config.exec` is truthy |
| Loader.Defaulted | index.js:76 | a truthy configuration is kept and any other becomes `{}`, so no read from it can throw |
| Loader.MissingConfig | index.js:76-80 | without a configuration there is no dependency, no configured option, no plugin and no module evaluation |
| Loader.StagedSteps | index.js:80-128 | the options are worked out first, then the module evaluation, then the waterfall, and the first failure ends the stage with that step's exception; the source is evaluated only when requested; outside a compilation the plugins are `config.plugins \|\| []`, inside one they are what the hook returns for a copy of them |
| Loader.Configure | index.js:76-114 | the configuration file is registered before anything can fail, and nothing else is reported; the result is the specified stage |
| Loader.Continue | index.js:116-128 | `loader.exec` and the waterfall produce exactly the specified stage or its failure |
| Fragments.Document.Load | index.js:130 | the parsed document holds the style-block texts and style attributes in document order |
| Fragments.Document.SlotAt | index.js:134-150 | every position of the fragment list is owned by one slot: style blocks first, then attributes |
| Fragments.Document.Write | index.js:136-147 | writing a result changes exactly the fragment of its own slot |
| Fragments.Launch | index.js:132-150 | one promise per fragment, style blocks first and then attributes, each processed from its fragment's text with the shared options and tied to that fragment's slot |
| Fragments.Joined | index.js:152 | `Promise.all` resolves exactly when every fragment succeeded, with every result in fragment order; otherwise it rejects with one fragment's failure |
| Fragments.FirstFailureSound | index.js:152 | a reported failure is the failure of a fragment that settled |
| Fragments.FirstFailureComplete | index.js:152 | no failure is reported exactly when every settled fragment succeeded |
| Fragments.AllSettledOk | index.js:152 | when every promise of a completion order succeeded, every fragment succeeded |
| Fragments.InOrderCompletionReportsLowestFailure | index.js:152 | when promises settle in document order, the reported failure is the lowest-index one |
| Fragments.SettledAt | index.js:136-147 | once a fragment's promise has settled successfully its slot holds the result's css, and otherwise it holds its original text |
| Fragments.SettledInAnyOrder | index.js:134-152 | the written-back document does not depend on the order in which the promises settle |
| Fragments.FanOut | index.js:130-152 | every success overwrites its own slot and nothing else, whatever the completion order; the outcome is the `Promise.all` join of the fragments' outcomes |
| Diagnostics.Classify | index.js:168-174 | a `CssSyntaxError` is wrapped as a loader error and any other error is passed unchanged, keeping the original as the cause |
| Diagnostics.WarningEventsView | index.js:154-156 | a result's warnings are emitted in order, with no dependency and no callback |
| Diagnostics.DependencyEventsView | index.js:158-162 | exactly the files of a result's `dependency` messages are registered, in order |
| Diagnostics.ResultEventsView | index.js:153-163 | walking the results emits every warning in result order, registers exactly the dependency messages' files in result order, and never calls back |
| Loader.LoaderContext.constructor | index.js:42-46 | an invocation starts with no host call made |
| Loader.LoaderContext.EmitWarning | index.js:155 | a warning is appended to the host calls |
| Loader.LoaderContext.AddDependency | index.js:78 | a dependency is appended to the host calls |
| Loader.LoaderContext.Callback | index.js:165 | a callback is appended to the host calls |
| Loader.ReportResults | index.js:153-163 | the nested loops make exactly the host calls of the results' warnings and dependencies, in result order |
| Loader.Process | index.js:130-167 | the fragments of the parsed source go through one processor; a failure is that of `postcss(plugins)` or of some fragment and makes no host call; on success every fragment's result is reported and the html holds each fragment's css in that fragment's place |
| Loader.ProcessedSucceedsIff | index.js:130-152 | processing yields html exactly when `postcss(plugins)` and every fragment of the parsed source succeed |
| Loader.Transform | index.js:75-167 | the stage is the specified one and its failure is the handler's; once the stage is worked out, a failure is that of `postcss(plugins)` or of some fragment, and a success is the serialised document with every fragment replaced by its own result; on failure only the configuration dependency has been reported, on success every result's warnings and dependencies follow it |
| Loader.CompletionLogShape | index.js:152-174 | the callback fires exactly once and last; warnings reach webpack only when the callback carries html, and then all of them in result order; the dependencies are the configuration file's, then on success every result's |
| Loader.Complete | index.js:75-174 | the callback carries the html exactly when the stage, `postcss(plugins)` and every fragment succeeded, and it is the handler's html; otherwise it carries the handler's exception, wrapped exactly when it is a `CssSyntaxError`; the host calls are the configuration dependency, the results' reports on success, then that one callback |
| Diagnostics.CallbackFor | index.js:165-174 | the callback gets html exactly when the handler resolved, and otherwise the rejection, wrapped exactly when it is a `CssSyntaxError` |
| Loader.Run | index.js:42-175 | a throw before the promise chain escapes the loader with no host call; otherwise the callback fires exactly once, as the last host call; a configuration failure (including a pack without inline options) is the callback's only host call; with a resolved configuration the callback carries the html exactly when the stage and every fragment succeeded, and otherwise the routed first exception |

## Left out

- cheerio parsing and serialisation (index.js:130, 165) are opaque. The
  document is seen as its style-block texts and style attributes plus an
  opaque skeleton. cheerio is given the source as the loader holds it, which
  is whatever the module exports when `loader.exec` ran.
- PostCSS (`postcss(plugins)` and `processor.process`) is an opaque total
  function with an Ok or Err result. `result.warnings()` is already turned
  into strings.
- postcss-load-config, `require`, `loader.exec`, `JSON.parse`, the call of a
  function-valued `options`, and the compilation's
  `postcss-loader-before-processing` waterfall are opaque functions of their
  arguments.
- `./error` (`PostCSSLoaderError`) is not part of this model. A wrapped error
  is a constructor holding its cause.
- `this.cacheable()` and `loader.async()` (index.js:43, 51) are not modelled;
  they affect only caching and how webpack waits for the callback.
- `loaderUtils.getOptions` is given: the loader parameters are a map, or
  absent for null.
- Concurrency and timing are not modelled. Promise settlement is an arbitrary
  completion order of the fragments. The reported failure is the first
  failure in that order, not the lowest-index one.
- Fragments.FanOut: every promise settles before the join is reported. In the
  loader the catch handler can call back before slower fragments are written
  back; no html is produced on failure, so the difference is not observable.
- JavaScript numbers are integers: fractions and NaN are not modelled.
- Property reads: the prototype chain and built-in properties other than the
  `length` and index keys of arrays and strings are not modelled (they read
  as undefined).
- `Object.assign` copies the own properties of plain objects only; the index
  properties of an array or string in `config.options` are not copied.
- A callback that throws is not modelled. In the loader, such a throw inside
  the success handler would reach the catch handler and call back a second
  time.
- Loader.Run: a rejection whose reason is `undefined` or `null` is not
  modelled, because an exception is always a named error here. In the loader
  the catch handler's `error.name` read then throws, so the callback is never
  invoked. Such a reason can come from a function-valued `options` or a
  PostCSS plugin.
- `test/webpack-explicit-plugins.config.js` is a webpack configuration
  fixture with no logic; it is not part of this model.
