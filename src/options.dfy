/** Where the PostCSS configuration of one invocation comes from: the loader
    parameters and webpack options read synchronously, the normalisation of
    inline plugin options (with named packs), and the choice between inline
    options and configuration-file discovery. */
module LoaderOptions {
  import opened JsValues
  import opened Collaborators

  /** What `parseOptions` resolves to: `{ options, plugins, exec }`. */
  datatype ParsedOptions = ParsedOptions(options: map<string, JsValue>, plugins: JsValue, exec: JsValue)

  const PackNotDefined := JsError("Error", "PostCSS plugin pack is not defined in options")
  const PackNeedsInlineOptions :=
    JsError("Error", "PostCSS plugin pack is supported only when use plugins in webpack config")
  /** What `path.isAbsolute` throws for an argument that is not a string. */
  const PathNotString := JsError("TypeError", "The \"path\" argument must be of type string")

  /** The PostCSS extension points copied out of inline options. */
  const ExtensionPoints: set<string> := {"stringifier", "parser", "syntax"}

  /** The inline options after a function-valued one has been called. */
  function Invoked(host: Host, options: JsValue): Result<JsValue> {
    if options.Func? then host.callOptions(options) else Ok(options)
  }

  /** Normalisation of the (already invoked) inline options `v` with the pack
      selector `pack`. */
  function Normalize(v: JsValue, pack: JsValue): (r: Result<ParsedOptions>)
    ensures r.Err? <==> v.Null? || (Truthy(pack) && (v.Undefined? || !Truthy(Get(v, ToKey(pack)).value)))
    ensures r.Err? ==> r.error == if Nullish(v) then NullishRead else PackNotDefined
    ensures r.Ok? && Truthy(pack) ==> r.value.plugins == Get(v, ToKey(pack)).value && Truthy(r.value.plugins)
    ensures r.Ok? && !Truthy(pack) && v.Undefined? ==> r.value.plugins == Arr([])
    ensures r.Ok? && !Truthy(pack) && v.Arr? ==> r.value.plugins == v
    ensures r.Ok? && !Truthy(pack) && !v.Undefined? && !v.Arr? ==>
              r.value.plugins == Or(Get(v, "plugins").value, Get(v, "defaults").value)
    ensures r.Ok? ==> r.value.options.Keys == if v.Undefined? then {} else ExtensionPoints
    ensures r.Ok? ==> forall k :: k in r.value.options ==> r.value.options[k] == Get(v, k).value
    ensures r.Ok? ==> r.value.exec == if Truthy(v) then Get(v, "exec").value else v
  {
    var shaped: Result<JsValue> :=
      if v.Undefined? then Ok(Arr([]))
      else if v.Arr? then Ok(v)
      else if v.Null? then Err(NullishRead)
      else Ok(Or(Get(v, "plugins").value, Get(v, "defaults").value));
    if shaped.Err? then Err(shaped.error)
    else if Truthy(pack) && v.Undefined? then Err(NullishRead)
    else if Truthy(pack) && !Truthy(Get(v, ToKey(pack)).value) then Err(PackNotDefined)
    else
      var plugins := if Truthy(pack) then Get(v, ToKey(pack)).value else shaped.value;
      var opts := if v.Undefined? then map[]
                  else map["stringifier" := Get(v, "stringifier").value,
                           "parser" := Get(v, "parser").value,
                           "syntax" := Get(v, "syntax").value];
      var exec := if Truthy(v) then Get(v, "exec").value else v;
      Ok(ParsedOptions(opts, plugins, exec))
  }

  /** `parseOptions(options, pack)`: a function-valued `options` is called
      first (a throw from it rejects), then the value is normalised. */
  function ParseOptions(host: Host, options: JsValue, pack: JsValue): (r: Result<ParsedOptions>)
    ensures !options.Func? ==> r == Normalize(options, pack)
    ensures options.Func? ==>
              r == match host.callOptions(options)
                   case Err(e) => Err(e)
                   case Ok(v) => Normalize(v, pack)
  {
    match Invoked(host, options)
    case Err(e) => Err(e)
    case Ok(v) => Normalize(v, pack)
  }

  /** The configuration record a resolved `parseOptions` promise hands on. */
  function ParsedConfig(p: ParsedOptions): JsValue {
    Obj(map["options" := Obj(p.options), "plugins" := p.plugins, "exec" := p.exec])
  }

  /** What the loader works out before its promise chain starts. */
  datatype Invocation = Invocation(params: map<string, JsValue>, options: JsValue, pack: JsValue, configPath: string)

  /** The directory configuration discovery starts from. */
  function ConfigPath(host: Host, params: map<string, JsValue>, resourcePath: string): (r: Result<string>)
    ensures r.Err? <==> Truthy(Lookup(params, "config")) && !Lookup(params, "config").Str?
    ensures r.Err? ==> r.error == PathNotString
    ensures !Truthy(Lookup(params, "config")) ==> r == Ok(host.dirname(resourcePath))
    ensures Truthy(Lookup(params, "config")) && Lookup(params, "config").Str? ==>
              var config := Lookup(params, "config").s;
              r == Ok(if host.isAbsolute(config) then config else host.join(host.cwd, config))
  {
    var config := Lookup(params, "config");
    if !Truthy(config) then Ok(host.dirname(resourcePath))
    else if !config.Str? then Err(PathNotString)
    else if host.isAbsolute(config.s) then Ok(config.s)
    else Ok(host.join(host.cwd, config.s))
  }

  /** The synchronous part of the loader: parameters (`getOptions(loader) ||
      {}`), inline options (`params.plugins || loader.options.postcss`), the
      pack selector and the configuration path. A throw here escapes the
      loader function instead of reaching its callback. */
  function Prepare(host: Host, query: Option<map<string, JsValue>>, webpackOptions: JsValue, resourcePath: string)
    : (r: Result<Invocation>)
    ensures
      var params := if query.Some? then query.value else map[];
      var postcssNeeded := !Truthy(Lookup(params, "plugins"));
      && (r.Err? <==> (postcssNeeded && Nullish(webpackOptions)) || ConfigPath(host, params, resourcePath).Err?)
      && (r.Err? && postcssNeeded && Nullish(webpackOptions) ==> r.error == NullishRead)
      && (r.Err? && !(postcssNeeded && Nullish(webpackOptions)) ==>
            r.error == ConfigPath(host, params, resourcePath).error)
      && (r.Ok? ==> r.value.params == params
                    && r.value.options == (if postcssNeeded then Get(webpackOptions, "postcss").value
                                           else Lookup(params, "plugins"))
                    && r.value.pack == Lookup(params, "pack")
                    && r.value.configPath == ConfigPath(host, params, resourcePath).value)
  {
    var params := if query.Some? then query.value else map[];
    var inline := Lookup(params, "plugins");
    var options := if Truthy(inline) then Ok(inline) else Get(webpackOptions, "postcss");
    if options.Err? then Err(options.error)
    else
      match ConfigPath(host, params, resourcePath)
      case Err(e) => Err(e)
      case Ok(configPath) => Ok(Invocation(params, options.value, Lookup(params, "pack"), configPath))
  }

  /** The three mutually exclusive configuration sources. */
  datatype ConfigSource = Inline(options: JsValue, pack: JsValue) | PackWithoutInline | Discover(dir: string)

  function SelectSource(inv: Invocation): (s: ConfigSource)
    ensures s.Inline? <==> !inv.options.Undefined?
    ensures s.Inline? ==> s.options == inv.options && s.pack == inv.pack
    ensures s.PackWithoutInline? <==> inv.options.Undefined? && Truthy(inv.pack)
    ensures s.Discover? <==> inv.options.Undefined? && !Truthy(inv.pack)
    ensures s.Discover? ==> s.dir == inv.configPath
  {
    if !inv.options.Undefined? then Inline(inv.options, inv.pack)
    else if Truthy(inv.pack) then PackWithoutInline
    else Discover(inv.configPath)
  }

  /** The first stage of the promise chain: the configuration record, or the
      rejection that skips straight to the catch handler. Discovery is
      consulted only for the `Discover` source. */
  function ResolveConfig(host: Host, source: ConfigSource): (r: Result<JsValue>)
    ensures source.PackWithoutInline? ==> r == Err(PackNeedsInlineOptions)
    ensures source.Discover? ==> r == host.loadConfig(source.dir)
    ensures source.Inline? ==> r.Ok? == ParseOptions(host, source.options, source.pack).Ok?
    ensures source.Inline? && r.Err? ==> r.error == ParseOptions(host, source.options, source.pack).error
    ensures source.Inline? && r.Ok? ==>
              var p := ParseOptions(host, source.options, source.pack).value;
              && Get(r.value, "file") == Ok(Undefined)
              && Get(r.value, "plugins") == Ok(p.plugins)
              && Get(r.value, "options") == Ok(Obj(p.options))
              && Get(r.value, "exec") == Ok(p.exec)
  {
    match source
    case Inline(options, pack) =>
      (match ParseOptions(host, options, pack)
       case Err(e) => Err(e)
       case Ok(p) => Ok(ParsedConfig(p)))
    case PackWithoutInline => Err(PackNeedsInlineOptions)
    case Discover(dir) => host.loadConfig(dir)
  }
}
