/** The PostCSS options every fragment of one invocation is processed with
    (index.js:82-114): the configured options under the loader's own `from`,
    `to` and `map`, the incoming source map threaded as `map.prev`, and the
    `syntax`, `parser` and `stringifier` loader parameters replacing the
    configured extension points. */
module ProcessOptions {
  import opened JsValues
  import opened Collaborators
  import opened LoaderOptions

  /** The incoming source map once a string has gone through `JSON.parse`. */
  function IncomingMap(host: Host, inputMap: JsValue): Result<JsValue> {
    if inputMap.Str? then host.jsonParse(inputMap.s) else Ok(inputMap)
  }

  /** `map && map.mappings`: whether a source map is threaded as `prev`. */
  predicate HasMappings(m: JsValue) {
    Truthy(m) && Truthy(Get(m, "mappings").value)
  }

  /** A `syntax`, `parser` or `stringifier` parameter: a string names a module
      to require, any other value is used as it is. */
  function ResolveReference(host: Host, ref: JsValue): Result<JsValue> {
    if ref.Str? then host.requireModule(ref.s) else Ok(ref)
  }

  /** Whether a loader parameter replaces the configured extension point. */
  predicate Overrides(params: map<string, JsValue>, key: string) {
    key in ExtensionPoints && Truthy(Lookup(params, key))
  }

  /** The fields the loader itself sets on the PostCSS options. */
  const FixedFields: set<string> := {"from", "to", "map"}

  /** The source map options the loader starts from. */
  function MapOptions(params: map<string, JsValue>): JsValue {
    Obj(map["inline" := Bool(Lookup(params, "sourceMap") == Str("inline")), "annotation" := Bool(false)])
  }

  /** The own properties of `config.options`, as `Object.assign` copies them. */
  function ConfiguredOptions(config: JsValue): map<string, JsValue>
    requires !Nullish(config)
  {
    OwnProps(Get(config, "options").value)
  }

  /** index.js:82-89: `assign({}, config.options, { from, to, map })`, where
      `configured` are the own properties of `config.options`. */
  function BaseOptions(configured: map<string, JsValue>, params: map<string, JsValue>, file: string)
    : map<string, JsValue>
  {
    configured + map["from" := Str(file), "to" := Str(file), "map" := MapOptions(params)]
  }

  /** The loader's own fields override the configured ones; every other
      configured option is copied. */
  lemma BaseOptionsSpec(configured: map<string, JsValue>, params: map<string, JsValue>, file: string)
    ensures var opts := BaseOptions(configured, params, file);
            && opts.Keys == configured.Keys + FixedFields
            && opts["from"] == Str(file) && opts["to"] == Str(file) && opts["map"] == MapOptions(params)
            && forall key :: key in configured && key !in FixedFields ==> opts[key] == configured[key]
  {
  }

  /** index.js:92: the options with `prev` set on their source map options
      when the incoming map has mappings. */
  function WithPrevious(opts: map<string, JsValue>, prev: JsValue): map<string, JsValue>
    requires "map" in opts && opts["map"].Obj?
  {
    if HasMappings(prev) then opts["map" := Obj(opts["map"].fields["prev" := prev])] else opts
  }

  /** Only the source map options change, and only by gaining `prev` when the
      incoming map has mappings. */
  lemma WithPreviousSpec(opts: map<string, JsValue>, prev: JsValue)
    requires "map" in opts && opts["map"].Obj?
    ensures var r := WithPrevious(opts, prev);
            && r.Keys == opts.Keys
            && (forall key :: key in opts && key != "map" ==> r[key] == opts[key])
            && r["map"].Obj?
            && r["map"].fields.Keys == opts["map"].fields.Keys + (if HasMappings(prev) then {"prev"} else {})
            && (forall key :: key in opts["map"].fields && key != "prev" ==>
                                r["map"].fields[key] == opts["map"].fields[key])
            && (HasMappings(prev) ==> r["map"].fields["prev"] == prev)
  {
  }

  /** One of index.js:94-114: a truthy parameter `key` replaces the option of
      that name, or its `require` fails. */
  function Overridden(host: Host, opts: map<string, JsValue>, params: map<string, JsValue>, key: string)
    : Result<map<string, JsValue>>
  {
    if !Truthy(Lookup(params, key)) then Ok(opts)
    else
      match ResolveReference(host, Lookup(params, key))
      case Err(e) => Err(e)
      case Ok(v) => Ok(opts[key := v])
  }

  /** A falsy parameter changes nothing; a truthy one fails exactly when its
      module cannot be required, and otherwise replaces only its own option. */
  lemma OverriddenSpec(host: Host, opts: map<string, JsValue>, params: map<string, JsValue>, key: string)
    ensures var r := Overridden(host, opts, params, key);
            && (r.Ok? <==> !Truthy(Lookup(params, key)) || ResolveReference(host, Lookup(params, key)).Ok?)
            && (r.Err? ==> r.error == ResolveReference(host, Lookup(params, key)).error)
            && (r.Ok? ==> r.value.Keys == opts.Keys + (if Truthy(Lookup(params, key)) then {key} else {}))
            && (r.Ok? ==> forall k :: k in opts && k != key ==> r.value[k] == opts[k])
            && (r.Ok? && Truthy(Lookup(params, key)) ==>
                  r.value[key] == ResolveReference(host, Lookup(params, key)).value)
  {
  }

  /** index.js:94-114: `syntax`, then `parser`, then `stringifier`; the first
      module that cannot be required is the failure. */
  function WithExtensions(host: Host, opts: map<string, JsValue>, params: map<string, JsValue>)
    : Result<map<string, JsValue>>
  {
    match Overridden(host, opts, params, "syntax")
    case Err(e) => Err(e)
    case Ok(o1) =>
      match Overridden(host, o1, params, "parser")
      case Err(e) => Err(e)
      case Ok(o2) => Overridden(host, o2, params, "stringifier")
  }

  /** The options of index.js:82-114, or the exception that ends the stage. */
  function EffectiveOptions(host: Host, configured: map<string, JsValue>, params: map<string, JsValue>,
                            file: string, inputMap: JsValue): Result<map<string, JsValue>>
  {
    match IncomingMap(host, inputMap)
    case Err(e) => Err(e)
    case Ok(prev) => WithExtensions(host, WithPrevious(BaseOptions(configured, params, file), prev), params)
  }

  lemma ExtensionPointsAreOverrides(params: map<string, JsValue>)
    ensures forall key :: Overrides(params, key) <==>
              || (key == "syntax" && Truthy(Lookup(params, "syntax")))
              || (key == "parser" && Truthy(Lookup(params, "parser")))
              || (key == "stringifier" && Truthy(Lookup(params, "stringifier")))
  {
  }

  /** The extension points leave the loader's own fields as they were. */
  lemma WithExtensionsKeeps(host: Host, opts: map<string, JsValue>, params: map<string, JsValue>, key: string)
    requires key in FixedFields
    ensures var r := WithExtensions(host, opts, params);
            r.Ok? ==> (key in r.value <==> key in opts) && (key in opts ==> r.value[key] == opts[key])
  {
    assert key != "syntax" && key != "parser" && key != "stringifier";
    OverriddenSpec(host, opts, params, "syntax");
    var r1 := Overridden(host, opts, params, "syntax");
    if r1.Ok? {
      OverriddenSpec(host, r1.value, params, "parser");
      var r2 := Overridden(host, r1.value, params, "parser");
      if r2.Ok? {
        OverriddenSpec(host, r2.value, params, "stringifier");
      }
    }
  }

  /** The extension points succeed exactly when every overriding reference
      resolves; on success every overriding parameter is in place and every
      other option is as it was. */
  lemma WithExtensionsSpec(host: Host, opts: map<string, JsValue>, params: map<string, JsValue>)
    ensures var r := WithExtensions(host, opts, params);
            && (r.Ok? <==> forall key :: Overrides(params, key) ==> ResolveReference(host, Lookup(params, key)).Ok?)
            && (r.Err? ==> exists key :: Overrides(params, key) && ResolveReference(host, Lookup(params, key)) == Err(r.error))
            && (r.Ok? ==> forall key :: key in r.value <==> key in opts || Overrides(params, key))
            && (r.Ok? ==> forall key :: Overrides(params, key) ==>
                                        key in r.value && r.value[key] == ResolveReference(host, Lookup(params, key)).value)
            && (r.Ok? ==> forall key :: key in opts && !Overrides(params, key) ==> key in r.value && r.value[key] == opts[key])
  {
    ExtensionPointsAreOverrides(params);
    var r := WithExtensions(host, opts, params);
    var r1 := Overridden(host, opts, params, "syntax");
    OverriddenSpec(host, opts, params, "syntax");
    if r1.Err? {
      assert Overrides(params, "syntax");
    } else {
      var r2 := Overridden(host, r1.value, params, "parser");
      OverriddenSpec(host, r1.value, params, "parser");
      if r2.Ok? {
        OverriddenSpec(host, r2.value, params, "stringifier");
      }
      if r2.Err? {
        assert Overrides(params, "parser");
      } else if r.Err? {
        assert Overrides(params, "stringifier");
      }
    }
  }

  /** A source map that does not parse is the failure, before any module is
      required; otherwise the options fail exactly when a module named by an
      overriding parameter cannot be required, and with that failure. */
  lemma EffectiveOptionsFailure(host: Host, configured: map<string, JsValue>, params: map<string, JsValue>,
                                file: string, inputMap: JsValue)
    ensures var r := EffectiveOptions(host, configured, params, file, inputMap);
            && (IncomingMap(host, inputMap).Err? ==> r == Err(IncomingMap(host, inputMap).error))
            && (r.Ok? <==> && IncomingMap(host, inputMap).Ok?
                           && forall key :: Overrides(params, key) ==> ResolveReference(host, Lookup(params, key)).Ok?)
            && (r.Err? ==>
                  || IncomingMap(host, inputMap) == Err(r.error)
                  || exists key :: Overrides(params, key) && ResolveReference(host, Lookup(params, key)) == Err(r.error))
  {
    var incoming := IncomingMap(host, inputMap);
    if incoming.Ok? {
      WithExtensionsSpec(host, WithPrevious(BaseOptions(configured, params, file), incoming.value), params);
    }
  }

  /** The fixed fields once the incoming map has been threaded. */
  lemma ThreadedFixedFields(configured: map<string, JsValue>, params: map<string, JsValue>, file: string,
                            prev: JsValue)
    ensures var opts := WithPrevious(BaseOptions(configured, params, file), prev);
            && "from" in opts && opts["from"] == Str(file)
            && "to" in opts && opts["to"] == Str(file)
            && "map" in opts && opts["map"].Obj?
            && var sourceMap := opts["map"].fields;
               && sourceMap.Keys == {"inline", "annotation"} + (if HasMappings(prev) then {"prev"} else {})
               && Lookup(sourceMap, "inline") == Bool(Lookup(params, "sourceMap") == Str("inline"))
               && Lookup(sourceMap, "annotation") == Bool(false)
               && (HasMappings(prev) ==> Lookup(sourceMap, "prev") == prev)
  {
    var base := BaseOptions(configured, params, file);
    BaseOptionsSpec(configured, params, file);
    WithPreviousSpec(base, prev);
  }

  /** The loader's own `from` and `to` win over the configured options. */
  lemma EffectiveOptionsPaths(host: Host, configured: map<string, JsValue>, params: map<string, JsValue>,
                              file: string, inputMap: JsValue)
    ensures var r := EffectiveOptions(host, configured, params, file, inputMap);
            r.Ok? ==> && "from" in r.value && r.value["from"] == Str(file)
                      && "to" in r.value && r.value["to"] == Str(file)
  {
    var incoming := IncomingMap(host, inputMap);
    if incoming.Ok? {
      var threaded := WithPrevious(BaseOptions(configured, params, file), incoming.value);
      ThreadedFixedFields(configured, params, file, incoming.value);
      WithExtensionsKeeps(host, threaded, params, "from");
      WithExtensionsKeeps(host, threaded, params, "to");
    }
  }

  /** The loader's own `map` wins over the configured one, and the incoming
      map is threaded as `prev` exactly when it has mappings. */
  lemma EffectiveOptionsSourceMap(host: Host, configured: map<string, JsValue>, params: map<string, JsValue>,
                                  file: string, inputMap: JsValue)
    ensures var r := EffectiveOptions(host, configured, params, file, inputMap);
            r.Ok? ==>
              var prev := IncomingMap(host, inputMap).value;
              && "map" in r.value && r.value["map"].Obj?
              && var sourceMap := r.value["map"].fields;
                 && sourceMap.Keys == {"inline", "annotation"} + (if HasMappings(prev) then {"prev"} else {})
                 && Lookup(sourceMap, "inline") == Bool(Lookup(params, "sourceMap") == Str("inline"))
                 && Lookup(sourceMap, "annotation") == Bool(false)
                 && (HasMappings(prev) ==> Lookup(sourceMap, "prev") == prev)
  {
    var incoming := IncomingMap(host, inputMap);
    if incoming.Ok? {
      var threaded := WithPrevious(BaseOptions(configured, params, file), incoming.value);
      ThreadedFixedFields(configured, params, file, incoming.value);
      WithExtensionsKeeps(host, threaded, params, "map");
    }
  }

  /** Every option is a configured option, a fixed field or an overriding
      parameter. */
  lemma EffectiveOptionsKeys(host: Host, configured: map<string, JsValue>, params: map<string, JsValue>,
                             file: string, inputMap: JsValue)
    ensures var r := EffectiveOptions(host, configured, params, file, inputMap);
            r.Ok? ==> forall key :: key in r.value <==> key in configured || key in FixedFields || Overrides(params, key)
  {
    var incoming := IncomingMap(host, inputMap);
    if incoming.Ok? {
      var base := BaseOptions(configured, params, file);
      BaseOptionsSpec(configured, params, file);
      var threaded := WithPrevious(base, incoming.value);
      WithPreviousSpec(base, incoming.value);
      WithExtensionsSpec(host, threaded, params);
    }
  }

  /** An overriding parameter's value (required when a string) is in
      place. */
  lemma EffectiveOptionsOverrides(host: Host, configured: map<string, JsValue>, params: map<string, JsValue>,
                                  file: string, inputMap: JsValue)
    ensures var r := EffectiveOptions(host, configured, params, file, inputMap);
            r.Ok? ==> forall key :: Overrides(params, key) ==>
                                    key in r.value && r.value[key] == ResolveReference(host, Lookup(params, key)).value
  {
    var incoming := IncomingMap(host, inputMap);
    if incoming.Ok? {
      var threaded := WithPrevious(BaseOptions(configured, params, file), incoming.value);
      WithExtensionsSpec(host, threaded, params);
    }
  }

  /** Every configured option the loader neither fixes nor overrides is
      kept. */
  lemma EffectiveOptionsKept(host: Host, configured: map<string, JsValue>, params: map<string, JsValue>,
                             file: string, inputMap: JsValue)
    ensures var r := EffectiveOptions(host, configured, params, file, inputMap);
            r.Ok? ==> forall key :: key in configured && key !in FixedFields && !Overrides(params, key) ==>
                                    key in r.value && r.value[key] == configured[key]
  {
    var incoming := IncomingMap(host, inputMap);
    if incoming.Ok? {
      var base := BaseOptions(configured, params, file);
      BaseOptionsSpec(configured, params, file);
      var threaded := WithPrevious(base, incoming.value);
      WithPreviousSpec(base, incoming.value);
      WithExtensionsSpec(host, threaded, params);
    }
  }

  /** index.js:82-114 as the loader runs it: the options object is built and
      then updated field by field; `JSON.parse` and `require` can throw. */
  method AssembleOptions(host: Host, config: JsValue, params: map<string, JsValue>, file: string, inputMap: JsValue)
    returns (r: Result<map<string, JsValue>>)
    requires !Nullish(config)
    ensures r == EffectiveOptions(host, ConfiguredOptions(config), params, file, inputMap)
  {
    var opts := BaseOptions(ConfiguredOptions(config), params, file);
    var sourceMap := inputMap;
    if sourceMap.Str? {
      var parsed := host.jsonParse(sourceMap.s);
      if parsed.Err? {
        return Err(parsed.error);
      }
      sourceMap := parsed.value;
    }
    assert IncomingMap(host, inputMap) == Ok(sourceMap);
    if HasMappings(sourceMap) {
      opts := opts["map" := Obj(opts["map"].fields["prev" := sourceMap])];
    }
    ghost var threaded := opts;
    assert threaded == WithPrevious(BaseOptions(ConfiguredOptions(config), params, file), sourceMap);
    var syntax := Lookup(params, "syntax");
    if Truthy(syntax) {
      if syntax.Str? {
        var loaded := host.requireModule(syntax.s);
        if loaded.Err? {
          return Err(loaded.error);
        }
        opts := opts["syntax" := loaded.value];
      } else {
        opts := opts["syntax" := syntax];
      }
    }
    assert Overridden(host, threaded, params, "syntax") == Ok(opts);
    ghost var afterSyntax := opts;
    var parser := Lookup(params, "parser");
    if Truthy(parser) {
      if parser.Str? {
        var loaded := host.requireModule(parser.s);
        if loaded.Err? {
          return Err(loaded.error);
        }
        opts := opts["parser" := loaded.value];
      } else {
        opts := opts["parser" := parser];
      }
    }
    assert Overridden(host, afterSyntax, params, "parser") == Ok(opts);
    var stringifier := Lookup(params, "stringifier");
    if Truthy(stringifier) {
      if stringifier.Str? {
        var loaded := host.requireModule(stringifier.s);
        if loaded.Err? {
          return Err(loaded.error);
        }
        opts := opts["stringifier" := loaded.value];
      } else {
        opts := opts["stringifier" := stringifier];
      }
    }
    r := Ok(opts);
  }

  /** index.js:116-117: whether the source is evaluated as a module before
      it is parsed as HTML. */
  function ExecRequested(params: map<string, JsValue>, config: JsValue): (b: bool)
    requires !Nullish(config)
    ensures b <==> || Lookup(params, "parser") == Str("postcss-js")
                   || Truthy(Lookup(params, "exec"))
                   || Truthy(Get(config, "exec").value)
  {
    Lookup(params, "parser") == Str("postcss-js") || Truthy(Or(Lookup(params, "exec"), Get(config, "exec").value))
  }
}
