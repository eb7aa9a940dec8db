/** The loader's collaborators, seen only at their interfaces: the `path`
    module and the working directory, postcss-load-config, `JSON.parse`,
    `require`, webpack's `loader.exec` and compilation hook, cheerio, and
    PostCSS. Each is an opaque total function; a collaborator that can throw
    returns a `Result`. */
module Collaborators {
  import opened JsValues

  /** The part of a parsed HTML tree that the loader never touches: every
      node other than the text inside `<style>` elements and the values of
      `style` attributes. */
  datatype Skeleton = Skeleton(id: nat)

  /** A document as cheerio exposes it to the loader: the text of every child
      node of a `<style>` element, and the `style` attribute of every element
      carrying one, each in document order. */
  datatype Markup = Markup(skeleton: Skeleton, blocks: seq<string>, attrs: seq<string>)

  /** A PostCSS processor built from a plugin list. */
  datatype Processor = Processor(id: nat)

  /** An entry of `result.messages`: its `type` and its `file`. */
  datatype Message = Message(kind: JsValue, file: JsValue)

  /** A successful PostCSS run: the css, `result.warnings()` already turned
      into strings, and `result.messages`. */
  datatype CssResult = CssResult(css: string, warnings: seq<string>, messages: seq<Message>)

  datatype Host = Host(
    /** `process.cwd()` and the platform's `path.isAbsolute`, `path.join`,
        `path.dirname` (the latter three on string arguments). */
    cwd: string,
    isAbsolute: string -> bool,
    join: (string, string) -> string,
    dirname: string -> string,
    /** Calling a function-valued `options` with the loader as `this` and as
        its argument. */
    callOptions: JsValue -> Result<JsValue>,
    /** postcss-load-config, searching from a directory (argv off); resolves
        to a configuration record or `undefined`. */
    loadConfig: string -> Result<JsValue>,
    jsonParse: string -> Result<JsValue>,
    requireModule: string -> Result<JsValue>,
    /** `loader.exec(source, loader.resource)`: evaluate the source as a
        module; the value is whatever the module exports. */
    exec: (string, string) -> Result<JsValue>,
    /** The `postcss-loader-before-processing` waterfall of the compilation,
        present only when the loader runs inside one. */
    beforeProcessing: Option<(seq<JsValue>, JsValue) -> Result<JsValue>>,
    /** `cheerio.load(source, { decodeEntities: false })`, given the source
        as the loader holds it (a string, or a module's exports), and
        `$.html()`. */
    parseHtml: JsValue -> Markup,
    serialize: (Skeleton, seq<string>, seq<string>) -> string,
    /** `postcss(plugins)` and `processor.process(css, opts)`. */
    postcss: JsValue -> Result<Processor>,
    process: (Processor, string, map<string, JsValue>) -> Result<CssResult>)
}
