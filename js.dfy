/**
 * The JavaScript values that settings objects and Prettier option objects
 * carry, with the two operations the server applies to them: property
 * read and truthiness.
 */
module Js {
  import opened Wrappers

  /** A settings or option value. Numbers are integers here (see README). */
  datatype Value =
    | Undefined
    | Null
    | Bool(b: bool)
    | Num(n: int)
    | Str(s: string)
    | Arr(items: seq<Value>)

  /**
   * A property name of a settings or options object. Every name the server
   * reads, writes or forwards has its own constructor, named after the
   * property (`PrettierPath` is `prettierPath`, `Filepath` is `filepath`).
   * Any other property name is `Other(id)`: `id` numbers the property names
   * that have no constructor, so distinct keys are always distinct names and
   * no `Other` key can spell a named one.
   */
  datatype Key =
    // Settings the server itself interprets
    | PrettierPath | ConfigPath | IgnorePath | DocumentSelectors
    | UseEditorConfig | WithNodeModules | ResolveGlobalModules
    // Prettier options forwarded from the workspace settings
    | ArrowParens | BracketSpacing | EndOfLine | HtmlWhitespaceSensitivity
    | InsertPragma | SingleAttributePerLine | BracketSameLine | JsxBracketSameLine
    | JsxSingleQuote | PrintWidth | ProseWrap | QuoteProps | RequirePragma | Semi
    | SingleQuote | TabWidth | TrailingComma | UseTabs | EmbeddedLanguageFormatting
    | VueIndentScriptAndStyle
    // Options the server sets itself
    | Filepath | Parser | RangeStart | RangeEnd
    // Any other property
    | Other(id: nat)

  /**
   * A plain object: its own enumerable properties. A key can be present with
   * the value `undefined`; object spread copies such keys too, so
   * `{...a, ...b}` is `a + b`.
   */
  type Options = map<Key, Value>

  /** The property read `o.k`: a missing key reads as `undefined`. */
  function Get(o: Options, k: Key): Value {
    if k in o then o[k] else Undefined
  }

  /** JavaScript truthiness (`if (v)`, `!v`, `a && b`). */
  predicate Truthy(v: Value) {
    match v
    case Undefined => false
    case Null => false
    case Bool(b) => b
    case Num(n) => n != 0
    case Str(s) => s != ""
    case Arr(_) => true
  }

  /** Truthiness of an optional string (`string | undefined` or `string | null`). */
  predicate TruthyString(s: Option<string>) {
    s.Some? && s.value != ""
  }

  /** Truthiness of an optional number (`number | undefined`). */
  predicate TruthyNumber(n: Option<int>) {
    n.Some? && n.value != 0
  }

  /**
   * A parsed `vscode-uri` URI: `text` is what `toString()` gives and
   * `fsPath` the file-system path it denotes. Distinct URI strings can
   * share one `fsPath`.
   */
  datatype Uri = Uri(text: string, fsPath: string)
}
