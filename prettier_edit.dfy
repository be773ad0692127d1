/**
 * `PrettierEditService`: the formatting pipeline and the option merge.
 *
 * `format` is a linear run of gates, each of which can end the request with
 * no result: a local configuration that is an error or disabled, no engine
 * instance, a file that is ignored (unless forced), no parser. Past the
 * gates the merged options go to the engine; if the engine throws, the
 * original text is the result.
 *
 * The module resolver and the engine are oracles (datatypes of functions);
 * a ghost trace of `OracleCall`s records which of them a run consults.
 */
module PrettierEdit {
  import opened Wrappers
  import opened Js
  import opened Settings
  import opened Connections

  datatype TextDocument = TextDocument(uri: Uri, languageId: string)

  /** What a formatting request asks for: an optional range and the `force` flag. */
  datatype ExtensionFormattingOptions =
    ExtensionFormattingOptions(rangeStart: Option<int>, rangeEnd: Option<int>, force: bool)

  /** The outcome of local configuration discovery: `"error"`, `"disabled"`, options, or `null`. */
  datatype ResolvedConfig = Error | Disabled | Found(options: Options) | NoConfig

  /** The options `getFileInfo` is called with. */
  datatype FileInfoOptions = FileInfoOptions(ignorePath: Option<string>, resolveConfig: bool, withNodeModules: Value)

  /** What the engine reports about a file: ignored or not, and the parser it infers (`string | null`). */
  datatype FileInfo = FileInfo(ignored: bool, inferredParser: Option<string>)

  /**
   * The `Promise` that the asynchronous `getPrettierOptions` returns, which
   * is what the engine is handed (the call is not awaited).
   */
  datatype PendingOptions = Pending(options: Options)

  /** `prettierInstance.format` either returns formatted text or throws. */
  datatype FormatOutcome = Formatted(output: string) | Threw

  /**
   * A Prettier instance: `getFileInfo`, language-to-parser lookup (its
   * `getSupportInfo().languages` fed to `getParserFromLanguageId`) and
   * `format`.
   */
  datatype Engine = Engine(
    getFileInfo: (string, FileInfoOptions) -> FileInfo,
    parserFromLanguageId: (Uri, string) -> Option<string>,
    format: (string, PendingOptions) -> FormatOutcome)

  /** The module resolver: local configuration, engine instance, ignore file. */
  datatype ModuleResolver = ModuleResolver(
    getResolvedConfig: (TextDocument, Options) -> ResolvedConfig,
    getPrettierInstance: string -> Option<Engine>,
    getResolvedIgnorePath: (string, Value) -> Option<string>)

  /** One consultation of an oracle, in the order a run makes them. */
  datatype OracleCall =
    | ResolveConfig(document: TextDocument, settings: Options)
    | LoadEngine(path: string)
    | ResolveIgnorePath(path: string, ignorePath: Value)
    | GetFileInfo(path: string, fileInfoOptions: FileInfoOptions)
    | GetSupportInfo
    | EngineFormat(text: string, options: PendingOptions)

  /** The result of a `format` run and the oracle calls it made. */
  datatype Run = Run(result: Option<string>, calls: seq<OracleCall>)

  // ---------------------------------------------------------------------------
  // Option merge

  /** The twenty workspace settings forwarded when there is no local configuration. */
  const WorkspaceKeys: set<Key> :=
    {ArrowParens, BracketSpacing, EndOfLine, HtmlWhitespaceSensitivity,
     InsertPragma, SingleAttributePerLine, BracketSameLine, JsxBracketSameLine,
     JsxSingleQuote, PrintWidth, ProseWrap, QuoteProps, RequirePragma, Semi,
     SingleQuote, TabWidth, TrailingComma, UseTabs, EmbeddedLanguageFormatting,
     VueIndentScriptAndStyle}

  /** Both range bounds are truthy, so a start (or end) of 0 drops the range. */
  predicate RangeActive(ext: ExtensionFormattingOptions) {
    TruthyNumber(ext.rangeEnd) && TruthyNumber(ext.rangeStart)
  }

  /**
   * The value the merge takes for key `k` before the pragma override, from
   * the highest-precedence layer that has `k`: local configuration, then
   * the range bounds, then `filepath` and `parser`, then (only without a
   * local configuration) the twenty workspace settings.
   */
  function LayerValue(k: Key, fileName: string, parser: string, vsCodeConfig: Options,
                      configOptions: Option<Options>, ext: ExtensionFormattingOptions): Option<Value>
  {
    if configOptions.Some? && k in configOptions.value then Some(configOptions.value[k])
    else if k == RangeStart && RangeActive(ext) then Some(Num(ext.rangeStart.value))
    else if k == RangeEnd && RangeActive(ext) then Some(Num(ext.rangeEnd.value))
    else if k == Filepath then Some(Str(fileName))
    else if k == Parser then Some(Str(parser))
    else if configOptions.None? && k in WorkspaceKeys then Some(Get(vsCodeConfig, k))
    else None
  }

  /** `force` is set and the merge says `requirePragma === true`. */
  predicate PragmaCleared(fileName: string, parser: string, vsCodeConfig: Options,
                          configOptions: Option<Options>, ext: ExtensionFormattingOptions)
  {
    ext.force && LayerValue(RequirePragma, fileName, parser, vsCodeConfig, configOptions, ext) == Some(Bool(true))
  }

  /**
   * The options `getPrettierOptions` produces, key by key: the layered
   * value, except that `requirePragma` becomes `false` when the request is
   * forced and the layers make it `true`.
   */
  function MergedOptions(fileName: string, parser: string, vsCodeConfig: Options,
                         configOptions: Option<Options>, ext: ExtensionFormattingOptions): Options
  {
    var keys: set<Key> := WorkspaceKeys + {Filepath, Parser, RangeStart, RangeEnd}
                + (if configOptions.Some? then configOptions.value.Keys else {});
    map k | k in keys && LayerValue(k, fileName, parser, vsCodeConfig, configOptions, ext).Some? ::
      if k == RequirePragma && PragmaCleared(fileName, parser, vsCodeConfig, configOptions, ext)
      then Bool(false)
      else LayerValue(k, fileName, parser, vsCodeConfig, configOptions, ext).value
  }

  /**
   * The `vsOpts` object: each of the twenty workspace settings copied,
   * `undefined` included, and nothing else.
   */
  function WorkspaceFallback(vsCodeConfig: Options): (vsOpts: Options)
  {
    map k | k in WorkspaceKeys :: Get(vsCodeConfig, k)
  }

  /** The local configuration, for the gates that let the request through. */
  function LocalConfig(rc: ResolvedConfig): Option<Options> {
    if rc.Found? then Some(rc.options) else None
  }

  // ---------------------------------------------------------------------------
  // The pipeline, as a function of the settings and the oracles

  /** The engine chooses a parser from the file (a truthy `inferredParser`). */
  predicate ParserInferred(fileInfo: Option<FileInfo>) {
    fileInfo.Some? && TruthyString(fileInfo.value.inferredParser)
  }

  /**
   * What `format` does once the settings for the document are known:
   * its result and the oracle calls it makes, gate after gate.
   */
  function FormatRun(text: string, document: TextDocument, options: ExtensionFormattingOptions,
                     settings: Options, resolver: ModuleResolver): Run
  {
    var rc := resolver.getResolvedConfig(document, settings);
    var c0 := [ResolveConfig(document, settings)];
    if rc.Error? || rc.Disabled? then Run(None, c0)
    else
      var path := document.uri.fsPath;
      var c1 := c0 + [LoadEngine(path)];
      match resolver.getPrettierInstance(path)
      case None => Run(None, c1)
      case Some(engine) =>
        var rest := EngineRun(text, document, options, settings, resolver, LocalConfig(rc), engine);
        Run(rest.result, c1 + rest.calls)
  }

  /**
   * The run once an engine is loaded: the ignore file is resolved only if
   * the settings name one, file information is asked for only for a
   * non-empty path, and an ignored file ends the run unless forced.
   */
  function EngineRun(text: string, document: TextDocument, options: ExtensionFormattingOptions,
                     settings: Options, resolver: ModuleResolver, local: Option<Options>, engine: Engine): Run
  {
    var path := document.uri.fsPath;
    var ignorePath := Get(settings, IgnorePath);
    var c2 := if Truthy(ignorePath) then [ResolveIgnorePath(path, ignorePath)] else [];
    var fio := FileInfoOptionsFor(document, settings, resolver);
    var fileInfo := FileInfoFor(document, settings, resolver, engine);
    var c3 := c2 + (if path != "" then [GetFileInfo(path, fio)] else []);
    if SkippedAsIgnored(options, fileInfo) then Run(None, c3)
    else
      var rest := ParserRun(text, document, options, settings, local, engine, fileInfo);
      Run(rest.result, c3 + rest.calls)
  }

  /** The options `getFileInfo` is asked with: the resolved ignore file, if the settings name one. */
  function FileInfoOptionsFor(document: TextDocument, settings: Options, resolver: ModuleResolver): FileInfoOptions {
    var ignorePath := Get(settings, IgnorePath);
    var resolved := if Truthy(ignorePath) then resolver.getResolvedIgnorePath(document.uri.fsPath, ignorePath) else None;
    FileInfoOptions(resolved, true, Get(settings, WithNodeModules))
  }

  /** The engine's file information, asked for only when the document has a file-system path. */
  function FileInfoFor(document: TextDocument, settings: Options, resolver: ModuleResolver, engine: Engine): Option<FileInfo> {
    var path := document.uri.fsPath;
    if path != "" then Some(engine.getFileInfo(path, FileInfoOptionsFor(document, settings, resolver))) else None
  }

  /** The ignored-file gate: an ignored file ends the run unless the request is forced. */
  predicate SkippedAsIgnored(options: ExtensionFormattingOptions, fileInfo: Option<FileInfo>) {
    !options.force && fileInfo.Some? && fileInfo.value.ignored
  }

  /** The parser `format` uses: the inferred one, else the language lookup (not for plain text). */
  function ChosenParser(document: TextDocument, engine: Engine, fileInfo: Option<FileInfo>): Option<string> {
    if ParserInferred(fileInfo) then fileInfo.value.inferredParser
    else if document.languageId != "plaintext" then engine.parserFromLanguageId(document.uri, document.languageId)
    else None
  }

  /**
   * The run from parser selection on: no parser ends it; otherwise the
   * engine formats with the merged options, and a throw yields the
   * original text.
   */
  function ParserRun(text: string, document: TextDocument, options: ExtensionFormattingOptions,
                     settings: Options, local: Option<Options>, engine: Engine, fileInfo: Option<FileInfo>): Run
  {
    var lookup := !ParserInferred(fileInfo) && document.languageId != "plaintext";
    var parser := ChosenParser(document, engine, fileInfo);
    var c4 := if lookup then [GetSupportInfo] else [];
    if !TruthyString(parser) then Run(None, c4)
    else
      var pending := Pending(MergedOptions(document.uri.fsPath, parser.value, settings, local, options));
      var c5 := c4 + [EngineFormat(text, pending)];
      match engine.format(text, pending)
      case Threw => Run(Some(text), c5)
      case Formatted(out) => Run(Some(out), c5)
  }

  class PrettierEditService {
    const connectionService: ConnectionService
    const moduleResolver: ModuleResolver

    constructor (connectionService: ConnectionService, moduleResolver: ModuleResolver)
      ensures this.connectionService == connectionService && this.moduleResolver == moduleResolver
    {
      this.connectionService := connectionService;
      this.moduleResolver := moduleResolver;
    }

    /**
     * `format(text, document, options)`: the settings come from the
     * connection's cache (fetched on the first request for the path), and
     * the run is then the one `FormatRun` describes.
     */
    method Format(text: string, document: TextDocument, options: ExtensionFormattingOptions)
      returns (result: Option<string>, ghost calls: seq<OracleCall>)
      requires connectionService.Valid()
      modifies connectionService`document2Setting, connectionService.connection`configurationRequests
      ensures connectionService.Valid()
      ensures CacheExtends(old(connectionService.document2Setting), connectionService.document2Setting)
      ensures document.uri.fsPath in connectionService.document2Setting
      ensures document.uri.fsPath in old(connectionService.document2Setting) ==>
        && connectionService.document2Setting == old(connectionService.document2Setting)
        && connectionService.connection.configurationRequests == old(connectionService.connection.configurationRequests)
      ensures document.uri.fsPath !in old(connectionService.document2Setting) ==>
        && connectionService.document2Setting[document.uri.fsPath]
           == (if connectionService.isTrustedWorkspace then connectionService.connection.clientSettings
               else Sanitize(connectionService.connection.clientSettings))
        && connectionService.document2Setting
           == old(connectionService.document2Setting)[document.uri.fsPath := connectionService.document2Setting[document.uri.fsPath]]
        && connectionService.connection.configurationRequests == old(connectionService.connection.configurationRequests) + 1
      ensures var run := FormatRun(text, document, options,
                                   connectionService.document2Setting[document.uri.fsPath], moduleResolver);
              result == run.result && calls == run.calls
    {
      var uri := document.uri;
      var vscodeConfig := connectionService.GetConfig(uri);

      var resolvedConfig := moduleResolver.getResolvedConfig(document, vscodeConfig);
      calls := [ResolveConfig(document, vscodeConfig)];
      if resolvedConfig.Error? || resolvedConfig.Disabled? {
        return None, calls;
      }

      var prettierInstance := moduleResolver.getPrettierInstance(uri.fsPath);
      calls := calls + [LoadEngine(uri.fsPath)];
      if prettierInstance.None? {
        return None, calls;
      }
      var engine := prettierInstance.value;
      ghost var rest;
      result, rest := FormatWithEngine(text, document, options, vscodeConfig, LocalConfig(resolvedConfig), engine);
      calls := calls + rest;
    }

    /** The part of `format` after the engine is loaded, up to the ignored-file gate. */
    method FormatWithEngine(text: string, document: TextDocument, options: ExtensionFormattingOptions,
                            vscodeConfig: Options, local: Option<Options>, engine: Engine)
      returns (result: Option<string>, ghost calls: seq<OracleCall>)
      ensures result == EngineRun(text, document, options, vscodeConfig, moduleResolver, local, engine).result
      ensures calls == EngineRun(text, document, options, vscodeConfig, moduleResolver, local, engine).calls
    {
      var uri := document.uri;
      calls := [];
      var resolvedIgnorePath: Option<string> := None;
      var ignorePath := Get(vscodeConfig, IgnorePath);
      if Truthy(ignorePath) {
        resolvedIgnorePath := moduleResolver.getResolvedIgnorePath(uri.fsPath, ignorePath);
        calls := calls + [ResolveIgnorePath(uri.fsPath, ignorePath)];
      }

      var fileInfo: Option<FileInfo> := None;
      if uri.fsPath != "" {
        var fio := FileInfoOptions(resolvedIgnorePath, true, Get(vscodeConfig, WithNodeModules));
        fileInfo := Some(engine.getFileInfo(uri.fsPath, fio));
        calls := calls + [GetFileInfo(uri.fsPath, fio)];
      }

      assert fileInfo == FileInfoFor(document, vscodeConfig, moduleResolver, engine);
      if !options.force && fileInfo.Some? && fileInfo.value.ignored {
        return None, calls;
      }
      ghost var rest;
      result, rest := FormatWithFileInfo(text, document, options, vscodeConfig, local, engine, fileInfo);
      calls := calls + rest;
    }

    /** The part of `format` from parser selection on. */
    method FormatWithFileInfo(text: string, document: TextDocument, options: ExtensionFormattingOptions,
                              vscodeConfig: Options, local: Option<Options>, engine: Engine, fileInfo: Option<FileInfo>)
      returns (result: Option<string>, ghost calls: seq<OracleCall>)
      ensures result == ParserRun(text, document, options, vscodeConfig, local, engine, fileInfo).result
      ensures calls == ParserRun(text, document, options, vscodeConfig, local, engine, fileInfo).calls
    {
      var uri := document.uri;
      calls := [];
      var parser: Option<string> := None;
      if fileInfo.Some? && TruthyString(fileInfo.value.inferredParser) {
        parser := fileInfo.value.inferredParser;
      } else if document.languageId != "plaintext" {
        calls := calls + [GetSupportInfo];
        parser := engine.parserFromLanguageId(uri, document.languageId);
      }
      assert parser == ChosenParser(document, engine, fileInfo);

      if !TruthyString(parser) {
        return None, calls;
      }

      var prettierOptions := GetPrettierOptions(uri.fsPath, parser.value, vscodeConfig, local, options);
      var pending := Pending(prettierOptions);
      calls := calls + [EngineFormat(text, pending)];
      match engine.format(text, pending)
      case Threw =>
        result := Some(text);
      case Formatted(formattedText) =>
        result := Some(formattedText);
    }

    /**
     * `getPrettierOptions`: fills the workspace fallback field by field (only
     * without a local configuration), spreads it under `filepath`/`parser`,
     * the range and the local configuration, then clears `requirePragma` in
     * place when forced. The result is the key-by-key precedence of
     * `MergedOptions`.
     */
    method GetPrettierOptions(fileName: string, parser: string, vsCodeConfig: Options,
                              configOptions: Option<Options>, ext: ExtensionFormattingOptions)
      returns (options: Options)
      ensures options == MergedOptions(fileName, parser, vsCodeConfig, configOptions, ext)
    {
      var fallbackToVSCodeConfig := configOptions.None?;

      var vsOpts: Options := map[];
      if fallbackToVSCodeConfig {
        vsOpts := WorkspaceFallback(vsCodeConfig);
      }

      var rangeFormattingOptions: Options := map[];
      if TruthyNumber(ext.rangeEnd) && TruthyNumber(ext.rangeStart) {
        rangeFormattingOptions := map[RangeEnd := Num(ext.rangeEnd.value), RangeStart := Num(ext.rangeStart.value)];
      }

      options := (if fallbackToVSCodeConfig then vsOpts else map[])
                 + map[Filepath := Str(fileName), Parser := Str(parser)]
                 + rangeFormattingOptions
                 + (if configOptions.Some? then configOptions.value else map[]);
      MergeMatchesLayers(options, vsOpts, rangeFormattingOptions, fileName, parser, vsCodeConfig, configOptions, ext);

      ghost var spread := options;
      if ext.force && Get(options, RequirePragma) == Bool(true) {
        options := options[RequirePragma := Bool(false)];
      }
      PragmaOverrideMatches(spread, options, fileName, parser, vsCodeConfig, configOptions, ext);
    }
  }

  /** The spread chain gives every key its layered value and no other keys. */
  lemma MergeMatchesLayers(options: Options, vsOpts: Options, range: Options,
                           fileName: string, parser: string, vsCodeConfig: Options,
                           configOptions: Option<Options>, ext: ExtensionFormattingOptions)
    requires configOptions.None? ==> vsOpts == WorkspaceFallback(vsCodeConfig)
    requires range == if RangeActive(ext)
                      then map[RangeEnd := Num(ext.rangeEnd.value), RangeStart := Num(ext.rangeStart.value)]
                      else map[]
    requires options == (if configOptions.None? then vsOpts else map[])
                        + map[Filepath := Str(fileName), Parser := Str(parser)]
                        + range
                        + (if configOptions.Some? then configOptions.value else map[])
    ensures forall k :: k in options <==> LayerValue(k, fileName, parser, vsCodeConfig, configOptions, ext).Some?
    ensures forall k :: k in options ==> options[k] == LayerValue(k, fileName, parser, vsCodeConfig, configOptions, ext).value
  {
    var local := if configOptions.Some? then configOptions.value else map[];
    var injected := map[Filepath := Str(fileName), Parser := Str(parser)];
    var workspace := if configOptions.None? then vsOpts else map[];
    forall k
      ensures k in options <==> LayerValue(k, fileName, parser, vsCodeConfig, configOptions, ext).Some?
      ensures k in options ==> options[k] == LayerValue(k, fileName, parser, vsCodeConfig, configOptions, ext).value
    {
      if k in local {
        assert options[k] == local[k];
      } else if k in range {
        assert options[k] == range[k];
      } else if k in injected {
        assert options[k] == injected[k];
      } else if configOptions.None? && k in WorkspaceKeys {
        assert options[k] == vsOpts[k];
      } else {
        assert k !in workspace;
      }
    }
  }

  /** Clearing `requirePragma` in place after the spread gives `MergedOptions`. */
  lemma PragmaOverrideMatches(spread: Options, options: Options,
                              fileName: string, parser: string, vsCodeConfig: Options,
                              configOptions: Option<Options>, ext: ExtensionFormattingOptions)
    requires forall k :: k in spread <==> LayerValue(k, fileName, parser, vsCodeConfig, configOptions, ext).Some?
    requires forall k :: k in spread ==> spread[k] == LayerValue(k, fileName, parser, vsCodeConfig, configOptions, ext).value
    requires options == if ext.force && Get(spread, RequirePragma) == Bool(true)
                        then spread[RequirePragma := Bool(false)] else spread
    ensures options == MergedOptions(fileName, parser, vsCodeConfig, configOptions, ext)
  {
    var m := MergedOptions(fileName, parser, vsCodeConfig, configOptions, ext);
    assert PragmaCleared(fileName, parser, vsCodeConfig, configOptions, ext)
       <==> ext.force && Get(spread, RequirePragma) == Bool(true);
    forall k
      ensures k in options <==> k in m
      ensures k in options ==> options[k] == m[k]
    {
      var lv := LayerValue(k, fileName, parser, vsCodeConfig, configOptions, ext);
      if lv.Some? {
        assert k in WorkspaceKeys + {Filepath, Parser, RangeStart, RangeEnd}
                    + (if configOptions.Some? then configOptions.value.Keys else {});
      }
    }
  }
}
