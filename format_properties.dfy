/**
 * What `format` and `getPrettierOptions` promise, stated over the spec
 * functions `FormatRun` and `MergedOptions` that the methods of
 * `PrettierEditService` are proved equal to.
 */
module FormatProperties {
  import opened Wrappers
  import opened Js
  import opened Settings
  import opened PrettierEdit

  // ---------------------------------------------------------------------------
  // The option merge

  /** A key of the local configuration always reaches the engine with its own value (bar the pragma override). */
  lemma LocalConfigWins(k: Key, fileName: string, parser: string, vsCodeConfig: Options,
                        local: Options, ext: ExtensionFormattingOptions)
    requires k in local
    ensures var m := MergedOptions(fileName, parser, vsCodeConfig, Some(local), ext);
            k in m && m[k] == (if k == RequirePragma && ext.force && local[k] == Bool(true) then Bool(false) else local[k])
  {
  }

  /**
   * With a local configuration the workspace settings are not consulted at
   * all: a key the configuration lacks is absent unless the request itself
   * supplies it (`filepath`, `parser`, the range).
   */
  lemma LocalConfigHidesWorkspace(k: Key, fileName: string, parser: string, vsCodeConfig: Options,
                                  local: Options, ext: ExtensionFormattingOptions)
    requires k !in local && k != Filepath && k != Parser && k != RangeStart && k != RangeEnd
    ensures k !in MergedOptions(fileName, parser, vsCodeConfig, Some(local), ext)
  {
  }

  /** Without a local configuration each of the twenty workspace settings is forwarded, `undefined` included. */
  lemma WorkspaceSettingForwarded(k: Key, fileName: string, parser: string, vsCodeConfig: Options,
                                  ext: ExtensionFormattingOptions)
    requires k in WorkspaceKeys
    ensures var m := MergedOptions(fileName, parser, vsCodeConfig, None, ext);
            var v := Get(vsCodeConfig, k);
            k in m && m[k] == (if k == RequirePragma && ext.force && v == Bool(true) then Bool(false) else v)
  {
    assert k != Filepath && k != Parser && k != RangeStart && k != RangeEnd;
  }

  /** Without a local configuration, no workspace setting outside the twenty is forwarded. */
  lemma OnlyListedSettingsForwarded(k: Key, fileName: string, parser: string, vsCodeConfig: Options,
                                    ext: ExtensionFormattingOptions)
    requires k !in WorkspaceKeys && k != Filepath && k != Parser && k != RangeStart && k != RangeEnd
    ensures k !in MergedOptions(fileName, parser, vsCodeConfig, None, ext)
  {
  }

  /**
   * The extension's own settings (engine path, configuration path, ignore
   * file, selectors, the three booleans) never reach the engine from the
   * workspace.
   */
  lemma ExtensionSettingsNotForwarded(fileName: string, parser: string, vsCodeConfig: Options,
                                      ext: ExtensionFormattingOptions)
    ensures forall k :: k in SanitizedKeys ==> k !in MergedOptions(fileName, parser, vsCodeConfig, None, ext)
  {
    forall k | k in SanitizedKeys
      ensures k !in MergedOptions(fileName, parser, vsCodeConfig, None, ext)
    {
      OnlyListedSettingsForwarded(k, fileName, parser, vsCodeConfig, ext);
    }
  }

  /** `filepath` and `parser` come from the request unless a local configuration sets them. */
  lemma FilepathAndParserInjected(fileName: string, parser: string, vsCodeConfig: Options,
                                  configOptions: Option<Options>, ext: ExtensionFormattingOptions)
    requires configOptions.Some? ==> Filepath !in configOptions.value && Parser !in configOptions.value
    ensures var m := MergedOptions(fileName, parser, vsCodeConfig, configOptions, ext);
            Filepath in m && m[Filepath] == Str(fileName) && Parser in m && m[Parser] == Str(parser)
  {
  }

  /**
   * The range is forwarded exactly when both bounds are truthy, so a range
   * starting at offset 0 formats the whole file.
   */
  lemma RangeNeedsBothBounds(fileName: string, parser: string, vsCodeConfig: Options,
                             configOptions: Option<Options>, ext: ExtensionFormattingOptions)
    requires configOptions.Some? ==> RangeStart !in configOptions.value && RangeEnd !in configOptions.value
    ensures var m := MergedOptions(fileName, parser, vsCodeConfig, configOptions, ext);
            (RangeStart in m <==> RangeActive(ext)) && (RangeEnd in m <==> RangeActive(ext))
    ensures var m := MergedOptions(fileName, parser, vsCodeConfig, configOptions, ext);
            RangeActive(ext) ==> m[RangeStart] == Num(ext.rangeStart.value) && m[RangeEnd] == Num(ext.rangeEnd.value)
  {
    var m := MergedOptions(fileName, parser, vsCodeConfig, configOptions, ext);
    assert RangeStart in WorkspaceKeys + {Filepath, Parser, RangeStart, RangeEnd};
    assert RangeEnd in WorkspaceKeys + {Filepath, Parser, RangeStart, RangeEnd};
    assert RangeStart !in WorkspaceKeys && RangeEnd !in WorkspaceKeys;
    assert LayerValue(RangeStart, fileName, parser, vsCodeConfig, configOptions, ext)
        == if RangeActive(ext) then Some(Num(ext.rangeStart.value)) else None;
    assert LayerValue(RangeEnd, fileName, parser, vsCodeConfig, configOptions, ext)
        == if RangeActive(ext) then Some(Num(ext.rangeEnd.value)) else None;
  }

  /** A range `[0, n)` is dropped. */
  lemma RangeFromZeroDropped(fileName: string, parser: string, vsCodeConfig: Options,
                             configOptions: Option<Options>, n: int, force: bool)
    requires configOptions.Some? ==> RangeStart !in configOptions.value && RangeEnd !in configOptions.value
    ensures var m := MergedOptions(fileName, parser, vsCodeConfig, configOptions,
                                   ExtensionFormattingOptions(Some(0), Some(n), force));
            RangeStart !in m && RangeEnd !in m
  {
    RangeNeedsBothBounds(fileName, parser, vsCodeConfig, configOptions, ExtensionFormattingOptions(Some(0), Some(n), force));
  }

  /** A forced request never asks the engine to require a pragma. */
  lemma ForceClearsPragma(fileName: string, parser: string, vsCodeConfig: Options,
                          configOptions: Option<Options>, ext: ExtensionFormattingOptions)
    requires ext.force
    ensures var m := MergedOptions(fileName, parser, vsCodeConfig, configOptions, ext);
            RequirePragma in m ==> m[RequirePragma] != Bool(true)
  {
  }

  /**
   * `force` changes nothing but `requirePragma`: forced and unforced merges
   * have the same keys, agree everywhere else, and the forced one turns a
   * `true` pragma requirement into `false`.
   */
  lemma ForceOnlyTouchesPragma(fileName: string, parser: string, vsCodeConfig: Options,
                               configOptions: Option<Options>, ext: ExtensionFormattingOptions)
    ensures var forced := MergedOptions(fileName, parser, vsCodeConfig, configOptions, ext.(force := true));
            var plain := MergedOptions(fileName, parser, vsCodeConfig, configOptions, ext.(force := false));
            forced.Keys == plain.Keys
            && (forall k :: k in plain && k != RequirePragma ==> forced[k] == plain[k])
            && (RequirePragma in plain ==>
                  forced[RequirePragma] == (if plain[RequirePragma] == Bool(true) then Bool(false) else plain[RequirePragma]))
  {
    var e1 := ext.(force := true);
    var e0 := ext.(force := false);
    var forced := MergedOptions(fileName, parser, vsCodeConfig, configOptions, e1);
    var plain := MergedOptions(fileName, parser, vsCodeConfig, configOptions, e0);
    forall k
      ensures LayerValue(k, fileName, parser, vsCodeConfig, configOptions, e1)
           == LayerValue(k, fileName, parser, vsCodeConfig, configOptions, e0)
    {
      assert RangeActive(e1) == RangeActive(e0);
    }
    assert forced.Keys == plain.Keys;
  }

  /** An unforced merge is the plain layered merge: every key has the value of its highest layer. */
  lemma UnforcedMergeIsLayered(fileName: string, parser: string, vsCodeConfig: Options,
                               configOptions: Option<Options>, ext: ExtensionFormattingOptions)
    requires !ext.force
    ensures var m := MergedOptions(fileName, parser, vsCodeConfig, configOptions, ext);
            forall k :: (k in m <==> LayerValue(k, fileName, parser, vsCodeConfig, configOptions, ext).Some?)
                     && (k in m ==> m[k] == LayerValue(k, fileName, parser, vsCodeConfig, configOptions, ext).value)
  {
    var m := MergedOptions(fileName, parser, vsCodeConfig, configOptions, ext);
    forall k
      ensures k in m <==> LayerValue(k, fileName, parser, vsCodeConfig, configOptions, ext).Some?
    {
      if LayerValue(k, fileName, parser, vsCodeConfig, configOptions, ext).Some? {
        assert k in WorkspaceKeys + {Filepath, Parser, RangeStart, RangeEnd}
                    + (if configOptions.Some? then configOptions.value.Keys else {});
      }
    }
  }

  // ---------------------------------------------------------------------------
  // The pipeline

  /** The configuration gate lets the request through and an engine is found for the path. */
  predicate GatesPass(document: TextDocument, settings: Options, resolver: ModuleResolver) {
    var rc := resolver.getResolvedConfig(document, settings);
    !rc.Error? && !rc.Disabled? && resolver.getPrettierInstance(document.uri.fsPath).Some?
  }

  /** The engine instance loaded for the document's path. */
  function LoadedEngine(document: TextDocument, resolver: ModuleResolver): Engine
    requires resolver.getPrettierInstance(document.uri.fsPath).Some?
  {
    resolver.getPrettierInstance(document.uri.fsPath).value
  }

  /** The file information the loaded engine reports. */
  function LoadedFileInfo(document: TextDocument, settings: Options, resolver: ModuleResolver): Option<FileInfo>
    requires resolver.getPrettierInstance(document.uri.fsPath).Some?
  {
    FileInfoFor(document, settings, resolver, LoadedEngine(document, resolver))
  }

  /** The engine was called. */
  predicate EngineCalled(calls: seq<OracleCall>) {
    exists c :: c in calls && c.EngineFormat?
  }

  /** The parser stage only looks up languages and calls the engine, and it has a result exactly when it calls the engine. */
  lemma ParserRunCalls(text: string, document: TextDocument, options: ExtensionFormattingOptions,
                       settings: Options, local: Option<Options>, engine: Engine, fileInfo: Option<FileInfo>)
    ensures var pr := ParserRun(text, document, options, settings, local, engine, fileInfo);
            (forall c :: c in pr.calls ==> c.GetSupportInfo? || c.EngineFormat?)
            && (pr.result.Some? <==> EngineCalled(pr.calls))
  {
    var pr := ParserRun(text, document, options, settings, local, engine, fileInfo);
    if pr.result.Some? {
      assert pr.calls[|pr.calls| - 1].EngineFormat?;
    }
  }

  /** A configuration that is an error or disabled ends the run before any engine is loaded. */
  lemma ConfigGateStops(text: string, document: TextDocument, options: ExtensionFormattingOptions,
                        settings: Options, resolver: ModuleResolver)
    requires resolver.getResolvedConfig(document, settings).Error? || resolver.getResolvedConfig(document, settings).Disabled?
    ensures FormatRun(text, document, options, settings, resolver) == Run(None, [ResolveConfig(document, settings)])
  {
  }

  /** No engine instance for the path ends the run. */
  lemma MissingEngineStops(text: string, document: TextDocument, options: ExtensionFormattingOptions,
                           settings: Options, resolver: ModuleResolver)
    requires !resolver.getResolvedConfig(document, settings).Error? && !resolver.getResolvedConfig(document, settings).Disabled?
    requires resolver.getPrettierInstance(document.uri.fsPath).None?
    ensures FormatRun(text, document, options, settings, resolver)
         == Run(None, [ResolveConfig(document, settings), LoadEngine(document.uri.fsPath)])
  {
  }

  /** There is a result exactly when the engine was asked to format. */
  lemma ResultIffEngineCalled(text: string, document: TextDocument, options: ExtensionFormattingOptions,
                              settings: Options, resolver: ModuleResolver)
    ensures var run := FormatRun(text, document, options, settings, resolver);
            run.result.Some? <==> EngineCalled(run.calls)
  {
    var rc := resolver.getResolvedConfig(document, settings);
    var path := document.uri.fsPath;
    if !rc.Error? && !rc.Disabled? && resolver.getPrettierInstance(path).Some? {
      var engine := resolver.getPrettierInstance(path).value;
      var er := EngineRun(text, document, options, settings, resolver, LocalConfig(rc), engine);
      var fileInfo := LoadedFileInfo(document, settings, resolver);
      if !SkippedAsIgnored(options, fileInfo) {
        ParserRunCalls(text, document, options, settings, LocalConfig(rc), engine, fileInfo);
      }
    }
  }

  /** The ignore file is resolved exactly when the settings name a (truthy) one. */
  lemma IgnorePathResolvedOnlyWhenSet(text: string, document: TextDocument, options: ExtensionFormattingOptions,
                                      settings: Options, resolver: ModuleResolver)
    requires GatesPass(document, settings, resolver)
    ensures var run := FormatRun(text, document, options, settings, resolver);
            (exists c :: c in run.calls && c.ResolveIgnorePath?) <==> Truthy(Get(settings, IgnorePath))
  {
    var run := FormatRun(text, document, options, settings, resolver);
    var local := LocalConfig(resolver.getResolvedConfig(document, settings));
    ParserRunCalls(text, document, options, settings, local, LoadedEngine(document, resolver),
                   LoadedFileInfo(document, settings, resolver));
    if Truthy(Get(settings, IgnorePath)) {
      assert run.calls[2].ResolveIgnorePath?;
    }
  }

  /**
   * In an untrusted workspace the settings are sanitized, so the default
   * ignore file is always resolved once an engine is loaded.
   */
  lemma SanitizedSettingsResolveDefaultIgnoreFile(text: string, document: TextDocument,
                                                  options: ExtensionFormattingOptions, clientSettings: Options,
                                                  resolver: ModuleResolver)
    requires GatesPass(document, Sanitize(clientSettings), resolver)
    ensures ResolveIgnorePath(document.uri.fsPath, Str(".prettierignore"))
            in FormatRun(text, document, options, Sanitize(clientSettings), resolver).calls
  {
    assert Get(Sanitize(clientSettings), IgnorePath) == Str(".prettierignore");
  }

  /** File information is asked for exactly when the document has a file-system path. */
  lemma FileInfoOnlyForPath(text: string, document: TextDocument, options: ExtensionFormattingOptions,
                            settings: Options, resolver: ModuleResolver)
    requires GatesPass(document, settings, resolver)
    ensures var run := FormatRun(text, document, options, settings, resolver);
            (exists c :: c in run.calls && c.GetFileInfo?) <==> document.uri.fsPath != ""
  {
    var run := FormatRun(text, document, options, settings, resolver);
    var local := LocalConfig(resolver.getResolvedConfig(document, settings));
    ParserRunCalls(text, document, options, settings, local, LoadedEngine(document, resolver),
                   LoadedFileInfo(document, settings, resolver));
    if document.uri.fsPath != "" {
      var i := if Truthy(Get(settings, IgnorePath)) then 3 else 2;
      assert run.calls[i].GetFileInfo?;
    }
  }

  /** An ignored file is left alone (no result, no engine call) unless the request is forced. */
  lemma IgnoredFileSkipped(text: string, document: TextDocument, options: ExtensionFormattingOptions,
                           settings: Options, resolver: ModuleResolver)
    requires GatesPass(document, settings, resolver)
    requires !options.force && document.uri.fsPath != ""
    requires LoadedEngine(document, resolver).getFileInfo(document.uri.fsPath, FileInfoOptionsFor(document, settings, resolver)).ignored
    ensures var run := FormatRun(text, document, options, settings, resolver);
            run.result.None? && !EngineCalled(run.calls)
  {
  }

  /** A forced request ignores the ignored flag: it is formatted exactly when a parser is found. */
  lemma ForceBypassesIgnore(text: string, document: TextDocument, options: ExtensionFormattingOptions,
                            settings: Options, resolver: ModuleResolver)
    requires GatesPass(document, settings, resolver)
    requires options.force
    ensures var run := FormatRun(text, document, options, settings, resolver);
            run.result.Some?
            <==> TruthyString(ChosenParser(document, LoadedEngine(document, resolver), LoadedFileInfo(document, settings, resolver)))
  {
  }

  /**
   * A parser inferred from the file wins: the language is not looked up,
   * and the engine is called with options merged for that parser.
   */
  lemma InferredParserWins(text: string, document: TextDocument, options: ExtensionFormattingOptions,
                           settings: Options, resolver: ModuleResolver)
    requires GatesPass(document, settings, resolver)
    requires var fileInfo := LoadedFileInfo(document, settings, resolver);
             ParserInferred(fileInfo) && !SkippedAsIgnored(options, fileInfo)
    ensures var run := FormatRun(text, document, options, settings, resolver);
            var fileInfo := LoadedFileInfo(document, settings, resolver);
            var local := LocalConfig(resolver.getResolvedConfig(document, settings));
            GetSupportInfo !in run.calls
            && EngineFormat(text, Pending(MergedOptions(document.uri.fsPath, fileInfo.value.inferredParser.value,
                                                        settings, local, options))) in run.calls
  {
  }

  /** A plain-text document with no inferred parser is not looked up and not formatted. */
  lemma PlainTextNotFormatted(text: string, document: TextDocument, options: ExtensionFormattingOptions,
                              settings: Options, resolver: ModuleResolver)
    requires GatesPass(document, settings, resolver)
    requires document.languageId == "plaintext"
    requires !ParserInferred(LoadedFileInfo(document, settings, resolver))
    ensures var run := FormatRun(text, document, options, settings, resolver);
            run.result.None? && GetSupportInfo !in run.calls && !EngineCalled(run.calls)
  {
  }

  /** No parser (none inferred, and the language lookup gives none or `""`) means no result and no engine call. */
  lemma NoParserNotFormatted(text: string, document: TextDocument, options: ExtensionFormattingOptions,
                             settings: Options, resolver: ModuleResolver)
    requires GatesPass(document, settings, resolver)
    requires !TruthyString(ChosenParser(document, LoadedEngine(document, resolver), LoadedFileInfo(document, settings, resolver)))
    ensures var run := FormatRun(text, document, options, settings, resolver);
            run.result.None? && !EngineCalled(run.calls)
  {
  }

  /**
   * Past the gates, the result is the engine's output, or the original
   * text when the engine throws.
   */
  lemma EngineOutcomeIsResult(text: string, document: TextDocument, options: ExtensionFormattingOptions,
                              settings: Options, resolver: ModuleResolver)
    requires GatesPass(document, settings, resolver)
    requires var fileInfo := LoadedFileInfo(document, settings, resolver);
             !SkippedAsIgnored(options, fileInfo) && TruthyString(ChosenParser(document, LoadedEngine(document, resolver), fileInfo))
    ensures var run := FormatRun(text, document, options, settings, resolver);
            var fileInfo := LoadedFileInfo(document, settings, resolver);
            var local := LocalConfig(resolver.getResolvedConfig(document, settings));
            var pending := Pending(MergedOptions(document.uri.fsPath, ChosenParser(document, LoadedEngine(document, resolver), fileInfo).value,
                                                 settings, local, options));
            run.result == Some(match LoadedEngine(document, resolver).format(text, pending) case Threw => text case Formatted(out) => out)
  {
  }

  /** Whatever a forced run hands the engine does not require a pragma. */
  lemma ForcedRunClearsPragma(text: string, document: TextDocument, options: ExtensionFormattingOptions,
                              settings: Options, resolver: ModuleResolver)
    requires options.force
    ensures forall c :: c in FormatRun(text, document, options, settings, resolver).calls && c.EngineFormat? ==>
              (RequirePragma in c.options.options ==> c.options.options[RequirePragma] != Bool(true))
  {
    var rc := resolver.getResolvedConfig(document, settings);
    var path := document.uri.fsPath;
    if !rc.Error? && !rc.Disabled? && resolver.getPrettierInstance(path).Some? {
      var engine := resolver.getPrettierInstance(path).value;
      var fileInfo := LoadedFileInfo(document, settings, resolver);
      var parser := ChosenParser(document, LoadedEngine(document, resolver), fileInfo);
      if TruthyString(parser) {
        ForceClearsPragma(path, parser.value, settings, LocalConfig(rc), options);
      }
    }
  }
}
