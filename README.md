# Prettier language server: formatting pipeline, settings cache, workspace paths

A Dafny model of the core of a language server that formats documents with
Prettier. It covers four parts:

- **Settings resolution.** `ConnectionService.getConfig` and
  `WorkspaceService.getConfig` fetch the client's extension settings once per
  file-system path and cache them. In an untrusted workspace they first
  overwrite seven security-relevant settings with safe values. The trust flag
  starts false and changes only on a `workspace/didChangeTrust` notification.
- **The formatting request.** `PrettierEditService.format` runs a chain of
  gates, and each gate can end the request with no result:
  - the local configuration is an error or is disabled;
  - no engine instance is found;
  - the file is ignored and the request is not forced;
  - no parser is found.
  Past the gates, the engine formats the text with merged options. If the
  engine throws, the original text is returned.
- **The option merge.** `getPrettierOptions` layers its inputs from lowest to
  highest precedence:
  1. the twenty workspace settings, used only when there is no local configuration;
  2. `filepath` and `parser`;
  3. the range, used only when both bounds are truthy;
  4. the local configuration.
  A forced request then turns `requirePragma: true` into `false`.
- **Workspace paths.** `getWorkspaceFolder` and `getWorkspaceRelativePath`
  resolve a configured path against the macOS home directory or against the
  file's workspace folder.

How the model is built:

- **JavaScript values.** Option objects are maps from a key datatype to a
  JavaScript value (`Js`). Object spread is map union. A key present with
  value `undefined` is different from a missing key. `Truthy` is the
  truthiness that `if (x)` and `&&` test.
- **Oracles.** The client connection, the module resolver, the Prettier
  engine and the host libraries (`os`, `path`, `vscode-uri`) are opaque
  functions held in datatypes or objects. A ghost trace of `OracleCall`s
  records which of them a run consults, and in what order.
- **Stateful parts are classes.** The connection service's cache and trust
  flag, the module-level cache of `WorkspaceService` and the flag behind its
  `isTrusted` callback are classes with `modifies` frames.
   - The class invariant `Valid` says that until the workspace has been
     reported trusted, every cached entry is sanitized.
   - `Format` and `GetPrettierOptions` are imperative methods. Each is proved
     equal to a spec function: `FormatRun`, staged as `EngineRun` and
     `ParserRun`, and `MergedOptions`, a key-by-key precedence. The lemmas in
     `FormatProperties` state what the source promises about those functions.

Files:

| file | module | contents |
|---|---|---|
| `wrappers.dfy` | `Wrappers` | `Option` |
| `js.dfy` | `Js` | JavaScript values, option keys, truthiness, URIs |
| `settings.dfy` | `Settings` | sanitization and the client end of `workspace/configuration` |
| `connections.dfy` | `Connections` | `ConnectionService` |
| `workspaces.dfy` | `Workspaces` | `WorkspaceService`, its shared store and trust callback |
| `workspace_utils.dfy` | `WorkspaceUtils` | the workspace folder and path helpers |
| `prettier_edit.dfy` | `PrettierEdit` | `PrettierEditService`, the pipeline and the merge |
| `format_properties.dfy` | `FormatProperties` | the properties of the pipeline and the merge |

### Notes on the source

- **Cache key.** Both settings caches are keyed by the document's `fsPath`
  (ConnectionService.ts:49,70; WorkspaceService.ts:30,51). Two URIs with the
  same path share one entry. `Connections.CacheKeyIsFsPath` states this.
- **No diff step.** No code in the repository turns the formatted text into
  an edit. `format` returns the formatted string. The handlers in
  ConnectionService.ts:124-142 and index.ts:54-72 return the text
  upper-cased. The handlers in RegistrationService.ts:78-107 call
  `provideEdits`, which is not part of this model. The model therefore ends
  at `format`'s result.

## Model

| member | source | states |
|---|---|---|
| Settings.Sanitize | src/ConnectionService.ts:59-68 | an untrusted workspace's settings have exactly the seven security keys overwritten (engine path and config path `undefined`, ignore file `.prettierignore`, selectors `[]`, the three module flags `false`), all seven present afterwards, every other key as the client sent it |
| Settings.SanitizeIdempotent | src/ConnectionService.ts:59-68 | sanitizing twice is sanitizing once |
| Settings.SanitizeForgetsSecuritySettings | src/ConnectionService.ts:59-68 | whatever the client sent for the seven keys has no influence: inputs that agree elsewhere sanitize to the same settings |
| Connections.ConnectionService.constructor | src/ConnectionService.ts:24-37 | a new service is untrusted with an empty cache |
| Connections.ConnectionService.GetConfig | src/ConnectionService.ts:48-72 | a cached path returns its entry with no request and the cache unchanged; an uncached path makes one request, gets the client settings (sanitized unless trusted), caches them under `fsPath` and returns them; existing entries never change; until trust is reported every entry is sanitized |
| Connections.ConnectionService.IsTrusted | src/ConnectionService.ts:44-46 | the getter returns the flag, which is false until a notification has reported the workspace trusted |
| Connections.ConnectionService.OnDidChangeTrust | src/ConnectionService.ts:117-122 | the trust flag takes the notified value and nothing else changes; the invariant is kept |
| Connections.TrustChangeKeepsCachedEntry | src/ConnectionService.ts:48-72 | a change of trust or of the client's settings does not recompute a cached entry: the second lookup returns the first, sanitized result and the client was asked once |
| Connections.CacheKeyIsFsPath | src/ConnectionService.ts:49-70 | two URIs with the same `fsPath` get the same cached settings |
| Workspaces.SettingStore.constructor | src/WorkspaceService.ts:13-16 | the shared module-level store starts empty |
| Workspaces.TrustSource.constructor | src/index.ts:20 | the flag starts at the given value; index.ts starts it at `false`, and the model leaves the initial value open |
| Workspaces.TrustSource.IsTrusted | src/index.ts:20-21 | the callback returns the flag's value at the time of the call |
| Workspaces.TrustSource.Set | src/index.ts:47-52 | a trust notification sets the flag, and the callback then returns the new value |
| Workspaces.WorkspaceService.constructor | src/WorkspaceService.ts:20-27 | the service holds its connection, the shared store and the trust callback |
| Workspaces.WorkspaceService.GetConfig | src/WorkspaceService.ts:29-53 | the same hit/miss contract as the connection service, over the shared module-level store, with trust read through the injected callback when the entry is resolved |
| Workspaces.SharedStoreAcrossInstances | src/WorkspaceService.ts:13-16 | the store is module-level: a second service (trusted, with a different client) returns the entry the first one cached (sanitized) and sends no request |
| Workspaces.TrustReadAtResolution | src/WorkspaceService.ts:36-39 | trust is read when an entry is resolved: after the callback turns true a new path gets the raw settings, a cached one stays sanitized |
| WorkspaceUtils.FindByUri | src/workspace-utils.ts:13-16 | `find`: no result exactly when no folder has the URI; otherwise the earliest folder that has it |
| WorkspaceUtils.GetWorkspaceFolder | src/workspace-utils.ts:9-17 | the first folder whose URI string equals the path's file URI, or none exactly when no folder's does |
| WorkspaceUtils.ExpandHome | src/workspace-utils.ts:30 | a leading `~` standing alone or before `/` or `\` becomes the home directory, the rest kept; any other path is unchanged |
| WorkspaceUtils.GetWorkspaceRelativePath | src/workspace-utils.ts:19-41 | on macOS with a home directory a `~` path is expanded; otherwise no folder list or no matching folder gives no result, and a matching folder gives the absolute path unchanged or the relative path joined to the folder's path |
| WorkspaceUtils.TildeWithoutSeparatorKept | src/workspace-utils.ts:27-30 | `~foo` passes the `~` test but not the pattern, so it comes back unchanged; `~`, `~/x` and `~\x` are expanded; a `~` later in the path is not |
| WorkspaceUtils.NoLeadingTildeUnchanged | src/workspace-utils.ts:30 | for every path not starting with `~`, the anchored replacement leaves it unchanged |
| WorkspaceUtils.TildeUserPathVerbatim | src/workspace-utils.ts:25-31 | for every path `~` followed by a non-separator on macOS with a home directory, the result is the path itself, whatever the folders |
| WorkspaceUtils.TildeBranchNeedsNoFolders | src/workspace-utils.ts:25-31 | the home-directory branch ignores the folder list, and then yields a result even with no folders |
| WorkspaceUtils.NonMatchingFolderGivesNoResult | src/workspace-utils.ts:13-16 | matching is by equal URI: a single folder whose URI differs from the file's (the folder containing the file, say) gives no folder and, off the home-directory branch, no result |
| PrettierEdit.PrettierEditService.constructor | src/PrettierEditService.ts:16-20 | the service holds its connection service and module resolver |
| PrettierEdit.PrettierEditService.Format | src/PrettierEditService.ts:22-134 | the result and the oracle calls are those of `FormatRun` on the cached settings for the path; a cached path leaves the cache and the request count unchanged, while an uncached one adds exactly that path, with the client settings (sanitized unless trusted), at the cost of one request; the invariant is kept |
| PrettierEdit.PrettierEditService.FormatWithEngine | src/PrettierEditService.ts:55-82 | after the engine is loaded: the ignore file is resolved only if one is configured, file info is asked for only for a non-empty path, an unforced ignored file ends the run (`EngineRun`) |
| PrettierEdit.PrettierEditService.FormatWithFileInfo | src/PrettierEditService.ts:84-133 | parser selection (inferred, else the language lookup unless plain text), no parser ends the run, then the engine call with the merged options; a throw yields the original text (`ParserRun`) |
| PrettierEdit.PrettierEditService.GetPrettierOptions | src/PrettierEditService.ts:136-203 | the field-by-field fallback, the spread chain and the in-place pragma override produce `MergedOptions` |
| PrettierEdit.MergeMatchesLayers | src/PrettierEditService.ts:187-196 | the spread chain gives each key the value of its highest-precedence layer and contains no other keys |
| PrettierEdit.PragmaOverrideMatches | src/PrettierEditService.ts:198-200 | the in-place clearing of a `true` `requirePragma` on a forced request gives the merged options |
| FormatProperties.LocalConfigWins | src/PrettierEditService.ts:195 | every key of the local configuration is passed with its own value (bar the forced pragma override) |
| FormatProperties.LocalConfigHidesWorkspace | src/PrettierEditService.ts:143-168 | with a local configuration no workspace setting is used: a key it lacks is absent unless the request supplies it |
| FormatProperties.WorkspaceSettingForwarded | src/PrettierEditService.ts:146-167 | without a local configuration each of the twenty workspace settings is present, `undefined` included |
| FormatProperties.OnlyListedSettingsForwarded | src/PrettierEditService.ts:146-167 | without a local configuration no workspace setting outside the twenty is forwarded |
| FormatProperties.ExtensionSettingsNotForwarded | src/PrettierEditService.ts:146-167 | the engine path, ignore file, selectors and module flags never reach the engine from the workspace |
| FormatProperties.FilepathAndParserInjected | src/PrettierEditService.ts:189-193 | `filepath` and `parser` are those of the request unless the local configuration sets them |
| FormatProperties.RangeNeedsBothBounds | src/PrettierEditService.ts:176-185 | the range keys are present exactly when both bounds are truthy, with the request's values |
| FormatProperties.RangeFromZeroDropped | src/PrettierEditService.ts:177-180 | a range starting at offset 0 is dropped (the whole file is formatted) |
| FormatProperties.ForceClearsPragma | src/PrettierEditService.ts:198-200 | a forced request never passes `requirePragma: true` |
| FormatProperties.ForceOnlyTouchesPragma | src/PrettierEditService.ts:198-200 | forced and unforced merges have the same keys and values except that `true` for `requirePragma` becomes `false` |
| FormatProperties.UnforcedMergeIsLayered | src/PrettierEditService.ts:187-196 | an unforced merge is the plain precedence merge |
| FormatProperties.ParserRunCalls | src/PrettierEditService.ts:86-133 | the parser stage only looks up languages and calls the engine, and it has a result exactly when it calls the engine |
| FormatProperties.ConfigGateStops | src/PrettierEditService.ts:38-41 | an error or disabled configuration ends the run after resolving it, before any engine is loaded |
| FormatProperties.MissingEngineStops | src/PrettierEditService.ts:47-53 | no engine instance ends the run with no result and no further calls |
| FormatProperties.ResultIffEngineCalled | src/PrettierEditService.ts:22-134 | `format` has a result exactly when the engine was asked to format |
| FormatProperties.IgnorePathResolvedOnlyWhenSet | src/PrettierEditService.ts:55-66 | the ignore file is resolved exactly when the settings name a truthy one |
| FormatProperties.SanitizedSettingsResolveDefaultIgnoreFile | src/PrettierEditService.ts:56-60 | with sanitized settings `.prettierignore` is always resolved once an engine is loaded |
| FormatProperties.FileInfoOnlyForPath | src/PrettierEditService.ts:68-76 | file info is asked for exactly when the document has a file-system path |
| FormatProperties.IgnoredFileSkipped | src/PrettierEditService.ts:78-82 | an ignored file on an unforced request has no result and the engine is not called |
| FormatProperties.ForceBypassesIgnore | src/PrettierEditService.ts:78-82 | a forced request has a result exactly when a parser is found, ignored or not |
| FormatProperties.InferredParserWins | src/PrettierEditService.ts:86-99 | an inferred parser is used without a language lookup, and the engine gets the options merged for it |
| FormatProperties.PlainTextNotFormatted | src/PrettierEditService.ts:89-107 | a plain-text document with no inferred parser is not looked up and not formatted |
| FormatProperties.NoParserNotFormatted | src/PrettierEditService.ts:101-107 | whenever no parser is found (none inferred, and the language lookup gives none or `""`, forced or not), there is no result and no engine call |
| FormatProperties.EngineOutcomeIsResult | src/PrettierEditService.ts:119-133 | past the gates the result is the engine's output, or the original text if the engine throws |
| FormatProperties.ForcedRunClearsPragma | src/PrettierEditService.ts:198-200 | whatever a forced run hands the engine does not require a pragma |

## Left out

- The `onDocumentFormatting` and `onDocumentRangeFormatting` handlers are not modelled. Those in ConnectionService.ts and index.ts return the text upper-cased. Those in RegistrationService.ts call `provideEdits`, which is not part of this model.
- There is no minimal-diff or edit step, because no code in the repository has one.
- The oracles never fail. In the source only `prettierInstance.format` sits inside `try` (PrettierEditService.ts:119-133). If `getResolvedConfig`, `getPrettierInstance`, `getResolvedIgnorePath`, `getFileInfo` or `getSupportInfo` rejects, `format`'s promise rejects. The model's oracles are total functions and cannot express that path.
- The engine's `format` receives `Pending(options)`, the value standing for the promise that `getPrettierOptions` returns. The source does not await that promise (PrettierEditService.ts:109). The model makes no claim about what the engine does with it. `MergedOptions` describes the options inside the promise.
- The caches store promises. The model stores the resolved settings and reads the trust flag when `getConfig` is called. The source reads it when the fetch completes. A trust notification that arrives while a fetch is pending, and a rejected fetch cached as a rejected promise, are not modelled. Concurrency is not modelled.
- The `initialize`/`initialized` handlers (`hasConfigurationCapability`, client registration) are not modelled.
- `listen` is not modelled.
- `executeNpmPackageManagerCommand` is not modelled. It is a single forwarded client request.
- Logging is not modelled. It has no effect on results.
- JavaScript numbers are integers here: fractional numbers and `NaN` cannot be represented. The only numbers the code tests are the range bounds, for truthiness (PrettierEditService.ts:177-180), and its callers fill them from integer character positions (RegistrationService.ts:101-102). Every other number is forwarded unchanged, so no stated property depends on this.
- `URI.parse(document.uri)` is not modelled. A document carries its URI already parsed, with its `fsPath`.
- `getSupportInfo().languages` and `getParserFromLanguageId` are one engine oracle. The trace records the `getSupportInfo` call. languageFilter is not part of this model.
- The module resolver, the engine, `os.homedir`, `process.platform`, `path.isAbsolute`, `path.join`, `URI.file(...).toString()` and `URI.parse(...).fsPath` are left as parameters.
- WorkspaceUtils.ExpandHome: a `home` string containing `$` patterns, which `String.replace` would interpret, is inserted literally.
- PrettierEdit.WorkspaceFallback builds the twenty-key fallback object as one map comprehension. The source assigns twenty fields one by one with the same resulting object.
- The module-level map of `WorkspaceService` is a `SettingStore` object shared by reference. The `isTrusted` callback is a `TrustSource` object: a mutable flag read through a function, the shape of `isTrusted` and `getIsTrusted` in index.ts:20-21. No code in the repository constructs a `WorkspaceService`, so which callback it is given is left open.
- Property names outside the 31 that the server names are keys `Other(id)`, numbered rather than spelled. Which string each number stands for is not modelled. Distinct keys always stand for distinct names, so no key can alias `prettierPath` or `requirePragma`.
