/**
 * Workspace path helpers: the folder whose URI is a path's file URI, and
 * the resolution of a configured path (a Prettier path, a config path)
 * against the workspace.
 */
module WorkspaceUtils {
  import opened Wrappers

  /** A workspace folder as the client reports it; `uri` is a URI string. */
  datatype WorkspaceFolder = WorkspaceFolder(uri: string, name: string)

  /**
   * The host and the libraries the helpers call: `process.platform`,
   * `os.homedir()`, `URI.file(p).toString()`, `URI.parse(u).fsPath`,
   * `path.isAbsolute` and `path.join`.
   */
  datatype Env = Env(
    platform: string,
    homedir: string,
    fileUri: string -> string,
    fsPathOf: string -> string,
    isAbsolute: string -> bool,
    join: (string, string) -> string)

  /** The first folder in `folders` whose `uri` is exactly `target` (Array.find). */
  function FindByUri(folders: seq<WorkspaceFolder>, target: string): (r: Option<WorkspaceFolder>)
    ensures r.None? <==> forall i :: 0 <= i < |folders| ==> folders[i].uri != target
    ensures r.Some? ==>
      exists i :: 0 <= i < |folders| && folders[i] == r.value && folders[i].uri == target &&
        forall j :: 0 <= j < i ==> folders[j].uri != target
  {
    if folders == [] then None
    else if folders[0].uri == target then Some(folders[0])
    else
      var r := FindByUri(folders[1..], target);
      if r.Some? then
        ghost var i :| 0 <= i < |folders[1..]| && folders[1..][i] == r.value && folders[1..][i].uri == target &&
          forall j :: 0 <= j < i ==> folders[1..][j].uri != target;
        assert folders[i + 1] == r.value && forall j :: 0 <= j < i + 1 ==> folders[j].uri != target;
        r
      else r
  }

  /**
   * `getWorkspaceFolder(workspaceFolders, fsPath)`: the first folder whose URI
   * string equals `URI.file(fsPath).toString()`. Equality, not containment: a
   * file inside a folder does not match that folder.
   */
  function GetWorkspaceFolder(folders: seq<WorkspaceFolder>, fsPath: string, env: Env): (r: Option<WorkspaceFolder>)
    ensures r.None? <==> forall i :: 0 <= i < |folders| ==> folders[i].uri != env.fileUri(fsPath)
    ensures r.Some? ==>
      exists i :: 0 <= i < |folders| && folders[i] == r.value && folders[i].uri == env.fileUri(fsPath) &&
        forall j :: 0 <= j < i ==> folders[j].uri != env.fileUri(fsPath)
  {
    FindByUri(folders, env.fileUri(fsPath))
  }

  /** `p` starts with a `~` that the pattern `/^~(?=$|\/|\\)/` matches. */
  predicate HasHomePrefix(p: string) {
    |p| > 0 && p[0] == '~' && (|p| == 1 || p[1] == '/' || p[1] == '\\')
  }

  /**
   * `p.replace(/^~(?=$|\/|\\)/, home)`: a leading `~` becomes `home` only
   * when it stands alone or is followed by `/` or `\`; anything else is
   * returned unchanged.
   */
  function ExpandHome(p: string, home: string): (r: string)
    ensures HasHomePrefix(p) ==> r == home + p[1..]
    ensures !HasHomePrefix(p) ==> r == p
  {
    if HasHomePrefix(p) then home + p[1..] else p
  }

  /** The macOS home-directory branch applies: `darwin`, a leading `~`, a non-empty home. */
  predicate TildeBranch(pathToResolve: string, env: Env) {
    env.platform == "darwin" && |pathToResolve| > 0 && pathToResolve[0] == '~' && env.homedir != ""
  }

  /**
   * `getWorkspaceRelativePath(filePath, pathToResolve, workspaceFolders)`.
   * The home-directory branch is decided first and never looks at the
   * folders. Otherwise, with no folder list or no folder whose URI is the
   * file's, there is no result; with a matching folder, an absolute path is
   * kept as it is and a relative one is joined to the folder's path.
   */
  function GetWorkspaceRelativePath(
    filePath: string, pathToResolve: string, workspaceFolders: Option<seq<WorkspaceFolder>>, env: Env
  ): (r: Option<string>)
    ensures TildeBranch(pathToResolve, env) ==> r == Some(ExpandHome(pathToResolve, env.homedir))
    ensures !TildeBranch(pathToResolve, env) && workspaceFolders.None? ==> r.None?
    ensures !TildeBranch(pathToResolve, env) && workspaceFolders.Some? ==>
      (r.None? <==> forall i :: 0 <= i < |workspaceFolders.value| ==>
                      workspaceFolders.value[i].uri != env.fileUri(filePath))
    ensures !TildeBranch(pathToResolve, env) && r.Some? ==>
      workspaceFolders.Some? &&
      exists i :: 0 <= i < |workspaceFolders.value| &&
        workspaceFolders.value[i].uri == env.fileUri(filePath) &&
        (forall j :: 0 <= j < i ==> workspaceFolders.value[j].uri != env.fileUri(filePath)) &&
        r.value == (if env.isAbsolute(pathToResolve) then pathToResolve
                    else env.join(env.fsPathOf(workspaceFolders.value[i].uri), pathToResolve))
  {
    if TildeBranch(pathToResolve, env) then
      Some(ExpandHome(pathToResolve, env.homedir))
    else if workspaceFolders.Some? then
      match GetWorkspaceFolder(workspaceFolders.value, filePath, env)
      case Some(folder) =>
        Some(if env.isAbsolute(pathToResolve) then pathToResolve
             else env.join(env.fsPathOf(folder.uri), pathToResolve))
      case None => None
    else
      None
  }

  /** `"~foo"` names another user's home, not a path under ours: it is kept as written. */
  lemma TildeWithoutSeparatorKept(home: string)
    ensures ExpandHome("~foo", home) == "~foo"
    ensures ExpandHome("~", home) == home
    ensures ExpandHome("~/.prettierrc", home) == home + "/.prettierrc"
    ensures ExpandHome("~\\.prettierrc", home) == home + "\\.prettierrc"
    ensures ExpandHome("a~/b", home) == "a~/b"
  {
  }

  /** A path that does not start with `~` is never touched by the home-directory replacement. */
  lemma NoLeadingTildeUnchanged(p: string, home: string)
    requires |p| == 0 || p[0] != '~'
    ensures ExpandHome(p, home) == p
  {
  }

  /**
   * On macOS, every `~user`-style path (a `~` followed by something other
   * than a separator) takes the home-directory branch and comes back
   * verbatim, whatever the folder list.
   */
  lemma TildeUserPathVerbatim(filePath: string, p: string, folders: Option<seq<WorkspaceFolder>>, env: Env)
    requires TildeBranch(p, env) && |p| > 1 && p[1] != '/' && p[1] != '\\'
    ensures GetWorkspaceRelativePath(filePath, p, folders, env) == Some(p)
  {
  }

  /**
   * On macOS, a `~` path is resolved against the home directory even when
   * the client reported no workspace folders, and `"~foo"` then comes back
   * unchanged rather than undefined.
   */
  lemma TildeBranchNeedsNoFolders(filePath: string, pathToResolve: string,
                                  f1: Option<seq<WorkspaceFolder>>, f2: Option<seq<WorkspaceFolder>>, env: Env)
    requires TildeBranch(pathToResolve, env)
    ensures GetWorkspaceRelativePath(filePath, pathToResolve, f1, env)
         == GetWorkspaceRelativePath(filePath, pathToResolve, f2, env)
    ensures pathToResolve == "~foo" ==>
      GetWorkspaceRelativePath(filePath, pathToResolve, None, env) == Some("~foo")
  {
  }

  /**
   * Folder matching is by exact URI: a folder list whose only entry has a
   * URI other than the file's own (the folder that contains the file, for
   * one) gives no folder, hence no result off the home-directory branch.
   */
  lemma NonMatchingFolderGivesNoResult(filePath: string, pathToResolve: string, folder: WorkspaceFolder, env: Env)
    requires folder.uri != env.fileUri(filePath)
    requires !TildeBranch(pathToResolve, env)
    ensures GetWorkspaceFolder([folder], filePath, env).None?
    ensures GetWorkspaceRelativePath(filePath, pathToResolve, Some([folder]), env).None?
  {
  }
}
