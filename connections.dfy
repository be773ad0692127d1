/**
 * `ConnectionService`: per-path settings cache with trust sanitization.
 * The cache maps a document's file-system path (not its URI string) to the
 * settings resolved at its first lookup; entries are never removed or
 * recomputed. The trust flag starts false and is written only by the
 * `workspace/didChangeTrust` notification.
 */
module Connections {
  import opened Js
  import opened Settings

  /** `cache` holds every entry of `before`, unchanged. */
  ghost predicate CacheExtends(before: map<string, Options>, cache: map<string, Options>) {
    forall p :: p in before ==> p in cache && cache[p] == before[p]
  }

  class ConnectionService {
    const connection: LspConnection
    var isTrustedWorkspace: bool
    var document2Setting: map<string, Options>
    /** Whether a trust notification has ever reported a trusted workspace. */
    ghost var everTrusted: bool

    /**
     * Until the workspace has been reported trusted, the flag is false and
     * every cached settings entry is sanitized.
     */
    ghost predicate Valid()
      reads this
    {
      !everTrusted ==>
        && !isTrustedWorkspace
        && forall p :: p in document2Setting ==> IsSanitized(document2Setting[p])
    }

    constructor (connection: LspConnection)
      ensures Valid()
      ensures this.connection == connection
      ensures !isTrustedWorkspace && !everTrusted
      ensures document2Setting == map[]
    {
      this.connection := connection;
      isTrustedWorkspace := false;
      document2Setting := map[];
      everTrusted := false;
    }

    /**
     * The `isTrusted` getter: the flag the last trust notification set, and
     * false until a notification has reported the workspace trusted.
     */
    function IsTrusted(): (r: bool)
      reads this
      ensures r == isTrustedWorkspace
      ensures Valid() && !everTrusted ==> !r
    {
      isTrustedWorkspace
    }

    /**
     * `getConfig(uri)`. A cached entry for `uri.fsPath` is returned without a
     * request to the client. Otherwise the client's settings are fetched
     * once, sanitized unless the workspace is trusted, stored under
     * `uri.fsPath` and returned.
     */
    method GetConfig(uri: Uri) returns (config: Options)
      requires Valid()
      modifies this`document2Setting, connection`configurationRequests
      ensures Valid()
      ensures uri.fsPath in document2Setting && document2Setting[uri.fsPath] == config
      ensures CacheExtends(old(document2Setting), document2Setting)
      ensures uri.fsPath in old(document2Setting) ==>
        && config == old(document2Setting[uri.fsPath])
        && document2Setting == old(document2Setting)
        && connection.configurationRequests == old(connection.configurationRequests)
      ensures uri.fsPath !in old(document2Setting) ==>
        && config == (if isTrustedWorkspace then connection.clientSettings
                      else Sanitize(connection.clientSettings))
        && document2Setting == old(document2Setting)[uri.fsPath := config]
        && connection.configurationRequests == old(connection.configurationRequests) + 1
    {
      if uri.fsPath in document2Setting {
        return document2Setting[uri.fsPath];
      }
      var fetched := connection.GetConfiguration();
      if IsTrusted() {
        config := fetched;
      } else {
        config := Sanitize(fetched);
      }
      document2Setting := document2Setting[uri.fsPath := config];
    }

    /** The `workspace/didChangeTrust` handler: `isTrustedWorkspace = params.isTrusted`. */
    method OnDidChangeTrust(isTrusted: bool)
      requires Valid()
      modifies this`isTrustedWorkspace, this`everTrusted
      ensures Valid()
      ensures isTrustedWorkspace == isTrusted
      ensures everTrusted == (old(everTrusted) || isTrusted)
    {
      isTrustedWorkspace := isTrusted;
      everTrusted := everTrusted || isTrusted;
    }
  }

  /**
   * A fresh service starts untrusted: the first lookup of a path yields the
   * sanitized client settings, and a second lookup after a trust change
   * (or a change of the client's settings) still yields the cached entry,
   * without a second request.
   */
  method TrustChangeKeepsCachedEntry(uri: Uri, settings: Options, later: Options, trusted: bool)
    returns (first: Options, second: Options, ghost requests: nat)
    ensures first == Sanitize(settings)
    ensures second == first
    ensures requests == 1
  {
    var connection := new LspConnection(settings);
    var service := new ConnectionService(connection);
    first := service.GetConfig(uri);
    service.OnDidChangeTrust(trusted);
    connection.ChangeClientSettings(later);
    second := service.GetConfig(uri);
    requests := connection.configurationRequests;
  }

  /**
   * The cache key is the file-system path: a different URI string with the
   * same `fsPath` hits the entry stored by the first lookup.
   */
  method CacheKeyIsFsPath(u1: Uri, u2: Uri, settings: Options, later: Options)
    returns (first: Options, second: Options)
    requires u1.fsPath == u2.fsPath
    ensures second == first
  {
    var connection := new LspConnection(settings);
    var service := new ConnectionService(connection);
    service.OnDidChangeTrust(true);
    first := service.GetConfig(u1);
    connection.ChangeClientSettings(later);
    second := service.GetConfig(u2);
  }
}
