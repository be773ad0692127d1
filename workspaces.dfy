/**
 * `WorkspaceService`: the same cache-and-sanitize logic as
 * `ConnectionService`, with different state placement. The cache is a
 * module-level map, shared by every `WorkspaceService`; here it is one
 * `SettingStore` object that every service holds by reference. Trust is
 * not a field but an injected `isTrusted()` callback, read when an entry
 * is resolved; here it is a `TrustSource` object: a mutable flag read
 * through a function, the shape of the `isTrusted` variable and the
 * `getIsTrusted` closure in index.ts. No code in the repository constructs
 * a `WorkspaceService`, so which callback it is given is left open.
 */
module Workspaces {
  import opened Js
  import opened Settings

  /** The module-level `document2Setting` map: filled, never cleared. */
  class SettingStore {
    var document2Setting: map<string, Options>

    constructor ()
      ensures document2Setting == map[]
    {
      document2Setting := map[];
    }
  }

  /** The state behind the injected `isTrusted` callback. */
  class TrustSource {
    var trusted: bool

    constructor (trusted: bool)
      ensures this.trusted == trusted
    {
      this.trusted := trusted;
    }

    /** `isTrusted()`: the flag's value at the time of the call. */
    function IsTrusted(): (r: bool)
      reads this
      ensures r == trusted
    {
      trusted
    }

    /** A trust notification updating the flag the callback reads (`isTrusted = params.isTrusted`). */
    method Set(trusted: bool)
      modifies this
      ensures this.trusted == trusted
      ensures IsTrusted() == trusted
    {
      this.trusted := trusted;
    }
  }

  class WorkspaceService {
    const connection: LspConnection
    const store: SettingStore
    const isTrusted: TrustSource

    constructor (connection: LspConnection, store: SettingStore, isTrusted: TrustSource)
      ensures this.connection == connection && this.store == store && this.isTrusted == isTrusted
    {
      this.connection := connection;
      this.store := store;
      this.isTrusted := isTrusted;
    }

    /**
     * `getConfig(uri)`. A shared entry for `uri.fsPath` is returned without
     * calling `getConfiguration`. Otherwise the client's settings are
     * fetched, passed through if `isTrusted()` says so and sanitized if
     * not, and stored in the shared map.
     */
    method GetConfig(uri: Uri) returns (config: Options)
      modifies store, connection`configurationRequests
      ensures uri.fsPath in store.document2Setting && store.document2Setting[uri.fsPath] == config
      ensures uri.fsPath in old(store.document2Setting) ==>
        && config == old(store.document2Setting[uri.fsPath])
        && store.document2Setting == old(store.document2Setting)
        && connection.configurationRequests == old(connection.configurationRequests)
      ensures uri.fsPath !in old(store.document2Setting) ==>
        && config == (if isTrusted.trusted then connection.clientSettings
                      else Sanitize(connection.clientSettings))
        && store.document2Setting == old(store.document2Setting)[uri.fsPath := config]
        && connection.configurationRequests == old(connection.configurationRequests) + 1
    {
      if uri.fsPath in store.document2Setting {
        return store.document2Setting[uri.fsPath];
      }
      var fetched := connection.GetConfiguration();
      if isTrusted.IsTrusted() {
        config := fetched;
      } else {
        config := Sanitize(fetched);
      }
      store.document2Setting := store.document2Setting[uri.fsPath := config];
    }
  }

  /**
   * The store is shared: an entry resolved through one service (untrusted,
   * so sanitized) is what a second service returns for the same path, even
   * though the second one's callback says trusted and its client would
   * answer differently; the second service sends no request.
   */
  method SharedStoreAcrossInstances(uri: Uri, settings1: Options, settings2: Options)
    returns (first: Options, second: Options, ghost secondRequests: nat)
    ensures first == Sanitize(settings1)
    ensures second == first
    ensures secondRequests == 0
  {
    var store := new SettingStore();
    var c1 := new LspConnection(settings1);
    var c2 := new LspConnection(settings2);
    var untrusted := new TrustSource(false);
    var trusted := new TrustSource(true);
    var s1 := new WorkspaceService(c1, store, untrusted);
    var s2 := new WorkspaceService(c2, store, trusted);
    first := s1.GetConfig(uri);
    second := s2.GetConfig(uri);
    secondRequests := c2.configurationRequests;
  }

  /**
   * Trust is read through the callback when an entry is resolved, not when
   * the service is created: after the flag turns true, a path not yet
   * cached gets the client's settings unchanged, while a path resolved
   * before stays sanitized.
   */
  method TrustReadAtResolution(u1: Uri, u2: Uri, settings: Options)
    returns (before: Options, after: Options, again: Options)
    requires u1.fsPath != u2.fsPath
    ensures before == Sanitize(settings)
    ensures after == settings
    ensures again == before
  {
    var store := new SettingStore();
    var connection := new LspConnection(settings);
    var trust := new TrustSource(false);
    var service := new WorkspaceService(connection, store, trust);
    before := service.GetConfig(u1);
    trust.Set(true);
    after := service.GetConfig(u2);
    again := service.GetConfig(u1);
  }
}
