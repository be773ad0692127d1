/**
 * The extension settings as the client sends them, the sanitization an
 * untrusted workspace applies to them, and the client end of the
 * `workspace/configuration` request.
 */
module Settings {
  import opened Js

  /** The seven keys an untrusted workspace overwrites. */
  const SanitizedKeys: set<Key> :=
    {PrettierPath, ConfigPath, IgnorePath, DocumentSelectors,
     UseEditorConfig, WithNodeModules, ResolveGlobalModules}

  /** The fixed values an untrusted workspace gets for those keys. */
  const UntrustedOverrides: Options := map[
    PrettierPath := Undefined,
    ConfigPath := Undefined,
    IgnorePath := Str(".prettierignore"),
    DocumentSelectors := Arr([]),
    UseEditorConfig := Bool(false),
    WithNodeModules := Bool(false),
    ResolveGlobalModules := Bool(false)
  ]

  /** The seven keys hold their safe values, whatever the rest of `c` holds. */
  predicate IsSanitized(c: Options) {
    && Get(c, PrettierPath) == Undefined
    && Get(c, ConfigPath) == Undefined
    && Get(c, IgnorePath) == Str(".prettierignore")
    && Get(c, DocumentSelectors) == Arr([])
    && Get(c, UseEditorConfig) == Bool(false)
    && Get(c, WithNodeModules) == Bool(false)
    && Get(c, ResolveGlobalModules) == Bool(false)
  }

  /**
   * The settings an untrusted workspace sees: `{...config, prettierPath:
   * undefined, ...}`. Exactly the seven keys are overwritten (and present
   * afterwards, even those set to `undefined`); every other key keeps the
   * value the client sent.
   */
  function Sanitize(config: Options): (r: Options)
    ensures r.Keys == config.Keys + SanitizedKeys
    ensures IsSanitized(r)
    ensures forall k :: k in config && k !in SanitizedKeys ==> r[k] == config[k]
  {
    config + UntrustedOverrides
  }

  /** Sanitizing twice changes nothing more than sanitizing once. */
  lemma SanitizeIdempotent(config: Options)
    ensures Sanitize(Sanitize(config)) == Sanitize(config)
  {
  }

  /**
   * What the client sent for the seven keys has no influence: two fetched
   * settings that agree off the seven keys sanitize to the same settings.
   */
  lemma SanitizeForgetsSecuritySettings(c1: Options, c2: Options)
    requires forall k :: k !in SanitizedKeys ==> (k in c1 <==> k in c2)
    requires forall k :: k in c1 && k in c2 && k !in SanitizedKeys ==> c2[k] == c1[k]
    ensures Sanitize(c1) == Sanitize(c2)
  {
    var s1, s2 := Sanitize(c1), Sanitize(c2);
    forall k
      ensures k in s1 <==> k in s2
    {
      if k !in SanitizedKeys {
        assert k in c1 <==> k in c2;
      }
    }
    forall k | k in s1
      ensures s1[k] == s2[k]
    {
      if k in SanitizedKeys {
        assert s1[k] == UntrustedOverrides[k] == s2[k];
      }
    }
  }

  /**
   * The client end of the language-server connection: the settings
   * `workspace/configuration` would answer with now, and (ghost) how many
   * times it has been asked.
   */
  class LspConnection {
    var clientSettings: Options
    ghost var configurationRequests: nat

    constructor (settings: Options)
      ensures clientSettings == settings && configurationRequests == 0
    {
      clientSettings := settings;
      configurationRequests := 0;
    }

    /** `connection.workspace.getConfiguration()`: one request to the client. */
    method GetConfiguration() returns (settings: Options)
      modifies this`configurationRequests
      ensures settings == clientSettings
      ensures configurationRequests == old(configurationRequests) + 1
    {
      settings := clientSettings;
      configurationRequests := configurationRequests + 1;
    }

    /** The user edits the settings on the editor side. */
    method ChangeClientSettings(settings: Options)
      modifies this`clientSettings
      ensures clientSettings == settings
    {
      clientSettings := settings;
    }
  }
}
