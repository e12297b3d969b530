/**
 * Layered configuration lookup of the launcher. Every source of settings is a
 * `Layer`: the system properties, the override file and the bundled
 * `webserver.properties`. A read is the nested get-with-default of the source:
 * `System.getProperty(k, config.getString(k, d))`.
 */
module Settings {
  import opened Wrappers
  import opened Failures
  import JavaNumbers

  type Layer = map<string, string>

  /** `layer.getString(key, fallback)` of one source. */
  function Get(layer: Layer, key: string, fallback: Option<string>): Option<string>
  {
    if key in layer then Some(layer[key]) else fallback
  }

  /** The nested lookup through `layers`, highest precedence first. */
  function Resolve(layers: seq<Layer>, key: string, fallback: Option<string>): Option<string>
    decreases |layers|
  {
    if layers == [] then fallback else Get(layers[0], key, Resolve(layers[1..], key, fallback))
  }

  lemma ResolveOne(layer: Layer, key: string, fallback: Option<string>)
    ensures Resolve([layer], key, fallback) == Get(layer, key, fallback)
  {
    assert [layer][1..] == [];
  }

  lemma ResolveTwo(upper: Layer, lower: Layer, key: string, fallback: Option<string>)
    ensures Resolve([upper, lower], key, fallback) == Get(upper, key, Get(lower, key, fallback))
  {
    assert [upper, lower][1..] == [lower];
    ResolveOne(lower, key, fallback);
  }

  /** The first layer holding the key decides the value. */
  lemma {:induction false} ResolveFirstLayerWins(layers: seq<Layer>, key: string, fallback: Option<string>, i: nat)
    requires i < |layers| && key in layers[i]
    requires forall j :: 0 <= j < i ==> key !in layers[j]
    ensures Resolve(layers, key, fallback) == Some(layers[i][key])
    decreases i
  {
    if i > 0 {
      assert key !in layers[0];
      ResolveFirstLayerWins(layers[1..], key, fallback, i - 1);
    }
  }

  /** When no layer holds the key, the caller's default is returned. */
  lemma {:induction false} ResolveFallsBack(layers: seq<Layer>, key: string, fallback: Option<string>)
    requires forall j :: 0 <= j < |layers| ==> key !in layers[j]
    ensures Resolve(layers, key, fallback) == fallback
    decreases |layers|
  {
    if layers != [] {
      assert key !in layers[0];
      ResolveFallsBack(layers[1..], key, fallback);
    }
  }

  /** A lookup yields either the caller's default or a value stored in some layer. */
  lemma {:induction false} ResolveOrigin(layers: seq<Layer>, key: string, fallback: Option<string>)
    ensures Resolve(layers, key, fallback) == fallback
         || exists j :: 0 <= j < |layers| && key in layers[j] && Resolve(layers, key, fallback) == Some(layers[j][key])
    decreases |layers|
  {
    if layers != [] && key !in layers[0] {
      ResolveOrigin(layers[1..], key, fallback);
      if Resolve(layers[1..], key, fallback) != fallback {
        var j :| 0 <= j < |layers[1..]| && key in layers[1..][j]
                 && Resolve(layers[1..], key, fallback) == Some(layers[1..][j][key]);
        assert layers[j + 1] == layers[1..][j];
      }
    }
  }

  /** `getString(key, fallback)`: system property, else override file, else the caller's default. */
  function GetString(sys: Layer, config: Layer, key: string, fallback: Option<string>): (r: Option<string>)
    ensures key in sys ==> r == Some(sys[key])
    ensures key !in sys && key in config ==> r == Some(config[key])
    ensures key !in sys && key !in config ==> r == fallback
  {
    Get(sys, key, Get(config, key, fallback))
  }

  /** `getString` is the two-layer case of the nested lookup: system properties over the override file. */
  lemma GetStringResolves(sys: Layer, config: Layer, key: string, fallback: Option<string>)
    ensures GetString(sys, config, key, fallback) == Resolve([sys, config], key, fallback)
  {
    ResolveTwo(sys, config, key, fallback);
  }

  /** `getString(key, fallback)` with a non-null default, which is then never null. */
  function GetStringOr(sys: Layer, config: Layer, key: string, fallback: string): (r: string)
    ensures GetString(sys, config, key, Some(fallback)) == Some(r)
  {
    GetString(sys, config, key, Some(fallback)).value
  }

  /**
   * `getInteger(key, fallback)`, that is `Integer.getInteger(key, config.getInteger(key, fallback))`.
   * The override file is read first: a value there that is not an integer aborts, even when a
   * system property is set. A system property that `Integer.decode` rejects is ignored.
   */
  function GetInteger(sys: Layer, config: Layer, key: string, fallback: int): (r: Result<int, Fatal>)
    ensures key in config && JavaNumbers.ParseInt(config[key]).None? <==> r.Err?
    ensures r.Err? ==> r.error == NotAnInteger(key, config[key])
    ensures r.Ok? && key in sys && JavaNumbers.Decode(sys[key]).Some? ==> r.value == JavaNumbers.Decode(sys[key]).value
    ensures r.Ok? && !(key in sys && JavaNumbers.Decode(sys[key]).Some?) ==>
              r.value == (if key in config then JavaNumbers.ParseInt(config[key]).value else fallback)
  {
    var fromConfig :=
      if key !in config then Ok(fallback)
      else match JavaNumbers.ParseInt(config[key])
        case Some(v) => Ok(v)
        case None => Err(NotAnInteger(key, config[key]));
    if fromConfig.Err? then fromConfig
    else if key in sys && JavaNumbers.Decode(sys[key]).Some? then Ok(JavaNumbers.Decode(sys[key]).value)
    else fromConfig
  }

  /** The name of an option: the bundled defaults may rename it under `aliasKey`, one level deep. */
  function OptionName(defaults: Layer, aliasKey: string, name: string): (r: string)
    ensures aliasKey in defaults ==> r == defaults[aliasKey]
    ensures aliasKey !in defaults ==> r == name
  {
    if aliasKey in defaults then defaults[aliasKey] else name
  }

  /** The names under which the launcher reads its options. */
  datatype OptionNames = OptionNames(
    configFile: string,
    timeout: string,
    bindAddress: string,
    listenPort: string,
    tempDir: string,
    root: string,
    ssl: string,
    sslListenPort: string,
    keyStoreType: string,
    keyStoreFile: string,
    keyStorePassword: string)

  function Names(defaults: Layer): OptionNames
  {
    OptionNames(
      OptionName(defaults, "PROP_NAME_WEBSERVER_CONFIG_FILE", "webserver.configFilename"),
      OptionName(defaults, "PROP_NAME_WEBSERVER_TIMEOUT", "webserver.timeout"),
      OptionName(defaults, "PROP_NAME_WEBSERVER_BIND_ADDRESS", "webserver.bindAddress"),
      OptionName(defaults, "PROP_NAME_WEBSERVER_LISTENPORT", "webserver.listenPort"),
      OptionName(defaults, "PROP_NAME_WEBSERVER_TEMPDIR", "webserver.tempDir"),
      OptionName(defaults, "PROP_NAME_WEBSERVER_ROOT", "webserver.root"),
      OptionName(defaults, "PROP_NAME_WEBSERVER_SSL", "webserver.ssl"),
      OptionName(defaults, "PROP_NAME_WEBSERVER_SSL_LISTENPORT", "webserver.ssl.listenPort"),
      OptionName(defaults, "PROP_NAME_WEBSERVER_SSL_KEYSTORE_TYPE", "webserver.ssl.keyStoreType"),
      OptionName(defaults, "PROP_NAME_WEBSERVER_SSL_KEYSTORE_FILE", "webserver.ssl.keyStoreFile"),
      OptionName(defaults, "PROP_NAME_WEBSERVER_SSL_KEYSTORE_PASSWORD", "webserver.ssl.keyStorePassword"))
  }

  /** The option names when the bundled defaults define no alias. */
  const Standard: OptionNames := OptionNames(
    "webserver.configFilename", "webserver.timeout", "webserver.bindAddress", "webserver.listenPort",
    "webserver.tempDir", "webserver.root", "webserver.ssl", "webserver.ssl.listenPort",
    "webserver.ssl.keyStoreType", "webserver.ssl.keyStoreFile", "webserver.ssl.keyStorePassword")

  /** Without aliases in the bundled defaults, every option is read under its dotted name. */
  lemma StandardNames()
    ensures Names(map[]) == Standard
  {
  }

  /**
   * The override file's name: the system property named by the (aliased) config-file option,
   * else the bundled `webserver.configFilename`, else `webserver.conf`.
   */
  function ConfigFilename(defaults: Layer, sys: Layer): (r: string)
    ensures Names(defaults).configFile in sys ==> r == sys[Names(defaults).configFile]
    ensures Names(defaults).configFile !in sys && "webserver.configFilename" in defaults ==> r == defaults["webserver.configFilename"]
    ensures Names(defaults).configFile !in sys && "webserver.configFilename" !in defaults ==> r == "webserver.conf"
  {
    var bundled := if "webserver.configFilename" in defaults then defaults["webserver.configFilename"] else "webserver.conf";
    if Names(defaults).configFile in sys then sys[Names(defaults).configFile] else bundled
  }

  /**
   * `loadConfig()`: the override file, read from `files` (the names that can be located and parsed);
   * a file that cannot be loaded acts as an empty layer.
   */
  function LoadConfig(defaults: Layer, sys: Layer, files: map<string, Layer>): (r: Layer)
    ensures ConfigFilename(defaults, sys) in files ==> r == files[ConfigFilename(defaults, sys)]
    ensures ConfigFilename(defaults, sys) !in files ==> r == map[]
  {
    var name := ConfigFilename(defaults, sys);
    if name in files then files[name] else map[]
  }

  /** With an unloadable override file, every read is the system property or the caller's default. */
  lemma UnloadableConfigIsEmptyLayer(defaults: Layer, sys: Layer, files: map<string, Layer>, key: string, fallback: Option<string>)
    requires ConfigFilename(defaults, sys) !in files
    ensures GetString(sys, LoadConfig(defaults, sys, files), key, fallback) == Get(sys, key, fallback)
  {
  }
}
