/**
 * Connector planning of `start()`: which listeners the server gets, with which
 * parameters, and where starting aborts. Jetty's connectors are plain records;
 * the server's connector list is the sequence they are appended to.
 */
module Connectors {
  import opened Wrappers
  import opened Failures
  import opened Settings
  import JavaNumbers
  import Text

  /** One hour, the idle time of the plain connector. */
  const MaxIdleTime: int := 1000 * 60 * 60
  /** Linger disabled on the plain connector. */
  const SoLingerTime: int := -1
  const AnyAddress: string := "0.0.0.0"
  const DefaultKeyStoreType: string := "PKCS12"
  const ContextPath: string := "/"

  datatype ConnectorSpec =
    | SslConnector(host: string, port: int, keyStoreType: string, keyStore: string,
                   password: Option<string>, keyPassword: Option<string>)
    | SocketConnector(host: string, port: int, maxIdleTime: int, soLingerTime: int)

  /** The web application handed to the server: context path, war, temp directory and extra classpath. */
  datatype WebAppMount = WebAppMount(contextPath: string, war: string, tempDirectory: string, extraClasspath: string)

  /** What one `start()` did: the connectors it added, and the mounted application or the exception. */
  datatype Attempt = Attempt(added: seq<ConnectorSpec>, outcome: Result<WebAppMount, Fatal>)

  /** A port from the bundled defaults: `Integer.parseInt(defaults.getString(key, literal))`. */
  function BundledPort(defaults: Layer, key: string, literal: string): (r: Result<int, Fatal>)
    ensures key !in defaults ==> r == (match JavaNumbers.ParseInt(literal)
                                       case Some(p) => Ok(p) case None => Err(NotANumber(literal)))
    ensures key in defaults && JavaNumbers.ParseInt(defaults[key]).Some? ==> r == Ok(JavaNumbers.ParseInt(defaults[key]).value)
    ensures key in defaults && JavaNumbers.ParseInt(defaults[key]).None? ==> r == Err(NotANumber(defaults[key]))
  {
    var text := Get(defaults, key, Some(literal)).value;
    match JavaNumbers.ParseInt(text)
    case Some(p) => Ok(p)
    case None => Err(NotANumber(text))
  }

  /** The bind address shared by both connectors, `0.0.0.0` unless configured. */
  function BindAddress(n: OptionNames, sys: Layer, config: Layer): string
  {
    GetStringOr(sys, config, n.bindAddress, AnyAddress)
  }

  /** `"true".equalsIgnoreCase(getString(ssl))`: an absent flag means disabled. */
  predicate SslEnabled(n: OptionNames, sys: Layer, config: Layer)
  {
    match GetString(sys, config, n.ssl, None)
    case None => false
    case Some(flag) => Text.EqualsIgnoreCase("true", flag)
  }

  /** The SSL port: the explicit value through `Integer.decode`, else the bundled default. */
  function SslPort(explicit: Option<string>, defaultPort: int): (r: Result<int, Fatal>)
    ensures explicit.None? ==> r == Ok(defaultPort)
    ensures explicit.Some? ==> r == (match JavaNumbers.Decode(explicit.value)
                                     case Some(p) => Ok(p) case None => Err(NotANumber(explicit.value)))
  {
    match explicit
    case None => Ok(defaultPort)
    case Some(text) =>
      match JavaNumbers.Decode(text)
      case Some(p) => Ok(p)
      case None => Err(NotANumber(text))
  }

  /** The connectors the SSL block adds: none when SSL is off or its connector could not be set up. */
  function SslStep(n: OptionNames, defaults: Layer, sys: Layer, config: Layer, sslSetupFails: bool)
    : Result<seq<ConnectorSpec>, Fatal>
  {
    if !SslEnabled(n, sys, config) then Ok([])
    else match GetString(sys, config, n.keyStoreFile, None)
      case None => Err(MissingKeyStore(n.keyStoreFile))
      case Some(keyStore) =>
        var keyStoreType := GetStringOr(sys, config, n.keyStoreType, DefaultKeyStoreType);
        var password := GetString(sys, config, n.keyStorePassword, None);
        match BundledPort(defaults, "webserver.ssl.defaultListenPort", "8443")
        case Err(e) => Err(e)
        case Ok(defaultPort) =>
          match SslPort(GetString(sys, config, n.sslListenPort, None), defaultPort)
          case Err(e) => Err(e)
          case Ok(port) =>
            if sslSetupFails then Ok([])
            else Ok([SslConnector(BindAddress(n, sys, config), port, keyStoreType, keyStore, password, password)])
  }

  /** Whether a plain listen port is configured in the system properties or the override file. */
  predicate ExplicitListenPort(n: OptionNames, sys: Layer, config: Layer)
  {
    GetString(sys, config, n.listenPort, None).Some?
  }

  /** The connectors the plain block adds after `registered`: one, if a port is explicit or nothing is registered. */
  function PlainStep(n: OptionNames, defaults: Layer, sys: Layer, config: Layer, registered: seq<ConnectorSpec>)
    : Result<seq<ConnectorSpec>, Fatal>
  {
    match BundledPort(defaults, "webserver.defaultListenPort", "8080")
    case Err(e) => Err(e)
    case Ok(defaultPort) =>
      if ExplicitListenPort(n, sys, config) || |registered| == 0 then
        match GetInteger(sys, config, n.listenPort, defaultPort)
        case Err(e) => Err(e)
        case Ok(port) => Ok([SocketConnector(BindAddress(n, sys, config), port, MaxIdleTime, SoLingerTime)])
      else Ok([])
  }

  /** The temp directory: the configured one, else the `java.io.tmpdir` system property. */
  function TempDirectory(n: OptionNames, sys: Layer, config: Layer): (r: Option<string>)
    ensures n.tempDir in sys ==> r == Some(sys[n.tempDir])
    ensures n.tempDir !in sys && n.tempDir in config ==> r == Some(config[n.tempDir])
    ensures n.tempDir !in sys && n.tempDir !in config ==>
              r == (if "java.io.tmpdir" in sys then Some(sys["java.io.tmpdir"]) else None)
  {
    GetString(sys, config, n.tempDir, Get(sys, "java.io.tmpdir", None))
  }

  /** The web application's extra classpath, read under its fixed name (no alias applies). */
  function ExtraClasspath(sys: Layer, config: Layer): string
  {
    GetStringOr(sys, config, "webserver.extraClasspath", "")
  }

  /** Everything `start()` decides, in the order it decides it. */
  function PlanStart(n: OptionNames, defaults: Layer, sys: Layer, config: Layer, war: string, sslSetupFails: bool)
    : Attempt
  {
    match SslStep(n, defaults, sys, config, sslSetupFails)
    case Err(e) => Attempt([], Err(e))
    case Ok(ssl) =>
      match PlainStep(n, defaults, sys, config, ssl)
      case Err(e) => Attempt(ssl, Err(e))
      case Ok(plain) =>
        match TempDirectory(n, sys, config)
        case None => Attempt(ssl + plain, Err(NoTempDirectory))
        case Some(temp) => Attempt(ssl + plain, Ok(WebAppMount(ContextPath, war, temp, ExtraClasspath(sys, config))))
  }

  predicate HasSsl(cs: seq<ConnectorSpec>) { exists i :: 0 <= i < |cs| && cs[i].SslConnector? }
  predicate HasPlain(cs: seq<ConnectorSpec>) { exists i :: 0 <= i < |cs| && cs[i].SocketConnector? }

  /** At most one SSL connector, added first, and at most one plain connector. */
  predicate Shaped(cs: seq<ConnectorSpec>)
  {
    || cs == []
    || |cs| == 1
    || (|cs| == 2 && cs[0].SslConnector? && cs[1].SocketConnector?)
  }

  lemma SslStepShape(n: OptionNames, defaults: Layer, sys: Layer, config: Layer, sslSetupFails: bool)
    ensures var s := SslStep(n, defaults, sys, config, sslSetupFails);
            s.Ok? ==> (s.value == [] || (|s.value| == 1 && s.value[0].SslConnector?))
  {
  }

  lemma PlainStepShape(n: OptionNames, defaults: Layer, sys: Layer, config: Layer, registered: seq<ConnectorSpec>)
    ensures var p := PlainStep(n, defaults, sys, config, registered);
            p.Ok? ==> (p.value == [] || (|p.value| == 1 && p.value[0].SocketConnector?))
    ensures var p := PlainStep(n, defaults, sys, config, registered);
            p.Ok? ==> (p.value != [] <==> ExplicitListenPort(n, sys, config) || registered == [])
  {
  }

  /** How `start()` composes its connectors: the SSL block's, then the plain block's. */
  lemma PlanStartParts(n: OptionNames, defaults: Layer, sys: Layer, config: Layer, war: string, sslSetupFails: bool)
    ensures var a := PlanStart(n, defaults, sys, config, war, sslSetupFails);
            var s := SslStep(n, defaults, sys, config, sslSetupFails);
            && (s.Err? ==> a.added == [] && a.outcome.Err?)
            && (s.Ok? ==> var p := PlainStep(n, defaults, sys, config, s.value);
                          && a.added == s.value + (if p.Ok? then p.value else [])
                          && (a.outcome.Ok? ==> p.Ok?))
  {
    var s := SslStep(n, defaults, sys, config, sslSetupFails);
    if s.Ok? {
      var p := PlainStep(n, defaults, sys, config, s.value);
      if p.Err? {
        assert s.value + [] == s.value;
      }
    }
  }

  /**
   * A successful start never leaves the server without a connector, adds at most one of each
   * kind, and adds the plain connector exactly when a listen port is explicit or no SSL
   * connector was registered.
   */
  lemma StartConnectors(n: OptionNames, defaults: Layer, sys: Layer, config: Layer, war: string, sslSetupFails: bool)
    ensures var a := PlanStart(n, defaults, sys, config, war, sslSetupFails);
            Shaped(a.added)
    ensures var a := PlanStart(n, defaults, sys, config, war, sslSetupFails);
            a.outcome.Ok? ==> 1 <= |a.added| <= 2
    ensures var a := PlanStart(n, defaults, sys, config, war, sslSetupFails);
            a.outcome.Ok? ==> (HasPlain(a.added) <==> ExplicitListenPort(n, sys, config) || !HasSsl(a.added))
    ensures var a := PlanStart(n, defaults, sys, config, war, sslSetupFails);
            a.outcome.Ok? ==> (a.added[0].SslConnector? && |a.added| == 1 <==> HasSsl(a.added) && !ExplicitListenPort(n, sys, config))
    ensures var a := PlanStart(n, defaults, sys, config, war, sslSetupFails);
            HasSsl(a.added) ==> SslEnabled(n, sys, config) && !sslSetupFails
    ensures var a := PlanStart(n, defaults, sys, config, war, sslSetupFails);
            a.outcome.Ok? && SslEnabled(n, sys, config) && !sslSetupFails ==> HasSsl(a.added)
  {
    var s := SslStep(n, defaults, sys, config, sslSetupFails);
    PlanStartParts(n, defaults, sys, config, war, sslSetupFails);
    SslStepShape(n, defaults, sys, config, sslSetupFails);
    if s.Ok? {
      var p := PlainStep(n, defaults, sys, config, s.value);
      PlainStepShape(n, defaults, sys, config, s.value);
      ConcatShape(s.value, if p.Ok? then p.value else []);
    }
  }

  /** At most one SSL connector followed by at most one plain connector. */
  lemma ConcatShape(ssl: seq<ConnectorSpec>, plain: seq<ConnectorSpec>)
    requires ssl == [] || (|ssl| == 1 && ssl[0].SslConnector?)
    requires plain == [] || (|plain| == 1 && plain[0].SocketConnector?)
    ensures Shaped(ssl + plain)
    ensures HasSsl(ssl + plain) <==> ssl != []
    ensures HasPlain(ssl + plain) <==> plain != []
  {
    var cs := ssl + plain;
    if ssl != [] { assert cs[0].SslConnector?; }
    if plain != [] { assert cs[|ssl|].SocketConnector?; }
    if HasSsl(cs) { var i :| 0 <= i < |cs| && cs[i].SslConnector?; }
    if HasPlain(cs) { var i :| 0 <= i < |cs| && cs[i].SocketConnector?; }
  }

  /** SSL on but no keystore file resolvable: start fails before any connector is added. */
  lemma MissingKeyStoreAborts(n: OptionNames, defaults: Layer, sys: Layer, config: Layer, war: string, sslSetupFails: bool)
    requires SslEnabled(n, sys, config)
    requires GetString(sys, config, n.keyStoreFile, None).None?
    ensures PlanStart(n, defaults, sys, config, war, sslSetupFails) == Attempt([], Err(MissingKeyStore(n.keyStoreFile)))
  {
  }

  /** SSL is on exactly when the resolved flag reads `true` in any letter case. */
  lemma SslFlag(n: OptionNames, sys: Layer, config: Layer)
    ensures SslEnabled(n, sys, config) <==>
              var flag := GetString(sys, config, n.ssl, None);
              flag.Some? && |flag.value| == 4
              && (flag.value[0] == 't' || flag.value[0] == 'T') && (flag.value[1] == 'r' || flag.value[1] == 'R')
              && (flag.value[2] == 'u' || flag.value[2] == 'U') && (flag.value[3] == 'e' || flag.value[3] == 'E')
  {
    var flag := GetString(sys, config, n.ssl, None);
    if flag.Some? { Text.TrueIgnoringCase(flag.value); }
  }

  /**
   * The SSL connector: keystore type defaulting to PKCS12, the same password for store and key,
   * the shared bind address, and the explicit port decoded, else the bundled default, else 8443.
   */
  lemma SslConnectorFields(n: OptionNames, defaults: Layer, sys: Layer, config: Layer, war: string, sslSetupFails: bool)
    requires HasSsl(PlanStart(n, defaults, sys, config, war, sslSetupFails).added)
    ensures var c := PlanStart(n, defaults, sys, config, war, sslSetupFails).added[0];
            && c.SslConnector?
            && Some(c.keyStore) == GetString(sys, config, n.keyStoreFile, None)
            && c.keyStoreType == GetStringOr(sys, config, n.keyStoreType, "PKCS12")
            && c.password == c.keyPassword == GetString(sys, config, n.keyStorePassword, None)
            && c.host == BindAddress(n, sys, config)
            && var explicit := GetString(sys, config, n.sslListenPort, None);
               if explicit.Some? then Some(c.port) == JavaNumbers.Decode(explicit.value)
               else if "webserver.ssl.defaultListenPort" in defaults
               then Some(c.port) == JavaNumbers.ParseInt(defaults["webserver.ssl.defaultListenPort"])
               else Some(c.port) == JavaNumbers.ParseInt("8443")
  {
    var a := PlanStart(n, defaults, sys, config, war, sslSetupFails);
    var s := SslStep(n, defaults, sys, config, sslSetupFails);
    StartConnectors(n, defaults, sys, config, war, sslSetupFails);
    PlanStartParts(n, defaults, sys, config, war, sslSetupFails);
    SslStepShape(n, defaults, sys, config, sslSetupFails);
    var i :| 0 <= i < |a.added| && a.added[i].SslConnector?;
    assert s.Ok?;
    PlainStepShape(n, defaults, sys, config, s.value);
    assert s.value != [] && a.added[0] == s.value[0];
    SslStepFields(n, defaults, sys, config, sslSetupFails);
  }

  /** The fields of the connector the SSL block adds, when it adds one. */
  lemma SslStepFields(n: OptionNames, defaults: Layer, sys: Layer, config: Layer, sslSetupFails: bool)
    requires SslStep(n, defaults, sys, config, sslSetupFails).Ok?
    requires SslStep(n, defaults, sys, config, sslSetupFails).value != []
    ensures var c := SslStep(n, defaults, sys, config, sslSetupFails).value[0];
            && c.SslConnector?
            && Some(c.keyStore) == GetString(sys, config, n.keyStoreFile, None)
            && c.keyStoreType == GetStringOr(sys, config, n.keyStoreType, "PKCS12")
            && c.password == c.keyPassword == GetString(sys, config, n.keyStorePassword, None)
            && c.host == BindAddress(n, sys, config)
            && var explicit := GetString(sys, config, n.sslListenPort, None);
               if explicit.Some? then Some(c.port) == JavaNumbers.Decode(explicit.value)
               else if "webserver.ssl.defaultListenPort" in defaults
               then Some(c.port) == JavaNumbers.ParseInt(defaults["webserver.ssl.defaultListenPort"])
               else Some(c.port) == JavaNumbers.ParseInt("8443")
  {
  }

  /**
   * The plain connector: the shared bind address (default 0.0.0.0), the port from `getInteger` with
   * the bundled default (else 8080), one hour of idle time and linger disabled.
   */
  lemma PlainConnectorFields(n: OptionNames, defaults: Layer, sys: Layer, config: Layer, war: string, sslSetupFails: bool)
    requires HasPlain(PlanStart(n, defaults, sys, config, war, sslSetupFails).added)
    ensures var a := PlanStart(n, defaults, sys, config, war, sslSetupFails);
            && |a.added| > 0
            && var c := a.added[|a.added| - 1];
               && c.SocketConnector?
               && c.host == GetStringOr(sys, config, n.bindAddress, "0.0.0.0")
               && c.maxIdleTime == 3_600_000 && c.soLingerTime == -1
               && var port := BundledPort(defaults, "webserver.defaultListenPort", "8080");
                  port.Ok? && GetInteger(sys, config, n.listenPort, port.value) == Ok(c.port)
  {
    var a := PlanStart(n, defaults, sys, config, war, sslSetupFails);
    var s := SslStep(n, defaults, sys, config, sslSetupFails);
    PlanStartParts(n, defaults, sys, config, war, sslSetupFails);
    SslStepShape(n, defaults, sys, config, sslSetupFails);
    var i :| 0 <= i < |a.added| && a.added[i].SocketConnector?;
    assert s.Ok?;
    var p := PlainStep(n, defaults, sys, config, s.value);
    PlainStepShape(n, defaults, sys, config, s.value);
    assert p.Ok? && p.value != [];
    assert a.added[|a.added| - 1] == p.value[0];
  }

  /** With no listen port and no bind address configured, the plain block opens 0.0.0.0:8080 on an empty server. */
  lemma PlainDefault(sys: Layer, config: Layer)
    requires Standard.listenPort !in sys && Standard.listenPort !in config
    requires Standard.bindAddress !in sys && Standard.bindAddress !in config
    ensures PlainStep(Standard, map[], sys, config, [])
         == Ok([SocketConnector("0.0.0.0", 8080, MaxIdleTime, SoLingerTime)])
  {
    JavaNumbers.ParseInt8080();
    assert BundledPort(map[], "webserver.defaultListenPort", "8080") == Ok(8080);
  }

  /** Nothing configured: a single plain connector on 0.0.0.0:8080. */
  lemma DefaultScenario(war: string, sslSetupFails: bool)
    ensures PlanStart(Names(map[]), map[], map["java.io.tmpdir" := "/tmp"], map[], war, sslSetupFails)
         == Attempt([SocketConnector("0.0.0.0", 8080, MaxIdleTime, SoLingerTime)],
                    Ok(WebAppMount("/", war, "/tmp", "")))
  {
    StandardNames();
    var sys: Layer := map["java.io.tmpdir" := "/tmp"];
    assert Standard.ssl !in sys && Standard.listenPort !in sys && Standard.bindAddress !in sys;
    assert SslStep(Standard, map[], sys, map[], sslSetupFails) == Ok([]);
    PlainDefault(sys, map[]);
    assert Standard.tempDir !in sys && "webserver.extraClasspath" !in sys;
  }

  /** An override file that turns SSL on and names a keystore, and sets no port. */
  const SslOverrides: Layer := map["webserver.ssl" := "true", "webserver.ssl.keyStoreFile" := "/x.p12"]

  /** What the SSL block makes of `SslOverrides`: an SSL connector on 8443 unless its setup fails. */
  lemma SslOverridesStep(sslSetupFails: bool)
    ensures SslStep(Standard, map[], map["java.io.tmpdir" := "/tmp"], SslOverrides, sslSetupFails)
         == Ok(if sslSetupFails then [] else [SslConnector("0.0.0.0", 8443, "PKCS12", "/x.p12", None, None)])
  {
    var n := Standard;
    var sys: Layer := map["java.io.tmpdir" := "/tmp"];
    Text.TrueIgnoringCase("true");
    JavaNumbers.ParseInt8443();
    assert GetString(sys, SslOverrides, n.ssl, None) == Some("true");
    assert GetString(sys, SslOverrides, n.keyStoreFile, None) == Some("/x.p12");
    assert n.keyStorePassword !in SslOverrides && n.sslListenPort !in SslOverrides;
    assert n.keyStoreType !in SslOverrides && n.bindAddress !in SslOverrides;
  }

  /** SSL and a keystore in the override file, no ports: the SSL connector alone, on 8443. */
  lemma SslScenario(war: string)
    ensures PlanStart(Names(map[]), map[], map["java.io.tmpdir" := "/tmp"], SslOverrides, war, false)
         == Attempt([SslConnector("0.0.0.0", 8443, "PKCS12", "/x.p12", None, None)],
                    Ok(WebAppMount("/", war, "/tmp", "")))
  {
    var sys: Layer := map["java.io.tmpdir" := "/tmp"];
    StandardNames();
    SslOverridesStep(false);
    JavaNumbers.ParseInt8080();
    var ssl := [SslConnector("0.0.0.0", 8443, "PKCS12", "/x.p12", None, None)];
    assert Standard.listenPort !in sys && Standard.listenPort !in SslOverrides;
    assert PlainStep(Standard, map[], sys, SslOverrides, ssl) == Ok([]);
    assert Standard.tempDir !in SslOverrides && "webserver.extraClasspath" !in SslOverrides;
    assert ssl + [] == ssl;
  }

  /** The same, but the SSL connector cannot be set up: the plain connector on 8080 takes its place. */
  lemma SslSetupFailureScenario(war: string)
    ensures PlanStart(Names(map[]), map[], map["java.io.tmpdir" := "/tmp"], SslOverrides, war, true)
         == Attempt([SocketConnector("0.0.0.0", 8080, MaxIdleTime, SoLingerTime)],
                    Ok(WebAppMount("/", war, "/tmp", "")))
  {
    var sys: Layer := map["java.io.tmpdir" := "/tmp"];
    StandardNames();
    SslOverridesStep(true);
    assert Standard.listenPort !in SslOverrides && Standard.bindAddress !in SslOverrides;
    PlainDefault(sys, SslOverrides);
    assert Standard.tempDir !in SslOverrides && "webserver.extraClasspath" !in SslOverrides;
  }

  /** A system property beats the override file: the listen port is 9090, not 8080. */
  lemma SystemPropertyScenario(war: string)
    ensures PlanStart(Names(map[]), map[], map["java.io.tmpdir" := "/tmp", "webserver.listenPort" := "9090"],
                      map["webserver.listenPort" := "8080"], war, false).added
         == [SocketConnector("0.0.0.0", 9090, MaxIdleTime, SoLingerTime)]
  {
    StandardNames();
    JavaNumbers.ParseInt8080();
    JavaNumbers.Decode9090();
  }
}
