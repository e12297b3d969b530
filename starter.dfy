/**
 * The launcher itself: its process-wide state (system properties, the loaded
 * override configuration, the current server) and the operations `start`,
 * `stop`, `appendClasspath` and the entry point that drive it.
 */
module Starter {
  import opened Wrappers
  import opened Failures
  import opened Settings
  import opened Connectors
  import opened Classpath
  import JavaNumbers
  import UnixFiles
  import Text

  /** Jetty's `Server`, reduced to the connectors, the handler and whether it runs. */
  class Server {
    var connectors: seq<ConnectorSpec>
    var handler: Option<WebAppMount>
    var running: bool

    constructor ()
      ensures connectors == [] && handler == None && !running
    {
      connectors, handler, running := [], None, false;
    }

    method AddConnector(c: ConnectorSpec)
      modifies this
      ensures connectors == old(connectors) + [c]
      ensures handler == old(handler) && running == old(running)
    {
      connectors := connectors + [c];
    }

    method SetHandler(webapp: WebAppMount)
      modifies this
      ensures handler == Some(webapp)
      ensures connectors == old(connectors) && running == old(running)
    {
      handler := Some(webapp);
    }

    /** `server.start()`; opening the sockets is not modelled. */
    method Start()
      modifies this
      ensures running
      ensures connectors == old(connectors) && handler == old(handler)
    {
      running := true;
    }

    /** `server.stop()` followed by `server.join()`. */
    method Stop()
      modifies this
      ensures !running
      ensures connectors == old(connectors) && handler == old(handler)
    {
      running := false;
    }
  }

  class Launcher {
    /** The bundled `webserver.properties`. */
    const defaults: Layer
    /** The override files that can be located and parsed, by name. */
    const files: map<string, Layer>
    /** The war's own location, as an external URL form. */
    const war: string
    const loader: SystemClassLoader
    var sys: Layer
    var config: Layer
    var server: Server?

    /** The class initialiser: publishes the war location as a system property; no server yet. */
    constructor (defaults: Layer, systemProperties: Layer, files: map<string, Layer>, war: string,
                 loader: SystemClassLoader)
      ensures this.defaults == defaults && this.files == files && this.war == war && this.loader == loader
      ensures sys == systemProperties[WarLocationProperty := war]
      ensures config == map[] && server == null
    {
      this.defaults := defaults;
      this.files := files;
      this.war := war;
      this.loader := loader;
      sys := systemProperties[WarLocationProperty := war];
      config := map[];
      server := null;
    }

    /**
     * `start()`: reloads the override file, replaces the server, appends the SSL connector and
     * then the plain one as planned, mounts the war at `/` and starts the server.
     */
    method Start(sslSetupFails: bool) returns (status: Outcome<Fatal>)
      modifies this
      ensures sys == old(sys)
      ensures config == LoadConfig(defaults, sys, files)
      ensures server != null && fresh(server)
      ensures var a := PlanStart(Names(defaults), defaults, sys, config, war, sslSetupFails);
              && server.connectors == a.added
              && (status.Pass? <==> a.outcome.Ok?)
              && (status.Fail? ==> status.error == a.outcome.error)
              && server.handler == (if a.outcome.Ok? then Some(a.outcome.value) else None)
              && server.running == a.outcome.Ok?
    {
      var names := Names(defaults);
      config := LoadConfig(defaults, sys, files);
      var tempPath := GetString(sys, config, names.tempDir, Get(sys, "java.io.tmpdir", None));
      server := new Server();
      var bindAddress := GetStringOr(sys, config, names.bindAddress, AnyAddress);
      status := AddSslConnector(names, bindAddress, sslSetupFails);
      if status.Fail? {
        return;
      }
      status := AddPlainConnector(names, bindAddress);
      if status.Fail? {
        return;
      }
      var extraClasspath := GetStringOr(sys, config, "webserver.extraClasspath", "");
      if tempPath.None? {
        return Fail(NoTempDirectory);
      }
      server.SetHandler(WebAppMount(ContextPath, war, tempPath.value, extraClasspath));
      server.Start();
    }

    /** The SSL block of `start()`, run on the fresh server: its connector, or why starting aborts. */
    method AddSslConnector(names: OptionNames, bindAddress: string, sslSetupFails: bool)
      returns (status: Outcome<Fatal>)
      requires server != null && server.connectors == []
      requires bindAddress == BindAddress(names, sys, config)
      modifies server
      ensures var ssl := SslStep(names, defaults, sys, config, sslSetupFails);
              && (status.Pass? <==> ssl.Ok?)
              && (status.Fail? ==> status.error == ssl.error)
              && server.connectors == (if ssl.Ok? then ssl.value else [])
      ensures server.handler == old(server.handler) && server.running == old(server.running)
    {
      var sslFlag := GetString(sys, config, names.ssl, None);
      if sslFlag.None? || !Text.EqualsIgnoreCase("true", sslFlag.value) {
        return Pass;
      }
      var keyStoreType := GetStringOr(sys, config, names.keyStoreType, DefaultKeyStoreType);
      var keyStoreFile := GetString(sys, config, names.keyStoreFile, None);
      if keyStoreFile.None? {
        return Fail(MissingKeyStore(names.keyStoreFile));
      }
      var keyStorePassword := GetString(sys, config, names.keyStorePassword, None);
      var defaultSslPort := BundledPort(defaults, "webserver.ssl.defaultListenPort", "8443");
      if defaultSslPort.Err? {
        return Fail(defaultSslPort.error);
      }
      var sslListenPort := GetString(sys, config, names.sslListenPort, None);
      var sslPort := defaultSslPort.value;
      if sslListenPort.Some? {
        var decoded := JavaNumbers.Decode(sslListenPort.value);
        if decoded.None? {
          return Fail(NotANumber(sslListenPort.value));
        }
        sslPort := decoded.value;
      }
      assert SslPort(sslListenPort, defaultSslPort.value) == Ok(sslPort);
      if !sslSetupFails {
        var connector := SslConnector(bindAddress, sslPort, keyStoreType, keyStoreFile.value,
                                      keyStorePassword, keyStorePassword);
        server.AddConnector(connector);
        assert server.connectors == [connector];
      }
      status := Pass;
    }

    /** The plain block of `start()`: a plain connector when a port is explicit or none is registered yet. */
    method AddPlainConnector(names: OptionNames, bindAddress: string) returns (status: Outcome<Fatal>)
      requires server != null
      requires bindAddress == BindAddress(names, sys, config)
      modifies server
      ensures var plain := PlainStep(names, defaults, sys, config, old(server.connectors));
              && (status.Pass? <==> plain.Ok?)
              && (status.Fail? ==> status.error == plain.error)
              && server.connectors == old(server.connectors) + (if plain.Ok? then plain.value else [])
      ensures server.handler == old(server.handler) && server.running == old(server.running)
    {
      var defaultListenPort := BundledPort(defaults, "webserver.defaultListenPort", "8080");
      if defaultListenPort.Err? {
        assert server.connectors == old(server.connectors) + [];
        return Fail(defaultListenPort.error);
      }
      var listenPort := GetString(sys, config, names.listenPort, None);
      if listenPort.Some? || |server.connectors| == 0 {
        var port := GetInteger(sys, config, names.listenPort, defaultListenPort.value);
        if port.Err? {
          assert server.connectors == old(server.connectors) + [];
          return Fail(port.error);
        }
        server.AddConnector(SocketConnector(bindAddress, port.value, MaxIdleTime, SoLingerTime));
      } else {
        assert server.connectors == old(server.connectors) + [];
      }
      status := Pass;
    }

    /** `stop()`: nothing to do without a server; otherwise the server is stopped and kept. */
    method Stop()
      modifies server
      ensures server != null ==> !server.running
      ensures server != null ==> server.connectors == old(server.connectors) && server.handler == old(server.handler)
    {
      if server != null {
        server.Stop();
      }
    }

    /** `appendClasspath(paths)`: one URL per entry, appended in order; the first failure aborts. */
    method AppendClasspath(paths: seq<string>, platform: Platform) returns (status: Outcome<Fatal>)
      modifies loader
      ensures var plan := ClasspathAppend(paths, sys, platform, loader.reflective);
              && (status.Pass? <==> plan.Ok?)
              && (status.Fail? ==> status.error == plan.error)
              && loader.urls == old(loader.urls) + (if plan.Ok? then plan.value else [])
    {
      if paths == [] {
        assert loader.urls == old(loader.urls) + [];
        return Pass;
      }
      var props := sys;
      if "user.home" !in props {
        assert loader.urls == old(loader.urls) + [];
        return Fail(NoUserHome);
      }
      status := AppendUrls(paths, platform.fileUri(props["user.home"]), WarParent(props), platform);
    }

    /** The loop of `appendClasspath(paths)` once the home URI and the war directory are known. */
    method AppendUrls(paths: seq<string>, homeUri: string, warParent: string, platform: Platform)
      returns (status: Outcome<Fatal>)
      requires paths != []
      modifies loader
      ensures loader.reflective ==> status == Pass && loader.urls == old(loader.urls) + ClasspathUrls(paths, homeUri, warParent, platform)
      ensures !loader.reflective ==> status == Fail(ClassLoaderRefused) && loader.urls == old(loader.urls)
    {
      var i := 0;
      while i < |paths|
        invariant 0 <= i <= |paths|
        invariant i > 0 ==> loader.reflective
        invariant loader.urls == old(loader.urls) + ClasspathUrls(paths[..i], homeUri, warParent, platform)
      {
        var path := RewriteEntry(paths[i], homeUri, warParent);
        var url := UrlFor(path, platform);
        ghost var before := loader.urls;
        var added := loader.AddUrl(url);
        if added.Fail? {
          assert i == 0;
          return added;
        }
        ClasspathUrlsExtend(paths, i, homeUri, warParent, platform);
        assert loader.urls == before + [url];
        i := i + 1;
      }
      assert paths[..|paths|] == paths;
      status := Pass;
    }

    /**
     * The entry point: extends the class path with the bundled entries, loads the override file,
     * reads the timeout, starts, and stops again after a non-zero timeout. `extraClasspath` is the
     * list `webserver.extraClasspath` of the bundled defaults.
     */
    method Launch(extraClasspath: seq<string>, platform: Platform, sslSetupFails: bool) returns (r: Result<int, Fatal>)
      modifies this, loader
      ensures sys == old(sys)
      ensures var cp := ClasspathAppend(extraClasspath, sys, platform, loader.reflective);
              loader.urls == old(loader.urls) + (if cp.Ok? then cp.value else [])
      ensures var cp := ClasspathAppend(extraClasspath, sys, platform, loader.reflective);
              cp.Err? ==> r == Err(cp.error) && config == old(config) && server == old(server)
      ensures var cp := ClasspathAppend(extraClasspath, sys, platform, loader.reflective);
              var timeout := GetStringOr(sys, config, Names(defaults).timeout, "0");
              cp.Ok? ==> config == LoadConfig(defaults, sys, files)
                         && (JavaNumbers.ParseInt(timeout).None? ==> r == Err(NotANumber(timeout)) && server == old(server))
      ensures var cp := ClasspathAppend(extraClasspath, sys, platform, loader.reflective);
              var t := JavaNumbers.ParseInt(GetStringOr(sys, config, Names(defaults).timeout, "0"));
              var a := PlanStart(Names(defaults), defaults, sys, config, war, sslSetupFails);
              cp.Ok? && t.Some? ==>
                && server != null && fresh(server) && server.connectors == a.added
                && server.handler == (if a.outcome.Ok? then Some(a.outcome.value) else None)
                && (a.outcome.Err? ==> r == Err(a.outcome.error) && !server.running)
                && (a.outcome.Ok? && t.value < 0 ==> r == Err(NegativeTimeout(t.value)) && server.running)
                && (a.outcome.Ok? && t.value >= 0 ==> r == Ok(t.value) && server.running == (t.value == 0))
    {
      var appended := AppendClasspath(extraClasspath, platform);
      if appended.Fail? {
        return Err(appended.error);
      }
      config := LoadConfig(defaults, sys, files);
      var timeoutText := GetStringOr(sys, config, Names(defaults).timeout, "0");
      var timeout := JavaNumbers.ParseInt(timeoutText);
      if timeout.None? {
        return Err(NotANumber(timeoutText));
      }
      var started := Start(sslSetupFails);
      if started.Fail? {
        return Err(started.error);
      }
      if timeout.value != 0 {
        if timeout.value < 0 {
          return Err(NegativeTimeout(timeout.value));
        }
        Stop();
      }
      r := Ok(timeout.value);
    }
  }
}
