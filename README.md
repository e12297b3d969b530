# standalone-war launcher, modelled in Dafny

The launcher `Starter` is the `Main-Class` of a self-running war: it reads its settings from three
places (the JVM's system properties, an optional override file, and a bundled `webserver.properties`),
extends the system class path with extra entries, builds an embedded Jetty server with an optional
HTTPS connector and a plain HTTP connector, mounts the war at `/`, and optionally stops again after a
timeout.

The model covers the decision layer of that class:

- **Settings** (`settings.dfy`): every source is a `Layer` (`map<string, string>`). `getString` is the
  nested get-with-default `System.getProperty(k, config.getString(k, d))`. `getInteger` evaluates the
  override file first, so a malformed value there aborts, while a malformed system property is
  ignored. Option names are read one level through aliases in the bundled defaults. The override
  file's name comes from a system property, else the bundled `webserver.configFilename`, else
  `webserver.conf`. A file that cannot be loaded acts as an empty layer.
- **Integer parsing** (`numbers.dfy`): `Integer.parseInt` (decimal, optional sign) and
  `Integer.decode` (also `0x`, `0X`, `#` and leading-zero octal), each with 32-bit range checks,
  written out on ASCII digits.
- **Strings and files** (`text.dfy`, `unix_files.dfy`): `"true".equalsIgnoreCase`, and
  `String.replaceAll` for patterns made of literal characters and the `.` wildcard. The replacement is
  taken literally. `File.getParent` is modelled for Unix paths.
- **Connector planning** (`connectors.dfy`): `PlanStart` is everything `start()` decides, in the
  order it decides it:
  - the SSL connector, or the missing-keystore error;
  - then the plain connector, added only when a listen port is explicit or nothing is registered yet;
  - then the temp directory and the mounted web application.
- **Class path** (`classpath.dfy`): each entry is rewritten. Every `~` becomes the home URI, every
  war-location placeholder becomes the war's directory (or `""`), and a separator is appended. An
  entry becomes a URL, or else a file URL. The system class loader is a class whose URL list
  `AddUrl` extends.
- **The launcher's state** (`starter.dfy`): `Server` (its connectors, its handler, whether it runs)
  and `Launcher`, which holds the static state of `Starter` (system properties, loaded config,
  current server). Its methods `Start`, `Stop`, `AppendClasspath` and `Launch` update that state
  step by step. Each is proved against the functions above: what `Start` leaves in the new server is
  exactly `PlanStart`'s plan, and the URLs `AppendClasspath` adds are exactly `ClasspathUrls`.

In the code, the bundled defaults are never a value layer for `getString`. They only supply:
- the option-name aliases;
- `webserver.configFilename`;
- `webserver.defaultListenPort`;
- `webserver.ssl.defaultListenPort`;
- the list `webserver.extraClasspath` that `main` appends to the class path (line 121), which is
  the `extraClasspath` parameter of `Starter.Launcher.Launch`.

With SSL on, a keystore set and no listen port configured, only the SSL connector opens: the plain
connector is added only when a listen port is explicit or no connector is registered yet
(Starter.java:209), and by then the SSL connector is registered. `Connectors.SslScenario` proves
that outcome; no plain listener on 8080 opens beside it.

The web application's extra class path is read under the fixed name `webserver.extraClasspath`,
with no alias. The document root is resolved but never applied, because its use is commented out at
lines 240–242.

## Model

| member | source | states |
|---|---|---|
| Settings.Get | starter/src/main/java/com/xlson/standalonewar/Starter.java:95 | one source's `getString(key, default)` (a definition: the stored value, else the default) |
| Settings.ResolveFirstLayerWins | starter/src/main/java/com/xlson/standalonewar/Starter.java:94-96 | the first layer that holds the key decides the value |
| Settings.ResolveFallsBack | starter/src/main/java/com/xlson/standalonewar/Starter.java:94-96 | when no layer holds the key, the caller's default comes back |
| Settings.ResolveOrigin | starter/src/main/java/com/xlson/standalonewar/Starter.java:94-96 | a lookup yields the caller's default or a value stored in some layer, never anything else |
| Settings.GetString | starter/src/main/java/com/xlson/standalonewar/Starter.java:94-96 | system property if set, else override-file value, else the caller's default (`None` for null) |
| Settings.GetStringResolves | starter/src/main/java/com/xlson/standalonewar/Starter.java:94-96 | `getString` is the two-layer nested lookup, system properties over the override file |
| Settings.GetStringOr | starter/src/main/java/com/xlson/standalonewar/Starter.java:94-96 | with a non-null default the lookup is never null |
| Settings.GetInteger | starter/src/main/java/com/xlson/standalonewar/Starter.java:98-100 | fails exactly when the override file holds a non-integer, even if a system property is set; a decodable system property wins; otherwise (no property, or one `decode` rejects) the override file's integer, else the caller's default |
| Settings.Names | starter/src/main/java/com/xlson/standalonewar/Starter.java:140-148 | the eleven option names, each its alias in the bundled defaults or its dotted name (a definition; `StandardNames` evaluates it without aliases) |
| Settings.OptionName | starter/src/main/java/com/xlson/standalonewar/Starter.java:140-148 | an option's name is its alias in the bundled defaults, else the fixed dotted name |
| Settings.StandardNames | starter/src/main/java/com/xlson/standalonewar/Starter.java:140-148 | without aliases every option is read under its dotted `webserver.*` name |
| Settings.ConfigFilename | starter/src/main/java/com/xlson/standalonewar/Starter.java:103-104 | override file name: the system property named by the (aliased) option, else the bundled `webserver.configFilename`, else `webserver.conf` |
| Settings.LoadConfig | starter/src/main/java/com/xlson/standalonewar/Starter.java:102-112 | the loaded layer is the named file's contents, or empty when it cannot be loaded |
| Settings.UnloadableConfigIsEmptyLayer | starter/src/main/java/com/xlson/standalonewar/Starter.java:106-111 | with an unloadable override file every read is the system property or the caller's default |
| JavaNumbers.Signed | starter/src/main/java/com/xlson/standalonewar/Starter.java:126 | a value exists exactly for a non-empty digit string whose signed value fits in 32 bits |
| JavaNumbers.ParseInt | starter/src/main/java/com/xlson/standalonewar/Starter.java:126 | every accepted value fits in 32 bits |
| JavaNumbers.Decode | starter/src/main/java/com/xlson/standalonewar/Starter.java:187 | every accepted value fits in 32 bits |
| JavaNumbers.ParseIntShow | starter/src/main/java/com/xlson/standalonewar/Starter.java:126 | `parseInt` reads back every 32-bit value in its decimal form |
| JavaNumbers.DecodeDecimal | starter/src/main/java/com/xlson/standalonewar/Starter.java:187 | without radix prefix or leading zero, `decode` reads the digits as signed decimal |
| JavaNumbers.DecodeShow | starter/src/main/java/com/xlson/standalonewar/Starter.java:187 | `decode` reads back every 32-bit value in its decimal form |
| JavaNumbers.DecodeHexExample | starter/src/main/java/com/xlson/standalonewar/Starter.java:187 | `0x1F` decodes to 31 |
| JavaNumbers.DecodeHashExample | starter/src/main/java/com/xlson/standalonewar/Starter.java:187 | `#ff` decodes to 255 |
| JavaNumbers.DecodeOctalExample | starter/src/main/java/com/xlson/standalonewar/Starter.java:187 | a leading zero means octal: `010` decodes to 8 |
| JavaNumbers.DecodeRejects | starter/src/main/java/com/xlson/standalonewar/Starter.java:187 | `08`, a bare `-` and `+-1` are rejected |
| JavaNumbers.ParseIntExamples | starter/src/main/java/com/xlson/standalonewar/Starter.java:126 | `parseInt` is decimal only (`010` is 10), accepts `+7`, rejects the empty string |
| JavaNumbers.ParseInt8080 | starter/src/main/java/com/xlson/standalonewar/Starter.java:207 | the literal default `8080` parses to 8080 |
| JavaNumbers.ParseInt8443 | starter/src/main/java/com/xlson/standalonewar/Starter.java:180 | the literal default `8443` parses to 8443 |
| JavaNumbers.ParseInt9090 | starter/src/main/java/com/xlson/standalonewar/Starter.java:126 | `9090` parses to 9090 |
| JavaNumbers.Decode9090 | starter/src/main/java/com/xlson/standalonewar/Starter.java:99 | `9090` decodes to 9090, as `Integer.getInteger` reads a system property |
| Text.EqualsIgnoreCase | starter/src/main/java/com/xlson/standalonewar/Starter.java:162 | equal lengths and every position equal after ASCII case folding, and only then |
| Text.TrueIgnoringCase | starter/src/main/java/com/xlson/standalonewar/Starter.java:162 | `"true".equalsIgnoreCase(s)` holds exactly for the sixteen spellings of `true` |
| Text.WithWildcards | starter/src/main/java/com/xlson/standalonewar/Starter.java:263 | the placeholder pattern: each `.` is a wildcard, every other character a literal |
| Text.ReplaceAllWithoutMatch | starter/src/main/java/com/xlson/standalonewar/Starter.java:262-263 | text in which the pattern never matches is left unchanged |
| Text.ReplaceAllAtFirstMatch | starter/src/main/java/com/xlson/standalonewar/Starter.java:263 | text before the first match is kept, the match replaced, the rest rewritten alike |
| Text.ReplaceCharConcat | starter/src/main/java/com/xlson/standalonewar/Starter.java:262 | replacing one literal character distributes over concatenation |
| Text.ReplaceCharSingle | starter/src/main/java/com/xlson/standalonewar/Starter.java:262 | the character itself becomes the replacement, any other character stays |
| Text.ReplaceAllKeepsOut | starter/src/main/java/com/xlson/standalonewar/Starter.java:262-263 | a character in neither text nor replacement is not in the result |
| Text.ReplaceCharRemovesIt | starter/src/main/java/com/xlson/standalonewar/Starter.java:262 | after replacing every `~`, none is left unless the replacement brings one |
| UnixFiles.CollapseSlashes | starter/src/main/java/com/xlson/standalonewar/Starter.java:263 | no doubled separator remains; the other characters are kept in order; never longer; emptiness and a leading separator are kept |
| UnixFiles.CollapseAppend | starter/src/main/java/com/xlson/standalonewar/Starter.java:263 | collapsing is a left-to-right scan: one more separator after a separator is dropped, any other character appended |
| UnixFiles.Normalize | starter/src/main/java/com/xlson/standalonewar/Starter.java:263 | the collapsed path, with a trailing separator dropped unless it is the root; no doubled separator; the other characters kept in order |
| UnixFiles.LastSeparator | starter/src/main/java/com/xlson/standalonewar/Starter.java:263 | the index of the last `/`, or -1 when there is none |
| UnixFiles.Parent | starter/src/main/java/com/xlson/standalonewar/Starter.java:263 | null exactly for a name without separator or the root; otherwise the prefix before the last separator, or the root when that separator is the leading one |
| UnixFiles.ParentOfEntry | starter/src/main/java/com/xlson/standalonewar/Starter.java:263 | the parent of `dir/name` is `dir` |
| UnixFiles.ParentOfBareName | starter/src/main/java/com/xlson/standalonewar/Starter.java:263 | a name without separator has no parent |
| Connectors.BindAddress | starter/src/main/java/com/xlson/standalonewar/Starter.java:160 | the bind address shared by both connectors, `0.0.0.0` unless configured (a definition; `SslConnectorFields` and `PlainConnectorFields` use it) |
| Connectors.ExplicitListenPort | starter/src/main/java/com/xlson/standalonewar/Starter.java:208-209 | whether a plain listen port is configured, `listenPort != null` (a definition; `PlainStepShape` and `StartConnectors` use it) |
| Connectors.ExtraClasspath | starter/src/main/java/com/xlson/standalonewar/Starter.java:231 | the web application's extra class path, `""` unless configured under `webserver.extraClasspath` (a definition; `PlanStart` mounts it) |
| Connectors.SslEnabled | starter/src/main/java/com/xlson/standalonewar/Starter.java:162 | the SSL switch (a definition; `SslFlag` proves which values turn it on) |
| Connectors.TempDirectory | starter/src/main/java/com/xlson/standalonewar/Starter.java:152 | the configured temp directory, else the `java.io.tmpdir` system property, else null |
| Connectors.SslStep | starter/src/main/java/com/xlson/standalonewar/Starter.java:162-205 | what the SSL block adds or throws (a definition; `SslStepShape` and `SslStepFields` state its results) |
| Connectors.PlainStep | starter/src/main/java/com/xlson/standalonewar/Starter.java:207-228 | what the plain block adds or throws (a definition; `PlainStepShape` and `PlainConnectorFields` state its results) |
| Connectors.PlanStart | starter/src/main/java/com/xlson/standalonewar/Starter.java:152-245 | everything `start()` decides, in its order (a definition; `PlanStartParts` and `StartConnectors` state its results) |
| Connectors.BundledPort | starter/src/main/java/com/xlson/standalonewar/Starter.java:180 | the bundled default port if it parses, the literal otherwise, and the parse error of the bundled text |
| Connectors.SslPort | starter/src/main/java/com/xlson/standalonewar/Starter.java:181-189 | an explicit SSL port goes through `decode` (its failure aborts); none means the default |
| Connectors.SslStepShape | starter/src/main/java/com/xlson/standalonewar/Starter.java:162-205 | the SSL block adds nothing or exactly one SSL connector |
| Connectors.PlainStepShape | starter/src/main/java/com/xlson/standalonewar/Starter.java:207-228 | the plain block adds at most one plain connector, and one exactly when a port is explicit or nothing is registered |
| Connectors.PlanStartParts | starter/src/main/java/com/xlson/standalonewar/Starter.java:162-228 | the connectors of a start are the SSL block's followed by the plain block's; an SSL-block failure adds none |
| Connectors.StartConnectors | starter/src/main/java/com/xlson/standalonewar/Starter.java:162-228 | at most an SSL connector then a plain one; a successful start has one or two; plain iff a port is explicit or no SSL; SSL-only iff SSL added and no explicit port; an SSL connector only when SSL is enabled and set up, and a successful start with SSL enabled and set up always has one |
| Connectors.MissingKeyStoreAborts | starter/src/main/java/com/xlson/standalonewar/Starter.java:171-173 | SSL on without a keystore file aborts before any connector is added, naming the option |
| Connectors.SslFlag | starter/src/main/java/com/xlson/standalonewar/Starter.java:162 | SSL is on exactly when the resolved flag is `true` in some letter case; absent means off |
| Connectors.SslConnectorFields | starter/src/main/java/com/xlson/standalonewar/Starter.java:168-198 | the SSL connector: keystore type default PKCS12, resolved keystore file, one password for store and key, shared bind address, decoded port else bundled default else 8443 |
| Connectors.SslStepFields | starter/src/main/java/com/xlson/standalonewar/Starter.java:168-198 | the same fields for the connector the SSL block adds |
| Connectors.PlainConnectorFields | starter/src/main/java/com/xlson/standalonewar/Starter.java:207-220 | the plain connector: bind address default 0.0.0.0, port from `getInteger` over the bundled default or 8080, idle time 3600000 ms, linger -1 |
| Connectors.PlainDefault | starter/src/main/java/com/xlson/standalonewar/Starter.java:207-223 | with no port and no bind address, an empty server gets 0.0.0.0:8080 |
| Connectors.DefaultScenario | starter/src/main/java/com/xlson/standalonewar/Starter.java:152-245 | nothing configured: one plain connector on 0.0.0.0:8080 and the war mounted at `/` |
| Connectors.SslOverridesStep | starter/src/main/java/com/xlson/standalonewar/Starter.java:162-205 | SSL and a keystore in the override file: an SSL connector on 8443, or none when its setup fails |
| Connectors.SslScenario | starter/src/main/java/com/xlson/standalonewar/Starter.java:209-228 | SSL and a keystore, no ports: the SSL connector alone on 8443 |
| Connectors.SslSetupFailureScenario | starter/src/main/java/com/xlson/standalonewar/Starter.java:191-223 | the same when the SSL connector cannot be set up: the plain connector on 8080 instead |
| Connectors.SystemPropertyScenario | starter/src/main/java/com/xlson/standalonewar/Starter.java:216 | a system property beats the override file: port 9090, not 8080 |
| Text.ReplaceAll | starter/src/main/java/com/xlson/standalonewar/Starter.java:262-263 | leftmost, non-overlapping replacement of every match (a definition; the `ReplaceAll…` and `ReplaceChar…` lemmas state its results) |
| Classpath.HomeUri | starter/src/main/java/com/xlson/standalonewar/Starter.java:262 | the home directory's URI exists exactly when `user.home` is set |
| Classpath.WarParent | starter/src/main/java/com/xlson/standalonewar/Starter.java:263 | `getParent` of the war location, or `""` (a definition; `WarParentOf` states its results) |
| Classpath.UrlFor | starter/src/main/java/com/xlson/standalonewar/Starter.java:265-270 | `new URL(path)` when the path parses as a URL, else the path's file URI (a definition) |
| Classpath.ClasspathAppend | starter/src/main/java/com/xlson/standalonewar/Starter.java:259-274 | the URLs appended, or the first exception (a definition; `ClasspathAppendOutcome` states its results) |
| Classpath.ClasspathAppendOutcome | starter/src/main/java/com/xlson/standalonewar/Starter.java:259-274 | nothing to append succeeds; otherwise success exactly with `user.home` set and a reflective loader; one URL per entry; the error is the missing home first, then the refusing loader |
| Classpath.OrElse | starter/src/main/java/com/xlson/standalonewar/Starter.java:295-297 | the left value unless it is null, then the right |
| Classpath.RewriteEntry | starter/src/main/java/com/xlson/standalonewar/Starter.java:262-264 | every rewritten entry ends in the separator |
| Classpath.ClasspathUrls | starter/src/main/java/com/xlson/standalonewar/Starter.java:259-274 | one URL per entry |
| Classpath.ClasspathUrlsEach | starter/src/main/java/com/xlson/standalonewar/Starter.java:261-273 | the URL at each position is that of the rewritten entry at the same position |
| Classpath.ClasspathUrlsExtend | starter/src/main/java/com/xlson/standalonewar/Starter.java:261-273 | one more entry appends exactly its URL after the earlier ones |
| Classpath.SystemClassLoader.AddUrl | starter/src/main/java/com/xlson/standalonewar/Starter.java:279-293 | the URL is appended when the reflective call is possible; otherwise the IOException and no change |
| Classpath.RewritePlainEntry | starter/src/main/java/com/xlson/standalonewar/Starter.java:262-264 | an entry with neither `~` nor placeholder only gains the separator |
| Classpath.RewriteHomeEntry | starter/src/main/java/com/xlson/standalonewar/Starter.java:262 | `~rest` becomes the home URI, `rest` and the separator |
| Classpath.PlaceholderMatches | starter/src/main/java/com/xlson/standalonewar/Starter.java:263 | the pattern matches the written placeholder |
| Classpath.RewriteWarEntry | starter/src/main/java/com/xlson/standalonewar/Starter.java:263 | the placeholder followed by `rest` becomes the war directory, `rest` and the separator |
| Classpath.RewriteRemovesTilde | starter/src/main/java/com/xlson/standalonewar/Starter.java:262-264 | no `~` survives unless the home URI or the war directory brings one |
| Classpath.WarParentOf | starter/src/main/java/com/xlson/standalonewar/Starter.java:263 | a war at `dir/name` has directory `dir` |
| Classpath.NoWarLocation | starter/src/main/java/com/xlson/standalonewar/Starter.java:263 | with no war location the directory is `""` (`getParent` of `""` is null, then `orElse`) |
| Starter.Server.constructor | starter/src/main/java/com/xlson/standalonewar/Starter.java:158 | a new server has no connectors, no handler and is not running |
| Starter.Server.AddConnector | starter/src/main/java/com/xlson/standalonewar/Starter.java:201 | appends the connector; nothing else changes |
| Starter.Server.SetHandler | starter/src/main/java/com/xlson/standalonewar/Starter.java:244 | sets the handler; nothing else changes |
| Starter.Server.Start | starter/src/main/java/com/xlson/standalonewar/Starter.java:245 | the server runs; nothing else changes |
| Starter.Server.Stop | starter/src/main/java/com/xlson/standalonewar/Starter.java:250-251 | the server no longer runs; nothing else changes |
| Starter.Launcher.constructor | starter/src/main/java/com/xlson/standalonewar/Starter.java:63-67 | the war location is published as a system property; no config and no server yet |
| Starter.Launcher.Start | starter/src/main/java/com/xlson/standalonewar/Starter.java:139-246 | reloads the config, makes a fresh server whose connectors are exactly the plan's, fails exactly when the plan fails and with its exception, and runs with the war mounted only on success |
| Starter.Launcher.AddSslConnector | starter/src/main/java/com/xlson/standalonewar/Starter.java:162-205 | the fresh server gets exactly the SSL block's connector, or the block's exception |
| Starter.Launcher.AddPlainConnector | starter/src/main/java/com/xlson/standalonewar/Starter.java:207-228 | the server's connectors are extended by exactly the plain block's, or the block's exception |
| Starter.Launcher.AppendUrls | starter/src/main/java/com/xlson/standalonewar/Starter.java:261-273 | with a reflective loader, exactly the entries' URLs in order; otherwise the IOException of the first entry and no change |
| Starter.Launcher.Stop | starter/src/main/java/com/xlson/standalonewar/Starter.java:248-253 | no server: nothing happens; otherwise the server stops and keeps its connectors and handler |
| Starter.Launcher.AppendClasspath | starter/src/main/java/com/xlson/standalonewar/Starter.java:259-274 | the loader gains exactly the entries' URLs in order, or the first exception (no home, loader refuses) and nothing |
| Starter.Launcher.Launch | starter/src/main/java/com/xlson/standalonewar/Starter.java:117-137 | class path first, then config, then the timeout; a bad timeout aborts before any server; the fresh server holds exactly the planned connectors, with the war mounted at `/` on success and no handler after a failed start, which leaves it stopped; a positive timeout stops the server, zero leaves it running, a negative one aborts |

## Left out

- Jetty itself: opening sockets, `server.start()`, `server.stop()`, `server.join()` and the `WebAppContext` internals. These are foreign library calls, and they become a `running` flag and a `WebAppMount` record.
- Configuring and registering the SSL connector (lines 193–201) can throw inside Jetty. That failure is the `sslSetupFails` parameter. As at lines 202–204, the error is swallowed and no SSL connector is added.
- An exception from `new SslSelectChannelConnector()` itself (line 191, outside the `try`) would abort `start()`. It is not modelled, because the constructor is a foreign call.
- The restart hook (lines 70–87) and `Thread.sleep` (line 129) are left out. They are a thread and a clock. A negative timeout, which makes `sleep` throw, is kept.
- Logging, `System.err` and `System.exit(-1)` in `main` are left out. `Launch` returns the exception instead, and the model does not capture that the process then exits. Logging includes the inverted warning at line 213, which has no behavioural effect.
- `new URL(…)`, `File.toURI()` and the reflective `URLClassLoader.addURL` are foreign calls. They become the `Platform` functions and the loader's `reflective` flag.
- Classpath.SystemClassLoader: the cast of the system class loader to `URLClassLoader` (line 281) is outside the `try`, so a loader of another kind aborts `main` with a `ClassCastException`, not the `IOException` of line 290; the model has only the latter. `URLClassLoader.addURL` ignores a URL it already holds, while `AddUrl` appends duplicates.
- Loading and parsing the override file and the bundled `webserver.properties` are left out. These are file-system and library concerns. The files that can be loaded are a map from name to contents.
- The missing bundled resource (line 119) is left out. `defaults` is always present.
- Property-file interpolation and list splitting in the property library are left out. `webserver.extraClasspath` arrives as a list.
- Settings.GetInteger: the property library's own integer conversion is modelled as `Integer.parseInt`. Its `0x` and `0b` prefixes are not modelled.
- JavaNumbers.Digit: only ASCII digits are modelled. Java also accepts other Unicode decimal digits.
- Text.ReplaceAll: `$` and `\` in a replacement are taken literally. Java treats them as group references and escapes, and an unescaped `$` in a home URI would make Java throw.
- UnixFiles.Parent: only the Unix file system is modelled. Windows drive prefixes and `\` are not.
- Settings.GetString: `System.getProperty` throws `IllegalArgumentException` for an empty key. That happens when a bundled alias is empty (lines 103–104, 140–148). The model returns the lookup's value instead, so the abort of `loadConfig`, `start` or `main` for an empty alias is not modelled.
- The document root (line 155) is left out. It is resolved but only logged.
- The temp directory is checked only for being non-null. Any checks Jetty makes on it are not modelled.
