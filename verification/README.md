# EasyGate proxy core, modelled in Dafny

EasyGate is a local forwarding proxy. Client applications use it as their
HTTP/HTTPS proxy. For each plain HTTP request it asks a PAC (Proxy
Auto-Config) script whether to go straight to the origin; CONNECT tunnels
(all HTTPS traffic) always go to the one configured, authenticated upstream
proxy. It adds the upstream credentials as a
`Proxy-Authorization: Basic ...` header. A user starts and stops the
service from a terminal UI. Log lines go to a file and to the UI's log pane.

This project models the core of `easygate/server.go` and `easygate/log.go`:

- `common.dfy`: `Option`/`Result` (Go's nil pointers and error returns) and the `byte` type.
- `base64.dfy` (module `Base64`): the standard padded encoding of RFC 4648
  section 4. The encoder is what `base64.StdEncoding.EncodeToString` computes.
  A decoder is its partner, used to prove that no input is lost or altered.
- `basic_auth.dfy` (module `BasicAuth`): the header map, Go's `Header.Set`,
  the Basic credentials of RFC 7617 section 2, and `addBasicAuth` on a
  `Request` object whose header map it updates in place.
- `routing.dfy` (module `Routing`): `isDirect` and the transport's `proxy()`
  function. The PAC engine is an opaque total function value, and there may be none.
- `logging.dfy` (module `Logging`): level names and `GetLogLevelFromString`.
  Also the zerolog threshold that `SetLevel` selects, the `FormatLevel`
  label, the `ConnectWriter` class and the `Logger` class (threshold,
  attached writer, and a ghost record of requested and written entries).
- `server.dfy` (module `Gate`): the adapter that strips one trailing newline,
  the `Server` class with its Stopped/Running lifecycle, and the request handler chain.

Go strings are byte strings. The user name and password are therefore byte
sequences. Header values are character strings: the base64 text is ASCII.
Shutdown success or failure is an input to `Stop`. Listening, graceful
shutdown and forced close are abstract steps recorded in the ghost trace `steps`.

The model follows the Go code where it differs from what the RFCs or the UI's
own text ("You need restart app, If you changed configuration.",
`easygate/app.go:66`) would lead one to expect:

- The non-direct branch of `proxy()` returns `http.ProxyFromEnvironment(req)`
  (`easygate/server.go:116`), not the configured upstream. Only the CONNECT
  dialer targets the configured upstream URL (`easygate/server.go:47`).
- The PAC script decides nothing for CONNECT tunnels. `isDirect` is called
  only from `proxy()` (`easygate/server.go:113`), which is installed only as
  the plain-HTTP transport's proxy function (`easygate/server.go:41`). The
  CONNECT dialer is built once for the configured upstream URL
  (`easygate/server.go:47`), so every HTTPS tunnel goes there whatever the
  PAC script answers.
- `Proxy-Authorization` is added to every plain request by the `OnRequest`
  handler (`easygate/server.go:48-51`), including requests later routed
  direct. `Gate.Server.HandleRequest` states this.
- `Start` sets the running flag before the listener is bound. A bind failure
  panics inside the goroutine (`easygate/server.go:70-73`). Nothing recovers
  that panic, so it ends the whole EasyGate process. It is never reported to
  the caller as an error, and the model's running state has no counterpart
  for it.
- The server holds the configuration by pointer (`easygate/server.go:38`).
  Both handlers read the user name and password from it each time they run
  (`easygate/server.go:44-46`, `48-50`). The configuration form writes into
  the same object while the server is stopped (`easygate/app.go:58-60`,
  `105-109`, `188-192`). So edited credentials take effect at the next
  request, without restarting the app. The CONNECT upstream URL is
  different: it is copied once, when the server is built
  (`easygate/server.go:47`); the model keeps that copy as
  `Gate.Server.upstreamUrl`. The PAC file is also read only then
  (`easygate/server.go:53`).
- `Stop` never clears `service`. The last service stays installed while stopped.
- "Direct" is a prefix test on the PAC result (`easygate/server.go:104`).
  "DIRECTX" counts as direct. " DIRECT" with a leading space does not.
- There is no lock around the running flag. The model is sequential.

## Model

| member | source | states |
|---|---|---|
| `Base64.CharOfIsTable` | easygate/server.go:124 | each 6-bit value is encoded by the character at that index of Table 1 of RFC 4648 |
| `Base64.StandardTestVectors` | easygate/server.go:124 | "", "f", "fo" and "foo" encode to "", "Zg==", "Zm8=" and "Zm9v" (RFC 4648 section 10) |
| `Base64.TestVectorFoob` | easygate/server.go:124 | "foob" encodes to "Zm9vYg==" (RFC 4648 section 10) |
| `Base64.TestVectorFooba` | easygate/server.go:124 | "fooba" encodes to "Zm9vYmE=" (RFC 4648 section 10) |
| `Base64.TestVectorFoobar` | easygate/server.go:124 | "foobar" encodes to "Zm9vYmFy" (RFC 4648 section 10) |
| `Base64.Encode` | easygate/server.go:124 | the encoding has 4·⌈n/3⌉ characters, each from the RFC 4648 alphabet or '=' |
| `Base64.DecodeEncode` | easygate/server.go:124 | decoding the encoding gives back exactly the input bytes |
| `Base64.EncodeInjective` | easygate/server.go:124 | different inputs have different encodings |
| `Base64.EncodePadding` | easygate/server.go:124 | '=' appears only in the last two positions |
| `Base64.EncodeNoPadding` | easygate/server.go:124 | an input whose length is a multiple of 3 is encoded without '=' |
| `BasicAuth.SetHeader` | easygate/server.go:122 | `Header.Set` leaves the name with exactly one value and every other name unchanged |
| `BasicAuth.BasicCredentials` | easygate/server.go:122-124 | the value starts with "Basic ", followed by base64 text of the length of user + ":" + pass |
| `BasicAuth.CredentialsDecode` | easygate/server.go:122-124 | the payload after "Basic " decodes to user, ':' and password |
| `BasicAuth.CredentialsRoundTrip` | easygate/server.go:121-125 | an upstream that splits at the first colon recovers user and password whenever the user name has no colon |
| `BasicAuth.ColonInUserIsAmbiguous` | easygate/server.go:124 | with a colon in the user name two different credential pairs send the same header |
| `BasicAuth.FooBaCredentials` | easygate/server.go:121-125 | user "foo" with password "ba" gives exactly "Basic Zm9vOmJh" |
| `BasicAuth.AddBasicAuth` | easygate/server.go:121-125 | `Proxy-Authorization` ends with the single value "Basic " + base64(user:pass), replacing any earlier one; other headers are unchanged |
| `Routing.IsDirect` | easygate/server.go:96-108 | false without a PAC engine and on an evaluation error; otherwise true exactly when the result starts with "DIRECT" |
| `Routing.Proxy` | easygate/server.go:111-119 | "no proxy" exactly when the request is direct, the environment's proxy otherwise |
| `Routing.NoPacNeverDirect` | easygate/server.go:97-99 | with no PAC loaded every URL uses the environment's proxy |
| `Routing.FirstDirective` | easygate/server.go:104 | the first directive is the text of the result before its first ';' |
| `Routing.FirstDirectiveDecides` | easygate/server.go:104 | the decision on a PAC result equals the decision on its first directive alone |
| `Routing.FallbacksIgnored` | easygate/server.go:104 | directives after the first ';' never change the decision |
| `Logging.GetLogLevelFromString` | easygate/log.go:23-35 | one of the four named levels; the named level for its own name, DEBUG for any other string |
| `Logging.LevelNameRoundTrip` | easygate/log.go:17-33 | parsing a level's name gives that level |
| `Logging.ParseIdempotent` | easygate/log.go:23-35 | parsing an already parsed level changes nothing |
| `Logging.ParseIsCaseSensitive` | easygate/log.go:34 | "info", "error" and "" select DEBUG |
| `Logging.Threshold` | easygate/log.go:93-104 | exactly the four named levels select a threshold, between zerolog's debug and error |
| `Logging.ThresholdsIncrease` | easygate/log.go:93-104 | DEBUG, INFO, WARN, ERROR select strictly increasing thresholds |
| `Logging.ThresholdInjective` | easygate/log.go:93-104 | distinct named levels select distinct thresholds |
| `Logging.ParsedLevelHasThreshold` | easygate/app.go:50 | the configured level string, once parsed, always selects a threshold |
| `Logging.ToUpper` | easygate/log.go:123 | keeps the length and upper-cases each character in place |
| `Logging.ToUpperIdempotent` | easygate/log.go:123 | upper-casing twice is upper-casing once |
| `Logging.FormatLevel` | easygate/log.go:122-124 | the label is "[" + upper-cased name + "]" and holds no lower-case letter |
| `Logging.LevelLabel` | easygate/log.go:122-124 | zerolog's name of each level is printed as that level's own name in brackets |
| `Logging.ConnectWriter.constructor` | easygate/log.go:54 | a new connect writer has no target and has delivered nothing |
| `Logging.ConnectWriter.Write` | easygate/log.go:110-115 | without a target returns (0, nil) and delivers nothing; with one, passes the bytes unchanged and returns the target's answer |
| `Logging.Logger.constructor` | easygate/log.go:49-71 | a new logger has zerolog's default debug threshold, no attached writer, no attachments yet and nothing delivered |
| `Logging.Logger.Log` | easygate/log.go:77-91 | each call is recorded, and written exactly when its level reaches the threshold |
| `Logging.Logger.SetLevel` | easygate/log.go:93-104 | a named level sets its threshold, any other string leaves it; nothing else changes |
| `Logging.Logger.SetExternalWriter` | easygate/log.go:106-108 | replaces the target and changes nothing already delivered |
| `Logging.WriteAfterAttach` | easygate/log.go:106-115 | after attaching a writer, writes go to it and are recorded under the new attachment only, whose number is above that of every earlier delivery |
| `Gate.StripTrailingNewline` | easygate/server.go:26-28 | removes one final newline when present and leaves any other string unchanged |
| `Gate.StripAppendedNewline` | easygate/server.go:26-28 | stripping undoes appending a newline |
| `Gate.StripRemovesOnlyOne` | easygate/server.go:26-28 | of two final newlines one stays |
| `Gate.LoggerAdapter.constructor` | easygate/server.go:43 | a new adapter has no logger bound |
| `Gate.LoggerAdapter.Printf` | easygate/server.go:23-29 | binds the global logger on first use and logs the stripped format at DEBUG |
| `Gate.ListenAddr` | easygate/server.go:66 | the address is ':' followed by the port |
| `Gate.ProxyConfig.constructor` | easygate/config.go:27-31 | the shared configuration holds the given upstream URL, user name and password |
| `Gate.Server.constructor` | easygate/server.go:38-56 | a new server is stopped, has no service, keeps the PAC engine it was given and a copy of the upstream URL taken at that moment (line 47), and keeps a reference to the shared configuration object, not a copy of its credentials |
| `Gate.Server.Start` | easygate/server.go:58-76 | on a running server only logs "Already running"; otherwise installs a service on ":" + port, starts it, becomes running, and reports a missing PAC |
| `Gate.Server.Stop` | easygate/server.go:78-90 | a no-op when stopped; otherwise shuts down, logs the error and closes when shutdown fails, and always ends stopped |
| `Gate.Server.IsRunning` | easygate/server.go:92-94 | returns the current flag and changes nothing |
| `Gate.Server.HandleRequest` | easygate/server.go:48-51 | every request gets the credentials header built from the user name and password in the configuration at the time of the call; the route is `Proxy` of the URL (transport set at line 41), with a bypass notice logged exactly when direct |
| `Gate.Server.AuthorizeConnect` | easygate/server.go:44-47 | the CONNECT request to the upstream carries the credentials in the configuration at the time of the call |
| `Gate.CredentialsEditedWhileStopped` | easygate/server.go:44-51 | credentials written into the configuration while the server is stopped are the ones sent on the first request after the next start |
| `Gate.StartTwice` | easygate/server.go:58-76 | two starts in a row start one listener, and the second only logs "Already running" |
| `Gate.RestartAfterFailedShutdown` | easygate/server.go:78-90 | after a failed shutdown the server is stopped and the next start installs and starts a new service |

## Left out

- The goroutine in `Start`, `ListenAndServe`, its panic on a bind error (which ends the whole process) and the 10-second shutdown deadline are concurrency, process exit and timing. `Gate.Server.Start` records its effects ("Start service..." and the listen step) as if the goroutine ran at once.
- goproxy's request forwarding, CONNECT tunnelling and byte relay are a foreign library and network I/O. The server keeps the dialer's target as `Gate.Server.upstreamUrl`, but dialing it is not modelled. Only the dialer's request handler is, as `Gate.Server.AuthorizeConnect`.
- PAC evaluation by gpac, `gpac.New` and `loadPac`'s file reading are a JavaScript engine and file I/O. The engine is a parameter of the server, and no engine stands for a PAC that failed to load.
- `http.ProxyFromEnvironment` reads the process environment. The model returns only the choice `FromEnvironment`.
- URL parsing is not modelled. `isDirect` sees the URL as its string form (`url.String()`).
- `Logging.Logger.Log` takes a finished message string. Go's `Msgf` formatting with arguments (`easygate/log.go:77-91`) is not modelled.
- `Gate.LoggerAdapter.Printf`: the message the model logs is the format string with one trailing newline removed, without its arguments substituted. Go passes the arguments on to `Msgf` (`easygate/server.go:28`, `easygate/log.go:78`), and goproxy always supplies them.
- `Logging.ToUpper` upper-cases ASCII letters only, where Go's `strings.ToUpper` follows Unicode. Level names are ASCII.
- `BasicAuth.SetHeader` does not canonicalise header names. `Proxy-Authorization` is already canonical.
- zerolog's console and file writers, timestamps, lumberjack file rotation, and the construction of the global logger (working directory, file path) are I/O and a foreign library. The connection between the logger and its `ConnectWriter` is therefore not modelled.
- The terminal UI (`easygate/app.go`) and configuration storage (`easygate/config.go`) are outside the core. The configuration enters as the shared `ProxyConfig` object. Its listen port, the PAC engine built from the PAC file, and the log level enter as parameters. Saving it to disk is not modelled.
- Race-freedom of the unguarded running flag is not modelled. The model is sequential.
- `Routing.IsDirect` treats the PAC engine as a function of the URL alone. EasyGate runs the PAC script again on every request (`easygate/server.go:100`). A script whose answer depends on the time or on DNS (`timeRange`, `weekdayRange`, `dnsResolve`, `isInNet`, `myIpAddress`) can route one URL differently on different requests. The model does not capture this.
