/**
  * The proxy server: its Stopped/Running lifecycle, the request handler that
  * injects credentials and routes by PAC, and the adapter that feeds the proxy
  * library's log lines into the logger.
  */
module Gate {
  import opened Wrappers
  import opened Bytes
  import opened BasicAuth
  import opened Routing
  import opened Logging

  /**
    * The adapter's regular expression `\n$` with replacement "": `$` matches
    * only at the very end of the text, so at most one final newline goes.
    */
  function StripTrailingNewline(format: string): (r: string)
    ensures |format| > 0 && format[|format| - 1] == '\n' ==> r + "\n" == format
    ensures !(|format| > 0 && format[|format| - 1] == '\n') ==> r == format
  {
    if |format| > 0 && format[|format| - 1] == '\n' then format[..|format| - 1] else format
  }

  /** Stripping undoes appending one newline. */
  lemma StripAppendedNewline(s: string)
    ensures StripTrailingNewline(s + "\n") == s
  {
    assert (s + "\n")[..|s|] == s;
  }

  /** Exactly one newline goes: of two trailing newlines one stays. */
  lemma StripRemovesOnlyOne(s: string)
    ensures StripTrailingNewline(s + "\n\n") == s + "\n"
  {
    assert s + "\n\n" == (s + "\n") + "\n";
    StripAppendedNewline(s + "\n");
  }

  /**
    * `loggerAdapter`: the proxy library's `Printf` target.  `impl` is bound
    * to the global logger on first use.
    */
  class LoggerAdapter {
    var impl: Logger?

    constructor ()
      ensures impl == null
    {
      impl := null;
    }

    /**
      * `Printf`: binds the global logger `instance` on first use, then logs the
      * format, without its final newline, at DEBUG.
      */
    method Printf(format: string, instance: Logger)
      requires impl == null || impl == instance
      modifies this`impl, instance`requested, instance`written
      ensures impl == instance
      ensures instance.Appended(old(instance.requested), old(instance.written), [LogEntry(DEBUG, StripTrailingNewline(format))])
    {
      if impl == null {
        impl := instance;
      }
      impl.Log(DEBUG, StripTrailingNewline(format));
    }
  }

  /** The `http.Server` a start installs, identified by its listen address. */
  datatype Service = Service(addr: string)

  /** The listener's abstract steps: serving, graceful shutdown, forced close. */
  datatype Step = Listen(addr: string) | Shutdown(addr: string) | Close(addr: string)

  /** The lines the server itself logs. */
  const AlreadyRunning := LogEntry(INFO, "Already running")
  const PacIgnored := LogEntry(INFO, "Pac ignore. Always use proxy.")
  const StartNotice := LogEntry(INFO, "Start service...")
  const StopNotice := LogEntry(INFO, "Stop service...")

  function ShutdownError(err: string): LogEntry {
    LogEntry(ERROR, "Service shutdown error : " + err)
  }

  function BypassNotice(url: string): LogEntry {
    LogEntry(INFO, "Bypass proxy: " + url)
  }

  /** The listen address for a port: every interface, that port. */
  function ListenAddr(port: string): (addr: string)
    ensures |addr| == |port| + 1 && addr[0] == ':' && addr[1..] == port
  {
    ":" + port
  }

  /** Number of `Listen` steps in a trace: how many times a listener was started. */
  function Listens(steps: seq<Step>): (n: nat)
    ensures n <= |steps|
  {
    if steps == [] then 0 else (if steps[0].Listen? then 1 else 0) + Listens(steps[1..])
  }

  lemma {:induction false} ListensAppend(a: seq<Step>, b: seq<Step>)
    ensures Listens(a + b) == Listens(a) + Listens(b)
  {
    if a != [] {
      assert (a + b)[1..] == a[1..] + b;
      ListensAppend(a[1..], b);
    } else {
      assert a + b == b;
    }
  }

  /**
    * The `Proxy` part of the configuration, shared by reference: the server's
    * handlers read it each time they run, and the configuration form writes
    * new values into it while the server is stopped.
    */
  class ProxyConfig {
    var url: string
    var userName: seq<byte>
    var password: seq<byte>

    constructor (url: string, userName: seq<byte>, password: seq<byte>)
      ensures this.url == url && this.userName == userName && this.password == password
    {
      this.url := url;
      this.userName := userName;
      this.password := password;
    }
  }

  /**
    * `Server`: the running flag, the installed service, the PAC engine fixed
    * at construction, the upstream URL copied at construction for the CONNECT
    * dialer, the shared configuration it reads credentials from, and the
    * global logger.  `steps` records the abstract listener steps taken.
    */
  class Server {
    var service: Option<Service>
    var running: bool
    const pac: Option<PacEngine>
    const upstreamUrl: string
    const config: ProxyConfig
    const log: Logger
    ghost var steps: seq<Step>

    /** A running server has a service. */
    ghost predicate Valid()
      reads this
    {
      running ==> service.Some?
    }

    /**
      * `NewServer`: stopped and without service.  The PAC engine is what
      * `gpac.New` made of the PAC file, or none.  The upstream URL is copied
      * once, for the CONNECT dialer; the rest of the configuration is kept by
      * reference, not copied, so later edits to the credentials are seen.
      */
    constructor (pac: Option<PacEngine>, config: ProxyConfig, log: Logger)
      ensures Valid()
      ensures !running && service.None? && steps == []
      ensures this.pac == pac && this.config == config && this.log == log
      ensures upstreamUrl == config.url
    {
      this.pac := pac;
      upstreamUrl := config.url;
      this.config := config;
      this.log := log;
      running := false;
      service := None;
      steps := [];
    }

    /**
      * `Start`: on a running server only logs "Already running".  Otherwise
      * installs a service on ":" + port, becomes running and starts serving;
      * a missing PAC engine is reported first.
      */
    method Start(listenPort: string)
      requires Valid()
      modifies this`service, this`running, this`steps, log`requested, log`written
      ensures Valid() && running
      ensures old(running) ==> service == old(service) && steps == old(steps)
      ensures old(running) ==> log.Appended(old(log.requested), old(log.written), [AlreadyRunning])
      ensures !old(running) ==> service == Some(Service(ListenAddr(listenPort)))
      ensures !old(running) ==> steps == old(steps) + [Listen(ListenAddr(listenPort))]
      ensures !old(running) ==> log.Appended(old(log.requested), old(log.written),
                                             (if pac.None? then [PacIgnored] else []) + [StartNotice])
    {
      if running {
        log.Log(INFO, "Already running");
        return;
      }
      if pac.None? {
        log.Log(INFO, "Pac ignore. Always use proxy.");
      }
      service := Some(Service(ListenAddr(listenPort)));
      running := true;
      steps := steps + [Listen(service.value.addr)];
      log.Log(INFO, "Start service...");
      PassingAppend(if pac.None? then [PacIgnored] else [], [StartNotice], log.threshold);
    }

    /**
      * `Stop`: on a stopped server does nothing.  Otherwise shuts the service
      * down; when shutdown fails (`shutdownErr`) the error is logged and the
      * service closed.  Either way the server ends stopped.
      */
    method Stop(shutdownErr: Option<string>)
      requires Valid()
      modifies this`running, this`steps, log`requested, log`written
      ensures Valid() && !running
      ensures service == old(service)
      ensures !old(running) ==> steps == old(steps)
      ensures !old(running) ==> log.requested == old(log.requested) && log.written == old(log.written)
      ensures old(running) ==>
        var addr := service.value.addr;
        steps == old(steps) + [Shutdown(addr)] + (if shutdownErr.Some? then [Close(addr)] else [])
      ensures old(running) ==>
        log.Appended(old(log.requested), old(log.written),
                     (if shutdownErr.Some? then [ShutdownError(shutdownErr.value)] else []) + [StopNotice])
    {
      if !running {
        return;
      }
      var addr := service.value.addr;
      steps := steps + [Shutdown(addr)];
      var es: seq<LogEntry> := [];
      if shutdownErr.Some? {
        log.Log(ERROR, "Service shutdown error : " + shutdownErr.value);
        es := [ShutdownError(shutdownErr.value)];
        steps := steps + [Close(addr)];
      }
      running := false;
      log.Log(INFO, "Stop service...");
      PassingAppend(es, [StopNotice], log.threshold);
    }

    /** `IsRunning`: the current state, read without change. */
    method IsRunning() returns (r: bool)
      ensures r == running
    {
      r := running;
    }

    /**
      * The handler chain for a plain HTTP request: the `OnRequest` handler
      * adds the credentials the configuration holds now to every request, then
      * the transport's `Proxy` function decides the route, logging a bypass.
      */
    method HandleRequest(req: Request) returns (choice: ProxyChoice)
      modifies req`header, log`requested, log`written
      ensures req.header == SetHeader(old(req.header), ProxyAuthorization, BasicCredentials(config.userName, config.password))
      ensures choice == Proxy(pac, req.url)
      ensures choice == NoProxy <==> IsDirect(pac, req.url)
      ensures log.Appended(old(log.requested), old(log.written),
                           if IsDirect(pac, req.url) then [BypassNotice(req.url)] else [])
    {
      AddBasicAuth(req, config.userName, config.password);
      if IsDirect(pac, req.url) {
        log.Log(INFO, "Bypass proxy: " + req.url);
        choice := NoProxy;
      } else {
        choice := FromEnvironment;
      }
    }

    /**
      * The handler the CONNECT dialer runs on its request to the upstream:
      * the same credentials, read from the configuration when it runs.
      */
    method AuthorizeConnect(req: Request)
      modifies req`header
      ensures req.header == SetHeader(old(req.header), ProxyAuthorization, BasicCredentials(config.userName, config.password))
    {
      AddBasicAuth(req, config.userName, config.password);
    }
  }

  /**
    * A second `Start` right after a first leaves exactly one listener started
    * and the server running; the second call only logs "Already running".
    */
  method StartTwice(s: Server, listenPort: string)
    requires s.Valid() && !s.running
    modifies s`service, s`running, s`steps, s.log`requested, s.log`written
    ensures s.Valid() && s.running
    ensures Listens(s.steps) == Listens(old(s.steps)) + 1
    ensures s.log.requested == old(s.log.requested) + (if s.pac.None? then [PacIgnored] else []) + [StartNotice, AlreadyRunning]
  {
    ghost var before := s.steps;
    s.Start(listenPort);
    s.Start(listenPort);
    ListensAppend(before, [Listen(ListenAddr(listenPort))]);
  }

  /**
    * A failed shutdown still leaves the server usable: a following `Start`
    * installs a new service on the new port and starts it.
    */
  method RestartAfterFailedShutdown(s: Server, err: string, listenPort: string)
    requires s.Valid() && s.running
    modifies s`service, s`running, s`steps, s.log`requested, s.log`written
    ensures s.Valid() && s.running
    ensures s.service == Some(Service(ListenAddr(listenPort)))
    ensures var addr := old(s.service).value.addr;
            s.steps == old(s.steps) + [Shutdown(addr), Close(addr), Listen(ListenAddr(listenPort))]
  {
    s.Stop(Some(err));
    s.Start(listenPort);
  }

  /**
    * Credentials edited while the server is stopped are the ones injected
    * after the next `Start`: the handlers read the shared configuration, so a
    * restart is all it takes for new credentials to apply.
    */
  method CredentialsEditedWhileStopped(s: Server, userName: seq<byte>, password: seq<byte>,
                                       listenPort: string, req: Request) returns (choice: ProxyChoice)
    requires s.Valid() && !s.running
    modifies s.config`userName, s.config`password
    modifies s`service, s`running, s`steps, s.log`requested, s.log`written, req`header
    ensures s.Valid() && s.running
    ensures ProxyAuthorization in req.header && req.header[ProxyAuthorization] == [BasicCredentials(userName, password)]
    ensures choice == Proxy(s.pac, req.url)
  {
    s.config.userName := userName;
    s.config.password := password;
    s.Start(listenPort);
    choice := s.HandleRequest(req);
  }

  /** Filtering distributes over concatenation. */
  lemma {:induction false} PassingAppend(a: seq<LogEntry>, b: seq<LogEntry>, threshold: int)
    ensures Passing(a + b, threshold) == Passing(a, threshold) + Passing(b, threshold)
  {
    if a != [] {
      assert (a + b)[1..] == a[1..] + b;
      PassingAppend(a[1..], b, threshold);
    } else {
      assert a + b == b;
    }
  }
}
