/**
 * The `InterceptorServer` class: it owns a forwarding proxy listener and a
 * mock listener, builds both in `init`, closes them in `stop`, and
 * `restart`/`start` is `stop` followed by `init`.
 */
module Supervisor {
  import opened Wrappers
  import opened Proxy

  // The defaults the server falls back on.
  const MocksPort := 8082
  const ProxyHost := "http://localhost"
  const ProxyPort := 8081
  const ServiceHost := "http://localhost"
  const ServicePort := 8080

  /** The interceptor callbacks the program passes around. */
  datatype Callback =
    | DefaultCallback                 // `defaultCallback`, see Proxy.DefaultCallback
    | ResponseHandler(origin: string) // `responseHandler(origin)` of the main process

  /** Where fixtures are read from: the `mocks` directory bundled beside the server, or a given path. */
  datatype Directory = BundledMocks | Dir(path: string)

  /** The object `init` destructures; `None` is a property left undefined. */
  datatype Params = Params(
    onProxy: Option<Callback>,
    onMock: Option<Callback>,
    serviceHost: Option<string>,
    servicePort: Option<PortValue>,
    proxyPort: Option<int>,
    mocksPort: Option<int>,
    mocksDirectory: Option<Directory>)

  /** The parameters after defaulting. */
  datatype Config = Config(
    onProxy: Callback,
    onMock: Callback,
    serviceHost: string,
    servicePort: PortValue,
    proxyPort: int,
    mocksPort: int,
    mocksDirectory: Directory)

  const DefaultConfig := Config(DefaultCallback, DefaultCallback, ServiceHost, Num(ServicePort), ProxyPort, MocksPort, BundledMocks)

  function OrElse<T>(o: Option<T>, default: T): T {
    if o.Some? then o.value else default
  }

  /** `init({ ... } = {})`: every property left undefined takes its default. */
  function Resolve(params: Option<Params>): (c: Config)
    ensures params.None? ==> c == DefaultConfig
    ensures c.onProxy == (if params.Some? && params.value.onProxy.Some? then params.value.onProxy.value else DefaultCallback)
    ensures c.onMock == (if params.Some? && params.value.onMock.Some? then params.value.onMock.value else DefaultCallback)
    ensures c.serviceHost == (if params.Some? && params.value.serviceHost.Some? then params.value.serviceHost.value else ServiceHost)
    ensures c.servicePort == (if params.Some? && params.value.servicePort.Some? then params.value.servicePort.value else Num(ServicePort))
    ensures c.proxyPort == (if params.Some? && params.value.proxyPort.Some? then params.value.proxyPort.value else ProxyPort)
    ensures c.mocksPort == (if params.Some? && params.value.mocksPort.Some? then params.value.mocksPort.value else MocksPort)
    ensures c.mocksDirectory == (if params.Some? && params.value.mocksDirectory.Some? then params.value.mocksDirectory.value else BundledMocks)
  {
    if params.None? then DefaultConfig
    else
      var p := params.value;
      Config(
        OrElse(p.onProxy, DefaultCallback),
        OrElse(p.onMock, DefaultCallback),
        OrElse(p.serviceHost, ServiceHost),
        OrElse(p.servicePort, Num(ServicePort)),
        OrElse(p.proxyPort, ProxyPort),
        OrElse(p.mocksPort, MocksPort),
        OrElse(p.mocksDirectory, BundledMocks))
  }

  /** The options handed to dyson for the mock server. */
  datatype DysonOptions = DysonOptions(configDir: Directory, port: int, proxy: bool, proxyHost: string, proxyPort: int)

  /** A middleware registered with `app.use`. */
  datatype Layer =
    | ProxyLayer(target: string, interceptor: Callback) // `getProxyMiddleware(...)`
    | MungJson(interceptor: Callback)                   // `mung.json(onMock)`
    | DysonServices(options: DysonOptions)              // the routes `dyson.registerServices` adds

  /** A listening socket, reduced to whether it is open and how often it was closed. */
  class Listener {
    const port: int
    var listening: bool
    var closeCount: nat

    constructor (port: int)
      ensures this.port == port && listening && closeCount == 0
    {
      this.port := port;
      listening := true;
      closeCount := 0;
    }

    /** `server.close()`; closing a closed server does not throw, it only reports through its callback. */
    method Close()
      modifies this
      ensures !listening && closeCount == old(closeCount) + 1
    {
      listening := false;
      closeCount := closeCount + 1;
    }
  }

  /** An express application, reduced to its middleware stack. */
  class App {
    var layers: seq<Layer>

    constructor ()
      ensures layers == []
    {
      layers := [];
    }

    method Use(layer: Layer)
      modifies this
      ensures layers == old(layers) + [layer]
    {
      layers := layers + [layer];
    }

    method Listen(port: int) returns (server: Listener)
      ensures fresh(server) && server.port == port && server.listening && server.closeCount == 0
    {
      server := new Listener(port);
    }
  }

  /** The mock server's stack: the interceptor first, then dyson's routes with their fallback to the proxy. */
  function MocksLayers(c: Config): (layers: seq<Layer>)
    ensures |layers| == 2 && layers[0] == MungJson(c.onMock)
    ensures layers[1].DysonServices? && layers[1].options.proxy
    ensures layers[1].options.proxyHost == ProxyHost && layers[1].options.proxyPort == c.proxyPort
    ensures layers[1].options.configDir == c.mocksDirectory && layers[1].options.port == c.mocksPort
  {
    [MungJson(c.onMock), DysonServices(DysonOptions(c.mocksDirectory, c.mocksPort, true, ProxyHost, c.proxyPort))]
  }

  class InterceptorServer {
    var proxyApp: App?
    var proxyServer: Listener?
    var mocksApp: App?
    var mocksServer: Listener?

    /** The two listener fields never share a handle. */
    ghost predicate Valid()
      reads this
    {
      proxyServer != null && mocksServer != null ==> proxyServer != mocksServer
    }

    ghost function Footprint(): set<object?>
      reads this
    {
      {this, proxyServer, mocksServer}
    }

    /** Both listeners exist and are open. */
    ghost predicate Running()
      reads this, proxyServer, mocksServer
    {
      proxyServer != null && mocksServer != null && proxyServer.listening && mocksServer.listening
    }

    /** What `init` leaves behind for the configuration `c`. */
    ghost predicate Serving(c: Config)
      reads this, proxyApp, proxyServer, mocksApp, mocksServer
    {
      && proxyApp != null && proxyServer != null && mocksApp != null && mocksServer != null
      && proxyServer != mocksServer
      && proxyApp.layers == [ProxyLayer(Target(c.serviceHost, c.servicePort), c.onProxy)]
      && proxyServer.port == c.proxyPort && proxyServer.listening && proxyServer.closeCount == 0
      && mocksApp.layers == MocksLayers(c)
      && mocksServer.port == c.mocksPort && mocksServer.listening && mocksServer.closeCount == 0
    }

    /** `new InterceptorServer(params)` starts the servers at once. */
    constructor (params: Option<Params>)
      ensures Valid() && Running() && Serving(Resolve(params))
      ensures fresh(proxyApp) && fresh(proxyServer) && fresh(mocksApp) && fresh(mocksServer)
    {
      proxyApp, proxyServer, mocksApp, mocksServer := null, null, null, null;
      new;
      Init(params);
    }

    /**
     * `init`: a proxy app forwarding to the service, listening on the proxy
     * port; a mock app listening on the mocks port, whose stack is the
     * `onMock` interceptor followed by the fixtures, falling back to the
     * proxy at `http://localhost` and the proxy port. Listeners held before
     * are dropped, not closed.
     */
    method Init(params: Option<Params>)
      modifies this
      ensures Valid() && Running() && Serving(Resolve(params))
      ensures fresh(proxyApp) && fresh(proxyServer) && fresh(mocksApp) && fresh(mocksServer)
    {
      var c := Resolve(params);
      var proxyMiddleware := ProxyLayer(Target(c.serviceHost, c.servicePort), c.onProxy);
      var newProxyApp := new App();
      newProxyApp.Use(proxyMiddleware);
      var newProxyServer := newProxyApp.Listen(c.proxyPort);

      var newMocksApp := new App();
      var newMocksServer := newMocksApp.Listen(c.mocksPort);
      newMocksApp.Use(MungJson(c.onMock));
      var options := DysonOptions(c.mocksDirectory, c.mocksPort, true, ProxyHost, c.proxyPort);
      newMocksApp.Use(DysonServices(options));

      mocksApp := newMocksApp;
      mocksServer := newMocksServer;
      proxyApp := newProxyApp;
      proxyServer := newProxyServer;
    }

    /** `restart(params)` is `start(params)`. */
    method Restart(params: Option<Params>)
      requires Valid()
      modifies Footprint()
      ensures Valid() && Running() && Serving(Resolve(params))
      ensures fresh(proxyApp) && fresh(proxyServer) && fresh(mocksApp) && fresh(mocksServer)
      ensures old(proxyServer) != null ==> !old(proxyServer).listening && old(proxyServer).closeCount == old(proxyServer.closeCount) + 1
      ensures old(mocksServer) != null ==> !old(mocksServer).listening && old(mocksServer).closeCount == old(mocksServer.closeCount) + 1
    {
      Start(params);
    }

    /** `start(params)`: stop the servers held now, then initialise new ones. */
    method Start(params: Option<Params>)
      requires Valid()
      modifies Footprint()
      ensures Valid() && Running() && Serving(Resolve(params))
      ensures fresh(proxyApp) && fresh(proxyServer) && fresh(mocksApp) && fresh(mocksServer)
      ensures old(proxyServer) != null ==> !old(proxyServer).listening && old(proxyServer).closeCount == old(proxyServer.closeCount) + 1
      ensures old(mocksServer) != null ==> !old(mocksServer).listening && old(mocksServer).closeCount == old(mocksServer.closeCount) + 1
    {
      Stop();
      Init(params);
    }

    /**
     * `stop`: close each listener that is set and delete the matching app.
     * The listener fields stay set, so stopping again closes the same
     * handles once more.
     */
    method Stop()
      requires Valid()
      modifies Footprint()
      ensures Valid() && !Running()
      ensures proxyServer == old(proxyServer) && mocksServer == old(mocksServer)
      ensures proxyServer != null ==> proxyApp == null && !proxyServer.listening && proxyServer.closeCount == old(proxyServer.closeCount) + 1
      ensures proxyServer == null ==> proxyApp == old(proxyApp)
      ensures mocksServer != null ==> mocksApp == null && !mocksServer.listening && mocksServer.closeCount == old(mocksServer.closeCount) + 1
      ensures mocksServer == null ==> mocksApp == old(mocksApp)
    {
      if proxyServer != null {
        proxyServer.Close();
        proxyApp := null;
      }
      if mocksServer != null {
        mocksServer.Close();
        mocksApp := null;
      }
    }
  }

  /** Stopping a started server twice closes each of its listeners twice; the handles stay set throughout. */
  method StopTwice() returns (proxyCloses: nat, mocksCloses: nat, handlesKept: bool)
    ensures proxyCloses == 2 && mocksCloses == 2 && handlesKept
  {
    var s := new InterceptorServer(None);
    var p, m := s.proxyServer, s.mocksServer;
    s.Stop();
    s.Stop();
    proxyCloses, mocksCloses := p.closeCount, m.closeCount;
    handlesKept := s.proxyServer == p && s.mocksServer == m;
  }
}
