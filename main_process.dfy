/**
 * The Electron main process's share of the interception server: the
 * module-level state (`mainWindow`, `server`, `responseCount`), the
 * response handler the servers call back into, and the handler of the
 * renderer's start-server request.
 */
module MainProcess {
  import opened Wrappers
  import opened Json
  import opened Http
  import opened Supervisor

  const ProxyOrigin := "proxy"
  const MocksOrigin := "mocks"

  /** The IPC channels an exchange can be announced on. */
  datatype Channel = ServerOnProxyResponse | ServerOnMockResponse

  /** `origin === 'proxy' ? SERVER_ON_PROXY_RESPONSE : SERVER_ON_MOCK_RESPONSE`. */
  function ChannelFor(origin: string): (c: Channel)
    ensures c == ServerOnProxyResponse <==> origin == ProxyOrigin
    ensures c == ServerOnMockResponse <==> origin != ProxyOrigin
  {
    if origin == ProxyOrigin then ServerOnProxyResponse else ServerOnMockResponse
  }

  /** `const { method, url, headers } = req || {}`: every field undefined without a request. */
  datatype RequestSnapshot = RequestSnapshot(httpMethod: Option<string>, url: Option<string>, headers: Option<Headers>)

  function SnapshotRequest(req: Option<Request>): (s: RequestSnapshot)
    ensures req.None? ==> s == RequestSnapshot(None, None, None)
    ensures req.Some? ==> s.httpMethod == Some(req.value.httpMethod) && s.url == Some(req.value.url)
    ensures req.Some? ==> s.headers == Some(req.value.headers)
  {
    match req
    case None => RequestSnapshot(None, None, None)
    case Some(r) => RequestSnapshot(Some(r.httpMethod), Some(r.url), Some(r.headers))
  }

  /** `const { statusCode } = res || {}`. */
  function SnapshotStatus(res: Response?): (code: Option<int>)
    reads res
    ensures res == null <==> code.None?
    ensures res != null ==> code == Some(res.statusCode)
  {
    if res == null then None else Some(res.statusCode)
  }

  /** The payload sent to the renderer for one response. */
  datatype Exchange = Exchange(body: Json, req: RequestSnapshot, statusCode: Option<int>, id: nat, origin: string)

  datatype Message = Message(channel: Channel, exchange: Exchange)

  /** A browser window, reduced to the messages its web contents were sent. */
  class Window {
    var sent: seq<Message>

    constructor ()
      ensures sent == []
    {
      sent := [];
    }

    /** `webContents.send(channel, exchange)`. */
    method Send(m: Message)
      modifies this
      ensures sent == old(sent) + [m]
    {
      sent := sent + [m];
    }
  }

  /** Ids in `ids` strictly increase and lie between 1 and `count`. */
  ghost predicate IssuedIds(ids: seq<nat>, count: nat) {
    && (forall i, j :: 0 <= i < j < |ids| ==> ids[i] < ids[j])
    && (forall i :: 0 <= i < |ids| ==> 1 <= ids[i] <= count)
  }

  /** The module-level state of the main process. */
  class MainProcessState {
    var mainWindow: Window?
    var server: InterceptorServer?
    var responseCount: nat
    /** The ids of every exchange ever sent to a window, in sending order. */
    ghost var sentIds: seq<nat>

    ghost predicate Valid()
      reads this, server
    {
      && (server != null ==> server.Valid())
      && IssuedIds(sentIds, responseCount)
    }

    ghost function ServerFootprint(): set<object?>
      reads this, server
    {
      if server == null then {} else server.Footprint()
    }

    /** The state at start-up: no window, no server, no response seen. */
    constructor ()
      ensures Valid()
      ensures mainWindow == null && server == null && responseCount == 0 && sentIds == []
    {
      mainWindow := null;
      server := null;
      responseCount := 0;
      sentIds := [];
    }

    /** `createWindow` assigns a new window to `mainWindow`. */
    method WindowCreated()
      requires Valid()
      modifies this
      ensures Valid() && fresh(mainWindow) && mainWindow.sent == []
      ensures server == old(server) && responseCount == old(responseCount) && sentIds == old(sentIds)
    {
      mainWindow := new Window();
    }

    /** The window's `closed` event resets `mainWindow` to null. */
    method WindowClosed()
      requires Valid()
      modifies this
      ensures Valid() && mainWindow == null
      ensures server == old(server) && responseCount == old(responseCount) && sentIds == old(sentIds)
    {
      mainWindow := null;
    }

    /**
     * `responseHandler(origin)(body, req, res)`: count the response, tell the
     * window about it if there is one, and hand the body back unmodified.
     */
    method HandleResponse(origin: string, body: Json, req: Option<Request>, res: Response?) returns (r: Json)
      requires Valid()
      modifies this, mainWindow
      ensures Valid()
      ensures r == body
      ensures responseCount == old(responseCount) + 1
      ensures mainWindow == old(mainWindow) && server == old(server)
      ensures old(mainWindow) != null ==>
        && mainWindow.sent == old(mainWindow.sent) + [Message(ChannelFor(origin),
             Exchange(body, SnapshotRequest(req), old(SnapshotStatus(res)), responseCount, origin))]
        && sentIds == old(sentIds) + [responseCount]
      ensures old(mainWindow) == null ==> sentIds == old(sentIds)
    {
      var event := ChannelFor(origin);
      responseCount := responseCount + 1;
      if mainWindow != null {
        var exchange := Exchange(body, SnapshotRequest(req), SnapshotStatus(res), responseCount, origin);
        mainWindow.Send(Message(event, exchange));
        sentIds := sentIds + [responseCount];
      }
      r := body;
    }

    /** The parameters the start request passes: the two response handlers, nothing else. */
    static const StartParams := Params(Some(ResponseHandler(ProxyOrigin)), Some(ResponseHandler(MocksOrigin)), None, None, None, None, None)

    /**
     * The `SERVER_START_PROMPT` handler: restart the server held, or create
     * the first one, and reply `true`.
     */
    method ServerStartPrompt() returns (reply: bool)
      requires Valid()
      modifies this, ServerFootprint()
      ensures Valid() && reply
      ensures responseCount == old(responseCount) && sentIds == old(sentIds) && mainWindow == old(mainWindow)
      ensures old(server) != null ==> server == old(server)
      ensures old(server) == null ==> fresh(server)
      ensures old(server) != null && old(server.proxyServer) != null ==>
        !old(server.proxyServer).listening && old(server.proxyServer).closeCount == old(server.proxyServer.closeCount) + 1
      ensures old(server) != null && old(server.mocksServer) != null ==>
        !old(server.mocksServer).listening && old(server.mocksServer).closeCount == old(server.mocksServer.closeCount) + 1
      ensures server != null && server.Running() && server.Serving(Resolve(Some(StartParams)))
    {
      var serverParams := StartParams;
      if server != null {
        server.Restart(Some(serverParams));
      } else {
        server := new InterceptorServer(Some(serverParams));
      }
      reply := true;
    }
  }

  /**
   * What the start request configures: the two response handlers, and the
   * default service, ports and fixture directory.
   */
  lemma StartConfiguration()
    ensures Resolve(Some(MainProcessState.StartParams)) == DefaultConfig.(onProxy := ResponseHandler(ProxyOrigin), onMock := ResponseHandler(MocksOrigin))
    ensures Resolve(Some(MainProcessState.StartParams)).serviceHost == "http://localhost"
    ensures Resolve(Some(MainProcessState.StartParams)).servicePort.Num? && Resolve(Some(MainProcessState.StartParams)).servicePort.n == 8080
    ensures Resolve(Some(MainProcessState.StartParams)).proxyPort == 8081 && Resolve(Some(MainProcessState.StartParams)).mocksPort == 8082
  {
  }
}
