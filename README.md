# one-interceptor: the interception server, modelled in Dafny

This project models the core of one-interceptor. It is a developer tool that puts
two HTTP listeners between a client and a backend service:

- a **forwarding proxy** (express + express-http-proxy) that sends every request
  to the service, lets an interceptor callback see and replace every response
  body, strips the `host` response header, and removes `br` from the outgoing
  `accept-encoding`;
- a **mock server** (express + dyson) that serves canned fixtures, runs an
  interceptor over every JSON response, and falls back to the proxy for
  anything it does not serve.

The `InterceptorServer` class owns both listeners: it builds them in `init`,
closes them in `stop`, and `restart`/`start` is `stop` then `init`. The
Electron main process holds at most one such server. It restarts the server
when the renderer asks for a start. It numbers every response it is told
about and forwards each one to the window, if a window exists.

Modules, one concern each:

- `Wrappers`: `Option`, `Result` and the JavaScript exceptions that matter here.
- `Seqs`: order-preserving `filter`.
- `JsObject`: plain objects as lists of properties in insertion order. Covers lookup, property
  assignment (`o[k] = v`), rest-destructuring without a key, and ASCII lower-casing.
- `Json`, `Http`: JSON values, requests, and the express response (a class,
  because the fixture mutates its status).
- `Proxy`: the pure helpers of `interceptorServer.js` and `removeBrotliFromOpts`,
  which mutates its options object in place.
- `Supervisor`: the `InterceptorServer` class over listener and app handles.
- `MainProcess`: the module state of `main.dev.ts` as a class, with the response
  handler and the start-request handler.
- `Mocks`: the sample fixture and its status hook.

`JSON.parse`, `JSON.stringify`, `Buffer.toString('utf8')` and the interceptor
are function-typed parameters of the decorator. Its lemmas state the one
assumption they need, that parsing inverts serializing, as a `requires`.

Behaviour of the code a reader may not expect:

- `stop` does not clear `proxyServer`/`mocksServer`. A second `stop` therefore
  closes the same handles again (`Supervisor.StopTwice`). It is idempotent only
  in the sense that it never throws: Node's `server.close()` on a closed server
  does not throw; it would pass `ERR_SERVER_NOT_RUNNING` to a callback, and
  `stop` passes none.
- `init` does not stop listeners it already holds. Only `start`/`restart` do.
- The mock handler is registered with the origin tag `'mocks'`, not `'mock'`.
  Every origin other than `'proxy'` selects the mock channel.
- The start request passes only the two response handlers. Host, ports and the
  fixture directory always take their defaults.
- The status hook reads `req.params.foo`. The fixture's route `/test` declares
  no `:foo` segment, so express never fills that parameter for it; a query
  string `?foo=999` lands in `req.query`, which the hook does not read.
- A body that is not JSON goes to the interceptor as a string. It is then sent
  as that string serialized as JSON, i.e. quoted
  (`Proxy.DecoratorWithIdentityInterceptor`).

## Model

| member | source | states |
|---|---|---|
| `Proxy.GetHeader` | app/main/interceptorServer/interceptorServer.js:42-47 | the result is the value of the first header whose lower-cased name equals the lower-cased name asked for; it is `null` when no header matches, when that first match's name or value is empty, or when the headers are undefined |
| `Proxy.GetHeaderIgnoresCase` | app/main/interceptorServer/interceptorServer.js:37-46 | two names that lower-case alike give the same answer |
| `Proxy.SplitEncodings` | app/main/interceptorServer/interceptorServer.js:55-57 | `split(/, ?/)` always yields at least one piece and no piece contains a comma |
| `Proxy.SplitJoin` | app/main/interceptorServer/interceptorServer.js:57-60 | splitting a `", "`-join of comma-free tokens gives the tokens back |
| `Proxy.StripBrotli` | app/main/interceptorServer/interceptorServer.js:54-60 | the new value contains no `br` token; when some token other than `br` is present, its tokens are exactly the old tokens other than `br`, in their order, joined by `", "` (every comma is followed by a space); when none is, it is the empty string |
| `Proxy.StripBrotliIdempotent` | app/main/interceptorServer/interceptorServer.js:55-60 | stripping twice equals stripping once |
| `Proxy.StripBrotliDropsBr` | app/main/interceptorServer/interceptorServer.js:49-60 | `gzip, br` becomes `gzip` |
| `Proxy.SplitFrontBare` | app/main/interceptorServer/interceptorServer.js:55-57 | a comma not followed by a space also separates: a comma-free token splits off whole in front of a bare `,` |
| `Proxy.StripBrotliDropsBareBr` | app/main/interceptorServer/interceptorServer.js:55-60 | `gzip,br` becomes `gzip` |
| `Proxy.StripBrotliKeepsParameterisedBr` | app/main/interceptorServer/interceptorServer.js:58-60 | `br;q=1, gzip` is kept whole: only the exact token `br` is dropped |
| `Proxy.RewriteAcceptEncoding` | app/main/interceptorServer/interceptorServer.js:55-61 | afterwards the lower-case key `accept-encoding` holds the stripped value (`""` when there was no such header); every other key keeps its value; distinct keys stay distinct |
| `Proxy.RewriteAcceptEncodingIdempotent` | app/main/interceptorServer/interceptorServer.js:53-62 | a second rewrite leaves the headers as the first left them, including when the value came from a differently-cased `Accept-Encoding` |
| `Proxy.RemoveBrotliFromOpts` | app/main/interceptorServer/interceptorServer.js:53-62 | it rewrites the headers of the options object in place and returns that same object; without options or without a headers object it throws a TypeError and leaves the options as they were |
| `Proxy.Target` | app/main/interceptorServer/interceptorServer.js:66 | the target is the host followed by `:` and the port's text exactly when the port is truthy, else the host alone; a numeric port reads back from the text |
| `Proxy.ParseIntToString` | app/main/interceptorServer/interceptorServer.js:66 | the decimal text of an integer port parses back to that port |
| `Proxy.UserResDecorator` | app/main/interceptorServer/interceptorServer.js:68-92 | fail-open: the upstream bytes go back unchanged exactly when the interceptor or the serializer throws; otherwise the answer is the serialized interceptor result |
| `Proxy.DecoratorDeliversInterceptorValue` | app/main/interceptorServer/interceptorServer.js:84-86 | when text goes out, parsing it gives exactly the value the interceptor returned |
| `Proxy.DecoratorWithIdentityInterceptor` | app/main/interceptorServer/interceptorServer.js:74-86 | with an interceptor that returns its input, a JSON body reaches the client as the same JSON value, and a non-JSON body reaches it as a JSON string of its text |
| `Proxy.UserResHeaderDecorator` | app/main/interceptorServer/interceptorServer.js:93-97 | the result has no `host` key; every other key keeps its value; every entry comes from the input; undefined headers give `{}` |
| `Proxy.DefaultCallback` | app/main/interceptorServer/interceptorServer.js:25-35 | a JSON object gets `modified: true` with its other properties unchanged; any other body comes back as it was |
| `JsObject.Assign` | app/main/interceptorServer/interceptorServer.js:58 | after `o[k] = v`, `o[k]` is `v`, every other key reads as before, existing keys keep their positions, and a new key is appended (which is the `Object.keys` order for keys that do not look like array indices) |
| `JsObject.OmitLookup` | app/main/interceptorServer/interceptorServer.js:95 | rest-destructuring without a key removes that key and keeps every other lookup |
| `Seqs.FilterAppend` | app/main/interceptorServer/interceptorServer.js:58-59 | filtering keeps the relative order of the kept elements |
| `Supervisor.Resolve` | app/main/interceptorServer/interceptorServer.js:114-122 | each of the seven settings is the value passed when it is defined and its default otherwise: `defaultCallback` for both callbacks, `http://localhost` and 8080 for the service, 8081 for the proxy port, 8082 for the mocks port, the bundled mocks directory; with no parameters at all the whole configuration is the default one |
| `Supervisor.MocksLayers` | app/main/interceptorServer/interceptorServer.js:137-156 | the `onMock` interceptor is registered before the fixture routes; dyson reads fixtures from the chosen directory, serves on the chosen mocks port, and falls back to `http://localhost` at the chosen proxy port |
| `Supervisor.InterceptorServer.constructor` | app/main/interceptorServer/interceptorServer.js:105-108 | construction ends with both servers present, fresh and listening |
| `Supervisor.InterceptorServer.Init` | app/main/interceptorServer/interceptorServer.js:114-167 | a fresh proxy app forwarding to the service target, listening on the proxy port, and a fresh mock app with the layers above, listening on the mocks port |
| `Supervisor.InterceptorServer.Restart` | app/main/interceptorServer/interceptorServer.js:173-175 | same outcome as `Start`: old listeners closed, new ones serving the new configuration |
| `Supervisor.InterceptorServer.Start` | app/main/interceptorServer/interceptorServer.js:181-186 | each listener held before is closed once more, and the server then serves the new configuration on fresh listeners |
| `Supervisor.InterceptorServer.Stop` | app/main/interceptorServer/interceptorServer.js:191-202 | each present listener is closed once more and its app deleted; the listener fields keep their handles; nothing is running afterwards |
| `Supervisor.StopTwice` | app/main/interceptorServer/interceptorServer.js:191-202 | stopping twice closes each listener twice and both handles stay set |
| `MainProcess.ChannelFor` | app/main.dev.ts:176-179 | origin `'proxy'` selects the proxy channel and every other origin the mock channel |
| `MainProcess.SnapshotRequest` | app/main.dev.ts:184 | without a request, method, url and headers are undefined; with one, they are its own |
| `MainProcess.SnapshotStatus` | app/main.dev.ts:185 | without a response the status code is undefined, with one it is the response's |
| `MainProcess.MainProcessState.constructor` | app/main.dev.ts:31-33 | the process starts with no window, no server and a count of 0 |
| `MainProcess.MainProcessState.HandleResponse` | app/main.dev.ts:175-202 | the count goes up by exactly 1; the body comes back unmodified; a window, if there is one, receives one message on the origin's channel whose id is the new count; ids sent remain strictly increasing |
| `MainProcess.MainProcessState.ServerStartPrompt` | app/main.dev.ts:207-233 | a held server is restarted in place, its old listeners each closed once more before new ones start, otherwise a fresh one is created; it serves the two response handlers; the count and the ids sent are untouched; the reply is `true` |
| `MainProcess.StartConfiguration` | app/main.dev.ts:207-233 | the server the start request runs uses the two response handlers with the default service `http://localhost:8080`, proxy port 8081, mocks port 8082 and the bundled fixtures |
| `MainProcess.MainProcessState.WindowCreated` | app/main.dev.ts:65-79 | a new window with nothing sent yet becomes `mainWindow` |
| `MainProcess.MainProcessState.WindowClosed` | app/main.dev.ts:97-99 | closing the window resets `mainWindow` to null and keeps the count |
| `Mocks.TestFixtureShape` | app/main/interceptorServer/mocks/index.js:1-13 | the fixture is bound to `GET /test` and its template has the single property `toto: true` |
| `Mocks.Status` | app/main/interceptorServer/mocks/index.js:4-9 | the status becomes 404 exactly when the parameter `foo` is `'999'`, and stays as it was otherwise; `next` is called exactly once |
| `Mocks.Serve` | app/main/interceptorServer/mocks/index.js:1-13 | the body is the template whatever status the hook chose |

## Left out

- express, express-http-proxy, express-mung, dyson and decompress-response are
  modelled only at their interfaces. Listeners are handles with an open flag and
  a close count. Apps are middleware lists. Dyson's routes are the options
  record handed to it. Socket I/O, forwarding, route matching, loading
  fixtures from disk, and express-mung's own handling of what `onMock` returns
  are not modelled.
- A port that is already bound is not modelled. Node reports it as an
  asynchronous `error` event on the listener, not as a failure of `init`.
- `JSON.parse`, `JSON.stringify`, UTF-8 decoding and the interceptor are
  parameters, not definitions. `stringify` returning `undefined` is not
  modelled.
- JSON numbers are integers. Floating point, and the port values `NaN` or
  fractional numbers, are not modelled.
- `JsObject.Assign`: objects keep insertion order, while `Object.keys` lists
  keys that look like array indices (`"0"`, `"42"`) first, in ascending
  order. No key the program assigns or omits (`accept-encoding`, `modified`,
  `host`) looks like one; header lookups and the JSON objects an interceptor
  sees are not reordered for such keys.
- `Proxy.GetHeader`: case folding is ASCII only. JavaScript's `toLowerCase`
  also folds non-ASCII letters.
- `Supervisor.Resolve`: `None` stands for an omitted argument or property
  (`undefined`). `init(null)`, which the parameter's documentation allows,
  throws a TypeError at the parameter destructuring, so `start(null)` and
  `restart(null)` would end with the old listeners closed and no new ones; a
  property passed as `null` is kept rather than defaulted. None of this is
  modelled; no caller passes `null`.
- Header values are strings, and the empty string is the only falsy one. Array
  and numeric header values are not modelled. A `null` object is treated like
  an undefined one, although `Object.keys(null)` would throw.
- `Proxy.DefaultCallback`: it mutates the body in place in the source; the
  model returns the updated value. The decorator parses a fresh value and only
  uses the callback's result, so nothing else could observe the difference.
  The `console.log` line it writes is left out, like all logging.
- The callbacks that `init` can receive are the two the program uses:
  `defaultCallback` and `responseHandler(origin)`.
- `MOCKS_DIRECTORY` is `path.join(__dirname, 'mocks')`. The model names it
  `BundledMocks` instead of computing the path.
- Electron plumbing in `main.dev.ts` is out: window options and loading, the
  auto-updater, dev-tool installation, the file and directory dialogs, and IPC
  transport. Of the window, only its creation, its closing and the messages it
  is sent are kept.
- Request handling is asynchronous in the source. Here every call is one
  sequential step.
- app/shared/utils/config.ts and the renderer components are not part of this
  model.
