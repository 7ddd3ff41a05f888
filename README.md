# CORS development proxy: request-handler model

`scripts/cors-proxy.js` is a development reverse proxy. A browser frontend calls it instead
of the backend. The proxy forwards each request to one configured `TARGET` and adds
permissive cross-origin (CORS) response headers. This project models that request handler
in Dafny and proves what it does to the response and to the outbound request.

- `wrappers.dfy` (module `Wrappers`): the `Option` type. It stands for JavaScript's
  `undefined` and for a URL constructor that throws.
- `node_http.dfy` (module `NodeHttp`): the parts of Node's `http` runtime the handler
  touches.
  - `HeaderObject` is a plain JavaScript dictionary, such as `req.headers` or a copy of
    it. It supports reading a property, assigning one and deleting one.
  - `IncomingMessage` has a method, a URL and a `HeaderObject`.
  - `ServerResponse` has a status code, a header table, a body and two flags: whether the
    head has been sent and whether the response is finished.
    - `setHeader` stores each header under its lower-cased name, so a later `Vary`
      replaces an earlier `vary`.
    - Once `setHeader` has been used, `writeHead` passes every non-empty key of its
      header argument to `setHeader`, so the upstream wins.
    - Each method reports the exceptions Node throws. `setHeader` throws when the head
      has already been sent. `writeHead` throws in that case too, and also when the
      status code lies outside 100-999.
- `cors_proxy.dfy` (module `CorsProxy`): the handler.
  - `SetCors` and its specification `CorsOverlay`.
  - The origin fallback, `AllowOrigin`.
  - The preflight branch.
  - Path normalisation, `NormalisePath`.
  - Port and client selection, `SelectPort` and `SelectClient`.
  - The copy-and-edit of the inbound headers: `RewriteHeaders`, specified by
    `OutboundHeaders`.
  - The `opts` record, `BuildOptions`.
  - The synchronous handler `Handle`.
  - The two listeners, `OnUpstreamResponse` and `OnUpstreamError`.
  - `Serve`, which runs one request on a fresh response. The upstream's behaviour is an
    input: no reply, a response, an error, or a response followed by an error.
  - Five client methods show what a caller can conclude from the contracts alone.

Facts about the code that the contracts make explicit:

- There is a single upstream, `TARGET` (`scripts/cors-proxy.js:20`). Every forwarded
  request goes to its protocol, host name and port.
- `new URL(path, targetUrl)` (line 42) runs before any header or status is set. When it
  throws, for example on a path such as `//`, nothing in the handler catches the
  exception. The request listener throws, and the process ends (`Crashed(UrlRejected)`).
- `client.request(opts, …)` (line 63) throws when the target's protocol is neither
  `http:` nor `https:`, because the client chosen at line 61 accepts only its own
  scheme. Nothing catches that exception either, and the response stays untouched
  (`Crashed(ProtocolRejected)`).
- An empty inbound `origin` header counts as absent: `Access-Control-Allow-Origin` is
  then `*` (line 32).
- `setCors` runs before `writeHead(status, proxyRes.headers)` (lines 64-66). An upstream
  header with one of the five CORS names therefore replaces the proxy's value.
  `UpstreamVaryReplacesOrigin` shows this for `vary`. On a forwarded response the five
  CORS headers are guaranteed only when the upstream sends none of them.
- An `error` event after the response head was written makes the first `setHeader` of
  line 71 throw. That exception also ends the process.
- A status code that `writeHead` rejects does the same.

## Model

| member | source | states |
|---|---|---|
| `NodeHttp.LowerIsLowerCase` | scripts/cors-proxy.js:24-28 | a header name lower-cased for storage contains no capital letter, has the same length, and lower-casing it again changes nothing |
| `NodeHttp.Lookup` | scripts/cors-proxy.js:24-28 | reading a header by name finds something exactly when the name's lower-cased slot is filled, and returns that slot's value |
| `NodeHttp.LookupIgnoresCase` | scripts/cors-proxy.js:24-28 | two spellings of a header name that differ only in letter case read the same value |
| `NodeHttp.MergeKeepsUnnamed` | scripts/cors-proxy.js:66 | a header-table slot that no key of the `writeHead` object names keeps what `setHeader` put there |
| `NodeHttp.MergeLastWins` | scripts/cors-proxy.js:66 | the last non-empty key of the `writeHead` object that names a slot decides that slot's entry |
| `NodeHttp.HeaderObject.CopyOf` | scripts/cors-proxy.js:44 | the spread copy is a new object with exactly the source's entries |
| `NodeHttp.HeaderObject.Get` | scripts/cors-proxy.js:32 | reading `req.headers.origin` yields a value exactly when the key is present, and then it is that key's value; `undefined` otherwise |
| `NodeHttp.HeaderObject.Assign` | scripts/cors-proxy.js:46 | the assignment sets one key to the value and keeps every other entry |
| `NodeHttp.HeaderObject.Delete` | scripts/cors-proxy.js:49-50 | `delete` removes the key if present and keeps every other entry |
| `NodeHttp.ServerResponse.SetHeader` | scripts/cors-proxy.js:24-28 | before the head is sent, the value replaces whatever the name's slot held in any letter case and nothing else changes; once it is sent, the call throws and changes nothing |
| `NodeHttp.ServerResponse.WriteHead` | scripts/cors-proxy.js:66 | it throws and changes nothing when the head was already sent or the status lies outside 100-999. Otherwise it fixes the status, merges each non-empty key of the upstream header object into the table in order, the upstream winning, and sends the head; the body is unchanged |
| `NodeHttp.ServerResponse.End` | scripts/cors-proxy.js:37 | `end(chunk)` appends the chunk to the body, sends the head and finishes the response; status and headers are unchanged |
| `CorsProxy.CorsKeysDistinct` | scripts/cors-proxy.js:24-28 | the five CORS header names occupy five different slots, even compared without regard to case |
| `CorsProxy.CorsOriginValue` | scripts/cors-proxy.js:24 | a non-empty origin is written as it is; an empty one is written as `*` |
| `CorsProxy.CorsOverlay` | scripts/cors-proxy.js:23-29 | the table afterwards holds all five CORS headers with their fixed names and values; its slots are the old ones plus the five; every other slot keeps its old entry |
| `CorsProxy.CorsOverlayReadBack` | scripts/cors-proxy.js:24-28 | read back by name, each of the five headers gives its fixed value, and every other name reads as it did before |
| `CorsProxy.CorsOverlayFixesApplied` | scripts/cors-proxy.js:23-29 | a table that already carries the overlay for an origin is left exactly as it is |
| `CorsProxy.CorsOverlayIdempotent` | scripts/cors-proxy.js:23-29 | applying `setCors` twice with one origin gives the same table as applying it once |
| `CorsProxy.CorsOverlayLastWins` | scripts/cors-proxy.js:23-29 | each header is overwritten: a second overlay with another origin gives the table a single overlay with that origin would give |
| `CorsProxy.SetCors` | scripts/cors-proxy.js:23-29 | before the head is sent, the header table becomes the overlay of the old one and nothing else about the response changes; once it is sent, the first `setHeader` throws and the response is unchanged |
| `CorsProxy.AllowOrigin` | scripts/cors-proxy.js:32 | the origin used is never empty; it is the inbound `origin` value when that is present and non-empty, and `*` when it is absent or empty |
| `CorsProxy.AllowOriginSurvivesSetCors` | scripts/cors-proxy.js:24 | the fallback inside `setCors` never changes the handler's origin, so `Access-Control-Allow-Origin` is exactly that origin |
| `CorsProxy.TargetUrl.Host` | scripts/cors-proxy.js:46 | the `host` written into the outbound headers starts with the target's host name; it is exactly the host name when the port is empty, and otherwise continues with `:` and the port |
| `CorsProxy.SelectPort` | scripts/cors-proxy.js:55 | the port is the target's port text exactly when that text is non-empty; otherwise it is 443 exactly when the protocol is `https:`, and 80 in every other case |
| `CorsProxy.SelectClient` | scripts/cors-proxy.js:61 | the `https` client is chosen exactly when the target's protocol is `https:` |
| `CorsProxy.ClientAcceptsExactlyWebSchemes` | scripts/cors-proxy.js:61-63 | the chosen client's own scheme equals the target's protocol exactly when that protocol is `http:` or `https:` |
| `CorsProxy.DefaultPortMatchesClient` | scripts/cors-proxy.js:55-61 | without an explicit port, the default port is 443 exactly when the `https` client is chosen, and 80 exactly when the `http` client is |
| `CorsProxy.NormalisePath` | scripts/cors-proxy.js:41 | the path begins with `/` and ends with the whole request URL; it is the URL itself exactly when the URL starts with `/`, and otherwise one character longer |
| `CorsProxy.NormalisePathIdempotent` | scripts/cors-proxy.js:41 | normalising a normalised path changes nothing |
| `CorsProxy.OutboundHeaders` | scripts/cors-proxy.js:44-50 | `host` is the target's host; neither `origin` nor `referer` is present; the keys are the inbound ones less those two, plus `host`; every other inbound header is carried over unchanged |
| `CorsProxy.RewriteHeaders` | scripts/cors-proxy.js:44-50 | copy-then-edit yields a new object whose entries are the rewritten inbound headers, while `req.headers` keeps its entries |
| `CorsProxy.ForwardedRequestShape` | scripts/cors-proxy.js:52-59 | the `opts` record built by `BuildOptions` keeps the inbound method, the target's protocol, host name and port choice, a `host` header naming the target, no `origin` or `referer`, and every other inbound header |
| `CorsProxy.CompletionStatus` | scripts/cors-proxy.js:66 | a present, non-zero upstream status is passed through; the result is never zero; it is 502 exactly when the upstream status is absent, zero or itself 502 |
| `CorsProxy.ErrorBody` | scripts/cors-proxy.js:73 | the error body is `Proxy error: ` followed by exactly the error's message |
| `CorsProxy.Handle` | scripts/cors-proxy.js:31-62 | `OPTIONS` gets the overlay, status 204, an empty end and no outbound request. Otherwise, if the URL constructor throws, the response is untouched. Otherwise, if the chosen client does not accept the target's protocol, `client.request` throws and the response is untouched. Otherwise the outbound request is built from the normalised path, the rewritten headers, the target, the port rule and the scheme's client, and the response is untouched. The origin is read from `req.headers`, which is never modified |
| `CorsProxy.OnUpstreamResponse` | scripts/cors-proxy.js:63-66 | once the head was sent, it throws having changed nothing. If the status is rejected, it throws after the overlay went in. Otherwise the table is the overlay with the upstream headers merged over it, the status is the upstream's or 502, and the head is sent |
| `CorsProxy.OnUpstreamError` | scripts/cors-proxy.js:70-74 | before the head is sent: the overlay, status 502 and a body ending with `Proxy error: <message>`, then finished; after it, it throws at the first `setHeader` and changes nothing |
| `CorsProxy.UpstreamWithoutCorsKeepsOverlay` | scripts/cors-proxy.js:64-66 | when no upstream header falls into a CORS slot, all five CORS headers survive `writeHead` |
| `CorsProxy.UpstreamCorsHeaderWins` | scripts/cors-proxy.js:64-66 | an upstream header in a CORS slot, the last one for that slot, is what the response reads for that name after `writeHead` |
| `CorsProxy.UpstreamKeepsAllowOrigin` | scripts/cors-proxy.js:64-66 | when no upstream header falls into the `Access-Control-Allow-Origin` slot, that header keeps the proxy's origin after `writeHead`, whatever else the upstream sends |
| `CorsProxy.UpstreamVaryReplacesOrigin` | scripts/cors-proxy.js:64-66 | an upstream `vary: Accept-Encoding` replaces the proxy's `Vary: Origin` and leaves `Access-Control-Allow-Origin` as the proxy set it |
| `CorsProxy.Serve` | scripts/cors-proxy.js:31-76 | one request on a fresh response. `OPTIONS` is answered with 204, an empty body and all five CORS headers. A rejected URL crashes with the response untouched. Otherwise a target protocol other than `http:` or `https:` crashes with the response untouched, and exactly those two protocols give an outbound request, which is the `opts` for the target, with the scheme's client. No reply: waiting, nothing written. An error: 502, `Proxy error: <message>` and all five CORS headers. A response: the upstream status or 502 with the upstream headers merged over the overlay, all five CORS headers kept when the upstream sends none of them, and `Access-Control-Allow-Origin` kept when the upstream does not send that one; or a crash on a rejected status. A response and then an error: a crash, because the head is already sent |

## Left out

- The server and the streams are not modelled: `http.createServer`, `server.listen`,
  the startup log line, and `req.pipe(proxyReq)` / `proxyRes.pipe(res)`
  (`scripts/cors-proxy.js:31`, `67`, `76`, `79-81`). They are network I/O. So the
  forwarded response body is not modelled, and a forwarded response is never finished
  in the model.
- URL parsing is not modelled. `new URL(TARGET)` is replaced by a `TargetUrl` value
  holding the protocol, host name and port text; `Host()` is the URL standard's `host`
  serialisation. `new URL(path, targetUrl)` followed by `pathname + (search || '')`
  is replaced by a `resolve` parameter, with `None` where the constructor throws. Dot
  segments, percent-encoding and `//host` paths belong to that library.
- `NodeHttp.ServerResponse.WriteHead`: the upstream header object is a sequence of
  pairs in key order. Node's other header forms, arrays and a reason phrase, are not
  modelled. The status is checked as an integer; the `statusCode |= 0` coercion of
  non-integers is left out. Node merges the header argument only once `setHeader` has
  created the response's header table; the handler always calls `setCors` first, so the
  path where `writeHead` sends its argument unmerged is not modelled.
- `CorsProxy.Serve`: only the events of the four upstream outcomes are modelled.
  Everything after a crash is left out. So is every event that belongs to the streams:
  an inbound request that aborts, a client that closes early, and errors on
  `proxyRes` itself.
- Process configuration is left out: `Number(process.argv[2]) || 8787` and
  `process.env.TARGET || …` (`scripts/cors-proxy.js:19-20`). The target is a parameter
  and `DefaultTarget` is the built-in fallback. The listening port plays no part in the
  handler.
- `NodeHttp.Lower` only lower-cases ASCII letters. JavaScript's `toLowerCase` also
  lower-cases other Unicode letters, but header names are ASCII tokens.
- `NodeHttp.ServerResponse.SetHeader` does not model Node's rejection of invalid
  header names and values. The handler's own names and values are constants and an
  origin string, and the upstream names and values come from Node's parser.
- Header values are strings. Node's array values, such as repeated `set-cookie`, are
  not modelled.
- Upstream status codes are integers. JavaScript's `NaN`, which `||` also treats as
  false, has no counterpart.
