/**
 The request handler of the development CORS proxy: the CORS header overlay, the
 preflight short-cut, the description of the outbound request (path, port, client,
 rewritten headers) and the ways a forwarded request completes or ends the process.
 */
module CorsProxy {

  import opened Wrappers
  import opened NodeHttp

  // The five response headers of the CORS overlay, as the handler spells them.
  const AllowOriginName := "Access-Control-Allow-Origin"
  const VaryName := "Vary"
  const AllowMethodsName := "Access-Control-Allow-Methods"
  const AllowHeadersName := "Access-Control-Allow-Headers"
  const AllowCredentialsName := "Access-Control-Allow-Credentials"

  const VaryValue := "Origin"
  const AllowMethodsValue := "GET,POST,PUT,DELETE,OPTIONS"
  const AllowHeadersValue := "Content-Type, Authorization, X-Requested-With"
  const AllowCredentialsValue := "true"

  const Preflight := "OPTIONS"
  const NoContent := 204
  const BadGateway := 502
  const ErrorPrefix := "Proxy error: "

  /** The slots of a response header table that the overlay writes. */
  function CorsKeys(): set<string>
  {
    {Lower(AllowOriginName), Lower(VaryName), Lower(AllowMethodsName),
     Lower(AllowHeadersName), Lower(AllowCredentialsName)}
  }

  /** The five header names occupy five different slots, even compared case-insensitively. */
  lemma CorsKeysDistinct()
    ensures |CorsKeys()| == 5
    ensures Lower(AllowOriginName) != Lower(VaryName)
    ensures Lower(AllowOriginName) != Lower(AllowMethodsName)
    ensures Lower(AllowOriginName) != Lower(AllowHeadersName)
    ensures Lower(AllowOriginName) != Lower(AllowCredentialsName)
    ensures Lower(VaryName) != Lower(AllowMethodsName)
    ensures Lower(VaryName) != Lower(AllowHeadersName)
    ensures Lower(VaryName) != Lower(AllowCredentialsName)
    ensures Lower(AllowMethodsName) != Lower(AllowHeadersName)
    ensures Lower(AllowMethodsName) != Lower(AllowCredentialsName)
    ensures Lower(AllowHeadersName) != Lower(AllowCredentialsName)
  {
    assert Lower(AllowMethodsName)[21] == LowerChar('M') == 'm';
    assert Lower(AllowHeadersName)[21] == LowerChar('H') == 'h';
  }

  /** `origin || '*'` inside `setCors`: an empty origin falls back to the wildcard. */
  function CorsOriginValue(origin: string): (v: string)
    ensures v != ""
    ensures origin != "" ==> v == origin
    ensures origin == "" ==> v == "*"
  {
    if origin == "" then "*" else origin
  }

  /** The table holds all five CORS headers, spelled and valued as `setCors` writes them. */
  predicate CorsApplied(t: map<string, HeaderEntry>, origin: string)
  {
    && Lower(AllowOriginName) in t && t[Lower(AllowOriginName)] == HeaderEntry(AllowOriginName, CorsOriginValue(origin))
    && Lower(VaryName) in t && t[Lower(VaryName)] == HeaderEntry(VaryName, VaryValue)
    && Lower(AllowMethodsName) in t && t[Lower(AllowMethodsName)] == HeaderEntry(AllowMethodsName, AllowMethodsValue)
    && Lower(AllowHeadersName) in t && t[Lower(AllowHeadersName)] == HeaderEntry(AllowHeadersName, AllowHeadersValue)
    && Lower(AllowCredentialsName) in t && t[Lower(AllowCredentialsName)] == HeaderEntry(AllowCredentialsName, AllowCredentialsValue)
  }

  /** The header table after the five `setHeader` calls of `setCors`, in the source's order. */
  function CorsOverlay(t: map<string, HeaderEntry>, origin: string): (r: map<string, HeaderEntry>)
    ensures CorsApplied(r, origin)
    ensures r.Keys == t.Keys + CorsKeys()
    ensures forall k :: k in t && k !in CorsKeys() ==> r[k] == t[k]
  {
    CorsKeysDistinct();
    t[Lower(AllowOriginName) := HeaderEntry(AllowOriginName, CorsOriginValue(origin))]
     [Lower(VaryName) := HeaderEntry(VaryName, VaryValue)]
     [Lower(AllowMethodsName) := HeaderEntry(AllowMethodsName, AllowMethodsValue)]
     [Lower(AllowHeadersName) := HeaderEntry(AllowHeadersName, AllowHeadersValue)]
     [Lower(AllowCredentialsName) := HeaderEntry(AllowCredentialsName, AllowCredentialsValue)]
  }

  /** Read back case-insensitively, the overlay answers each CORS header with its fixed value. */
  lemma CorsOverlayReadBack(t: map<string, HeaderEntry>, origin: string)
    ensures Lookup(CorsOverlay(t, origin), AllowOriginName) == Some(CorsOriginValue(origin))
    ensures Lookup(CorsOverlay(t, origin), VaryName) == Some(VaryValue)
    ensures Lookup(CorsOverlay(t, origin), AllowMethodsName) == Some(AllowMethodsValue)
    ensures Lookup(CorsOverlay(t, origin), AllowHeadersName) == Some(AllowHeadersValue)
    ensures Lookup(CorsOverlay(t, origin), AllowCredentialsName) == Some(AllowCredentialsValue)
    ensures forall name :: Lower(name) !in CorsKeys() ==> Lookup(CorsOverlay(t, origin), name) == Lookup(t, name)
  {
  }

  /** A table that already carries the overlay for `origin` is left as it is. */
  lemma CorsOverlayFixesApplied(t: map<string, HeaderEntry>, origin: string)
    requires CorsApplied(t, origin)
    ensures CorsOverlay(t, origin) == t
  {
  }

  /** Applying the overlay twice with the same origin is applying it once. */
  lemma CorsOverlayIdempotent(t: map<string, HeaderEntry>, origin: string)
    ensures CorsOverlay(CorsOverlay(t, origin), origin) == CorsOverlay(t, origin)
  {
  }

  /** Each `setHeader` overwrites: a second overlay replaces every value the first one wrote. */
  lemma CorsOverlayLastWins(t: map<string, HeaderEntry>, first: string, second: string)
    ensures CorsOverlay(CorsOverlay(t, first), second) == CorsOverlay(t, second)
  {
  }

  /**
   `setCors(res, origin)`: five `res.setHeader` calls. Before the head is sent they lay
   the overlay over the table and change nothing else; after it, the first one throws.
   */
  method SetCors(res: ServerResponse, origin: string) returns (err: Option<HttpError>)
    requires res.Valid()
    modifies res
    ensures res.Valid()
    ensures err == (if old(res.headersSent) then Some(HeadersAlreadySent) else None)
    ensures err.Some? ==> unchanged(res)
    ensures err.None? ==> res.headers == CorsOverlay(old(res.headers), origin)
    ensures res.statusCode == old(res.statusCode) && res.headersSent == old(res.headersSent)
    ensures res.body == old(res.body) && res.finished == old(res.finished)
  {
    err := res.SetHeader(AllowOriginName, CorsOriginValue(origin));
    if err.Some? {
      return;
    }
    err := res.SetHeader(VaryName, VaryValue);
    err := res.SetHeader(AllowMethodsName, AllowMethodsValue);
    err := res.SetHeader(AllowHeadersName, AllowHeadersValue);
    err := res.SetHeader(AllowCredentialsName, AllowCredentialsValue);
  }

  /** `req.headers.origin || '*'`: the caller's origin when it sent a non-empty one, else the wildcard. */
  function AllowOrigin(origin: Option<string>): (o: string)
    ensures o != ""
    ensures origin.Some? && origin.value != "" ==> o == origin.value
    ensures origin.None? || origin.value == "" ==> o == "*"
  {
    if origin.Some? && origin.value != "" then origin.value else "*"
  }

  /** The handler's own fallback already makes the one inside `setCors` redundant. */
  lemma AllowOriginSurvivesSetCors(origin: Option<string>)
    ensures CorsOriginValue(AllowOrigin(origin)) == AllowOrigin(origin)
  {
  }

  /** The fields of the parsed `TARGET` URL that the handler reads. */
  datatype TargetUrl = TargetUrl(protocol: string, hostname: string, port: string)
  {
    /** The URL's `host`: the host name, followed by `:port` when the port is not the scheme's default. */
    function Host(): (h: string)
      ensures |h| >= |hostname| && h[..|hostname|] == hostname
      ensures h == hostname <==> port == ""
      ensures port != "" ==> h[|hostname|..] == ":" + port
    {
      if port == "" then hostname else hostname + ":" + port
    }
  }

  /** The built-in `TARGET`, `https://backend-production-cc13.up.railway.app`, as the URL parser splits it. */
  const DefaultTarget := TargetUrl("https:", "backend-production-cc13.up.railway.app", "")

  /** `opts.port`: the URL's port text when it has one, otherwise a number. */
  datatype Port = Explicit(text: string) | Default(number: nat)

  /** Which of Node's clients, `http` or `https`, sends the outbound request. */
  datatype Client = HttpClient | HttpsClient

  /** `targetUrl.port || (targetUrl.protocol === 'https:' ? 443 : 80)`. */
  function SelectPort(target: TargetUrl): (p: Port)
    ensures p.Explicit? <==> target.port != ""
    ensures p.Explicit? ==> p.text == target.port
    ensures p.Default? ==> (p.number == 443 || p.number == 80)
    ensures p.Default? ==> (p.number == 443 <==> target.protocol == "https:")
  {
    if target.port != "" then Explicit(target.port)
    else Default(if target.protocol == "https:" then 443 else 80)
  }

  /** `targetUrl.protocol === 'https:' ? https : http`. */
  function SelectClient(target: TargetUrl): (c: Client)
    ensures c == HttpsClient <==> target.protocol == "https:"
  {
    if target.protocol == "https:" then HttpsClient else HttpClient
  }

  /** The one protocol each client's `request` accepts; any other makes it throw `ERR_INVALID_PROTOCOL`. */
  function ClientProtocol(c: Client): string
  {
    match c
    case HttpClient => "http:"
    case HttpsClient => "https:"
  }

  /** The chosen client accepts the target's protocol exactly when that protocol is `http:` or `https:`. */
  lemma ClientAcceptsExactlyWebSchemes(target: TargetUrl)
    ensures ClientProtocol(SelectClient(target)) == target.protocol <==> target.protocol in {"http:", "https:"}
  {
  }

  /** One scheme test drives both choices: without an explicit port, 443 goes with `https` and 80 with `http`. */
  lemma DefaultPortMatchesClient(target: TargetUrl)
    requires target.port == ""
    ensures SelectPort(target) == Default(if SelectClient(target) == HttpsClient then 443 else 80)
  {
  }

  /** `req.url.startsWith('/') ? req.url : '/' + req.url`. */
  function NormalisePath(url: string): (p: string)
    ensures |p| > 0 && p[0] == '/'
    ensures |p| >= |url| && p[|p| - |url|..] == url
    ensures |p| == |url| <==> (|url| > 0 && url[0] == '/')
    ensures |p| <= |url| + 1
  {
    if |url| > 0 && url[0] == '/' then url else "/" + url
  }

  /** A path that is already normalised is left as it is. */
  lemma NormalisePathIdempotent(url: string)
    ensures NormalisePath(NormalisePath(url)) == NormalisePath(url)
  {
  }

  /**
   The outbound header dictionary: a copy of the inbound one with `host` set to the
   target's host and `origin` and `referer` removed.
   */
  function OutboundHeaders(inbound: map<string, string>, host: string): (h: map<string, string>)
    ensures "host" in h && h["host"] == host
    ensures "origin" !in h && "referer" !in h
    ensures h.Keys == inbound.Keys - {"origin", "referer"} + {"host"}
    ensures forall k :: k in inbound && k != "host" && k != "origin" && k != "referer" ==> k in h && h[k] == inbound[k]
  {
    inbound["host" := host] - {"origin", "referer"}
  }

  /** `{ ...req.headers }` followed by the in-place edits; `req.headers` itself is untouched. */
  method RewriteHeaders(req: IncomingMessage, host: string) returns (headers: HeaderObject)
    ensures fresh(headers)
    ensures headers.entries == OutboundHeaders(req.headers.entries, host)
    ensures req.headers.entries == old(req.headers.entries)
  {
    headers := new HeaderObject.CopyOf(req.headers);
    headers.Assign("host", host);
    headers.Delete("origin");
    headers.Delete("referer");
  }

  /** `opts` as handed to `client.request`; `headers` is the dictionary as it stands at that call. */
  datatype RequestOptions = RequestOptions(
    protocol: string,
    hostname: string,
    port: Port,
    verb: string,
    path: string,
    headers: map<string, string>)

  function BuildOptions(target: TargetUrl, verb: string, path: string, headers: map<string, string>): RequestOptions
  {
    RequestOptions(target.protocol, target.hostname, SelectPort(target), verb, path, headers)
  }

  /**
   The outbound request goes to the target with the inbound method, a `host` header
   naming the target, neither `origin` nor `referer`, and every other inbound header.
   */
  lemma ForwardedRequestShape(target: TargetUrl, verb: string, path: string, inbound: map<string, string>)
    ensures var opts := BuildOptions(target, verb, path, OutboundHeaders(inbound, target.Host()));
      && opts.verb == verb
      && opts.protocol == target.protocol && opts.hostname == target.hostname
      && opts.port == SelectPort(target)
      && opts.headers["host"] == target.Host()
      && "origin" !in opts.headers && "referer" !in opts.headers
      && forall k :: k in inbound && k !in {"host", "origin", "referer"} ==> k in opts.headers && opts.headers[k] == inbound[k]
  {
  }

  /** `proxyRes.statusCode || 502`: an absent or zero upstream status reads as Bad Gateway. */
  function CompletionStatus(upstream: Option<int>): (s: int)
    ensures s != 0
    ensures upstream.Some? && upstream.value != 0 ==> s == upstream.value
    ensures s == BadGateway <==> (upstream.None? || upstream.value == 0 || upstream.value == BadGateway)
  {
    if upstream.Some? && upstream.value != 0 then upstream.value else BadGateway
  }

  /** `` `Proxy error: ${err.message}` ``. */
  function ErrorBody(message: string): (b: string)
    ensures |b| == |ErrorPrefix| + |message|
    ensures b[..|ErrorPrefix|] == ErrorPrefix
    ensures b[|ErrorPrefix|..] == message
  {
    ErrorPrefix + message
  }

  /** How the synchronous part of the handler ends. */
  datatype Dispatch =
    | Answered                                        // preflight answered locally
    | Forwarded(opts: RequestOptions, client: Client) // outbound request issued
    | Threw(crash: Crash)                             // the handler threw before returning

  /** What the upstream connection does with a forwarded request, as the two listeners see it. */
  datatype UpstreamOutcome =
    | NoReply
    | Responded(status: Option<int>, headers: seq<(string, string)>)
    | Failed(message: string)
    | RespondedThenFailed(status: Option<int>, headers: seq<(string, string)>, message: string)

  /** An exception that escapes one of the handler's listeners; nothing catches it, so the process ends. */
  datatype Crash =
    | UrlRejected           // `new URL(path, targetUrl)` threw
    | ProtocolRejected      // `client.request` threw ERR_INVALID_PROTOCOL
    | ResponseError(error: HttpError)

  /** Where the handling of one request stands once the modelled events have happened. */
  datatype Ending =
    | Preflighted          // 204 sent and finished
    | Streaming            // upstream head written; the body is piped from here on
    | ErrorSent            // 502 with the error text sent and finished
    | Waiting              // outbound request issued, nothing has come back
    | Crashed(crash: Crash)

  /**
   The synchronous part of the request handler, on the fresh response Node hands it.
   `resolve` stands for `new URL(path, targetUrl)` followed by
   `pathname + (search || '')`, with `None` where the URL constructor throws.
   `client.request` throws when the target's protocol is not the client's own. Also
   returns the origin the two listeners capture.
   */
  method Handle(req: IncomingMessage, target: TargetUrl, resolve: string -> Option<string>, res: ServerResponse)
    returns (d: Dispatch, origin: string)
    requires res.Valid() && !res.headersSent
    modifies res
    ensures res.Valid()
    ensures origin == AllowOrigin(req.headers.Get("origin"))
    ensures req.headers.entries == old(req.headers.entries)
    ensures req.verb == Preflight ==>
      && d == Answered
      && res.headers == CorsOverlay(old(res.headers), origin)
      && res.statusCode == NoContent && res.body == old(res.body) && res.finished
    ensures req.verb != Preflight && resolve(NormalisePath(req.url)).None? ==>
      d == Threw(UrlRejected) && unchanged(res)
    ensures (req.verb != Preflight && resolve(NormalisePath(req.url)).Some? &&
             ClientProtocol(SelectClient(target)) != target.protocol) ==>
      d == Threw(ProtocolRejected) && unchanged(res)
    ensures (req.verb != Preflight && resolve(NormalisePath(req.url)).Some? &&
             ClientProtocol(SelectClient(target)) == target.protocol) ==>
      && d == Forwarded(
           BuildOptions(target, req.verb, resolve(NormalisePath(req.url)).value,
                        OutboundHeaders(req.headers.entries, target.Host())),
           SelectClient(target))
      && unchanged(res)
  {
    origin := AllowOrigin(req.headers.Get("origin"));
    if req.verb == Preflight {
      var _ := SetCors(res, origin);
      res.statusCode := NoContent;
      res.End("");
      d := Answered;
      return;
    }
    var path := NormalisePath(req.url);
    var outPath := resolve(path);
    if outPath.None? {
      d := Threw(UrlRejected);
      return;
    }
    var headers := RewriteHeaders(req, target.Host());
    var opts := BuildOptions(target, req.verb, outPath.value, headers.entries);
    var client := SelectClient(target);
    if ClientProtocol(client) != opts.protocol {
      d := Threw(ProtocolRejected);
      return;
    }
    d := Forwarded(opts, client);
  }

  /**
   The `client.request` callback: overlay CORS, then `writeHead` with the upstream
   status (or 502) and the upstream header object, whose keys then overwrite the table.
   */
  method OnUpstreamResponse(res: ServerResponse, origin: string, status: Option<int>, written: seq<(string, string)>)
    returns (err: Option<HttpError>)
    requires res.Valid()
    modifies res
    ensures res.Valid()
    ensures old(res.headersSent) ==> err == Some(HeadersAlreadySent) && unchanged(res)
    ensures !old(res.headersSent) && !ValidStatusCode(CompletionStatus(status)) ==>
      && err == Some(InvalidStatusCode)
      && res.headers == CorsOverlay(old(res.headers), origin)
      && res.statusCode == old(res.statusCode) && !res.headersSent
    ensures !old(res.headersSent) && ValidStatusCode(CompletionStatus(status)) ==>
      && err.None?
      && res.headers == MergeWritten(CorsOverlay(old(res.headers), origin), written)
      && res.statusCode == CompletionStatus(status) && res.headersSent
    ensures res.body == old(res.body) && res.finished == old(res.finished)
  {
    err := SetCors(res, origin);
    if err.Some? {
      return;
    }
    err := res.WriteHead(CompletionStatus(status), written);
  }

  /**
   The `error` listener: overlay CORS, status 502, and a plain-text body naming the
   failure; once the head has been sent, its first `setHeader` throws instead.
   */
  method OnUpstreamError(res: ServerResponse, origin: string, message: string) returns (err: Option<HttpError>)
    requires res.Valid()
    modifies res
    ensures res.Valid()
    ensures old(res.headersSent) ==> err == Some(HeadersAlreadySent) && unchanged(res)
    ensures !old(res.headersSent) ==>
      && err.None?
      && res.headers == CorsOverlay(old(res.headers), origin)
      && res.statusCode == BadGateway
      && res.body == old(res.body) + ErrorBody(message) && res.finished
  {
    err := SetCors(res, origin);
    if err.Some? {
      return;
    }
    res.statusCode := BadGateway;
    res.End(ErrorBody(message));
  }

  /** No non-empty key of the upstream header object falls into one of the five CORS slots. */
  predicate UpstreamAvoidsCors(written: seq<(string, string)>)
  {
    forall i :: 0 <= i < |written| ==> written[i].0 == "" || Lower(written[i].0) !in CorsKeys()
  }

  /** No non-empty key of the upstream header object falls into the slot `k`. */
  predicate UpstreamAvoidsSlot(written: seq<(string, string)>, k: string)
  {
    forall i :: 0 <= i < |written| ==> written[i].0 == "" || Lower(written[i].0) != k
  }

  /** Unless the upstream names it, `Access-Control-Allow-Origin` survives `writeHead`, whatever else the upstream sends. */
  lemma UpstreamKeepsAllowOrigin(t: map<string, HeaderEntry>, written: seq<(string, string)>, origin: string)
    requires UpstreamAvoidsSlot(written, Lower(AllowOriginName))
    ensures Lookup(MergeWritten(CorsOverlay(t, origin), written), AllowOriginName) == Some(CorsOriginValue(origin))
  {
    MergeKeepsUnnamed(CorsOverlay(t, origin), written, Lower(AllowOriginName));
  }

  /** Upstream headers outside the five CORS slots leave the whole overlay in place after `writeHead`. */
  lemma UpstreamWithoutCorsKeepsOverlay(t: map<string, HeaderEntry>, written: seq<(string, string)>, origin: string)
    requires UpstreamAvoidsCors(written)
    ensures CorsApplied(MergeWritten(CorsOverlay(t, origin), written), origin)
  {
    var o := CorsOverlay(t, origin);
    MergeKeepsUnnamed(o, written, Lower(AllowOriginName));
    MergeKeepsUnnamed(o, written, Lower(VaryName));
    MergeKeepsUnnamed(o, written, Lower(AllowMethodsName));
    MergeKeepsUnnamed(o, written, Lower(AllowHeadersName));
    MergeKeepsUnnamed(o, written, Lower(AllowCredentialsName));
  }

  /** An upstream header in a CORS slot replaces the value `setCors` wrote there. */
  lemma UpstreamCorsHeaderWins(t: map<string, HeaderEntry>, written: seq<(string, string)>, origin: string, i: int)
    requires 0 <= i < |written| && written[i].0 != "" && Lower(written[i].0) in CorsKeys()
    requires forall j :: i < j < |written| ==> written[j].0 == "" || Lower(written[j].0) != Lower(written[i].0)
    ensures Lookup(MergeWritten(CorsOverlay(t, origin), written), written[i].0) == Some(written[i].1)
  {
    MergeLastWins(CorsOverlay(t, origin), written, i);
  }

  /** For instance, an upstream `vary: Accept-Encoding` replaces the proxy's `Vary: Origin` and leaves the allowed origin alone. */
  lemma UpstreamVaryReplacesOrigin(t: map<string, HeaderEntry>, origin: string)
    ensures Lookup(MergeWritten(CorsOverlay(t, origin), [("vary", "Accept-Encoding")]), VaryName) == Some("Accept-Encoding")
    ensures Lookup(MergeWritten(CorsOverlay(t, origin), [("vary", "Accept-Encoding")]), AllowOriginName) == Some(CorsOriginValue(origin))
  {
    assert |Lower("vary")| == 4 != |Lower(AllowOriginName)|;
    UpstreamKeepsAllowOrigin(t, [("vary", "Accept-Encoding")], origin);
    assert Lower("vary") == Lower(VaryName) by {
      assert LowerChar('V') == 'v';
    }
    UpstreamCorsHeaderWins(t, [("vary", "Accept-Encoding")], origin, 0);
  }

  /**
   One request from arrival to the point the modelled events leave it: a fresh response,
   the handler, and then whichever listeners the upstream's behaviour triggers.
   */
  method Serve(req: IncomingMessage, target: TargetUrl, resolve: string -> Option<string>, outcome: UpstreamOutcome)
    returns (res: ServerResponse, d: Dispatch, ending: Ending)
    ensures fresh(res) && res.Valid()
    ensures req.headers.entries == old(req.headers.entries)
    ensures d.Answered? <==> req.verb == Preflight
    ensures d == Threw(UrlRejected) <==> req.verb != Preflight && resolve(NormalisePath(req.url)).None?
    ensures d == Threw(ProtocolRejected) <==>
      req.verb != Preflight && resolve(NormalisePath(req.url)).Some? &&
      target.protocol !in {"http:", "https:"}
    ensures d.Forwarded? <==>
      req.verb != Preflight && resolve(NormalisePath(req.url)).Some? &&
      target.protocol in {"http:", "https:"}
    ensures d.Forwarded? ==>
      d == Forwarded(
        BuildOptions(target, req.verb, resolve(NormalisePath(req.url)).value,
                     OutboundHeaders(req.headers.entries, target.Host())),
        SelectClient(target))
    ensures d.Answered? ==>
      ending == Preflighted && res.statusCode == NoContent && res.body == "" && res.finished
    ensures d.Threw? ==>
      ending == Crashed(d.crash) && res.headers == map[] && res.statusCode == 200 && !res.headersSent
    ensures ending.Preflighted? || ending.ErrorSent? ==>
      && CorsApplied(res.headers, AllowOrigin(req.headers.Get("origin")))
      && res.GetHeader(AllowOriginName) == Some(AllowOrigin(req.headers.Get("origin")))
    ensures d.Forwarded? && outcome.NoReply? ==>
      ending == Waiting && res.headers == map[] && !res.headersSent
    ensures d.Forwarded? && outcome.Failed? ==>
      ending == ErrorSent && res.statusCode == BadGateway && res.body == ErrorBody(outcome.message) && res.finished
    ensures d.Forwarded? && (outcome.Responded? || outcome.RespondedThenFailed?) && !ValidStatusCode(CompletionStatus(outcome.status)) ==>
      ending == Crashed(ResponseError(InvalidStatusCode)) && !res.headersSent
    ensures d.Forwarded? && outcome.Responded? && ValidStatusCode(CompletionStatus(outcome.status)) ==>
      && ending == Streaming
      && res.statusCode == CompletionStatus(outcome.status) && res.headersSent && !res.finished
      && res.headers == MergeWritten(CorsOverlay(map[], AllowOrigin(req.headers.Get("origin"))), outcome.headers)
    ensures d.Forwarded? && outcome.RespondedThenFailed? && ValidStatusCode(CompletionStatus(outcome.status)) ==>
      && ending == Crashed(ResponseError(HeadersAlreadySent))
      && res.statusCode == CompletionStatus(outcome.status) && !res.finished
    ensures ending.Streaming? && outcome.Responded? && UpstreamAvoidsCors(outcome.headers) ==>
      CorsApplied(res.headers, AllowOrigin(req.headers.Get("origin")))
    ensures ending.Streaming? && outcome.Responded? && UpstreamAvoidsSlot(outcome.headers, Lower(AllowOriginName)) ==>
      res.GetHeader(AllowOriginName) == Some(AllowOrigin(req.headers.Get("origin")))
  {
    res := new ServerResponse();
    var origin;
    d, origin := Handle(req, target, resolve, res);
    match d {
      case Answered =>
        ending := Preflighted;
        CorsOverlayReadBack(map[], origin);
      case Threw(crash) =>
        ending := Crashed(crash);
        ClientAcceptsExactlyWebSchemes(target);
      case Forwarded(_, _) =>
        match outcome {
          case NoReply =>
            ending := Waiting;
          case Responded(status, headers) =>
            var err := OnUpstreamResponse(res, origin, status, headers);
            ending := if err.Some? then Crashed(ResponseError(err.value)) else Streaming;
            if UpstreamAvoidsCors(headers) {
              UpstreamWithoutCorsKeepsOverlay(map[], headers, origin);
            }
            if UpstreamAvoidsSlot(headers, Lower(AllowOriginName)) {
              UpstreamKeepsAllowOrigin(map[], headers, origin);
            }
          case Failed(message) =>
            var _ := OnUpstreamError(res, origin, message);
            ending := ErrorSent;
            CorsOverlayReadBack(map[], origin);
          case RespondedThenFailed(status, headers, message) =>
            var err := OnUpstreamResponse(res, origin, status, headers);
            if err.None? {
              err := OnUpstreamError(res, origin, message);
            }
            ending := Crashed(ResponseError(err.value));
        }
    }
  }

  /** `GET /health` without an `Origin` header, answered 200 by the upstream, carries `*`. */
  method HealthScenario()
  {
    var inbound := new HeaderObject(map["accept" := "*/*"]);
    var req := new IncomingMessage("GET", "/health", inbound);
    assert DefaultTarget.protocol in {"http:", "https:"};
    assert NormalisePath("/health") == "/health" && "GET" != Preflight;
    assert CompletionStatus(Some(200)) == 200 && UpstreamAvoidsSlot([], Lower(AllowOriginName));
    assert AllowOrigin(inbound.Get("origin")) == "*";
    var res, d, ending := Serve(req, DefaultTarget, p => Some(p), Responded(Some(200), []));
    assert d.Forwarded? && ending == Streaming;
    assert d.client == HttpsClient && d.opts.port == Default(443);
    assert d.opts.path == "/health";
    assert res.statusCode == 200;
    assert res.GetHeader(AllowOriginName) == Some("*");
  }

  /** A preflight from a browser page is answered 204 with its own origin echoed, and nothing is sent upstream. */
  method PreflightScenario()
  {
    var inbound := new HeaderObject(map["origin" := "http://localhost:5000"]);
    var req := new IncomingMessage("OPTIONS", "/api/items", inbound);
    assert DefaultTarget.protocol in {"http:", "https:"};
    var res, d, ending := Serve(req, DefaultTarget, p => Some(p), Failed("unused"));
    assert d == Answered && ending == Preflighted;
    assert res.statusCode == 204 && res.body == "";
    assert res.GetHeader(AllowOriginName) == Some("http://localhost:5000");
  }

  /** A relative URL gains its leading `/`, and the browser's `origin` and `referer` do not travel upstream. */
  method OutboundScenario()
  {
    var inbound := new HeaderObject(map["origin" := "http://localhost:5000", "referer" := "http://localhost:5000/"]);
    var req := new IncomingMessage("POST", "api/login", inbound);
    assert DefaultTarget.protocol in {"http:", "https:"};
    var res, d, ending := Serve(req, DefaultTarget, p => Some(p), NoReply);
    assert d.Forwarded? && ending == Waiting;
    assert d.opts.verb == "POST" && d.opts.path == "/api/login";
    assert d.opts.protocol == "https:" && d.opts.hostname == "backend-production-cc13.up.railway.app";
    assert "origin" !in d.opts.headers && "referer" !in d.opts.headers;
    assert d.opts.headers["host"] == "backend-production-cc13.up.railway.app";
  }

  /** A target whose protocol is neither `http:` nor `https:` makes `client.request` throw; no 502 is sent. */
  method ForeignProtocolScenario()
  {
    var inbound := new HeaderObject(map[]);
    var req := new IncomingMessage("GET", "/health", inbound);
    var res, d, ending := Serve(req, TargetUrl("localhost:", "", ""), p => Some(p), Failed("unused"));
    assert ending == Crashed(ProtocolRejected);
    assert res.statusCode == 200 && !res.headersSent;
  }

  /** An unreachable upstream yields 502, a body starting `Proxy error: `, and the CORS headers. */
  method UnreachableScenario()
  {
    var inbound := new HeaderObject(map["origin" := "http://localhost:5000"]);
    var req := new IncomingMessage("GET", "/health", inbound);
    assert DefaultTarget.protocol in {"http:", "https:"};
    assert NormalisePath("/health") == "/health" && "GET" != Preflight;
    assert AllowOrigin(inbound.Get("origin")) == "http://localhost:5000";
    var res, d, ending := Serve(req, DefaultTarget, p => Some(p), Failed("connect ECONNREFUSED"));
    assert d.Forwarded? && ending == ErrorSent;
    assert res.statusCode == 502 && res.body == ErrorBody("connect ECONNREFUSED");
    assert res.body[..|ErrorPrefix|] == "Proxy error: ";
    assert res.GetHeader(AllowOriginName) == Some("http://localhost:5000");
  }
}
