/** The edge router (worker/src/index.js): a stateless `fetch` handler.

    `/api/debug` answers with a diagnostic JSON document; `/api/visitorCount`
    is proxied to the increment backend (POST) or the read backend (any other
    method), with a permissive CORS header added to what comes back; every
    other path is proxied to the static-site origin, with the root mapped to
    `/index.html`, the Host header forced to the origin's host and redirects
    handed back to the caller. A failed outbound fetch becomes 502 Bad Gateway
    (section 15.6.3 of RFC 9110).

    URLs are records of host, pathname and search as the URL parser yields
    them; header maps are keyed by lower-case name, as `Headers` stores them.
    The network is the `upstream` function: what a given outbound request gets
    back, a response or a thrown error with its message. */
module Worker {
  import opened Wrappers

  const DebugPath := "/api/debug"
  const CounterPath := "/api/visitorCount"
  const OriginHost := "storagesamueladebodunv2.z19.web.core.windows.net"
  const IndexPath := "/index.html"

  const HostHeader := "host"
  const AllowOriginHeader := "access-control-allow-origin"
  const ContentTypeHeader := "content-type"

  const DebugMessage := "If you see this, the Worker is running and variables are loaded."

  datatype Url = Url(host: string, pathname: string, search: string)

  datatype Request = Request(httpMethod: string, url: Url, headers: map<string, string>, body: string)

  /** The worker's environment variables; None when a variable is not set. */
  datatype Env = Env(storageUrl: Option<string>, functionUrl: Option<string>, incrementUrl: Option<string>)

  datatype Target = FunctionUrl(address: string) | OriginUrl(location: Url)

  datatype Redirect = Follow | Manual

  /** A request the worker sends; `body` is None when it forwards none. */
  datatype Outbound = Outbound(target: Target, httpMethod: string, headers: map<string, string>, body: Option<string>, redirect: Redirect)

  datatype Upstream = Fetched(status: int, headers: map<string, string>, body: string) | FetchFailed(message: string)

  /** `Relayed` is a body streamed through from upstream. */
  datatype Body =
    | DebugInfo(storageUrl: Option<string>, functionUrl: Option<string>, message: string)
    | Text(text: string)
    | Relayed(content: string)

  datatype Response = Response(status: int, headers: map<string, string>, body: Body)

  datatype Route = DebugRoute | CounterRoute | StaticRoute

  function RouteOf(pathname: string): (r: Route)
    ensures r == DebugRoute <==> pathname == DebugPath
    ensures r == CounterRoute <==> pathname == CounterPath
  {
    if pathname == DebugPath then DebugRoute
    else if pathname == CounterPath then CounterRoute
    else StaticRoute
  }

  /** JavaScript truthiness of an environment variable: set and non-empty. */
  predicate Configured(v: Option<string>) {
    v.Some? && v.value != ""
  }

  datatype Backend = Backend(url: string) | Unset(variable: string)

  /** The backend for a counter request: the increment URL for POST, the
      read URL for every other method, or the name of the missing variable. */
  function BackendFor(httpMethod: string, env: Env): (b: Backend)
    ensures httpMethod == "POST" ==> (b.Backend? <==> Configured(env.incrementUrl))
    ensures httpMethod == "POST" && b.Backend? ==> b.url == env.incrementUrl.value
    ensures httpMethod == "POST" && b.Unset? ==> b.variable == "AZURE_INCREMENT_URL"
    ensures httpMethod != "POST" ==> (b.Backend? <==> Configured(env.functionUrl))
    ensures httpMethod != "POST" && b.Backend? ==> b.url == env.functionUrl.value
    ensures httpMethod != "POST" && b.Unset? ==> b.variable == "AZURE_FUNCTION_URL"
  {
    if httpMethod == "POST" then
      if Configured(env.incrementUrl) then Backend(env.incrementUrl.value) else Unset("AZURE_INCREMENT_URL")
    else
      if Configured(env.functionUrl) then Backend(env.functionUrl.value) else Unset("AZURE_FUNCTION_URL")
  }

  function NotSetMessage(variable: string): string {
    "Error: " + variable + " is not set in Cloudflare."
  }

  /** `new URL(pathname + search, AZURE_ORIGIN)` for a pathname that is
      resolved as an absolute path on the origin (see ResolveAsWritten for
      one that is not). The base's path is "/", so an empty pathname gives "/"
      and a relative one is placed under "/". */
  function ResolveOnOrigin(pathname: string, search: string): (u: Url)
    ensures u.host == OriginHost && u.search == search
    ensures |pathname| > 0 && pathname[0] == '/' ==> u.pathname == pathname
    ensures |u.pathname| > 0 && u.pathname[0] == '/'
  {
    var path := if |pathname| > 0 && pathname[0] == '/' then pathname else "/" + pathname;
    Url(OriginHost, path, search)
  }

  /** Where a static request goes: the origin, with the request's pathname
      and search, the root (`/` or empty) mapped to `/index.html`. */
  function StaticTarget(url: Url): (u: Url)
    ensures u.host == OriginHost && u.search == url.search
    ensures url.pathname == "/" || url.pathname == "" ==> u.pathname == IndexPath
    ensures url.pathname != "/" && |url.pathname| > 0 && url.pathname[0] == '/' ==> u.pathname == url.pathname
  {
    var resolved := ResolveOnOrigin(url.pathname, url.search);
    if resolved.pathname == "/" || resolved.pathname == "" then resolved.(pathname := IndexPath) else resolved
  }

  /** `fetch`. `sent` is the outbound request the worker makes, None when it makes none. */
  method Fetch(request: Request, env: Env, upstream: Outbound -> Upstream) returns (response: Response, sent: Option<Outbound>)
    // The debug route answers for every method, before any other route.
    ensures request.url.pathname == DebugPath ==>
              && sent == None
              && response == Response(200, map[ContentTypeHeader := "application/json"],
                                      DebugInfo(env.storageUrl, env.functionUrl, DebugMessage))
    // A counter request whose backend variable is unset fails closed, naming it, with no fetch.
    ensures request.url.pathname == CounterPath && BackendFor(request.httpMethod, env).Unset? ==>
              && sent == None
              && response == Response(500, map[], Text(NotSetMessage(BackendFor(request.httpMethod, env).variable)))
    // Otherwise it forwards method and headers, not the body, and relays the
    // backend's answer with the CORS header added, or 502 when the fetch throws.
    ensures request.url.pathname == CounterPath && BackendFor(request.httpMethod, env).Backend? ==>
              && sent == Some(Outbound(FunctionUrl(BackendFor(request.httpMethod, env).url),
                                       request.httpMethod, request.headers, None, Follow))
              && match upstream(sent.value)
                 case Fetched(status, headers, body) =>
                   response == Response(status, headers[AllowOriginHeader := "*"], Relayed(body))
                 case FetchFailed(message) =>
                   response == Response(502, map[], Text("Error fetching from function: " + message))
    // Every other path goes to the origin with method, headers and body, the
    // Host header set to the origin's host and redirects not followed; the
    // answer is passed back as it is, or 502 when the fetch throws.
    ensures RouteOf(request.url.pathname) == StaticRoute ==>
              && sent == Some(Outbound(OriginUrl(StaticTarget(request.url)), request.httpMethod,
                                       request.headers[HostHeader := OriginHost], Some(request.body), Manual))
              && match upstream(sent.value)
                 case Fetched(status, headers, body) => response == Response(status, headers, Relayed(body))
                 case FetchFailed(message) =>
                   response == Response(502, map[], Text("Error fetching from backend: " + message))
    // Whatever the pathname, a static request reaches the origin only: both
    // the target and the Host header name the origin's host.
    ensures RouteOf(request.url.pathname) == StaticRoute ==>
              && sent.Some? && sent.value.target.OriginUrl?
              && sent.value.target.location.host == OriginHost
              && HostHeader in sent.value.headers && sent.value.headers[HostHeader] == OriginHost
  {
    var url := request.url;
    var route := RouteOf(url.pathname);
    if route == DebugRoute {
      sent := None;
      response := Response(200, map[ContentTypeHeader := "application/json"],
                           DebugInfo(env.storageUrl, env.functionUrl, DebugMessage));
      return;
    }

    if route == CounterRoute {
      var backend := BackendFor(request.httpMethod, env);
      if backend.Unset? {
        sent := None;
        response := Response(500, map[], Text(NotSetMessage(backend.variable)));
        return;
      }
      var outbound := Outbound(FunctionUrl(backend.url), request.httpMethod, request.headers, None, Follow);
      sent := Some(outbound);
      var answer := upstream(outbound);
      if answer.Fetched? {
        var newHeaders := answer.headers;
        newHeaders := newHeaders[AllowOriginHeader := "*"];
        response := Response(answer.status, newHeaders, Relayed(answer.body));
      } else {
        response := Response(502, map[], Text("Error fetching from function: " + answer.message));
      }
      return;
    }

    // The origin is a non-empty constant, so the source's "not set" branch
    // for it cannot be taken and is not modelled.
    var targetUrl := ResolveOnOrigin(url.pathname, url.search);
    if targetUrl.pathname == "/" || targetUrl.pathname == "" {
      targetUrl := targetUrl.(pathname := IndexPath);
    }
    var newRequest := Outbound(OriginUrl(targetUrl), request.httpMethod, request.headers, Some(request.body), Manual);
    newRequest := newRequest.(headers := newRequest.headers[HostHeader := targetUrl.host]);
    sent := Some(newRequest);
    var answer := upstream(newRequest);
    if answer.Fetched? {
      response := Response(answer.status, answer.headers, Relayed(answer.body));
    } else {
      response := Response(502, map[], Text("Error fetching from backend: " + answer.message));
    }
  }

  /** The index of the first '/' in `s`, or |s| when there is none. */
  function FirstSlash(s: string): (i: nat)
    ensures i <= |s|
    ensures forall j :: 0 <= j < i ==> s[j] != '/'
    ensures i < |s| ==> s[i] == '/'
  {
    if s == [] || s[0] == '/' then 0 else 1 + FirstSlash(s[1..])
  }

  /** `s` without its leading slashes. */
  function DropSlashes(s: string): (t: string)
    ensures |t| <= |s| && t == s[|s| - |t|..]
    ensures t == [] || t[0] != '/'
    ensures forall j :: 0 <= j < |s| - |t| ==> s[j] == '/'
  {
    if s != [] && s[0] == '/' then DropSlashes(s[1..]) else s
  }

  predicate StartsWithTwoSlashes(pathname: string) {
    |pathname| >= 2 && pathname[0] == '/' && pathname[1] == '/'
  }

  /** `new URL(pathname + search, AZURE_ORIGIN)` as the source calls it. A
      pathname that starts with "//" is a network-path reference: for an
      https base the parser skips every leading slash and reads the text up to
      the next '/' as the host (None: an empty host, which makes the
      constructor throw). Host syntax (user info, port, case) is not parsed. */
  function ResolveAsWritten(pathname: string, search: string): (u: Option<Url>)
    ensures !StartsWithTwoSlashes(pathname) ==> u == Some(ResolveOnOrigin(pathname, search))
  {
    if StartsWithTwoSlashes(pathname) then
      var rest := DropSlashes(pathname);
      var i := FirstSlash(rest);
      if i == 0 then None
      else Some(Url(rest[..i], if i == |rest| then "/" else rest[i..], search))
    else Some(ResolveOnOrigin(pathname, search))
  }

  /** A host the request text can name in place of the origin. */
  const ExampleHost := "attacker.example"

  /** A static request for `//attacker.example/x` resolves to
      https://attacker.example/x, which is not the origin. */
  lemma DoubleSlashLeavesOrigin()
    ensures ResolveAsWritten("//" + ExampleHost + "/x", "") == Some(Url(ExampleHost, "/x", ""))
    ensures ExampleHost != OriginHost
  {
    AnyHostReachable(ExampleHost, "x", "");
    assert "//" + ExampleHost + "/" + "x" == "//" + ExampleHost + "/x";
  }

  /** Whatever a network-path reference names, the host the parser reads is
      the first segment after the slashes, so the request text alone picks
      the host: every host with no '/' in it can be reached. */
  lemma {:induction false} AnyHostReachable(host: string, rest: string, search: string)
    requires host != [] && host[0] != '/' && '/' !in host
    ensures ResolveAsWritten("//" + host + "/" + rest, search) == Some(Url(host, "/" + rest, search))
  {
    var tail := "/" + rest;
    var r := host + tail;
    var p := "//" + host + "/" + rest;
    assert p == "//" + r;
    assert p[2..] == r;
    DropTwoSlashes(p);
    FirstSlashAfter(host, tail);
    assert r[..|host|] == host;
    assert r[|host|..] == tail;
    ResolveNetworkPath(p, r, |host|, search);
  }

  /** The network-path branch of ResolveAsWritten, once the host segment of
      the text after the slashes is known to end at `i`. */
  lemma ResolveNetworkPath(p: string, r: string, i: nat, search: string)
    requires StartsWithTwoSlashes(p) && DropSlashes(p) == r
    requires FirstSlash(r) == i && 0 < i < |r|
    ensures ResolveAsWritten(p, search) == Some(Url(r[..i], r[i..], search))
  {
  }

  lemma DropTwoSlashes(p: string)
    requires |p| > 2 && p[0] == '/' && p[1] == '/' && p[2] != '/'
    ensures DropSlashes(p) == p[2..]
  {
    assert p[1..][1..] == p[2..];
  }

  lemma {:induction false} FirstSlashAfter(host: string, tail: string)
    requires '/' !in host && tail != [] && tail[0] == '/'
    ensures FirstSlash(host + tail) == |host|
  {
    if host != [] {
      assert (host + tail)[1..] == host[1..] + tail;
      FirstSlashAfter(host[1..], tail);
    } else {
      assert host + tail == tail;
    }
  }

}
