/** The application's own middleware: the `/api` prefix added to paths that lack it,
    the CORS headers set on every response with the preflight answered at once, and the
    health report of the four connection pools. */
module App {
  import opened Js
  import opened Sql

  /** The path of an origin-form request url (`/x?q`): everything before its query
      string. */
  function PathOf(url: string): (path: string)
    ensures |path| <= |url| && path == url[..|path|]
    ensures '?' !in path
    ensures |path| < |url| ==> url[|path|] == '?'
  {
    if url == [] || url[0] == '?' then []
    else
      var rest := PathOf(url[1..]);
      assert url[1..][..|rest|] == url[1..|rest| + 1];
      [url[0]] + rest
  }

  /** A prefix without `?` moves into the path unchanged. */
  lemma {:induction false} PathOfPrefix(prefix: string, url: string)
    requires '?' !in prefix
    ensures PathOf(prefix + url) == prefix + PathOf(url)
  {
    if prefix != [] {
      assert (prefix + url)[0] == prefix[0];
      assert (prefix + url)[1..] == prefix[1..] + url;
      PathOfPrefix(prefix[1..], url);
      assert prefix == [prefix[0]] + prefix[1..];
    } else {
      assert prefix + url == url;
    }
  }

  /** `if (!req.path.startsWith('/api')) req.url = `/api${req.url}`` */
  function Normalized(url: string): (r: string)
    ensures StartsWith(PathOf(url), "/api") ==> r == url
    ensures !StartsWith(PathOf(url), "/api") ==> r == "/api" + url
  {
    if StartsWith(PathOf(url), "/api") then url else "/api" + url
  }

  /** After the middleware every path starts with `/api`. */
  lemma NormalizedPath(url: string)
    ensures StartsWith(PathOf(Normalized(url)), "/api")
  {
    if !StartsWith(PathOf(url), "/api") {
      PathOfPrefix("/api", url);
      assert ("/api" + PathOf(url))[..4] == "/api";
    }
  }

  /** Running the middleware twice is running it once. */
  lemma NormalizedIdempotent(url: string)
    ensures Normalized(Normalized(url)) == Normalized(url)
  {
    NormalizedPath(url);
  }

  /** The request fields the middleware reads and writes. */
  class Request {
    var url: string
    var httpMethod: string

    constructor (url: string, httpMethod: string)
      ensures this.url == url && this.httpMethod == httpMethod
    {
      this.url := url;
      this.httpMethod := httpMethod;
    }

    function Path(): string
      reads this
    {
      PathOf(url)
    }

    /** The path-normalising middleware. */
    method NormalizePath()
      modifies this
      ensures url == Normalized(old(url)) && httpMethod == old(httpMethod)
      ensures StartsWith(Path(), "/api")
    {
      if !StartsWith(Path(), "/api") {
        url := "/api" + url;
      }
      NormalizedPath(old(url));
    }
  }

  /** The response state the middleware touches: its headers and, once sent, its status. */
  class Response {
    var headers: map<string, string>
    var sent: Option<int>

    constructor ()
      ensures headers == map[] && sent.None?
    {
      headers := map[];
      sent := None;
    }

    method SetHeader(name: string, value: string)
      modifies this
      ensures headers == old(headers)[name := value] && sent == old(sent)
    {
      headers := headers[name := value];
    }

    /** `res.sendStatus(code)` */
    method SendStatus(code: int)
      modifies this
      ensures sent == Some(code) && headers == old(headers)
    {
      sent := Some(code);
    }
  }

  const AllowMethods: string := "GET,POST,PUT," + "PATCH,DELETE,OPTIONS"
  const AllowHeaders: string := "Content-Type, " + "Authorization"

  const CorsNames: set<string> := {"Access-Control-Allow-Origin", "Access-Control-Allow-Methods",
    "Access-Control-Allow-Headers", "Access-Control-Allow-Credentials"}

  /** `process.env.CORS_ORIGIN || '*'` */
  function Origin(configured: Option<string>): (origin: string)
    ensures origin != ""
    ensures Present(configured) ==> origin == configured.value
    ensures !Present(configured) ==> origin == "*"
  {
    FirstPresentOr([configured], "*")
  }

  /** The four headers the CORS middleware sets, over whatever was there. */
  function CorsHeaders(headers: map<string, string>, configured: Option<string>): (h: map<string, string>)
    ensures h.Keys == headers.Keys + CorsNames
    ensures h["Access-Control-Allow-Origin"] == Origin(configured)
    ensures h["Access-Control-Allow-Methods"] == AllowMethods && h["Access-Control-Allow-Headers"] == AllowHeaders
      && h["Access-Control-Allow-Credentials"] == "true"
    ensures forall k :: k in headers && k !in CorsNames ==> h[k] == headers[k]
  {
    headers["Access-Control-Allow-Origin" := Origin(configured)]
      ["Access-Control-Allow-Methods" := AllowMethods]
      ["Access-Control-Allow-Headers" := AllowHeaders]
      ["Access-Control-Allow-Credentials" := "true"]
  }

  /** The CORS middleware: the headers on every response; an OPTIONS request is answered
      204 there and never reaches a route. */
  method Cors(req: Request, res: Response, configured: Option<string>) returns (next: bool)
    modifies res
    ensures res.headers == CorsHeaders(old(res.headers), configured)
    ensures req.httpMethod == "OPTIONS" ==> !next && res.sent == Some(204)
    ensures req.httpMethod != "OPTIONS" ==> next && res.sent == old(res.sent)
  {
    res.SetHeader("Access-Control-Allow-Origin", Origin(configured));
    res.SetHeader("Access-Control-Allow-Methods", AllowMethods);
    res.SetHeader("Access-Control-Allow-Headers", AllowHeaders);
    res.SetHeader("Access-Control-Allow-Credentials", "true");
    if req.httpMethod == "OPTIONS" {
      res.SendStatus(204);
      return false;
    }
    return true;
  }

  /** `{ status: 'ok', databases: status }` */
  datatype Health = Health(status: string, databases: map<string, string>)

  /** What `SELECT 1` on one pool gives: None when it succeeds, else the error message. */
  type Ping = Pool -> Option<string>

  /** `'connected'`, or `` `error: ${error.message}` `` */
  function PoolStatus(ping: Option<string>): (s: string)
    ensures ping.None? <==> s == "connected"
    ensures ping.Some? ==> s == "error: " + ping.value
  {
    match ping
    case None => "connected"
    case Some(message) =>
      assert ("error: " + message)[0] == 'e';
      "error: " + message
  }

  /** `GET /api/health`: the status of each pool, filled in one after the other; the
      report itself is always `'ok'`. */
  method HealthCheck(ping: Ping) returns (health: Health)
    ensures health.status == "ok"
    ensures health.databases.Keys == {"tokens", "iga", "server", "darkrp"}
    ensures forall p :: PoolKey(p) in health.databases && health.databases[PoolKey(p)] == PoolStatus(ping(p))
  {
    var status: map<string, string> := map[];
    status := status["tokens" := PoolStatus(ping(Tokens))];
    status := status["iga" := PoolStatus(ping(Iga))];
    status := status["server" := PoolStatus(ping(Server))];
    status := status["darkrp" := PoolStatus(ping(Darkrp))];
    health := Health("ok", status);
  }
}
