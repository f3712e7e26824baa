/**
  * The CORS middleware in front of every `/api/` route: it looks up the
  * origin's host name in the allow-lists and decides which headers the
  * response carries and whether a preflight is answered directly.
  */
module Middleware {
  import opened Text
  import opened Js
  import opened Url
  import opened Security

  /** Some allowed client lists the domain among its domains. */
  ghost predicate DomainAllowed(env: Env, domain: string)
  {
    exists c :: c in AllowedClients(env) && domain in ClientDomains(env, c)
  }

  /** `isDomainAllowed`: the clients are tried in order, stopping at the first that lists the domain. */
  method IsDomainAllowed(env: Env, domain: string) returns (allowed: bool)
    ensures allowed <==> DomainAllowed(env, domain)
  {
    var clients := AllowedClients(env);
    for i := 0 to |clients|
      invariant forall j :: 0 <= j < i ==> domain !in ClientDomains(env, clients[j])
    {
      var domains := ClientDomains(env, clients[i]);
      if domain in domains {
        return true;
      }
    }
    return false;
  }

  /** A referer that passes client validation always has an allowed domain. */
  lemma ValidClientDomainAllowed(env: Env, clientId: string, referer: string)
    requires ValidateClient(env, clientId, referer)
    ensures DomainAllowed(env, ExtractDomain(referer))
  {
  }

  /** A domain is allowed exactly when some client id validates with that referer. */
  lemma DomainAllowedIffSomeClient(env: Env, referer: string)
    ensures DomainAllowed(env, ExtractDomain(referer)) <==> exists c :: ValidateClient(env, c, referer)
  {
    if DomainAllowed(env, ExtractDomain(referer)) {
      var c :| c in AllowedClients(env) && ExtractDomain(referer) in ClientDomains(env, c);
      assert ValidateClient(env, c, referer);
    }
  }

  /** Response headers, by name. */
  type Headers = map<string, string>

  /** What the middleware does with a request. */
  datatype Outcome =
    | Next(headers: Headers)                  // `NextResponse.next()`, headers added to the route's response
    | Respond(status: int, headers: Headers)  // answered here with no body

  /** The CORS headers every allowed API response carries. */
  function CorsHeaders(origin: string): (h: Headers)
    ensures h.Keys == {"Access-Control-Allow-Origin", "Access-Control-Allow-Methods",
                       "Access-Control-Allow-Headers", "Access-Control-Allow-Credentials"}
    ensures h["Access-Control-Allow-Origin"] == origin
  {
    map["Access-Control-Allow-Origin" := origin,
        "Access-Control-Allow-Methods" := "GET, POST, OPTIONS",
        "Access-Control-Allow-Headers" := "Content-Type, Authorization",
        "Access-Control-Allow-Credentials" := "true"]
  }

  /** Preflight answers also let the browser cache the decision for 24 hours. */
  function PreflightHeaders(origin: string): (h: Headers)
    ensures h.Keys == CorsHeaders(origin).Keys + {"Access-Control-Max-Age"}
    ensures h["Access-Control-Max-Age"] == "86400"
    ensures forall k :: k in CorsHeaders(origin) ==> h[k] == CorsHeaders(origin)[k]
  {
    CorsHeaders(origin)["Access-Control-Max-Age" := "86400"]
  }

  /**
    * `middleware(request)`. `originHeader` is the `Origin` header (None when
    * absent); `path` and `httpMethod` come from the request line.
    */
  method HandleRequest(env: Env, path: string, httpMethod: string, originHeader: Option<string>)
    returns (out: Outcome)
    ensures !StartsWith(path, "/api/") ==> out == Next(map[])
    ensures StartsWith(path, "/api/") && httpMethod == "OPTIONS" ==>
      out.Respond? && out.status == 204 &&
      out.headers == (if DomainAllowed(env, ExtractDomain(originHeader.GetOr("")))
                      then PreflightHeaders(originHeader.GetOr("")) else map[])
    ensures StartsWith(path, "/api/") && httpMethod != "OPTIONS" ==>
      out.Next? &&
      out.headers == (if DomainAllowed(env, ExtractDomain(originHeader.GetOr("")))
                      then CorsHeaders(originHeader.GetOr("")) else map[])
    ensures "Access-Control-Allow-Origin" in out.headers ==>
      out.headers["Access-Control-Allow-Origin"] == originHeader.GetOr("")
  {
    var origin := originHeader.GetOr("");
    var domain := ExtractDomain(origin);
    if StartsWith(path, "/api/") {
      var isAllowed := IsDomainAllowed(env, domain);
      var headers: Headers := map[];
      if httpMethod == "OPTIONS" {
        if isAllowed {
          headers := headers["Access-Control-Allow-Origin" := origin];
          headers := headers["Access-Control-Allow-Methods" := "GET, POST, OPTIONS"];
          headers := headers["Access-Control-Allow-Headers" := "Content-Type, Authorization"];
          headers := headers["Access-Control-Allow-Credentials" := "true"];
          headers := headers["Access-Control-Max-Age" := "86400"];
        }
        return Respond(204, headers);
      }
      if isAllowed {
        headers := headers["Access-Control-Allow-Origin" := origin];
        headers := headers["Access-Control-Allow-Methods" := "GET, POST, OPTIONS"];
        headers := headers["Access-Control-Allow-Headers" := "Content-Type, Authorization"];
        headers := headers["Access-Control-Allow-Credentials" := "true"];
      }
      return Next(headers);
    }
    return Next(map[]);
  }
}
