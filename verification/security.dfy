/**
  * Client and domain allow-listing over the process environment.
  * `ALLOWED_CLIENTS` lists the client ids, `CLIENT_<id>_DOMAINS` the host
  * names each client may call from; both are comma-separated and compared
  * exactly (no trimming, no case folding, no subdomain matching).
  */
module Security {
  import opened Text
  import opened Js
  import opened Url

  /** The process environment: variable name to value. */
  type Env = map<string, string>

  /** `process.env.NEXT_PUBLIC_OPENAI_API_KEY` is truthy: set and non-empty. */
  predicate KeyConfigured(env: Env)
  {
    "NEXT_PUBLIC_OPENAI_API_KEY" in env && env["NEXT_PUBLIC_OPENAI_API_KEY"] != ""
  }

  /** `process.env[name]?.split(',') || []` */
  function EnvList(env: Env, name: string): (l: seq<string>)
    ensures name !in env <==> l == []
    ensures name in env ==> Join(l, ',') == env[name]
  {
    if name in env then
      JoinSplit(env[name], ',');
      Split(env[name], ',')
    else []
  }

  /** Membership in an environment list is exactly a whole comma-delimited field of the variable. */
  lemma EnvListMembership(env: Env, name: string, x: string)
    ensures x in EnvList(env, name) <==> name in env && IsField(env[name], ',', x)
  {
    if name in env {
      SplitMembership(env[name], ',', x);
    }
  }

  function AllowedClients(env: Env): seq<string>
  {
    EnvList(env, "ALLOWED_CLIENTS")
  }

  /** The name of the variable that lists a client's domains. */
  function DomainsVariable(clientId: string): (name: string)
    ensures StartsWith(name, "CLIENT_") && EndsWith(name, "_DOMAINS")
    ensures |name| == |clientId| + 15
  {
    "CLIENT_" + clientId + "_DOMAINS"
  }

  function ClientDomains(env: Env, clientId: string): seq<string>
  {
    EnvList(env, DomainsVariable(clientId))
  }

  /** `validateClient(clientId, referer)` for a string client id. */
  predicate ValidateClient(env: Env, clientId: string, referer: string)
    ensures ValidateClient(env, clientId, referer) ==>
      "ALLOWED_CLIENTS" in env && DomainsVariable(clientId) in env
  {
    clientId in AllowedClients(env) && ExtractDomain(referer) in ClientDomains(env, clientId)
  }

  /**
    * `validateClient` on any JSON value: `includes` compares with
    * SameValueZero, so only a string can be found in a list of strings.
    */
  predicate ValidateClientValue(env: Env, clientId: Value, referer: string)
    ensures ValidateClientValue(env, clientId, referer) ==>
      clientId.Str? && "ALLOWED_CLIENTS" in env && DomainsVariable(clientId.s) in env
  {
    clientId.Str? && ValidateClient(env, clientId.s, referer)
  }

  /**
    * The allow-list decision in terms of the raw variables: the client id is
    * a whole field of `ALLOWED_CLIENTS` and the referer's host name is a whole
    * field of that client's `CLIENT_<id>_DOMAINS`.
    */
  lemma ValidateClientFields(env: Env, clientId: string, referer: string)
    ensures ValidateClient(env, clientId, referer) <==>
      "ALLOWED_CLIENTS" in env && IsField(env["ALLOWED_CLIENTS"], ',', clientId) &&
      DomainsVariable(clientId) in env &&
      IsField(env[DomainsVariable(clientId)], ',', ExtractDomain(referer))
  {
    EnvListMembership(env, "ALLOWED_CLIENTS", clientId);
    EnvListMembership(env, DomainsVariable(clientId), ExtractDomain(referer));
  }

  /** With `ALLOWED_CLIENTS` unset, every client is rejected. */
  lemma UnsetAllowListRejects(env: Env, clientId: string, referer: string)
    requires "ALLOWED_CLIENTS" !in env
    ensures !ValidateClient(env, clientId, referer)
  {
  }

  /** A client id that is not a whole field of `ALLOWED_CLIENTS` is rejected, whatever the referer. */
  lemma UnlistedClientRejected(env: Env, clientId: string, referer: string)
    requires "ALLOWED_CLIENTS" in env && !IsField(env["ALLOWED_CLIENTS"], ',', clientId)
    ensures !ValidateClient(env, clientId, referer)
  {
    EnvListMembership(env, "ALLOWED_CLIENTS", clientId);
  }

  /** Non-string client ids (null, undefined, numbers, objects) are rejected. */
  lemma NonStringClientRejected(env: Env, clientId: Value, referer: string)
    requires !clientId.Str?
    ensures !ValidateClientValue(env, clientId, referer)
  {
  }

  /** A referer that does not parse has host name `""`, which no list of host names holds unless a field is empty. */
  lemma UnparsableRefererRejected(env: Env, clientId: string, referer: string)
    requires Hostname(referer).None?
    requires DomainsVariable(clientId) in env ==> !IsField(env[DomainsVariable(clientId)], ',', "")
    ensures !ValidateClient(env, clientId, referer)
  {
    EnvListMembership(env, DomainsVariable(clientId), "");
  }

  /** A domain listed only for another client does not validate this one. */
  lemma DomainOfOtherClientRejected(env: Env, clientId: string, other: string, referer: string)
    requires ExtractDomain(referer) in ClientDomains(env, other)
    requires DomainsVariable(clientId) in env ==>
      !IsField(env[DomainsVariable(clientId)], ',', ExtractDomain(referer))
    ensures !ValidateClient(env, clientId, referer)
  {
    EnvListMembership(env, DomainsVariable(clientId), ExtractDomain(referer));
  }

  /** `validateSessionId`: a string of at least one character. */
  predicate ValidateSessionId(sessionId: Value)
    ensures ValidateSessionId(sessionId) ==> sessionId.Str? && Truthy(sessionId)
  {
    sessionId.Str? && |sessionId.s| > 0
  }

  /** A session id is valid exactly when it is a truthy string. */
  lemma ValidateSessionIdTruthy(sessionId: Value)
    ensures ValidateSessionId(sessionId) <==> sessionId.Str? && Truthy(sessionId)
  {
  }
}
