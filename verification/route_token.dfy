/**
  * `POST /api/v1/voice/token`: the chain of checks that guards handing the
  * OpenAI key to a browser as a client secret.
  */
module TokenRoute {
  import opened Js
  import opened Security
  import opened Sessions

  /** The response and the session table after the lookup. */
  datatype Handled = Handled(response: Response, table: map<string, Session>)

  /**
    * `body` is the parsed JSON body (None when it did not parse). The session
    * is looked up under `String(sessionId)`, as a property key would be.
    */
  function HandleToken(env: Env, body: Option<Value>, referer: Option<string>,
                       m: map<string, Session>, now: int, window: Option<int>): (r: Handled)
    ensures r.response.status in {200, 400, 403, 404, 500}
  {
    if body.None? || Destructure(body.value, "clientId").None? then
      Handled(Response(500, ErrorBody("Failed to generate voice token")), m)
    else
      var clientId := Prop(body.value, "clientId");
      var sessionId := Prop(body.value, "sessionId");
      if !Truthy(clientId) then
        Handled(Response(400, ErrorBody("Client ID is required")), m)
      else if !Truthy(sessionId) then
        Handled(Response(400, ErrorBody("Session ID is required")), m)
      else if !ValidateClientValue(env, clientId, referer.GetOr("")) then
        Handled(Response(403, ErrorBody("Invalid client ID or referer")), m)
      else
        var lookup := Get(m, ToString(sessionId), now, window);
        match lookup.found
        case None =>
          Handled(Response(404, ErrorBody("Session not found or expired")), lookup.table)
        case Some(s) =>
          if s.clientId != clientId.s then
            Handled(Response(403, ErrorBody("Session does not belong to this client")), lookup.table)
          else if !KeyConfigured(env) then
            Handled(Response(500, ErrorBody("API key not configured")), lookup.table)
          else
            Handled(Response(200, Obj(map["client_secret" :=
                      Obj(map["value" := Str(env["NEXT_PUBLIC_OPENAI_API_KEY"])])])),
                    lookup.table)
  }

  /** Every check the key release needs, in one place. */
  predicate MayReleaseKey(env: Env, body: Value, referer: Option<string>,
                          m: map<string, Session>, now: int, window: Option<int>)
  {
    var clientId := Prop(body, "clientId");
    var key := ToString(Prop(body, "sessionId"));
    !body.Null? && !body.Undefined? &&
    clientId.Str? && clientId.s != "" && Truthy(Prop(body, "sessionId")) &&
    ValidateClient(env, clientId.s, referer.GetOr("")) &&
    key in m && !Expired(m[key], now, window) && m[key].clientId == clientId.s &&
    KeyConfigured(env)
  }

  /** When every check passes, the response carries the key as the client secret's value. */
  lemma KeyReleasedWhenAllChecksPass(env: Env, body: Value, referer: Option<string>,
                                     m: map<string, Session>, now: int, window: Option<int>)
    requires MayReleaseKey(env, body, referer, m, now, window)
    ensures var r := HandleToken(env, Some(body), referer, m, now, window).response;
      r.status == 200 &&
      Prop(Prop(r.body, "client_secret"), "value") == Str(env["NEXT_PUBLIC_OPENAI_API_KEY"])
  {
    var key := ToString(Prop(body, "sessionId"));
    assert Get(m, key, now, window).found == Some(m[key].(lastActiveAt := now));
  }

  /** The key is released only when every check passes. */
  lemma KeyReleasedOnlyIfAllChecksPass(env: Env, body: Value, referer: Option<string>,
                                       m: map<string, Session>, now: int, window: Option<int>)
    requires HandleToken(env, Some(body), referer, m, now, window).response.status == 200
    ensures MayReleaseKey(env, body, referer, m, now, window)
  {
    var key := ToString(Prop(body, "sessionId"));
    var lookup := Get(m, key, now, window);
    assert lookup.found.Some?;
  }

  /** The checks run in order: client id, session id, allow-list, session, owner, key. */
  lemma TokenCheckOrder(env: Env, body: Value, referer: Option<string>,
                        m: map<string, Session>, now: int, window: Option<int>)
    requires !body.Null? && !body.Undefined?
    ensures var r := HandleToken(env, Some(body), referer, m, now, window).response;
      var clientId := Prop(body, "clientId");
      var sessionId := Prop(body, "sessionId");
      (!Truthy(clientId) ==> r == Response(400, ErrorBody("Client ID is required"))) &&
      (Truthy(clientId) && !Truthy(sessionId) ==> r == Response(400, ErrorBody("Session ID is required"))) &&
      (Truthy(clientId) && Truthy(sessionId) && !ValidateClientValue(env, clientId, referer.GetOr("")) ==>
        r == Response(403, ErrorBody("Invalid client ID or referer"))) &&
      (Truthy(clientId) && Truthy(sessionId) && ValidateClientValue(env, clientId, referer.GetOr("")) &&
        Get(m, ToString(sessionId), now, window).found.None? ==>
        r == Response(404, ErrorBody("Session not found or expired"))) &&
      (Truthy(clientId) && Truthy(sessionId) && ValidateClientValue(env, clientId, referer.GetOr("")) &&
        Get(m, ToString(sessionId), now, window).found.Some? &&
        Get(m, ToString(sessionId), now, window).found.value.clientId != clientId.s ==>
        r == Response(403, ErrorBody("Session does not belong to this client"))) &&
      (Truthy(clientId) && Truthy(sessionId) && ValidateClientValue(env, clientId, referer.GetOr("")) &&
        Get(m, ToString(sessionId), now, window).found.Some? &&
        Get(m, ToString(sessionId), now, window).found.value.clientId == clientId.s &&
        !KeyConfigured(env) ==>
        r == Response(500, ErrorBody("API key not configured")))
  {
  }
}
