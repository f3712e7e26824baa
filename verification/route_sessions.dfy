/**
  * `/api/v1/sessions`: session validation and admin statistics (GET),
  * session creation (POST) and deletion (DELETE) over the session table.
  * Each handler returns its response and the table it leaves.
  */
module SessionsRoute {
  import opened Js
  import opened Security
  import opened Sessions

  /** A response together with the session table after the request. */
  datatype Handled = Handled(response: Response, table: map<string, Session>)

  /** The body describing a session: its id, owner and creation time. */
  function SessionInfo(s: Session): (v: Value)
    ensures v.Obj? && v.fields.Keys == {"sessionId", "clientId", "createdAt"}
    ensures Prop(v, "sessionId") == Str(s.id) && Prop(v, "clientId") == Str(s.clientId)
    ensures Prop(v, "createdAt") == Num(s.createdAt)
  {
    Obj(map["sessionId" := Str(s.id), "clientId" := Str(s.clientId), "createdAt" := Num(s.createdAt)])
  }

  /** `adminKey !== process.env.ADMIN_API_KEY`, where a missing query parameter is null and a missing variable undefined. */
  predicate AdminKeyMatches(env: Env, adminKey: Option<string>)
  {
    adminKey.Some? && "ADMIN_API_KEY" in env && adminKey.value == env["ADMIN_API_KEY"]
  }

  /**
    * GET: with a non-empty `sessionId`, a lookup (which refreshes or drops the
    * session); without one, the session count for the holder of the admin key.
    */
  function HandleGet(env: Env, sessionId: Option<string>, adminKey: Option<string>,
                     m: map<string, Session>, now: int, window: Option<int>): (r: Handled)
    ensures sessionId.Some? && sessionId.value != "" ==>
      r.table == Get(m, sessionId.value, now, window).table &&
      (r.response.status == 200 <==> sessionId.value in m && !Expired(m[sessionId.value], now, window)) &&
      (r.response.status != 200 ==> r.response.status == 404 && Prop(r.response.body, "valid") == Bool(false))
    ensures r.response.status == 200 && sessionId.Some? && sessionId.value != "" ==>
      Prop(r.response.body, "valid") == Bool(true) &&
      Prop(r.response.body, "sessionId") == Str(m[sessionId.value].id) &&
      Prop(r.response.body, "clientId") == Str(m[sessionId.value].clientId)
    ensures (sessionId.None? || sessionId.value == "") ==>
      r.table == m &&
      (r.response.status == 200 <==> AdminKeyMatches(env, adminKey)) &&
      (r.response.status != 200 ==> r.response.status == 401) &&
      (r.response.status == 200 ==> Prop(r.response.body, "count") == Num(|m|))
  {
    if sessionId.Some? && sessionId.value != "" then
      var lookup := Get(m, sessionId.value, now, window);
      match lookup.found
      case None =>
        Handled(Response(404, Obj(map["valid" := Bool(false), "error" := Str("Session not found or expired")])),
                lookup.table)
      case Some(s) =>
        Handled(Response(200, Obj(SessionInfo(s).fields["valid" := Bool(true)])), lookup.table)
    else if !AdminKeyMatches(env, adminKey) then
      Handled(Response(401, ErrorBody("Unauthorized")), m)
    else
      Handled(Response(200, Obj(map["count" := Num(|m|)])), m)
  }

  /** With `ADMIN_API_KEY` unset, every statistics request is refused. */
  lemma StatsNeedAdminKey(env: Env, adminKey: Option<string>, m: map<string, Session>, now: int, window: Option<int>)
    requires "ADMIN_API_KEY" !in env
    ensures HandleGet(env, None, adminKey, m, now, window).response.status == 401
  {
  }

  /**
    * GET as written. A found session's body reads `session.sessionId`, a
    * field the record does not have (it is called `id`), so the id is
    * undefined and left out of the JSON. And `lib/sessions.ts` exports
    * neither `getSessionCount` nor `getAllSessions`, so once the admin key
    * matches, calling the undefined import throws and the handler answers 500.
    */
  function HandleGetAsWritten(env: Env, sessionId: Option<string>, adminKey: Option<string>,
                              m: map<string, Session>, now: int, window: Option<int>): (r: Handled)
    ensures sessionId.Some? && sessionId.value != "" ==>
      var intended := HandleGet(env, sessionId, adminKey, m, now, window);
      r.table == intended.table && r.response.status == intended.response.status &&
      (r.response.status != 200 ==> r == intended) &&
      (r.response.status == 200 ==>
        r.response.body == Obj(intended.response.body.fields["sessionId" := Undefined]))
    ensures (sessionId.None? || sessionId.value == "") ==> r.table == m && r.response.status in {401, 500}
  {
    if sessionId.Some? && sessionId.value != "" then
      var lookup := Get(m, sessionId.value, now, window);
      match lookup.found
      case None =>
        Handled(Response(404, Obj(map["valid" := Bool(false), "error" := Str("Session not found or expired")])),
                lookup.table)
      case Some(s) =>
        Handled(Response(200, Obj(SessionInfo(s).fields["valid" := Bool(true)]["sessionId" := Undefined])),
                lookup.table)
    else if !AdminKeyMatches(env, adminKey) then Handled(Response(401, ErrorBody("Unauthorized")), m)
    else Handled(Response(500, ErrorBody("Internal server error")), m)
  }

  /** As written, a successful lookup never reports which session it found. */
  lemma LookupAsWrittenOmitsId(env: Env, id: string, adminKey: Option<string>, m: map<string, Session>,
                               now: int, window: Option<int>)
    requires id != "" && id in m && !Expired(m[id], now, window)
    ensures var r := HandleGetAsWritten(env, Some(id), adminKey, m, now, window);
      r.response.status == 200 && Prop(r.response.body, "sessionId") == Undefined &&
      Prop(r.response.body, "clientId") == Str(m[id].clientId)
  {
  }

  /** The corrected lookup reports the id of the live session it found, with its owner. */
  lemma LookupReportsId(env: Env, id: string, adminKey: Option<string>, m: map<string, Session>,
                        now: int, window: Option<int>)
    requires id != "" && id in m && !Expired(m[id], now, window)
    ensures var r := HandleGet(env, Some(id), adminKey, m, now, window);
      r.response.status == 200 && Prop(r.response.body, "sessionId") == Str(m[id].id) &&
      Prop(r.response.body, "clientId") == Str(m[id].clientId)
  {
  }

  /** As written, the holder of the admin key never gets the statistics. */
  lemma StatsAsWrittenFail(env: Env, adminKey: Option<string>, m: map<string, Session>, now: int,
                           window: Option<int>)
    requires AdminKeyMatches(env, adminKey)
    ensures HandleGetAsWritten(env, None, adminKey, m, now, window).response ==
      Response(500, ErrorBody("Internal server error"))
  {
  }

  /** The corrected handler gives the holder of the admin key the session count, leaving the table alone. */
  lemma StatsReportCount(env: Env, adminKey: Option<string>, m: map<string, Session>, now: int,
                         window: Option<int>)
    requires AdminKeyMatches(env, adminKey)
    ensures HandleGet(env, None, adminKey, m, now, window).response.status == 200
    ensures Prop(HandleGet(env, None, adminKey, m, now, window).response.body, "count") == Num(|m|)
    ensures HandleGet(env, None, adminKey, m, now, window).table == m
  {
  }

  /**
    * The requests POST accepts: a body that parsed to an object-like value
    * whose `clientId` is truthy and passes the allow-list for the referer
    * (so, by `NonStringClientRejected`, a string).
    */
  predicate PostAccepted(env: Env, body: Option<Value>, referer: Option<string>)
  {
    body.Some? && !body.value.Null? && !body.value.Undefined? &&
    Truthy(Prop(body.value, "clientId")) &&
    ValidateClientValue(env, Prop(body.value, "clientId"), referer.GetOr(""))
  }

  /**
    * POST: reads `clientId` from the JSON body (None: the body did not parse),
    * rejects a falsy one with 400 and one that fails the allow-list with 403,
    * and otherwise stores a new session under `freshId`, the id the session
    * store hands out.
    */
  function HandlePost(env: Env, body: Option<Value>, referer: Option<string>,
                      m: map<string, Session>, now: int, freshId: string): (r: Handled)
    ensures r.response.status in {200, 400, 403, 500}
    ensures r.response.status != 200 ==> r.table == m
    ensures r.response.status == 200 <==> PostAccepted(env, body, referer)
    ensures PostAccepted(env, body, referer) ==>
      var clientId := Prop(body.value, "clientId").s;
      r.table == m[freshId := Session(freshId, clientId, now, now, map[])] &&
      Prop(r.response.body, "sessionId") == Str(freshId) &&
      Prop(r.response.body, "clientId") == Str(clientId) &&
      Prop(r.response.body, "createdAt") == Num(now)
  {
    if body.None? || Destructure(body.value, "clientId").None? then
      Handled(Response(500, ErrorBody("Internal server error")), m)
    else
      var clientId := Prop(body.value, "clientId");
      if !Truthy(clientId) then
        Handled(Response(400, ErrorBody("Client ID is required")), m)
      else if !ValidateClientValue(env, clientId, referer.GetOr("")) then
        Handled(Response(403, ErrorBody("Invalid client ID or referer")), m)
      else
        var s := Session(freshId, clientId.s, now, now, map[]);
        Handled(Response(200, SessionInfo(s)), m[freshId := s])
  }

  /** A missing client id is refused before the allow-list is consulted. */
  lemma PostWithoutClientIdIs400(env: Env, body: Value, referer: Option<string>,
                                 m: map<string, Session>, now: int, freshId: string)
    requires !body.Null? && !body.Undefined? && !Truthy(Prop(body, "clientId"))
    ensures HandlePost(env, Some(body), referer, m, now, freshId).response.status == 400
  {
  }

  /** A client or referer failing the allow-list gets 403 and creates nothing. */
  lemma PostRejectedClientCreatesNothing(env: Env, body: Value, referer: Option<string>,
                                         m: map<string, Session>, now: int, freshId: string)
    requires !body.Null? && !body.Undefined? && Truthy(Prop(body, "clientId"))
    requires !ValidateClientValue(env, Prop(body, "clientId"), referer.GetOr(""))
    ensures HandlePost(env, Some(body), referer, m, now, freshId) ==
      Handled(Response(403, ErrorBody("Invalid client ID or referer")), m)
  {
  }

  /**
    * A successful POST adds exactly one session, owned by the requesting
    * client, reports its id, and a lookup at the same moment finds it.
    */
  lemma PostCreatesOneSession(env: Env, body: Value, referer: Option<string>,
                              m: map<string, Session>, now: int, freshId: string, window: Option<int>)
    requires window.Some? ==> window.value >= 0
    requires freshId !in m
    requires PostAccepted(env, Some(body), referer)
    ensures var r := HandlePost(env, Some(body), referer, m, now, freshId);
      var clientId := Prop(body, "clientId");
      r.response.status == 200 &&
      clientId.Str? && ValidateClient(env, clientId.s, referer.GetOr("")) &&
      r.table.Keys == m.Keys + {freshId} && |r.table| == |m| + 1 &&
      (forall k :: k in m ==> r.table[k] == m[k]) &&
      r.table[freshId].clientId == clientId.s &&
      Prop(r.response.body, "sessionId") == Str(freshId) &&
      Get(r.table, freshId, now, window).found == Some(r.table[freshId])
  {
    var r := HandlePost(env, Some(body), referer, m, now, freshId);
    assert freshId in r.table && !Expired(r.table[freshId], now, window);
    assert |r.table.Keys| == |m.Keys| + 1;
  }

  /**
    * POST as written: `createSession(clientId)` against
    * `createSession(sessionId, clientId, data = {})` stores the session under
    * the client id, with no owner (shown here as `""`, which like `undefined`
    * equals no truthy client id), and the response reads the missing
    * `sessionId` and `clientId` fields of the record.
    */
  function HandlePostAsWritten(env: Env, body: Option<Value>, referer: Option<string>,
                               m: map<string, Session>, now: int): (r: Handled)
    ensures r.response.status in {200, 400, 403, 500}
  {
    if body.None? || Destructure(body.value, "clientId").None? then
      Handled(Response(500, ErrorBody("Internal server error")), m)
    else
      var clientId := Prop(body.value, "clientId");
      if !Truthy(clientId) then
        Handled(Response(400, ErrorBody("Client ID is required")), m)
      else if !ValidateClientValue(env, clientId, referer.GetOr("")) then
        Handled(Response(403, ErrorBody("Invalid client ID or referer")), m)
      else
        var s := Session(clientId.s, "", now, now, map[]);
        Handled(Response(200, Obj(map["sessionId" := Undefined, "clientId" := Undefined,
                                      "createdAt" := Num(now)])),
                m[clientId.s := s])
  }

  /**
    * As written, a second successful POST from the same client replaces the
    * first client's session instead of adding one, the stored session is not
    * owned by the client, and the response names no session.
    */
  lemma PostAsWrittenReplacesSession(env: Env, body: Value, referer: Option<string>,
                                     m: map<string, Session>, t1: int, t2: int)
    requires HandlePostAsWritten(env, Some(body), referer, m, t1).response.status == 200
    ensures var first := HandlePostAsWritten(env, Some(body), referer, m, t1);
      var second := HandlePostAsWritten(env, Some(body), referer, first.table, t2);
      var clientId := Prop(body, "clientId").s;
      second.response.status == 200 &&
      second.table.Keys == first.table.Keys &&
      second.table[clientId].createdAt == t2 &&
      second.table[clientId].clientId != clientId &&
      Prop(second.response.body, "sessionId") == Undefined
  {
  }

  /**
    * DELETE: a falsy id is refused, an unknown or expired one is not found,
    * and a live one is removed.
    */
  function HandleDelete(sessionId: Option<string>, m: map<string, Session>, now: int,
                        window: Option<int>): (r: Handled)
    ensures sessionId.None? || sessionId.value == "" ==> r == Handled(Response(400, ErrorBody("Session ID is required")), m)
    ensures sessionId.Some? && sessionId.value != "" ==>
      r.table == m - {sessionId.value} &&
      (r.response.status == 404 <==> Get(m, sessionId.value, now, window).found.None?)
    ensures sessionId.Some? && sessionId.value != "" && Get(m, sessionId.value, now, window).found.Some? ==>
      r.response == Response(200, Obj(map["success" := Bool(true), "sessionId" := Str(sessionId.value)]))
  {
    if sessionId.None? || sessionId.value == "" then
      Handled(Response(400, ErrorBody("Session ID is required")), m)
    else
      var id := sessionId.value;
      var lookup := Get(m, id, now, window);
      if lookup.found.None? then
        Handled(Response(404, ErrorBody("Session not found or expired")), lookup.table)
      else if id !in lookup.table then
        Handled(Response(500, ErrorBody("Failed to delete session")), lookup.table)
      else
        Handled(Response(200, Obj(map["success" := Bool(true), "sessionId" := Str(id)])),
                lookup.table - {id})
  }

  /** The "failed to delete" answer is unreachable: a session just found is always deleted. */
  lemma DeleteNeverFails(sessionId: Option<string>, m: map<string, Session>, now: int, window: Option<int>)
    ensures HandleDelete(sessionId, m, now, window).response.status in {200, 400, 404}
  {
  }
}
