/** `POST /api/v1/auth/validate`: tells a client whether it passes the allow-list. */
module AuthValidateRoute {
  import opened Js
  import opened Security

  /** A refusal: `{ valid: false, error }`. */
  function Invalid(status: int, error: string): (r: Response)
    ensures r.status == status && Prop(r.body, "valid") == Bool(false) && Prop(r.body, "error") == Str(error)
  {
    Response(status, Obj(map["valid" := Bool(false), "error" := Str(error)]))
  }

  /** `body` is the parsed JSON body, None when it did not parse. */
  function HandleValidate(env: Env, body: Option<Value>, referer: Option<string>): (r: Response)
    ensures r.status in {200, 400, 403, 500}
    ensures r.status == 200 <==> r.body == Obj(map["valid" := Bool(true)])
    ensures r.status != 200 ==> Prop(r.body, "valid") == Bool(false)
  {
    if body.None? || Destructure(body.value, "clientId").None? then
      Invalid(500, "Failed to validate client")
    else
      var clientId := Prop(body.value, "clientId");
      if !Truthy(clientId) then Invalid(400, "Client ID is required")
      else if ValidateClientValue(env, clientId, referer.GetOr("")) then
        Response(200, Obj(map["valid" := Bool(true)]))
      else Invalid(403, "Invalid client ID or referer")
  }

  /**
    * The answer is 200 exactly when the client id and referer pass the
    * allow-list (an absent referer counts as `""`), 400 for a falsy id,
    * 500 for an unreadable body and 403 otherwise.
    */
  lemma ValidateAnswers(env: Env, body: Option<Value>, referer: Option<string>)
    ensures var r := HandleValidate(env, body, referer);
      (r.status == 200 <==> body.Some? && Truthy(Prop(body.value, "clientId")) &&
                            ValidateClientValue(env, Prop(body.value, "clientId"), referer.GetOr(""))) &&
      (r.status == 500 <==> body.None? || body.value.Null? || body.value.Undefined?) &&
      (r.status == 400 <==> body.Some? && !body.value.Null? && !body.value.Undefined? &&
                            !Truthy(Prop(body.value, "clientId")))
  {
  }
}
