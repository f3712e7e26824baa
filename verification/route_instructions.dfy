/** `GET /api/v1/instructions`: hands the agent instructions to an allowed client. */
module InstructionsRoute {
  import opened Js
  import opened Security

  /**
    * `clientId` is the query parameter (None when absent); `instructions`
    * stands for the `agentInstructions` constant.
    */
  function HandleInstructions(env: Env, clientId: Option<string>, referer: Option<string>,
                              instructions: string): (r: Response)
    ensures clientId.None? || clientId.value == "" ==> r == Response(400, ErrorBody("Client ID is required"))
    ensures r.status == 200 <==>
      clientId.Some? && clientId.value != "" && ValidateClient(env, clientId.value, referer.GetOr(""))
    ensures r.status == 200 ==> r.body == Obj(map["instructions" := Str(instructions)])
    ensures r.status in {200, 400, 403}
  {
    if clientId.None? || clientId.value == "" then
      Response(400, ErrorBody("Client ID is required"))
    else if !ValidateClient(env, clientId.value, referer.GetOr("")) then
      Response(403, ErrorBody("Invalid client ID or referer"))
    else
      Response(200, Obj(map["instructions" := Str(instructions)]))
  }

  /** Without a referer header, the allow-list is checked against the host of `""`, which is none. */
  lemma MissingRefererChecksEmptyDomain(env: Env, clientId: string, instructions: string)
    requires clientId != ""
    ensures HandleInstructions(env, Some(clientId), None, instructions).status == 200 <==>
      clientId in AllowedClients(env) && "" in ClientDomains(env, clientId)
  {
    Url.NoColonNoDomain("");
  }
}
