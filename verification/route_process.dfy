/**
  * `POST /api/v1/voice/process`: the checks before a realtime session is
  * opened, and the stored conversation turned into a message history. The
  * handler passes that history and the instructions to a session constructor
  * that takes neither, so they never reach the session.
  */
module ProcessRoute {
  import opened Js
  import opened Security

  /** A stored conversation message (`TextLogData`); `kind` is its `type`. */
  datatype Message = Message(
    sessionId: string,
    clientId: string,
    timestamp: int,
    kind: string,
    text: string,
    isTranscription: Option<bool>,
    source: Option<string>)

  /** An error message is replayed as an assistant turn whose text says it was an error. */
  function ReplayMessage(msg: Message): (r: Message)
    ensures r.kind != "error"
    ensures msg.kind != "error" ==> r == msg
    ensures msg.kind == "error" ==>
      r == msg.(kind := "assistant", text := "Error: " + msg.text)
  {
    if msg.kind == "error" then msg.(kind := "assistant", text := "Error: " + msg.text) else msg
  }

  /** `sessionMessages.map(...)`: every message replayed, in order. */
  function ReplayHistory(history: seq<Message>): (r: seq<Message>)
    ensures |r| == |history|
    ensures forall i :: 0 <= i < |r| ==> r[i] == ReplayMessage(history[i])
  {
    if history == [] then [] else [ReplayMessage(history[0])] + ReplayHistory(history[1..])
  }

  /** Number of messages of one kind. */
  function CountKind(history: seq<Message>, kind: string): nat
  {
    if history == [] then 0
    else (if history[0].kind == kind then 1 else 0) + CountKind(history[1..], kind)
  }

  /** A replayed history holds no error turns. */
  lemma {:induction false} ReplayedHasNoErrors(history: seq<Message>)
    ensures CountKind(ReplayHistory(history), "error") == 0
  {
    if history != [] {
      ReplayedHasNoErrors(history[1..]);
      assert ReplayHistory(history)[1..] == ReplayHistory(history[1..]);
    }
  }

  /** Replaying keeps the user turns and turns every error into an assistant turn. */
  lemma {:induction false} ReplayCounts(history: seq<Message>)
    ensures CountKind(ReplayHistory(history), "user") == CountKind(history, "user")
    ensures CountKind(ReplayHistory(history), "assistant") ==
      CountKind(history, "assistant") + CountKind(history, "error")
  {
    if history != [] {
      ReplayCounts(history[1..]);
      assert ReplayHistory(history)[1..] == ReplayHistory(history[1..]);
    }
  }

  /** Replaying an already replayed history changes nothing. */
  lemma {:induction false} ReplayIdempotent(history: seq<Message>)
    ensures ReplayHistory(ReplayHistory(history)) == ReplayHistory(history)
  {
    var once := ReplayHistory(history);
    assert forall i :: 0 <= i < |once| ==> ReplayMessage(once[i]) == once[i];
  }

  /**
    * The history handed to the realtime session. `stored` is what the
    * storage returned (None when the call threw); an empty or failed load
    * leaves the history empty.
    */
  function LoadHistory(stored: Option<seq<Message>>): (h: seq<Message>)
    ensures stored.None? ==> h == []
    ensures stored.Some? ==> h == ReplayHistory(stored.value)
  {
    match stored
    case None => []
    case Some(msgs) => if |msgs| > 0 then ReplayHistory(msgs) else []
  }

  /** What the handler does: answer now, or go on to the offer exchange with this voice and history. */
  datatype Outcome =
    | Respond(response: Response)
    | Proceed(voice: Value, history: seq<Message>)

  /** The body parsed to a value that `const { clientId, ... } = data` can destructure. */
  predicate Destructurable(body: Option<Value>)
  {
    body.Some? && !body.value.Null? && !body.value.Undefined?
  }

  /** The body destructured and its client passed the allow-list for the referer. */
  predicate ClientAdmitted(env: Env, body: Option<Value>, referer: Option<string>)
  {
    Destructurable(body) && ValidateClientValue(env, Prop(body.value, "clientId"), referer.GetOr(""))
  }

  /**
    * `body` is the parsed JSON body (None when it did not parse; `thrown` is
    * the exception's message). `sessionExists` is the session store's answer
    * for the body's `sessionId`; `stored` is the storage's answer. The checks
    * run in source order: client, key, session; then the request proceeds.
    */
  function HandleProcess(env: Env, body: Option<Value>, referer: Option<string>,
                         sessionExists: bool, stored: Option<seq<Message>>, thrown: string): (r: Outcome)
    ensures !Destructurable(body) ==> r.Respond? && r.response.status == 500
    ensures Destructurable(body) ==>
      (r.Respond? && r.response.status == 403 <==>
        !ValidateClientValue(env, Prop(body.value, "clientId"), referer.GetOr("")))
    ensures ClientAdmitted(env, body, referer) && !KeyConfigured(env) ==>
      r == Respond(Response(500, ErrorBody("OpenAI API key not found")))
    ensures (ClientAdmitted(env, body, referer) && KeyConfigured(env) &&
             Truthy(Prop(body.value, "sessionId")) && !sessionExists) ==>
      r.Respond? && r.response.status == 404 &&
      Prop(r.response.body, "error") == Str("Session not found. Please create a new one.") &&
      Prop(r.response.body, "newSessionId") == Null
    ensures (ClientAdmitted(env, body, referer) && KeyConfigured(env) &&
             (Truthy(Prop(body.value, "sessionId")) ==> sessionExists)) ==>
      r == Proceed(Or(Prop(body.value, "voice"), Str("alloy")),
                   if Truthy(Prop(body.value, "sessionId")) then LoadHistory(stored) else [])
    ensures r.Proceed? ==>
      ClientAdmitted(env, body, referer) && KeyConfigured(env) &&
      (Truthy(Prop(body.value, "sessionId")) ==> sessionExists && r.history == LoadHistory(stored)) &&
      (!Truthy(Prop(body.value, "sessionId")) ==> r.history == []) &&
      Truthy(r.voice) && (Truthy(Prop(body.value, "voice")) ==> r.voice == Prop(body.value, "voice"))
  {
    if body.None? || Destructure(body.value, "clientId").None? then
      Respond(Response(500, ErrorBody(if thrown != "" then thrown else "Error processing voice request")))
    else
      var data := body.value;
      var sessionId := Prop(data, "sessionId");
      if !ValidateClientValue(env, Prop(data, "clientId"), referer.GetOr("")) then
        Respond(Response(403, ErrorBody("Invalid client ID or referer")))
      else if !KeyConfigured(env) then
        Respond(Response(500, ErrorBody("OpenAI API key not found")))
      else if Truthy(sessionId) && !sessionExists then
        Respond(Response(404, Obj(map["error" := Str("Session not found. Please create a new one."),
                                      "newSessionId" := Null])))
      else
        var history := if Truthy(sessionId) then LoadHistory(stored) else [];
        Proceed(Or(Prop(data, "voice"), Str("alloy")), history)
  }

  /**
    * The handler as written: `lib/sessions.ts` exports no `sessionExists`, so
    * the imported binding is `undefined` and calling it throws a `TypeError`
    * (its message is `typeError`) whenever the body carries a truthy session
    * id. Requests without a session id are handled as intended.
    */
  function HandleProcessAsWritten(env: Env, body: Option<Value>, referer: Option<string>,
                                  stored: Option<seq<Message>>, thrown: string, typeError: string): (r: Outcome)
    ensures !(Destructurable(body) && Truthy(Prop(body.value, "sessionId"))) ==>
      r == HandleProcess(env, body, referer, true, stored, thrown)
  {
    if ClientAdmitted(env, body, referer) && KeyConfigured(env) && Truthy(Prop(body.value, "sessionId"))
    then
      Respond(Response(500, ErrorBody(if typeError != "" then typeError else "Error processing voice request")))
    else
      HandleProcess(env, body, referer, true, stored, thrown)
  }

  /**
    * As written, no request that names a session ever proceeds: once the
    * client and key checks pass, it fails with a 500 whether the session
    * exists or not.
    */
  lemma ProcessAsWrittenRejectsEverySession(env: Env, body: Value, referer: Option<string>,
                                            stored: Option<seq<Message>>, thrown: string, typeError: string)
    requires !body.Null? && !body.Undefined? && Truthy(Prop(body, "sessionId"))
    requires ValidateClientValue(env, Prop(body, "clientId"), referer.GetOr("")) && KeyConfigured(env)
    ensures HandleProcessAsWritten(env, Some(body), referer, stored, thrown, typeError).Respond?
    ensures HandleProcessAsWritten(env, Some(body), referer, stored, thrown, typeError).response.status == 500
  {
  }

  /**
    * The corrected handler decides a request naming a session by the
    * session's existence: it proceeds, with the stored history, when the
    * session exists, and answers 404 when it does not.
    */
  lemma ProcessChecksSession(env: Env, body: Value, referer: Option<string>,
                             stored: Option<seq<Message>>, thrown: string)
    requires !body.Null? && !body.Undefined? && Truthy(Prop(body, "sessionId"))
    requires ValidateClientValue(env, Prop(body, "clientId"), referer.GetOr("")) && KeyConfigured(env)
    ensures HandleProcess(env, Some(body), referer, true, stored, thrown) ==
      Proceed(Or(Prop(body, "voice"), Str("alloy")), LoadHistory(stored))
    ensures HandleProcess(env, Some(body), referer, false, stored, thrown).response.status == 404
  {
  }

  /** A falsy voice becomes `'alloy'`. */
  lemma DefaultVoice(env: Env, body: Value, referer: Option<string>,
                     sessionExists: bool, stored: Option<seq<Message>>, thrown: string)
    requires !Truthy(Prop(body, "voice"))
    ensures var r := HandleProcess(env, Some(body), referer, sessionExists, stored, thrown);
      r.Proceed? ==> r.voice == Str("alloy")
  {
  }

  /** A storage failure does not stop the request: it proceeds with an empty history. */
  lemma StorageFailureProceeds(env: Env, body: Value, referer: Option<string>, thrown: string)
    requires !body.Null? && !body.Undefined?
    requires ValidateClientValue(env, Prop(body, "clientId"), referer.GetOr(""))
    requires KeyConfigured(env)
    ensures HandleProcess(env, Some(body), referer, true, None, thrown) ==
      Proceed(Or(Prop(body, "voice"), Str("alloy")), [])
  {
  }
}
