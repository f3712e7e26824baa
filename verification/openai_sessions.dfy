/**
  * The table of live OpenAI realtime sessions kept by the server, and the
  * session objects it holds. Each entry records when it was last read
  * (milliseconds, passed in as `now`).
  */
module OpenAISessions {
  import opened Js
  import opened Security

  /** `OpenAIWebRTCSession`, without the network exchange. */
  class RtcSession {
    const apiKey: string
    const sessionId: string
    const clientId: string
    const voice: string
    var isActive: bool

    constructor (apiKey: string, sessionId: string, clientId: string, voice: string)
      ensures this.apiKey == apiKey && this.sessionId == sessionId
      ensures this.clientId == clientId && this.voice == voice
      ensures !isActive
    {
      this.apiKey := apiKey;
      this.sessionId := sessionId;
      this.clientId := clientId;
      this.voice := voice;
      isActive := false;
    }

    /**
      * `initialize`: marks the session active and reports success. `fails`
      * stands for an exception inside its `try` block (from logging), which
      * leaves it inactive and reports failure.
      */
    method Initialize(fails: bool) returns (success: bool)
      modifies this
      ensures success == !fails && isActive == success
    {
      if fails {
        isActive := false;
        return false;
      }
      isActive := true;
      return true;
    }

    /** `close`: the session is inactive afterwards. */
    method Close()
      modifies this
      ensures !isActive
    {
      isActive := false;
    }
  }

  /** A table entry: the session and when it was last used. */
  datatype Entry = Entry(session: RtcSession, lastActive: int)

  /** The module-level `openAISessions` table. */
  class OpenAISessionStore {
    var entries: map<string, Entry>

    constructor ()
      ensures entries == map[]
    {
      entries := map[];
    }

    /** `getOpenAISession`: null and no change for an unknown id; otherwise the stored object, its entry touched. */
    method GetOpenAISession(sessionId: string, now: int) returns (session: RtcSession?)
      modifies this
      ensures sessionId !in old(entries) ==> session == null && entries == old(entries)
      ensures sessionId in old(entries) ==>
        session == old(entries)[sessionId].session &&
        entries == old(entries)[sessionId := Entry(session, now)]
    {
      if sessionId !in entries {
        return null;
      }
      session := entries[sessionId].session;
      entries := entries[sessionId := Entry(session, now)];
    }

    /**
      * `createOpenAISession`: throws when `NEXT_PUBLIC_OPENAI_API_KEY` is unset
      * or empty, or when initialisation fails, storing nothing; otherwise stores
      * a new active session under `sessionId`, replacing any previous entry
      * without closing its session.
      */
    method CreateOpenAISession(env: Env, sessionId: string, clientId: string, voice: Option<string>,
                               initFails: bool, now: int)
      returns (r: Result<RtcSession>)
      modifies this
      ensures !KeyConfigured(env) ==>
        r == Throw("OpenAI API key not configured") && entries == old(entries)
      ensures KeyConfigured(env) && initFails ==>
        r == Throw("Failed to initialize OpenAI session") && entries == old(entries)
      ensures KeyConfigured(env) && !initFails ==>
        r.Ok? && fresh(r.value) && r.value.isActive &&
        entries == old(entries)[sessionId := Entry(r.value, now)]
      ensures r.Ok? ==>
        fresh(r.value) && r.value.isActive &&
        r.value.apiKey == env["NEXT_PUBLIC_OPENAI_API_KEY"] &&
        r.value.sessionId == sessionId && r.value.clientId == clientId &&
        r.value.voice == voice.GetOr("alloy") &&
        entries == old(entries)[sessionId := Entry(r.value, now)]
      ensures forall k :: k in old(entries) ==> unchanged(old(entries)[k].session)
    {
      if !KeyConfigured(env) {
        return Throw("OpenAI API key not configured");
      }
      var session := new RtcSession(env["NEXT_PUBLIC_OPENAI_API_KEY"], sessionId, clientId, voice.GetOr("alloy"));
      var success := session.Initialize(initFails);
      if !success {
        return Throw("Failed to initialize OpenAI session");
      }
      entries := entries[sessionId := Entry(session, now)];
      return Ok(session);
    }

    /** `deleteOpenAISession`: false for an unknown id; otherwise closes the session and drops the entry. */
    method DeleteOpenAISession(sessionId: string) returns (deleted: bool)
      modifies this, if sessionId in entries then {entries[sessionId].session} else {}
      ensures deleted <==> sessionId in old(entries)
      ensures entries == old(entries) - {sessionId}
      ensures deleted ==> !old(entries)[sessionId].session.isActive
    {
      if sessionId !in entries {
        return false;
      }
      entries[sessionId].session.Close();
      entries := entries - {sessionId};
      return true;
    }
  }
}
