/**
  * The browser SDK's `VoiceAI` widget, reduced to the state its methods
  * update: the session id and the saved session, the active and listening
  * flags, the received messages, the UI mode and the status classes of the
  * widget's button. DOM, audio, `fetch` and WebRTC calls become parameters.
  */
module Sdk {
  import opened Js
  import opened Url

  /** `DEFAULT_CONFIG`. */
  const DefaultConfig: map<string, Value> := map[
    "position" := Str("bottom-right"),
    "theme" := Str("light"),
    "language" := Str("en"),
    "customStyles" := Obj(map[])]

  /** `{ ...DEFAULT_CONFIG, ...config }`: every key the caller gives overrides the default. */
  function EffectiveConfig(config: map<string, Value>): (c: map<string, Value>)
    ensures c.Keys == DefaultConfig.Keys + config.Keys
    ensures forall k :: k in config ==> c[k] == config[k]
    ensures forall k :: k in DefaultConfig && k !in config ==> c[k] == DefaultConfig[k]
  {
    DefaultConfig + config
  }

  /** `new URL(serverUrl)` succeeds, in the URL model of this project. */
  predicate ParsesAsUrl(v: Value)
  {
    Hostname(ToString(v)).Some?
  }

  /** The constructor's checks: a client id, a server URL, and a server URL that parses. */
  predicate ConfigValid(config: map<string, Value>)
  {
    var c := EffectiveConfig(config);
    var clientId := if "clientId" in c then c["clientId"] else Undefined;
    var serverUrl := if "serverUrl" in c then c["serverUrl"] else Undefined;
    Truthy(clientId) && Truthy(serverUrl) && ParsesAsUrl(serverUrl)
  }

  /** The defaults never supply a client id or a server URL: the caller must. */
  lemma ConfigNeedsCallerKeys(config: map<string, Value>)
    ensures ConfigValid(config) <==>
      "clientId" in config && Truthy(config["clientId"]) &&
      "serverUrl" in config && Truthy(config["serverUrl"]) && ParsesAsUrl(config["serverUrl"])
  {
    var c := EffectiveConfig(config);
    assert "clientId" !in DefaultConfig && "serverUrl" !in DefaultConfig;
    assert "clientId" in c <==> "clientId" in config;
    assert "serverUrl" in c <==> "serverUrl" in config;
  }

  /** The four classes `_updateUI` manages on the button. */
  const StatusClasses: set<string> := {"voice-ai-active", "voice-ai-thinking", "voice-ai-responding", "voice-ai-error"}

  /** The status class a mode adds: `volume` shows as active, idle, inactive and unknown modes add none. */
  function ClassFor(mode: string): (r: set<string>)
    ensures r <= StatusClasses
    ensures |r| <= 1
    ensures r == {} <==> mode !in {"active", "volume", "thinking", "responding", "error"}
  {
    if mode == "active" || mode == "volume" then {"voice-ai-active"}
    else if mode == "thinking" then {"voice-ai-thinking"}
    else if mode == "responding" then {"voice-ai-responding"}
    else if mode == "error" then {"voice-ai-error"}
    else {}
  }

  /** The microphone image is shown only in the resting modes. */
  predicate MicVisible(mode: string)
  {
    mode == "inactive" || mode == "idle"
  }

  /** The UI mode a data-channel message of type `t` moves to, if any. */
  function ModeForMessage(t: Value): (r: Option<string>)
    ensures t == Str("input_audio_buffer.speech_started") ==> r == Some("thinking")
    ensures t == Str("conversation.item.created") ==> r == Some("responding")
    ensures t == Str("conversation.item.completed") ==> r == Some("idle")
    ensures r.None? <==> !(t in {Str("input_audio_buffer.speech_started"), Str("conversation.item.created"), Str("conversation.item.completed")})
  {
    if t == Str("input_audio_buffer.speech_started") then Some("thinking")
    else if t == Str("conversation.item.created") then Some("responding")
    else if t == Str("conversation.item.completed") then Some("idle")
    else None
  }

  /** The UI mode a peer-connection state moves to, if any. */
  function ModeForConnection(state: string): (r: Option<string>)
    ensures state == "connected" ==> r == Some("idle")
    ensures state == "disconnected" || state == "failed" ==> r == Some("error")
    ensures state == "closed" ==> r == Some("inactive")
    ensures r.None? <==> state !in {"connected", "disconnected", "failed", "closed"}
  {
    if state == "connected" then Some("idle")
    else if state == "disconnected" || state == "failed" then Some("error")
    else if state == "closed" then Some("inactive")
    else None
  }

  /**
    * The message a data-channel event carries, if it is kept: the event data
    * must be truthy, parse (`parse` stands for `JSON.parse`), not be null and
    * have a truthy `type`.
    */
  function Accepted(data: Value, parse: string -> Option<Value>): (r: Option<Value>)
    ensures r.Some? ==> Truthy(data) && parse(ToString(data)) == Some(r.value) && Truthy(Prop(r.value, "type"))
    ensures (Truthy(data) && parse(ToString(data)).Some? && !parse(ToString(data)).value.Null? &&
      !parse(ToString(data)).value.Undefined? && Truthy(Prop(parse(ToString(data)).value, "type"))) ==> r.Some?
  {
    if !Truthy(data) then None
    else match parse(ToString(data))
      case None => None
      case Some(m) =>
        if Destructure(m, "type").None? || !Truthy(Prop(m, "type")) then None else Some(m)
  }

  const SessionKey := "voice_ai_session"

  class VoiceAI {
    /** The effective configuration. */
    const config: map<string, Value>
    const clientId: Value
    /** Whether the constructor went on to `_init`. */
    const initStarted: bool
    /** Whether the widget (`ui` and its button) exists. */
    const hasUI: bool
    var sessionId: Value
    /** The `voice_ai_session` entry of `localStorage`. */
    var savedSession: Option<string>
    var isActive: bool
    var isListening: bool
    var messages: seq<Value>
    var uiMode: Option<string>
    var buttonClasses: set<string>
    var micShown: bool
    var hasPeerConnection: bool

    /** The button shows the status class and microphone of the last recorded mode. */
    predicate Valid()
      reads this
    {
      hasUI && uiMode.Some? ==>
        buttonClasses * StatusClasses == ClassFor(uiMode.value) && micShown == MicVisible(uiMode.value)
    }

    /**
      * `new VoiceAI(config)`: the checks run first, and `_init` starts only
      * when all of them pass.
      */
    constructor (userConfig: map<string, Value>, saved: Option<string>, hasUI: bool, classes: set<string>)
      ensures Valid()
      ensures config == EffectiveConfig(userConfig)
      ensures clientId == (if "clientId" in config then config["clientId"] else Undefined)
      ensures initStarted <==> ConfigValid(userConfig)
      ensures this.hasUI == hasUI && buttonClasses == classes && savedSession == saved
      ensures sessionId == Null && !isActive && !isListening && messages == [] && uiMode.None? && !hasPeerConnection
    {
      var c := EffectiveConfig(userConfig);
      config := c;
      clientId := if "clientId" in c then c["clientId"] else Undefined;
      var serverUrl := if "serverUrl" in c then c["serverUrl"] else Undefined;
      var hasErrors := false;
      if !Truthy(if "clientId" in c then c["clientId"] else Undefined) {
        hasErrors := true;
      }
      if !Truthy(serverUrl) {
        hasErrors := true;
      }
      if Truthy(serverUrl) && !ParsesAsUrl(serverUrl) {
        hasErrors := true;
      }
      initStarted := !hasErrors;
      this.hasUI := hasUI;
      buttonClasses := classes;
      savedSession := saved;
      sessionId := Null;
      isActive := false;
      isListening := false;
      messages := [];
      uiMode := None;
      micShown := false;
      hasPeerConnection := false;
    }

    /**
      * `_loadSession`: a saved session is reused only when it belongs to this
      * client and the server confirms it (`confirmed`); otherwise the entry
      * is removed. `parse` stands for `JSON.parse`.
      */
    method LoadSession(parse: string -> Option<Value>, confirmed: bool)
      modifies this
      ensures isActive == old(isActive) && isListening == old(isListening) && messages == old(messages)
      ensures uiMode == old(uiMode) && buttonClasses == old(buttonClasses) && micShown == old(micShown)
      ensures hasPeerConnection == old(hasPeerConnection)
      ensures old(savedSession).None? || old(savedSession) == Some("") ==>
        sessionId == old(sessionId) && savedSession == old(savedSession)
      ensures sessionId != old(sessionId) ==> sessionId == Null || savedSession == old(savedSession)
      ensures savedSession == old(savedSession) || savedSession.None?
      ensures old(savedSession).Some? && old(savedSession) != Some("") ==>
        var p := parse(old(savedSession).value);
        if p.Some? && !p.value.Null? && !p.value.Undefined? &&
           StrictEquals(Prop(p.value, "clientId"), clientId) && confirmed then
          sessionId == Prop(p.value, "sessionId") && savedSession == old(savedSession)
        else if p.Some? && !p.value.Null? && !p.value.Undefined? &&
                StrictEquals(Prop(p.value, "clientId"), clientId) then
          savedSession.None? && sessionId == Null
        else if p.Some? && !p.value.Null? && !p.value.Undefined? then
          savedSession.None? && sessionId == old(sessionId)
        else
          savedSession.None? && sessionId == Null
    {
      if savedSession.None? || savedSession.value == "" {
        return;
      }
      var p := parse(savedSession.value);
      if p.None? || Destructure(p.value, "clientId").None? {
        savedSession := None;
        sessionId := Null;
        return;
      }
      var session := p.value;
      if StrictEquals(Prop(session, "clientId"), clientId) {
        if confirmed {
          sessionId := Prop(session, "sessionId");
        } else {
          savedSession := None;
          sessionId := Null;
        }
      } else {
        savedSession := None;
      }
    }

    /**
      * `_updateUI(mode)`: the mode is recorded even without a widget; with
      * one, the four status classes are cleared, at most one is added and the
      * microphone follows the mode.
      */
    method UpdateUI(mode: string)
      requires Valid()
      modifies this
      ensures Valid()
      ensures uiMode == Some(mode)
      ensures hasUI ==> buttonClasses == old(buttonClasses) - StatusClasses + ClassFor(mode) && micShown == MicVisible(mode)
      ensures !hasUI ==> buttonClasses == old(buttonClasses) && micShown == old(micShown)
      ensures sessionId == old(sessionId) && savedSession == old(savedSession) && isActive == old(isActive)
      ensures isListening == old(isListening) && messages == old(messages) && hasPeerConnection == old(hasPeerConnection)
    {
      uiMode := Some(mode);
      if hasUI {
        buttonClasses := buttonClasses - StatusClasses + ClassFor(mode);
        micShown := MicVisible(mode);
      }
    }

    /** `_onDataChannelOpen`: the widget shows the idle mode once the data channel opens. */
    method OnDataChannelOpen()
      requires Valid()
      modifies this
      ensures Valid()
      ensures uiMode == Some("idle") && (hasUI ==> micShown && buttonClasses * StatusClasses == {})
      ensures sessionId == old(sessionId) && savedSession == old(savedSession) && isActive == old(isActive)
      ensures isListening == old(isListening) && messages == old(messages) && hasPeerConnection == old(hasPeerConnection)
    {
      UpdateUI("idle");
    }

    /** `_onDataChannelClose`: listening stops; the session stays active and the UI is untouched. */
    method OnDataChannelClose()
      requires Valid()
      modifies this
      ensures Valid()
      ensures !isListening
      ensures sessionId == old(sessionId) && savedSession == old(savedSession) && isActive == old(isActive)
      ensures messages == old(messages) && hasPeerConnection == old(hasPeerConnection)
      ensures uiMode == old(uiMode) && buttonClasses == old(buttonClasses) && micShown == old(micShown)
    {
      isListening := false;
    }

    /** `_onDataChannelMessage`: kept messages are appended in arrival order, and three types move the mode. */
    method OnDataChannelMessage(data: Value, parse: string -> Option<Value>)
      requires Valid()
      modifies this
      ensures Valid()
      ensures Accepted(data, parse).None? ==> messages == old(messages) && uiMode == old(uiMode)
      ensures Accepted(data, parse).Some? ==> messages == old(messages) + [Accepted(data, parse).value]
      ensures Accepted(data, parse).Some? ==>
        var mode := ModeForMessage(Prop(Accepted(data, parse).value, "type"));
        uiMode == (if mode.Some? then mode else old(uiMode))
      ensures sessionId == old(sessionId) && savedSession == old(savedSession) && isActive == old(isActive)
      ensures isListening == old(isListening) && hasPeerConnection == old(hasPeerConnection)
    {
      var m := Accepted(data, parse);
      if m.None? {
        return;
      }
      messages := messages + [m.value];
      var mode := ModeForMessage(Prop(m.value, "type"));
      if mode.Some? {
        UpdateUI(mode.value);
      }
    }

    /** `_onConnectionStateChange`: ignored without a peer connection, else the state picks the mode. */
    method OnConnectionStateChange(state: string)
      requires Valid()
      modifies this
      ensures Valid()
      ensures !old(hasPeerConnection) || ModeForConnection(state).None? ==> uiMode == old(uiMode)
      ensures old(hasPeerConnection) && ModeForConnection(state).Some? ==> uiMode == ModeForConnection(state)
      ensures sessionId == old(sessionId) && savedSession == old(savedSession) && isActive == old(isActive)
      ensures isListening == old(isListening) && messages == old(messages) && hasPeerConnection == old(hasPeerConnection)
    {
      if !hasPeerConnection {
        return;
      }
      var mode := ModeForConnection(state);
      if mode.Some? {
        UpdateUI(mode.value);
      }
    }

    /** `_cleanupWebRTC`: the connection goes, listening stops, the UI returns to idle. */
    method CleanupWebRTC()
      requires Valid()
      modifies this
      ensures Valid()
      ensures !hasPeerConnection && !isListening && uiMode == Some("idle")
      ensures sessionId == old(sessionId) && savedSession == old(savedSession) && isActive == old(isActive)
      ensures messages == old(messages)
    {
      hasPeerConnection := false;
      isListening := false;
      UpdateUI("idle");
    }

    /**
      * `startSession`: nothing when already active. `connectionCreated` says
      * whether `_initWebRTC` got as far as creating the peer connection
      * (`webrtcOk` whether it finished) and `configured` whether
      * `_configureSession` succeeded, which needs the connection; a failed
      * start is cleaned up.
      */
    method StartSession(connectionCreated: bool, webrtcOk: bool, configured: bool)
      requires Valid()
      requires webrtcOk ==> connectionCreated
      requires configured ==> connectionCreated
      modifies this
      ensures Valid()
      ensures old(isActive) ==>
        (isActive && uiMode == old(uiMode) && hasPeerConnection == old(hasPeerConnection) && isListening == old(isListening))
      ensures !old(isActive) && configured ==> isActive && isListening && hasPeerConnection && uiMode == Some("idle")
      ensures !old(isActive) && !configured ==> !isActive && !isListening && !hasPeerConnection && uiMode == Some("idle")
      ensures sessionId == old(sessionId) && savedSession == old(savedSession) && messages == old(messages)
    {
      if isActive {
        return;
      }
      InitWebRTC(connectionCreated, webrtcOk);
      if configured {
        UpdateUI("idle");
        isActive := true;
        isListening := true;
      } else {
        AbortStart();
      }
    }

    /** `_initWebRTC`: it never throws, but shows an error when it fails. */
    method InitWebRTC(connectionCreated: bool, webrtcOk: bool)
      requires Valid()
      modifies this
      ensures Valid()
      ensures hasPeerConnection == connectionCreated
      ensures webrtcOk ==> uiMode == old(uiMode)
      ensures !webrtcOk ==> uiMode == Some("error")
      ensures sessionId == old(sessionId) && savedSession == old(savedSession) && isActive == old(isActive)
      ensures isListening == old(isListening) && messages == old(messages)
    {
      hasPeerConnection := connectionCreated;
      if !webrtcOk {
        UpdateUI("error");
      }
    }

    /** The failure path of `startSession`: `_configureSession` shows the error, then the catch cleans up. */
    method AbortStart()
      requires Valid()
      modifies this
      ensures Valid()
      ensures !hasPeerConnection && !isListening && uiMode == Some("idle")
      ensures sessionId == old(sessionId) && savedSession == old(savedSession) && isActive == old(isActive)
      ensures messages == old(messages)
    {
      UpdateUI("error");
      CleanupWebRTC();
    }

    /** `stopSession`: always inactive afterwards. */
    method StopSession()
      requires Valid()
      modifies this
      ensures Valid()
      ensures !isActive && !isListening && !hasPeerConnection && uiMode == Some("idle")
      ensures sessionId == old(sessionId) && savedSession == old(savedSession) && messages == old(messages)
    {
      CleanupWebRTC();
      isActive := false;
    }

    /** `toggleSession`: stops an active session and starts an inactive one. */
    method ToggleSession(connectionCreated: bool, webrtcOk: bool, configured: bool)
      requires Valid()
      requires webrtcOk ==> connectionCreated
      requires configured ==> connectionCreated
      modifies this
      ensures Valid()
      ensures old(isActive) ==> !isActive && !hasPeerConnection
      ensures !old(isActive) ==> (isActive <==> configured)
      ensures sessionId == old(sessionId) && savedSession == old(savedSession) && messages == old(messages)
    {
      if isActive {
        StopSession();
      } else {
        StartSession(connectionCreated, webrtcOk, configured);
      }
    }
  }

  /** After `_updateUI`, the button carries at most one status class, and exactly one in the busy modes. */
  lemma StatusClassAfterUpdate(classes: set<string>, mode: string)
    ensures |(classes - StatusClasses + ClassFor(mode)) * StatusClasses| <= 1
    ensures mode in {"active", "thinking", "responding", "error"} ==>
      |(classes - StatusClasses + ClassFor(mode)) * StatusClasses| == 1
  {
    assert (classes - StatusClasses + ClassFor(mode)) * StatusClasses == ClassFor(mode);
  }

  /** The microphone is shown exactly in the modes that add no status class, apart from modes the widget does not know. */
  lemma MicShownOnlyWhenResting(mode: string)
    ensures MicVisible(mode) ==> ClassFor(mode) == {}
    ensures ClassFor(mode) != {} ==> !MicVisible(mode)
  {
  }
}
