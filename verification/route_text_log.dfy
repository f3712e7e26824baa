/**
  * `POST /api/v1/voice/text-log`: validates a conversation turn, then
  * appends it to the session's JSON log in the `logs` directory, creating
  * a time-stamped file the first time the session logs anything.
  */
module TextLogRoute {
  import opened Text
  import opened Js
  import opened Security
  import opened Files

  /**
    * The `isTranscription` value: `text && (text.includes('\n') ||
    * body.isTranscription || body.source === 'audio_transcription')`. None
    * when `includes` is not a method of `text` (a truthy number, boolean or
    * object), where the call throws.
    */
  function TranscriptionFlag(body: Value, text: Value): (r: Option<Value>)
    ensures r.None? <==> Truthy(text) && !text.Str? && !text.Arr?
    ensures r.Some? ==>
      (Truthy(r.value) <==>
        Truthy(text) &&
        ((text.Str? && Contains(text.s, "\n")) || (text.Arr? && Str("\n") in text.items) ||
         Truthy(Prop(body, "isTranscription")) ||
         StrictEquals(Prop(body, "source"), Str("audio_transcription"))))
  {
    if !Truthy(text) then Some(text)
    else
      var hasNewline :=
        match text
        case Str(s) => Some(Contains(s, "\n"))
        case Arr(items) => Some(Str("\n") in items)
        case _ => None;
      match hasNewline
      case None => None
      case Some(b) =>
        Some(Or(Or(Bool(b), Prop(body, "isTranscription")),
                Bool(StrictEquals(Prop(body, "source"), Str("audio_transcription")))))
  }

  /** The only accepted message types. */
  predicate ValidType(t: Value)
  {
    t == Str("user") || t == Str("assistant")
  }

  /** Clients that skip the allow-list. */
  predicate IsTestClient(clientId: Value)
  {
    StrictEquals(clientId, Str("test_client")) || StrictEquals(clientId, Str("demo_client"))
  }

  /** The outcome of the checks: an early answer, or the entry to log. */
  datatype Decision =
    | Reject(response: Response)
    | Accept(sessionId: Value, entry: Value, flag: Value)

  /** The log entry: the request's fields, the time, and a transcription mark when the flag holds. */
  function LogEntry(sessionId: Value, clientId: Value, now: int, kind: Value, text: Value, flag: Value): (e: Value)
    ensures e.Obj? && Prop(e, "sessionId") == sessionId && Prop(e, "clientId") == clientId
    ensures Prop(e, "text") == text && Prop(e, "type") == kind && Prop(e, "timestamp") == Num(now)
    ensures "isTranscription" in e.fields <==> Truthy(flag)
    ensures Truthy(flag) ==> Prop(e, "isTranscription") == Bool(true)
  {
    var base := map["sessionId" := sessionId, "clientId" := clientId, "timestamp" := Num(now),
                    "type" := kind, "text" := text];
    Obj(if Truthy(flag) then base["isTranscription" := Bool(true)] else base)
  }

  /**
    * A body every check passes: client and session ids present, a valid
    * type, non-empty string text, and a test client or one the allow-list
    * admits for the referer.
    */
  predicate Loggable(env: Env, b: Value, referer: Option<string>)
  {
    !b.Null? && !b.Undefined? &&
    Truthy(Prop(b, "clientId")) && Truthy(Prop(b, "sessionId")) &&
    ValidType(Prop(b, "type")) && Prop(b, "text").Str? && Prop(b, "text").s != "" &&
    (IsTestClient(Prop(b, "clientId")) || ValidateClientValue(env, Prop(b, "clientId"), referer.GetOr("")))
  }

  /**
    * The checks, in source order. `body` is the parsed JSON body (None when
    * it did not parse); `now` is the time in milliseconds.
    */
  function Check(env: Env, body: Option<Value>, referer: Option<string>, now: int): (d: Decision)
    ensures d.Accept? ==>
      body.Some? && Truthy(Prop(body.value, "clientId")) && Truthy(Prop(body.value, "sessionId")) &&
      ValidType(Prop(body.value, "type")) && Prop(body.value, "text").Str? &&
      Prop(body.value, "text").s != "" &&
      (IsTestClient(Prop(body.value, "clientId")) ||
       ValidateClientValue(env, Prop(body.value, "clientId"), referer.GetOr(""))) &&
      d.sessionId == Prop(body.value, "sessionId")
    ensures d.Reject? ==> d.response.status in {400, 403, 500}
    ensures d.Accept? <==> body.Some? && Loggable(env, body.value, referer)
    ensures body.Some? && Loggable(env, body.value, referer) ==>
      var b := body.value;
      var flag := TranscriptionFlag(b, Prop(b, "text"));
      flag.Some? &&
      d == Accept(Prop(b, "sessionId"),
                  LogEntry(Prop(b, "sessionId"), Prop(b, "clientId"), now, Prop(b, "type"), Prop(b, "text"), flag.value),
                  flag.value)
  {
    if body.None? || Destructure(body.value, "clientId").None? then
      Reject(Response(500, ErrorBody("Internal server error")))
    else
      var b := body.value;
      var clientId := Prop(b, "clientId");
      var sessionId := Prop(b, "sessionId");
      var kind := Prop(b, "type");
      var text := Prop(b, "text");
      match TranscriptionFlag(b, text)
      case None => Reject(Response(500, ErrorBody("Internal server error")))
      case Some(flag) =>
        if !Truthy(clientId) then Reject(Response(400, ErrorBody("Client ID is required")))
        else if !Truthy(sessionId) then Reject(Response(400, ErrorBody("Session ID is required")))
        else if !ValidType(kind) then Reject(Response(400, ErrorBody("Valid type (user or assistant) is required")))
        else if !Truthy(text) then Reject(Response(400, ErrorBody("Text content is required")))
        else if !text.Str? then Reject(Response(500, ErrorBody("Internal server error")))
        else if !IsTestClient(clientId) && !ValidateClientValue(env, clientId, referer.GetOr("")) then
          Reject(Response(403, ErrorBody("Invalid client ID or referer")))
        else Accept(sessionId, LogEntry(sessionId, clientId, now, kind, text, flag), flag)
  }

  /** The checks run in order: client id, session id, type, text; each failure answers 400. */
  lemma CheckOrder(env: Env, body: Value, referer: Option<string>, now: int)
    requires !body.Null? && !body.Undefined?
    requires TranscriptionFlag(body, Prop(body, "text")).Some?
    ensures var d := Check(env, Some(body), referer, now);
      (!Truthy(Prop(body, "clientId")) ==> d == Reject(Response(400, ErrorBody("Client ID is required")))) &&
      (Truthy(Prop(body, "clientId")) && !Truthy(Prop(body, "sessionId")) ==>
        d == Reject(Response(400, ErrorBody("Session ID is required")))) &&
      (Truthy(Prop(body, "clientId")) && Truthy(Prop(body, "sessionId")) && !ValidType(Prop(body, "type")) ==>
        d == Reject(Response(400, ErrorBody("Valid type (user or assistant) is required")))) &&
      (Truthy(Prop(body, "clientId")) && Truthy(Prop(body, "sessionId")) && ValidType(Prop(body, "type")) &&
        !Truthy(Prop(body, "text")) ==>
        d == Reject(Response(400, ErrorBody("Text content is required"))))
  {
  }

  /** Test clients are accepted from any referer; others need the allow-list. */
  lemma TestClientsSkipAllowList(env: Env, body: Value, referer: Option<string>, now: int)
    requires !body.Null? && !body.Undefined?
    requires Truthy(Prop(body, "sessionId")) && ValidType(Prop(body, "type"))
    requires Prop(body, "text").Str? && Prop(body, "text").s != ""
    ensures IsTestClient(Prop(body, "clientId")) ==> Check(env, Some(body), referer, now).Accept?
    ensures (!IsTestClient(Prop(body, "clientId")) && Truthy(Prop(body, "clientId")) &&
      !ValidateClientValue(env, Prop(body, "clientId"), referer.GetOr(""))) ==>
      Check(env, Some(body), referer, now) == Reject(Response(403, ErrorBody("Invalid client ID or referer")))
  {
  }

  /** The time stamp of a new file: first `T` to `_`, every `:` to `-`, cut at the first `.`. */
  function FileStamp(iso: string): (stamp: string)
    ensures |stamp| == IndexOf(iso, '.')
    ensures forall j :: 0 <= j < |stamp| ==>
      stamp[j] == (if iso[j] == ':' then '-' else if j == IndexOf(iso, 'T') then '_' else iso[j])
    ensures ':' !in stamp && '.' !in stamp
  {
    var r := ReplaceAll(ReplaceFirst(iso, 'T', '_'), ':', '-');
    var stamp := FirstPiece(r, '.');
    assert forall j :: 0 <= j < |r| ==> (r[j] == '.' <==> iso[j] == '.');
    IndexOfUnique(r, '.', IndexOf(iso, '.'));
    assert forall j :: 0 <= j < |stamp| ==> stamp[j] == r[j];
    stamp
  }

  /** Where the first `T` and the first `.` of `<date>T<time>.<rest>` sit. */
  lemma IsoSeparators(date: string, time: string, rest: string)
    requires 'T' !in date && '.' !in date && '.' !in time
    ensures var iso := date + "T" + time + "." + rest;
      IndexOf(iso, 'T') == |date| && IndexOf(iso, '.') == |date| + 1 + |time|
  {
    var iso := date + "T" + time + "." + rest;
    var n := |date|;
    assert forall j :: 0 <= j < n ==> iso[j] == date[j];
    assert iso[n] == 'T';
    assert forall j :: 0 <= j < |time| ==> iso[n + 1 + j] == time[j];
    assert iso[n + 1 + |time|] == '.';
    IndexOfUnique(iso, 'T', n);
    IndexOfUnique(iso, '.', n + 1 + |time|);
  }

  /**
    * For a time stamp shaped like `toISOString`'s output, `<date>T<time>.<rest>`,
    * the file stamp is `<date>_<time>` with the time's colons turned into dashes.
    */
  lemma StampOfIso(date: string, time: string, rest: string)
    requires 'T' !in date && ':' !in date && '.' !in date && '.' !in time
    ensures FileStamp(date + "T" + time + "." + rest) == date + "_" + ReplaceAll(time, ':', '-')
  {
    var iso := date + "T" + time + "." + rest;
    var n := |date|;
    IsoSeparators(date, time, rest);
    var stamp := FileStamp(iso);
    var want := date + "_" + ReplaceAll(time, ':', '-');
    forall j | 0 <= j < |want|
      ensures stamp[j] == want[j]
    {
      if j < n {
        assert iso[j] == date[j] && want[j] == date[j];
      } else if j > n {
        assert iso[j] == time[j - n - 1];
        assert want[j] == ReplaceAll(time, ':', '-')[j - n - 1];
      }
    }
  }

  /** Every log file of a session ends with `_<sessionId>.json`. */
  function LogSuffix(sessionId: string): string
  {
    "_" + sessionId + ".json"
  }

  /** The name of a session's first log file. */
  function NewLogName(iso: string, sessionId: string): (name: string)
    ensures name == FileStamp(iso) + LogSuffix(sessionId)
    ensures EndsWith(name, LogSuffix(sessionId))
  {
    var name := FileStamp(iso) + LogSuffix(sessionId);
    assert name[|name| - |LogSuffix(sessionId)|..] == LogSuffix(sessionId);
    name
  }

  /** Index of the first name with the suffix, or `|names|`. */
  function FirstMatch(names: seq<string>, suffix: string): (i: nat)
    ensures i <= |names|
    ensures forall j :: 0 <= j < i ==> !EndsWith(names[j], suffix)
    ensures i < |names| ==> EndsWith(names[i], suffix)
  {
    if names == [] then 0
    else if EndsWith(names[0], suffix) then 0
    else 1 + FirstMatch(names[1..], suffix)
  }

  /** The first-match property determines `FirstMatch`. */
  lemma FirstMatchUnique(names: seq<string>, suffix: string, k: nat)
    requires k <= |names|
    requires forall j :: 0 <= j < k ==> !EndsWith(names[j], suffix)
    requires k < |names| ==> EndsWith(names[k], suffix)
    ensures FirstMatch(names, suffix) == k
  {
  }

  /** A session's log file and its entries. */
  datatype Log = Log(name: string, entries: seq<Value>)

  /**
    * `findExistingLogFile`: the first file, in listing order, whose name
    * ends with the suffix, with its entries; None when there is none or it
    * cannot be read or parsed.
    */
  function ExistingLog(names: seq<string>, files: map<string, FileData>, sessionId: string): (r: Option<Log>)
    ensures r.Some? ==> EndsWith(r.value.name, LogSuffix(sessionId)) && r.value.name in files
    ensures var i := FirstMatch(names, LogSuffix(sessionId));
      (r.Some? <==> i < |names| && names[i] in files && files[names[i]].Parsed?) &&
      (r.Some? ==> r.value == Log(names[i], AsList(files[names[i]].json)))
  {
    var i := FirstMatch(names, LogSuffix(sessionId));
    if i == |names| || names[i] !in files || files[names[i]].Corrupt? then None
    else Some(Log(names[i], AsList(files[names[i]].json)))
  }

  /**
    * The match is on the name's ending alone, so a session whose id ends in
    * `_<id>` shares its log with session `<id>`: looking up `<id>` finds the
    * other session's file.
    */
  lemma OtherSessionLogFound(stamp: string, prefix: string, id: string, entries: seq<Value>)
    ensures var name := stamp + LogSuffix(prefix + "_" + id);
      ExistingLog([name], map[name := Parsed(Arr(entries))], id) == Some(Log(name, entries))
  {
    var name := stamp + LogSuffix(prefix + "_" + id);
    var suffix := LogSuffix(id);
    assert name == (stamp + "_" + prefix) + suffix;
    assert name[|name| - |suffix|..] == suffix;
    FirstMatchUnique([name], suffix, 0);
  }

  /** The log the new entry goes to: the existing one, or a new empty one. */
  function TargetLog(names: seq<string>, files: map<string, FileData>, sessionId: string, iso: string): (log: Log)
    ensures EndsWith(log.name, LogSuffix(sessionId))
    ensures ExistingLog(names, files, sessionId).Some? ==> log == ExistingLog(names, files, sessionId).value
    ensures ExistingLog(names, files, sessionId).None? ==> log == Log(NewLogName(iso, sessionId), [])
  {
    match ExistingLog(names, files, sessionId)
    case Some(log) => log
    case None => Log(NewLogName(iso, sessionId), [])
  }

  /** The success body. */
  function Saved(count: nat, flag: Value): (v: Value)
    ensures Prop(v, "success") == Bool(true) && Prop(v, "entriesCount") == Num(count)
  {
    Obj(map["success" := Bool(true), "message" := Str("Text log saved successfully"),
            "entriesCount" := Num(count), "isTranscription" := Or(flag, Undefined)])
  }

  /** The `logs` directory: its files in listing order, and their content. */
  class LogsDirectory {
    var names: seq<string>
    var files: map<string, FileData>

    constructor (names: seq<string>, files: map<string, FileData>)
      ensures this.names == names && this.files == files
    {
      this.names := names;
      this.files := files;
    }

    /** `findExistingLogFile`, walking the listing in order. */
    method FindExistingLogFile(sessionId: string) returns (found: Option<Log>)
      ensures found == ExistingLog(names, files, sessionId)
    {
      var suffix := LogSuffix(sessionId);
      var i := 0;
      while i < |names|
        invariant 0 <= i <= |names|
        invariant forall j :: 0 <= j < i ==> !EndsWith(names[j], suffix)
      {
        if EndsWith(names[i], suffix) {
          FirstMatchUnique(names, suffix, i);
          if names[i] !in files || files[names[i]].Corrupt? {
            return None;
          }
          return Some(Log(names[i], AsList(files[names[i]].json)));
        }
        i := i + 1;
      }
      FirstMatchUnique(names, suffix, i);
      return None;
    }

    /** Writes a whole file, adding its name to the listing if it is new. */
    method WriteFile(name: string, content: FileData)
      modifies this
      ensures files == old(files)[name := content]
      ensures names == if name in old(names) then old(names) else old(names) + [name]
    {
      files := files[name := content];
      if name !in names {
        names := names + [name];
      }
    }

    /**
      * POST. `now` is the time in milliseconds and `iso` the same moment as
      * `toISOString()` gives it. A rejected request leaves the directory
      * alone; an accepted one appends the entry to the session's log.
      */
    method Post(env: Env, body: Option<Value>, referer: Option<string>, now: int, iso: string)
      returns (response: Response)
      modifies this
      ensures var d := Check(env, body, referer, now);
        d.Reject? ==> response == d.response && names == old(names) && files == old(files)
      ensures var d := Check(env, body, referer, now);
        d.Accept? ==>
          var target := TargetLog(old(names), old(files), ToString(d.sessionId), iso);
          files == old(files)[target.name := Parsed(Arr(target.entries + [d.entry]))] &&
          names == (if target.name in old(names) then old(names) else old(names) + [target.name]) &&
          response == Response(200, Saved(|target.entries| + 1, d.flag))
    {
      var d := Check(env, body, referer, now);
      if d.Reject? {
        return d.response;
      }
      var count := AppendEntry(ToString(d.sessionId), d.entry, iso);
      return Response(200, Saved(count, d.flag));
    }

    /**
      * Appends an entry to the session's log: the existing readable one, or a
      * new file named for `iso`. Returns the number of entries now in it.
      */
    method AppendEntry(sessionId: string, entry: Value, iso: string) returns (count: nat)
      modifies this
      ensures var target := TargetLog(old(names), old(files), sessionId, iso);
        files == old(files)[target.name := Parsed(Arr(target.entries + [entry]))] &&
        names == (if target.name in old(names) then old(names) else old(names) + [target.name]) &&
        count == |target.entries| + 1
    {
      var existing := FindExistingLogFile(sessionId);
      var log := if existing.Some? then existing.value else Log(NewLogName(iso, sessionId), []);
      TargetOfLookup(names, files, sessionId, iso, existing);
      var entries := log.entries + [entry];
      WriteFile(log.name, Parsed(Arr(entries)));
      return |entries|;
    }
  }

  /** The log `Post` writes to, from the result of the lookup. */
  lemma TargetOfLookup(names: seq<string>, files: map<string, FileData>, sessionId: string, iso: string,
                       existing: Option<Log>)
    requires existing == ExistingLog(names, files, sessionId)
    ensures TargetLog(names, files, sessionId, iso) ==
      if existing.Some? then existing.value else Log(NewLogName(iso, sessionId), [])
  {
  }

  /** The listing after an append. */
  function NamesAfter(names: seq<string>, name: string): seq<string>
  {
    if name in names then names else names + [name]
  }

  /** The log of an append and the listing and files after it. */
  predicate FoundAfterAppend(names: seq<string>, files: map<string, FileData>, sessionId: string,
                             iso: string, entry: Value)
  {
    var target := TargetLog(names, files, sessionId, iso);
    ExistingLog(NamesAfter(names, target.name),
                files[target.name := Parsed(Arr(target.entries + [entry]))], sessionId)
      == Some(Log(target.name, target.entries + [entry]))
  }

  /** Appending to a readable log keeps its place in the listing and extends it. */
  lemma AppendToExistingLog(names: seq<string>, files: map<string, FileData>, sessionId: string,
                            iso: string, entry: Value)
    requires ExistingLog(names, files, sessionId).Some?
    ensures TargetLog(names, files, sessionId, iso) == ExistingLog(names, files, sessionId).value
    ensures FoundAfterAppend(names, files, sessionId, iso, entry)
  {
    var target := TargetLog(names, files, sessionId, iso);
    var i := FirstMatch(names, LogSuffix(sessionId));
    assert i < |names| && names[i] == target.name;
    assert NamesAfter(names, target.name) == names;
  }

  /** A session with no log gets a new one at the end of the listing, holding just the entry. */
  lemma AppendToNewLog(names: seq<string>, files: map<string, FileData>, sessionId: string,
                       iso: string, entry: Value)
    requires FirstMatch(names, LogSuffix(sessionId)) == |names|
    ensures TargetLog(names, files, sessionId, iso) == Log(NewLogName(iso, sessionId), [])
    ensures NewLogName(iso, sessionId) !in names
    ensures FoundAfterAppend(names, files, sessionId, iso, entry)
  {
    var name := NewLogName(iso, sessionId);
    NewLogIsFirstMatch(names, sessionId, iso);
    assert TargetLog(names, files, sessionId, iso) == Log(name, []);
    assert NamesAfter(names, name) == names + [name];
    assert [] + [entry] == [entry];
    NewLogFound(names, files, sessionId, name, [entry]);
  }

  /** A new log written at the end of the listing is what the next lookup finds. */
  lemma NewLogFound(names: seq<string>, files: map<string, FileData>, sessionId: string, name: string,
                    entries: seq<Value>)
    requires FirstMatch(names + [name], LogSuffix(sessionId)) == |names|
    ensures ExistingLog(names + [name], files[name := Parsed(Arr(entries))], sessionId) == Some(Log(name, entries))
  {
    var names' := names + [name];
    var files' := files[name := Parsed(Arr(entries))];
    assert names'[|names|] == name;
    assert name in files' && files'[name] == Parsed(Arr(entries));
    assert AsList(Arr(entries)) == entries;
  }

  /** A new log name is not listed yet, and once listed it is the session's first match. */
  lemma NewLogIsFirstMatch(names: seq<string>, sessionId: string, iso: string)
    requires FirstMatch(names, LogSuffix(sessionId)) == |names|
    ensures NewLogName(iso, sessionId) !in names
    ensures FirstMatch(names + [NewLogName(iso, sessionId)], LogSuffix(sessionId)) == |names|
  {
    var suffix := LogSuffix(sessionId);
    var name := NewLogName(iso, sessionId);
    assert forall j :: 0 <= j < |names| ==> (names + [name])[j] == names[j];
    FirstMatchUnique(names + [name], suffix, |names|);
  }

  /**
    * After an append, the session's log is found again with the new entry at
    * its end: entries are only ever added, in arrival order. (An unreadable
    * log of the session breaks this; see `UnreadableLogShadowsAppends`.)
    */
  lemma FindAfterAppend(names: seq<string>, files: map<string, FileData>, sessionId: string,
                        iso: string, entry: Value)
    requires FirstMatch(names, LogSuffix(sessionId)) == |names| || ExistingLog(names, files, sessionId).Some?
    ensures FoundAfterAppend(names, files, sessionId, iso, entry)
  {
    if ExistingLog(names, files, sessionId).Some? {
      AppendToExistingLog(names, files, sessionId, iso, entry);
    } else {
      AppendToNewLog(names, files, sessionId, iso, entry);
    }
  }

  /**
    * An unreadable log shadows the session: each append goes to a new file
    * named after the current time, and the next lookup still finds nothing,
    * so every entry starts a log of its own.
    */
  lemma UnreadableLogShadowsAppends(names: seq<string>, files: map<string, FileData>, sessionId: string,
                                    iso: string, entry: Value)
    requires FirstMatch(names, LogSuffix(sessionId)) < |names|
    requires ExistingLog(names, files, sessionId).None?
    requires NewLogName(iso, sessionId) !in names
    ensures TargetLog(names, files, sessionId, iso) == Log(NewLogName(iso, sessionId), [])
    ensures var name := NewLogName(iso, sessionId);
      ExistingLog(names + [name], files[name := Parsed(Arr([entry]))], sessionId).None?
  {
    var suffix := LogSuffix(sessionId);
    var name := NewLogName(iso, sessionId);
    var names' := names + [name];
    var files' := files[name := Parsed(Arr([entry]))];
    var i := FirstMatch(names, suffix);
    assert forall j :: 0 <= j < |names| ==> names'[j] == names[j];
    FirstMatchUnique(names', suffix, i);
    assert names'[i] == names[i] && names[i] != name;
    assert names[i] in files' <==> names[i] in files;
    assert names[i] in files ==> files'[names[i]] == files[names[i]];
  }
}
