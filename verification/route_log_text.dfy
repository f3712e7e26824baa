/**
  * `POST /api/log/text`: one JSON array per session and day under
  * `logs/text-logs/<date>/<id>.json`, each request pushing one message.
  */
module LogTextRoute {
  import opened Text
  import opened Js
  import opened Files

  /** The file a message goes to, relative to `logs/text-logs`. */
  function LogPath(date: string, id: string): (p: string)
    ensures StartsWith(p, date + "/") && EndsWith(p, id + ".json")
  {
    var p := date + "/" + id + ".json";
    assert p[..|date + "/"|] == date + "/";
    assert p[|p| - |id + ".json"|..] == id + ".json";
    p
  }

  /** Distinct days and distinct ids never share a file. */
  lemma {:induction false} LogPathInjective(d1: string, id1: string, d2: string, id2: string)
    requires '/' !in d1 && '/' !in d2
    requires LogPath(d1, id1) == LogPath(d2, id2)
    ensures d1 == d2 && id1 == id2
  {
    var p := LogPath(d1, id1);
    assert p == d1 + "/" + (id1 + ".json");
    assert p == d2 + "/" + (id2 + ".json");
    forall i | 0 <= i < |d1| ensures p[i] != '/' {
      assert p[i] == d1[i];
    }
    forall i | 0 <= i < |d2| ensures p[i] != '/' {
      assert p[i] == d2[i];
    }
    assert p[|d1|] == '/' && p[|d2|] == '/';
    IndexOfUnique(p, '/', |d1|);
    IndexOfUnique(p, '/', |d2|);
    assert d1 == p[..|d1|] && d2 == p[..|d2|];
    assert id1 + ".json" == p[|d1| + 1..];
    assert id1 == (id1 + ".json")[..|id1|];
    assert id2 == (id2 + ".json")[..|id2|];
  }

  /** `logData` before the push: the parsed file, or `[]` when it is missing or does not parse. */
  function Prior(existing: Option<FileData>): (v: Value)
    ensures existing.None? || existing.value.Corrupt? ==> v == Arr([])
    ensures existing.Some? && existing.value.Parsed? ==> v == existing.value.json
  {
    match existing
    case None => Arr([])
    case Some(Corrupt) => Arr([])
    case Some(Parsed(v)) => v
  }

  /**
    * The file after pushing `entry`, or None when `logData.push` throws
    * because the file held JSON that is not an array.
    */
  function Logged(existing: Option<FileData>, entry: Value): (r: Option<FileData>)
    ensures r.Some? <==> Prior(existing).Arr?
    ensures r.Some? ==> r.value.Parsed? && r.value.json.Arr?
    ensures r.Some? ==> var items := r.value.json.items;
      |items| == |Prior(existing).items| + 1 && items[|items| - 1] == entry &&
      items[..|items| - 1] == Prior(existing).items
  {
    var prior := Prior(existing);
    if prior.Arr? then
      var items := prior.items + [entry];
      assert items[..|items| - 1] == prior.items;
      Some(Parsed(Arr(items)))
    else None
  }

  /** Two pushes to one file keep both messages, in order, after what was there. */
  lemma {:induction false} LoggedTwice(existing: Option<FileData>, e1: Value, e2: Value)
    requires Prior(existing).Arr?
    ensures Logged(existing, e1).Some?
    ensures Logged(Logged(existing, e1), e2) == Some(Parsed(Arr(Prior(existing).items + [e1, e2])))
  {
    var once := Logged(existing, e1);
    var items := once.value.json.items;
    assert items == Prior(existing).items + [e1] by {
      assert items == items[..|items| - 1] + [items[|items| - 1]];
    }
    assert Prior(existing).items + [e1] + [e2] == Prior(existing).items + [e1, e2];
  }

  /** A file that does not parse is started over: its old content is lost. */
  lemma CorruptLogRestarts(entry: Value)
    ensures Logged(Some(Corrupt), entry) == Some(Parsed(Arr([entry])))
  {
  }

  /** The message pushed: role, content and the given or current timestamp. */
  function Message(role: Value, content: Value, timestamp: Value, nowIso: string): (m: Value)
    ensures m.Obj? && Prop(m, "role") == role && Prop(m, "content") == content
    ensures Truthy(timestamp) ==> Prop(m, "timestamp") == timestamp
    ensures !Truthy(timestamp) ==> Prop(m, "timestamp") == Str(nowIso)
  {
    Obj(map["role" := role, "content" := content, "timestamp" := Or(timestamp, Str(nowIso))])
  }

  /** The id a file is named by: the session id, or the generated `session_<ms>_<random>`. */
  function LogId(sessionId: Value, generatedId: string): (id: string)
    ensures Truthy(sessionId) ==> id == ToString(sessionId)
    ensures !Truthy(sessionId) ==> id == generatedId
  {
    ToString(Or(sessionId, Str(generatedId)))
  }

  /** The text-log directory tree, one JSON file per path. */
  class TextLogs {
    var files: map<string, FileData>

    constructor (files: map<string, FileData>)
      ensures this.files == files
    {
      this.files := files;
    }

    /**
      * Handles one request. `parsed` is `request.json()` (None when it
      * throws); `today` and `nowIso` are the two `toISOString()` readings and
      * `generatedId` the id made up for a request without a session id.
      */
    method Post(parsed: Option<Value>, today: string, nowIso: string, generatedId: string)
      returns (r: Response)
      modifies this
      ensures parsed.None? || parsed.value.Null? || parsed.value.Undefined? ==>
        r == Response(500, ErrorBody("Internal server error")) && files == old(files)
      ensures parsed.Some? && !parsed.value.Null? && !parsed.value.Undefined? ==>
        var body := parsed.value;
        var path := LogPath(FirstPiece(today, 'T'), LogId(Prop(body, "sessionId"), generatedId));
        var existing := if path in old(files) then Some(old(files)[path]) else None;
        var after := Logged(existing, Message(Prop(body, "role"), Prop(body, "content"), Prop(body, "timestamp"), nowIso));
        if !Truthy(Prop(body, "role")) || !Truthy(Prop(body, "content")) then
          r == Response(400, ErrorBody("Missing required fields")) && files == old(files)
        else if after.None? then
          r == Response(500, ErrorBody("Internal server error")) && files == old(files)
        else
          r == Response(200, Obj(map["success" := Bool(true)])) && files == old(files)[path := after.value]
    {
      if parsed.None? || Destructure(parsed.value, "role").None? {
        return Response(500, ErrorBody("Internal server error"));
      }
      var body := parsed.value;
      var role, content := Prop(body, "role"), Prop(body, "content");
      if !Truthy(role) || !Truthy(content) {
        return Response(400, ErrorBody("Missing required fields"));
      }
      var path := LogPath(FirstPiece(today, 'T'), LogId(Prop(body, "sessionId"), generatedId));
      var existing := if path in files then Some(files[path]) else None;
      var after := Logged(existing, Message(role, content, Prop(body, "timestamp"), nowIso));
      if after.None? {
        return Response(500, ErrorBody("Internal server error"));
      }
      files := files[path := after.value];
      return Response(200, Obj(map["success" := Bool(true)]));
    }
  }
}
