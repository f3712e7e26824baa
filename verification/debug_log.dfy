/**
  * The shared debug log `voice-ai-debug.log`, written by
  * `POST /api/internal/log` and `POST /api/log`. Both routes only append
  * lines to what the file held when they were loaded: the header, for a
  * file they created.
  */
module DebugLog {
  import opened Text
  import opened Js

  const Header: string := "=== Voice AI Debug Log ===\n\n"

  /**
    * One log line: `[ts] [type] message`, the serialised data on a `Data:`
    * line when the data is truthy, and a newline. `serialize` stands for
    * `JSON.stringify(data, null, 2)`.
    */
  function LogLine(ts: string, kind: Value, message: Value, data: Value, serialize: Value -> string): (line: string)
    ensures StartsWith(line, "[" + ts + "] [" + ToString(kind) + "] " + ToString(message))
    ensures EndsWith(line, "\n")
    ensures !Truthy(data) ==> line == "[" + ts + "] [" + ToString(kind) + "] " + ToString(message) + "\n"
    ensures Truthy(data) ==>
      line == "[" + ts + "] [" + ToString(kind) + "] " + ToString(message) + "\nData: " + serialize(data) + "\n"
  {
    var head := "[" + ts + "] [" + ToString(kind) + "] " + ToString(message);
    var line := head + (if Truthy(data) then "\nData: " + serialize(data) else "") + "\n";
    assert line[..|head|] == head;
    line
  }

  /** What a request asks to log. */
  datatype Entry = Entry(kind: Value, message: Value, data: Value)

  /**
    * The internal route's reading of its body: `text` is the raw body and
    * `parsed` its `JSON.parse` (None when it threw). A body that does not
    * parse, or parses to null, is logged as a parse failure.
    */
  function InternalEntry(text: string, parsed: Option<Value>): (e: Entry)
    ensures parsed.None? || parsed.value.Null? || parsed.value.Undefined? ==>
      e == Entry(Str("info"), Str("Failed to parse JSON: " + text), Undefined)
    ensures parsed.Some? && !parsed.value.Null? && !parsed.value.Undefined? ==>
      e.message == Prop(parsed.value, "message") && e.data == Prop(parsed.value, "data") &&
      (Truthy(Prop(parsed.value, "type")) ==> e.kind == Prop(parsed.value, "type")) &&
      (!Truthy(Prop(parsed.value, "type")) ==> e.kind == Str("info"))
    ensures Truthy(e.kind)
  {
    if parsed.None? || Destructure(parsed.value, "message").None? then
      Entry(Str("info"), Str("Failed to parse JSON: " + text), Undefined)
    else
      var body := parsed.value;
      Entry(Or(Prop(body, "type"), Str("info")), Prop(body, "message"), Prop(body, "data"))
  }

  /** The public route's reading: `type = 'info'` as a destructuring default, applied only to `undefined`. */
  function PublicEntry(body: Value): (e: Entry)
    ensures Prop(body, "type") != Undefined ==> e.kind == Prop(body, "type")
    ensures Prop(body, "type") == Undefined ==> e.kind == Str("info")
    ensures e.message == Prop(body, "message") && e.data == Prop(body, "data")
  {
    var kind := Prop(body, "type");
    Entry(if kind.Undefined? then Str("info") else kind, Prop(body, "message"), Prop(body, "data"))
  }

  function Failure(status: int, error: string): Response
  {
    Response(status, Obj(map["success" := Bool(false), "error" := Str(error)]))
  }

  function Success(): Response
  {
    Response(200, Obj(map["success" := Bool(true)]))
  }

  /** The log file. */
  class DebugLogFile {
    var text: string
    /** What the file held when the routes were loaded; both routes only append after it. */
    ghost var initial: string

    /** The file still starts with what it held at load time. */
    ghost predicate Valid()
      reads this
    {
      StartsWith(text, initial)
    }

    /**
      * At module load: an existing file is kept whatever it holds, a missing
      * one is created holding just the header.
      */
    constructor (existing: Option<string>)
      ensures Valid()
      ensures initial == text == existing.GetOr(Header)
      ensures existing.None? ==> StartsWith(text, Header)
    {
      text := existing.GetOr(Header);
      initial := text;
    }

    /** `fs.appendFileSync`. */
    method Append(line: string)
      requires Valid()
      modifies this
      ensures Valid() && initial == old(initial)
      ensures text == old(text) + line
    {
      text := text + line;
      assert text[..|initial|] == old(text)[..|initial|];
    }

    /**
      * `POST /api/internal/log`: an empty body gives 400, a falsy message
      * gives 400, and otherwise one line is appended. `ts` is the time as
      * `toISOString()` gives it.
      */
    method PostInternal(body: string, parsed: Option<Value>, ts: string, serialize: Value -> string)
      returns (r: Response)
      requires Valid()
      modifies this
      ensures Valid() && initial == old(initial)
      ensures body == "" ==> r == Failure(400, "Empty request body") && text == old(text)
      ensures body != "" && !Truthy(InternalEntry(body, parsed).message) ==>
        r == Failure(400, "Message is required") && text == old(text)
      ensures body != "" && Truthy(InternalEntry(body, parsed).message) ==>
        var e := InternalEntry(body, parsed);
        r == Success() && text == old(text) + LogLine(ts, e.kind, e.message, e.data, serialize)
    {
      if body == "" {
        return Failure(400, "Empty request body");
      }
      var e := InternalEntry(body, parsed);
      if !Truthy(e.message) {
        return Failure(400, "Message is required");
      }
      Append(LogLine(ts, e.kind, e.message, e.data, serialize));
      return Success();
    }

    /**
      * `POST /api/log`: a body that does not parse or is null gives 500 with
      * `String(error)` (passed as `errorText`); otherwise one line is
      * appended, whatever the message is.
      */
    method PostPublic(parsed: Option<Value>, errorText: string, ts: string, serialize: Value -> string)
      returns (r: Response)
      requires Valid()
      modifies this
      ensures Valid() && initial == old(initial)
      ensures parsed.None? || parsed.value.Null? || parsed.value.Undefined? ==>
        r == Failure(500, errorText) && text == old(text)
      ensures parsed.Some? && !parsed.value.Null? && !parsed.value.Undefined? ==>
        var e := PublicEntry(parsed.value);
        r == Success() && text == old(text) + LogLine(ts, e.kind, e.message, e.data, serialize)
    {
      if parsed.None? || Destructure(parsed.value, "message").None? {
        return Failure(500, errorText);
      }
      var e := PublicEntry(parsed.value);
      Append(LogLine(ts, e.kind, e.message, e.data, serialize));
      return Success();
    }
  }

  /** Unparsable input is still logged: an `info` line that holds the raw text. */
  lemma {:induction false} UnparsableBodyIsLogged(text: string, ts: string, serialize: Value -> string)
    requires text != ""
    ensures var e := InternalEntry(text, None);
      Truthy(e.message) && e.kind == Str("info") && !Truthy(e.data) &&
      Contains(LogLine(ts, e.kind, e.message, e.data, serialize), text)
  {
    var e := InternalEntry(text, None);
    var head := "[" + ts + "] [" + ToString(e.kind) + "] " + "Failed to parse JSON: ";
    var line := LogLine(ts, e.kind, e.message, e.data, serialize);
    assert line == head + text + "\n";
    ContainsMiddle(head, text, "\n");
  }

  /** The internal route turns every falsy type into `info`; the public one keeps null and `""`. */
  lemma TypeDefaults(body: Value)
    requires !body.Null? && !body.Undefined?
    requires Prop(body, "type") == Null || Prop(body, "type") == Str("")
    ensures InternalEntry("{}", Some(body)).kind == Str("info")
    ensures PublicEntry(body).kind == Prop(body, "type")
  {
  }

  /** A missing message is logged by the public route as the text `undefined`. */
  lemma PublicMissingMessage(body: Value, ts: string, serialize: Value -> string)
    requires !body.Null? && !body.Undefined?
    requires Prop(body, "message") == Undefined && !Truthy(Prop(body, "data"))
    ensures var e := PublicEntry(body);
      LogLine(ts, e.kind, e.message, e.data, serialize) ==
        "[" + ts + "] [" + ToString(e.kind) + "] undefined\n"
  {
  }
}
