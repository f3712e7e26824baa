/**
  * JavaScript values as the handlers see them after `JSON.parse`, with the
  * language rules the handlers lean on: truthiness, property reads that throw
  * on `null`/`undefined`, `String(x)` conversion and strict equality.
  * Numbers are integers here (no fractions, no NaN).
  */
module Js {
  import opened Text

  datatype Option<T> = None | Some(value: T)
  {
    function GetOr(default: T): T
    {
      match this
      case Some(v) => v
      case None => default
    }
  }

  /** The outcome of a call that may throw: a value, or the thrown error's message. */
  datatype Result<T> = Ok(value: T) | Throw(message: string)

  datatype Value =
    | Undefined
    | Null
    | Bool(b: bool)
    | Num(n: int)
    | Str(s: string)
    | Arr(items: seq<Value>)
    | Obj(fields: map<string, Value>)

  /** JavaScript truthiness: `undefined`, `null`, `false`, `0` and `""` are falsy. */
  predicate Truthy(v: Value)
  {
    match v
    case Undefined => false
    case Null => false
    case Bool(b) => b
    case Num(n) => n != 0
    case Str(s) => s != ""
    case Arr(_) => true
    case Obj(_) => true
  }

  /** `v || d` */
  function Or(v: Value, d: Value): (r: Value)
    ensures Truthy(v) ==> r == v
    ensures !Truthy(v) ==> r == d
  {
    if Truthy(v) then v else d
  }

  /**
    * `v[key]` on a value that is not `null` or `undefined`: an own field of an
    * object, `undefined` otherwise (the model has no inherited properties).
    */
  function Prop(v: Value, key: string): (r: Value)
    ensures !v.Obj? ==> r == Undefined
    ensures v.Obj? && key !in v.fields ==> r == Undefined
  {
    match v
    case Obj(fields) => if key in fields then fields[key] else Undefined
    case _ => Undefined
  }

  /**
    * `const { key } = v`: destructuring throws a TypeError on `null` and
    * `undefined` (None) and reads the property otherwise.
    */
  function Destructure(v: Value, key: string): (r: Option<Value>)
    ensures r.None? <==> (v.Null? || v.Undefined?)
    ensures r.Some? ==> r.value == Prop(v, key)
  {
    if v.Null? || v.Undefined? then None else Some(Prop(v, key))
  }

  /** `String(v)`, which template literals also use. */
  function ToString(v: Value): string
    decreases v, 1, 0
  {
    match v
    case Undefined => "undefined"
    case Null => "null"
    case Bool(b) => if b then "true" else "false"
    case Num(n) => IntToString(n)
    case Str(s) => s
    case Arr(items) => JoinItems(v, items)
    case Obj(_) => "[object Object]"
  }

  /** `Array.prototype.join(',')` as `String` applies it: null and undefined items print empty. */
  function JoinItems(parent: Value, items: seq<Value>): string
    requires forall x :: x in items ==> x < parent
    decreases parent, 0, |items|
  {
    if |items| == 0 then ""
    else
      assert items[0] in items;
      var head := if items[0].Null? || items[0].Undefined? then "" else ToString(items[0]);
      if |items| == 1 then head
      else
        assert forall x :: x in items[1..] ==> x in items;
        head + "," + JoinItems(parent, items[1..])
  }

  /** `a === b` for values that came from separate `JSON.parse` calls: arrays and objects are never identical. */
  predicate StrictEquals(a: Value, b: Value)
  {
    match a
    case Arr(_) => false
    case Obj(_) => false
    case _ => a == b
  }

  /** `NextResponse.json(body, { status })`. */
  datatype Response = Response(status: int, body: Value)

  /** An object literal `{ error: msg }`. */
  function ErrorBody(msg: string): (v: Value)
    ensures v.Obj? && Prop(v, "error") == Str(msg)
  {
    Obj(map["error" := Str(msg)])
  }
}
