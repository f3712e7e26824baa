/** JSON files on disk, as the log routes read them back. */
module Files {
  import opened Js

  /** A file's content: a JSON value, or text `JSON.parse` rejects. */
  datatype FileData = Parsed(json: Value) | Corrupt

  /** `Array.isArray(data) ? data : [data]`. */
  function AsList(v: Value): (items: seq<Value>)
    ensures v.Arr? ==> items == v.items
    ensures !v.Arr? ==> items == [v]
  {
    if v.Arr? then v.items else [v]
  }
}
