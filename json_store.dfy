/**
 * The values the browser's Web Storage hands back, seen after `JSON.parse`.
 * The JSON text itself is not modelled: a stored item is either missing, the
 * empty text, text that `JSON.parse` rejects, or the value it parses to.
 */
module JsonStore {
  import opened Wrappers

  /** A parsed JSON value; numbers are integers in this model. */
  datatype JsonValue =
    | JNull
    | JBool(b: bool)
    | JNum(n: int)
    | JStr(s: string)
    | JArr(items: seq<JsonValue>)
    | JObj(fields: map<string, JsonValue>)

  /** What `storage.getItem(key)` followed by `JSON.parse` yields. */
  datatype StoredItem =
    | Inaccessible        // getItem throws (storage disabled)
    | Absent              // getItem returns null
    | EmptyText           // getItem returns ""
    | Unparseable         // JSON.parse throws
    | Json(value: JsonValue)

  /** A key/value store such as `localStorage` or `sessionStorage`. */
  type Storage = map<string, StoredItem>

  function Get(store: Storage, key: string): StoredItem {
    if key in store then store[key] else Absent
  }

  /** JavaScript truthiness of a JSON value. */
  predicate Truthy(v: JsonValue) {
    match v
    case JNull => false
    case JBool(b) => b
    case JNum(n) => n != 0
    case JStr(s) => s != ""
    case JArr(_) => true
    case JObj(_) => true
  }

  /**
   * `value.field` on a parsed value: `None` is `undefined`; reading a field of
   * `null` throws, which is the `Err` case.
   */
  function Field(v: JsonValue, name: string): (r: Result<Option<JsonValue>>)
    ensures r.Err? <==> v == JNull
    ensures v.JObj? && name in v.fields ==> r == Ok(Some(v.fields[name]))
  {
    match v
    case JNull => Err("Cannot read properties of null")
    case JObj(fields) => Ok(if name in fields then Some(fields[name]) else None)
    case _ => Ok(None)
  }
}
