/**
 * A decoded JSON document as the PHP client sees it (an associative array
 * after decoding), and the three PHP operations the client applies to it:
 * indexing by a string key, `isset`, and loose comparison with `null`.
 */
module Json {

  /** A JSON value; `List` and `Object` are the two shapes of a PHP array. */
  datatype Value =
    | Null
    | Bool(b: bool)
    | Int(i: int)
    | Str(s: string)
    | List(items: seq<Value>)
    | Object(fields: map<string, Value>)

  /**
   * PHP `$v[$key]` for a non-numeric string key (the client only uses
   * `data`, `ticket` and `CSRFPreventionToken`): the member when `$v` is an
   * array that holds the key, `null` otherwise. A numeric key such as `"0"`,
   * which PHP would also look up in a list, is not modelled.
   */
  function Index(v: Value, key: string): (r: Value)
    ensures r != Null ==> v.Object? && key in v.fields && v.fields[key] == r
    ensures v.Object? && key in v.fields ==> r == v.fields[key]
  {
    match v
    case Object(fields) => if key in fields then fields[key] else Null
    case _ => Null
  }

  /** PHP `isset($v[$key])`: the key is present and its member is not `null`. */
  predicate IsSet(v: Value, key: string) {
    Index(v, key) != Null
  }

  /**
   * PHP `$v == null` (loose comparison): true for null, false, 0, the empty
   * string and the empty array.
   */
  predicate LooselyNull(v: Value) {
    match v
    case Null => true
    case Bool(b) => !b
    case Int(i) => i == 0
    case Str(s) => s == ""
    case List(items) => items == []
    case Object(fields) => fields == map[]
  }
}
