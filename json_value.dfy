/** The values `JSON.parse` produces. Parsing and serialising text are left to
    the runtime; only the tree matters to the core. Object members are listed
    in the object's property order. */
module JsonValue {

  datatype Json =
    | JNull
    | JBool(b: bool)
    | JNum(n: real)
    | JStr(s: string)
    | JArr(items: seq<Json>)
    | JObj(members: seq<(string, Json)>)

  /** The property key `JSON.parse` hands its reviver for array element `i`:
      the decimal digits of `i`. */
  function IndexKey(i: nat): (key: string)
    ensures |key| >= 1
    ensures forall k :: 0 <= k < |key| ==> '0' <= key[k] <= '9'
  {
    var digit := [('0' as int + i % 10) as char];
    if i < 10 then digit else IndexKey(i / 10) + digit
  }
}
