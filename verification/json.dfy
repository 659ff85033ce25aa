/** Parsed JSON values as the client sees them after `response.json()`, with
    the JavaScript truthiness and `String(...)` conversion the client applies
    to them. A number is held as its count of hundredths (see `Numbers`). */
module Json {
  import Numbers

  datatype Json =
    | JNull
    | JBool(b: bool)
    | JNum(n: int)
    | JStr(s: string)
    | JArr(items: seq<Json>)
    | JObj(fields: map<string, Json>)

  /** JavaScript truthiness: `null`, `false`, `0` and `""` are falsy, everything else truthy. */
  predicate Truthy(j: Json) {
    match j
    case JNull => false
    case JBool(b) => b
    case JNum(n) => n != 0
    case JStr(s) => s != ""
    case JArr(_) => true
    case JObj(_) => true
  }

  function Rank(j: Json): nat {
    if j.JArr? then |j.items| + 1 else 0
  }

  /** `String(j)`: what `new Error(j)` takes as its message. */
  function ToJsString(j: Json): string
    decreases j, Rank(j)
  {
    match j
    case JNull => "null"
    case JBool(b) => if b then "true" else "false"
    case JNum(n) => Numbers.ToText(n)
    case JStr(s) => s
    case JArr(items) => JoinItems(j, 0)
    case JObj(_) => "[object Object]"
  }

  /** `Array.prototype.join(",")` over the items of `arr` from index `i`:
      a `null` item contributes the empty string. */
  function JoinItems(arr: Json, i: nat): string
    requires arr.JArr? && i <= |arr.items|
    decreases arr, |arr.items| - i
  {
    if i == |arr.items| then ""
    else
      var item := arr.items[i];
      var text := if item.JNull? then "" else ToJsString(item);
      if i + 1 == |arr.items| then text else text + "," + JoinItems(arr, i + 1)
  }
}
