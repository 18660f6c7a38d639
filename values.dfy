/** JavaScript values as the client handles them: decoded JSON bodies,
  * form data objects, and the string conversion `String(v)` that the
  * `Error` constructor and the `Headers` object apply to them. */
module Values {

  datatype Option<+T> = None | Some(value: T)

  /** A JavaScript value. Numbers are kept as their canonical decimal text
    * (what `String(n)` prints); no arithmetic is done on them here. */
  datatype Value =
    | Undefined
    | Null
    | Bool(b: bool)
    | Num(text: string)
    | Str(s: string)
    | Arr(items: seq<Value>)
    | Obj(props: map<string, Value>)
  {
    predicate IsNullish() { Undefined? || Null? }
  }

  /** `String(v)`: arrays are joined with "," (holes from `null` and
    * `undefined` print as nothing), plain objects print as "[object Object]". */
  function ToText(v: Value): (r: string)
    ensures v.Str? ==> r == v.s
    decreases v
  {
    match v
    case Undefined => "undefined"
    case Null => "null"
    case Bool(b) => if b then "true" else "false"
    case Num(text) => text
    case Str(s) => s
    case Arr(items) => JoinItems(items)
    case Obj(_) => "[object Object]"
  }

  /** `items.join(",")`. */
  function JoinItems(items: seq<Value>): string
    decreases items
  {
    if items == [] then ""
    else
      (if items[0].IsNullish() then "" else ToText(items[0]))
      + (if |items| == 1 then "" else "," + JoinItems(items[1..]))
  }

  /** `obj[key]` on a plain object's own properties: `undefined` when absent. */
  function Lookup(props: map<string, Value>, key: string): (r: Value)
    ensures key in props ==> r == props[key]
    ensures key !in props ==> r.Undefined?
  {
    if key in props then props[key] else Undefined
  }
}
