/** The parsed URL query of the deals page, and how the page reads its values. */
module QueryParams {
  import opened Wrappers

  /** A parsed query-string value: a single string, or the array a multi-select filter stores. */
  datatype Value = Text(s: string) | List(items: seq<string>)

  /** The object `queryString.parse(location.search)` returns. */
  type Params = map<string, Value>

  function Get(m: Params, key: string): (r: Option<Value>)
  {
    if key in m then Some(m[key]) else None
  }

  /** JavaScript truthiness of `params[key]`: a missing key and the empty string are false, any array is true. */
  predicate Truthy(v: Option<Value>)
  {
    match v
    case None => false
    case Some(Text(s)) => s != ""
    case Some(List(_)) => true
  }

  /** `Array.prototype.toString`: the items joined by commas. */
  function Join(items: seq<string>): (r: string)
  {
    if |items| == 0 then ""
    else if |items| == 1 then items[0]
    else items[0] + "," + Join(items[1..])
  }

  /** What `localStorage.setItem` keeps of a value: its string form. */
  function Stored(v: Value): (r: string)
  {
    match v
    case Text(s) => s
    case List(items) => Join(items)
  }
}
