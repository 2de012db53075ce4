/**
 * The values that travel through the order service: what a decoded JSON
 * request body holds, and what an order row holds once it is stored.
 */
module Values {

  datatype Option<+T> = None | Some(value: T)

  /**
   * A PHP value as the controller sees it. Null, Bool, Int, Float, Str, Arr
   * and Obj are what a decoded JSON request body can contain (a JSON array
   * becomes Arr, a JSON object becomes Obj; both are PHP arrays). The two
   * last kinds only arise inside the service: Stamp(t) is the instant t read
   * from the clock, and JsonText(v) is the text json_encode produces for v,
   * kept opaque (two different values give two different texts).
   */
  datatype Value =
    | Null
    | Bool(b: bool)
    | Int(i: int)
    | Float(r: real)
    | Str(s: string)
    | Arr(items: seq<Value>)
    | Obj(fields: map<string, Value>)
    | Stamp(t: int)
    | JsonText(of: Value)

  /** The attributes of a model, or the fields of a request body, by key. */
  type Attributes = map<string, Value>

  /** What the framework's `input($key)` gives: the value, or null when the key is absent. */
  function Input(request: Attributes, key: string): Value
  {
    if key in request then request[key] else Null
  }
}
