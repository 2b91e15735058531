/** Parsed JSON values as the client sees them after `JSON.parse` or
    `response.json()`, with JavaScript's truthiness, property access and
    `String(v)` conversion. Numbers are integers: fractional values are not
    modelled. */
module Json {
  import opened Wrappers
  import opened Strings

  datatype Json =
    | Null
    | Bool(b: bool)
    | Num(n: int)
    | Str(s: string)
    | Arr(items: seq<Json>)
    | Obj(members: seq<(string, Json)>)

  /** Stand-in for the message of the TypeError the engine throws when a
      property of `null` is read; the engine's own wording is not modelled. */
  const TypeErrorText := "TypeError: Cannot read properties of null"
  /** Stand-in for the message of the SyntaxError `response.json()` rejects
      with on a body that is not JSON. */
  const SyntaxErrorText := "SyntaxError: Unexpected token in JSON"

  /** JavaScript truthiness: `null`, `false`, `0` and `""` are falsy, every
      array and object is truthy. */
  predicate Truthy(j: Json) {
    match j
    case Null => false
    case Bool(b) => b
    case Num(n) => n != 0
    case Str(s) => s != ""
    case Arr(_) => true
    case Obj(_) => true
  }

  /** Truthiness of a value that may be `undefined` (`None`). */
  predicate Present(v: Option<Json>) {
    v.Some? && Truthy(v.value)
  }

  /** `a || b` on values that may be `undefined`. */
  function Or(a: Option<Json>, b: Option<Json>): Option<Json> {
    if Present(a) then a else b
  }

  /** The value `JSON.parse` keeps for a key: the last member with that key. */
  function Lookup(members: seq<(string, Json)>, key: string): (r: Option<Json>)
    ensures r.None? <==> forall i :: 0 <= i < |members| ==> members[i].0 != key
    ensures r.Some? ==> exists i :: 0 <= i < |members| && members[i] == (key, r.value)
                                    && forall k :: i < k < |members| ==> members[k].0 != key
    decreases |members|
  {
    if members == [] then None
    else if members[|members| - 1].0 == key then Some(members[|members| - 1].1)
    else Lookup(members[..|members| - 1], key)
  }

  /** `j[key]` for the non-numeric keys the client reads: `undefined` on
      anything but an object, and a TypeError on `null`. */
  function Member(j: Json, key: string): (r: Result<Option<Json>>)
    ensures r.Err? <==> j.Null?
    ensures r.Ok? && r.value.Some? ==> j.Obj?
  {
    match j
    case Null => Err(TypeErrorText)
    case Obj(members) => Ok(Lookup(members, key))
    case _ => Ok(None)
  }

  /** `String(v)`: the text a value turns into in a template literal or an
      Error message. Inside an array `null` becomes the empty string. */
  function ToText(j: Json): string
    decreases j
  {
    match j
    case Null => "null"
    case Bool(b) => if b then "true" else "false"
    case Num(n) => IntText(n)
    case Str(s) => s
    case Arr(items) =>
      Join(seq(|items|, i requires 0 <= i < |items| => if items[i].Null? then "" else ToText(items[i])), ",")
    case Obj(_) => "[object Object]"
  }

  /** `String(v)` of a value that may be `undefined`. */
  function OptionText(v: Option<Json>): string {
    match v
    case None => "undefined"
    case Some(j) => ToText(j)
  }
}
