/** JavaScript values as the data-access layer sees them: parsed JSON, the
    truthiness and string conversion the services apply to them, property
    reads, and the way a promise settles. */
module Js {

  datatype Option<+T> = None | Some(value: T)

  /** A value produced by `JSON.parse`. A number is held as the text
      JavaScript's `String()` gives it, so `0`, `-0` and `0.0` are all "0". */
  datatype Json =
    | JNull
    | JBool(b: bool)
    | JNum(shown: string)
    | JStr(s: string)
    | JArr(items: seq<Json>)
    | JObj(fields: map<string, Json>)

  /** A parsed body that is not `null`: reading a property of it never throws. */
  type Payload = j: Json | !j.JNull? witness JObj(map[])

  /** `v[key]` on a non-null value; `None` is `undefined`. Only objects carry
      the keys the services read: arrays, strings, numbers and booleans do not. */
  function Member(v: Json, key: string): (r: Option<Json>)
    ensures r.Some? <==> v.JObj? && key in v.fields
    ensures r.Some? ==> r.value == v.fields[key]
  {
    match v
    case JObj(fields) => if key in fields then Some(fields[key]) else None
    case _ => None
  }

  /** JavaScript truthiness of a possibly undefined value. */
  predicate Truthy(v: Option<Json>) {
    match v
    case None => false
    case Some(JNull) => false
    case Some(JBool(b)) => b
    case Some(JNum(shown)) => shown != "0"
    case Some(JStr(s)) => s != ""
    case Some(JArr(_)) => true
    case Some(JObj(_)) => true
  }

  const UndefinedText := "undefined"

  /** `String(j)` succeeds: `JSON.parse` makes every key an own data
      property, so an object with a `toString` key has no callable
      `toString`, and the inherited `valueOf` returns the object itself, which
      leaves no primitive to convert. An array converts its elements. */
  predicate Stringable(j: Json)
    decreases j
  {
    match j
    case JObj(fields) => "toString" !in fields
    case JArr(items) => forall i :: 0 <= i < |items| ==> Stringable(items[i])
    case _ => true
  }

  /** A possibly undefined value converts to a string. */
  predicate Converts(v: Option<Json>) {
    v.None? || Stringable(v.value)
  }

  /** `String(v)` for a possibly undefined value (also what a template literal,
      a property-key conversion, `parseFloat` and `new Error` apply): the
      conversion throws the engine's TypeError when the value has no string
      form. */
  function StringOf(v: Option<Json>): (r: Settled<string>)
    ensures r.Resolved? <==> Converts(v)
    ensures r.Rejected? ==> r.error == EngineText(NoPrimitive)
    ensures v.None? ==> r == Resolved(UndefinedText)
    ensures v.Some? && v.value.JStr? ==> r == Resolved(v.value.s)
  {
    if v.None? then Resolved(UndefinedText)
    else if !Stringable(v.value) then Rejected(EngineText(NoPrimitive))
    else Resolved(JsonText(v.value))
  }

  /** The text `String(j)` gives a value that has one: an array joins its
      elements with "," and writes `null` elements as nothing; an object
      without its own `toString` is "[object Object]". */
  function JsonText(j: Json): string
    decreases j
  {
    match j
    case JNull => "null"
    case JBool(b) => if b then "true" else "false"
    case JNum(shown) => shown
    case JStr(s) => s
    case JArr(items) =>
      Join(seq(|items|, i requires 0 <= i < |items| =>
        if items[i].JNull? then "" else JsonText(items[i])))
    case JObj(_) => "[object Object]"
  }

  function Join(parts: seq<string>): string {
    if |parts| == 0 then ""
    else if |parts| == 1 then parts[0]
    else parts[0] + "," + Join(parts[1..])
  }

  /** A TypeError the engine raises by itself; its wording is the engine's. */
  datatype TypeFault =
    | ReadOfNull(key: string)   // `null[key]`
    | NotAFunction(key: string) // `v[key](...)` where `v[key]` is not callable
    | NoPrimitive               // a value with no string form is converted to one

  /** The `message` of an `Error`. */
  datatype Message = Text(s: string) | EngineText(fault: TypeFault)

  /** How a promise (or a synchronous call that may throw) settles. */
  datatype Settled<+T> = Resolved(value: T) | Rejected(error: Message) {
    predicate IsFailure() { Rejected? }

    function PropagateFailure<U>(): Settled<U>
      requires Rejected?
    {
      Rejected(error)
    }

    function Extract(): T
      requires Resolved?
    {
      value
    }
  }
}
