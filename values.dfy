/** The JavaScript values the test runner handles: the results of JSON.parse, the values
    user code returns, and what `typeof`, truthiness and `String(v)` make of them.
    Numbers are reals (no NaN, no infinities, no negative zero). */
module JsValues {
  import opened Results
  import opened Text

  datatype Value =
    | Undefined
    | Null
    | Bool(b: bool)
    | Num(n: real)
    | Str(s: string)
    | Arr(items: seq<Value>)
    | Obj(fields: map<string, Value>)

  /** The services of the JavaScript runtime the model does not spell out: the decimal
      text of a number that is not a small integer, the number a text denotes (`None`
      for NaN), `JSON.parse` and `JSON.stringify`. */
  datatype Host = Host(
    numberText: real -> string,
    parseNumber: string -> Option<real>,
    jsonParse: string -> Result<Value>,
    jsonStringify: Value -> string)

  /** `v === null || v === undefined` */
  predicate IsNullish(v: Value) {
    v.Undefined? || v.Null?
  }

  /** The message of the TypeError thrown when property `key` is read from `v`, which is
      `null` or `undefined`. */
  function ReadError(v: Value, key: string): string {
    "Cannot read properties of " + (if v.Null? then "null" else "undefined") + " (reading '" + key + "')"
  }

  /** `typeof v === 'object'` */
  predicate IsObjectType(v: Value) {
    v.Null? || v.Arr? || v.Obj?
  }

  /** `typeof v` */
  function TypeOf(v: Value): (r: string)
    ensures r == "object" <==> IsObjectType(v)
    ensures r == "undefined" <==> v.Undefined?
  {
    match v
    case Undefined => "undefined"
    case Bool(_) => "boolean"
    case Num(_) => "number"
    case Str(_) => "string"
    case _ => "object"
  }

  /** JavaScript truthiness: `false`, `0`, `""`, `null` and `undefined` are falsy. */
  predicate Truthy(v: Value) {
    match v
    case Undefined => false
    case Null => false
    case Bool(b) => b
    case Num(n) => n != 0.0
    case Str(s) => s != []
    case _ => true
  }

  /** `v[key]` for a property name that is not an array index, as the application reads
      `input`, `expected`, `testCases` and the like; `null` and `undefined` are handled
      by the callers, since reading from them throws. */
  function Prop(v: Value, key: string): (r: Value)
    ensures !v.Obj? ==> r == Undefined
    ensures v.Obj? && key !in v.fields ==> r == Undefined
  {
    if v.Obj? && key in v.fields then v.fields[key] else Undefined
  }

  /** Whether `n` is written by `String(n)` as a plain integer. */
  predicate IsSmallInteger(n: real) {
    n.Floor as real == n && -1000000000000000000000.0 < n < 1000000000000000000000.0
  }

  /** `String(n)` */
  function NumberText(h: Host, n: real): string {
    if IsSmallInteger(n) then IntText(n.Floor) else h.numberText(n)
  }

  /** `String(v)`; an array joins the text of its elements with commas, writing
      `null` and `undefined` elements as nothing. */
  function ToJsString(h: Host, v: Value): (r: string)
    ensures v.Arr? && |v.items| == 1 && !IsNullish(v.items[0]) ==> r == ToJsString(h, v.items[0])
    ensures v.Arr? && v.items == [] ==> r == ""
  {
    match v
    case Undefined => "undefined"
    case Null => "null"
    case Bool(b) => if b then "true" else "false"
    case Num(n) => NumberText(h, n)
    case Str(s) => s
    case Arr(items) =>
      Join(seq(|items|, i requires 0 <= i < |items| =>
        if IsNullish(items[i]) then "" else ToJsString(h, items[i])), ",")
    case Obj(_) => "[object Object]"
  }

  /** What a template literal `${JSON.stringify(v)}` writes: `JSON.stringify(undefined)`
      is `undefined`, which the template writes as the word. */
  function JsonText(h: Host, v: Value): (r: string)
    ensures v.Undefined? ==> r == "undefined"
  {
    if v.Undefined? then "undefined" else h.jsonStringify(v)
  }

  /** `v.length` for a value that is neither `null` nor `undefined` (reading it from those
      throws, and callers handle them first): the element count of an array, the
      character count of a text, an object's own `length` property, and `undefined` for
      a number or a boolean. */
  function LengthOf(v: Value): (r: Value)
    ensures v.Arr? ==> r == Num(|v.items| as real)
    ensures v.Str? ==> r == Num(|v.s| as real)
    ensures v.Obj? ==> r == Prop(v, "length")
    ensures v.Num? || v.Bool? ==> r == Undefined
  {
    match v
    case Arr(items) => Num(|items| as real)
    case Str(s) => Num(|s| as real)
    case Obj(_) => Prop(v, "length")
    case _ => Undefined
  }

  /** `Number(v)` for a data value, with `None` for NaN: `undefined` and plain objects
      are NaN, `null` is 0, a boolean is 0 or 1, and text and arrays go by their text. */
  function NumberOf(h: Host, v: Value): (r: Option<real>)
    ensures v.Num? ==> r == Some(v.n)
    ensures v.Undefined? || v.Obj? ==> r.None?
    ensures v.Null? || v.Bool? ==> r.Some? && (r.value == 0.0 <==> !Truthy(v))
    ensures v.Str? ==> r == h.parseNumber(v.s)
    ensures v.Arr? ==> r == h.parseNumber(ToJsString(h, v))
  {
    match v
    case Undefined => None
    case Null => Some(0.0)
    case Bool(b) => Some(if b then 1.0 else 0.0)
    case Num(n) => Some(n)
    case Str(s) => h.parseNumber(s)
    case Arr(_) => h.parseNumber(ToJsString(h, v))
    case Obj(_) => None
  }
}
