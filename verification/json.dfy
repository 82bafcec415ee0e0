/**
 * Loosely typed JSON-like values as the source handles them: request bodies,
 * native partner documents and tool payloads. `RUndefined` stands for a
 * missing property. JavaScript's `String(x)` and `Number(x)` coercions are
 * modelled here; the two parts that depend on floating-point text
 * (parsing a numeric string, printing a number) are supplied by the caller
 * as a `Coercion`.
 */
module Json {
  import opened Base

  datatype Raw =
    | RUndefined
    | RNull
    | RBool(b: bool)
    | RNum(n: real)
    | RStr(s: string)
    | RArr(items: seq<Raw>)
    | RObj(fields: map<string, Raw>)

  /** The host's string-to-number parse (`None` is NaN) and number printer. */
  datatype Coercion = Coercion(parseNumber: string -> Option<real>, formatNumber: real -> string)

  /** `value?.key`: the property, or undefined when it is absent or `value` is not an object. */
  function Get(r: Raw, key: string): Raw {
    if r.RObj? && key in r.fields then r.fields[key] else RUndefined
  }

  /**
   * The names every plain object literal inherits from `Object.prototype`:
   * looking one of them up in a registry object finds the inherited member
   * (a function, or the prototype itself for `__proto__`) and not `undefined`.
   */
  const ObjectPrototypeMembers: set<string> := {
    "__proto__", "constructor", "hasOwnProperty", "isPrototypeOf", "propertyIsEnumerable",
    "toLocaleString", "toString", "valueOf",
    "__defineGetter__", "__defineSetter__", "__lookupGetter__", "__lookupSetter__"
  }

  /** `null` or `undefined`. */
  predicate Nullish(r: Raw) {
    r.RUndefined? || r.RNull?
  }

  /** `r ?? d`. */
  function Coalesce(r: Raw, d: Raw): Raw {
    if Nullish(r) then d else r
  }

  /** JavaScript truthiness (`Boolean(r)`); numbers are never NaN here. */
  predicate Truthy(r: Raw) {
    match r
    case RUndefined => false
    case RNull => false
    case RBool(b) => b
    case RNum(n) => n != 0.0
    case RStr(s) => s != ""
    case RArr(_) => true
    case RObj(_) => true
  }

  /** `typeof r === 'object'` (arrays and `null` included). */
  predicate IsObjectLike(r: Raw) {
    r.RNull? || r.RArr? || r.RObj?
  }

  /** `String(r)`; array elements are joined with commas, `null`/`undefined` elements as "". */
  function ToStr(c: Coercion, r: Raw): string
    decreases r
  {
    match r
    case RUndefined => "undefined"
    case RNull => "null"
    case RBool(b) => if b then "true" else "false"
    case RNum(n) => c.formatNumber(n)
    case RStr(s) => s
    case RArr(items) =>
      Join(seq(|items|, i requires 0 <= i < |items| =>
        if Nullish(items[i]) then "" else ToStr(c, items[i])), ",")
    case RObj(_) => "[object Object]"
  }

  /** `Number(r)`, with `None` for NaN; objects go through their string form. */
  function ToNumber(c: Coercion, r: Raw): Option<real> {
    match r
    case RUndefined => None
    case RNull => Some(0.0)
    case RBool(b) => Some(if b then 1.0 else 0.0)
    case RNum(n) => Some(n)
    case RStr(s) => c.parseNumber(s)
    case RArr(_) => c.parseNumber(ToStr(c, r))
    case RObj(_) => c.parseNumber(ToStr(c, r))
  }

  /** An empty object literal `{}`. */
  const EmptyObject: Raw := RObj(map[])

  /** `JSON.stringify` and `JSON.parse` (`None` when the text is not valid JSON). */
  datatype JsonCodec = JsonCodec(stringify: Raw -> string, parse: string -> Option<Raw>)

  /** `parseJson(value, fallback)`: the parsed text, or the fallback when it is missing, empty or invalid. */
  function ParseJson(codec: JsonCodec, value: Option<string>, fallback: Raw): (r: Raw)
    ensures value.None? || value.value == "" ==> r == fallback
    ensures value.Some? && value.value != "" && codec.parse(value.value).None? ==> r == fallback
    ensures value.Some? && value.value != "" && codec.parse(value.value).Some? ==> r == codec.parse(value.value).value
  {
    if value.None? || value.value == "" then fallback
    else codec.parse(value.value).GetOr(fallback)
  }

  /** Serialising `x` gives non-empty text that parses back to `x`. */
  predicate RoundTrips(codec: JsonCodec, x: Raw) {
    codec.stringify(x) != "" && codec.parse(codec.stringify(x)) == Some(x)
  }

  /** A stored value reads back as itself whenever the codec round-trips it. */
  lemma ParseJsonRoundTrip(codec: JsonCodec, x: Raw, fallback: Raw)
    requires RoundTrips(codec, x)
    ensures ParseJson(codec, Some(codec.stringify(x)), fallback) == x
  {
  }
}
