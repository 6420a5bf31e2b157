/** The JavaScript values the dispatcher sees: what `JSON.parse` returns for an
    inbound message, what the backend returns, and what is thrown. Only the
    parts of JavaScript's semantics that the dispatch code depends on are
    modelled: truthiness (for `||` defaults), property access with `.` and
    `?.`, conversion to string (template literals) and `toString()` of a
    thrown value. */
module Js {
  import opened Wrappers

  /** A JSON-like JavaScript value. Numbers are integers here. */
  datatype Value =
    | Undefined
    | Null
    | Bool(b: bool)
    | Num(n: int)
    | Str(s: string)
    | Arr(items: seq<Value>)
    | Obj(fields: map<string, Value>)

  /** JavaScript truthiness: `undefined`, `null`, `false`, `0` and `""` are
      falsy; every array and object (even an empty one) is truthy. */
  predicate Truthy(v: Value) {
    match v
    case Undefined => false
    case Null => false
    case Bool(b) => b
    case Num(n) => n != 0
    case Str(s) => s != ""
    case Arr(_) => true
    case Obj(_) => true
  }

  predicate Nullish(v: Value) {
    v.Undefined? || v.Null?
  }

  /** `a || b`: the first operand when it is truthy, otherwise the second.
      The result is a value, not a boolean. */
  function Or(a: Value, b: Value): (r: Value)
    ensures r == a || r == b
    ensures Truthy(r) <==> Truthy(a) || Truthy(b)
  {
    if Truthy(a) then a else b
  }

  /** The own property `f` of a value that is not nullish, `undefined` when
      absent. Only plain field names are looked up by the dispatcher (none of
      them is an array index, `length`, or a member of `Object.prototype`), so
      strings, numbers, booleans and arrays have no such property. */
  function Property(v: Value, f: string): Value {
    match v
    case Obj(fields) => if f in fields then fields[f] else Undefined
    case _ => Undefined
  }

  /** A thrown value: an `Error` object, or any other value passed to `throw`
      or to a promise rejection. */
  datatype Thrown =
    | ErrorObject(name: string, message: string)
    | Raised(value: Value)

  /** The TypeError the engine raises for `v.f` when `v` is `null` or
      `undefined` (the wording of the V8 engine used by Node.js). */
  function TypeErrorReading(v: Value, f: string): Thrown {
    ErrorObject("TypeError",
      "Cannot read properties of " + (if v.Null? then "null" else "undefined") + " (reading '" + f + "')")
  }

  /** `v.f`: throws a TypeError exactly when `v` is nullish. */
  function Get(v: Value, f: string): (r: Result<Value, Thrown>)
    ensures r.Err? <==> Nullish(v)
    ensures r.Err? ==> r.error == TypeErrorReading(v, f)
    ensures r.Ok? ==> r.value == Property(v, f)
  {
    if Nullish(v) then Err(TypeErrorReading(v, f)) else Ok(Property(v, f))
  }

  /** `v?.f`: never throws; `undefined` when `v` is nullish. */
  function OptionalGet(v: Value, f: string): (r: Value)
    ensures Nullish(v) ==> r == Undefined
    ensures !Nullish(v) ==> Get(v, f) == Ok(r)
  {
    if Nullish(v) then Undefined else Property(v, f)
  }

  function DigitChar(d: nat): (c: char)
    requires d < 10
    ensures '0' <= c <= '9' && DigitValue(c) == d
  {
    (('0' as int) + d) as char
  }

  /** The value of a decimal digit character. */
  function DigitValue(c: char): int {
    (c as int) - ('0' as int)
  }

  /** The number a string of decimal digits denotes, most significant
      digit first. */
  function DigitsValue(s: string): int {
    if |s| == 0 then 0 else 10 * DigitsValue(s[..|s| - 1]) + DigitValue(s[|s| - 1])
  }

  /** Decimal digits of a natural number, most significant first, as
      `String(n)` prints it: the digits read back as `n`, and there is no
      leading zero. */
  function NatText(n: nat): (r: string)
    ensures |r| >= 1
    ensures forall i :: 0 <= i < |r| ==> '0' <= r[i] <= '9'
    ensures DigitsValue(r) == n
    ensures r[0] == '0' ==> r == "0"
    decreases n
  {
    if n < 10 then [DigitChar(n)] else NatText(n / 10) + [DigitChar(n % 10)]
  }

  /** `parts.join(",")` */
  function JoinWithCommas(parts: seq<string>): string {
    if |parts| == 0 then ""
    else if |parts| == 1 then parts[0]
    else parts[0] + "," + JoinWithCommas(parts[1..])
  }

  /** `String(v)`, as a template literal `${v}` computes it. An array is its
      elements joined by commas, with `null` and `undefined` elements shown
      as empty strings. */
  function ToText(v: Value): string
    decreases v
  {
    match v
    case Undefined => "undefined"
    case Null => "null"
    case Bool(b) => if b then "true" else "false"
    case Num(n) => if n < 0 then "-" + NatText(-n) else NatText(n)
    case Str(s) => s
    case Arr(items) =>
      JoinWithCommas(seq(|items|, i requires 0 <= i < |items| =>
        if Nullish(items[i]) then "" else ToText(items[i])))
    case Obj(_) => "[object Object]"
  }

  predicate TruthyThrown(t: Thrown) {
    t.ErrorObject? || Truthy(t.value)
  }

  /** `error ? error.toString() : undefined`. An Error object shows as
      "name: message", dropping an empty part
      (`Error.prototype.toString`); any other raised value is converted like
      `String`. */
  function ErrorText(t: Thrown): (r: Option<string>)
    ensures r.Some? <==> TruthyThrown(t)
    ensures t.ErrorObject? && t.name != "" && t.message != "" ==> r == Some(t.name + ": " + t.message)
  {
    match t
    case ErrorObject(name, message) =>
      Some(if name == "" then message else if message == "" then name else name + ": " + message)
    case Raised(v) => if Truthy(v) then Some(ToText(v)) else None
  }
}
