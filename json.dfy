/**
 * The structured value the service builds queries in and reads responses
 * from: serde_json's `Value`, and the few serde_json behaviours the core
 * relies on (indexing with `value["key"]`, converting an `f64`, and how a
 * derived one-field struct is read back).
 */
module Json {
  import opened Prelude

  /**
   * An IEEE-754 double kept as its 64-bit pattern. The core only copies such
   * numbers into a query, so nothing here computes with them.
   */
  datatype F64 = F64(bits: bv64)

  /** A double is finite unless all eleven exponent bits are set (infinities and NaNs). */
  predicate IsFinite(x: F64) {
    x.bits & 0x7FF0_0000_0000_0000 != 0x7FF0_0000_0000_0000
  }

  /** A double that serde_json can hold: never an infinity or a NaN. */
  type FiniteF64 = x: F64 | IsFinite(x) witness F64(0)

  /** A negative `i64`. */
  type NegativeI64 = x: I64 | x < 0 witness -1

  /**
   * serde_json's `Number`, with its three kinds: a non-negative integer
   * (`u64`), a negative integer (`i64`) and a finite double. `3` and `3.0`
   * are different numbers, which matters to a typed decode that wants an
   * integer field.
   */
  datatype Number =
    | PosInt(u: U64)
    | NegInt(i: NegativeI64)
    | Float(f: FiniteF64)

  /** serde_json's `Value`. Object keys are unique, as in its map type. */
  datatype Value =
    | Null
    | Bool(b: bool)
    | Number(n: Number)
    | String(s: string)
    | Array(items: seq<Value>)
    | Object(fields: map<string, Value>)

  /**
   * `Value::from(f64)`, which serde_json's serializer uses for every `f64`:
   * a finite number becomes a JSON number and a non-finite one becomes `null`,
   * because JSON has no spelling for infinities or NaN.
   */
  function FromF64(x: F64): (r: Value)
    ensures r.Number? <==> IsFinite(x)
    ensures r.Number? ==> r.n.Float? && r.n.f == x
    ensures !r.Number? ==> r == Null
  {
    if IsFinite(x) then Number(Float(x)) else Null
  }

  /** How serde serializes an `Option<f64>`: `None` as `null`, `Some(x)` as `x` would be. */
  function FromOptionF64(x: Option<F64>): (r: Value)
    ensures x.None? ==> r == Null
    ensures x.Some? && IsFinite(x.value) ==> r == Number(Float(x.value))
    ensures x.Some? && !IsFinite(x.value) ==> r == Null
  {
    match x
    case None => Null
    case Some(v) => FromF64(v)
  }

  /**
   * serde_json's `value[key]`: the member when `value` is an object holding
   * `key`, and `null` in every other case (a missing key or a value that is
   * not an object); it never fails.
   */
  function Index(v: Value, key: string): (r: Value)
    ensures v.Object? && key in v.fields ==> r == v.fields[key]
    ensures !(v.Object? && key in v.fields) ==> r == Null
  {
    match v
    case Object(fields) => if key in fields then fields[key] else Null
    case _ => Null
  }

  /**
   * Reading the one field `name` of a derived (non-`deny_unknown_fields`)
   * struct from a value: from an object the field must be present and other
   * keys are ignored; from an array (serde's sequence form of a struct) there
   * must be exactly one element; any other value is refused.
   */
  function StructField(v: Value, name: string): (r: Option<Value>)
    ensures v.Object? ==> (r.Some? <==> name in v.fields)
    ensures v.Object? && name in v.fields ==> r == Some(v.fields[name])
    ensures v.Array? ==> (r.Some? <==> |v.items| == 1)
    ensures !v.Object? && !v.Array? ==> r == None
  {
    match v
    case Object(fields) => if name in fields then Some(fields[name]) else None
    case Array(items) => if |items| == 1 then Some(items[0]) else None
    case _ => None
  }
}
