/** The untyped values that reach the server (a parsed request body or query)
    and the client (a parsed response), and the Option type used where the
    source returns `undefined`. */
module Json {

  datatype Option<+T> = None | Some(value: T)

  /** A JavaScript number: NaN, or a finite value held exactly. */
  datatype Num = NaN | Finite(val: real)

  /** A JavaScript value as it arrives from JSON parsing; `Undefined` is what
      reading an absent property yields. */
  datatype Value =
    | Undefined
    | Null
    | Bool(b: bool)
    | Number(n: Num)
    | Str(s: string)
    | Arr(elems: seq<Value>)
    | Obj(fields: map<string, Value>)

  /** `record.key`: the property's value, or Undefined when it is absent. */
  function Field(record: map<string, Value>, key: string): Value {
    if key in record then record[key] else Undefined
  }

  /** `typeof v === "string" && v.length !== 0` */
  predicate IsNonEmptyString(v: Value) {
    v.Str? && |v.s| > 0
  }

  /** `Math.round(x)`: the nearest integer, halves rounded towards +infinity. */
  function Round(x: real): (k: int)
    ensures x - 0.5 < k as real <= x + 0.5
  {
    (x + 0.5).Floor
  }

  /** `Math.round(x) === x` holds exactly when x is a whole number. */
  lemma RoundFixesExactlyIntegers(x: real)
    ensures Round(x) as real == x <==> x.Floor as real == x
  {
    if x.Floor as real == x {
      assert (x + 0.5).Floor == x.Floor;
    }
  }
}
