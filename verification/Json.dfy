/** JSON documents as Python holds them, and Python's equality on them. */
module Json {

  datatype Json =
    | Null
    | Bool(flag: bool)
    | Number(value: real)
    | Text(text: string)
    | Array(items: seq<Json>)
    | Object(fields: map<string, Json>)

  /** Python's `==`: a boolean equals the number 0 or 1. */
  predicate Same(a: Json, b: Json)
    decreases a
  {
    match (a, b)
    case (Null, Null) => true
    case (Text(s), Text(t)) => s == t
    case (Array(xs), Array(ys)) =>
      |xs| == |ys| && forall i :: 0 <= i < |xs| ==> Same(xs[i], ys[i])
    case (Object(xs), Object(ys)) =>
      xs.Keys == ys.Keys && forall key :: key in xs ==> Same(xs[key], ys[key])
    case _ => Numeric(a).Known? && Numeric(b).Known? && Numeric(a) == Numeric(b)
  }

  datatype Numeral = Known(n: real) | NotNumeric

  function Numeric(j: Json): Numeral {
    match j
    case Bool(flag) => Known(if flag then 1.0 else 0.0)
    case Number(value) => Known(value)
    case _ => NotNumeric
  }

  lemma {:induction false} SameReflexive(a: Json)
    ensures Same(a, a)
    decreases a
  {
    match a
    case Array(items) =>
      forall i | 0 <= i < |items| ensures Same(items[i], items[i]) { SameReflexive(items[i]); }
    case Object(fields) =>
      forall key | key in fields ensures Same(fields[key], fields[key]) { SameReflexive(fields[key]); }
    case _ =>
  }
}
