/** The slice of JavaScript values the build tool handles: configuration defaults,
    their text under template-literal interpolation, the `??` operator, and
    assignment of a property on a plain object (whose key order is insertion order). */
module JsValues {
  import opened Strings

  /** An optional, nullable argument (`x?: T | null`). */
  datatype Nullable<+T> = Undefined | Null | Given(value: T)

  /** A JavaScript value. Numbers are modelled as integers. An object is its list of
      own properties in enumeration order. */
  datatype Value =
    | Undef
    | NullV
    | Str(s: string)
    | Num(n: int)
    | Bool(b: bool)
    | Arr(items: seq<Value>)
    | Obj(props: seq<(string, Value)>)

  predicate IsNullish(v: Value) {
    v.Undef? || v.NullV?
  }

  /** `v ?? fallback` */
  function Coalesce(v: Value, fallback: Value): (r: Value)
    ensures !IsNullish(v) ==> r == v
    ensures IsNullish(v) ==> r == fallback
  {
    if IsNullish(v) then fallback else v
  }

  /** A typed argument as the value the function receives. */
  function Lift<T>(x: Nullable<T>, wrap: T -> Value): (r: Value)
    ensures x.Undefined? ==> r.Undef?
    ensures x.Null? ==> r.NullV?
    ensures x.Given? ==> r == wrap(x.value)
  {
    match x
    case Undefined => Undef
    case Null => NullV
    case Given(v) => wrap(v)
  }

  function DigitChar(d: nat): (c: char)
    requires d < 10
    ensures '0' <= c <= '9'
  {
    "0123456789"[d]
  }

  function NatToDecimal(n: nat): (r: string)
    ensures |r| > 0
    ensures forall i :: 0 <= i < |r| ==> '0' <= r[i] <= '9'
  {
    if n < 10 then [DigitChar(n)] else NatToDecimal(n / 10) + [DigitChar(n % 10)]
  }

  /** `${n}` for an integer-valued number. */
  function IntToDecimal(n: int): (r: string)
    ensures |r| > 0
    ensures n < 0 <==> r[0] == '-'
  {
    if n < 0 then "-" + NatToDecimal(-n) else NatToDecimal(n)
  }

  /** The text a template literal `${v}` produces for `v`. */
  function Interpolate(v: Value): (r: string)
    decreases v, 1
  {
    match v
    case Undef => "undefined"
    case NullV => "null"
    case Str(s) => s
    case Num(n) => IntToDecimal(n)
    case Bool(b) => if b then "true" else "false"
    case Arr(items) => Join(seq(|items|, i requires 0 <= i < |items| => ElementText(v, items[i])), ",")
    case Obj(_) => "[object Object]"
  }

  /** `Array.prototype.join` writes `null` and `undefined` elements as empty text. */
  function ElementText(ghost parent: Value, e: Value): (r: string)
    requires e < parent
    decreases parent, 0
  {
    if IsNullish(e) then "" else Interpolate(e)
  }

  /** `obj[key] = v` on an object whose keys are distinct: an existing property keeps
      its position and takes the new value; a new property is appended. */
  function Assign<V>(props: seq<(string, V)>, key: string, v: V): (r: seq<(string, V)>)
    ensures (forall i :: 0 <= i < |props| ==> props[i].0 != key) ==> r == props + [(key, v)]
    ensures forall i :: FirstKeyAt(props, key, i) ==> r == props[..i] + [(key, v)] + props[i + 1..]
  {
    if |props| == 0 then [(key, v)]
    else if props[0].0 == key then
      assert forall i :: FirstKeyAt(props, key, i) ==> i == 0;
      [(key, v)] + props[1..]
    else
      var tail := props[1..];
      var rest := Assign(tail, key, v);
      assert forall i :: 1 <= i < |props| ==> props[i] == tail[i - 1];
      assert forall i :: FirstKeyAt(props, key, i) ==> [props[0]] + rest == props[..i] + [(key, v)] + props[i + 1..] by {
        forall i | FirstKeyAt(props, key, i)
          ensures [props[0]] + rest == props[..i] + [(key, v)] + props[i + 1..]
        {
          assert FirstKeyAt(tail, key, i - 1);
          assert rest == tail[..i - 1] + [(key, v)] + tail[i..];
          assert props[..i] == [props[0]] + tail[..i - 1];
          assert props[i + 1..] == tail[i..];
        }
      }
      [props[0]] + rest
  }

  /** `i` is the position of the first property named `key`. */
  predicate FirstKeyAt<V>(props: seq<(string, V)>, key: string, i: int) {
    0 <= i < |props| && props[i].0 == key && forall j :: 0 <= j < i ==> props[j].0 != key
  }

  /** JavaScript source text for a scalar, as the tool writes it (strings are put in
      double quotes without escaping). */
  function ScalarLiteral(v: Value): string
    requires !v.Arr? && !v.Obj?
  {
    match v
    case Str(s) => "\"" + s + "\""
    case Num(n) => IntToDecimal(n)
    case Bool(b) => if b then "true" else "false"
    case NullV => "null"
    case Undef => "undefined"
  }

  /** JavaScript source text for a list of scalars: `[a, b, …]`. */
  function ListLiteral(items: seq<Value>): string
    requires forall i :: 0 <= i < |items| ==> !items[i].Arr? && !items[i].Obj?
  {
    "[" + Join(seq(|items|, i requires 0 <= i < |items| => ScalarLiteral(items[i])), ", ") + "]"
  }
}
