/** JavaScript values as the cache layer handles them, and the few JavaScript
    operations the source applies to them: truthiness, `||`, `&&`, property
    reads and writes, object spread, and the conversion of a value to a
    property key. */
module Json {

  datatype Option<+T> = None | Some(value: T)

  /** A JSON-like JavaScript value. Numbers are integers: the source only
      computes with millisecond timestamps, and sentiment scores are carried
      around without arithmetic. */
  datatype Value =
    | Undefined
    | Null
    | Bool(b: bool)
    | Num(n: int)
    | Str(s: string)
    | Arr(items: seq<Value>)
    | Obj(fields: map<string, Value>)

  /** `v === null || v === undefined`: reading a property of such a value throws. */
  predicate Nullish(v: Value) {
    v.Undefined? || v.Null?
  }

  /** JavaScript truthiness: undefined, null, false, 0 and "" are falsy. */
  predicate Truthy(v: Value) {
    match v
    case Undefined => false
    case Null => false
    case Bool(b) => b
    case Num(n) => n != 0
    case Str(s) => s != ""
    case Arr(_) => true
    case Obj(_) => true
  }

  /** `a || b` */
  function Or(a: Value, b: Value): (r: Value)
    ensures Truthy(r) <==> Truthy(a) || Truthy(b)
    ensures Truthy(a) ==> r == a
    ensures !Truthy(a) ==> r == b
  {
    if Truthy(a) then a else b
  }

  /** `a && b` */
  function And(a: Value, b: Value): (r: Value)
    ensures Truthy(r) <==> Truthy(a) && Truthy(b)
    ensures !Truthy(a) ==> r == a
    ensures Truthy(a) ==> r == b
  {
    if Truthy(a) then b else a
  }

  /** A string-valued descriptor field as a JavaScript value (absent is undefined). */
  function Text(o: Option<string>): (v: Value)
    ensures Truthy(v) <==> o.Some? && o.value != ""
  {
    match o
    case None => Undefined
    case Some(s) => Str(s)
  }

  /** Property read `v[k]`. Only the own fields of objects are modelled;
      reading from a nullish value throws, which callers model themselves. */
  function Get(v: Value, k: string): (r: Value)
    ensures v.Obj? && k in v.fields ==> r == v.fields[k]
    ensures !(v.Obj? && k in v.fields) ==> r == Undefined
  {
    if v.Obj? && k in v.fields then v.fields[k] else Undefined
  }

  /** Property assignment `v[k] = x` on a value that is not nullish, in the
      non-strict mode the source runs in: on a primitive it is dropped. */
  function Put(v: Value, k: string, x: Value): (r: Value)
    ensures v.Obj? ==> r.Obj? && r.fields.Keys == v.fields.Keys + {k}
    ensures v.Obj? ==> Get(r, k) == x
    ensures v.Obj? ==> forall j :: j != k ==> Get(r, j) == Get(v, j)
    ensures !v.Obj? ==> r == v
  {
    if v.Obj? then Obj(v.fields[k := x]) else v
  }

  /** The own fields an object spread `{...v}` copies. */
  function Fields(v: Value): map<string, Value> {
    if v.Obj? then v.fields else map[]
  }

  /** `{...a, ...b}`: every field of either, the later one winning. */
  function Spread(a: Value, b: Value): (r: Value)
    ensures r.Obj? && r.fields.Keys == Fields(a).Keys + Fields(b).Keys
    ensures forall k :: k in Fields(b) ==> Get(r, k) == Fields(b)[k]
    ensures forall k :: k !in Fields(b) ==> Get(r, k) == Get(a, k)
  {
    Obj(Fields(a) + Fields(b))
  }

  /** `ToNumber(v)` for the values the source compares; None is NaN. Strings,
      arrays and objects are not converted (taken as NaN). */
  function ToNumber(v: Value): Option<int> {
    match v
    case Null => Some(0)
    case Bool(b) => Some(if b then 1 else 0)
    case Num(n) => Some(n)
    case _ => None
  }

  /** `v > n` for a number `n`; any comparison with NaN is false. */
  predicate GreaterThan(v: Value, n: int) {
    ToNumber(v).Some? && ToNumber(v).value > n
  }

  const Digits := "0123456789"

  function NatToString(n: nat): (s: string)
    ensures |s| > 0 && s[0] != '-'
    decreases n
  {
    if n < 10 then [Digits[n]] else NatToString(n / 10) + [Digits[n % 10]]
  }

  /** `String(n)` for an integer. */
  function IntToString(i: int): string {
    if i < 0 then "-" + NatToString(-i) else NatToString(i)
  }

  /** `parts.join(",")` */
  function JoinComma(parts: seq<string>): string {
    if |parts| == 0 then ""
    else if |parts| == 1 then parts[0]
    else parts[0] + "," + JoinComma(parts[1..])
  }

  /** The property key a value is converted to when used as `o[v]` (and the
      string `'' + v`). */
  function PropertyKey(v: Value): string
    decreases v
  {
    match v
    case Undefined => "undefined"
    case Null => "null"
    case Bool(b) => if b then "true" else "false"
    case Num(n) => IntToString(n)
    case Str(s) => s
    case Obj(_) => "[object Object]"
    case Arr(items) =>
      JoinComma(seq(|items|, i requires 0 <= i < |items| =>
        if Nullish(items[i]) then "" else PropertyKey(items[i])))
  }

  /** The key a descriptor field names, `undefined` when absent. */
  function KeyName(o: Option<string>): (k: string)
    ensures o.Some? ==> k == o.value
  {
    PropertyKey(Text(o))
  }
}
