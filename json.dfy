/**
 * JavaScript values as the command palette sees them after `response.json()`,
 * and the few language operations the core applies to them: `typeof`, a
 * property read, the `in` operator, optional chaining, truthiness and
 * `String(value)` on primitives.
 *
 * An object is its ordered list of own entries, in `Object.entries` order.
 * Objects coming from JSON have distinct keys; a property read takes the first
 * entry with the key. Arrays and primitives expose none of the property names
 * the core reads (`length` and the prototype methods are never read by it), so
 * a property read on them yields `undefined`.
 */
module JsValues {

  datatype Option<T> = None | Some(value: T)

  /** A JavaScript value. Numbers are integral here; see NumberToString. */
  datatype Json =
    | Null
    | Undefined
    | Bool(b: bool)
    | Num(n: int)
    | Str(s: string)
    | Arr(items: seq<Json>)
    | Obj(fields: seq<(string, Json)>)

  /** The results of `typeof` on these values: "undefined", "object", "boolean", "number", "string". */
  datatype TypeTag = UndefinedType | ObjectType | BooleanType | NumberType | StringType

  /** The `typeof` operator; note that null and arrays are of type "object". */
  function TypeOf(v: Json): TypeTag
  {
    match v
    case Null => ObjectType
    case Undefined => UndefinedType
    case Bool(_) => BooleanType
    case Num(_) => NumberType
    case Str(_) => StringType
    case Arr(_) => ObjectType
    case Obj(_) => ObjectType
  }

  /** `v === null || v === undefined`. */
  predicate IsNullish(v: Json) {
    v.Null? || v.Undefined?
  }

  /** The value of the first entry with `key`, if any. */
  function Lookup(fields: seq<(string, Json)>, key: string): Option<Json>
  {
    if fields == [] then None
    else if fields[0].0 == key then Some(fields[0].1)
    else Lookup(fields[1..], key)
  }

  /** A key held by no entry is not found. */
  lemma {:induction false} LookupAbsent(fields: seq<(string, Json)>, key: string)
    requires forall i :: 0 <= i < |fields| ==> fields[i].0 != key
    ensures Lookup(fields, key) == None
  {
    if fields != [] {
      LookupAbsent(fields[1..], key);
    }
  }

  /** The lookup finds the first entry with the key. */
  lemma {:induction false} LookupFirst(fields: seq<(string, Json)>, key: string, i: nat)
    requires i < |fields| && fields[i].0 == key
    requires forall j :: 0 <= j < i ==> fields[j].0 != key
    ensures Lookup(fields, key) == Some(fields[i].1)
  {
    if i > 0 {
      LookupFirst(fields[1..], key, i - 1);
    }
  }

  /** Entries under other keys do not affect a lookup, wherever they sit. */
  lemma {:induction false} LookupIgnoresOtherKey(a: seq<(string, Json)>, b: seq<(string, Json)>, k: string, x: Json, key: string)
    requires key != k
    ensures Lookup(a + [(k, x)] + b, key) == Lookup(a + b, key)
  {
    if a == [] {
      assert a + [(k, x)] + b == [(k, x)] + b;
      assert ([(k, x)] + b)[1..] == b;
      assert a + b == b;
    } else {
      LookupIgnoresOtherKey(a[1..], b, k, x, key);
      assert (a + [(k, x)] + b)[1..] == a[1..] + [(k, x)] + b;
      assert (a + b)[1..] == a[1..] + b;
    }
  }

  /** The property read `v.key`; reading a property of null or undefined throws, so it is excluded. */
  function Get(v: Json, key: string): Json
    requires !IsNullish(v)
  {
    match v
    case Obj(fields) => (match Lookup(fields, key) case Some(x) => x case None => Undefined)
    case _ => Undefined
  }

  /** The `key in v` test; `in` on a primitive throws, so `v` must be a non-null object. */
  predicate Has(v: Json, key: string)
    requires TypeOf(v) == ObjectType && v != Null
  {
    v.Obj? && Lookup(v.fields, key).Some?
  }

  /** `v?.key`: undefined when `v` is null or undefined, otherwise the property read. */
  function OptionalGet(v: Json, key: string): Json
  {
    if IsNullish(v) then Undefined else Get(v, key)
  }

  /** `v?.[0]`: the first array element, the first character of a string, or the property "0". */
  function OptionalFirst(v: Json): Json
  {
    match v
    case Arr(items) => if items == [] then Undefined else items[0]
    case Str(s) => if s == [] then Undefined else Str([s[0]])
    case Obj(_) => Get(v, "0")
    case _ => Undefined
  }

  /** JavaScript truthiness (NaN is not a value of the model). */
  predicate Truthy(v: Json) {
    match v
    case Null => false
    case Undefined => false
    case Bool(b) => b
    case Num(n) => n != 0
    case Str(s) => s != ""
    case Arr(_) => true
    case Obj(_) => true
  }

  function DigitChar(d: nat): (c: char)
    requires d < 10
    ensures '0' <= c <= '9'
  {
    ('0' as int + d) as char
  }

  /** Decimal digits of a natural number, most significant first, without leading zeros. */
  function Digits(n: nat): (r: string)
    ensures 1 <= |r| && forall i :: 0 <= i < |r| ==> '0' <= r[i] <= '9'
    ensures |r| > 1 ==> r[0] != '0'
  {
    if n < 10 then [DigitChar(n)] else Digits(n / 10) + [DigitChar(n % 10)]
  }

  /** `String(n)` for an integral number: optional minus sign, then the decimal digits. */
  function NumberToString(n: int): (r: string)
    ensures r != [] && (r[0] == '-' <==> n < 0)
  {
    if n < 0 then "-" + Digits(-n) else Digits(n)
  }

  /** The number a string of decimal digits denotes, read left to right: each digit multiplies the value so far by ten and adds itself. */
  function DecimalValue(s: string): int
  {
    if s == [] then 0
    else DecimalValue(s[..|s| - 1]) * 10 + (s[|s| - 1] as int - '0' as int)
  }

  /** The integer a decimal numeral with an optional leading minus sign denotes. */
  function IntegerValue(s: string): int
  {
    if s != [] && s[0] == '-' then -DecimalValue(s[1..]) else DecimalValue(s)
  }

  /** The digits of n denote n. */
  lemma {:induction false} DigitsValue(n: nat)
    ensures DecimalValue(Digits(n)) == n
  {
    if n < 10 {
      assert [DigitChar(n)][..0] == [];
    } else {
      DigitsValue(n / 10);
      var s := Digits(n / 10) + [DigitChar(n % 10)];
      assert s[..|s| - 1] == Digits(n / 10);
    }
  }

  /** `String(n)` denotes n, so no two integers are shown alike. */
  lemma NumberToStringValue(n: int)
    ensures IntegerValue(NumberToString(n)) == n
  {
    if n < 0 {
      DigitsValue(-n);
      assert ("-" + Digits(-n))[1..] == Digits(-n);
    } else {
      DigitsValue(n);
    }
  }

  lemma NumberToStringInjective(m: int, n: int)
    ensures NumberToString(m) == NumberToString(n) <==> m == n
  {
    NumberToStringValue(m);
    NumberToStringValue(n);
  }

  /** `String(v)` for a boolean, number or string. */
  function PrimitiveToString(v: Json): string
    requires v.Bool? || v.Num? || v.Str?
  {
    match v
    case Bool(b) => if b then "true" else "false"
    case Num(n) => NumberToString(n)
    case Str(s) => s
  }
}
