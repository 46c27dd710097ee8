/** JavaScript values as the client sees them: configuration entries, request
    parameters, login responses and decoded bodies. `undefined` is not a value
    here: a property that is missing is `None` in an `Option<Value>`. */
module JsValue {

  datatype Option<+T> = None | Some(value: T)

  /** A JavaScript value. Numbers are integers (no fractions, no NaN); arrays
      are objects whose keys happen to be indices. */
  datatype Value =
    | Null
    | Bool(b: bool)
    | Num(n: int)
    | Str(s: string)
    | Obj(fields: map<string, Value>)

  /** JavaScript truthiness: `null`, `false`, `0` and `""` are the falsy values. */
  predicate Truthy(v: Value) {
    match v
    case Null => false
    case Bool(b) => b
    case Num(n) => n != 0
    case Str(s) => s != ""
    case Obj(_) => true
  }

  /** Truthiness of a property read; a missing property reads as `undefined`. */
  predicate TruthyProp(o: Option<Value>) {
    o.Some? && Truthy(o.value)
  }

  /** `typeof v === 'object'`, which also holds for `null`. */
  predicate IsObject(o: Option<Value>) {
    o.Some? && (o.value.Obj? || o.value.Null?)
  }

  /** Reading a key of a map-shaped record (a configuration, a table). */
  function Get(m: map<string, Value>, key: string): (r: Option<Value>)
    ensures r.Some? <==> key in m
    ensures r.Some? ==> r.value == m[key]
  {
    if key in m then Some(m[key]) else None
  }

  /** `String(v)`, the text that `+` appends to a string. */
  function ToStr(v: Value): string {
    match v
    case Null => "null"
    case Bool(b) => if b then "true" else "false"
    case Num(n) => Decimal(n)
    case Str(s) => s
    case Obj(_) => "[object Object]"
  }

  /** What `s + x` appends when `x` is a property read, `undefined` included. */
  function Text(o: Option<Value>): string {
    if o.None? then "undefined" else ToStr(o.value)
  }

  /** What `Array.prototype.join` writes for one element: nothing for `null`
      and `undefined`, the string form otherwise. */
  function JoinText(o: Option<Value>): string {
    if o.None? || o.value.Null? then "" else ToStr(o.value)
  }

  predicate IsDigit(c: char) {
    '0' <= c <= '9'
  }

  predicate AllDigits(s: string) {
    forall i :: 0 <= i < |s| ==> IsDigit(s[i])
  }

  function Digit(d: nat): (c: char)
    requires d < 10
    ensures IsDigit(c) && c as int - '0' as int == d
  {
    ('0' as int + d) as char
  }

  /** Decimal digits of a natural number, without leading zeros. */
  function NatDecimal(n: nat): (s: string)
    ensures |s| >= 1 && AllDigits(s)
    ensures |s| > 1 ==> s[0] != '0'
  {
    if n < 10 then [Digit(n)] else NatDecimal(n / 10) + [Digit(n % 10)]
  }

  /** The number a string of decimal digits denotes. */
  function DigitsValue(s: string): nat
    requires AllDigits(s)
  {
    if s == [] then 0
    else DigitsValue(s[..|s| - 1]) * 10 + (s[|s| - 1] as int - '0' as int)
  }

  /** `String(n)` for an integer (JavaScript switches to exponent notation only
      from 10^21 on, which this model does not follow). */
  function Decimal(n: int): string {
    if n < 0 then "-" + NatDecimal(-n) else NatDecimal(n)
  }

  lemma {:induction false} DigitsValueOfNatDecimal(n: nat)
    ensures DigitsValue(NatDecimal(n)) == n
  {
    if n >= 10 {
      DigitsValueOfNatDecimal(n / 10);
      var s := NatDecimal(n);
      assert s[..|s| - 1] == NatDecimal(n / 10);
    }
  }

  /** Different integers print differently. */
  lemma DecimalInjective(a: int, b: int)
    requires a != b
    ensures Decimal(a) != Decimal(b)
  {
    if Decimal(a) == Decimal(b) {
      if a < 0 && b < 0 {
        assert NatDecimal(-a) == Decimal(a)[1..] == Decimal(b)[1..] == NatDecimal(-b);
        DigitsValueOfNatDecimal(-a);
        DigitsValueOfNatDecimal(-b);
      } else if a >= 0 && b >= 0 {
        DigitsValueOfNatDecimal(a);
        DigitsValueOfNatDecimal(b);
      }
    }
  }
}
