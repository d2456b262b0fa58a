/** JavaScript values as the pre-order handlers meet them in a parsed request
    body, and the two conversions those handlers apply to them: the truth test
    of `!x` and the string conversion of a template literal `${x}`. */
module JsValues {

  datatype Option<T> = None | Some(value: T)

  /** 2^53: every integer up to this magnitude is exactly a JavaScript number. */
  const MaxSafe: int := 0x20_0000_0000_0000

  /** The integers a JavaScript number holds exactly, and for which `String(n)`
      writes the plain decimal digits. */
  type SafeInteger = n: int | -MaxSafe <= n <= MaxSafe

  /** A value read out of a request body. Numbers are safe integers here.
      `Obj` stands for a non-array object; `ownToString` records whether it
      carries a `toString` property of its own, which in a parsed body is data,
      never a function. */
  datatype JsValue =
    | Undefined
    | Null
    | Bool(b: bool)
    | Num(n: SafeInteger)
    | Str(s: string)
    | Obj(ownToString: bool)

  /** The named properties of an object, e.g. a parsed JSON body or a JSON reply. */
  type Fields = map<string, JsValue>

  /** Destructuring `const { key } = fields`: a missing property reads as `undefined`. */
  function Get(fields: Fields, key: string): JsValue
  {
    if key in fields then fields[key] else Undefined
  }

  /** The truth test JavaScript applies in `if (x)` and `!x`. */
  predicate Truthy(v: JsValue)
  {
    match v
    case Undefined => false
    case Null => false
    case Bool(b) => b
    case Num(n) => n != 0
    case Str(s) => s != ""
    case Obj(_) => true
  }

  /** The falsy values among those modelled are exactly these five. */
  lemma FalsyValues(v: JsValue)
    ensures !Truthy(v) <==>
      v == Undefined || v == Null || v == Bool(false) || v == Num(0) || v == Str("")
  {
  }

  predicate IsDigit(c: char) { '0' <= c <= '9' }

  predicate IsDigits(s: string) { forall i :: 0 <= i < |s| ==> IsDigit(s[i]) }

  function DigitChar(d: nat): (c: char)
    requires d < 10
    ensures IsDigit(c)
  {
    "0123456789"[d]
  }

  function DigitValue(c: char): (d: nat)
    requires IsDigit(c)
    ensures d < 10
  {
    (c as int - '0' as int) as nat
  }

  /** The decimal numeral of `n`, without leading zeros. For a safe integer
      (the only numbers `Display` prints) this is what `String(n)` writes. */
  function Decimal(n: nat): (r: string)
    ensures |r| >= 1 && IsDigits(r)
    ensures r[0] == '0' ==> n == 0
  {
    if n < 10 then [DigitChar(n)] else Decimal(n / 10) + [DigitChar(n % 10)]
  }

  /** The number a decimal numeral denotes: the reference against which `Decimal` is checked. */
  function NumeralValue(s: string): nat
    requires IsDigits(s)
  {
    if s == [] then 0 else 10 * NumeralValue(s[..|s| - 1]) + DigitValue(s[|s| - 1])
  }

  lemma {:induction false} DecimalDenotes(n: nat)
    ensures NumeralValue(Decimal(n)) == n
  {
    if n >= 10 {
      var r := Decimal(n);
      assert r[..|r| - 1] == Decimal(n / 10);
      DecimalDenotes(n / 10);
      assert DigitValue(DigitChar(n % 10)) == n % 10;
    } else {
      assert DigitValue(DigitChar(n)) == n;
    }
  }

  /** Distinct numbers print as distinct numerals. */
  lemma DecimalInjective(m: nat, n: nat)
    ensures Decimal(m) == Decimal(n) ==> m == n
  {
    DecimalDenotes(m);
    DecimalDenotes(n);
  }

  /** `${v}` completes without throwing. For an object whose own `toString` is
      not callable, the conversion falls back to `valueOf`, which returns the
      object itself, and a TypeError is thrown. */
  predicate Printable(v: JsValue)
  {
    !(v.Obj? && v.ownToString)
  }

  /** The message of that TypeError. */
  const ConversionError := "Cannot convert object to primitive value"

  /** Template-literal interpolation `${v}`, on the values where it completes. */
  function Display(v: JsValue): (r: string)
    requires Printable(v)
    ensures v.Str? ==> r == v.s
    ensures v.Num? ==> (v.n < 0 <==> |r| > 0 && r[0] == '-')
  {
    match v
    case Undefined => "undefined"
    case Null => "null"
    case Bool(b) => if b then "true" else "false"
    case Num(n) => if n < 0 then "-" + Decimal(-n) else Decimal(n)
    case Str(s) => s
    case Obj(_) => "[object Object]"
  }
}
