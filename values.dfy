/**
 * Python values as the core meets them in untyped dictionaries: the operation
 * payload the rule engine validates and the context a state transition is
 * checked against. Truthiness, `dict.get` with and without a default, and the
 * ordering comparisons (which raise `TypeError` across incompatible types) are
 * modelled exactly; `decimal.Decimal` is kept as coefficient and exponent so
 * that `str()` of one can be rendered.
 */
module PyValues {
  import opened Wrappers
  import opened PyText

  /** A finite `decimal.Decimal`: `coeff` × 10^`exp`. */
  datatype Decimal = Decimal(coeff: int, exp: int)

  function Pow10(e: nat): (r: nat)
    ensures r >= 1
  {
    if e == 0 then 1 else 10 * Pow10(e - 1)
  }

  /** The number a Decimal denotes. */
  function DecimalValue(d: Decimal): real {
    if d.exp >= 0 then (d.coeff * Pow10(d.exp)) as real
    else d.coeff as real / Pow10(-d.exp) as real
  }

  /** A Decimal is positive, zero or negative exactly as its coefficient is. */
  lemma DecimalValueSign(d: Decimal)
    ensures DecimalValue(d) > 0.0 <==> d.coeff > 0
    ensures DecimalValue(d) == 0.0 <==> d.coeff == 0
    ensures DecimalValue(d) < 0.0 <==> d.coeff < 0
  {
    var p := if d.exp >= 0 then Pow10(d.exp) else Pow10(-d.exp);
    assert p >= 1;
    if d.exp >= 0 {
      if d.coeff > 0 {
        assert d.coeff * p >= p;
      } else if d.coeff < 0 {
        assert d.coeff * p <= -p;
      }
    }
  }

  function Zeros(n: nat): (r: string)
    ensures |r| == n && forall i | 0 <= i < n :: r[i] == '0'
  {
    seq(n, _ => '0')
  }

  /** `"%+d" % n`. */
  function SignedText(n: int): string {
    if n < 0 then IntToString(n) else "+" + IntToString(n)
  }

  /** `str(d)` for a Decimal, following CPython's `Decimal.__str__`. */
  function DecimalText(d: Decimal): string {
    var sign := if d.coeff < 0 then "-" else "";
    var digits := NatToString(if d.coeff < 0 then -d.coeff else d.coeff);
    var leftdigits := d.exp + |digits|;
    var dotplace := if d.exp <= 0 && leftdigits > -6 then leftdigits else 1;
    var intpart :=
      if dotplace <= 0 then "0"
      else if dotplace >= |digits| then digits + Zeros(dotplace - |digits|)
      else digits[..dotplace];
    var fracpart :=
      if dotplace <= 0 then "." + Zeros(-dotplace) + digits
      else if dotplace >= |digits| then ""
      else "." + digits[dotplace..];
    var exponent := if leftdigits == dotplace then "" else "E" + SignedText(leftdigits - dotplace);
    sign + intpart + fracpart + exponent
  }

  /** A value found in a request dictionary. `VTime` is a datetime in microseconds. */
  datatype Value =
    | VNone
    | VBool(b: bool)
    | VInt(i: int)
    | VDec(d: Decimal)
    | VStr(s: string)
    | VTime(micros: int)

  /** Python's `bool(v)`. Every datetime is true. */
  predicate Truthy(v: Value) {
    match v
    case VNone => false
    case VBool(b) => b
    case VInt(i) => i != 0
    case VDec(d) => d.coeff != 0
    case VStr(s) => s != ""
    case VTime(_) => true
  }

  /** bool, int and Decimal compare with each other as numbers. */
  predicate IsNumber(v: Value) {
    v.VBool? || v.VInt? || v.VDec?
  }

  function Num(v: Value): real
    requires IsNumber(v)
  {
    match v
    case VBool(b) => if b then 1.0 else 0.0
    case VInt(i) => i as real
    case VDec(d) => DecimalValue(d)
  }

  datatype CmpOp = Lt | Le | Gt | Ge

  function CompareReal(op: CmpOp, x: real, y: real): bool {
    match op
    case Lt => x < y
    case Le => x <= y
    case Gt => x > y
    case Ge => x >= y
  }

  function CompareText(op: CmpOp, x: string, y: string): bool {
    match op
    case Lt => LexLess(x, y)
    case Le => LexLessEq(x, y)
    case Gt => LexLess(y, x)
    case Ge => LexLessEq(y, x)
  }

  /**
   * `a < b`, `a <= b`, `a > b` or `a >= b` in Python: `None` when the
   * comparison raises `TypeError` (None against anything, a string against a
   * number, a datetime against anything but a datetime).
   */
  function Compare(op: CmpOp, a: Value, b: Value): (r: Option<bool>)
    ensures r.Some? <==> (IsNumber(a) && IsNumber(b)) || (a.VStr? && b.VStr?) || (a.VTime? && b.VTime?)
    ensures IsNumber(a) && IsNumber(b) ==> r == Some(CompareReal(op, Num(a), Num(b)))
  {
    if IsNumber(a) && IsNumber(b) then Some(CompareReal(op, Num(a), Num(b)))
    else if a.VStr? && b.VStr? then Some(CompareText(op, a.s, b.s))
    else if a.VTime? && b.VTime? then Some(CompareReal(op, a.micros as real, b.micros as real))
    else None
  }

  /** `type(v).__name__` as Python prints it in a `TypeError`. */
  function TypeName(v: Value): string {
    match v
    case VNone => "NoneType"
    case VBool(_) => "bool"
    case VInt(_) => "int"
    case VDec(_) => "decimal.Decimal"
    case VStr(_) => "str"
    case VTime(_) => "datetime.datetime"
  }

  function OpSymbol(op: CmpOp): string {
    match op
    case Lt => "<"
    case Le => "<="
    case Gt => ">"
    case Ge => ">="
  }

  /** The message of the `TypeError` an unsupported comparison raises. */
  function UnsupportedText(op: CmpOp, a: Value, b: Value): string {
    "'" + OpSymbol(op) + "' not supported between instances of '" + TypeName(a) + "' and '" + TypeName(b) + "'"
  }

  /** `d.get(k)`. */
  function Get(d: map<string, Value>, k: string): Value {
    if k in d then d[k] else VNone
  }

  /** `d.get(k, default)`: a key present with value None yields None, not the default. */
  function GetOr(d: map<string, Value>, k: string, default: Value): Value {
    if k in d then d[k] else default
  }

  /** `f"{v}"` for a number. */
  function Str(v: Value): string
    requires IsNumber(v)
  {
    match v
    case VBool(b) => if b then "True" else "False"
    case VInt(i) => IntToString(i)
    case VDec(d) => DecimalText(d)
  }
}
