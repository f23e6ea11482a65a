/** Python-shaped payload values, and the decimal text that integers travel in. */
module Values {
  import opened Wrappers

  newtype Byte = b: int | 0 <= b < 256

  /** A Python float: finite values are exact reals, rounding is not modelled. */
  datatype Float = Finite(r: real) | NaN | PosInf | NegInf

  datatype Value =
    | Null
    | Bool(b: bool)
    | Int(i: int)
    | Flt(f: Float)
    | Str(s: string)
    | Bytes(bytes: seq<Byte>)
    | List(items: seq<Value>)
    | Tuple(items: seq<Value>)
    | Dict(dict: map<string, Value>)

  /** No bytes at any depth. */
  ghost predicate NoBytes(v: Value) {
    match v
    case Bytes(_) => false
    case List(items) => forall i :: 0 <= i < |items| ==> NoBytes(items[i])
    case Tuple(items) => forall i :: 0 <= i < |items| ==> NoBytes(items[i])
    case Dict(d) => forall k :: k in d ==> NoBytes(d[k])
    case _ => true
  }

  /** No tuple and no bytes anywhere. */
  ghost predicate IsJson(v: Value) {
    match v
    case Bytes(_) => false
    case Tuple(_) => false
    case List(items) => forall i :: 0 <= i < |items| ==> IsJson(items[i])
    case Dict(d) => forall k :: k in d ==> IsJson(d[k])
    case _ => true
  }

  /* ---- decimal text ---- */

  predicate IsDigit(c: char) {
    '0' <= c <= '9'
  }

  function DigitChar(d: nat): (c: char)
    requires d < 10
  {
    ('0' as int + d) as char
  }

  function DigitValue(c: char): (d: nat)
    requires IsDigit(c)
  {
    c as int - '0' as int
  }

  ghost predicate AllDigits(s: string) {
    forall i :: 0 <= i < |s| ==> IsDigit(s[i])
  }

  /** str(n) for n >= 0. */
  function PrintNat(n: nat): (s: string)
    ensures |s| > 0 && AllDigits(s)
  {
    if n < 10 then [DigitChar(n)] else PrintNat(n / 10) + [DigitChar(n % 10)]
  }

  /** The value of a digit string, most significant digit first. */
  function DigitsValue(s: string): (n: nat)
    requires AllDigits(s)
  {
    if s == [] then 0 else 10 * DigitsValue(s[..|s| - 1]) + DigitValue(s[|s| - 1])
  }

  lemma {:induction false} DigitsOfPrintNat(n: nat)
    ensures DigitsValue(PrintNat(n)) == n
  {
    var s := PrintNat(n);
    if n < 10 {
      assert s[..|s| - 1] == [];
      assert DigitsValue(s) == 10 * DigitsValue([]) + DigitValue(s[0]);
    } else {
      DigitsOfPrintNat(n / 10);
      assert s[..|s| - 1] == PrintNat(n / 10);
    }
  }

  /** str(v) for any integer. */
  function PrintInt(v: int): (s: string) {
    if v < 0 then "-" + PrintNat(-v) else PrintNat(v)
  }

  predicate IsSpace(c: char) {
    c == ' ' || '\t' <= c <= '\r'
  }

  function StripLeft(s: string): (r: string) {
    if s != [] && IsSpace(s[0]) then StripLeft(s[1..]) else s
  }

  function StripRight(s: string): (r: string) {
    if s != [] && IsSpace(s[|s| - 1]) then StripRight(s[..|s| - 1]) else s
  }

  /** The digits of a literal, without its underscores. */
  function Digits(s: string): (r: string)
    ensures AllDigits(r)
  {
    if s == [] then []
    else
      var rest := Digits(s[1..]);
      if IsDigit(s[0]) then [s[0]] + rest else rest
  }

  /** Digits, possibly grouped by single underscores. */
  predicate IsDecimal(s: string) {
    && s != [] && IsDigit(s[0]) && IsDigit(s[|s| - 1])
    && (forall i :: 0 <= i < |s| ==> IsDigit(s[i]) || s[i] == '_')
    && (forall i :: 0 < i < |s| ==> IsDigit(s[i - 1]) || IsDigit(s[i]))
  }

  /** int(s, 10): surrounding space, one sign, digits; None where Python raises ValueError. */
  function ParseInt(s: string): (v: Option<int>) {
    var t := StripRight(StripLeft(s));
    var signed := t != [] && (t[0] == '-' || t[0] == '+');
    var body := if signed then t[1..] else t;
    if !IsDecimal(body) then None
    else if signed && t[0] == '-' then Some(-(DigitsValue(Digits(body)) as int))
    else Some(DigitsValue(Digits(body)))
  }

  lemma {:induction false} DigitsOfDigits(s: string)
    requires AllDigits(s)
    ensures Digits(s) == s
  {
    if s == [] {
    } else {
      DigitsOfDigits(s[1..]);
    }
  }

  lemma NothingToStrip(s: string)
    requires s != [] && !IsSpace(s[0]) && !IsSpace(s[|s| - 1])
    ensures StripRight(StripLeft(s)) == s
  {
  }

  lemma DigitsAreDecimal(digits: string)
    requires digits != [] && AllDigits(digits)
    ensures IsDecimal(digits) && !IsSpace(digits[0]) && !IsSpace(digits[|digits| - 1])
    ensures digits[0] != '-' && digits[0] != '+'
  {
  }

  /** Unsigned digits, and digits after one minus sign, parse to their value. */
  lemma ParseDigits(digits: string, s: string)
    requires digits != [] && AllDigits(digits)
    requires s == digits || s == ['-'] + digits
    ensures ParseInt(s) == Some(if s == digits then DigitsValue(digits) as int else -(DigitsValue(digits) as int))
  {
    DigitsOfDigits(digits);
    DigitsAreDecimal(digits);
    NothingToStrip(s);
    if s != digits {
      assert s[1..] == digits;
    }
  }

  /** Reading a printed integer gives it back. */
  lemma ParsePrintInt(v: int)
    ensures ParseInt(PrintInt(v)) == Some(v)
  {
    var n := if v < 0 then -v else v;
    DigitsOfPrintNat(n);
    ParseDigits(PrintNat(n), PrintInt(v));
    assert v < 0 ==> PrintInt(v)[0] == '-' && IsDigit(PrintNat(n)[0]);
  }
}
