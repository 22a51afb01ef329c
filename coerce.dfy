/**
 * Cell coercion: the `conv` switch of main.go and the two number parsers of
 * Go's `strconv` package that it calls.
 *
 * `strconv.Atoi` is modelled for a 64-bit `int`: it accepts an optional sign
 * followed by one or more decimal digits, and only values in the int64 range.
 * `strconv.ParseFloat` is not modelled: it is a parameter of the coercion, and
 * the parsed number is an uninterpreted 64-bit pattern.
 */
module Coerce {
  import opened Wrappers

  const MinInt64: int := -0x8000_0000_0000_0000
  const MaxInt64: int := 0x7FFF_FFFF_FFFF_FFFF

  /** The bit pattern of an IEEE-754 binary64 value; nothing is proved about it. */
  type Float64 = bv64

  /** Stands in for `strconv.ParseFloat(s, 64)`: `None` is the error return. */
  type FloatParser = string -> Option<Float64>

  /** A converted cell, as stored in a record (`interface{}` holding int, float64 or string). */
  datatype Scalar = IntVal(i: int) | FloatVal(f: Float64) | StrVal(s: string)

  /** The error `conv` passes on: from `strconv.Atoi` or from `strconv.ParseFloat`. */
  datatype ConvError = IntInvalid | FloatInvalid

  predicate IsDigit(c: char) { '0' <= c <= '9' }

  predicate AllDigits(s: string) { forall i :: 0 <= i < |s| ==> IsDigit(s[i]) }

  /** The value of a run of decimal digits, most significant first. */
  function DigitsValue(s: string): (n: nat)
    requires AllDigits(s)
    ensures s == [] ==> n == 0
  {
    if s == [] then 0 else DigitsValue(s[..|s| - 1]) * 10 + (s[|s| - 1] - '0') as int
  }

  /** The text after an optional leading sign. */
  function Unsigned(s: string): (u: string)
    ensures |s| > 0 && (s[0] == '-' || s[0] == '+') ==> u == s[1..]
    ensures !(|s| > 0 && (s[0] == '-' || s[0] == '+')) ==> u == s
  {
    if |s| > 0 && (s[0] == '-' || s[0] == '+') then s[1..] else s
  }

  /** `strconv.Atoi` on a 64-bit platform; `None` is the error return. */
  function Atoi(s: string): (r: Option<int>)
    ensures r.Some? ==> MinInt64 <= r.value <= MaxInt64
    ensures r.Some? ==> |s| > 0 && (IsDigit(s[0]) || s[0] == '-' || s[0] == '+')
    ensures r.Some? ==> |Unsigned(s)| > 0 && AllDigits(Unsigned(s))
    ensures r.Some? && |s| > 0 && s[0] == '-' ==> r.value <= 0
    ensures r.Some? && |s| > 0 && s[0] != '-' ==> r.value >= 0
  {
    var u := Unsigned(s);
    if u == [] || !AllDigits(u) then None
    else
      var n: int := if s[0] == '-' then -(DigitsValue(u) as int) else DigitsValue(u);
      if MinInt64 <= n <= MaxInt64 then Some(n) else None
  }

  /** Decimal digits of a natural number, no leading zeros (`strconv.Itoa` for n >= 0). */
  function NatDigits(n: nat): (s: string)
    ensures |s| > 0 && AllDigits(s)
    ensures s[0] == '0' ==> n == 0
  {
    var d := ['0' + (n % 10) as char];
    if n < 10 then d else NatDigits(n / 10) + d
  }

  /** `strconv.Itoa`: the canonical decimal text of an integer. */
  function Itoa(n: int): (s: string)
    ensures |s| > 0
    ensures n < 0 <==> s[0] == '-'
  {
    if n < 0 then "-" + NatDigits(-n) else NatDigits(n)
  }

  lemma {:induction false} DigitsValueOfNatDigits(n: nat)
    ensures DigitsValue(NatDigits(n)) == n
  {
    var d := ['0' + (n % 10) as char];
    if n >= 10 {
      var s := NatDigits(n / 10) + d;
      assert s[..|s| - 1] == NatDigits(n / 10);
      DigitsValueOfNatDigits(n / 10);
    } else {
      assert d[..0] == [];
    }
  }

  /** Atoi inverts Itoa on every int64 value. */
  lemma AtoiItoa(n: int)
    requires MinInt64 <= n <= MaxInt64
    ensures Atoi(Itoa(n)) == Some(n)
  {
    var s := Itoa(n);
    if n < 0 {
      assert Unsigned(s) == NatDigits(-n);
      DigitsValueOfNatDigits(-n);
    } else {
      assert Unsigned(s) == NatDigits(n);
      DigitsValueOfNatDigits(n);
    }
  }

  /** Atoi accepts every sign-optional run of digits whose value fits in int64, and yields that value. */
  lemma AtoiAccepts(sign: string, digits: string)
    requires sign == "" || sign == "+" || sign == "-"
    requires |digits| > 0 && AllDigits(digits)
    ensures var n: int := if sign == "-" then -(DigitsValue(digits) as int) else DigitsValue(digits);
            Atoi(sign + digits) == if MinInt64 <= n <= MaxInt64 then Some(n) else None
  {
    var s := sign + digits;
    var neg := sign == "-";
    if sign == "" {
      assert s == digits;
      assert IsDigit(s[0]);
    } else {
      assert s[0] == sign[0] && s[1..] == digits;
    }
    assert Unsigned(s) == digits;
    assert (s[0] == '-') == neg;
  }

  /** `conv(value, typ)`: coerce cell text by its type label. */
  function Conv(value: string, typ: string, parseFloat: FloatParser): (r: Result<Scalar, ConvError>)
    ensures typ != "int" && typ != "float" ==> r == Ok(StrVal(value))
    ensures typ == "int" ==> (r.Ok? <==> Atoi(value).Some?)
    ensures typ == "int" && r.Ok? ==> r.value == IntVal(Atoi(value).value)
    ensures typ == "int" && r.Err? ==> r.error == IntInvalid
    ensures typ == "float" ==> (r.Ok? <==> parseFloat(value).Some?)
    ensures typ == "float" && r.Ok? ==> r.value == FloatVal(parseFloat(value).value)
    ensures typ == "float" && r.Err? ==> r.error == FloatInvalid
  {
    match typ
    case "int" =>
      (match Atoi(value)
       case Some(i) => Ok(IntVal(i))
       case None => Err(IntInvalid))
    case "float" =>
      (match parseFloat(value)
       case Some(f) => Ok(FloatVal(f))
       case None => Err(FloatInvalid))
    case "string" => Ok(StrVal(value))
    case _ => Ok(StrVal(value))
  }

  /** An "int" cell holding the canonical text of an int64 value converts back to that value. */
  lemma ConvIntRoundTrip(n: int, parseFloat: FloatParser)
    requires MinInt64 <= n <= MaxInt64
    ensures Conv(Itoa(n), "int", parseFloat) == Ok(IntVal(n))
  {
    AtoiItoa(n);
  }
}
