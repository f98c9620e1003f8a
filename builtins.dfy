/**
 * The raw JSON values the API returns and the two Python built-ins the
 * decoders apply to them, `str(x)` and `int(x)`.
 */
module Builtins {
  import opened Wrappers

  /** A decoded JSON scalar: a string, an integer, `true`/`false` or `null`. */
  datatype Json = JStr(s: string) | JInt(i: int) | JBool(b: bool) | JNull

  /** The Python exceptions the decoders can raise. */
  datatype PyError = KeyError(key: string) | ValueError | TypeError

  predicate IsDigit(c: char) {
    '0' <= c <= '9'
  }

  /** One or more ASCII decimal digits. */
  predicate IsDigits(s: string) {
    |s| >= 1 && forall i :: 0 <= i < |s| ==> IsDigit(s[i])
  }

  function DigitChar(d: nat): (c: char)
    requires d < 10
    ensures IsDigit(c) && c as int - '0' as int == d
  {
    ('0' as int + d) as char
  }

  /** The decimal digits of `n`, most significant first, without leading zeros. */
  function NatToDecimal(n: nat): (s: string)
    ensures IsDigits(s)
    ensures s[0] == '0' ==> n == 0 && s == "0"
    decreases n
  {
    if n < 10 then [DigitChar(n)] else NatToDecimal(n / 10) + [DigitChar(n % 10)]
  }

  /** The number a string of decimal digits denotes (leading zeros allowed). */
  function DecimalValue(s: string): nat
    requires forall i :: 0 <= i < |s| ==> IsDigit(s[i])
  {
    if s == [] then 0
    else
      assert IsDigit(s[|s| - 1]);
      DecimalValue(s[..|s| - 1]) * 10 + (s[|s| - 1] as int - '0' as int)
  }

  lemma {:induction false} DecimalRoundTrip(n: nat)
    ensures DecimalValue(NatToDecimal(n)) == n
  {
    if n >= 10 {
      DecimalRoundTrip(n / 10);
      var s := NatToDecimal(n);
      assert s[..|s| - 1] == NatToDecimal(n / 10);
    }
  }

  /** `str(i)` for an integer: an optional minus sign and the decimal digits. */
  function IntToDecimal(i: int): string {
    if i < 0 then "-" + NatToDecimal(-i) else NatToDecimal(i)
  }

  /**
   * `int(t)` for a string: an optional `+` or `-` followed by decimal digits;
   * anything else raises `ValueError`.
   */
  function ParseInt(t: string): (r: Result<int, PyError>)
    ensures r.Ok? <==> IsDigits(t) || (|t| >= 1 && (t[0] == '-' || t[0] == '+') && IsDigits(t[1..]))
    ensures r.Err? ==> r.error == ValueError
    ensures IsDigits(t) ==> r == Ok(DecimalValue(t))
    ensures |t| >= 1 && (t[0] == '-' || t[0] == '+') && IsDigits(t[1..]) ==>
      r == Ok(if t[0] == '-' then -(DecimalValue(t[1..]) as int) else DecimalValue(t[1..]))
  {
    if |t| >= 1 && t[0] == '-' && IsDigits(t[1..]) then Ok(-(DecimalValue(t[1..]) as int))
    else if |t| >= 1 && t[0] == '+' && IsDigits(t[1..]) then Ok(DecimalValue(t[1..]))
    else if IsDigits(t) then Ok(DecimalValue(t))
    else Err(ValueError)
  }

  /** Reading back what `str` writes for an integer gives that integer. */
  lemma IntRoundTrip(i: int)
    ensures ParseInt(IntToDecimal(i)) == Ok(i)
  {
    if i < 0 {
      DecimalRoundTrip(-i);
      assert IntToDecimal(i)[1..] == NatToDecimal(-i);
    } else {
      DecimalRoundTrip(i);
    }
  }

  /** `str(x)`: never fails on a JSON scalar. */
  function Str(x: Json): (s: string)
    ensures x.JStr? ==> s == x.s
    ensures x.JInt? ==> s == IntToDecimal(x.i) && ParseInt(s) == Ok(x.i)
    ensures x.JBool? ==> s == (if x.b then "True" else "False")
    ensures x.JNull? ==> s == "None"
  {
    match x
    case JStr(t) => t
    case JInt(i) => IntRoundTrip(i); IntToDecimal(i)
    case JBool(b) => if b then "True" else "False"
    case JNull => "None"
  }

  /**
   * `int(x)`: an integer is itself, a bool is 0 or 1, a string is parsed,
   * and `None` raises `TypeError`.
   */
  function Int(x: Json): (r: Result<int, PyError>)
    ensures x.JInt? ==> r == Ok(x.i)
    ensures x.JStr? ==> r == ParseInt(x.s)
    ensures x.JNull? ==> r == Err(TypeError)
    ensures x.JBool? ==> r == Ok(if x.b then 1 else 0)
  {
    match x
    case JStr(t) => ParseInt(t)
    case JInt(i) => Ok(i)
    case JBool(b) => Ok(if b then 1 else 0)
    case JNull => Err(TypeError)
  }
}
