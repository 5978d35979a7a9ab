/** The part of Go's `strconv` package that the schema inspector relies on:
    `Atoi`, over ASCII text and unbounded integers, together with the decimal
    formatting (`strconv.Itoa`) that is its inverse. */
module StrConv {
  import opened Wrappers

  /** `*strconv.NumError` as `Atoi` reports it: the function name is always
      "Atoi", and the only cause modelled is `ErrSyntax`, carrying the input. */
  datatype NumError = ErrSyntax(num: string)

  predicate IsDigit(c: char) {
    '0' <= c <= '9'
  }

  function DigitValue(c: char): nat
    requires IsDigit(c)
  {
    c as int - '0' as int
  }

  /** The value of one or more decimal digits, most significant first; `None`
      for the empty text or any other character. */
  function DecimalValue(s: string): (r: Option<nat>)
    ensures r.Some? ==> |s| > 0
    decreases |s|
  {
    if s == [] || !IsDigit(s[|s| - 1]) then None
    else if |s| == 1 then Some(DigitValue(s[0]))
    else
      match DecimalValue(s[..|s| - 1])
      case None => None
      case Some(v) => Some(v * 10 + DigitValue(s[|s| - 1]))
  }

  /** `strconv.Atoi`: an optional `+` or `-` sign followed by at least one
      decimal digit; anything else is a syntax error that carries the input. */
  function Atoi(s: string): Result<int, NumError> {
    var signed := |s| > 0 && (s[0] == '+' || s[0] == '-');
    match DecimalValue(if signed then s[1..] else s)
    case None => Error(ErrSyntax(s))
    case Some(v) => Ok(if s[0] == '-' then -(v as int) else v)
  }

  function DigitChar(d: nat): (c: char)
    requires d < 10
    ensures IsDigit(c) && DigitValue(c) == d
  {
    ('0' as int + d) as char
  }

  /** Shortest decimal spelling of a natural number. */
  function FormatNat(n: nat): (s: string)
    ensures |s| > 0
  {
    if n < 10 then [DigitChar(n)] else FormatNat(n / 10) + [DigitChar(n % 10)]
  }

  /** `strconv.Itoa`: a `-` sign for negative numbers, then the digits. */
  function FormatInt(n: int): string {
    if n < 0 then "-" + FormatNat(-n) else FormatNat(n)
  }

  lemma {:induction false} DecimalValueOfFormatNat(n: nat)
    ensures DecimalValue(FormatNat(n)) == Some(n)
  {
    if n >= 10 {
      var s := FormatNat(n);
      assert s[..|s| - 1] == FormatNat(n / 10);
      DecimalValueOfFormatNat(n / 10);
    }
  }

  /** `Atoi` reads back every integer that `Itoa` writes. */
  lemma AtoiFormatInt(n: int)
    ensures Atoi(FormatInt(n)) == Ok(n)
  {
    if n < 0 {
      AtoiMinusSign(-n);
    } else {
      AtoiFormatNat(n);
    }
  }

  lemma AtoiFormatNat(n: nat)
    ensures Atoi(FormatNat(n)) == Ok(n)
  {
    DecimalValueOfFormatNat(n);
    DecimalValueDigits(FormatNat(n), 0);
  }

  /** A `-` sign negates the value of the digits after it. */
  lemma AtoiMinusSign(n: nat)
    ensures Atoi("-" + FormatNat(n)) == Ok(-(n as int))
  {
    DecimalValueOfFormatNat(n);
    assert ("-" + FormatNat(n))[1..] == FormatNat(n);
  }

  /** An explicit `+` sign is accepted and changes nothing. */
  lemma AtoiPlusSign(n: nat)
    ensures Atoi("+" + FormatNat(n)) == Ok(n)
  {
    DecimalValueOfFormatNat(n);
    assert ("+" + FormatNat(n))[1..] == FormatNat(n);
  }

  /** Every character of a text that has a decimal value is a digit. */
  lemma {:induction false} DecimalValueDigits(s: string, i: nat)
    requires DecimalValue(s).Some? && i < |s|
    ensures IsDigit(s[i])
    decreases |s|
  {
    if i < |s| - 1 {
      DecimalValueDigits(s[..|s| - 1], i);
    }
  }

  /** A text has a decimal value exactly when it is one or more digits. */
  lemma {:induction false} DecimalValueDefined(s: string)
    ensures DecimalValue(s).Some? <==> |s| > 0 && forall i :: 0 <= i < |s| ==> IsDigit(s[i])
    decreases |s|
  {
    if DecimalValue(s).Some? {
      forall i | 0 <= i < |s|
        ensures IsDigit(s[i])
      {
        DecimalValueDigits(s, i);
      }
    } else if |s| > 1 && IsDigit(s[|s| - 1]) {
      DecimalValueDefined(s[..|s| - 1]);
    }
  }

  /** Text that holds a character other than a digit after the optional sign
      does not parse. */
  lemma AtoiRejects(s: string, i: nat)
    requires i < |s| && !IsDigit(s[i])
    requires i > 0 || (s[0] != '+' && s[0] != '-')
    ensures Atoi(s) == Error(ErrSyntax(s))
  {
    var k := if s[0] == '+' || s[0] == '-' then 1 else 0;
    var digits := s[k..];
    assert digits[i - k] == s[i];
    if DecimalValue(digits).Some? {
      DecimalValueDigits(digits, i - k);
    }
  }

  /** Neither the empty text nor a lone sign parses. */
  lemma AtoiRejectsNoDigits(s: string)
    requires s == "" || s == "+" || s == "-"
    ensures Atoi(s) == Error(ErrSyntax(s))
  {
  }
}
