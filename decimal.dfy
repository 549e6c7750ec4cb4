module Options {
  datatype Option<T> = None | Some(value: T)
}

/**
  Decimal text of integers, as Swift's `String(_: Int)` writes it and
  `Int(_: String)` reads it back. The view models write day numbers and
  years with the first and read day numbers back with the second.
 */
module Decimal {
  import opened Options

  predicate IsDigit(c: char) {
    '0' <= c <= '9'
  }

  predicate AllDigits(s: string) {
    forall i :: 0 <= i < |s| ==> IsDigit(s[i])
  }

  function DigitChar(n: int): (c: char)
    requires 0 <= n <= 9
    ensures IsDigit(c) && c as int - '0' as int == n
  {
    ('0' as int + n) as char
  }

  /** The shortest decimal digits of `n`: no leading zero except for 0 itself. */
  function Digits(n: nat): (s: string)
    ensures 1 <= |s| && AllDigits(s)
    ensures s[0] == '0' ==> n == 0
    decreases n
  {
    if n < 10 then [DigitChar(n)] else Digits(n / 10) + [DigitChar(n % 10)]
  }

  /** The value of a non-empty string of decimal digits. */
  function DigitsValue(s: string): nat
    requires AllDigits(s)
    decreases |s|
  {
    if |s| == 0 then 0
    else DigitsValue(s[..|s| - 1]) * 10 + (s[|s| - 1] as int - '0' as int)
  }

  /** Swift's `String(n)`: a minus sign for negative numbers, then the digits. */
  function IntToString(n: int): (s: string)
    ensures 1 <= |s|
  {
    if n < 0 then "-" + Digits(-n) else Digits(n)
  }

  /** Swift's `Int(s)`: an optional sign and at least one digit, or nothing. */
  function ParseInt(s: string): (r: Option<int>)
    ensures r.Some? ==> 1 <= |s|
  {
    if 1 <= |s| && (s[0] == '-' || s[0] == '+') then
      var body := s[1..];
      if 1 <= |body| && AllDigits(body) then
        var v: int := DigitsValue(body);
        Some(if s[0] == '-' then -v else v)
      else None
    else if 1 <= |s| && AllDigits(s) then Some(DigitsValue(s))
    else None
  }

  lemma {:induction false} DigitsRoundTrip(n: nat)
    ensures DigitsValue(Digits(n)) == n
    decreases n
  {
    var s := Digits(n);
    if 10 <= n {
      DigitsRoundTrip(n / 10);
      assert s[..|s| - 1] == Digits(n / 10);
    }
  }

  /** Reading back what `IntToString` writes gives the number again. */
  lemma IntRoundTrip(n: int)
    ensures ParseInt(IntToString(n)) == Some(n)
  {
    var s := IntToString(n);
    if n < 0 {
      assert s[0] == '-' && s[1..] == Digits(-n);
      DigitsRoundTrip(-n);
    } else {
      assert IsDigit(s[0]) && AllDigits(s);
      DigitsRoundTrip(n);
    }
  }

  /** Two numbers have the same text exactly when they are equal. */
  lemma IntToStringInjective(a: int, b: int)
    ensures IntToString(a) == IntToString(b) <==> a == b
  {
    IntRoundTrip(a);
    IntRoundTrip(b);
  }
}
