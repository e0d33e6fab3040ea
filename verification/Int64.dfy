/** Signed 64-bit integers and the decimal notation they are parsed from. */
module Int64 {
  import opened Wrappers

  const MAX: int := 0x7FFF_FFFF_FFFF_FFFF
  const MIN: int := -0x8000_0000_0000_0000

  newtype int64 = x: int | MIN <= x <= MAX

  predicate Digit(c: char) { '0' <= c <= '9' }

  predicate AllDigits(s: string) { forall i :: 0 <= i < |s| ==> Digit(s[i]) }

  function DigitsValue(s: string): nat
    requires AllDigits(s)
  {
    if s == [] then 0 else 10 * DigitsValue(s[..|s| - 1]) + (s[|s| - 1] as int - '0' as int)
  }

  /** strconv.ParseInt(s, 10, 64): an optional sign, at least one digit, no
      overflow. */
  function ParseInt(s: string): Option<int64> {
    if s == [] then None
    else
      var signed := s[0] == '+' || s[0] == '-';
      var digits := if signed then s[1..] else s;
      if digits == [] || !AllDigits(digits) then None
      else
        var size: int := DigitsValue(digits);
        var value := if s[0] == '-' then -size else size;
        if MIN <= value <= MAX then Some(value as int64) else None
  }

  function Digits(n: nat): (s: string)
    ensures s != [] && AllDigits(s)
  {
    var last := [('0' as int + n % 10) as char];
    if n < 10 then last else Digits(n / 10) + last
  }

  lemma {:induction false} DigitsRoundTrip(n: nat)
    ensures DigitsValue(Digits(n)) == n
  {
    var s := Digits(n);
    if n >= 10 {
      DigitsRoundTrip(n / 10);
      assert s[..|s| - 1] == Digits(n / 10);
    } else {
      assert s[..0] == [];
    }
  }

  function Print(n: int64): string {
    if n < 0 then "-" + Digits(-(n as int)) else Digits(n as int)
  }

  /** Every 64-bit integer is the value of its decimal notation. */
  lemma {:induction false} ParsePrinted(n: int64)
    ensures ParseInt(Print(n)) == Some(n)
  {
    var s := Print(n);
    if n < 0 {
      DigitsRoundTrip(-(n as int));
      assert s[1..] == Digits(-(n as int));
    } else {
      DigitsRoundTrip(n as int);
      assert Digit(s[0]);
    }
  }

  /** A text is parsed exactly when it is digits, signed or not, whose value is
      in range; leading zeros and a plus sign are allowed. */
  lemma {:induction false} SignedDigitsParse(sign: string, digits: string)
    requires sign in {"", "+", "-"} && digits != [] && AllDigits(digits)
    ensures var size: int := DigitsValue(digits);
            var value := if sign == "-" then -size else size;
            ParseInt(sign + digits) == if MIN <= value <= MAX then Some(value as int64) else None
  {
    var s := sign + digits;
    if sign == "" {
      assert s == digits && Digit(s[0]);
    } else {
      assert s[0] == sign[0] && s[1..] == digits;
    }
  }

  lemma {:induction false} OnlySignedDigitsParse(s: string)
    requires ParseInt(s).Some?
    ensures exists sign, digits :: sign in {"", "+", "-"} && digits != [] && AllDigits(digits) && s == sign + digits
  {
    if s[0] == '+' || s[0] == '-' {
      assert s == [s[0]] + s[1..];
      assert [s[0]] in {"", "+", "-"} && s[1..] != [] && AllDigits(s[1..]);
    } else {
      assert "" in {"", "+", "-"} && s == "" + s;
    }
  }
}
