/**
  Decimal numbers in annotations and parameters: Go's fmt.Sprint / strconv.FormatUint on
  one side and strconv.ParseInt with base 10 on the other.
*/
module Decimal {

  const LIMIT32 := 0x8000_0000
  const LIMIT64 := 0x8000_0000_0000_0000

  /** ParseInt's results; on an error it still returns a value, which some callers use. */
  datatype Parsed = Number(value: int) | Malformed | TooLarge(clamped: int) {
    function Value(): int {
      match this
      case Number(v) => v
      case Malformed => 0
      case TooLarge(c) => c
    }
  }

  predicate IsDigit(c: char) {
    '0' <= c <= '9'
  }

  predicate AllDigits(s: string) {
    forall k :: 0 <= k < |s| ==> IsDigit(s[k])
  }

  function DigitValue(c: char): nat
    requires IsDigit(c)
  {
    (c - '0') as int
  }

  /** ParseUint: digits are read one by one, and the first overflow ends the scan. */
  function ParseDigits(s: string, acc: nat, max: nat): (r: Parsed)
    ensures r.Number? ==> acc <= r.value && (acc <= max ==> r.value <= max)
    ensures r.TooLarge? ==> r.clamped == max
    decreases |s|
  {
    if s == "" then Number(acc)
    else if !IsDigit(s[0]) then Malformed
    else
      var n := acc * 10 + DigitValue(s[0]);
      if n > max then TooLarge(max) else ParseDigits(s[1..], n, max)
  }

  /** ParseInt(s, 10, bits) with limit == 2^(bits-1). */
  function ParseInt(s: string, limit: int): (r: Parsed)
    requires limit > 0
    ensures r.Number? ==> -limit <= r.value < limit
    ensures -limit <= r.Value() < limit
  {
    var neg := s != "" && s[0] == '-';
    var digits := if s != "" && (s[0] == '-' || s[0] == '+') then s[1..] else s;
    if digits == "" then Malformed
    else match ParseDigits(digits, 0, 2 * limit - 1)
         case Malformed => Malformed
         case TooLarge(_) => TooLarge(if neg then -limit else limit - 1)
         case Number(n) =>
           if neg then if n > limit then TooLarge(-limit) else Number(-n)
           else if n >= limit then TooLarge(limit - 1) else Number(n)
  }

  function Digit(d: nat): char
    requires d < 10
  {
    '0' + d as char
  }

  function FormatNat(n: nat): (s: string)
    ensures s != "" && AllDigits(s)
  {
    if n < 10 then [Digit(n)] else FormatNat(n / 10) + [Digit(n % 10)]
  }

  function Format(n: int): string {
    if n < 0 then "-" + FormatNat(-n) else FormatNat(n)
  }

  /** The value of a digit string read from the left. */
  function ValueOf(s: string, acc: nat): nat
    requires AllDigits(s)
    decreases |s|
  {
    if s == "" then acc else ValueOf(s[1..], acc * 10 + DigitValue(s[0]))
  }

  lemma {:induction false} ValueOfAppend(s: string, d: char, acc: nat)
    requires AllDigits(s)
    requires IsDigit(d)
    ensures ValueOf(s + [d], acc) == ValueOf(s, acc) * 10 + DigitValue(d)
    decreases |s|
  {
    if s == "" {
      assert s + [d] == [d] && [d][1..] == "";
    } else {
      assert (s + [d])[1..] == s[1..] + [d];
      ValueOfAppend(s[1..], d, acc * 10 + DigitValue(s[0]));
    }
  }

  lemma {:induction false} FormatValue(n: nat)
    ensures ValueOf(FormatNat(n), 0) == n
  {
    if n >= 10 {
      FormatValue(n / 10);
      ValueOfAppend(FormatNat(n / 10), Digit(n % 10), 0);
    } else {
      assert [Digit(n)][1..] == "";
    }
  }

  lemma {:induction false} ValueGrows(s: string, acc: nat)
    requires AllDigits(s)
    ensures acc <= ValueOf(s, acc)
    decreases |s|
  {
    if s != "" {
      ValueGrows(s[1..], acc * 10 + DigitValue(s[0]));
    }
  }

  lemma {:induction false} ParseValue(s: string, acc: nat, max: nat)
    requires AllDigits(s)
    requires ValueOf(s, acc) <= max
    ensures ParseDigits(s, acc, max) == Number(ValueOf(s, acc))
    decreases |s|
  {
    if s != "" {
      var n := acc * 10 + DigitValue(s[0]);
      ValueGrows(s[1..], n);
      ParseValue(s[1..], n, max);
    }
  }

  /** An id or LUN written into an annotation is read back unchanged. */
  lemma RoundTrip(n: int, limit: int)
    requires -limit <= n < limit && limit > 0
    ensures ParseInt(Format(n), limit) == Number(n)
  {
    var m := if n < 0 then -n else n;
    FormatValue(m);
    ParseValue(FormatNat(m), 0, 2 * limit - 1);
    if n < 0 {
      assert Format(n)[1..] == FormatNat(m);
    }
  }

  /** An optional sign and at least one digit. */
  predicate IsNumeral(s: string) {
    var digits := if s != "" && (s[0] == '-' || s[0] == '+') then s[1..] else s;
    digits != "" && AllDigits(digits)
  }

  function NumeralValue(s: string): int
    requires IsNumeral(s)
  {
    if s[0] == '-' then 0 - ValueOf(s[1..], 0) else ValueOf(if s[0] == '+' then s[1..] else s, 0)
  }

  lemma {:induction false} ParsedDigits(s: string, acc: nat, max: nat)
    requires acc <= max
    ensures ParseDigits(s, acc, max).Number? <==> AllDigits(s) && ValueOf(s, acc) <= max
    ensures ParseDigits(s, acc, max).Number? ==> ParseDigits(s, acc, max) == Number(ValueOf(s, acc))
    decreases |s|
  {
    if s != "" && IsDigit(s[0]) {
      var n := acc * 10 + DigitValue(s[0]);
      assert AllDigits(s) <==> AllDigits(s[1..]) by {
        assert s == [s[0]] + s[1..];
      }
      if n <= max {
        ParsedDigits(s[1..], n, max);
      } else if AllDigits(s) {
        ValueGrows(s[1..], n);
      }
    }
  }

  /** A text is read as a number exactly if it is a numeral whose value fits. */
  lemma NumeralsOnly(s: string, limit: int)
    requires limit > 0
    ensures ParseInt(s, limit).Number? <==> IsNumeral(s) && -limit <= NumeralValue(s) < limit
    ensures ParseInt(s, limit).Number? ==> ParseInt(s, limit).value == NumeralValue(s)
  {
    var digits := if s != "" && (s[0] == '-' || s[0] == '+') then s[1..] else s;
    ParsedDigits(digits, 0, 2 * limit - 1);
  }
}
