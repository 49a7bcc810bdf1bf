/** `strconv.Itoa`, `strconv.Atoi` and `strconv.ParseUint(_, 10, 64)`. */
module Decimal {
  import opened Text

  const MAX_INT64: int := 0x7FFF_FFFF_FFFF_FFFF
  const TWO_TO_64: int := 0x1_0000_0000_0000_0000

  predicate IsDigit(c: char) {
    '0' <= c <= '9'
  }

  predicate AllDigits(s: string) {
    s != "" && forall i :: 0 <= i < |s| ==> IsDigit(s[i])
  }

  function DigitValue(c: char): (d: nat)
    requires IsDigit(c)
    ensures d <= 9
  {
    c as int - '0' as int
  }

  function DigitChar(d: nat): (c: char)
    requires d <= 9
    ensures IsDigit(c) && DigitValue(c) == d
  {
    (d + '0' as int) as char
  }

  /** The number a digit string denotes, most significant digit first. */
  function Value(s: string): nat
    requires forall i :: 0 <= i < |s| ==> IsDigit(s[i])
  {
    if s == "" then 0 else 10 * Value(s[..|s| - 1]) + DigitValue(s[|s| - 1])
  }

  /** `strconv.Itoa` on a non-negative number. */
  function Itoa(n: nat): (s: string)
    ensures AllDigits(s) && Value(s) == n
  {
    if n < 10 then
      var s := [DigitChar(n)];
      assert s[..0] == "";
      s
    else
      var s := Itoa(n / 10) + [DigitChar(n % 10)];
      assert s[..|s| - 1] == Itoa(n / 10);
      s
  }

  /** `strconv.Atoi` on a 64-bit host: an optional sign, then digits, in the range of int64. */
  function Atoi(s: string): Option<int> {
    var signed := s != "" && (s[0] == '-' || s[0] == '+');
    var digits := if signed then s[1..] else s;
    if !AllDigits(digits) then None
    else if signed && s[0] == '-' then
      var magnitude: int := Value(digits);
      if magnitude <= MAX_INT64 + 1 then Some(-magnitude) else None
    else if Value(digits) <= MAX_INT64 then Some(Value(digits))
    else None
  }

  /** `strconv.ParseUint(s, 10, 64)`. */
  function ParseUint64(s: string): (r: Option<nat>)
    ensures r.Some? ==> r.value < TWO_TO_64
  {
    if AllDigits(s) && Value(s) < TWO_TO_64 then Some(Value(s)) else None
  }

  lemma AtoiItoa(n: nat)
    requires n <= MAX_INT64
    ensures Atoi(Itoa(n)) == Some(n)
  {
    assert IsDigit(Itoa(n)[0]);
  }
}
