/** Unsigned decimal numbers as both ends of the wire print and read them. */
module Decimal {
  import opened Basics

  predicate IsDigit(c: char) { '0' <= c <= '9' }

  function Digit(n: nat): char
    requires n < 10
  {
    '0' + n as char
  }

  function Print(n: nat): (text: string)
    ensures text != []
  {
    if n < 10 then [Digit(n)] else Print(n / 10) + [Digit(n % 10)]
  }

  ghost predicate AllDigits(text: string) { forall c <- text :: IsDigit(c) }

  function DigitValue(c: char): nat { if IsDigit(c) then (c - '0') as nat else 0 }

  /** The number a run of digits stands for. */
  function Value(digits: string): nat {
    if digits == [] then 0 else 10 * Value(digits[..|digits| - 1]) + DigitValue(digits[|digits| - 1])
  }

  /** The value of a run of digits, unless it is empty or does not fit 64 bits. */
  function FromChars(digits: string): Option<nat> {
    if digits == [] || Value(digits) >= UINT64_SIZE then None else Some(Value(digits))
  }

  /** The end of the run of digits that starts at an offset. */
  function DigitsEnd(input: string, offset: nat): (end: nat)
    requires offset <= |input|
    ensures offset <= end <= |input|
    decreases |input| - offset
  {
    if offset < |input| && IsDigit(input[offset]) then DigitsEnd(input, offset + 1) else offset
  }

  /** Reading back a printed number gives the number; it consists of digits and has no leading zero. */
  lemma {:induction false} PrintReads(n: nat)
    ensures AllDigits(Print(n)) && Value(Print(n)) == n
    ensures Print(n)[0] == '0' ==> n == 0 && |Print(n)| == 1
  {
    if n >= 10 {
      PrintReads(n / 10);
      assert Print(n)[..|Print(n)| - 1] == Print(n / 10);
    } else {
      assert Print(n)[..0] == [];
    }
  }

  lemma PrintIsInjective(m: nat, n: nat)
    requires Print(m) == Print(n)
    ensures m == n
  {
    PrintReads(m);
    PrintReads(n);
  }

  /** A printed number is read to its end where something other than a digit follows. */
  lemma {:induction false} DigitsEndAfter(input: string, offset: nat, end: nat)
    requires offset <= end <= |input| && AllDigits(input[offset..end])
    requires end < |input| ==> !IsDigit(input[end])
    ensures DigitsEnd(input, offset) == end
    decreases end - offset
  {
    if offset < end {
      assert input[offset] == input[offset..end][0];
      assert input[offset + 1..end] == input[offset..end][1..];
      DigitsEndAfter(input, offset + 1, end);
    }
  }

  /** A number must be followed by something that is no digit. */
  predicate Delimited(input: string, offset: nat) { offset < |input| ==> !IsDigit(input[offset]) }

  lemma DigitsOfNumber(input: string, offset: nat, end: nat, n: nat)
    requires offset <= end <= |input| && input[offset..end] == Print(n) && Delimited(input, end)
    ensures offset < end && DigitsEnd(input, offset) == end
    ensures IsDigit(input[offset]) && (input[offset] == '0' ==> end == offset + 1)
  {
    PrintReads(n);
    DigitsEndAfter(input, offset, end);
    assert input[offset] == input[offset..end][0];
  }
}
