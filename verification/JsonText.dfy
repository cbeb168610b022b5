/** What both ends of the wire share about JSON text (sections 6 and 7 of RFC 8259); characters stand for bytes. */
module JsonText {
  import Decimal

  /** A value and the offset just behind it. */
  datatype Parsed<+T> = Parsed(value: T, offset: nat)

  const BACKSPACE: char := 8 as char
  const VERTICAL_TAB: char := 11 as char
  const FORM_FEED: char := 12 as char

  predicate IsControl(c: char) { c < ' ' }

  predicate At(input: string, offset: nat, c: char) { offset < |input| && input[offset] == c }

  predicate StartsWith(input: string, offset: nat, word: string)
    requires offset <= |input|
  {
    word <= input[offset..]
  }

  /** A text stands at an offset of the input, character by character. */
  predicate Stands(input: string, offset: nat, text: string)
    decreases |text|
  {
    text == [] || (At(input, offset, text[0]) && Stands(input, offset + 1, text[1..]))
  }

  lemma {:induction false} StandsIsSlice(input: string, offset: nat, text: string)
    requires offset <= |input|
    ensures Stands(input, offset, text) <==> offset + |text| <= |input| && input[offset..offset + |text|] == text
    decreases |text|
  {
    if text != [] && offset < |input| {
      StandsIsSlice(input, offset + 1, text[1..]);
      if offset + |text| <= |input| {
        assert input[offset..offset + |text|] == [input[offset]] + input[offset + 1..offset + |text|];
        assert text == [text[0]] + text[1..];
      }
    }
  }

  /** Text that stands at an offset stands there part by part. */
  lemma {:induction false} Parts(input: string, offset: nat, a: string, b: string)
    requires offset <= |input| && Stands(input, offset, a + b)
    ensures Stands(input, offset, a) && offset + |a| <= |input| && Stands(input, offset + |a|, b)
    decreases |a|
  {
    if a == [] {
      assert a + b == b;
    } else {
      assert (a + b)[1..] == a[1..] + b;
      Parts(input, offset + 1, a[1..], b);
    }
  }

  /** No word of the grammar begins with a digit. */
  lemma NoWordAtDigit(input: string, offset: nat)
    requires offset < |input| && Decimal.IsDigit(input[offset])
    ensures !StartsWith(input, offset, "null") && !StartsWith(input, offset, "true") && !StartsWith(input, offset, "false")
  {
    assert input[offset..][0] == input[offset];
  }
}
