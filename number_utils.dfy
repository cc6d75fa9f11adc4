/**
 * The numeric test the aggregator borrows from Apache Commons Lang
 * (`NumberUtils.isNumber`). Only the part of its language the
 * classifier's labels can reach is modelled: an optional '-' followed by
 * one or more decimal digits.
 */
module NumberUtils {
  import Decimal

  predicate IsNumber(s: string) {
    Decimal.IsSignedDigits(s)
  }

  /** Every decimal rendering of an integer is numeric. */
  lemma DecimalTextIsNumber(i: int)
    ensures IsNumber(Decimal.IntToString(i))
  {
    Decimal.IntToStringShape(i);
  }

  /** The classifier's four words and the aggregator's own bucket name are not numeric. */
  lemma WordsAreNotNumbers()
    ensures !IsNumber("fizz") && !IsNumber("buzz") && !IsNumber("fizzbuzz") && !IsNumber("lucky")
    ensures !IsNumber("integer")
  {
    assert !Decimal.IsDigit('f') && !Decimal.IsDigit('b') && !Decimal.IsDigit('l') && !Decimal.IsDigit('i');
    assert "fizz"[0] == 'f' && "fizzbuzz"[0] == 'f' && "buzz"[0] == 'b';
    assert "lucky"[0] == 'l' && "integer"[0] == 'i';
  }

}
