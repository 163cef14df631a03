/**
 * Phone normalisation, written out identically in OtpService and in
 * AuthController: trim, drop regular-expression white space, then drop every
 * character that is not an ASCII digit.
 */
module Phones {

  import opened Text

  function NormalizePhone(raw: string): (phone: string)
    ensures AllDigits(phone)
  {
    KeepDigits(RemoveRegexSpaces(Trim(raw)))
  }

  /** The three passes together keep exactly the digits of the input, in order. */
  lemma NormalizeKeepsDigits(raw: string)
    ensures NormalizePhone(raw) == KeepDigits(raw)
  {
    KeepDigitsIgnoresSpaces(Trim(raw));
    KeepDigitsIgnoresTrim(raw);
  }

  /** Normalising a normalised phone changes nothing. */
  lemma NormalizeIdempotent(raw: string)
    ensures NormalizePhone(NormalizePhone(raw)) == NormalizePhone(raw)
  {
    var p := NormalizePhone(raw);
    NormalizeKeepsDigits(p);
    KeepDigitsOfDigits(p);
  }

  /** Normalisation works character by character: a digit is kept, anything else is dropped. */
  lemma NormalizeConcat(a: string, b: string)
    ensures NormalizePhone(a + b) == NormalizePhone(a) + NormalizePhone(b)
  {
    NormalizeKeepsDigits(a + b);
    NormalizeKeepsDigits(a);
    NormalizeKeepsDigits(b);
    KeepDigitsAppend(a, b);
  }

  lemma NormalizeChar(c: char)
    ensures NormalizePhone([c]) == if IsDigit(c) then [c] else []
  {
    NormalizeKeepsDigits([c]);
    assert [c][1..] == [];
  }

  /** A string of digits is already normalised. */
  lemma NormalizeDigits(s: string)
    requires AllDigits(s)
    ensures NormalizePhone(s) == s
  {
    NormalizeKeepsDigits(s);
    KeepDigitsOfDigits(s);
  }
}
