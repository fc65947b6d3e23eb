/**
 * The four fixed ASCII character classes a password generator draws from:
 * lowercase letters, uppercase letters, decimal digits and punctuation.
 * The strings are the values of Python's `string.ascii_lowercase`,
 * `string.ascii_uppercase`, `string.digits` and `string.punctuation`;
 * the predicates classify one character by its ASCII range.
 */
module CharacterClasses {

  const Lowercase: string := "abcdefghijklmnopqrstuvwxyz"
  const Uppercase: string := "ABCDEFGHIJKLMNOPQRSTUVWXYZ"
  const Digits: string := "0123456789"
  /** The 32 printable ASCII characters that are neither letters, digits nor space. */
  const Special: string := "!\"#$%&'()*+,-./:;<=>?@[\\]^_`{|}~"

  /** What `c.islower()` answers for an ASCII character. */
  predicate IsLower(c: char) { 'a' <= c <= 'z' }

  /** What `c.isupper()` answers for an ASCII character. */
  predicate IsUpper(c: char) { 'A' <= c <= 'Z' }

  /** What `c.isdigit()` answers for an ASCII character. */
  predicate IsDigit(c: char) { '0' <= c <= '9' }

  /** Membership in the punctuation class, `c in string.punctuation`. */
  predicate IsSpecial(c: char) { c in Special }

  /** The class strings have the sizes Python gives them. */
  lemma ClassSizes()
    ensures |Lowercase| == 26 && |Uppercase| == 26 && |Digits| == 10 && |Special| == 32
  {
  }

  /** The lowercase string holds exactly the characters `IsLower` accepts. */
  lemma LowercaseMembers(c: char)
    ensures c in Lowercase <==> IsLower(c)
  {
  }

  /** The uppercase string holds exactly the characters `IsUpper` accepts. */
  lemma UppercaseMembers(c: char)
    ensures c in Uppercase <==> IsUpper(c)
  {
  }

  /** The digit string holds exactly the characters `IsDigit` accepts. */
  lemma DigitsMembers(c: char)
    ensures c in Digits <==> IsDigit(c)
  {
  }

  /**
   * The punctuation class is the printable ASCII range from '!' to '~'
   * with the letters and digits taken out.
   */
  lemma SpecialMembers(c: char)
    ensures IsSpecial(c) <==> '!' <= c <= '~' && !IsLower(c) && !IsUpper(c) && !IsDigit(c)
  {
  }
}
