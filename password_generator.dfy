/**
 * The password generator: three generators that draw `length` characters
 * from a fixed or a composed alphabet, and the strength evaluator, which
 * accumulates a score and a list of suggestions check by check.
 *
 * `random.choice` is modelled as an arbitrary index into the alphabet,
 * picked afresh for every character; nothing is said about its distribution.
 */
module Generator {
  import opened CharacterClasses
  import opened Strength

  /** The outcome of a generation request; the errors replace the sentinel strings. */
  datatype Generated =
    | Ok(password: string)
    | InvalidLength(minimum: nat)
    | NoCharacterClassSelected

  /** The alphabet of `generate_simple`: letters and digits. */
  const SimpleAlphabet: string := Lowercase + Uppercase + Digits

  /** The alphabet of `generate_strong`: letters, digits and punctuation. */
  const StrongAlphabet: string := Lowercase + Uppercase + Digits + Special

  /** The alphabet of `generate_custom`: the selected classes, concatenated in this order. */
  function CustomAlphabet(useLowercase: bool, useUppercase: bool, useDigits: bool, useSpecial: bool): string
  {
    (if useLowercase then Lowercase else "")
    + (if useUppercase then Uppercase else "")
    + (if useDigits then Digits else "")
    + (if useSpecial then Special else "")
  }

  /** `password` is `length` characters, each taken from `alphabet`. */
  predicate DrawnFrom(password: string, alphabet: string, length: int)
  {
    |password| == length && forall i :: 0 <= i < |password| ==> password[i] in alphabet
  }

  /** The simple alphabet has 62 characters: exactly the ASCII letters and digits. */
  lemma SimpleAlphabetMembers(c: char)
    ensures |SimpleAlphabet| == 62
    ensures c in SimpleAlphabet <==> IsLower(c) || IsUpper(c) || IsDigit(c)
  {
    LowercaseMembers(c);
    UppercaseMembers(c);
    DigitsMembers(c);
  }

  /** The strong alphabet has 94 characters: the four classes together. */
  lemma StrongAlphabetMembers(c: char)
    ensures |StrongAlphabet| == 94
    ensures c in StrongAlphabet <==> IsLower(c) || IsUpper(c) || IsDigit(c) || IsSpecial(c)
  {
    LowercaseMembers(c);
    UppercaseMembers(c);
    DigitsMembers(c);
  }

  /**
   * A character is in the custom alphabet exactly when it belongs to a
   * selected class; the alphabet's size is the sum of the selected sizes,
   * so it is empty exactly when no class is selected.
   */
  lemma CustomAlphabetMembers(useLowercase: bool, useUppercase: bool, useDigits: bool, useSpecial: bool, c: char)
    ensures c in CustomAlphabet(useLowercase, useUppercase, useDigits, useSpecial) <==>
      (useLowercase && IsLower(c)) || (useUppercase && IsUpper(c))
      || (useDigits && IsDigit(c)) || (useSpecial && IsSpecial(c))
    ensures |CustomAlphabet(useLowercase, useUppercase, useDigits, useSpecial)| ==
      (if useLowercase then 26 else 0) + (if useUppercase then 26 else 0)
      + (if useDigits then 10 else 0) + (if useSpecial then 32 else 0)
    ensures CustomAlphabet(useLowercase, useUppercase, useDigits, useSpecial) == "" <==>
      !useLowercase && !useUppercase && !useDigits && !useSpecial
  {
    LowercaseMembers(c);
    UppercaseMembers(c);
    DigitsMembers(c);
  }

  /** With the default flags, and with every flag set, custom mode uses the simple and the strong alphabet. */
  lemma CustomAlphabetDefaults()
    ensures CustomAlphabet(true, true, true, false) == SimpleAlphabet
    ensures CustomAlphabet(true, true, true, true) == StrongAlphabet
  {
  }

  /** A password drawn from the lowercase-only custom alphabet is all lowercase. */
  lemma LowercaseOnly(password: string, length: int)
    requires DrawnFrom(password, CustomAlphabet(true, false, false, false), length)
    ensures forall i :: 0 <= i < |password| ==> IsLower(password[i])
  {
  }

  /**
   * The shared drawing loop, `''.join(random.choice(characters) for _ in range(length))`:
   * each position gets the character at some index of `characters`.
   */
  method Draw(characters: string, length: nat) returns (password: string)
    requires characters != ""
    ensures DrawnFrom(password, characters, length)
  {
    password := "";
    while |password| < length
      invariant |password| <= length
      invariant DrawnFrom(password, characters, |password|)
    {
      var k :| 0 <= k < |characters|;
      password := password + [characters[k]];
    }
  }

  class PasswordGenerator {
    const lowercase: string
    const uppercase: string
    const digits: string
    const special: string

    /** The character-set fields hold the four fixed classes. */
    predicate Valid()
    {
      lowercase == Lowercase && uppercase == Uppercase && digits == Digits && special == Special
    }

    constructor ()
      ensures Valid()
    {
      lowercase := Lowercase;
      uppercase := Uppercase;
      digits := Digits;
      special := Special;
    }

    /** Letters and digits; fails for a length below 1. */
    method GenerateSimple(length: int) returns (r: Generated)
      requires Valid()
      ensures length < 1 <==> r == InvalidLength(1)
      ensures length >= 1 ==> r.Ok? && DrawnFrom(r.password, SimpleAlphabet, length)
    {
      if length < 1 {
        return InvalidLength(1);
      }
      var characters := lowercase + uppercase + digits;
      var password := Draw(characters, length);
      return Ok(password);
    }

    /** Letters, digits and punctuation; fails for a length below 4. */
    method GenerateStrong(length: int) returns (r: Generated)
      requires Valid()
      ensures length < 4 <==> r == InvalidLength(4)
      ensures length >= 4 ==> r.Ok? && DrawnFrom(r.password, StrongAlphabet, length)
    {
      if length < 4 {
        return InvalidLength(4);
      }
      var characters := lowercase + uppercase + digits + special;
      var password := Draw(characters, length);
      return Ok(password);
    }

    /**
     * The selected classes; the length is checked before the selection,
     * so a length below 1 is reported even when no class is selected.
     */
    method GenerateCustom(length: int, useLowercase: bool, useUppercase: bool, useDigits: bool, useSpecial: bool)
      returns (r: Generated)
      requires Valid()
      ensures length < 1 <==> r == InvalidLength(1)
      ensures length >= 1 && !useLowercase && !useUppercase && !useDigits && !useSpecial
        <==> r == NoCharacterClassSelected
      ensures r.Ok? <==> length >= 1 && (useLowercase || useUppercase || useDigits || useSpecial)
      ensures r.Ok? ==>
        DrawnFrom(r.password, CustomAlphabet(useLowercase, useUppercase, useDigits, useSpecial), length)
    {
      if length < 1 {
        return InvalidLength(1);
      }
      var characters := "";
      if useLowercase {
        characters := characters + lowercase;
      }
      assert characters == CustomAlphabet(useLowercase, false, false, false);
      if useUppercase {
        characters := characters + uppercase;
      }
      assert characters == CustomAlphabet(useLowercase, useUppercase, false, false);
      if useDigits {
        characters := characters + digits;
      }
      assert characters == CustomAlphabet(useLowercase, useUppercase, useDigits, false);
      if useSpecial {
        characters := characters + special;
      }
      assert characters == CustomAlphabet(useLowercase, useUppercase, useDigits, useSpecial);
      if characters == "" {
        CustomAlphabetMembers(useLowercase, useUppercase, useDigits, useSpecial, 'a');
        return NoCharacterClassSelected;
      }
      var password := Draw(characters, length);
      return Ok(password);
    }

    /**
     * Runs the five checks in order, adding a point for each that passes
     * and the check's suggestion for each that fails, then maps the score
     * to a level.
     */
    method CheckPasswordStrength(password: string) returns (level: Level, feedback: seq<Check>)
      requires Valid()
      ensures Report(level, feedback) == Evaluate(password)
    {
      var strength := 0;
      feedback := [];

      if |password| >= MinimumLength {
        strength := strength + 1;
      } else {
        feedback := feedback + [MinLength];
      }
      assert strength == Point(password, MinLength) && feedback == Miss(password, MinLength);

      if AnyLower(password) {
        strength := strength + 1;
      } else {
        feedback := feedback + [HasLowercase];
      }
      assert strength == Point(password, MinLength) + Point(password, HasLowercase);
      assert feedback == Miss(password, MinLength) + Miss(password, HasLowercase);

      if AnyUpper(password) {
        strength := strength + 1;
      } else {
        feedback := feedback + [HasUppercase];
      }
      assert strength == Point(password, MinLength) + Point(password, HasLowercase)
        + Point(password, HasUppercase);
      assert feedback == Miss(password, MinLength) + Miss(password, HasLowercase)
        + Miss(password, HasUppercase);

      if AnyDigit(password) {
        strength := strength + 1;
      } else {
        feedback := feedback + [HasDigit];
      }
      assert strength == Point(password, MinLength) + Point(password, HasLowercase)
        + Point(password, HasUppercase) + Point(password, HasDigit);
      assert feedback == Miss(password, MinLength) + Miss(password, HasLowercase)
        + Miss(password, HasUppercase) + Miss(password, HasDigit);

      if AnyIn(password, special) {
        strength := strength + 1;
      } else {
        feedback := feedback + [HasSpecial];
      }
      EvaluationUnfolded(password);

      level := LevelOf(strength);
    }

    /** Evaluation keeps no state: two calls on the same password agree. */
    method CheckPasswordStrengthTwice(password: string)
      returns (first: Report, second: Report)
      requires Valid()
      ensures first == second && first == Evaluate(password)
    {
      var level, feedback := CheckPasswordStrength(password);
      first := Report(level, feedback);
      level, feedback := CheckPasswordStrength(password);
      second := Report(level, feedback);
    }
  }
}
