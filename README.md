# Password generator — a verified model

This project models the `PasswordGenerator` class of a small command-line
password tool. The class has two parts:

- **Generators.** `generate_simple`, `generate_strong` and `generate_custom`
  check a minimum length and build an alphabet from four fixed ASCII classes:
  lowercase a–z, uppercase A–Z, digits 0–9 and the 32 ASCII punctuation
  characters. They then draw exactly `length` characters from that alphabet.
- **Strength evaluator.** `check_password_strength` runs five checks in a
  fixed order: length at least 8, a lowercase letter, an uppercase letter,
  a digit, a punctuation character. Each passed check adds one point. Each
  failed check appends its suggestion. The score then picks one of five
  levels through a first-match cascade.

Files:

- `character_classes.dfy` (module `CharacterClasses`) holds the four class
  strings, with the values Python's `string` constants have, and the ASCII
  classification predicates.
- `strength.dfy` (module `Strength`) specifies evaluation. A password's
  suggestions are the list of checks filtered down to the failed ones
  (`Failed`). Its score is the number of passed checks (`Passed`). Its level
  is `LevelOf(score)`.
- `password_generator.dfy` (module `Generator`) holds the class
  `PasswordGenerator`. Its character-set fields are immutable `const`
  fields, set by the constructor. The file also holds the result type and
  the alphabets. The generators are methods with a drawing loop. The
  evaluator is a method that accumulates `strength` and `feedback` step by
  step and is proved equal to `Strength.Evaluate`.

Modelling choices:

- The source signals errors with sentinel strings. Here they are the
  constructors of `Generated`: `InvalidLength(minimum)` and
  `NoCharacterClassSelected`, next to `Ok(password)`. The `minimum` field
  keeps the two different length messages apart: 1 for simple and custom
  mode, 4 for strong mode.
- `random.choice(characters)` is an arbitrary index `k < |characters|`,
  picked nondeterministically for every output character (`Draw`). Every
  statement about generated passwords therefore holds for every outcome of
  the random source.
- Suggestions are the `Check` values themselves. `Suggestion` gives each
  one's fixed text. Levels are the enumeration `Level`.
- The simple alphabet is lowercase + uppercase + digits, 62 symbols
  (`SimpleAlphabetMembers`).
- `generate_custom` has the default flags `True, True, True, False`. The
  model takes all four flags explicitly. `CustomAlphabetDefaults` shows that
  the default selection gives the simple alphabet.

## Model

| member | source | states |
|---|---|---|
| `CharacterClasses.ClassSizes` | password_generator.py:15-18 | the lowercase, uppercase, digit and punctuation classes have 26, 26, 10 and 32 characters |
| `CharacterClasses.LowercaseMembers` | password_generator.py:15 | the lowercase class is exactly the characters 'a'..'z', which the ASCII `islower` accepts |
| `CharacterClasses.UppercaseMembers` | password_generator.py:16 | the uppercase class is exactly the characters 'A'..'Z', which the ASCII `isupper` accepts |
| `CharacterClasses.DigitsMembers` | password_generator.py:17 | the digit class is exactly the characters '0'..'9', which the ASCII `isdigit` accepts |
| `CharacterClasses.SpecialMembers` | password_generator.py:18 | a character is punctuation iff it is printable ASCII ('!'..'~') and neither a letter nor a digit, so the punctuation check and the letter and digit checks never test the same character |
| `Strength.FailedMembers` | password_generator.py:66-89 | a check is in the feedback iff it is one of the checks run and the password fails it |
| `Strength.FailedPlusPassed` | password_generator.py:63-89 | every check either adds a point or adds a suggestion, never both: suggestions plus points equals the number of checks |
| `Strength.FailedInOrder` | password_generator.py:64-89 | the feedback lists failed checks in the order the checks run |
| `Strength.PassedAll` | password_generator.py:63-89 | a list of checks scores full marks iff the password passes each of them |
| `Strength.PassedNone` | password_generator.py:63-89 | a list of checks scores zero iff the password fails each of them, and then every one is suggested |
| `Strength.PassedAtMost` | password_generator.py:63-89 | a list of checks scores at most one point per check |
| `Strength.ScoreBounds` | password_generator.py:63-89 | the final strength lies in 0..5 and the feedback has exactly 5 − strength entries |
| `Strength.FeedbackIsFailedChecks` | password_generator.py:66-89 | a suggestion appears iff its check failed, and suggestions follow the order length, lowercase, uppercase, digit, special |
| `Strength.ScoreExtremes` | password_generator.py:63-89 | the strength is 5 iff all five checks pass, and 0 iff all five fail |
| `Strength.EvaluationSplits` | password_generator.py:63-89 | running two groups of checks in turn adds their points and concatenates their suggestions |
| `Strength.EvaluationSingle` | password_generator.py:66-69 | one check contributes one point if it passes and its own suggestion if it fails |
| `Strength.EvaluationUnfolded` | password_generator.py:63-89 | the score and the feedback are the five checks' contributions, taken in source order |
| `Strength.SuggestionsDistinct` | password_generator.py:69-89 | the five suggestion texts are pairwise different, so each suggestion names exactly one failed check |
| `Strength.Evaluate` | password_generator.py:61-100 | the report has exactly 5 − score suggestions, and its level is Very Strong iff it has no suggestions |
| `Strength.LevelTable` | password_generator.py:91-100 | for every reachable score, 5 gives Very Strong, 4 Strong, 3 Medium, 2 Weak, and 0 or 1 Very Weak |
| `Strength.LevelMonotonic` | password_generator.py:91-100 | a higher reachable score never gives a weaker level |
| `Strength.EmptyPassword` | password_generator.py:61-100 | the empty password is Very Weak with all five suggestions, in check order |
| `Strength.EightLowercaseLetters` | password_generator.py:61-100 | "abcdefgh" is Weak, with the uppercase, digit and special suggestions |
| `Strength.AllChecksPassed` | password_generator.py:61-100 | "Abcdefg1!" is Very Strong with no suggestions |
| `Generator.SimpleAlphabetMembers` | password_generator.py:25 | the simple alphabet has 62 characters: exactly the ASCII letters and digits |
| `Generator.StrongAlphabetMembers` | password_generator.py:34 | the strong alphabet has 94 characters: exactly the letters, digits and punctuation |
| `Generator.CustomAlphabetMembers` | password_generator.py:44-56 | a character is in the custom alphabet iff it is in a selected class; the alphabet's size is the sum of the selected classes' sizes; it is empty iff no flag is set |
| `Generator.CustomAlphabetDefaults` | password_generator.py:38-53 | the default flags give the simple alphabet, and all flags give the strong alphabet |
| `Generator.LowercaseOnly` | password_generator.py:46-58 | a password drawn with only the lowercase flag set is all lowercase |
| `Generator.Draw` | password_generator.py:26 | the drawing loop yields exactly `length` characters, each from the alphabet |
| `Generator.PasswordGenerator.constructor` | password_generator.py:13-18 | the four character-set fields hold the fixed ASCII classes |
| `Generator.PasswordGenerator.GenerateSimple` | password_generator.py:20-27 | returns the length error iff length < 1; otherwise `length` characters from the 62-character simple alphabet |
| `Generator.PasswordGenerator.GenerateStrong` | password_generator.py:29-36 | returns the length error iff length < 4, so 1, 2 and 3 are rejected; otherwise `length` characters from the 94-character strong alphabet |
| `Generator.PasswordGenerator.GenerateCustom` | password_generator.py:38-59 | the length check comes first; with length ≥ 1 and no flag set it returns the no-class error; otherwise `length` characters from the concatenation of the selected classes |
| `Generator.PasswordGenerator.CheckPasswordStrength` | password_generator.py:61-100 | the accumulated level and feedback are exactly the evaluation specification: the level of the number of passed checks, and the failed checks in order |
| `Generator.PasswordGenerator.CheckPasswordStrengthTwice` | password_generator.py:61-100 | evaluation keeps no state: two calls on the same password give identical results |

## Left out

- The menu and I/O functions (`display_menu`, `get_password_length`, the
  `generate_*_password` wrappers, the module-level `check_password_strength`,
  `main`; password_generator.py:103-264). They only read input and print,
  and that includes detecting the error prefix with `startswith`.
- The distribution of `random.choice`. Uniformity and independence are
  statistical claims. A choice is modelled only as some index into the
  alphabet, so the model does not show that every character is reachable
  with positive probability.
- Unicode behaviour of `str.islower`, `str.isupper` and `str.isdigit`.
  Python accepts non-ASCII letters and digits. The model classifies by
  ASCII range, so a password such as "é" fails the lowercase check here
  but passes it in Python.
- The exact emoji-decorated texts of the level labels and error messages.
  Levels and errors are enumerations. The suggestion texts are kept in
  `Strength.Suggestion`; the only property stated about them is that they
  are pairwise different (`SuggestionsDistinct`).
- Integer width: Python integers are unbounded, and so are the model's.
- Default parameter values of `generate_custom`. The flags are explicit
  parameters, and `CustomAlphabetDefaults` covers the default selection.
