/**
 * The specification of password-strength evaluation: five independent
 * checks, each worth one point, a suggestion for every failed check in
 * check order, and a first-match cascade from the score to a level.
 */
module Strength {
  import opened CharacterClasses

  /** The five checks, in the order the evaluator runs them. */
  datatype Check = MinLength | HasLowercase | HasUppercase | HasDigit | HasSpecial

  /** The five strength levels, weakest first. */
  datatype Level = VeryWeak | Weak | Medium | Strong | VeryStrong

  /** What the evaluator reports: a level and the suggestions for the failed checks. */
  datatype Report = Report(level: Level, feedback: seq<Check>)

  /** The minimum length the first check asks for. */
  const MinimumLength: nat := 8

  /** All checks, in evaluation order. */
  const Checks: seq<Check> := [MinLength, HasLowercase, HasUppercase, HasDigit, HasSpecial]

  /** The position of a check in `Checks`. */
  function Ordinal(c: Check): (n: nat)
    ensures n < |Checks| && Checks[n] == c
  {
    match c
    case MinLength => 0
    case HasLowercase => 1
    case HasUppercase => 2
    case HasDigit => 3
    case HasSpecial => 4
  }

  /** The position of a level, weakest first. */
  function Rank(l: Level): nat
  {
    match l
    case VeryWeak => 0
    case Weak => 1
    case Medium => 2
    case Strong => 3
    case VeryStrong => 4
  }

  /** The fixed suggestion printed when a check fails. */
  function Suggestion(c: Check): string
  {
    match c
    case MinLength => "- Increase length to at least 8 characters"
    case HasLowercase => "- Add lowercase letters"
    case HasUppercase => "- Add uppercase letters"
    case HasDigit => "- Add numbers"
    case HasSpecial => "- Add special characters"
  }

  /** Different checks print different suggestions. */
  lemma SuggestionsDistinct(c: Check, d: Check)
    ensures Suggestion(c) == Suggestion(d) <==> c == d
  {
  }

  /** `any(c.islower() for c in password)` */
  predicate AnyLower(password: string) { exists ch | ch in password :: IsLower(ch) }

  /** `any(c.isupper() for c in password)` */
  predicate AnyUpper(password: string) { exists ch | ch in password :: IsUpper(ch) }

  /** `any(c.isdigit() for c in password)` */
  predicate AnyDigit(password: string) { exists ch | ch in password :: IsDigit(ch) }

  /** `any(c in chars for c in password)` */
  predicate AnyIn(password: string, chars: string) { exists ch | ch in password :: ch in chars }

  /** Whether `password` satisfies check `c`. */
  predicate Passes(password: string, c: Check)
  {
    match c
    case MinLength => |password| >= MinimumLength
    case HasLowercase => AnyLower(password)
    case HasUppercase => AnyUpper(password)
    case HasDigit => AnyDigit(password)
    case HasSpecial => AnyIn(password, Special)
  }

  /** The point check `c` contributes to the score. */
  function Point(password: string, c: Check): nat
  {
    if Passes(password, c) then 1 else 0
  }

  /** The suggestion check `c` contributes to the feedback. */
  function Miss(password: string, c: Check): seq<Check>
  {
    if Passes(password, c) then [] else [c]
  }

  /** The checks of `cs` that `password` fails, in the order of `cs`. */
  function Failed(password: string, cs: seq<Check>): seq<Check>
  {
    if cs == [] then [] else Miss(password, cs[0]) + Failed(password, cs[1..])
  }

  /** The number of checks of `cs` that `password` satisfies. */
  function Passed(password: string, cs: seq<Check>): nat
  {
    if cs == [] then 0 else Point(password, cs[0]) + Passed(password, cs[1..])
  }

  /** The strength score: one point per satisfied check. */
  function Score(password: string): nat
  {
    Passed(password, Checks)
  }

  /** The suggestions: one per failed check, in check order. */
  function Feedback(password: string): seq<Check>
  {
    Failed(password, Checks)
  }

  /** The score-to-level cascade; the first matching condition wins. */
  function LevelOf(strength: int): Level
  {
    if strength == 5 then VeryStrong
    else if strength >= 4 then Strong
    else if strength >= 3 then Medium
    else if strength >= 2 then Weak
    else VeryWeak
  }

  /** The whole evaluation of one password. */
  function Evaluate(password: string): (r: Report)
    ensures |r.feedback| == 5 - Score(password)
    ensures r.level == VeryStrong <==> r.feedback == []
  {
    ScoreBounds(password);
    Report(LevelOf(Score(password)), Feedback(password))
  }

  /** Checks listed in strictly increasing evaluation order. */
  predicate InCheckOrder(cs: seq<Check>)
  {
    forall i, j :: 0 <= i < j < |cs| ==> Ordinal(cs[i]) < Ordinal(cs[j])
  }

  /** A check is suggested exactly when it is one of `cs` and the password fails it. */
  lemma {:induction false} FailedMembers(password: string, cs: seq<Check>, c: Check)
    ensures c in Failed(password, cs) <==> c in cs && !Passes(password, c)
  {
    if cs != [] {
      FailedMembers(password, cs[1..], c);
      assert cs == [cs[0]] + cs[1..];
    }
  }

  /** Every check of `cs` either scores a point or yields a suggestion, never both. */
  lemma {:induction false} FailedPlusPassed(password: string, cs: seq<Check>)
    ensures |Failed(password, cs)| + Passed(password, cs) == |cs|
  {
    if cs != [] {
      FailedPlusPassed(password, cs[1..]);
    }
  }

  /** Filtering keeps the order of the checks. */
  lemma {:induction false} FailedInOrder(password: string, cs: seq<Check>)
    requires InCheckOrder(cs)
    ensures InCheckOrder(Failed(password, cs))
  {
    if cs != [] {
      var rest := Failed(password, cs[1..]);
      FailedInOrder(password, cs[1..]);
      forall c | c in rest
        ensures Ordinal(cs[0]) < Ordinal(c)
      {
        FailedMembers(password, cs[1..], c);
        var k :| 0 <= k < |cs[1..]| && cs[1..][k] == c;
        assert cs[k + 1] == c;
      }
      var f := Failed(password, cs);
      if !Passes(password, cs[0]) {
        assert f == [cs[0]] + rest;
        forall i, j | 0 <= i < j < |f|
          ensures Ordinal(f[i]) < Ordinal(f[j])
        {
          if i == 0 {
            assert f[j] == rest[j - 1];
            assert f[j] in rest;
          } else {
            assert f[i] == rest[i - 1] && f[j] == rest[j - 1];
          }
        }
      } else {
        assert f == rest;
      }
    }
  }

  /** The score is between 0 and 5 and one suggestion is made per missing point. */
  lemma ScoreBounds(password: string)
    ensures Score(password) <= 5
    ensures |Feedback(password)| == 5 - Score(password)
  {
    FailedPlusPassed(password, Checks);
  }

  /** A suggestion appears exactly for each failed check, and in check order. */
  lemma FeedbackIsFailedChecks(password: string)
    ensures forall c :: c in Feedback(password) <==> !Passes(password, c)
    ensures InCheckOrder(Feedback(password))
  {
    forall c ensures c in Feedback(password) <==> !Passes(password, c) {
      FailedMembers(password, Checks, c);
      assert Checks[Ordinal(c)] == c;
    }
    FailedInOrder(password, Checks);
  }

  /** Every check of `cs` passes exactly when all of them score. */
  lemma {:induction false} PassedAll(password: string, cs: seq<Check>)
    ensures Passed(password, cs) == |cs| <==> forall c | c in cs :: Passes(password, c)
  {
    if cs != [] {
      PassedAll(password, cs[1..]);
      PassedAtMost(password, cs[1..]);
      assert cs == [cs[0]] + cs[1..];
    }
  }

  /** No check of `cs` scores exactly when all of them fail, and then every one is suggested. */
  lemma {:induction false} PassedNone(password: string, cs: seq<Check>)
    ensures Passed(password, cs) == 0 <==> forall c | c in cs :: !Passes(password, c)
    ensures Passed(password, cs) == 0 ==> Failed(password, cs) == cs
  {
    if cs != [] {
      PassedNone(password, cs[1..]);
      assert cs == [cs[0]] + cs[1..];
    }
  }

  /** A list of checks scores at most one point per check. */
  lemma {:induction false} PassedAtMost(password: string, cs: seq<Check>)
    ensures Passed(password, cs) <= |cs|
  {
    if cs != [] {
      PassedAtMost(password, cs[1..]);
    }
  }

  /** The score is 5 exactly when every check passes, and 0 exactly when every check fails. */
  lemma ScoreExtremes(password: string)
    ensures Score(password) == 5 <==> forall c :: Passes(password, c)
    ensures Score(password) == 0 <==> forall c :: !Passes(password, c)
  {
    PassedAll(password, Checks);
    PassedNone(password, Checks);
    assert forall c :: c in Checks by {
      forall c ensures c in Checks { assert Checks[Ordinal(c)] == c; }
    }
  }

  /** Scoring and filtering a concatenation of checks is doing each part in turn. */
  lemma {:induction false} EvaluationSplits(password: string, a: seq<Check>, b: seq<Check>)
    ensures Passed(password, a + b) == Passed(password, a) + Passed(password, b)
    ensures Failed(password, a + b) == Failed(password, a) + Failed(password, b)
  {
    if a != [] {
      EvaluationSplits(password, a[1..], b);
      assert (a + b)[0] == a[0] && (a + b)[1..] == a[1..] + b;
    } else {
      assert a + b == b;
    }
  }

  /** A single check scores its point or yields its suggestion. */
  lemma EvaluationSingle(password: string, c: Check)
    ensures Passed(password, [c]) == Point(password, c)
    ensures Failed(password, [c]) == Miss(password, c)
  {
  }

  /** The score and the suggestions, check by check in evaluation order. */
  lemma EvaluationUnfolded(password: string)
    ensures Score(password) == Point(password, MinLength) + Point(password, HasLowercase)
      + Point(password, HasUppercase) + Point(password, HasDigit) + Point(password, HasSpecial)
    ensures Feedback(password) == Miss(password, MinLength) + Miss(password, HasLowercase)
      + Miss(password, HasUppercase) + Miss(password, HasDigit) + Miss(password, HasSpecial)
  {
    var c0, c1, c2, c3, c4 := [MinLength], [HasLowercase], [HasUppercase], [HasDigit], [HasSpecial];
    assert Checks == c0 + c1 + c2 + c3 + c4;
    EvaluationSplits(password, c0 + c1 + c2 + c3, c4);
    EvaluationSplits(password, c0 + c1 + c2, c3);
    EvaluationSplits(password, c0 + c1, c2);
    EvaluationSplits(password, c0, c1);
    EvaluationSingle(password, MinLength);
    EvaluationSingle(password, HasLowercase);
    EvaluationSingle(password, HasUppercase);
    EvaluationSingle(password, HasDigit);
    EvaluationSingle(password, HasSpecial);
  }

  /** The cascade gives the level the score table promises, for every reachable score. */
  lemma LevelTable(strength: int)
    requires 0 <= strength <= 5
    ensures strength == 5 ==> LevelOf(strength) == VeryStrong
    ensures strength == 4 ==> LevelOf(strength) == Strong
    ensures strength == 3 ==> LevelOf(strength) == Medium
    ensures strength == 2 ==> LevelOf(strength) == Weak
    ensures strength <= 1 ==> LevelOf(strength) == VeryWeak
  {
  }

  /** A higher reachable score never gives a weaker level. */
  lemma LevelMonotonic(a: int, b: int)
    requires a <= b <= 5
    ensures Rank(LevelOf(a)) <= Rank(LevelOf(b))
  {
  }

  /** The empty password fails every check: Very Weak with all five suggestions, in order. */
  lemma EmptyPassword()
    ensures Evaluate("") == Report(VeryWeak, Checks)
  {
  }

  /** Eight lowercase letters score 2 (length and lowercase) and give Weak. */
  lemma EightLowercaseLetters()
    ensures Evaluate("abcdefgh") == Report(Weak, [HasUppercase, HasDigit, HasSpecial])
  {
    var p := "abcdefgh";
    assert Passes(p, MinLength);
    assert Passes(p, HasLowercase) by { assert p[0] in p && IsLower(p[0]); }
    assert !Passes(p, HasUppercase);
    assert !Passes(p, HasDigit);
    assert !Passes(p, HasSpecial) by {
      forall ch | ch in p ensures !IsSpecial(ch) { SpecialMembers(ch); }
    }
    EvaluationUnfolded(p);
  }

  /** A nine-character password with all four classes passes every check. */
  lemma AllChecksPassed()
    ensures Evaluate("Abcdefg1!") == Report(VeryStrong, [])
  {
    var p := "Abcdefg1!";
    assert Passes(p, HasLowercase) by { assert p[1] in p && IsLower(p[1]); }
    assert Passes(p, HasUppercase) by { assert p[0] in p && IsUpper(p[0]); }
    assert Passes(p, HasDigit) by { assert p[7] in p && IsDigit(p[7]); }
    assert Passes(p, HasSpecial) by { assert p[8] in p && IsSpecial(p[8]); }
    EvaluationUnfolded(p);
  }
}
