/**
 * Password strength (src/utils/passwordValidator.ts): a score from 0 to 4,
 * the list of hints shown under the field, and whether the password is
 * accepted, plus the colour and label the strength bar shows for a score.
 */
module Password {
  import opened Text

  datatype PasswordStrength = PasswordStrength(score: int, feedback: seq<string>, isValid: bool)

  /** The five criteria that each add one point. */
  datatype Criterion = LongEnough | HasLowercase | HasUppercase | HasDigit | HasSpecial

  const MinLength: int := 6
  const IdealLength: int := 8

  const TooShort: string := "Senha deve ter no mínimo 6 caracteres"
  const CommonMessage: string := "Esta senha é muito comum e insegura"
  const RepeatedMessage: string := "Evite caracteres repetidos"
  const SequenceMessage: string := "Evite sequências previsíveis"

  const CommonPasswords: seq<string> := ["123456", "password", "123456789", "12345678", "12345", "1234567"]

  /** The characters of the class `[!@#$%^&*()_+\-=\[\]{};':"\\|,.<>\/?]`. */
  predicate IsSpecial(c: char) {
    c in "!@#$%^&*()_+-=[]{};':\"\\|,.<>/?"
  }

  /** The characters `.` does not match: the four line terminators. */
  predicate IsLineTerminator(c: char) {
    c == '\n' || c == '\r' || c == '\U{2028}' || c == '\U{2029}'
  }

  /** The case folding of a regular expression with the `i` flag, restricted to what the patterns use. */
  function AsciiLower(c: char): char {
    if 'A' <= c <= 'Z' then (c as int + 32) as char else c
  }

  predicate Meets(c: Criterion, pw: string) {
    match c
    case LongEnough => |pw| >= IdealLength
    case HasLowercase => exists i | 0 <= i < |pw| :: 'a' <= pw[i] <= 'z'
    case HasUppercase => exists i | 0 <= i < |pw| :: 'A' <= pw[i] <= 'Z'
    case HasDigit => exists i | 0 <= i < |pw| :: '0' <= pw[i] <= '9'
    case HasSpecial => exists i | 0 <= i < |pw| :: IsSpecial(pw[i])
  }

  function Message(c: Criterion): string {
    match c
    case LongEnough => "Use pelo menos 8 caracteres para maior segurança"
    case HasLowercase => "Adicione letras minúsculas"
    case HasUppercase => "Adicione letras maiúsculas"
    case HasDigit => "Adicione números"
    case HasSpecial => "Adicione caracteres especiais (!@#$%&*)"
  }

  /** `/(.)\1{2,}/`: three equal characters in a row, other than line terminators. */
  predicate HasRepeat(pw: string) {
    exists i | 0 <= i < |pw| - 2 :: pw[i] == pw[i + 1] == pw[i + 2] && !IsLineTerminator(pw[i])
  }

  /** Three consecutive letters (abc .. xyz) or digits (012 .. 789), letters in either case. */
  predicate IsRun(a: char, b: char, c: char) {
    var x, y, z := AsciiLower(a), AsciiLower(b), AsciiLower(c);
    (('a' <= x <= 'x') || ('0' <= x <= '7')) && y as int == x as int + 1 && z as int == x as int + 2
  }

  predicate HasSequence(pw: string) {
    exists i | 0 <= i < |pw| - 2 :: IsRun(pw[i], pw[i + 1], pw[i + 2])
  }

  predicate IsCommon(pw: string) {
    Lower(pw) in CommonPasswords
  }

  /** The hint for a criterion, when it is not met. */
  function Gap(c: Criterion, pw: string): seq<string> {
    if Meets(c, pw) then [] else [Message(c)]
  }

  function Point(c: Criterion, pw: string): nat {
    if Meets(c, pw) then 1 else 0
  }

  /** The criteria hints, in the order length, lower case, upper case, digit, special. */
  function CriteriaFeedback(pw: string): seq<string> {
    Gap(LongEnough, pw) + Gap(HasLowercase, pw) + Gap(HasUppercase, pw) + Gap(HasDigit, pw) + Gap(HasSpecial, pw)
  }

  /** How many of the five criteria the password meets. */
  function Met(pw: string): nat {
    Point(LongEnough, pw) + Point(HasLowercase, pw) + Point(HasUppercase, pw) + Point(HasDigit, pw) + Point(HasSpecial, pw)
  }

  /** How many of the two penalties (repetition, sequence) apply. */
  function Penalties(pw: string): nat {
    (if HasRepeat(pw) then 1 else 0) + (if HasSequence(pw) then 1 else 0)
  }

  /**
   * The strength as a closed form: too short gives 0 with the length hint;
   * a common password gives 0; otherwise each met criterion adds a point,
   * each penalty takes one away (never below 0), the password is accepted
   * from 2 points, and the reported score is capped at 4.
   */
  function Strength(pw: string): PasswordStrength {
    if |pw| < MinLength then PasswordStrength(0, [TooShort], false)
    else if IsCommon(pw) then PasswordStrength(0, CriteriaFeedback(pw) + [CommonMessage], false)
    else PasswordStrength(Cap(Points(pw)), CriteriaFeedback(pw) + PenaltyHints(pw), Points(pw) >= 2)
  }

  /** Met criteria less penalties, never below 0. */
  function Points(pw: string): nat {
    if Met(pw) >= Penalties(pw) then Met(pw) - Penalties(pw) else 0
  }

  function Cap(points: int): int {
    if points > 4 then 4 else points
  }

  function PenaltyHints(pw: string): seq<string> {
    (if HasRepeat(pw) then [RepeatedMessage] else []) + (if HasSequence(pw) then [SequenceMessage] else [])
  }

  /** One criterion check of `validatePasswordStrength`: a point when it is met, its hint when it is not. */
  method CheckCriterion(c: Criterion, pw: string, score: nat, feedback: seq<string>) returns (score': nat, feedback': seq<string>)
    ensures score' == score + Point(c, pw) && feedback' == feedback + Gap(c, pw)
  {
    if Meets(c, pw) {
      score', feedback' := score + 1, feedback;
    } else {
      score', feedback' := score, feedback + [Message(c)];
    }
  }

  /** The five criterion checks of `validatePasswordStrength`, in the source's order. */
  method ScoreCriteria(pw: string) returns (score: nat, feedback: seq<string>)
    ensures score == Met(pw) && feedback == CriteriaFeedback(pw)
  {
    score, feedback := CheckCriterion(LongEnough, pw, 0, []);
    assert feedback == Gap(LongEnough, pw);
    score, feedback := CheckCriterion(HasLowercase, pw, score, feedback);
    score, feedback := CheckCriterion(HasUppercase, pw, score, feedback);
    score, feedback := CheckCriterion(HasDigit, pw, score, feedback);
    score, feedback := CheckCriterion(HasSpecial, pw, score, feedback);
  }

  /** The repetition and sequence checks of `validatePasswordStrength`, each costing a point (never below 0) and adding a hint. */
  method ApplyPenalties(pw: string, points: int) returns (score: int, feedback: seq<string>)
    requires points >= 0
    ensures score == if points >= Penalties(pw) then points - Penalties(pw) else 0
    ensures feedback == PenaltyHints(pw)
  {
    score := points;
    var repeatHint: seq<string> := [];
    if HasRepeat(pw) {
      repeatHint := [RepeatedMessage];
      score := if score - 1 > 0 then score - 1 else 0;
    }
    var sequenceHint: seq<string> := [];
    if HasSequence(pw) {
      sequenceHint := [SequenceMessage];
      score := if score - 1 > 0 then score - 1 else 0;
    }
    feedback := repeatHint + sequenceHint;
  }

  /** `validatePasswordStrength`, step by step as the source accumulates score and hints. */
  method ValidatePasswordStrength(pw: string) returns (r: PasswordStrength)
    ensures r == Strength(pw)
    ensures 0 <= r.score <= 4
    ensures r.isValid <==> r.score >= 2
  {
    var feedback: seq<string> := [];
    var score: int := 0;
    if |pw| < 6 {
      feedback := feedback + [TooShort];
      return PasswordStrength(0, feedback, false);
    }
    var points, hints := ScoreCriteria(pw);
    score := score + points;
    feedback := feedback + hints;
    assert score == Met(pw) && feedback == CriteriaFeedback(pw);
    if IsCommon(pw) {
      score := 0;
      feedback := feedback + [CommonMessage];
      assert Strength(pw) == PasswordStrength(0, CriteriaFeedback(pw) + [CommonMessage], false);
      return PasswordStrength(score, feedback, false);
    }
    var penalised, penaltyHints := ApplyPenalties(pw, score);
    assert penalised == Points(pw);
    score := penalised;
    feedback := feedback + penaltyHints;
    var isValid := score >= 2;
    r := PasswordStrength(if score < 4 then score else 4, feedback, isValid);
    assert Strength(pw) == PasswordStrength(Cap(Points(pw)), CriteriaFeedback(pw) + PenaltyHints(pw), Points(pw) >= 2);
  }

  /** The score is always 0 to 4 and the password is accepted exactly from score 2. */
  lemma StrengthBounds(pw: string)
    ensures 0 <= Strength(pw).score <= 4
    ensures Strength(pw).isValid <==> Strength(pw).score >= 2
  {
  }

  /** An accepted password has at least six characters, is not a common one, and meets at least two criteria. */
  lemma ValidNeeds(pw: string)
    requires Strength(pw).isValid
    ensures |pw| >= MinLength && !IsCommon(pw) && Met(pw) >= 2 + Penalties(pw)
  {
  }

  /** A rejected password always comes with at least one hint, so the first hint can be shown as the error. */
  lemma RejectedHasFeedback(pw: string)
    requires !Strength(pw).isValid
    ensures |Strength(pw).feedback| >= 1
  {
    if |pw| >= MinLength && !IsCommon(pw) {
      assert Met(pw) < 4;
      assert Gap(LongEnough, pw) != [] || Gap(HasLowercase, pw) != [] || Gap(HasUppercase, pw) != []
          || Gap(HasDigit, pw) != [] || Gap(HasSpecial, pw) != [];
    }
  }

  /** The hint texts of different criteria differ, and differ from the other hints. */
  lemma MessagesDistinct(c: Criterion, d: Criterion)
    ensures c != d ==> Message(c) != Message(d)
    ensures Message(c) !in [CommonMessage, RepeatedMessage, SequenceMessage]
  {
    assert |CommonMessage| == 35 && |RepeatedMessage| == 26 && RepeatedMessage[0] == 'E' && |SequenceMessage| == 28;
    match c {
      case LongEnough => assert |Message(c)| == 48;
      case HasLowercase => assert Message(c)[0] == 'A' && Message(c)[17] == 'i';
      case HasUppercase => assert Message(c)[0] == 'A' && Message(c)[17] == 'a';
      case HasDigit => assert |Message(c)| == 16;
      case HasSpecial => assert |Message(c)| == 39;
    }
  }

  lemma GapHolds(pw: string, c: Criterion, d: Criterion)
    ensures Message(c) in Gap(d, pw) <==> c == d && !Meets(c, pw)
  {
    MessagesDistinct(c, d);
  }

  /** A criterion's hint is among the criteria hints exactly when the criterion is not met. */
  lemma CriteriaHint(pw: string, c: Criterion)
    ensures Message(c) in CriteriaFeedback(pw) <==> !Meets(c, pw)
  {
    GapHolds(pw, c, LongEnough);
    GapHolds(pw, c, HasLowercase);
    GapHolds(pw, c, HasUppercase);
    GapHolds(pw, c, HasDigit);
    GapHolds(pw, c, HasSpecial);
  }

  /** For a password of six or more characters, each criterion's hint is shown exactly when it is not met. */
  lemma HintIffUnmet(pw: string, c: Criterion)
    requires |pw| >= MinLength
    ensures Message(c) in Strength(pw).feedback <==> !Meets(c, pw)
  {
    var extra := if IsCommon(pw) then [CommonMessage] else PenaltyHints(pw);
    assert Strength(pw).feedback == CriteriaFeedback(pw) + extra;
    assert Message(c) !in extra by {
      MessagesDistinct(c, c);
    }
    CriteriaHint(pw, c);
  }

  /** The hint list never grows past the five criteria plus two penalties. */
  lemma FeedbackLength(pw: string)
    ensures |Strength(pw).feedback| <= 7
    ensures |pw| >= MinLength ==> |CriteriaFeedback(pw)| == 5 - Met(pw)
  {
    GapPoint(LongEnough, pw);
    GapPoint(HasLowercase, pw);
    GapPoint(HasUppercase, pw);
    GapPoint(HasDigit, pw);
    GapPoint(HasSpecial, pw);
  }

  /** Each criterion gives either its point or its one hint. */
  lemma GapPoint(c: Criterion, pw: string)
    ensures |Gap(c, pw)| + Point(c, pw) == 1
  {
  }

  /** `getPasswordStrengthColor`. */
  function StrengthColor(score: int): (color: string)
    ensures color == "#8E8E93" <==> !(0 <= score <= 4)
  {
    if score == 0 || score == 1 then "#FF3B30"
    else if score == 2 then "#FF9500"
    else if score == 3 then "#FFCC00"
    else if score == 4 then "#34C759"
    else "#8E8E93"
  }

  /** `getPasswordStrengthLabel`. */
  function StrengthLabel(score: int): (caption: string)
    ensures caption == "" <==> !(0 <= score <= 4)
  {
    if score == 0 then "Muito fraca"
    else if score == 1 then "Fraca"
    else if score == 2 then "Razoável"
    else if score == 3 then "Boa"
    else if score == 4 then "Muito forte"
    else ""
  }

  /**
   * Every computed strength has a label and a non-grey colour, the five
   * labels are distinct, and the bar is red exactly for rejected passwords.
   */
  lemma StrengthDisplay(pw: string)
    ensures StrengthLabel(Strength(pw).score) != "" && StrengthColor(Strength(pw).score) != "#8E8E93"
    ensures StrengthColor(Strength(pw).score) == "#FF3B30" <==> !Strength(pw).isValid
  {
    StrengthBounds(pw);
  }

  lemma LabelsDistinct(s: int, t: int)
    requires 0 <= s <= 4 && 0 <= t <= 4 && s != t
    ensures StrengthLabel(s) != StrengthLabel(t)
  {
  }
}
