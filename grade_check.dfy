/**
 * `check_veracity_of_concise_reflection`
 * (backend/core/answer_and_reflect/respond_score.py): the model's raw reply
 * must be exactly three letters from {A, B, C}.  The checks run in order:
 * absent content, then length, then each letter.
 */
module GradeCheck {
  import opened Wrappers
  import opened ReflectionTypes

  datatype ValidationError = NoLetterGradesFound | LetterGradesNotThreeCharactersLong | InvalidLetterGrade

  /** The letters `acceptable_grades` admits. */
  predicate IsGradeLetter(c: char) {
    c == 'A' || c == 'B' || c == 'C'
  }

  function Letter(g: Grade): (c: char)
    ensures IsGradeLetter(c)
  {
    match g
    case A => 'A'
    case B => 'B'
    case C => 'C'
  }

  /** The grades written as the three-letter reply the model is asked for. */
  function Letters(grades: seq<Grade>): (s: string)
    ensures |s| == |grades|
    ensures forall i :: 0 <= i < |grades| ==> s[i] == Letter(grades[i])
  {
    if grades == [] then [] else [Letter(grades[0])] + Letters(grades[1..])
  }

  /** The grades a string of letters spells, or None at the first other character. */
  function ReadLetters(s: string): (r: Option<seq<Grade>>)
    ensures r.Some? <==> forall i :: 0 <= i < |s| ==> IsGradeLetter(s[i])
    ensures r.Some? ==> Letters(r.value) == s
  {
    if s == [] then Some([])
    else
      var g := if s[0] == 'A' then A else if s[0] == 'B' then B else C;
      if !IsGradeLetter(s[0]) then None
      else
        match ReadLetters(s[1..])
        case None => None
        case Some(gs) =>
          assert Letters([g] + gs) == [s[0]] + s[1..];
          Some([g] + gs)
  }

  /** `check_veracity_of_concise_reflection` on the reply's content (`None` when absent). */
  function CheckVeracity(content: Option<string>): (r: Result<seq<Grade>, ValidationError>)
    ensures content.None? ==> r == Failure(NoLetterGradesFound)
    ensures content.Some? && |content.value| != 3 ==> r == Failure(LetterGradesNotThreeCharactersLong)
    ensures content.Some? && |content.value| == 3 ==>
              (r.Failure? <==> exists i :: 0 <= i < 3 && !IsGradeLetter(content.value[i]))
    ensures content.Some? && |content.value| == 3 && r.Failure? ==> r.error == InvalidLetterGrade
    ensures r.Success? ==> content.Some? && |r.value| == 3 && Letters(r.value) == content.value
  {
    match content
    case None => Failure(NoLetterGradesFound)
    case Some(letterGrades) =>
      if |letterGrades| != 3 then Failure(LetterGradesNotThreeCharactersLong)
      else
        match ReadLetters(letterGrades)
        case None => Failure(InvalidLetterGrade)
        case Some(grades) => Success(grades)
  }

  /** Letters are read back as the grades they spell. */
  lemma ReadLettersOfGrades(grades: seq<Grade>)
    ensures ReadLetters(Letters(grades)) == Some(grades)
  {
    var s := Letters(grades);
    assert forall i :: 0 <= i < |s| ==> IsGradeLetter(s[i]);
    var read := ReadLetters(s).value;
    assert Letters(read) == s;
    assert |read| == |grades|;
    forall i | 0 <= i < |grades|
      ensures read[i] == grades[i]
    {
      assert Letters(read)[i] == Letter(read[i]);
      assert s[i] == Letter(grades[i]);
    }
    assert read == grades;
  }

  /** Every reply of three grade letters is accepted, with its letters in their order. */
  lemma AcceptsEveryThreeGrades(grades: seq<Grade>)
    requires |grades| == 3
    ensures CheckVeracity(Some(Letters(grades))) == Success(grades)
  {
    ReadLettersOfGrades(grades);
  }

  /** A validation error is never a letter error unless the reply has length 3. */
  lemma LengthCheckedBeforeLetters(content: Option<string>)
    ensures CheckVeracity(content) == Failure(InvalidLetterGrade) ==> content.Some? && |content.value| == 3
  {
  }

  /** The replies of the retry tests; an empty reply fails on its length, not as absent. */
  lemma ValidationExamples()
    ensures CheckVeracity(Some("ABC")) == Success([A, B, C])
    ensures CheckVeracity(None) == Failure(NoLetterGradesFound)
    ensures CheckVeracity(Some("AB")) == Failure(LetterGradesNotThreeCharactersLong)
    ensures CheckVeracity(Some("")) == Failure(LetterGradesNotThreeCharactersLong)
    ensures CheckVeracity(Some("ABD")) == Failure(InvalidLetterGrade)
    ensures CheckVeracity(Some("XYZ")) == Failure(InvalidLetterGrade)
  {
    AcceptsEveryThreeGrades([A, B, C]);
    assert !IsGradeLetter("ABD"[2]);
    assert !IsGradeLetter("XYZ"[0]);
  }
}
