/**
 * The reflection value types and their two construction paths
 * (backend/core/answer_and_reflect/types.py).
 *
 * Scores are kept as integer hundredths: Python's `round(x, 2)` of the float
 * mean becomes the nearest integer to 100 * mean.  Grades are counted in
 * half-points (A = 2, C = 1, B = 0), so the mean of three grades is S / 6
 * for a half-point sum S.
 */
module ReflectionTypes {
  import opened Wrappers

  /** The user's question. */
  datatype Query = Query(query: string)

  /** A letter grade: A most confident, C middle, B least confident. */
  datatype Grade = A | B | C

  /** The three reflection dimensions, in the order the grades list them. */
  datatype Dimension = Completeness | Accuracy | Reasoning

  /** The dimension graded at each position of a three-letter grade list. */
  const DIMENSIONS: seq<Dimension> := [Completeness, Accuracy, Reasoning]

  datatype Reflection = Reflection(rating: Grade, reason: string)

  datatype ReflectionExtract = ReflectionExtract(completeness: Reflection, accuracy: Reflection, reasoning: Reflection)
  {
    /** The reflection for DIMENSIONS[i]. */
    function At(i: nat): Reflection
      requires i < 3
    {
      if i == 0 then completeness else if i == 1 then accuracy else reasoning
    }

    /** The ratings in dimension order. */
    function Ratings(): seq<Grade> {
      [completeness.rating, accuracy.rating, reasoning.rating]
    }
  }

  /** A reflection extract together with its numerical score in hundredths. */
  datatype ScoredReflection = ScoredReflection(
    completeness: Reflection, accuracy: Reflection, reasoning: Reflection, numericalScore: nat)
  {
    /** The three reflections without the score. */
    function Extract(): ReflectionExtract {
      ReflectionExtract(completeness, accuracy, reasoning)
    }
  }

  /** The catalog's reason codes: `reason_codes[dimension][grade]`. */
  type ReasonCodes = map<(Dimension, Grade), string>

  /** The ValueErrors of the assembly path. */
  datatype AssembleError =
    | GradeCountMismatch(count: nat)                        // tuple unpacking of a list that is not three long
    | MissingReasonCode(dimension: Dimension, grade: Grade)  // KeyError in the catalog, re-raised as ValueError

  /** Every score a list of three grades can have. */
  const SCORE_VALUES: set<nat> := {0, 17, 33, 50, 67, 83, 100}

  // ---------------------------------------------------------------------------
  // Scoring

  /** A grade's value in half-points: A = 1.0, B = 0.0, C = 0.5. */
  function HalfPoints(g: Grade): nat {
    match g
    case A => 2
    case B => 0
    case C => 1
  }

  /** The sum of the grade values, in half-points. */
  function SumHalfPoints(grades: seq<Grade>): (s: nat)
    ensures s <= 2 * |grades|
  {
    if grades == [] then 0 else HalfPoints(grades[0]) + SumHalfPoints(grades[1..])
  }

  /** The sum counts two half-points per A and one per C. */
  lemma {:induction false} SumCountsGrades(grades: seq<Grade>)
    ensures SumHalfPoints(grades) == 2 * multiset(grades)[A] + multiset(grades)[C]
  {
    if grades != [] {
      assert grades == [grades[0]] + grades[1..];
      assert multiset(grades) == multiset([grades[0]]) + multiset(grades[1..]);
      SumCountsGrades(grades[1..]);
    }
  }

  /**
   * `calculate_numerical_score`: the grade sum divided by three, rounded to
   * two places, in hundredths.  The sum counts half-points, so the exact value
   * is 100 * S / 6; `6 * score` is within 3 of `100 * S`, that is, the score
   * is strictly the nearest hundredth (100 * S is even, so there is no tie
   * for the rounding mode to settle).
   */
  function CalculateNumericalScore(grades: seq<Grade>): (score: nat)
    ensures 100 * SumHalfPoints(grades) - 3 < 6 * score < 100 * SumHalfPoints(grades) + 3
    ensures |grades| == 3 ==> score <= 100
  {
    (100 * SumHalfPoints(grades) + 3) / 6
  }

  /** The score is determined by how many of each grade there are, not by their order. */
  lemma ScoreIgnoresOrder(g1: seq<Grade>, g2: seq<Grade>)
    requires multiset(g1) == multiset(g2)
    ensures CalculateNumericalScore(g1) == CalculateNumericalScore(g2)
  {
    SumCountsGrades(g1);
    SumCountsGrades(g2);
  }

  /** Three grades always score one of the seven values of SCORE_VALUES. */
  lemma ScoreOfThreeGrades(grades: seq<Grade>)
    requires |grades| == 3
    ensures CalculateNumericalScore(grades) in SCORE_VALUES
  {
    var s := SumHalfPoints(grades);
    assert s <= 6;
    assert s == 0 || s == 1 || s == 2 || s == 3 || s == 4 || s == 5 || s == 6;
  }

  /** The extremes: 100 exactly for AAA, 0 exactly for BBB. */
  lemma ScoreExtremes(grades: seq<Grade>)
    requires |grades| == 3
    ensures CalculateNumericalScore(grades) == 100 <==> grades == [A, A, A]
    ensures CalculateNumericalScore(grades) == 0 <==> grades == [B, B, B]
  {
    var s := SumHalfPoints(grades);
    assert s == HalfPoints(grades[0]) + HalfPoints(grades[1]) + HalfPoints(grades[2]) by {
      assert SumHalfPoints(grades) == HalfPoints(grades[0]) + SumHalfPoints(grades[1..]);
      assert SumHalfPoints(grades[1..]) == HalfPoints(grades[1]) + SumHalfPoints(grades[2..]);
      assert SumHalfPoints(grades[2..]) == HalfPoints(grades[2]) + SumHalfPoints(grades[3..]);
      assert grades[3..] == [];
    }
    if grades == [A, A, A] {
    } else if grades == [B, B, B] {
    }
  }

  /** The worked examples: AAA, BBB and ABC (in either order of B and C). */
  lemma ScoreExamples()
    ensures CalculateNumericalScore([A, A, A]) == 100
    ensures CalculateNumericalScore([B, B, B]) == 0
    ensures CalculateNumericalScore([A, B, C]) == 50
    ensures CalculateNumericalScore([A, C, B]) == 50
  {
  }

  // ---------------------------------------------------------------------------
  // Assembly from letter grades

  /** `_get_reason_code`: the catalog's reason for a (dimension, grade) pair. */
  function GetReasonCode(codes: ReasonCodes, dimension: Dimension, grade: Grade): (r: Result<string, AssembleError>)
    ensures r.Success? <==> (dimension, grade) in codes
    ensures r.Success? ==> r.value == codes[(dimension, grade)]
    ensures r.Failure? ==> r.error == MissingReasonCode(dimension, grade)
  {
    if (dimension, grade) in codes then Success(codes[(dimension, grade)])
    else Failure(MissingReasonCode(dimension, grade))
  }

  /** The catalog has a reason for every grade at position i of `grades`. */
  predicate HasReasons(codes: ReasonCodes, grades: seq<Grade>, i: nat)
    requires i <= 3 <= |grades|
  {
    forall k :: 0 <= k < i ==> (DIMENSIONS[k], grades[k]) in codes
  }

  /** The reflection at position i rates `grades[i]` with the catalog's reason for it. */
  predicate ReflectsGrade(e: ReflectionExtract, codes: ReasonCodes, grades: seq<Grade>, i: nat)
    requires i < 3 <= |grades|
  {
    && (DIMENSIONS[i], grades[i]) in codes
    && e.At(i) == Reflection(grades[i], codes[(DIMENSIONS[i], grades[i])])
  }

  /**
   * `_create_reflections_from_grades`: unpacks exactly three grades and looks
   * up the reason of each, completeness first; the first missing entry fails.
   */
  function CreateReflectionsFromGrades(grades: seq<Grade>, codes: ReasonCodes)
    : (r: Result<(Reflection, Reflection, Reflection), AssembleError>)
    ensures |grades| != 3 ==> r == Failure(GradeCountMismatch(|grades|))
    ensures r.Success? <==> |grades| == 3 && HasReasons(codes, grades, 3)
    ensures r.Success? ==>
      forall i :: 0 <= i < 3 ==> ReflectsGrade(ReflectionExtract(r.value.0, r.value.1, r.value.2), codes, grades, i)
    ensures |grades| == 3 && r.Failure? ==>
      exists i :: 0 <= i < 3 && HasReasons(codes, grades, i) && (DIMENSIONS[i], grades[i]) !in codes
                && r.error == MissingReasonCode(DIMENSIONS[i], grades[i])
  {
    if |grades| != 3 then Failure(GradeCountMismatch(|grades|))
    else
      match GetReasonCode(codes, Completeness, grades[0])
      case Failure(e) => Failure(e)
      case Success(completenessReason) =>
        match GetReasonCode(codes, Accuracy, grades[1])
        case Failure(e) => Failure(e)
        case Success(accuracyReason) =>
          match GetReasonCode(codes, Reasoning, grades[2])
          case Failure(e) => Failure(e)
          case Success(reasoningReason) =>
            Success((Reflection(grades[0], completenessReason),
                     Reflection(grades[1], accuracyReason),
                     Reflection(grades[2], reasoningReason)))
  }

  /** `ReflectionExtract.from_letter_grades`: the three reflections as an extract. */
  function ExtractFromLetterGrades(grades: seq<Grade>, codes: ReasonCodes): (r: Result<ReflectionExtract, AssembleError>)
    ensures r.Success? <==> |grades| == 3 && HasReasons(codes, grades, 3)
    ensures r.Success? ==> r.value.Ratings() == grades
    ensures r.Success? ==> forall i :: 0 <= i < 3 ==> ReflectsGrade(r.value, codes, grades, i)
    ensures r.Failure? ==> r.error == CreateReflectionsFromGrades(grades, codes).error
  {
    match CreateReflectionsFromGrades(grades, codes)
    case Failure(e) => Failure(e)
    case Success((completeness, accuracy, reasoning)) =>
      var e := ReflectionExtract(completeness, accuracy, reasoning);
      assert forall i :: 0 <= i < 3 ==> ReflectsGrade(e, codes, grades, i);
      assert ReflectsGrade(e, codes, grades, 0) && ReflectsGrade(e, codes, grades, 1) && ReflectsGrade(e, codes, grades, 2);
      Success(e)
  }

  // ---------------------------------------------------------------------------
  // Scored reflections

  /** The score of a scored reflection is the one its three ratings give. */
  predicate WellScored(s: ScoredReflection) {
    s.numericalScore == CalculateNumericalScore(s.Extract().Ratings())
  }

  /** `ScoredReflection.from_reflection_extract`: the extract unchanged, plus the score of its ratings. */
  function ScoredFromReflectionExtract(e: ReflectionExtract): (s: ScoredReflection)
    ensures s.Extract() == e
    ensures WellScored(s)
    ensures s.numericalScore in SCORE_VALUES
  {
    ScoreOfThreeGrades(e.Ratings());
    ScoredReflection(e.completeness, e.accuracy, e.reasoning, CalculateNumericalScore(e.Ratings()))
  }

  /**
   * `ScoredReflection.from_letter_grades`: the extract built from the grades
   * (failing as it does), plus the score of the grades.
   */
  function ScoredFromLetterGrades(grades: seq<Grade>, codes: ReasonCodes): (r: Result<ScoredReflection, AssembleError>)
    ensures r.Success? <==> |grades| == 3 && HasReasons(codes, grades, 3)
    ensures r.Success? ==> r.value.Extract() == ExtractFromLetterGrades(grades, codes).value
    ensures r.Success? ==> r.value.Extract().Ratings() == grades && WellScored(r.value)
    ensures r.Failure? ==> r.error == CreateReflectionsFromGrades(grades, codes).error
  {
    match ExtractFromLetterGrades(grades, codes)
    case Failure(e) => Failure(e)
    case Success(extract) =>
      var reflection := ScoredReflection(extract.completeness, extract.accuracy, extract.reasoning,
                                         CalculateNumericalScore(grades));
      assert reflection.Extract() == extract;
      Success(reflection)
  }

  /**
   * Both construction paths agree: scoring the extract built from letter grades
   * gives exactly the letter-grade result, so an extract carrying the same
   * ratings scores the same whatever its reasons.
   */
  lemma BothPathsAgree(grades: seq<Grade>, codes: ReasonCodes, e: ReflectionExtract)
    requires e.Ratings() == grades
    requires ScoredFromLetterGrades(grades, codes).Success?
    ensures ScoredFromLetterGrades(grades, codes).value
            == ScoredFromReflectionExtract(ExtractFromLetterGrades(grades, codes).value)
    ensures ScoredFromLetterGrades(grades, codes).value.numericalScore == ScoredFromReflectionExtract(e).numericalScore
  {
  }
}
