/**
 * The older copy of the reflection types (backend/core/types.py).
 *
 * It differs from ReflectionTypes in how the grades are read: it indexes
 * positions 0, 1 and 2 instead of unpacking the list, so a list shorter than
 * three raises IndexError and a longer one is accepted with its extra grades
 * ignored by the extract (but not by the score).  Its scoring and its
 * `from_reflection_extract` compute the same values as in ReflectionTypes
 * (the older one passes the three fields by name where the current one
 * unpacks the extract's dump) and are reused from there.
 */
module LegacyTypes {
  import opened Wrappers
  import opened ReflectionTypes

  datatype LegacyError =
    | ListIndexOutOfRange(index: nat)                        // IndexError from letter_grades[i]
    | ReasonCodeMissing(dimension: Dimension, grade: Grade)   // KeyError re-raised as ValueError

  /** The nested `get_reason_code`. */
  function ReasonCode(codes: ReasonCodes, dimension: Dimension, grade: Grade): (r: Result<string, LegacyError>)
    ensures r.Success? <==> (dimension, grade) in codes
    ensures r.Success? ==> r.value == codes[(dimension, grade)]
    ensures r.Failure? ==> r.error == ReasonCodeMissing(dimension, grade)
  {
    if (dimension, grade) in codes then Success(codes[(dimension, grade)])
    else Failure(ReasonCodeMissing(dimension, grade))
  }

  /**
   * `ReflectionExtract.from_letter_grades`: reads positions 0, 1, 2 first,
   * then looks up the three reasons in dimension order.
   */
  function ExtractFromLetterGrades(grades: seq<Grade>, codes: ReasonCodes): (r: Result<ReflectionExtract, LegacyError>)
    ensures |grades| < 3 ==> r == Failure(ListIndexOutOfRange(|grades|))
    ensures r.Success? <==> 3 <= |grades| && HasReasons(codes, grades, 3)
    ensures r.Success? ==> r.value.Ratings() == grades[..3]
    ensures r.Success? ==> forall i :: 0 <= i < 3 ==> ReflectsGrade(r.value, codes, grades, i)
    ensures 3 <= |grades| && r.Failure? ==>
      exists i :: 0 <= i < 3 && HasReasons(codes, grades, i) && (DIMENSIONS[i], grades[i]) !in codes
                && r.error == ReasonCodeMissing(DIMENSIONS[i], grades[i])
  {
    if |grades| < 3 then Failure(ListIndexOutOfRange(|grades|))
    else
      var completenessRating, accuracyRating, reasoningRating := grades[0], grades[1], grades[2];
      match ReasonCode(codes, Completeness, completenessRating)
      case Failure(e) => Failure(e)
      case Success(completenessReason) =>
        match ReasonCode(codes, Accuracy, accuracyRating)
        case Failure(e) => Failure(e)
        case Success(accuracyReason) =>
          match ReasonCode(codes, Reasoning, reasoningRating)
          case Failure(e) => Failure(e)
          case Success(reasoningReason) =>
            var e := ReflectionExtract(Reflection(completenessRating, completenessReason),
                                       Reflection(accuracyRating, accuracyReason),
                                       Reflection(reasoningRating, reasoningReason));
            assert ReflectsGrade(e, codes, grades, 0) && ReflectsGrade(e, codes, grades, 1) && ReflectsGrade(e, codes, grades, 2);
            Success(e)
  }

  /**
   * `ScoredReflection.from_letter_grades`: the base extract's three
   * reflections copied unchanged, scored over the whole grade list.
   */
  function ScoredFromLetterGrades(grades: seq<Grade>, codes: ReasonCodes): (r: Result<ScoredReflection, LegacyError>)
    ensures r.Success? <==> ExtractFromLetterGrades(grades, codes).Success?
    ensures r.Success? ==> r.value.Extract() == ExtractFromLetterGrades(grades, codes).value
    ensures r.Success? ==> r.value.numericalScore == CalculateNumericalScore(grades)
    ensures r.Failure? ==> r.error == ExtractFromLetterGrades(grades, codes).error
  {
    match ExtractFromLetterGrades(grades, codes)
    case Failure(e) => Failure(e)
    case Success(base) =>
      Success(ScoredReflection(base.completeness, base.accuracy, base.reasoning, CalculateNumericalScore(grades)))
  }

  /** The error of the current copy that corresponds to a legacy error. */
  function Corresponding(e: LegacyError): AssembleError {
    match e
    case ListIndexOutOfRange(i) => GradeCountMismatch(i)
    case ReasonCodeMissing(d, g) => MissingReasonCode(d, g)
  }

  /**
   * On three grades the two copies agree: the same scored reflection, or the
   * same missing catalog entry.
   */
  lemma AgreeOnThreeGrades(grades: seq<Grade>, codes: ReasonCodes)
    requires |grades| == 3
    ensures ScoredFromLetterGrades(grades, codes).Success? <==> ReflectionTypes.ScoredFromLetterGrades(grades, codes).Success?
    ensures ScoredFromLetterGrades(grades, codes).Success? ==>
              ScoredFromLetterGrades(grades, codes).value == ReflectionTypes.ScoredFromLetterGrades(grades, codes).value
    ensures ScoredFromLetterGrades(grades, codes).Failure? ==>
              Corresponding(ScoredFromLetterGrades(grades, codes).error) == ReflectionTypes.ScoredFromLetterGrades(grades, codes).error
  {
    assert grades[..3] == grades;
    var legacy := ScoredFromLetterGrades(grades, codes);
    if legacy.Failure? {
      var e := legacy.error;
      assert e.ReasonCodeMissing?;
      // both copies look up completeness, accuracy and reasoning in that order
      if (Completeness, grades[0]) !in codes {
        assert e == ReasonCodeMissing(Completeness, grades[0]);
      } else if (Accuracy, grades[1]) !in codes {
        assert e == ReasonCodeMissing(Accuracy, grades[1]);
      } else {
        assert e == ReasonCodeMissing(Reasoning, grades[2]);
      }
    }
  }

  /** Fewer than three grades fail in both copies, with different exceptions. */
  lemma BothRejectShortLists(grades: seq<Grade>, codes: ReasonCodes)
    requires |grades| < 3
    ensures ScoredFromLetterGrades(grades, codes) == Failure(ListIndexOutOfRange(|grades|))
    ensures ReflectionTypes.ScoredFromLetterGrades(grades, codes) == Failure(GradeCountMismatch(|grades|))
  {
  }

  /**
   * Where the copies differ: four A grades are rejected by the current copy,
   * while the legacy copy builds an AAA extract scored 1.33, above the 1.0
   * that any three grades can reach.
   */
  lemma LegacyAcceptsFourGrades(codes: ReasonCodes)
    requires (Completeness, A) in codes && (Accuracy, A) in codes && (Reasoning, A) in codes
    ensures ReflectionTypes.ScoredFromLetterGrades([A, A, A, A], codes) == Failure(GradeCountMismatch(4))
    ensures ScoredFromLetterGrades([A, A, A, A], codes).Success?
    ensures ScoredFromLetterGrades([A, A, A, A], codes).value.Extract().Ratings() == [A, A, A]
    ensures ScoredFromLetterGrades([A, A, A, A], codes).value.numericalScore == 133
  {
    var grades := [A, A, A, A];
    assert HasReasons(codes, grades, 3);
    assert multiset(grades)[A] == 4;
    assert multiset(grades)[C] == 0;
  }
}
