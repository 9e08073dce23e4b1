/**
 * The tenacity retry policy of `RespondAndScore`
 * (backend/core/answer_and_reflect/respond_score.py): retry only on
 * RetryException, stop after a fixed number of attempts, re-raise the last
 * exception.  An exception that is not retried propagates from the attempt
 * that raised it.
 */
module Retrying {
  import opened Wrappers
  import opened ReflectionTypes
  import opened GradeCheck
  import opened PromptTemplate

  /** The attempt budget both decorators write out, `stop_after_attempt(3)`. */
  const DECORATOR_ATTEMPTS: nat := 3

  /** A broken prompt catalog: a missing reason code or a template that does not format. */
  datatype ConfigCause = Assembly(assembleError: AssembleError) | Template(formatError: FormatError)

  /** What an attempt, and so an operation, can raise. */
  datatype Failure =
    | HttpException(statusCode: nat)            // fatal transport error, with its HTTP status
    | RetryException                            // transient failure
    | ValidationException(kind: ValidationError)
    | ConfigurationError(cause: ConfigCause)    // ValueError or KeyError from the catalog

  /**
   * `maxAttempts` is the decorators' `stop_after_attempt` bound;
   * `validationIsRetryException` says whether the three validation
   * exceptions are RetryException subclasses (they are declared in a module
   * that is not part of this model).
   */
  datatype Policy = Policy(maxAttempts: nat, validationIsRetryException: bool)

  /** `retry_if_exception_type(RetryException)`. */
  predicate IsRetried(f: Failure, policy: Policy) {
    f.RetryException? || (f.ValidationException? && policy.validationIsRetryException)
  }

  predicate IsRetriedResult<T>(r: Result<T, Failure>, policy: Policy) {
    r.Failure? && IsRetried(r.error, policy)
  }

  function Max(a: nat, b: nat): nat {
    if a < b then b else a
  }

  /** The result of the last attempt and how many attempts were made. */
  datatype RetryRun<T> = RetryRun(result: Result<T, Failure>, attempts: nat)

  /**
   * The retry loop after `done` attempts: `attempt(k)` is what attempt k + 1
   * gives.  It stops at a success, at an exception that is not retried, or
   * when the budget is spent; the first attempt always runs.
   */
  function RetryFrom<T>(attempt: nat -> Result<T, Failure>, done: nat, policy: Policy): (run: RetryRun<T>)
    ensures done < run.attempts <= Max(done + 1, policy.maxAttempts)
    ensures run.result == attempt(run.attempts - 1)
    ensures forall k :: done <= k < run.attempts - 1 ==> IsRetriedResult(attempt(k), policy)
    ensures !IsRetriedResult(run.result, policy) || run.attempts >= policy.maxAttempts
    decreases policy.maxAttempts - done
  {
    var r := attempt(done);
    if !IsRetriedResult(r, policy) || done + 1 >= policy.maxAttempts then RetryRun(r, done + 1)
    else RetryFrom(attempt, done + 1, policy)
  }

  /** A decorated call: the retry loop from its first attempt. */
  function Retry<T>(attempt: nat -> Result<T, Failure>, policy: Policy): (run: RetryRun<T>)
    ensures 1 <= run.attempts <= Max(1, policy.maxAttempts)
  {
    RetryFrom(attempt, 0, policy)
  }

  /**
   * The run is determined by where it stops: after n attempts, when the first
   * n - 1 were retried and the n-th was not, or the budget was reached.
   */
  lemma RetryStopsAt<T>(attempt: nat -> Result<T, Failure>, policy: Policy, n: nat)
    requires 1 <= n <= Max(1, policy.maxAttempts)
    requires forall k :: 0 <= k < n - 1 ==> IsRetriedResult(attempt(k), policy)
    requires !IsRetriedResult(attempt(n - 1), policy) || n >= policy.maxAttempts
    ensures Retry(attempt, policy) == RetryRun(attempt(n - 1), n)
  {
  }

  /** One retried failure and then an attempt that is not retried: two attempts. */
  lemma RetriesOnceThenStops<T>(attempt: nat -> Result<T, Failure>, policy: Policy)
    requires policy.maxAttempts >= 2
    requires IsRetriedResult(attempt(0), policy) && !IsRetriedResult(attempt(1), policy)
    ensures Retry(attempt, policy) == RetryRun(attempt(1), 2)
  {
    RetryStopsAt(attempt, policy, 2);
  }

  /** When every attempt fails retryably, exactly the budget is spent and the last exception re-raised. */
  lemma ExhaustsBudget<T>(attempt: nat -> Result<T, Failure>, policy: Policy)
    requires forall j :: 0 <= j < Max(1, policy.maxAttempts) ==> IsRetriedResult(attempt(j), policy)
    ensures Retry(attempt, policy).attempts == Max(1, policy.maxAttempts)
    ensures Retry(attempt, policy).result == attempt(Max(1, policy.maxAttempts) - 1)
    ensures IsRetriedResult(Retry(attempt, policy).result, policy)
  {
  }
}
