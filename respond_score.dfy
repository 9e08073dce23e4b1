/**
 * `RespondAndScore` (backend/core/answer_and_reflect/respond_score.py): answer
 * a query, then grade the answer on three dimensions.
 *
 * Each outbound call is one `Create` on a scripted client.  Every decorated
 * method is a retry loop; the functions ending in `Exchange` say what such a
 * call returns and which requests it sends, and the lemmas below are stated
 * over them.
 */
module RespondScore {
  import opened Wrappers
  import opened ReflectionTypes
  import opened GradeCheck
  import opened PromptTemplate
  import opened Completions
  import opened Retrying

  /** The `respond_score` section of the prompts file. */
  datatype PromptCatalog = PromptCatalog(
    systemPrompt: string,
    conciseAddition: string,
    userMessageTemplate: string,
    reasonCodes: ReasonCodes)

  /** What a decorated call returns, and the requests it sent, in order. */
  datatype Exchange<T> = Exchange(result: Result<T, Failure>, sent: seq<Request>)

  // ---------------------------------------------------------------------------
  // Error classification of the answer call

  /** The HTTP status an exception of the answer call is turned into, if it is fatal. */
  function StatusCode(e: ApiError): (r: Option<nat>)
    ensures r.Some? ==> 400 <= r.value < 600 && ErrorForStatus(r.value) == Some(e)
    ensures r.None? <==> e == InternalServerError || e == OtherException
  {
    match e
    case APIConnectionError => Some(500)
    case AuthenticationError => Some(401)
    case RateLimitError => Some(429)
    case BadRequestError => Some(400)
    case NotFoundError => Some(404)
    case PermissionDeniedError => Some(403)
    case InternalServerError => None
    case OtherException => None
  }

  /** The exception behind a status, read back from the HTTPException. */
  function ErrorForStatus(status: nat): Option<ApiError> {
    if status == 500 then Some(APIConnectionError)
    else if status == 401 then Some(AuthenticationError)
    else if status == 429 then Some(RateLimitError)
    else if status == 400 then Some(BadRequestError)
    else if status == 404 then Some(NotFoundError)
    else if status == 403 then Some(PermissionDeniedError)
    else None
  }

  /**
   * The `except` chain of `answer`: six exceptions become an HTTPException
   * with their own status; internal server errors and everything else become
   * RetryException.
   */
  function ClassifyAnswerError(e: ApiError): (f: Failure)
    ensures f.HttpException? || f == RetryException
    ensures f == RetryException <==> e == InternalServerError || e == OtherException
    ensures f.HttpException? ==> 400 <= f.statusCode < 600 && ErrorForStatus(f.statusCode) == Some(e)
  {
    match StatusCode(e)
    case Some(status) => HttpException(status)
    case None => RetryException
  }

  /** Distinct fatal exceptions reach the caller with distinct statuses. */
  lemma StatusIdentifiesError(e: ApiError, status: nat)
    ensures ErrorForStatus(status) == Some(e) <==> StatusCode(e) == Some(status)
  {
  }

  // ---------------------------------------------------------------------------
  // answer

  /** The answer call sends the query as the only, user, message. */
  function AnswerRequest(query: Query, model: string): Request {
    ChatRequest([Message(User, query.query)], model)
  }

  /** One attempt of `answer` on the outcome of its call. */
  function AnswerAttempt(outcome: Outcome<Completion>): Result<Completion, Failure> {
    match outcome
    case Returned(completion) => Success(completion)
    case Raised(e) => Failure(ClassifyAnswerError(e))
  }

  /** The attempts of an `answer` call whose first call is call number `base` of the script. */
  function AnswerAttempts(script: Script<Completion>, base: nat): nat -> Result<Completion, Failure> {
    (k: nat) => AnswerAttempt(script.At(base + k))
  }

  /** The outcomes of the answer call that `answer` retries. */
  predicate IsTransientAnswerOutcome(outcome: Outcome<Completion>) {
    outcome == Raised(InternalServerError) || outcome == Raised(OtherException)
  }

  /** The answer call with number `base + k` of the script is retried. */
  predicate TransientAt(script: Script<Completion>, base: nat, k: nat) {
    IsTransientAnswerOutcome(script.At(base + k))
  }

  /**
   * Why `answer` stops: every call but the last raised a transient exception,
   * and the last did not, unless the budget ran out.
   */
  lemma AnswerExchangeStops(query: Query, model: string, script: Script<Completion>, base: nat, policy: Policy)
    ensures var ex := AnswerExchange(query, model, script, base, policy);
            && (forall k :: 0 <= k < |ex.sent| - 1 ==> TransientAt(script, base, k))
            && (!TransientAt(script, base, |ex.sent| - 1) || |ex.sent| == Max(1, policy.maxAttempts))
  {
    var attempt := AnswerAttempts(script, base);
    var run := Retry(attempt, policy);
    forall k | 0 <= k < run.attempts - 1
      ensures TransientAt(script, base, k)
    {
      assert IsRetriedResult(attempt(k), policy);
      assert attempt(k) == AnswerAttempt(script.At(base + k));
    }
    assert attempt(run.attempts - 1) == AnswerAttempt(script.At(base + run.attempts - 1));
  }

  /** `answer` with its retry decorator. */
  function AnswerExchange(query: Query, model: string, script: Script<Completion>, base: nat, policy: Policy)
    : (ex: Exchange<Completion>)
    ensures 1 <= |ex.sent| <= Max(1, policy.maxAttempts)
    ensures ex.sent == Repeat(AnswerRequest(query, model), |ex.sent|)
    ensures ex.result.Success? ==> script.At(base + |ex.sent| - 1) == Returned(ex.result.value)
    ensures ex.result.Failure? ==>
      script.At(base + |ex.sent| - 1).Raised? && ex.result.error == ClassifyAnswerError(script.At(base + |ex.sent| - 1).error)
  {
    var run := Retry(AnswerAttempts(script, base), policy);
    assert run.result == AnswerAttempts(script, base)(run.attempts - 1);
    assert AnswerAttempts(script, base)(run.attempts - 1) == AnswerAttempt(script.At(base + run.attempts - 1));
    Exchange(run.result, Repeat(AnswerRequest(query, model), run.attempts))
  }

  // ---------------------------------------------------------------------------
  // self_reflect_concisely

  /** The concise system prompt: the system prompt followed by the concise addition. */
  function ConciseSystemPrompt(prompts: PromptCatalog): (p: string)
    ensures |p| == |prompts.systemPrompt| + |prompts.conciseAddition|
    ensures p[..|prompts.systemPrompt|] == prompts.systemPrompt
    ensures p[|prompts.systemPrompt|..] == prompts.conciseAddition
  {
    prompts.systemPrompt + prompts.conciseAddition
  }

  /** The answer's content as `str.format` renders it: absent content reads "None". */
  function AnswerText(answer: Completion): string {
    match answer.content
    case Some(text) => text
    case None => "None"
  }

  /** The messages of the reflect call, or the error the template raises. */
  function ConciseRequest(prompts: PromptCatalog, query: Query, answer: Completion, model: string)
    : (r: Result<Request, Failure>)
    ensures r.Success? <==> Format(prompts.userMessageTemplate, query.query, AnswerText(answer)).Success?
    ensures r.Failure? ==>
      r.error == ConfigurationError(Template(Format(prompts.userMessageTemplate, query.query, AnswerText(answer)).error))
    ensures r.Success? ==> r.value.ChatRequest? && r.value.model == model && |r.value.messages| == 2
    ensures r.Success? ==> r.value.messages[0] == Message(System, prompts.systemPrompt + prompts.conciseAddition)
    ensures r.Success? ==>
      r.value.messages[1] == Message(User, Format(prompts.userMessageTemplate, query.query, AnswerText(answer)).value)
  {
    match Format(prompts.userMessageTemplate, query.query, AnswerText(answer))
    case Failure(e) => Failure(ConfigurationError(Template(e)))
    case Success(userMessage) =>
      Success(ChatRequest([Message(System, ConciseSystemPrompt(prompts)), Message(User, userMessage)], model))
  }

  /**
   * One attempt of `self_reflect_concisely` after its call: every exception of
   * the call is a RetryException; the reply is then validated and assembled.
   */
  function ConciseAttempt(codes: ReasonCodes, outcome: Outcome<Completion>): (r: Result<ScoredReflection, Failure>)
    ensures outcome.Raised? ==> r == Failure(RetryException)
    ensures r.Failure? ==> !r.error.HttpException?
    ensures outcome.Returned? && CheckVeracity(outcome.value.content).Failure? ==>
      r == Failure(ValidationException(CheckVeracity(outcome.value.content).error))
    ensures outcome.Returned? && CheckVeracity(outcome.value.content).Success? ==>
      var grades := CheckVeracity(outcome.value.content).value;
      && (r.Success? <==> HasReasons(codes, grades, 3))
      && (r.Failure? ==>
            exists i :: 0 <= i < 3 && HasReasons(codes, grades, i) && (DIMENSIONS[i], grades[i]) !in codes
                      && r.error == ConfigurationError(Assembly(MissingReasonCode(DIMENSIONS[i], grades[i]))))
    ensures r.Success? ==>
      && outcome.Returned?
      && outcome.value.content == Some(Letters(r.value.Extract().Ratings()))
      && WellScored(r.value)
      && forall i :: 0 <= i < 3 ==> ReflectsGrade(r.value.Extract(), codes, r.value.Extract().Ratings(), i)
  {
    match outcome
    case Raised(_) => Failure(RetryException)
    case Returned(response) =>
      match CheckVeracity(response.content)
      case Failure(kind) => Failure(ValidationException(kind))
      case Success(letterGrades) =>
        match ScoredFromLetterGrades(letterGrades, codes)
        case Failure(e) => Failure(ConfigurationError(Assembly(e)))
        case Success(reflection) => Success(reflection)
  }

  function ConciseAttempts(codes: ReasonCodes, script: Script<Completion>, base: nat)
    : nat -> Result<ScoredReflection, Failure>
  {
    (k: nat) => ConciseAttempt(codes, script.At(base + k))
  }

  /** The reflect attempt on call number `base + k` of the script is retried. */
  predicate ConciseRetriedAt(codes: ReasonCodes, script: Script<Completion>, base: nat, k: nat, policy: Policy) {
    IsRetriedResult(ConciseAttempt(codes, script.At(base + k)), policy)
  }

  /**
   * Why `self_reflect_concisely` stops once it has sent a request: every
   * attempt but the last was retried, and the last was not, unless the budget
   * ran out.
   */
  lemma ConciseExchangeStops(prompts: PromptCatalog, query: Query, answer: Completion, model: string,
                             script: Script<Completion>, base: nat, policy: Policy)
    ensures var ex := ConciseExchange(prompts, query, answer, model, script, base, policy);
            ex.sent != [] ==>
              && (forall k :: 0 <= k < |ex.sent| - 1 ==> ConciseRetriedAt(prompts.reasonCodes, script, base, k, policy))
              && (!ConciseRetriedAt(prompts.reasonCodes, script, base, |ex.sent| - 1, policy)
                  || |ex.sent| == Max(1, policy.maxAttempts))
  {
    var codes := prompts.reasonCodes;
    var attempt := ConciseAttempts(codes, script, base);
    var run := Retry(attempt, policy);
    forall k | 0 <= k < run.attempts - 1
      ensures ConciseRetriedAt(codes, script, base, k, policy)
    {
      assert IsRetriedResult(attempt(k), policy);
      assert attempt(k) == ConciseAttempt(codes, script.At(base + k));
    }
    assert attempt(run.attempts - 1) == ConciseAttempt(codes, script.At(base + run.attempts - 1));
  }

  /**
   * `self_reflect_concisely` with its retry decorator.  A template that does
   * not format fails the first attempt before any call is made.
   */
  function ConciseExchange(prompts: PromptCatalog, query: Query, answer: Completion, model: string,
                           script: Script<Completion>, base: nat, policy: Policy)
    : (ex: Exchange<ScoredReflection>)
    ensures ex.sent == [] <==> ConciseRequest(prompts, query, answer, model).Failure?
    ensures ex.sent == [] ==> ex.result == Failure(ConciseRequest(prompts, query, answer, model).error)
    ensures ex.sent != [] ==>
      && |ex.sent| <= Max(1, policy.maxAttempts)
      && ex.sent == Repeat(ConciseRequest(prompts, query, answer, model).value, |ex.sent|)
      && ex.result == ConciseAttempt(prompts.reasonCodes, script.At(base + |ex.sent| - 1))
  {
    match ConciseRequest(prompts, query, answer, model)
    case Failure(e) => Exchange(Failure(e), [])
    case Success(request) =>
      var run := Retry(ConciseAttempts(prompts.reasonCodes, script, base), policy);
      assert run.result == ConciseAttempts(prompts.reasonCodes, script, base)(run.attempts - 1);
      Exchange(run.result, Repeat(request, run.attempts))
  }

  // ---------------------------------------------------------------------------
  // self_reflect_with_reasoning

  /** The structured-extraction call about a query and its answer. */
  function ReasoningRequest(query: Query, answer: Completion, model: string): Request {
    ExtractionRequest(query.query, AnswerText(answer), model)
  }

  /** One attempt of `self_reflect_with_reasoning`: an absent extract, like an exception, is retried. */
  function ReasoningAttempt(outcome: Outcome<Option<ReflectionExtract>>): (r: Result<ScoredReflection, Failure>)
    ensures r.Success? <==> outcome.Returned? && outcome.value.Some?
    ensures r.Success? ==> r.value.Extract() == outcome.value.value && WellScored(r.value)
    ensures r.Failure? ==> r.error == RetryException
  {
    match outcome
    case Returned(Some(extract)) => Success(ScoredFromReflectionExtract(extract))
    case Returned(None) => Failure(RetryException)
    case Raised(_) => Failure(RetryException)
  }

  function ReasoningAttempts(script: Script<Option<ReflectionExtract>>, base: nat)
    : nat -> Result<ScoredReflection, Failure>
  {
    (k: nat) => ReasoningAttempt(script.At(base + k))
  }

  lemma ReasoningAttemptAt(script: Script<Option<ReflectionExtract>>, base: nat, k: nat,
                           outcome: Outcome<Option<ReflectionExtract>>)
    requires outcome == script.At(base + k)
    ensures ReasoningAttempts(script, base)(k) == ReasoningAttempt(outcome)
  {
  }

  /** Call number `base + k` of the extraction script brought no extract. */
  predicate NoExtractAt(script: Script<Option<ReflectionExtract>>, base: nat, k: nat) {
    script.At(base + k) == Returned(None) || script.At(base + k).Raised?
  }

  /**
   * Why `self_reflect_with_reasoning` stops: every call but the last brought
   * no extract, and the last brought one, unless the budget ran out.
   */
  lemma ReasoningExchangeStops(query: Query, answer: Completion, model: string,
                               script: Script<Option<ReflectionExtract>>, base: nat, policy: Policy)
    ensures var ex := ReasoningExchange(query, answer, model, script, base, policy);
            && (forall k :: 0 <= k < |ex.sent| - 1 ==> NoExtractAt(script, base, k))
            && (!NoExtractAt(script, base, |ex.sent| - 1) || |ex.sent| == Max(1, policy.maxAttempts))
  {
    var attempt := ReasoningAttempts(script, base);
    var run := Retry(attempt, policy);
    forall k | 0 <= k < run.attempts - 1
      ensures NoExtractAt(script, base, k)
    {
      assert IsRetriedResult(attempt(k), policy);
      ReasoningAttemptAt(script, base, k, script.At(base + k));
    }
    ReasoningAttemptAt(script, base, run.attempts - 1, script.At(base + run.attempts - 1));
  }

  function ReasoningExchange(query: Query, answer: Completion, model: string,
                             script: Script<Option<ReflectionExtract>>, base: nat, policy: Policy)
    : (ex: Exchange<ScoredReflection>)
    ensures 1 <= |ex.sent| <= Max(1, policy.maxAttempts)
    ensures ex.sent == Repeat(ReasoningRequest(query, answer, model), |ex.sent|)
    ensures ex.result.Failure? ==> ex.result.error == RetryException && |ex.sent| == Max(1, policy.maxAttempts)
    ensures ex.result.Success? ==> script.At(base + |ex.sent| - 1) == Returned(Some(ex.result.value.Extract()))
  {
    var run := Retry(ReasoningAttempts(script, base), policy);
    ReasoningAttemptAt(script, base, run.attempts - 1, script.At(base + run.attempts - 1));
    Exchange(run.result, Repeat(ReasoningRequest(query, answer, model), run.attempts))
  }

  // ---------------------------------------------------------------------------
  // answer_and_self_reflect

  /** The answer call, then, on its success, the concise reflection on its reply. */
  function AnswerAndSelfReflectExchange(prompts: PromptCatalog, query: Query, model: string,
                                        script: Script<Completion>, base: nat, policy: Policy)
    : (ex: Exchange<(Completion, ScoredReflection)>)
    ensures 1 <= |ex.sent| <= 2 * Max(1, policy.maxAttempts)
    ensures ex.result.Failure? && ex.result.error.HttpException? ==>
      ex.sent == AnswerExchange(query, model, script, base, policy).sent
  {
    var answered := AnswerExchange(query, model, script, base, policy);
    match answered.result
    case Failure(e) => Exchange(Failure(e), answered.sent)
    case Success(answer) =>
      var reflected := ConciseExchange(prompts, query, answer, model, script, base + |answered.sent|, policy);
      match reflected.result
      case Failure(e) => Exchange(Failure(e), answered.sent + reflected.sent)
      case Success(reflection) => Exchange(Success((answer, reflection)), answered.sent + reflected.sent)
  }

  /** The workflow exchange in terms of its two stages. */
  lemma WorkflowStages(prompts: PromptCatalog, query: Query, model: string,
                       script: Script<Completion>, base: nat, policy: Policy)
    ensures var answered := AnswerExchange(query, model, script, base, policy);
            var ex := AnswerAndSelfReflectExchange(prompts, query, model, script, base, policy);
            answered.result.Failure? ==> ex == Exchange(Failure(answered.result.error), answered.sent)
    ensures var answered := AnswerExchange(query, model, script, base, policy);
            var ex := AnswerAndSelfReflectExchange(prompts, query, model, script, base, policy);
            answered.result.Success? ==>
              var reflected := ConciseExchange(prompts, query, answered.result.value, model, script,
                                               base + |answered.sent|, policy);
              && ex.sent == answered.sent + reflected.sent
              && (reflected.result.Failure? ==> ex.result == Failure(reflected.result.error))
              && (reflected.result.Success? ==> ex.result == Success((answered.result.value, reflected.result.value)))
  {
    var answered := AnswerExchange(query, model, script, base, policy);
    if answered.result.Success? {
      var reflected := ConciseExchange(prompts, query, answered.result.value, model, script,
                                       base + |answered.sent|, policy);
      assert AnswerAndSelfReflectExchange(prompts, query, model, script, base, policy).sent
             == answered.sent + reflected.sent;
    }
  }

  // ---------------------------------------------------------------------------
  // Properties of the answer call

  /** A fatal exception on the first answer call reaches the caller at once, with its status. */
  lemma AnswerFailsFastOnFatalError(query: Query, model: string, script: Script<Completion>, base: nat,
                                    policy: Policy, e: ApiError)
    requires script.At(base) == Raised(e) && StatusCode(e).Some?
    ensures AnswerExchange(query, model, script, base, policy)
            == Exchange(Failure(HttpException(StatusCode(e).value)), [AnswerRequest(query, model)])
  {
    var attempt := AnswerAttempts(script, base);
    assert attempt(0) == AnswerAttempt(script.At(base));
    RetryStopsAt(attempt, policy, 1);
    assert Repeat(AnswerRequest(query, model), 1) == [AnswerRequest(query, model)];
  }

  /**
   * Transient failures and then a fatal exception on call n: the call ends
   * after n requests, with the fatal exception's status.
   */
  lemma AnswerFailsAtFirstFatalError(query: Query, model: string, script: Script<Completion>, base: nat,
                                     policy: Policy, n: nat, e: ApiError)
    requires 1 <= n <= Max(1, policy.maxAttempts)
    requires forall k :: 0 <= k < n - 1 ==> TransientAt(script, base, k)
    requires script.At(base + n - 1) == Raised(e) && StatusCode(e).Some?
    ensures AnswerExchange(query, model, script, base, policy)
            == Exchange(Failure(HttpException(StatusCode(e).value)), Repeat(AnswerRequest(query, model), n))
  {
    AnswerExchangeStops(query, model, script, base, policy);
    assert !TransientAt(script, base, n - 1);
  }

  /** One transient failure and then a reply: two calls, and the reply is returned. */
  lemma AnswerRetriesOnceThenSucceeds(query: Query, model: string, script: Script<Completion>, base: nat,
                                      policy: Policy, completion: Completion)
    requires policy.maxAttempts >= 2
    requires IsTransientAnswerOutcome(script.At(base))
    requires script.At(base + 1) == Returned(completion)
    ensures AnswerExchange(query, model, script, base, policy)
            == Exchange(Success(completion), [AnswerRequest(query, model), AnswerRequest(query, model)])
  {
    var attempt := AnswerAttempts(script, base);
    assert attempt(0) == AnswerAttempt(script.At(base));
    assert attempt(1) == AnswerAttempt(script.At(base + 1));
    RetryStopsAt(attempt, policy, 2);
    assert Repeat(AnswerRequest(query, model), 2) == [AnswerRequest(query, model), AnswerRequest(query, model)];
  }

  /** Transient failures on every call: exactly the budget of calls, then RetryException. */
  lemma AnswerExhaustsBudget(query: Query, model: string, script: Script<Completion>, base: nat, policy: Policy)
    requires forall k :: base <= k < base + Max(1, policy.maxAttempts) ==> IsTransientAnswerOutcome(script.At(k))
    ensures AnswerExchange(query, model, script, base, policy)
            == Exchange(Failure(RetryException), Repeat(AnswerRequest(query, model), Max(1, policy.maxAttempts)))
  {
    var attempt := AnswerAttempts(script, base);
    forall j | 0 <= j < Max(1, policy.maxAttempts)
      ensures IsRetriedResult(attempt(j), policy)
    {
      assert IsTransientAnswerOutcome(script.At(base + j));
      assert attempt(j) == AnswerAttempt(script.At(base + j));
    }
    ExhaustsBudget(attempt, policy);
    var last := Max(1, policy.maxAttempts) - 1;
    assert IsTransientAnswerOutcome(script.At(base + last));
    assert attempt(last) == AnswerAttempt(script.At(base + last));
  }

  /** An internal server error on every call, with the decorators' budget of three: three calls. */
  lemma AnswerFailsAfterMaxRetries(query: Query, model: string)
    ensures var ex := AnswerExchange(query, model, Script([], Raised(InternalServerError)), 0,
                                     Policy(DECORATOR_ATTEMPTS, true));
            ex.result == Failure(RetryException) && |ex.sent| == 3
  {
    AnswerExhaustsBudget(query, model, Script([], Raised(InternalServerError)), 0, Policy(DECORATOR_ATTEMPTS, true));
  }

  // ---------------------------------------------------------------------------
  // Properties of the concise reflection

  /** A reply `self_reflect_concisely` retries when validation failures are RetryExceptions. */
  predicate IsBadReply(outcome: Outcome<Completion>) {
    outcome.Raised? || CheckVeracity(outcome.value.content).Failure?
  }

  /**
   * The reflect request: the concise system prompt, then the template filled
   * with the query and the answer's content.
   */
  lemma ConciseRequestMessages(prompts: PromptCatalog, query: Query, answer: Completion, model: string,
                               before: string, between: string, after: string)
    requires prompts.userMessageTemplate == Escape(before) + "{query}" + Escape(between) + "{answer}" + Escape(after)
    ensures ConciseRequest(prompts, query, answer, model).Success?
    ensures ConciseRequest(prompts, query, answer, model).value
            == ChatRequest([Message(System, prompts.systemPrompt + prompts.conciseAddition),
                            Message(User, before + query.query + between + AnswerText(answer) + after)], model)
  {
    FormatQueryThenAnswer(before, between, after, query.query, AnswerText(answer));
  }

  /** The reflect call never raises an HTTPException: every exception of its call is retried. */
  lemma ConciseNeverHttpException(prompts: PromptCatalog, query: Query, answer: Completion, model: string,
                                  script: Script<Completion>, base: nat, policy: Policy)
    ensures var ex := ConciseExchange(prompts, query, answer, model, script, base, policy);
            ex.result.Failure? ==> !ex.result.error.HttpException?
  {
    var attempt := ConciseAttempts(prompts.reasonCodes, script, base);
    var run := Retry(attempt, policy);
    assert run.result == ConciseAttempt(prompts.reasonCodes, script.At(base + run.attempts - 1));
  }

  /**
   * What a successful concise reflection is: its score is the one its ratings
   * give, its reasons are the catalog's, and the last reply spelled its ratings.
   */
  lemma ConciseSuccess(prompts: PromptCatalog, query: Query, answer: Completion, model: string,
                       script: Script<Completion>, base: nat, policy: Policy)
    ensures var ex := ConciseExchange(prompts, query, answer, model, script, base, policy);
            ex.result.Success? ==>
              && WellScored(ex.result.value)
              && (forall i :: 0 <= i < 3 ==>
                    ReflectsGrade(ex.result.value.Extract(), prompts.reasonCodes, ex.result.value.Extract().Ratings(), i))
              && 1 <= |ex.sent| <= Max(1, policy.maxAttempts)
              && script.At(base + |ex.sent| - 1)
                 == Returned(Completion(Some(Letters(ex.result.value.Extract().Ratings()))))
  {
    var ex := ConciseExchange(prompts, query, answer, model, script, base, policy);
    if ex.result.Success? {
      var attempt := ConciseAttempts(prompts.reasonCodes, script, base);
      var run := Retry(attempt, policy);
      assert run.result == attempt(run.attempts - 1);
      assert attempt(run.attempts - 1) == ConciseAttempt(prompts.reasonCodes, script.At(base + run.attempts - 1));
    }
  }

  /** A reply spelling three grades the catalog has reasons for is accepted and assembled. */
  lemma ConciseAcceptsValidReply(codes: ReasonCodes, script: Script<Completion>, n: nat, grades: seq<Grade>)
    requires |grades| == 3 && HasReasons(codes, grades, 3)
    requires script.At(n) == Returned(Completion(Some(Letters(grades))))
    ensures ConciseAttempt(codes, script.At(n)) == Success(ScoredFromLetterGrades(grades, codes).value)
  {
    AcceptsEveryThreeGrades(grades);
  }

  /** A bad reply is retried when validation failures are RetryExceptions. */
  lemma ConciseRetriesBadReply(codes: ReasonCodes, outcome: Outcome<Completion>, policy: Policy)
    requires policy.validationIsRetryException && IsBadReply(outcome)
    ensures IsRetriedResult(ConciseAttempt(codes, outcome), policy)
  {
  }

  /** The retry run of a bad reply followed by a valid one. */
  lemma ConciseRunOfBadThenValid(codes: ReasonCodes, script: Script<Completion>, base: nat, policy: Policy,
                                 grades: seq<Grade>)
    requires policy.maxAttempts >= 2 && policy.validationIsRetryException
    requires IsBadReply(script.At(base))
    requires |grades| == 3 && HasReasons(codes, grades, 3)
    requires script.At(base + 1) == Returned(Completion(Some(Letters(grades))))
    ensures Retry(ConciseAttempts(codes, script, base), policy)
            == RetryRun(Success(ScoredFromLetterGrades(grades, codes).value), 2)
  {
    var attempt := ConciseAttempts(codes, script, base);
    assert IsRetriedResult(attempt(0), policy) by {
      ConciseRetriesBadReply(codes, script.At(base), policy);
    }
    assert attempt(1) == Success(ScoredFromLetterGrades(grades, codes).value) by {
      ConciseAcceptsValidReply(codes, script, base + 1, grades);
    }
    RetriesOnceThenStops(attempt, policy);
  }

  /**
   * A bad reply (an exception, absent content, wrong length, a bad letter)
   * and then a valid one: two calls, and the valid grades are assembled.
   */
  lemma ConciseRetriesBadReplyOnce(prompts: PromptCatalog, query: Query, answer: Completion, model: string,
                                   script: Script<Completion>, base: nat, policy: Policy, grades: seq<Grade>)
    requires policy.maxAttempts >= 2 && policy.validationIsRetryException
    requires ConciseRequest(prompts, query, answer, model).Success?
    requires IsBadReply(script.At(base))
    requires |grades| == 3 && HasReasons(prompts.reasonCodes, grades, 3)
    requires script.At(base + 1) == Returned(Completion(Some(Letters(grades))))
    ensures var ex := ConciseExchange(prompts, query, answer, model, script, base, policy);
            && ex.result == Success(ScoredFromLetterGrades(grades, prompts.reasonCodes).value)
            && ex.result.value.Extract().Ratings() == grades
            && ex.sent == Repeat(ConciseRequest(prompts, query, answer, model).value, 2)
  {
    ConciseRunOfBadThenValid(prompts.reasonCodes, script, base, policy, grades);
  }

  /** With validation failures not RetryExceptions, a bad reply ends the call after one attempt. */
  lemma ConciseValidationFailureIsFinal(prompts: PromptCatalog, query: Query, answer: Completion, model: string,
                                        script: Script<Completion>, base: nat, policy: Policy,
                                        reply: Completion, kind: ValidationError)
    requires !policy.validationIsRetryException
    requires ConciseRequest(prompts, query, answer, model).Success?
    requires script.At(base) == Returned(reply) && CheckVeracity(reply.content) == Failure(kind)
    ensures var ex := ConciseExchange(prompts, query, answer, model, script, base, policy);
            ex.result == Failure(ValidationException(kind)) && |ex.sent| == 1
  {
    var attempt := ConciseAttempts(prompts.reasonCodes, script, base);
    assert attempt(0) == ConciseAttempt(prompts.reasonCodes, script.At(base));
    RetryStopsAt(attempt, policy, 1);
  }

  /**
   * A template that does not format fails before any call; a valid reply the
   * catalog has no reason for fails after one call.  Neither is retried.
   */
  lemma ConciseConfigurationErrorIsFinal(prompts: PromptCatalog, query: Query, answer: Completion, model: string,
                                         script: Script<Completion>, base: nat, policy: Policy)
    ensures var ex := ConciseExchange(prompts, query, answer, model, script, base, policy);
            var formatted := Format(prompts.userMessageTemplate, query.query, AnswerText(answer));
            formatted.Failure? ==> ex == Exchange(Failure(ConfigurationError(Template(formatted.error))), [])
    ensures var ex := ConciseExchange(prompts, query, answer, model, script, base, policy);
            var reply := script.At(base);
            && ConciseRequest(prompts, query, answer, model).Success?
            && reply.Returned? && CheckVeracity(reply.value.content).Success?
            && !HasReasons(prompts.reasonCodes, CheckVeracity(reply.value.content).value, 3)
            ==>
            && |ex.sent| == 1
            && ex.result == ConciseAttempt(prompts.reasonCodes, reply)
            && ex.result.Failure? && ex.result.error.ConfigurationError? && !IsRetried(ex.result.error, policy)
  {
    var reply := script.At(base);
    if ConciseRequest(prompts, query, answer, model).Success? && reply.Returned?
       && CheckVeracity(reply.value.content).Success?
       && !HasReasons(prompts.reasonCodes, CheckVeracity(reply.value.content).value, 3)
    {
      var attempt := ConciseAttempts(prompts.reasonCodes, script, base);
      assert attempt(0) == ConciseAttempt(prompts.reasonCodes, reply);
      RetryStopsAt(attempt, policy, 1);
    }
  }

  /** Bad replies on every call: exactly the budget of calls, and the last failure is re-raised. */
  lemma ConciseExhaustsBudget(prompts: PromptCatalog, query: Query, answer: Completion, model: string,
                              script: Script<Completion>, base: nat, policy: Policy)
    requires policy.validationIsRetryException
    requires ConciseRequest(prompts, query, answer, model).Success?
    requires forall k :: base <= k < base + Max(1, policy.maxAttempts) ==> IsBadReply(script.At(k))
    ensures var ex := ConciseExchange(prompts, query, answer, model, script, base, policy);
            && |ex.sent| == Max(1, policy.maxAttempts)
            && ex.result.Failure? && IsRetried(ex.result.error, policy)
  {
    var attempt := ConciseAttempts(prompts.reasonCodes, script, base);
    forall j | 0 <= j < Max(1, policy.maxAttempts)
      ensures IsRetriedResult(attempt(j), policy)
    {
      assert IsBadReply(script.At(base + j));
      assert attempt(j) == ConciseAttempt(prompts.reasonCodes, script.At(base + j));
    }
    ExhaustsBudget(attempt, policy);
  }

  /**
   * The reflect tests: absent content, "AB", "ABD" or an exception, and then
   * "ABC": two calls, rated A, B, C.  "XYZ" on every call: three calls, then
   * InvalidLetterGrade.
   */
  lemma ConciseRetryTests(prompts: PromptCatalog, query: Query, answer: Completion, model: string,
                          first: Outcome<Completion>)
    requires ConciseRequest(prompts, query, answer, model).Success?
    requires HasReasons(prompts.reasonCodes, [A, B, C], 3)
    requires first in {Returned(Completion(None)), Returned(Completion(Some("AB"))),
                       Returned(Completion(Some("ABD"))), Raised(OtherException)}
    ensures var ex := ConciseExchange(prompts, query, answer, model,
                                      Script([first, Returned(Completion(Some("ABC")))], Raised(OtherException)), 0,
                                      Policy(DECORATOR_ATTEMPTS, true));
            ex.result.Success? && ex.result.value.Extract().Ratings() == [A, B, C] && |ex.sent| == 2
    ensures var ex := ConciseExchange(prompts, query, answer, model,
                                      Script([], Returned(Completion(Some("XYZ")))), 0,
                                      Policy(DECORATOR_ATTEMPTS, true));
            ex.result == Failure(ValidationException(InvalidLetterGrade)) && |ex.sent| == 3
  {
    var policy := Policy(DECORATOR_ATTEMPTS, true);
    ValidationExamples();
    assert Letters([A, B, C]) == "ABC";
    var script := Script([first, Returned(Completion(Some("ABC")))], Raised(OtherException));
    ConciseRetriesBadReplyOnce(prompts, query, answer, model, script, 0, policy, [A, B, C]);
    var xyz := Script([], Returned(Completion(Some("XYZ"))));
    ConciseExhaustsBudget(prompts, query, answer, model, xyz, 0, policy);
    RetryStopsAt(ConciseAttempts(prompts.reasonCodes, xyz, 0), policy, 3);
  }

  // ---------------------------------------------------------------------------
  // Properties of the reasoning reflection

  /** An absent extract and then an extract: two calls, and the extract scored unchanged. */
  lemma ReasoningRetriesOnAbsentExtract(query: Query, answer: Completion, model: string,
                                        script: Script<Option<ReflectionExtract>>, base: nat, policy: Policy,
                                        extract: ReflectionExtract)
    requires policy.maxAttempts >= 2
    requires script.At(base) == Returned(None)
    requires script.At(base + 1) == Returned(Some(extract))
    ensures var ex := ReasoningExchange(query, answer, model, script, base, policy);
            && ex.result == Success(ScoredFromReflectionExtract(extract))
            && ex.result.value.Extract() == extract
            && |ex.sent| == 2
  {
    var attempt := ReasoningAttempts(script, base);
    assert attempt(0) == ReasoningAttempt(Returned(None)) == Failure(RetryException);
    assert attempt(1) == ReasoningAttempt(Returned(Some(extract))) == Success(ScoredFromReflectionExtract(extract));
    RetryStopsAt(attempt, policy, 2);
    assert Retry(attempt, policy) == RetryRun(Success(ScoredFromReflectionExtract(extract)), 2);
  }

  // ---------------------------------------------------------------------------
  // Properties of the workflow

  /**
   * `answer_and_self_reflect` finishes the answer call before the reflect
   * call starts, and the reflect call is about the reply the answer call got:
   * the log is some answer requests, then some reflect requests built from
   * that reply.  Each stage has its own budget.
   */
  lemma AnswerBeforeReflect(prompts: PromptCatalog, query: Query, model: string,
                            script: Script<Completion>, base: nat, policy: Policy)
    ensures var ex := AnswerAndSelfReflectExchange(prompts, query, model, script, base, policy);
            |ex.sent| <= 2 * Max(1, policy.maxAttempts)
    ensures var ex := AnswerAndSelfReflectExchange(prompts, query, model, script, base, policy);
            ex.result.Success? ==>
              exists n, m ::
                && 1 <= n <= Max(1, policy.maxAttempts) && 1 <= m <= Max(1, policy.maxAttempts)
                && script.At(base + n - 1) == Returned(ex.result.value.0)
                && ConciseRequest(prompts, query, ex.result.value.0, model).Success?
                && ex.sent == Repeat(AnswerRequest(query, model), n)
                              + Repeat(ConciseRequest(prompts, query, ex.result.value.0, model).value, m)
  {
    var ex := AnswerAndSelfReflectExchange(prompts, query, model, script, base, policy);
    var answered := AnswerExchange(query, model, script, base, policy);
    var run := Retry(AnswerAttempts(script, base), policy);
    if answered.result.Success? {
      var reflected := ConciseExchange(prompts, query, answered.result.value, model, script, base + |answered.sent|, policy);
      assert run.result == AnswerAttempts(script, base)(run.attempts - 1);
      assert AnswerAttempts(script, base)(run.attempts - 1) == AnswerAttempt(script.At(base + run.attempts - 1));
      if ex.result.Success? {
        var m := |reflected.sent|;
        assert 1 <= m;
      }
    }
  }

  // ---------------------------------------------------------------------------
  // The class

  class RespondAndScore {
    const client: Client<Completion>
    /** The structured-output view of the same endpoint. */
    const extractionClient: Client<Option<ReflectionExtract>>
    const prompts: PromptCatalog
    const model: string
    const policy: Policy

    constructor (client: Client<Completion>, extractionClient: Client<Option<ReflectionExtract>>,
                 prompts: PromptCatalog, model: string, policy: Policy)
      ensures this.client == client && this.extractionClient == extractionClient
      ensures this.prompts == prompts && this.model == model && this.policy == policy
    {
      this.client := client;
      this.extractionClient := extractionClient;
      this.prompts := prompts;
      this.model := model;
      this.policy := policy;
    }

    /** `answer`: one call per attempt, retried while it raises RetryException. */
    method Answer(query: Query) returns (r: Result<Completion, Failure>)
      modifies client
      ensures var ex := AnswerExchange(query, model, client.script, |old(client.requests)|, policy);
              r == ex.result && client.requests == old(client.requests) + ex.sent
    {
      ghost var before := client.requests;
      ghost var attempt := AnswerAttempts(client.script, |before|);
      var request := AnswerRequest(query, model);
      var done: nat := 0;
      while true
        invariant client.requests == before + Repeat(request, done)
        invariant done == 0 || done < policy.maxAttempts
        invariant forall k :: 0 <= k < done ==> IsRetriedResult(attempt(k), policy)
        decreases policy.maxAttempts + 1 - done
      {
        assert |client.requests| == |before| + done;
        var outcome := client.Create(request);
        assert outcome == client.script.At(|before| + done);
        assert attempt(done) == AnswerAttempt(outcome);
        r := AnswerAttempt(outcome);
        done := done + 1;
        assert Repeat(request, done) == Repeat(request, done - 1) + [request];
        if !IsRetriedResult(r, policy) || done >= policy.maxAttempts {
          RetryStopsAt(attempt, policy, done);
          return;
        }
      }
    }

    /** `self_reflect_concisely`: builds the prompt, calls, validates and assembles, per attempt. */
    method SelfReflectConcisely(query: Query, originalAnswer: Completion) returns (r: Result<ScoredReflection, Failure>)
      modifies client
      ensures var ex := ConciseExchange(prompts, query, originalAnswer, model, client.script, |old(client.requests)|, policy);
              r == ex.result && client.requests == old(client.requests) + ex.sent
    {
      ghost var before := client.requests;
      ghost var attempt := ConciseAttempts(prompts.reasonCodes, client.script, |before|);
      var done: nat := 0;
      while true
        invariant done == 0 ==> client.requests == before
        invariant done > 0 ==> ConciseRequest(prompts, query, originalAnswer, model).Success?
        invariant done > 0 ==>
          client.requests == before + Repeat(ConciseRequest(prompts, query, originalAnswer, model).value, done)
        invariant done == 0 || done < policy.maxAttempts
        invariant forall k :: 0 <= k < done ==> IsRetriedResult(attempt(k), policy)
        decreases policy.maxAttempts + 1 - done
      {
        var request := ConciseRequest(prompts, query, originalAnswer, model);
        if request.Failure? {
          r := Failure(request.error);
          return;
        }
        assert |client.requests| == |before| + done;
        var outcome := client.Create(request.value);
        assert outcome == client.script.At(|before| + done);
        assert attempt(done) == ConciseAttempt(prompts.reasonCodes, outcome);
        r := ConciseAttempt(prompts.reasonCodes, outcome);
        done := done + 1;
        assert Repeat(request.value, done) == Repeat(request.value, done - 1) + [request.value];
        if !IsRetriedResult(r, policy) || done >= policy.maxAttempts {
          RetryStopsAt(attempt, policy, done);
          return;
        }
      }
    }

    /** `self_reflect_with_reasoning`: one extraction call per attempt, retried on an absent extract. */
    method SelfReflectWithReasoning(query: Query, originalAnswer: Completion) returns (r: Result<ScoredReflection, Failure>)
      modifies extractionClient
      ensures var ex := ReasoningExchange(query, originalAnswer, model, extractionClient.script,
                                          |old(extractionClient.requests)|, policy);
              r == ex.result && extractionClient.requests == old(extractionClient.requests) + ex.sent
    {
      ghost var before := extractionClient.requests;
      ghost var attempt := ReasoningAttempts(extractionClient.script, |before|);
      var request := ReasoningRequest(query, originalAnswer, model);
      var done: nat := 0;
      while true
        invariant extractionClient.requests == before + Repeat(request, done)
        invariant done == 0 || done < policy.maxAttempts
        invariant forall k :: 0 <= k < done ==> IsRetriedResult(attempt(k), policy)
        decreases policy.maxAttempts + 1 - done
      {
        assert |extractionClient.requests| == |before| + done;
        var outcome := extractionClient.Create(request);
        ReasoningAttemptAt(extractionClient.script, |before|, done, outcome);
        r := ReasoningAttempt(outcome);
        assert r == attempt(done);
        done := done + 1;
        assert Repeat(request, done) == Repeat(request, done - 1) + [request];
        if !IsRetriedResult(r, policy) || done >= policy.maxAttempts {
          RetryStopsAt(attempt, policy, done);
          assert Retry(attempt, policy) == RetryRun(r, done);
          return;
        }
      }
    }

    /** `answer_and_self_reflect`: the answer first, then the concise reflection on it. */
    method AnswerAndSelfReflect(query: Query) returns (r: Result<(Completion, ScoredReflection), Failure>)
      modifies client
      ensures var ex := AnswerAndSelfReflectExchange(prompts, query, model, client.script, |old(client.requests)|, policy);
              r == ex.result && client.requests == old(client.requests) + ex.sent
    {
      ghost var before := client.requests;
      var answer := Answer(query);
      ghost var answered := AnswerExchange(query, model, client.script, |before|, policy);
      if answer.Failure? {
        r := Failure(answer.error);
        WorkflowStages(prompts, query, model, client.script, |before|, policy);
        return;
      }
      ghost var mid := client.requests;
      var reflection := SelfReflectConcisely(query, answer.value);
      ghost var reflected := ConciseExchange(prompts, query, answer.value, model, client.script, |mid|, policy);
      assert |mid| == |before| + |answered.sent|;
      assert client.requests == before + (answered.sent + reflected.sent);
      WorkflowStages(prompts, query, model, client.script, |before|, policy);
      if reflection.Failure? {
        r := Failure(reflection.error);
        return;
      }
      r := Success((answer.value, reflection.value));
    }
  }
}
