# Answer-and-reflect core, modelled in Dafny

`RespondAndScore` answers a user's query with one chat completion. It then
asks the same model to grade that answer on three fixed dimensions:
completeness, accuracy and reasoning, each rated A, B or C. The grades are
turned into a scored reflection.

The project models four parts of that core:

- the grade validator on the model's reply (`grade_check.dfy`);
- the classification of the answer call's exceptions into fatal HTTP statuses
  and a retryable `RetryException`, and the tenacity retry policy around every
  call (`retrying.dfy`, `respond_score.dfy`);
- the prompt for the concise reflection: the concise system prompt, and the
  `{query}`/`{answer}` user template filled in the way `str.format` does
  (`prompt_template.dfy`);
- the assembly of a reflection from letter grades or from a structured
  extract, with its numerical score (`reflection_types.dfy`), and the older
  copy of that code (`legacy_types.dfy`).

The outbound model client is a `Client` object. Its `Create` appends the
request to a log and returns the next outcome of a script: a reply or an
exception. The script plays the part of the mocks in the repository's retry
tests.

Each decorated method of `RespondAndScore` is a retry loop over that client.
Its postcondition equates the result and the requests it sent with an
`…Exchange` function. That function is defined through `Retrying.Retry`, the
specification of `retry(retry=retry_if_exception_type(RetryException),
stop=stop_after_attempt(n), reraise=True)`. The lemmas about each call are
stated over the `…Exchange` functions.

Scores are integers in hundredths. A = 2, C = 1 and B = 0 half-points, so the
Python score `round(sum / 3, 2)` is the integer nearest to `100 * S / 6`,
where `S` is the half-point sum. That value is never a rounding tie, because
`100 * S` is even and so never three more than a multiple of six. The possible
values for three grades are 0, 17, 33, 50, 67, 83 and 100.

## Model

| member | source | states |
|---|---|---|
| GradeCheck.Letters | backend/core/answer_and_reflect/respond_score.py:126-140 | the reply text that spells a list of grades has one letter per grade, in order |
| GradeCheck.ReadLetters | backend/core/answer_and_reflect/respond_score.py:136-140 | a text is read as grades exactly when every character is A, B or C, and the grades read back spell the text |
| GradeCheck.Letter | backend/core/answer_and_reflect/respond_score.py:126 | every grade is written as one of the acceptable letters A, B, C |
| GradeCheck.CheckVeracity | backend/core/answer_and_reflect/respond_score.py:123-140 | absent content fails with NoLetterGradesFound first; otherwise a length other than 3 fails with LetterGradesNotThreeCharactersLong; otherwise a character outside A, B, C fails with InvalidLetterGrade, exactly when one exists; a success is the three grades the content spells, in order |
| GradeCheck.ReadLettersOfGrades | backend/core/answer_and_reflect/respond_score.py:136-140 | spelling grades and reading them back gives the same grades |
| GradeCheck.AcceptsEveryThreeGrades | backend/core/answer_and_reflect/respond_score.py:123-140 | every reply spelling three grades is accepted, as exactly those grades |
| GradeCheck.LengthCheckedBeforeLetters | backend/core/answer_and_reflect/respond_score.py:133-138 | InvalidLetterGrade only ever reports content of length 3 |
| GradeCheck.ValidationExamples | backend/test_retry_behavior.py:107-203 | "ABC" gives A, B, C; absent content, "AB", "", "ABD" and "XYZ" fail with the error the ordered checks give |
| ReflectionTypes.SumHalfPoints | backend/core/answer_and_reflect/types.py:100-102 | the grade sum in half-points is at most 2 per grade |
| ReflectionTypes.SumCountsGrades | backend/core/answer_and_reflect/types.py:100-102 | the grade sum in half-points is twice the number of A's plus the number of C's |
| ReflectionTypes.CalculateNumericalScore | backend/core/answer_and_reflect/types.py:91-104 | the score in hundredths is the integer nearest to 100·S/6 (6·score within 3 of 100·S), and at most 100 for three grades |
| ReflectionTypes.ScoreIgnoresOrder | backend/core/answer_and_reflect/types.py:101-104 | grade lists that are permutations of each other score the same |
| ReflectionTypes.ScoreOfThreeGrades | backend/core/answer_and_reflect/types.py:97-104 | three grades score one of 0, 17, 33, 50, 67, 83, 100 |
| ReflectionTypes.ScoreExtremes | backend/core/answer_and_reflect/types.py:97-104 | three grades score 100 exactly when all are A, and 0 exactly when all are B |
| ReflectionTypes.ScoreExamples | backend/core/answer_and_reflect/types.py:97-104 | AAA scores 100, BBB scores 0, ABC and ACB score 50 |
| ReflectionTypes.GetReasonCode | backend/core/answer_and_reflect/types.py:32-47 | the lookup succeeds exactly when the catalog has the (dimension, grade) entry and returns that entry; otherwise it fails naming the dimension and the grade |
| ReflectionTypes.CreateReflectionsFromGrades | backend/core/answer_and_reflect/types.py:49-71 | a list of other than three grades fails on unpacking; three grades succeed exactly when the catalog has all three entries, and reflection i then has rating grades[i] and the catalog's reason for dimension i; otherwise the error names the first dimension, in completeness-accuracy-reasoning order, whose entry is missing |
| ReflectionTypes.ExtractFromLetterGrades | backend/core/answer_and_reflect/types.py:73-81 | the extract's ratings are the grades in order, each reason is the catalog's, and the failures are those of the reflection builder |
| ReflectionTypes.ScoredFromReflectionExtract | backend/core/answer_and_reflect/types.py:115-126 | keeps the extract's three reflections unchanged and adds the score of their ratings, one of the seven score values |
| ReflectionTypes.ScoredFromLetterGrades | backend/core/answer_and_reflect/types.py:106-113 | succeeds exactly when the extract does, carries the extract's reflections unchanged, its ratings are the grades and its score is theirs; fails with the extract's error |
| ReflectionTypes.BothPathsAgree | backend/core/answer_and_reflect/types.py:106-126 | scoring from letter grades is scoring the extract built from them, and any extract with the same ratings gets the same score |
| LegacyTypes.ReasonCode | backend/core/types.py:37-48 | the nested lookup succeeds exactly when the catalog has the entry and returns it; otherwise it fails naming the dimension and the grade |
| LegacyTypes.ExtractFromLetterGrades | backend/core/types.py:28-63 | fewer than three grades fail with an IndexError at the first missing position; otherwise it succeeds exactly when the catalog has the entries of the first three grades, whose ratings and reasons it carries, and fails naming the first missing (dimension, grade) entry; grades after the third are ignored |
| LegacyTypes.ScoredFromLetterGrades | backend/core/types.py:88-101 | carries the extract's reflections unchanged, with the score of the whole grade list; fails as the extract does |
| LegacyTypes.AgreeOnThreeGrades | backend/core/types.py:28-101 | on three grades the older copy gives the same scored reflection as the current one, or fails on the same missing entry |
| LegacyTypes.BothRejectShortLists | backend/core/types.py:33-35 | both copies reject fewer than three grades: the older with an IndexError, the current with an unpacking error |
| LegacyTypes.LegacyAcceptsFourGrades | backend/core/types.py:33-35 | four A's are rejected by the current copy but accepted by the older one, which rates A, A, A and scores 133 |
| PromptTemplate.FieldEnd | backend/core/answer_and_reflect/respond_score.py:98-100 | finds where a field name ends: the first `}`, `:`, `!`, `{` or `[`, or reports that there is none |
| PromptTemplate.FieldEndIsFirst | backend/core/answer_and_reflect/respond_score.py:98-100 | a stop character with none before it is where the field name ends |
| PromptTemplate.Format | backend/core/answer_and_reflect/respond_score.py:98-100 | `str.format` with the keywords query and answer; only a brace can make it fail. `FormatEscaped`, `FormatQueryThenAnswer` and the `FormatRejects*` lemmas characterise it |
| PromptTemplate.Escape | backend/core/answer_and_reflect/respond_score.py:98-100 | escaping doubles braces, so it never shortens a text |
| PromptTemplate.PrependAssociates | backend/core/answer_and_reflect/respond_score.py:98-100 | proof helper for the escape lemmas: prefixing formatted output twice is prefixing once with the joined text |
| PromptTemplate.FormatEscapedPrefix | backend/core/answer_and_reflect/respond_score.py:98-100 | an escaped text at the head of a template is formatted back to itself, before the rest |
| PromptTemplate.FormatEscaped | backend/core/answer_and_reflect/respond_score.py:98-100 | formatting an escaped text gives the text back |
| PromptTemplate.FormatPlain | backend/core/answer_and_reflect/respond_score.py:98-100 | a template without braces formats to itself |
| PromptTemplate.EscapeWithoutBraces | backend/core/answer_and_reflect/respond_score.py:98-100 | escaping leaves a text without braces unchanged |
| PromptTemplate.FormatQueryField | backend/core/answer_and_reflect/respond_score.py:98-100 | a `{query}` field is replaced by the query |
| PromptTemplate.FormatAnswerField | backend/core/answer_and_reflect/respond_score.py:98-100 | an `{answer}` field is replaced by the answer |
| PromptTemplate.FormatQueryThenAnswer | backend/core/answer_and_reflect/respond_score.py:98-100 | a template of literal text with a `{query}` and then an `{answer}` field formats to the text with the query and the answer in those places |
| PromptTemplate.FormatRejectsSingleClosingBrace | backend/core/answer_and_reflect/respond_score.py:98-100 | a closing brace that is not doubled makes formatting fail |
| PromptTemplate.FormatRejectsSingleOpeningBrace | backend/core/answer_and_reflect/respond_score.py:98-100 | an opening brace that ends the template, after any literal text, makes formatting fail ("Single '{' encountered in format string") |
| PromptTemplate.FormatRejectsUnclosedField | backend/core/answer_and_reflect/respond_score.py:98-100 | an opening brace, not doubled and not last, whose field name runs to the end of the template makes formatting fail ("expected '}' before end of string") |
| PromptTemplate.FormatRejectsBraceInField | backend/core/answer_and_reflect/respond_score.py:98-100 | an opening brace inside a field name makes formatting fail ("unexpected '{' in field name"), whatever follows |
| PromptTemplate.FormatRejectsUnknownField | backend/core/answer_and_reflect/respond_score.py:98-100 | a plain field name other than query or answer makes formatting fail with that name (KeyError or IndexError) |
| Completions.Repeat | backend/test_retry_behavior.py:51-103 | helper that spells a log of n identical requests (what the tests count with `call_count`): length n, every element the request |
| Completions.Client.constructor | backend/test_retry_behavior.py:51-103 | a fresh client has the given script and has received no request |
| Completions.Client.Create | backend/test_retry_behavior.py:51-103 | a call logs its request at the end and returns the scripted outcome for its position in the log |
| Retrying.RetryFrom | backend/core/answer_and_reflect/respond_score.py:55-59 | after `done` attempts, the loop makes at least one more and at most the budget; it returns the last attempt's result; every attempt before it failed with a retried exception; it stopped at a success, a non-retried exception or the budget |
| Retrying.Retry | backend/core/answer_and_reflect/respond_score.py:55-59 | a decorated call makes at least one attempt and at most the budget |
| Retrying.RetryStopsAt | backend/core/answer_and_reflect/respond_score.py:55-59 | the run is the one that stops after n attempts when the first n-1 were retried and the n-th was not or used up the budget |
| Retrying.RetriesOnceThenStops | backend/core/answer_and_reflect/respond_score.py:86-90 | one retried failure, then an attempt that is not retried: two attempts, the second's result |
| Retrying.ExhaustsBudget | backend/core/answer_and_reflect/respond_score.py:86-90 | if every attempt fails with a retried exception, the whole budget is spent and the last exception is re-raised |
| RespondScore.StatusCode | backend/core/answer_and_reflect/respond_score.py:69-80 | the six fatal exceptions get a status between 400 and 599 that reads back as the same exception; internal server errors and everything else get none |
| RespondScore.ClassifyAnswerError | backend/core/answer_and_reflect/respond_score.py:69-84 | an answer-call exception becomes RetryException exactly for InternalServerError and unclassified exceptions; the other six become an HTTPException with a status in 400-599 from which the exception is recovered |
| RespondScore.StatusIdentifiesError | backend/core/answer_and_reflect/respond_score.py:69-80 | the status-to-exception reading is the exact inverse of the classification: 500, 401, 429, 400, 404, 403 |
| RespondScore.ConciseSystemPrompt | backend/core/answer_and_reflect/respond_score.py:95-96 | the concise system prompt is the system prompt followed by the concise addition |
| RespondScore.ConciseAttempt | backend/core/answer_and_reflect/respond_score.py:102-121 | every exception of the reflect call becomes RetryException, so an HTTPException never comes out of it; a reply failing validation is that validation error; a valid reply succeeds exactly when the catalog has its entries and otherwise is a ConfigurationError naming the first missing entry; a success is exactly what the reply spelled, scored, with the catalog's reasons |
| RespondScore.AnswerExchange | backend/core/answer_and_reflect/respond_score.py:55-84 | the decorated answer call sends between one and the budget of identical requests; its result is the reply to the last call, or the classified exception it raised; why it stops is `AnswerExchangeStops` |
| RespondScore.AnswerExchangeStops | backend/core/answer_and_reflect/respond_score.py:55-59 | every answer call before the last raised a transient exception (an internal server error or an unclassified one), and the last did not unless the budget was spent |
| RespondScore.ConciseRequest | backend/core/answer_and_reflect/respond_score.py:95-109 | the reflect request exists exactly when the template formats, and is the concise system prompt followed by the filled template; a template error is a ConfigurationError carrying the format error |
| RespondScore.ConciseExchange | backend/core/answer_and_reflect/respond_score.py:86-121 | no request is sent exactly when the template does not format, and then the template error is the result; otherwise at most the budget of identical requests, and the result is the attempt on the last reply; why it stops is `ConciseExchangeStops` |
| RespondScore.ConciseExchangeStops | backend/core/answer_and_reflect/respond_score.py:86-90 | once a request was sent, every reflect attempt before the last was retried, and the last was not unless the budget was spent |
| RespondScore.ReasoningExchange | backend/test_retry_behavior.py:207-234 | between one and the budget of identical extraction requests; a failure is a RetryException after the whole budget; a success is the extract of the last reply; why it stops is `ReasoningExchangeStops` |
| RespondScore.ReasoningExchangeStops | backend/test_retry_behavior.py:207-234 | every extraction call before the last returned no extract or raised, and the last brought an extract unless the budget was spent |
| RespondScore.AnswerAndSelfReflectExchange | backend/core/answer_and_reflect/respond_score.py:48-53 | at most two budgets of requests; an HTTPException comes from the answer call, and then no reflect request was sent |
| RespondScore.ReasoningAttempt | backend/test_retry_behavior.py:207-234 | an attempt succeeds exactly when an extract comes back, and scores it unchanged; an absent extract or an exception is a RetryException |
| RespondScore.AnswerFailsAtFirstFatalError | backend/core/answer_and_reflect/respond_score.py:55-80 | transient exceptions and then a fatal one on call n: the call ends after n identical requests, with the fatal exception's status |
| RespondScore.AnswerFailsFastOnFatalError | backend/core/answer_and_reflect/respond_score.py:55-80 | a fatal exception on the first answer call ends the call after one request, with its status |
| RespondScore.AnswerRetriesOnceThenSucceeds | backend/test_retry_behavior.py:51-86 | a transient exception and then a reply: two requests, and the reply is returned |
| RespondScore.AnswerExhaustsBudget | backend/core/answer_and_reflect/respond_score.py:55-84 | transient exceptions on every call: exactly the budget of identical requests, then RetryException |
| RespondScore.AnswerFailsAfterMaxRetries | backend/test_retry_behavior.py:90-103 | internal server errors on every call, with the decorators' budget of 3: three requests, then RetryException |
| RespondScore.ConciseRequestMessages | backend/core/answer_and_reflect/respond_score.py:95-109 | the reflect request has two messages: the concise system prompt, and the user template filled with the query and the answer's content |
| RespondScore.ConciseNeverHttpException | backend/core/answer_and_reflect/respond_score.py:102-118 | the concise reflection never fails with an HTTPException |
| RespondScore.ConciseSuccess | backend/core/answer_and_reflect/respond_score.py:86-121 | a successful concise reflection is well scored, carries the catalog's reasons, took at most the budget of requests, and the last reply spelled its ratings |
| RespondScore.ConciseAcceptsValidReply | backend/core/answer_and_reflect/respond_score.py:120-121 | a reply spelling three grades with catalog entries gives the letter-grade reflection of those grades |
| RespondScore.ConciseRetriesBadReply | backend/core/answer_and_reflect/respond_score.py:111-120 | when validation errors are RetryExceptions, an exception of the call and a reply failing validation are both retried |
| RespondScore.ConciseRunOfBadThenValid | backend/test_retry_behavior.py:107-184 | a bad reply and then a valid one: two attempts, the second assembled |
| RespondScore.ConciseRetriesBadReplyOnce | backend/test_retry_behavior.py:107-184 | absent content, a wrong length, a bad letter or an exception, and then a valid reply: two identical requests, and the result rates the valid grades |
| RespondScore.ConciseValidationFailureIsFinal | backend/core/answer_and_reflect/respond_score.py:111-121 | when validation errors are not RetryExceptions, a bad first reply ends the call after one request, with that validation error |
| RespondScore.ConciseConfigurationErrorIsFinal | backend/core/answer_and_reflect/respond_score.py:95-121 | a template that does not format ends the reflection with no request sent; a valid first reply without catalog entries ends it after one request with a ConfigurationError that is not retried |
| RespondScore.ConciseExhaustsBudget | backend/core/answer_and_reflect/respond_score.py:86-121 | bad replies on every call: exactly the budget of requests, then a retried exception |
| RespondScore.ConciseRetryTests | backend/test_retry_behavior.py:107-203 | the repository's reflect-retry scenarios: each bad first reply then "ABC" gives two requests rated A, B, C; "XYZ" forever gives three requests and InvalidLetterGrade |
| RespondScore.ReasoningRetriesOnAbsentExtract | backend/test_retry_behavior.py:207-234 | an absent extract and then an extract: two requests, and the extract scored unchanged |
| RespondScore.AnswerBeforeReflect | backend/core/answer_and_reflect/respond_score.py:48-53 | the workflow sends at most two budgets of requests: first the answer requests, ending with the reply it returns, then the reflect requests built from that reply |
| RespondScore.RespondAndScore.constructor | backend/core/answer_and_reflect/respond_score.py:20-23 | the client, prompts, model and retry policy are fixed at construction |
| RespondScore.RespondAndScore.Answer | backend/core/answer_and_reflect/respond_score.py:55-84 | the retry loop returns what the answer exchange specifies and appends exactly its requests to the client's log |
| RespondScore.RespondAndScore.SelfReflectConcisely | backend/core/answer_and_reflect/respond_score.py:86-121 | the retry loop returns what the concise exchange specifies and appends exactly its requests; a template error sends nothing |
| RespondScore.RespondAndScore.SelfReflectWithReasoning | backend/test_retry_behavior.py:207-234 | the retry loop returns what the reasoning exchange specifies and appends exactly its requests to the extraction client's log |
| RespondScore.RespondAndScore.AnswerAndSelfReflect | backend/core/answer_and_reflect/respond_score.py:48-53 | answers, then reflects on that answer; the result and the log are those of the workflow exchange |

## Left out

- Prompt loading (`_load_prompts`) is file and YAML I/O. The catalog is a parameter. Each `respond_score` entry the accessors read is a field, so a missing key in the prompts file is not modelled.
- Printing, `async`/`await`, and the construction of the OpenAI and instructor clients are left out. Every outbound call is one `Create` on a scripted `Client`.
- Floating point is left out. The score is an integer in hundredths, and the Python float is the score divided by 100.
- `original_answer.choices[0]` raising IndexError on an empty `choices` list is not modelled. A completion is its message content, which may be absent.
- Only the `{query}` and `{answer}` fields of `str.format` are modelled, plus `{{`, `}}`, a `{` that ends the template, a field that never ends, a `{` inside a field name, a lone `}` and plain field names that are not keyword arguments. A field whose name is followed by a conversion (`!`), a format spec (`:`) or an index (`[`), or contains an attribute lookup (`.`), fails with `OutsideModel`; Python would instead look the name up and apply them.
- The exception classes of the validator are declared in backend/core/answer_and_reflect/exceptions.py, and that file is not part of this model. Validation runs outside the reflect call's `try`, so whether a validation failure is retried depends on whether those classes subclass `RetryException`. `Policy.validationIsRetryException` makes that choice a parameter. The repository's tests expect `true`.
- The model name is a constructor parameter; the source's default `"gpt-4o-mini"` is not modelled, since the name is only passed through to the requests.
- The retry budget is a parameter (`Policy.maxAttempts`). The decorators fix it at 3 (`DECORATOR_ATTEMPTS`). The tests compare against `MAX_RETRIES` from `core.config`, but backend/core/config.py does not define it.
- `self_reflect_with_reasoning` is not in backend/core/answer_and_reflect/respond_score.py. Its model follows the repository's test: retry on an absent extract, then score the extract. Its request is opaque (`ExtractionRequest`), and so is the response model it asks for. The answer-then-reasoning workflow is not modelled, because its code is not in the source: the demo script posts to an endpoint whose handler backend/core/api/chat.py does not contain.
- The HTTP layer (FastAPI app, routers, health endpoint), configuration loading and the demo script are not part of this model.
- RespondScore.RespondAndScore.Answer: does not model the HTTPException's `detail` text; only the status code is carried.
- RespondScore.ReasoningAttempt: that an exception of the extraction call is retried like an absent extract is not shown by the test; the model assumes the decorated method retries an exception of its call like an absent extract.
- `LegacyTypes`: the older copy's `from_reflection_extract` produces the same value as the current one, though the text differs (backend/core/types.py:103-120 passes the three fields by name; backend/core/answer_and_reflect/types.py:115-126 unpacks the extract's dump), so `ReflectionTypes.ScoredFromReflectionExtract` stands for both.

Where the code and its written description differ, the model follows the code:

- An empty reply string is not absent content. It fails the length check (LetterGradesNotThreeCharactersLong), because the code tests only for `None`.
- The reflect call's `except Exception` also catches authentication, rate-limit and other errors that the answer call reports as HTTP statuses. The reflect path therefore retries them and never raises an HTTPException.
- A missing reason code and a malformed user template fail the attempt with an error that is not retried (`ConfigurationError`). So does a grade list whose length is not 3, which the validator rules out anyway.
