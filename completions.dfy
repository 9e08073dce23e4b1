/**
 * The outbound completion capability, as the core sees it: each call is
 * answered by the next outcome of a script, and every request is recorded
 * (the mock client of backend/test_retry_behavior.py has the same shape:
 * a `side_effect` list, or one `return_value` for every call).
 */
module Completions {
  import opened Wrappers

  /** The exceptions a call can raise that the source tells apart; everything else is OtherException. */
  datatype ApiError =
    | APIConnectionError
    | AuthenticationError
    | RateLimitError
    | BadRequestError
    | NotFoundError
    | PermissionDeniedError
    | InternalServerError
    | OtherException

  /** A chat completion, reduced to `choices[0].message.content`. */
  datatype Completion = Completion(content: Option<string>)

  datatype Outcome<T> = Returned(value: T) | Raised(error: ApiError)

  /** The outcomes of successive calls: `scripted` first, then `otherwise` for every later call. */
  datatype Script<T> = Script(scripted: seq<Outcome<T>>, otherwise: Outcome<T>)
  {
    /** The outcome of call number `n`, counting from 0. */
    function At(n: nat): Outcome<T> {
      if n < |scripted| then scripted[n] else otherwise
    }
  }

  datatype Role = System | User

  datatype Message = Message(role: Role, content: string)

  /**
   * What a call asks for: a chat completion with its messages, or a structured
   * extraction of a reflection about a query and its answer.
   */
  datatype Request =
    | ChatRequest(messages: seq<Message>, model: string)
    | ExtractionRequest(query: string, answer: string, model: string)

  /** n copies of x. */
  function Repeat<T>(x: T, n: nat): (s: seq<T>)
    ensures |s| == n
    ensures forall i :: 0 <= i < n ==> s[i] == x
  {
    if n == 0 then [] else Repeat(x, n - 1) + [x]
  }

  /** A completion endpoint with a fixed script; `requests` is its call log. */
  class Client<T> {
    const script: Script<T>
    var requests: seq<Request>

    constructor (script: Script<T>)
      ensures this.script == script && requests == []
    {
      this.script := script;
      requests := [];
    }

    /** `chat.completions.create`: answers with the next scripted outcome. */
    method Create(request: Request) returns (outcome: Outcome<T>)
      modifies this
      ensures requests == old(requests) + [request]
      ensures outcome == script.At(|old(requests)|)
    {
      outcome := script.At(|requests|);
      requests := requests + [request];
    }
  }
}
