/** The provider-independent part of agents/llm_client.py: the error
    hierarchy with its default troubleshooting hints, the retry loop around a
    provider's `generate_response`, and the provider factory. The provider
    call, the random jitter and the sleeps are parameters of the model. */
module LlmClient {
  import opened Wrappers
  import opened Models

  /** The four exception classes: the base class and its three subclasses. */
  datatype ErrorKind = Generic | Connection | RateLimit | InvalidResponse

  datatype LLMClientError = LLMClientError(kind: ErrorKind, message: string, troubleshooting: string)

  const GenericHelp: string := "Check the LLM configuration and ensure the service is available."
  const ConnectionHelp: string :=
    "Verify that the LLM service is running and accessible. "
    + "Check your network connection and ensure the base URL is correct."
  const RateLimitHelp: string :=
    "The LLM service is currently rate limited. Wait before retrying, "
    + "or consider upgrading your service tier for higher rate limits."
  const InvalidResponseHelp: string :=
    "The LLM service returned an invalid or unexpected response. "
    + "Check your prompt format and parameters, or try a different model."

  /** The troubleshooting hint each class uses when none is given. */
  function DefaultHelp(kind: ErrorKind): string {
    match kind
    case Generic => GenericHelp
    case Connection => ConnectionHelp
    case RateLimit => RateLimitHelp
    case InvalidResponse => InvalidResponseHelp
  }

  /** Python's `troubleshooting or default`: `None` and "" both fall back. */
  function OrDefault(hint: Option<string>, default: string): (r: string)
    ensures hint.Some? && hint.value != [] ==> r == hint.value
    ensures hint.None? || hint.value == [] ==> r == default
  {
    if hint.Some? && hint.value != [] then hint.value else default
  }

  /** Constructing one of the error classes. A subclass passes
      `troubleshooting or its own default` to the base class; the base class
      applies `or` once more with the generic default, which changes nothing
      because no default hint is empty. */
  function NewError(kind: ErrorKind, message: string, troubleshooting: Option<string>): (e: LLMClientError)
    ensures e.kind == kind && e.message == message
    ensures troubleshooting.Some? && troubleshooting.value != [] ==> e.troubleshooting == troubleshooting.value
    ensures troubleshooting.None? || troubleshooting.value == [] ==> e.troubleshooting == DefaultHelp(kind)
  {
    LLMClientError(kind, message, OrDefault(troubleshooting, DefaultHelp(kind)))
  }

  const Separator: string := " | Troubleshooting: "

  /** `str(e)`. */
  function ErrorText(e: LLMClientError): string {
    e.message + Separator + e.troubleshooting
  }

  /** The text of an error starts with its message and ends with its hint, so
      both can be read back from it. */
  lemma ErrorTextParts(e: LLMClientError)
    ensures |ErrorText(e)| == |e.message| + |Separator| + |e.troubleshooting|
    ensures ErrorText(e)[..|e.message|] == e.message
    ensures ErrorText(e)[|e.message| + |Separator|..] == e.troubleshooting
  {
  }

  /** An error built without a hint shows the default hint of its class. */
  lemma ErrorTextDefault(kind: ErrorKind, message: string)
    ensures ErrorText(NewError(kind, message, None))
         == message + " | Troubleshooting: " + DefaultHelp(kind)
  {
  }

  datatype LLMResponse = LLMResponse(content: string, model: string)

  /** What one `generate_response` call does: return, raise one of the
      error classes, or raise some other exception with the given text. */
  datatype CallOutcome =
    | Responded(response: LLMResponse)
    | RaisedClientError(error: LLMClientError)
    | RaisedOther(text: string)

  /** The kinds the retry loop retries. */
  predicate Transient(kind: ErrorKind) {
    kind == RateLimit || kind == Connection || kind == InvalidResponse
  }

  function Pow2(k: nat): (p: real)
    ensures p >= 1.0
  {
    if k == 0 then 1.0 else 2.0 * Pow2(k - 1)
  }

  /** The back-off before the retry that follows failed attempt `attempt`:
      exponential, with jitter only after a rate limit. */
  function Delay(kind: ErrorKind, attempt: nat, baseDelay: real, jitter: nat -> real): real {
    baseDelay * Pow2(attempt) + (if kind == RateLimit then jitter(attempt) else 0.0)
  }

  function UnexpectedError(text: string): (e: LLMClientError)
    ensures e.kind == Generic && e.message == "Unexpected error: " + text
  {
    NewError(Generic, "Unexpected error: " + text, None)
  }

  function MaxRetriesExceeded(): LLMClientError {
    NewError(Generic, "Max retries exceeded", None)
  }

  /** The outcome of the retry loop, the number of provider calls it made and
      the delays it slept, in order. */
  datatype RetryRun = RetryRun(result: Result<LLMResponse, LLMClientError>, calls: nat, delays: seq<real>)

  /** The retry loop from attempt `attempt` on. */
  function Retry(respond: nat -> CallOutcome, jitter: nat -> real, maxRetries: int, baseDelay: real, attempt: nat)
    : RetryRun
    decreases maxRetries - attempt
  {
    if attempt > maxRetries then RetryRun(Err(MaxRetriesExceeded()), 0, [])
    else
      match respond(attempt)
      case Responded(resp) => RetryRun(Ok(resp), 1, [])
      case RaisedOther(text) => RetryRun(Err(UnexpectedError(text)), 1, [])
      case RaisedClientError(e) =>
        if !Transient(e.kind) then RetryRun(Err(UnexpectedError(ErrorText(e))), 1, [])
        else if attempt < maxRetries then
          var rest := Retry(respond, jitter, maxRetries, baseDelay, attempt + 1);
          RetryRun(rest.result, rest.calls + 1, [Delay(e.kind, attempt, baseDelay, jitter)] + rest.delays)
        else RetryRun(Err(e), 1, [])
  }

  /** `generate_response_with_retry`: the `for attempt` loop. */
  method GenerateWithRetry(respond: nat -> CallOutcome, jitter: nat -> real, maxRetries: int, baseDelay: real)
    returns (result: Result<LLMResponse, LLMClientError>, calls: nat, delays: seq<real>)
    ensures RetryRun(result, calls, delays) == Retry(respond, jitter, maxRetries, baseDelay, 0)
  {
    var lastException: Option<LLMClientError> := None;
    calls := 0;
    delays := [];
    var attempt: nat := 0;
    while attempt < maxRetries + 1
      invariant lastException.Some? ==> attempt <= maxRetries
      invariant attempt == calls
      invariant Retry(respond, jitter, maxRetries, baseDelay, 0).result
             == Retry(respond, jitter, maxRetries, baseDelay, attempt).result
      invariant Retry(respond, jitter, maxRetries, baseDelay, 0).calls
             == calls + Retry(respond, jitter, maxRetries, baseDelay, attempt).calls
      invariant Retry(respond, jitter, maxRetries, baseDelay, 0).delays
             == delays + Retry(respond, jitter, maxRetries, baseDelay, attempt).delays
      decreases maxRetries + 1 - attempt
    {
      var outcome := respond(attempt);
      calls := calls + 1;
      match outcome {
        case Responded(resp) =>
          return Ok(resp), calls, delays;
        case RaisedOther(text) =>
          return Err(UnexpectedError(text)), calls, delays;
        case RaisedClientError(e) =>
          if !Transient(e.kind) {
            return Err(UnexpectedError(ErrorText(e))), calls, delays;
          }
          lastException := Some(e);
          if attempt < maxRetries {
            delays := delays + [Delay(e.kind, attempt, baseDelay, jitter)];
            attempt := attempt + 1;
          } else {
            return Err(e), calls, delays;
          }
      }
    }
    result := match lastException
      case Some(e) => Err(e)
      case None => Err(MaxRetriesExceeded());
  }

  /** When `maxRetries >= 0` the loop makes between one and
      `maxRetries + 1` calls and sleeps once between consecutive calls. */
  lemma {:induction false} RetryCallBounds(respond: nat -> CallOutcome, jitter: nat -> real,
                                           maxRetries: int, baseDelay: real, attempt: nat)
    requires attempt <= maxRetries
    ensures 1 <= Retry(respond, jitter, maxRetries, baseDelay, attempt).calls <= maxRetries + 1 - attempt
    ensures |Retry(respond, jitter, maxRetries, baseDelay, attempt).delays|
         == Retry(respond, jitter, maxRetries, baseDelay, attempt).calls - 1
    decreases maxRetries - attempt
  {
    var o := respond(attempt);
    if o.RaisedClientError? && Transient(o.error.kind) && attempt < maxRetries {
      RetryCallBounds(respond, jitter, maxRetries, baseDelay, attempt + 1);
    }
  }

  /** Every call before the last raised a retryable error and was followed
      by its back-off delay. */
  lemma {:induction false} RetryEarlierCalls(respond: nat -> CallOutcome, jitter: nat -> real,
                                             maxRetries: int, baseDelay: real, attempt: nat, k: nat)
    requires attempt <= maxRetries
    requires k + 1 < Retry(respond, jitter, maxRetries, baseDelay, attempt).calls
    ensures respond(attempt + k).RaisedClientError? && Transient(respond(attempt + k).error.kind)
    ensures k < |Retry(respond, jitter, maxRetries, baseDelay, attempt).delays|
    ensures Retry(respond, jitter, maxRetries, baseDelay, attempt).delays[k]
         == Delay(respond(attempt + k).error.kind, attempt + k, baseDelay, jitter)
    decreases maxRetries - attempt
  {
    RetryCallBounds(respond, jitter, maxRetries, baseDelay, attempt);
    var o := respond(attempt);
    if k > 0 {
      assert o.RaisedClientError? && Transient(o.error.kind) && attempt < maxRetries;
      RetryEarlierCalls(respond, jitter, maxRetries, baseDelay, attempt + 1, k - 1);
      assert attempt + k == (attempt + 1) + (k - 1);
    }
  }

  /** How the outcome of the last call determines the result of the loop;
      `final` says whether that call was the last permitted attempt. */
  predicate LastCallDecides(last: CallOutcome, result: Result<LLMResponse, LLMClientError>, final: bool) {
    match last
    case Responded(resp) => result == Ok(resp)
    case RaisedOther(text) => result == Err(UnexpectedError(text))
    case RaisedClientError(e) =>
      if Transient(e.kind) then result == Err(e) && final
      else result == Err(UnexpectedError(ErrorText(e)))
  }

  /** The last call decides the result: a response is returned, a retryable
      error is re-raised only on the last permitted attempt, and anything else
      is wrapped as an unexpected error. */
  lemma {:induction false} RetryLastCall(respond: nat -> CallOutcome, jitter: nat -> real,
                                         maxRetries: int, baseDelay: real, attempt: nat)
    requires attempt <= maxRetries
    ensures Retry(respond, jitter, maxRetries, baseDelay, attempt).calls >= 1
    ensures LastCallDecides(respond(attempt + Retry(respond, jitter, maxRetries, baseDelay, attempt).calls - 1),
                            Retry(respond, jitter, maxRetries, baseDelay, attempt).result,
                            attempt + Retry(respond, jitter, maxRetries, baseDelay, attempt).calls - 1 == maxRetries)
    decreases maxRetries - attempt
  {
    var o := respond(attempt);
    if o.RaisedClientError? && Transient(o.error.kind) && attempt < maxRetries {
      RetryLastCall(respond, jitter, maxRetries, baseDelay, attempt + 1);
      RetryContinues(respond, jitter, maxRetries, baseDelay, attempt);
      var rest := Retry(respond, jitter, maxRetries, baseDelay, attempt + 1);
      assert attempt + (rest.calls + 1) - 1 == (attempt + 1) + rest.calls - 1;
    } else {
      RetryStops(respond, jitter, maxRetries, baseDelay, attempt);
    }
  }

  /** A retryable error before the last permitted attempt: one call more
      than the rest of the loop, with the rest's result. */
  lemma RetryContinues(respond: nat -> CallOutcome, jitter: nat -> real,
                       maxRetries: int, baseDelay: real, attempt: nat)
    requires respond(attempt).RaisedClientError? && Transient(respond(attempt).error.kind) && attempt < maxRetries
    ensures var run := Retry(respond, jitter, maxRetries, baseDelay, attempt);
      var rest := Retry(respond, jitter, maxRetries, baseDelay, attempt + 1);
      run.result == rest.result && run.calls == rest.calls + 1
  {
  }

  /** Any other outcome of a permitted attempt ends the loop with that one
      call. */
  lemma RetryStops(respond: nat -> CallOutcome, jitter: nat -> real,
                   maxRetries: int, baseDelay: real, attempt: nat)
    requires attempt <= maxRetries
    requires !(respond(attempt).RaisedClientError? && Transient(respond(attempt).error.kind) && attempt < maxRetries)
    ensures var run := Retry(respond, jitter, maxRetries, baseDelay, attempt);
      run.calls == 1 && LastCallDecides(respond(attempt), run.result, attempt == maxRetries)
  {
  }

  /** A first call that succeeds returns at once after exactly one call. */
  lemma FirstCallSucceeds(respond: nat -> CallOutcome, jitter: nat -> real, maxRetries: int, baseDelay: real)
    requires maxRetries >= 0 && respond(0).Responded?
    ensures Retry(respond, jitter, maxRetries, baseDelay, 0) == RetryRun(Ok(respond(0).response), 1, [])
  {
  }

  /** A provider that keeps raising retryable errors is called exactly
      `maxRetries + 1` times, and the last error is re-raised unchanged. */
  lemma {:induction false} PersistentTransientError(respond: nat -> CallOutcome, jitter: nat -> real,
                                                    maxRetries: int, baseDelay: real, attempt: nat)
    requires attempt <= maxRetries
    requires forall k :: respond(k).RaisedClientError? && Transient(respond(k).error.kind)
    ensures Retry(respond, jitter, maxRetries, baseDelay, attempt).calls == maxRetries + 1 - attempt
    ensures Retry(respond, jitter, maxRetries, baseDelay, attempt).result == Err(respond(maxRetries).error)
    decreases maxRetries - attempt
  {
    if attempt < maxRetries {
      PersistentTransientError(respond, jitter, maxRetries, baseDelay, attempt + 1);
    }
  }

  /** With a negative retry budget no call is made at all. */
  lemma NoAttempts(respond: nat -> CallOutcome, jitter: nat -> real, maxRetries: int, baseDelay: real)
    requires maxRetries < 0
    ensures Retry(respond, jitter, maxRetries, baseDelay, 0) == RetryRun(Err(MaxRetriesExceeded()), 0, [])
  {
  }

  /** Rate-limit delays lie between the exponential back-off and one second
      more; other delays are exactly the exponential back-off. */
  lemma DelayBounds(kind: ErrorKind, attempt: nat, baseDelay: real, jitter: nat -> real)
    requires 0.0 <= jitter(attempt) <= 1.0
    ensures kind == RateLimit ==>
      baseDelay * Pow2(attempt) <= Delay(kind, attempt, baseDelay, jitter) <= baseDelay * Pow2(attempt) + 1.0
    ensures kind != RateLimit ==> Delay(kind, attempt, baseDelay, jitter) == baseDelay * Pow2(attempt)
  {
  }

  /** The concrete client classes. */
  datatype ClientKind = OpenAIClient | OllamaClient | LMStudioClient

  /** Whether the client supports structured output; only the OpenAI client does. */
  predicate SupportsStructuredOutput(c: ClientKind) {
    c == OpenAIClient
  }

  /** `create_llm_client`: dispatch on the provider string. */
  function CreateLlmClient(provider: string): (r: Result<ClientKind, string>)
    ensures r.Ok? <==> ParseProvider(provider).Some?
    ensures r.Err? ==> r.error == "Unsupported LLM provider: " + provider
  {
    if provider == "openai" then Ok(OpenAIClient)
    else if provider == "ollama" then Ok(OllamaClient)
    else if provider == "lmstudio" then Ok(LMStudioClient)
    else Err("Unsupported LLM provider: " + provider)
  }

  /** Every validated configuration yields the client of its provider. */
  lemma CreateLlmClientTotal(config: LLMConfig)
    ensures CreateLlmClient(ProviderName(config.provider)).Ok?
    ensures config.provider == OpenAI <==> CreateLlmClient(ProviderName(config.provider)) == Ok(OpenAIClient)
    ensures config.provider == Ollama <==> CreateLlmClient(ProviderName(config.provider)) == Ok(OllamaClient)
    ensures config.provider == LMStudio <==> CreateLlmClient(ProviderName(config.provider)) == Ok(LMStudioClient)
  {
  }
}
