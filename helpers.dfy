/** The provider-error classifier around every model call, and the handling of
    a completion that the output parser rejects.

    A call is not run: its outcome arrives as a `CallOutcome`, a value or the
    exception it raised. `OpenAIError` is the classified error the agent
    raises; the default of its `should_log` flag is defined elsewhere, so it is
    the parameter `defaultShouldLog` here, one value shared by every clause
    that does not set the flag. */
module Helpers {
  import opened Python

  /** The model settings of a request; only the caller-supplied key matters here. */
  datatype ModelSettings = ModelSettings(customApiKey: Option<string>)

  /** The exceptions a model call or a parser can raise. The four provider
      errors carry the provider's `user_message`. */
  datatype Exception =
    | ServiceUnavailableError(userMessage: string)
    | InvalidRequestError(userMessage: string)
    | AuthenticationError(userMessage: string)
    | RateLimitError(userMessage: string)
    | OutputParserException(detail: string)
    | OtherException(name: string, detail: string)

  /** The classified error: its cause, the message shown to the user, and
      whether the server should log it. */
  datatype OpenAIError = OpenAIError(cause: Exception, message: string, shouldLog: bool)

  /** What a call produced: its value, or the exception it raised. */
  datatype CallOutcome<T> = Completed(value: T) | Threw(exception: Exception)

  /** What a handler lets out: the value, a classified error, or the raw
      exception when nothing caught it. */
  datatype Handled<T> = Success(value: T) | Failure(error: OpenAIError) | Propagated(exception: Exception)

  const UnavailableMessage: string := "OpenAI is experiencing issues. Visit https://status.openai.com/ for more info."
  const ModelAccessMessage: string := "Your API key does not have access to your current model. Please use a different model."
  const AuthenticationMessage: string := "Authentication error: Ensure a valid API key is being used."
  const QuotaMessage: string := "Your API key exceeded your current quota, please check your plan and billing details."
  const UnexpectedMessage: string := "There was an unexpected issue getting a response from the AI model."
  const ParseFailureMessage: string := "There was an issue parsing the response from the AI model."

  const ModelAccessPrefix: string := "The model:"
  const QuotaPrefix: string := "You exceeded your current quota"

  /** `settings.custom_api_key` is truthy. */
  predicate HasCustomKey(settings: ModelSettings)
  {
    Truthy(settings.customApiKey)
  }

  // ---------------------------------------------------------------------------
  // The except clauses of `openai_error_handler`, in order

  datatype Clause = ServiceUnavailableClause | InvalidRequestClause | AuthenticationClause | RateLimitClause | AnyExceptionClause

  const Clauses: seq<Clause> := [ServiceUnavailableClause, InvalidRequestClause, AuthenticationClause, RateLimitClause, AnyExceptionClause]

  /** The clause's exception class matches `e`; `except Exception` matches all. */
  predicate Catches(c: Clause, e: Exception)
  {
    match c
    case ServiceUnavailableClause => e.ServiceUnavailableError?
    case InvalidRequestClause => e.InvalidRequestError?
    case AuthenticationClause => e.AuthenticationError?
    case RateLimitClause => e.RateLimitError?
    case AnyExceptionClause => true
  }

  /** Python's choice of `except` clause: the first, from `from` on, that
      matches. */
  function FirstCatching(cs: seq<Clause>, e: Exception, from: nat): (i: nat)
    requires from <= |cs| && exists k :: from <= k < |cs| && Catches(cs[k], e)
    ensures from <= i < |cs| && Catches(cs[i], e)
    ensures forall k :: from <= k < i ==> !Catches(cs[k], e)
    decreases |cs| - from
  {
    if Catches(cs[from], e) then from else FirstCatching(cs, e, from + 1)
  }

  /** The body of the matching clause. */
  function RunClause(c: Clause, e: Exception, settings: ModelSettings, defaultShouldLog: bool): OpenAIError
    requires Catches(c, e)
  {
    match c
    case ServiceUnavailableClause =>
      OpenAIError(e, UnavailableMessage, !HasCustomKey(settings))
    case InvalidRequestClause =>
      if StartsWith(e.userMessage, ModelAccessPrefix) then OpenAIError(e, ModelAccessMessage, !HasCustomKey(settings))
      else OpenAIError(e, e.userMessage, defaultShouldLog)
    case AuthenticationClause =>
      OpenAIError(e, AuthenticationMessage, !HasCustomKey(settings))
    case RateLimitClause =>
      if StartsWith(e.userMessage, QuotaPrefix) then OpenAIError(e, QuotaMessage, !HasCustomKey(settings))
      else OpenAIError(e, e.userMessage, defaultShouldLog)
    case AnyExceptionClause =>
      OpenAIError(e, UnexpectedMessage, defaultShouldLog)
  }

  /** The error `openai_error_handler` raises for the exception `e`. */
  function Classify(e: Exception, settings: ModelSettings, defaultShouldLog: bool): (r: OpenAIError)
    ensures r.cause == e
  {
    assert Catches(Clauses[4], e);
    var c := Clauses[FirstCatching(Clauses, e, 0)];
    RunClause(c, e, settings, defaultShouldLog)
  }

  /** `openai_error_handler(func, *args, settings=settings)`: a call that
      completes gives its value unchanged; every exception leaves as a
      classified error, never raw. */
  function ErrorHandler<A, T>(func: A -> CallOutcome<T>, args: A, settings: ModelSettings, defaultShouldLog: bool): (r: Handled<T>)
    ensures !r.Propagated?
    ensures r.Success? <==> func(args).Completed?
    ensures r.Success? ==> r.value == func(args).value
    ensures r.Failure? ==> r.error.cause == func(args).exception
    ensures r.Failure? ==> r.error == Classify(func(args).exception, settings, defaultShouldLog)
  {
    match func(args)
    case Completed(v) => Success(v)
    case Threw(e) => Failure(Classify(e, settings, defaultShouldLog))
  }

  /** `parse_with_handling(parser, completion)`: the parser's value, or for an
      `OutputParserException` the fixed parse-failure error; any other
      exception is not caught. */
  function ParseWithHandling<T>(parse: string -> CallOutcome<T>, completion: string, defaultShouldLog: bool): (r: Handled<T>)
    ensures r.Success? <==> parse(completion).Completed?
    ensures r.Success? ==> r.value == parse(completion).value
    ensures r.Failure? <==> parse(completion).Threw? && parse(completion).exception.OutputParserException?
    ensures r.Failure? ==> r.error == OpenAIError(parse(completion).exception, ParseFailureMessage, defaultShouldLog)
    ensures r.Propagated? ==> r.exception == parse(completion).exception
  {
    match parse(completion)
    case Completed(v) => Success(v)
    case Threw(e) =>
      if e.OutputParserException? then Failure(OpenAIError(e, ParseFailureMessage, defaultShouldLog))
      else Propagated(e)
  }

  // ---------------------------------------------------------------------------
  // The classification table

  lemma ServiceUnavailableCase(m: string, settings: ModelSettings, defaultShouldLog: bool)
    ensures Classify(ServiceUnavailableError(m), settings, defaultShouldLog)
      == OpenAIError(ServiceUnavailableError(m), UnavailableMessage, !HasCustomKey(settings))
  {
  }

  /** An invalid request about the model names the model-access problem;
      any other keeps the provider's message and the default flag. */
  lemma InvalidRequestCase(m: string, settings: ModelSettings, defaultShouldLog: bool)
    ensures StartsWith(m, ModelAccessPrefix) ==>
      Classify(InvalidRequestError(m), settings, defaultShouldLog) ==
        OpenAIError(InvalidRequestError(m), ModelAccessMessage, !HasCustomKey(settings))
    ensures !StartsWith(m, ModelAccessPrefix) ==>
      Classify(InvalidRequestError(m), settings, defaultShouldLog) ==
        OpenAIError(InvalidRequestError(m), m, defaultShouldLog)
  {
  }

  lemma AuthenticationCase(m: string, settings: ModelSettings, defaultShouldLog: bool)
    ensures Classify(AuthenticationError(m), settings, defaultShouldLog)
      == OpenAIError(AuthenticationError(m), AuthenticationMessage, !HasCustomKey(settings))
  {
  }

  /** An exceeded quota names the billing problem; any other rate limit keeps
      the provider's message and the default flag. */
  lemma RateLimitCase(m: string, settings: ModelSettings, defaultShouldLog: bool)
    ensures StartsWith(m, QuotaPrefix) ==>
      Classify(RateLimitError(m), settings, defaultShouldLog) ==
        OpenAIError(RateLimitError(m), QuotaMessage, !HasCustomKey(settings))
    ensures !StartsWith(m, QuotaPrefix) ==>
      Classify(RateLimitError(m), settings, defaultShouldLog) ==
        OpenAIError(RateLimitError(m), m, defaultShouldLog)
  {
  }

  /** Every exception that is not one of the four provider errors, a parser
      failure included, is an unexpected issue with the default flag. */
  lemma OtherExceptionCase(e: Exception, settings: ModelSettings, defaultShouldLog: bool)
    requires e.OutputParserException? || e.OtherException?
    ensures Classify(e, settings, defaultShouldLog) == OpenAIError(e, UnexpectedMessage, defaultShouldLog)
  {
  }

  /** The exceptions whose logging depends on the key in use: a provider
      outage, and the access, authentication and quota problems of the
      account behind the key. */
  predicate KeyDependentLogging(e: Exception)
  {
    || e.ServiceUnavailableError?
    || e.AuthenticationError?
    || (e.InvalidRequestError? && StartsWith(e.userMessage, ModelAccessPrefix))
    || (e.RateLimitError? && StartsWith(e.userMessage, QuotaPrefix))
  }

  /** The should-log rule: a key-dependent case is logged exactly when no
      custom key was used; everything else takes the one shared default. */
  lemma ShouldLogRule(e: Exception, settings: ModelSettings, defaultShouldLog: bool)
    ensures Classify(e, settings, defaultShouldLog).shouldLog
      == if KeyDependentLogging(e) then !HasCustomKey(settings) else defaultShouldLog
  {
  }

  /** The message never depends on the settings or on the default flag, and
      the whole classification depends on the settings only through the
      truthiness of the custom key (`None` and `""` behave alike). */
  lemma SettingsOnlyAffectLogging(e: Exception, s1: ModelSettings, s2: ModelSettings, d1: bool, d2: bool)
    ensures Classify(e, s1, d1).message == Classify(e, s2, d2).message
    ensures HasCustomKey(s1) == HasCustomKey(s2) ==> Classify(e, s1, d1) == Classify(e, s2, d1)
  {
  }

  /** The provider's own text reaches the user only for the two kinds that
      are split on it, and only when the fixed prefix is absent; otherwise
      the message is one of the fixed texts. */
  lemma MessageSource(e: Exception, settings: ModelSettings, defaultShouldLog: bool)
    ensures var r := Classify(e, settings, defaultShouldLog);
      if (e.InvalidRequestError? || e.RateLimitError?) && !KeyDependentLogging(e) then r.message == e.userMessage
      else r.message in {UnavailableMessage, ModelAccessMessage, AuthenticationMessage, QuotaMessage, UnexpectedMessage}
  {
  }
}
