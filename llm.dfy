/**
 * The language-model side of the weather route: the request `analyzeWeatherWithLLM` sends and
 * the way it turns what comes back into an answer, and the retry loop of the
 * `OpenRouterChatModel` client. The network call itself is a parameter: the response or error
 * of the single request, or the result of each attempt.
 */
module Llm {

  import opened Wrappers
  import opened Text
  import opened Js
  import opened Intent
  import opened Lookup
  import opened Context
  import opened Prompt
  import opened Fallback

  // ---------------------------------------------------------------- analyzeWeatherWithLLM

  /** The body of the chat-completion request. */
  datatype Request = Request(model: string, system: string, user: string, temperature: real, maxTokens: nat)

  const AnalysisModel: string := "google/gemini-2.0-flash-exp:free"

  /**
   * What the single request of `analyzeWeatherWithLLM` comes back with: a response with its
   * `data`, or an error with its `code` and its `response` (`undefined` when there is none).
   */
  datatype ApiOutcome =
    | Response(data: Value)
    | Failure(code: Value, response: Value)

  const TimeoutMessage: string := "I apologize, but the request timed out. Please try again."
  const GatewayMessage: string := "The server took too long to respond. Please try again."

  /**
   * `choices[0].message.content` when it is a string, read the way the source reads it: a
   * missing first choice or message throws, and so does a content that is not a string (it has
   * no `substring`). `None` stands for every such throw.
   */
  function ContentOf(choice: Value): (r: Option<string>)
    ensures r.Some? <==> Prop(choice, "message").Some? && Prop(Prop(choice, "message").value, "content").Some?
                         && Prop(Prop(choice, "message").value, "content").value.Str?
    ensures r.Some? ==> Prop(Prop(choice, "message").value, "content") == Some(Str(r.value))
  {
    match Prop(choice, "message")
    case None => None
    case Some(message) =>
      match Prop(message, "content")
      case Some(Str(s)) => Some(s)
      case _ => None
  }

  /**
   * The answer a `choices` value gives: `!choices || !choices.length` leads to the fallback, and
   * so does every throw while reading the first choice.
   */
  function ChoiceAnswer(choices: Value): (r: Option<string>)
    ensures r.Some? ==> Truthy(choices)
    ensures choices.Arr? ==> r == if |choices.elems| == 0 then None else ContentOf(choices.elems[0])
  {
    if !Truthy(choices) then None
    else
      match choices
      case Arr(es) => if |es| == 0 then None else ContentOf(es[0])
      case Obj(_) =>
        if Truthy(Field(choices, "length")) then ContentOf(Field(choices, "0")) else None
      case _ =>
        // A non-empty string has a length, but its first character has no `message`;
        // numbers and booleans have no length.
        None
  }

  /** The answer for what the request came back with, given the fallback answer. */
  function OutcomeAnswer(o: ApiOutcome, fallback: string): (r: string)
    ensures o.Failure? && o.code == Str("ECONNABORTED") ==> r == TimeoutMessage
    ensures o.Failure? && o.code != Str("ECONNABORTED") && Prop(o.response, "status") == Some(Num(Number(504.0, "504")))
            ==> r == GatewayMessage
  {
    match o
    case Response(data) =>
      if !Truthy(data) then fallback
      else
        (match ChoiceAnswer(Field(data, "choices"))
         case Some(answer) => answer
         case None => fallback)
    case Failure(code, response) =>
      if code == Str("ECONNABORTED") then TimeoutMessage
      else if Is504(Prop(response, "status")) then GatewayMessage
      else fallback
  }

  /** `error.response?.status === 504`. */
  predicate Is504(status: Option<Value>)
  {
    status.Some? && status.value.Num? && status.value.n.value == 504.0
  }

  /**
   * The request `analyzeWeatherWithLLM` sends, as written: `max_tokens` is 800 whatever the
   * intent.
   */
  function RequestAsWritten(intent: Intent, d: Extract, userPrompt: string): (r: Request)
    ensures r.maxTokens == 800
  {
    Request(AnalysisModel, CreateSystemPromptForIntent(intent, d), userPrompt, 0.7, 800)
  }

  /** The request with the token budget of `getMaxTokensForIntent`, which the route never calls. */
  function AnalysisRequest(intent: Intent, d: Extract, userPrompt: string): (r: Request)
    ensures r.maxTokens == MaxTokensForIntent(intent)
  {
    Request(AnalysisModel, CreateSystemPromptForIntent(intent, d), userPrompt, 0.7, MaxTokensForIntent(intent))
  }

  /** Only explanations get the 800 tokens the source asks for every time. */
  lemma TokenBudgetIgnored(intent: Intent, d: Extract, userPrompt: string)
    ensures RequestAsWritten(intent, d, userPrompt).maxTokens == AnalysisRequest(intent, d, userPrompt).maxTokens
            <==> intent == Explanation
    ensures AnalysisRequest(CurrentConditions, d, userPrompt).maxTokens == 300
  {
  }

  /** The two requests differ in the token budget and nothing else. */
  lemma OnlyTokenBudgetDiffers(intent: Intent, d: Extract, userPrompt: string)
    ensures AnalysisRequest(intent, d, userPrompt).(maxTokens := 800) == RequestAsWritten(intent, d, userPrompt)
  {
    var system := CreateSystemPromptForIntent(intent, d);
    assert AnalysisRequest(intent, d, userPrompt) == Request(AnalysisModel, system, userPrompt, 0.7, MaxTokensForIntent(intent));
    assert RequestAsWritten(intent, d, userPrompt) == Request(AnalysisModel, system, userPrompt, 0.7, 800);
  }

  /** What `analyzeWeatherWithLLM` works out before it builds the request. */
  datatype Prepared = Prepared(intent: Intent, data: Extract)

  /**
   * The steps of `analyzeWeatherWithLLM` before the request: the intent (a question that is
   * not a string throws at `toLowerCase`) and the extract for it.
   */
  function Prepare(question: Value, w: Report): (r: Result<Prepared, string>)
    ensures r.Ok? <==> question.Str? && ExtractRelevantWeatherData(w, IdentifyQuestionIntent(question.s)).Ok?
    ensures r.Ok? ==> r.value.intent == IdentifyQuestionIntent(question.s)
  {
    if !question.Str? then Err("TypeError: question.toLowerCase is not a function")
    else
      var intent := IdentifyQuestionIntent(question.s);
      match ExtractRelevantWeatherData(w, intent)
      case Err(e) => Err(e)
      case Ok(data) => Ok(Prepared(intent, data))
  }

  /**
   * The request `analyzeWeatherWithLLM` sends for a prepared question: the system prompt of the
   * intent, a user prompt that carries the history, the place, the question and the weather
   * block, and 800 tokens whatever the intent.
   */
  function RequestFor(question: Value, place: Place, history: seq<Turn>, p: Prepared): (r: Request)
    ensures r.maxTokens == 800
    ensures r.system == CreateSystemPromptForIntent(p.intent, p.data)
  {
    RequestAsWritten(p.intent, p.data, UserPrompt(history, place, question, PromptText(p.data, p.intent)))
  }

  /** The same request with the token budget of the intent. */
  function RequestForCorrected(question: Value, place: Place, history: seq<Turn>, p: Prepared): (r: Request)
    ensures r.maxTokens == MaxTokensForIntent(p.intent)
    ensures r.(maxTokens := 800) == RequestFor(question, place, history, p)
  {
    var user := UserPrompt(history, place, question, PromptText(p.data, p.intent));
    OnlyTokenBudgetDiffers(p.intent, p.data, user);
    assert RequestFor(question, place, history, p) == RequestAsWritten(p.intent, p.data, user);
    AnalysisRequest(p.intent, p.data, user)
  }

  /** The user prompt of the request quotes the question and ends with the weather block. */
  lemma RequestCarriesQuestionAndBlock(question: Value, place: Place, history: seq<Turn>, p: Prepared)
    ensures Contains(RequestFor(question, place, history, p).user, QuestionLine(question))
    ensures var user := RequestFor(question, place, history, p).user;
      var block := PromptText(p.data, p.intent);
      |block| <= |user| && user[|user| - |block|..] == block
  {
    UserPromptCarriesQuestionAndBlock(history, place, question, PromptText(p.data, p.intent));
  }

  /**
   * `analyzeWeatherWithLLM(question, location, weatherData, chatHistory)`, where `o` is what
   * the API does with `RequestFor(question, location, chatHistory, ...)`.
   */
  function AnalyzeWeatherWithLlm(question: Value, w: Report, o: ApiOutcome): (r: Result<string, string>)
    ensures r.Ok? <==> Prepare(question, w).Ok?
  {
    match Prepare(question, w)
    case Err(e) => Err(e)
    case Ok(p) => Ok(OutcomeAnswer(o, FallbackAnswer(p.data, p.intent)))
  }

  /**
   * Nothing the API does makes the analysis fail: once the question is prepared, the answer is
   * the model's text, one of the two timeout messages, or the fallback answer.
   */
  lemma RequestNeverFails(question: Value, w: Report, o1: ApiOutcome, o2: ApiOutcome)
    ensures AnalyzeWeatherWithLlm(question, w, o1).Ok? <==> AnalyzeWeatherWithLlm(question, w, o2).Ok?
    ensures var r := AnalyzeWeatherWithLlm(question, w, o1);
      r.Ok? ==>
        var p := Prepare(question, w).value;
        r.value in {TimeoutMessage, GatewayMessage, FallbackAnswer(p.data, p.intent)}
        || (o1.Response? && Truthy(o1.data) && ChoiceAnswer(Field(o1.data, "choices")) == Some(r.value))
  {
  }

  /**
   * A response whose first choice has a string content is the answer; any other response
   * (no data, no choices, an empty list, a malformed choice) gives the fallback answer.
   */
  lemma ResponseAnswers(data: Value, fallback: string)
    ensures Truthy(data) && ChoiceAnswer(Field(data, "choices")).Some? ==>
      OutcomeAnswer(Response(data), fallback) == ChoiceAnswer(Field(data, "choices")).value
    ensures !Truthy(data) || ChoiceAnswer(Field(data, "choices")).None? ==>
      OutcomeAnswer(Response(data), fallback) == fallback
    ensures Truthy(data) && Field(data, "choices") == Arr([]) ==> OutcomeAnswer(Response(data), fallback) == fallback
  {
  }

  /**
   * An error never gives the model's text: it ends as one of the two timeout messages or as the
   * fallback answer. The timeout code wins over a 504 status; the gateway message needs a 504
   * status; an error without a response (a network failure) gives the fallback answer.
   */
  lemma FailureAnswers(code: Value, response: Value, fallback: string)
    ensures OutcomeAnswer(Failure(code, response), fallback) in {TimeoutMessage, GatewayMessage, fallback}
    ensures code == Str("ECONNABORTED") && Is504(Prop(response, "status")) ==>
      OutcomeAnswer(Failure(code, response), fallback) == TimeoutMessage
    ensures OutcomeAnswer(Failure(code, response), fallback) == GatewayMessage && fallback != GatewayMessage ==>
      code != Str("ECONNABORTED") && Is504(Prop(response, "status"))
    ensures code != Str("ECONNABORTED") && (response.Undefined? || response.Null?) ==>
      OutcomeAnswer(Failure(code, response), fallback) == fallback
  {
  }

  // ---------------------------------------------------------------- OpenRouterChatModel

  /** What one attempt of `invoke` gives: the content of the first choice, or the error thrown. */
  datatype CallResult = Answered(content: Value) | Threw(error: string)

  /** What `invoke` settles with. */
  datatype InvokeResult = Returned(content: Value) | Raised(error: string)

  const DefaultError: string := "Failed to communicate with OpenRouter API"

  function Pow2(n: nat): (r: nat)
    ensures r >= 1
  {
    if n == 0 then 1 else 2 * Pow2(n - 1)
  }

  /** The wait after a failed attempt, in milliseconds: `Math.pow(2, attempt) * 1000`. */
  function Backoff(attempt: nat): nat
  {
    Pow2(attempt) * 1000
  }

  /** The first wait is one second, and each wait is twice the one before. */
  lemma BackoffDoubles(attempt: nat)
    ensures Backoff(0) == 1000
    ensures Backoff(attempt + 1) == 2 * Backoff(attempt)
  {
  }

  /** How many attempts `for (attempt = 0; attempt <= retries; attempt++)` makes. */
  function AttemptCount(retries: real): (n: nat)
    ensures retries < 0.0 ==> n == 0
    ensures retries >= 0.0 ==> (n - 1) as real <= retries < n as real
  {
    if retries < 0.0 then 0 else retries.Floor + 1
  }

  /**
   * The attempts from `attempt` on, the error of the last failed one in `lastError`: the result
   * and the waits made on the way.
   */
  function Run(retries: real, outcomes: seq<CallResult>, attempt: nat, lastError: Option<string>)
    : (InvokeResult, seq<nat>)
    requires |outcomes| >= AttemptCount(retries)
    decreases AttemptCount(retries) - attempt
  {
    if attempt >= AttemptCount(retries) then
      (Raised(if lastError.Some? then lastError.value else DefaultError), [])
    else
      match outcomes[attempt]
      case Answered(c) => (Returned(c), [])
      case Threw(e) =>
        var wait := if (attempt as real) < retries then [Backoff(attempt)] else [];
        var rest := Run(retries, outcomes, attempt + 1, Some(e));
        (rest.0, wait + rest.1)
  }

  /** One failed attempt: its wait, then the attempts after it with its error. */
  lemma RunStep(retries: real, outcomes: seq<CallResult>, attempt: nat, lastError: Option<string>)
    requires |outcomes| >= AttemptCount(retries)
    requires attempt < AttemptCount(retries) && outcomes[attempt].Threw?
    ensures var rest := Run(retries, outcomes, attempt + 1, Some(outcomes[attempt].error));
      Run(retries, outcomes, attempt, lastError)
        == (rest.0, (if (attempt as real) < retries then [Backoff(attempt)] else []) + rest.1)
  {
  }

  /** The waits after the failed attempts `from` to `to - 1`: one after each but the last. */
  function Waits(retries: real, from: nat, to: nat): seq<nat>
    decreases to - from
  {
    if from >= to then []
    else (if (from as real) < retries then [Backoff(from)] else []) + Waits(retries, from + 1, to)
  }

  /** Failed attempts from `a` to `k - 1` wait as `Waits` says and hand on the last error. */
  lemma {:induction false} RunThrough(retries: real, outcomes: seq<CallResult>, a: nat, k: nat, last: Option<string>)
    requires |outcomes| >= AttemptCount(retries)
    requires a <= k <= AttemptCount(retries)
    requires forall i :: a <= i < k ==> outcomes[i].Threw?
    ensures var l := if k > a then Some(outcomes[k - 1].error) else last;
      Run(retries, outcomes, a, last) == (Run(retries, outcomes, k, l).0, Waits(retries, a, k) + Run(retries, outcomes, k, l).1)
    decreases k - a
  {
    if a < k {
      RunThrough(retries, outcomes, a + 1, k, Some(outcomes[a].error));
      var l := if k > a + 1 then Some(outcomes[k - 1].error) else Some(outcomes[a].error);
      assert l == Some(outcomes[k - 1].error);
      var wait := if (a as real) < retries then [Backoff(a)] else [];
      assert wait + (Waits(retries, a + 1, k) + Run(retries, outcomes, k, l).1)
          == (wait + Waits(retries, a + 1, k)) + Run(retries, outcomes, k, l).1;
    } else {
      assert Waits(retries, a, k) == [];
      assert Run(retries, outcomes, a, last).1 == [] + Run(retries, outcomes, a, last).1;
    }
  }

  /** Below the retry count every failed attempt waits, twice as long as the one before. */
  lemma {:induction false} WaitsDoubling(retries: real, from: nat, to: nat)
    requires from <= to && to as real <= retries
    ensures Waits(retries, from, to) == seq(to - from, i requires 0 <= i < to - from => Backoff(from + i))
    decreases (to as int) - from
  {
    if from < to {
      WaitsDoubling(retries, from + 1, to);
    }
  }

  /** Appending one more failed attempt appends its wait, if it waits. */
  lemma {:induction false} WaitsSnoc(retries: real, from: nat, to: nat)
    requires from <= to
    ensures Waits(retries, from, to + 1) == Waits(retries, from, to) + (if (to as real) < retries then [Backoff(to)] else [])
    decreases (to as int) - from
  {
    if from < to {
      WaitsSnoc(retries, from + 1, to);
      var w := if (from as real) < retries then [Backoff(from)] else [];
      var last := if (to as real) < retries then [Backoff(to)] else [];
      assert w + (Waits(retries, from + 1, to) + last) == (w + Waits(retries, from + 1, to)) + last;
    } else {
      assert Waits(retries, to + 1, to + 1) == [];
    }
  }

  /**
   * When every attempt fails, a whole-number retry count `n` gives `n` waits, 1 s, 2 s, 4 s, ...,
   * with none after the last attempt; a fractional count also waits after the last attempt.
   */
  lemma WaitsCount(retries: real)
    requires retries >= 0.0
    ensures var n := AttemptCount(retries);
      var m := if retries == retries.Floor as real then n - 1 else n;
      Waits(retries, 0, n) == seq(m, i requires 0 <= i < m => Backoff(i))
  {
    var n := AttemptCount(retries);
    WaitsDoubling(retries, 0, n - 1);
    WaitsSnoc(retries, 0, n - 1);
    var front := seq(n - 1, i requires 0 <= i < n - 1 => Backoff(i));
    assert Waits(retries, 0, n - 1) == front;
    if retries == retries.Floor as real {
      assert !((n - 1) as real < retries);
      assert Waits(retries, 0, n) == front + [];
    } else {
      assert (n - 1) as real < retries;
      assert front + [Backoff(n - 1)] == seq(n, i requires 0 <= i < n => Backoff(i));
    }
  }

  /**
   * The first attempt that answers settles `invoke` with its content, after one doubling wait
   * (1 s, 2 s, 4 s, ...) per failed attempt before it.
   */
  lemma FirstAnswerWins(retries: real, outcomes: seq<CallResult>, k: nat)
    requires |outcomes| >= AttemptCount(retries)
    requires k < AttemptCount(retries) && outcomes[k].Answered?
    requires forall i :: 0 <= i < k ==> outcomes[i].Threw?
    ensures Run(retries, outcomes, 0, None)
      == (Returned(outcomes[k].content), seq(k, i requires 0 <= i < k => Backoff(i)))
  {
    RunThrough(retries, outcomes, 0, k, None);
    WaitsDoubling(retries, 0, k);
    var l := if k > 0 then Some(outcomes[k - 1].error) else None;
    assert Run(retries, outcomes, k, l) == (Returned(outcomes[k].content), []);
    assert Waits(retries, 0, k) + [] == Waits(retries, 0, k);
    assert seq(k - 0, i requires 0 <= i < k - 0 => Backoff(0 + i)) == seq(k, i requires 0 <= i < k => Backoff(i));
  }

  /**
   * When every attempt throws, `invoke` rejects with the last error, or with "Failed to
   * communicate with OpenRouter API" when the retry count is negative and no attempt is made.
   */
  lemma AllAttemptsFail(retries: real, outcomes: seq<CallResult>)
    requires |outcomes| >= AttemptCount(retries)
    requires forall i :: 0 <= i < AttemptCount(retries) ==> outcomes[i].Threw?
    ensures var n := AttemptCount(retries);
      Run(retries, outcomes, 0, None) ==
        (Raised(if n > 0 then outcomes[n - 1].error else DefaultError), Waits(retries, 0, n))
    ensures retries < 0.0 ==> Run(retries, outcomes, 0, None) == (Raised(DefaultError), [])
  {
    var n := AttemptCount(retries);
    RunThrough(retries, outcomes, 0, n, None);
    var l := if n > 0 then Some(outcomes[n - 1].error) else None;
    assert Run(retries, outcomes, n, l) == (Raised(if n > 0 then outcomes[n - 1].error else DefaultError), []);
    assert Waits(retries, 0, n) + [] == Waits(retries, 0, n);
  }

  /** The configuration object passed to the client; `None` is an absent property. */
  datatype ModelConfig = ModelConfig(
    apiKey: Value,
    modelName: Option<string>,
    temperature: Option<Number>,
    maxTokens: Option<Number>,
    baseUrl: Option<string>,
    httpRetries: Option<Number>)

  /** `value || fallback` for a string property. */
  function OrString(o: Option<string>, fallback: string): (r: string)
    ensures o.Some? && o.value != "" ==> r == o.value
    ensures o.None? || o.value == "" ==> r == fallback
  {
    if o.Some? && o.value != "" then o.value else fallback
  }

  /** `value || fallback` for a number property. */
  function OrNumber(o: Option<Number>, fallback: Number): (r: Number)
    ensures o.Some? && o.value.value != 0.0 ==> r == o.value
    ensures o.None? || o.value.value == 0.0 ==> r == fallback
  {
    if o.Some? && o.value.value != 0.0 then o.value else fallback
  }

  class OpenRouterChatModel {
    var apiKey: Value
    var modelName: string
    var temperature: Number
    var maxTokens: Number
    var baseUrl: string
    var httpRetries: Number

    /** The constructor: every option falls back to its default when absent or falsy. */
    constructor(config: ModelConfig)
      ensures apiKey == config.apiKey
      ensures modelName == OrString(config.modelName, "google/gemini-2.0-pro-exp-02-05:free")
      ensures temperature == OrNumber(config.temperature, Number(0.7, "0.7"))
      ensures maxTokens == OrNumber(config.maxTokens, Number(500.0, "500"))
      ensures baseUrl == OrString(config.baseUrl, "https://openrouter.ai/api/v1/chat/completions")
      ensures httpRetries == OrNumber(config.httpRetries, Number(2.0, "2"))
    {
      apiKey := config.apiKey;
      modelName := OrString(config.modelName, "google/gemini-2.0-pro-exp-02-05:free");
      temperature := OrNumber(config.temperature, Number(0.7, "0.7"));
      maxTokens := OrNumber(config.maxTokens, Number(500.0, "500"));
      baseUrl := OrString(config.baseUrl, "https://openrouter.ai/api/v1/chat/completions");
      httpRetries := OrNumber(config.httpRetries, Number(2.0, "2"));
    }

    /**
     * `invoke(messages)`: attempt after attempt until one answers, waiting after each failed
     * attempt but the last; `outcomes[i]` is what attempt `i` gives. Returns the result and
     * the waits made, in milliseconds.
     */
    method Invoke(outcomes: seq<CallResult>) returns (r: InvokeResult, delays: seq<nat>)
      requires |outcomes| >= AttemptCount(httpRetries.value)
      ensures (r, delays) == Run(httpRetries.value, outcomes, 0, None)
    {
      var retries := httpRetries.value;
      var lastError: Option<string> := None;
      var attempt: nat := 0;
      delays := [];
      assert delays + Run(retries, outcomes, 0, None).1 == Run(retries, outcomes, 0, None).1;
      while attempt as real <= retries
        invariant attempt <= AttemptCount(retries)
        invariant Run(retries, outcomes, 0, None)
          == (Run(retries, outcomes, attempt, lastError).0, delays + Run(retries, outcomes, attempt, lastError).1)
        decreases AttemptCount(retries) - attempt
      {
        match outcomes[attempt] {
          case Answered(c) =>
            assert Run(retries, outcomes, attempt, lastError) == (Returned(c), []);
            assert delays + [] == delays;
            r := Returned(c);
            return;
          case Threw(e) =>
            ghost var wait := if (attempt as real) < retries then [Backoff(attempt)] else [];
            ghost var rest := Run(retries, outcomes, attempt + 1, Some(e));
            RunStep(retries, outcomes, attempt, lastError);
            ghost var before := delays;
            lastError := Some(e);
            if (attempt as real) < retries {
              delays := delays + [Backoff(attempt)];
            }
            assert delays == before + wait;
            assert before + (wait + rest.1) == delays + rest.1;
        }
        attempt := attempt + 1;
      }
      assert Run(retries, outcomes, attempt, lastError).1 == [];
      assert delays + [] == delays;
      r := Raised(if lastError.Some? then lastError.value else DefaultError);
    }
  }

  /** With the default configuration `invoke` makes three attempts, waiting 1 s and then 2 s. */
  lemma DefaultRetries(outcomes: seq<CallResult>)
    requires |outcomes| >= 3
    requires forall i :: 0 <= i < 3 ==> outcomes[i].Threw?
    ensures AttemptCount(OrNumber(None, Number(2.0, "2")).value) == 3
    ensures Run(2.0, outcomes, 0, None) == (Raised(outcomes[2].error), [1000, 2000])
  {
    AllAttemptsFail(2.0, outcomes);
    assert Waits(2.0, 3, 3) == [];
    assert Waits(2.0, 2, 3) == [] + Waits(2.0, 3, 3) == [];
    assert Pow2(1) == 2;
    assert Waits(2.0, 1, 3) == [Backoff(1)] + Waits(2.0, 2, 3) == [2000];
    assert Waits(2.0, 0, 3) == [Backoff(0)] + Waits(2.0, 1, 3) == [1000, 2000];
  }
}
