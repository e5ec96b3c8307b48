/**
 * The chat API handler: request validation, prompt assembly, and the
 * bounded retry loop around the language-model call with exponential
 * backoff. The provider is a function from attempt number to outcome and the
 * random jitter a function from attempt number to a real, so a run is a
 * function of its inputs.
 *
 * As written, the handler declares `responseText` twice: the successful
 * call assigns the inner one, the check after the loop reads the outer one,
 * which is still null. `Handle` models that; `HandleIntended` is the handler
 * with the answer returned, so that its last statement, the 200 with
 * `{response}`, is reached.
 */
module Chat {
  import opened Text
  import opened Retriever

  /**
   * `body.message` as parsed from JSON: absent, a string, or some other JSON
   * value (a number, a boolean, an object, an array) with its JavaScript
   * truthiness.
   */
  datatype MessageField = Absent | Text(text: string) | NonString(truthy: bool)

  /** The parts of the request the handler reads: the method and `body.message`. */
  datatype Request = Request(httpMethod: string, message: MessageField)

  /** The JSON body: `{message}` for errors, `{response}` for the answer. */
  datatype Body = MessageBody(message: string) | ResponseBody(response: string)

  datatype Response = Response(status: int, body: Body)

  /** What one provider call does: return the answer text, or throw an error that may carry a status. */
  datatype Outcome = Reply(text: string) | Failure(status: Option<int>)

  const MaxRetries: nat := 5
  const OverloadedStatus: int := 503

  const SystemPrompt: string := "You are a helpful AI assistant for Rudraksh Gupta's portfolio website. Your purpose is to provide information about Rudraksh Gupta based on the provided context. Be friendly and professional. If you don't know the answer, say, \"I am an AI assistant and do not have that information. Please contact Rudraksh directly.\""

  const MethodNotAllowed: Response := Response(405, MessageBody("Method Not Allowed"))
  const MessageRequired: Response := Response(400, MessageBody("Message is required."))
  const ProviderFailed: Response := Response(500, MessageBody("Failed to get a response from the AI."))
  const Overloaded: Response := Response(500, MessageBody("The model is currently overloaded. Please try again later."))

  // ---- validation ----

  /** `!message` fails exactly for a truthy value: a non-empty string, or a truthy non-string. */
  predicate IsTruthy(message: MessageField) {
    match message
    case Absent => false
    case Text(s) => s != ""
    case NonString(truthy) => truthy
  }

  /** The early returns before the loop, or `None` when the request goes on to the provider. */
  function Rejection(req: Request): Option<Response> {
    if req.httpMethod != "POST" then Some(MethodNotAllowed)
    else if !IsTruthy(req.message) then Some(MessageRequired)
    else None
  }

  // ---- prompt ----

  const QuestionMarker: string := "\n\nUser Question: "

  /**
   * The template `${systemPrompt}\n\n${relevantContext}\n\nUser Question: ${message}`;
   * the handler fills in `SystemPrompt`.
   */
  function CombinedPrompt(system: string, context: string, message: string): string {
    system + "\n\n" + context + QuestionMarker + message
  }

  /**
   * The prompt can be taken apart again: the system prompt, then the
   * context (possibly empty) at a fixed offset, then the question marker and
   * the message at the end.
   */
  lemma CombinedPromptParts(system: string, context: string, message: string)
    ensures var p := CombinedPrompt(system, context, message);
      var n := |system| + 2;
      && |p| == n + |context| + |QuestionMarker| + |message|
      && StartsWith(p, system + "\n\n")
      && p[n..n + |context|] == context
      && p[n + |context|..] == QuestionMarker + message
  {
    var p := CombinedPrompt(system, context, message);
    var n := |system| + 2;
    assert p == (system + "\n\n") + context + (QuestionMarker + message);
  }

  // ---- backoff ----

  function Pow2(n: nat): (r: nat)
    ensures r >= 1
  {
    if n == 0 then 1 else 2 * Pow2(n - 1)
  }

  /** `Math.pow(2, attempt) * 1000`: the backoff before the jitter is added. */
  function BaseDelay(attempt: nat): nat {
    Pow2(attempt) * 1000
  }

  /** The four possible waits start at one second and double. */
  lemma BaseDelayValues()
    ensures BaseDelay(0) == 1000 && BaseDelay(1) == 2000 && BaseDelay(2) == 4000 && BaseDelay(3) == 8000
    ensures forall k: nat :: BaseDelay(k + 1) == 2 * BaseDelay(k)
  {
  }

  /** `Math.pow(2, attempt) * 1000 + Math.random() * 1000`, with the random part given by `jitter`. */
  function Delay(jitter: nat -> real, attempt: nat): real {
    BaseDelay(attempt) as real + jitter(attempt)
  }

  /** The waits before the first `n` retries, in order. */
  function Delays(jitter: nat -> real, n: nat): (r: seq<real>)
    ensures |r| == n
    ensures forall k :: 0 <= k < n ==> r[k] == Delay(jitter, k)
  {
    if n == 0 then [] else Delays(jitter, n - 1) + [Delay(jitter, n - 1)]
  }

  // ---- the retry loop as a value ----

  /** How the `while` loop ends: `break` after a reply, `return` on a failure, or its guard turning false. */
  datatype LoopExit = Broke(text: string) | Failed | Exhausted

  /** How the loop ends and how many provider calls it made. */
  datatype RetryRun = RetryRun(exit: LoopExit, calls: nat)

  predicate IsOverloaded(o: Outcome) {
    o == Failure(Some(OverloadedStatus))
  }

  /** The loop from `attempt` on: retry only on 503 while `attempt < maxRetries - 1`. */
  function Run(provider: nat -> Outcome, attempt: nat): RetryRun
    decreases MaxRetries - attempt
  {
    if attempt >= MaxRetries then RetryRun(Exhausted, attempt)
    else
      match provider(attempt)
      case Reply(text) => RetryRun(Broke(text), attempt + 1)
      case Failure(status) =>
        if status == Some(OverloadedStatus) && attempt < MaxRetries - 1 then Run(provider, attempt + 1)
        else RetryRun(Failed, attempt + 1)
  }

  /**
   * From any attempt below the bound the loop ends by `break` or `return`,
   * never by its guard; it makes between one and five calls; every call
   * before the last was answered with 503; the last call's outcome is the
   * reply it breaks with, or a failure that is not 503 or came on the fifth
   * call.
   */
  lemma {:induction false} RunSpec(provider: nat -> Outcome, attempt: nat)
    requires attempt < MaxRetries
    ensures var r := Run(provider, attempt);
      && attempt < r.calls <= MaxRetries
      && !r.exit.Exhausted?
      && (forall k :: attempt <= k < r.calls - 1 ==> IsOverloaded(provider(k)))
      && (r.exit.Broke? ==> provider(r.calls - 1) == Reply(r.exit.text))
      && (r.exit.Failed? ==> provider(r.calls - 1).Failure? &&
                             (!IsOverloaded(provider(r.calls - 1)) || r.calls == MaxRetries))
    decreases MaxRetries - attempt
  {
    match provider(attempt)
    case Reply(_) =>
    case Failure(status) =>
      if status == Some(OverloadedStatus) && attempt < MaxRetries - 1 {
        RunSpec(provider, attempt + 1);
      }
  }

  /**
   * The converse: a run of 503s followed by a reply, or by a failure that
   * ends the loop, determines the outcome and the number of calls.
   */
  lemma {:induction false} RunDetermined(provider: nat -> Outcome, attempt: nat, n: nat)
    requires attempt < n <= MaxRetries
    requires forall k :: attempt <= k < n - 1 ==> IsOverloaded(provider(k))
    requires provider(n - 1).Reply? || !IsOverloaded(provider(n - 1)) || n == MaxRetries
    ensures Run(provider, attempt) ==
      RetryRun(if provider(n - 1).Reply? then Broke(provider(n - 1).text) else Failed, n)
    decreases n - attempt
  {
    if attempt < n - 1 {
      RunDetermined(provider, attempt + 1, n);
    }
  }

  /** Four 503s and then a reply: the loop breaks with that reply after exactly five calls. */
  lemma FourOverloadsThenReply(provider: nat -> Outcome, text: string)
    requires forall k :: 0 <= k < 4 ==> IsOverloaded(provider(k))
    requires provider(4) == Reply(text)
    ensures Run(provider, 0) == RetryRun(Broke(text), 5)
  {
    RunDetermined(provider, 0, 5);
  }

  /** Five 503s: the loop gives up after exactly five calls. */
  lemma AlwaysOverloaded(provider: nat -> Outcome)
    requires forall k :: 0 <= k < 5 ==> IsOverloaded(provider(k))
    ensures Run(provider, 0) == RetryRun(Failed, 5)
  {
    RunDetermined(provider, 0, 5);
  }

  /** A first failure that is not 503 ends the loop after one call. */
  lemma ImmediateFailure(provider: nat -> Outcome)
    requires provider(0).Failure? && !IsOverloaded(provider(0))
    ensures Run(provider, 0) == RetryRun(Failed, 1)
  {
  }

  // ---- the handler as a value ----

  /** After the loop, as written: the outer `responseText` is still null, so only a failure escapes as itself. */
  function ResponseAsWritten(exit: LoopExit): Response {
    match exit
    case Failed => ProviderFailed
    case Broke(_) => Overloaded
    case Exhausted => Overloaded
  }

  /** After the loop, as intended: the answer of the successful call is returned with 200. */
  function ResponseIntended(exit: LoopExit): Response {
    match exit
    case Failed => ProviderFailed
    case Broke(text) => Response(200, ResponseBody(text))
    case Exhausted => Overloaded
  }

  /**
   * The loop for an accepted message. A string message runs as `Run` says.
   * For a truthy non-string, the first pass's retrieval calls
   * `toLowerCase` on it and throws an error without a status, so the catch
   * takes the failure branch before any provider call.
   */
  function LoopRun(message: MessageField, provider: nat -> Outcome): RetryRun {
    if message.Text? then Run(provider, 0) else RetryRun(Failed, 0)
  }

  function HandlerAsWritten(req: Request, provider: nat -> Outcome): Response {
    match Rejection(req)
    case Some(r) => r
    case None => ResponseAsWritten(LoopRun(req.message, provider).exit)
  }

  function HandlerIntended(req: Request, provider: nat -> Outcome): Response {
    match Rejection(req)
    case Some(r) => r
    case None => ResponseIntended(LoopRun(req.message, provider).exit)
  }

  /**
   * As written, the handler never answers 200: every response is 405, 400
   * or 500, and a successful provider call ends in the "overloaded" 500.
   */
  lemma AsWrittenNeverSucceeds(req: Request, provider: nat -> Outcome)
    ensures HandlerAsWritten(req, provider).status in {405, 400, 500}
    ensures Rejection(req).None? && req.message.Text? && Run(provider, 0).exit.Broke? ==>
      HandlerAsWritten(req, provider) == Overloaded
  {
  }

  /** A concrete run that shows the defect: a valid request and a provider that answers at once. */
  lemma SuccessReportedAsOverload(text: string)
    ensures var req := Request("POST", Text("hi"));
      var provider := (k: nat) => Reply(text);
      && HandlerAsWritten(req, provider) == Overloaded
      && HandlerIntended(req, provider) == Response(200, ResponseBody(text))
  {
  }

  /**
   * The corrected handler answers 200 exactly when the request is valid, its
   * message is a string, and some call within the five attempts replies
   * after only 503s; the body is that reply. Otherwise it is the 405, 400
   * or 500 of the source.
   */
  lemma IntendedOutcomes(req: Request, provider: nat -> Outcome)
    ensures HandlerIntended(req, provider).status == 200 <==>
      Rejection(req).None? && req.message.Text? && Run(provider, 0).exit.Broke?
    ensures HandlerIntended(req, provider).status == 200 ==>
      var n := Run(provider, 0).calls;
      1 <= n <= MaxRetries &&
      provider(n - 1) == Reply(HandlerIntended(req, provider).body.response) &&
      forall k :: 0 <= k < n - 1 ==> IsOverloaded(provider(k))
    ensures req.httpMethod != "POST" ==> HandlerIntended(req, provider) == MethodNotAllowed
    ensures req.httpMethod == "POST" && !IsTruthy(req.message) ==> HandlerIntended(req, provider) == MessageRequired
    ensures Rejection(req).None? && req.message.Text? && Run(provider, 0).exit.Failed? ==>
      HandlerIntended(req, provider) == ProviderFailed
    ensures Rejection(req).None? && req.message.NonString? ==> HandlerIntended(req, provider) == ProviderFailed
  {
    RunSpec(provider, 0);
  }

  /**
   * A truthy non-string message (`{"message": 42}`) passes validation, then
   * fails on the first pass's retrieval: both handlers answer the
   * "Failed to get a response" 500 without calling the provider, and a
   * falsy one (`0`, `false`, `null`) is the 400.
   */
  lemma NonStringMessage(provider: nat -> Outcome, truthy: bool)
    ensures var req := Request("POST", NonString(truthy));
      && LoopRun(req.message, provider).calls == 0
      && HandlerAsWritten(req, provider) == (if truthy then ProviderFailed else MessageRequired)
      && HandlerIntended(req, provider) == HandlerAsWritten(req, provider)
  {
  }

  // ---- the handler as code ----

  /** One pass's retrieval and prompt template. */
  method BuildPrompt(kb: seq<Entry>, system: string, message: string) returns (combinedPrompt: string)
    ensures combinedPrompt == CombinedPrompt(system, Context(kb, message), message)
  {
    var relevantContext := RetrieveRelevantContext(kb, message);
    combinedPrompt := CombinedPrompt(system, relevantContext, message);
  }

  /**
   * The `while (attempt < maxRetries)` loop: each pass retrieves the
   * context, builds the prompt and makes one provider call; a reply breaks
   * out, a 503 before the last attempt waits `2^attempt * 1000 + jitter`
   * and retries, any other failure returns. `system` is the system prompt
   * the handler passes in.
   */
  method RetryLoop(kb: seq<Entry>, system: string, message: string, provider: nat -> Outcome, jitter: nat -> real)
    returns (exit: LoopExit, prompts: seq<string>, delays: seq<real>)
    ensures RetryRun(exit, |prompts|) == Run(provider, 0)
    ensures forall k :: 0 <= k < |prompts| ==> prompts[k] == CombinedPrompt(system, Context(kb, message), message)
    ensures |delays| == (if exit.Exhausted? then |prompts| else |prompts| - 1)
    ensures delays == Delays(jitter, |delays|)
  {
    ghost var expected := CombinedPrompt(system, Context(kb, message), message);
    var attempt: nat := 0;
    prompts, delays := [], [];
    exit := Exhausted;
    while attempt < MaxRetries
      invariant attempt <= MaxRetries
      invariant |prompts| == attempt && |delays| == attempt
      invariant forall k :: 0 <= k < attempt ==> prompts[k] == expected
      invariant delays == Delays(jitter, attempt)
      invariant Run(provider, 0) == Run(provider, attempt)
      invariant exit == Exhausted
      decreases MaxRetries - attempt
    {
      var combinedPrompt := BuildPrompt(kb, system, message);
      prompts := prompts + [combinedPrompt];
      match provider(attempt) {
        case Reply(responseText) =>
          assert Run(provider, attempt) == RetryRun(Broke(responseText), attempt + 1);
          exit := Broke(responseText);
          break;
        case Failure(status) =>
          if status == Some(OverloadedStatus) && attempt < MaxRetries - 1 {
            assert Run(provider, attempt) == Run(provider, attempt + 1);
            var delay := Delay(jitter, attempt);
            delays := delays + [delay];
            assert delays == Delays(jitter, attempt + 1);
            attempt := attempt + 1;
          } else {
            assert Run(provider, attempt) == RetryRun(Failed, attempt + 1);
            exit := Failed;
            return;
          }
      }
    }
  }

  /**
   * `handler` as written. `prompts` are the prompts sent, one per provider
   * call and per retrieval; `delays` the waits before each retry.
   */
  method Handle(kb: seq<Entry>, req: Request, provider: nat -> Outcome, jitter: nat -> real)
    returns (resp: Response, prompts: seq<string>, delays: seq<real>)
    ensures resp == HandlerAsWritten(req, provider)
    ensures Rejection(req).Some? || req.message.NonString? ==> prompts == [] && delays == []
    ensures Rejection(req).None? && req.message.Text? ==>
      && |prompts| == Run(provider, 0).calls
      && |delays| == |prompts| - 1
      && forall k :: 0 <= k < |prompts| ==>
           prompts[k] == CombinedPrompt(SystemPrompt, Context(kb, req.message.text), req.message.text)
    ensures delays == Delays(jitter, |delays|)
  {
    prompts, delays := [], [];
    if req.httpMethod != "POST" {
      return MethodNotAllowed, prompts, delays;
    }
    if !IsTruthy(req.message) {
      return MessageRequired, prompts, delays;
    }
    if req.message.NonString? {
      // The first pass's retrieval throws on `toLowerCase`; the error has no status.
      return ProviderFailed, prompts, delays;
    }
    var message := req.message.text;
    RunSpec(provider, 0);
    // The outer `const responseText = null`; the loop assigns only its own inner declaration.
    var responseText: Option<string> := None;
    var exit;
    exit, prompts, delays := RetryLoop(kb, SystemPrompt, message, provider, jitter);
    if exit == Failed {
      return ProviderFailed, prompts, delays;
    }
    match responseText {
      case None => resp := Overloaded;
      case Some(text) => resp := Response(200, ResponseBody(text));
    }
  }

  /** `handler` with the answer of the successful call returned. */
  method HandleIntended(kb: seq<Entry>, req: Request, provider: nat -> Outcome, jitter: nat -> real)
    returns (resp: Response, prompts: seq<string>, delays: seq<real>)
    ensures resp == HandlerIntended(req, provider)
    ensures Rejection(req).Some? || req.message.NonString? ==> prompts == [] && delays == []
    ensures Rejection(req).None? && req.message.Text? ==>
      && |prompts| == Run(provider, 0).calls
      && |delays| == |prompts| - 1
      && forall k :: 0 <= k < |prompts| ==>
           prompts[k] == CombinedPrompt(SystemPrompt, Context(kb, req.message.text), req.message.text)
    ensures delays == Delays(jitter, |delays|)
  {
    prompts, delays := [], [];
    if req.httpMethod != "POST" {
      return MethodNotAllowed, prompts, delays;
    }
    if !IsTruthy(req.message) {
      return MessageRequired, prompts, delays;
    }
    if req.message.NonString? {
      // The first pass's retrieval throws on `toLowerCase`; the error has no status.
      return ProviderFailed, prompts, delays;
    }
    var message := req.message.text;
    RunSpec(provider, 0);
    var exit;
    exit, prompts, delays := RetryLoop(kb, SystemPrompt, message, provider, jitter);
    match exit {
      case Failed => resp := ProviderFailed;
      case Broke(text) => resp := Response(200, ResponseBody(text));
      case Exhausted => resp := Overloaded;
    }
  }
}
