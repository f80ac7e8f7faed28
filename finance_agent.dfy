/**
 * Model of the finance agent's request logic: the bounded exponential-backoff
 * fetch helper and the analysis call built on it.
 *
 * Every network attempt is replaced by an oracle `respond: nat -> Outcome` that
 * gives the outcome of attempt number `attempt` (0-based).  Sleeping is replaced
 * by a log of the delays, in seconds, that the helper would sleep.
 */
module FinanceAgent {
  import opened Wrappers

  const OpenAIModelName: string := "gpt-4o"
  const OpenAIApiEndpoint: string := "https://api.openai.com/v1/chat/completions"
  const SystemPrompt: string :=
    "Act as a world-class financial analyst and investment advisor. "
    + "Always use markdown tables to display financial/numerical data for clarity and easy comparison. "
    + "For text data (like qualitative analysis or recommendations), use bullet points and small paragraphs. "
    + "Provide a detailed and well-structured response."
  /** The default of the helper's `max_retries` parameter, which the analysis call relies on. */
  const DefaultMaxRetries: int := 5
  /** What the analysis call returns when the reply has no text at the expected place. */
  const NoAnalysis: string := "No analysis generated."

  // ---------------------------------------------------------------------------
  // Values exchanged with the chat-completions endpoint
  // ---------------------------------------------------------------------------

  /** A decoded JSON value, as `response.json()` returns it. */
  datatype Json =
    | JNull
    | JBool(b: bool)
    | JNum(n: real)
    | JStr(s: string)
    | JArr(items: seq<Json>)
    | JObj(fields: map<string, Json>)

  /** Python truthiness of a decoded JSON value (`not result` is its negation). */
  predicate Truthy(j: Json) {
    match j
    case JNull => false
    case JBool(b) => b
    case JNum(n) => n != 0.0
    case JStr(s) => s != ""
    case JArr(items) => items != []
    case JObj(fields) => fields != map[]
  }

  datatype ChatMessage = ChatMessage(role: string, content: string)

  /** The JSON body posted to the endpoint: `{"model": ..., "messages": [...]}`. */
  datatype ChatPayload = ChatPayload(model: string, messages: seq<ChatMessage>)

  /** One `requests.post(url, headers=headers, json=payload)`. */
  datatype HttpRequest<P> = HttpRequest(url: string, headers: seq<(string, string)>, payload: P)

  /** The headers the helper sends with every attempt. */
  function AuthHeaders(apiKey: string): seq<(string, string)> {
    [("Content-Type", "application/json"), ("Authorization", "Bearer " + apiKey)]
  }

  /** `not api_key`: the key is absent or empty. */
  predicate KeyMissing(apiKey: Option<string>) {
    apiKey.None? || apiKey.value == ""
  }

  // ---------------------------------------------------------------------------
  // One attempt and how the helper reacts to it
  // ---------------------------------------------------------------------------

  /**
   * What one attempt yields: an HTTP response with its status and its body as
   * decoded by `response.json()` (None when the body is not JSON), or a failure
   * below HTTP (connection error, timeout) that produced no response at all.
   */
  datatype Outcome = Response(status: int, body: Option<Json>) | NetworkFailure

  /** How the helper treats an attempt: return its body, sleep and retry, or give up. */
  datatype Verdict = Success(body: Json) | Transient(status: int) | Fatal

  /**
   * `raise_for_status` raises for the statuses 400 to 599 only; of those, 429 and
   * 500 to 599 are retried and the rest are fatal.  Any other status reaches
   * `response.json()`; a body that is not JSON makes it raise a decode error,
   * which `requests` derives from `RequestException`, so it ends the helper like
   * a network failure does.
   */
  function Classify(o: Outcome): (v: Verdict)
    ensures v.Transient? <==> o.Response? && (o.status == 429 || 500 <= o.status < 600)
    ensures v.Success? <==> o.Response? && !(400 <= o.status < 600) && o.body.Some?
    ensures v.Success? ==> v.body == o.body.value
  {
    match o
    case NetworkFailure => Fatal
    case Response(status, body) =>
      if 400 <= status < 600 then
        if status == 429 || status >= 500 then Transient(status) else Fatal
      else if body.Some? then Success(body.value)
      else Fatal
  }

  // ---------------------------------------------------------------------------
  // Specification of the retry loop
  // ---------------------------------------------------------------------------

  /** `2 ** n`. */
  function Pow2(n: nat): (r: nat)
    ensures r >= 1
  {
    if n == 0 then 1 else 2 * Pow2(n - 1)
  }

  /** The delays slept after the transient failures of attempts `a`, ..., `k - 1`. */
  function DelaysBetween(a: nat, k: nat): (r: seq<nat>)
    decreases k - a
    ensures |r| == if a <= k then k - a else 0
    ensures forall i :: 0 <= i < |r| ==> r[i] == Pow2(a + i)
  {
    if k <= a then [] else [Pow2(a)] + DelaysBetween(a + 1, k)
  }

  function Sum(s: seq<nat>): nat {
    if s == [] then 0 else s[0] + Sum(s[1..])
  }

  /**
   * What one call of the helper does: the value it returns, how many requests it
   * sends and the delays it sleeps, in order.
   */
  datatype FetchTrace = FetchTrace(result: Option<Json>, attempts: nat, delays: seq<nat>)

  /** The loop `for attempt in range(max_retries)` from attempt `attempt` on. */
  function FetchFrom(attempt: nat, maxRetries: int, respond: nat -> Outcome): (t: FetchTrace)
    decreases if attempt < maxRetries then maxRetries - attempt else 0
    ensures t.attempts <= if attempt < maxRetries then maxRetries - attempt else 0
    ensures |t.delays| <= t.attempts
    ensures t.result.Some? ==> t.attempts == |t.delays| + 1
  {
    if maxRetries <= attempt then FetchTrace(None, 0, [])
    else
      match Classify(respond(attempt))
      case Success(body) => FetchTrace(Some(body), 1, [])
      case Fatal => FetchTrace(None, 1, [])
      case Transient(_) =>
        var rest := FetchFrom(attempt + 1, maxRetries, respond);
        FetchTrace(rest.result, rest.attempts + 1, [Pow2(attempt)] + rest.delays)
  }

  /** The whole helper: the key check, then the loop from attempt 0. */
  function Fetch(apiKey: Option<string>, maxRetries: int, respond: nat -> Outcome): (t: FetchTrace)
    ensures KeyMissing(apiKey) ==> t == FetchTrace(None, 0, [])
    ensures maxRetries <= 0 ==> t == FetchTrace(None, 0, [])
    ensures t.attempts <= if maxRetries < 0 then 0 else maxRetries
  {
    if KeyMissing(apiKey) then FetchTrace(None, 0, []) else FetchFrom(0, maxRetries, respond)
  }

  /**
   * The first attempt at or after `a` that is not a transient failure, or the end
   * of the loop when there is none: an independent description of where the loop stops.
   */
  function FirstStop(a: nat, maxRetries: int, respond: nat -> Outcome): (k: nat)
    decreases if a < maxRetries then maxRetries - a else 0
    ensures a <= k
    ensures k < maxRetries || k == a || k == maxRetries
    ensures forall i :: a <= i < k ==> Classify(respond(i)).Transient?
    ensures k < maxRetries ==> !Classify(respond(k)).Transient?
  {
    if maxRetries <= a || !Classify(respond(a)).Transient? then a
    else FirstStop(a + 1, maxRetries, respond)
  }

  /** The loop from `a` on, described by where it stops. */
  lemma {:induction false} FetchFromShape(a: nat, maxRetries: int, respond: nat -> Outcome)
    decreases if a < maxRetries then maxRetries - a else 0
    ensures var k := FirstStop(a, maxRetries, respond);
            var t := FetchFrom(a, maxRetries, respond);
            && t.delays == DelaysBetween(a, k)
            && t.attempts == (if k < maxRetries then k + 1 - a else k - a)
            && t.result == (if k < maxRetries && Classify(respond(k)).Success?
                            then Some(Classify(respond(k)).body) else None)
  {
    if maxRetries <= a || !Classify(respond(a)).Transient? {
    } else {
      FetchFromShape(a + 1, maxRetries, respond);
    }
  }

  /** Where the loop from 0 stops is pinned down by the outcomes of the attempts. */
  lemma StopsAt(maxRetries: int, respond: nat -> Outcome, k: nat)
    requires k < maxRetries
    requires forall i :: 0 <= i < k ==> Classify(respond(i)).Transient?
    requires !Classify(respond(k)).Transient?
    ensures FirstStop(0, maxRetries, respond) == k
  {
  }

  /**
   * A response that passes on attempt `k`, after `k` transient failures, is returned
   * at once: `k + 1` requests, and only the `k` delays of the failed attempts.
   */
  lemma SucceedsAt(apiKey: Option<string>, maxRetries: int, respond: nat -> Outcome, k: nat, body: Json)
    requires !KeyMissing(apiKey)
    requires k < maxRetries
    requires forall i :: 0 <= i < k ==> Classify(respond(i)).Transient?
    requires Classify(respond(k)) == Success(body)
    ensures Fetch(apiKey, maxRetries, respond) == FetchTrace(Some(body), k + 1, DelaysBetween(0, k))
  {
    StopsAt(maxRetries, respond, k);
    FetchFromShape(0, maxRetries, respond);
  }

  /**
   * A fatal attempt `k` (another error status, a network failure, a body that is
   * not JSON) ends the helper with None: `k + 1` requests and no sleep for it.
   */
  lemma FailsAt(apiKey: Option<string>, maxRetries: int, respond: nat -> Outcome, k: nat)
    requires !KeyMissing(apiKey)
    requires k < maxRetries
    requires forall i :: 0 <= i < k ==> Classify(respond(i)).Transient?
    requires Classify(respond(k)).Fatal?
    ensures Fetch(apiKey, maxRetries, respond) == FetchTrace(None, k + 1, DelaysBetween(0, k))
  {
    StopsAt(maxRetries, respond, k);
    FetchFromShape(0, maxRetries, respond);
  }

  /**
   * When every attempt fails transiently, exactly `max_retries` requests are sent, a
   * delay follows each of them (the last one included) and the result is None.
   */
  lemma ExhaustsRetries(apiKey: Option<string>, maxRetries: nat, respond: nat -> Outcome)
    requires !KeyMissing(apiKey)
    requires forall i :: 0 <= i < maxRetries ==> Classify(respond(i)).Transient?
    ensures Fetch(apiKey, maxRetries, respond) == FetchTrace(None, maxRetries, DelaysBetween(0, maxRetries))
    ensures Sum(Fetch(apiKey, maxRetries, respond).delays) == Pow2(maxRetries) - 1
  {
    FetchFromShape(0, maxRetries, respond);
    SumDelays(0, maxRetries);
  }

  /** The delays double: those of attempts `a`..`k-1` add up to `2^k - 2^a`. */
  lemma {:induction false} SumDelays(a: nat, k: nat)
    requires a <= k
    decreases k - a
    ensures Sum(DelaysBetween(a, k)) == Pow2(k) - Pow2(a)
  {
    if a < k {
      var d := DelaysBetween(a, k);
      assert d[1..] == DelaysBetween(a + 1, k);
      SumDelays(a + 1, k);
    }
  }

  /**
   * Conversely, whatever the helper returns came from the last attempt it sent,
   * that attempt passed, every earlier one failed transiently, and the delays are
   * 1, 2, 4, ... one per failed attempt.
   */
  lemma ResultComesFromLastAttempt(apiKey: Option<string>, maxRetries: int, respond: nat -> Outcome)
    ensures var t := Fetch(apiKey, maxRetries, respond);
            t.result.Some? ==>
              && !KeyMissing(apiKey)
              && 0 < t.attempts <= maxRetries
              && Classify(respond(t.attempts - 1)) == Success(t.result.value)
              && (forall i :: 0 <= i < t.attempts - 1 ==> Classify(respond(i)).Transient?)
              && t.delays == DelaysBetween(0, t.attempts - 1)
  {
    if !KeyMissing(apiKey) {
      FetchFromShape(0, maxRetries, respond);
    }
  }

  // ---------------------------------------------------------------------------
  // The helper itself
  // ---------------------------------------------------------------------------

  /**
   * `exponential_backoff_fetch(url, payload, api_key, max_retries)`.  Returns the
   * decoded body or None, the requests it sent and the delays it slept.
   */
  method ExponentialBackoffFetch<P>(url: string, payload: P, apiKey: Option<string>, maxRetries: int,
                                    respond: nat -> Outcome)
    returns (result: Option<Json>, sent: seq<HttpRequest<P>>, delays: seq<nat>)
    ensures var t := Fetch(apiKey, maxRetries, respond);
            result == t.result && |sent| == t.attempts && delays == t.delays
    ensures forall i :: 0 <= i < |sent| ==>
              apiKey.Some? && sent[i] == HttpRequest(url, AuthHeaders(apiKey.value), payload)
  {
    sent, delays := [], [];
    if apiKey.None? || apiKey.value == "" {
      return None, sent, delays;
    }
    var request := HttpRequest(url, AuthHeaders(apiKey.value), payload);
    ghost var whole := FetchFrom(0, maxRetries, respond);
    assert Fetch(apiKey, maxRetries, respond) == whole;
    var attempt: nat := 0;
    while attempt < maxRetries
      invariant attempt == 0 || attempt <= maxRetries
      invariant |sent| == attempt
      invariant forall i :: 0 <= i < |sent| ==> sent[i] == request
      invariant var rest := FetchFrom(attempt, maxRetries, respond);
                whole == FetchTrace(rest.result, attempt + rest.attempts, delays + rest.delays)
      decreases maxRetries - attempt
    {
      var outcome := respond(attempt);
      sent := sent + [request];
      ghost var rest := FetchFrom(attempt + 1, maxRetries, respond);
      match outcome {
        case NetworkFailure =>
          assert FetchFrom(attempt, maxRetries, respond) == FetchTrace(None, 1, []);
          return None, sent, delays;
        case Response(status, body) =>
          if 400 <= status < 600 {
            if status == 429 || status >= 500 {
              assert FetchFrom(attempt, maxRetries, respond)
                     == FetchTrace(rest.result, rest.attempts + 1, [Pow2(attempt)] + rest.delays);
              assert delays + ([Pow2(attempt)] + rest.delays) == delays + [Pow2(attempt)] + rest.delays;
              delays := delays + [Pow2(attempt)];
            } else {
              assert FetchFrom(attempt, maxRetries, respond) == FetchTrace(None, 1, []);
              return None, sent, delays;
            }
          } else if body.None? {
            assert FetchFrom(attempt, maxRetries, respond) == FetchTrace(None, 1, []);
            return None, sent, delays;
          } else {
            assert FetchFrom(attempt, maxRetries, respond) == FetchTrace(body, 1, []);
            return body, sent, delays;
          }
      }
      attempt := attempt + 1;
    }
    result := None;
  }

  // ---------------------------------------------------------------------------
  // The analysis call
  // ---------------------------------------------------------------------------

  /** `obj.get(key, default)`; None stands for the AttributeError raised when `obj` is not a dict. */
  function PyGet(obj: Json, key: string, default: Json): Option<Json> {
    if obj.JObj? then Some(if key in obj.fields then obj.fields[key] else default) else None
  }

  /**
   * `value[0]`; None stands for the error it raises: IndexError on an empty list or
   * string, KeyError on a dict (its keys are strings), TypeError on anything else.
   */
  function PyFirst(value: Json): Option<Json> {
    match value
    case JArr(items) => if items != [] then Some(items[0]) else None
    case JStr(s) => if s != "" then Some(JStr(s[..1])) else None
    case _ => None
  }

  /** The list `[{}]` used when the reply has no `choices`. */
  const DefaultChoices: Json := JArr([JObj(map[])])

  /**
   * The guarded block of the analysis call:
   * `result.get('choices', [{}])[0].get('message', {}).get('content', 'No analysis generated.')`,
   * with None for an exception caught by its `except Exception`.  A `Some(JNull)`
   * result is a reply whose content is JSON null, which Python also sees as None.
   */
  function ExtractAnalysis(result: Json): (r: Option<Json>)
    ensures !result.JObj? ==> r == None
    ensures result.JObj? && "choices" !in result.fields ==> r == Some(JStr(NoAnalysis))
    ensures result.JObj? && "choices" in result.fields && result.fields["choices"] == JArr([]) ==> r == None
    ensures forall first: map<string, Json>, rest: seq<Json> ::
              result.JObj? && "choices" in result.fields
              && result.fields["choices"] == JArr([JObj(first)] + rest) ==>
              && ("message" !in first ==> r == Some(JStr(NoAnalysis)))
              && ("message" in first && first["message"].JObj? ==>
                    r == Some(if "content" in first["message"].fields
                              then first["message"].fields["content"] else JStr(NoAnalysis)))
    ensures r.Some? ==> result.JObj?
  {
    match PyGet(result, "choices", DefaultChoices)
    case None => None
    case Some(choices) =>
      match PyFirst(choices)
      case None => None
      case Some(first) =>
        match PyGet(first, "message", JObj(map[]))
        case None => None
        case Some(message) => PyGet(message, "content", JStr(NoAnalysis))
  }

  /** The payload of the analysis call: the system prompt, then the user's query. */
  function AnalysisPayload(query: string): ChatPayload {
    ChatPayload(OpenAIModelName, [ChatMessage("system", SystemPrompt), ChatMessage("user", query)])
  }

  /**
   * `get_financial_analysis(query, api_key)`: one helper call with the default retry
   * budget, then the extraction of the reply's text.
   */
  method GetFinancialAnalysis(query: string, apiKey: Option<string>, respond: nat -> Outcome)
    returns (analysis: Option<Json>, sent: seq<HttpRequest<ChatPayload>>, delays: seq<nat>)
    ensures var fetched := Fetch(apiKey, DefaultMaxRetries, respond).result;
            analysis == if fetched.None? || !Truthy(fetched.value) then None
                        else ExtractAnalysis(fetched.value)
    ensures var t := Fetch(apiKey, DefaultMaxRetries, respond); |sent| == t.attempts && delays == t.delays
    ensures |sent| <= DefaultMaxRetries
    ensures KeyMissing(apiKey) ==> sent == [] && analysis == None
    ensures forall i :: 0 <= i < |sent| ==>
              && sent[i].url == OpenAIApiEndpoint
              && apiKey.Some? && sent[i].headers == AuthHeaders(apiKey.value)
              && sent[i].payload.model == OpenAIModelName
              && sent[i].payload.messages
                 == [ChatMessage("system", SystemPrompt), ChatMessage("user", query)]
  {
    var result;
    result, sent, delays := ExponentialBackoffFetch(OpenAIApiEndpoint, AnalysisPayload(query), apiKey,
                                                    DefaultMaxRetries, respond);
    if result.None? || !Truthy(result.value) {
      return None, sent, delays;
    }
    analysis := ExtractAnalysis(result.value);
  }
}
