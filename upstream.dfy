/**
 * The upstream client: the headers every call carries, the retrying
 * request loop with exponential back-off, the creation of a conversation
 * and the framing of the streamed completion into server-sent events.
 *
 * The network is a parameter: `answers(n)` is what the n-th attempt of a
 * request gets back (a status or a transport error), so a retry run is a
 * function of that environment and of the retry budget.
 */
module Upstream {
  import opened Wrappers
  import opened Text
  import opened PyJson

  /** What a single HTTP attempt yields. */
  datatype Outcome =
    | Status(code: int)   // a response arrived with this status
    | Timeout             // httpx.TimeoutException
    | ConnectError        // httpx.ConnectError
    | OtherError          // any other httpx.HTTPError or exception

  /** How a request run ends. */
  datatype RequestResult =
    | Response(code: int)     // a response is returned to the caller
    | Raised(cause: Outcome)  // the error of this outcome propagates
    | RetriesExhausted        // the generic "request failed" exception

  /** A request run: its end, the back-off pauses taken and the attempts made. */
  datatype Trace = Trace(result: RequestResult, sleeps: seq<int>, attempts: nat)

  /** One call handed to the HTTP library. */
  datatype Call = Call(verb: string, url: string, headers: map<string, string>)

  /** httpx's `is_success`: the statuses `raise_for_status` lets through. */
  predicate IsSuccess(code: int)
  {
    200 <= code < 300
  }

  /** Outcomes after which the loop waits and tries again, budget permitting. */
  predicate Retryable(o: Outcome)
  {
    o.Timeout? || o.ConnectError? || (o.Status? && (o.code == 429 || o.code >= 500))
  }

  function Pow2(n: nat): (r: nat)
    ensures r >= 1
  {
    if n == 0 then 1 else 2 * Pow2(n - 1)
  }

  /** The pause after a failed attempt number `attempt` (counted from 0). */
  function Backoff(attempt: nat): int
  {
    Pow2(attempt) + 1
  }

  /** The pauses of the first `n` failed attempts. */
  function Backoffs(n: nat): (r: seq<int>)
    ensures |r| == n
    ensures forall i :: 0 <= i < n ==> r[i] == Backoff(i)
  {
    if n == 0 then [] else Backoffs(n - 1) + [Backoff(n - 1)]
  }

  /** How the loop ends on an attempt it does not retry. */
  function Final(o: Outcome): RequestResult
  {
    if o.Status? && IsSuccess(o.code) then Response(o.code) else Raised(o)
  }

  /** The loop from attempt number `attempt` on. */
  function RetryFrom(answers: nat -> Outcome, maxRetries: int, attempt: nat): (t: Trace)
    requires attempt <= maxRetries
    ensures 1 <= t.attempts <= maxRetries - attempt + 1
    ensures |t.sleeps| == t.attempts - 1
    ensures forall i :: 0 <= i < |t.sleeps| ==> t.sleeps[i] == Backoff(attempt + i)
    ensures !t.result.RetriesExhausted?
    decreases maxRetries - attempt
  {
    var o := answers(attempt);
    if o == Status(200) then Trace(Response(200), [], 1)
    else if Retryable(o) && attempt < maxRetries then
      var rest := RetryFrom(answers, maxRetries, attempt + 1);
      Trace(rest.result, [Backoff(attempt)] + rest.sleeps, rest.attempts + 1)
    else Trace(Final(o), [], 1)
  }

  /** A whole request run with a budget of `maxRetries` retries. */
  function Retry(answers: nat -> Outcome, maxRetries: int): (t: Trace)
    ensures t.result.RetriesExhausted? <==> maxRetries < 0
    ensures maxRetries < 0 ==> t.attempts == 0 && t.sleeps == []
    ensures maxRetries >= 0 ==> 1 <= t.attempts <= maxRetries + 1
  {
    if maxRetries < 0 then Trace(RetriesExhausted, [], 0)
    else RetryFrom(answers, maxRetries, 0)
  }


  /**
   * The body of one attempt of `_request`: whether the loop waits and
   * tries again, and otherwise how the run ends (a 200 is returned, a 429,
   * a 5xx or a transport error on the last attempt and every other failure
   * propagate, `raise_for_status` lets the other 2xx through).
   */
  method Attempt(outcome: Outcome, attempt: nat, maxRetries: int) returns (retry: bool, ending: RequestResult)
    ensures retry <==> Retryable(outcome) && attempt < maxRetries
    ensures !retry ==> ending == Final(outcome)
  {
    retry := false;
    ending := Raised(outcome);
    if outcome.Status? {
      if outcome.code == 200 {
        ending := Response(200);
        return;
      }
      if (outcome.code == 429 || outcome.code >= 500) && attempt < maxRetries {
        retry := true;
        return;
      }
      // raise_for_status
      if IsSuccess(outcome.code) {
        ending := Response(outcome.code);
      }
    } else if outcome.Timeout? || outcome.ConnectError? {
      retry := attempt < maxRetries;
    }
  }

  /** A run whose first `done` attempts paused for `pauses`, followed by `rest`. */
  function After(pauses: seq<int>, done: nat, rest: Trace): Trace
  {
    Trace(rest.result, pauses + rest.sleeps, done + rest.attempts)
  }

  /** A retried attempt adds its pause and hands over to the next attempt. */
  lemma RetryStep(answers: nat -> Outcome, maxRetries: int, a: nat, pauses: seq<int>)
    requires a < maxRetries && Retryable(answers(a))
    ensures After(pauses, a, RetryFrom(answers, maxRetries, a))
            == After(pauses + [Backoff(a)], a + 1, RetryFrom(answers, maxRetries, a + 1))
  {
    var rest := RetryFrom(answers, maxRetries, a + 1);
    assert pauses + ([Backoff(a)] + rest.sleeps) == (pauses + [Backoff(a)]) + rest.sleeps;
  }

  /** An attempt that is not retried ends the run as its outcome dictates. */
  lemma RetryLast(answers: nat -> Outcome, maxRetries: int, a: nat, pauses: seq<int>)
    requires a <= maxRetries
    requires answers(a) == Status(200) || !Retryable(answers(a)) || a == maxRetries
    ensures After(pauses, a, RetryFrom(answers, maxRetries, a)) == Trace(Final(answers(a)), pauses, a + 1)
  {
    assert pauses + [] == pauses;
  }

  /**
   * The closed form of a run: it stops at the first attempt whose outcome
   * is not retried, or at the last attempt of the budget, after one pause
   * per earlier attempt, and ends as that outcome dictates.
   */
  lemma {:induction false} RetryStopsAt(answers: nat -> Outcome, maxRetries: int, k: nat)
    requires k <= maxRetries
    requires forall i :: 0 <= i < k ==> Retryable(answers(i))
    requires !Retryable(answers(k)) || k == maxRetries
    ensures Retry(answers, maxRetries) == Trace(Final(answers(k)), Backoffs(k), k + 1)
  {
    RetryFromStopsAt(answers, maxRetries, 0, k);
    var t := Retry(answers, maxRetries);
    assert t.sleeps == Backoffs(k);
  }

  lemma {:induction false} RetryFromStopsAt(answers: nat -> Outcome, maxRetries: int, a: nat, k: nat)
    requires a <= k <= maxRetries
    requires forall i :: a <= i < k ==> Retryable(answers(i))
    requires !Retryable(answers(k)) || k == maxRetries
    ensures RetryFrom(answers, maxRetries, a).result == Final(answers(k))
    ensures RetryFrom(answers, maxRetries, a).attempts == k - a + 1
    decreases k - a
  {
    if a < k {
      RetryFromStopsAt(answers, maxRetries, a + 1, k);
      assert answers(a) != Status(200);
    }
  }

  /** A first answer of 200 is returned at once, without any pause. */
  lemma ImmediateSuccess(answers: nat -> Outcome, maxRetries: int)
    requires maxRetries >= 0 && answers(0) == Status(200)
    ensures Retry(answers, maxRetries) == Trace(Response(200), [], 1)
  {
    RetryStopsAt(answers, maxRetries, 0);
  }

  /** A client error other than 429 is raised on the attempt that got it. */
  lemma ClientErrorRaisedAtOnce(answers: nat -> Outcome, maxRetries: int, code: int)
    requires maxRetries >= 0 && 400 <= code < 500 && code != 429
    requires answers(0) == Status(code)
    ensures Retry(answers, maxRetries) == Trace(Raised(Status(code)), [], 1)
  {
    RetryStopsAt(answers, maxRetries, 0);
  }

  /** When every answer is retried, the whole budget is used and the last error raised. */
  lemma {:induction false} BudgetExhausted(answers: nat -> Outcome, maxRetries: int)
    requires maxRetries >= 0
    requires forall i :: 0 <= i <= maxRetries ==> Retryable(answers(i))
    ensures Retry(answers, maxRetries).attempts == maxRetries + 1
    ensures Retry(answers, maxRetries).result == Raised(answers(maxRetries))
    ensures Retry(answers, maxRetries).sleeps == Backoffs(maxRetries)
  {
    RetryStopsAt(answers, maxRetries, maxRetries);
  }

  /** Three 429 answers and then a 200, with the default budget: pauses of 2, 3 and 5 seconds. */
  lemma RateLimitedThenServed(answers: nat -> Outcome)
    requires answers(0) == Status(429) && answers(1) == Status(429)
    requires answers(2) == Status(429) && answers(3) == Status(200)
    ensures Retry(answers, 3) == Trace(Response(200), [2, 3, 5], 4)
  {
    RetryStopsAt(answers, 3, 3);
    assert Backoffs(3) == [2, 3, 5];
  }

  /** A server error followed by a 200 costs one pause of 2 seconds. */
  lemma ServerErrorThenServed(answers: nat -> Outcome)
    requires answers(0) == Status(500) && answers(1) == Status(200)
    ensures Retry(answers, 3) == Trace(Response(200), [2], 2)
  {
    RetryStopsAt(answers, 3, 1);
    assert Backoffs(1) == [2];
  }

  /** The fixed header set of a client for `token`. */
  function Headers(token: string, source: string): map<string, string>
  {
    map[
      "Authorization" := "Bearer " + token,
      "Host" := "chat.qwen.ai",
      "source" := source,
      "Connection" := "keep-alive",
      "Origin" := "https://chat.qwen.ai",
      "Content-Type" := "application/json; charset=UTF-8",
      "User-Agent" := "Mozilla/5.0 (Windows NT 10.0; Win64; x64) AppleWebKit/537.36"
    ]
  }

  /** The credential carried by an `Authorization` value of the bearer scheme. */
  function BearerToken(value: string): Option<string>
  {
    if StartsWith(value, "Bearer ") then Some(value[7..]) else None
  }

  /**
   * A client's headers are exactly the seven fixed names; `Authorization`
   * carries its token in the bearer scheme and `source` the configured source.
   */
  lemma HeadersCarry(token: string, source: string)
    ensures var h := Headers(token, source);
      "Authorization" in h && BearerToken(h["Authorization"]) == Some(token)
    ensures var h := Headers(token, source);
      "source" in h && h["source"] == source
    ensures Headers(token, source).Keys == {"Authorization", "Host", "source", "Connection", "Origin", "Content-Type", "User-Agent"}
  {
    var h := Headers(token, source);
    assert h["Authorization"] == "Bearer " + token;
    assert ("Bearer " + token)[..7] == "Bearer ";
    assert ("Bearer " + token)[7..] == token;
  }

  /** The headers of two clients are equal only when they hold the same token and source. */
  lemma HeadersDetermineCredential(t1: string, s1: string, t2: string, s2: string)
    requires Headers(t1, s1) == Headers(t2, s2)
    ensures t1 == t2 && s1 == s2
  {
    HeadersCarry(t1, s1);
    HeadersCarry(t2, s2);
  }

  /** The body that asks for a new conversation. */
  datatype NewChat = NewChat(title: string, models: seq<Json>, chatMode: string, chatType: string, timestamp: int)

  const DefaultTitle: string := "\U{65B0}\U{5EFA}\U{5BF9}\U{8BDD}"

  function NewChatBody(model: Json, title: string, nowMillis: int): (p: NewChat)
    ensures p.models == [model] && p.title == title && p.timestamp == nowMillis
    ensures p.chatMode == "normal" && p.chatType == "t2t"
  {
    NewChat(title, [model], "normal", "t2t", nowMillis)
  }

  /** Why a decoded "new conversation" answer yields no id. */
  datatype ShapeError =
    | MissingId   // the ValueError about the response format
    | TypeError   // `in` or indexing applied to a value that does not support it

  /** `result["data"]["id"]`, guarded by `"data" in result and "id" in result["data"]`. */
  function ChatIdOf(result: Json): (r: Result<Json, ShapeError>)
    ensures r.Ok? <==> result.Obj? && "data" in result.fields && result.fields["data"].Obj? && "id" in result.fields["data"].fields
    ensures r.Ok? ==> r.value == result.fields["data"].fields["id"]
    ensures result.Obj? && "data" !in result.fields ==> r == Err(MissingId)
  {
    match In("data", result)
    case None => Err(TypeError)
    case Some(hasData) =>
      if !hasData then Err(MissingId)
      else if !result.Obj? then Err(TypeError)
      else
        var data := result.fields["data"];
        match In("id", data)
        case None => Err(TypeError)
        case Some(hasId) =>
          if !hasId then Err(MissingId)
          else if !data.Obj? then Err(TypeError)
          else Ok(data.fields["id"])
  }

  /** Why creating a conversation failed. */
  datatype ChatFailure = RequestFailed(request: RequestResult) | BadAnswer(shape: ShapeError)

  /** The outcome of `create_new_chat` for a request run and the decoded answer body. */
  function NewChatOutcome(t: Trace, answer: Json): (r: Result<Json, ChatFailure>)
    ensures r.Ok? <==> t.result.Response? && ChatIdOf(answer).Ok?
    ensures !t.result.Response? ==> r == Err(RequestFailed(t.result))
  {
    if !t.result.Response? then Err(RequestFailed(t.result))
    else match ChatIdOf(answer)
      case Ok(id) => Ok(id)
      case Err(e) => Err(BadAnswer(e))
  }

  /** Non-blank lines, each followed by a blank line: the events forwarded to the caller. */
  function Framed(lines: seq<string>): (events: seq<string>)
    ensures |events| <= |lines|
  {
    if lines == [] then []
    else
      var last := lines[|lines| - 1];
      Framed(lines[..|lines| - 1]) + (if IsBlank(last) then [] else [last + "\n\n"])
  }

  /** Framing works line by line, so it can be done while the answer is still arriving. */
  lemma {:induction false} FramedAppend(a: seq<string>, b: seq<string>)
    ensures Framed(a + b) == Framed(a) + Framed(b)
    decreases |b|
  {
    if b == [] {
      assert a + b == a;
    } else {
      var b' := b[..|b| - 1];
      assert (a + b)[..|a + b| - 1] == a + b';
      FramedAppend(a, b');
    }
  }

  /** Every event is a non-blank line of the answer followed by the event terminator. */
  lemma {:induction false} FramedEvents(lines: seq<string>)
    ensures forall e :: e in Framed(lines) ==>
      exists k :: 0 <= k < |lines| && !IsBlank(lines[k]) && e == lines[k] + "\n\n"
    decreases |lines|
  {
    if lines != [] {
      var init := lines[..|lines| - 1];
      FramedEvents(init);
      forall e | e in Framed(lines)
        ensures exists k :: 0 <= k < |lines| && !IsBlank(lines[k]) && e == lines[k] + "\n\n"
      {
        if e in Framed(init) {
          var k :| 0 <= k < |init| && !IsBlank(init[k]) && e == init[k] + "\n\n";
          assert lines[k] == init[k];
        } else {
          assert e == lines[|lines| - 1] + "\n\n";
        }
      }
    }
  }

  /** An answer without blank lines is forwarded line for line. */
  lemma {:induction false} FramedNoBlank(lines: seq<string>)
    requires forall k :: 0 <= k < |lines| ==> !IsBlank(lines[k])
    ensures Framed(lines) == seq(|lines|, k requires 0 <= k < |lines| => lines[k] + "\n\n")
    decreases |lines|
  {
    if lines != [] {
      var init := lines[..|lines| - 1];
      var last := lines[|lines| - 1];
      FramedNoBlank(init);
      var want := seq(|lines|, k requires 0 <= k < |lines| => lines[k] + "\n\n");
      assert Framed(lines) == Framed(init) + [last + "\n\n"];
      forall j | 0 <= j < |lines|
        ensures Framed(lines)[j] == want[j]
      {
        if j < |init| {
          assert init[j] == lines[j];
        }
      }
    }
  }

  /** How the streaming call went: the status it got and the lines received before it ended. */
  datatype StreamAnswer =
    | Opened(status: int, lines: seq<string>, cut: Option<string>)  // `cut`: the error that ended the read early
    | Unreachable(error: string)                                  // the connection could not be made

  /** Why a stream stopped. */
  datatype StreamError = StatusError(code: int) | Broken(message: string)

  /**
   * What the caller of the stream receives: nothing and the status error
   * when the upstream does not answer 2xx, otherwise the framed lines and,
   * when the read was cut short, the error that cut it.
   */
  function StreamOutcome(answer: StreamAnswer): (r: (seq<string>, Option<StreamError>))
    ensures answer.Unreachable? ==> r == ([], Some(Broken(answer.error)))
    ensures answer.Opened? && !IsSuccess(answer.status) ==> r == ([], Some(StatusError(answer.status)))
    ensures answer.Opened? && IsSuccess(answer.status) ==> r.0 == Framed(answer.lines)
    ensures answer.Opened? && IsSuccess(answer.status) ==> (r.1.Some? <==> answer.cut.Some?)
    ensures answer.Opened? && IsSuccess(answer.status) && answer.cut.Some? ==> r.1 == Some(Broken(answer.cut.value))
  {
    match answer
    case Unreachable(error) => ([], Some(Broken(error)))
    case Opened(status, lines, cut) =>
      if !IsSuccess(status) then ([], Some(StatusError(status)))
      else (Framed(lines), if cut.Some? then Some(Broken(cut.value)) else None)
  }

  class QwenClient {
    const token: string
    const baseUrl: string
    const headers: map<string, string>

    /** The client was built for `token`, with this base URL and source. */
    predicate BuiltFrom(token: string, baseUrl: string, source: string)
    {
      this.token == token && this.baseUrl == baseUrl && headers == Headers(token, source)
    }

    constructor (token: string, baseUrl: string, source: string)
      ensures this.token == token && this.baseUrl == baseUrl
      ensures headers == Headers(token, source)
      ensures BuiltFrom(token, baseUrl, source)
    {
      this.token := token;
      this.baseUrl := baseUrl;
      this.headers := Headers(token, source);
    }

    /**
     * `_request`: up to `maxRetries + 1` attempts, each with this client's
     * headers; `calls` are the calls handed to the HTTP library and `sleeps`
     * the pauses between them.
     */
    method Request(verb: string, url: string, answers: nat -> Outcome, maxRetries: int)
      returns (result: RequestResult, sleeps: seq<int>, calls: seq<Call>)
      ensures Trace(result, sleeps, |calls|) == Retry(answers, maxRetries)
      ensures forall i :: 0 <= i < |calls| ==> calls[i] == Call(verb, url, headers)
    {
      var lastFailure: Option<Outcome> := None;
      sleeps := [];
      calls := [];
      var attempt: nat := 0;
      var call := Call(verb, url, headers);
      while attempt <= maxRetries
        invariant maxRetries < 0 ==> attempt == 0 && sleeps == []
        invariant maxRetries >= 0 ==> attempt <= maxRetries
        invariant |calls| == attempt
        invariant forall i :: 0 <= i < |calls| ==> calls[i] == call
        invariant attempt == 0 ==> lastFailure == None
        invariant maxRetries >= 0 ==>
          Retry(answers, maxRetries) == After(sleeps, attempt, RetryFrom(answers, maxRetries, attempt))
        decreases maxRetries - attempt
      {
        var outcome := answers(attempt);
        calls := calls + [call];
        if outcome.Timeout? || outcome.ConnectError? {
          lastFailure := Some(outcome);
        }
        var retry, ending := Attempt(outcome, attempt, maxRetries);
        if retry {
          RetryStep(answers, maxRetries, attempt, sleeps);
          sleeps := sleeps + [Backoff(attempt)];
          attempt := attempt + 1;
          continue;
        }
        RetryLast(answers, maxRetries, attempt, sleeps);
        return ending, sleeps, calls;
      }
      // Every path through the body leaves the loop by `return` or
      // `continue`, so the loop only ends here when it never ran.
      assert lastFailure == None;
      result := RetriesExhausted;
    }

    /**
     * `create_new_chat`: posts the new-conversation body with the default
     * budget of three retries and reads the id out of the decoded answer.
     */
    method CreateNewChat(model: Json, title: string, nowMillis: int, answers: nat -> Outcome, answer: Json)
      returns (r: Result<Json, ChatFailure>, body: NewChat, calls: seq<Call>)
      ensures body == NewChatBody(model, title, nowMillis)
      ensures r == NewChatOutcome(Retry(answers, 3), answer)
      ensures 1 <= |calls| <= 4
      ensures forall i :: 0 <= i < |calls| ==> calls[i] == Call("POST", baseUrl + "/chats/new", headers)
    {
      body := NewChatBody(model, title, nowMillis);
      var result, sleeps;
      result, sleeps, calls := Request("POST", baseUrl + "/chats/new", answers, 3);
      r := NewChatOutcome(Trace(result, sleeps, |calls|), answer);
    }

    /**
     * `stream_chat_completions`: a single attempt, no retry; a status other
     * than 2xx raises before anything is forwarded, and an error while
     * reading ends the stream after the events already forwarded.
     */
    method StreamChatCompletions(url: string, answer: StreamAnswer)
      returns (events: seq<string>, failure: Option<StreamError>, call: Call)
      ensures call == Call("POST", url, headers)
      ensures (events, failure) == StreamOutcome(answer)
    {
      call := Call("POST", url, headers);
      events := [];
      if answer.Unreachable? {
        return [], Some(Broken(answer.error)), call;
      }
      if !IsSuccess(answer.status) {
        return [], Some(StatusError(answer.status)), call;
      }
      var lines := answer.lines;
      var k := 0;
      while k < |lines|
        invariant 0 <= k <= |lines|
        invariant events == Framed(lines[..k])
      {
        assert lines[..k + 1][..k] == lines[..k];
        if !IsBlank(lines[k]) {
          events := events + [lines[k] + "\n\n"];
        }
        k := k + 1;
      }
      assert lines[..|lines|] == lines;
      failure := if answer.cut.Some? then Some(Broken(answer.cut.value)) else None;
    }

    /** `chat_completions` (non-streaming): the retrying request, then the decoded answer. */
    method ChatCompletions(url: string, answers: nat -> Outcome, answer: Json)
      returns (r: Result<Json, RequestResult>, calls: seq<Call>)
      ensures r.Ok? <==> Retry(answers, 3).result.Response?
      ensures r.Ok? ==> r.value == answer
      ensures r.Err? ==> r.error == Retry(answers, 3).result
      ensures 1 <= |calls| <= 4
      ensures forall i :: 0 <= i < |calls| ==> calls[i] == Call("POST", url, headers)
    {
      var result, sleeps;
      result, sleeps, calls := Request("POST", url, answers, 3);
      r := if result.Response? then Ok(answer) else Err(result);
    }

    /** `list_models`: a retrying GET of the model catalogue, then the decoded answer. */
    method ListModels(answers: nat -> Outcome, answer: Json)
      returns (r: Result<Json, RequestResult>, calls: seq<Call>)
      ensures r.Ok? <==> Retry(answers, 3).result.Response?
      ensures r.Ok? ==> r.value == answer
      ensures r.Err? ==> r.error == Retry(answers, 3).result
      ensures 1 <= |calls| <= 4
      ensures forall i :: 0 <= i < |calls| ==> calls[i] == Call("GET", baseUrl + "/models", headers)
    {
      var result, sleeps;
      result, sleeps, calls := Request("GET", baseUrl + "/models", answers, 3);
      r := if result.Response? then Ok(answer) else Err(result);
    }
  }
}
