/**
 * The request executor of the tokio client: `send_inner`, which sends one
 * request again and again for as long as the request strategy allows, and
 * `TokioClient::execute`, which decodes the bytes of a successful response.
 *
 * What the executor talks to is given to it as values:
 *  - the strategy (`RequestStrategy::get_key` and `RequestStrategy::test`) is an
 *    oracle: an optional idempotency key and an arbitrary function from the loop's
 *    state to `Stop` or `Continue`;
 *  - the HTTP client is a script: the reply to attempt number `k` is `transport(k)`;
 *  - the decoders it calls (UTF-8 validation, the miniserde parse of a
 *    `stripe_shared::Error` and of the response type, and `StatusCode::try_from`)
 *    are functions in `Codecs`.
 *
 * The attempts the loop makes are returned as a trace, in order, each with the
 * delay slept before it and the request it sent.
 */
module Executor {
  import opened Wrappers

  type Byte = b: int | 0 <= b < 0x100

  type Bytes = seq<Byte>

  /** `http::StatusCode`: a three-digit code. */
  type HttpStatus = c: int | 100 <= c < 1000 witness 200

  /** `hyper::Error`, the error of a request or of reading a response body. */
  type HyperError(==)

  /** `http_types::Error`, the error of reading the request body. */
  type HttpTypesError(==)

  /** `stripe_shared::ApiErrors`, the error object of a Stripe error response. */
  type ApiErrors(==)

  /** `std::time::Duration`; it is only handed to `sleep`. */
  type Duration(==)

  /** The method, URL and version of a request; the executor never looks at them. */
  type Head(==)

  /** `StripeError`, as far as the executor produces it. */
  datatype StripeError =
    | Stripe(error: ApiErrors, status: HttpStatus)
    | JSONDeserialize(message: string)
    | ClientError(message: string)
      /** `StripeError::from` of a `hyper::Error`. */
    | FromHyper(cause: HyperError)
      /** `StripeError::from` of an `http_types::Error`. */
    | FromHttpTypes(reason: HttpTypesError)

  /** `Outcome` of `RequestStrategy::test`. */
  datatype Outcome = Stop | Continue(delay: Option<Duration>)

  /**
   * A `RequestStrategy`: the idempotency key it yields, and its test of the last
   * status, the last `Stripe-Should-Retry` value and the number of tries so far.
   */
  datatype RequestStrategy = RequestStrategy(
    key: Option<string>,
    test: (Option<HttpStatus>, Option<bool>, nat) -> Outcome
  )

  /** The strategy says `Stop` once `bound` tries have been made, whatever else it sees. */
  ghost predicate StopsBy(strategy: RequestStrategy, bound: nat)
  {
    forall status, retry, tries: nat :: tries >= bound ==> strategy.test(status, retry, tries).Stop?
  }

  /** An `http_types::Request`: its head, its headers and its body, which may fail to read. */
  datatype Request = Request(head: Head, headers: map<string, string>, body: Result<Bytes, HttpTypesError>)

  /** The request of one attempt: a clone of the keyed request with the body read once. */
  datatype Prepared = Prepared(head: Head, headers: map<string, string>, body: Bytes)

  /** One attempt: the delay slept before it, and the request sent. */
  datatype Attempt = Attempt(delay: Option<Duration>, request: Prepared)

  /** A `Stripe-Should-Retry` header value: text when `to_str` accepts it, otherwise `Opaque`. */
  datatype HeaderValue = Visible(text: string) | Opaque

  /** What the HTTP client gives for one attempt. */
  datatype Reply =
    | Failed(error: HyperError)
    | Responded(status: HttpStatus, shouldRetry: Option<HeaderValue>, body: Result<Bytes, HyperError>)

  /** The scripted HTTP client: the reply to each attempt, by its number. */
  type Transport = nat -> Reply

  /** The decoders the executor calls; none of them is part of this model. */
  datatype Codecs = Codecs(
    /** `std::str::from_utf8`. */
    utf8: Bytes -> Option<string>,
    /** `miniserde::json::from_str::<stripe_shared::Error>`, keeping its `error`. */
    apiError: string -> Option<ApiErrors>,
    /** Whether `http_types::StatusCode::try_from` knows a code. */
    knownStatus: HttpStatus -> bool
  )

  /** `StatusCode::is_success`: a 2xx code. */
  predicate IsSuccess(status: HttpStatus)
  {
    200 <= status < 300
  }

  /** The `Stripe-Should-Retry` value: `to_str`, then `bool::from_str`. */
  function ShouldRetry(header: Option<HeaderValue>): (r: Option<bool>)
    ensures r == Some(true) <==> header == Some(Visible("true"))
    ensures r == Some(false) <==> header == Some(Visible("false"))
  {
    match header
    case Some(Visible(s)) =>
      if s == "true" then Some(true) else if s == "false" then Some(false) else None
    case _ => None
  }

  /** The status kept for the strategy: the code itself when `try_from` knows it, else 500. */
  function LastStatus(codecs: Codecs, status: HttpStatus): (r: HttpStatus)
    ensures codecs.knownStatus(status) ==> r == status
    ensures !codecs.knownStatus(status) ==> r == 500
  {
    if codecs.knownStatus(status) then status else 500
  }

  /** The error kept for a non-success response whose body is the text `text`. */
  function ResponseError(codecs: Codecs, text: string, status: HttpStatus): (r: StripeError)
    ensures r.Stripe? <==> codecs.apiError(text).Some?
    ensures r.Stripe? ==> Some(r.error) == codecs.apiError(text) && r.status == status
    ensures !r.Stripe? ==> r == JSONDeserialize("Could not deserialize Stripe error")
  {
    match codecs.apiError(text)
    case Some(e) => Stripe(e, status)
    case None => JSONDeserialize("Could not deserialize Stripe error")
  }

  /** The request with the strategy's idempotency key inserted, as `insert_header` does. */
  function WithKey(request: Request, key: Option<string>): (r: Request)
    ensures r.head == request.head && r.body == request.body
    ensures key.Some? ==> "Idempotency-Key" in r.headers && r.headers["Idempotency-Key"] == key.value
    ensures key.None? ==> r.headers == request.headers
    ensures forall name :: name in request.headers && name != "Idempotency-Key" ==>
      name in r.headers && r.headers[name] == request.headers[name]
    ensures forall name :: name in r.headers ==> name in request.headers || name == "Idempotency-Key"
  {
    match key
    case None => request
    case Some(k) => request.(headers := request.headers["Idempotency-Key" := k])
  }

  /** The variables of the retry loop. */
  datatype LoopState = LoopState(
    tries: nat,
    lastStatus: Option<HttpStatus>,
    lastRetry: Option<bool>,
    lastError: StripeError
  )

  /** The state before any attempt: no status, no header, and the "invalid strategy" error. */
  const Start: LoopState := LoopState(0, None, None, ClientError("Invalid strategy"))

  /** What one reply does: end the loop with a result, or go round with a new state. */
  datatype Step = Done(result: Result<Bytes, StripeError>) | Again(next: LoopState)

  /** A reply after which the loop goes round: a failed request, or an error response whose body reads and is UTF-8. */
  predicate Retriable(codecs: Codecs, reply: Reply)
  {
    reply.Failed? ||
    (!IsSuccess(reply.status) && reply.body.Ok? && codecs.utf8(reply.body.value).Some?)
  }

  /** The effect of one reply on the loop. */
  function Absorb(codecs: Codecs, reply: Reply, s: LoopState): (r: Step)
    ensures r.Again? <==> Retriable(codecs, reply)
    ensures r.Again? ==> r.next.tries == s.tries + 1
    ensures reply.Failed? ==>
      r.Again? && r.next.lastStatus == s.lastStatus
      && r.next.lastRetry == s.lastRetry && r.next.lastError == FromHyper(reply.error)
    ensures reply.Responded? && r.Again? ==>
      r.next.lastStatus == Some(LastStatus(codecs, reply.status))
      && r.next.lastRetry == ShouldRetry(reply.shouldRetry)
      && r.next.lastError == ResponseError(codecs, codecs.utf8(reply.body.value).value, reply.status)
    ensures r.Done? && r.result.Ok? <==> reply.Responded? && reply.body.Ok? && IsSuccess(reply.status)
    ensures r.Done? && r.result.Ok? ==> r.result.value == reply.body.value
    ensures reply.Responded? && reply.body.Err? ==> r == Done(Err(FromHyper(reply.body.error)))
    ensures reply.Responded? && reply.body.Ok? && !IsSuccess(reply.status) && codecs.utf8(reply.body.value).None? ==>
      r == Done(Err(JSONDeserialize("Response was not valid UTF-8")))
  {
    match reply
    case Failed(e) => Again(s.(lastError := FromHyper(e), tries := s.tries + 1))
    case Responded(status, header, body) =>
      match body
      case Err(e) => Done(Err(FromHyper(e)))
      case Ok(bytes) =>
        if IsSuccess(status) then Done(Ok(bytes))
        else
          match codecs.utf8(bytes)
          case None => Done(Err(JSONDeserialize("Response was not valid UTF-8")))
          case Some(text) =>
            Again(LoopState(s.tries + 1, Some(LastStatus(codecs, status)), ShouldRetry(header),
                            ResponseError(codecs, text, status)))
  }

  /** The result of the loop and the attempts it made. */
  datatype Run = Run(result: Result<Bytes, StripeError>, sent: seq<Attempt>)

  /** The `last_error` a reply the loop goes round on leaves behind. */
  function LeftError(codecs: Codecs, reply: Reply): StripeError
    requires Retriable(codecs, reply)
  {
    match reply
    case Failed(e) => FromHyper(e)
    case Responded(status, _, body) => ResponseError(codecs, codecs.utf8(body.value).value, status)
  }

  /**
   * How the last reply `last` of a loop decides its result: a reply the loop goes
   * round on leaves its error for `Stop` to return, a success returns its bytes,
   * and an unreadable body or a non-UTF-8 error body ends the loop with that error.
   */
  predicate EndsWith(codecs: Codecs, last: Reply, result: Result<Bytes, StripeError>)
  {
    (Retriable(codecs, last) ==> result == Err(LeftError(codecs, last)))
    && (last.Responded? && last.body.Ok? && IsSuccess(last.status) ==> result == Ok(last.body.value))
    && (last.Responded? && last.body.Err? ==> result == Err(FromHyper(last.body.error)))
    && (last.Responded? && last.body.Ok? && !IsSuccess(last.status) && codecs.utf8(last.body.value).None? ==>
          result == Err(JSONDeserialize("Response was not valid UTF-8")))
  }

  /**
   * The loop from state `s` on: ask the strategy; on `Stop` return the last error;
   * on `Continue` send `p` once more and let the reply decide.
   */
  function RunFrom(p: Prepared, strategy: RequestStrategy, bound: nat, transport: Transport,
                   codecs: Codecs, s: LoopState): (r: Run)
    requires StopsBy(strategy, bound)
    ensures r.sent != [] ==> s.tries + |r.sent| <= bound
    ensures forall i :: 0 <= i < |r.sent| ==> r.sent[i].request == p
    ensures r.sent == [] <==> strategy.test(s.lastStatus, s.lastRetry, s.tries).Stop?
    ensures r.sent == [] ==> r.result == Err(s.lastError)
    ensures r.sent != [] ==> strategy.test(s.lastStatus, s.lastRetry, s.tries) == Continue(r.sent[0].delay)
    ensures forall k :: s.tries <= k < s.tries + |r.sent| - 1 ==> Retriable(codecs, transport(k))
    ensures r.result.Ok? ==>
      |r.sent| >= 1
      && var last := transport(s.tries + |r.sent| - 1);
         last.Responded? && IsSuccess(last.status) && last.body == Ok(r.result.value)
    decreases bound - s.tries
  {
    match strategy.test(s.lastStatus, s.lastRetry, s.tries)
    case Stop => Run(Err(s.lastError), [])
    case Continue(delay) =>
      var here := Attempt(delay, p);
      match Absorb(codecs, transport(s.tries), s)
      case Done(result) => Run(result, [here])
      case Again(next) =>
        var rest := RunFrom(p, strategy, bound, transport, codecs, next);
        Run(rest.result, [here] + rest.sent)
  }

  /** A reply that ends the loop ends it as `EndsWith` says; one it goes round on leaves `LeftError` behind. */
  lemma AbsorbEnds(codecs: Codecs, reply: Reply, s: LoopState)
    ensures var step := Absorb(codecs, reply, s);
      (step.Done? ==> EndsWith(codecs, reply, step.result))
      && (step.Again? ==> EndsWith(codecs, reply, Err(step.next.lastError)))
  {
  }

  /** The result of the loop is decided by its last reply, as `EndsWith` says. */
  lemma {:induction false} RunFromEnds(p: Prepared, strategy: RequestStrategy, bound: nat, transport: Transport,
                                       codecs: Codecs, s: LoopState)
    requires StopsBy(strategy, bound)
    ensures var r := RunFrom(p, strategy, bound, transport, codecs, s);
      r.sent != [] ==> EndsWith(codecs, transport(s.tries + |r.sent| - 1), r.result)
    decreases bound - s.tries
  {
    if strategy.test(s.lastStatus, s.lastRetry, s.tries).Continue? {
      RunFromContinue(p, strategy, bound, transport, codecs, s);
      var r := RunFrom(p, strategy, bound, transport, codecs, s);
      var step := Absorb(codecs, transport(s.tries), s);
      AbsorbEnds(codecs, transport(s.tries), s);
      if step.Again? {
        var rest := RunFrom(p, strategy, bound, transport, codecs, step.next);
        if rest.sent == [] {
          assert |r.sent| == 1 && r.result == Err(step.next.lastError);
        } else {
          RunFromEnds(p, strategy, bound, transport, codecs, step.next);
          assert s.tries + |r.sent| - 1 == step.next.tries + |rest.sent| - 1;
          assert r.result == rest.result;
        }
      } else {
        assert |r.sent| == 1 && r.result == step.result;
      }
    }
  }

  /** `send_inner` as a function: key the request, read its body once, and run the loop. */
  function Send(request: Request, strategy: RequestStrategy, bound: nat, transport: Transport,
                codecs: Codecs): (r: Run)
    requires StopsBy(strategy, bound)
    ensures request.body.Err? ==> r == Run(Err(FromHttpTypes(request.body.error)), [])
    ensures |r.sent| <= bound
    ensures request.body.Ok? ==> forall i :: 0 <= i < |r.sent| ==>
      r.sent[i].request == Prepared(request.head, WithKey(request, strategy.key).headers, request.body.value)
    ensures request.body.Ok? && r.sent == [] ==>
      strategy.test(None, None, 0).Stop? && r.result == Err(ClientError("Invalid strategy"))
    ensures r.sent != [] ==> strategy.test(None, None, 0) == Continue(r.sent[0].delay)
    ensures r.sent != [] ==> EndsWith(codecs, transport(|r.sent| - 1), r.result)
    ensures r.result.Ok? ==>
      |r.sent| >= 1
      && var last := transport(|r.sent| - 1);
         last.Responded? && IsSuccess(last.status) && last.body == Ok(r.result.value)
  {
    var keyed := WithKey(request, strategy.key);
    match keyed.body
    case Err(e) => Run(Err(FromHttpTypes(e)), [])
    case Ok(body) =>
      RunFromEnds(Prepared(keyed.head, keyed.headers, body), strategy, bound, transport, codecs, Start);
      RunFrom(Prepared(keyed.head, keyed.headers, body), strategy, bound, transport, codecs, Start)
  }

  /**
   * The handling of one reply inside the loop: a transport error or an error
   * response goes round with new values of the loop variables, and everything
   * else leaves the loop with its result.
   */
  method Receive(codecs: Codecs, reply: Reply, s: LoopState) returns (step: Step)
    ensures step == Absorb(codecs, reply, s)
  {
    var tries, lastStatus, lastRetry, lastError := s.tries, s.lastStatus, s.lastRetry, s.lastError;
    match reply {
      case Failed(e) =>
        lastError := FromHyper(e);
        tries := tries + 1;
      case Responded(status, header, bodyRead) =>
        var retry := ShouldRetry(header);
        if bodyRead.Err? {
          return Done(Err(FromHyper(bodyRead.error)));
        }
        var bytes := bodyRead.value;
        if !IsSuccess(status) {
          tries := tries + 1;
          var text := codecs.utf8(bytes);
          if text.None? {
            return Done(Err(JSONDeserialize("Response was not valid UTF-8")));
          }
          lastError := ResponseError(codecs, text.value, status);
          lastStatus := Some(LastStatus(codecs, status));
          lastRetry := retry;
        } else {
          return Done(Ok(bytes));
        }
    }
    step := Again(LoopState(tries, lastStatus, lastRetry, lastError));
  }

  /** One round of the loop: the strategy says `Continue`, the attempt is made, and its reply decides the rest. */
  lemma RunFromContinue(p: Prepared, strategy: RequestStrategy, bound: nat, transport: Transport,
                        codecs: Codecs, s: LoopState)
    requires StopsBy(strategy, bound)
    requires strategy.test(s.lastStatus, s.lastRetry, s.tries).Continue?
    ensures var here := Attempt(strategy.test(s.lastStatus, s.lastRetry, s.tries).delay, p);
      var r := RunFrom(p, strategy, bound, transport, codecs, s);
      var step := Absorb(codecs, transport(s.tries), s);
      (step.Done? ==> r == Run(step.result, [here]))
      && (step.Again? ==>
            r == Run(RunFrom(p, strategy, bound, transport, codecs, step.next).result,
                     [here] + RunFrom(p, strategy, bound, transport, codecs, step.next).sent))
  {
  }

  /** `send_inner`: the retry loop over the variables `tries`, `last_status`, `last_retry_header` and `last_error`. */
  method SendInner(request: Request, strategy: RequestStrategy, bound: nat, transport: Transport,
                   codecs: Codecs) returns (r: Result<Bytes, StripeError>, sent: seq<Attempt>)
    requires StopsBy(strategy, bound)
    ensures Run(r, sent) == Send(request, strategy, bound, transport, codecs)
  {
    var tries: nat := 0;
    var lastStatus: Option<HttpStatus> := None;
    var lastRetry: Option<bool> := None;
    var lastError := ClientError("Invalid strategy");
    var request := WithKey(request, strategy.key);
    sent := [];
    if request.body.Err? {
      r := Err(FromHttpTypes(request.body.error));
      return;
    }
    var body := request.body.value;
    ghost var whole := RunFrom(Prepared(request.head, request.headers, body), strategy, bound, transport, codecs, Start);
    while true
      invariant var rest := RunFrom(Prepared(request.head, request.headers, body), strategy, bound, transport, codecs,
                                    LoopState(tries, lastStatus, lastRetry, lastError));
        whole == Run(rest.result, sent + rest.sent)
      decreases bound - tries
    {
      ghost var s := LoopState(tries, lastStatus, lastRetry, lastError);
      var outcome := strategy.test(lastStatus, lastRetry, tries);
      if outcome.Stop? {
        r := Err(lastError);
        return;
      }
      // `sleep(outcome.delay)` happens here; the trace records the delay.
      // Each attempt clones the keyed request and sets the body read before the loop.
      var attempt := Attempt(outcome.delay, Prepared(request.head, request.headers, body));
      RunFromContinue(attempt.request, strategy, bound, transport, codecs, s);
      ghost var before := sent;
      sent := sent + [attempt];
      var step := Receive(codecs, transport(tries), LoopState(tries, lastStatus, lastRetry, lastError));
      if step.Done? {
        r := step.result;
        return;
      }
      assert before + ([attempt] + RunFrom(attempt.request, strategy, bound, transport, codecs, step.next).sent)
          == sent + RunFrom(attempt.request, strategy, bound, transport, codecs, step.next).sent;
      tries, lastStatus, lastRetry, lastError := step.next.tries, step.next.lastStatus, step.next.lastRetry, step.next.lastError;
    }
  }

  /** `execute`'s decoding of what `send_inner` returned: UTF-8 first, then the response type. */
  function Decode<T>(codecs: Codecs, decode: string -> Option<T>, bytes: Result<Bytes, StripeError>): (r: Result<T, StripeError>)
    ensures r.Ok? <==> bytes.Ok? && codecs.utf8(bytes.value).Some? && decode(codecs.utf8(bytes.value).value).Some?
    ensures r.Ok? ==> decode(codecs.utf8(bytes.value).value) == Some(r.value)
    ensures bytes.Err? ==> r == Err(bytes.error)
    ensures bytes.Ok? && codecs.utf8(bytes.value).None? ==> r == Err(JSONDeserialize("Response was not valid UTF-8"))
    ensures bytes.Ok? && codecs.utf8(bytes.value).Some? && r.Err? ==> r == Err(JSONDeserialize("error deserializing request data"))
  {
    match bytes
    case Err(e) => Err(e)
    case Ok(b) =>
      match codecs.utf8(b)
      case None => Err(JSONDeserialize("Response was not valid UTF-8"))
      case Some(text) =>
        match decode(text)
        case None => Err(JSONDeserialize("error deserializing request data"))
        case Some(v) => Ok(v)
  }

  /** `TokioClient::execute`: run `send_inner`, then decode its bytes; the loop is not entered again. */
  method Execute<T>(request: Request, strategy: RequestStrategy, bound: nat, transport: Transport,
                    codecs: Codecs, decode: string -> Option<T>) returns (r: Result<T, StripeError>, sent: seq<Attempt>)
    requires StopsBy(strategy, bound)
    ensures var run := Send(request, strategy, bound, transport, codecs);
      r == Decode(codecs, decode, run.result) && sent == run.sent
  {
    var bytes;
    bytes, sent := SendInner(request, strategy, bound, transport, codecs);
    r := Decode(codecs, decode, bytes);
  }
  // Properties of the loop, stated under explicit assumptions about the strategy
  // and the replies, since the strategy itself is not part of this model.

  /** A strategy that stops at once sends nothing and returns the "invalid strategy" error. */
  lemma StopBeforeFirstAttempt(request: Request, strategy: RequestStrategy, bound: nat,
                               transport: Transport, codecs: Codecs)
    requires StopsBy(strategy, bound)
    requires request.body.Ok?
    requires strategy.test(None, None, 0).Stop?
    ensures Send(request, strategy, bound, transport, codecs) == Run(Err(ClientError("Invalid strategy")), [])
  {
  }

  /** With a key, every attempt carries the same `Idempotency-Key` header: the strategy's key. */
  lemma SameKeyEveryAttempt(request: Request, strategy: RequestStrategy, bound: nat,
                            transport: Transport, codecs: Codecs)
    requires StopsBy(strategy, bound)
    requires strategy.key.Some?
    ensures var run := Send(request, strategy, bound, transport, codecs);
      forall i :: 0 <= i < |run.sent| ==>
        "Idempotency-Key" in run.sent[i].request.headers
        && run.sent[i].request.headers["Idempotency-Key"] == strategy.key.value
  {
  }

  /** A reply that leaves no `Stripe-Should-Retry` value behind. */
  predicate SilentOnRetry(reply: Reply)
  {
    reply.Failed? || ShouldRetry(reply.shouldRetry).None?
  }

  /**
   * The strategy goes on while fewer than `n` tries were made and no
   * `Stripe-Should-Retry` value was seen, and stops at `n`.
   */
  ghost predicate RetriesUpTo(strategy: RequestStrategy, n: nat)
  {
    (forall status, tries: nat :: tries < n ==> strategy.test(status, None, tries).Continue?)
    && (forall status :: strategy.test(status, None, n).Stop?)
  }

  /** `RetryExhausts` from any state of the loop with `tries <= n`. */
  lemma {:induction false} ExhaustFrom(p: Prepared, strategy: RequestStrategy, bound: nat, transport: Transport,
                                       codecs: Codecs, n: nat, s: LoopState)
    requires StopsBy(strategy, bound)
    requires RetriesUpTo(strategy, n)
    requires s.tries <= n && s.lastRetry.None?
    requires forall k: nat :: s.tries <= k < n ==> Retriable(codecs, transport(k)) && SilentOnRetry(transport(k))
    ensures var r := RunFrom(p, strategy, bound, transport, codecs, s);
      |r.sent| == n - s.tries
      && r.result == Err(if s.tries == n then s.lastError else LeftError(codecs, transport(n - 1)))
    decreases n - s.tries
  {
    if s.tries < n {
      var step := Absorb(codecs, transport(s.tries), s);
      assert step.Again?;
      ExhaustFrom(p, strategy, bound, transport, codecs, n, step.next);
    }
  }

  /**
   * While every reply is a failure the loop goes round on, and the strategy
   * allows `n` tries, the request is sent exactly `n` times, each time with the
   * same body, and the result is an error.
   */
  lemma RetryExhausts(request: Request, strategy: RequestStrategy, bound: nat, transport: Transport,
                      codecs: Codecs, n: nat)
    requires StopsBy(strategy, bound)
    requires request.body.Ok?
    requires RetriesUpTo(strategy, n)
    requires forall k: nat :: k < n ==> Retriable(codecs, transport(k)) && SilentOnRetry(transport(k))
    ensures var run := Send(request, strategy, bound, transport, codecs);
      |run.sent| == n
      && run.result == Err(if n == 0 then ClientError("Invalid strategy") else LeftError(codecs, transport(n - 1)))
      && forall i :: 0 <= i < n ==> run.sent[i].request.body == request.body.value
  {
    var keyed := WithKey(request, strategy.key);
    ExhaustFrom(Prepared(keyed.head, keyed.headers, request.body.value), strategy, bound, transport, codecs, n, Start);
  }

  /** The test `retry`: `Retry(5)` against a server that always answers 500 makes 5 attempts and fails. */
  lemma ServerErrorFiveHits(request: Request, strategy: RequestStrategy, bound: nat, transport: Transport,
                            codecs: Codecs)
    requires StopsBy(strategy, bound)
    requires request.body.Ok?
    requires RetriesUpTo(strategy, 5)
    requires forall k: nat :: transport(k) == Responded(500, None, Ok([]))
    requires codecs.utf8([]) == Some("")
    ensures var run := Send(request, strategy, bound, transport, codecs);
      |run.sent| == 5 && run.result == Err(ResponseError(codecs, "", 500))
    ensures codecs.apiError("").None? ==>
      Send(request, strategy, bound, transport, codecs).result == Err(JSONDeserialize("Could not deserialize Stripe error"))
  {
    RetryExhausts(request, strategy, bound, transport, codecs, 5);
  }

  /** The test `retry_body`: each of the 5 attempts carries the request's body `"body"`. */
  lemma RetryBodyResent(request: Request, strategy: RequestStrategy, bound: nat, transport: Transport,
                        codecs: Codecs)
    requires StopsBy(strategy, bound)
    requires request.body == Ok([0x62, 0x6f, 0x64, 0x79])
    requires RetriesUpTo(strategy, 5)
    requires forall k: nat :: transport(k) == Responded(500, None, Ok([]))
    requires codecs.utf8([]) == Some("")
    ensures var run := Send(request, strategy, bound, transport, codecs);
      |run.sent| == 5 && run.result == Err(ResponseError(codecs, "", 500))
      && forall i :: 0 <= i < 5 ==> run.sent[i].request.body == [0x62, 0x6f, 0x64, 0x79]
  {
    RetryExhausts(request, strategy, bound, transport, codecs, 5);
  }

  /**
   * A first attempt answered with an error response, after which the strategy
   * stops: one attempt, and the error of that response, with its own status.
   */
  lemma StopAfterFirstError(request: Request, strategy: RequestStrategy, bound: nat, transport: Transport,
                            codecs: Codecs, status: HttpStatus, header: Option<HeaderValue>,
                            bytes: Bytes, text: string)
    requires StopsBy(strategy, bound)
    requires request.body.Ok?
    requires strategy.test(None, None, 0).Continue?
    requires transport(0) == Responded(status, header, Ok(bytes))
    requires !IsSuccess(status) && codecs.utf8(bytes) == Some(text)
    requires strategy.test(Some(LastStatus(codecs, status)), ShouldRetry(header), 1).Stop?
    ensures var run := Send(request, strategy, bound, transport, codecs);
      |run.sent| == 1 && run.result == Err(ResponseError(codecs, text, status))
  {
    var keyed := WithKey(request, strategy.key);
    var p := Prepared(keyed.head, keyed.headers, request.body.value);
    var after := Absorb(codecs, transport(0), Start).next;
    assert RunFrom(p, strategy, bound, transport, codecs, after).sent == [];
  }

  /** The test `retry_header`: `Stripe-Should-Retry: false` on a 500 stops after one attempt. */
  lemma ShouldRetryFalseOneHit(request: Request, strategy: RequestStrategy, bound: nat, transport: Transport,
                               codecs: Codecs)
    requires StopsBy(strategy, bound)
    requires request.body.Ok?
    requires strategy.test(None, None, 0).Continue?
    requires forall status, tries: nat :: strategy.test(status, Some(false), tries).Stop?
    requires transport(0) == Responded(500, Some(Visible("false")), Ok([]))
    requires codecs.utf8([]) == Some("")
    ensures var run := Send(request, strategy, bound, transport, codecs);
      |run.sent| == 1 && run.result == Err(ResponseError(codecs, "", 500))
  {
    StopAfterFirstError(request, strategy, bound, transport, codecs, 500, Some(Visible("false")), [], "");
  }

  /** The test `user_error`: a 404 with a Stripe error body, after which the strategy stops, gives one attempt and `Stripe(_, 404)`. */
  lemma UserErrorOneHit(request: Request, strategy: RequestStrategy, bound: nat, transport: Transport,
                        codecs: Codecs, bytes: Bytes, text: string, e: ApiErrors)
    requires StopsBy(strategy, bound)
    requires request.body.Ok?
    requires strategy.test(None, None, 0).Continue?
    requires strategy.test(Some(LastStatus(codecs, 404)), None, 1).Stop?
    requires transport(0) == Responded(404, None, Ok(bytes))
    requires codecs.utf8(bytes) == Some(text) && codecs.apiError(text) == Some(e)
    ensures var run := Send(request, strategy, bound, transport, codecs);
      |run.sent| == 1 && run.result == Err(Stripe(e, 404))
  {
    StopAfterFirstError(request, strategy, bound, transport, codecs, 404, None, bytes, text);
  }

  /** The test `user_error_transfers`: under a one-try strategy a 400 error is returned with status 400 and its parsed error. */
  lemma OnceKeepsStatus(request: Request, strategy: RequestStrategy, bound: nat, transport: Transport,
                        codecs: Codecs, bytes: Bytes, text: string, e: ApiErrors)
    requires StopsBy(strategy, bound)
    requires request.body.Ok?
    requires strategy.test(None, None, 0).Continue?
    requires forall status, retry :: strategy.test(status, retry, 1).Stop?
    requires transport(0) == Responded(400, None, Ok(bytes))
    requires codecs.utf8(bytes) == Some(text) && codecs.apiError(text) == Some(e)
    ensures var run := Send(request, strategy, bound, transport, codecs);
      |run.sent| == 1 && run.result == Err(Stripe(e, 400))
  {
    StopAfterFirstError(request, strategy, bound, transport, codecs, 400, None, bytes, text);
  }

  /**
   * A success on the first attempt is returned at once, and `execute` turns a
   * body that is UTF-8 but not of the response type into `JSONDeserialize`
   * without another attempt (the test `nice_serde_error`).
   */
  lemma UndecodableSuccessOneHit<T>(request: Request, strategy: RequestStrategy, bound: nat, transport: Transport,
                                    codecs: Codecs, decode: string -> Option<T>, status: HttpStatus,
                                    header: Option<HeaderValue>, bytes: Bytes, text: string)
    requires StopsBy(strategy, bound)
    requires request.body.Ok?
    requires strategy.test(None, None, 0).Continue?
    requires transport(0) == Responded(status, header, Ok(bytes)) && IsSuccess(status)
    requires codecs.utf8(bytes) == Some(text) && decode(text).None?
    ensures var run := Send(request, strategy, bound, transport, codecs);
      |run.sent| == 1 && run.result == Ok(bytes)
      && Decode(codecs, decode, run.result) == Err(JSONDeserialize("error deserializing request data"))
  {
  }
}
