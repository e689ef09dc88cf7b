/**
 * notification/webhook/webhook.go: a notifier that renders each message with the template of its
 * kind and sends it to a configured URL, retrying a failed delivery a bounded number of times.
 * URL parsing and the HTTP transport are outside the model: `parses` says which URLs `url.Parse`
 * accepts, and `respond(k, i)` is what attempt i of message k ends with. The notifier keeps the
 * configured URL string; Go sends to, and logs, `n.url.String()`, the parsed URL written back
 * out, which may differ from it in spelling.
 */
module Webhook {
  import opened Wrappers
  import opened Velero
  import opened Message
  import opened Classifier

  /** The `Config` this file declares. */
  datatype Config = Config(name: string, url: string, verb: string)

  /** The templates a notifier holds; this revision only ever holds the two defaults. */
  datatype Template = DefaultWarnTemplate | DefaultErrTemplate

  datatype Notifier = Notifier(name: string, verb: string, url: string, warnTmpl: Template, errTmpl: Template)

  /** `fmt.Errorf("parsing URL: %s", err)`, identified here by the URL that failed. */
  datatype NewError = ParsingURL(url: string)

  /** `New`: a URL that does not parse fails construction; otherwise the notifier keeps the
      configured name, method and URL, and the default warning and error templates. */
  function New(cfg: Config, parses: string -> bool): (r: Result<Notifier, NewError>)
    ensures r.Failure? <==> !parses(cfg.url)
    ensures r.Failure? ==> r.error == ParsingURL(cfg.url)
    ensures r.Success? ==>
      && r.value.name == cfg.name && r.value.verb == cfg.verb && r.value.url == cfg.url
      && r.value.warnTmpl == DefaultWarnTemplate && r.value.errTmpl == DefaultErrTemplate
  {
    if !parses(cfg.url) then Failure(ParsingURL(cfg.url))
    else Success(Notifier(cfg.name, cfg.verb, cfg.url, DefaultWarnTemplate, DefaultErrTemplate))
  }

  /** The opening of each default template, up to and including its "type" value. */
  const WarnHead := "\n{\n    \"type\": \"warning\""
  const ErrHead := "\n{\n    \"type\":\"error\""

  /** What the default templates render for a backup (`{{.Name}}` and `{{.Status.Phase}}`). */
  function Render(t: Template, b: Backup): string {
    match t
    case DefaultWarnTemplate =>
      WarnHead + ",\n    \"backup\":{\n        \"name\": \"" + b.name
        + "\",\n        \"state\": \"" + b.phase + "\"\n    }\n}\n"
    case DefaultErrTemplate =>
      ErrHead + ",\n    \"backup\":{\n        \"name\": \"" + b.name
        + "\",\n        \"state\": \"" + b.phase + "\"\n    }\n}"
  }

  /** The request body for one message: the buffer is reset, then filled by the template of the
      message's kind; a message of neither kind leaves it empty. */
  function Payload(n: Notifier, m: Message): string {
    match m
    case Warning(b) => Render(n.warnTmpl, b)
    case Error(b) => Render(n.errTmpl, b)
    case Foreign(_, _) => ""
  }

  predicate StartsWith(s: string, p: string) {
    |p| <= |s| && s[..|p|] == p
  }

  /** Reads the "type" of a rendered body back from its opening. */
  function PayloadKind(body: string): Option<Severity> {
    if StartsWith(body, WarnHead) then Some(WarningSeverity)
    else if StartsWith(body, ErrHead) then Some(ErrorSeverity)
    else None
  }

  /** A notifier built by `New` sends a Warning with "type": "warning" and an Error with
      "type":"error", so the receiver can tell the kind from the body alone. */
  lemma PayloadCarriesKind(cfg: Config, parses: string -> bool, m: Message)
    requires New(cfg, parses).Success?
    ensures m.Warning? ==> PayloadKind(Payload(New(cfg, parses).value, m)) == Some(WarningSeverity)
    ensures m.Error? ==> PayloadKind(Payload(New(cfg, parses).value, m)) == Some(ErrorSeverity)
    ensures m.Foreign? ==> PayloadKind(Payload(New(cfg, parses).value, m)) == None
  {
    var body := Payload(New(cfg, parses).value, m);
    if m.Warning? {
      assert body[..|WarnHead|] == WarnHead;
    } else if m.Error? {
      assert body[..|ErrHead|] == ErrHead;
      assert body[14] == '"' != WarnHead[14];
    }
  }

  // ----- delivery with retry (`retry.Do` with `retry.Attempts(3)`) -----

  /** How one attempt of the retried closure ends, as seen by the closure. */
  datatype Attempt =
    | RequestInvalid                            // `http.NewRequest` returned an error
    | NoResponse                                // `client.Do` returned a nil response
    | Answered(status: int, transportError: bool) // a response, and whether `client.Do` also erred

  datatype Request = Request(verb: string, url: string, body: string)

  const MaxAttempts: nat := 3

  datatype Outcome = Delivered | Retryable | Unrecoverable

  /** The closure's verdict: a construction error is unrecoverable; a nil response or a status
      above 399 is a retryable failure; otherwise the error `client.Do` returned decides. */
  function Judge(a: Attempt): Outcome {
    match a
    case RequestInvalid => Unrecoverable
    case NoResponse => Retryable
    case Answered(status, err) => if status > 399 || err then Retryable else Delivered
  }

  /** Whether the closure seeks the body reader back to its start (`br.Seek(0, io.SeekStart)`). */
  predicate Rewinds(a: Attempt) {
    a.NoResponse? || (a.Answered? && a.status > 399)
  }

  /** Whether attempts i, i+1, ... of message k deliver it: an unrecoverable attempt ends the
      retries with a failure, a retryable one passes on to the next attempt. */
  predicate Delivers(respond: (nat, nat) -> Attempt, k: nat, i: nat)
    requires i <= MaxAttempts
    decreases MaxAttempts - i
  {
    i < MaxAttempts &&
      match Judge(respond(k, i))
      case Delivered => true
      case Retryable => Delivers(respond, k, i + 1)
      case Unrecoverable => false
  }

  /** The requests sent by attempts i, i+1, ... of message k. `atStart` says whether the body
      reader is at its start, so that a request carries the whole payload; a request that reaches
      the transport consumes it. */
  function Sent(n: Notifier, payload: string, respond: (nat, nat) -> Attempt, k: nat, i: nat, atStart: bool)
    : seq<Request>
    requires i <= MaxAttempts
    decreases MaxAttempts - i
  {
    if i == MaxAttempts || respond(k, i).RequestInvalid? then []
    else
      [Request(n.verb, n.url, if atStart then payload else "")]
        + (if Judge(respond(k, i)) == Delivered then []
           else Sent(n, payload, respond, k, i + 1, Rewinds(respond(k, i))))
  }

  /** Unfolding one attempt. */
  lemma AttemptStep(n: Notifier, payload: string, respond: (nat, nat) -> Attempt, k: nat, i: nat, atStart: bool)
    requires i < MaxAttempts
    ensures respond(k, i).RequestInvalid? ==>
      Sent(n, payload, respond, k, i, atStart) == [] && !Delivers(respond, k, i)
    ensures Judge(respond(k, i)) == Delivered ==>
      Sent(n, payload, respond, k, i, atStart) == [Request(n.verb, n.url, if atStart then payload else "")]
      && Delivers(respond, k, i)
    ensures Judge(respond(k, i)) == Retryable ==>
      && Sent(n, payload, respond, k, i, atStart)
        == [Request(n.verb, n.url, if atStart then payload else "")] + Sent(n, payload, respond, k, i + 1, Rewinds(respond(k, i)))
      && Delivers(respond, k, i) == Delivers(respond, k, i + 1)
  {
  }

  /** `retry.Do` around the request closure, for message k. */
  method Deliver(n: Notifier, payload: string, respond: (nat, nat) -> Attempt, k: nat)
    returns (requests: seq<Request>, failed: bool)
    ensures requests == Sent(n, payload, respond, k, 0, true)
    ensures failed == !Delivers(respond, k, 0)
  {
    requests, failed := [], true;
    var i, atStart := 0, true;
    ghost var sent, delivers := Sent(n, payload, respond, k, 0, true), Delivers(respond, k, 0);
    while i < MaxAttempts
      invariant 0 <= i <= MaxAttempts
      invariant failed
      invariant sent == requests + Sent(n, payload, respond, k, i, atStart)
      invariant delivers == Delivers(respond, k, i)
    {
      var a := respond(k, i);
      AttemptStep(n, payload, respond, k, i, atStart);
      if a.RequestInvalid? {
        return;
      }
      requests := requests + [Request(n.verb, n.url, if atStart then payload else "")];
      if Judge(a) == Delivered {
        failed := false;
        return;
      }
      atStart := Rewinds(a);
      i := i + 1;
    }
  }

  /** At most three requests per message. */
  lemma {:induction false} AtMostThreeAttempts(n: Notifier, payload: string, respond: (nat, nat) -> Attempt, k: nat, i: nat, atStart: bool)
    requires i <= MaxAttempts
    ensures |Sent(n, payload, respond, k, i, atStart)| <= MaxAttempts - i
    decreases MaxAttempts - i
  {
    if i < MaxAttempts && !respond(k, i).RequestInvalid? && Judge(respond(k, i)) != Delivered {
      AtMostThreeAttempts(n, payload, respond, k, i + 1, Rewinds(respond(k, i)));
    }
  }

  /** A request that cannot be built is not retried and nothing is sent. */
  lemma UnrecoverableSendsNothing(n: Notifier, payload: string, respond: (nat, nat) -> Attempt, k: nat)
    requires respond(k, 0) == RequestInvalid
    ensures Sent(n, payload, respond, k, 0, true) == []
    ensures !Delivers(respond, k, 0)
  {
  }

  /** One failure followed by a success: exactly two requests, both with the payload, no error. */
  lemma OneFailureThenSuccess(n: Notifier, payload: string, respond: (nat, nat) -> Attempt, k: nat)
    requires Rewinds(respond(k, 0))
    requires respond(k, 1).Answered? && Judge(respond(k, 1)) == Delivered
    ensures Sent(n, payload, respond, k, 0, true)
      == [Request(n.verb, n.url, payload), Request(n.verb, n.url, payload)]
    ensures Delivers(respond, k, 0)
  {
    assert Sent(n, payload, respond, k, 1, true) == [Request(n.verb, n.url, payload)] + [];
  }

  /** A destination that always answers above 399 receives exactly three requests and the
      delivery fails. */
  lemma AlwaysFailingGetsThree(n: Notifier, payload: string, respond: (nat, nat) -> Attempt, k: nat)
    requires forall i :: 0 <= i < MaxAttempts ==> respond(k, i).Answered? && respond(k, i).status > 399
    ensures Sent(n, payload, respond, k, 0, true)
      == [Request(n.verb, n.url, payload), Request(n.verb, n.url, payload), Request(n.verb, n.url, payload)]
    ensures !Delivers(respond, k, 0)
  {
    var req := Request(n.verb, n.url, payload);
    assert respond(k, 0).status > 399 && respond(k, 1).status > 399 && respond(k, 2).status > 399;
    assert Sent(n, payload, respond, k, 2, true) == [req] + Sent(n, payload, respond, k, 3, true) == [req];
    assert Sent(n, payload, respond, k, 1, true) == [req] + [req];
    assert !Delivers(respond, k, 2);
  }

  /** The delivery succeeds exactly when some attempt is delivered after only retryable failures. */
  lemma {:induction false} DeliveredIff(respond: (nat, nat) -> Attempt, k: nat, i: nat)
    requires i <= MaxAttempts
    ensures Delivers(respond, k, i) <==>
      exists j :: i <= j < MaxAttempts && Judge(respond(k, j)) == Delivered
        && forall l :: i <= l < j ==> Judge(respond(k, l)) == Retryable
    decreases MaxAttempts - i
  {
    if i < MaxAttempts && Judge(respond(k, i)) == Retryable {
      DeliveredIff(respond, k, i + 1);
      if Delivers(respond, k, i) {
        var j :| i + 1 <= j < MaxAttempts && Judge(respond(k, j)) == Delivered
          && forall l :: i + 1 <= l < j ==> Judge(respond(k, l)) == Retryable;
        assert forall l :: i <= l < j ==> Judge(respond(k, l)) == Retryable;
      }
    }
  }

  /** Every request carries the whole payload as long as no attempt gets a response below 400
      together with an error (the one retryable case in which the reader is not rewound). */
  lemma {:induction false} BodiesIntact(n: Notifier, payload: string, respond: (nat, nat) -> Attempt, k: nat, i: nat)
    requires i <= MaxAttempts
    requires forall j :: i <= j < MaxAttempts ==> Judge(respond(k, j)) == Retryable ==> Rewinds(respond(k, j))
    ensures forall r | r in Sent(n, payload, respond, k, i, true) :: r == Request(n.verb, n.url, payload)
    decreases MaxAttempts - i
  {
    if i < MaxAttempts && !respond(k, i).RequestInvalid? && Judge(respond(k, i)) != Delivered {
      BodiesIntact(n, payload, respond, k, i + 1);
    }
  }

  /** The exception: a redirect-policy failure (a 3xx response returned with an error) is retried
      without rewinding, and the retry sends an empty body. */
  lemma ErrorWithResponseSendsEmptyRetry(n: Notifier, payload: string, respond: (nat, nat) -> Attempt, k: nat)
    requires respond(k, 0) == Answered(302, true) && respond(k, 1) == Answered(200, false)
    ensures Sent(n, payload, respond, k, 0, true)
      == [Request(n.verb, n.url, payload), Request(n.verb, n.url, "")]
    ensures Delivers(respond, k, 0)
  {
    assert Sent(n, payload, respond, k, 1, false) == [Request(n.verb, n.url, "")] + [];
  }

  // ----- the receive loop -----

  /** The error logged after a message could not be delivered. */
  datatype FailureLog = SendingFailed(name: string, url: string, attempts: nat)

  /** The failure log of one message, if its delivery failed. */
  function FailureOf(n: Notifier, delivered: bool): seq<FailureLog> {
    if delivered then [] else [SendingFailed(n.name, n.url, MaxAttempts)]
  }

  /** Requests and failure logs for the messages `ms`, message k being `ms[k]`. */
  function Traffic(n: Notifier, ms: seq<Message>, respond: (nat, nat) -> Attempt)
    : (seq<Request>, seq<FailureLog>)
  {
    if ms == [] then ([], [])
    else
      var pre := Traffic(n, ms[..|ms| - 1], respond);
      var k := |ms| - 1;
      (pre.0 + Sent(n, Payload(n, ms[k]), respond, k, 0, true), pre.1 + FailureOf(n, Delivers(respond, k, 0)))
  }

  /** A message that could not be delivered does not stop the channel: the traffic of a longer
      intake is the traffic of its prefix followed by that of the next message. */
  lemma TrafficStep(n: Notifier, ms: seq<Message>, respond: (nat, nat) -> Attempt, i: nat)
    requires i < |ms|
    ensures Traffic(n, ms[..i + 1], respond).0
      == Traffic(n, ms[..i], respond).0 + Sent(n, Payload(n, ms[i]), respond, i, 0, true)
    ensures Traffic(n, ms[..i + 1], respond).1
      == Traffic(n, ms[..i], respond).1 + FailureOf(n, Delivers(respond, i, 0))
  {
    assert ms[..i + 1][..i] == ms[..i];
  }

  /** `Run`'s goroutine: for every message received until the intake is closed, render it, deliver
      it with retry, and log an error when delivery failed; then move on to the next message. */
  method Run(n: Notifier, intake: seq<Message>, respond: (nat, nat) -> Attempt)
    returns (requests: seq<Request>, failures: seq<FailureLog>)
    ensures requests == Traffic(n, intake, respond).0
    ensures failures == Traffic(n, intake, respond).1
  {
    requests, failures := [], [];
    for i := 0 to |intake|
      invariant requests == Traffic(n, intake[..i], respond).0
      invariant failures == Traffic(n, intake[..i], respond).1
    {
      TrafficStep(n, intake, respond, i);
      var sent, failed := Deliver(n, Payload(n, intake[i]), respond, i);
      requests := requests + sent;
      failures := failures + FailureOf(n, !failed);
    }
    assert intake[..|intake|] == intake;
  }

  /** At most three requests and one failure log per message received. */
  lemma {:induction false} TrafficBound(n: Notifier, ms: seq<Message>, respond: (nat, nat) -> Attempt)
    ensures |Traffic(n, ms, respond).0| <= MaxAttempts * |ms|
    ensures |Traffic(n, ms, respond).1| <= |ms|
  {
    if ms != [] {
      var k := |ms| - 1;
      AtMostThreeAttempts(n, Payload(n, ms[k]), respond, k, 0, true);
      TrafficBound(n, ms[..k], respond);
    }
  }
}
