/** The writer's HTTP chain: authentication, routing, the submission handler (internal/writer/httpserver). */
module HttpServer {
  import opened Text
  import opened Notifications
  import opened ErrorTrees
  import opened Ingest
  import Bearer

  datatype BodyRead = BodyRead(bytes: Bytes) | BodyUnreadable

  /** A request; `idempotencyKey` holds the header's values when the header is there. */
  datatype Request = Request(
    verb: string,
    path: string,
    authorization: string,
    contentType: string,
    idempotencyKey: Option<seq<string>>,
    body: BodyRead)

  /** A response: status, problem type, Retry-After, reported field errors, accepted id and time. */
  datatype Response = Response(
    status: nat,
    problem: string,
    retryAfter: Option<string>,
    fields: seq<FieldError>,
    data: Option<(string, Time)>)

  datatype Submission = Submission(outcome: string, service: string)

  const LABEL_ACCEPTED := "accepted"
  const LABEL_VALIDATION_FAILED := "validation_failed"
  const LABEL_AUTH_FAILED := "auth_failed"
  const LABEL_SUBSTRATE_UNAVAILABLE := "substrate_unavailable"
  const LABEL_INTERNAL := "internal"

  /** Library behaviour the handlers rely on: JSON decoding, header binding, the router's own answers. */
  datatype Library = Library(
    parseJson: Bytes -> Option<Notification>,
    bindKey: string -> Option<string>,
    unmatched: (string, string) -> nat)

  function Problem(status: nat, problem: string): Response {
    Response(status, problem, None, [], None)
  }

  // --- Decoding the body ----------------------------------------------------------------------------

  /** The media type without parameters, in lower case and trimmed. */
  function ContentTypeOf(header: string): string {
    TrimSpace(ToLower(Split(header, ';')[0]))
  }

  datatype Decoded = Decoded(n: Notification) | NotDecoded(status: nat)

  function DecodeBody(
    contentType: string, body: BodyRead, parseJson: Bytes -> Option<Notification>, codec: Codec): Decoded {
    if body.BodyUnreadable? then NotDecoded(400)
    else
      var ct := ContentTypeOf(contentType);
      if ct == "application/json" then DecodedOr400(parseJson(body.bytes))
      else if ct == "application/x-protobuf" || ct == "application/protobuf" then
        DecodedOr400(codec.unmarshal(body.bytes))
      else NotDecoded(415)
  }

  function DecodedOr400(n: Option<Notification>): Decoded {
    match n
    case None => NotDecoded(400)
    case Some(n) => Decoded(n)
  }

  /** Parameters after a semicolon never change how a body is decoded. */
  lemma ParametersIgnored(mediaType: string, parameters: string)
    requires ';' !in mediaType
    ensures ContentTypeOf(mediaType + ";" + parameters) == ContentTypeOf(mediaType)
  {
    SplitAtSeparator(mediaType, parameters, ';');
    SplitFree(mediaType, ';');
  }

  // --- Mapping the ingester's errors --------------------------------------------------------------------

  /** The metric label of a failed Accept (outcomeForIngestError). */
  function LabelOf(err: Err): string {
    if As(err, ValidationKind).Some? then LABEL_VALIDATION_FAILED
    else
      var pe := As(err, PublishKind);
      if pe.Some? && pe.value.transient then LABEL_SUBSTRATE_UNAVAILABLE else LABEL_INTERNAL
  }

  /** The response to a failed Accept (writeIngestError). */
  function ProblemOf(err: Err): Response {
    var verr := As(err, ValidationKind);
    if verr.Some? then Response(400, "validation-failed", None, verr.value.fields, None)
    else
      var pe := As(err, PublishKind);
      if pe.Some? then
        if pe.value.transient then Response(503, "substrate-unavailable", Some("5"), [], None)
        else Problem(500, "internal")
      else Problem(500, "internal")
  }

  /** The substrate refused for now: no validation error in the tree, first publish error transient. */
  predicate IsOutage(err: Err) {
    !Holds(err, ValidationKind) && As(err, PublishKind).Some? && As(err, PublishKind).value.transient
  }

  /** The two mappings agree on every error tree. */
  lemma MappingsAgree(err: Err)
    ensures LabelOf(err) == LABEL_VALIDATION_FAILED <==> ProblemOf(err).status == 400
    ensures LabelOf(err) == LABEL_SUBSTRATE_UNAVAILABLE <==> ProblemOf(err).status == 503
    ensures LabelOf(err) == LABEL_INTERNAL <==> ProblemOf(err).status == 500
    ensures ProblemOf(err).status == 400 <==> Holds(err, ValidationKind)
    ensures ProblemOf(err).status == 503 <==> IsOutage(err)
    ensures ProblemOf(err).retryAfter.Some? <==> ProblemOf(err).status == 503
    ensures ProblemOf(err).status in {400, 500, 503}
  {
    AsFindsHeld(err, ValidationKind);
  }

  function AnswerTo(result: Accepted): Response {
    match result
    case Accepted(id, at) => Response(202, "", None, [], Some((id, at)))
    case Refused(err) => ProblemOf(err)
  }

  function LabelFor(result: Accepted): string {
    match result
    case Accepted(_, _) => LABEL_ACCEPTED
    case Refused(err) => LabelOf(err)
  }

  // --- One request through the chain ----------------------------------------------------------------------

  /** What a request leaves behind: the response, the submission counted for it, the publisher's calls. */
  datatype Exchange = Exchange(response: Response, counted: Option<Submission>, calls: seq<PublishInput>)

  /** Everything fixed while a request is served. */
  datatype Setup = Setup(index: map<string, string>, library: Library, codec: Codec, absolute: UrlCheck)

  function WithKey(n: Notification, key: Option<string>): Notification {
    if key.Some? then n.(idempotencyKey := key.value) else n
  }

  /** The handler's answer to one effect of Accept. */
  ghost predicate IsAnswer(
    x: Exchange, e: Effect, cfg: Setup, n: Notification, service: string, reading: Reading,
    calls: seq<PublishInput>, answer: Option<Err>)
  {
    && IsEffect(e, n, service, reading, cfg.codec, cfg.absolute, calls, answer)
    && x == Exchange(AnswerTo(e.result), Some(Submission(LabelFor(e.result), service)), e.calls)
  }

  /** Every way the handler can serve a request, given the principal its context carries. */
  ghost predicate IsSubmitted(
    x: Exchange, cfg: Setup, req: Request, principal: Option<string>, key: Option<string>, reading: Reading,
    calls: seq<PublishInput>, answer: Option<Err>)
  {
    match DecodeBody(req.contentType, req.body, cfg.library.parseJson, cfg.codec)
    case NotDecoded(status) =>
      && x.response == Problem(status, if status == 415 then "unsupported-content-type" else "validation-failed")
      && x.counted == Some(Submission(LABEL_VALIDATION_FAILED, ""))
      && x.calls == calls
    case Decoded(n) =>
      match principal
      case None =>
        x == Exchange(Problem(401, "authentication-required"), Some(Submission(LABEL_AUTH_FAILED, "")), calls)
      case Some(service) => exists e :: IsAnswer(x, e, cfg, WithKey(n, key), service, reading, calls, answer)
  }

  datatype Bound = Bound(key: Option<string>) | Unbindable

  /** The generated wrapper: without exactly one bindable value it calls an error handler that is not set. */
  function BindKey(values: Option<seq<string>>, bindKey: string -> Option<string>): Bound {
    if values.None? then Bound(None)
    else if |values.value| != 1 then Unbindable
    else
      var key := bindKey(values.value[0]);
      if key.None? then Unbindable else Bound(key)
  }

  /** Every way the whole chain can serve a request. */
  ghost predicate IsServed(
    x: Exchange, cfg: Setup, req: Request, reading: Reading, calls: seq<PublishInput>, answer: Option<Err>)
  {
    if req.path == "/healthz" then x == Exchange(Problem(204, ""), None, calls)
    else match Bearer.Authenticate(cfg.index, req.authorization)
      case NoCredentials => x == Exchange(Problem(401, "authentication-required"), None, calls)
      case InvalidCredentials => x == Exchange(Problem(401, "authentication-failed"), None, calls)
      case Authenticated(service) =>
        if !(req.verb == "POST" && req.path == "/notifications") then
          x == Exchange(Problem(cfg.library.unmatched(req.verb, req.path), ""), None, calls)
        else match BindKey(req.idempotencyKey, cfg.library.bindKey)
          case Unbindable => x == Exchange(Problem(500, ""), None, calls)
          case Bound(key) => IsSubmitted(x, cfg, req, Some(service), key, reading, calls, answer)
  }

  class Server {
    const index: map<string, string>
    const library: Library
    const ingester: Ingester
    var submissions: seq<Submission>

    constructor (index: map<string, string>, library: Library, ingester: Ingester)
      ensures this.index == index && this.library == library && this.ingester == ingester && submissions == []
    {
      this.index, this.library, this.ingester := index, library, ingester;
      submissions := [];
    }

    function Configured(): Setup {
      Setup(index, library, ingester.codec, ingester.absolute)
    }

    /** recover, request id, access log, conditional authentication, route. */
    method Serve(req: Request, reading: Reading) returns (resp: Response, ghost counted: Option<Submission>)
      modifies this`submissions, ingester.publisher
      ensures submissions == old(submissions) + if counted.Some? then [counted.value] else []
      ensures IsServed(Exchange(resp, counted, ingester.publisher.calls), Configured(), req, reading,
                       old(ingester.publisher.calls), ingester.publisher.answers(|old(ingester.publisher.calls)|))
    {
      counted := None;
      if req.path == "/healthz" {
        return Problem(204, ""), counted;
      }
      var auth := Bearer.Authenticate(index, req.authorization);
      match auth
      case NoCredentials => resp := Problem(401, "authentication-required");
      case InvalidCredentials => resp := Problem(401, "authentication-failed");
      case Authenticated(service) =>
        if req.verb == "POST" && req.path == "/notifications" {
          resp, counted := Dispatch(req, service, reading);
        } else {
          resp := Problem(library.unmatched(req.verb, req.path), "");
        }
    }

    /** The generated wrapper and, around it, the recovery of its panic. */
    method Dispatch(req: Request, service: string, reading: Reading)
      returns (resp: Response, ghost counted: Option<Submission>)
      modifies this`submissions, ingester.publisher
      ensures submissions == old(submissions) + if counted.Some? then [counted.value] else []
      ensures var x := Exchange(resp, counted, ingester.publisher.calls);
        match BindKey(req.idempotencyKey, library.bindKey)
        case Unbindable => x == Exchange(Problem(500, ""), None, old(ingester.publisher.calls))
        case Bound(key) => IsSubmitted(x, Configured(), req, Some(service), key, reading, old(ingester.publisher.calls),
                                       ingester.publisher.answers(|old(ingester.publisher.calls)|))
    {
      match BindKey(req.idempotencyKey, library.bindKey)
      case Unbindable => resp, counted := Problem(500, ""), None;
      case Bound(key) => resp, counted := SubmitNotification(req, Some(service), key, reading);
    }

    method Count(outcome: string, service: string)
      modifies this`submissions
      ensures submissions == old(submissions) + [Submission(outcome, service)]
    {
      submissions := submissions + [Submission(outcome, service)];
    }

    method SubmitNotification(req: Request, principal: Option<string>, key: Option<string>, reading: Reading)
      returns (resp: Response, ghost counted: Option<Submission>)
      modifies this`submissions, ingester.publisher
      ensures counted.Some? && submissions == old(submissions) + [counted.value]
      ensures IsSubmitted(Exchange(resp, counted, ingester.publisher.calls), Configured(), req, principal, key, reading,
                          old(ingester.publisher.calls), ingester.publisher.answers(|old(ingester.publisher.calls)|))
    {
      var decoded := DecodeBody(req.contentType, req.body, library.parseJson, ingester.codec);
      if decoded.NotDecoded? {
        var problem := if decoded.status == 415 then "unsupported-content-type" else "validation-failed";
        resp := Problem(decoded.status, problem);
        Count(LABEL_VALIDATION_FAILED, "");
        return resp, Some(Submission(LABEL_VALIDATION_FAILED, ""));
      }
      if principal.None? {
        Count(LABEL_AUTH_FAILED, "");
        return Problem(401, "authentication-required"), Some(Submission(LABEL_AUTH_FAILED, ""));
      }
      var service := principal.value;
      var n := new Ingest.Message(WithKey(decoded.n, key));
      var result := ingester.Accept(n, service, reading);
      ghost var e := Effect(n.value, ingester.publisher.calls, result);
      resp := AnswerTo(result);
      Count(LabelFor(result), service);
      counted := Some(Submission(LabelFor(result), service));
      assert IsAnswer(
          Exchange(resp, counted, ingester.publisher.calls), e, Configured(), WithKey(decoded.n, key), service, reading,
          old(ingester.publisher.calls), ingester.publisher.answers(|old(ingester.publisher.calls)|));
    }
  }

  // --- What every exchange keeps ----------------------------------------------------------------------------

  /** The router's own answers: cleaned-path redirects, not found, method not allowed. */
  ghost predicate RouterAnswers(library: Library) {
    forall verb, path :: library.unmatched(verb, path) in {301, 404, 405}
  }

  predicate ReachesHandler(cfg: Setup, req: Request) {
    && req.path == "/notifications" && req.verb == "POST"
    && Bearer.Authenticate(cfg.index, req.authorization).Authenticated?
    && BindKey(req.idempotencyKey, cfg.library.bindKey).Bound?
  }

  function ServiceFor(cfg: Setup, req: Request): string
    requires ReachesHandler(cfg, req)
  {
    Bearer.Authenticate(cfg.index, req.authorization).service
  }

  /** The notification the handler hands to Accept. */
  function Submitted(cfg: Setup, req: Request): Option<Notification>
    requires ReachesHandler(cfg, req)
  {
    match DecodeBody(req.contentType, req.body, cfg.library.parseJson, cfg.codec)
    case NotDecoded(_) => None
    case Decoded(n) => Some(WithKey(n, BindKey(req.idempotencyKey, cfg.library.bindKey).key))
  }

  lemma AnswerExists(
    x: Exchange, cfg: Setup, req: Request, service: string, key: Option<string>, reading: Reading,
    calls: seq<PublishInput>, answer: Option<Err>) returns (e: Effect)
    requires IsSubmitted(x, cfg, req, Some(service), key, reading, calls, answer)
    requires DecodeBody(req.contentType, req.body, cfg.library.parseJson, cfg.codec).Decoded?
    ensures var n := DecodeBody(req.contentType, req.body, cfg.library.parseJson, cfg.codec).n;
            IsAnswer(x, e, cfg, WithKey(n, key), service, reading, calls, answer)
  {
    var n := DecodeBody(req.contentType, req.body, cfg.library.parseJson, cfg.codec).n;
    e :| IsAnswer(x, e, cfg, WithKey(n, key), service, reading, calls, answer);
  }

  /** A request that is counted reached the handler; one that publishes was decoded and accepted for publishing. */
  lemma ServedParts(
    x: Exchange, cfg: Setup, req: Request, reading: Reading, calls: seq<PublishInput>, answer: Option<Err>)
    returns (e: Option<Effect>)
    requires IsServed(x, cfg, req, reading, calls, answer)
    ensures x.counted.Some? <==> ReachesHandler(cfg, req)
    ensures e.Some? <==> ReachesHandler(cfg, req) && Submitted(cfg, req).Some?
    ensures e.Some? ==>
      IsAnswer(x, e.value, cfg, Submitted(cfg, req).value, ServiceFor(cfg, req), reading, calls, answer)
    ensures e.None? ==> x.calls == calls
    ensures e.None? && x.counted.Some? ==>
      x.counted.value == Submission(LABEL_VALIDATION_FAILED, "") && x.response.status in {400, 415}
      && x.response.retryAfter.None?
    ensures x.counted.None? ==>
      x.response.status in {204, 401, 500} || x.response.status == cfg.library.unmatched(req.verb, req.path)
    ensures x.counted.None? ==> x.response.retryAfter.None?
  {
    e := None;
    if ReachesHandler(cfg, req) {
      var n := Submitted(cfg, req);
      if n.Some? {
        var key := BindKey(req.idempotencyKey, cfg.library.bindKey).key;
        assert IsSubmitted(x, cfg, req, Some(ServiceFor(cfg, req)), key, reading, calls, answer);
        var found := AnswerExists(x, cfg, req, ServiceFor(cfg, req), key, reading, calls, answer);
        e := Some(found);
      }
    }
  }

  /**
   * A request that leads to a publish was not for /healthz, carried a token of the loaded file, and what it
   * published names the service that the file's last line for that token gives, whatever its body said.
   */
  lemma PublishIsAuthenticated(
    x: Exchange, cfg: Setup, req: Request, reading: Reading, calls: seq<PublishInput>, answer: Option<Err>)
    returns (sent: Notification)
    requires IsServed(x, cfg, req, reading, calls, answer)
    ensures x.calls != calls ==>
      && req.path == "/notifications" && req.verb == "POST"
      && (forall lines | Bearer.AgreesWithScan(cfg.index, lines) ::
            NamedByLastLine(lines, Bearer.BearerToken(req.authorization), sent.originatingService))
      && reading.id == Id(sent.id) && sent.createdAt == Some(TruncateToMillis(reading.instant))
      && cfg.codec.marshal(sent).Some? && x.calls == calls + [PublishInput(cfg.codec.marshal(sent).value, sent.id)]
  {
    var e := ServedParts(x, cfg, req, reading, calls, answer);
    if e.None? {
      sent :| true;
      return;
    }
    var service := ServiceFor(cfg, req);
    AtMostOnePublish(e.value, Submitted(cfg, req).value, service, reading, cfg.codec, cfg.absolute, calls, answer);
    sent := e.value.value;
    forall lines | Bearer.AgreesWithScan(cfg.index, lines)
      ensures NamedByLastLine(lines, Bearer.BearerToken(req.authorization), service)
    {
      Bearer.LookupIsScan(cfg.index, lines, req.authorization, service);
    }
  }

  /** The last line that names the token gives this service. */
  predicate NamedByLastLine(lines: seq<string>, token: string, service: string) {
    exists i | 0 <= i < |lines| :: Bearer.IsLastNaming(lines, i, token) && Bearer.ServiceOn(lines[i]) == service
  }

  lemma PublishedAnswer(
    x: Exchange, e: Effect, cfg: Setup, n: Notification, service: string, reading: Reading, calls: seq<PublishInput>,
    answer: Option<Err>)
    requires IsAnswer(x, e, cfg, n, service, reading, calls, answer) && x.calls != calls
    ensures |x.calls| == |calls| + 1
    ensures answer.None? ==> x.response.status == 202
    ensures answer.Some? ==> x.response == ProblemOf(answer.value) && x.response.status in {400, 500, 503}
  {
    if answer.Some? {
      MappingsAgree(answer.value);
    }
  }

  /** Without a publish the notification was invalid, its id could not be drawn, or it could not be encoded. */
  lemma UnpublishedEffect(
    e: Effect, n: Notification, service: string, reading: Reading, codec: Codec, absolute: UrlCheck,
    calls: seq<PublishInput>, answer: Option<Err>)
    requires IsEffect(e, n, service, reading, codec, absolute, calls, answer) && e.calls == calls
    ensures e.result.Refused?
    ensures || (!WellFormed(n, absolute) && e.result.err.ValidationError?)
            || (reading.id.NoId? && e.result.err == Wrapped("ingest: generate notification_id", reading.id.cause))
            || e.result.err == Wrapped("ingest: marshal notification", Opaque("proto: marshal"))
  {
    if WellFormed(n, absolute) && reading.id.Id? {
      assert |e.calls| == |calls|;
    }
  }

  lemma WrappingKeepsProblem(text: string, cause: Err)
    ensures ProblemOf(Wrapped(text, cause)) == ProblemOf(cause)
  {
  }

  lemma UnpublishedAnswer(
    x: Exchange, e: Effect, cfg: Setup, n: Notification, service: string, reading: Reading, calls: seq<PublishInput>,
    answer: Option<Err>)
    requires IsAnswer(x, e, cfg, n, service, reading, calls, answer) && x.calls == calls
    ensures || (x.response.status == 400 && !WellFormed(n, cfg.absolute))
            || x.response.status == 500
            || (reading.id.NoId? && x.response == ProblemOf(reading.id.cause) && x.response.status in {400, 503})
  {
    UnpublishedEffect(e, n, service, reading, cfg.codec, cfg.absolute, calls, answer);
    MappingsAgree(e.result.err);
    if e.result.err.Wrapped? {
      WrappingKeepsProblem(e.result.err.text, e.result.err.inner);
    }
  }

  /** How status, metric label and Retry-After go together. */
  predicate Consistent(x: Exchange) {
    && (x.response.status == 202 <==> x.counted.Some? && x.counted.value.outcome == LABEL_ACCEPTED)
    && (x.response.status == 503 <==> x.counted.Some? && x.counted.value.outcome == LABEL_SUBSTRATE_UNAVAILABLE)
    && (x.response.status in {400, 415} <==> x.counted.Some? && x.counted.value.outcome == LABEL_VALIDATION_FAILED)
    && (x.counted.Some? && x.counted.value.outcome == LABEL_INTERNAL ==> x.response.status == 500)
    && (x.response.retryAfter.Some? <==> x.response.status == 503)
    && (x.counted.Some? ==> x.counted.value.outcome != LABEL_AUTH_FAILED)
    && (x.response.status == 401 ==> x.counted.None?)
  }

  lemma ExchangeConsistent(
    x: Exchange, cfg: Setup, req: Request, reading: Reading, calls: seq<PublishInput>, answer: Option<Err>)
    requires IsServed(x, cfg, req, reading, calls, answer) && RouterAnswers(cfg.library)
    ensures Consistent(x)
  {
    var e := ServedParts(x, cfg, req, reading, calls, answer);
    if e.Some? {
      match e.value.result
      case Accepted(_, _) =>
      case Refused(err) => MappingsAgree(err);
    }
  }

  /**
   * Response and publish history, for every request and every error tree the publisher may answer with:
   * never more than one publish, 202 exactly for one that succeeded, and 503 after a publish exactly for an outage.
   * A request answered as invalid has published nothing, unless the publisher's own answer holds a validation error.
   */
  lemma StatusTellsHistory(
    x: Exchange, cfg: Setup, req: Request, reading: Reading, calls: seq<PublishInput>, answer: Option<Err>)
    requires IsServed(x, cfg, req, reading, calls, answer) && RouterAnswers(cfg.library)
    ensures x.calls == calls || |x.calls| == |calls| + 1
    ensures x.response.status == 202 <==> x.calls != calls && answer.None?
    ensures x.calls != calls ==> (x.response.status == 503 <==> answer.Some? && IsOutage(answer.value))
    ensures x.response.status == 503 && x.calls == calls ==> reading.id.NoId? && IsOutage(reading.id.cause)
    ensures x.response.status in {400, 415} && x.calls != calls <==>
            x.calls != calls && answer.Some? && Holds(answer.value, ValidationKind)
  {
    var e := ServedParts(x, cfg, req, reading, calls, answer);
    if e.Some? {
      if x.calls == calls {
        UnpublishedAnswer(x, e.value, cfg, Submitted(cfg, req).value, ServiceFor(cfg, req), reading, calls, answer);
      } else {
        PublishedAnswer(x, e.value, cfg, Submitted(cfg, req).value, ServiceFor(cfg, req), reading, calls, answer);
      }
    }
    if answer.Some? {
      MappingsAgree(answer.value);
    }
    if reading.id.NoId? {
      MappingsAgree(reading.id.cause);
    }
  }

  lemma TransientPublishIsOutage(err: Err)
    requires err.PublishError? && err.transient && !Holds(err.inner, ValidationKind)
    ensures IsOutage(err)
  {
    assert As(err, PublishKind) == Some(err);
  }

  /** With the real publisher, which marks every failure transient, a publish ends in 202 or in 503. */
  lemma ApachePublishEnds(
    x: Exchange, cfg: Setup, req: Request, reading: Reading, calls: seq<PublishInput>, answer: Option<Err>)
    requires IsServed(x, cfg, req, reading, calls, answer) && RouterAnswers(cfg.library) && x.calls != calls
    requires answer.Some? ==>
      answer.value.PublishError? && answer.value.transient && !Holds(answer.value.inner, ValidationKind)
    ensures x.response.status == if answer.None? then 202 else 503
  {
    StatusTellsHistory(x, cfg, req, reading, calls, answer);
    if answer.Some? {
      TransientPublishIsOutage(answer.value);
    }
  }

  /** A repeated Idempotency-Key header is answered 500, uncounted and unpublished, whoever sends it. */
  lemma RepeatedKeyFails(
    x: Exchange, cfg: Setup, req: Request, reading: Reading, calls: seq<PublishInput>, answer: Option<Err>)
    requires IsServed(x, cfg, req, reading, calls, answer) && req.path == "/notifications" && req.verb == "POST"
    requires req.idempotencyKey.Some? && |req.idempotencyKey.value| > 1
    ensures x.calls == calls && x.counted.None? && x.response.status in {401, 500}
    ensures x.response.status == 500 <==> Bearer.Authenticate(cfg.index, req.authorization).Authenticated?
  {
  }
}
