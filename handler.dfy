/**
 * The webhook handler (main.go:97-191): one linear pipeline with an early exit
 * at every step. Every call counts as received; each exit answers 200, 400 or
 * 500 and moves at most one of the two failure counters.
 *
 * Reading the request, decoding and encoding JSON, the clock, the environment
 * and the HTTP client are not modelled; what each of them returned is a field
 * of `Inputs`.
 */
module Handler {
  import opened Wrappers
  import opened Notifications
  import opened Target
  import opened GoFormat
  import opened Text

  const StatusOK: int := 200
  const StatusBadRequest: int := 400
  const StatusInternalServerError: int := 500

  const EmptyBodyMessage: string := "got empty request body"
  const JsonContentType: string := "application/json"

  /** What the datastore answered: its status code and how reading its body went. */
  datatype StoreResponse = StoreResponse(statusCode: int, body: Result<string>)

  /**
   * Everything the handler learns from the outside world, in the order it asks:
   * whether the request has a body, whether reading it failed, what decoding
   * it gave, the receipt time formatted as RFC 3339 and with the index date
   * layout, whether encoding the stamped document and building the outbound
   * request failed, the `ES_USER` and `ES_PASS` environment values, and what
   * the HTTP client returned.
   */
  datatype Inputs = Inputs(
    bodyPresent: bool,
    bodyRead: Outcome,
    decoded: Result<Notification>,
    receivedAt: string,
    indexDate: string,
    marshal: Outcome,
    newRequest: Outcome,
    esUser: string,
    esPass: string,
    transport: Result<StoreResponse>)

  /** HTTP Basic credentials (RFC 7617). */
  datatype Credentials = Credentials(user: string, password: string)

  /** The write handed to the HTTP client. `document` is what was encoded as its body. */
  datatype OutboundRequest = OutboundRequest(
    verb: string,
    url: string,
    headers: map<string, string>,
    auth: Option<Credentials>,
    document: Notification)

  /** The answer to the caller: a status and, on failure, the error text written as body. */
  datatype Reply = Reply(status: int, error: Option<string>)

  /** Where the pipeline stopped. */
  datatype Exit =
    | Delivered
    | EmptyBody
    | BodyReadFailed
    | Undecodable
    | UnsupportedVersion
    | MarshalFailed
    | RequestBuildFailed
    | TransportFailed
    | ResponseReadFailed
    | StoreRejected

  /** The caller's fault: the exits counted as invalid. */
  predicate IsInvalid(e: Exit) {
    e == EmptyBody || e == Undecodable || e == UnsupportedVersion
  }

  /** A processing or downstream fault: the exits counted as errored. */
  predicate IsErrored(e: Exit) {
    e != Delivered && !IsInvalid(e)
  }

  /** The status each exit answers with. */
  function StatusOf(e: Exit): (status: int)
    ensures status == StatusOK <==> e == Delivered
    ensures status == StatusBadRequest <==> IsInvalid(e)
    ensures status == StatusInternalServerError <==> IsErrored(e)
  {
    match e
    case Delivered => StatusOK
    case EmptyBody | Undecodable | UnsupportedVersion => StatusBadRequest
    case BodyReadFailed | MarshalFailed | RequestBuildFailed
       | TransportFailed | ResponseReadFailed | StoreRejected => StatusInternalServerError
  }

  // ---------------------------------------------------------------------------
  // The pure pieces of the handler

  /** Go's integer division, which truncates toward zero. */
  function GoQuotient(a: int, b: int): int
    requires b > 0
  {
    if a >= 0 then a / b else -((-a) / b)
  }

  /** The datastore accepted the write: the status code's hundreds digit is 2. */
  function IsSuccessStatus(code: int): (ok: bool)
    ensures ok <==> 200 <= code <= 299
  {
    GoQuotient(code, 100) == 2
  }

  /** Credentials are attached only when both are non-empty. */
  function BasicAuth(user: string, password: string): (auth: Option<Credentials>)
    ensures auth.Some? <==> user != [] && password != []
    ensures auth.Some? ==> auth.value.user == user && auth.value.password == password
  {
    if |user| != 0 && |password| != 0 then Some(Credentials(user, password)) else None
  }

  /** Exactly the two headers set on every outbound request. */
  function RequestHeaders(cfg: Config): (headers: map<string, string>)
    ensures headers.Keys == {"User-Agent", "Content-Type"}
    ensures headers["User-Agent"] == VersionString(cfg)
    ensures headers["Content-Type"] == "application/json"
  {
    map["User-Agent" := VersionString(cfg), "Content-Type" := JsonContentType]
  }

  /** The text after the received version in the version-mismatch message. */
  function VersionMessageTail(): string {
    ", only version " + Quote(SupportedWebhookVersion) + " is supported."
  }

  /** The diagnostic for an unsupported version; it names both the received and the
      supported version. */
  function VersionMismatchMessage(version: string): (m: string)
    ensures Contains(m, Quote(version))
    ensures Contains(m, Quote(SupportedWebhookVersion))
  {
    var a, b := "Do not understand webhook version ", ", only version ";
    var x, y := Quote(version), Quote(SupportedWebhookVersion);
    assert VersionMessageTail() == b + y + " is supported" + ".";
    assert a + x + VersionMessageTail() == a + x + b + y + " is supported" + ".";
    ContainsEachPiece(a, x, b, y, " is supported", ".");
    a + x + VersionMessageTail()
  }

  /** The diagnostic for a non-2xx answer; it names the target, the status code and the
      store's response body. */
  function StoreErrorMessage(url: string, code: int, body: string): (m: string)
    ensures Contains(m, Quote(url))
    ensures Contains(m, Decimal(code))
    ensures Contains(m, body)
  {
    ContainsEachPiece("POST to Elasticsearch on ", Quote(url), " returned HTTP ", Decimal(code), ":  ", body);
    "POST to Elasticsearch on " + Quote(url) + " returned HTTP " + Decimal(code) + ":  " + body
  }

  // ---------------------------------------------------------------------------
  // The pipeline as a function of its inputs

  datatype Handled = Handled(exit: Exit, reply: Reply, sent: Option<OutboundRequest>)

  function Failed(e: Exit, message: string, sent: Option<OutboundRequest>): Handled {
    Handled(e, Reply(StatusOf(e), Some(message)), sent)
  }

  /**
   * What one call of the handler answers and what it hands to the HTTP client,
   * step by step as main.go:97-191 does it.
   */
  function Process(cfg: Config, inp: Inputs): (h: Handled)
    ensures h.reply.status == StatusOf(h.exit)
    ensures h.reply.error.None? <==> h.exit == Delivered
    ensures IsInvalid(h.exit) ==> h.sent.None?
  {
    if !inp.bodyPresent then Failed(EmptyBody, EmptyBodyMessage, None)
    else if inp.bodyRead.Fail? then Failed(BodyReadFailed, inp.bodyRead.error, None)
    else if inp.decoded.Err? then Failed(Undecodable, inp.decoded.error, None)
    else if inp.decoded.value.version != SupportedWebhookVersion then
      Failed(UnsupportedVersion, VersionMismatchMessage(inp.decoded.value.version), None)
    else
      var doc := Stamp(inp.decoded.value, inp.receivedAt);
      var url := TargetURL(cfg, inp.indexDate);
      if inp.marshal.Fail? then Failed(MarshalFailed, inp.marshal.error, None)
      else if inp.newRequest.Fail? then Failed(RequestBuildFailed, inp.newRequest.error, None)
      else
        Deliver(OutboundRequest("POST", url, RequestHeaders(cfg), BasicAuth(inp.esUser, inp.esPass), doc),
                inp.transport)
  }

  /** The outcome once `req` has been handed to the HTTP client. */
  function Deliver(req: OutboundRequest, transport: Result<StoreResponse>): (h: Handled)
    ensures h.sent == Some(req)
  {
    match transport
    case Err(e) => Failed(TransportFailed, e, Some(req))
    case Ok(resp) =>
      if resp.body.Err? then Failed(ResponseReadFailed, resp.body.error, Some(req))
      else if !IsSuccessStatus(resp.statusCode) then
        Failed(StoreRejected, StoreErrorMessage(req.url, resp.statusCode, resp.body.value), Some(req))
      else Handled(Delivered, Reply(StatusOK, None), Some(req))
  }

  // ---------------------------------------------------------------------------
  // The cases, stated on the inputs alone

  /** The request is the caller's fault: no body, or it was read but is not a
      version-4 notification. */
  predicate RejectedAsInvalid(inp: Inputs) {
    || !inp.bodyPresent
    || (inp.bodyRead.Pass? && (inp.decoded.Err? || inp.decoded.value.version != "4"))
  }

  /** Input validation passed and an outbound request was built. */
  predicate Dispatched(inp: Inputs) {
    && inp.bodyPresent && inp.bodyRead.Pass?
    && inp.decoded.Ok? && inp.decoded.value.version == "4"
    && inp.marshal.Pass? && inp.newRequest.Pass?
  }

  /** The datastore answered 2xx and its body could be read. */
  predicate StoreAccepted(inp: Inputs) {
    inp.transport.Ok? && inp.transport.value.body.Ok? && 200 <= inp.transport.value.statusCode < 300
  }

  /** 400 exactly for caller faults, 200 exactly for an accepted write, 500 for everything else. */
  lemma StatusClasses(cfg: Config, inp: Inputs)
    ensures Process(cfg, inp).reply.status == StatusBadRequest <==> RejectedAsInvalid(inp)
    ensures Process(cfg, inp).reply.status == StatusOK <==> Dispatched(inp) && StoreAccepted(inp)
    ensures Process(cfg, inp).reply.status == StatusInternalServerError
        <==> !RejectedAsInvalid(inp) && !(Dispatched(inp) && StoreAccepted(inp))
  {
  }

  /** A request goes out exactly when validation, encoding and request construction succeeded;
      in particular nothing is sent for invalid input. */
  lemma SentExactlyWhenDispatched(cfg: Config, inp: Inputs)
    ensures Process(cfg, inp).sent.Some? <==> Dispatched(inp)
    ensures RejectedAsInvalid(inp) ==> Process(cfg, inp).sent.None?
  {
  }

  /** The outbound request: a POST to the derived target, with the User-Agent and JSON
      content type, Basic credentials only when both are set, and the decoded
      notification with only its `@timestamp` replaced. */
  lemma OutboundRequestShape(cfg: Config, inp: Inputs)
    requires Dispatched(inp)
    ensures Process(cfg, inp).sent.Some?
    ensures var r := Process(cfg, inp).sent.value;
      && r.verb == "POST"
      && r.url == cfg.esURL + "/" + cfg.esIndexName + "-" + inp.indexDate + "/" + cfg.esType
      && r.headers.Keys == {"User-Agent", "Content-Type"}
      && r.headers["User-Agent"] == VersionString(cfg)
      && r.headers["Content-Type"] == "application/json"
      && (r.auth.Some? <==> inp.esUser != "" && inp.esPass != "")
      && (r.auth.Some? ==> r.auth == Some(Credentials(inp.esUser, inp.esPass)))
      && r.document.timestamp == inp.receivedAt
      && SameExceptTimestamp(r.document, inp.decoded.value)
  {
    var doc := Stamp(inp.decoded.value, inp.receivedAt);
    var req := OutboundRequest("POST", TargetURL(cfg, inp.indexDate), RequestHeaders(cfg),
                               BasicAuth(inp.esUser, inp.esPass), doc);
    assert Process(cfg, inp).sent == Some(req);
  }

  /** A 404 from the datastore reaches the caller as a 500 naming the status. */
  lemma StoreNotFoundIsServerError(cfg: Config, inp: Inputs, body: string)
    requires Dispatched(inp) && inp.transport == Ok(StoreResponse(404, Ok(body)))
    ensures Process(cfg, inp).exit == StoreRejected
    ensures Process(cfg, inp).reply.status == StatusInternalServerError
    ensures Contains(Process(cfg, inp).reply.error.value, "404")
  {
    assert Decimal(404) == NatString(40) + [DigitChar(4)] == NatString(4) + [DigitChar(0)] + [DigitChar(4)];
    assert Decimal(404) == "404";
    DiagnosticsNameTheirCause(cfg, inp);
  }

  // ---------------------------------------------------------------------------
  // Diagnostics

  /** The error text of the two diagnostic exits names what caused them. */
  lemma DiagnosticsNameTheirCause(cfg: Config, inp: Inputs)
    ensures var h := Process(cfg, inp);
      h.exit == UnsupportedVersion ==>
        && Contains(h.reply.error.value, Quote(inp.decoded.value.version))
        && Contains(h.reply.error.value, Quote(SupportedWebhookVersion))
    ensures var h := Process(cfg, inp);
      h.exit == StoreRejected ==>
        && Contains(h.reply.error.value, Quote(TargetURL(cfg, inp.indexDate)))
        && Contains(h.reply.error.value, Decimal(inp.transport.value.statusCode))
        && Contains(h.reply.error.value, inp.transport.value.body.value)
  {
    var h := Process(cfg, inp);
    if h.exit == UnsupportedVersion {
      assert h.reply.error.value == VersionMismatchMessage(inp.decoded.value.version);
    } else if h.exit == StoreRejected {
      var resp := inp.transport.value;
      assert h.reply.error.value == StoreErrorMessage(TargetURL(cfg, inp.indexDate), resp.statusCode, resp.body.value);
    }
  }

  /** The version-mismatch text determines the version that was received. */
  lemma VersionMessageDeterminesVersion(v1: string, v2: string)
    ensures VersionMismatchMessage(v1) == VersionMismatchMessage(v2) ==> v1 == v2
  {
    var pre := "Do not understand webhook version ";
    assert VersionMismatchMessage(v1) == pre + Quote(v1) + VersionMessageTail();
    assert VersionMismatchMessage(v2) == pre + Quote(v2) + VersionMessageTail();
    if VersionMismatchMessage(v1) == VersionMismatchMessage(v2) {
      CancelAround(pre, Quote(v1), Quote(v2), VersionMessageTail());
      QuoteInjective(v1, v2);
    }
  }

  /** The non-2xx text cut where its pieces meet: after the opening quote, at
      the closing quote and at the colon after the code. */
  lemma StoreMessagePieces(u: string, c: int, b: string)
    ensures StoreErrorMessage(u, c, b)
         == ("POST to Elasticsearch on " + ['"'])
          + (Escape(u) + ['"'] + (" returned HTTP " + (Decimal(c) + [':'] + ("  " + b))))
  {
    assert Quote(u) == ['"'] + Escape(u) + ['"'];
    assert ":  " == [':'] + "  ";
    Regroup("POST to Elasticsearch on ", '"', Escape(u), " returned HTTP ", Decimal(c), ':', "  ", b);
  }

  /**
   * The non-2xx text determines the target, the status code and the body: the
   * quoted target ends at its first unescaped quote, and the digits of the code
   * end at the colon after them.
   */
  lemma StoreMessageDeterminesCause(u1: string, c1: int, b1: string, u2: string, c2: int, b2: string)
    ensures StoreErrorMessage(u1, c1, b1) == StoreErrorMessage(u2, c2, b2) ==>
      u1 == u2 && c1 == c2 && b1 == b2
  {
    if StoreErrorMessage(u1, c1, b1) == StoreErrorMessage(u2, c2, b2) {
      var t1 := " returned HTTP " + (Decimal(c1) + [':'] + ("  " + b1));
      var t2 := " returned HTTP " + (Decimal(c2) + [':'] + ("  " + b2));
      StoreMessagePieces(u1, c1, b1);
      StoreMessagePieces(u2, c2, b2);
      DropPrefix("POST to Elasticsearch on " + ['"'], Escape(u1) + ['"'] + t1, Escape(u2) + ['"'] + t2);
      ReadEscaped(u1, t1);
      ReadEscaped(u2, t2);
      DropPrefix(" returned HTTP ", Decimal(c1) + [':'] + ("  " + b1), Decimal(c2) + [':'] + ("  " + b2));
      DecimalBeforeColon(c1, "  " + b1, c2, "  " + b2);
      DropPrefix("  ", b1, b2);
    }
  }

  // ---------------------------------------------------------------------------
  // Counters

  /** The three counters' values. */
  datatype Counters = Counters(received: nat, invalid: nat, errored: nat)

  const Zero: Counters := Counters(0, 0, 0)

  /** The counters after one call that stopped at `e`. */
  function Count(c: Counters, e: Exit): (d: Counters)
    ensures d.received == c.received + 1
    ensures IsInvalid(e) ==> d.invalid == c.invalid + 1 && d.errored == c.errored
    ensures IsErrored(e) ==> d.errored == c.errored + 1 && d.invalid == c.invalid
    ensures e == Delivered ==> d.invalid == c.invalid && d.errored == c.errored
  {
    match e
    case Delivered => c.(received := c.received + 1)
    case EmptyBody | Undecodable | UnsupportedVersion =>
      c.(received := c.received + 1, invalid := c.invalid + 1)
    case BodyReadFailed | MarshalFailed | RequestBuildFailed
       | TransportFailed | ResponseReadFailed | StoreRejected =>
      c.(received := c.received + 1, errored := c.errored + 1)
  }

  /** The counters after the handler has been called on each of `trace` in turn. */
  function Replay(c: Counters, cfg: Config, trace: seq<Inputs>): Counters
    decreases |trace|
  {
    if trace == [] then c else Replay(Count(c, Process(cfg, trace[0]).exit), cfg, trace[1..])
  }

  function Rejections(trace: seq<Inputs>): nat
    decreases |trace|
  {
    if trace == [] then 0
    else (if RejectedAsInvalid(trace[0]) then 1 else 0) + Rejections(trace[1..])
  }

  function Deliveries(trace: seq<Inputs>): nat
    decreases |trace|
  {
    if trace == [] then 0
    else (if Dispatched(trace[0]) && StoreAccepted(trace[0]) then 1 else 0) + Deliveries(trace[1..])
  }

  /**
   * Over any sequence of calls: `received` grows by the number of calls,
   * `invalid` by the number of caller faults, and every remaining call that was
   * not delivered moved `errored`, once.
   */
  lemma {:induction false} ReplayCounts(c: Counters, cfg: Config, trace: seq<Inputs>)
    ensures var d := Replay(c, cfg, trace);
      && d.received == c.received + |trace|
      && d.invalid == c.invalid + Rejections(trace)
      && d.errored + Rejections(trace) + Deliveries(trace) == c.errored + |trace|
    decreases |trace|
  {
    if trace != [] {
      StatusClasses(cfg, trace[0]);
      ReplayCounts(Count(c, Process(cfg, trace[0]).exit), cfg, trace[1..]);
    }
  }

  /** From start-up, `received` equals the number of calls so far. */
  lemma ReceivedCountsCalls(cfg: Config, trace: seq<Inputs>)
    ensures Replay(Zero, cfg, trace).received == |trace|
    ensures Replay(Zero, cfg, trace).invalid + Replay(Zero, cfg, trace).errored <= |trace|
  {
    ReplayCounts(Zero, cfg, trace);
  }

  // ---------------------------------------------------------------------------
  // The handler

  /** The process-wide counters, and the handler that updates them. */
  class Metrics {
    var received: nat
    var invalid: nat
    var errored: nat

    constructor ()
      ensures received == 0 && invalid == 0 && errored == 0
    {
      received, invalid, errored := 0, 0, 0;
    }

    function Snapshot(): Counters
      reads this
    {
      Counters(received, invalid, errored)
    }

    /** One webhook call: answers the caller, says what was sent to the datastore, and
        moves the counters. */
    method Handle(cfg: Config, inp: Inputs) returns (reply: Reply, sent: Option<OutboundRequest>)
      modifies this
      ensures reply == Process(cfg, inp).reply && sent == Process(cfg, inp).sent
      ensures Snapshot() == Count(old(Snapshot()), Process(cfg, inp).exit)
      ensures received == old(received) + 1
      ensures reply.status == StatusBadRequest ==>
        invalid == old(invalid) + 1 && errored == old(errored) && sent.None?
      ensures reply.status == StatusInternalServerError ==>
        errored == old(errored) + 1 && invalid == old(invalid)
      ensures reply.status == StatusOK ==> invalid == old(invalid) && errored == old(errored)
    {
      received := received + 1;
      sent := None;

      if !inp.bodyPresent {
        invalid := invalid + 1;
        reply := Reply(StatusBadRequest, Some(EmptyBodyMessage));
        return;
      }

      if inp.bodyRead.Fail? {
        errored := errored + 1;
        reply := Reply(StatusInternalServerError, Some(inp.bodyRead.error));
        return;
      }

      if inp.decoded.Err? {
        invalid := invalid + 1;
        reply := Reply(StatusBadRequest, Some(inp.decoded.error));
        return;
      }
      var msg := inp.decoded.value;

      if msg.version != SupportedWebhookVersion {
        invalid := invalid + 1;
        reply := Reply(StatusBadRequest, Some(VersionMismatchMessage(msg.version)));
        return;
      }

      msg := msg.(timestamp := inp.receivedAt);
      assert msg == Stamp(inp.decoded.value, inp.receivedAt);

      var index := IndexPath(cfg, inp.indexDate);
      var url := cfg.esURL + "/" + index;
      assert url == TargetURL(cfg, inp.indexDate);

      if inp.marshal.Fail? {
        errored := errored + 1;
        reply := Reply(StatusInternalServerError, Some(inp.marshal.error));
        return;
      }

      if inp.newRequest.Fail? {
        errored := errored + 1;
        reply := Reply(StatusInternalServerError, Some(inp.newRequest.error));
        return;
      }
      var req := OutboundRequest("POST", url, map[], None, msg);

      req := req.(headers := req.headers["User-Agent" := VersionString(cfg)]);
      req := req.(headers := req.headers["Content-Type" := JsonContentType]);

      if |inp.esUser| != 0 && |inp.esPass| != 0 {
        req := req.(auth := Some(Credentials(inp.esUser, inp.esPass)));
      }

      assert req.headers == RequestHeaders(cfg);
      assert req.auth == BasicAuth(inp.esUser, inp.esPass);
      sent := Some(req);
      if inp.transport.Err? {
        errored := errored + 1;
        reply := Reply(StatusInternalServerError, Some(inp.transport.error));
        return;
      }
      var resp := inp.transport.value;

      if resp.body.Err? {
        errored := errored + 1;
        reply := Reply(StatusInternalServerError, Some(resp.body.error));
        return;
      }

      if !IsSuccessStatus(resp.statusCode) {
        errored := errored + 1;
        reply := Reply(StatusInternalServerError,
                       Some(StoreErrorMessage(url, resp.statusCode, resp.body.value)));
        return;
      }

      reply := Reply(StatusOK, None);
    }
  }
}
