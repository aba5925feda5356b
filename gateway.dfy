/** The upstream side of web_api_client.py: the headers make_atlas_request
    sends, how it turns the outcome of the HTTP call into the JSON envelope
    and status returned to the browser, and a whole /api/ request from the
    JSON body to the reply. The HTTP call itself (digest authentication,
    timeout, transport) is not modelled: its outcome is an input. */
module Gateway {
  import opened Wrappers
  import opened Json
  import opened Router

  const NetworkError := "A network error occurred."
  const UnexpectedError := "An unexpected server error occurred."
  const AckMessage := "Action completed successfully."
  const HttpErrorPrefix := "HTTP Error: "

  /** The prepared request that requests attaches to an HTTPError: method,
      URL and the headers as sent, digest Authorization header included. */
  datatype SentRequest = SentRequest(verb: string, url: string, headers: map<string, string>)

  /** Whether `response.json()` decodes the body; when it does not, the raw
      text and the decoder's message. */
  datatype BodyParse = Parsed(json: Value) | Unparsable(text: string, decodeError: string)

  /** What `requests.request(...)` produces: a response (whose request may be
      missing), a requests exception (connection refused, DNS failure,
      timeout, invalid URL), or any other exception. */
  datatype Exchange =
    | Response(status: int, reason: string, body: BodyParse, request: Option<SentRequest>)
    | Transport(message: string)
    | Unexpected(message: string)

  datatype Details = JsonDetails(json: Value) | TextDetails(text: string)

  datatype DebugInfo = DebugInfo(verb: string, url: string, headers: map<string, string>)

  /** The JSON the browser receives: the upstream JSON unchanged, the
      acknowledgement of a 204, or an error object. */
  datatype Envelope =
    | Passthrough(json: Value)
    | Acknowledged
    | Error(error: string, details: Option<Details>, debugInfo: Option<DebugInfo>)

  /** A JSON reply with its status, or Flask's own 500 page for an exception
      that escaped a handler. */
  datatype Reply = JsonReply(envelope: Envelope, status: int) | ServerErrorPage(cause: PyException)

  /** The two headers make_atlas_request sets on every call. */
  function OutboundHeaders(call: ResolvedCall): map<string, string> {
    map["Accept" := call.accept, "Content-Type" := call.contentType]
  }

  /** For every forwarded request, make_atlas_request passes exactly two
      headers to requests, Accept and Content-Type: the processor media type
      as Accept on the processor routes and the instance media type on all
      others; Content-Type is the instance media type on create_connection
      and application/json everywhere else. */
  lemma ResolvedHeaders(route: Route, body: Value)
    requires Resolve(route, body).Success?
    ensures var headers := OutboundHeaders(Resolve(route, body).value);
            && headers.Keys == {"Accept", "Content-Type"}
            && headers["Accept"] == (if ResourceOf(route) == Processor then ProcessorsMediaType else InstancesMediaType)
            && headers["Content-Type"] == (if route == CreateConnection then InstancesMediaType else JsonMediaType)
  {
    var call := Resolve(route, body).value;
    assert call == TableCall(route, body);
  }

  /** `raise_for_status` raises for the client-error (4xx) and server-error
      (5xx) classes of section 15 of RFC 9110, and for nothing else. */
  predicate RaisesForStatus(status: int) {
    400 <= status < 600
  }

  function HttpErrorLine(status: int, reason: string): string {
    HttpErrorPrefix + IntText(status) + " " + reason
  }

  /** The try/except of make_atlas_request around the HTTP call. */
  function Normalise(outcome: Exchange): (r: Reply)
    // No exception escapes make_atlas_request.
    ensures r.JsonReply?
    // 204 No Content (section 15.3.5 of RFC 9110) is acknowledged with 200,
    // whatever the body.
    ensures outcome.Response? && outcome.status == 204 ==> r == JsonReply(Acknowledged, 200)
    // Any other non-error response with a JSON body is passed through unchanged.
    ensures (outcome.Response? && !RaisesForStatus(outcome.status) && outcome.status != 204 && outcome.body.Parsed?)
            ==> r == JsonReply(Passthrough(outcome.body.json), 200)
    // An HTTP error keeps the upstream status and reports status, reason and body.
    ensures outcome.Response? && RaisesForStatus(outcome.status) ==>
              && r.status == outcome.status
              && r.envelope.Error?
              && r.envelope.error == HttpErrorLine(outcome.status, outcome.reason)
              && r.envelope.details == Some(match outcome.body
                                            case Parsed(v) => JsonDetails(v)
                                            case Unparsable(text, _) => TextDetails(text))
    // Debug information appears only on HTTP errors whose request is known,
    // and then echoes that request's method, URL and headers.
    ensures r.envelope.Error? && r.envelope.debugInfo.Some? <==>
              outcome.Response? && RaisesForStatus(outcome.status) && outcome.request.Some?
    ensures r.envelope.Error? && r.envelope.debugInfo.Some? ==>
              var sent := outcome.request.value;
              r.envelope.debugInfo.value == DebugInfo(sent.verb, sent.url, sent.headers)
    // A non-error response other than 204 whose body is not JSON makes
    // response.json() raise requests' JSONDecodeError, a RequestException.
    ensures (outcome.Response? && !RaisesForStatus(outcome.status) && outcome.status != 204 && outcome.body.Unparsable?)
            ==> r == JsonReply(Error(NetworkError, Some(TextDetails(outcome.body.decodeError)), None), 500)
    // Transport failures and unexpected exceptions are 500s with the message.
    ensures outcome.Transport? ==> r == JsonReply(Error(NetworkError, Some(TextDetails(outcome.message)), None), 500)
    ensures outcome.Unexpected? ==> r == JsonReply(Error(UnexpectedError, Some(TextDetails(outcome.message)), None), 500)
    // Status 200 means the upstream call succeeded.
    ensures r.status == 200 <==>
              outcome.Response? && !RaisesForStatus(outcome.status) && (outcome.status == 204 || outcome.body.Parsed?)
  {
    match outcome
    case Response(status, reason, body, request) =>
      if RaisesForStatus(status) then
        var details := match body
          case Parsed(v) => JsonDetails(v)
          case Unparsable(text, _) => TextDetails(text);
        var debug := match request
          case None => None
          case Some(sent) => Some(DebugInfo(sent.verb, sent.url, sent.headers));
        JsonReply(Error(HttpErrorLine(status, reason), Some(details), debug), status)
      else if status == 204 then
        JsonReply(Acknowledged, 200)
      else
        // `response.json()` on a body that is not JSON raises requests'
        // JSONDecodeError, which is a RequestException and so lands in the
        // network-error handler.
        (match body
         case Parsed(v) => JsonReply(Passthrough(v), 200)
         case Unparsable(_, decodeError) => JsonReply(Error(NetworkError, Some(TextDetails(decodeError)), None), 500))
    case Transport(message) =>
      JsonReply(Error(NetworkError, Some(TextDetails(message)), None), 500)
    case Unexpected(message) =>
      JsonReply(Error(UnexpectedError, Some(TextDetails(message)), None), 500)
  }

  // ---------------------------------------------------------------------
  // The envelope as JSON.

  function DetailsJson(details: Details): Value {
    match details
    case JsonDetails(v) => v
    case TextDetails(t) => Str(t)
  }

  function HeadersJson(headers: map<string, string>): (v: Value)
    ensures v.Object? && v.fields.Keys == headers.Keys
    ensures forall k :: k in headers ==> v.fields[k] == Str(headers[k])
  {
    Object(map k | k in headers :: Str(headers[k]))
  }

  /** The JSON object jsonify produces for an envelope. */
  function ToJson(envelope: Envelope): (v: Value)
    ensures envelope.Passthrough? ==> v == envelope.json
    ensures envelope.Acknowledged? ==>
              v.Object? && v.fields.Keys == {"success", "message"}
              && v.fields["success"] == Bool(true) && v.fields["message"] == Str(AckMessage)
    ensures envelope.Error? ==>
              && v.Object? && "error" in v.fields && v.fields["error"] == Str(envelope.error)
              && ("details" in v.fields <==> envelope.details.Some?)
              && ("debug_info" in v.fields <==> envelope.debugInfo.Some?)
              && v.fields.Keys <= {"error", "details", "debug_info"}
    // details hold the parsed body, or the text as a JSON string.
    ensures envelope.Error? && envelope.details.Some? && envelope.details.value.JsonDetails? ==>
              v.fields["details"] == envelope.details.value.json
    ensures envelope.Error? && envelope.details.Some? && envelope.details.value.TextDetails? ==>
              v.fields["details"] == Str(envelope.details.value.text)
    // debug_info is {method, url, headers}, the headers as a string-valued object.
    ensures envelope.Error? && envelope.debugInfo.Some? ==>
              var info, debug := envelope.debugInfo.value, v.fields["debug_info"];
              && debug.Object? && debug.fields.Keys == {"method", "url", "headers"}
              && debug.fields["method"] == Str(info.verb) && debug.fields["url"] == Str(info.url)
              && debug.fields["headers"].Object?
              && debug.fields["headers"].fields.Keys == info.headers.Keys
              && (forall k :: k in info.headers ==> debug.fields["headers"].fields[k] == Str(info.headers[k]))
  {
    match envelope
    case Passthrough(v) => v
    case Acknowledged => Object(map["success" := Bool(true), "message" := Str(AckMessage)])
    case Error(error, details, debug) =>
      var base := map["error" := Str(error)];
      var withDetails := if details.Some? then base["details" := DetailsJson(details.value)] else base;
      var withDebug :=
        if debug.None? then withDetails
        else
          var info := debug.value;
          withDetails["debug_info" := Object(map["method" := Str(info.verb), "url" := Str(info.url),
                                                 "headers" := HeadersJson(info.headers)])];
      Object(withDebug)
  }

  /** The JSON the page receives for an HTTP error: the error line, the
      parsed body or its raw text as details, and debug_info exactly when
      the response carries its request, holding that request's method and
      URL. */
  lemma HttpErrorJson(outcome: Exchange)
    requires outcome.Response? && RaisesForStatus(outcome.status)
    ensures var v := ToJson(Normalise(outcome).envelope);
            && v.Object? && Normalise(outcome).status == outcome.status
            && v.fields["error"] == Str(HttpErrorLine(outcome.status, outcome.reason))
            && v.fields["details"] == (match outcome.body
                                       case Parsed(json) => json
                                       case Unparsable(text, _) => Str(text))
            && ("debug_info" in v.fields <==> outcome.request.Some?)
            && (outcome.request.Some? ==>
                  && v.fields["debug_info"].fields["method"] == Str(outcome.request.value.verb)
                  && v.fields["debug_info"].fields["url"] == Str(outcome.request.value.url))
  {
    var envelope := Normalise(outcome).envelope;
    assert envelope.details.Some?;
  }

  /** The JSON the page receives for a failed transport, another exception,
      or a non-error response whose body is not JSON: exactly an error marker
      and the message as details, with status 500. */
  lemma FailureJson(outcome: Exchange)
    requires outcome.Transport? || outcome.Unexpected?
             || (outcome.Response? && !RaisesForStatus(outcome.status) && outcome.status != 204 && outcome.body.Unparsable?)
    ensures var v := ToJson(Normalise(outcome).envelope);
            && Normalise(outcome).status == 500
            && v.Object? && v.fields.Keys == {"error", "details"}
            && v.fields["error"] == Str(if outcome.Unexpected? then UnexpectedError else NetworkError)
            && v.fields["details"] == Str(if outcome.Response? then outcome.body.decodeError else outcome.message)
  {
    var envelope := Normalise(outcome).envelope;
    assert envelope.details.Some? && envelope.debugInfo.None?;
  }

  // ---------------------------------------------------------------------
  // A whole request: route, JSON body, and the outcome of the upstream call
  // if one is made.

  /** The reply to a request and the upstream calls made for it. */
  function Serve(route: Route, body: Value, upstream: Exchange): (r: (Reply, seq<ResolvedCall>))
    // At most one call, and exactly when the request resolves to it.
    ensures Resolve(route, body).Success? ==> r.1 == [Resolve(route, body).value]
    ensures Resolve(route, body).Failure? ==> r.1 == []
    // A rejected request is a 400 carrying only the handler's message.
    ensures Resolve(route, body).Failure? && Resolve(route, body).error.InputError? ==>
              r.0 == JsonReply(Error(Resolve(route, body).error.message, None, None), 400)
    // An exception raised in the handler escapes to the framework.
    ensures Resolve(route, body).Failure? && Resolve(route, body).error.Uncaught? ==>
              r.0 == ServerErrorPage(Resolve(route, body).error.exception)
    // Otherwise the reply is whatever make_atlas_request makes of the outcome.
    ensures Resolve(route, body).Success? ==> r.0 == Normalise(upstream)
  {
    match Resolve(route, body)
    case Failure(InputError(message)) => (JsonReply(Error(message, None, None), 400), [])
    case Failure(Uncaught(exception)) => (ServerErrorPage(exception), [])
    case Success(call) => (Normalise(upstream), [call])
  }

  /** A request that makes no upstream call gets a reply that does not
      depend on what the upstream would have answered. */
  lemma RejectionIgnoresUpstream(route: Route, body: Value, one: Exchange, other: Exchange)
    requires Serve(route, body, one).1 == []
    ensures Serve(route, body, one).0 == Serve(route, body, other).0
  {
  }

  // ---------------------------------------------------------------------
  // Reading a reply back: the error taxonomy as the browser can see it.

  /** The kinds of reply: success; the client's input refused before any
      call; the upstream's refusal; a failed transport; an internal failure;
      an exception that escaped a handler; anything else. */
  datatype Category =
    | Delivered
    | InputRejected
    | UpstreamRejected
    | TransportFailed
    | InternalFailed
    | Crashed
    | Unrecognised

  predicate IsPrefix(prefix: string, s: string) {
    |prefix| <= |s| && s[..|prefix|] == prefix
  }

  /** The category of a reply as the browser can tell it: from the status,
      whether the JSON has a "details" member, and its "error" member. */
  function Classify(reply: Reply): Category {
    match reply
    case ServerErrorPage(_) => Crashed
    case JsonReply(envelope, status) =>
      if status == 200 then Delivered
      else
        var json := ToJson(envelope);
        if !json.Object? || "error" !in json.fields || !json.fields["error"].Str? then Unrecognised
        else
          var error := json.fields["error"].s;
          if "details" !in json.fields then InputRejected
          else if IsPrefix(HttpErrorPrefix, error) then UpstreamRejected
          else if error == NetworkError then TransportFailed
          else if error == UnexpectedError then InternalFailed
          else Unrecognised
  }

  /** The category the outcome of the upstream call falls in. */
  function ExchangeCategory(outcome: Exchange): Category {
    match outcome
    case Response(status, _, body, _) =>
      if RaisesForStatus(status) then UpstreamRejected
      else if status == 204 || body.Parsed? then Delivered
      else TransportFailed
    case Transport(_) => TransportFailed
    case Unexpected(_) => InternalFailed
  }

  /** The error categories are disjoint and recognisable: classifying the
      reply recovers whether the request was refused or crashed, or else
      which way the upstream call went. */
  lemma ServeIsClassified(route: Route, body: Value, upstream: Exchange)
    ensures Classify(Serve(route, body, upstream).0) ==
              match Resolve(route, body)
              case Failure(InputError(_)) => InputRejected
              case Failure(Uncaught(_)) => Crashed
              case Success(_) => ExchangeCategory(upstream)
  {
    if Resolve(route, body).Success? {
      NormaliseIsClassified(upstream);
    }
  }

  /** Classifying what make_atlas_request returns recovers the kind of
      outcome the HTTP call had. */
  lemma NormaliseIsClassified(upstream: Exchange)
    ensures Classify(Normalise(upstream)) == ExchangeCategory(upstream)
  {
    assert !IsPrefix(HttpErrorPrefix, NetworkError) by {
      assert NetworkError[0] != HttpErrorPrefix[0];
    }
    assert !IsPrefix(HttpErrorPrefix, UnexpectedError) by {
      assert UnexpectedError[0] != HttpErrorPrefix[0];
    }
    assert |NetworkError| != |UnexpectedError|;
    if upstream.Response? && RaisesForStatus(upstream.status) {
      var line := HttpErrorLine(upstream.status, upstream.reason);
      assert line[..|HttpErrorPrefix|] == HttpErrorPrefix;
    }
  }

  // ---------------------------------------------------------------------
  // The "error" line of an HTTP error, read back.

  /** The length of the run of digits that starts the string. */
  function DigitRun(s: string): (n: nat)
    ensures n <= |s| && AllDigits(s[..n])
    ensures n < |s| ==> !IsDigit(s[n])
  {
    if s == [] || !IsDigit(s[0]) then 0
    else
      var n := 1 + DigitRun(s[1..]);
      assert s[..n] == [s[0]] + s[1..][..n - 1];
      n
  }

  /** Recovers status and reason from `HTTP Error: {status} {reason}`. */
  function ParseHttpErrorLine(line: string): Option<(nat, string)> {
    if !IsPrefix(HttpErrorPrefix, line) then None
    else
      var rest := line[|HttpErrorPrefix|..];
      var n := DigitRun(rest);
      if n == 0 || n == |rest| || rest[n] != ' ' then None
      else Some((ParseNat(rest[..n]), rest[n + 1..]))
  }

  lemma {:induction false} DigitRunOfDigits(digits: string, rest: string)
    requires AllDigits(digits)
    requires rest == [] || !IsDigit(rest[0])
    ensures DigitRun(digits + rest) == |digits|
  {
    if digits != [] {
      assert (digits + rest)[1..] == digits[1..] + rest;
      DigitRunOfDigits(digits[1..], rest);
    } else {
      assert digits + rest == rest;
    }
  }

  /** The error line names the upstream status and reason exactly: reading
      it back gives both. */
  lemma HttpErrorLineRoundTrip(status: nat, reason: string)
    ensures ParseHttpErrorLine(HttpErrorLine(status, reason)) == Some((status, reason))
  {
    var line := HttpErrorLine(status, reason);
    var digits := NatText(status);
    assert line == HttpErrorPrefix + (digits + (" " + reason));
    var rest := line[|HttpErrorPrefix|..];
    assert rest == digits + (" " + reason);
    DigitRunOfDigits(digits, " " + reason);
    assert rest[..|digits|] == digits;
    assert rest[|digits| + 1..] == reason;
    ParseNatText(status);
  }
}
