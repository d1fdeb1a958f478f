/** `EvatrClient`: one request per endpoint, the reply decoded into the
    response records, and every transport failure turned into an error of the
    kind its HTTP status calls for. The HTTP exchange itself is an input. */
module EvatrClient {
  import opened Wrappers
  import opened Json
  import opened StrictTypes
  import opened StatusCodes
  import opened EvatrExceptions
  import opened ConfirmationQueries
  import opened ConfirmationResults
  import opened StatusMessages
  import opened MemberStates

  /** What escapes a client call instead of a result: the library's own error,
      a PHP `TypeError` or `ValueError` raised while typing the payload, or the
      `JsonException` of a success body that is not JSON. */
  datatype Fault =
    | Raised(error: EvatrError)
    | Rejected(cause: DecodeError)
    | Malformed

  /** The outcome of one HTTP request: the success body as `json_decode`
      would read it (`None` when it is not JSON), or the transport failure. */
  datatype Exchange =
    | Received(body: Option<Json>)
    | Threw(failure: TransportFailure)

  /** The error class for an HTTP status: 400, 403 and 404 have their own,
      every status from 500 up is a service error, the rest are the base class. */
  function Classify(httpCode: int): (k: ErrorKind)
    ensures k == Validation <==> httpCode == 400
    ensures k == Forbidden <==> httpCode == 403
    ensures k == NotFound <==> httpCode == 404
    ensures k == Service <==> httpCode >= 500
  {
    if httpCode == 400 then Validation
    else if httpCode == 403 then Forbidden
    else if httpCode == 404 then NotFound
    else if httpCode >= 500 then Service
    else Base
  }

  /** Read against the status classes of section 15 of RFC 9110: the whole
      5xx class is a service error, and every other 4xx status, like every
      1xx, 2xx and 3xx status, is the base error. */
  lemma ClassifyStatusClasses(httpCode: int)
    ensures 500 <= httpCode <= 599 ==> Classify(httpCode) == Service
    ensures 400 <= httpCode <= 499 && httpCode !in {400, 403, 404} ==> Classify(httpCode) == Base
    ensures 100 <= httpCode <= 399 ==> Classify(httpCode) == Base
  {
  }

  /** `is_array($data) && isset($data['status'])`: only an object can have a
      status, since a JSON list has integer keys only. */
  function HasStatus(body: Json): (b: bool)
    ensures b ==> body.Object?
    ensures body.Object? ==> (b <==> IsSet(body.members, "status"))
  {
    (body.Object? || body.List?) && IsSet(Members(body), "status")
  }

  /** The value an error body reports under `key`, read only when the failure
      carries a response whose body has a status; `Null` otherwise. */
  function Reported(e: TransportFailure, key: string): Json {
    if e.response.Some? && HasStatus(e.response.value.body)
    then Get(Members(e.response.value.body), key)
    else Null
  }

  /** The status code an error body reports: the case whose value its
      `status` holds, and null when there is none. */
  function ReportedStatusCode(e: TransportFailure): (r: Option<StatusCode>)
    ensures forall c :: r == Some(c) <==> Reported(e, "status") == Str(StatusCodes.Value(c))
  {
    if Reported(e, "status").Str? then StatusCodes.TryFrom(Reported(e, "status").s) else None
  }

  /** `handleGuzzleException`: the failure always ends the call. Without a
      response the base error carries the transport message and code 0. With
      one, the error's class follows the HTTP status, which is also its code;
      the status code is the known case the body reports, and the message is
      the body's `meldung` when there is one. A `status` that is not a string
      (refused by `tryFrom` under strict types) or a `meldung` that is not one
      (refused by the exception's constructor) is a `TypeError` instead. */
  function HandleGuzzleException(e: TransportFailure): (f: Fault)
    ensures !f.Malformed?
    ensures e.response.None? ==> f == Raised(EvatrError(Base, e.message, None, 0, Some(e)))
    ensures f.Rejected? <==> && !Reported(e, "status").Null?
                             && (!Reported(e, "status").Str?
                                 || !(Reported(e, "meldung").Null? || Reported(e, "meldung").Str?))
    ensures f.Rejected? ==> f.cause == if Reported(e, "status").Str? then TypeError("meldung") else TypeError("status")
    ensures f.Raised? ==> f.error.previous == Some(e)
    ensures f.Raised? && e.response.Some? ==> && f.error.code == e.response.value.status
                                              && f.error.kind == Classify(e.response.value.status)
    ensures f.Raised? ==> f.error.statusCode == ReportedStatusCode(e)
    ensures f.Raised? ==> f.error.message == if Reported(e, "meldung").Str? then Reported(e, "meldung").s else e.message
  {
    match e.response
    case None => Raised(NewError(Base, e.message, None, 0, Some(e)))
    case Some(response) =>
      var kind := Classify(response.status);
      if !HasStatus(response.body) then
        Raised(NewError(kind, e.message, None, response.status, Some(e)))
      else
        var data := Members(response.body);
        match EnumArgument(Get(data, "status"), "status")
        case Failure(cause) => Rejected(cause)
        case Success(status) =>
          var statusCode := StatusCodes.TryFrom(status);
          match Get(data, "meldung")
          case Null => Raised(NewError(kind, e.message, statusCode, response.status, Some(e)))
          case Str(message) => Raised(NewError(kind, message, statusCode, response.status, Some(e)))
          case _ => Rejected(TypeError("meldung"))
  }

  /** The error body the service sends with a failed request. */
  function ErrorBody(status: StatusCode, message: string): Json {
    Object([("status", Str(StatusCodes.Value(status))), ("meldung", Str(message))])
  }

  /** A failure whose response carries the service's error body raises the
      error that body describes: its status code and message, the class of
      the HTTP status, and the HTTP status as code. */
  lemma HandleErrorBody(message: string, httpCode: int, status: StatusCode, text: string)
    ensures var e := TransportFailure(message, Some(HttpResponse(httpCode, ErrorBody(status, text))));
            HandleGuzzleException(e) == Raised(EvatrError(Classify(httpCode), text, Some(status), httpCode, Some(e)))
  {
    var a := [("status", Str(StatusCodes.Value(status))), ("meldung", Str(text))];
    LookupLastBinding(a, "status", 0);
    LookupLastBinding(a, "meldung", 1);
    StatusCodes.TryFromValue(status);
  }

  /** A body that is not JSON, or has no status, leaves only the HTTP status:
      no status code and the transport message. */
  lemma HandleBodyWithoutStatus(message: string, httpCode: int, body: Json)
    requires !HasStatus(body)
    ensures var e := TransportFailure(message, Some(HttpResponse(httpCode, body)));
            HandleGuzzleException(e) == Raised(EvatrError(Classify(httpCode), message, None, httpCode, Some(e)))
  {
  }

  /** A failure with a response raises an error of class `kind` carrying
      `statusCode` and the HTTP status as code. */
  predicate RaisesWith(e: TransportFailure, kind: ErrorKind, statusCode: Option<StatusCode>) {
    var f := HandleGuzzleException(e);
    && e.response.Some?
    && f.Raised? && f.error.kind == kind && f.error.statusCode == statusCode
    && f.error.code == e.response.value.status
  }

  /** The error responses of the library's test, each raising its class. */
  lemma HandleGuzzleExceptionExamples()
    ensures RaisesWith(TransportFailure("Client error", Some(HttpResponse(400,
              ErrorBody(FOREIGN_VAT_ID_INVALID, "Die angefragte USt-IdNr. ist syntaktisch inkorrekt.")))),
            Validation, Some(FOREIGN_VAT_ID_INVALID))
    ensures RaisesWith(TransportFailure("Client error", Some(HttpResponse(400,
              ErrorBody(OWN_VAT_ID_INVALID, "Die anfragende USt-IdNr. ist syntaktisch inkorrekt.")))),
            Validation, Some(OWN_VAT_ID_INVALID))
    ensures RaisesWith(TransportFailure("Client error", Some(HttpResponse(403,
              ErrorBody(UNAUTHORIZED, "Nicht berechtigt.")))),
            Forbidden, Some(UNAUTHORIZED))
    ensures RaisesWith(TransportFailure("Client error", Some(HttpResponse(404,
              ErrorBody(FOREIGN_VAT_ID_NOT_ALLOCATED, "Die angefragte USt-IdNr. ist nicht vergeben.")))),
            NotFound, Some(FOREIGN_VAT_ID_NOT_ALLOCATED))
    ensures RaisesWith(TransportFailure("Server error", Some(HttpResponse(500,
              ErrorBody(PROCESSING_UNAVAILABLE_2004, "Verarbeitung nicht möglich.")))),
            Service, Some(PROCESSING_UNAVAILABLE_2004))
    ensures RaisesWith(TransportFailure("Server error", Some(HttpResponse(503,
              ErrorBody(SERVICE_UNAVAILABLE_1001, "Service temporär nicht verfügbar.")))),
            Service, Some(SERVICE_UNAVAILABLE_1001))
    ensures HandleGuzzleException(TransportFailure("Connection refused", None))
         == Raised(EvatrError(Base, "Connection refused", None, 0, Some(TransportFailure("Connection refused", None))))
  {
    HandleErrorBody("Client error", 400, FOREIGN_VAT_ID_INVALID, "Die angefragte USt-IdNr. ist syntaktisch inkorrekt.");
    HandleErrorBody("Client error", 400, OWN_VAT_ID_INVALID, "Die anfragende USt-IdNr. ist syntaktisch inkorrekt.");
    HandleErrorBody("Client error", 403, UNAUTHORIZED, "Nicht berechtigt.");
    HandleErrorBody("Client error", 404, FOREIGN_VAT_ID_NOT_ALLOCATED, "Die angefragte USt-IdNr. ist nicht vergeben.");
    HandleErrorBody("Server error", 500, PROCESSING_UNAVAILABLE_2004, "Verarbeitung nicht möglich.");
    HandleErrorBody("Server error", 503, SERVICE_UNAVAILABLE_1001, "Service temporär nicht verfügbar.");
  }

  /** An unknown status in the body gives no status code, and a numeric
      status is refused before any error is built. */
  lemma HandleUnusualBodies()
    ensures HandleGuzzleException(TransportFailure("Client error", Some(HttpResponse(400,
              Object([("status", Str("evatr-9999"))])))))
         == Raised(EvatrError(Validation, "Client error", None, 400,
                              Some(TransportFailure("Client error", Some(HttpResponse(400,
                                Object([("status", Str("evatr-9999"))])))))))
    ensures HandleGuzzleException(TransportFailure("Client error", Some(HttpResponse(400,
              Object([("status", Int(4))])))))
         == Rejected(TypeError("status"))
  {
    LookupLastBinding([("status", Str("evatr-9999"))], "status", 0);
    LookupAbsent([("status", Str("evatr-9999"))], "meldung");
    LookupLastBinding([("status", Int(4))], "status", 0);
  }

  /** `request`: a transport failure is handled as above; a success body must
      be JSON (`JSON_THROW_ON_ERROR`) that decodes to a PHP array, the declared
      return type. */
  function Request(x: Exchange): (r: Result<Json, Fault>)
    ensures r.Success? <==> x.Received? && x.body.Some? && (x.body.value.Object? || x.body.value.List?)
    ensures r.Success? ==> r.value == x.body.value
    ensures x.Threw? ==> r == Failure(HandleGuzzleException(x.failure))
    ensures x == Received(None) ==> r == Failure(Malformed)
    ensures x.Received? && x.body.Some? && !(x.body.value.Object? || x.body.value.List?)
            ==> r == Failure(Rejected(NotAnArray))
    ensures r.Failure? && r.error.Raised? ==> x.Threw?
  {
    match x
    case Threw(e) => Failure(HandleGuzzleException(e))
    case Received(None) => Failure(Malformed)
    case Received(Some(data)) =>
      if data.Object? || data.List? then Success(data) else Failure(Rejected(NotAnArray))
  }

  /** A decoding failure escapes the client as the PHP error it is. */
  function Decoded<T>(r: Result<T, DecodeError>): Result<T, Fault> {
    match r
    case Success(v) => Success(v)
    case Failure(cause) => Failure(Rejected(cause))
  }

  /** The mapped closure `static fn(array $item) => X::fromArray($item)`:
      an item that is not a PHP array is refused by the parameter type. */
  function DecodeItem<T>(item: Json, decode: seq<(string, Json)> -> Result<T, DecodeError>): (r: Result<T, DecodeError>)
    ensures item.Object? ==> r == decode(item.members)
    ensures item.List? ==> r == decode([])
    ensures !(item.Object? || item.List?) ==> r == Failure(NotAnArray)
  {
    if item.Object? || item.List? then decode(Members(item)) else Failure(NotAnArray)
  }

  /** `array_map` of a decoder over the items: every item decoded, in order,
      or the error of the first item that fails. */
  function DecodeEach<T>(items: seq<Json>, decode: seq<(string, Json)> -> Result<T, DecodeError>)
    : (r: Result<seq<T>, DecodeError>)
    ensures r.Success? <==> forall i :: 0 <= i < |items| ==> DecodeItem(items[i], decode).Success?
    ensures r.Success? ==> && |r.value| == |items|
                           && forall i :: 0 <= i < |items| ==> DecodeItem(items[i], decode) == Success(r.value[i])
    ensures r.Failure? ==> exists i :: && 0 <= i < |items|
                                       && DecodeItem(items[i], decode) == Failure(r.error)
                                       && forall j :: 0 <= j < i ==> DecodeItem(items[j], decode).Success?
    decreases |items|
  {
    if |items| == 0 then Success([])
    else
      var head :- DecodeItem(items[0], decode);
      var tail :- DecodeEach(items[1..], decode);
      Success([head] + tail)
  }

  /** `verifyVatId`: the query's wire mapping is posted, and the reply decoded
      as a confirmation result. */
  function VerifyVatId(q: ConfirmationQuery, send: seq<(string, string)> -> Exchange)
    : (r: Result<ConfirmationResult, Fault>)
    ensures r.Success? <==> (&& Request(send(ToArray(q))).Success?
                             && ConfirmationResults.Conforms(Members(Request(send(ToArray(q))).value)))
    ensures r.Success? ==> ConfirmationResults.FromArray(Members(send(ToArray(q)).body.value)) == Success(r.value)
    ensures send(ToArray(q)).Threw? ==> r == Failure(HandleGuzzleException(send(ToArray(q)).failure))
    ensures Request(send(ToArray(q))).Failure? ==> r == Failure(Request(send(ToArray(q))).error)
    ensures Request(send(ToArray(q))).Success? && r.Failure?
            ==> r == Failure(Rejected(ConfirmationResults.FromArray(Members(Request(send(ToArray(q))).value)).error))
    ensures r.Failure? && r.error.Raised? ==> send(ToArray(q)).Threw?
  {
    var data :- Request(send(ToArray(q)));
    Decoded(ConfirmationResults.FromArray(Members(data)))
  }

  /** `getStatusMessages`: one message per item of the reply, in order. */
  function GetStatusMessages(x: Exchange): (r: Result<seq<StatusMessage>, Fault>)
    ensures r.Success? <==> (&& Request(x).Success?
                             && DecodeEach(ArrayValues(Request(x).value), StatusMessages.FromArray).Success?)
    ensures Request(x).Failure? ==> r == Failure(Request(x).error)
    ensures Request(x).Success? && r.Failure?
            ==> r == Failure(Rejected(DecodeEach(ArrayValues(Request(x).value), StatusMessages.FromArray).error))
    ensures r.Success? ==> && Request(x).Success?
                           && |r.value| == |ArrayValues(Request(x).value)|
                           && forall i :: 0 <= i < |r.value| ==>
                                DecodeItem(ArrayValues(Request(x).value)[i], StatusMessages.FromArray) == Success(r.value[i])
    ensures r.Failure? && r.error.Raised? ==> x.Threw?
  {
    var data :- Request(x);
    Decoded(DecodeEach(ArrayValues(data), StatusMessages.FromArray))
  }

  /** `getMemberStates`: one member state per item of the reply, in order. */
  function GetMemberStates(x: Exchange): (r: Result<seq<MemberState>, Fault>)
    ensures r.Success? <==> (&& Request(x).Success?
                             && DecodeEach(ArrayValues(Request(x).value), MemberStates.FromArray).Success?)
    ensures Request(x).Failure? ==> r == Failure(Request(x).error)
    ensures Request(x).Success? && r.Failure?
            ==> r == Failure(Rejected(DecodeEach(ArrayValues(Request(x).value), MemberStates.FromArray).error))
    ensures r.Success? ==> && Request(x).Success?
                           && |r.value| == |ArrayValues(Request(x).value)|
                           && forall i :: 0 <= i < |r.value| ==>
                                DecodeItem(ArrayValues(Request(x).value)[i], MemberStates.FromArray) == Success(r.value[i])
    ensures r.Failure? && r.error.Raised? ==> x.Threw?
  {
    var data :- Request(x);
    Decoded(DecodeEach(ArrayValues(data), MemberStates.FromArray))
  }

  /** A catalogue sent as a list of entries comes back message for message. */
  lemma GetStatusMessagesToWire(messages: seq<StatusMessage>)
    ensures GetStatusMessages(Received(Some(List(seq(|messages|, i requires 0 <= i < |messages| =>
              Object(StatusMessages.ToWire(messages[i])))))))
         == Success(messages)
  {
    var items := seq(|messages|, i requires 0 <= i < |messages| => Object(StatusMessages.ToWire(messages[i])));
    forall i | 0 <= i < |items|
      ensures DecodeItem(items[i], StatusMessages.FromArray) == Success(messages[i])
    {
      StatusMessages.FromArrayToWire(messages[i]);
    }
    var r := DecodeEach(items, StatusMessages.FromArray);
    assert r.value == messages;
  }

  /** A list of member states comes back state for state. */
  lemma GetMemberStatesToWire(states: seq<MemberState>)
    ensures GetMemberStates(Received(Some(List(seq(|states|, i requires 0 <= i < |states| =>
              Object(MemberStates.ToWire(states[i])))))))
         == Success(states)
  {
    var items := seq(|states|, i requires 0 <= i < |states| => Object(MemberStates.ToWire(states[i])));
    forall i | 0 <= i < |items|
      ensures DecodeItem(items[i], MemberStates.FromArray) == Success(states[i])
    {
      MemberStates.FromArrayToWire(states[i]);
    }
    var r := DecodeEach(items, MemberStates.FromArray);
    assert r.value == states;
  }

  /** An empty list, or an empty object, is an empty result. */
  lemma EmptyReplies()
    ensures GetStatusMessages(Received(Some(List([])))) == Success([])
    ensures GetMemberStates(Received(Some(List([])))) == Success([])
    ensures GetMemberStates(Received(Some(Object([])))) == Success([])
  {
  }

  /** A reply whose second item is not an entry fails with that item's error,
      and a reply that is JSON but no array fails on the return type. */
  lemma ListFailureExamples()
    ensures GetMemberStates(Received(Some(List([Object(MemberStates.ToWire(MemberState("AT", "Österreich", true))),
                                                Str("FR")]))))
         == Failure(Rejected(NotAnArray))
    ensures GetMemberStates(Received(Some(Str("FR")))) == Failure(Rejected(NotAnArray))
    ensures GetMemberStates(Received(None)) == Failure(Malformed)
  {
    MemberStates.FromArrayToWire(MemberState("AT", "Österreich", true));
  }

  /** Whatever query is posted, a reply carrying a result's payload comes
      back as that result. */
  lemma VerifyVatIdToWire(q: ConfirmationQuery, r: ConfirmationResult)
    ensures VerifyVatId(q, _ => Received(Some(Object(ConfirmationResults.ToWire(r))))) == Success(r)
  {
    ConfirmationResults.FromArrayToWire(r);
  }

  /** The confirmation replies of the library's test, through the client. */
  lemma VerifyVatIdExamples()
    ensures VerifyVatId(ConfirmationQueries.Simple("DE123456789", "ATU12345678"),
                        _ => Received(Some(Object([("status", Str("evatr-0000")),
                                                   ("anfrageZeitpunkt", Str("2026-02-17T10:00:00Z")),
                                                   ("id", Str("abc-123"))]))))
         == Success(ConfirmationResult(VALID, "2026-02-17T10:00:00Z", Some("abc-123"), None, None,
                                       None, None, None, None))
    ensures var e := TransportFailure("Client error", Some(HttpResponse(400,
                       ErrorBody(FOREIGN_VAT_ID_INVALID, "Die angefragte USt-IdNr. ist syntaktisch inkorrekt."))));
            VerifyVatId(ConfirmationQueries.Simple("DE123456789", "INVALID"), _ => Threw(e))
            == Failure(Raised(EvatrError(Validation, "Die angefragte USt-IdNr. ist syntaktisch inkorrekt.",
                                         Some(FOREIGN_VAT_ID_INVALID), 400, Some(e))))
  {
    ConfirmationResults.FromArrayValidExample();
    HandleErrorBody("Client error", 400, FOREIGN_VAT_ID_INVALID, "Die angefragte USt-IdNr. ist syntaktisch inkorrekt.");
  }
}
