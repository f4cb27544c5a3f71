/** `create_charge`: the order of the checks on a charge request, the one call to
    the reseller, and how each failure of that call becomes an HTTP status. */
module Handler {
  import opened Wrappers
  import opened Operators
  import opened Requests
  import opened Payload
  import opened Jsonp

  const StatusBadRequest: int := 400
  const StatusInternalError: int := 500
  const StatusBadGateway: int := 502
  const StatusUnavailable: int := 503
  const StatusGatewayTimeout: int := 504

  /** Seconds the client waits for the reseller. */
  const TimeoutSeconds: nat := 10

  /** The GET request sent to the reseller. */
  datatype Outbound = Outbound(url: string, params: map<Param, Value>, timeout: nat)

  /** How the call to the reseller ended, as the HTTP client reports it: a
      response with its status and decoded body, a timeout, or any other
      transport failure. */
  datatype Upstream =
    | Responded(status: int, text: string)
    | TimedOut
    | RequestFailed

  /** What the client of the relay gets: the parsed JSON, or an error status. */
  datatype Reply<J> = Ok(body: J) | Fail(status: int)

  /** The reply and the request sent to the reseller, if one was. */
  datatype Handled<J> = Handled(reply: Reply<J>, sent: Option<Outbound>)

  /** Python truthiness of an optional string: neither None nor empty. */
  predicate Truthy(s: Option<string>) {
    s.Some? && s.value != ""
  }

  /** `raise_for_status`: a 4xx or 5xx status raises an HTTP error. */
  predicate IsHttpError(status: int) {
    400 <= status < 600
  }

  /** The `try` block after the call: the status check, the unwrap, the JSON
      parse, and the `except` clauses. `parse` stands for `json.loads`, None
      being a decode error. */
  function Respond<J>(outcome: Upstream, callbackName: string, parse: string -> Option<J>): Reply<J> {
    match outcome
    case TimedOut => Fail(StatusGatewayTimeout)
    case RequestFailed => Fail(StatusUnavailable)
    case Responded(status, text) =>
      if IsHttpError(status) then Fail(StatusUnavailable)
      else
        match parse(Unwrap(text, callbackName))
        case None => Fail(StatusBadGateway)
        case Some(json) => Ok(json)
  }

  /** The query parameters sent for a request: the payload, then the callback
      name under `callback`. */
  function SentParams(webServiceId: string, request: ChargeRequest, draws: seq<int>,
                      nonce: int, op: Operator): map<Param, Value>
    requires ValidDraws(draws) && NonceMin <= nonce <= NonceMax
  {
    PrepApiPayload(webServiceId, nonce, request.amount, request.phone, op, request.chargeType)
      [Callback := Str(CallbackName(draws))]
  }

  /** `create_charge`. The configured web-service id, the random draws and the
      reseller are inputs: `exchange` answers the outbound request. */
  function CreateCharge<J>(webServiceId: Option<string>, request: ChargeRequest,
                           draws: seq<int>, nonce: int,
                           exchange: Outbound -> Upstream, parse: string -> Option<J>): Handled<J>
    requires request.Valid()
    requires ValidDraws(draws) && NonceMin <= nonce <= NonceMax
  {
    if !Truthy(webServiceId) then
      Handled(Fail(StatusInternalError), None)
    else
      var op := GetOperator(request.phone, request.isSuper, request.isDaemi);
      if !Truthy(if op.Some? then Some(op.value.Code()) else None) then
        Handled(Fail(StatusBadRequest), None)
      else if request.chargeType.Name() !in ApiEndpoints then
        Handled(Fail(StatusBadRequest), None)
      else
        var url := ApiEndpoints[request.chargeType.Name()];
        var out := Outbound(url, SentParams(webServiceId.value, request, draws, nonce, op.value), TimeoutSeconds);
        Handled(Respond(exchange(out), CallbackName(draws), parse), Some(out))
  }

  /** A missing or empty web-service id answers 500 before the phone number is
      looked at, and nothing is sent. */
  lemma ConfigurationCheckedFirst<J>(webServiceId: Option<string>, request: ChargeRequest,
                                     draws: seq<int>, nonce: int,
                                     exchange: Outbound -> Upstream, parse: string -> Option<J>)
    requires request.Valid()
    requires ValidDraws(draws) && NonceMin <= nonce <= NonceMax
    requires !Truthy(webServiceId)
    ensures CreateCharge(webServiceId, request, draws, nonce, exchange, parse)
        == Handled(Fail(StatusInternalError), None)
  {
  }

  /** With the service configured, a number no classifier rule matches answers
      400 and nothing is sent. */
  lemma UnknownOperatorRejected<J>(webServiceId: Option<string>, request: ChargeRequest,
                                   draws: seq<int>, nonce: int,
                                   exchange: Outbound -> Upstream, parse: string -> Option<J>)
    requires request.Valid()
    requires ValidDraws(draws) && NonceMin <= nonce <= NonceMax
    requires Truthy(webServiceId)
    requires GetOperator(request.phone, request.isSuper, request.isDaemi) == None
    ensures CreateCharge(webServiceId, request, draws, nonce, exchange, parse)
        == Handled(Fail(StatusBadRequest), None)
  {
  }

  /** A request is sent exactly when the service is configured and the number is
      classified; it goes to the endpoint of the charge type with the payload and
      the callback name, and the reply is the reseller's outcome mapped by Respond. */
  lemma RequestSentWhenClassified<J>(webServiceId: Option<string>, request: ChargeRequest,
                                     draws: seq<int>, nonce: int,
                                     exchange: Outbound -> Upstream, parse: string -> Option<J>)
    requires request.Valid()
    requires ValidDraws(draws) && NonceMin <= nonce <= NonceMax
    ensures var h := CreateCharge(webServiceId, request, draws, nonce, exchange, parse);
      var op := GetOperator(request.phone, request.isSuper, request.isDaemi);
      (h.sent.Some? <==> Truthy(webServiceId) && op.Some?)
      && (h.sent.Some? ==>
            h.sent.value == Outbound(ApiEndpoints[request.chargeType.Name()],
                                     SentParams(webServiceId.value, request, draws, nonce, op.value),
                                     TimeoutSeconds)
            && h.reply == Respond(exchange(h.sent.value), CallbackName(draws), parse))
  {
    EndpointsCoverChargeTypes(request.chargeType, request.chargeType);
  }

  /** The statuses that can come back, and which check each one means: 500 only
      for the configuration, 400 only for an unclassified number, the rest only
      from the call to the reseller. */
  lemma StatusMeaning<J>(webServiceId: Option<string>, request: ChargeRequest,
                         draws: seq<int>, nonce: int,
                         exchange: Outbound -> Upstream, parse: string -> Option<J>)
    requires request.Valid()
    requires ValidDraws(draws) && NonceMin <= nonce <= NonceMax
    ensures var h := CreateCharge(webServiceId, request, draws, nonce, exchange, parse);
      var op := GetOperator(request.phone, request.isSuper, request.isDaemi);
      (h.reply == Fail(StatusInternalError) <==> !Truthy(webServiceId))
      && (h.reply == Fail(StatusBadRequest) <==> Truthy(webServiceId) && op.None?)
      && (h.reply.Fail? ==> h.reply.status in {StatusBadRequest, StatusInternalError, StatusBadGateway,
                                               StatusUnavailable, StatusGatewayTimeout})
      && (h.reply.Fail? && h.reply.status !in {StatusBadRequest, StatusInternalError} ==> h.sent.Some?)
  {
    EndpointsCoverChargeTypes(request.chargeType, request.chargeType);
    OperatorCodeTruthy(GetOperator(request.phone, request.isSuper, request.isDaemi));
  }

  /** `not operator` holds exactly for None: no operator code is empty. */
  lemma OperatorCodeTruthy(op: Option<Operator>)
    ensures Truthy(if op.Some? then Some(op.value.Code()) else None) <==> op.Some?
  {
  }

  /** The exception mapping, one cause per result: 504 exactly for a timeout,
      503 exactly for another transport failure or a 4xx/5xx status, 502 exactly
      for a body that does not parse once unwrapped, and a reply exactly for one
      that does. */
  lemma ErrorMapping<J>(outcome: Upstream, callbackName: string, parse: string -> Option<J>)
    ensures Respond(outcome, callbackName, parse) == Fail(StatusGatewayTimeout) <==> outcome.TimedOut?
    ensures Respond(outcome, callbackName, parse) == Fail(StatusUnavailable)
        <==> outcome.RequestFailed? || (outcome.Responded? && IsHttpError(outcome.status))
    ensures Respond(outcome, callbackName, parse) == Fail(StatusBadGateway)
        <==> outcome.Responded? && !IsHttpError(outcome.status)
             && parse(Unwrap(outcome.text, callbackName)).None?
    ensures Respond(outcome, callbackName, parse).Ok?
        <==> outcome.Responded? && !IsHttpError(outcome.status)
             && parse(Unwrap(outcome.text, callbackName)).Some?
    ensures Respond(outcome, callbackName, parse).Ok?
        ==> Respond(outcome, callbackName, parse).body == parse(Unwrap(outcome.text, callbackName)).value
  {
  }

  /** The parameters sent are the payload plus the callback name, which takes no
      payload key, so the whole payload goes out. */
  lemma SentParamsKeys(webServiceId: string, request: ChargeRequest, draws: seq<int>,
                       nonce: int, op: Operator)
    requires ValidDraws(draws) && NonceMin <= nonce <= NonceMax
    ensures var p := PrepApiPayload(webServiceId, nonce, request.amount, request.phone, op, request.chargeType);
      var sent := SentParams(webServiceId, request, draws, nonce, op);
      sent.Keys == p.Keys + {Callback} && Callback !in p
      && (forall k :: k in p ==> sent[k] == p[k])
      && sent[Callback] == Str(CallbackName(draws))
  {
    var p := PrepApiPayload(webServiceId, nonce, request.amount, request.phone, op, request.chargeType);
    assert Callback !in BaseKeys + ChargeKeys + {ProductId};
    assert Callback !in p;
  }

  /** A reply that is the JSON wrapped in the callback, under a non-error status,
      yields that JSON parsed: 502 when it does not parse. */
  lemma WrappedBodyParsed<J>(status: int, name: string, k: nat, json: string, m: nat,
                             parse: string -> Option<J>)
    requires !IsHttpError(status)
    requires name != [] && name[0] != '(' && name[|name| - 1] != ')'
    requires forall i: nat :: !OccursAt(json, name, i)
    requires json == [] || (json[0] !in Whitespace && json[|json| - 1] !in Whitespace)
    requires json == [] || (json[0] != '(' && json[|json| - 1] != ')')
    ensures Respond(Responded(status, name + Opens(k) + json + Closes(m)), name, parse)
        == match parse(json) case None => Fail(StatusBadGateway) case Some(v) => Ok(v)
  {
    UnwrapRecoversJson(name, k, json, m);
  }

  /** End to end: when the reseller answers a non-error status with the JSON
      wrapped in the callback the request carries, the client gets that JSON
      parsed. */
  lemma WrappedReplyRelayed<J>(webServiceId: Option<string>, request: ChargeRequest,
                               draws: seq<int>, nonce: int, status: int, k: nat, json: string, m: nat,
                               exchange: Outbound -> Upstream, parse: string -> Option<J>)
    requires request.Valid()
    requires ValidDraws(draws) && NonceMin <= nonce <= NonceMax
    requires Truthy(webServiceId) && GetOperator(request.phone, request.isSuper, request.isDaemi).Some?
    requires !IsHttpError(status)
    requires forall o: Outbound :: Callback in o.params && o.params[Callback].Str? ==>
      exchange(o) == Responded(status, o.params[Callback].s + Opens(k) + json + Closes(m))
    requires forall i: nat :: !OccursAt(json, CallbackName(draws), i)
    requires json == [] || (json[0] !in Whitespace && json[|json| - 1] !in Whitespace)
    requires json == [] || (json[0] != '(' && json[|json| - 1] != ')')
    ensures var h := CreateCharge(webServiceId, request, draws, nonce, exchange, parse);
      h.sent.Some?
      && h.reply == (match parse(json) case None => Fail(StatusBadGateway) case Some(v) => Ok(v))
  {
    var name := CallbackName(draws);
    var op := GetOperator(request.phone, request.isSuper, request.isDaemi).value;
    RequestSentWhenClassified(webServiceId, request, draws, nonce, exchange, parse);
    SentParamsKeys(webServiceId.value, request, draws, nonce, op);
    CallbackNameFramesJson(draws);
    WrappedBodyParsed(status, name, k, json, m, parse);
  }
}
