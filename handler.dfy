/**
 * The HTTP handlers of Api/homework/internal/handler: each decodes its
 * input, makes at most one service call and answers with a status and a
 * body. The service is a parameter (the handler holds it as an interface),
 * JSON decoding of a body is given as its outcome, and `json.Marshal` of a
 * device is a parameter.
 */
module Handler {
  import opened Wrappers
  import opened Http
  import opened DeviceService

  /**
   * An `error` value as `errors.Is` sees it: its own text and the service
   * sentinels found along its chain of wrapped errors.
   */
  datatype Error = Error(text: string, wraps: set<ServiceError>)

  /** A sentinel returned as is. */
  function FromService(e: ServiceError): (err: Error)
    ensures err.text == ErrorText(e) && err.wraps == {e}
  {
    Error(ErrorText(e), {e})
  }

  /** A handler's answer, and whether it called the service to get it. */
  datatype Outcome = Outcome(response: Response, serviceCalled: bool)

  /** `ErrResponse`: the status, and a JSON object whose only key is "message". */
  function ErrResponse(message: string, errStatus: int): (r: Response)
    ensures r.status == errStatus
    ensures r.body.JsonObject? && r.body.fields.Keys == {"message"} && r.body.fields["message"] == message
  {
    Response(errStatus, JsonObject(map["message" := message]))
  }

  /** The three validation sentinels, answered with 400 and their own text. */
  const ValidationErrors: set<ServiceError> := {InvalidModel, InvalidSerialNumber, InvalidIPAddress}

  /**
   * `handleServiceError`: the cases are tried in order, so an error that
   * wraps several sentinels is answered by the first that matches.
   */
  function HandleServiceError(err: Error): (r: Response)
    ensures DeviceAlreadyExists in err.wraps ==> r == ErrResponse("Device already exists", StatusConflict)
    ensures DeviceAlreadyExists !in err.wraps && DeviceDoesNotExist in err.wraps ==>
      r == ErrResponse("Device doesn't exist", StatusNotFound)
    ensures DeviceAlreadyExists !in err.wraps && DeviceDoesNotExist !in err.wraps && err.wraps * ValidationErrors != {} ==>
      r == ErrResponse(err.text, StatusBadRequest)
    ensures err.wraps * ({DeviceAlreadyExists, DeviceDoesNotExist} + ValidationErrors) == {} ==>
      r == ErrResponse("Internal server error", StatusInternalServerError)
  {
    if DeviceAlreadyExists in err.wraps then ErrResponse("Device already exists", StatusConflict)
    else if DeviceDoesNotExist in err.wraps then ErrResponse("Device doesn't exist", StatusNotFound)
    else if InvalidModel in err.wraps || InvalidSerialNumber in err.wraps || InvalidIPAddress in err.wraps then
      ErrResponse(err.text, StatusBadRequest)
    else ErrResponse("Internal server error", StatusInternalServerError)
  }

  /** The service's own sentinels: 409, 404, or 400 with the sentinel's text; never 500. */
  lemma ServiceErrorStatus(e: ServiceError)
    ensures HandleServiceError(FromService(e)) == match e
      case DeviceAlreadyExists => ErrResponse("Device already exists", 409)
      case DeviceDoesNotExist => ErrResponse("Device doesn't exist", 404)
      case _ => ErrResponse(ErrorText(e), 400)
    ensures HandleServiceError(FromService(e)).status != StatusInternalServerError
  {
  }

  /** Every service error is answered with an error status and a one-key JSON message. */
  lemma ServiceErrorIsClientOrServerError(err: Error)
    ensures HandleServiceError(err).status in {StatusBadRequest, StatusNotFound, StatusConflict, StatusInternalServerError}
    ensures HandleServiceError(err).body.JsonObject? && HandleServiceError(err).body.fields.Keys == {"message"}
  {
  }

  /** `url.Values.Get`: the first value under `key`, or "". */
  function QueryGet(query: map<string, seq<string>>, key: string): (v: string)
    ensures key in query && query[key] != [] ==> v == query[key][0]
    ensures (key !in query || query[key] == []) ==> v == ""
  {
    if key in query && query[key] != [] then query[key][0] else ""
  }

  /** `HandleCreate`: 400 "Invalid request" without a service call when the body does not decode; 201 on success. */
  function HandleCreate(body: Option<Device>, createDevice: Device -> Option<Error>): (r: Outcome)
    ensures body.None? ==> r == Outcome(ErrResponse("Invalid request", StatusBadRequest), false)
    ensures body.Some? ==> r.serviceCalled
    ensures body.Some? && createDevice(body.value).None? ==> r.response == Response(StatusCreated, NoBody)
    ensures body.Some? && createDevice(body.value).Some? ==> r.response == HandleServiceError(createDevice(body.value).value)
  {
    match body
    case None => Outcome(ErrResponse("Invalid request", StatusBadRequest), false)
    case Some(d) =>
      match createDevice(d)
      case Some(err) => Outcome(HandleServiceError(err), true)
      case None => Outcome(Response(StatusCreated, NoBody), true)
  }

  /** `HandleGet`: the device under the "num" query value, encoded, with 200; 500 when it cannot be encoded. */
  function HandleGet(query: map<string, seq<string>>, getDevice: string -> (Device, Option<Error>),
                     marshal: Device -> Option<string>): (r: Outcome)
    ensures r.serviceCalled
    ensures getDevice(QueryGet(query, "num")).1.Some? ==>
      r.response == HandleServiceError(getDevice(QueryGet(query, "num")).1.value)
    ensures getDevice(QueryGet(query, "num")).1.None? && marshal(getDevice(QueryGet(query, "num")).0).None? ==>
      r.response == ErrResponse("JSON can't be marshaled", StatusInternalServerError)
    ensures getDevice(QueryGet(query, "num")).1.None? && marshal(getDevice(QueryGet(query, "num")).0).Some? ==>
      r.response == Response(StatusOK, Encoded(marshal(getDevice(QueryGet(query, "num")).0).value))
  {
    var (d, err) := getDevice(QueryGet(query, "num"));
    if err.Some? then Outcome(HandleServiceError(err.value), true)
    else match marshal(d)
      case None => Outcome(ErrResponse("JSON can't be marshaled", StatusInternalServerError), true)
      case Some(response) => Outcome(Response(StatusOK, Encoded(response)), true)
  }

  /** `HandleDelete`: 200 with no body when the service deletes the "num" device. */
  function HandleDelete(query: map<string, seq<string>>, deleteDevice: string -> Option<Error>): (r: Outcome)
    ensures r.serviceCalled
    ensures deleteDevice(QueryGet(query, "num")).None? ==> r.response == Response(StatusOK, NoBody)
    ensures deleteDevice(QueryGet(query, "num")).Some? ==>
      r.response == HandleServiceError(deleteDevice(QueryGet(query, "num")).value)
  {
    match deleteDevice(QueryGet(query, "num"))
    case Some(err) => Outcome(HandleServiceError(err), true)
    case None => Outcome(Response(StatusOK, NoBody), true)
  }

  /** `HandleUpdate`: like `HandleCreate`, but success is 200. */
  function HandleUpdate(body: Option<Device>, updateDevice: Device -> Option<Error>): (r: Outcome)
    ensures body.None? ==> r == Outcome(ErrResponse("Invalid request", StatusBadRequest), false)
    ensures body.Some? ==> r.serviceCalled
    ensures body.Some? && updateDevice(body.value).None? ==> r.response == Response(StatusOK, NoBody)
    ensures body.Some? && updateDevice(body.value).Some? ==> r.response == HandleServiceError(updateDevice(body.value).value)
  {
    match body
    case None => Outcome(ErrResponse("Invalid request", StatusBadRequest), false)
    case Some(d) =>
      match updateDevice(d)
      case Some(err) => Outcome(HandleServiceError(err), true)
      case None => Outcome(Response(StatusOK, NoBody), true)
  }

  /** A service result as the handlers see it: the sentinel, if any, as an error value. */
  function AsError(e: Option<ServiceError>): Option<Error>
  {
    match e
    case None => None
    case Some(s) => Some(FromService(s))
  }

  /**
   * Over the real store: creating a device whose serial number is taken
   * answers 409 (and the device has still been written), an invalid new
   * device answers 400 with the validation text, and a valid new one 201.
   */
  lemma CreateOverStore(m: map<string, Device>, d: Device, validIP: string -> bool)
    ensures var r := HandleCreate(Some(d), x => AsError(Created(m, x, validIP).1)).response;
      && (d.serialNum in m ==> r == ErrResponse("Device already exists", StatusConflict))
      && (d.serialNum !in m && VerifyDeviceData(d, validIP).Some? ==>
            r == ErrResponse(ErrorText(VerifyDeviceData(d, validIP).value), StatusBadRequest))
      && (d.serialNum !in m && VerifyDeviceData(d, validIP).None? ==> r == Response(StatusCreated, NoBody))
  {
  }

  /** Over the real store: a read of an absent serial number answers 404, a present one 200 with the encoded device. */
  lemma GetOverStore(m: map<string, Device>, query: map<string, seq<string>>, marshal: Device -> Option<string>)
    ensures var num := QueryGet(query, "num");
      var r := HandleGet(query, n => (Looked(m, n).0, AsError(Looked(m, n).1)), marshal).response;
      && (num !in m ==> r == ErrResponse("Device doesn't exist", StatusNotFound))
      && (num in m && marshal(m[num]).Some? ==> r == Response(StatusOK, Encoded(marshal(m[num]).value)))
  {
  }

  /** Success statuses and service errors never overlap: a handler answers below 300 exactly when its service call succeeded. */
  lemma SuccessIffNoError(body: Option<Device>, call: Device -> Option<Error>)
    ensures HandleCreate(body, call).response.status < 300 <==> body.Some? && call(body.value).None?
    ensures HandleUpdate(body, call).response.status < 300 <==> body.Some? && call(body.value).None?
  {
    if body.Some? && call(body.value).Some? {
      ServiceErrorIsClientOrServerError(call(body.value).value);
    }
  }
}
