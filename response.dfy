/** The uniform envelope of every answer: status code, message, success flag
    and payload, plus the trace id, serving node and elapsed time that the
    request wrapper stamps on afterwards. */
module Response {
  import opened Common
  import ObProxyConfig

  const StatusOK := 200
  const StatusBadRequest := 400
  const StatusNotFound := 404
  const StatusInternalServerError := 500
  const StatusNotImplemented := 501
  const StatusServiceUnavailable := 503

  /** The payloads the modelled operations put in `Data`; `NoData` is Go's nil
      and `Opaque` stands for the payloads of operations outside the model. */
  datatype Payload =
    | NoData
    | ProxyConfig(config: ObProxyConfig.ObProxyConfig)
    | ProxyConfigWithTemplate(templated: ObProxyConfig.ObProxyConfigWithTemplate)
    | VersionOnly(version: ObProxyConfig.ObProxyConfigVersionOnly)
    | Opaque(name: string)

  datatype ApiResponse = ApiResponse(
    Code: int,
    Message: string,
    Successful: bool,
    Data: Payload,
    TraceId: string,
    Server: string,
    Cost: int64)

  /** Not yet stamped by the wrapper: no trace id, no server, no cost. */
  predicate Unstamped(r: ApiResponse) {
    r.TraceId == "" && r.Server == "" && r.Cost == 0
  }

  /** A failure envelope: the given code, the message prefix followed by the
      error's text, no payload. */
  predicate IsFailureOf(r: ApiResponse, code: int, prefix: string, err: string) {
    && r.Code == code && !r.Successful && r.Data == NoData && Unstamped(r)
    && prefix <= r.Message && r.Message[|prefix|..] == err
  }

  function NewSuccessResponse(data: Payload): (r: ApiResponse)
    ensures r.Code == StatusOK && r.Successful && r.Message == "successful"
    ensures r.Data == data && Unstamped(r)
  {
    ApiResponse(StatusOK, "successful", true, data, "", "", 0)
  }

  function NewBadRequestResponse(err: string): (r: ApiResponse)
    ensures IsFailureOf(r, StatusBadRequest, "bad request: ", err)
  {
    ApiResponse(StatusBadRequest, "bad request: " + err, false, NoData, "", "", 0)
  }

  function NewIllegalArgumentResponse(err: string): (r: ApiResponse)
    ensures IsFailureOf(r, StatusBadRequest, "illegal argument: ", err)
  {
    ApiResponse(StatusBadRequest, "illegal argument: " + err, false, NoData, "", "", 0)
  }

  function NewNotFoundResponse(err: string): (r: ApiResponse)
    ensures IsFailureOf(r, StatusNotFound, "resource not found: ", err)
  {
    ApiResponse(StatusNotFound, "resource not found: " + err, false, NoData, "", "", 0)
  }

  function NewNotImplementedResponse(err: string): (r: ApiResponse)
    ensures IsFailureOf(r, StatusNotImplemented, "request not implemented: ", err)
  {
    ApiResponse(StatusNotImplemented, "request not implemented: " + err, false, NoData, "", "", 0)
  }

  function NewErrorResponse(err: string): (r: ApiResponse)
    ensures IsFailureOf(r, StatusInternalServerError, "got internal error: ", err)
  {
    ApiResponse(StatusInternalServerError, "got internal error: " + err, false, NoData, "", "", 0)
  }

  /** The six kinds of envelope. */
  datatype Kind = Ok | BadRequest | IllegalArgument | NotFound | NotImplemented | InternalError

  /** The envelope a kind and an error text produce. */
  function Make(kind: Kind, data: Payload, err: string): ApiResponse {
    match kind
    case Ok => NewSuccessResponse(data)
    case BadRequest => NewBadRequestResponse(err)
    case IllegalArgument => NewIllegalArgumentResponse(err)
    case NotFound => NewNotFoundResponse(err)
    case NotImplemented => NewNotImplementedResponse(err)
    case InternalError => NewErrorResponse(err)
  }

  /** Reads the kind back from an envelope's code and message prefix; the two
      400 kinds are told apart by their prefixes. */
  function KindOf(r: ApiResponse): Option<Kind> {
    if r.Code == StatusOK && r.Successful then Some(Ok)
    else if r.Code == StatusBadRequest && "bad request: " <= r.Message then Some(BadRequest)
    else if r.Code == StatusBadRequest && "illegal argument: " <= r.Message then Some(IllegalArgument)
    else if r.Code == StatusNotFound then Some(NotFound)
    else if r.Code == StatusNotImplemented then Some(NotImplemented)
    else if r.Code == StatusInternalServerError then Some(InternalError)
    else None
  }

  /** Every envelope says which constructor made it, and across all of them
      the success flag is set exactly when the code is 200. */
  lemma KindOfMake(kind: Kind, data: Payload, err: string)
    ensures KindOf(Make(kind, data, err)) == Some(kind)
    ensures Make(kind, data, err).Successful <==> Make(kind, data, err).Code == StatusOK
    ensures Unstamped(Make(kind, data, err))
  {
    if kind == IllegalArgument {
      var m := Make(kind, data, err).Message;
      assert m[0] == 'i';
      assert !("bad request: " <= m);
    }
  }
}
