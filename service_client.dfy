/**
 * What the public API's clients have in common: the outcome of an HTTP call to
 * a downstream service and the first checks applied to it, in this order:
 * transport, status code, envelope decoding, the `result` flag.
 */
module ServiceClient {
  import opened Wrappers
  import opened Json
  import opened Http

  /** An HTTP exchange: the transport failed, or a status and a body (None when it is not JSON). */
  datatype Response =
    | TransportFailed(reason: string)
    | Received(status: int, body: Option<Json>)

  /** Why a downstream call gave no value. */
  datatype ClientError =
    | Transport(reason: string)
    | BadStatus(status: int)
    | UndecodableResponse
    | ServiceFailed(errors: seq<string>)
    | MissingPayload(key: string)
    | UndecodablePayload(key: string)

  /** The `ServiceResponse` struct: the result flag, the data object, the error messages. */
  datatype Envelope = Envelope(result: bool, data: map<string, Json>, errors: seq<string>)

  function DecodeStrings(items: seq<Json>): (r: Option<seq<string>>)
    ensures r.Some? <==> forall i :: 0 <= i < |items| ==> AsString(items[i]).Some?
    ensures r.Some? ==> |r.value| == |items|
                        && forall i :: 0 <= i < |items| ==> AsString(items[i]) == Some(r.value[i])
  {
    if items == [] then Some([])
    else match (AsString(items[0]), DecodeStrings(items[1..]))
      case (Some(s), Some(rest)) => Some([s] + rest)
      case _ => None
  }

  /**
   * Decoding a body into `ServiceResponse`: `null` gives the zero envelope; in an
   * object, `result` must be a boolean, `data` an object and `errors` an array of
   * strings (each may also be null or absent); anything else fails.
   */
  function DecodeEnvelope(j: Json): (r: Option<Envelope>)
    ensures j.JNull? ==> r == Some(Envelope(false, map[], []))
    ensures !(j.JNull? || j.JObj?) ==> r == None
    ensures j.JObj? && "data" in j.fields && !(j.fields["data"].JNull? || j.fields["data"].JObj?) ==> r == None
    ensures j.JObj? && r.Some? ==> AsBool(Field(j.fields, "result")) == Some(r.value.result)
    ensures j.JObj? && r.Some? && "data" in j.fields && j.fields["data"].JObj? ==> r.value.data == j.fields["data"].fields
    ensures j.JObj? && r.Some? && ("data" !in j.fields || j.fields["data"].JNull?) ==> r.value.data == map[]
  {
    match j
    case JNull => Some(Envelope(false, map[], []))
    case JObj(m) =>
      var data := match Field(m, "data")
                  case JNull => Some(map[])
                  case JObj(d) => Some(d)
                  case _ => None;
      var errors := match Field(m, "errors")
                    case JNull => Some([])
                    case JArr(items) => DecodeStrings(items)
                    case _ => None;
      (match (AsBool(Field(m, "result")), data, errors)
       case (Some(result), Some(d), Some(es)) => Some(Envelope(result, d, es))
       case _ => None)
    case _ => None
  }

  /**
   * The checks every client call starts with; on success, the `data` object of
   * a successful envelope. A status other than 200 fails whatever the body, and
   * `result: false` fails even with status 200.
   */
  function Open(resp: Response): (r: Result<map<string, Json>, ClientError>)
    ensures resp.TransportFailed? ==> r == Err(Transport(resp.reason))
    ensures resp.Received? && resp.status != StatusOK ==> r == Err(BadStatus(resp.status))
    ensures resp.Received? && resp.status == StatusOK && (resp.body.None? || DecodeEnvelope(resp.body.value).None?) ==>
              r == Err(UndecodableResponse)
    ensures resp.Received? && resp.status == StatusOK && resp.body.Some? && DecodeEnvelope(resp.body.value).Some?
            && !DecodeEnvelope(resp.body.value).value.result ==>
              r == Err(ServiceFailed(DecodeEnvelope(resp.body.value).value.errors))
    ensures r.Ok? ==> resp.Received? && resp.status == StatusOK && resp.body.Some?
                      && DecodeEnvelope(resp.body.value) == Some(Envelope(true, r.value, DecodeEnvelope(resp.body.value).value.errors))
  {
    match resp
    case TransportFailed(reason) => Err(Transport(reason))
    case Received(status, body) =>
      if status != StatusOK then Err(BadStatus(status))
      else if body.None? then Err(UndecodableResponse)
      else match DecodeEnvelope(body.value)
        case None => Err(UndecodableResponse)
        case Some(env) => if !env.result then Err(ServiceFailed(env.errors)) else Ok(env.data)
  }

  /** A reply of the listing or user service as the public API receives it. */
  function Transmit(reply: Reply): (resp: Response)
    ensures resp.Received? && resp.status == reply.status
  {
    Received(reply.status, Some(reply.body))
  }

  /** Every error reply a downstream service writes reaches the client as a status error. */
  lemma ErrorReplyIsBadStatus(status: int, message: string)
    requires status != StatusOK
    ensures Open(Transmit(WriteError(status, message))) == Err(BadStatus(status))
  {
  }

  /** A success reply whose data is an object is opened to exactly that object. */
  lemma SuccessReplyOpens(data: map<string, Json>)
    ensures Open(Transmit(WriteSuccess(JObj(data)))) == Ok(data)
  {
    var body := WriteSuccess(JObj(data)).body;
    assert Field(body.fields, "errors") == JNull;
    assert Field(body.fields, "result") == JBool(true);
    assert Field(body.fields, "data") == JObj(data);
  }
}
