/**
 * HTTP vocabulary shared by the services: status codes, form and query values,
 * and the JSON envelope the listing and user services write
 * (`{"result": true, "data": ...}` or `{"result": false, "errors": [...]}`).
 */
module Http {
  import opened Json

  const StatusOK: int := 200
  const StatusBadRequest: int := 400
  const StatusNotFound: int := 404
  const StatusMethodNotAllowed: int := 405
  const StatusInternalServerError: int := 500

  /** Form or query values: each name with its first value (`url.Values.Get`). */
  type Values = map<string, string>

  /** `Values.Get` and `Request.FormValue`: an absent name reads as the empty string. */
  function Get(v: Values, name: string): string {
    if name in v then v[name] else ""
  }

  /** A response as written on the wire: status code and JSON body. */
  datatype Reply = Reply(status: int, body: Json)

  /** `WriteSuccess`: status 200 with the success envelope around `data`. */
  function WriteSuccess(data: Json): Reply {
    Reply(StatusOK, JObj(map["result" := JBool(true), "data" := data]))
  }

  /** `WriteError`: the given status with the failure envelope holding one message. */
  function WriteError(status: int, message: string): Reply {
    Reply(status, JObj(map["result" := JBool(false), "errors" := JArr([JStr(message)])]))
  }
}
