/** The public API's client of the user service. */
module UserClient {
  import opened Wrappers
  import opened Strconv
  import opened Json
  import opened Http
  import opened PublicModel
  import opened ServiceClient

  /**
   * Reading a reply that carries one user, for `GET /users/{id}` and
   * `POST /users` alike: after the common checks, a missing "user" key is the
   * error "no user in response" and a payload that does not decode is an error;
   * a success is exactly the decoded payload.
   */
  function ReadUser(resp: Response): (r: Result<User, ClientError>)
    ensures Open(resp).Err? ==> r == Err(Open(resp).error)
    ensures Open(resp).Ok? && "user" !in Open(resp).value ==> r == Err(MissingPayload("user"))
    ensures Open(resp).Ok? && "user" in Open(resp).value ==>
              (r.Ok? <==> DecodeUser(Open(resp).value["user"]).Some?)
    ensures r.Ok? ==> DecodeUser(Open(resp).value["user"]) == Some(r.value)
    ensures r.Err? && Open(resp).Ok? && "user" in Open(resp).value ==> r.error == UndecodablePayload("user")
  {
    match Open(resp)
    case Err(e) => Err(e)
    case Ok(data) =>
      if "user" !in data then Err(MissingPayload("user"))
      else match DecodeUser(data["user"])
        case None => Err(UndecodablePayload("user"))
        case Some(user) => Ok(user)
  }

  /**
   * `GetUser`: requests `/users/{id}` through `get`, the transport, which is
   * given the decimal id of the path.
   */
  function GetUser(userId: Int64, get: string -> Response): (r: Result<User, ClientError>)
    ensures get(FormatInt(userId)).TransportFailed? ==> r == Err(Transport(get(FormatInt(userId)).reason))
    ensures get(FormatInt(userId)).Received? && get(FormatInt(userId)).status != StatusOK ==>
              r == Err(BadStatus(get(FormatInt(userId)).status))
    ensures r.Ok? ==> Open(get(FormatInt(userId))).Ok? && "user" in Open(get(FormatInt(userId))).value
                      && DecodeUser(Open(get(FormatInt(userId))).value["user"]) == Some(r.value)
    ensures r.Ok? <==> Open(get(FormatInt(userId))).Ok? && "user" in Open(get(FormatInt(userId))).value
                       && DecodeUser(Open(get(FormatInt(userId))).value["user"]).Some?
    ensures r == ReadUser(get(FormatInt(userId)))
  {
    ReadUser(get(FormatInt(userId)))
  }

  /** `CreateUser`: posts the name through `post`, the transport, and reads the reply. */
  function CreateUser(name: string, post: Values -> Response): (r: Result<User, ClientError>)
    ensures post(map["name" := name]).TransportFailed? ==> r == Err(Transport(post(map["name" := name]).reason))
    ensures post(map["name" := name]).Received? && post(map["name" := name]).status != StatusOK ==>
              r == Err(BadStatus(post(map["name" := name]).status))
    ensures r.Ok? ==> Open(post(map["name" := name])).Ok? && "user" in Open(post(map["name" := name])).value
                      && DecodeUser(Open(post(map["name" := name])).value["user"]) == Some(r.value)
    ensures r.Ok? <==> Open(post(map["name" := name])).Ok? && "user" in Open(post(map["name" := name])).value
                       && DecodeUser(Open(post(map["name" := name])).value["user"]).Some?
    ensures r == ReadUser(post(map["name" := name]))
  {
    ReadUser(post(map["name" := name]))
  }
}
