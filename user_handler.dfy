/**
 * HTTP handlers of the user service: `POST /users`, `GET /users/{id}` and
 * `GET /users`. Each request ends in one outcome, which `Render` turns into
 * the reply the service writes.
 */
module UserHandler {
  import opened Wrappers
  import opened Strconv
  import opened Json
  import opened Http
  import opened UserDomain
  import opened UserRepository
  import UserUseCase

  const MsgInvalidForm: string := "invalid form data"
  const MsgInvalidUserId: string := "invalid user id"
  const MsgInvalidPageNum: string := "invalid page_num"
  const MsgInvalidPageSize: string := "invalid page_size"

  /** What a request to the user service ends in. */
  datatype Outcome =
    | UserCreated(user: User)
    | UserFound(user: User)
    | UserList(users: seq<User>)
    | Failed(status: int, message: string)

  /**
   * `POST /users`: reads the name from the form and calls the use case; any
   * use-case error answers 400. `form` is None when the body cannot be parsed.
   */
  method CreateUser(repo: UserTable, form: Option<Values>, now: Int64, dbFails: Option<string>)
    returns (o: Outcome)
    requires repo.Valid()
    modifies repo
    ensures repo.Valid()
    ensures form.None? ==> o == Failed(StatusBadRequest, MsgInvalidForm) && repo.rows == old(repo.rows)
    ensures form.Some? && !HasNonSpace(Get(form.value, "name")) ==>
              o == Failed(StatusBadRequest, ErrNameRequired) && repo.rows == old(repo.rows)
    ensures o.Failed? ==> o.status == StatusBadRequest && repo.rows == old(repo.rows)
    ensures form.Some? && HasNonSpace(Get(form.value, "name")) && dbFails.Some? ==>
              o == Failed(StatusBadRequest, UserUseCase.CreateFailed(InsertFailed(dbFails.value)))
    ensures form.Some? && HasNonSpace(Get(form.value, "name")) && dbFails.None? && old(repo.lastId) == MaxInt64 ==>
              o == Failed(StatusBadRequest, UserUseCase.CreateFailed(InsertFailed(DiskFull)))
    ensures o.UserCreated? <==> form.Some? && HasNonSpace(Get(form.value, "name"))
                                && dbFails.None? && old(repo.lastId) < MaxInt64
    ensures o.UserCreated? ==> o.user == User(old(repo.lastId) + 1, Get(form.value, "name"), now, now)
                               && repo.rows == old(repo.rows) + [o.user]
    ensures o.UserCreated? ==> repo.lastId == o.user.id
    ensures o.Failed? ==> repo.rows == old(repo.rows) && repo.lastId == old(repo.lastId)
    ensures o.UserCreated? || o.Failed?
  {
    if form.None? {
      return Failed(StatusBadRequest, MsgInvalidForm);
    }
    var created := UserUseCase.CreateUser(repo, Get(form.value, "name"), now, dbFails);
    if created.Err? {
      return Failed(StatusBadRequest, created.error);
    }
    o := UserCreated(created.value);
  }

  /**
   * `GET /users/{id}`: a path id that is not an integer answers 400; every
   * use-case error, a storage failure as much as a missing row, answers 404.
   */
  method GetUser(repo: UserTable, idText: string, dbFails: Option<string>) returns (o: Outcome)
    ensures ParseInt(idText).None? ==> o == Failed(StatusBadRequest, MsgInvalidUserId)
    ensures ParseInt(idText).Some? && o.Failed? ==> o.status == StatusNotFound
    ensures ParseInt(idText).Some? && dbFails.Some? ==>
              o == Failed(StatusNotFound, UserUseCase.GetFailed(LookupFailed(dbFails.value)))
    ensures ParseInt(idText).Some? && dbFails.None? && o.Failed? ==>
              o == Failed(StatusNotFound, UserUseCase.GetFailed(UserNotFound))
    ensures ParseInt(idText).Some? && dbFails.None? ==>
              (o.UserFound? <==> exists i :: 0 <= i < |repo.rows| && repo.rows[i].id == ParseInt(idText).value)
    ensures o.UserFound? ==> o.user in repo.rows && Some(o.user.id) == ParseInt(idText)
    ensures o.UserFound? || o.Failed?
  {
    var id := ParseInt(idText);
    if id.None? {
      return Failed(StatusBadRequest, MsgInvalidUserId);
    }
    var found := UserUseCase.GetUserByID(repo, id.value, dbFails);
    if found.Err? {
      return Failed(StatusNotFound, found.error);
    }
    o := UserFound(found.value);
  }

  /** Reads one optional integer page parameter; any integer is accepted, absent means the default. */
  function IntParam(query: Values, name: string, default: Int64, message: string): (r: Result<Int64, Outcome>)
    ensures Get(query, name) == "" ==> r == Ok(default)
    ensures Get(query, name) != "" && ParseInt(Get(query, name)).Some? ==> r == Ok(ParseInt(Get(query, name)).value)
    ensures Get(query, name) != "" && ParseInt(Get(query, name)).None? ==> r == Err(Failed(StatusBadRequest, message))
  {
    var text := Get(query, name);
    if text == "" then Ok(default)
    else match ParseInt(text)
      case None => Err(Failed(StatusBadRequest, message))
      case Some(n) => Ok(n)
  }

  /**
   * The pagination of `GET /users`: page_num, then page_size; absent values are
   * 1 and 10, a non-integer answers 400, zero and negative integers pass.
   */
  function ParsePaging(query: Values): (r: Result<(Int64, Int64), Outcome>)
    ensures r.Ok? <==> IntParam(query, "page_num", 1, MsgInvalidPageNum).Ok?
                       && IntParam(query, "page_size", 10, MsgInvalidPageSize).Ok?
    ensures r.Ok? ==> r.value == (IntParam(query, "page_num", 1, MsgInvalidPageNum).value,
                                  IntParam(query, "page_size", 10, MsgInvalidPageSize).value)
    ensures IntParam(query, "page_num", 1, MsgInvalidPageNum).Err? ==> r == Err(Failed(StatusBadRequest, MsgInvalidPageNum))
    ensures IntParam(query, "page_num", 1, MsgInvalidPageNum).Ok? && IntParam(query, "page_size", 10, MsgInvalidPageSize).Err? ==>
              r == Err(Failed(StatusBadRequest, MsgInvalidPageSize))
    ensures r.Err? ==> r.error.Failed? && r.error.status == StatusBadRequest
  {
    match IntParam(query, "page_num", 1, MsgInvalidPageNum)
    case Err(e) => Err(e)
    case Ok(pageNum) =>
      match IntParam(query, "page_size", 10, MsgInvalidPageSize)
      case Err(e) => Err(e)
      case Ok(pageSize) => Ok((pageNum, pageSize))
  }

  /** Zero and negative page values are not rejected here: they reach the use case, which replaces them. */
  lemma NonPositivePagingAccepted()
    ensures ParsePaging(map["page_num" := "0", "page_size" := "-3"]) == Ok((0, -3))
  {
    var minus3 := "-3";
    assert minus3[1..] == "3";
    assert AllDigits("0") && DigitsValue("0") == 0;
    assert AllDigits("3") && DigitsValue("3") == 3;
  }

  /** `GET /users`: the pagination checks, then the use case; a use-case error answers 500. */
  method GetAllUsers(repo: UserTable, query: Values, dbFails: Option<string>) returns (o: Outcome)
    ensures ParsePaging(query).Err? ==> o == ParsePaging(query).error
    ensures ParsePaging(query).Ok? && dbFails.None? ==>
              o == UserList(AllQuery(repo.rows, UserUseCase.BuildFilter(ParsePaging(query).value.0, ParsePaging(query).value.1)))
    ensures ParsePaging(query).Ok? && dbFails.Some? ==>
              o == Failed(StatusInternalServerError, UserUseCase.GetAllFailed(ListFailed(dbFails.value)))
  {
    var paging := ParsePaging(query);
    if paging.Err? {
      return paging.error;
    }
    var found := UserUseCase.GetAllUsers(repo, paging.value.0, paging.value.1, dbFails);
    if found.Err? {
      return Failed(StatusInternalServerError, found.error);
    }
    o := UserList(found.value);
  }

  /** The JSON encoding of a user, under its struct tags. */
  function UserJson(u: User): Json {
    JObj(map[
      "id" := JNum(u.id),
      "name" := JStr(u.name),
      "created_at" := JNum(u.createdAt),
      "updated_at" := JNum(u.updatedAt)])
  }

  /** The JSON array of a slice of users, element by element and in order. */
  function UsersJson(us: seq<User>): (items: seq<Json>)
    ensures |items| == |us|
    ensures forall i :: 0 <= i < |us| ==> items[i] == UserJson(us[i])
  {
    if us == [] then [] else [UserJson(us[0])] + UsersJson(us[1..])
  }

  /**
   * The reply the service writes: a user under the key "user", a page of
   * users under "users" (a nil slice, no rows, encodes as null).
   */
  function Render(o: Outcome): (r: Reply)
    ensures r.status == (if o.Failed? then o.status else StatusOK)
    ensures r.body.JObj? && "result" in r.body.fields && r.body.fields["result"] == JBool(!o.Failed?)
    ensures o.Failed? ==> "data" !in r.body.fields
    ensures !o.Failed? ==> "data" in r.body.fields && r.body.fields["data"].JObj?
    ensures o.UserCreated? || o.UserFound? ==>
              r.body.fields["data"].fields.Keys == {"user"} && r.body.fields["data"].fields["user"] == UserJson(o.user)
    ensures o.UserList? ==> r.body.fields["data"].fields.Keys == {"users"}
                            && (r.body.fields["data"].fields["users"].JNull? <==> o.users == [])
                            && (o.users != [] ==>
                                  r.body.fields["data"].fields["users"].JArr?
                                  && r.body.fields["data"].fields["users"] == JArr(UsersJson(o.users)))
  {
    match o
    case UserCreated(u) => WriteSuccess(JObj(map["user" := UserJson(u)]))
    case UserFound(u) => WriteSuccess(JObj(map["user" := UserJson(u)]))
    case UserList(us) => WriteSuccess(JObj(map["users" := if us == [] then JNull else JArr(UsersJson(us))]))
    case Failed(status, message) => WriteError(status, message)
  }
}
