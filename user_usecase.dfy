/** Business logic of the user service between its handler and its table. */
module UserUseCase {
  import opened Wrappers
  import opened Strconv
  import opened UserDomain
  import opened UserRepository

  function CreateFailed(cause: string): string { "failed to create user: " + cause }
  function GetFailed(cause: string): string { "failed to get user: " + cause }
  function GetAllFailed(cause: string): string { "failed to get users: " + cause }

  /**
   * The repository filter for a request: a page number or size below 1 becomes
   * 1 or 10, other values pass through unchanged.
   */
  function BuildFilter(pageNum: Int64, pageSize: Int64): (f: UserFilter)
    ensures f.pageNum >= 1 && f.pageSize >= 1
    ensures pageNum >= 1 ==> f.pageNum == pageNum
    ensures pageNum < 1 ==> f.pageNum == 1
    ensures pageSize >= 1 ==> f.pageSize == pageSize
    ensures pageSize < 1 ==> f.pageSize == 10
  {
    UserFilter(if pageNum < 1 then 1 else pageNum, if pageSize < 1 then 10 else pageSize)
  }

  /**
   * Validates the name, then stores the user. An invalid name is reported as the
   * validation error and nothing is stored; a storage error is wrapped.
   */
  method CreateUser(repo: UserTable, name: string, now: Int64, dbFails: Option<string>)
    returns (r: Result<User, string>)
    requires repo.Valid()
    modifies repo
    ensures repo.Valid()
    ensures r.Ok? <==> HasNonSpace(name) && dbFails.None? && old(repo.lastId) < MaxInt64
    ensures !HasNonSpace(name) ==> r == Err(ErrNameRequired)
    ensures HasNonSpace(name) && dbFails.Some? ==> r == Err(CreateFailed(InsertFailed(dbFails.value)))
    ensures HasNonSpace(name) && dbFails.None? && old(repo.lastId) == MaxInt64 ==>
              r == Err(CreateFailed(InsertFailed(DiskFull)))
    ensures r.Err? ==> repo.rows == old(repo.rows) && repo.lastId == old(repo.lastId)
    ensures r.Ok? ==> repo.rows == old(repo.rows) + [r.value] && r.value.id == old(repo.lastId) + 1
    ensures r.Ok? ==> repo.lastId == r.value.id
    ensures r.Ok? ==> r.value == User(r.value.id, name, now, now)
  {
    var built := NewUser(name, now);
    if built.Err? {
      return Err(built.error);
    }
    var saved := repo.Create(built.value, dbFails);
    if saved.Err? {
      return Err(CreateFailed(saved.error));
    }
    r := Ok(saved.value);
  }

  /** The stored user with that id; a missing row is the wrapped "user not found". */
  method GetUserByID(repo: UserTable, id: Int64, dbFails: Option<string>) returns (r: Result<User, string>)
    ensures dbFails.None? ==> (r.Ok? <==> exists i :: 0 <= i < |repo.rows| && repo.rows[i].id == id)
    ensures dbFails.None? && r.Err? ==> r.error == GetFailed(UserNotFound)
    ensures dbFails.Some? ==> r == Err(GetFailed(LookupFailed(dbFails.value)))
    ensures r.Ok? ==> r.value in repo.rows && r.value.id == id
  {
    var found := repo.GetByID(id, dbFails);
    if found.Err? {
      return Err(GetFailed(found.error));
    }
    r := Ok(found.value);
  }

  /** Fills in pagination defaults and lists the users; the table is only read. */
  method GetAllUsers(repo: UserTable, pageNum: Int64, pageSize: Int64, dbFails: Option<string>)
    returns (r: Result<seq<User>, string>)
    ensures dbFails.None? ==> r == Ok(AllQuery(repo.rows, BuildFilter(pageNum, pageSize)))
    ensures dbFails.Some? ==> r == Err(GetAllFailed(ListFailed(dbFails.value)))
  {
    var found := repo.GetAll(BuildFilter(pageNum, pageSize), dbFails);
    if found.Err? {
      return Err(GetAllFailed(found.error));
    }
    r := Ok(found.value);
  }
}
