/**
 * The SQLite `users` table of the user service, kept in memory: the rows in
 * insertion order and the AUTOINCREMENT counter (the largest id ever handed out).
 */
module UserRepository {
  import opened Wrappers
  import opened Strconv
  import opened UserDomain
  import opened Paging

  /** SQLite's message for SQLITE_FULL, returned once AUTOINCREMENT has used the largest id. */
  const DiskFull: string := "database or disk is full"
  const UserNotFound: string := "user not found"

  function InsertFailed(cause: string): string { "failed to insert user: " + cause }
  function LookupFailed(cause: string): string { "failed to query user: " + cause }
  function ListFailed(cause: string): string { "failed to query users: " + cause }

  predicate IdsAscending(rows: seq<User>) {
    forall i, j :: 0 <= i < j < |rows| ==> rows[i].id < rows[j].id
  }

  predicate NewestCreatedFirst(users: seq<User>) {
    forall i, j :: 0 <= i < j < |users| ==> users[i].createdAt >= users[j].createdAt
  }

  /** Places `u` in a list sorted newest-created first, ahead of rows with an equal timestamp. */
  function Insert(u: User, sorted: seq<User>): seq<User> {
    if sorted == [] || u.createdAt >= sorted[0].createdAt then [u] + sorted
    else [sorted[0]] + Insert(u, sorted[1..])
  }

  /**
   * `ORDER BY created_at DESC`. SQLite leaves the order of equal timestamps
   * open; this model fixes one choice, the order of insertion.
   */
  function ByCreatedDesc(rows: seq<User>): seq<User> {
    if rows == [] then [] else Insert(rows[0], ByCreatedDesc(rows[1..]))
  }

  /** The result of `... ORDER BY created_at DESC LIMIT pageSize OFFSET (pageNum-1)*pageSize`. */
  function AllQuery(rows: seq<User>, filter: UserFilter): seq<User> {
    Window(ByCreatedDesc(rows), WrappedOffset(filter.pageNum, filter.pageSize), filter.pageSize)
  }

  class UserTable {
    var rows: seq<User>
    var lastId: Int64

    /** Ids grow with insertion order and none exceeds the counter. */
    ghost predicate Valid()
      reads this
    {
      0 <= lastId && IdsAscending(rows)
      && (forall i :: 0 <= i < |rows| ==> 1 <= rows[i].id <= lastId)
    }

    /** A freshly created, empty table. */
    constructor ()
      ensures Valid() && rows == [] && lastId == 0
    {
      rows := [];
      lastId := 0;
    }

    /**
     * `INSERT INTO users (name, created_at, updated_at)` followed by
     * `LastInsertId`: the row gets the id after the largest one ever assigned;
     * name and timestamps are stored as given. `dbFails` is the driver's error
     * for this statement, if it has one.
     */
    method Create(user: User, dbFails: Option<string>) returns (r: Result<User, string>)
      requires Valid()
      modifies this
      ensures Valid()
      ensures r.Ok? <==> dbFails.None? && old(lastId) < MaxInt64
      ensures dbFails.Some? ==> r == Err(InsertFailed(dbFails.value))
      ensures dbFails.None? && old(lastId) == MaxInt64 ==> r == Err(InsertFailed(DiskFull))
      ensures r.Err? ==> rows == old(rows) && lastId == old(lastId)
      ensures r.Ok? ==> r.value == user.(id := old(lastId) + 1)
      ensures r.Ok? ==> rows == old(rows) + [r.value] && lastId == r.value.id
      ensures r.Ok? ==> forall i :: 0 <= i < |old(rows)| ==> old(rows)[i].id < r.value.id
    {
      if dbFails.Some? {
        return Err(InsertFailed(dbFails.value));
      }
      if lastId == MaxInt64 {
        return Err(InsertFailed(DiskFull));
      }
      var stored := user.(id := lastId + 1);
      rows := rows + [stored];
      lastId := stored.id;
      r := Ok(stored);
    }

    /** `SELECT ... WHERE id = ?`: the row with that id, or "user not found". */
    method GetByID(id: Int64, dbFails: Option<string>) returns (r: Result<User, string>)
      ensures dbFails.Some? ==> r == Err(LookupFailed(dbFails.value))
      ensures dbFails.None? ==> (r.Ok? <==> exists i :: 0 <= i < |rows| && rows[i].id == id)
      ensures dbFails.None? && r.Err? ==> r.error == UserNotFound
      ensures r.Ok? ==> r.value in rows && r.value.id == id
      ensures r.Ok? && Valid() ==> forall k :: 0 <= k < |rows| && rows[k].id == id ==> rows[k] == r.value
    {
      if dbFails.Some? {
        return Err(LookupFailed(dbFails.value));
      }
      var i := 0;
      while i < |rows|
        invariant 0 <= i <= |rows|
        invariant forall k :: 0 <= k < i ==> rows[k].id != id
      {
        if rows[i].id == id {
          if Valid() {
            forall k | 0 <= k < |rows| && rows[k].id == id
              ensures rows[k] == rows[i]
            {
              IdsIdentifyRows(rows, i, k);
            }
          }
          return Ok(rows[i]);
        }
        i := i + 1;
      }
      r := Err(UserNotFound);
    }

    /**
     * `SELECT ... ORDER BY created_at DESC LIMIT ? OFFSET ?` and the loop that
     * collects the rows: skip the offset, then take at most `pageSize` rows.
     */
    method GetAll(filter: UserFilter, dbFails: Option<string>) returns (r: Result<seq<User>, string>)
      ensures dbFails.Some? ==> r == Err(ListFailed(dbFails.value))
      ensures dbFails.None? ==> r == Ok(AllQuery(rows, filter))
    {
      if dbFails.Some? {
        return Err(ListFailed(dbFails.value));
      }
      var ordered := ByCreatedDesc(rows);
      var limit := filter.pageSize;
      var start := Skipped(WrappedOffset(filter.pageNum, limit), |ordered|);
      var users: seq<User> := [];
      var k := start;
      while k < |ordered| && (limit < 0 || |users| < limit)
        invariant start <= k <= |ordered|
        invariant users == ordered[start..k]
        invariant limit >= 0 ==> |users| <= limit
      {
        users := users + [ordered[k]];
        k := k + 1;
      }
      assert users == Window(ordered, WrappedOffset(filter.pageNum, limit), limit);
      r := Ok(users);
    }
  }

  /** Ids grow with the rows, so a lookup by id can match at most one row. */
  lemma IdsIdentifyRows(rows: seq<User>, i: int, j: int)
    requires IdsAscending(rows)
    requires 0 <= i < |rows| && 0 <= j < |rows| && rows[i].id == rows[j].id
    ensures i == j
  {
  }

  lemma {:induction false} InsertPermutes(u: User, sorted: seq<User>)
    ensures multiset(Insert(u, sorted)) == multiset(sorted) + multiset{u}
  {
    if sorted != [] && u.createdAt < sorted[0].createdAt {
      InsertPermutes(u, sorted[1..]);
      assert sorted == [sorted[0]] + sorted[1..];
    }
  }

  lemma {:induction false} InsertKeepsOrder(u: User, sorted: seq<User>)
    requires NewestCreatedFirst(sorted)
    ensures NewestCreatedFirst(Insert(u, sorted))
  {
    if sorted != [] && u.createdAt < sorted[0].createdAt {
      var rest := Insert(u, sorted[1..]);
      InsertKeepsOrder(u, sorted[1..]);
      InsertPermutes(u, sorted[1..]);
      var r := [sorted[0]] + rest;
      forall i, j | 0 <= i < j < |r| ensures r[i].createdAt >= r[j].createdAt {
        assert r[j] == rest[j - 1];
        if i == 0 {
          assert rest[j - 1] in multiset(rest);
          if rest[j - 1] != u {
            assert rest[j - 1] in multiset(sorted[1..]);
            var k :| 0 <= k < |sorted[1..]| && sorted[1..][k] == rest[j - 1];
            assert sorted[1..][k] == sorted[k + 1];
          }
        } else {
          assert r[i] == rest[i - 1];
        }
      }
    }
  }

  /** The order by creation time sorts the table, newest first, and keeps every row once. */
  lemma {:induction false} ByCreatedDescSorts(rows: seq<User>)
    ensures NewestCreatedFirst(ByCreatedDesc(rows))
    ensures multiset(ByCreatedDesc(rows)) == multiset(rows)
  {
    if rows != [] {
      ByCreatedDescSorts(rows[1..]);
      InsertKeepsOrder(rows[0], ByCreatedDesc(rows[1..]));
      InsertPermutes(rows[0], ByCreatedDesc(rows[1..]));
      assert rows == [rows[0]] + rows[1..];
    }
  }

  /**
   * What a page of `GetAll` holds: rows of the table, in non-increasing
   * `created_at` order, at most `pageSize` of them, from position
   * `(pageNum-1)*pageSize` of the ordered table on.
   */
  lemma AllQueryResult(rows: seq<User>, filter: UserFilter)
    requires filter.pageSize >= 0
    ensures |AllQuery(rows, filter)| <= filter.pageSize
    ensures forall x :: x in AllQuery(rows, filter) ==> x in rows
    ensures NewestCreatedFirst(AllQuery(rows, filter))
  {
    var ordered := ByCreatedDesc(rows);
    ByCreatedDescSorts(rows);
    WindowWithin(ordered, WrappedOffset(filter.pageNum, filter.pageSize), filter.pageSize);
    forall x | x in ordered ensures x in rows {
      assert x in multiset(ordered);
    }
    var page := AllQuery(rows, filter);
    var start := Skipped(WrappedOffset(filter.pageNum, filter.pageSize), |ordered|);
    forall i, j | 0 <= i < j < |page| ensures page[i].createdAt >= page[j].createdAt {
      assert page[i] == ordered[start + i] && page[j] == ordered[start + j];
    }
  }

  /**
   * Page 2^62 of size 4: the 64-bit offset wraps to -4, read as 0, so the four
   * most recently created users come back although the page lies far past the end.
   */
  lemma HugePageShowsNewest(rows: seq<User>)
    requires 4 <= |rows| <= MaxInt64
    ensures |ByCreatedDesc(rows)| == |rows|
    ensures AllQuery(rows, UserFilter(HugePage, 4)) == ByCreatedDesc(rows)[..4]
  {
    ByCreatedDescSorts(rows);
    assert |ByCreatedDesc(rows)| == |multiset(ByCreatedDesc(rows))| == |rows|;
    WrappedOffsetShowsFirstPage(ByCreatedDesc(rows));
  }
}
