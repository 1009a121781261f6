/**
 * The SQLite `listings` table of the listing service, kept in memory: the rows
 * in insertion order and the AUTOINCREMENT counter (the largest id ever handed out).
 */
module ListingRepository {
  import opened Wrappers
  import opened Strconv
  import opened ListingDomain
  import opened Paging

  /** SQLite's message for SQLITE_FULL, returned once AUTOINCREMENT has used the largest id. */
  const DiskFull: string := "database or disk is full"

  function CreateFailed(cause: string): string { "failed to create listing: " + cause }
  function QueryFailed(cause: string): string { "failed to query listings: " + cause }

  /** The optional `WHERE user_id = ?` clause. */
  predicate Matches(l: Listing, owner: Option<Int64>) {
    owner.None? || l.userId == owner.value
  }

  /** The rows that pass the owner filter, latest row first. */
  function NewestFirst(rows: seq<Listing>, owner: Option<Int64>): seq<Listing> {
    if rows == [] then []
    else NewestFirst(rows[1..], owner) + (if Matches(rows[0], owner) then [rows[0]] else [])
  }

  /** The result of `... ORDER BY id DESC LIMIT pageSize OFFSET (pageNum-1)*pageSize`. */
  function Query(rows: seq<Listing>, filter: ListingFilter): seq<Listing> {
    Window(NewestFirst(rows, filter.userId), WrappedOffset(filter.pageNum, filter.pageSize), filter.pageSize)
  }

  predicate IdsAscending(rows: seq<Listing>) {
    forall i, j :: 0 <= i < j < |rows| ==> rows[i].id < rows[j].id
  }

  predicate IdsDescending(rows: seq<Listing>) {
    forall i, j :: 0 <= i < j < |rows| ==> rows[i].id > rows[j].id
  }

  class ListingTable {
    var rows: seq<Listing>
    var lastId: Int64

    /** Ids grow with insertion order and none exceeds the counter. */
    ghost predicate Valid()
      reads this
    {
      0 <= lastId && IdsAscending(rows)
      && (forall i :: 0 <= i < |rows| ==> 1 <= rows[i].id <= lastId)
    }

    /** A freshly created, empty table. */
    constructor ()
      ensures Valid() && rows == [] && lastId == 0
    {
      rows := [];
      lastId := 0;
    }

    /**
     * `INSERT INTO listings ...` followed by `LastInsertId`: the row gets the
     * id after the largest one ever assigned, and the listing comes back with it.
     * `dbFails` is the driver's error for this statement, if it has one.
     */
    method Create(listing: Listing, dbFails: Option<string>) returns (r: Result<Listing, string>)
      requires Valid()
      modifies this
      ensures Valid()
      ensures r.Ok? <==> dbFails.None? && old(lastId) < MaxInt64
      ensures dbFails.Some? ==> r == Err(CreateFailed(dbFails.value))
      ensures dbFails.None? && old(lastId) == MaxInt64 ==> r == Err(CreateFailed(DiskFull))
      ensures r.Err? ==> rows == old(rows) && lastId == old(lastId)
      ensures r.Ok? ==> r.value == listing.(id := old(lastId) + 1)
      ensures r.Ok? ==> rows == old(rows) + [r.value] && lastId == r.value.id
      ensures r.Ok? ==> forall i :: 0 <= i < |old(rows)| ==> old(rows)[i].id < r.value.id
    {
      if dbFails.Some? {
        return Err(CreateFailed(dbFails.value));
      }
      if lastId == MaxInt64 {
        return Err(CreateFailed(DiskFull));
      }
      var stored := listing.(id := lastId + 1);
      rows := rows + [stored];
      lastId := stored.id;
      r := Ok(stored);
    }

    /**
     * `SELECT ... [WHERE user_id = ?] ORDER BY id DESC LIMIT ? OFFSET ?` and the
     * `rows.Next()` loop that collects the result; the table is only read.
     */
    method FindAll(filter: ListingFilter, dbFails: Option<string>) returns (r: Result<seq<Listing>, string>)
      ensures dbFails.Some? ==> r == Err(QueryFailed(dbFails.value))
      ensures dbFails.None? ==> r == Ok(Query(rows, filter))
    {
      if dbFails.Some? {
        return Err(QueryFailed(dbFails.value));
      }
      var matched: seq<Listing> := [];
      var i := |rows|;
      while i > 0
        invariant 0 <= i <= |rows|
        invariant matched == NewestFirst(rows[i..], filter.userId)
      {
        i := i - 1;
        assert rows[i..][1..] == rows[i + 1..];
        if Matches(rows[i], filter.userId) {
          matched := matched + [rows[i]];
        }
      }
      assert rows[0..] == rows;
      r := Ok(Window(matched, WrappedOffset(filter.pageNum, filter.pageSize), filter.pageSize));
    }
  }

  lemma {:induction false} NewestFirstSound(rows: seq<Listing>, owner: Option<Int64>)
    ensures forall x :: x in NewestFirst(rows, owner) ==> x in rows && Matches(x, owner)
    ensures |NewestFirst(rows, owner)| <= |rows|
  {
    if rows != [] {
      NewestFirstSound(rows[1..], owner);
    }
  }

  lemma {:induction false} NewestFirstComplete(rows: seq<Listing>, owner: Option<Int64>, x: Listing)
    requires x in rows && Matches(x, owner)
    ensures x in NewestFirst(rows, owner)
  {
    if rows[0] != x {
      NewestFirstComplete(rows[1..], owner, x);
    }
  }

  lemma {:induction false} NewestFirstDescending(rows: seq<Listing>, owner: Option<Int64>)
    requires IdsAscending(rows)
    ensures IdsDescending(NewestFirst(rows, owner))
  {
    if rows != [] {
      var rest := NewestFirst(rows[1..], owner);
      NewestFirstDescending(rows[1..], owner);
      NewestFirstSound(rows[1..], owner);
      forall x | x in rest ensures x.id > rows[0].id {
        var k :| 0 <= k < |rows[1..]| && rows[1..][k] == x;
        assert rows[k + 1] == x;
      }
    }
  }

  /** Without an owner filter the scan is the table read backwards. */
  lemma {:induction false} UnfilteredIsReversed(rows: seq<Listing>)
    ensures |NewestFirst(rows, None)| == |rows|
    ensures forall k :: 0 <= k < |rows| ==> NewestFirst(rows, None)[k] == rows[|rows| - 1 - k]
  {
    if rows != [] {
      UnfilteredIsReversed(rows[1..]);
    }
  }

  /** A window keeps rows of the scan only, in the scan's order. */
  lemma WindowOfScan(all: seq<Listing>, offset: int, limit: int)
    requires IdsDescending(all)
    ensures forall x :: x in Window(all, offset, limit) ==> x in all
    ensures IdsDescending(Window(all, offset, limit))
  {
    var page := Window(all, offset, limit);
    var start := Skipped(offset, |all|);
    forall x | x in page ensures x in all {
      var k :| 0 <= k < |page| && page[k] == x;
      assert all[start + k] == x;
    }
  }

  /**
   * What a page of `FindAll` holds: listings of the requested owner only
   * (any owner when the filter has none), newest first with strictly decreasing
   * ids, at most `pageSize` of them, taken from the table.
   */
  lemma QueryResult(rows: seq<Listing>, filter: ListingFilter)
    requires IdsAscending(rows) && filter.pageSize >= 0
    ensures |Query(rows, filter)| <= filter.pageSize
    ensures forall x :: x in Query(rows, filter) ==> x in rows && Matches(x, filter.userId)
    ensures IdsDescending(Query(rows, filter))
  {
    NewestFirstSound(rows, filter.userId);
    NewestFirstDescending(rows, filter.userId);
    WindowOfScan(NewestFirst(rows, filter.userId), WrappedOffset(filter.pageNum, filter.pageSize), filter.pageSize);
  }

  /** Twelve listings, page 2 of size 5: the five newest are skipped and the two oldest left out. */
  lemma TwelveRowsPageTwo(rows: seq<Listing>)
    requires |rows| == 12
    ensures Query(rows, ListingFilter(None, 2, 5)) == [rows[6], rows[5], rows[4], rows[3], rows[2]]
  {
    UnfilteredIsReversed(rows);
  }

  /**
   * Page 2^62 of size 4: the 64-bit offset wraps to -4, read as 0, so the four
   * newest listings come back although the page lies far past the end.
   */
  lemma HugePageShowsNewest(rows: seq<Listing>)
    requires 4 <= |rows| <= MaxInt64
    ensures Query(rows, ListingFilter(None, HugePage, 4)) == [rows[|rows| - 1], rows[|rows| - 2], rows[|rows| - 3], rows[|rows| - 4]]
  {
    UnfilteredIsReversed(rows);
    WrappedOffsetShowsFirstPage(NewestFirst(rows, None));
  }

  /**
   * After a successful insert, the new listing heads page 1 of its owner's
   * listings, and a filter on any other owner never returns it.
   */
  lemma CreatedListingFirstForItsOwner(rows: seq<Listing>, l: Listing, other: Int64, pageSize: Int64)
    requires IdsAscending(rows) && forall i :: 0 <= i < |rows| ==> rows[i].id < l.id
    requires other != l.userId && pageSize >= 1
    ensures |Query(rows + [l], ListingFilter(Some(l.userId), 1, pageSize))| >= 1
    ensures Query(rows + [l], ListingFilter(Some(l.userId), 1, pageSize))[0] == l
    ensures l !in Query(rows + [l], ListingFilter(Some(other), 1, pageSize))
  {
    NewestFirstAppend(rows, l, Some(l.userId));
    assert IdsAscending(rows + [l]);
    QueryResult(rows + [l], ListingFilter(Some(other), 1, pageSize));
  }

  /** Appending a row puts it in front of the scan when it passes the filter. */
  lemma {:induction false} NewestFirstAppend(rows: seq<Listing>, l: Listing, owner: Option<Int64>)
    ensures NewestFirst(rows + [l], owner) == (if Matches(l, owner) then [l] else []) + NewestFirst(rows, owner)
  {
    if rows == [] {
      assert [l][1..] == [];
    } else {
      assert (rows + [l])[1..] == rows[1..] + [l];
      NewestFirstAppend(rows[1..], l, owner);
    }
  }
}
