/** Business logic of the listing service between its handler and its table. */
module ListingUseCase {
  import opened Wrappers
  import opened Strconv
  import opened ListingDomain
  import opened ListingRepository

  function SaveFailed(cause: string): string { "failed to save listing: " + cause }
  function RetrieveFailed(cause: string): string { "failed to retrieve listings: " + cause }

  /**
   * The repository filter for a request: a page number or size of zero or less
   * becomes 1 or 10, positive values and the owner pass through unchanged.
   */
  function BuildFilter(userId: Option<Int64>, pageNum: Int64, pageSize: Int64): (f: ListingFilter)
    ensures f.userId == userId
    ensures f.pageNum >= 1 && f.pageSize >= 1
    ensures pageNum >= 1 ==> f.pageNum == pageNum
    ensures pageNum <= 0 ==> f.pageNum == 1
    ensures pageSize >= 1 ==> f.pageSize == pageSize
    ensures pageSize <= 0 ==> f.pageSize == 10
  {
    ListingFilter(userId, if pageNum <= 0 then 1 else pageNum, if pageSize <= 0 then 10 else pageSize)
  }

  /**
   * Validates through the domain constructor, then stores. A validation error is
   * returned as it is and the table is untouched; a storage error is wrapped.
   */
  method CreateListing(repo: ListingTable, userId: Int64, listingType: string, price: Int64, now: Int64, dbFails: Option<string>)
    returns (r: Result<Listing, string>)
    requires repo.Valid()
    modifies repo
    ensures repo.Valid()
    ensures r.Ok? <==> IsKnownType(listingType) && price > 0 && dbFails.None? && old(repo.lastId) < MaxInt64
    ensures NewListing(userId, listingType, price, now).Err? ==>
              r == Err(NewListing(userId, listingType, price, now).error)
    ensures NewListing(userId, listingType, price, now).Ok? && dbFails.Some? ==>
              r == Err(SaveFailed(CreateFailed(dbFails.value)))
    ensures NewListing(userId, listingType, price, now).Ok? && dbFails.None? && old(repo.lastId) == MaxInt64 ==>
              r == Err(SaveFailed(CreateFailed(DiskFull)))
    ensures r.Err? ==> repo.rows == old(repo.rows) && repo.lastId == old(repo.lastId)
    ensures r.Ok? ==> repo.rows == old(repo.rows) + [r.value] && r.value.id == old(repo.lastId) + 1
    ensures r.Ok? ==> repo.lastId == r.value.id
    ensures r.Ok? ==> r.value == Listing(r.value.id, userId, listingType, price, now, now)
  {
    var built := NewListing(userId, listingType, price, now);
    if built.Err? {
      return Err(built.error);
    }
    var saved := repo.Create(built.value, dbFails);
    if saved.Err? {
      return Err(SaveFailed(saved.error));
    }
    r := Ok(saved.value);
  }

  /** Fills in pagination defaults and queries the table; the table is only read. */
  method GetListings(repo: ListingTable, userId: Option<Int64>, pageNum: Int64, pageSize: Int64, dbFails: Option<string>)
    returns (r: Result<seq<Listing>, string>)
    ensures dbFails.None? ==> r == Ok(Query(repo.rows, BuildFilter(userId, pageNum, pageSize)))
    ensures dbFails.Some? ==> r == Err(RetrieveFailed(QueryFailed(dbFails.value)))
  {
    var filter := BuildFilter(userId, pageNum, pageSize);
    var found := repo.FindAll(filter, dbFails);
    if found.Err? {
      return Err(RetrieveFailed(found.error));
    }
    r := Ok(found.value);
  }
}
