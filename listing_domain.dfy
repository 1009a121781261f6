/** The listing entity of the listing service and its validating constructor. */
module ListingDomain {
  import opened Wrappers
  import opened Strconv

  const Rent: string := "rent"
  const Sale: string := "sale"

  const ErrListingType: string := "listing_type must be either 'rent' or 'sale'"
  const ErrPrice: string := "price must be greater than 0"

  /** A listing row; `id` is 0 until storage assigns one, timestamps are Unix microseconds. */
  datatype Listing = Listing(
    id: Int64,
    userId: Int64,
    listingType: string,
    price: Int64,
    createdAt: Int64,
    updatedAt: Int64)

  /** The invariant every constructed listing satisfies. */
  predicate IsKnownType(t: string) {
    t == Rent || t == Sale
  }

  predicate WellFormed(l: Listing) {
    IsKnownType(l.listingType) && l.price > 0
  }

  /** Query options: an optional owner, a page number and a page size (Go `int`). */
  datatype ListingFilter = ListingFilter(userId: Option<Int64>, pageNum: Int64, pageSize: Int64)

  /** Only the exact, case-sensitive strings "rent" and "sale" are accepted. */
  function ValidateListingType(listingType: string): (err: Option<string>)
    ensures err.None? <==> listingType == Rent || listingType == Sale
    ensures err.Some? ==> err.value == ErrListingType
  {
    if listingType != Rent && listingType != Sale then Some(ErrListingType) else None
  }

  /** Zero and negative prices are rejected. */
  function ValidatePrice(price: int): (err: Option<string>)
    ensures err.None? <==> price > 0
    ensures err.Some? ==> err.value == ErrPrice
  {
    if price <= 0 then Some(ErrPrice) else None
  }

  /**
   * Validates the type, then the price, and builds a listing stamped with the
   * clock reading `now`; the first failing check is the error.
   */
  function NewListing(userId: Int64, listingType: string, price: Int64, now: Int64): (r: Result<Listing, string>)
    ensures r.Ok? <==> IsKnownType(listingType) && price > 0
    ensures !IsKnownType(listingType) ==> r == Err(ErrListingType)
    ensures IsKnownType(listingType) && price <= 0 ==> r == Err(ErrPrice)
    ensures r.Ok? ==> WellFormed(r.value)
    ensures r.Ok? ==> r.value.userId == userId && r.value.listingType == listingType && r.value.price == price
    ensures r.Ok? ==> r.value.id == 0 && r.value.createdAt == now && r.value.updatedAt == now
  {
    match ValidateListingType(listingType)
    case Some(e) => Err(e)
    case None =>
      match ValidatePrice(price)
      case Some(e) => Err(e)
      case None => Ok(Listing(0, userId, listingType, price, now, now))
  }

  /** A listing with a bad type and a bad price reports the type: the type is checked first. */
  lemma TypeCheckedBeforePrice(userId: Int64, listingType: string, price: Int64, now: Int64)
    requires !IsKnownType(listingType) && price <= 0
    ensures NewListing(userId, listingType, price, now) == Err(ErrListingType)
    ensures ValidatePrice(price) == Some(ErrPrice)
  {
  }
}
