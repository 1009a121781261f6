/**
 * The types the public API reads from the downstream services and writes to its
 * own callers, with the typed decoding (`json.Unmarshal`) of a JSON value into them.
 */
module PublicModel {
  import opened Wrappers
  import opened Strconv
  import opened Json

  datatype User = User(id: Int64, name: string, createdAt: Int64, updatedAt: Int64)

  datatype Listing = Listing(
    id: Int64,
    userId: Int64,
    listingType: string,
    price: Int64,
    createdAt: Int64,
    updatedAt: Int64)

  /** A listing whose owner id is replaced by the owner's full record. */
  datatype EnrichedListing = EnrichedListing(
    id: Int64,
    listingType: string,
    price: Int64,
    createdAt: Int64,
    updatedAt: Int64,
    user: User)

  datatype CreateUserRequest = CreateUserRequest(name: string)

  datatype CreateListingRequest = CreateListingRequest(userId: Int64, listingType: string, price: Int64)

  /**
   * `json.Unmarshal` into a `User`: `null` leaves the zero user, an object fills
   * the fields it names (others stay zero), anything else is an error.
   */
  function DecodeUser(j: Json): (r: Option<User>)
    ensures j.JNull? ==> r == Some(User(0, "", 0, 0))
    ensures !(j.JNull? || j.JObj?) ==> r == None
  {
    match j
    case JNull => Some(User(0, "", 0, 0))
    case JObj(m) =>
      (match (AsInt64(Field(m, "id")), AsString(Field(m, "name")),
              AsInt64(Field(m, "created_at")), AsInt64(Field(m, "updated_at")))
       case (Some(id), Some(name), Some(createdAt), Some(updatedAt)) =>
         Some(User(id, name, createdAt, updatedAt))
       case _ => None)
    case _ => None
  }

  /** `json.Unmarshal` into a `Listing`, by the same rules as for a user. */
  function DecodeListing(j: Json): (r: Option<Listing>)
    ensures j.JNull? ==> r == Some(Listing(0, 0, "", 0, 0, 0))
    ensures !(j.JNull? || j.JObj?) ==> r == None
  {
    match j
    case JNull => Some(Listing(0, 0, "", 0, 0, 0))
    case JObj(m) =>
      (match (AsInt64(Field(m, "id")), AsInt64(Field(m, "user_id")), AsString(Field(m, "listing_type")),
              AsInt64(Field(m, "price")), AsInt64(Field(m, "created_at")), AsInt64(Field(m, "updated_at")))
       case (Some(id), Some(userId), Some(listingType), Some(price), Some(createdAt), Some(updatedAt)) =>
         Some(Listing(id, userId, listingType, price, createdAt, updatedAt))
       case _ => None)
    case _ => None
  }

  function DecodeEach(items: seq<Json>): (r: Option<seq<Listing>>)
    ensures r.Some? ==> |r.value| == |items|
    ensures r.Some? <==> forall i :: 0 <= i < |items| ==> DecodeListing(items[i]).Some?
    ensures r.Some? ==> forall i :: 0 <= i < |items| ==> DecodeListing(items[i]) == Some(r.value[i])
  {
    if items == [] then Some([])
    else match (DecodeListing(items[0]), DecodeEach(items[1..]))
      case (Some(l), Some(rest)) => Some([l] + rest)
      case _ => None
  }

  /** `json.Unmarshal` into a `[]Listing`: `null` is the empty slice, an array decodes element by element. */
  function DecodeListings(j: Json): (r: Option<seq<Listing>>)
    ensures j.JNull? ==> r == Some([])
    ensures !(j.JNull? || j.JArr?) ==> r == None
  {
    match j
    case JNull => Some([])
    case JArr(items) => DecodeEach(items)
    case _ => None
  }
}
