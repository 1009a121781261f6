/**
 * The public API's client of the listing service: the query or form it sends
 * and how it reads the reply.
 */
module ListingClient {
  import opened Wrappers
  import opened Strconv
  import opened Json
  import opened Http
  import opened PublicModel
  import opened ServiceClient

  /** The query of `GET /listings`: page_num and page_size always, user_id only when given. */
  function ListingsQuery(pageNum: Int64, pageSize: Int64, userId: Option<Int64>): (q: Values)
    ensures q.Keys == {"page_num", "page_size"} + (if userId.Some? then {"user_id"} else {})
    ensures ParseInt(Get(q, "page_num")) == Some(pageNum)
    ensures ParseInt(Get(q, "page_size")) == Some(pageSize)
    ensures userId.Some? ==> ParseInt(Get(q, "user_id")) == Some(userId.value)
  {
    ParseFormat(pageNum);
    ParseFormat(pageSize);
    var base := map["page_num" := FormatInt(pageNum), "page_size" := FormatInt(pageSize)];
    match userId
    case None => base
    case Some(id) => ParseFormat(id); base["user_id" := FormatInt(id)]
  }

  /**
   * Reading the reply to `GET /listings`: after the common checks, a missing
   * "listings" key is an empty list, not an error; a payload that does not
   * decode into listings is an error.
   */
  function ReadListings(resp: Response): (r: Result<seq<Listing>, ClientError>)
    ensures Open(resp).Err? ==> r == Err(Open(resp).error)
    ensures Open(resp).Ok? && "listings" !in Open(resp).value ==> r == Ok([])
    ensures Open(resp).Ok? && "listings" in Open(resp).value ==>
              (r.Ok? <==> DecodeListings(Open(resp).value["listings"]).Some?)
    ensures Open(resp).Ok? && "listings" in Open(resp).value && r.Ok? ==>
              DecodeListings(Open(resp).value["listings"]) == Some(r.value)
    ensures r.Err? && Open(resp).Ok? ==> r.error == UndecodablePayload("listings")
  {
    match Open(resp)
    case Err(e) => Err(e)
    case Ok(data) =>
      if "listings" !in data then Ok([])
      else match DecodeListings(data["listings"])
        case None => Err(UndecodablePayload("listings"))
        case Some(listings) => Ok(listings)
  }

  /** `GetListings`: sends the query through `get`, the transport, and reads the reply. */
  function GetListings(pageNum: Int64, pageSize: Int64, userId: Option<Int64>, get: Values -> Response)
    : (r: Result<seq<Listing>, ClientError>)
    ensures get(ListingsQuery(pageNum, pageSize, userId)).TransportFailed? ==>
              r == Err(Transport(get(ListingsQuery(pageNum, pageSize, userId)).reason))
    ensures get(ListingsQuery(pageNum, pageSize, userId)).Received? && get(ListingsQuery(pageNum, pageSize, userId)).status != StatusOK ==>
              r == Err(BadStatus(get(ListingsQuery(pageNum, pageSize, userId)).status))
    ensures r.Ok? ==> Open(get(ListingsQuery(pageNum, pageSize, userId))).Ok?
    ensures r.Ok? && "listings" in Open(get(ListingsQuery(pageNum, pageSize, userId))).value ==>
              DecodeListings(Open(get(ListingsQuery(pageNum, pageSize, userId))).value["listings"]) == Some(r.value)
    ensures r.Ok? && "listings" !in Open(get(ListingsQuery(pageNum, pageSize, userId))).value ==> r.value == []
    ensures r == ReadListings(get(ListingsQuery(pageNum, pageSize, userId)))
  {
    ReadListings(get(ListingsQuery(pageNum, pageSize, userId)))
  }

  /** The form of `POST /listings`. */
  function CreateForm(userId: Int64, listingType: string, price: Int64): (f: Values)
    ensures f.Keys == {"user_id", "listing_type", "price"}
    ensures ParseInt(Get(f, "user_id")) == Some(userId)
    ensures Get(f, "listing_type") == listingType
    ensures ParseInt(Get(f, "price")) == Some(price)
  {
    ParseFormat(userId);
    ParseFormat(price);
    map["user_id" := FormatInt(userId), "listing_type" := listingType, "price" := FormatInt(price)]
  }

  /**
   * Reading the reply to `POST /listings`: after the common checks, a missing
   * "listing" key is the error "no listing in response"; a payload that does not
   * decode into a listing is an error.
   */
  function ReadCreatedListing(resp: Response): (r: Result<Listing, ClientError>)
    ensures Open(resp).Err? ==> r == Err(Open(resp).error)
    ensures Open(resp).Ok? && "listing" !in Open(resp).value ==> r == Err(MissingPayload("listing"))
    ensures Open(resp).Ok? && "listing" in Open(resp).value ==>
              (r.Ok? <==> DecodeListing(Open(resp).value["listing"]).Some?)
    ensures r.Ok? ==> DecodeListing(Open(resp).value["listing"]) == Some(r.value)
    ensures r.Err? && Open(resp).Ok? && "listing" in Open(resp).value ==> r.error == UndecodablePayload("listing")
  {
    match Open(resp)
    case Err(e) => Err(e)
    case Ok(data) =>
      if "listing" !in data then Err(MissingPayload("listing"))
      else match DecodeListing(data["listing"])
        case None => Err(UndecodablePayload("listing"))
        case Some(listing) => Ok(listing)
  }

  /** `CreateListing`: posts the form through `post`, the transport, and reads the reply. */
  function CreateListing(userId: Int64, listingType: string, price: Int64, post: Values -> Response)
    : (r: Result<Listing, ClientError>)
    ensures post(CreateForm(userId, listingType, price)).TransportFailed? ==>
              r == Err(Transport(post(CreateForm(userId, listingType, price)).reason))
    ensures post(CreateForm(userId, listingType, price)).Received? && post(CreateForm(userId, listingType, price)).status != StatusOK ==>
              r == Err(BadStatus(post(CreateForm(userId, listingType, price)).status))
    ensures r.Ok? ==> Open(post(CreateForm(userId, listingType, price))).Ok?
                      && "listing" in Open(post(CreateForm(userId, listingType, price))).value
                      && DecodeListing(Open(post(CreateForm(userId, listingType, price))).value["listing"]) == Some(r.value)
    ensures r.Ok? <==> Open(post(CreateForm(userId, listingType, price))).Ok?
                       && "listing" in Open(post(CreateForm(userId, listingType, price))).value
                       && DecodeListing(Open(post(CreateForm(userId, listingType, price))).value["listing"]).Some?
    ensures r == ReadCreatedListing(post(CreateForm(userId, listingType, price)))
  {
    ReadCreatedListing(post(CreateForm(userId, listingType, price)))
  }

  /** The two readers differ only on a missing key: an empty list versus an error. */
  lemma MissingKeyListVersusEntity(resp: Response)
    requires Open(resp).Ok? && "listings" !in Open(resp).value && "listing" !in Open(resp).value
    ensures ReadListings(resp) == Ok([])
    ensures ReadCreatedListing(resp) == Err(MissingPayload("listing"))
  {
  }
}
