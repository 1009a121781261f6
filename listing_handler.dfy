/**
 * HTTP handlers of the listing service: `POST /listings` and `GET /listings`.
 * Each request ends in one outcome, which `RenderAsWritten` turns into the
 * reply the service writes.
 */
module ListingHandler {
  import opened Wrappers
  import opened Strconv
  import opened Json
  import opened Http
  import opened ListingDomain
  import opened ListingRepository
  import ListingUseCase

  const MsgMethodNotAllowed: string := "method not allowed"
  const MsgInvalidForm: string := "invalid form data"
  const MsgUserIdRequired: string := "user_id is required"
  const MsgUserIdNotInteger: string := "user_id must be a valid integer"
  const MsgListingTypeRequired: string := "listing_type is required"
  const MsgPriceRequired: string := "price is required"
  const MsgPriceNotInteger: string := "price must be a valid integer"
  const MsgPageNum: string := "page_num must be a positive integer"
  const MsgPageSize: string := "page_size must be a positive integer"

  /** What a request to the listing service ends in. */
  datatype Outcome =
    | Created(listing: Listing)
    | Listed(listings: seq<Listing>)
    | Failed(status: int, message: string)

  datatype CreateArgs = CreateArgs(userId: Int64, listingType: string, price: Int64)

  datatype ListArgs = ListArgs(userId: Option<Int64>, pageNum: Int64, pageSize: Int64)

  /**
   * The checks of `POST /listings` before the use case runs: the method, the
   * form, then user_id present, user_id an integer, listing_type present,
   * price present, price an integer; the first failing check answers.
   * `form` is None when the body cannot be parsed as a form.
   */
  function ParseCreate(httpMethod: string, form: Option<Values>): (r: Result<CreateArgs, Outcome>)
    ensures httpMethod != "POST" ==> r == Err(Failed(StatusMethodNotAllowed, MsgMethodNotAllowed))
    ensures httpMethod == "POST" && form.None? ==> r == Err(Failed(StatusBadRequest, MsgInvalidForm))
    ensures r.Err? ==> r.error.Failed? && (r.error.status == StatusBadRequest || r.error.status == StatusMethodNotAllowed)
    ensures r.Ok? <==> httpMethod == "POST" && form.Some?
                       && ParseInt(Get(form.value, "user_id")).Some?
                       && Get(form.value, "listing_type") != ""
                       && ParseInt(Get(form.value, "price")).Some?
    ensures r.Ok? ==> ParseInt(Get(form.value, "user_id")) == Some(r.value.userId)
                      && r.value.listingType == Get(form.value, "listing_type")
                      && ParseInt(Get(form.value, "price")) == Some(r.value.price)
  {
    if httpMethod != "POST" then Err(Failed(StatusMethodNotAllowed, MsgMethodNotAllowed))
    else if form.None? then Err(Failed(StatusBadRequest, MsgInvalidForm))
    else
      var f := form.value;
      if Get(f, "user_id") == "" then Err(Failed(StatusBadRequest, MsgUserIdRequired))
      else if ParseInt(Get(f, "user_id")).None? then Err(Failed(StatusBadRequest, MsgUserIdNotInteger))
      else if Get(f, "listing_type") == "" then Err(Failed(StatusBadRequest, MsgListingTypeRequired))
      else if Get(f, "price") == "" then Err(Failed(StatusBadRequest, MsgPriceRequired))
      else if ParseInt(Get(f, "price")).None? then Err(Failed(StatusBadRequest, MsgPriceNotInteger))
      else Ok(CreateArgs(ParseInt(Get(f, "user_id")).value, Get(f, "listing_type"), ParseInt(Get(f, "price")).value))
  }

  /** The form checks run in a fixed order and the first failure is the one reported. */
  lemma CreateChecksInOrder(f: Values)
    ensures Get(f, "user_id") == "" ==>
              ParseCreate("POST", Some(f)) == Err(Failed(StatusBadRequest, MsgUserIdRequired))
    ensures Get(f, "user_id") != "" && ParseInt(Get(f, "user_id")).None? ==>
              ParseCreate("POST", Some(f)) == Err(Failed(StatusBadRequest, MsgUserIdNotInteger))
    ensures ParseInt(Get(f, "user_id")).Some? && Get(f, "listing_type") == "" ==>
              ParseCreate("POST", Some(f)) == Err(Failed(StatusBadRequest, MsgListingTypeRequired))
    ensures ParseInt(Get(f, "user_id")).Some? && Get(f, "listing_type") != "" && Get(f, "price") == "" ==>
              ParseCreate("POST", Some(f)) == Err(Failed(StatusBadRequest, MsgPriceRequired))
    ensures ParseInt(Get(f, "user_id")).Some? && Get(f, "listing_type") != ""
            && Get(f, "price") != "" && ParseInt(Get(f, "price")).None? ==>
              ParseCreate("POST", Some(f)) == Err(Failed(StatusBadRequest, MsgPriceNotInteger))
  {
  }

  /**
   * `POST /listings`: the checks, then the use case; a use-case error of any
   * kind answers 400 with its message.
   */
  method CreateListing(repo: ListingTable, httpMethod: string, form: Option<Values>, now: Int64, dbFails: Option<string>)
    returns (o: Outcome)
    requires repo.Valid()
    modifies repo
    ensures repo.Valid()
    ensures ParseCreate(httpMethod, form).Err? ==>
              o == ParseCreate(httpMethod, form).error && repo.rows == old(repo.rows)
    ensures ParseCreate(httpMethod, form).Ok? && o.Failed? ==>
              o.status == StatusBadRequest && repo.rows == old(repo.rows)
    ensures ParseCreate(httpMethod, form).Ok? ==>
              var a := ParseCreate(httpMethod, form).value;
              (NewListing(a.userId, a.listingType, a.price, now).Err? ==>
                 o == Failed(StatusBadRequest, NewListing(a.userId, a.listingType, a.price, now).error))
              && (NewListing(a.userId, a.listingType, a.price, now).Ok? && dbFails.Some? ==>
                 o == Failed(StatusBadRequest, ListingUseCase.SaveFailed(CreateFailed(dbFails.value))))
              && (NewListing(a.userId, a.listingType, a.price, now).Ok? && dbFails.None? && old(repo.lastId) == MaxInt64 ==>
                 o == Failed(StatusBadRequest, ListingUseCase.SaveFailed(CreateFailed(DiskFull))))
              && (o.Created? <==> NewListing(a.userId, a.listingType, a.price, now).Ok?
                                  && dbFails.None? && old(repo.lastId) < MaxInt64)
              && (o.Created? ==> o.listing == Listing(old(repo.lastId) + 1, a.userId, a.listingType, a.price, now, now)
                                 && repo.rows == old(repo.rows) + [o.listing])
    ensures o.Created? ==> repo.lastId == o.listing.id
    ensures o.Failed? ==> repo.rows == old(repo.rows) && repo.lastId == old(repo.lastId)
    ensures o.Created? || o.Failed?
  {
    var parsed := ParseCreate(httpMethod, form);
    if parsed.Err? {
      return parsed.error;
    }
    var a := parsed.value;
    var created := ListingUseCase.CreateListing(repo, a.userId, a.listingType, a.price, now, dbFails);
    if created.Err? {
      return Failed(StatusBadRequest, created.error);
    }
    o := Created(created.value);
  }

  /** Reads one optional positive page parameter; absent means the default. */
  function PositiveParam(query: Values, name: string, default: Int64, message: string): (r: Result<Int64, Outcome>)
    requires default >= 1
    ensures r.Ok? ==> r.value >= 1
    ensures Get(query, name) == "" ==> r == Ok(default)
    ensures Get(query, name) != "" ==>
              (r.Ok? <==> ParseInt(Get(query, name)).Some? && ParseInt(Get(query, name)).value >= 1)
    ensures Get(query, name) != "" && r.Ok? ==> Some(r.value) == ParseInt(Get(query, name))
    ensures r.Err? ==> r.error == Failed(StatusBadRequest, message)
  {
    var text := Get(query, name);
    if text == "" then Ok(default)
    else match ParseInt(text)
      case None => Err(Failed(StatusBadRequest, message))
      case Some(n) => if n < 1 then Err(Failed(StatusBadRequest, message)) else Ok(n)
  }

  /**
   * The checks of `GET /listings`: the method, then user_id (optional, an
   * integer when present), then page_num and page_size (optional, positive
   * integers when present, 1 and 10 when absent).
   */
  function ParseList(httpMethod: string, query: Values): (r: Result<ListArgs, Outcome>)
    ensures httpMethod != "GET" ==> r == Err(Failed(StatusMethodNotAllowed, MsgMethodNotAllowed))
    ensures r.Err? ==> r.error.Failed? && (r.error.status == StatusBadRequest || r.error.status == StatusMethodNotAllowed)
    ensures httpMethod == "GET" && Get(query, "user_id") != "" && ParseInt(Get(query, "user_id")).None? ==>
              r == Err(Failed(StatusBadRequest, MsgUserIdNotInteger))
    ensures r.Ok? <==> httpMethod == "GET"
                       && (Get(query, "user_id") == "" || ParseInt(Get(query, "user_id")).Some?)
                       && PositiveParam(query, "page_num", 1, MsgPageNum).Ok?
                       && PositiveParam(query, "page_size", 10, MsgPageSize).Ok?
    ensures r.Ok? ==> r.value.pageNum >= 1 && r.value.pageSize >= 1
    ensures r.Ok? ==> (Get(query, "user_id") == "" ==> r.value.userId == None)
                      && (Get(query, "user_id") != "" ==> r.value.userId == ParseInt(Get(query, "user_id")))
    ensures r.Ok? ==> PositiveParam(query, "page_num", 1, MsgPageNum) == Ok(r.value.pageNum)
                      && PositiveParam(query, "page_size", 10, MsgPageSize) == Ok(r.value.pageSize)
    ensures httpMethod == "GET" && (Get(query, "user_id") == "" || ParseInt(Get(query, "user_id")).Some?) ==>
              (PositiveParam(query, "page_num", 1, MsgPageNum).Err? ==> r == Err(Failed(StatusBadRequest, MsgPageNum)))
              && ((PositiveParam(query, "page_num", 1, MsgPageNum).Ok? && PositiveParam(query, "page_size", 10, MsgPageSize).Err?)
                  ==> r == Err(Failed(StatusBadRequest, MsgPageSize)))
  {
    if httpMethod != "GET" then Err(Failed(StatusMethodNotAllowed, MsgMethodNotAllowed))
    else
      var userText := Get(query, "user_id");
      var userId := if userText == "" then Some(None) else
                      match ParseInt(userText)
                      case None => None
                      case Some(n) => Some(Some(n));
      if userId.None? then Err(Failed(StatusBadRequest, MsgUserIdNotInteger))
      else match PositiveParam(query, "page_num", 1, MsgPageNum)
        case Err(e) => Err(e)
        case Ok(pageNum) =>
          match PositiveParam(query, "page_size", 10, MsgPageSize)
          case Err(e) => Err(e)
          case Ok(pageSize) => Ok(ListArgs(userId.value, pageNum, pageSize))
  }

  /** A `GET /listings` with no parameters lists every owner's listings, page 1 of size 10. */
  lemma BareListRequest()
    ensures ParseList("GET", map[]) == Ok(ListArgs(None, 1, 10))
  {
  }

  /**
   * `GET /listings`: the checks, then the use case; a use-case error answers 500.
   * The page number and size that reach the use case are at least 1, so its
   * defaults never apply and the table is queried with them as given.
   */
  method GetListings(repo: ListingTable, httpMethod: string, query: Values, dbFails: Option<string>)
    returns (o: Outcome)
    ensures ParseList(httpMethod, query).Err? ==> o == ParseList(httpMethod, query).error
    ensures ParseList(httpMethod, query).Ok? && dbFails.None? ==>
              var a := ParseList(httpMethod, query).value;
              o == Listed(Query(repo.rows, ListingFilter(a.userId, a.pageNum, a.pageSize)))
    ensures ParseList(httpMethod, query).Ok? && dbFails.Some? ==>
              o == Failed(StatusInternalServerError, ListingUseCase.RetrieveFailed(QueryFailed(dbFails.value)))
  {
    var parsed := ParseList(httpMethod, query);
    if parsed.Err? {
      return parsed.error;
    }
    var a := parsed.value;
    var found := ListingUseCase.GetListings(repo, a.userId, a.pageNum, a.pageSize, dbFails);
    if found.Err? {
      return Failed(StatusInternalServerError, found.error);
    }
    o := Listed(found.value);
  }

  /** The JSON encoding of a listing, under its struct tags. */
  function ListingJson(l: Listing): Json {
    JObj(map[
      "id" := JNum(l.id),
      "user_id" := JNum(l.userId),
      "listing_type" := JStr(l.listingType),
      "price" := JNum(l.price),
      "created_at" := JNum(l.createdAt),
      "updated_at" := JNum(l.updatedAt)])
  }

  /** The JSON array of a slice of listings, element by element and in order. */
  function ListingsJson(ls: seq<Listing>): (items: seq<Json>)
    ensures |items| == |ls|
    ensures forall i :: 0 <= i < |ls| ==> items[i] == ListingJson(ls[i])
  {
    if ls == [] then [] else [ListingJson(ls[0])] + ListingsJson(ls[1..])
  }

  /**
   * The reply as the service writes it: the listing, or the slice of listings,
   * is the `data` member itself; a slice with no rows is nil and encodes as null.
   */
  function RenderAsWritten(o: Outcome): (r: Reply)
    ensures r.status == (if o.Failed? then o.status else StatusOK)
    ensures r.body.JObj? && "result" in r.body.fields && r.body.fields["result"] == JBool(!o.Failed?)
    ensures o.Failed? ==> "data" !in r.body.fields
    ensures !o.Failed? ==> "data" in r.body.fields
    ensures o.Created? ==> r.body.fields["data"] == ListingJson(o.listing) && "listing" !in r.body.fields["data"].fields
    ensures o.Listed? && o.listings != [] ==> r.body.fields["data"] == JArr(ListingsJson(o.listings))
    ensures o.Listed? ==> (r.body.fields["data"].JNull? <==> o.listings == [])
                          && (o.listings != [] ==> r.body.fields["data"].JArr?)
  {
    match o
    case Created(l) => WriteSuccess(ListingJson(l))
    case Listed(ls) => WriteSuccess(if ls == [] then JNull else JArr(ListingsJson(ls)))
    case Failed(status, message) => WriteError(status, message)
  }

  /**
   * The reply with the payload under the key its consumers read, as the user
   * service does it: `{"listing": ...}` and `{"listings": [...]}`.
   */
  function Render(o: Outcome): (r: Reply)
    ensures r.status == (if o.Failed? then o.status else StatusOK)
    ensures r.body.JObj? && "result" in r.body.fields && r.body.fields["result"] == JBool(!o.Failed?)
    ensures o.Failed? ==> "data" !in r.body.fields
    ensures !o.Failed? ==> "data" in r.body.fields && r.body.fields["data"].JObj?
    ensures o.Created? ==> r.body.fields["data"].fields.Keys == {"listing"}
    ensures o.Listed? ==> r.body.fields["data"].fields.Keys == {"listings"}
                          && r.body.fields["data"].fields["listings"].JArr?
                          && |r.body.fields["data"].fields["listings"].items| == |o.listings|
  {
    match o
    case Created(l) => WriteSuccess(JObj(map["listing" := ListingJson(l)]))
    case Listed(ls) => WriteSuccess(JObj(map["listings" := JArr(ListingsJson(ls))]))
    case Failed(status, message) => WriteError(status, message)
  }
}
