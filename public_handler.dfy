/**
 * The public API's handlers: `GET /public-api/listings`, which joins each
 * listing with its owner, and the pass-through `POST /public-api/users` and
 * `POST /public-api/listings`.
 */
module PublicHandler {
  import opened Wrappers
  import opened Strconv
  import opened Http
  import opened PublicModel
  import opened ServiceClient
  import ListingClient
  import UserClient

  const MsgInvalidPageNum: string := "invalid page_num"
  const MsgInvalidPageSize: string := "invalid page_size"
  const MsgInvalidUserId: string := "invalid user_id"

  /** Why a public request failed; the message of the reply is made from it. */
  datatype PublicError =
    | InvalidParam(message: string)
    | InvalidRequestBody
    | ListingsUnavailable(cause: ClientError)
    | UserDataUnavailable(cause: ClientError)
    | CreateRejected(cause: ClientError)

  /** What a public request ends in. */
  datatype PublicReply =
    | ListingsPage(listings: seq<EnrichedListing>)
    | UserCreated(user: User)
    | ListingCreated(listing: Listing)
    | Failure(status: int, error: PublicError)

  function StatusOf(reply: PublicReply): int {
    if reply.Failure? then reply.status else StatusOK
  }

  /** Reads one optional integer parameter; any integer is accepted, absent means the default. */
  function IntParam(query: Values, name: string, default: Option<Int64>, message: string)
    : (r: Result<Option<Int64>, PublicReply>)
    ensures Get(query, name) == "" ==> r == Ok(default)
    ensures Get(query, name) != "" ==> (r.Ok? <==> ParseInt(Get(query, name)).Some?)
    ensures Get(query, name) != "" && r.Ok? ==> r.value == ParseInt(Get(query, name))
    ensures r.Err? ==> r.error == Failure(StatusBadRequest, InvalidParam(message))
  {
    var text := Get(query, name);
    if text == "" then Ok(default)
    else match ParseInt(text)
      case None => Err(Failure(StatusBadRequest, InvalidParam(message)))
      case Some(n) => Ok(Some(n))
  }

  datatype ListParams = ListParams(pageNum: Int64, pageSize: Int64, userId: Option<Int64>)

  /**
   * The query of `GET /public-api/listings`, read in the order page_num,
   * page_size, user_id: absent pages are 1 and 10, a non-integer answers 400,
   * and there is no positivity check.
   */
  function ParseParams(query: Values): (r: Result<ListParams, PublicReply>)
    ensures IntParam(query, "page_num", Some(1), MsgInvalidPageNum).Err? ==>
              r == Err(Failure(StatusBadRequest, InvalidParam(MsgInvalidPageNum)))
    ensures IntParam(query, "page_num", Some(1), MsgInvalidPageNum).Ok?
            && IntParam(query, "page_size", Some(10), MsgInvalidPageSize).Err? ==>
              r == Err(Failure(StatusBadRequest, InvalidParam(MsgInvalidPageSize)))
    ensures IntParam(query, "page_num", Some(1), MsgInvalidPageNum).Ok?
            && IntParam(query, "page_size", Some(10), MsgInvalidPageSize).Ok?
            && IntParam(query, "user_id", None, MsgInvalidUserId).Err? ==>
              r == Err(Failure(StatusBadRequest, InvalidParam(MsgInvalidUserId)))
    ensures r.Err? ==> r.error.Failure? && r.error.status == StatusBadRequest
    ensures r.Ok? <==> IntParam(query, "page_num", Some(1), MsgInvalidPageNum).Ok?
                       && IntParam(query, "page_size", Some(10), MsgInvalidPageSize).Ok?
                       && IntParam(query, "user_id", None, MsgInvalidUserId).Ok?
    ensures r.Ok? ==> IntParam(query, "page_num", Some(1), MsgInvalidPageNum) == Ok(Some(r.value.pageNum))
                      && IntParam(query, "page_size", Some(10), MsgInvalidPageSize) == Ok(Some(r.value.pageSize))
                      && IntParam(query, "user_id", None, MsgInvalidUserId) == Ok(r.value.userId)
  {
    match IntParam(query, "page_num", Some(1), MsgInvalidPageNum)
    case Err(e) => Err(e)
    case Ok(pageNum) =>
      match IntParam(query, "page_size", Some(10), MsgInvalidPageSize)
      case Err(e) => Err(e)
      case Ok(pageSize) =>
        match IntParam(query, "user_id", None, MsgInvalidUserId)
        case Err(e) => Err(e)
        case Ok(userId) => Ok(ListParams(pageNum.value, pageSize.value, userId))
  }

  /** The output entry for a listing: its own fields with the owner's record in place of its owner id. */
  function Embed(l: Listing, u: User): EnrichedListing {
    EnrichedListing(l.id, l.listingType, l.price, l.createdAt, l.updatedAt, u)
  }

  /** A user-service client bound to its transport: owner id to owner record or client error. */
  type Directory = Int64 -> Result<User, ClientError>

  /** The user client's `GetUser` over a given transport. */
  function UserDirectory(userService: string -> Response): (d: Directory)
    ensures forall id :: d(id) == UserClient.GetUser(id, userService)
  {
    (id: Int64) => UserClient.GetUser(id, userService)
  }

  /** The owner lookup of one listing. */
  function Lookup(l: Listing, users: Directory): Result<User, ClientError> {
    users(l.userId)
  }

  /**
   * The join, stated over the whole page: every listing's owner looked up in
   * turn, the first failed lookup ending everything.
   */
  function EnrichAll(listings: seq<Listing>, users: Directory): Result<seq<EnrichedListing>, ClientError> {
    if listings == [] then Ok([])
    else match Lookup(listings[0], users)
      case Err(e) => Err(e)
      case Ok(u) =>
        match EnrichAll(listings[1..], users)
        case Err(e) => Err(e)
        case Ok(rest) => Ok([Embed(listings[0], u)] + rest)
  }

  /**
   * On success the output has one entry per listing, in the same order, each
   * copying the listing's fields and holding the looked-up owner.
   */
  lemma {:induction false} EnrichedPageShape(listings: seq<Listing>, users: Directory)
    requires EnrichAll(listings, users).Ok?
    ensures |EnrichAll(listings, users).value| == |listings|
    ensures forall i :: 0 <= i < |listings| ==>
              Lookup(listings[i], users).Ok?
              && EnrichAll(listings, users).value[i] == Embed(listings[i], Lookup(listings[i], users).value)
  {
    if listings != [] {
      EnrichedPageShape(listings[1..], users);
      forall i | 0 < i < |listings| ensures listings[1..][i - 1] == listings[i] {
      }
    }
  }

  /**
   * Fail-fast: the join fails exactly when some lookup fails, and then with the
   * error of the first failing lookup; there is no partial output.
   */
  lemma {:induction false} EnrichFailsOnFirstFailure(listings: seq<Listing>, users: Directory)
    ensures EnrichAll(listings, users).Err? <==>
              exists i :: 0 <= i < |listings| && Lookup(listings[i], users).Err?
    ensures EnrichAll(listings, users).Err? ==>
              exists i :: 0 <= i < |listings| && Lookup(listings[i], users) == Err(EnrichAll(listings, users).error)
                          && forall j :: 0 <= j < i ==> Lookup(listings[j], users).Ok?
  {
    if listings != [] {
      EnrichFailsOnFirstFailure(listings[1..], users);
      if Lookup(listings[0], users).Ok? && EnrichAll(listings[1..], users).Err? {
        var k :| 0 <= k < |listings[1..]| && Lookup(listings[1..][k], users) == Err(EnrichAll(listings[1..], users).error)
                 && forall j :: 0 <= j < k ==> Lookup(listings[1..][j], users).Ok?;
        assert Lookup(listings[k + 1], users) == Err(EnrichAll(listings, users).error);
        forall j | 0 <= j < k + 1 ensures Lookup(listings[j], users).Ok? {
          if j > 0 {
            assert listings[j] == listings[1..][j - 1];
          }
        }
      }
      if exists i :: 0 <= i < |listings| && Lookup(listings[i], users).Err? {
        var i :| 0 <= i < |listings| && Lookup(listings[i], users).Err?;
        if i > 0 && Lookup(listings[0], users).Ok? {
          assert Lookup(listings[1..][i - 1], users).Err?;
        }
      }
    }
  }

  /**
   * The enrichment loop: one owner lookup per listing, in listing order,
   * stopping at the first failure. `calls` is the sequence of owner ids
   * requested from the user service.
   */
  method Enrich(listings: seq<Listing>, users: Directory)
    returns (r: Result<seq<EnrichedListing>, ClientError>, calls: seq<Int64>)
    ensures r == EnrichAll(listings, users)
    ensures |calls| <= |listings|
    ensures forall i :: 0 <= i < |calls| ==> calls[i] == listings[i].userId
    ensures forall i :: 0 <= i < |calls| - 1 ==> Lookup(listings[i], users).Ok?
    ensures r.Ok? ==> |calls| == |listings|
    ensures r.Err? ==> |calls| >= 1 && Lookup(listings[|calls| - 1], users) == Err(r.error)
  {
    var enriched: seq<EnrichedListing> := [];
    calls := [];
    var i := 0;
    assert listings[i..] == listings;
    assert EnrichAll(listings, users).Ok? ==>
             [] + EnrichAll(listings, users).value == EnrichAll(listings, users).value;
    while i < |listings|
      invariant 0 <= i <= |listings| && |calls| == i
      invariant forall k :: 0 <= k < i ==> calls[k] == listings[k].userId
      invariant forall k :: 0 <= k < i ==> Lookup(listings[k], users).Ok?
      invariant EnrichAll(listings[i..], users).Err? ==>
                  EnrichAll(listings, users) == EnrichAll(listings[i..], users)
      invariant EnrichAll(listings[i..], users).Ok? ==>
                  EnrichAll(listings, users) == Ok(enriched + EnrichAll(listings[i..], users).value)
    {
      var user := users(listings[i].userId);
      calls := calls + [listings[i].userId];
      var tail := listings[i..];
      assert tail[0] == listings[i] && tail[1..] == listings[i + 1..];
      if user.Err? {
        assert EnrichAll(tail, users) == Err(user.error);
        return Err(user.error), calls;
      }
      var entry := Embed(listings[i], user.value);
      match EnrichAll(listings[i + 1..], users) {
        case Err(e) =>
          assert EnrichAll(tail, users) == Err(e);
        case Ok(rest) =>
          assert EnrichAll(tail, users) == Ok([entry] + rest);
          assert enriched + ([entry] + rest) == (enriched + [entry]) + rest;
      }
      enriched := enriched + [entry];
      i := i + 1;
    }
    assert listings[i..] == [];
    assert enriched + [] == enriched;
    r := Ok(enriched);
  }

  /**
   * `GET /public-api/listings`: parameters, one listing-service call, then the
   * enrichment. A listing-client error and a failed lookup both answer 500 and
   * no listing is returned.
   */
  method GetListings(query: Values, listingService: Values -> Response, userService: string -> Response)
    returns (reply: PublicReply, calls: seq<Int64>)
    ensures ParseParams(query).Err? ==> reply == ParseParams(query).error && calls == []
    ensures ParseParams(query).Ok? ==>
              var p := ParseParams(query).value;
              match ListingClient.GetListings(p.pageNum, p.pageSize, p.userId, listingService)
              case Err(e) => reply == Failure(StatusInternalServerError, ListingsUnavailable(e)) && calls == []
              case Ok(listings) =>
                (match EnrichAll(listings, UserDirectory(userService))
                 case Ok(page) => reply == ListingsPage(page)
                 case Err(e) => reply == Failure(StatusInternalServerError, UserDataUnavailable(e)))
                && |calls| <= |listings|
                && (forall i :: 0 <= i < |calls| ==> calls[i] == listings[i].userId)
                && (reply.ListingsPage? ==> |calls| == |listings|)
  {
    var parsed := ParseParams(query);
    if parsed.Err? {
      return parsed.error, [];
    }
    var p := parsed.value;
    var listings := ListingClient.GetListings(p.pageNum, p.pageSize, p.userId, listingService);
    if listings.Err? {
      return Failure(StatusInternalServerError, ListingsUnavailable(listings.error)), [];
    }
    var enriched;
    enriched, calls := Enrich(listings.value, UserDirectory(userService));
    if enriched.Err? {
      return Failure(StatusInternalServerError, UserDataUnavailable(enriched.error)), calls;
    }
    reply := ListingsPage(enriched.value);
  }

  /**
   * `POST /public-api/users`: the name is forwarded unchecked; an undecodable
   * body and every client error answer 400.
   */
  function CreateUser(body: Option<CreateUserRequest>, userService: Values -> Response): (reply: PublicReply)
    ensures body.None? ==> reply == Failure(StatusBadRequest, InvalidRequestBody)
    ensures body.Some? ==>
              match UserClient.CreateUser(body.value.name, userService)
              case Ok(u) => reply == UserCreated(u)
              case Err(e) => reply == Failure(StatusBadRequest, CreateRejected(e))
    ensures reply.Failure? ==> reply.status == StatusBadRequest
  {
    match body
    case None => Failure(StatusBadRequest, InvalidRequestBody)
    case Some(req) =>
      match UserClient.CreateUser(req.name, userService)
      case Err(e) => Failure(StatusBadRequest, CreateRejected(e))
      case Ok(u) => UserCreated(u)
  }

  /**
   * `POST /public-api/listings`: the fields are forwarded unchecked; an
   * undecodable body and every client error answer 400.
   */
  function CreateListing(body: Option<CreateListingRequest>, listingService: Values -> Response): (reply: PublicReply)
    ensures body.None? ==> reply == Failure(StatusBadRequest, InvalidRequestBody)
    ensures body.Some? ==>
              match ListingClient.CreateListing(body.value.userId, body.value.listingType, body.value.price, listingService)
              case Ok(l) => reply == ListingCreated(l)
              case Err(e) => reply == Failure(StatusBadRequest, CreateRejected(e))
    ensures reply.Failure? ==> reply.status == StatusBadRequest
  {
    match body
    case None => Failure(StatusBadRequest, InvalidRequestBody)
    case Some(req) =>
      match ListingClient.CreateListing(req.userId, req.listingType, req.price, listingService)
      case Err(e) => Failure(StatusBadRequest, CreateRejected(e))
      case Ok(l) => ListingCreated(l)
  }
}
