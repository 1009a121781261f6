/**
 * Properties of the three services together: what the public API reads back
 * from the replies the listing and user services write, and what it forwards
 * to them.
 */
module EndToEnd {
  import opened Wrappers
  import opened Strconv
  import opened Json
  import opened Http
  import opened ServiceClient
  import LD = ListingDomain
  import UD = UserDomain
  import LH = ListingHandler
  import UH = UserHandler
  import PM = PublicModel
  import ListingClient
  import UserClient
  import PublicHandler

  /** A stored listing as the public API's model of it. */
  function Publish(l: LD.Listing): PM.Listing {
    PM.Listing(l.id, l.userId, l.listingType, l.price, l.createdAt, l.updatedAt)
  }

  function PublishAll(ls: seq<LD.Listing>): (r: seq<PM.Listing>)
    ensures |r| == |ls|
    ensures forall i :: 0 <= i < |ls| ==> r[i] == Publish(ls[i])
  {
    seq(|ls|, i requires 0 <= i < |ls| => Publish(ls[i]))
  }

  /** A stored user as the public API's model of it. */
  function PublishUser(u: UD.User): PM.User {
    PM.User(u.id, u.name, u.createdAt, u.updatedAt)
  }

  /** The listing service's encoding of a listing decodes back to the same listing. */
  lemma ListingRoundTrip(l: LD.Listing)
    ensures PM.DecodeListing(LH.ListingJson(l)) == Some(Publish(l))
  {
  }

  /** The encoding of a page of listings decodes back to the same page, in order. */
  lemma {:induction false} ListingsRoundTrip(ls: seq<LD.Listing>)
    ensures PM.DecodeEach(LH.ListingsJson(ls)) == Some(PublishAll(ls))
  {
    if ls != [] {
      ListingsRoundTrip(ls[1..]);
      ListingRoundTrip(ls[0]);
      assert LH.ListingsJson(ls)[0] == LH.ListingJson(ls[0]);
      assert LH.ListingsJson(ls)[1..] == LH.ListingsJson(ls[1..]);
      assert [Publish(ls[0])] + PublishAll(ls[1..]) == PublishAll(ls);
    }
  }

  /** The user service's encoding of a user decodes back to the same user. */
  lemma UserRoundTrip(u: UD.User)
    ensures PM.DecodeUser(UH.UserJson(u)) == Some(PublishUser(u))
  {
  }

  /**
   * As written, the listing service puts the created listing itself in `data`,
   * so the public client never finds the key "listing".
   */
  lemma CreatedListingAsWritten(l: LD.Listing)
    ensures ListingClient.ReadCreatedListing(Transmit(LH.RenderAsWritten(LH.Created(l)))) == Err(MissingPayload("listing"))
  {
    SuccessReplyOpens(LH.ListingJson(l).fields);
  }

  /**
   * Hence, whatever the listing service answers to a create, the public
   * `POST /public-api/listings` fails with 400.
   */
  lemma PublicCreateListingAsWritten(req: PM.CreateListingRequest, o: LH.Outcome, post: Values -> Response)
    requires !o.Listed?
    requires post(ListingClient.CreateForm(req.userId, req.listingType, req.price)) == Transmit(LH.RenderAsWritten(o))
    ensures PublicHandler.CreateListing(Some(req), post).Failure?
    ensures o.Created? ==>
              PublicHandler.CreateListing(Some(req), post)
              == PublicHandler.Failure(StatusBadRequest, PublicHandler.CreateRejected(MissingPayload("listing")))
  {
    match o
    case Created(l) => CreatedListingAsWritten(l);
    case Failed(status, message) =>
      if status == StatusOK {
        var body := WriteError(status, message).body;
        assert Field(body.fields, "result") == JBool(false);
        assert Field(body.fields, "data") == JNull;
        assert Field(body.fields, "errors") == JArr([JStr(message)]);
        assert Open(Transmit(LH.RenderAsWritten(o))).Err?;
      } else {
        ErrorReplyIsBadStatus(status, message);
      }
  }

  /**
   * As written, a non-empty page is the `data` member itself, an array, which
   * does not decode into the envelope's map; an empty page is null and reads
   * as no listings.
   */
  lemma ListedAsWritten(ls: seq<LD.Listing>)
    ensures ls != [] ==> ListingClient.ReadListings(Transmit(LH.RenderAsWritten(LH.Listed(ls)))) == Err(UndecodableResponse)
    ensures ls == [] ==> ListingClient.ReadListings(Transmit(LH.RenderAsWritten(LH.Listed(ls)))) == Ok([])
  {
    var body := LH.RenderAsWritten(LH.Listed(ls)).body;
    if ls == [] {
      assert Field(body.fields, "errors") == JNull;
      assert Field(body.fields, "result") == JBool(true);
      assert Field(body.fields, "data") == JNull;
    } else {
      assert "data" in body.fields && body.fields["data"].JArr?;
    }
  }

  /** With the payload under its key, the created listing reaches the public client intact. */
  lemma CreatedListingCorrected(l: LD.Listing)
    ensures ListingClient.ReadCreatedListing(Transmit(LH.Render(LH.Created(l)))) == Ok(Publish(l))
  {
    SuccessReplyOpens(map["listing" := LH.ListingJson(l)]);
    ListingRoundTrip(l);
  }

  /** With the payload under its key, every page reaches the public client intact and in order. */
  lemma ListedCorrected(ls: seq<LD.Listing>)
    ensures ListingClient.ReadListings(Transmit(LH.Render(LH.Listed(ls)))) == Ok(PublishAll(ls))
  {
    SuccessReplyOpens(map["listings" := JArr(LH.ListingsJson(ls))]);
    ListingsRoundTrip(ls);
  }

  /** An error reply of the listing service reaches the public client as a status error. */
  lemma ListingFailureIsBadStatus(status: int, message: string)
    requires status != StatusOK
    ensures ListingClient.ReadListings(Transmit(LH.Render(LH.Failed(status, message)))) == Err(BadStatus(status))
    ensures ListingClient.ReadCreatedListing(Transmit(LH.Render(LH.Failed(status, message)))) == Err(BadStatus(status))
  {
    ErrorReplyIsBadStatus(status, message);
  }

  /** A user found or created by the user service reaches the public client intact. */
  lemma UserReplyReadBack(u: UD.User)
    ensures UserClient.ReadUser(Transmit(UH.Render(UH.UserFound(u)))) == Ok(PublishUser(u))
    ensures UserClient.ReadUser(Transmit(UH.Render(UH.UserCreated(u)))) == Ok(PublishUser(u))
  {
    SuccessReplyOpens(map["user" := UH.UserJson(u)]);
    UserRoundTrip(u);
  }

  /** A failed user request, such as an unknown id (404), reaches the public client as a status error. */
  lemma UserFailureIsBadStatus(status: int, message: string)
    requires status != StatusOK
    ensures UserClient.ReadUser(Transmit(UH.Render(UH.Failed(status, message)))) == Err(BadStatus(status))
  {
    ErrorReplyIsBadStatus(status, message);
  }

  /**
   * The query the public API forwards is accepted by the listing service
   * exactly as sent when both page values are positive.
   */
  lemma ForwardedQueryAccepted(pageNum: Int64, pageSize: Int64, userId: Option<Int64>)
    requires pageNum >= 1 && pageSize >= 1
    ensures LH.ParseList("GET", ListingClient.ListingsQuery(pageNum, pageSize, userId))
            == Ok(LH.ListArgs(userId, pageNum, pageSize))
  {
    var q := ListingClient.ListingsQuery(pageNum, pageSize, userId);
    assert userId.None? ==> "user_id" !in q;
    assert userId.Some? ==> FormatInt(userId.value) == Get(q, "user_id") && Get(q, "user_id") != "";
  }

  /**
   * The public API accepts any integer page number, but the listing service
   * rejects one below 1, so such a request comes back as a status error.
   */
  lemma ForwardedPageNumRejected(pageNum: Int64, pageSize: Int64, userId: Option<Int64>)
    requires pageNum < 1
    ensures PublicHandler.ParseParams(map["page_num" := FormatInt(pageNum)]).Ok?
    ensures LH.ParseList("GET", ListingClient.ListingsQuery(pageNum, pageSize, userId))
            == Err(LH.Failed(StatusBadRequest, LH.MsgPageNum))
    ensures ListingClient.ReadListings(Transmit(LH.RenderAsWritten(LH.Failed(StatusBadRequest, LH.MsgPageNum))))
            == Err(BadStatus(StatusBadRequest))
  {
    ParseFormat(pageNum);
    var q := ListingClient.ListingsQuery(pageNum, pageSize, userId);
    assert userId.None? ==> "user_id" !in q;
    assert userId.Some? ==> Get(q, "user_id") != "";
    ErrorReplyIsBadStatus(StatusBadRequest, LH.MsgPageNum);
  }

  /** A user service that answers each lookup with the stored owner gives that owner to the join. */
  lemma DirectoryReadsStoredUser(userService: string -> Response, u: UD.User)
    requires userService(FormatInt(u.id)) == Transmit(UH.Render(UH.UserFound(u)))
    ensures PublicHandler.UserDirectory(userService)(u.id) == Ok(PublishUser(u))
  {
    UserReplyReadBack(u);
  }

  /**
   * When every owner lookup returns the owner with the listing's user id, the
   * join succeeds and each entry keeps its listing's fields and holds its owner.
   */
  lemma OwnersEmbedded(ls: seq<PM.Listing>, users: PublicHandler.Directory)
    requires forall i :: 0 <= i < |ls| ==> users(ls[i].userId).Ok? && users(ls[i].userId).value.id == ls[i].userId
    ensures PublicHandler.EnrichAll(ls, users).Ok?
    ensures |PublicHandler.EnrichAll(ls, users).value| == |ls|
    ensures forall i :: 0 <= i < |ls| ==>
              var e := PublicHandler.EnrichAll(ls, users).value[i];
              e.id == ls[i].id && e.price == ls[i].price && e.listingType == ls[i].listingType
              && e.user.id == ls[i].userId
  {
    PublicHandler.EnrichFailsOnFirstFailure(ls, users);
    PublicHandler.EnrichedPageShape(ls, users);
  }
}
