# Listings, users and the public API — a Dafny model

The system is three small HTTP services:

- **The listing service** stores property listings in SQLite. A listing has an owner id, a type (`rent` or `sale`), a price and timestamps. The service answers `POST /listings` and `GET /listings`.
- **The user service** stores users in SQLite. A user has a name and timestamps. The service answers `POST /users`, `GET /users/{id}` and `GET /users`.
- **The public API** stands in front of both services. `GET /public-api/listings` fetches one page of listings and replaces each listing's owner id with the owner's full record, fetched from the user service one listing at a time. `POST /public-api/users` and `POST /public-api/listings` forward to the two services.

The listing and user services wrap every reply in the same JSON envelope: `{"result": true, "data": ...}` or `{"result": false, "errors": [...]}`. The public API's clients unwrap that envelope. They check, in this order, the transport, the status code, the envelope decoding and the `result` flag. Then they look up a key in `data` (`"listing"`, `"listings"` or `"user"`), and finally they decode that key's value into a typed record.

The model has one module per source file of the core, plus shared modules:

- `Wrappers`: `Option` and `Result`.
- `Strconv`: `strconv.ParseInt` and `FormatInt` in base 10, on 64-bit integers.
- `Json`: JSON values and the `encoding/json` rules for filling a typed field.
- `Paging`: SQLite's `LIMIT ? OFFSET ?`, and the offset as Go computes it.
- `Http`: status codes, `url.Values`, and the two envelope writers.
- `PublicModel`: the public API's record types and their decoders.
- `ServiceClient`: the checks the public clients share.
- `EndToEnd`: properties of the services taken together.

Each SQLite table is a class. It has the rows in insertion order and the `AUTOINCREMENT` counter; its methods update both in place. The handlers and use cases that use a table are module-level methods that take the table as a parameter; those that write to it declare it in their `modifies` clause. A database driver failure is a parameter of each call (`dbFails`), and so is the clock (`now`). The HTTP transport between the services is a function parameter: it maps a request to a response.

## Model

| member | source | states |
|---|---|---|
| ListingDomain.ValidateListingType | go-listing-service/internal/domain/listing.go:46-51 | the type is accepted exactly when it is "rent" or "sale"; otherwise the error is the fixed listing_type message |
| ListingDomain.ValidatePrice | go-listing-service/internal/domain/listing.go:54-59 | the price is accepted exactly when it is greater than 0; otherwise the error is "price must be greater than 0" |
| ListingDomain.NewListing | go-listing-service/internal/domain/listing.go:26-43 | succeeds exactly when the type is known and the price is positive; the type is checked first; the result carries the given owner, type and price, id 0, and created = updated = now |
| ListingDomain.TypeCheckedBeforePrice | go-listing-service/internal/domain/listing.go:28-33 | an unknown type with a non-positive price reports the type error, not the price error |
| UserDomain.TrimSpaceEmpty | go-user-service/internal/domain/user.go:32-38 | `strings.TrimSpace` leaves the empty string exactly when the name contains no non-space character |
| UserDomain.TrimLeftKeepsNonSpace | go-user-service/internal/domain/user.go:33 | trimming the left end drops only a leading run of white space: the result is a suffix of the name, every dropped character is white space, so every non-space character is kept and some non-space character remains exactly when the name had one |
| UserDomain.ValidateName | go-user-service/internal/domain/user.go:32-38 | a name is valid exactly when it has a non-space character; otherwise the error is "name is required" |
| UserDomain.NewUser | go-user-service/internal/domain/user.go:18-29 | succeeds exactly when the name has a non-space character; the untrimmed name is stored, with id 0 and created = updated = now |
| UserDomain.PaddedNameStoredRaw | go-user-service/internal/domain/user.go:18-38 | " ann " is accepted and kept with its padding; a name made only of spaces is rejected |
| Strconv.ParseInt | go-listing-service/internal/handler/listing_handler.go:40-44 | a parsed text is an optional sign followed by at least one digit, and its value is the digits' value, negated after '-' |
| Strconv.ParseSpellings | go-listing-service/internal/handler/listing_handler.go:40-44 | every digit string, bare or after '+' and leading zeros included, is accepted exactly when its value is at most 2^63-1, and is read as that value |
| Strconv.ParseNegativeSpellings | go-listing-service/internal/handler/listing_handler.go:40-44 | '-' followed by any digit string is accepted exactly when the negated value is at least -2^63, and is read as that value |
| Strconv.NonNumberRejected | go-listing-service/internal/handler/listing_handler.go:40-44 | a text with a character that is neither a digit nor a leading sign is rejected |
| Strconv.FormatInt | go-public-api/internal/client/listing_client.go:31-34 | the text is non-empty and starts with '-' exactly for negative numbers |
| Strconv.ParseFormat | go-public-api/internal/client/listing_client.go:31-34 | parsing a formatted 64-bit integer gives back that integer (the client formats it and the service parses it) |
| Strconv.OutOfRangeRejected | go-listing-service/internal/handler/listing_handler.go:40-44 | a decimal text whose value lies outside the int64 range is rejected |
| Paging.Window | go-listing-service/internal/repository/sqlite/listing_repository.go:82-84 | `LIMIT l OFFSET o`: skips max(o,0) rows, keeps at most l of them (all of them when l < 0), in order |
| Paging.WindowWithin | go-listing-service/internal/repository/sqlite/listing_repository.go:82-84 | every row of a page is a row of the ordered result |
| Paging.WrappedOffset | go-listing-service/internal/repository/sqlite/listing_repository.go:83 | the offset as Go's int64 arithmetic computes it; it equals (pageNum-1)*pageSize whenever that fits in 64 bits |
| Paging.PagesCoverInOrder | go-listing-service/internal/repository/sqlite/listing_repository.go:82-84 | pages 1..k, joined, are the first k*size rows of the ordered result: no row is skipped or repeated |
| Paging.PastTheEndIsEmpty | go-user-service/internal/repository/sqlite/user_repository.go:93-102 | a page that starts past the last row is empty |
| Paging.WrappedOffsetShowsFirstPage | go-user-service/internal/repository/sqlite/user_repository.go:94 | page 2^62 of size 4 wraps to offset -4, which SQLite reads as 0, so it shows the first four rows instead of none |
| ListingRepository.ListingTable.constructor | go-listing-service/internal/repository/sqlite/listing_repository.go:24-32 | a new table has no rows and an AUTOINCREMENT counter of 0 |
| ListingRepository.ListingTable.Create | go-listing-service/internal/repository/sqlite/listing_repository.go:42-68 | succeeds exactly when the driver works and the counter is below 2^63-1; the new id is the counter plus 1 and exceeds every earlier id; the listing is appended with that id; a failure changes nothing and is wrapped as "failed to create listing: ..." |
| ListingRepository.ListingTable.FindAll | go-listing-service/internal/repository/sqlite/listing_repository.go:71-118 | returns the owner-filtered rows, ordered by id descending, with the LIMIT/OFFSET window applied at the offset Go computes (wrapping in 64 bits); a driver failure is "failed to query listings: ..." |
| ListingRepository.NewestFirstSound | go-listing-service/internal/repository/sqlite/listing_repository.go:76-82 | every listed row is in the table and matches the owner filter |
| ListingRepository.NewestFirstComplete | go-listing-service/internal/repository/sqlite/listing_repository.go:76-82 | every row that matches the owner filter is listed |
| ListingRepository.NewestFirstDescending | go-listing-service/internal/repository/sqlite/listing_repository.go:82 | with ids ascending in the table, the listing is strictly descending by id |
| ListingRepository.UnfilteredIsReversed | go-listing-service/internal/repository/sqlite/listing_repository.go:82 | with no owner filter, the order is exactly the reverse of insertion order |
| ListingRepository.NewestFirstAppend | go-listing-service/internal/repository/sqlite/listing_repository.go:42-68 | appending a row puts it first in the listings of every filter it matches and changes nothing else |
| ListingRepository.WindowOfScan | go-listing-service/internal/repository/sqlite/listing_repository.go:82-84 | a page of a descending listing is itself descending and made of listed rows |
| ListingRepository.QueryResult | go-listing-service/internal/repository/sqlite/listing_repository.go:71-118 | a page holds at most pageSize rows, each in the table and matching the owner, with ids descending |
| ListingRepository.TwelveRowsPageTwo | go-listing-service/internal/repository/sqlite/listing_repository.go:82-84 | for 12 rows, page 2 of size 5 is rows 7 down to 3 (the 7th to 3rd inserted) |
| ListingRepository.HugePageShowsNewest | go-listing-service/internal/repository/sqlite/listing_repository.go:83-84 | page 2^62 of size 4 returns the four newest listings, because the offset wraps to -4 |
| ListingRepository.CreatedListingFirstForItsOwner | go-listing-service/internal/repository/sqlite/listing_repository.go:42-84 | a newly created listing heads page 1 of its owner's listings and is absent from another owner's page |
| UserRepository.UserTable.constructor | go-user-service/internal/repository/sqlite/user_repository.go:31-45 | a new table has no rows and an AUTOINCREMENT counter of 0 |
| UserRepository.UserTable.Create | go-user-service/internal/repository/sqlite/user_repository.go:48-65 | succeeds exactly when the driver works and the counter is below 2^63-1; the new id is the counter plus 1 and exceeds every earlier id; the user is appended; a failure changes nothing and is wrapped as "failed to insert user: ..." |
| UserRepository.UserTable.GetByID | go-user-service/internal/repository/sqlite/user_repository.go:68-89 | finds a user exactly when some row has the id, and returns that row, which in a valid table is the only row with that id; otherwise the error is "user not found"; a driver failure is "failed to query user: ..." |
| UserRepository.UserTable.GetAll | go-user-service/internal/repository/sqlite/user_repository.go:92-128 | returns the rows ordered by created_at descending, with the LIMIT/OFFSET window applied at the offset Go computes (wrapping in 64 bits); a driver failure is "failed to query users: ..." |
| UserRepository.IdsIdentifyRows | go-user-service/internal/repository/sqlite/user_repository.go:34 | with ids ascending, two rows with the same id are the same row |
| UserRepository.InsertPermutes | go-user-service/internal/repository/sqlite/user_repository.go:99 | inserting a user into an ordered list adds exactly that user |
| UserRepository.InsertKeepsOrder | go-user-service/internal/repository/sqlite/user_repository.go:99 | inserting into a list ordered by created_at descending keeps it ordered |
| UserRepository.ByCreatedDescSorts | go-user-service/internal/repository/sqlite/user_repository.go:99 | `ORDER BY created_at DESC` gives an ordered permutation of the table |
| UserRepository.AllQueryResult | go-user-service/internal/repository/sqlite/user_repository.go:92-128 | a page holds at most pageSize users, each in the table, ordered by created_at descending |
| UserRepository.HugePageShowsNewest | go-user-service/internal/repository/sqlite/user_repository.go:93-102 | page 2^62 of size 4 returns the four most recently created users, because the offset wraps to -4 |
| ListingUseCase.BuildFilter | go-listing-service/internal/usecase/listing_usecase.go:48-61 | a page number or size of 0 or less becomes 1 or 10; a positive one is kept; the owner filter is passed through |
| ListingUseCase.CreateListing | go-listing-service/internal/usecase/listing_usecase.go:29-45 | validates before saving; succeeds exactly when the type is known, the price is positive and the insert succeeds; the stored listing carries the inputs and the new id, which is also the counter afterwards; a driver error and a full AUTOINCREMENT counter are "failed to save listing: failed to create listing: " followed by the driver's message or SQLite's "database or disk is full"; a failure leaves the table unchanged |
| ListingUseCase.GetListings | go-listing-service/internal/usecase/listing_usecase.go:48-69 | returns the repository query under the defaulted filter; a storage error is "failed to retrieve listings: ..." |
| UserUseCase.BuildFilter | go-user-service/internal/usecase/user_usecase.go:49-60 | a page number or size below 1 becomes 1 or 10; a positive one is kept |
| UserUseCase.CreateUser | go-user-service/internal/usecase/user_usecase.go:23-36 | validates before saving; succeeds exactly when the name has a non-space character and the insert succeeds; the stored user carries the raw name and the new id, which is also the counter afterwards; a driver error and a full AUTOINCREMENT counter are "failed to create user: failed to insert user: " followed by the driver's message or SQLite's "database or disk is full"; a failure leaves the table unchanged |
| UserUseCase.GetUserByID | go-user-service/internal/usecase/user_usecase.go:39-45 | finds a user exactly when the table has that id; a missing id is "failed to get user: user not found" |
| UserUseCase.GetAllUsers | go-user-service/internal/usecase/user_usecase.go:48-68 | returns the ordered page under the defaulted filter; a storage error is "failed to get users: ..." |
| ListingHandler.ParseCreate | go-listing-service/internal/handler/listing_handler.go:22-63 | a method other than POST answers 405; a POST with an unreadable form answers 400 "invalid form data"; once both pass, the checks are user_id, listing_type, price, and every failure is a 400; parsed values are the form's |
| ListingHandler.CreateChecksInOrder | go-listing-service/internal/handler/listing_handler.go:34-63 | each missing or non-integer field yields its own message, in the order user_id, listing_type, price |
| ListingHandler.CreateListing | go-listing-service/internal/handler/listing_handler.go:22-73 | a parse failure is answered as is, and every failure leaves the rows and the counter unchanged; a use-case error answers 400 with its message, stated exactly for the validation error, the driver error and the full counter; a success is the created listing with the counter plus 1 as its id, which is the counter afterwards |
| ListingHandler.PositiveParam | go-listing-service/internal/handler/listing_handler.go:94-112 | an absent value gives the default; a present one is accepted exactly when it is an integer of at least 1; otherwise 400 with the parameter's message |
| ListingHandler.ParseList | go-listing-service/internal/handler/listing_handler.go:76-112 | a method other than GET answers 405; a GET is accepted exactly when user_id is absent or an integer and page_num and page_size are each absent or an integer of at least 1; user_id is checked before page_num, and page_num before page_size, each failure with its own 400 message; absent pages are 1 and 10, and accepted pages are at least 1 |
| ListingHandler.BareListRequest | go-listing-service/internal/handler/listing_handler.go:83-112 | a GET with no parameters is accepted with no owner filter, page 1 and size 10 |
| ListingHandler.RenderAsWritten | go-listing-service/internal/handler/listing_handler.go:72 | as the service writes it: the status is the outcome's; a created listing is the `data` object itself, with no "listing" key; a page is the `data` itself, null exactly when empty and otherwise an array |
| ListingHandler.Render | go-listing-service/internal/handler/listing_handler.go:121 | corrected: the status is the outcome's; `data` is an object whose only key is "listing" for a created listing and "listings" for a page, an array with one entry per listing |
| ListingHandler.GetListings | go-listing-service/internal/handler/listing_handler.go:76-122 | a parse failure is answered as is; otherwise the result is the repository page for the parsed filter, or 500 with "failed to retrieve listings: failed to query listings: " and the driver's message on a storage error |
| UserHandler.CreateUser | go-user-service/internal/handler/user_handler.go:24-44 | an unreadable form answers 400 "invalid form data"; succeeds exactly when the name has a non-space character (and the insert works); every failure is a 400 with the rows and the counter unchanged, and a failed insert answers the use case's message exactly; a created user has the counter plus 1 as its id, which is the counter afterwards |
| UserHandler.GetUser | go-user-service/internal/handler/user_handler.go:47-69 | a non-integer id answers 400 "invalid user id"; every use-case error, the driver's included, answers 404 with the use case's message ("failed to get user: user not found" for a missing row); a found user is the row with that id |
| UserHandler.IntParam | go-user-service/internal/handler/user_handler.go:79-95 | an absent value gives the default; any integer is accepted, whatever its sign; a non-integer answers 400 |
| UserHandler.ParsePaging | go-user-service/internal/handler/user_handler.go:72-95 | accepted exactly when both are absent or integers; page_num is read before page_size, a bad one answers 400 "invalid page_num" or "invalid page_size"; each is the integer given or its default |
| UserHandler.Render | go-user-service/internal/handler/user_handler.go:40-42 | the status is the outcome's (200 on success); the envelope's result flag says success; a user's encoding is the only member of `data`, under "user"; a page is under "users", null exactly when empty and otherwise the array of the users' encodings in order |
| UserHandler.NonPositivePagingAccepted | go-user-service/internal/handler/user_handler.go:79-95 | page_num "0" and page_size "-3" pass the handler unchanged (the use case later replaces them) |
| UserHandler.GetAllUsers | go-user-service/internal/handler/user_handler.go:72-109 | a parse failure is answered as is; otherwise the ordered page under the use case's defaults, or 500 on a storage error |
| PublicModel.DecodeUser | go-public-api/internal/client/user_client.go:62-65 | null decodes to the zero user; only an object can decode to anything else |
| PublicModel.DecodeListing | go-public-api/internal/client/listing_client.go:118-121 | null decodes to the zero listing; only an object can decode to anything else |
| PublicModel.DecodeEach | go-public-api/internal/client/listing_client.go:70-73 | an array decodes exactly when every element does, and then element by element, in order |
| PublicModel.DecodeListings | go-public-api/internal/client/listing_client.go:70-73 | null decodes to no listings; only an array can decode to anything else |
| ServiceClient.DecodeEnvelope | go-public-api/internal/client/listing_client.go:49-52 | null gives the zero envelope; a non-object, or a `data` that is neither null nor an object, fails; a decoded envelope holds the body's result flag and data, and an absent or null `data` is the empty map |
| ServiceClient.Open | go-public-api/internal/client/listing_client.go:38-56 | the first failing check decides the error: transport, then status other than 200, then envelope decoding, then `result: false`; a success is the data of an envelope whose result is true |
| ServiceClient.ErrorReplyIsBadStatus | go-listing-service/internal/handler/response.go:35-41 | every error reply a service writes (status other than 200) reaches the client as a status error |
| ServiceClient.SuccessReplyOpens | go-listing-service/internal/handler/response.go:27-33 | a success reply whose data is an object opens to exactly that object |
| ListingClient.ListingsQuery | go-public-api/internal/client/listing_client.go:30-35 | the query holds page_num and page_size, and user_id only when given; each parses back to the value sent |
| ListingClient.ReadListings | go-public-api/internal/client/listing_client.go:38-75 | after the common checks, a missing "listings" key is an empty list; a present one succeeds exactly when it decodes, and gives the decoded listings |
| ListingClient.GetListings | go-public-api/internal/client/listing_client.go:29-76 | the reply to the query sent decides: a transport failure or a status other than 200 is that error; a success comes from an opened envelope, the decoded "listings" or no listings when the key is absent; the result is exactly what `ReadListings` makes of the reply, so it succeeds exactly when the envelope opens and "listings" is absent or decodes |
| ListingClient.CreateForm | go-public-api/internal/client/listing_client.go:80-83 | the form holds user_id, listing_type and price; the numbers parse back to the values sent |
| ListingClient.ReadCreatedListing | go-public-api/internal/client/listing_client.go:86-123 | after the common checks, a missing "listing" key is an error; a present one succeeds exactly when it decodes |
| ListingClient.CreateListing | go-public-api/internal/client/listing_client.go:79-124 | the reply to the form sent decides: a transport failure or a status other than 200 is that error; it succeeds exactly when the envelope opens and holds a decodable "listing"; a success is exactly that decoded listing |
| ListingClient.MissingKeyListVersusEntity | go-public-api/internal/client/listing_client.go:59-62 | a missing key is an empty list for the list call but an error for the create call |
| UserClient.ReadUser | go-public-api/internal/client/user_client.go:36-67 | after the common checks, a missing "user" key is an error; a present one succeeds exactly when it decodes, and gives the decoded user |
| UserClient.GetUser | go-public-api/internal/client/user_client.go:28-68 | the reply to the request for the formatted id decides: a transport failure or a status other than 200 is that error; it succeeds exactly when the envelope opens and holds a decodable "user"; a success is exactly that decoded user |
| UserClient.CreateUser | go-public-api/internal/client/user_client.go:71-114 | the reply to the posted name decides, by the same rules as GetUser |
| PublicHandler.IntParam | go-public-api/internal/handler/public_handler.go:37-62 | an absent value gives the default; any integer is accepted; a non-integer answers 400 with the parameter's message |
| PublicHandler.ParseParams | go-public-api/internal/handler/public_handler.go:28-62 | page_num, then page_size, then user_id; the first non-integer answers 400 with that parameter's message; there is no positivity check |
| PublicHandler.EnrichedPageShape | go-public-api/internal/handler/public_handler.go:71-91 | a successful join has one entry per listing, in order; each entry copies its listing's fields and holds that listing's looked-up owner |
| PublicHandler.EnrichFailsOnFirstFailure | go-public-api/internal/handler/public_handler.go:73-80 | the join fails exactly when some owner lookup fails, and then with the error of the first failing lookup |
| PublicHandler.Enrich | go-public-api/internal/handler/public_handler.go:71-91 | the loop computes the join; it asks for owners in listing order, stops after the first failure, and on success has asked for every owner |
| PublicHandler.GetListings | go-public-api/internal/handler/public_handler.go:27-98 | a parameter error is answered with no downstream call; a listing-client error answers 500 with no user lookup; a failed lookup answers 500; otherwise the joined page |
| PublicHandler.CreateUser | go-public-api/internal/handler/public_handler.go:101-120 | an undecodable body answers 400; otherwise the user client's result, and every client error is a 400 |
| PublicHandler.CreateListing | go-public-api/internal/handler/public_handler.go:123-142 | an undecodable body answers 400; otherwise the listing client's result, and every client error is a 400 |
| EndToEnd.ListingRoundTrip | go-listing-service/internal/domain/listing.go:17-24 | a listing as the listing service encodes it decodes to the same listing in the public API |
| EndToEnd.ListingsRoundTrip | go-public-api/internal/client/listing_client.go:70-73 | an encoded page of listings decodes to the same listings, in order |
| EndToEnd.UserRoundTrip | go-user-service/internal/domain/user.go:10-15 | a user as the user service encodes it decodes to the same user in the public API |
| EndToEnd.CreatedListingAsWritten | go-listing-service/internal/handler/listing_handler.go:72 | the created listing, written as the `data` itself, reads as "no listing in response" |
| EndToEnd.PublicCreateListingAsWritten | go-public-api/internal/handler/public_handler.go:123-142 | whatever the listing service answers to a create, the public create answers with a failure; a created listing gives 400 for the missing "listing" key |
| EndToEnd.ListedAsWritten | go-listing-service/internal/handler/listing_handler.go:121 | a non-empty page, written as the `data` itself, makes the envelope undecodable; an empty page reads as no listings |
| EndToEnd.CreatedListingCorrected | go-public-api/internal/client/listing_client.go:106-123 | with the listing under "listing", the public client gets exactly the stored listing |
| EndToEnd.ListedCorrected | go-public-api/internal/client/listing_client.go:58-75 | with the page under "listings", the public client gets exactly the page, in order |
| EndToEnd.ListingFailureIsBadStatus | go-public-api/internal/client/listing_client.go:44-47 | every error reply of the listing service is a status error for both listing calls |
| EndToEnd.UserReplyReadBack | go-user-service/internal/handler/user_handler.go:40-42 | a found or created user, under "user", reaches the public client intact |
| EndToEnd.UserFailureIsBadStatus | go-public-api/internal/client/user_client.go:36-39 | every error reply of the user service, such as 404 for an unknown id, is a status error |
| EndToEnd.ForwardedQueryAccepted | go-public-api/internal/client/listing_client.go:29-35 | with positive page values, the listing service reads the forwarded query as exactly the page, size and owner sent |
| EndToEnd.ForwardedPageNumRejected | go-public-api/internal/handler/public_handler.go:37-44 | the public API accepts page_num 0 or less, which the listing service rejects with 400; the client sees a status error |
| EndToEnd.DirectoryReadsStoredUser | go-public-api/internal/client/user_client.go:28-68 | a user service that answers with the stored user gives that user to the join |
| EndToEnd.OwnersEmbedded | go-public-api/internal/handler/public_handler.go:73-90 | when every lookup returns the owner with the listing's user id, the join succeeds, and each entry keeps its listing's id, type and price and holds its owner |

## Left out

- Numbers in JSON are integers. Go decodes the `data` payload through `interface{}`, where numbers are `float64`. That loses precision above 2^53 before the payload is re-decoded. The model does not capture that loss.
- JSON keys match exactly. Go's `encoding/json` also matches struct fields case-insensitively. Invalid UTF-8 and the byte-level JSON syntax are not modelled.
- Routing, the ping endpoints, configuration, `main`, and opening the database are not modelled. The HTTP method check of the user service is done by its router, so the user handlers take no method argument.
- go-user-service/internal/handler/response.go is not part of this model. The user service's replies are taken to use the same envelope as the listing service's.
- `Request.ParseForm`: a body that cannot be parsed is `None`. The merge of query and body values is not modelled; a form is one map.
- The `Request.Body` JSON decoding of the public create endpoints is not modelled; the decoded request, or `None`, is the input.
- ListingRepository.ListingTable.Create: the id is written through the caller's pointer in the source. The model returns the listing with its id instead. The `LastInsertId` error path is left out, because SQLite's driver does not fail there.
- ListingRepository.ListingTable.FindAll and UserRepository.UserTable.GetAll: the scan errors and the row-iteration errors are left out. They are driver failures, and the model folds them into `dbFails` before the query.
- UserRepository.ByCreatedDesc: SQLite leaves the order of equal `created_at` values open. The model puts them in insertion order.
- The public client errors are structured values. The model does not build the formatted error texts (`"listing service returned status %d: %s"` and so on) that the public API puts in its 500 and 400 replies.
- The public API's own reply envelope (its response.go) is not modelled beyond the status and the reply kind.
- Timeouts, cancellation and concurrency: the source has none. The enrichment loop is sequential, as it is in the source.

## Findings

| source | as written | input that shows it | evidently intended | confidence | as-written member | corrected member |
|---|---|---|---|---|---|---|
| go-listing-service/internal/handler/listing_handler.go:72 | the listing service writes the created listing itself as `data`, and the listings slice itself as `data` (line 121), while the public client reads the keys "listing" and "listings" (go-public-api/internal/client/listing_client.go:59, 107) | any successful `POST /public-api/listings`: the public API answers 400 "no listing in response"; any `GET /public-api/listings` whose page is non-empty: `data` is an array, the envelope does not decode, and the public API answers 500 | the payload is wrapped under its key, as the user service does with "user" | high; not executed | ListingHandler.RenderAsWritten, EndToEnd.CreatedListingAsWritten, EndToEnd.ListedAsWritten | ListingHandler.Render, EndToEnd.CreatedListingCorrected, EndToEnd.ListedCorrected |
| go-listing-service/internal/repository/sqlite/listing_repository.go:83 | the offset `(PageNum-1)*PageSize` is computed in 64-bit `int` and wraps around; the same expression is at go-user-service/internal/repository/sqlite/user_repository.go:94 | page_num 4611686018427387904 (2^62) with page_size 4: the offset wraps to -4, SQLite treats a negative OFFSET as 0, and the first page is returned | a page past the end is empty | medium; not executed | Paging.WrappedOffset, Paging.WrappedOffsetShowsFirstPage, ListingRepository.HugePageShowsNewest, UserRepository.HugePageShowsNewest | Paging.Offset, Paging.PastTheEndIsEmpty |

The repositories compute the page offset as the code does, with `Paging.WrappedOffset`, so `FindAll` and `GetAll` show the second finding. `Paging.Offset` is the intended offset, and `Paging.PastTheEndIsEmpty` states what it gives. Both renderings of the listing service's replies are kept: `ListingHandler.RenderAsWritten` is the code, and `ListingHandler.Render` is the corrected form.
