# rentx_mvp: the listing feed, the sign-in handshake, the upload checks and the client's state

RentX MVP is a small rental marketplace. A Go server (`main.go`) keeps users and listings in SQLite and answers form posts. A React client (`frontend/src/App.jsx`) signs users in, creates listings with an image, and shows two feeds.

The server writes each feed as plain text, one `ID: …, Name: …, Description: …, Payment: …, Image: …` line per listing. The client reads it back by splitting and trimming. This project models in Dafny the parts of that exchange that are exact rules:

- **The feed.**
  - `ListingFeed` writes the feed. `WriteFeed` is the server's `for rows.Next()` loop over an array of scanned rows.
  - `RecordParser` is the client's split/trim/`reduce` parser.
  - `FeedRoundTrip` proves that the client recovers every listing, in order, when the text fields are safe for the format.
- **The sign-in handshake** (`SigninHandshake`). The server's `Login successful. UserID: %d` reply and the client's `/UserID:\s*(\d+)/` search form a round trip for every id ≥ 0.
- **Listing creation on the server.**
  - `CreateListing` models the handler's ordered checks and its two writes. The file system and the database are inputs.
  - `UploadNaming` models `sanitizeFilename` (`filepath.Base` and the space replacement) and the upload path. It proves the image always lands directly inside `uploads/`.
- **The client's state.**
  - `ClientState` gives one function per handler from a state and the server's response to the new state, plus the rule that picks what the `useEffect` fetches. It proves what each step changes and what it keeps.
  - `ClientApp` is the component as a `class App` with one field per `useState`. Each handler is a method proved to produce exactly the state the matching `ClientState` step gives.
- **End to end** (`EndToEnd`). Server answers fed into client steps: the signed-in user carries the server's id, a loaded feed holds the server's listings, and the mounted dashboard route always fails. An uploaded image path survives the feed format.

Shared pieces:

- `Strings`: JavaScript `trim`, ASCII `toLowerCase` and `split`, plus Go `TrimPrefix` and `ReplaceAll`.
- `Decimal`: Go `%d` and `strconv.Atoi`.
- `ServerHttp`: `http.Error`, which appends a newline, and `res.ok`.
- `Wrappers`: `Option` and `Result`.

## Model

| member | source | states |
|---|---|---|
| ListingFeed.WriteFeed | main.go:192-201 | the loop writes exactly the concatenation of one formatted line per successfully scanned row, in row order, skipping rows that fail to scan |
| ListingFeed.FeedTextSnoc | main.go:192-201 | a row that fails to scan adds nothing and the output continues; a scanned row appends exactly its own line |
| ListingFeed.ScannedListingsKeepsOrder | main.go:192-201 | the listing of a scanned row sits between the listings of the rows before it and those of the rows after it |
| ListingFeed.FormatLineLayout | main.go:199-200 | a line is `ID: <id>, Name: <name>, <Description or Desc>: <desc>, Payment: <pay>, Image: <path>` followed by a newline |
| ListingFeed.AllListingsHandler | main.go:183-202 | a failed query answers 500 `Failed to fetch listings`, otherwise 200 with the feed of the rows |
| ListingFeed.DashboardHandler | main.go:204-231 | a path that is not `/dashboard/<integer>` answers 400 `Invalid userID`; a failed query 500; otherwise 200 with the per-user feed (key `Desc`) |
| ListingFeed.MountedDashboardRejectsAll | main.go:205-210 | every path under the mount point `/api/dashboard/` fails the id parse, so every routed request gets the 400 |
| Decimal.AtoiFormatInt | main.go:130 | `strconv.Atoi` reads back exactly the integer `%d` wrote, negative ones included |
| Decimal.FormatIntShape | main.go:109 | `%d` writes a non-empty text of digits, led by `-` exactly for a negative number |
| Decimal.AtoiRejectsLeading | main.go:206 | a text that starts with anything but a sign or a digit is not a number |
| Strings.TrimFixesTrimmed | frontend/src/App.jsx:30 | `trim` leaves a text unchanged exactly when it neither starts nor ends with whitespace |
| Strings.TrimAllSpace | frontend/src/App.jsx:30 | `trim` of an all-whitespace text is empty |
| Strings.SplitJoin | frontend/src/App.jsx:30-33 | splitting, on a separator that cannot overlap itself, a join of parts that do not contain it gives back exactly those parts |
| Strings.FirstOccurrence | frontend/src/App.jsx:33 | the first occurrence of such a separator is the first one placed after a text that does not contain it |
| RecordParser.ParsePiece | frontend/src/App.jsx:33-34 | a piece fails, carrying the piece, exactly when it contains no `: ` |
| RecordParser.PieceKeyValue | frontend/src/App.jsx:33-34 | the key is the trimmed, lower-cased text before the first `: `; the value is the trimmed text between the first and the second `: ` |
| RecordParser.Reduce | frontend/src/App.jsx:32-36 | the fold succeeds exactly when every piece contains `: `, and it never drops a key already in the dictionary |
| RecordParser.ReduceLastWins | frontend/src/App.jsx:32-36 | after the fold, a key holds the value of the last piece naming it, and a key that no piece names keeps its earlier value (undefined at the start) |
| RecordParser.ParseLines | frontend/src/App.jsx:31-44 | the lines parse exactly when each line does, giving one record per line, the i-th from the i-th line |
| RecordParser.EmptyBodyRejected | frontend/src/App.jsx:30-34 | an empty or all-whitespace body does not give an empty list: the parse fails on the empty piece |
| RecordParser.DashboardDescription | frontend/src/App.jsx:69 | the per-user parser takes the description from a non-empty `desc`, else from `description`; the all-listings parser reads only `description` |
| FeedRoundTrip.LineRoundTrip | main.go:199-200 | a line written for a listing whose text fields are safe parses back to that listing's client record |
| FeedRoundTrip.FeedRoundTrip | main.go:192-201 | the client's parse of the server's feed is one record per scanned listing, in order, with id and payment as their decimal text and the other fields verbatim, when the listings are safe and the last image path is not empty |
| FeedRoundTrip.BodyTrim | frontend/src/App.jsx:30 | trimming the body of such lines removes only the final newline |
| FeedRoundTrip.BodySplit | frontend/src/App.jsx:30 | splitting that text on newlines gives back exactly the written lines |
| FeedRoundTrip.LinesParse | frontend/src/App.jsx:31-44 | each safe line parses to its listing's record |
| SigninHandshake.SigninHandler | main.go:92-110 | a method other than POST answers 405; a failed credential lookup 401 `Invalid credentials`; a match 200 `Login successful. UserID: <id>` with no newline; the reply is ok exactly in the last case |
| SigninHandshake.MatchFromNone | frontend/src/App.jsx:126-127 | the search reports no match exactly when the pattern matches at no position |
| SigninHandshake.MatchFromLeftmost | frontend/src/App.jsx:126-128 | a reported match is the leftmost one, and its capture is that match's digit run |
| SigninHandshake.MatchUserIdDigits | frontend/src/App.jsx:126-128 | the captured id is a non-empty run of decimal digits |
| SigninHandshake.NoMarkerNoMatch | frontend/src/App.jsx:126-127 | a text without `UserID:` gives no match |
| SigninHandshake.SigninRoundTrip | main.go:109 | for every id ≥ 0, the client's pattern captures exactly the decimal text the server wrote, and `Atoi` reads it back as that id |
| UploadNaming.BaseSpecial | main.go:249 | `filepath.Base` gives `.` for the empty name and `/` exactly for a name made only of separators |
| UploadNaming.BaseElement | main.go:249 | otherwise it gives the last non-empty element, which has no separator and ends the name up to trailing separators |
| UploadNaming.SanitizeShape | main.go:248-250 | a sanitized name is never empty and has no space; it has no separator unless it is `/`, which happens exactly for an all-separators name |
| UploadNaming.SanitizeIdempotent | main.go:248-250 | sanitizing twice gives the same result as sanitizing once |
| UploadNaming.SanitizeChars | main.go:248-250 | every character of a sanitized name comes from the name, with spaces turned into `_`, apart from the `.` or `/` that `Base` answers itself |
| UploadNaming.UploadPathInUploads | main.go:152-154 | the path is `uploads/` followed by one element with no separator, never `.` or `..`, starting with `<id>_` and otherwise holding the sanitized name; the all-separators name leaves just `<id>_` |
| CreateListing.CreateListingHandler | main.go:112-181 | a rejected request gets its check's reply and writes nothing. The create, copy and insert errors answer 500 with their messages; a failed copy leaves the file behind. Success inserts the row with the cleaned path and answers `Listing created`. The reply is ok exactly when a row was inserted |
| CreateListing.CheckOrder | main.go:113-149 | each check rejects exactly when all the earlier checks passed and it fails: method, form, `user_id`, `paymentPerDay`, image |
| CreateListing.RejectionStatus | main.go:113-149 | a wrong method answers 405 and every later rejection 400, none of them ok |
| CreateListing.CheckAccepts | main.go:113-149 | a request passes exactly when it is a POST whose form decodes, whose `user_id` and `paymentPerDay` are integers and which carries an image; it yields those values |
| CreateListing.NegativePaymentAccepted | main.go:136-141 | there is no range check: a negative payment is accepted as written |
| ClientState.FetchOutcome | frontend/src/App.jsx:24-79 | a feed fetch changes only its collection and the error; the collection is replaced and the error cleared exactly when the request succeeds and every line parses, otherwise the collection is kept and the error is `Could not load listings.` (or `Could not load your listings.`) |
| ClientState.FeedOutcomeCases | frontend/src/App.jsx:26-45 | a feed request succeeds exactly when it is answered ok and its body parses, and yields the parsed records |
| ClientState.BlankFeedKeepsListings | frontend/src/App.jsx:30-48 | an ok response with a blank body keeps the collection and sets the load error |
| ClientState.FetchIdempotent | frontend/src/App.jsx:24-79 | fetching twice with the same response is fetching once |
| ClientState.FetchDashboardSignedOut | frontend/src/App.jsx:53 | without a user the per-user fetch changes nothing |
| ClientState.SignupOutcome | frontend/src/App.jsx:81-106 | a failed request sets the error to the server's text, `Signup failed` for an empty one, or the rejection's message, and changes nothing else; an ok answer opens the sign-in form and clears the sign-up form |
| ClientState.SigninOutcome | frontend/src/App.jsx:108-138 | from the sign-in form, a user is set exactly when the response is ok and carries the pattern; the user then has the captured id and the typed email, the form is cleared and the dashboard opens on "my". Otherwise only the error changes: the server's text, `Signin failed` or `Invalid login response` |
| ClientState.SigninIdDigits | frontend/src/App.jsx:126-129 | a signed-in user's id is a run of decimal digits |
| ClientState.SigninThenFetchMine | frontend/src/App.jsx:186-192 | after a successful sign-in (which sets the user, the dashboard view and the "my" tab) the effect runs again and fetches the user's listings |
| ClientState.CreateGuards | frontend/src/App.jsx:143-150 | without a user, or without an image, only the error changes, whatever the response; the user check comes first |
| ClientState.CreateRejected | frontend/src/App.jsx:163-175 | a sent request that fails changes only the error: the server's text or `Create listing failed` |
| ClientState.CreateSucceeds | frontend/src/App.jsx:167-171 | an accepted listing resets the form with image and preview null, opens the dashboard on "my", keeps the user and then fetches the user's listings; from the create form the effect fires too |
| ClientState.SignoutForgets | frontend/src/App.jsx:178-184 | sign-out gives no user, the dashboard on "all" and both collections empty whatever the prior state: states that agree on the error and forms sign out alike |
| ClientState.SignoutIdempotent | frontend/src/App.jsx:178-184 | signing out twice is signing out once |
| ClientState.SignoutThenFetchAll | frontend/src/App.jsx:178-192 | signing a user out makes the effect run and fetch all listings |
| ClientState.SelectFetchCases | frontend/src/App.jsx:186-192 | in a reachable state all listings are fetched exactly on the dashboard's "all" tab and the user's exactly on "my" with a user; nothing otherwise |
| ClientState.InitialState | frontend/src/App.jsx:6-22 | the first state is consistent and its effect fetches all listings |
| ClientState.FetchesKeepConsistent | frontend/src/App.jsx:24-79 | fetches keep the reachable-state invariant: no `listings` view, the sign-in and sign-up forms only without a user, the create form only with one |
| ClientState.HandlersKeepConsistent | frontend/src/App.jsx:81-184 | each form's handler, and sign-out, keeps that invariant |
| ClientState.PressKeepsConsistent | frontend/src/App.jsx:198-249 | pressing a button that is on screen keeps it |
| ClientApp.App.constructor | frontend/src/App.jsx:6-22 | the fields start at the `useState` initial values |
| ClientApp.App.FetchListings | frontend/src/App.jsx:24-50 | the new fields are those of the `fetchListings` step |
| ClientApp.App.FetchDashboardFor | frontend/src/App.jsx:52-79 | the new fields are those of `fetchDashboardListings` run by a closure that sees the given user |
| ClientApp.App.FetchDashboardListings | frontend/src/App.jsx:52-79 | the same with the current user |
| ClientApp.App.HandleSignup | frontend/src/App.jsx:81-106 | the new fields are those of the sign-up step |
| ClientApp.App.HandleSignin | frontend/src/App.jsx:108-138 | the new fields are those of the sign-in step, including its own fetch made with the user its render saw |
| ClientApp.App.HandleCreateListing | frontend/src/App.jsx:140-176 | the request goes out exactly when there is a user and an image; the new fields are those of the create step |
| ClientApp.App.HandleSignout | frontend/src/App.jsx:178-184 | the new fields are those of sign-out |
| ClientApp.App.Click | frontend/src/App.jsx:202-247 | a shown button's `onClick` gives the state `Press` gives |
| ClientApp.App.Effect | frontend/src/App.jsx:186-192 | the effect body runs the fetch the selection rule picks, or nothing |
| EndToEnd.SigninReplyIntoClient | frontend/src/App.jsx:126-132 | signing in with the server's `Login successful. UserID: %d` reply for id ≥ 0 gives the user that id in decimal, which `Atoi` reads back, and leads to a fetch of that user's listings |
| EndToEnd.FeedIntoClient | frontend/src/App.jsx:24-50 | loading the server's all-listings feed leaves the client holding exactly the listings' records, in order, with the error cleared, when the round trip's conditions hold |
| EndToEnd.DashboardFeedIntoClient | frontend/src/App.jsx:52-79 | the same for the per-user feed (key `Desc`), fetched with a user signed in |
| EndToEnd.MountedDashboardIntoClient | frontend/src/App.jsx:56-77 | the client's `/api/dashboard/<id>` request always gets the 400, so the per-user list is kept and the load error shown |
| EndToEnd.UploadPathIsSafeField | main.go:152-154 | for a file name without comma, colon or whitespace other than plain spaces, the stored image path is a field the feed carries verbatim |

## Left out

- **Network, rendering and timing.** `fetch` is not modelled. Each request's outcome is a parameter: a status and a body, or the rejection message. The other parts of this item are:
  - Handlers run as atomic steps; the race between overlapping fetches is not modelled.
  - React's batching of setters is not modelled.
  - Not modelled: `alert`, `console`, JSX rendering, `URL.createObjectURL` and the `onChange` bindings of the form fields.
  - The effect's re-runs are stated through `EffectFires`, with `user` compared by value. Signing in twice as the same user cannot happen from the UI.
- **The duplicate dashboard fetch.** After an accepted listing, the handler's own `fetchDashboardListings()` and the effect's fetch overlap. The model runs the handler's fetch inside `Create` and leaves the effect's one to `App.Effect`.
- **The sign-in fetch.** `handleSignin` calls `fetchDashboardListings()` as its render saw it, with no user, so that call does nothing. `Signin` models this with the closure's user.
- **SQLite.** `initDB`, the queries and the constraints are not modelled. A query's rows are an array of `Row` (scanned or failed). The credential lookup is an `Option<int>`, and the insert's outcome an error option.
- **Files.** `os.MkdirAll`, `os.Create` and `io.Copy` are represented only by their error options, and the file written by its path.
- **Form decoding.** `ParseForm`, `ParseMultipartForm` and URL encoding are not modelled. The decoded fields (a missing one reads as `""`) or the decoder's error are inputs.
- **Server plumbing.** Not modelled: the `signupHandler` (the client depends only on its status and body), the CORS wrapper, static and SPA serving, `main`, and the commented-out old `main`.
- **Routing mismatches.** The client fetches `API_BASE + "/"` while the server mounts the feed at `/api/listings`. Images are requested under `/api/` but served under `/uploads/`. These are routing facts and are not modelled. The dashboard mount is modelled because it decides the handler's answer.
- UploadNaming.Base: models `filepath.Base` with `/` as the only separator. Windows separators and volume names are ignored.
- UploadNaming.CleanUploadName: `filepath.Clean` is modelled only as dropping a trailing separator. That is all it can change in a `uploads/<id>_<name>` path.
- Strings.ToLower: lower-cases ASCII letters only. JavaScript's full Unicode case mapping is not modelled.
- Decimal.Atoi: accepts an optional sign followed by digits. Go's out-of-range error for values beyond 64 bits is not modelled, and `%d` integers are unbounded.
- **The `listings` view.** The fetch rule's `"listings"` branch is kept in `SelectFetch`, but no handler sets that view. `Consistent` proves it is never reached.

## Choices

- **Where the descriptions and the code differ, the code is followed.**
  - The per-user feed writes the key `Desc`. An empty `desc` is falsy and the per-user line has no `description` key, so an empty description reads back as undefined.
  - The body is trimmed before splitting. As a result, the round trip needs the last listing's image path to be non-empty: otherwise its trailing `Image: ` loses its space and the piece no longer contains `: `.
