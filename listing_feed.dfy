/**
 * The server's listing feeds (main.go `getAllListingsHandler` and
 * `dashboardHandler`): every row the query returns and that scans becomes
 * one text line `ID: <id>, Name: <name>, Description: <desc>, Payment:
 * <pay>, Image: <path>` ending in a newline, in query order; a row whose
 * scan fails is skipped. The per-user feed writes the key `Desc` instead of
 * `Description`. The database is an input: the query's outcome is passed in.
 */
module ListingFeed {
  import opened Wrappers
  import opened Strings
  import opened Decimal
  import opened ServerHttp

  /** The columns of a `listings` row that the feed queries select. */
  datatype Listing = Listing(id: int, name: string, description: string, paymentPerDay: int, imagePath: string)

  /** One `rows.Next()` step: a row that scanned, or one whose `Scan` failed. */
  datatype Row = Scanned(listing: Listing) | ScanFailed

  /** The two feeds differ only in the key they write for the description. */
  datatype Feed = AllListings | UserListings

  function DescriptionKey(f: Feed): string {
    match f
    case AllListings => "Description"
    case UserListings => "Desc"
  }

  /** `key: value`, one field of a feed line. */
  function Field(key: string, value: string): string {
    key + ": " + value
  }

  /** The five fields of a listing's line, in the order the format string writes them. */
  function Pieces(l: Listing, f: Feed): seq<string> {
    [Field("ID", FormatInt(l.id)), Field("Name", l.name), Field(DescriptionKey(f), l.description),
     Field("Payment", FormatInt(l.paymentPerDay)), Field("Image", l.imagePath)]
  }

  /**
   * The `Fprintf` of one feed line, format
   * `"ID: %d, Name: %s, Description: %s, Payment: %d, Image: %s\n"`:
   * the five fields separated by `, `, then a newline.
   */
  function FormatLine(l: Listing, f: Feed): string {
    Join(Pieces(l, f), ", ") + "\n"
  }

  /** The listings of the rows that scanned, in query order. */
  function ScannedListings(rows: seq<Row>): seq<Listing> {
    if rows == [] then []
    else (if rows[0].Scanned? then [rows[0].listing] else []) + ScannedListings(rows[1..])
  }

  /** One line per listing, in order. */
  function FormattedLines(ls: seq<Listing>, f: Feed): seq<string> {
    if ls == [] then [] else [FormatLine(ls[0], f)] + FormattedLines(ls[1..], f)
  }

  /** What the loop writes: the lines one after the other. */
  function Lines(ls: seq<Listing>, f: Feed): string {
    Concat(FormattedLines(ls, f))
  }

  /** The whole body of a feed over the rows of a successful query. */
  function FeedText(rows: seq<Row>, f: Feed): string {
    Lines(ScannedListings(rows), f)
  }

  /** A skipped row adds nothing; a scanned row adds its listing at the end. */
  lemma {:induction false} ScannedListingsSnoc(rows: seq<Row>, r: Row)
    ensures ScannedListings(rows + [r]) == ScannedListings(rows) + (if r.Scanned? then [r.listing] else [])
  {
    if rows != [] {
      assert (rows + [r])[1..] == rows[1..] + [r];
      ScannedListingsSnoc(rows[1..], r);
    }
  }

  /** Scanned listings are exactly the listings of the scanned rows, in the same order. */
  lemma {:induction false} ScannedListingsKeepsOrder(rows: seq<Row>, i: nat)
    requires i < |rows| && rows[i].Scanned?
    ensures var before := ScannedListings(rows[..i]);
      ScannedListings(rows) == before + [rows[i].listing] + ScannedListings(rows[i + 1..])
  {
    if i > 0 {
      assert rows[1..][..i - 1] == rows[..i][1..];
      assert rows[1..][i..] == rows[i + 1..];
      ScannedListingsKeepsOrder(rows[1..], i - 1);
    }
  }

  lemma {:induction false} FormattedLinesSnoc(ls: seq<Listing>, l: Listing, f: Feed)
    ensures FormattedLines(ls + [l], f) == FormattedLines(ls, f) + [FormatLine(l, f)]
    decreases |ls|
  {
    if ls != [] {
      assert (ls + [l])[1..] == ls[1..] + [l];
      FormattedLinesSnoc(ls[1..], l, f);
    }
  }

  lemma LinesSnoc(ls: seq<Listing>, l: Listing, f: Feed)
    ensures Lines(ls + [l], f) == Lines(ls, f) + FormatLine(l, f)
  {
    FormattedLinesSnoc(ls, l, f);
    ConcatSnoc(FormattedLines(ls, f), FormatLine(l, f));
  }

  /** Feeding one more row to the loop appends that row's line, or nothing for a failed scan. */
  lemma FeedTextSnoc(rows: seq<Row>, r: Row, f: Feed)
    ensures r.ScanFailed? ==> FeedText(rows + [r], f) == FeedText(rows, f)
    ensures r.Scanned? ==> FeedText(rows + [r], f) == FeedText(rows, f) + FormatLine(r.listing, f)
  {
    ScannedListingsSnoc(rows, r);
    if r.Scanned? {
      LinesSnoc(ScannedListings(rows), r.listing, f);
    } else {
      assert ScannedListings(rows) + [] == ScannedListings(rows);
    }
  }

  lemma {:induction false} JoinFive(a: string, b: string, c: string, d: string, e: string)
    ensures Join([a, b, c, d, e], ", ") == a + ", " + b + ", " + c + ", " + d + ", " + e
  {
    var p := [a, b, c, d, e];
    assert p[1..] == [b, c, d, e];
    assert p[1..][1..] == [c, d, e];
    assert p[1..][1..][1..] == [d, e];
    assert p[1..][1..][1..][1..] == [e];
    assert Join([d, e], ", ") == d + ", " + e;
    assert Join([c, d, e], ", ") == c + ", " + (d + ", " + e);
    assert Join([b, c, d, e], ", ") == b + ", " + (c + ", " + (d + ", " + e));
  }

  /** The line field by field, as the format string lays it out. */
  lemma FormatLineLayout(l: Listing, f: Feed)
    ensures FormatLine(l, f) == Field("ID", FormatInt(l.id)) + ", " + Field("Name", l.name) + ", "
      + Field(DescriptionKey(f), l.description) + ", " + Field("Payment", FormatInt(l.paymentPerDay))
      + ", " + Field("Image", l.imagePath) + "\n"
  {
    var p := Pieces(l, f);
    JoinFive(p[0], p[1], p[2], p[3], p[4]);
    assert p == [p[0], p[1], p[2], p[3], p[4]];
  }

  /** The `for rows.Next()` loop: append one line per scanned row, `continue` past a failed scan. */
  method WriteFeed(rows: array<Row>, f: Feed) returns (out: string)
    ensures out == FeedText(rows[..], f)
  {
    out := "";
    var i := 0;
    while i < rows.Length
      invariant 0 <= i <= rows.Length
      invariant out == FeedText(rows[..i], f)
    {
      var row := rows[i];
      assert rows[..i + 1] == rows[..i] + [row];
      FeedTextSnoc(rows[..i], row, f);
      if row.ScanFailed? {
        i := i + 1;
        continue;
      }
      out := out + FormatLine(row.listing, f);
      i := i + 1;
    }
    assert rows[..i] == rows[..];
  }

  /** `getAllListingsHandler`: a failed query answers 500, otherwise the feed. */
  method AllListingsHandler(query: Option<array<Row>>) returns (reply: Reply)
    ensures query.None? ==> reply == HttpError(500, "Failed to fetch listings")
    ensures query.Some? ==> reply == Reply(200, FeedText(query.value[..], AllListings))
  {
    if query.None? {
      return HttpError(500, "Failed to fetch listings");
    }
    var body := WriteFeed(query.value, AllListings);
    reply := Reply(200, body);
  }

  /** The user id `dashboardHandler` reads from a request path. */
  function DashboardUserId(path: string): Option<int> {
    Atoi(TrimPrefix(path, "/dashboard/"))
  }

  /**
   * `dashboardHandler`: the path must end in an integer after `/dashboard/`,
   * else 400; `listingsOf(id)` is the outcome of the query for that user.
   */
  method DashboardHandler(path: string, listingsOf: int -> Option<array<Row>>) returns (reply: Reply)
    ensures DashboardUserId(path).None? ==> reply == HttpError(400, "Invalid userID")
    ensures DashboardUserId(path).Some? && listingsOf(DashboardUserId(path).value).None? ==>
      reply == HttpError(500, "Failed to fetch user listings")
    ensures DashboardUserId(path).Some? && listingsOf(DashboardUserId(path).value).Some? ==>
      reply == Reply(200, FeedText(listingsOf(DashboardUserId(path).value).value[..], UserListings))
  {
    var userId := DashboardUserId(path);
    if userId.None? {
      return HttpError(400, "Invalid userID");
    }
    var query := listingsOf(userId.value);
    if query.None? {
      return HttpError(500, "Failed to fetch user listings");
    }
    var body := WriteFeed(query.value, UserListings);
    reply := Reply(200, body);
  }

  /**
   * The handler is mounted at `/api/dashboard/`, so the paths it receives
   * start with `/api/`: the `/dashboard/` prefix never matches and the rest
   * is never a number. Every routed request is answered 400.
   */
  lemma MountedDashboardRejectsAll(rest: string)
    ensures DashboardUserId("/api/dashboard/" + rest).None?
  {
    var path := "/api/dashboard/" + rest;
    assert path[1] == 'a';
    assert TrimPrefix(path, "/dashboard/") == path;
    AtoiRejectsLeading(path);
  }
}
