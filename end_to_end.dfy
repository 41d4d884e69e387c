/**
 * The server's answers fed to the client's steps: what the client ends up
 * holding after a sign-in, after loading a feed, after asking for its
 * dashboard at the mounted route, and whether an image path the server
 * stores survives the feed format.
 */
module EndToEnd {
  import opened Wrappers
  import opened Strings
  import opened Decimal
  import opened ServerHttp
  import opened ListingFeed
  import opened RecordParser
  import opened FeedRoundTrip
  import opened SigninHandshake
  import opened UploadNaming
  import opened ClientState

  /**
   * Signing in with the server's successful reply: the client's user is
   * the server's id in decimal with the typed email, that text reads back
   * as the same id, and the dashboard then loads that user's listings.
   */
  lemma SigninReplyIntoClient(s: State, userId: nat, dashboardResp: Response)
    requires Consistent(s) && s.view == SigninView
    ensures var t := Signin(s, Response(200, LoginBody(userId)), dashboardResp);
      && t.user == Some(User(FormatInt(userId), s.signinForm.email))
      && Atoi(t.user.value.id) == Some(userId)
      && t.view == DashboardView && t.tab == MyTab && SelectFetch(t) == FetchMine
  {
    var resp := Response(200, LoginBody(userId));
    SigninRoundTrip(userId);
    assert SigninId(resp) == Some(FormatInt(userId));
    SigninOutcome(s, resp, dashboardResp);
  }

  /**
   * Loading the all-listings feed the server writes: under the round trip's
   * conditions the client holds exactly the views of the listings that
   * scanned, in order, and clears the error; nothing else changes.
   */
  lemma FeedIntoClient(s: State, rows: seq<Row>)
    requires var ls := ScannedListings(rows);
      |ls| >= 1 && ls[|ls| - 1].imagePath != [] && AllSafe(ls)
    ensures FetchListings(s, Response(200, FeedText(rows, AllListings)))
      == s.(listings := ClientViews(ScannedListings(rows), AllListings), error := "")
  {
    FeedRoundTrip.FeedRoundTrip(rows, AllListings);
  }

  /** The same for the per-user feed, fetched with a user signed in. */
  lemma DashboardFeedIntoClient(s: State, rows: seq<Row>)
    requires s.user.Some?
    requires var ls := ScannedListings(rows);
      |ls| >= 1 && ls[|ls| - 1].imagePath != [] && AllSafe(ls)
    ensures FetchDashboard(s, Response(200, FeedText(rows, UserListings)))
      == s.(dashboardListings := ClientViews(ScannedListings(rows), UserListings), error := "")
  {
    FeedRoundTrip.FeedRoundTrip(rows, UserListings);
  }

  /**
   * The client asks for `/api/dashboard/<id>`, which the server answers
   * `Invalid userID` with status 400 whatever the id; the client keeps its
   * per-user listings and shows its load error.
   */
  lemma MountedDashboardIntoClient(s: State)
    requires s.user.Some?
    ensures DashboardUserId("/api/dashboard/" + s.user.value.id).None?
    ensures var reply := HttpError(400, "Invalid userID");
      FetchDashboard(s, Response(reply.status, reply.body)) == s.(error := DashboardError)
  {
    MountedDashboardRejectsAll(s.user.value.id);
  }

  /** A character the line format carries inside a field: no comma, no colon, no whitespace. */
  predicate FieldChar(c: char) {
    c != ',' && c != ':' && !IsSpace(c)
  }

  /** A text made of such characters is a field the format carries verbatim. */
  lemma FieldCharsSafe(s: string)
    requires forall i :: 0 <= i < |s| ==> FieldChar(s[i])
    ensures SafeField(s)
  {
    NoHeadNoOccurrence(s, ", ");
    NoHeadNoOccurrence(s, ": ");
  }

  /** `%d` writes only digits and `-`. */
  lemma FormatIntFieldChars(n: int)
    ensures forall i :: 0 <= i < |FormatInt(n)| ==> FieldChar(FormatInt(n)[i])
  {
    FormatIntShape(n);
    var id := FormatInt(n);
    forall i | 0 <= i < |id| ensures FieldChar(id[i]) {
      assert id[i] == '-' || IsDigit(id[i]);
    }
  }

  /**
   * The image path the server stores for an upload whose file name has no
   * comma, no colon and no whitespace but plain spaces is a field the feed
   * carries verbatim, so the client reads back the very path the file was
   * written to.
   */
  lemma UploadPathIsSafeField(userId: int, fileName: string)
    requires forall i :: 0 <= i < |fileName| ==> fileName[i] == ' ' || FieldChar(fileName[i])
    ensures UploadPath(userId, fileName) != [] && SafeField(UploadPath(userId, fileName))
  {
    var path, id, r := UploadPath(userId, fileName), FormatInt(userId), SanitizeFilename(fileName);
    UploadPathInUploads(userId, fileName);
    SanitizeChars(fileName, FieldChar);
    FormatIntFieldChars(userId);
    var element := path[8..];
    assert path == "uploads/" + element;
    forall i | 0 <= i < |path| ensures FieldChar(path[i]) {
      if i < 8 {
        assert path[i] == "uploads/"[i];
      } else if i - 8 < |id| {
        assert path[i] == id[i - 8];
      } else if i - 8 > |id| {
        assert path[i] == r[i - 8 - |id| - 1];
      }
    }
    FieldCharsSafe(path);
  }
}
