/**
 * The React client's state and the rules that change it. Each handler runs
 * as one atomic step that receives the server's response as a parameter;
 * the functions here say what the state is after the step, and the
 * `ClientApp` class performs the same steps field by field.
 */
module ClientState {
  import opened Wrappers
  import opened Strings
  import opened ServerHttp
  import opened RecordParser
  import opened SigninHandshake

  /** The `view` strings; nothing ever sets `"listings"`, but the fetch rule tests for it. */
  datatype View = DashboardView | SigninView | SignupView | CreateView | ListingsView

  /** The `dashboardTab` strings `"all"` and `"my"`. */
  datatype Tab = AllTab | MyTab

  /** The signed-in user: the id captured from the sign-in reply and the email typed in the form. */
  datatype User = User(id: string, email: string)

  datatype SignupForm = SignupForm(name: string, email: string, password: string)

  datatype SigninForm = SigninForm(email: string, password: string)

  /** The create form; `image` is the chosen file (by name) and `preview` its object URL, each `null` until chosen. */
  datatype ListingForm = ListingForm(name: string, description: string, paymentPerDay: string, image: Option<string>, preview: Option<string>)

  /** What `fetch` delivers: a response with its status and text, or the error it rejects with. */
  datatype Response = Response(status: int, body: string) | NetworkError(message: string)

  /** Every `useState` field of `App`. */
  datatype State = State(
    view: View,
    tab: Tab,
    user: Option<User>,
    listings: seq<ClientListing>,
    dashboardListings: seq<ClientListing>,
    error: string,
    signupForm: SignupForm,
    signinForm: SigninForm,
    listingForm: ListingForm)

  const EmptySignupForm: SignupForm := SignupForm("", "", "")
  const EmptySigninForm: SigninForm := SigninForm("", "")
  const EmptyListingForm: ListingForm := ListingForm("", "", "", None, None)

  /** The state of the first render. */
  const Initial: State := State(DashboardView, AllTab, None, [], [], "", EmptySignupForm, EmptySigninForm, EmptyListingForm)

  const ListingsError: string := "Could not load listings."
  const DashboardError: string := "Could not load your listings."

  /**
   * The records a feed request yields, or `None` when the `try` block
   * throws: the request fails, the response is not ok, or a line does not
   * parse.
   */
  function FeedOutcome(resp: Response, p: Parser): Option<seq<ClientListing>> {
    match resp
    case NetworkError(_) => None
    case Response(status, body) =>
      if !IsOk(status) then None
      else
        match ParseFeed(body, p)
        case Ok(records) => Some(records)
        case Err(_) => None
  }

  /** `fetchListings`: the collection is replaced only when the whole feed parses. */
  function FetchListings(s: State, resp: Response): State {
    match FeedOutcome(resp, ListingsParser)
    case Some(records) => s.(listings := records, error := "")
    case None => s.(error := ListingsError)
  }

  /**
   * `fetchDashboardListings` as run by a closure that sees the user `seen`:
   * with no user it returns before touching anything.
   */
  function FetchDashboardAs(seen: Option<User>, s: State, resp: Response): State {
    if seen.None? then s
    else
      match FeedOutcome(resp, DashboardParser)
      case Some(records) => s.(dashboardListings := records, error := "")
      case None => s.(error := DashboardError)
  }

  /** `fetchDashboardListings` run with the current user. */
  function FetchDashboard(s: State, resp: Response): State {
    FetchDashboardAs(s.user, s, resp)
  }

  /** The message a handler shows when its request fails: the rejection's message, or `errText || fallback`. */
  function FailureMessage(resp: Response, fallback: string): string
    requires resp.NetworkError? || !IsOk(resp.status)
  {
    match resp
    case NetworkError(message) => message
    case Response(_, body) => if body == [] then fallback else body
  }

  /** `handleSignup`. */
  function Signup(s: State, resp: Response): State {
    if resp.NetworkError? || !IsOk(resp.status) then s.(error := FailureMessage(resp, "Signup failed"))
    else s.(view := SigninView, signupForm := EmptySignupForm, error := "")
  }

  /** The id `handleSignin` takes from a response: `idMatch[1]` of an ok response. */
  function SigninId(resp: Response): Option<string> {
    if resp.Response? && IsOk(resp.status) then MatchUserId(resp.body) else None
  }

  /** The setters `handleSignin` calls, in the order it calls them. */
  function SigninUpdate(s: State, resp: Response): State {
    if resp.NetworkError? || !IsOk(resp.status) then s.(error := FailureMessage(resp, "Signin failed"))
    else
      match MatchUserId(resp.body)
      case None => s.(error := "Invalid login response")
      case Some(id) =>
        s.(user := Some(User(id, s.signinForm.email)), signinForm := EmptySigninForm,
           view := DashboardView, tab := MyTab, error := "")
  }

  /**
   * `handleSignin`: the setters, then its own `fetchDashboardListings()`,
   * which belongs to the render the handler came from and so sees that
   * render's user, not the one just set. `dashboardResp` is what that fetch
   * would receive.
   */
  function Signin(s: State, resp: Response, dashboardResp: Response): State {
    var t := SigninUpdate(s, resp);
    if SigninId(resp).Some? then FetchDashboardAs(s.user, t, dashboardResp) else t
  }

  /** `handleCreateListing` sends its request only with a user and an image. */
  predicate CreateSent(s: State) {
    s.user.Some? && s.listingForm.image.Some?
  }

  /** The request was sent and answered ok. */
  predicate CreateAccepted(s: State, resp: Response) {
    CreateSent(s) && resp.Response? && IsOk(resp.status)
  }

  /** The setters `handleCreateListing` calls. */
  function CreateUpdate(s: State, resp: Response): State {
    if s.user.None? then s.(error := "You must be logged in to create listing")
    else if s.listingForm.image.None? then s.(error := "Please select an image")
    else if resp.NetworkError? || !IsOk(resp.status) then s.(error := FailureMessage(resp, "Create listing failed"))
    else s.(listingForm := EmptyListingForm, view := DashboardView, tab := MyTab, error := "")
  }

  /** `handleCreateListing`: the setters, then on success its own fetch of the user's listings. */
  function Create(s: State, resp: Response, dashboardResp: Response): State {
    var t := CreateUpdate(s, resp);
    if CreateAccepted(s, resp) then FetchDashboardAs(s.user, t, dashboardResp) else t
  }

  /** `handleSignout`: the error and the forms are not touched. */
  function Signout(s: State): State {
    s.(user := None, view := DashboardView, tab := AllTab, listings := [], dashboardListings := [])
  }

  /** The dashboard's buttons other than Sign Out. */
  datatype Button = AllListingsButton | MyListingsButton | SignInButton | SignUpButton | CreateListingButton

  /** A button is on screen: all of them are on the dashboard, and which depends on whether a user is signed in. */
  predicate Shown(s: State, b: Button) {
    s.view == DashboardView &&
    match b
    case AllListingsButton => true
    case MyListingsButton => s.user.Some?
    case SignInButton => s.user.None?
    case SignUpButton => s.user.None?
    case CreateListingButton => s.user.Some?
  }

  /** The `onClick` of a button: one setter each. */
  function Press(s: State, b: Button): State
    requires Shown(s, b)
  {
    match b
    case AllListingsButton => s.(tab := AllTab)
    case MyListingsButton => s.(tab := MyTab)
    case SignInButton => s.(view := SigninView)
    case SignUpButton => s.(view := SignupView)
    case CreateListingButton => s.(view := CreateView)
  }

  /** What the `useEffect` fetches. */
  datatype Fetch = FetchAll | FetchMine | NoFetch

  /** The fetch-selection rule of the `useEffect`. */
  function SelectFetch(s: State): Fetch {
    if s.view == ListingsView then FetchAll
    else if s.view == DashboardView then
      if s.tab == AllTab then FetchAll
      else if s.user.Some? then FetchMine
      else NoFetch
    else NoFetch
  }

  /** The effect runs again when one of its dependencies `view`, `user`, `dashboardTab` changed. */
  predicate EffectFires(before: State, after: State) {
    before.view != after.view || before.user != after.user || before.tab != after.tab
  }

  /** One run of the effect, given the response to the fetch it starts. */
  function RunEffect(s: State, resp: Response): State {
    match SelectFetch(s)
    case FetchAll => FetchListings(s, resp)
    case FetchMine => FetchDashboard(s, resp)
    case NoFetch => s
  }

  /**
   * What every state the user can reach satisfies: the `"listings"` view
   * never occurs, the sign-in and sign-up forms are shown only without a
   * user, and the create form only with one.
   */
  predicate Consistent(s: State) {
    && s.view != ListingsView
    && (s.view == SigninView || s.view == SignupView ==> s.user.None?)
    && (s.view == CreateView ==> s.user.Some?)
  }

  /** The first render is consistent and its effect loads all listings. */
  lemma InitialState()
    ensures Consistent(Initial) && SelectFetch(Initial) == FetchAll
  {
  }

  /** The fetches and the effect change neither the view, nor the tab, nor the user, so they keep the state consistent. */
  lemma FetchesKeepConsistent(s: State, resp: Response)
    requires Consistent(s)
    ensures Consistent(FetchListings(s, resp)) && Consistent(FetchDashboard(s, resp))
    ensures Consistent(RunEffect(s, resp))
  {
    FetchOutcome(s, resp);
  }

  /** Each form's handler, run on the view that shows the form, keeps the state consistent. */
  lemma HandlersKeepConsistent(s: State, resp: Response, dashboardResp: Response)
    requires Consistent(s)
    ensures s.view == SignupView ==> Consistent(Signup(s, resp))
    ensures s.view == SigninView ==> Consistent(Signin(s, resp, dashboardResp))
    ensures s.view == CreateView ==> Consistent(Create(s, resp, dashboardResp))
    ensures Consistent(Signout(s))
  {
  }

  /** Pressing a button that is on screen keeps the state consistent. */
  lemma PressKeepsConsistent(s: State, b: Button)
    requires Consistent(s) && Shown(s, b)
    ensures Consistent(Press(s, b))
  {
  }

  /**
   * In a reachable state the rule fetches all listings exactly on the
   * dashboard's "all" tab and the user's listings exactly on its "my" tab
   * with a user; every other state fetches nothing.
   */
  lemma SelectFetchCases(s: State)
    requires Consistent(s)
    ensures SelectFetch(s) == FetchAll <==> s.view == DashboardView && s.tab == AllTab
    ensures SelectFetch(s) == FetchMine <==> s.view == DashboardView && s.tab == MyTab && s.user.Some?
    ensures SelectFetch(s) == NoFetch <==> s.view != DashboardView || (s.tab == MyTab && s.user.None?)
  {
  }

  /**
   * A feed fetch changes only its own collection and the error: the
   * collection is replaced, and the error cleared, exactly when the request
   * succeeds and every line parses; otherwise the collection is kept and
   * the error is the fetch's message.
   */
  lemma FetchOutcome(s: State, resp: Response)
    ensures var t := FetchListings(s, resp);
      && t == s.(listings := t.listings, error := t.error)
      && (t.error == "" <==> FeedOutcome(resp, ListingsParser).Some?)
      && (t.error == "" ==> t.listings == FeedOutcome(resp, ListingsParser).value)
      && (t.error != "" ==> t.listings == s.listings && t.error == ListingsError)
    ensures var t := FetchDashboard(s, resp);
      && t == s.(dashboardListings := t.dashboardListings, error := t.error)
      && (s.user.Some? && FeedOutcome(resp, DashboardParser).Some? ==>
            t.dashboardListings == FeedOutcome(resp, DashboardParser).value && t.error == "")
      && (s.user.Some? && FeedOutcome(resp, DashboardParser).None? ==>
            t.dashboardListings == s.dashboardListings && t.error == DashboardError)
  {
  }

  /** A feed request succeeds exactly when it is answered ok and its body parses. */
  lemma FeedOutcomeCases(resp: Response, p: Parser)
    ensures FeedOutcome(resp, p).Some? <==>
      resp.Response? && IsOk(resp.status) && ParseFeed(resp.body, p).Ok?
    ensures FeedOutcome(resp, p).Some? ==> FeedOutcome(resp, p).value == ParseFeed(resp.body, p).value
  {
  }

  /**
   * An ok response with a blank body makes the parse throw: the
   * collection is kept and the error set.
   */
  lemma BlankFeedKeepsListings(s: State, status: int, body: string)
    requires IsOk(status) && forall i :: 0 <= i < |body| ==> IsSpace(body[i])
    ensures FetchListings(s, Response(status, body)) == s.(error := ListingsError)
    ensures s.user.Some? ==> FetchDashboard(s, Response(status, body)) == s.(error := DashboardError)
  {
    EmptyBodyRejected(body, ListingsParser);
    EmptyBodyRejected(body, DashboardParser);
  }

  /** Fetching twice with the same response is fetching once. */
  lemma FetchIdempotent(s: State, resp: Response)
    ensures FetchListings(FetchListings(s, resp), resp) == FetchListings(s, resp)
    ensures FetchDashboard(FetchDashboard(s, resp), resp) == FetchDashboard(s, resp)
  {
  }

  /** Without a user the per-user fetch does nothing at all, whatever the response. */
  lemma FetchDashboardSignedOut(s: State, resp: Response)
    requires s.user.None?
    ensures FetchDashboard(s, resp) == s
  {
  }

  /**
   * `handleSignup`: a failed request sets the error to the server's text,
   * or "Signup failed" for an empty one, and changes nothing else; an ok
   * answer moves to the sign-in form and clears the sign-up form.
   */
  lemma SignupOutcome(s: State, resp: Response)
    ensures resp.Response? && !IsOk(resp.status) ==>
      Signup(s, resp) == s.(error := if resp.body == [] then "Signup failed" else resp.body)
    ensures resp.NetworkError? ==> Signup(s, resp) == s.(error := resp.message)
    ensures resp.Response? && IsOk(resp.status) ==>
      Signup(s, resp) == s.(view := SigninView, signupForm := EmptySignupForm, error := "")
  {
  }

  /**
   * `handleSignin` from the sign-in form: a user is set exactly when the
   * response is ok and carries `UserID:` and digits. Then the user has that
   * id and the typed email, the form is cleared and the dashboard opens on
   * "my"; the handler's own dashboard fetch sees no user and does nothing.
   * Otherwise only the error changes: the server's text or "Signin failed"
   * for a failed request, "Invalid login response" for an ok one.
   */
  lemma SigninOutcome(s: State, resp: Response, dashboardResp: Response)
    requires Consistent(s) && s.view == SigninView
    ensures var t := Signin(s, resp, dashboardResp);
      && (t.user.Some? <==> SigninId(resp).Some?)
      && (SigninId(resp).Some? ==>
            t == s.(user := Some(User(SigninId(resp).value, s.signinForm.email)), signinForm := EmptySigninForm,
                    view := DashboardView, tab := MyTab, error := ""))
      && (resp.Response? && !IsOk(resp.status) ==>
            t == s.(error := if resp.body == [] then "Signin failed" else resp.body))
      && (resp.NetworkError? ==> t == s.(error := resp.message))
      && (resp.Response? && IsOk(resp.status) && SigninId(resp).None? ==>
            t == s.(error := "Invalid login response"))
  {
  }

  /** The id a signed-in user gets is a non-empty run of decimal digits. */
  lemma SigninIdDigits(resp: Response)
    ensures SigninId(resp).Some? ==> Decimal.AllDigits(SigninId(resp).value)
  {
    if resp.Response? && IsOk(resp.status) {
      MatchUserIdDigits(resp.body);
    }
  }

  /**
   * After a successful sign-in from the sign-in form the effect runs again
   * and loads the user's listings: the one dashboard fetch that happens.
   */
  lemma SigninThenFetchMine(s: State, resp: Response, dashboardResp: Response)
    requires Consistent(s) && s.view == SigninView && SigninId(resp).Some?
    ensures var t := Signin(s, resp, dashboardResp);
      EffectFires(s, t) && SelectFetch(t) == FetchMine
  {
  }

  /**
   * `handleCreateListing` checks the user, then the image, before any
   * request: when either is missing the response plays no part, only the
   * error changes, and the user check wins.
   */
  lemma CreateGuards(s: State, resp1: Response, resp2: Response, d1: Response, d2: Response)
    requires !CreateSent(s)
    ensures Create(s, resp1, d1) == Create(s, resp2, d2)
    ensures s.user.None? ==> Create(s, resp1, d1) == s.(error := "You must be logged in to create listing")
    ensures s.user.Some? ==> Create(s, resp1, d1) == s.(error := "Please select an image")
  {
  }

  /**
   * A sent request that fails changes only the error: the server's text,
   * or "Create listing failed" for an empty one.
   */
  lemma CreateRejected(s: State, resp: Response, dashboardResp: Response)
    requires CreateSent(s) && !CreateAccepted(s, resp)
    ensures Create(s, resp, dashboardResp) == s.(error := FailureMessage(resp, "Create listing failed"))
  {
  }

  /**
   * An accepted listing resets the form (image and preview included), opens
   * the dashboard on "my" and keeps the user; apart from that the handler's
   * own fetch of the user's listings is the only change. From the create
   * form the effect then runs as well and fetches the user's listings again.
   */
  lemma CreateSucceeds(s: State, resp: Response, dashboardResp: Response)
    requires CreateAccepted(s, resp)
    ensures var u := s.(listingForm := EmptyListingForm, view := DashboardView, tab := MyTab, error := "");
      Create(s, resp, dashboardResp) == FetchDashboard(u, dashboardResp)
    ensures var t := Create(s, resp, dashboardResp);
      && t.user == s.user && t.listingForm == EmptyListingForm && t.view == DashboardView && t.tab == MyTab
      && SelectFetch(t) == FetchMine
      && (s.view == CreateView ==> EffectFires(s, t))
  {
  }

  /**
   * Sign-out forgets the user and both collections and opens the
   * dashboard on "all", whatever the state was: two states that agree on
   * the error and the forms sign out to the same state.
   */
  lemma SignoutForgets(s1: State, s2: State)
    requires s1.error == s2.error && s1.signupForm == s2.signupForm
    requires s1.signinForm == s2.signinForm && s1.listingForm == s2.listingForm
    ensures Signout(s1) == Signout(s2)
    ensures Signout(s1).user.None? && Signout(s1).listings == [] && Signout(s1).dashboardListings == []
    ensures Signout(s1).view == DashboardView && Signout(s1).tab == AllTab
  {
  }

  /** Signing out twice is signing out once. */
  lemma SignoutIdempotent(s: State)
    ensures Signout(Signout(s)) == Signout(s)
  {
  }

  /** After signing a user out the effect runs again and loads all listings. */
  lemma SignoutThenFetchAll(s: State)
    requires s.user.Some?
    ensures EffectFires(s, Signout(s)) && SelectFetch(Signout(s)) == FetchAll
  {
  }
}
