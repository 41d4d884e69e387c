/**
 * The `App` component as an object: one field per `useState` and one
 * method per handler, each setter an assignment. A method takes the
 * response its request would receive, and its new state is the state the
 * matching `ClientState` step gives, so every property proved about the
 * steps holds for the object.
 */
module ClientApp {
  import opened Wrappers
  import opened ServerHttp
  import opened RecordParser
  import opened SigninHandshake
  import opened ClientState

  class App {
    var view: View
    var tab: Tab
    var user: Option<User>
    var listings: seq<ClientListing>
    var dashboardListings: seq<ClientListing>
    var error: string
    var signupForm: SignupForm
    var signinForm: SigninForm
    var listingForm: ListingForm

    /** The fields as one value. */
    function Snapshot(): State
      reads this
    {
      State(view, tab, user, listings, dashboardListings, error, signupForm, signinForm, listingForm)
    }

    /** The `useState` initial values. */
    constructor()
      ensures Snapshot() == Initial
    {
      view := DashboardView;
      tab := AllTab;
      user := None;
      listings := [];
      dashboardListings := [];
      error := "";
      signupForm := EmptySignupForm;
      signinForm := EmptySigninForm;
      listingForm := EmptyListingForm;
    }

    /** `fetchListings`, receiving `resp` for its request. */
    method FetchListings(resp: Response)
      modifies this
      ensures Snapshot() == ClientState.FetchListings(old(Snapshot()), resp)
    {
      error := "";
      if resp.NetworkError? || !IsOk(resp.status) {
        error := ListingsError;
        return;
      }
      var parsed := ParseFeed(resp.body, ListingsParser);
      if parsed.Err? {
        error := ListingsError;
        return;
      }
      listings := parsed.value;
    }

    /** `fetchDashboardListings` as seen by a closure whose `user` is `seen`. */
    method FetchDashboardFor(seen: Option<User>, resp: Response)
      modifies this
      ensures Snapshot() == FetchDashboardAs(seen, old(Snapshot()), resp)
    {
      if seen.None? {
        return;
      }
      error := "";
      if resp.NetworkError? || !IsOk(resp.status) {
        error := DashboardError;
        return;
      }
      var parsed := ParseFeed(resp.body, DashboardParser);
      if parsed.Err? {
        error := DashboardError;
        return;
      }
      dashboardListings := parsed.value;
    }

    /** `fetchDashboardListings` with the current user. */
    method FetchDashboardListings(resp: Response)
      modifies this
      ensures Snapshot() == FetchDashboard(old(Snapshot()), resp)
    {
      FetchDashboardFor(user, resp);
    }

    /** `handleSignup`. */
    method HandleSignup(resp: Response)
      modifies this
      ensures Snapshot() == Signup(old(Snapshot()), resp)
    {
      error := "";
      if resp.NetworkError? || !IsOk(resp.status) {
        error := FailureMessage(resp, "Signup failed");
        return;
      }
      view := SigninView;
      signupForm := EmptySignupForm;
    }

    /** `handleSignin`; `dashboardResp` is what its own dashboard fetch would receive. */
    method HandleSignin(resp: Response, dashboardResp: Response)
      modifies this
      ensures Snapshot() == Signin(old(Snapshot()), resp, dashboardResp)
    {
      var seen := user;
      error := "";
      if resp.NetworkError? || !IsOk(resp.status) {
        error := FailureMessage(resp, "Signin failed");
        return;
      }
      var idMatch := MatchUserId(resp.body);
      if idMatch.None? {
        error := "Invalid login response";
        return;
      }
      user := Some(User(idMatch.value, signinForm.email));
      signinForm := EmptySigninForm;
      view := DashboardView;
      tab := MyTab;
      FetchDashboardFor(seen, dashboardResp);
    }

    /**
     * `handleCreateListing`; `sent` tells whether the guards let the request
     * go out, and `dashboardResp` is what the fetch after an accepted
     * listing would receive.
     */
    method HandleCreateListing(resp: Response, dashboardResp: Response) returns (sent: bool)
      modifies this
      ensures sent <==> CreateSent(old(Snapshot()))
      ensures Snapshot() == Create(old(Snapshot()), resp, dashboardResp)
    {
      error := "";
      if user.None? {
        error := "You must be logged in to create listing";
        return false;
      }
      if listingForm.image.None? {
        error := "Please select an image";
        return false;
      }
      sent := true;
      if resp.NetworkError? || !IsOk(resp.status) {
        error := FailureMessage(resp, "Create listing failed");
        return;
      }
      listingForm := EmptyListingForm;
      view := DashboardView;
      tab := MyTab;
      FetchDashboardFor(user, dashboardResp);
    }

    /** `handleSignout`. */
    method HandleSignout()
      modifies this
      ensures Snapshot() == Signout(old(Snapshot()))
    {
      user := None;
      view := DashboardView;
      tab := AllTab;
      listings := [];
      dashboardListings := [];
    }

    /** A dashboard button's `onClick`. */
    method Click(b: Button)
      requires Shown(Snapshot(), b)
      modifies this
      ensures Snapshot() == Press(old(Snapshot()), b)
    {
      match b
      case AllListingsButton => tab := AllTab;
      case MyListingsButton => tab := MyTab;
      case SignInButton => view := SigninView;
      case SignUpButton => view := SignupView;
      case CreateListingButton => view := CreateView;
    }

    /** The `useEffect` body; `resp` is what the fetch it starts receives. */
    method Effect(resp: Response)
      modifies this
      ensures Snapshot() == RunEffect(old(Snapshot()), resp)
    {
      if view == ListingsView {
        FetchListings(resp);
      }
      if view == DashboardView {
        if tab == AllTab {
          FetchListings(resp);
        } else if tab == MyTab && user.Some? {
          FetchDashboardListings(resp);
        }
      }
    }
  }
}
