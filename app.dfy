/**
 * The app's root: a splash screen while the login status is checked, then a
 * stack navigator whose initial route is Home when a truthy value is stored
 * under `'authToken'` and Login otherwise.
 */
module App {
  import opened Js
  import opened Session
  import opened Api
  import opened Platform
  import Login
  import Register
  import Home
  import EditRoom

  /** What the root component renders. */
  datatype View = Splash | Navigator(initialRoute: string)

  /** The names the stack navigator registers a screen under. */
  const Routes: set<string> := {"Login", "Home", "ProfileUpdate", "HotelScreen", "RoomScreen",
    "RegisterScreen", "BookingScreen", "RoomListScreen", "EditRoomScreen"}

  /** The route a navigation action leads to, if it names one. */
  function Target(a: NavAction): (r: Option<string>)
    ensures a.Navigate? ==> r == Some(a.route)
    ensures a.Replace? ==> r == Some(a.route)
    ensures a.GoBack? ==> r == None
  {
    match a
    case Navigate(route, _) => Some(route)
    case Replace(route) => Some(route)
    case GoBack => None
  }

  /** Every event of `es` that navigates to a named route names a registered one. */
  predicate NavigatesWithinRoutes(es: seq<Event>) {
    forall i :: 0 <= i < |es| && es[i].Navigated? && Target(es[i].action).Some? ==> Target(es[i].action).value in Routes
  }

  /** Both initial routes are registered screens. */
  lemma StartupRouteRegistered(s: Storage)
    ensures StartupRoute(s) in Routes
  {
    var r := StartupRoute(s);
    assert r == "Home" || r == "Login";
  }

  /**
   * Every route a handler navigates to is registered: Home after a granted
   * login or registration, Login after logout, the edit screen's
   * `goBack` (which names none), and the fixed targets of the buttons —
   * `navigateToRegister`, `navigateToLogin`, `navigateToProfileUpdate`,
   * `navigateToHotelScreen` and the room list's `handleEdit`.
   */
  lemma {:induction false} NavigationTargetsRegistered(reply: SessionReply, o: Outcome, room: Room)
    ensures NavigatesWithinRoutes(Login.ReplyEvents(reply))
    ensures NavigatesWithinRoutes(Register.ReplyEvents(reply))
    ensures NavigatesWithinRoutes(Home.LogoutEvents())
    ensures NavigatesWithinRoutes(EditRoom.UpdateReplyEvents(o))
    ensures NavigatesWithinRoutes([Navigated(Navigate("RegisterScreen", None)), Navigated(Navigate("Login", None)),
      Navigated(Navigate("ProfileUpdate", None)), Navigated(Navigate("HotelScreen", None)),
      Navigated(Navigate("EditRoomScreen", Some(room)))])
  {
    assert "Home" in Routes && "Login" in Routes;
    var logout := Home.LogoutEvents();
    assert logout[2].action == Replace("Login");
    assert !logout[0].Navigated? && !logout[1].Navigated?;
  }

  class AppRoot {
    var isLoggedIn: bool
    var loading: bool

    constructor ()
      ensures !isLoggedIn && loading
    {
      isLoggedIn := false;
      loading := true;
    }

    /** The component's output: the splash while loading, the navigator after. */
    function Render(): (v: View)
      reads this
      ensures v.Splash? <==> loading
      ensures v.Navigator? ==> (v.initialRoute == "Home" <==> isLoggedIn)
      ensures v.Navigator? ==> v.initialRoute in Routes
    {
      if loading then Splash else Navigator(if isLoggedIn then "Home" else "Login")
    }

    /**
     * checkLoginStatus: a truthy `'authToken'` sets `isLoggedIn` (a falsy one
     * leaves it as it was); loading ends either way.
     */
    method CheckLoginStatus(dev: Device)
      modifies this
      ensures isLoggedIn == (old(isLoggedIn) || LoggedInAtStartup(dev.storage))
      ensures !loading
    {
      var token := dev.GetItem(AuthTokenKey);
      if StoredTruthy(token) {
        isLoggedIn := true;
      }
      loading := false;
    }
  }

  /** Mounting the root and running its effect shows the navigator on the route the store decides. */
  method Launch(dev: Device) returns (app: AppRoot)
    ensures fresh(app)
    ensures app.Render() == Navigator(StartupRoute(dev.storage))
  {
    app := new AppRoot();
    assert app.Render() == Splash;
    app.CheckLoginStatus(dev);
  }
}
