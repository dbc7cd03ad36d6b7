/** The application shell: which screen is rendered for the current screen
    id, when the navbar is shown, and the menu flag; plus how the parameters
    written by one screen reach the next. */
module App {
  import opened Common
  import opened NavigationContext
  import HomeScreen
  import RideBookingScreen
  import RideDetailsScreen

  /** The screen components `renderScreen` can return. */
  datatype View = HomeView | RideBookingView | RideDetailsView | ProfileView

  /** `renderScreen`: four ids have their own screen; every other id falls
      back to the home screen. */
  function RenderScreen(s: Screen): (v: View)
    ensures s == RideBooking <==> v == RideBookingView
    ensures s == RideDetails <==> v == RideDetailsView
    ensures s == Profile <==> v == ProfileView
    ensures v == HomeView <==> s in {Home, Driver, Rides, Payment}
  {
    match s
    case Home => HomeView
    case RideBooking => RideBookingView
    case RideDetails => RideDetailsView
    case Profile => ProfileView
    case _ => HomeView
  }

  predicate NavbarShown(s: Screen)
  {
    s == Home || s == Rides || s == Payment
  }

  /** The top padding class suffix of the main area. */
  function TopPadding(s: Screen): string
  {
    if s == Home || s == Rides || s == Payment then "16" else "0"
  }

  /** The padding leaves room for the navbar exactly when it is shown. */
  lemma PaddingFollowsNavbar(s: Screen)
    ensures TopPadding(s) == "16" <==> NavbarShown(s)
    ensures TopPadding(s) == "0" <==> !NavbarShown(s)
  {
  }

  /** The navbar only ever appears above the home screen component. */
  lemma NavbarOnlyOverHome(s: Screen)
    ensures NavbarShown(s) ==> RenderScreen(s) == HomeView
  {
  }

  /** The shell's one state cell. */
  class AppContent {
    var isMenuOpen: bool

    constructor ()
      ensures !isMenuOpen
    {
      isMenuOpen := false;
    }

    /** The navbar's `toggleMenu`. */
    method ToggleMenu()
      modifies this
      ensures isMenuOpen == !old(isMenuOpen)
    {
      isMenuOpen := !isMenuOpen;
    }
  }

  /** Two toggles restore the menu flag. */
  method ToggleTwice(app: AppContent)
    modifies app
    ensures app.isMenuOpen == old(app.isMenuOpen)
  {
    app.ToggleMenu();
    app.ToggleMenu();
  }

  /** A confirmed ride reaches the ride-details screen with exactly the
      pickup, dropoff and ride the booking screen sent. */
  lemma ConfirmReachesDetails(st: NavState, pickup: Value, dropoff: Value, option: RideOption)
    ensures var r := AfterNavigateTo(st, RideDetails, Some(RideBookingScreen.ConfirmParams(pickup, dropoff, option)));
      && RenderScreen(CurrentScreenOf(r)) == RideDetailsView
      && RideDetailsScreen.ReadDetailsParams(ScreenParamsOf(r))
         == Success(RideDetailsScreen.DetailsParams(pickup, dropoff, option))
  {
  }

  /** Booking from home reaches the booking screen, which reads back the two
      texts. */
  lemma BookReachesBooking(st: NavState, pickup: string, dropoff: string)
    ensures var r := AfterNavigateTo(st, RideBooking, Some(HomeScreen.BookParams(pickup, dropoff)));
      && RenderScreen(CurrentScreenOf(r)) == RideBookingView
      && Field(ScreenParamsOf(r), "pickup") == Text(pickup)
      && Field(ScreenParamsOf(r), "dropoff") == Text(dropoff)
  {
  }

  /** The whole flow: type both places, book, pick Economy, confirm, and let
      the status timer fire six times. */
  method BookingScenario() returns (nav: Navigator, ride: RideDetailsScreen.RideSimulation)
    ensures nav.Valid() && CurrentScreenOf(nav.State()) == RideDetails
    ensures RideDetailsScreen.ReadDetailsParams(ScreenParamsOf(nav.State())) == Success(ride.info)
    ensures ride.info.ride == RideBookingScreen.RIDE_OPTIONS[0]
    ensures ride.info.ride.name == "Economy"
    ensures ride.status == RideDetailsScreen.COMPLETED
    ensures RideDetailsScreen.Header(ride.status) == "Ride Completed"
  {
    nav := new Navigator();
    var home := new HomeScreen.HomeForm();
    home.PickupChanged("X");
    home.DropoffChanged("Y");
    home.HandleBookRide(nav);
    assert CurrentScreenOf(nav.State()) == RideBooking;
    var booking := new RideBookingScreen.Booking(nav);
    assert booking.pickup == Text("X") && booking.dropoff == Text("Y");
    booking.Select(RideBookingScreen.RIDE_OPTIONS[0]);
    booking.HandleConfirmRide(nav);
    var read := RideDetailsScreen.ReadDetailsParams(ScreenParamsOf(nav.State()));
    assert read == Success(RideDetailsScreen.DetailsParams(Text("X"), Text("Y"), RideBookingScreen.RIDE_OPTIONS[0]));
    ride := new RideDetailsScreen.RideSimulation(read.value);
    ride.StatusTick(); ride.StatusTick(); ride.StatusTick();
    ride.StatusTick(); ride.StatusTick(); ride.StatusTick();
  }

  /** A confirmed cancel renders the home screen, so the ride screen unmounts
      and its timers stop; going back renders the ride screen again, which
      mounts afresh: status 0, the driver at its start, and the same ride read
      from the parameters that survived in the store. */
  method CancelThenBackRestarts(nav: Navigator, ride: RideDetailsScreen.RideSimulation)
      returns (remounted: RideDetailsScreen.RideSimulation)
    requires nav.Valid() && CurrentScreenOf(nav.State()) == RideDetails
    requires RideDetailsScreen.ReadDetailsParams(ScreenParamsOf(nav.State())) == Success(ride.info)
    modifies nav
    ensures nav.Valid() && nav.State().history == old(nav.State().history)
    ensures RenderScreen(CurrentScreenOf(nav.State())) == RideDetailsView
    ensures fresh(remounted) && remounted != ride
    ensures remounted.Snapshot() == RideDetailsScreen.InitialSession
    ensures remounted.info == ride.info
  {
    ride.HandleCancelRide(nav, true);
    assert RenderScreen(CurrentScreenOf(nav.State())) == HomeView;
    nav.NavigateBack();
    var read := RideDetailsScreen.ReadDetailsParams(ScreenParamsOf(nav.State()));
    remounted := new RideDetailsScreen.RideSimulation(read.value);
  }
}
