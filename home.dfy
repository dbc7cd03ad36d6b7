/** The home screen: pickup and dropoff text with their optional map
    locations, the rules that fill and clear them, and the booking guard. */
module HomeScreen {
  import opened Common
  import opened NavigationContext

  /** The suggestions both location inputs are given. */
  const LOCATION_SUGGESTIONS: seq<string> := [
    "123 Main St, New York, NY",
    "456 Broadway, New York, NY",
    "Grand Central Terminal, New York, NY",
    "Times Square, New York, NY",
    "Central Park, New York, NY",
    "Empire State Building, New York, NY",
    "Brooklyn Bridge, New York, NY",
    "JFK Airport, Queens, NY",
    "LaGuardia Airport, Queens, NY"
  ]

  /** The "Home" recent location (40.7128, -74.006). */
  const HOME_LOCATION: Location := Location(407128, -740060, "Home")

  /** The "Work" recent location (40.7328, -73.996). */
  const WORK_LOCATION: Location := Location(407328, -739960, "Work")

  /** The "Book a Ride" button's `disabled` flag: an empty string is falsy. */
  predicate BookDisabled(pickup: string, dropoff: string)
  {
    pickup == "" || dropoff == ""
  }

  /** The parameters booking writes for `ride-booking`. */
  function BookParams(pickup: string, dropoff: string): Params
  {
    map["pickup" := Text(pickup), "dropoff" := Text(dropoff)]
  }

  /** The screen's four state cells. */
  class HomeForm {
    var pickup: string
    var dropoff: string
    var pickupLocation: Option<Location>
    var dropoffLocation: Option<Location>

    constructor ()
      ensures pickup == "" && dropoff == ""
      ensures pickupLocation == None && dropoffLocation == None
    {
      pickup, dropoff := "", "";
      pickupLocation, dropoffLocation := None, None;
    }

    /** `handleBookRide`: navigates with exactly the two texts when both are
        non-empty, which is when the button is enabled. */
    method HandleBookRide(nav: Navigator)
      requires nav.Valid()
      modifies nav
      ensures nav.Valid()
      ensures nav.State() == if !BookDisabled(pickup, dropoff)
                             then AfterNavigateTo(old(nav.State()), RideBooking, Some(BookParams(pickup, dropoff)))
                             else old(nav.State())
    {
      if pickup != "" && dropoff != "" {
        nav.NavigateTo(RideBooking, Some(BookParams(pickup, dropoff)));
      }
    }

    /** `handleMapClick`: fills the pickup if it is empty, else the dropoff if
        that is empty, else nothing. */
    method HandleMapClick(loc: Location)
      modifies this
      ensures old(pickup) == "" ==>
        pickup == loc.address && pickupLocation == Some(loc) &&
        dropoff == old(dropoff) && dropoffLocation == old(dropoffLocation)
      ensures old(pickup) != "" && old(dropoff) == "" ==>
        dropoff == loc.address && dropoffLocation == Some(loc) &&
        pickup == old(pickup) && pickupLocation == old(pickupLocation)
      ensures old(pickup) != "" && old(dropoff) != "" ==>
        pickup == old(pickup) && pickupLocation == old(pickupLocation) &&
        dropoff == old(dropoff) && dropoffLocation == old(dropoffLocation)
    {
      if pickup == "" {
        pickup := loc.address;
        pickupLocation := Some(loc);
      } else if dropoff == "" {
        dropoff := loc.address;
        dropoffLocation := Some(loc);
      }
    }

    /** The pickup input's `onChange`: the location is dropped only when the
        new text is empty. */
    method PickupChanged(value: string)
      modifies this`pickup, this`pickupLocation
      ensures pickup == value
      ensures pickupLocation == if value == "" then None else old(pickupLocation)
    {
      pickup := value;
      if value == "" {
        pickupLocation := None;
      }
    }

    /** The pickup input's `onClear`. */
    method PickupCleared()
      modifies this`pickup, this`pickupLocation
      ensures pickup == "" && pickupLocation == None
    {
      pickup := "";
      pickupLocation := None;
    }

    /** The dropoff input's `onChange`. */
    method DropoffChanged(value: string)
      modifies this`dropoff, this`dropoffLocation
      ensures dropoff == value
      ensures dropoffLocation == if value == "" then None else old(dropoffLocation)
    {
      dropoff := value;
      if value == "" {
        dropoffLocation := None;
      }
    }

    /** The dropoff input's `onClear`. */
    method DropoffCleared()
      modifies this`dropoff, this`dropoffLocation
      ensures dropoff == "" && dropoffLocation == None
    {
      dropoff := "";
      dropoffLocation := None;
    }

    /** The "Home" recent entry: overwrites the pickup whatever it held. */
    method ChooseHome()
      modifies this`pickup, this`pickupLocation
      ensures pickup == "Home" && pickupLocation == Some(HOME_LOCATION)
    {
      pickup := "Home";
      pickupLocation := Some(HOME_LOCATION);
    }

    /** The "Work" recent entry: overwrites the pickup whatever it held. */
    method ChooseWork()
      modifies this`pickup, this`pickupLocation
      ensures pickup == "Work" && pickupLocation == Some(WORK_LOCATION)
    {
      pickup := "Work";
      pickupLocation := Some(WORK_LOCATION);
    }
  }

  /** What booking writes is what the booking screen reads back once it is the
      current screen. */
  lemma BookParamsReadBack(st: NavState, pickup: string, dropoff: string)
    ensures var r := AfterNavigateTo(st, RideBooking, Some(BookParams(pickup, dropoff)));
      && CurrentScreenOf(r) == RideBooking
      && Field(ScreenParamsOf(r), "pickup") == Text(pickup)
      && Field(ScreenParamsOf(r), "dropoff") == Text(dropoff)
  {
  }
}
