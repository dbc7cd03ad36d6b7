/** The ride-details screen: a status index stepped by a timer through the six
    ride statuses, a driver position stepped by a second timer while the
    driver has not yet arrived, and what the screen offers at each status. */
module RideDetailsScreen {
  import opened Common
  import opened NavigationContext

  datatype RideStatus = RideStatus(id: string, caption: string)

  /** The ride statuses in the order the timer steps through them. */
  const RIDE_STATUSES: seq<RideStatus> := [
    RideStatus("confirmed", "Ride Confirmed"),
    RideStatus("driver-assigned", "Driver Assigned"),
    RideStatus("arriving", "Driver Arriving"),
    RideStatus("arrived", "Driver Arrived"),
    RideStatus("in-progress", "Ride in Progress"),
    RideStatus("completed", "Ride Completed")
  ]

  /** The index of the last status, `RIDE_STATUSES.length - 1`. */
  const COMPLETED: nat := |RIDE_STATUSES| - 1

  /** The index of "Driver Arrived": movement, the driver marker and the
      cancel action stop here. */
  const ARRIVED: nat := 3

  /** The per-tick movement of the driver, 0.002 degrees. */
  const DELTA: int := 20

  /** The driver's position when the screen is mounted (40.7048, -74.016). */
  const DRIVER_START: Location := Location(407048, -740160, "Approaching pickup location")

  /** The two state cells of the screen. */
  datatype Session = Session(status: nat, driver: Location)

  const InitialSession: Session := Session(0, DRIVER_START)

  /** A location moved `n` times by the fixed delta on both axes. */
  function Shifted(loc: Location, n: nat): Location
  {
    loc.(lat := loc.lat + n * DELTA, lng := loc.lng + n * DELTA)
  }

  /** One firing of the status timer: the index moves up by one until the
      last status, where the timer is no longer armed. */
  function StatusTicked(s: Session): (r: Session)
    ensures r.driver == s.driver
    ensures s.status < COMPLETED ==> r.status == s.status + 1
    ensures s.status >= COMPLETED ==> r == s
  {
    if s.status < COMPLETED then s.(status := s.status + 1) else s
  }

  /** One firing of the position interval, which only runs before the driver
      has arrived; the address label is kept. */
  function PositionTicked(s: Session): (r: Session)
    ensures r.status == s.status
    ensures s.status < ARRIVED ==> r.driver == Shifted(s.driver, 1)
    ensures s.status >= ARRIVED ==> r == s
  {
    if s.status < ARRIVED then
      s.(driver := s.driver.(lat := s.driver.lat + DELTA, lng := s.driver.lng + DELTA))
    else s
  }

  datatype Tick = StatusTick | PositionTick

  function Step(s: Session, t: Tick): Session
  {
    match t
    case StatusTick => StatusTicked(s)
    case PositionTick => PositionTicked(s)
  }

  /** The session after the timers fire in the order `ticks`. */
  function Replay(s: Session, ticks: seq<Tick>): Session
    decreases |ticks|
  {
    if ticks == [] then s else Replay(Step(s, ticks[0]), ticks[1..])
  }

  /** How many status ticks `ticks` holds. */
  function StatusTicks(ticks: seq<Tick>): nat
    decreases |ticks|
  {
    if ticks == [] then 0
    else (if ticks[0] == StatusTick then 1 else 0) + StatusTicks(ticks[1..])
  }

  /** How many position ticks of `ticks` fire while the status, starting at
      `status`, is still below "Driver Arrived". */
  function Moves(status: nat, ticks: seq<Tick>): nat
    decreases |ticks|
  {
    if ticks == [] then 0
    else match ticks[0]
      case StatusTick => Moves(if status < COMPLETED then status + 1 else status, ticks[1..])
      case PositionTick => (if status < ARRIVED then 1 else 0) + Moves(status, ticks[1..])
  }

  function Min(a: int, b: int): int
  {
    if a <= b then a else b
  }

  /** The status after any interleaving of ticks is the start plus the number
      of status ticks, capped at the last status; so it never decreases and
      never leaves 0..5. */
  lemma {:induction false} ReplayStatus(s: Session, ticks: seq<Tick>)
    requires s.status <= COMPLETED
    ensures Replay(s, ticks).status == Min(s.status + StatusTicks(ticks), COMPLETED)
    ensures s.status <= Replay(s, ticks).status <= COMPLETED
    decreases |ticks|
  {
    if ticks != [] {
      ReplayStatus(Step(s, ticks[0]), ticks[1..]);
    }
  }

  /** The driver has moved by exactly one delta per position tick that fired
      before arrival, and its address label is unchanged. */
  lemma {:induction false} ReplayDriver(s: Session, ticks: seq<Tick>)
    ensures Replay(s, ticks).driver == Shifted(s.driver, Moves(s.status, ticks))
    decreases |ticks|
  {
    if ticks != [] {
      var next := Step(s, ticks[0]);
      ReplayDriver(next, ticks[1..]);
      var m := Moves(next.status, ticks[1..]);
      if ticks[0] == PositionTick && s.status < ARRIVED {
        assert Shifted(next.driver, m) == Shifted(s.driver, m + 1);
      }
    }
  }

  /** Once the driver has arrived no tick fires that moves it. */
  lemma {:induction false} NoMovesAfterArrival(status: nat, ticks: seq<Tick>)
    requires status >= ARRIVED
    ensures Moves(status, ticks) == 0
    decreases |ticks|
  {
    if ticks != [] {
      match ticks[0]
      case StatusTick =>
        NoMovesAfterArrival(if status < COMPLETED then status + 1 else status, ticks[1..]);
      case PositionTick =>
        NoMovesAfterArrival(status, ticks[1..]);
    }
  }

  /** From "Driver Arrived" on, the driver position never changes. */
  lemma NoMovementAfterArrival(s: Session, ticks: seq<Tick>)
    requires s.status >= ARRIVED
    ensures Replay(s, ticks).driver == s.driver
  {
    ReplayDriver(s, ticks);
    NoMovesAfterArrival(s.status, ticks);
  }

  /** `n` position ticks from the start, before any status tick, move the
      driver by `n` deltas. */
  lemma {:induction false} PositionTicksFromStart(s: Session, n: nat)
    requires s.status < ARRIVED
    ensures Replay(s, seq(n, _ => PositionTick)) == s.(driver := Shifted(s.driver, n))
    decreases n
  {
    if n > 0 {
      var ticks := seq(n, _ => PositionTick);
      assert ticks[1..] == seq(n - 1, _ => PositionTick);
      PositionTicksFromStart(PositionTicked(s), n - 1);
    }
  }

  /** Five status ticks from mounting reach "Ride Completed"; further ticks
      leave it there. */
  lemma CompletesAfterFiveTicks(extra: nat)
    ensures Replay(InitialSession, seq(5 + extra, _ => StatusTick)).status == COMPLETED
    ensures Header(Replay(InitialSession, seq(5 + extra, _ => StatusTick)).status) == "Ride Completed"
  {
    var ticks := seq(5 + extra, _ => StatusTick);
    ReplayStatus(InitialSession, ticks);
    AllStatusTicks(5 + extra);
  }

  lemma {:induction false} AllStatusTicks(n: nat)
    ensures StatusTicks(seq(n, _ => StatusTick)) == n
    decreases n
  {
    if n > 0 {
      var ticks := seq(n, _ => StatusTick);
      assert ticks[1..] == seq(n - 1, _ => StatusTick);
      AllStatusTicks(n - 1);
    }
  }

  // What the screen shows, as functions of the status index.

  /** The driver location handed to the map: present only before arrival. */
  function MapDriverLocation(s: Session): Option<Location>
  {
    if s.status < ARRIVED then Some(s.driver) else None
  }

  function Header(status: nat): string
  {
    if status >= 5 then "Ride Completed" else "Ride in Progress"
  }

  /** Timeline step `i` is drawn as reached. */
  predicate StepReached(i: nat, status: nat)
  {
    i <= status
  }

  /** The extra line under timeline step `i` (the driver's name, the ETA, the
      pickup, the trip time, the thanks): steps 1 to 5 have one, shown once
      the status has reached that step. */
  predicate StepNoteShown(i: nat, status: nat)
  {
    (i == 1 && status >= 1) || (i == 2 && status >= 2) || (i == 3 && status >= 3) ||
    (i == 4 && status >= 4) || (i == 5 && status >= 5)
  }

  /** A step's note is shown exactly when the step is reached, except for the
      first step, which has none. */
  lemma StepNotesFollowTimeline(i: nat, status: nat)
    requires i < |RIDE_STATUSES|
    ensures StepNoteShown(i, status) <==> 1 <= i && StepReached(i, status)
  {
  }

  predicate DriverCardShown(status: nat)
  {
    status < 5
  }

  predicate CancelOffered(status: nat)
  {
    status < 3
  }

  /** "Book Another Ride" and "Rate Your Ride" are shown. */
  predicate CompletionActionsShown(status: nat)
  {
    status >= 5
  }

  /** How the status-derived parts of the screen relate to each other: cancel
      and the marker go together, completion replaces the driver card, and
      cancel and the completion actions are never offered together. */
  lemma ScreenPhases(s: Session)
    requires s.status <= COMPLETED
    ensures CancelOffered(s.status) <==> MapDriverLocation(s).Some?
    ensures CancelOffered(s.status) ==> DriverCardShown(s.status)
    ensures CompletionActionsShown(s.status) <==> !DriverCardShown(s.status)
    ensures CompletionActionsShown(s.status) <==> Header(s.status) == "Ride Completed"
    ensures Header(s.status) == RIDE_STATUSES[COMPLETED].caption <==> s.status == COMPLETED
    ensures !(CancelOffered(s.status) && CompletionActionsShown(s.status))
  {
  }

  /** A timeline step, once reached, stays reached whatever the timers do. */
  lemma StepStaysReached(s: Session, ticks: seq<Tick>, i: nat)
    requires s.status <= COMPLETED
    requires StepReached(i, s.status)
    ensures StepReached(i, Replay(s, ticks).status)
  {
    ReplayStatus(s, ticks);
  }

  /** Once cancel is no longer offered it never comes back. */
  lemma CancelNeverReturns(s: Session, ticks: seq<Tick>)
    requires s.status <= COMPLETED
    requires !CancelOffered(s.status)
    ensures !CancelOffered(Replay(s, ticks).status)
    ensures MapDriverLocation(Replay(s, ticks)) == None
  {
    ReplayStatus(s, ticks);
  }

  /** The three fields the screen destructures from its parameters. */
  datatype DetailsParams = DetailsParams(pickup: Value, dropoff: Value, ride: RideOption)

  const MissingRide: string := "ride is undefined"

  /** Reading `{ pickup, dropoff, ride }` and rendering `ride.name` and
      `ride.price`: this fails unless `ride` holds a ride option. */
  function ReadDetailsParams(p: Params): (r: Result<DetailsParams, string>)
    ensures r.Success? <==> Field(p, "ride").Ride?
    ensures r.Success? ==> r.value.ride == Field(p, "ride").option
    ensures r.Success? ==> r.value.pickup == Field(p, "pickup") && r.value.dropoff == Field(p, "dropoff")
    ensures r.Failure? ==> r.error == MissingRide
  {
    match Field(p, "ride")
    case Ride(option) => Success(DetailsParams(Field(p, "pickup"), Field(p, "dropoff"), option))
    case _ => Failure(MissingRide)
  }

  /** The mounted screen: its two state cells and the parameters it read. */
  class RideSimulation {
    var status: nat
    var driver: Location
    const info: DetailsParams

    function Snapshot(): Session
      reads this
    {
      Session(status, driver)
    }

    ghost predicate Valid()
      reads this
    {
      status <= COMPLETED
    }

    constructor (info: DetailsParams)
      ensures Valid() && Snapshot() == InitialSession && this.info == info
    {
      status := 0;
      driver := DRIVER_START;
      this.info := info;
    }

    method StatusTick()
      requires Valid()
      modifies this
      ensures Valid()
      ensures Snapshot() == StatusTicked(old(Snapshot()))
    {
      if status < |RIDE_STATUSES| - 1 {
        status := status + 1;
      }
    }

    method PositionTick()
      requires Valid()
      modifies this
      ensures Valid()
      ensures Snapshot() == PositionTicked(old(Snapshot()))
    {
      if status < 3 {
        driver := driver.(lat := driver.lat + DELTA, lng := driver.lng + DELTA);
      }
    }

    /** `handleCancelRide`, with the confirmation dialog's answer as input:
        a confirmed cancel pushes `home`; it does not pop the ride. */
    method HandleCancelRide(nav: Navigator, confirmed: bool)
      requires nav.Valid()
      modifies nav
      ensures nav.Valid()
      ensures nav.State() == if confirmed then AfterNavigateTo(old(nav.State()), Home, None)
                             else old(nav.State())
    {
      if confirmed {
        nav.NavigateTo(Home, None);
      }
    }

    /** "Book Another Ride". */
    method BookAnotherRide(nav: Navigator)
      requires nav.Valid()
      modifies nav
      ensures nav.Valid()
      ensures nav.State() == AfterNavigateTo(old(nav.State()), Home, None)
    {
      nav.NavigateTo(Home, None);
    }

    /** "Rate Your Ride": the thank-you alert, then `home`. */
    method RateYourRide(nav: Navigator)
      requires nav.Valid()
      modifies nav
      ensures nav.Valid()
      ensures nav.State() == AfterNavigateTo(old(nav.State()), Home, None)
    {
      nav.NavigateTo(Home, None);
    }
  }

  /** Cancel pushes `home` on top of the ride: going back from there returns to
      the ride-details screen with the same parameters. */
  lemma CancelThenBackReturnsToRide(st: NavState)
    requires |st.history| >= 1 && CurrentScreenOf(st) == RideDetails
    ensures var r := AfterNavigateBack(AfterNavigateTo(st, Home, None));
      CurrentScreenOf(r) == RideDetails && ScreenParamsOf(r) == ScreenParamsOf(st)
  {
  }
}
