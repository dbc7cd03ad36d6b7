/** The ride-booking screen: one selected ride tier, a confirm action guarded
    by that selection, and the parameters it hands to the ride-details screen. */
module RideBookingScreen {
  import opened Common
  import opened NavigationContext

  /** The four ride tiers offered, in display order. */
  const RIDE_OPTIONS: seq<RideOption> := [
    RideOption("economy", "Economy", 1299, 15, 4),
    RideOption("comfort", "Comfort", 1850, 15, 4),
    RideOption("premium", "Premium", 2599, 15, 4),
    RideOption("xl", "XL", 2999, 18, 6)
  ]

  ghost predicate DistinctIds(options: seq<RideOption>)
  {
    forall i, j :: 0 <= i < j < |options| ==> options[i].id != options[j].id
  }

  lemma RideOptionIdsDistinct()
    ensures DistinctIds(RIDE_OPTIONS)
  {
  }

  /** The `selected` flag handed to each option's card. */
  predicate IsMarked(selected: Option<RideOption>, option: RideOption)
  {
    selected.Some? && selected.value.id == option.id
  }

  /** With distinct ids, at most one option in the list is marked, whatever is
      selected. */
  lemma AtMostOneMarked(options: seq<RideOption>, selected: Option<RideOption>)
    requires DistinctIds(options)
    ensures forall i, j ::
      (0 <= i < |options| && 0 <= j < |options| &&
       IsMarked(selected, options[i]) && IsMarked(selected, options[j])) ==> i == j
  {
  }

  /** Selecting one of the listed options marks exactly that option. */
  lemma SelectionMarksOne(k: nat)
    requires k < |RIDE_OPTIONS|
    ensures forall i :: 0 <= i < |RIDE_OPTIONS| ==> (IsMarked(Some(RIDE_OPTIONS[k]), RIDE_OPTIONS[i]) <==> i == k)
  {
    RideOptionIdsDistinct();
    AtMostOneMarked(RIDE_OPTIONS, Some(RIDE_OPTIONS[k]));
  }

  /** The confirm button's `disabled` flag. */
  predicate ConfirmDisabled(selected: Option<RideOption>, paymentSelected: bool)
  {
    selected.None? || !paymentSelected
  }

  /** The parameters the confirm action writes for `ride-details`. */
  function ConfirmParams(pickup: Value, dropoff: Value, option: RideOption): Params
  {
    map["pickup" := pickup, "dropoff" := dropoff, "ride" := Ride(option)]
  }

  /** The mounted screen: the two fields read from its parameters and its two
      state cells. */
  class Booking {
    const pickup: Value
    const dropoff: Value
    var selected: Option<RideOption>
    var paymentSelected: bool

    /** Mounting reads `pickup` and `dropoff` from the current screen's
        parameters; nothing is selected and the payment flag starts true. */
    constructor (nav: Navigator)
      requires nav.Valid()
      ensures pickup == Field(ScreenParamsOf(nav.State()), "pickup")
      ensures dropoff == Field(ScreenParamsOf(nav.State()), "dropoff")
      ensures selected == None && paymentSelected
    {
      var p := ScreenParamsOf(nav.State());
      pickup := Field(p, "pickup");
      dropoff := Field(p, "dropoff");
      selected := None;
      paymentSelected := true;
    }

    /** An option card's `onSelect`: replaces any earlier selection. */
    method Select(option: RideOption)
      modifies this`selected
      ensures selected == Some(option)
    {
      selected := Some(option);
    }

    /** `handleConfirmRide`: navigates only when an option is selected. */
    method HandleConfirmRide(nav: Navigator)
      requires nav.Valid()
      modifies nav
      ensures nav.Valid()
      ensures nav.State() == match selected
                             case Some(option) =>
                               AfterNavigateTo(old(nav.State()), RideDetails, Some(ConfirmParams(pickup, dropoff, option)))
                             case None => old(nav.State())
    {
      if selected.Some? {
        nav.NavigateTo(RideDetails, Some(ConfirmParams(pickup, dropoff, selected.value)));
      }
    }

    /** "Change" next to the payment method: `payment`, without parameters. */
    method ChangePayment(nav: Navigator)
      requires nav.Valid()
      modifies nav
      ensures nav.Valid()
      ensures nav.State() == AfterNavigateTo(old(nav.State()), Payment, None)
      ensures nav.params == old(nav.params)
    {
      nav.NavigateTo(Payment, None);
    }
  }

  /** The button guard and the handler guard agree while the payment flag
      keeps its only value, true: confirm is enabled iff it navigates. */
  lemma ButtonMatchesHandler(selected: Option<RideOption>)
    ensures !ConfirmDisabled(selected, true) <==> selected.Some?
  {
  }
}
