# Ride-hailing app state coordinator, in Dafny

This project models the state logic of a client-side ride-hailing mock-up. The
logic sits in a navigation context and in the event handlers of five screens
and components:

- **NavigationContext** (`navigation.dfy`): the navigation provider. It keeps a
  history of screen ids that starts at `home`, and a parameter store keyed by
  screen id. `NavigateTo` appends a screen and writes that screen's entry when
  parameters are given. `NavigateBack` drops the last screen unless only the
  root is left. The current screen is the last history entry. The current
  parameters are that screen's entry, or `{}`. The pure functions
  `AfterNavigateTo` and `AfterNavigateBack` specify the `Navigator` class.
  `Run` replays any sequence of calls.
- **RideDetailsScreen** (`ride_details.dfy`): the ride simulation.
  - A status index runs 0..5 over the six ride statuses. The status timer
    steps it, and the position timer moves the driver while the status is
    below 3.
  - The screen's visibility predicates are functions of the status.
  - The handlers are cancel, "Book Another Ride" and "Rate Your Ride".
  - Timers are discrete tick methods. `Replay` applies any interleaving of
    ticks.
- **RideBookingScreen** (`ride_booking.dfy`): the four ride tiers, the single
  selection, the confirm guard, and the parameters sent to ride details.
- **HomeScreen** (`home.dfy`): the pickup/dropoff text and location cells, the
  map-click filling rule, the clear and change handlers, the recent-location
  shortcuts, and the booking guard.
- **LocationInput** (`location_input.dfy`): the case-insensitive suggestion
  filter, the dropdown and clear-button conditions, and the focus, blur and
  click handlers.
- **App** (`app.dfy`): screen dispatch, navbar and padding conditions, the menu
  toggle, and lemmas that follow parameters from one screen to the next.
- **ProfileScreen** (`profile.dfy`): the view/edit mode, the form fields, save
  and cancel, logout and the two navigation rows.

Shared datatypes are in `common.dfy`:
- `Location` holds coordinates in fixed-point units of 1/10000 degree, so the
  0.002-degree driver step is exactly 20 units.
- `Value` and `Params` stand for the untyped parameter object.

`confirm` dialogs are boolean inputs. `alert` is a no-op. Each timer firing is
one method call.

Behaviour reproduced as the code has it:
- When the ride reaches status 3, the driver location cell is **not** cleared.
  The map is just handed no location from then on (`MapDriverLocation`). The
  position timer stops, so the cell stops changing (`NoMovementAfterArrival`).
- Cancel has no status check in its handler. It is only unavailable because the
  button is not rendered at status 3 or above (`CancelOffered`). A confirmed
  cancel pushes `home` on top of the ride. The home screen is then rendered,
  so the ride screen unmounts, its timers are cleared and its status and
  driver are lost: the simulation ends. The history entry and the stored
  parameters survive, though. Going back therefore renders the ride screen
  again (`CancelThenBackReturnsToRide`), and it mounts afresh: the simulation
  restarts from status 0, with the driver at its start and the same ride
  (`App.CancelThenBackRestarts`).
- The ride-details screen does not validate its parameters. It fails while
  rendering when `ride` is missing. `ReadDetailsParams` models that failure as
  an error value.
- Parameters are keyed by screen and never removed. This is reproduced as
  written (`StaleParamsSurvive`, `SecondWriteReplaces`).

## Model

| member | source | states |
|---|---|---|
| NavigationContext.Navigator.constructor | src/contexts/NavigationContext.tsx:16-17 | history starts as exactly `[home]` and the parameter store is empty |
| NavigationContext.AfterNavigateTo | src/contexts/NavigationContext.tsx:19-27 | the old history is a prefix of the new one, followed by the target screen (duplicates allowed); with params only the target's entry changes, to those params; without params the store is untouched |
| NavigationContext.Navigator.NavigateTo | src/contexts/NavigationContext.tsx:19-27 | the provider's new state is `AfterNavigateTo` of the old, and the history stays non-empty |
| NavigationContext.AfterNavigateBack | src/contexts/NavigationContext.tsx:29-33 | with more than one entry the last is removed; at the root nothing changes; the parameter store is never touched |
| NavigationContext.Navigator.NavigateBack | src/contexts/NavigationContext.tsx:29-33 | the provider's new state is `AfterNavigateBack` of the old, and the history stays non-empty |
| NavigationContext.NavigateToShows | src/contexts/NavigationContext.tsx:19-41 | after `navigateTo(s, p)` the current screen is `s` and the current params are `p` if given, else the stale entry for `s`, else `{}` |
| NavigationContext.BackUndoesNavigateTo | src/contexts/NavigationContext.tsx:19-33 | `navigateTo` followed by `navigateBack` restores the previous history exactly |
| NavigationContext.StaleParamsSurvive | src/contexts/NavigationContext.tsx:21-26 | params written on one visit to a screen are still current on a later visit made without params |
| NavigationContext.SecondWriteReplaces | src/contexts/NavigationContext.tsx:21-26 | a second write of params for the same screen replaces the first |
| NavigationContext.RunKeepsRoot | src/contexts/NavigationContext.tsx:29-33 | under any sequence of calls the history stays non-empty and its first entry is never removed |
| NavigationContext.RunFromInitial | src/contexts/NavigationContext.tsx:16-33 | from the initial state, `home` stays at the bottom of the history under any call sequence |
| NavigationContext.RunNeverDropsParams | src/contexts/NavigationContext.tsx:19-33 | no call sequence removes a key from the parameter store |
| NavigationContext.BacksKeepParams | src/contexts/NavigationContext.tsx:29-33 | any number of back calls leaves the parameter store unchanged and the history non-empty |
| NavigationContext.CurrentScreenOf | src/contexts/NavigationContext.tsx:38 | the exposed current screen is an entry of the history (its last one) |
| NavigationContext.ScreenParamsOf | src/contexts/NavigationContext.tsx:41 | the exposed params are either `{}` or one of the stored entries, and are `{}` whenever nothing was stored for the current screen |
| NavigationContext.UseNavigate | src/contexts/NavigationContext.tsx:49-55 | outside a provider the hook fails with its error message; inside, it returns the provider |
| RideDetailsScreen.StatusTicked | src/screens/RideDetailsScreen.tsx:58-66 | a status tick adds exactly 1 below the last status (5), changes nothing at 5, and never moves the driver |
| RideDetailsScreen.PositionTicked | src/screens/RideDetailsScreen.tsx:43-55 | a position tick moves lat and lng by the same delta and keeps the address while status < 3, and changes nothing from 3 on |
| RideDetailsScreen.RideSimulation.constructor | src/screens/RideDetailsScreen.tsx:35-40 | a mounted ride starts at status 0 with the driver at its fixed start location |
| RideDetailsScreen.RideSimulation.StatusTick | src/screens/RideDetailsScreen.tsx:58-66 | the screen's state becomes `StatusTicked` of the old state and stays within 0..5 |
| RideDetailsScreen.RideSimulation.PositionTick | src/screens/RideDetailsScreen.tsx:43-55 | the screen's state becomes `PositionTicked` of the old state |
| RideDetailsScreen.ReplayStatus | src/screens/RideDetailsScreen.tsx:58-66 | after any interleaving of ticks the status is min(start + status ticks, 5), so it never decreases and never leaves 0..5 |
| RideDetailsScreen.ReplayDriver | src/screens/RideDetailsScreen.tsx:43-55 | after any interleaving of ticks the driver is the start location moved by one delta per position tick fired while status < 3 |
| RideDetailsScreen.NoMovesAfterArrival | src/screens/RideDetailsScreen.tsx:43-55 | from status 3 on, no position tick counts as a move |
| RideDetailsScreen.NoMovementAfterArrival | src/screens/RideDetailsScreen.tsx:43-55 | from status 3 on, no sequence of ticks changes the driver location |
| RideDetailsScreen.PositionTicksFromStart | src/screens/RideDetailsScreen.tsx:36-55 | n position ticks before arrival move the driver by exactly n deltas on both axes |
| RideDetailsScreen.CompletesAfterFiveTicks | src/screens/RideDetailsScreen.tsx:22-66 | five status ticks from mounting reach status 5 ("Ride Completed"), and further ticks stay there |
| RideDetailsScreen.AllStatusTicks | src/screens/RideDetailsScreen.tsx:58-66 | a run of n status ticks holds n status ticks |
| RideDetailsScreen.MapDriverLocation | src/screens/RideDetailsScreen.tsx:103 | the map is handed the driver location while status < 3, and nothing from then on |
| RideDetailsScreen.Header | src/screens/RideDetailsScreen.tsx:118 | the header reads "Ride Completed" from status 5 on, "Ride in Progress" before |
| RideDetailsScreen.StepReached | src/screens/RideDetailsScreen.tsx:137 | timeline step i is drawn as reached when i <= status |
| RideDetailsScreen.StepNoteShown | src/screens/RideDetailsScreen.tsx:147-175 | steps 1 to 5 each show their note once the status reaches the step |
| RideDetailsScreen.DriverCardShown | src/screens/RideDetailsScreen.tsx:182 | the driver card is shown while status < 5 |
| RideDetailsScreen.CancelOffered | src/screens/RideDetailsScreen.tsx:227 | the cancel button is shown while status < 3 |
| RideDetailsScreen.CompletionActionsShown | src/screens/RideDetailsScreen.tsx:237 | "Book Another Ride" and "Rate Your Ride" are shown from status 5 on |
| RideDetailsScreen.ScreenPhases | src/screens/RideDetailsScreen.tsx:103-258 | cancel is offered iff the map gets the driver (status < 3); the header reads "Ride Completed" iff the completion actions show iff the driver card does not (status >= 5); cancel and completion are never offered together |
| RideDetailsScreen.StepStaysReached | src/screens/RideDetailsScreen.tsx:130-143 | a timeline step drawn as reached (index <= status) stays reached under any ticks |
| RideDetailsScreen.StepNotesFollowTimeline | src/screens/RideDetailsScreen.tsx:147-175 | steps 1 to 5 show their note exactly when reached; step 0 has none |
| RideDetailsScreen.CancelNeverReturns | src/screens/RideDetailsScreen.tsx:227-235 | once cancel is no longer offered, no tick brings it or the driver marker back |
| RideDetailsScreen.ReadDetailsParams | src/screens/RideDetailsScreen.tsx:122-123 | the screen's params yield pickup, dropoff and ride exactly when `ride` holds a ride option, and fail otherwise |
| RideDetailsScreen.RideSimulation.HandleCancelRide | src/screens/RideDetailsScreen.tsx:91-95 | a confirmed cancel appends `home` without params; a declined one changes nothing |
| RideDetailsScreen.RideSimulation.BookAnotherRide | src/screens/RideDetailsScreen.tsx:239-244 | "Book Another Ride" appends `home` without params |
| RideDetailsScreen.RideSimulation.RateYourRide | src/screens/RideDetailsScreen.tsx:246-256 | "Rate Your Ride" appends `home` without params |
| RideDetailsScreen.CancelThenBackReturnsToRide | src/screens/RideDetailsScreen.tsx:91-95 | after a confirmed cancel, going back returns to the ride-details screen with the same params |
| RideBookingScreen.RideOptionIdsDistinct | src/screens/RideBookingScreen.tsx:9-38 | the four ride tiers have pairwise distinct ids |
| RideBookingScreen.AtMostOneMarked | src/screens/RideBookingScreen.tsx:105-112 | with distinct ids, at most one option is marked selected, whatever the selection |
| RideBookingScreen.SelectionMarksOne | src/screens/RideBookingScreen.tsx:105-112 | selecting tier k marks exactly tier k |
| RideBookingScreen.IsMarked | src/screens/RideBookingScreen.tsx:109 | an option card is marked when the selection exists and has its id |
| RideBookingScreen.ConfirmDisabled | src/screens/RideBookingScreen.tsx:139 | confirm is disabled when nothing is selected or no payment method is selected |
| RideBookingScreen.ConfirmParams | src/screens/RideBookingScreen.tsx:62-66 | the confirm action's params hold exactly pickup, dropoff and the selected ride |
| RideBookingScreen.Booking.constructor | src/screens/RideBookingScreen.tsx:41-45 | pickup and dropoff are read from the current screen's params; nothing is selected; the payment flag is true |
| RideBookingScreen.Booking.Select | src/screens/RideBookingScreen.tsx:106-111 | selecting an option replaces any earlier selection |
| RideBookingScreen.Booking.HandleConfirmRide | src/screens/RideBookingScreen.tsx:60-68 | with a selection, appends `ride-details` with exactly {pickup, dropoff, ride}; without one, changes nothing |
| RideBookingScreen.Booking.ChangePayment | src/screens/RideBookingScreen.tsx:127-131 | "Change" appends `payment` and leaves the params store unchanged |
| RideBookingScreen.ButtonMatchesHandler | src/screens/RideBookingScreen.tsx:136-140 | with the payment flag at its only value, true, confirm is enabled iff an option is selected, the handler's own guard |
| HomeScreen.BookDisabled | src/screens/HomeScreen.tsx:120 | booking is disabled when either text is empty (an empty string is falsy) |
| HomeScreen.BookParams | src/screens/HomeScreen.tsx:36 | booking's params hold exactly the two texts |
| HomeScreen.HomeForm.constructor | src/screens/HomeScreen.tsx:29-32 | both texts start empty and both locations absent |
| HomeScreen.HomeForm.HandleBookRide | src/screens/HomeScreen.tsx:34-38 | appends `ride-booking` with exactly {pickup, dropoff} iff both are non-empty, the button's enabled condition; otherwise nothing changes |
| HomeScreen.HomeForm.HandleMapClick | src/screens/HomeScreen.tsx:40-48 | fills pickup if empty, else dropoff if empty, else changes nothing; the other field is untouched |
| HomeScreen.HomeForm.PickupChanged | src/screens/HomeScreen.tsx:69-72 | typing sets the pickup text; its location is cleared only when the text becomes empty |
| HomeScreen.HomeForm.PickupCleared | src/screens/HomeScreen.tsx:73-76 | clearing sets the pickup text to "" and its location to none |
| HomeScreen.HomeForm.DropoffChanged | src/screens/HomeScreen.tsx:84-87 | typing sets the dropoff text; its location is cleared only when the text becomes empty |
| HomeScreen.HomeForm.DropoffCleared | src/screens/HomeScreen.tsx:88-91 | clearing sets the dropoff text to "" and its location to none |
| HomeScreen.HomeForm.ChooseHome | src/screens/HomeScreen.tsx:133-140 | "Home" overwrites pickup text and location whatever they held; dropoff is outside its frame |
| HomeScreen.HomeForm.ChooseWork | src/screens/HomeScreen.tsx:153-160 | "Work" overwrites pickup text and location whatever they held; dropoff is outside its frame |
| HomeScreen.BookParamsReadBack | src/screens/HomeScreen.tsx:34-38 | after booking, the current screen is `ride-booking` and its params read back the two texts |
| LocationInput.ToLower | src/components/LocationInput.tsx:87-90 | lowering keeps the length and lowers every character |
| LocationInput.ToLowerIdempotent | src/components/LocationInput.tsx:87-90 | lowering twice is lowering once |
| LocationInput.Includes | src/components/LocationInput.tsx:89 | `includes`: the needle is a prefix of the haystack or of one of its suffixes |
| LocationInput.IncludesIffOccurs | src/components/LocationInput.tsx:87-90 | the `includes` scan succeeds iff the needle occurs as a contiguous slice |
| LocationInput.FilterSuggestions | src/components/LocationInput.tsx:87-90 | the listed suggestions are exactly those whose lowercase form includes the lowercase value, each as often as in the input, in the original order |
| LocationInput.FilterIgnoresCase | src/components/LocationInput.tsx:87-90 | the filter gives the same list for a value and its lowercase form |
| LocationInput.FilterAgrees | src/components/LocationInput.tsx:87-90 | values that match the same suggestions give the same list |
| LocationInput.FilterEmptyKeepsAll | src/components/LocationInput.tsx:87-90 | an empty value keeps every suggestion |
| LocationInput.DropdownShown | src/components/LocationInput.tsx:85 | the dropdown is rendered when suggestions are wanted, something is typed and the unfiltered list is non-empty |
| LocationInput.ClearButtonShown | src/components/LocationInput.tsx:73 | the clear button is rendered when something is typed |
| LocationInput.NoSuggestionsNoDropdown | src/components/LocationInput.tsx:19-85 | with the default empty suggestion list the dropdown is never shown |
| LocationInput.DropdownNeedsClearButton | src/components/LocationInput.tsx:73-85 | the dropdown needs a non-empty value, which is when the clear button exists |
| LocationInput.InputState.constructor | src/components/LocationInput.tsx:21-22 | the input starts unfocused with suggestions hidden |
| LocationInput.InputState.Focus | src/components/LocationInput.tsx:24-27 | focus sets both `isFocused` and `showSuggestions` |
| LocationInput.InputState.Blur | src/components/LocationInput.tsx:29-33 | blur clears `isFocused` at once and leaves `showSuggestions` to the delayed callback |
| LocationInput.InputState.BlurDelayElapsed | src/components/LocationInput.tsx:32 | the delayed blur callback hides the suggestions |
| LocationInput.InputState.SuggestionClick | src/components/LocationInput.tsx:35-38 | a suggestion click passes exactly that string to `onChange` and hides the list |
| App.RenderScreen | src/App.tsx:14-27 | `home`, `ride-booking`, `ride-details` and `profile` render their own screen; every other id renders Home |
| App.NavbarShown | src/App.tsx:32 | the navbar is shown on `home`, `rides` and `payment` |
| App.TopPadding | src/App.tsx:39 | the main area's top padding is "16" on `home`, `rides` and `payment`, else "0" |
| App.PaddingFollowsNavbar | src/App.tsx:32-39 | top padding is "16" iff the navbar is shown (home, rides, payment), else "0" |
| App.NavbarOnlyOverHome | src/App.tsx:14-32 | whenever the navbar is shown, the Home screen is rendered below it |
| App.AppContent.constructor | src/App.tsx:11 | the menu starts closed |
| App.AppContent.ToggleMenu | src/App.tsx:35 | the toggle flips `isMenuOpen` |
| App.ToggleTwice | src/App.tsx:35 | two toggles restore `isMenuOpen` |
| App.ConfirmReachesDetails | src/screens/RideBookingScreen.tsx:60-68 | after confirming, the ride-details screen is rendered and reads back exactly the pickup, dropoff and ride that were sent |
| App.BookReachesBooking | src/screens/HomeScreen.tsx:34-38 | after booking, the ride-booking screen is rendered and reads back the two texts |
| App.CancelThenBackRestarts | src/screens/RideDetailsScreen.tsx:35-66 | after a confirmed cancel the home screen is rendered; going back restores the history and renders the ride screen, which mounts a fresh simulation at status 0 with the driver at its start and the same ride info |
| App.BookingScenario | src/screens/RideDetailsScreen.tsx:58-66 | typing X and Y, booking, choosing Economy and confirming, then six status ticks: the current screen is `ride-details`, its current params read back as the simulation's ride info, the ride is Economy, the status is 5 and the header reads "Ride Completed" |
| ProfileScreen.ProfileForm.constructor | src/screens/ProfileScreen.tsx:16-21 | the screen starts in view mode with the form equal to the `USER` fields |
| ProfileScreen.ProfileForm.StartEdit | src/screens/ProfileScreen.tsx:79-85 | "Edit" enters edit mode |
| ProfileScreen.WithField | src/screens/ProfileScreen.tsx:23-26 | a change sets only the named field; the other two keep their values |
| ProfileScreen.ProfileForm.HandleChange | src/screens/ProfileScreen.tsx:23-26 | the form becomes `WithField` of the old form |
| ProfileScreen.ProfileForm.HandleSave | src/screens/ProfileScreen.tsx:28-32 | save leaves edit mode; the form is outside its frame, so the edits are kept |
| ProfileScreen.ProfileForm.CancelEdit | src/screens/ProfileScreen.tsx:211-218 | cancel leaves edit mode and resets the form to the `USER` fields |
| ProfileScreen.Displayed | src/screens/ProfileScreen.tsx:74-201 | edit mode shows the form's fields; view mode shows the `USER` constants |
| ProfileScreen.ViewModeShowsUser | src/screens/ProfileScreen.tsx:89-103 | view mode shows the `USER` constants whatever the form holds, so saved edits are not reflected |
| ProfileScreen.ProfileForm.HandleLogout | src/screens/ProfileScreen.tsx:34-39 | logout appends `home` iff the confirmation is accepted |
| ProfileScreen.ProfileForm.OpenPaymentMethods | src/screens/ProfileScreen.tsx:107-109 | "Payment Methods" appends `payment` without params |
| ProfileScreen.ProfileForm.OpenSavedLocations | src/screens/ProfileScreen.tsx:121-123 | "Saved Locations" appends `home` without params |

## Left out

- Wall-clock timing is not modelled: the 10 s status timeout, the 3 s position interval and the 200 ms blur delay. React effect scheduling is not modelled either. Each timer firing is a method call, and `Replay` covers every order of firings.
- Coordinates and prices are exact fixed-point integers, not floating point. `toFixed` formatting is not modelled.
- `window.alert` is a no-op and `window.confirm` is a boolean argument. The driver call and message buttons only raise an alert, so they are not modelled.
- The back-arrow buttons of the booking, details and profile screens call `navigateBack` directly, which is `Navigator.NavigateBack`.
- React component lifetime is modelled only by hand: a screen's local state is an object the caller creates when the screen mounts. React creates a new screen object only when the component type `renderScreen` returns changes. `home`, `driver`, `rides` and `payment` all render the home screen in the same place, so moving between them, or from `home` to `home`, keeps the same home screen and its pickup, dropoff and location cells. Leaving for a different component unmounts the screen, and its state is lost (`App.CancelThenBackRestarts`). Updates within one event are not batched: every handler sees the state committed by the previous event.
- LocationInput.ToLower: lowers only the ASCII letters A-Z. JavaScript's `toLowerCase` also folds other Unicode letters.
- The map widget is not modelled: marker placement and click-to-coordinate conversion. A map click is the `Location` argument of `HandleMapClick`.
- The navbar, driver card, button, ride-option card and auth modal are presentational and are not modelled.
- CSS classes, icons and layout are not modelled.
- ProfileScreen.ProfileForm.HandleChange: only the three input names `name`, `email` and `phone` occur. An event carrying another name, which would add a new key to the object, is not modelled.
