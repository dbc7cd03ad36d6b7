/** The navigation provider: a history of screens that starts at `home`, and
    beside it a store of parameters keyed by screen (not by visit). */
module NavigationContext {
  import opened Common

  /** Every screen identifier the application can navigate to. */
  datatype Screen = Home | RideBooking | RideDetails | Driver | Rides | Payment | Profile

  /** The provider's two state cells: the screens visited so far and the
      parameters last written for each screen. */
  datatype NavState = NavState(history: seq<Screen>, params: map<Screen, Params>)

  /** The provider's state when the application starts. */
  const InitialState: NavState := NavState([Home], map[])

  /** The parameters stored for `s`, if any were ever written. */
  function StoredFor(params: map<Screen, Params>, s: Screen): Option<Params>
  {
    if s in params then Some(params[s]) else None
  }

  /** `navigateTo(screen, params?)`. A missing `params` argument is `None`;
      any object, even an empty one, is truthy and is written. */
  function AfterNavigateTo(st: NavState, screen: Screen, p: Option<Params>): (r: NavState)
    ensures |r.history| == |st.history| + 1
    ensures r.history[..|st.history|] == st.history
    ensures r.history[|st.history|] == screen
    ensures forall k :: k != screen ==> StoredFor(r.params, k) == StoredFor(st.params, k)
    ensures StoredFor(r.params, screen) == if p.Some? then p else StoredFor(st.params, screen)
    ensures r.params.Keys == st.params.Keys + (if p.Some? then {screen} else {})
  {
    var params := if p.Some? then st.params[screen := p.value] else st.params;
    NavState(st.history + [screen], params)
  }

  /** `navigateBack()`: drops the last screen unless it is the only one. */
  function AfterNavigateBack(st: NavState): (r: NavState)
    ensures r.params == st.params
    ensures |st.history| > 1 ==> r.history + [st.history[|st.history| - 1]] == st.history
    ensures |st.history| <= 1 ==> r == st
  {
    if |st.history| > 1 then st.(history := st.history[..|st.history| - 1]) else st
  }

  /** The `currentScreen` the provider exposes: the last screen of the history. */
  function CurrentScreenOf(st: NavState): (s: Screen)
    requires |st.history| >= 1
    ensures s in st.history
  {
    st.history[|st.history| - 1]
  }

  /** The `screenParams` the provider exposes: the entry for the current
      screen, or the empty object. */
  function ScreenParamsOf(st: NavState): (p: Params)
    requires |st.history| >= 1
    ensures p == map[] || p in st.params.Values
    ensures CurrentScreenOf(st) !in st.params ==> p == map[]
  {
    match StoredFor(st.params, CurrentScreenOf(st))
    case Some(p) => p
    case None => map[]
  }

  /** After `navigateTo(s, p)` the current screen is `s` and its parameters are
      `p` when given, otherwise whatever was stored for `s` before. */
  lemma NavigateToShows(st: NavState, s: Screen, p: Option<Params>)
    ensures var r := AfterNavigateTo(st, s, p);
      && CurrentScreenOf(r) == s
      && ScreenParamsOf(r) == match p
                              case Some(q) => q
                              case None => (if s in st.params then st.params[s] else map[])
  {
  }

  /** Going forward and then back restores the previous history exactly; the
      parameter store keeps what the forward step wrote. */
  lemma BackUndoesNavigateTo(st: NavState, s: Screen, p: Option<Params>)
    requires |st.history| >= 1
    ensures AfterNavigateBack(AfterNavigateTo(st, s, p)).history == st.history
    ensures AfterNavigateBack(AfterNavigateTo(st, s, p)).params == AfterNavigateTo(st, s, p).params
  {
  }

  /** Parameters are keyed by screen: a later visit to the same screen without
      parameters still sees the ones written on an earlier visit. */
  lemma StaleParamsSurvive(st: NavState, s: Screen, t: Screen, p: Params)
    requires |st.history| >= 1
    ensures var r := AfterNavigateTo(AfterNavigateTo(AfterNavigateTo(st, s, Some(p)), t, None), s, None);
      CurrentScreenOf(r) == s && ScreenParamsOf(r) == p
  {
  }

  /** Parameters are keyed by screen: a second write for the same screen
      replaces the first. */
  lemma SecondWriteReplaces(st: NavState, s: Screen, p1: Params, p2: Params)
    ensures var r := AfterNavigateTo(AfterNavigateTo(st, s, Some(p1)), s, Some(p2));
      ScreenParamsOf(r) == p2 && StoredFor(r.params, s) == Some(p2)
  {
  }

  /** One call on the provider. */
  datatype NavOp = To(screen: Screen, p: Option<Params>) | Back

  function Apply(st: NavState, op: NavOp): NavState
  {
    match op
    case To(s, p) => AfterNavigateTo(st, s, p)
    case Back => AfterNavigateBack(st)
  }

  /** The state after a sequence of calls, first call first. */
  function Run(st: NavState, ops: seq<NavOp>): NavState
    decreases |ops|
  {
    if ops == [] then st else Run(Apply(st, ops[0]), ops[1..])
  }

  /** Under any sequence of calls the history never becomes empty and its
      first entry (the root) is never removed. */
  lemma {:induction false} RunKeepsRoot(st: NavState, ops: seq<NavOp>)
    requires |st.history| >= 1
    ensures |Run(st, ops).history| >= 1
    ensures Run(st, ops).history[0] == st.history[0]
    decreases |ops|
  {
    if ops != [] {
      var next := Apply(st, ops[0]);
      assert |next.history| >= 1 && next.history[0] == st.history[0];
      RunKeepsRoot(next, ops[1..]);
    }
  }

  /** Starting from the initial state, `home` is at the bottom of the history
      under any sequence of calls. */
  lemma RunFromInitial(ops: seq<NavOp>)
    ensures |Run(InitialState, ops).history| >= 1
    ensures Run(InitialState, ops).history[0] == Home
  {
    RunKeepsRoot(InitialState, ops);
  }

  /** Entries of the parameter store are never removed. */
  lemma {:induction false} RunNeverDropsParams(st: NavState, ops: seq<NavOp>)
    ensures st.params.Keys <= Run(st, ops).params.Keys
    decreases |ops|
  {
    if ops != [] {
      RunNeverDropsParams(Apply(st, ops[0]), ops[1..]);
    }
  }

  /** Going back never changes the parameter store, however often it is done. */
  lemma {:induction false} BacksKeepParams(st: NavState, n: nat)
    ensures Run(st, seq(n, _ => Back)).params == st.params
    ensures |st.history| >= 1 ==> |Run(st, seq(n, _ => Back)).history| >= 1
    decreases n
  {
    if n > 0 {
      var ops := seq(n, _ => Back);
      assert ops[1..] == seq(n - 1, _ => Back);
      BacksKeepParams(AfterNavigateBack(st), n - 1);
    }
  }

  /** The provider object: two state cells that only `NavigateTo` and
      `NavigateBack` change. */
  class Navigator {
    var history: seq<Screen>
    var params: map<Screen, Params>

    function State(): NavState
      reads this
    {
      NavState(history, params)
    }

    ghost predicate Valid()
      reads this
    {
      |history| >= 1
    }

    constructor ()
      ensures Valid() && State() == InitialState
    {
      history := [Home];
      params := map[];
    }

    method NavigateTo(screen: Screen, p: Option<Params>)
      requires Valid()
      modifies this
      ensures Valid()
      ensures State() == AfterNavigateTo(old(State()), screen, p)
    {
      history := history + [screen];
      if p.Some? {
        params := params[screen := p.value];
      }
    }

    method NavigateBack()
      requires Valid()
      modifies this
      ensures Valid()
      ensures State() == AfterNavigateBack(old(State()))
    {
      if |history| > 1 {
        history := history[..|history| - 1];
      }
    }
  }

  const UseNavigateError: string := "useNavigate must be used within a NavigationProvider"

  /** `useNavigate()`: the provider's object when there is one, an error otherwise. */
  function UseNavigate(provider: Option<Navigator>): (r: Result<Navigator, string>)
    ensures r.Success? <==> provider.Some?
    ensures r.Success? ==> r.value == provider.value
    ensures r.Failure? ==> r.error == UseNavigateError
  {
    match provider
    case Some(nav) => Success(nav)
    case None => Failure(UseNavigateError)
  }
}
