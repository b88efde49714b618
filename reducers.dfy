/** The application store: its state record, the fourteen actions, the reducer
    `rootReducer` and the wrapper the app passes to `createStore`. */
module Reducers {
  import opened Common
  import opened Records

  /** `latestError` can be an error, `null`, or `undefined` (an action that
      carries no payload, as the navigation menu sends). */
  datatype ErrorField = Null | Undefined | Present(error: LatestError)

  /** DefaultRootState.ts */
  datatype State = State(
    theme: string,
    navbarOpen: bool,
    currentPage: PageType,
    generalInformation: GeneralInformation,
    user: FantasyUser,
    latestError: ErrorField,
    notifications: seq<Notification>,
    gameweekData: Option<GameweekData>,
    gameweek: Option<int>,
    filters: Filters,
    fixtures: seq<Fixture>,
    isLoading: bool,
    loadingPercent: real,
    predictionResponse: Option<PredictionResponse>)

  /** The fourteen actions, plus any other `type` (such as the store's own
      initialisation action), which the switch does not match. */
  datatype Action =
    | SetTheme(theme: string)
    | SetNavbarOpen(navbarOpen: bool)
    | SetCurrentPage(currentPage: PageType)
    | SetGeneralInformation(generalInformation: GeneralInformation)
    | SetUser(user: FantasyUser)
    | SetLatestError(latestError: ErrorField)
    | SetNotifications(notifications: seq<Notification>)
    | SetGameweekData(gameweekData: Option<GameweekData>)
    | SetGameweek(gameweek: Option<int>)
    | SetFilters(filters: Filters)
    | SetFixtures(fixtures: seq<Fixture>)
    | SetIsLoading(isLoading: bool)
    | SetLoadingPercent(loadingPercent: real)
    | SetPredictionResponse(predictionResponse: Option<PredictionResponse>)
    | Unknown(actionType: string)

  /** The fields of the state, by name. */
  datatype Field =
    | ThemeF | NavbarOpenF | CurrentPageF | GeneralInformationF | UserF | LatestErrorF
    | NotificationsF | GameweekDataF | GameweekF | FiltersF | FixturesF | IsLoadingF
    | LoadingPercentF | PredictionResponseF

  /** The field an action names, if its type matches a case. */
  function Target(a: Action): Option<Field> {
    match a
    case SetTheme(_) => Some(ThemeF)
    case SetNavbarOpen(_) => Some(NavbarOpenF)
    case SetCurrentPage(_) => Some(CurrentPageF)
    case SetGeneralInformation(_) => Some(GeneralInformationF)
    case SetUser(_) => Some(UserF)
    case SetLatestError(_) => Some(LatestErrorF)
    case SetNotifications(_) => Some(NotificationsF)
    case SetGameweekData(_) => Some(GameweekDataF)
    case SetGameweek(_) => Some(GameweekF)
    case SetFilters(_) => Some(FiltersF)
    case SetFixtures(_) => Some(FixturesF)
    case SetIsLoading(_) => Some(IsLoadingF)
    case SetLoadingPercent(_) => Some(LoadingPercentF)
    case SetPredictionResponse(_) => Some(PredictionResponseF)
    case Unknown(_) => None
  }

  /** `s` and `t` agree on every field, except possibly `f`. */
  predicate AgreeExcept(s: State, t: State, f: Option<Field>) {
    (f != Some(ThemeF) ==> s.theme == t.theme) &&
    (f != Some(NavbarOpenF) ==> s.navbarOpen == t.navbarOpen) &&
    (f != Some(CurrentPageF) ==> s.currentPage == t.currentPage) &&
    (f != Some(GeneralInformationF) ==> s.generalInformation == t.generalInformation) &&
    (f != Some(UserF) ==> s.user == t.user) &&
    (f != Some(LatestErrorF) ==> s.latestError == t.latestError) &&
    (f != Some(NotificationsF) ==> s.notifications == t.notifications) &&
    (f != Some(GameweekDataF) ==> s.gameweekData == t.gameweekData) &&
    (f != Some(GameweekF) ==> s.gameweek == t.gameweek) &&
    (f != Some(FiltersF) ==> s.filters == t.filters) &&
    (f != Some(FixturesF) ==> s.fixtures == t.fixtures) &&
    (f != Some(IsLoadingF) ==> s.isLoading == t.isLoading) &&
    (f != Some(LoadingPercentF) ==> s.loadingPercent == t.loadingPercent) &&
    (f != Some(PredictionResponseF) ==> s.predictionResponse == t.predictionResponse)
  }

  /** The state `t` holds the action's payload in the field the action names. */
  predicate Holds(t: State, a: Action) {
    match a
    case SetTheme(v) => t.theme == v
    case SetNavbarOpen(v) => t.navbarOpen == v
    case SetCurrentPage(v) => t.currentPage == v
    case SetGeneralInformation(v) => t.generalInformation == v
    case SetUser(v) => t.user == v
    case SetLatestError(v) => t.latestError == v
    case SetNotifications(v) => t.notifications == v
    case SetGameweekData(v) => t.gameweekData == v
    case SetGameweek(v) => t.gameweek == v
    case SetFilters(v) => t.filters == v
    case SetFixtures(v) => t.fixtures == v
    case SetIsLoading(v) => t.isLoading == v
    case SetLoadingPercent(v) => t.loadingPercent == v
    case SetPredictionResponse(v) => t.predictionResponse == v
    case Unknown(_) => true
  }

  /** `rootReducer`: each matched action replaces its one field wholesale. */
  function Apply(s: State, a: Action): (r: State)
    ensures Holds(r, a)
    ensures AgreeExcept(s, r, Target(a))
    ensures a.Unknown? ==> r == s
  {
    match a
    case SetTheme(v) => s.(theme := v)
    case SetNavbarOpen(v) => s.(navbarOpen := v)
    case SetCurrentPage(v) => s.(currentPage := v)
    case SetGeneralInformation(v) => s.(generalInformation := v)
    case SetUser(v) => s.(user := v)
    case SetLatestError(v) => s.(latestError := v)
    case SetNotifications(v) => s.(notifications := v)
    case SetGameweekData(v) => s.(gameweekData := v)
    case SetGameweek(v) => s.(gameweek := v)
    case SetFilters(v) => s.(filters := v)
    case SetFixtures(v) => s.(fixtures := v)
    case SetIsLoading(v) => s.(isLoading := v)
    case SetLoadingPercent(v) => s.(loadingPercent := v)
    case SetPredictionResponse(v) => s.(predictionResponse := v)
    case Unknown(_) => s
  }

  /** Two states that agree everywhere but on `f` and also agree on `f` are equal. */
  lemma AgreeOnAll(s: State, t: State, a: Action)
    requires AgreeExcept(s, t, Target(a)) && Holds(s, a) && Holds(t, a)
    ensures s == t
  {
    match a
    case Unknown(_) =>
    case _ =>
  }

  /** The result of an action does not depend on the field it overwrites. */
  lemma ApplyForgetsOldValue(s: State, t: State, a: Action)
    requires AgreeExcept(s, t, Target(a))
    ensures Apply(s, a) == Apply(t, a)
  {
    AgreeOnAll(Apply(s, a), Apply(t, a), a);
  }

  /** Dispatching the same action twice is dispatching it once. */
  lemma ApplyIdempotent(s: State, a: Action)
    ensures Apply(Apply(s, a), a) == Apply(s, a)
  {
    AgreeOnAll(Apply(Apply(s, a), a), Apply(s, a), a);
  }

  /** Of two actions on the same field, the last one wins. */
  lemma LastWins(s: State, a: Action, b: Action)
    requires Target(a) == Target(b)
    ensures Apply(Apply(s, a), b) == Apply(s, b)
  {
    ApplyForgetsOldValue(Apply(s, a), s, b);
  }

  /** `s` and `t` agree on every field except possibly `f` and `g`. */
  predicate AgreeExcept2(s: State, t: State, f: Option<Field>, g: Option<Field>) {
    (f != Some(ThemeF) && g != Some(ThemeF) ==> s.theme == t.theme) &&
    (f != Some(NavbarOpenF) && g != Some(NavbarOpenF) ==> s.navbarOpen == t.navbarOpen) &&
    (f != Some(CurrentPageF) && g != Some(CurrentPageF) ==> s.currentPage == t.currentPage) &&
    (f != Some(GeneralInformationF) && g != Some(GeneralInformationF) ==> s.generalInformation == t.generalInformation) &&
    (f != Some(UserF) && g != Some(UserF) ==> s.user == t.user) &&
    (f != Some(LatestErrorF) && g != Some(LatestErrorF) ==> s.latestError == t.latestError) &&
    (f != Some(NotificationsF) && g != Some(NotificationsF) ==> s.notifications == t.notifications) &&
    (f != Some(GameweekDataF) && g != Some(GameweekDataF) ==> s.gameweekData == t.gameweekData) &&
    (f != Some(GameweekF) && g != Some(GameweekF) ==> s.gameweek == t.gameweek) &&
    (f != Some(FiltersF) && g != Some(FiltersF) ==> s.filters == t.filters) &&
    (f != Some(FixturesF) && g != Some(FixturesF) ==> s.fixtures == t.fixtures) &&
    (f != Some(IsLoadingF) && g != Some(IsLoadingF) ==> s.isLoading == t.isLoading) &&
    (f != Some(LoadingPercentF) && g != Some(LoadingPercentF) ==> s.loadingPercent == t.loadingPercent) &&
    (f != Some(PredictionResponseF) && g != Some(PredictionResponseF) ==> s.predictionResponse == t.predictionResponse)
  }

  /** A field an action wrote survives a later write to another field. */
  lemma HoldsKept(u: State, t: State, a: Action, g: Option<Field>)
    requires Holds(u, a) && AgreeExcept(u, t, g) && g != Target(a)
    ensures Holds(t, a)
  {
    match a
    case Unknown(_) =>
    case _ =>
  }

  /** Agreeing on the field `a` names narrows a two-field exception to one. */
  lemma Narrow(x: State, y: State, a: Action, g: Option<Field>)
    requires AgreeExcept2(x, y, Target(a), g) && Holds(x, a) && Holds(y, a)
    ensures AgreeExcept(x, y, g)
  {
    match a
    case Unknown(_) =>
    case _ =>
  }

  /** Writing `f` then `g`, or `g` then `f`, touches nothing else. */
  lemma WritesAgreeElsewhere(s: State, sa: State, sb: State, ab: State, ba: State, f: Option<Field>, g: Option<Field>)
    requires AgreeExcept(s, sa, f) && AgreeExcept(sa, ab, g)
    requires AgreeExcept(s, sb, g) && AgreeExcept(sb, ba, f)
    ensures AgreeExcept2(ab, ba, f, g)
  {
  }

  /** Two writes to different fields reach the same state in either order. */
  lemma SwapWrites(s: State, sa: State, sb: State, ab: State, ba: State, a: Action, b: Action)
    requires Target(a) != Target(b)
    requires Holds(sa, a) && AgreeExcept(s, sa, Target(a)) && Holds(ab, b) && AgreeExcept(sa, ab, Target(b))
    requires Holds(sb, b) && AgreeExcept(s, sb, Target(b)) && Holds(ba, a) && AgreeExcept(sb, ba, Target(a))
    ensures ab == ba
  {
    HoldsKept(sa, ab, a, Target(b));
    HoldsKept(sb, ba, b, Target(a));
    WritesAgreeElsewhere(s, sa, sb, ab, ba, Target(a), Target(b));
    Narrow(ab, ba, a, Target(b));
    AgreeOnAll(ab, ba, b);
  }

  /** Actions on different fields commute. */
  lemma DifferentFieldsCommute(s: State, a: Action, b: Action)
    requires Target(a) != Target(b)
    ensures Apply(Apply(s, a), b) == Apply(Apply(s, b), a)
  {
    SwapWrites(s, Apply(s, a), Apply(s, b), Apply(Apply(s, a), b), Apply(Apply(s, b), a), a, b);
  }

  /** `initialState` (Reducers.ts). */
  const EmptyGeneralInformation := GeneralInformation([], [], [])
  const EmptyUser := FantasyUser(None, None, [], [], false, [])

  function Initial(): (r: State)
    ensures r.theme == "dark" && !r.navbarOpen && r.currentPage == Landing
    ensures r.gameweek == None && r.latestError == Null && r.gameweekData == None
    ensures r.filters == Filters(None, 1, 1)
    ensures r.loadingPercent == 0.0 && !r.isLoading
    ensures r.user.teamID == None && r.user.team == None && !r.user.loadedInformation
    // the type allows null, but the store starts with an empty, non-null response
    ensures r.predictionResponse == Some(PredictionResponse("", []))
  {
    State(
      theme := "dark",
      navbarOpen := false,
      currentPage := Landing,
      generalInformation := EmptyGeneralInformation,
      user := EmptyUser,
      latestError := Null,
      notifications := [],
      gameweekData := None,
      gameweek := None,
      filters := Filters(None, 1, 1),
      fixtures := [],
      isLoading := false,
      loadingPercent := 0.0,
      predictionResponse := Some(PredictionResponse("", [])))
  }

  /** The function given to `createStore`: with no previous state the action is
      ignored and the initial state returned. */
  function Reduce(prev: Option<State>, a: Action): (r: State)
    ensures prev.None? ==> r == Initial()
    ensures prev.Some? ==> Holds(r, a) && AgreeExcept(prev.value, r, Target(a))
  {
    match prev
    case None => Initial()
    case Some(s) => Apply(s, a)
  }

  /** Dispatching `actions` one after another. */
  function ApplyAll(s: State, actions: seq<Action>): State
    decreases |actions|
  {
    if actions == [] then s else ApplyAll(Apply(s, actions[0]), actions[1..])
  }

  /** The redux store: one state, changed only by dispatching actions. */
  class Store {
    var state: State

    /** `createStore` runs its initialisation action on no state. */
    constructor (initAction: Action)
      ensures state == Initial()
    {
      state := Reduce(None, initAction);
    }

    method Dispatch(a: Action)
      modifies this
      ensures state == Apply(old(state), a)
    {
      state := Apply(state, a);
    }
  }
}
