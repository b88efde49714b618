/** The filter panel of the team page (src/Components/TeamFilters.tsx): the
    horizon and free-transfer sliders, which write the store's filters, and the
    buttons that start predictions and the two optimisers. */
module TeamFilterControls {
  import opened Common
  import opened Records
  import opened Reducers
  import FunctionApp
  import Text

  /** JavaScript's `n || 1` on a number: 0 is falsy and falls back to 1. */
  function OrOne(n: int): (r: int)
    ensures r != 0
    ensures n != 0 ==> r == n
  {
    if n != 0 then n else 1
  }

  /** `{ ...filters, horizon: value }` */
  function WithHorizon(f: Filters, value: int): (r: Filters)
    ensures r.horizon == value && r.model == f.model && r.transfers == f.transfers
  {
    f.(horizon := value)
  }

  /** `{ ...filters, transfers: value }` */
  function WithTransfers(f: Filters, value: int): (r: Filters)
    ensures r.transfers == value && r.model == f.model && r.horizon == f.horizon
  {
    f.(transfers := value)
  }

  /** Editing the two sliders in either order leaves the same filters. */
  lemma SliderEditsCommute(f: Filters, h: int, t: int)
    ensures WithTransfers(WithHorizon(f, h), t) == WithHorizon(WithTransfers(f, t), h)
    ensures WithTransfers(WithHorizon(f, h), t) == Filters(f.model, h, t)
  {
  }

  /** A slider's range: every value from `min` to `max` that is a whole number of
      steps above `min`. */
  datatype SliderRange = SliderRange(min: int, max: int, step: nat)

  predicate Allows(range: SliderRange, v: int) {
    range.step > 0 && range.min <= v <= range.max && (v - range.min) % range.step == 0
  }

  /** The horizon slider runs from 1 to `39 - (gameweek ?? 0)`. */
  function HorizonSlider(gameweek: Option<int>): (r: SliderRange)
    ensures forall v :: Allows(r, v) <==> 1 <= v <= 39 - gameweek.GetOr(0)
  {
    SliderRange(1, 39 - gameweek.GetOr(0), 1)
  }

  /** The free-transfers slider runs from 1 to 5. */
  function TransfersSlider(): (r: SliderRange)
    ensures forall v :: Allows(r, v) <==> 1 <= v <= 5
  {
    SliderRange(1, 5, 1)
  }

  /** The page's gameweek is the next one, so the backend's current round is the
      one before it; then every horizon the slider offers is one the backend
      plans for unchanged, and no horizon the backend would cap is offered. */
  lemma SliderMatchesBackendCap(model: string, gameweek: int, v: int)
    requires model != ""
    requires Allows(HorizonSlider(Some(gameweek)), v)
    ensures FunctionApp.PlanPredictions(Some(model), Some(Text.ShowInt(v)), gameweek - 1)
            == FunctionApp.Accept(FunctionApp.PredictionPlan(model, v))
  {
    FunctionApp.HorizonInRangeUnchanged(model, v, gameweek - 1);
  }

  /** Which of the three buttons can be pressed. */
  datatype Buttons = Buttons(makePredictions: bool, optimiseTransfers: bool, optimiseTeam: bool)

  /** The store always holds a user record, so the panel is shown and "Make
      Predictions" is enabled; the optimisers wait for predictions. */
  function PanelButtons(predicted: bool): (r: Buttons)
    ensures r.makePredictions
    ensures r.optimiseTransfers <==> predicted
    ensures r.optimiseTeam <==> predicted
  {
    Buttons(true, predicted, predicted)
  }

  /** The panel's local slider positions. */
  class TeamFiltersPanel {
    var horizon: int
    var transfers: int

    /** The sliders start at the stored filters, 1 where a stored value is 0. */
    constructor (filters: Filters)
      ensures horizon == OrOne(filters.horizon) && transfers == OrOne(filters.transfers)
    {
      horizon := OrOne(filters.horizon);
      transfers := OrOne(filters.transfers);
    }

    /** `onChangeHorizon`: move the slider and store the new horizon. */
    method OnChangeHorizon(store: Store, value: int)
      modifies this, store
      ensures horizon == value && transfers == old(transfers)
      ensures store.state == old(store.state).(filters := WithHorizon(old(store.state.filters), value))
    {
      horizon := value;
      store.Dispatch(SetFilters(WithHorizon(store.state.filters, value)));
    }

    /** `onChangeTransfers`: move the slider and store the new transfer count. */
    method OnChangeTransfers(store: Store, value: int)
      modifies this, store
      ensures transfers == value && horizon == old(horizon)
      ensures store.state == old(store.state).(filters := WithTransfers(old(store.state.filters), value))
    {
      transfers := value;
      store.Dispatch(SetFilters(WithTransfers(store.state.filters, value)));
    }
  }
}
