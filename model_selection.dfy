/** The model picker (src/Components/ModelSelectionPane.tsx): five cards, one per
    regressor the backend can train; choosing one stores it in the filters. */
module ModelSelection {
  import opened Common
  import opened Records
  import opened Reducers
  import opened Seqs
  import ModelOperations

  /** The card names, top to bottom. */
  function ModelNames(): (r: seq<string>)
    ensures |r| == 5 && Distinct(r)
  {
    ["Linear Regression", "Decision Tree", "Random Forest", "Gradient Boosting", "Support Vector Machine"]
  }

  /** The cards offer exactly the models the backend trains: a card's name never
      meets "Unknown model type", and any other name does. */
  lemma ModelNamesMatchBackend(name: string)
    ensures name in ModelNames() <==> ModelOperations.TrainAlgorithm(name).Ok?
  {
    var names := ModelNames();
    if ModelOperations.TrainAlgorithm(name).Ok? {
      if name == "Linear Regression" { assert names[0] == name; }
      else if name == "Decision Tree" { assert names[1] == name; }
      else if name == "Random Forest" { assert names[2] == name; }
      else if name == "Gradient Boosting" { assert names[3] == name; }
      else { assert names[4] == name; }
    }
  }

  /** `filters.model || ""` */
  function InitialValue(f: Filters): (r: string)
    ensures f.model.None? ==> r == ""
    ensures f.model.Some? ==> r == f.model.value
  {
    f.model.GetOr("")
  }

  /** `{ ...filters, model: name }` */
  function WithModel(f: Filters, name: string): (r: Filters)
    ensures r.model == Some(name) && r.horizon == f.horizon && r.transfers == f.transfers
  {
    f.(model := Some(name))
  }

  /** Whether the card at `index` is drawn as selected. */
  predicate Highlighted(value: string, index: nat)
    requires index < |ModelNames()|
  {
    value == ModelNames()[index]
  }

  /** At most one card is highlighted, and after choosing a card exactly that
      one is. */
  lemma AtMostOneHighlighted(value: string, i: nat, j: nat)
    requires i < 5 && j < 5
    ensures Highlighted(value, i) && Highlighted(value, j) ==> i == j
    ensures Highlighted(ModelNames()[i], j) <==> i == j
  {
  }

  /** The card selected locally. */
  class ModelSelectionPane {
    var value: string

    constructor (filters: Filters)
      ensures value == InitialValue(filters)
    {
      value := InitialValue(filters);
    }

    /** `setModel`: store the model in the filters, then select its card. */
    method SetModel(store: Store, name: string)
      modifies this, store
      ensures value == name
      ensures store.state == old(store.state).(filters := WithModel(old(store.state.filters), name))
    {
      store.Dispatch(SetFilters(WithModel(store.state.filters, name)));
      value := name;
    }
  }
}
