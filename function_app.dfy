/** The HTTP backend's scoring rules and request checks (api/function_app.py):
    the twelve predicted statistics, how many fantasy points each is worth, the
    feature list the models are trained on, and the parameter handling of the
    `make_predictions` and `optimise_team` routes. */
module FunctionApp {
  import opened Common
  import opened Seqs
  import opened Text

  /** The twelve statistics a model is trained to predict, in order. */
  const Targets: seq<string> := [
    "minutes", "goals_scored", "assists", "clean_sheets", "saves", "penalties_saved",
    "penalties_missed", "bonus", "goals_conceded", "yellow_cards", "red_cards", "own_goals"]

  /** The last gameweek of a season. */
  const MaxRound: int := 38

  // ---------------------------------------------------------------- features

  /** The three engineered columns derived from one statistic. */
  function FeatureNamesFor(stat: string): seq<string> {
    [stat + "_rolling_3", stat + "_rolling_5", stat + "_season_total"]
  }

  /** The engineered columns of every statistic in `stats`, statistic by statistic. */
  function EngineeredFeatures(stats: seq<string>): (r: seq<string>)
    ensures |r| == 3 * |stats|
  {
    if stats == [] then [] else FeatureNamesFor(stats[0]) + EngineeredFeatures(stats[1..])
  }

  lemma {:induction false} EngineeredFeaturesAppend(a: seq<string>, b: seq<string>)
    ensures EngineeredFeatures(a + b) == EngineeredFeatures(a) + EngineeredFeatures(b)
  {
    if a == [] {
      assert a + b == b;
    } else {
      assert (a + b)[1..] == a[1..] + b;
      EngineeredFeaturesAppend(a[1..], b);
    }
  }

  /** The column at `3 * i + k` is statistic `i` with the `k`-th suffix. */
  lemma {:induction false} EngineeredFeatureAt(stats: seq<string>, i: nat, k: nat)
    requires i < |stats| && k < 3
    ensures EngineeredFeatures(stats)[3 * i + k] == FeatureNamesFor(stats[i])[k]
  {
    if i > 0 {
      EngineeredFeatureAt(stats[1..], i - 1, k);
    }
  }

  /** The module-level loop that builds `numerical_features`: "selected", then the
      rolling and season-total columns of each target. */
  method BuildNumericalFeatures() returns (features: seq<string>)
    ensures |features| == 37 && features[0] == "selected"
    ensures features == ["selected"] + EngineeredFeatures(Targets)
  {
    features := AppendEngineered(["selected"], Targets);
  }

  /** The loop body of `BuildNumericalFeatures`: each statistic's three names
      appended in turn. */
  method AppendEngineered(prefix: seq<string>, stats: seq<string>) returns (features: seq<string>)
    ensures features == prefix + EngineeredFeatures(stats)
  {
    features := prefix;
    var i := 0;
    while i < |stats|
      invariant 0 <= i <= |stats|
      invariant features == prefix + EngineeredFeatures(stats[..i])
    {
      EngineeredFeaturesAppend(stats[..i], [stats[i]]);
      assert stats[..i + 1] == stats[..i] + [stats[i]];
      features := features + FeatureNamesFor(stats[i]);
      i := i + 1;
    }
    assert stats[..i] == stats;
  }

  // ---------------------------------------------------------------- points

  /** `calculate_minutes_points`: nothing for not playing, a share of one point
      below an hour, two points from an hour on. */
  function MinutesPoints(minutes: real): (r: real)
    ensures minutes == 0.0 ==> r == 0.0
    ensures 0.0 <= minutes < 60.0 ==> 0.0 <= r < 1.0
    ensures 0.0 < minutes < 60.0 ==> r == minutes / 60.0
    ensures minutes >= 60.0 ==> r == 2.0
  {
    if minutes == 0.0 then 0.0
    else if minutes < 60.0 then minutes / 60.0
    else 2.0
  }

  /** More minutes never score fewer points. */
  lemma MinutesPointsMonotone(a: real, b: real)
    requires 0.0 <= a <= b
    ensures MinutesPoints(a) <= MinutesPoints(b)
  {
  }

  /** Points per goal by position; any other element type scores nothing. */
  function GoalMultiplier(elementType: int): real {
    match elementType
    case 1 => 10.0
    case 2 => 6.0
    case 3 => 5.0
    case 4 => 4.0
    case _ => 0.0
  }

  /** Points per clean sheet by position. */
  function CleanSheetMultiplier(elementType: int): real {
    match elementType
    case 1 => 4.0
    case 2 => 4.0
    case 3 => 1.0
    case 4 => 0.0
    case _ => 0.0
  }

  /** `calculate_points` for one row: the fantasy points `value` of statistic
      `target` is worth to a player of `elementType`. */
  function Points(target: string, value: real, elementType: int): (r: Result<real>)
    ensures r.Ok? <==> target in Targets
  {
    if target == "minutes" then Ok(MinutesPoints(value))
    else if target == "goals_scored" then Ok(value * GoalMultiplier(elementType))
    else if target == "assists" then Ok(value * 3.0)
    else if target == "clean_sheets" then Ok(value * CleanSheetMultiplier(elementType))
    else if target == "saves" then Ok(value * (1.0 / 3.0))
    else if target == "penalties_saved" then Ok(value * 5.0)
    else if target == "penalties_missed" then Ok(value * -2.0)
    else if target == "bonus" then Ok(value)
    else if target == "goals_conceded" then Ok(value * -0.5)
    else if target == "yellow_cards" then Ok(value * -1.0)
    else if target == "red_cards" then Ok(value * -3.0)
    else if target == "own_goals" then Ok(value * -2.0)
    else Err("Unknown target '" + target + "' provided to calculate_points")
  }

  /** Every statistic but minutes is scored at a fixed rate per unit. */
  lemma PointsLinear(target: string, value: real, elementType: int)
    requires target in Targets && target != "minutes"
    ensures Points(target, value, elementType).value == value * Points(target, 1.0, elementType).value
  {
  }

  /** The rate per unit of the statistics whose value depends on the position. */
  lemma PointRates(elementType: int)
    ensures Points("goals_scored", 1.0, 1).value == 10.0 && Points("goals_scored", 1.0, 2).value == 6.0
    ensures Points("goals_scored", 1.0, 3).value == 5.0 && Points("goals_scored", 1.0, 4).value == 4.0
    ensures Points("clean_sheets", 1.0, 1).value == 4.0 && Points("clean_sheets", 1.0, 2).value == 4.0
    ensures Points("clean_sheets", 1.0, 3).value == 1.0 && Points("clean_sheets", 1.0, 4).value == 0.0
    ensures !(1 <= elementType <= 4) ==>
              Points("goals_scored", 1.0, elementType).value == 0.0 && Points("clean_sheets", 1.0, elementType).value == 0.0
  {
  }

  /** The rate per unit of each statistic scored the same for every position. */
  lemma FlatRates(elementType: int)
    ensures Points("assists", 1.0, elementType).value == 3.0
    ensures Points("saves", 1.0, elementType).value == 1.0 / 3.0
    ensures Points("penalties_saved", 1.0, elementType).value == 5.0
    ensures Points("penalties_missed", 1.0, elementType).value == -2.0
    ensures Points("bonus", 1.0, elementType).value == 1.0
    ensures Points("goals_conceded", 1.0, elementType).value == -0.5
    ensures Points("yellow_cards", 1.0, elementType).value == -1.0
    ensures Points("red_cards", 1.0, elementType).value == -3.0
    ensures Points("own_goals", 1.0, elementType).value == -2.0
  {
  }

  /** The statistics that earn points and those that cost points. */
  const Rewarded: set<string> := {"minutes", "goals_scored", "assists", "clean_sheets", "saves", "penalties_saved", "bonus"}
  const Penalised: set<string> := {"penalties_missed", "goals_conceded", "yellow_cards", "red_cards", "own_goals"}

  /** Every target is either rewarded or penalised: a non-negative prediction of
      a rewarded statistic never costs points, and of a penalised one never earns. */
  lemma PointsSign(target: string, value: real, elementType: int)
    requires target in Targets && value >= 0.0
    ensures target in Rewarded <==> target !in Penalised
    ensures target in Rewarded ==> Points(target, value, elementType).value >= 0.0
    ensures target in Penalised ==> Points(target, value, elementType).value <= 0.0
  {
  }

  /** A goalkeeper's goal is worth the most, a forward's the least; a manager
      (element type 5) earns nothing from goals or clean sheets. */
  lemma GoalValueByPosition(goals: real)
    requires goals > 0.0
    ensures Points("goals_scored", goals, 1).value > Points("goals_scored", goals, 2).value
            > Points("goals_scored", goals, 3).value > Points("goals_scored", goals, 4).value > 0.0
    ensures Points("goals_scored", goals, 5).value == 0.0 && Points("clean_sheets", goals, 5).value == 0.0
  {
  }

  /** `np.maximum(prediction, 0)` */
  function Clamp(x: real): (r: real)
    ensures r >= 0.0 && r >= x && (x >= 0.0 ==> r == x)
  {
    if x < 0.0 then 0.0 else x
  }

  /** The points of the first `k` targets for one player's predictions. */
  function PointsUpTo(predictions: seq<real>, elementType: int, k: nat): real
    requires |predictions| == |Targets| && k <= |Targets|
  {
    if k == 0 then 0.0
    else PointsUpTo(predictions, elementType, k - 1) + Points(Targets[k - 1], Clamp(predictions[k - 1]), elementType).value
  }

  /** `total_points`: the sum of the twelve per-target point columns, each computed
      from the clamped prediction. */
  function TotalPoints(predictions: seq<real>, elementType: int): (r: real)
    requires |predictions| == |Targets|
    // predicting nothing (or less) scores nothing
    ensures (forall i :: 0 <= i < |predictions| ==> predictions[i] <= 0.0) ==> r == 0.0
  {
    ZeroPredictionsScoreZero(predictions, elementType, |Targets|);
    PointsUpTo(predictions, elementType, |Targets|)
  }

  /** A larger value of a rewarded statistic never scores fewer points. */
  lemma PointsMonotone(target: string, a: real, b: real, elementType: int)
    requires target in Rewarded && 0.0 <= a <= b
    ensures Points(target, a, elementType).value <= Points(target, b, elementType).value
  {
    if target == "minutes" {
      MinutesPointsMonotone(a, b);
    } else {
      var rate := Points(target, 1.0, elementType).value;
      PointsLinear(target, a, elementType);
      PointsLinear(target, b, elementType);
      assert rate >= 0.0;
      assert a * rate <= b * rate;
    }
  }

  /** Raising the prediction of a rewarded statistic never lowers a player's total. */
  lemma {:induction false} RewardedPredictionRaisesTotal(predictions: seq<real>, elementType: int, i: nat, x: real, k: nat)
    requires |predictions| == |Targets| && k <= |Targets| && i < |Targets|
    requires Targets[i] in Rewarded && x >= predictions[i]
    ensures PointsUpTo(predictions[i := x], elementType, k) >= PointsUpTo(predictions, elementType, k)
  {
    if k > 0 {
      RewardedPredictionRaisesTotal(predictions, elementType, i, x, k - 1);
      if k - 1 == i {
        PointsMonotone(Targets[i], Clamp(predictions[i]), Clamp(x), elementType);
      } else {
        assert predictions[i := x][k - 1] == predictions[k - 1];
      }
    }
  }

  /** Over the whole round total: predicting more of a rewarded statistic never
      lowers `total_points`. */
  lemma TotalPointsMonotone(predictions: seq<real>, elementType: int, i: nat, x: real)
    requires |predictions| == |Targets| && i < |Targets|
    requires Targets[i] in Rewarded && x >= predictions[i]
    ensures TotalPoints(predictions[i := x], elementType) >= TotalPoints(predictions, elementType)
  {
    RewardedPredictionRaisesTotal(predictions, elementType, i, x, |Targets|);
  }

  /** A player predicted to do nothing scores nothing; negative predictions count
      as nothing. */
  lemma {:induction false} ZeroPredictionsScoreZero(predictions: seq<real>, elementType: int, k: nat)
    requires |predictions| == |Targets| && k <= |Targets|
    ensures (forall i :: 0 <= i < |predictions| ==> predictions[i] <= 0.0) ==>
              PointsUpTo(predictions, elementType, k) == 0.0
  {
    if k > 0 && forall i :: 0 <= i < |predictions| ==> predictions[i] <= 0.0 {
      ZeroPredictionsScoreZero(predictions, elementType, k - 1);
      assert Clamp(predictions[k - 1]) == 0.0;
    }
  }

  // ---------------------------------------------------------------- requests

  /** An HTTP answer other than success. */
  datatype Answer<+T> = Accept(value: T) | Reject(status: int, body: string)

  datatype PredictionPlan = PredictionPlan(model: string, horizon: int)

  /** `make_predictions` up to the prediction loop. `horizon` is parsed before the
      `try` block, so text that is not an integer escapes as an unhandled error
      (500); a missing or empty model answers 400; the horizon is then capped at
      the rounds left in the season, and nothing left answers 400. */
  function PlanPredictions(modelParam: Option<string>, horizonParam: Option<string>, currentRound: int): (r: Answer<PredictionPlan>)
    ensures r.Accept? ==> r.value.model != "" && modelParam == Some(r.value.model)
    ensures r.Accept? ==> 1 <= r.value.horizon <= MaxRound - currentRound
    ensures r.Accept? && horizonParam.None? ==> r.value.horizon == 1
    ensures r.Accept? && horizonParam.Some? ==> ParseInt(horizonParam.value).Ok? && r.value.horizon == Min(ParseInt(horizonParam.value).value, MaxRound - currentRound)
    ensures horizonParam.Some? && ParseInt(horizonParam.value).Err? ==> r == Reject(500, "Internal Server Error")
  {
    var parsed := match horizonParam case None => Ok(1) case Some(text) => ParseInt(text);
    if parsed.Err? then Reject(500, "Internal Server Error")
    else if modelParam.None? || modelParam.value == "" then Reject(400, "Missing 'model' parameter")
    else
      var horizon := Min(parsed.value, MaxRound - currentRound);
      if horizon <= 0 then Reject(400, "Season is already complete")
      else Accept(PredictionPlan(modelParam.value, horizon))
  }

  /** The rounds the prediction loop visits. */
  function PredictedRounds(currentRound: int, horizon: nat): (r: seq<int>)
    ensures |r| == horizon
    ensures forall i :: 0 <= i < horizon ==> r[i] == currentRound + 1 + i
  {
    seq(horizon, i => currentRound + 1 + i)
  }

  /** An accepted plan never predicts past the last round of the season. */
  lemma PlanStaysInSeason(modelParam: Option<string>, horizonParam: Option<string>, currentRound: int)
    requires PlanPredictions(modelParam, horizonParam, currentRound).Accept?
    ensures var plan := PlanPredictions(modelParam, horizonParam, currentRound).value;
            forall i :: 0 <= i < plan.horizon ==> currentRound < PredictedRounds(currentRound, plan.horizon)[i] <= MaxRound
  {
  }

  /** A horizon inside the rounds that are left passes through unchanged. */
  lemma HorizonInRangeUnchanged(model: string, horizon: int, currentRound: int)
    requires model != "" && 1 <= horizon <= MaxRound - currentRound
    ensures PlanPredictions(Some(model), Some(ShowInt(horizon)), currentRound) == Accept(PredictionPlan(model, horizon))
  {
    ParseShowInt(horizon);
  }

  /** The `elements` parameter of `optimise_team`: comma-separated integers. */
  function ParseElements(elements: Option<string>): (r: Answer<seq<int>>)
    ensures elements.None? || elements == Some("") ==> r == Reject(400, "Please provide team_id")
    ensures r.Accept? ==> |r.value| == |Split(elements.value, ',')|
    ensures r.Accept? ==> forall i :: 0 <= i < |r.value| ==> ParseInt(Split(elements.value, ',')[i]) == Ok(r.value[i])
  {
    if elements.None? || elements.value == "" then Reject(400, "Please provide team_id")
    else
      var items := Split(elements.value, ',');
      match ParseAll(items)
      case None => Reject(400, "Invalid elements list; all IDs must be integers")
      case Some(ids) => Accept(ids)
  }

  /** `[int(x) for x in items]`, or nothing when some item is not an integer. */
  function ParseAll(items: seq<string>): (r: Option<seq<int>>)
    ensures r.Some? ==> |r.value| == |items| && forall i :: 0 <= i < |items| ==> ParseInt(items[i]) == Ok(r.value[i])
    ensures r.None? ==> exists i :: 0 <= i < |items| && ParseInt(items[i]).Err?
  {
    if items == [] then Some([])
    else match (ParseInt(items[0]), ParseAll(items[1..]))
      case (Ok(x), Some(rest)) => Some([x] + rest)
      case (Err(_), _) => None
      case (_, None) =>
        var i :| 1 <= i + 1 < |items| + 1 && 0 <= i < |items[1..]| && ParseInt(items[1..][i]).Err?;
        assert ParseInt(items[i + 1]).Err?;
        None
  }

  /** The decimal list a client sends for `ids`. */
  function ShowAll(ids: seq<int>): (r: seq<string>)
    ensures |r| == |ids| && forall i :: 0 <= i < |ids| ==> r[i] == ShowInt(ids[i])
  {
    seq(|ids|, i requires 0 <= i < |ids| => ShowInt(ids[i]))
  }

  /** Any non-empty list of ids written as "a,b,c" is read back exactly. */
  lemma ElementsRoundTrip(ids: seq<int>)
    requires |ids| >= 1
    ensures ParseElements(Some(Join(ShowAll(ids), ','))) == Accept(ids)
  {
    var parts := ShowAll(ids);
    forall i | 0 <= i < |parts|
      ensures ',' !in parts[i] && ParseInt(parts[i]) == Ok(ids[i])
    {
      ShowNoComma(ids[i]);
      ParseShowInt(ids[i]);
    }
    SplitJoin(parts, ',');
    JoinNotEmpty(parts, ',');
    var r := ParseAll(parts);
    assert r.value == ids;
  }

  lemma ShowNoComma(n: int)
    ensures ',' !in ShowInt(n)
  {
  }

  lemma JoinNotEmpty(parts: seq<string>, sep: char)
    requires |parts| >= 1 && |parts[0]| >= 1
    ensures Join(parts, sep) != ""
  {
  }
}
