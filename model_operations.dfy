/** The deterministic parts of the model and optimiser module
    (api/functions/model_operations.py): which regressors can be trained, the
    train/test split, the sale-price rule, and the bookkeeping done on the
    solver's chosen squad and starting eleven. The solver itself is an input. */
module ModelOperations {
  import opened Common
  import opened Seqs
  import opened Sorting
  import Records
  import FunctionApp
  import Text

  // ---------------------------------------------------------------- training

  datatype Algorithm = LinearRegression | DecisionTree | RandomForest | GradientBoosting | SupportVectorRegression

  /** The regressor `train_model` builds for a model name. */
  function TrainAlgorithm(modelType: string): (r: Result<Algorithm>)
    ensures r.Err? ==> r.message == "Unknown model type: " + modelType
  {
    if modelType == "Linear Regression" then Ok(LinearRegression)
    else if modelType == "Decision Tree" then Ok(DecisionTree)
    else if modelType == "Random Forest" then Ok(RandomForest)
    else if modelType == "Gradient Boosting" then Ok(GradientBoosting)
    else if modelType == "Support Vector Machine" then Ok(SupportVectorRegression)
    else Err("Unknown model type: " + modelType)
  }

  /** Different names give different regressors. */
  lemma TrainAlgorithmInjective(a: string, b: string)
    requires TrainAlgorithm(a).Ok? && TrainAlgorithm(b).Ok? && a != b
    ensures TrainAlgorithm(a).value != TrainAlgorithm(b).value
  {
  }

  /** `train_test_split`: the first 80% of the rows (rounded down) train, the rest
      test; rows are not shuffled. */
  function TrainTestSplit<T>(rows: seq<T>): (r: (seq<T>, seq<T>))
    ensures r.0 + r.1 == rows
    ensures 5 * |r.0| <= 4 * |rows| < 5 * |r.0| + 5
  {
    var splitIdx := (|rows| * 8) / 10;
    (rows[..splitIdx], rows[splitIdx..])
  }

  /** With two rows or more both parts are non-empty, and the test part holds at
      least a fifth of the rows. */
  lemma TrainTestSplitSizes<T>(rows: seq<T>)
    requires |rows| >= 2
    ensures |TrainTestSplit(rows).0| >= 1 && |TrainTestSplit(rows).1| >= 1
    ensures 5 * |TrainTestSplit(rows).1| >= |rows|
  {
  }

  // ---------------------------------------------------------------- sale price

  /** A row of the manager's transfer history. Prices are in tenths of a million. */
  datatype ManagerTransfer = ManagerTransfer(elementIn: int, elementInCost: int, time: int)

  /** Later transfers first. */
  function LaterFirst(): (ManagerTransfer, ManagerTransfer) -> bool {
    (a: ManagerTransfer, b: ManagerTransfer) => a.time >= b.time
  }

  /** The purchase of `playerId` with the latest time; of equally late ones, the
      first in the history. */
  function LatestPurchase(history: seq<ManagerTransfer>, playerId: int): (r: Option<ManagerTransfer>)
    ensures r.None? <==> forall i :: 0 <= i < |history| ==> history[i].elementIn != playerId
    ensures r.Some? ==> r.value in history && r.value.elementIn == playerId
    ensures r.Some? ==> forall i :: 0 <= i < |history| && history[i].elementIn == playerId ==> history[i].time <= r.value.time
  {
    var mine := Filter(history, (t: ManagerTransfer) => t.elementIn == playerId);
    var sorted := SortBy(mine, LaterFirst());
    SortByPermutes(mine, LaterFirst());
    if sorted == [] then
      assert mine == [] by { assert |mine| == |sorted|; }
      None
    else
      SortBySorted(mine, LaterFirst());
      assert sorted[0] in multiset(mine);
      forall i | 0 <= i < |history| && history[i].elementIn == playerId
        ensures history[i].time <= sorted[0].time
      {
        assert history[i] in multiset(sorted);
        var k :| 0 <= k < |sorted| && sorted[k] == history[i];
        assert k == 0 || LaterFirst()(sorted[0], sorted[k]);
      }
      Some(sorted[0])
  }

  /** The FPL sale rule: no rise, sell at today's price; after a rise, keep half
      of it, rounded down to a tenth. */
  function SalePrice(currentPrice: int, purchasePrice: int): (r: int)
    ensures currentPrice <= purchasePrice ==> r == currentPrice
    ensures currentPrice > purchasePrice ==> purchasePrice <= r < currentPrice
    ensures currentPrice > purchasePrice ==> 2 * (r - purchasePrice) <= currentPrice - purchasePrice < 2 * (r - purchasePrice) + 2
  {
    var priceDiff := currentPrice - purchasePrice;
    if priceDiff <= 0 then currentPrice else purchasePrice + priceDiff / 2
  }

  /** `calculate_sale_price`: the purchase price is that of the latest transfer in
      of the player, or today's price when there is none. */
  function CalculateSalePrice(playerId: int, history: seq<ManagerTransfer>, currentPrice: int): (r: int)
    ensures r <= currentPrice
    ensures (forall i :: 0 <= i < |history| ==> history[i].elementIn != playerId) ==> r == currentPrice
    // otherwise the sale rule applied to the cost of the latest purchase
    ensures LatestPurchase(history, playerId).Some? ==>
              r == SalePrice(currentPrice, LatestPurchase(history, playerId).value.elementInCost)
  {
    var purchasePrice := match LatestPurchase(history, playerId)
      case None => currentPrice
      case Some(t) => t.elementInCost;
    SalePrice(currentPrice, purchasePrice)
  }

  /** When one purchase of the player is strictly later than all others, its cost
      is the one the sale rule uses. */
  lemma SalePriceUsesLatestPurchase(playerId: int, history: seq<ManagerTransfer>, k: nat, currentPrice: int)
    requires k < |history| && history[k].elementIn == playerId
    requires forall i :: 0 <= i < |history| && i != k && history[i].elementIn == playerId ==> history[i].time < history[k].time
    ensures CalculateSalePrice(playerId, history, currentPrice) == SalePrice(currentPrice, history[k].elementInCost)
  {
    var t := LatestPurchase(history, playerId);
    assert t.Some?;
    var j :| 0 <= j < |history| && history[j] == t.value;
    assert history[k].time <= t.value.time;
    assert j == k;
  }

  /** A player bought at `cost` and never bought since sells for the rule's price. */
  lemma SalePriceOfOnlyPurchase(playerId: int, cost: int, time: int, currentPrice: int)
    ensures CalculateSalePrice(playerId, [ManagerTransfer(playerId, cost, time)], currentPrice)
            == SalePrice(currentPrice, cost)
  {
  }

  // ---------------------------------------------------------------- transfers

  /** A player row after the transfer solver ran. Prices are in tenths of a
      million; `targetPoints` are the twelve per-target point predictions. */
  datatype Candidate = Candidate(
    element: int,
    webName: string,
    value: int,
    totalPoints: real,
    inCurrentSquad: bool,
    inFinalSquad: bool,
    targetPoints: seq<real>)

  predicate IsTransferIn(c: Candidate) { c.inFinalSquad && !c.inCurrentSquad }
  predicate IsTransferOut(c: Candidate) { !c.inFinalSquad && c.inCurrentSquad }

  function TransfersIn(rows: seq<Candidate>): seq<Candidate> {
    Filter(rows, IsTransferIn)
  }

  function TransfersOut(rows: seq<Candidate>): seq<Candidate> {
    Filter(rows, IsTransferOut)
  }

  /** The current squad must hold exactly fifteen players before anything is solved. */
  function CheckCurrentSquad(rows: seq<Candidate>): (r: Result<seq<Candidate>>)
    ensures r.Ok? <==> |Filter(rows, (c: Candidate) => c.inCurrentSquad)| == 15
    ensures r.Ok? ==> r.value == rows
  {
    if |Filter(rows, (c: Candidate) => c.inCurrentSquad)| != 15 then Err("Current squad must contain exactly 15 players")
    else Ok(rows)
  }

  /** The metric map of one side of a transfer: each target's predicted points,
      0 when the column is missing. */
  function TargetMetrics(c: Candidate): (r: seq<Records.Metric>)
    ensures |r| == |FunctionApp.Targets|
    ensures forall i :: 0 <= i < |r| ==> r[i].name == FunctionApp.Targets[i]
  {
    seq(|FunctionApp.Targets|, i requires 0 <= i < |FunctionApp.Targets| =>
      Records.Metric(FunctionApp.Targets[i], if i < |c.targetPoints| then c.targetPoints[i] else 0.0))
  }

  /** One entry of `transfer_pairs`. */
  function MakePair(i: Candidate, o: Candidate): (r: Records.Transfer)
    ensures r.gain == i.totalPoints - o.totalPoints
    ensures r.cost == (i.value - o.value) as real
    ensures r.transferIn == i.element && r.transferOut == o.element
  {
    Records.Transfer(
      cost := (i.value - o.value) as real,
      gain := i.totalPoints - o.totalPoints,
      playerInName := i.webName,
      playerOutName := o.webName,
      transferIn := i.element,
      transferOut := o.element,
      transferInMetrics := TargetMetrics(i),
      transferOutMetrics := TargetMetrics(o))
  }

  /** The loop over `zip(transfers_in, transfers_out)`: the k-th player in is paired
      with the k-th player out, and the longer list's extra players are dropped. */
  method BuildTransferPairs(ins: seq<Candidate>, outs: seq<Candidate>) returns (pairs: seq<Records.Transfer>)
    ensures |pairs| == Min(|ins|, |outs|)
    ensures forall k :: 0 <= k < |pairs| ==> pairs[k] == MakePair(ins[k], outs[k])
  {
    pairs := [];
    var k := 0;
    while k < |ins| && k < |outs|
      invariant 0 <= k <= |ins| && k <= |outs|
      invariant |pairs| == k
      invariant forall j :: 0 <= j < k ==> pairs[j] == MakePair(ins[j], outs[j])
    {
      pairs := pairs + [MakePair(ins[k], outs[k])];
      k := k + 1;
    }
  }

  function Values(rows: seq<Candidate>): seq<int> {
    if rows == [] then [] else [rows[0].value] + Values(rows[1..])
  }

  function PointsOf(rows: seq<Candidate>): seq<real> {
    if rows == [] then [] else [rows[0].totalPoints] + PointsOf(rows[1..])
  }

  datatype TransferSummary = TransferSummary(
    netCost: real,
    pointsGain: real,
    numTransfers: int,
    totalCost: real,
    totalSaleValue: real)

  /** The figures returned next to the pairs, prices converted to millions. */
  function Summarise(rows: seq<Candidate>, pairs: seq<Records.Transfer>): (r: TransferSummary)
    ensures r.numTransfers == |pairs|
    ensures r.netCost == r.totalCost - r.totalSaleValue
    // prices are in tenths of a million: the cost is what the players in are worth,
    // the sale value what the players out are worth
    ensures r.totalCost == SumInt(Values(TransfersIn(rows))) as real / 10.0
    ensures r.totalSaleValue == SumInt(Values(TransfersOut(rows))) as real / 10.0
    // the squad-level gain is the points of the players in minus those of the players out
    ensures r.pointsGain == Sum(PointsOf(TransfersIn(rows))) - Sum(PointsOf(TransfersOut(rows)))
  {
    PointsGainIsInMinusOut(rows);
    var inCost := SumInt(Values(TransfersIn(rows)));
    var outValue := SumInt(Values(TransfersOut(rows)));
    TransferSummary(
      netCost := (inCost - outValue) as real / 10.0,
      pointsGain := Sum(PointsOf(Filter(rows, (c: Candidate) => c.inFinalSquad)))
                    - Sum(PointsOf(Filter(rows, (c: Candidate) => c.inCurrentSquad))),
      numTransfers := |pairs|,
      totalCost := inCost as real / 10.0,
      totalSaleValue := outValue as real / 10.0)
  }

  /** The squad's points gain is what the players coming in bring minus what the
      players going out took: players kept on both sides cancel. */
  lemma {:induction false} PointsGainIsInMinusOut(rows: seq<Candidate>)
    ensures Sum(PointsOf(Filter(rows, (c: Candidate) => c.inFinalSquad)))
            - Sum(PointsOf(Filter(rows, (c: Candidate) => c.inCurrentSquad)))
            == Sum(PointsOf(TransfersIn(rows))) - Sum(PointsOf(TransfersOut(rows)))
  {
    if rows != [] {
      PointsGainIsInMinusOut(rows[1..]);
      var c := rows[0];
      assert Filter(rows, (c: Candidate) => c.inFinalSquad)
             == (if c.inFinalSquad then [c] else []) + Filter(rows[1..], (c: Candidate) => c.inFinalSquad);
      assert Filter(rows, (c: Candidate) => c.inCurrentSquad)
             == (if c.inCurrentSquad then [c] else []) + Filter(rows[1..], (c: Candidate) => c.inCurrentSquad);
      PointsOfPrepend(c, Filter(rows[1..], (c: Candidate) => c.inFinalSquad), c.inFinalSquad);
      PointsOfPrepend(c, Filter(rows[1..], (c: Candidate) => c.inCurrentSquad), c.inCurrentSquad);
      PointsOfPrepend(c, TransfersIn(rows[1..]), IsTransferIn(c));
      PointsOfPrepend(c, TransfersOut(rows[1..]), IsTransferOut(c));
    }
  }

  lemma PointsOfPrepend(c: Candidate, rest: seq<Candidate>, keep: bool)
    ensures Sum(PointsOf((if keep then [c] else []) + rest)) == (if keep then c.totalPoints else 0.0) + Sum(PointsOf(rest))
  {
    if keep {
      assert ([c] + rest)[1..] == rest;
    } else {
      assert [] + rest == rest;
    }
  }

  function GainsOf(pairs: seq<Records.Transfer>): seq<real> {
    if pairs == [] then [] else [pairs[0].gain] + GainsOf(pairs[1..])
  }

  /** When as many players come in as go out (the solver's balance constraint),
      the pairs' gains add up to the squad's points gain. */
  lemma PairGainsAddUp(rows: seq<Candidate>, pairs: seq<Records.Transfer>)
    requires |TransfersIn(rows)| == |TransfersOut(rows)|
    requires |pairs| == |TransfersIn(rows)|
    requires forall k :: 0 <= k < |pairs| ==> pairs[k] == MakePair(TransfersIn(rows)[k], TransfersOut(rows)[k])
    ensures Sum(GainsOf(pairs)) == Summarise(rows, pairs).pointsGain
  {
    PointsGainIsInMinusOut(rows);
    ZipGains(TransfersIn(rows), TransfersOut(rows), pairs);
  }

  lemma {:induction false} ZipGains(ins: seq<Candidate>, outs: seq<Candidate>, pairs: seq<Records.Transfer>)
    requires |ins| == |outs| == |pairs|
    requires forall k :: 0 <= k < |pairs| ==> pairs[k] == MakePair(ins[k], outs[k])
    ensures Sum(GainsOf(pairs)) == Sum(PointsOf(ins)) - Sum(PointsOf(outs))
  {
    if pairs != [] {
      ZipGains(ins[1..], outs[1..], pairs[1..]);
    }
  }

  function CostsOf(pairs: seq<Records.Transfer>): seq<real> {
    if pairs == [] then [] else [pairs[0].cost] + CostsOf(pairs[1..])
  }

  /** The cost side of PairGainsAddUp: with balanced transfers, the pairs' costs
      (in tenths of a million) add up to ten times the summary's net cost. */
  lemma PairCostsAddUp(rows: seq<Candidate>, pairs: seq<Records.Transfer>)
    requires |TransfersIn(rows)| == |TransfersOut(rows)|
    requires |pairs| == |TransfersIn(rows)|
    requires forall k :: 0 <= k < |pairs| ==> pairs[k] == MakePair(TransfersIn(rows)[k], TransfersOut(rows)[k])
    ensures Sum(CostsOf(pairs)) == 10.0 * Summarise(rows, pairs).netCost
  {
    ZipCosts(TransfersIn(rows), TransfersOut(rows), pairs);
  }

  lemma {:induction false} ZipCosts(ins: seq<Candidate>, outs: seq<Candidate>, pairs: seq<Records.Transfer>)
    requires |ins| == |outs| == |pairs|
    requires forall k :: 0 <= k < |pairs| ==> pairs[k] == MakePair(ins[k], outs[k])
    ensures Sum(CostsOf(pairs)) == (SumInt(Values(ins)) - SumInt(Values(outs))) as real
  {
    if pairs != [] {
      ZipCosts(ins[1..], outs[1..], pairs[1..]);
    }
  }

  // ---------------------------------------------------------------- starting eleven

  /** A squad row after the starting-eleven solver ran. */
  datatype SquadRow = SquadRow(
    element: int,
    elementType: int,
    totalPoints: real,
    startingXi: bool,
    isCaptain: bool)

  /** `df[df["element"].isin(element_ids)]`, which must leave fifteen rows. */
  function SelectSquad(rows: seq<SquadRow>, elementIds: seq<int>): (r: Result<seq<SquadRow>>)
    // accepted iff exactly fifteen rows belong to the chosen players
    ensures r.Ok? <==> |Filter(rows, (p: SquadRow) => p.element in elementIds)| == 15
    ensures r.Err? ==> r.message == "Expected 15 players, got " + Text.ShowInt(|Filter(rows, (p: SquadRow) => p.element in elementIds)|)
    ensures r.Ok? ==> |r.value| == 15
    ensures r.Ok? ==> forall i :: 0 <= i < 15 ==> r.value[i] in rows && r.value[i].element in elementIds
    // no chosen player's row is lost, and the input order is kept
    ensures r.Ok? ==> forall i :: 0 <= i < |rows| && rows[i].element in elementIds ==> rows[i] in r.value
    ensures r.Ok? ==> IsSubsequence(r.value, rows)
  {
    var squad := Filter(rows, (p: SquadRow) => p.element in elementIds);
    FilterIsSubsequence(rows, (p: SquadRow) => p.element in elementIds);
    if |squad| != 15 then Err("Expected 15 players, got " + Text.ShowInt(|squad|))
    else Ok(squad)
  }

  /** The captain: the first starter the solver marked. */
  function CaptainIndex(squad: seq<SquadRow>): (r: Option<nat>)
    ensures r.Some? ==> r.value < |squad| && squad[r.value].startingXi && squad[r.value].isCaptain
    ensures r.None? ==> forall i :: 0 <= i < |squad| ==> !(squad[i].startingXi && squad[i].isCaptain)
  {
    FirstIndex(squad, (p: SquadRow) => p.startingXi && p.isCaptain)
  }

  /** The vice captain: the starter with the most points other than the captain
      (the first of equals). */
  function ViceCaptainIndex(squad: seq<SquadRow>, captain: nat): (r: Option<nat>)
    requires captain < |squad|
    ensures r.Some? ==> r.value < |squad| && r.value != captain && squad[r.value].startingXi
    ensures r.Some? ==> forall i :: 0 <= i < |squad| && i != captain && squad[i].startingXi ==> squad[i].totalPoints <= squad[r.value].totalPoints
    ensures r.None? ==> forall i :: 0 <= i < |squad| && i != captain ==> !squad[i].startingXi
  {
    BestStarterFrom(squad, captain, 0)
  }

  /** The best starter other than `captain` at index `from` or later. */
  function BestStarterFrom(squad: seq<SquadRow>, captain: nat, from: nat): (r: Option<nat>)
    requires captain < |squad| && from <= |squad|
    ensures r.Some? ==> from <= r.value < |squad| && r.value != captain && squad[r.value].startingXi
    ensures r.Some? ==> forall i :: from <= i < |squad| && i != captain && squad[i].startingXi ==> squad[i].totalPoints <= squad[r.value].totalPoints
    ensures r.None? ==> forall i :: from <= i < |squad| && i != captain ==> !squad[i].startingXi
    decreases |squad| - from
  {
    if from == |squad| then None
    else
      var rest := BestStarterFrom(squad, captain, from + 1);
      if from == captain || !squad[from].startingXi then rest
      else if rest.None? || squad[rest.value].totalPoints <= squad[from].totalPoints then Some(from)
      else rest
  }

  /** A row's points; indices past the squad count as 0 and never occur. */
  function PointsAt(squad: seq<SquadRow>, i: nat): real {
    if i < |squad| then squad[i].totalPoints else 0.0
  }

  /** Bench rows first by points, highest first. */
  function MorePoints(squad: seq<SquadRow>): (nat, nat) -> bool {
    (i: nat, j: nat) => PointsAt(squad, i) >= PointsAt(squad, j)
  }

  predicate OnBench(squad: seq<SquadRow>, i: nat) {
    i < |squad| && !squad[i].startingXi
  }

  function BenchCandidates(squad: seq<SquadRow>): seq<nat> {
    Filter(Indices(|squad|), (i: nat) => OnBench(squad, i))
  }

  /** The bench in the order it is numbered: row indices of non-starters, by points. */
  function BenchIndices(squad: seq<SquadRow>): (r: seq<nat>)
    ensures |r| <= |squad|
    ensures forall k :: 0 <= k < |r| ==> OnBench(squad, r[k])
    ensures forall i :: 0 <= i < |squad| && !squad[i].startingXi ==> i in r
  {
    var bench := BenchCandidates(squad);
    SortByPermutes(bench, MorePoints(squad));
    var r := SortBy(bench, MorePoints(squad));
    forall k | 0 <= k < |r| ensures OnBench(squad, r[k]) {
      assert r[k] in multiset(bench);
      assert r[k] in bench;
    }
    forall i | 0 <= i < |squad| && !squad[i].startingXi ensures i in r {
      assert Indices(|squad|)[i] == i;
      assert i in bench;
      assert i in multiset(r);
    }
    r
  }

  function Indices(n: nat): (r: seq<nat>)
    ensures |r| == n && forall i :: 0 <= i < n ==> r[i] == i
  {
    seq(n, i => i)
  }

  /** The `bench_order` column: 0 for starters, then 1, 2, … down the bench. */
  method BenchOrder(squad: seq<SquadRow>) returns (order: seq<int>)
    ensures |order| == |squad|
    ensures forall i :: 0 <= i < |squad| && squad[i].startingXi ==> order[i] == 0
    ensures forall k :: 0 <= k < |BenchIndices(squad)| ==> order[BenchIndices(squad)[k]] == k + 1
  {
    var bench := BenchIndices(squad);
    BenchIndicesDistinct(squad);
    var column := new int[|squad|](_ => 0);
    var k := 0;
    while k < |bench|
      invariant 0 <= k <= |bench|
      invariant forall j :: 0 <= j < k ==> column[bench[j]] == j + 1
      invariant forall i :: 0 <= i < column.Length && squad[i].startingXi ==> column[i] == 0
    {
      column[bench[k]] := k + 1;
      k := k + 1;
    }
    order := column[..];
  }

  lemma BenchIndicesDistinct(squad: seq<SquadRow>)
    ensures Distinct(BenchIndices(squad))
  {
    var bench := BenchCandidates(squad);
    SortByPermutes(bench, MorePoints(squad));
    FilterMultiset(Indices(|squad|), (i: nat) => OnBench(squad, i));
    DistinctSubMultiset(Indices(|squad|), bench);
    DistinctSubMultiset(bench, BenchIndices(squad));
  }

  /** Bench numbers follow points: more points, lower number. */
  lemma BenchNumberedByPoints(squad: seq<SquadRow>, a: nat, b: nat)
    requires a < b < |BenchIndices(squad)|
    ensures squad[BenchIndices(squad)[a]].totalPoints >= squad[BenchIndices(squad)[b]].totalPoints
  {
    SortBySorted(BenchCandidates(squad), MorePoints(squad));
  }
}
