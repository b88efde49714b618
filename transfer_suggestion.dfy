/** A suggested transfer's card (src/Components/TransferSuggestion.tsx): the
    metric-by-metric comparison of the player in with the player out, and the
    badge showing the points gain. */
module TransferSuggestion {
  import opened Common
  import opened Seqs
  import opened Records

  /** The metric names of a metric map, in order. */
  function Names(metrics: seq<Metric>): (r: seq<string>)
    ensures |r| == |metrics| && forall i :: 0 <= i < |r| ==> r[i] == metrics[i].name
  {
    seq(|metrics|, i requires 0 <= i < |metrics| => metrics[i].name)
  }

  /** `metrics[name] || 0`: a missing metric (or a zero one) reads as 0. */
  function ValueOf(metrics: seq<Metric>, name: string): (r: real)
    ensures (forall i :: 0 <= i < |metrics| ==> metrics[i].name != name) ==> r == 0.0
    ensures forall i ::
              (0 <= i < |metrics| && metrics[i].name == name && forall j :: 0 <= j < i ==> metrics[j].name != name) ==>
              r == metrics[i].value
  {
    match FirstIndex(metrics, (m: Metric) => m.name == name)
    case None => 0.0
    case Some(i) => metrics[i].value
  }

  /** One line of the comparison table. */
  datatype Comparison = Comparison(metric: string, inValue: real, outValue: real, difference: real, isBetter: bool)

  function Compare(t: Transfer, metric: string): (r: Comparison)
    ensures r.metric == metric
    ensures r.inValue == ValueOf(t.transferInMetrics, metric) && r.outValue == ValueOf(t.transferOutMetrics, metric)
    ensures r.difference == r.inValue - r.outValue
    ensures r.isBetter <==> r.inValue > r.outValue
  {
    var inValue := ValueOf(t.transferInMetrics, metric);
    var outValue := ValueOf(t.transferOutMetrics, metric);
    var difference := inValue - outValue;
    Comparison(metric, inValue, outValue, difference, difference > 0.0)
  }

  /** `new Set([...Object.keys(in), ...Object.keys(out)])`: every metric either
      player has, each once, in order of first appearance. */
  function AllMetrics(t: Transfer): (r: seq<string>)
    ensures Distinct(r)
    ensures forall name :: name in r <==> name in Names(t.transferInMetrics) || name in Names(t.transferOutMetrics)
  {
    var names := Names(t.transferInMetrics) + Names(t.transferOutMetrics);
    var r := Dedup(names);
    assert forall name :: name in names <==> name in Names(t.transferInMetrics) || name in Names(t.transferOutMetrics);
    r
  }

  /** `comparisonData`: one row per metric of either player. */
  function ComparisonData(t: Transfer): (r: seq<Comparison>)
    ensures |r| == |AllMetrics(t)|
    ensures forall i :: 0 <= i < |r| ==> r[i] == Compare(t, AllMetrics(t)[i])
    ensures forall i, j :: 0 <= i < j < |r| ==> r[i].metric != r[j].metric
  {
    var metrics := AllMetrics(t);
    seq(|metrics|, i requires 0 <= i < |metrics| => Compare(t, metrics[i]))
  }

  /** The transfer seen the other way round. */
  function Reversed(t: Transfer): Transfer {
    t.(transferInMetrics := t.transferOutMetrics, transferOutMetrics := t.transferInMetrics,
       playerInName := t.playerOutName, playerOutName := t.playerInName,
       transferIn := t.transferOut, transferOut := t.transferIn, gain := -t.gain, cost := -t.cost)
  }

  /** Reversing a transfer negates every difference, and no metric is better
      both ways. */
  lemma ReversedComparison(t: Transfer, metric: string)
    ensures Compare(Reversed(t), metric).difference == -Compare(t, metric).difference
    ensures !(Compare(Reversed(t), metric).isBetter && Compare(t, metric).isBetter)
    ensures Reversed(Reversed(t)) == t
  {
  }

  datatype BadgeColour = Teal | Red

  /** The gain badge: teal with a "+" in front when the gain is positive,
      red with no sign added otherwise. */
  function GainBadge(gain: real): (r: (BadgeColour, string))
    ensures r.0 == Teal <==> gain > 0.0
    ensures r.1 == "+" <==> gain > 0.0
    ensures r.1 == "" <==> gain <= 0.0
  {
    if gain > 0.0 then (Teal, "+") else (Red, "")
  }

  datatype Card = Card(playerIn: string, playerOut: string, badge: (BadgeColour, string), rows: seq<Comparison>)

  /** The component: nothing for a missing transfer. */
  function Suggestion(transfer: Option<Transfer>): (r: Option<Card>)
    ensures r.None? <==> transfer.None?
    ensures r.Some? ==> r.value.rows == ComparisonData(transfer.value) && r.value.badge == GainBadge(transfer.value.gain)
  {
    match transfer
    case None => None
    case Some(t) => Some(Card(t.playerInName, t.playerOutName, GainBadge(t.gain), ComparisonData(t)))
  }
}
