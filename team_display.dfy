/** The squad view of the team page (src/Components/TeamDisplay.tsx): which picks
    go into the four pitch rows, the bench and the manager section, with and
    without the starting-eleven optimiser's answer, and the captain flags each
    card receives. */
module TeamDisplay {
  import opened Common
  import opened Seqs
  import opened Records

  const Manager := 5

  /** `getPlayersByPosition(k)`: starters (positions 1 to 11) of element type `k`. */
  function StartingRow(picks: seq<Pick>, k: int): seq<Pick> {
    Filter(picks, (p: Pick) => p.position < 12 && p.elementType == k)
  }

  /** The bench without the optimiser: positions 12 and up, managers excepted. */
  function Bench(picks: seq<Pick>): seq<Pick> {
    Filter(picks, (p: Pick) => p.position > 11 && p.elementType != Manager)
  }

  function Managers(picks: seq<Pick>): seq<Pick> {
    Filter(picks, (p: Pick) => p.elementType == Manager)
  }

  /** Which section a pick of the squad lands in when there is no optimiser. */
  lemma Placement(picks: seq<Pick>, p: Pick, k: int)
    requires p in picks
    ensures p in StartingRow(picks, k) <==> p.position < 12 && p.elementType == k
    ensures p in Bench(picks) <==> p.position > 11 && p.elementType != Manager
    ensures p in Managers(picks) <==> p.elementType == Manager
  {
  }

  predicate OutfieldOrKeeper(p: Pick) {
    1 <= p.elementType <= 4
  }

  /** Without the optimiser, the picks of types 1 to 4 are split, each exactly
      once, between the four rows and the bench; manager picks are in neither.
      (A pick of any other type on the bench would be shown there too.) */
  lemma {:induction false} SquadPartition(picks: seq<Pick>)
    requires forall i :: 0 <= i < |picks| ==> 1 <= picks[i].elementType <= Manager
    ensures multiset(Filter(picks, OutfieldOrKeeper))
            == multiset(StartingRow(picks, 1)) + multiset(StartingRow(picks, 2)) + multiset(StartingRow(picks, 3))
               + multiset(StartingRow(picks, 4)) + multiset(Bench(picks))
  {
    if picks != [] {
      var p, rest := picks[0], picks[1..];
      SquadPartition(rest);
      assert Filter(picks, OutfieldOrKeeper) == Only(p, OutfieldOrKeeper(p)) + Filter(rest, OutfieldOrKeeper);
      RowHead(picks, 1);
      RowHead(picks, 2);
      RowHead(picks, 3);
      RowHead(picks, 4);
      assert Bench(picks) == Only(p, p.position > 11 && p.elementType != Manager) + Bench(rest);
      HeadSplit(p);
      AddParts(
        multiset(Filter(rest, OutfieldOrKeeper)), multiset(StartingRow(rest, 1)), multiset(StartingRow(rest, 2)),
        multiset(StartingRow(rest, 3)), multiset(StartingRow(rest, 4)), multiset(Bench(rest)),
        multiset(Only(p, OutfieldOrKeeper(p))), multiset(Only(p, InRow(p, 1))), multiset(Only(p, InRow(p, 2))),
        multiset(Only(p, InRow(p, 3))), multiset(Only(p, InRow(p, 4))),
        multiset(Only(p, p.position > 11 && p.elementType != Manager)));
    }
  }

  function Only(p: Pick, keep: bool): seq<Pick> {
    if keep then [p] else []
  }

  predicate InRow(p: Pick, k: int) {
    p.position < 12 && p.elementType == k
  }

  /** One pick lands in exactly one of the five places when its type is 1 to 4,
      and in none of them when it is the manager. */
  lemma HeadSplit(p: Pick)
    requires 1 <= p.elementType <= Manager
    ensures multiset(Only(p, OutfieldOrKeeper(p)))
            == multiset(Only(p, InRow(p, 1))) + multiset(Only(p, InRow(p, 2))) + multiset(Only(p, InRow(p, 3)))
               + multiset(Only(p, InRow(p, 4))) + multiset(Only(p, p.position > 11 && p.elementType != Manager))
  {
    var e: multiset<Pick> := multiset{};
    if p.position > 11 {
      assert multiset(Only(p, InRow(p, 1))) == e && multiset(Only(p, InRow(p, 4))) == e;
    } else if p.elementType == 1 {
      assert multiset(Only(p, InRow(p, 2))) == e;
    } else if p.elementType == 2 {
      assert multiset(Only(p, InRow(p, 1))) == e;
    } else if p.elementType == 3 {
      assert multiset(Only(p, InRow(p, 1))) == e;
    } else if p.elementType == 4 {
      assert multiset(Only(p, InRow(p, 1))) == e;
    } else {
      assert multiset(Only(p, InRow(p, 1))) == e;
    }
  }

  lemma AddParts<T>(a: multiset<T>, r1: multiset<T>, r2: multiset<T>, r3: multiset<T>, r4: multiset<T>, b: multiset<T>,
                    ha: multiset<T>, h1: multiset<T>, h2: multiset<T>, h3: multiset<T>, h4: multiset<T>, hb: multiset<T>)
    requires a == r1 + r2 + r3 + r4 + b
    requires ha == h1 + h2 + h3 + h4 + hb
    ensures ha + a == (h1 + r1) + (h2 + r2) + (h3 + r3) + (h4 + r4) + (hb + b)
  {
  }

  lemma RowHead(picks: seq<Pick>, k: int)
    requires picks != []
    ensures StartingRow(picks, k) == Only(picks[0], InRow(picks[0], k)) + StartingRow(picks[1..], k)
  {
  }

  /** A manager pick is in no row and not on the bench; a pick of another type
      outside 1 to 4 is shown nowhere. */
  lemma ManagerOnlyInManagerSection(picks: seq<Pick>, p: Pick, k: int)
    requires p in picks && !OutfieldOrKeeper(p)
    ensures p !in StartingRow(picks, k) || !(1 <= k <= 4)
    ensures p in Bench(picks) <==> p.elementType != Manager && p.position > 11
    ensures p in Managers(picks) <==> p.elementType == Manager
  {
    Placement(picks, p, k);
  }

  // ---------------------------------------------------------------- with the optimiser

  /** The ids the optimiser put in the starting eleven (`starting` true) or on
      the bench (`starting` false), limited to type `k` when one is given. */
  function Marked(elements: seq<OptimisedElement>, starting: bool, k: Option<int>): (r: seq<int>)
    ensures forall id :: id in r <==> exists e :: e in elements && e.element == id && e.startingXi == starting
                                                 && (k.Some? ==> e.elementType == k.value)
  {
    if elements == [] then []
    else
      var e := elements[0];
      var rest := Marked(elements[1..], starting, k);
      assert elements == [e] + elements[1..];
      if e.startingXi == starting && (k.Some? ==> e.elementType == k.value) then [e.element] + rest else rest
  }

  /** Pitch row `k`: with the optimiser, the picks it starts with type `k`;
      without, the starters of that type. */
  function Row(picks: seq<Pick>, optimise: Option<seq<OptimisedElement>>, k: int): (r: seq<Pick>)
    ensures optimise.None? ==> r == StartingRow(picks, k)
    ensures optimise.Some? ==> forall p :: p in r <==> p in picks && p.element in Marked(optimise.value, true, Some(k))
  {
    match optimise
    case None => StartingRow(picks, k)
    case Some(elements) => Filter(picks, (p: Pick) => p.element in Marked(elements, true, Some(k)))
  }

  /** The bench: with the optimiser, the picks it leaves out of the eleven. */
  function BenchRow(picks: seq<Pick>, optimise: Option<seq<OptimisedElement>>): (r: seq<Pick>)
    ensures optimise.None? ==> r == Bench(picks)
    ensures optimise.Some? ==> forall p :: p in r <==> p in picks && p.element in Marked(optimise.value, false, None)
  {
    match optimise
    case None => Bench(picks)
    case Some(elements) => Filter(picks, (p: Pick) => p.element in Marked(elements, false, None))
  }

  /** With the optimiser, a pick it lists once is either on the pitch, in the
      row of the type it gives, or on the bench, never both. */
  lemma OptimisedPlacement(picks: seq<Pick>, elements: seq<OptimisedElement>, p: Pick, e: OptimisedElement)
    requires p in picks && e in elements && e.element == p.element
    requires forall d :: d in elements && d.element == p.element ==> d == e
    ensures p in Row(picks, Some(elements), e.elementType) <==> e.startingXi
    ensures p in BenchRow(picks, Some(elements)) <==> !e.startingXi
    ensures forall k :: k != e.elementType ==> p !in Row(picks, Some(elements), k)
  {
  }

  // ---------------------------------------------------------------- cards

  /** A card's flags: null stands for the `undefined` of a failed lookup. */
  datatype Card = Card(pick: Pick, isCaptain: Option<bool>, vice: Option<bool>, predicted: Option<real>)

  /** The optimiser's entry for a pick, if any. */
  function Entry(elements: seq<OptimisedElement>, p: Pick): Option<OptimisedElement> {
    Find(elements, (e: OptimisedElement) => e.element == p.element)
  }

  /** The captain flag of a pitch card: the optimiser's when it answered,
      otherwise the pick's own. */
  function CaptainFlag(p: Pick, optimise: Option<seq<OptimisedElement>>): (r: Option<bool>)
    ensures optimise.None? ==> r == Some(p.isCaptain)
    ensures optimise.Some? && Entry(optimise.value, p).Some? ==> r == Some(Entry(optimise.value, p).value.isCaptain)
    ensures optimise.Some? && Entry(optimise.value, p).None? ==> r.None?
  {
    match optimise
    case None => Some(p.isCaptain)
    case Some(elements) =>
      match Entry(elements, p)
      case None => None
      case Some(e) => Some(e.isCaptain)
  }

  function ViceFlag(p: Pick, optimise: Option<seq<OptimisedElement>>): (r: Option<bool>)
    ensures optimise.None? ==> r == Some(p.isViceCaptain)
    ensures optimise.Some? && Entry(optimise.value, p).Some? ==> r == Some(Entry(optimise.value, p).value.isViceCaptain)
    ensures optimise.Some? && Entry(optimise.value, p).None? ==> r.None?
  {
    match optimise
    case None => Some(p.isViceCaptain)
    case Some(elements) =>
      match Entry(elements, p)
      case None => None
      case Some(e) => Some(e.isViceCaptain)
  }

  /** The predicted points shown on a card. */
  function Predicted(p: Pick, prediction: Option<PredictionResponse>): (r: Option<real>)
    ensures prediction.None? ==> r.None?
    // shown iff the response has an entry for the pick's player ...
    ensures prediction.Some? ==>
              (r.Some? <==> exists i :: 0 <= i < |prediction.value.elements| && prediction.value.elements[i].element == p.element)
    // ... and then it is the first such entry's points
    ensures prediction.Some? ==>
              forall i :: 0 <= i < |prediction.value.elements| && prediction.value.elements[i].element == p.element &&
                          (forall j :: 0 <= j < i ==> prediction.value.elements[j].element != p.element) ==>
                r == Some(prediction.value.elements[i].totalPoints)
  {
    match prediction
    case None => None
    case Some(resp) =>
      match FirstIndex(resp.elements, (e: PredictedElement) => e.element == p.element)
      case None => None
      case Some(k) =>
        assert forall i :: 0 <= i < |resp.elements| && resp.elements[i].element == p.element &&
                             (forall j :: 0 <= j < i ==> resp.elements[j].element != p.element)
                           ==> i == k;
        Some(resp.elements[k].totalPoints)
  }

  function PitchCards(picks: seq<Pick>, optimise: Option<seq<OptimisedElement>>, prediction: Option<PredictionResponse>): (r: seq<Card>)
    ensures |r| == |picks|
    ensures forall i :: 0 <= i < |r| ==>
              r[i].pick == picks[i] && r[i].isCaptain == CaptainFlag(picks[i], optimise) && r[i].vice == ViceFlag(picks[i], optimise)
    ensures forall i :: 0 <= i < |r| ==> r[i].predicted == Predicted(picks[i], prediction)
  {
    seq(|picks|, i requires 0 <= i < |picks| =>
      Card(picks[i], CaptainFlag(picks[i], optimise), ViceFlag(picks[i], optimise), Predicted(picks[i], prediction)))
  }

  /** Bench cards are given `false` for both flags. */
  function BenchCards(picks: seq<Pick>, prediction: Option<PredictionResponse>): (r: seq<Card>)
    ensures |r| == |picks|
    ensures forall i :: 0 <= i < |r| ==> r[i].pick == picks[i] && r[i].isCaptain == Some(false) && r[i].vice == Some(false)
    ensures forall i :: 0 <= i < |r| ==> r[i].predicted == Predicted(picks[i], prediction)
  {
    seq(|picks|, i requires 0 <= i < |picks| => Card(picks[i], Some(false), Some(false), Predicted(picks[i], prediction)))
  }

  /** Manager cards are given neither flag. */
  function ManagerCards(picks: seq<Pick>, prediction: Option<PredictionResponse>): (r: seq<Card>)
    ensures |r| == |picks|
    ensures forall i :: 0 <= i < |r| ==> r[i].pick == picks[i] && r[i].isCaptain.None? && r[i].vice.None?
    // the manager section passes no predicted points either
    ensures forall i :: 0 <= i < |r| ==> r[i].predicted.None?
  {
    seq(|picks|, i requires 0 <= i < |picks| => Card(picks[i], None, None, None))
  }

  /** What the component shows. */
  datatype View =
    | NoTeam
    | Pitch(rows: seq<seq<Card>>, bench: seq<Card>, manager: Option<seq<Card>>)

  /** The whole view: "No team selected yet" without picks; otherwise the
      keeper, defender, midfielder and forward rows, the bench, and the manager
      section when some pick is a manager. */
  function Display(user: FantasyUser, optimise: Option<seq<OptimisedElement>>, prediction: Option<PredictionResponse>): (r: View)
    ensures r.NoTeam? <==> user.team.None?
    ensures r.Pitch? ==> |r.rows| == 4
    ensures r.Pitch? ==> forall k :: 1 <= k <= 4 ==> r.rows[k - 1] == PitchCards(Row(user.team.value.picks, optimise, k), optimise, prediction)
    ensures r.Pitch? ==> forall c :: c in r.bench ==> c.isCaptain == Some(false) && c.vice == Some(false)
    ensures r.Pitch? ==> r.bench == BenchCards(BenchRow(user.team.value.picks, optimise), prediction)
    ensures r.Pitch? ==> (r.manager.Some? <==> Managers(user.team.value.picks) != [])
    ensures r.Pitch? && r.manager.Some? ==> r.manager.value == ManagerCards(Managers(user.team.value.picks), prediction)
  {
    match user.team
    case None => NoTeam
    case Some(team) =>
      var picks := team.picks;
      var rows := seq(4, k requires 0 <= k < 4 => PitchCards(Row(picks, optimise, k + 1), optimise, prediction));
      var managers := Managers(picks);
      var bench := BenchCards(BenchRow(picks, optimise), prediction);
      Pitch(rows, bench, if managers != [] then Some(ManagerCards(managers, prediction)) else None)
  }
}
