/** The players' points table (src/Components/PlayersPointsTable.tsx): its metric
    columns, the column sort, and the header clicks that choose and flip it. */
module PointsTable {
  import opened Common
  import opened Seqs
  import opened Sorting
  import opened Records

  /** A row of the table. */
  datatype PlayerData = PlayerData(id: int, name: string, position: int, team: int, metrics: seq<Metric>)

  function MetricNames(metrics: seq<Metric>): (r: seq<string>)
    ensures |r| == |metrics| && forall i :: 0 <= i < |r| ==> r[i] == metrics[i].name
  {
    seq(|metrics|, i requires 0 <= i < |metrics| => metrics[i].name)
  }

  /** `players.flatMap(p => Object.keys(p.metrics))` */
  function AllNames(players: seq<PlayerData>): (r: seq<string>)
    ensures forall name :: name in r <==> exists p :: p in players && name in MetricNames(p.metrics)
  {
    if players == [] then []
    else
      assert players == [players[0]] + players[1..];
      MetricNames(players[0].metrics) + AllNames(players[1..])
  }

  /** `metricKeys`: every metric name of any player, once, in order of first
      appearance. */
  function MetricKeys(players: seq<PlayerData>): (r: seq<string>)
    ensures Distinct(r)
    ensures forall name :: name in r <==> exists p :: p in players && name in MetricNames(p.metrics)
  {
    var names := AllNames(players);
    var r := Dedup(names);
    forall name | name in r ensures name in names {
      var i :| 0 <= i < |r| && r[i] == name;
    }
    forall name | name in names ensures name in r {
      var i :| 0 <= i < |names| && names[i] == name;
    }
    r
  }

  /** A player seen earlier keeps its columns in front when more players arrive. */
  lemma MetricKeysGrow(players: seq<PlayerData>, more: seq<PlayerData>)
    ensures |MetricKeys(players)| <= |MetricKeys(players + more)|
    ensures MetricKeys(players) == MetricKeys(players + more)[..|MetricKeys(players)|]
  {
    AllNamesAppend(players, more);
    DedupPrefix(AllNames(players), AllNames(more));
  }

  lemma {:induction false} AllNamesAppend(a: seq<PlayerData>, b: seq<PlayerData>)
    ensures AllNames(a + b) == AllNames(a) + AllNames(b)
  {
    if a == [] {
      assert a + b == b;
    } else {
      assert (a + b)[0] == a[0];
      assert (a + b)[1..] == a[1..] + b;
      AllNamesAppend(a[1..], b);
    }
  }

  // ---------------------------------------------------------------- sort keys

  /** A sort key: a number, or text compared as text. */
  datatype SortKey = Num(n: real) | Str(s: string)

  function SumValues(metrics: seq<Metric>): real {
    if metrics == [] then 0.0 else metrics[0].value + SumValues(metrics[1..])
  }

  /** The value a row is sorted by: the metrics' sum for "totalPoints", a metric
      the player has, else the row's own field ("undefined" for no such field). */
  function KeyOf(p: PlayerData, sortBy: string): (r: SortKey)
    ensures sortBy == "totalPoints" ==> r == Num(SumValues(p.metrics))
    // a metric the player has: that metric's value (names are keys, so the first entry)
    ensures sortBy != "totalPoints" ==>
              forall i :: 0 <= i < |p.metrics| && p.metrics[i].name == sortBy &&
                            (forall j :: 0 <= j < i ==> p.metrics[j].name != sortBy)
                          ==> r == Num(p.metrics[i].value)
    // otherwise the row's own field of that name
    ensures sortBy != "totalPoints" && sortBy !in MetricNames(p.metrics) ==>
              r == (if sortBy == "name" then Str(p.name)
                    else if sortBy == "id" then Num(p.id as real)
                    else if sortBy == "position" then Num(p.position as real)
                    else if sortBy == "team" then Num(p.team as real)
                    else Str("undefined"))
  {
    if sortBy == "totalPoints" then Num(SumValues(p.metrics))
    else
      match FirstIndex(p.metrics, (m: Metric) => m.name == sortBy)
      case Some(k) => Num(p.metrics[k].value)
      case None =>
        assert forall i :: 0 <= i < |p.metrics| ==> MetricNames(p.metrics)[i] != sortBy;
        if sortBy == "name" then Str(p.name)
        else if sortBy == "id" then Num(p.id as real)
        else if sortBy == "position" then Num(p.position as real)
        else if sortBy == "team" then Num(p.team as real)
        else Str("undefined")
  }

  /** Code-point order on text. */
  predicate LexLe(a: string, b: string) {
    a == [] || (b != [] && (a[0] < b[0] || (a[0] == b[0] && LexLe(a[1..], b[1..]))))
  }

  lemma {:induction false} LexLeTotal(a: string, b: string)
    ensures LexLe(a, b) || LexLe(b, a)
  {
    if a != [] && b != [] && a[0] == b[0] {
      LexLeTotal(a[1..], b[1..]);
    }
  }

  lemma {:induction false} LexLeTransitive(a: string, b: string, c: string)
    requires LexLe(a, b) && LexLe(b, c)
    ensures LexLe(a, c)
  {
    if a != [] && a[0] == b[0] && b[0] == c[0] {
      LexLeTransitive(a[1..], b[1..], c[1..]);
    }
  }

  /** Numbers compare as numbers and text as text; a number sorts before text. */
  predicate KeyLe(a: SortKey, b: SortKey) {
    match (a, b)
    case (Num(x), Num(y)) => x <= y
    case (Str(x), Str(y)) => LexLe(x, y)
    case (Num(_), Str(_)) => true
    case (Str(_), Num(_)) => false
  }

  function ByKey(sortBy: string): (PlayerData, PlayerData) -> bool {
    (p: PlayerData, q: PlayerData) => KeyLe(KeyOf(p, sortBy), KeyOf(q, sortBy))
  }

  lemma ByKeyIsPreorder(sortBy: string)
    ensures TotalPreorder(ByKey(sortBy))
  {
    var le := ByKey(sortBy);
    forall p, q ensures le(p, q) || le(q, p) {
      var a, b := KeyOf(p, sortBy), KeyOf(q, sortBy);
      if a.Str? && b.Str? { LexLeTotal(a.s, b.s); }
    }
    forall p, q, r | le(p, q) && le(q, r) ensures le(p, r) {
      var a, b, c := KeyOf(p, sortBy), KeyOf(q, sortBy), KeyOf(r, sortBy);
      if a.Str? && b.Str? && c.Str? { LexLeTransitive(a.s, b.s, c.s); }
    }
  }

  /** Reverses an array in place, as `sorted.reverse()` does. */
  method ReverseInPlace<T>(a: array<T>)
    modifies a
    ensures a[..] == Reverse(old(a[..]))
  {
    var n := a.Length;
    var i := 0;
    while i < n / 2
      invariant 0 <= i <= n / 2
      invariant forall k :: 0 <= k < i ==> a[k] == old(a[n - 1 - k]) && a[n - 1 - k] == old(a[k])
      invariant forall k :: i <= k < n - i ==> a[k] == old(a[k])
    {
      a[i], a[n - 1 - i] := a[n - 1 - i], a[i];
      i := i + 1;
    }
  }

  /** `sortData`: a stable ascending sort of a copy of the rows by the chosen
      key, reversed when asked; the rows passed in are not touched. */
  method SortData(data: seq<PlayerData>, sortBy: string, reverse: bool) returns (r: seq<PlayerData>)
    ensures multiset(r) == multiset(data)
    ensures !reverse ==> r == SortBy(data, ByKey(sortBy)) && Sorted(r, ByKey(sortBy))
    ensures reverse ==> r == Reverse(SortBy(data, ByKey(sortBy)))
    ensures reverse ==> forall i, j :: 0 <= i < j < |r| ==> KeyLe(KeyOf(r[j], sortBy), KeyOf(r[i], sortBy))
  {
    var ascending := SortBy(data, ByKey(sortBy));
    SortByPermutes(data, ByKey(sortBy));
    ByKeyIsPreorder(sortBy);
    SortBySorted(data, ByKey(sortBy));
    var sorted := new PlayerData[|ascending|](i requires 0 <= i < |ascending| => ascending[i]);
    assert sorted[..] == ascending;
    if reverse {
      ReverseInPlace(sorted);
      ReversePermutes(ascending);
    }
    r := sorted[..];
  }

  // ---------------------------------------------------------------- header clicks

  /** The table's sort choice after clicking column `field`. */
  function NextSort(sortBy: string, reverseSort: bool, field: string): (r: (string, bool))
    ensures r.0 == field
    ensures r.1 <==> field == sortBy && !reverseSort
  {
    (field, if field == sortBy then !reverseSort else false)
  }

  /** Clicking one column twice returns to its first direction; clicking a new
      column always sorts it ascending. */
  lemma ClickTwice(sortBy: string, reverseSort: bool, field: string)
    ensures var once := NextSort(sortBy, reverseSort, field);
            NextSort(once.0, once.1, field).1 == !once.1
    ensures field != sortBy ==> !NextSort(sortBy, reverseSort, field).1
  {
  }

  /** The table's sort state. */
  class PointsTableState {
    var sortBy: string
    var reverseSort: bool

    /** The table starts sorted by name, ascending. */
    constructor ()
      ensures sortBy == "name" && !reverseSort
    {
      sortBy := "name";
      reverseSort := false;
    }

    /** `handleSort` */
    method HandleSort(field: string)
      modifies this
      ensures (sortBy, reverseSort) == NextSort(old(sortBy), old(reverseSort), field)
    {
      var reversed := if field == sortBy then !reverseSort else false;
      reverseSort := reversed;
      sortBy := field;
    }
  }
}
