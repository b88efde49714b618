/** The fixture calendar (src/Components/TeamFixtureCalendar.tsx): fixtures grouped
    into gameweek columns, the columns in order, and the rules that decorate a
    fixture card. */
module FixtureCalendar {
  import opened Common
  import opened Seqs
  import opened Records
  import FixtureAnalysis
  import Sorting

  /** `if (fixture.event)`: a null or 0 event has no column. */
  predicate Scheduled(f: Fixture) {
    f.event.Some? && f.event.value != 0
  }

  function InGameweek(g: int): Fixture -> bool {
    (f: Fixture) => f.event == Some(g)
  }

  /** The gameweeks that get a column. */
  ghost function Gameweeks(fixtures: seq<Fixture>): set<int> {
    set f | f in fixtures && Scheduled(f) :: f.event.value
  }

  /** `groupFixturesByGameweek`: a dictionary from gameweek to its fixtures,
      filled by one pass that pushes each scheduled fixture onto its list. */
  method GroupByGameweek(fixtures: seq<Fixture>) returns (grouped: map<int, seq<Fixture>>)
    ensures grouped.Keys == Gameweeks(fixtures)
    ensures forall g :: g in grouped ==> grouped[g] == Filter(fixtures, InGameweek(g))
  {
    grouped := map[];
    var i := 0;
    while i < |fixtures|
      invariant 0 <= i <= |fixtures|
      invariant grouped.Keys == Gameweeks(fixtures[..i])
      invariant forall g :: g in grouped ==> grouped[g] == Filter(fixtures[..i], InGameweek(g))
    {
      var f := fixtures[i];
      assert fixtures[..i + 1] == fixtures[..i] + [f];
      if Scheduled(f) {
        var e := f.event.value;
        var list := if e in grouped then grouped[e] else [];
        if e !in grouped {
          NoGroupYet(fixtures[..i], e);
        }
        grouped := grouped[e := list + [f]];
        GroupStep(fixtures[..i], f, e, list);
      } else {
        UnscheduledStep(fixtures[..i], f);
      }
      GameweeksStep(fixtures[..i], f);
      i := i + 1;
    }
    assert fixtures[..i] == fixtures;
  }

  /** The gameweeks of two stretches of fixtures together. */
  lemma GameweeksAppend(a: seq<Fixture>, b: seq<Fixture>)
    ensures Gameweeks(a + b) == Gameweeks(a) + Gameweeks(b)
  {
    forall x | x in Gameweeks(a + b)
      ensures x in Gameweeks(a) + Gameweeks(b)
    {
      var h :| h in a + b && Scheduled(h) && h.event.value == x;
    }
    forall x | x in Gameweeks(a) + Gameweeks(b)
      ensures x in Gameweeks(a + b)
    {
      if x in Gameweeks(a) {
        var h :| h in a && Scheduled(h) && h.event.value == x;
        assert h in a + b;
      } else {
        var h :| h in b && Scheduled(h) && h.event.value == x;
        assert h in a + b;
      }
    }
  }

  lemma GameweeksOne(f: Fixture)
    ensures Gameweeks([f]) == if Scheduled(f) then {f.event.value} else {}
  {
    if Scheduled(f) {
      assert f in [f];
    }
  }

  lemma GameweeksStep(a: seq<Fixture>, f: Fixture)
    ensures Gameweeks(a + [f]) == Gameweeks(a) + (if Scheduled(f) then {f.event.value} else {})
  {
    GameweeksAppend(a, [f]);
    GameweeksOne(f);
  }

  /** A fixture without a column changes no column. */
  lemma UnscheduledStep(a: seq<Fixture>, f: Fixture)
    requires !Scheduled(f)
    ensures forall g :: g in Gameweeks(a) ==> Filter(a + [f], InGameweek(g)) == Filter(a, InGameweek(g))
  {
    forall g | g in Gameweeks(a) ensures Filter(a + [f], InGameweek(g)) == Filter(a, InGameweek(g)) {
      var h :| h in a && Scheduled(h) && h.event.value == g;
      FilterAppend(a, [f], InGameweek(g));
      assert !InGameweek(g)(f);
    }
  }

  /** A gameweek without a column yet has no fixture so far. */
  lemma NoGroupYet(prefix: seq<Fixture>, e: int)
    requires e != 0 && e !in Gameweeks(prefix)
    ensures Filter(prefix, InGameweek(e)) == []
  {
    forall i | 0 <= i < |prefix| ensures !InGameweek(e)(prefix[i]) {
      assert prefix[i] in prefix;
      if Scheduled(prefix[i]) {
        assert prefix[i].event.value in Gameweeks(prefix);
      }
    }
    FilterNone(prefix, InGameweek(e));
  }

  lemma GroupStep(prefix: seq<Fixture>, f: Fixture, e: int, list: seq<Fixture>)
    requires f.event == Some(e)
    requires list == Filter(prefix, InGameweek(e))
    ensures list + [f] == Filter(prefix + [f], InGameweek(e))
    ensures forall g :: g != e ==> Filter(prefix + [f], InGameweek(g)) == Filter(prefix, InGameweek(g))
  {
    FilterAppend(prefix, [f], InGameweek(e));
    forall g | g != e
      ensures Filter(prefix + [f], InGameweek(g)) == Filter(prefix, InGameweek(g))
    {
      FilterAppend(prefix, [f], InGameweek(g));
    }
  }

  /** Every column holds at least one fixture, in input order, and a scheduled
      fixture sits in exactly the column of its gameweek. */
  lemma GroupsPartition(fixtures: seq<Fixture>, g: int, f: Fixture)
    requires g in Gameweeks(fixtures)
    ensures Filter(fixtures, InGameweek(g)) != []
    ensures IsSubsequence(Filter(fixtures, InGameweek(g)), fixtures)
    ensures f in Filter(fixtures, InGameweek(g)) <==> f in fixtures && f.event == Some(g)
  {
    var h :| h in fixtures && Scheduled(h) && h.event.value == g;
    var k :| 0 <= k < |fixtures| && fixtures[k] == h;
    assert InGameweek(g)(fixtures[k]);
    FilterIsSubsequence(fixtures, InGameweek(g));
    if f in fixtures && f.event == Some(g) {
      var j :| 0 <= j < |fixtures| && fixtures[j] == f;
      assert InGameweek(g)(fixtures[j]);
    }
  }

  // ---------------------------------------------------------------- column order

  /** The gameweek numbers that key the dictionary, each once. JavaScript lists
      integer-like keys in ascending order, whatever the insertion order; the
      contract states membership only. */
  function Keys(fixtures: seq<Fixture>): (r: seq<int>)
    ensures forall x :: x in r <==> x in Gameweeks(fixtures)
  {
    var events := ScheduledEvents(fixtures);
    Dedup(events)
  }

  /** The events of the scheduled fixtures, in input order. */
  function ScheduledEvents(fixtures: seq<Fixture>): (r: seq<int>)
    ensures forall x :: x in r <==> x in Gameweeks(fixtures)
  {
    if fixtures == [] then []
    else
      var f := fixtures[0];
      var rest := ScheduledEvents(fixtures[1..]);
      assert fixtures == [f] + fixtures[1..];
      GameweeksAppend([f], fixtures[1..]);
      GameweeksOne(f);
      if Scheduled(f) then [f.event.value] + rest else rest
  }

  /** `.sort((a, b) => a - b)` */
  function ColumnOrder(keys: seq<int>): (r: seq<int>)
    ensures multiset(r) == multiset(keys)
    ensures forall i, j :: 0 <= i < j < |r| ==> r[i] <= r[j]
  {
    var le := (a: int, b: int) => a <= b;
    Sorting.SortByPermutes(keys, le);
    Sorting.SortBySorted(keys, le);
    Sorting.SortBy(keys, le)
  }

  /** The calendar's columns are the gameweeks that have fixtures, each once,
      strictly ascending. */
  lemma ColumnsAreGameweeks(fixtures: seq<Fixture>)
    ensures var cols := ColumnOrder(Keys(fixtures));
            (forall x :: x in cols <==> x in Gameweeks(fixtures)) &&
            (forall i, j :: 0 <= i < j < |cols| ==> cols[i] < cols[j])
  {
    var keys := Keys(fixtures);
    var cols := ColumnOrder(keys);
    DistinctSubMultiset(keys, cols);
    forall x ensures x in cols <==> x in keys {
      assert x in cols <==> x in multiset(cols);
      assert x in keys <==> x in multiset(keys);
    }
  }

  // ---------------------------------------------------------------- card decoration

  /** `getDifficultyColor`: like the analysis page's badge, but with no blue
      fallback: anything above 2 that is not 3 or 4 is red. */
  function CalendarColour(difficulty: real): (r: FixtureAnalysis.Colour)
    ensures r != FixtureAnalysis.Blue
    ensures r == FixtureAnalysis.Green <==> difficulty <= 2.0
    ensures r == FixtureAnalysis.Yellow <==> difficulty == 3.0
    ensures r == FixtureAnalysis.Orange <==> difficulty == 4.0
  {
    if difficulty <= 2.0 then FixtureAnalysis.Green
    else if difficulty == 3.0 then FixtureAnalysis.Yellow
    else if difficulty == 4.0 then FixtureAnalysis.Orange
    else FixtureAnalysis.Red
  }

  /** The two colour rules agree on whole numbers and differ between them. */
  lemma ColourRulesCompared(d: int)
    ensures CalendarColour(d as real) == FixtureAnalysis.BadgeColour(d as real)
    ensures CalendarColour(2.5) != FixtureAnalysis.BadgeColour(2.5)
  {
  }

  /** The difficulty on the selected team's card: its own side's, 0 when the
      team does not play in the fixture or none is selected. */
  function ShownDifficulty(selectedTeam: Option<int>, f: Fixture): (r: int)
    ensures selectedTeam == Some(f.teamH) ==> r == f.teamHDifficulty
    ensures selectedTeam != Some(f.teamH) && selectedTeam == Some(f.teamA) ==> r == f.teamADifficulty
    ensures selectedTeam != Some(f.teamH) && selectedTeam != Some(f.teamA) ==> r == 0
  {
    if selectedTeam == Some(f.teamH) then f.teamHDifficulty
    else if selectedTeam == Some(f.teamA) then f.teamADifficulty
    else 0
  }

  const NameLimit := 15

  /** A team name cut to 15 characters, with "..." only when something was cut.
      Characters here are whole code points; JavaScript's `length` and
      `substring` count UTF-16 code units, so the two differ on names holding
      characters outside the Basic Multilingual Plane. */
  function Truncate(name: string): (r: string)
    ensures |name| <= NameLimit ==> r == name
    ensures |name| > NameLimit ==> |r| == NameLimit + 3 && r[..NameLimit] == name[..NameLimit] && r[NameLimit..] == "..."
  {
    var cut := if |name| <= NameLimit then name else name[..NameLimit];
    cut + (if |name| > NameLimit then "..." else "")
  }

  /** Names that agree on their first 15 characters and are both long look the same. */
  lemma TruncateForgetsTail(a: string, b: string)
    requires |a| > NameLimit && |b| > NameLimit && a[..NameLimit] == b[..NameLimit]
    ensures Truncate(a) == Truncate(b)
  {
  }

  datatype StatusBadge = FullTime | Live

  /** "FT" once a match is finished, "Live" while it is under way. */
  function Status(f: Fixture): (r: Option<StatusBadge>)
    ensures r == Some(FullTime) <==> f.finished
    ensures r == Some(Live) <==> f.started && !f.finished
    ensures r.None? <==> !f.started && !f.finished
  {
    if f.finished then Some(FullTime)
    else if f.started then Some(Live)
    else None
  }
}
