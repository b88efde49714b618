/** Building the training table (api/functions/data_processing.py): per-round
    aggregation with double and blank gameweek flags, padding of fixtures a
    player has no row for, the finished-fixture join, and the rolling averages
    and season totals computed per player. */
module DataProcessing {
  import opened Common
  import opened Seqs
  import opened Sorting
  import opened Frames

  // ---------------------------------------------------------------- per-round aggregation

  /** One player's record of one fixture, before aggregation. */
  datatype Appearance = Appearance(element: int, fixture: int, opponent: int, wasHome: bool, stats: map<string, real>)

  function Stat(a: Appearance, c: string): real {
    if c in a.stats then a.stats[c] else 0.0
  }

  /** The gameweek of a fixture, from the fixture list; none for a fixture the
      list does not know or one without a gameweek. */
  function ActualRound(events: map<int, Option<int>>, fixture: int): Option<int> {
    if fixture in events then events[fixture] else None
  }

  /** The statistics summed over a player's fixtures of one round. */
  const SummedColumns: seq<string> := [
    "minutes", "goals_scored", "expected_goals", "assists", "expected_assists",
    "saves", "clean_sheets", "bonus", "total_points"]

  function InCell(events: map<int, Option<int>>, p: int, g: int): Appearance -> bool {
    (a: Appearance) => a.element == p && ActualRound(events, a.fixture) == Some(g)
  }

  function StatSum(apps: seq<Appearance>, c: string): real {
    if apps == [] then 0.0 else Stat(apps[0], c) + StatSum(apps[1..], c)
  }

  /** One row of the aggregated grid. */
  datatype GridRow = GridRow(
    element: int,
    round: int,
    fixtures: Option<nat>,
    isDoubleGw: Option<bool>,
    isBlankGw: bool,
    totals: map<string, real>,
    opponent: Option<int>)

  /** The aggregate of player `p` in gameweek `g`: the fixture count, the
      double and blank flags, the summed statistics, and the first fixture's
      opponent. A blank cell gets 0 for every summed statistic except
      total_points, which the blank-filling leaves missing; the fixture count
      and the double flag, computed only on the aggregated rows, are missing
      there too. */
  function Cell(apps: seq<Appearance>, events: map<int, Option<int>>, p: int, g: int): (r: GridRow)
    ensures r.element == p && r.round == g
    ensures r.isBlankGw <==> forall i :: 0 <= i < |apps| ==> !InCell(events, p, g)(apps[i])
    ensures r.fixtures.Some? <==> !r.isBlankGw
    ensures r.isDoubleGw.Some? <==> !r.isBlankGw
    ensures r.fixtures.Some? ==> r.fixtures.value == |Filter(apps, InCell(events, p, g))| > 0
    ensures r.isDoubleGw.Some? ==> (r.isDoubleGw.value <==> |Filter(apps, InCell(events, p, g))| > 1)
    ensures forall c :: c in r.totals <==> c in SummedColumns && (c != "total_points" || !r.isBlankGw)
    ensures r.isBlankGw ==> forall c :: c in r.totals ==> r.totals[c] == 0.0
  {
    var group := Filter(apps, InCell(events, p, g));
    assert group == [] <==> forall i :: 0 <= i < |apps| ==> !InCell(events, p, g)(apps[i]) by {
      if group != [] {
        assert group[0] in apps;
      }
    }
    GridRow(p, g,
      if group == [] then None else Some(|group|),
      if group == [] then None else Some(|group| > 1),
      group == [],
      map c | c in SummedColumns && (c != "total_points" || group != []) :: StatSum(group, c),
      if group == [] then None else Some(group[0].opponent))
  }

  function HasRound(events: map<int, Option<int>>): Appearance -> bool {
    (a: Appearance) => ActualRound(events, a.fixture).Some?
  }

  /** The gameweek of an appearance whose fixture has one. */
  function RoundOf(events: map<int, Option<int>>, a: Appearance): int {
    match ActualRound(events, a.fixture)
    case Some(g) => g
    case None => 0
  }

  /** The order `groupby(["element", "actual_round"])` leaves its groups in. */
  function ByElementRound(events: map<int, Option<int>>): (Appearance, Appearance) -> bool {
    (a: Appearance, b: Appearance) =>
      a.element < b.element || (a.element == b.element && RoundOf(events, a) <= RoundOf(events, b))
  }

  /** The appearances the aggregation keeps (those of a known gameweek), in
      the aggregate's order: by player, then gameweek. */
  function Aggregated(apps: seq<Appearance>, events: map<int, Option<int>>): (r: seq<Appearance>)
    ensures forall a :: a in r <==> a in apps && HasRound(events)(a)
    ensures forall i, j :: 0 <= i < j < |r| ==> ByElementRound(events)(r[i], r[j])
  {
    var kept := Filter(apps, HasRound(events));
    SortByPermutes(kept, ByElementRound(events));
    assert TotalPreorder(ByElementRound(events));
    SortBySorted(kept, ByElementRound(events));
    var r := SortBy(kept, ByElementRound(events));
    assert forall a :: a in r <==> a in multiset(kept);
    r
  }

  /** The players of the grid (`dgw_df["element"].unique()`): those with an
      appearance in a known gameweek, in ascending order. */
  function GridPlayers(apps: seq<Appearance>, events: map<int, Option<int>>): (r: seq<int>)
    ensures Distinct(r)
    ensures forall p :: p in r <==> exists i :: 0 <= i < |apps| && HasRound(events)(apps[i]) && apps[i].element == p
    ensures forall i, j :: 0 <= i < j < |r| ==> r[i] < r[j]
  {
    var es := AggregatedPlayers(apps, events);
    DedupAscending(es);
    var r := Dedup(es);
    assert forall p :: p in r <==> p in es;
    r
  }

  /** The player column of the aggregate, one entry per aggregated appearance. */
  function AggregatedPlayers(apps: seq<Appearance>, events: map<int, Option<int>>): (es: seq<int>)
    ensures forall i, j :: 0 <= i < j < |es| ==> es[i] <= es[j]
    ensures forall p :: p in es <==> exists i :: 0 <= i < |apps| && HasRound(events)(apps[i]) && apps[i].element == p
  {
    var agg := Aggregated(apps, events);
    var es := seq(|agg|, i requires 0 <= i < |agg| => agg[i].element);
    PlayerColumnSorted(agg, events, es);
    PlayerColumnMembers(apps, events, agg, es);
    es
  }

  lemma PlayerColumnSorted(agg: seq<Appearance>, events: map<int, Option<int>>, es: seq<int>)
    requires forall i, j :: 0 <= i < j < |agg| ==> ByElementRound(events)(agg[i], agg[j])
    requires |es| == |agg| && forall i :: 0 <= i < |agg| ==> es[i] == agg[i].element
    ensures forall i, j :: 0 <= i < j < |es| ==> es[i] <= es[j]
  {
    forall i, j | 0 <= i < j < |es| ensures es[i] <= es[j] {
      assert ByElementRound(events)(agg[i], agg[j]);
    }
  }

  lemma PlayerColumnMembers(apps: seq<Appearance>, events: map<int, Option<int>>, agg: seq<Appearance>, es: seq<int>)
    requires forall a :: a in agg <==> a in apps && HasRound(events)(a)
    requires |es| == |agg| && forall i :: 0 <= i < |agg| ==> es[i] == agg[i].element
    ensures forall p :: p in es <==> exists i :: 0 <= i < |apps| && HasRound(events)(apps[i]) && apps[i].element == p
  {
    forall p | p in es ensures exists i :: 0 <= i < |apps| && HasRound(events)(apps[i]) && apps[i].element == p {
      var k :| 0 <= k < |es| && es[k] == p;
      assert agg[k] in agg;
      var i :| 0 <= i < |apps| && apps[i] == agg[k];
    }
    forall i | 0 <= i < |apps| && HasRound(events)(apps[i]) ensures apps[i].element in es {
      assert apps[i] in agg;
      var k :| 0 <= k < |agg| && agg[k] == apps[i];
      assert es[k] == apps[i].element;
    }
  }

  /** The gameweeks of the grid (`dgw_df["actual_round"].unique()`): those of
      some appearance, in order of first appearance in the aggregate. */
  function GridRounds(apps: seq<Appearance>, events: map<int, Option<int>>): (r: seq<int>)
    ensures Distinct(r)
    ensures forall g :: g in r <==> exists i :: 0 <= i < |apps| && ActualRound(events, apps[i].fixture) == Some(g)
  {
    var gs := AggregatedRounds(apps, events);
    var r := Dedup(gs);
    assert forall g :: g in r <==> g in gs;
    r
  }

  /** The gameweek column of the aggregate, one entry per aggregated appearance. */
  function AggregatedRounds(apps: seq<Appearance>, events: map<int, Option<int>>): (gs: seq<int>)
    ensures forall g :: g in gs <==> exists i :: 0 <= i < |apps| && ActualRound(events, apps[i].fixture) == Some(g)
  {
    var agg := Aggregated(apps, events);
    var gs := seq(|agg|, i requires 0 <= i < |agg| => RoundOf(events, agg[i]));
    forall g | g in gs ensures exists i :: 0 <= i < |apps| && ActualRound(events, apps[i].fixture) == Some(g) {
      var k :| 0 <= k < |gs| && gs[k] == g;
      assert agg[k] in agg;
      var i :| 0 <= i < |apps| && apps[i] == agg[k];
    }
    forall i | 0 <= i < |apps| && ActualRound(events, apps[i].fixture).Some?
      ensures ActualRound(events, apps[i].fixture).value in gs
    {
      assert apps[i] in agg;
      var k :| 0 <= k < |agg| && agg[k] == apps[i];
      assert gs[k] == ActualRound(events, apps[i].fixture).value;
    }
    gs
  }

  /** `unique()` of a non-decreasing column is strictly increasing. */
  lemma {:induction false} DedupAscending(s: seq<int>)
    requires forall i, j :: 0 <= i < j < |s| ==> s[i] <= s[j]
    ensures forall i, j :: 0 <= i < j < |Dedup(s)| ==> Dedup(s)[i] < Dedup(s)[j]
  {
    if s != [] {
      var init := s[..|s| - 1];
      DedupAscending(init);
      var d := Dedup(init);
      forall k | 0 <= k < |d| ensures d[k] <= s[|s| - 1] {
        var m :| 0 <= m < |init| && init[m] == d[k];
      }
    }
  }

  /** The cells of the listed players over the listed gameweeks, player by player. */
  function GridFor(apps: seq<Appearance>, events: map<int, Option<int>>, players: seq<int>, rounds: seq<int>): (r: seq<GridRow>)
    ensures |r| == |players| * |rounds|
    ensures forall k :: 0 <= k < |r| ==> r[k] == Cell(apps, events, r[k].element, r[k].round)
    ensures forall k :: 0 <= k < |r| ==> r[k].element in players && r[k].round in rounds
    ensures forall p, g :: p in players && g in rounds ==> Cell(apps, events, p, g) in r
  {
    if players == [] then []
    else
      var init := players[..|players| - 1];
      var p := players[|players| - 1];
      var rest := GridFor(apps, events, init, rounds);
      var own := seq(|rounds|, j requires 0 <= j < |rounds| => Cell(apps, events, p, rounds[j]));
      assert |rest + own| == (|players| - 1) * |rounds| + |rounds| == |players| * |rounds|;
      assert forall q :: q in players ==> q in init || q == p;
      assert forall g :: g in rounds ==> Cell(apps, events, p, g) in own by {
        forall g | g in rounds ensures Cell(apps, events, p, g) in own {
          var j :| 0 <= j < |rounds| && rounds[j] == g;
          assert own[j] == Cell(apps, events, p, g);
        }
      }
      rest + own
  }

  /** `process_element_gameweek`: one row per player and gameweek of the grid,
      players and gameweeks by first appearance. */
  function ProcessElementGameweek(apps: seq<Appearance>, events: map<int, Option<int>>): (grid: seq<GridRow>)
    ensures |grid| == |GridPlayers(apps, events)| * |GridRounds(apps, events)|
  {
    GridFor(apps, events, GridPlayers(apps, events), GridRounds(apps, events))
  }

  /** Every grid row is the aggregate of its own player and gameweek, and every
      player and gameweek of the grid has its row. */
  lemma GridIsComplete(apps: seq<Appearance>, events: map<int, Option<int>>, p: int, g: int)
    ensures p in GridPlayers(apps, events) && g in GridRounds(apps, events) ==>
              Cell(apps, events, p, g) in ProcessElementGameweek(apps, events)
    ensures forall row :: row in ProcessElementGameweek(apps, events) ==>
              row == Cell(apps, events, row.element, row.round) &&
              row.element in GridPlayers(apps, events) && row.round in GridRounds(apps, events)
  {
    var grid := ProcessElementGameweek(apps, events);
    forall row | row in grid
      ensures row == Cell(apps, events, row.element, row.round)
      ensures row.element in GridPlayers(apps, events) && row.round in GridRounds(apps, events)
    {
      var k :| 0 <= k < |grid| && grid[k] == row;
    }
  }

  /** An appearance in a fixture of unknown gameweek is in no cell. */
  lemma UnknownRoundDropped(apps: seq<Appearance>, events: map<int, Option<int>>, i: nat, p: int, g: int)
    requires i < |apps| && ActualRound(events, apps[i].fixture).None?
    ensures apps[i] !in Filter(apps, InCell(events, p, g))
  {
  }

  /** A cell's value of a summed statistic, a missing one counting as nothing
      (pandas' `sum` skips it). */
  function CellTotal(row: GridRow, c: string): real {
    if c in row.totals then row.totals[c] else 0.0
  }

  /** Player `p`'s cells over the listed gameweeks, totalled for statistic `c`. */
  function CellsTotal(apps: seq<Appearance>, events: map<int, Option<int>>, p: int, rounds: seq<int>, c: string): real {
    if rounds == [] then 0.0
    else CellsTotal(apps, events, p, rounds[..|rounds| - 1], c) + CellTotal(Cell(apps, events, p, rounds[|rounds| - 1]), c)
  }

  function InRounds(events: map<int, Option<int>>, p: int, rounds: seq<int>): Appearance -> bool {
    (a: Appearance) => a.element == p && ActualRound(events, a.fixture).Some? && ActualRound(events, a.fixture).value in rounds
  }

  function KnownOf(events: map<int, Option<int>>, p: int): Appearance -> bool {
    (a: Appearance) => a.element == p && ActualRound(events, a.fixture).Some?
  }

  /** Aggregation loses nothing: over the grid's gameweeks, a player's cells add
      up to the statistic summed over all of the player's appearances in a
      known gameweek. */
  lemma GridConservesTotals(apps: seq<Appearance>, events: map<int, Option<int>>, p: int, c: string)
    requires c in SummedColumns
    ensures CellsTotal(apps, events, p, GridRounds(apps, events), c) == StatSum(Filter(apps, KnownOf(events, p)), c)
  {
    var rounds := GridRounds(apps, events);
    CellsTotalIsSum(apps, events, p, rounds, c);
    FilterExtOn(apps, InRounds(events, p, rounds), KnownOf(events, p));
  }

  lemma {:induction false} CellsTotalIsSum(apps: seq<Appearance>, events: map<int, Option<int>>, p: int, rounds: seq<int>, c: string)
    requires c in SummedColumns && Distinct(rounds)
    ensures CellsTotal(apps, events, p, rounds, c) == StatSum(Filter(apps, InRounds(events, p, rounds)), c)
  {
    if rounds == [] {
      FilterNone(apps, InRounds(events, p, rounds));
    } else {
      var init, g := rounds[..|rounds| - 1], rounds[|rounds| - 1];
      assert g !in init;
      CellsTotalIsSum(apps, events, p, init, c);
      CellTotalIsSum(apps, events, p, g, c);
      assert rounds == init + [g];
      StatSumSplit(apps, InRounds(events, p, init), InCell(events, p, g), InRounds(events, p, rounds), c);
    }
  }

  /** A cell's total is the statistic summed over the cell's appearances. */
  lemma CellTotalIsSum(apps: seq<Appearance>, events: map<int, Option<int>>, p: int, g: int, c: string)
    requires c in SummedColumns
    ensures CellTotal(Cell(apps, events, p, g), c) == StatSum(Filter(apps, InCell(events, p, g)), c)
  {
    var group := Filter(apps, InCell(events, p, g));
    if group == [] {
      assert StatSum(group, c) == 0.0;
    }
  }

  /** Summing over the rows of two disjoint selections is summing over each. */
  lemma {:induction false} StatSumSplit(s: seq<Appearance>, p: Appearance -> bool, q: Appearance -> bool, pq: Appearance -> bool, c: string)
    requires forall i :: 0 <= i < |s| ==> pq(s[i]) == (p(s[i]) || q(s[i])) && !(p(s[i]) && q(s[i]))
    ensures StatSum(Filter(s, pq), c) == StatSum(Filter(s, p), c) + StatSum(Filter(s, q), c)
  {
    if s != [] {
      StatSumSplit(s[1..], p, q, pq, c);
      var x := s[0];
      assert Filter(s, pq) == (if pq(x) then [x] else []) + Filter(s[1..], pq);
      assert Filter(s, p) == (if p(x) then [x] else []) + Filter(s[1..], p);
      assert Filter(s, q) == (if q(x) then [x] else []) + Filter(s[1..], q);
      StatSumPrepend(x, Filter(s[1..], pq), pq(x), c);
      StatSumPrepend(x, Filter(s[1..], p), p(x), c);
      StatSumPrepend(x, Filter(s[1..], q), q(x), c);
    }
  }

  lemma StatSumPrepend(x: Appearance, rest: seq<Appearance>, keep: bool, c: string)
    ensures StatSum((if keep then [x] else []) + rest, c) == (if keep then Stat(x, c) else 0.0) + StatSum(rest, c)
  {
    if keep {
      assert ([x] + rest)[1..] == rest;
    } else {
      assert [] + rest == rest;
    }
  }

  // ---------------------------------------------------------------- padding missing fixtures

  /** The statistics a padded row sets to zero. */
  const ZeroColumns: seq<string> := [
    "total_points", "minutes", "goals_scored", "assists", "clean_sheets", "goals_conceded",
    "own_goals", "penalties_saved", "penalties_missed", "yellow_cards", "red_cards", "saves",
    "bonus", "bps", "influence", "creativity", "threat", "ict_index", "starts", "expected_goals",
    "expected_assists", "expected_goal_involvements", "expected_goals_conceded", "mng_win",
    "mng_draw", "mng_loss", "mng_underdog_win", "mng_underdog_draw", "mng_clean_sheets",
    "mng_goals_scored", "transfers_balance", "selected", "transfers_in", "transfers_out"]

  /** Every listed statistic at zero. */
  function ZeroStats(): (z: map<string, real>)
    ensures forall c :: c in z ==> z[c] == 0.0
  {
    map c | c in ZeroColumns :: 0.0
  }

  function Teams(rows: seq<Row>): seq<int> {
    Dedup(seq(|rows|, i requires 0 <= i < |rows| => rows[i].team))
  }

  function OfTeam(t: int): Row -> bool {
    (r: Row) => r.team == t
  }

  function FixturesOf(rows: seq<Row>): (r: seq<int>)
    ensures |r| == |rows| && forall i :: 0 <= i < |rows| ==> r[i] == rows[i].fixture
  {
    seq(|rows|, i requires 0 <= i < |rows| => rows[i].fixture)
  }

  /** The players with a row for team `t`, by first appearance. */
  function TeamPlayers(rows: seq<Row>, t: int): seq<int> {
    Dedup(Elements(Filter(rows, OfTeam(t))))
  }

  /** The fixtures with a row for team `t`, by first appearance. */
  function TeamFixtures(rows: seq<Row>, t: int): seq<int> {
    Dedup(FixturesOf(Filter(rows, OfTeam(t))))
  }

  /** The fixtures of any row of player `p`, whatever the team. */
  function PlayerFixtures(rows: seq<Row>, p: int): seq<int> {
    FixturesOf(Filter(rows, OfPlayer(p)))
  }

  /** Team `t`'s fixtures that player `p` has no row for. */
  function Missing(rows: seq<Row>, t: int, p: int): seq<int> {
    Filter(TeamFixtures(rows, t), NotIn(PlayerFixtures(rows, p)))
  }

  function NotIn(fs: seq<int>): int -> bool {
    (f: int) => f !in fs
  }

  /** The first row of team `t` in fixture `f`. */
  function FixtureRow(rows: seq<Row>, t: int, f: int): (r: Option<Row>)
    ensures r.Some? ==> r.value in rows && r.value.team == t && r.value.fixture == f
    ensures r.None? ==> forall i :: 0 <= i < |rows| ==> !(rows[i].team == t && rows[i].fixture == f)
  {
    match FirstIndex(rows, (r: Row) => r.team == t && r.fixture == f)
    case None => None
    case Some(i) => Some(rows[i])
  }

  /** A padded row: the player's own columns, the fixture's columns, zeroed
      statistics, and the mark that it was added. */
  function PadRow(meta: Row, fx: Row): (r: Row)
    ensures r.element == meta.element && r.team == meta.team
    ensures r.fixture == fx.fixture && r.round == fx.round && r.opponent == fx.opponent && r.wasHome == fx.wasHome
    ensures r.modified && r.stats == ZeroStats()
  {
    Row(meta.element, fx.round, meta.team, fx.fixture, fx.opponent, fx.wasHome, true, ZeroStats())
  }

  /** The padded row of fixture `f`, if the team has a row for it. */
  function PadFixture(rows: seq<Row>, t: int, meta: Row): int -> seq<Row> {
    (f: int) => match FixtureRow(rows, t, f) case None => [] case Some(fx) => [PadRow(meta, fx)]
  }

  /** The padded rows of player `p` in team `t`. */
  function PadPlayer(rows: seq<Row>, t: int): int -> seq<Row> {
    (p: int) => match FirstRowOf(rows, p)
      case None => []
      case Some(meta) => ConcatMap(PadFixture(rows, t, meta), Missing(rows, t, p))
  }

  /** The padded rows of team `t`. */
  function PadTeam(rows: seq<Row>): int -> seq<Row> {
    (t: int) => ConcatMap(PadPlayer(rows, t), TeamPlayers(rows, t))
  }

  /** Every row `add_missing_player_data` adds, team by team, player by player,
      fixture by fixture. */
  function Padding(rows: seq<Row>): seq<Row> {
    ConcatMap(PadTeam(rows), Teams(rows))
  }

  /** `add_missing_player_data`: for each team, each of its players, and each
      fixture of the team the player has no row for, a padded row; these come
      after the original rows. */
  method AddMissingPlayerData(df: seq<Row>) returns (out: seq<Row>)
    ensures out == df + Padding(df)
  {
    var teams := Teams(df);
    var newRows: seq<Row> := [];
    var ti := 0;
    while ti < |teams|
      invariant 0 <= ti <= |teams|
      invariant newRows == ConcatMap(PadTeam(df), teams[..ti])
    {
      var team := teams[ti];
      var teamPlayers := TeamPlayers(df, team);
      var teamFixtures := TeamFixtures(df, team);
      var teamRows: seq<Row> := [];
      var pi := 0;
      while pi < |teamPlayers|
        invariant 0 <= pi <= |teamPlayers|
        invariant teamRows == ConcatMap(PadPlayer(df, team), teamPlayers[..pi])
      {
        var added := PadMissingFixtures(df, team, teamFixtures, teamPlayers[pi]);
        ConcatMapStep(PadPlayer(df, team), teamPlayers, pi);
        teamRows := teamRows + added;
        pi := pi + 1;
      }
      assert teamPlayers[..pi] == teamPlayers;
      ConcatMapStep(PadTeam(df), teams, ti);
      newRows := newRows + teamRows;
      ti := ti + 1;
    }
    assert teams[..ti] == teams;
    out := if newRows != [] then df + newRows else df;
  }

  /** The innermost loop of `add_missing_player_data`: the padded rows of one
      player, one per fixture of the team the player has no row for. */
  method PadMissingFixtures(df: seq<Row>, team: int, teamFixtures: seq<int>, player: int) returns (added: seq<Row>)
    requires teamFixtures == TeamFixtures(df, team)
    ensures added == PadPlayer(df, team)(player)
  {
    var existing := PlayerFixtures(df, player);
    var missing := Filter(teamFixtures, NotIn(existing));
    assert missing == Missing(df, team, player);
    added := [];
    match FirstRowOf(df, player) {
      case None =>
      case Some(meta) =>
        var fi := 0;
        while fi < |missing|
          invariant 0 <= fi <= |missing|
          invariant added == ConcatMap(PadFixture(df, team, meta), missing[..fi])
        {
          ConcatMapStep(PadFixture(df, team, meta), missing, fi);
          match FixtureRow(df, team, missing[fi]) {
            case None =>
            case Some(fx) => added := added + [PadRow(meta, fx)];
          }
          fi := fi + 1;
        }
        assert missing[..fi] == missing;
    }
  }

  function Marked(): Row -> bool {
    (x: Row) => x.modified && x.stats == ZeroStats()
  }

  /** Every added row is marked as added and has its statistics at zero. */
  lemma PaddingIsMarked(df: seq<Row>)
    ensures forall k :: 0 <= k < |Padding(df)| ==> Padding(df)[k].modified && Padding(df)[k].stats == ZeroStats()
  {
    forall t | t in Teams(df) ensures forall k :: 0 <= k < |PadTeam(df)(t)| ==> Marked()(PadTeam(df)(t)[k]) {
      forall p | p in TeamPlayers(df, t) ensures forall k :: 0 <= k < |PadPlayer(df, t)(p)| ==> Marked()(PadPlayer(df, t)(p)[k]) {
        PlayerPaddingIsMarked(df, t, p);
      }
      ConcatMapEvery(PadPlayer(df, t), TeamPlayers(df, t), Marked());
    }
    ConcatMapEvery(PadTeam(df), Teams(df), Marked());
    assert forall k :: 0 <= k < |Padding(df)| ==> Marked()(Padding(df)[k]);
  }

  lemma PlayerPaddingIsMarked(df: seq<Row>, t: int, p: int)
    ensures forall k :: 0 <= k < |PadPlayer(df, t)(p)| ==> Marked()(PadPlayer(df, t)(p)[k])
  {
    match FirstRowOf(df, p) {
      case None =>
      case Some(meta) =>
        ConcatMapEvery(PadFixture(df, t, meta), Missing(df, t, p), Marked());
    }
  }

  /** After padding, a player with a row for a team has a row for every
      fixture that appears for that team. */
  lemma PaddingCoversTeamFixtures(df: seq<Row>, out: seq<Row>, i: nat, j: nat)
    requires out == df + Padding(df)
    requires i < |df| && j < |df| && df[i].team == df[j].team
    ensures exists x :: x in out && x.element == df[i].element && x.fixture == df[j].fixture
  {
    var p, t, f := df[i].element, df[j].team, df[j].fixture;
    var own := Filter(df, OfPlayer(p));
    if f in PlayerFixtures(df, p) {
      var k :| 0 <= k < |own| && own[k].fixture == f;
      assert own[k] in df;
      assert own[k] in out;
    } else {
      var meta, fx := PaddingWitness(df, i, j);
      var x := PadRow(meta, fx);
      ConcatMapHas(PadFixture(df, t, meta), Missing(df, t, p), f, x);
      ConcatMapHas(PadPlayer(df, t), TeamPlayers(df, t), p, x);
      ConcatMapHas(PadTeam(df), Teams(df), t, x);
      assert x in out;
    }
  }

  lemma PaddingWitness(df: seq<Row>, i: nat, j: nat) returns (meta: Row, fx: Row)
    requires i < |df| && j < |df| && df[i].team == df[j].team
    requires df[j].fixture !in PlayerFixtures(df, df[i].element)
    ensures FirstRowOf(df, df[i].element) == Some(meta) && meta.element == df[i].element
    ensures FixtureRow(df, df[j].team, df[j].fixture) == Some(fx) && fx.fixture == df[j].fixture
    ensures df[j].fixture in Missing(df, df[j].team, df[i].element)
    ensures df[i].element in TeamPlayers(df, df[j].team)
    ensures df[j].team in Teams(df)
  {
    var p, t, f := df[i].element, df[j].team, df[j].fixture;
    OnTeam(df, i, j);
    TeamListed(df, j);
    assert Elements(df)[i] == p;
    meta := FirstRowOf(df, p).value;
    assert !(forall k :: 0 <= k < |df| ==> !(df[k].team == t && df[k].fixture == f)) by {
      assert df[j].team == t && df[j].fixture == f;
    }
    fx := FixtureRow(df, t, f).value;
  }

  /** Two rows of one team: the one's fixture is a fixture of the team and the
      other's player a player of the team. */
  lemma OnTeam(df: seq<Row>, i: nat, j: nat)
    requires i < |df| && j < |df| && df[i].team == df[j].team
    ensures df[j].fixture in TeamFixtures(df, df[j].team)
    ensures df[i].element in TeamPlayers(df, df[j].team)
  {
    var teamRows := Filter(df, OfTeam(df[j].team));
    assert df[j] in teamRows && df[i] in teamRows;
    var a :| 0 <= a < |teamRows| && teamRows[a] == df[j];
    assert FixturesOf(teamRows)[a] == df[j].fixture;
    var b :| 0 <= b < |teamRows| && teamRows[b] == df[i];
    assert Elements(teamRows)[b] == df[i].element;
  }

  lemma TeamListed(df: seq<Row>, j: nat)
    requires j < |df|
    ensures df[j].team in Teams(df)
  {
    var ts := seq(|df|, k requires 0 <= k < |df| => df[k].team);
    assert ts[j] == df[j].team;
  }

  /** When every player already has a row for every fixture of their team,
      nothing is added. */
  lemma NothingMissingNothingAdded(df: seq<Row>)
    requires forall i, j :: 0 <= i < |df| && 0 <= j < |df| && df[i].team == df[j].team ==>
               df[j].fixture in PlayerFixtures(df, df[i].element)
    ensures Padding(df) == []
  {
    forall t | t in Teams(df) ensures PadTeam(df)(t) == [] {
      NoTeamPadding(df, t);
    }
    ConcatMapEmpty(PadTeam(df), Teams(df));
  }

  lemma NoTeamPadding(df: seq<Row>, t: int)
    requires forall i, j :: 0 <= i < |df| && 0 <= j < |df| && df[i].team == df[j].team ==>
               df[j].fixture in PlayerFixtures(df, df[i].element)
    ensures PadTeam(df)(t) == []
  {
    forall p | p in TeamPlayers(df, t) ensures PadPlayer(df, t)(p) == [] {
      NoneMissing(df, t, p);
    }
    ConcatMapEmpty(PadPlayer(df, t), TeamPlayers(df, t));
  }

  lemma NoneMissing(df: seq<Row>, t: int, p: int)
    requires forall i, j :: 0 <= i < |df| && 0 <= j < |df| && df[i].team == df[j].team ==>
               df[j].fixture in PlayerFixtures(df, df[i].element)
    requires p in TeamPlayers(df, t)
    ensures Missing(df, t, p) == []
  {
    var teamRows := Filter(df, OfTeam(t));
    var els := Elements(teamRows);
    var d := Dedup(els);
    var di :| 0 <= di < |d| && d[di] == p;
    assert d[di] in els;
    var b :| 0 <= b < |els| && els[b] == p;
    assert teamRows[b] in df && teamRows[b].team == t;
    var i :| 0 <= i < |df| && df[i] == teamRows[b];
    var fs := TeamFixtures(df, t);
    var played := PlayerFixtures(df, p);
    forall k | 0 <= k < |fs| ensures !NotIn(played)(fs[k]) {
      var fx := FixturesOf(teamRows);
      assert fs[k] in fx;
      var a :| 0 <= a < |fx| && fx[a] == fs[k];
      assert teamRows[a] in df && teamRows[a].team == t;
      var j :| 0 <= j < |df| && df[j] == teamRows[a];
      assert df[j].fixture in PlayerFixtures(df, df[i].element);
    }
    FilterNone(fs, NotIn(played));
  }

  // ---------------------------------------------------------------- fixture join

  /** A fixture of the season's fixture list. */
  datatype FixtureInfo = FixtureInfo(id: int, code: int, event: Option<int>, teamH: int, teamA: int, finished: bool)

  /** A table row with the finished fixture it joined, if any. */
  datatype Joined = Joined(row: Row, fixture: Option<FixtureInfo>)

  function IsFinished(): FixtureInfo -> bool {
    (f: FixtureInfo) => f.finished
  }

  function HasId(id: int): FixtureInfo -> bool {
    (f: FixtureInfo) => f.id == id
  }

  /** A left join of one row: one output row per matching fixture, or the row
      alone when nothing matches. */
  function JoinRow(row: Row, finished: seq<FixtureInfo>): (r: seq<Joined>)
    ensures |r| >= 1
    ensures forall k :: 0 <= k < |r| ==> r[k].row == row
    ensures forall k :: 0 <= k < |r| && r[k].fixture.Some? ==>
              r[k].fixture.value in finished && r[k].fixture.value.id == row.fixture
    ensures (forall k :: 0 <= k < |finished| ==> finished[k].id != row.fixture) ==> r == [Joined(row, None)]
    // otherwise every matching fixture once, in the fixture list's order
    ensures Filter(finished, HasId(row.fixture)) != [] ==>
              |r| == |Filter(finished, HasId(row.fixture))| &&
              forall k :: 0 <= k < |r| ==> r[k].fixture == Some(Filter(finished, HasId(row.fixture))[k])
  {
    var matches := Filter(finished, HasId(row.fixture));
    if matches == [] then [Joined(row, None)]
    else
      assert matches[0] in finished;
      seq(|matches|, k requires 0 <= k < |matches| => Joined(row, Some(matches[k])))
  }

  function JoinRows(rows: seq<Row>, finished: seq<FixtureInfo>): (r: seq<Joined>)
    ensures |r| >= |rows|
    ensures forall k :: 0 <= k < |r| && r[k].fixture.Some? ==>
              r[k].fixture.value in finished && r[k].fixture.value.id == r[k].row.fixture
  {
    if rows == [] then [] else JoinRow(rows[0], finished) + JoinRows(rows[1..], finished)
  }

  /** `add_fixtures`: each row joined with the finished fixtures of its id;
      an unfinished fixture is never joined. An empty fixture list makes a
      frame without columns, so selecting its "finished" column fails. */
  function AddFixtures(rows: seq<Row>, fixtures: seq<FixtureInfo>): (r: Result<seq<Joined>>)
    ensures r.Err? <==> fixtures == []
    ensures r.Err? ==> r.message == "KeyError: 'finished'"
    ensures r.Ok? ==> |r.value| >= |rows|
    ensures r.Ok? ==> forall k :: 0 <= k < |r.value| && r.value[k].fixture.Some? ==>
              r.value[k].fixture.value.finished && r.value[k].fixture.value.id == r.value[k].row.fixture
  {
    if fixtures == [] then Err("KeyError: 'finished'")
    else Ok(JoinRows(rows, Filter(fixtures, IsFinished())))
  }

  /** With no two finished fixtures sharing an id, the join keeps the table's
      rows one for one, in order. */
  lemma JoinKeepsRows(rows: seq<Row>, fixtures: seq<FixtureInfo>)
    requires forall i, j :: 0 <= i < j < |fixtures| && fixtures[i].finished && fixtures[j].finished ==>
               fixtures[i].id != fixtures[j].id
    ensures AddFixtures(rows, fixtures).Ok? ==> |AddFixtures(rows, fixtures).value| == |rows|
    ensures AddFixtures(rows, fixtures).Ok? ==>
              forall k :: 0 <= k < |rows| ==> AddFixtures(rows, fixtures).value[k].row == rows[k]
  {
    var finished := Filter(fixtures, IsFinished());
    FinishedIdsDistinct(fixtures);
    JoinRowsOneToOne(rows, finished);
  }

  lemma {:induction false} FinishedIdsDistinct(fixtures: seq<FixtureInfo>)
    requires forall i, j :: 0 <= i < j < |fixtures| && fixtures[i].finished && fixtures[j].finished ==>
               fixtures[i].id != fixtures[j].id
    ensures forall i, j :: 0 <= i < j < |Filter(fixtures, IsFinished())| ==>
              Filter(fixtures, IsFinished())[i].id != Filter(fixtures, IsFinished())[j].id
  {
    if fixtures != [] {
      FinishedIdsDistinct(fixtures[1..]);
      var rest := Filter(fixtures[1..], IsFinished());
      if fixtures[0].finished {
        forall k | 0 <= k < |rest| ensures rest[k].id != fixtures[0].id {
          assert rest[k] in fixtures[1..];
          var m :| 0 <= m < |fixtures[1..]| && fixtures[1..][m] == rest[k];
          assert fixtures[m + 1] == rest[k];
        }
      }
    }
  }

  lemma {:induction false} JoinRowsOneToOne(rows: seq<Row>, finished: seq<FixtureInfo>)
    requires forall i, j :: 0 <= i < j < |finished| ==> finished[i].id != finished[j].id
    ensures |JoinRows(rows, finished)| == |rows|
    ensures forall k :: 0 <= k < |rows| ==> JoinRows(rows, finished)[k].row == rows[k]
  {
    if rows != [] {
      JoinRowsOneToOne(rows[1..], finished);
      AtMostOneMatch(finished, rows[0].fixture);
      var head := JoinRow(rows[0], finished);
      assert |head| == 1 && head[0].row == rows[0];
      assert JoinRows(rows, finished) == head + JoinRows(rows[1..], finished);
    }
  }

  lemma {:induction false} AtMostOneMatch(finished: seq<FixtureInfo>, id: int)
    requires forall i, j :: 0 <= i < j < |finished| ==> finished[i].id != finished[j].id
    ensures |Filter(finished, HasId(id))| <= 1
  {
    if finished != [] {
      AtMostOneMatch(finished[1..], id);
      if finished[0].id == id {
        FilterNone(finished[1..], HasId(id));
      }
    }
  }

  // ---------------------------------------------------------------- rolling averages and season totals

  /** `add_rolling_averages` (training side): over the table in player-round
      order, the mean of the previous up-to-`w` values of the player's metric,
      the current row excluded; none on a player's first row (filled with 0
      when the dataset is assembled). */
  function RollingAverage(df: seq<Row>, metric: string, w: nat): (r: seq<Option<real>>)
    requires w > 0
    ensures |r| == |df|
    // missing exactly on a player's first row
    ensures forall i :: 0 <= i < |r| ==>
              (r[i].None? <==> forall k :: 0 <= k < i ==> SortRows(df)[k].element != SortRows(df)[i].element)
  {
    var sorted := SortRows(df);
    var r := seq(|sorted|, i requires 0 <= i < |sorted| => RollingMean(Earlier(sorted, i, metric), w));
    assert forall i :: 0 <= i < |r| ==>
             (r[i].None? <==> forall k :: 0 <= k < i ==> sorted[k].element != sorted[i].element) by {
      forall i | 0 <= i < |r|
        ensures r[i].None? <==> forall k :: 0 <= k < i ==> sorted[k].element != sorted[i].element
      {
        if forall k :: 0 <= k < i ==> sorted[k].element != sorted[i].element {
          EarlierOfFirst(sorted, i, metric);
        } else {
          var k :| 0 <= k < i && sorted[k].element == sorted[i].element;
          assert sorted[k] in sorted[..i];
          assert sorted[k] in Filter(sorted[..i], OfPlayer(sorted[i].element));
        }
      }
    }
    r
  }

  /** A row's rolling average covers the player's previous row and the ones
      before it: it is the mean of the last `w` of those values. */
  lemma RollingUsesPreviousRows(df: seq<Row>, metric: string, w: nat, j: nat, i: nat)
    requires w > 0
    requires var sorted := SortRows(df);
             j < i < |sorted| && sorted[j].element == sorted[i].element &&
             forall k :: j < k < i ==> sorted[k].element != sorted[i].element
    ensures var sorted := SortRows(df);
            RollingAverage(df, metric, w)[i] == Some(Mean(LastN(Earlier(sorted, j, metric) + [Get(sorted[j], metric)], w)))
  {
    EarlierStep(SortRows(df), j, i, metric);
  }

  /** `add_season_totals` (training side): over the table in player-round
      order, the player's running total of the metric, the current row
      included. */
  function SeasonTotals(df: seq<Row>, metric: string): (r: seq<real>)
    ensures |r| == |df|
    // a player's first total is their first value ...
    ensures forall i :: 0 <= i < |r| && (forall k :: 0 <= k < i ==> SortRows(df)[k].element != SortRows(df)[i].element) ==>
              r[i] == Get(SortRows(df)[i], metric)
    // ... and each later one adds the row's value to the total of the player's previous row
    ensures forall j, i :: 0 <= j < i < |r| && SortRows(df)[j].element == SortRows(df)[i].element &&
                           (forall k :: j < k < i ==> SortRows(df)[k].element != SortRows(df)[i].element) ==>
              r[i] == r[j] + Get(SortRows(df)[i], metric)
  {
    var sorted := SortRows(df);
    RunningTotals(sorted, metric);
    seq(|sorted|, i requires 0 <= i < |sorted| => RunningTotal(sorted, i, metric))
  }
}
