/** Helpers of the prediction pipeline (api/helpers/data_helpers.py): the
    training targets, the current gameweek, a team's upcoming fixtures, and the
    rows of the round about to be predicted. */
module DataHelpers {
  import opened Common
  import opened Seqs
  import opened Records
  import opened Frames
  import FeatureEngineering

  /** `get_targets`: the statistics the training targets are built from. */
  function GetTargets(): (r: seq<string>)
    ensures |r| == 7 && Distinct(r)
    ensures "minutes_60+" in r && "minutes_1+" in r
  {
    ["goals_scored", "assists", "saves", "minutes_60+", "minutes_1+", "clean_sheets", "bonus"]
  }

  // ---------------------------------------------------------------- current gameweek

  function IsCurrent(): Event -> bool {
    (e: Event) => e.isCurrent
  }

  /** The id of the first event flagged current, if any. */
  function CurrentGameweek(events: seq<Event>): (r: Option<int>)
    ensures r.None? <==> forall i :: 0 <= i < |events| ==> !events[i].isCurrent
    ensures r.Some? ==> exists i :: 0 <= i < |events| && events[i].isCurrent && events[i].id == r.value &&
                                    forall j :: 0 <= j < i ==> !events[j].isCurrent
  {
    match FirstIndex(events, IsCurrent())
    case None => None
    case Some(i) => Some(events[i].id)
  }

  /** `get_current_gameweek`: scan the events and stop at the first current one. */
  method GetCurrentGameweek(events: seq<Event>) returns (gameweek: Option<int>)
    ensures gameweek == CurrentGameweek(events)
  {
    gameweek := None;
    var i := 0;
    while i < |events|
      invariant 0 <= i <= |events|
      invariant forall j :: 0 <= j < i ==> !events[j].isCurrent
    {
      if events[i].isCurrent {
        FirstIndexAt(events, IsCurrent(), i);
        gameweek := Some(events[i].id);
        return;
      }
      i := i + 1;
    }
  }

  // ---------------------------------------------------------------- upcoming fixtures

  /** A fixture of team `id` in a gameweek after `current` (a fixture without a
      gameweek is never after it). */
  function Upcoming(id: int, current: int): Fixture -> bool {
    (f: Fixture) => (f.teamA == id || f.teamH == id) && f.event.Some? && f.event.value > current
  }

  /** `get_next_fixtures_for_player`: the [home, away] pairs of the upcoming
      fixtures, in input order. The player id itself is matched against the
      teams, exactly as the source does. */
  function NextFixturesForPlayer(playerId: int, fixtures: seq<Fixture>, current: int): (r: seq<(int, int)>)
    ensures |r| == |Filter(fixtures, Upcoming(playerId, current))|
    // the k-th upcoming fixture, in input order, as its [home, away] pair
    ensures forall k :: 0 <= k < |r| ==>
              r[k] == (Filter(fixtures, Upcoming(playerId, current))[k].teamH, Filter(fixtures, Upcoming(playerId, current))[k].teamA)
    ensures forall k :: 0 <= k < |r| ==> r[k].0 == playerId || r[k].1 == playerId
    ensures forall f :: f in fixtures && Upcoming(playerId, current)(f) ==> (f.teamH, f.teamA) in r
  {
    var up := Filter(fixtures, Upcoming(playerId, current));
    var r := seq(|up|, k requires 0 <= k < |up| => (up[k].teamH, up[k].teamA));
    assert forall f :: f in up ==> (f.teamH, f.teamA) in r by {
      forall f | f in up ensures (f.teamH, f.teamA) in r {
        var k :| 0 <= k < |up| && up[k] == f;
        assert r[k] == (f.teamH, f.teamA);
      }
    }
    r
  }

  // ---------------------------------------------------------------- next round rows

  /** The latest round in a non-empty table. */
  function MaxRoundOf(rows: seq<Row>): (m: int)
    requires rows != []
    ensures forall i :: 0 <= i < |rows| ==> rows[i].round <= m
    ensures exists i :: 0 <= i < |rows| && rows[i].round == m
  {
    if |rows| == 1 then rows[0].round
    else
      var rest := MaxRoundOf(rows[1..]);
      assert forall i :: 1 <= i < |rows| ==> rows[i] == rows[1..][i - 1];
      var k :| 0 <= k < |rows[1..]| && rows[1..][k].round == rest;
      assert rows[k + 1].round == rest;
      if rows[0].round >= rest then rows[0].round else rest
  }

  /** `df["element"].unique()`: each player once, by first appearance. */
  function Players(rows: seq<Row>): (r: seq<int>)
    ensures forall e :: e in r <==> e in Elements(rows)
  {
    var es := Elements(rows);
    var r := Dedup(es);
    assert forall e :: e in r ==> e in es;
    assert forall e :: e in es ==> e in r by {
      forall e | e in es ensures e in r {
        var i :| 0 <= i < |es| && es[i] == e;
      }
    }
    r
  }

  /** No player is listed twice. */
  lemma PlayersDistinct(rows: seq<Row>)
    ensures Distinct(Players(rows))
  {
    var r := Dedup(Elements(rows));
    assert Distinct(r);
  }

  /** A row of the round to predict: the player's first row's player, team,
      position code and value, the round, and the fixture's opponent and venue;
      the statistics start at zero and are filled in by `NextRoundRolling` and
      `NextRoundSeasonTotal`. */
  datatype NextRoundRow = NextRoundRow(
    element: int,
    team: int,
    elementType: real,
    round: int,
    opponent: int,
    wasHome: bool,
    value: real)

  /** The fixtures of `team` in gameweek `round`. */
  function PlaysIn(team: int, round: int): Fixture -> bool {
    (f: Fixture) => f.event == Some(round) && (f.teamH == team || f.teamA == team)
  }

  function TeamFixturesIn(fixtures: seq<Fixture>, team: int, round: int): seq<Fixture> {
    Filter(fixtures, PlaysIn(team, round))
  }

  /** The next-round row of a player for one fixture of their team. */
  function RowFor(first: Row, f: Fixture, round: int): (r: NextRoundRow)
    ensures r.element == first.element && r.team == first.team && r.round == round
    // the position and price are copied from the player's first row
    ensures r.elementType == Get(first, "element_type") && r.value == Get(first, "value")
    ensures r.wasHome <==> f.teamH == first.team
    ensures (f.teamH == first.team || f.teamA == first.team) ==>
      multiset{r.opponent, first.team} == multiset{f.teamH, f.teamA}
  {
    NextRoundRow(first.element, first.team, Get(first, "element_type"), round,
      if f.teamH == first.team then f.teamA else f.teamH,
      f.teamH == first.team, Get(first, "value"))
  }

  /** One row per fixture, in fixture order. */
  function RowsFor(first: Row, fs: seq<Fixture>, round: int): (r: seq<NextRoundRow>)
    ensures |r| == |fs|
    ensures forall k :: 0 <= k < |r| ==> r[k] == RowFor(first, fs[k], round)
  {
    if fs == [] then [] else RowsFor(first, fs[..|fs| - 1], round) + [RowFor(first, fs[|fs| - 1], round)]
  }

  /** The rows of the listed players, player by player. */
  function RowsForPlayers(rows: seq<Row>, players: seq<int>, fixtures: seq<Fixture>, round: int): seq<NextRoundRow>
  {
    if players == [] then []
    else
      var own := match FirstRowOf(rows, players[|players| - 1])
        case None => []
        case Some(first) => RowsFor(first, TeamFixturesIn(fixtures, first.team, round), round);
      RowsForPlayers(rows, players[..|players| - 1], fixtures, round) + own
  }

  /** The round after the latest one in the table; an empty table has no
      players, so its value there is never used. */
  function NextRound(rows: seq<Row>): (r: int)
    ensures forall i :: 0 <= i < |rows| ==> rows[i].round < r
    // one past the latest round: some row is in the round just before
    ensures rows != [] ==> exists i :: 0 <= i < |rows| && rows[i].round == r - 1
  {
    if rows == [] then 0 else MaxRoundOf(rows) + 1
  }

  /** The rows of the round after the latest one in the table. */
  function NextRoundRows(rows: seq<Row>, fixtures: seq<Fixture>): seq<NextRoundRow> {
    RowsForPlayers(rows, Players(rows), fixtures, NextRound(rows))
  }

  /** `create_next_round_df`: for each player in order of first appearance, one
      row per fixture of their team in the next round; a player whose team has
      no fixture then is skipped. */
  method CreateNextRoundRows(df: seq<Row>, fixtures: seq<Fixture>) returns (newRows: seq<NextRoundRow>)
    ensures newRows == NextRoundRows(df, fixtures)
  {
    if df == [] {
      NoRowsOfEmpty(fixtures);
      return [];
    }
    var nextRound := MaxRoundOf(df) + 1;
    newRows := PlayersRows(df, Players(df), fixtures, nextRound);
  }

  /** The outer loop of `create_next_round_df`, over the table's players in order. */
  method PlayersRows(df: seq<Row>, players: seq<int>, fixtures: seq<Fixture>, nextRound: int) returns (newRows: seq<NextRoundRow>)
    requires forall i :: 0 <= i < |players| ==> players[i] in Elements(df)
    ensures newRows == RowsForPlayers(df, players, fixtures, nextRound)
  {
    newRows := [];
    var i := 0;
    while i < |players|
      invariant 0 <= i <= |players|
      invariant newRows == RowsForPlayers(df, players[..i], fixtures, nextRound)
    {
      var first, block := PlayerRows(df, players[i], fixtures, nextRound);
      RowsForPlayersStep(df, players, i, first, fixtures, nextRound);
      newRows := newRows + block;
      i := i + 1;
    }
    assert players[..i] == players;
  }

  /** An empty table has no next-round rows. */
  lemma NoRowsOfEmpty(fixtures: seq<Fixture>)
    ensures NextRoundRows([], fixtures) == []
  {
    assert Elements([]) == [];
  }

  /** One pass of the outer loop: the player's first row, then their rows. */
  method PlayerRows(df: seq<Row>, p: int, fixtures: seq<Fixture>, nextRound: int) returns (first: Row, block: seq<NextRoundRow>)
    requires p in Elements(df)
    ensures FirstRowOf(df, p) == Some(first)
    ensures block == RowsFor(first, TeamFixturesIn(fixtures, first.team, nextRound), nextRound)
  {
    first := FirstRowOf(df, p).value;
    block := BuildBlock(first, TeamFixturesIn(fixtures, first.team, nextRound), nextRound);
  }

  /** The inner loop of `create_next_round_df`: one row per fixture of the
      player's team, in fixture order. */
  method BuildBlock(first: Row, teamFixtures: seq<Fixture>, nextRound: int) returns (block: seq<NextRoundRow>)
    ensures block == RowsFor(first, teamFixtures, nextRound)
  {
    block := [];
    var k := 0;
    while k < |teamFixtures|
      invariant 0 <= k <= |teamFixtures|
      invariant block == RowsFor(first, teamFixtures[..k], nextRound)
    {
      RowsForStep(first, teamFixtures, k, nextRound);
      block := block + [RowFor(first, teamFixtures[k], nextRound)];
      k := k + 1;
    }
    assert teamFixtures[..k] == teamFixtures;
  }

  /** The rest of `create_next_round_df`: the rolling and season columns are
      looked up through the new table's "element" column, which a table built
      from no rows does not have, so an empty result with metrics to fill fails. */
  function NextRoundDf(df: seq<Row>, fixtures: seq<Fixture>, metrics: seq<string>): (r: Result<seq<NextRoundRow>>)
    ensures r.Err? <==> NextRoundRows(df, fixtures) == [] && metrics != []
    ensures r.Ok? ==> r.value == NextRoundRows(df, fixtures)
  {
    var rows := NextRoundRows(df, fixtures);
    if rows == [] && metrics != [] then Err("KeyError: 'element'") else Ok(rows)
  }

  /** The table is built as soon as one player's team plays in the next round. */
  lemma NextRoundDfOk(df: seq<Row>, fixtures: seq<Fixture>, metrics: seq<string>, p: int)
    requires p in Elements(df)
    requires FirstRowOf(df, p).Some? && TeamFixturesIn(fixtures, FirstRowOf(df, p).value.team, NextRound(df)) != []
    ensures NextRoundDf(df, fixtures, metrics).Ok?
  {
    NextRoundRowCount(df, fixtures, p);
  }

  /** An empty history gives no rows, and so fails once there are metrics. */
  lemma NextRoundDfOfEmpty(fixtures: seq<Fixture>, metrics: seq<string>)
    requires metrics != []
    ensures NextRoundDf([], fixtures, metrics).Err?
  {
    assert Players([]) == [];
  }

  lemma RowsForStep(first: Row, fs: seq<Fixture>, k: nat, round: int)
    requires k < |fs|
    ensures RowsFor(first, fs[..k + 1], round) == RowsFor(first, fs[..k], round) + [RowFor(first, fs[k], round)]
  {
    assert fs[..k + 1][..k] == fs[..k];
  }

  lemma RowsForPlayersStep(rows: seq<Row>, players: seq<int>, i: nat, first: Row, fixtures: seq<Fixture>, round: int)
    requires i < |players| && FirstRowOf(rows, players[i]) == Some(first)
    ensures RowsForPlayers(rows, players[..i + 1], fixtures, round) ==
            RowsForPlayers(rows, players[..i], fixtures, round) + RowsFor(first, TeamFixturesIn(fixtures, first.team, round), round)
  {
    assert players[..i + 1][..i] == players[..i];
  }

  function OfElement(e: int): NextRoundRow -> bool {
    (r: NextRoundRow) => r.element == e
  }

  /** Each player of the table gets exactly as many next-round rows as their
      team has fixtures in that round: none in a blank gameweek, two in a
      double one. */
  lemma NextRoundRowCount(rows: seq<Row>, fixtures: seq<Fixture>, p: int)
    requires p in Elements(rows)
    ensures FirstRowOf(rows, p).Some?
    ensures |Filter(NextRoundRows(rows, fixtures), OfElement(p))| ==
            |TeamFixturesIn(fixtures, FirstRowOf(rows, p).value.team, NextRound(rows))|
  {
    var players, round := Players(rows), NextRound(rows);
    assert p in players;
    PlayersDistinct(rows);
    RowsForPlayersCount(rows, players, fixtures, round, p);
  }

  lemma {:induction false} RowsForPlayersCount(rows: seq<Row>, players: seq<int>, fixtures: seq<Fixture>, round: int, p: int)
    requires forall e :: e in players ==> e in Elements(rows)
    requires Distinct(players)
    ensures p in players ==>
              FirstRowOf(rows, p).Some? &&
              |Filter(RowsForPlayers(rows, players, fixtures, round), OfElement(p))| ==
              |TeamFixturesIn(fixtures, FirstRowOf(rows, p).value.team, round)|
    ensures p !in players ==> Filter(RowsForPlayers(rows, players, fixtures, round), OfElement(p)) == []
  {
    if players != [] {
      var init := players[..|players| - 1];
      var q := players[|players| - 1];
      assert players == init + [q];
      assert Distinct(init);
      assert q !in init;
      RowsForPlayersCount(rows, init, fixtures, round, p);
      var first := FirstRowOf(rows, q).value;
      var own := RowsFor(first, TeamFixturesIn(fixtures, first.team, round), round);
      FilterAppend(RowsForPlayers(rows, init, fixtures, round), own, OfElement(p));
      if q == p {
        FilterAll(own, OfElement(p));
      } else {
        FilterNone(own, OfElement(p));
      }
    }
  }

  // ---------------------------------------------------------------- next round statistics

  /** `add_rolling_averages` (prediction side): the mean of the player's last
      `w` rows of history in round order, fewer when the history is shorter.
      Every next-round row of the player receives this value. */
  function NextRoundRolling(df: seq<Row>, e: int, metric: string, w: nat): (r: Option<real>)
    requires w > 0
    ensures r.None? <==> forall i :: 0 <= i < |df| ==> df[i].element != e
  {
    var h := Filter(SortRows(df), OfPlayer(e));
    assert (exists i :: 0 <= i < |df| && df[i].element == e) <==> h != [] by {
      if exists i :: 0 <= i < |df| && df[i].element == e {
        var i :| 0 <= i < |df| && df[i].element == e;
        assert df[i] in multiset(SortRows(df));
      }
      if h != [] {
        assert h[0] in SortRows(df);
        assert h[0] in multiset(df);
      }
    }
    RollingMean(Column(h, metric), w)
  }

  /** The next-round rolling value lies within the range of the player's own
      values of the metric. */
  lemma NextRoundRollingBounds(df: seq<Row>, e: int, metric: string, w: nat, lo: real, hi: real)
    requires w > 0
    requires forall i :: 0 <= i < |df| && df[i].element == e ==> lo <= Get(df[i], metric) <= hi
    ensures NextRoundRolling(df, e, metric, w).Some? ==> lo <= NextRoundRolling(df, e, metric, w).value <= hi
  {
    var h := Filter(SortRows(df), OfPlayer(e));
    forall k | 0 <= k < |Column(h, metric)| ensures lo <= Column(h, metric)[k] <= hi {
      assert h[k] in SortRows(df);
      assert h[k] in multiset(df);
      var i :| 0 <= i < |df| && df[i] == h[k];
    }
    RollingMeanBounds(Column(h, metric), w, lo, hi);
  }

  /** On a table sorted by player and round, the next-round rolling value is the
      training side's including rolling mean at the player's last row. */
  lemma NextRoundRollingIsLastIncluding(df: seq<Row>, i: nat, metric: string, w: nat)
    requires w > 0 && i < |df|
    requires forall a, b :: 0 <= a < b < |df| ==> PlayerRoundLe(df[a], df[b])
    requires forall j :: i < j < |df| ==> df[j].element != df[i].element
    ensures NextRoundRolling(df, df[i].element, metric, w) == Some(FeatureEngineering.RollingIncluding(df, i, metric, w))
  {
    SortRowsKeepsSorted(df);
    HistoryAround(df, i, metric);
    FilterNone(df[i + 1..], OfPlayer(df[i].element));
    assert Later(df, i, metric) == [];
    assert History(df, df[i].element, metric) == Earlier(df, i, metric) + [Get(df[i], metric)];
  }

  /** `add_season_totals` (prediction side): the sum of the metric over all of
      the player's rows. */
  function NextRoundSeasonTotal(df: seq<Row>, e: int, metric: string): (r: real)
    ensures (forall i :: 0 <= i < |df| ==> Get(df[i], metric) >= 0.0) ==> r >= 0.0
  {
    NonNegativeSum(History(df, e, metric));
    Sum(History(df, e, metric))
  }

  /** The prediction-side season total is the running total the training side
      holds on the player's last row. */
  lemma SeasonTotalIsLastRunningTotal(df: seq<Row>, i: nat, metric: string)
    requires i < |df|
    requires forall j :: i < j < |df| ==> df[j].element != df[i].element
    ensures NextRoundSeasonTotal(df, df[i].element, metric) == RunningTotal(df, i, metric)
  {
    RunningTotalAtLast(df, i, metric);
  }
}
