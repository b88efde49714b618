/** The training features (api/functions/feature_engineering.py): per-player
    running totals and rolling means, teammates' share of the team's output,
    the difficulty of the next fixtures and the side-dependent team strength. */
module FeatureEngineering {
  import opened Common
  import opened Seqs
  import opened Text
  import opened Records
  import opened Frames

  /** The first two letters of a column name, which tell the derived
      columns (`cumulative_...`, `rolling_...`) from the statistics. */
  function Head2(s: string): (char, char) {
    if |s| >= 2 then (s[0], s[1]) else (' ', ' ')
  }

  /** Every row keeps its player, round, team, fixture and side. */
  predicate SameMeta(a: seq<Row>, b: seq<Row>) {
    |a| == |b| &&
    forall k :: 0 <= k < |a| ==>
      a[k].element == b[k].element && a[k].round == b[k].round && a[k].team == b[k].team &&
      a[k].fixture == b[k].fixture && a[k].wasHome == b[k].wasHome
  }

  /** The table with column `c` set from `vals`, row by row. */
  function WithColumn(rows: seq<Row>, c: string, vals: seq<real>): (r: seq<Row>)
    requires |vals| == |rows|
    ensures SameMeta(r, rows)
    ensures forall i :: 0 <= i < |rows| ==> Get(r[i], c) == vals[i]
    ensures forall i, d :: 0 <= i < |rows| && d != c ==> Get(r[i], d) == Get(rows[i], d)
  {
    seq(|rows|, i requires 0 <= i < |rows| => SetStat(rows[i], c, vals[i]))
  }

  // ---------------------------------------------------------------- derived per-player columns

  /** A per-player derived column: the running total (`cumsum`) or the mean
      of the last `window` rows including the current one (`rolling(window,
      min_periods=1).mean()`). */
  datatype Feature = Cumulative(source: string) | Rolling(source: string, window: nat)

  /** The mean of the player's last up-to-`w` values of `c`, row `i` included. */
  function RollingIncluding(rows: seq<Row>, i: nat, c: string, w: nat): real
    requires i < |rows| && w > 0
  {
    Mean(LastN(Earlier(rows, i, c) + [Get(rows[i], c)], w))
  }

  function FeatureValue(rows: seq<Row>, i: nat, f: Feature): real
    requires i < |rows| && (f.Rolling? ==> f.window > 0)
  {
    match f
    case Cumulative(c) => RunningTotal(rows, i, c)
    case Rolling(c, w) => RollingIncluding(rows, i, c, w)
  }

  /** The training-side rolling average of the next row of the player (the
      current row excluded) is this row's including rolling mean. */
  lemma RollingExcludingIsPreviousIncluding(rows: seq<Row>, j: nat, i: nat, c: string, w: nat)
    requires w > 0 && j < i < |rows| && rows[j].element == rows[i].element
    requires forall k :: j < k < i ==> rows[k].element != rows[i].element
    ensures RollingMean(Earlier(rows, i, c), w) == Some(RollingIncluding(rows, j, c, w))
  {
    EarlierStep(rows, j, i, c);
  }

  /** With the player's values between `lo` and `hi`, so is the rolling mean. */
  lemma RollingIncludingBounds(rows: seq<Row>, i: nat, c: string, w: nat, lo: real, hi: real)
    requires i < |rows| && w > 0
    requires forall k :: 0 <= k < |rows| && rows[k].element == rows[i].element ==> lo <= Get(rows[k], c) <= hi
    ensures lo <= RollingIncluding(rows, i, c, w) <= hi
  {
    var vals := Earlier(rows, i, c) + [Get(rows[i], c)];
    var before := Filter(rows[..i], OfPlayer(rows[i].element));
    forall k | 0 <= k < |vals| ensures lo <= vals[k] <= hi {
      if k < |before| {
        assert before[k] in rows[..i];
      }
    }
    RollingMeanBounds(vals, w, lo, hi);
  }

  /** A derived column reads only its source column and the players of the
      rows. */
  lemma FeatureValueSameSource(a: seq<Row>, b: seq<Row>, i: nat, f: Feature)
    requires i < |a| && SameMeta(a, b) && (f.Rolling? ==> f.window > 0)
    requires forall k :: 0 <= k < |a| ==> Get(a[k], f.source) == Get(b[k], f.source)
    ensures FeatureValue(a, i, f) == FeatureValue(b, i, f)
  {
    HistorySameColumn(a[..i], b[..i], a[i].element, f.source);
  }

  function Names(feats: seq<(string, Feature)>): (r: seq<string>)
    ensures |r| == |feats| && forall k :: 0 <= k < |feats| ==> r[k] == feats[k].0
  {
    seq(|feats|, k requires 0 <= k < |feats| => feats[k].0)
  }

  /** Distinct names, positive windows, and no name is also a source. */
  predicate ValidFeatures(feats: seq<(string, Feature)>) {
    Distinct(Names(feats)) &&
    (forall k :: 0 <= k < |feats| ==> (feats[k].1.Rolling? ==> feats[k].1.window > 0)) &&
    (forall j, k :: 0 <= j < |feats| && 0 <= k < |feats| ==> feats[j].0 != feats[k].1.source)
  }

  ghost predicate FeaturesAdded(out: seq<Row>, rows: seq<Row>, feats: seq<(string, Feature)>, k: nat)
    requires k <= |feats| && ValidFeatures(feats)
  {
    SameMeta(out, rows) &&
    (forall i, d :: 0 <= i < |out| && d !in Names(feats) ==> Get(out[i], d) == Get(rows[i], d)) &&
    (forall i, j :: 0 <= i < |out| && 0 <= j < k ==> Get(out[i], feats[j].0) == FeatureValue(rows, i, feats[j].1))
  }

  lemma FeaturesAddedStep(out: seq<Row>, rows: seq<Row>, feats: seq<(string, Feature)>, k: nat, next: seq<Row>)
    requires k < |feats| && ValidFeatures(feats) && FeaturesAdded(out, rows, feats, k)
    requires SameMeta(next, out)
    requires forall i :: 0 <= i < |out| ==> Get(next[i], feats[k].0) == FeatureValue(out, i, feats[k].1)
    requires forall i, d :: 0 <= i < |out| && d != feats[k].0 ==> Get(next[i], d) == Get(out[i], d)
    ensures FeaturesAdded(next, rows, feats, k + 1)
  {
    var f := feats[k].1;
    assert f.source !in Names(feats);
    forall i | 0 <= i < |out| ensures FeatureValue(out, i, f) == FeatureValue(rows, i, f) {
      FeatureValueSameSource(out, rows, i, f);
    }
    forall i, j | 0 <= i < |out| && 0 <= j < k
      ensures Get(next[i], feats[j].0) == FeatureValue(rows, i, feats[j].1)
    {
      assert Names(feats)[j] != Names(feats)[k];
    }
    forall i, d | 0 <= i < |out| && d !in Names(feats) ensures Get(next[i], d) == Get(rows[i], d) {
      assert d != Names(feats)[k];
    }
  }

  /** The loops of `create_features` over the cumulative and the rolling
      columns: each derived column is computed from the table as it stands
      and assigned in turn. */
  method AddFeatures(rows: seq<Row>, feats: seq<(string, Feature)>) returns (out: seq<Row>)
    requires ValidFeatures(feats)
    ensures SameMeta(out, rows)
    ensures forall i, k :: 0 <= i < |out| && 0 <= k < |feats| ==> Get(out[i], feats[k].0) == FeatureValue(rows, i, feats[k].1)
    ensures forall i, d :: 0 <= i < |out| && d !in Names(feats) ==> Get(out[i], d) == Get(rows[i], d)
  {
    out := rows;
    for k := 0 to |feats|
      invariant FeaturesAdded(out, rows, feats, k)
    {
      var f := feats[k].1;
      var vals := seq(|out|, i requires 0 <= i < |out| => FeatureValue(out, i, f));
      var next := WithColumn(out, feats[k].0, vals);
      FeaturesAddedStep(out, rows, feats, k, next);
      out := next;
    }
  }

  /** The eight running totals and the statistic each sums. */
  function CumulativeFeatures(): (r: seq<(string, Feature)>)
    ensures |r| == 8
    ensures forall k :: 0 <= k < |r| ==> Head2(r[k].0) == ('c', 'u') && r[k].1.Cumulative?
  {
    var r := [("cumulative_goals", Cumulative("goals_scored")), ("cumulative_xG", Cumulative("expected_goals")),
              ("cumulative_assists", Cumulative("assists")), ("cumulative_xA", Cumulative("expected_assists")),
              ("cumulative_saves", Cumulative("saves")), ("cumulative_minutes", Cumulative("minutes")),
              ("cumulative_clean_sheets", Cumulative("clean_sheets")), ("cumulative_bonus", Cumulative("bonus"))];
    r
  }

  /** No rolling mean reads a running total. */
  lemma RollingSourcesKept()
    ensures forall k :: 0 <= k < |RollingFeatures()| ==> Head2(RollingFeatures()[k].1.source) != ('c', 'u')
  {
    forall k | 0 <= k < 32 ensures Head2(RollingFeatures()[k].1.source) != ('c', 'u') {
      assert RollingFeatures()[k].1.source in RollingSources();
    }
  }

  /** The running totals have distinct names and none of them is a source. */
  lemma CumulativeFeaturesValid()
    ensures ValidFeatures(CumulativeFeatures())
  {
    var r := CumulativeFeatures();
    forall j, k | 0 <= j < 8 && 0 <= k < 8 ensures r[j].0 != r[k].1.source {
      assert Head2(r[k].1.source) != ('c', 'u');
    }
    forall j, k | 0 <= j < k < 8 ensures Names(r)[j] != Names(r)[k] {
      assert r[j].0[11..] != r[k].0[11..];
    }
  }

  /** The sixteen columns with a 3- and a 5-gameweek rolling mean. */
  function RollingSources(): (r: seq<string>)
    ensures |r| == 16 && Distinct(r)
    ensures forall k :: 0 <= k < |r| ==> Head2(r[k]) != ('r', 'o') && Head2(r[k]) != ('c', 'u')
  {
    ["goals_scored", "expected_goals", "assists", "expected_assists", "saves", "minutes", "clean_sheets",
     "bonus", "teammate_goals", "teammate_assists", "teammate_expected_assists", "teammate_expected_goals",
     "threat", "creativity", "influence", "ict_index"]
  }

  function RollingName(w: nat, c: string): (r: string)
    requires w < 10
    ensures Head2(r) == ('r', 'o') && |r| == 12 + |c| && r[8] == DigitChar(w) && r[12..] == c
  {
    assert |ShowNat(w)| == 1;
    "rolling_" + ShowNat(w) + "gw_" + c
  }

  /** `rolling_3gw_<c>` then `rolling_5gw_<c>` for each source column. */
  function RollingFeatures(): (r: seq<(string, Feature)>)
    ensures |r| == 32
    ensures forall k :: 0 <= k < |r| ==>
              Head2(r[k].0) == ('r', 'o') && r[k].1.Rolling? && r[k].1.window > 0 && r[k].1.source in RollingSources()
  {
    var src := RollingSources();
    seq(32, k requires 0 <= k < 32 =>
      if k % 2 == 0 then (RollingName(3, src[k / 2]), Rolling(src[k / 2], 3))
      else (RollingName(5, src[k / 2]), Rolling(src[k / 2], 5)))
  }

  /** The rolling columns have distinct names and none of them is a source. */
  lemma RollingFeaturesValid()
    ensures ValidFeatures(RollingFeatures())
  {
    var r := RollingFeatures();
    var src := RollingSources();
    forall j, k | 0 <= j < k < 32 ensures Names(r)[j] != Names(r)[k] {
      assert r[j].0[8] != r[k].0[8] || r[j].0[12..] != r[k].0[12..];
    }
  }

  // ---------------------------------------------------------------- teammates

  function InTeamRound(team: int, round: int): Row -> bool {
    (r: Row) => r.team == team && r.round == round
  }

  /** `groupby(["element_team", "round"])[c].transform("sum")` at row `i`. */
  function TeamRoundTotal(rows: seq<Row>, i: nat, c: string): real
    requires i < |rows|
  {
    Sum(Column(Filter(rows, InTeamRound(rows[i].team, rows[i].round)), c))
  }

  /** The team's total that round minus the row's own value. */
  function TeammateValue(rows: seq<Row>, i: nat, c: string): real
    requires i < |rows|
  {
    TeamRoundTotal(rows, i, c) - Get(rows[i], c)
  }

  /** The teammate value is the sum over the other rows of the same team and
      round. */
  lemma TeammateIsOthersSum(rows: seq<Row>, i: nat, c: string)
    requires i < |rows|
    ensures TeammateValue(rows, i, c) ==
            Sum(Column(Filter(rows[..i] + rows[i + 1..], InTeamRound(rows[i].team, rows[i].round)), c))
  {
    var p := InTeamRound(rows[i].team, rows[i].round);
    assert rows == rows[..i] + ([rows[i]] + rows[i + 1..]);
    FilterAppend(rows[..i], [rows[i]] + rows[i + 1..], p);
    FilterAppend([rows[i]], rows[i + 1..], p);
    FilterAppend(rows[..i], rows[i + 1..], p);
    assert Filter([rows[i]], p) == [rows[i]];
    var a := Filter(rows[..i], p);
    var b := Filter(rows[i + 1..], p);
    ColumnAppend(a, [rows[i]] + b, c);
    ColumnAppend([rows[i]], b, c);
    ColumnAppend(a, b, c);
    SumAppend(Column(a, c), Column([rows[i]] + b, c));
    SumAppend(Column([rows[i]], c), Column(b, c));
    SumAppend(Column(a, c), Column(b, c));
  }

  /** `teammate_expected_assists` as written: the team's actual assists that
      round minus the row's expected assists. */
  function TeammateExpectedAssistsAsWritten(rows: seq<Row>, i: nat): real
    requires i < |rows|
  {
    TeamRoundTotal(rows, i, "assists") - Get(rows[i], "expected_assists")
  }

  /** A player alone in the team's rows that round, with 1 assist from 0.5
      expected: as written the teammates get 0.5 expected assists, though
      there are no teammate rows; the intended value is 0. */
  lemma TeammateExpectedAssistsMismatch()
    ensures var rows := [Row(7, 1, 3, 10, 4, true, false, map["assists" := 1.0, "expected_assists" := 0.5])];
            TeammateExpectedAssistsAsWritten(rows, 0) == 0.5 && TeammateValue(rows, 0, "expected_assists") == 0.0
  {
    var rows := [Row(7, 1, 3, 10, 4, true, false, map["assists" := 1.0, "expected_assists" := 0.5])];
    assert Filter(rows, InTeamRound(3, 1)) == rows;
    assert Get(rows[0], "assists") == 1.0 && Get(rows[0], "expected_assists") == 0.5;
    assert Column(rows, "assists") == [1.0] && Column(rows, "expected_assists") == [0.5];
    assert [1.0][1..] == [] && [0.5][1..] == [];
  }

  /** The intended teammate expected assists: the other rows' expected
      assists that round, never negative when all values are. */
  lemma TeammateExpectedAssistsIntended(rows: seq<Row>, i: nat)
    requires i < |rows|
    requires forall k :: 0 <= k < |rows| ==> Get(rows[k], "expected_assists") >= 0.0
    ensures TeammateValue(rows, i, "expected_assists") >= 0.0
  {
    var others := Filter(rows[..i] + rows[i + 1..], InTeamRound(rows[i].team, rows[i].round));
    TeammateIsOthersSum(rows, i, "expected_assists");
    forall k | 0 <= k < |others| ensures Column(others, "expected_assists")[k] >= 0.0 {
      assert others[k] in rows[..i] + rows[i + 1..];
    }
    NonNegativeSum(Column(others, "expected_assists"));
  }

  /** The eight team-total and teammate columns. */
  function TeammateColumns(): (r: seq<string>)
    ensures |r| == 8 && forall k :: 0 <= k < |r| ==> Head2(r[k]) == ('t', 'e')
  {
    ["team_goals_per_gw", "teammate_goals", "team_assists_per_gw", "teammate_assists",
     "team_expected_assists_per_gw", "teammate_expected_assists", "team_expected_goals_per_gw",
     "teammate_expected_goals"]
  }

  /** A row with the given team totals and the teammate values derived from
      them and the row's own statistics. */
  function WithTeamTotals(x: Row, goals: real, assists: real, xA: real, xG: real): (r: Row)
    ensures r.element == x.element && r.round == x.round && r.team == x.team
    ensures r.fixture == x.fixture && r.wasHome == x.wasHome
    ensures Get(r, "team_goals_per_gw") == goals
    ensures Get(r, "teammate_goals") == goals - Get(x, "goals_scored")
    ensures Get(r, "team_assists_per_gw") == assists
    ensures Get(r, "teammate_assists") == assists - Get(x, "assists")
    ensures Get(r, "team_expected_assists_per_gw") == xA
    ensures Get(r, "teammate_expected_assists") == assists - Get(x, "expected_assists")
    ensures Get(r, "team_expected_goals_per_gw") == xG
    ensures Get(r, "teammate_expected_goals") == xG - Get(x, "expected_goals")
    ensures forall d :: d !in TeammateColumns() ==> Get(r, d) == Get(x, d)
  {
    x.(stats := x.stats
      ["team_goals_per_gw" := goals]["teammate_goals" := goals - Get(x, "goals_scored")]
      ["team_assists_per_gw" := assists]["teammate_assists" := assists - Get(x, "assists")]
      ["team_expected_assists_per_gw" := xA]["teammate_expected_assists" := assists - Get(x, "expected_assists")]
      ["team_expected_goals_per_gw" := xG]["teammate_expected_goals" := xG - Get(x, "expected_goals")])
  }

  lemma WithTeamTotalsSame(x: Row, y: Row, goals: real, assists: real, xA: real, xG: real, d: string)
    requires SameTeamStatistics(x, y) && Get(x, d) == Get(y, d)
    ensures Get(WithTeamTotals(x, goals, assists, xA, xG), d) == Get(WithTeamTotals(y, goals, assists, xA, xG), d)
  {
    if d !in TeammateColumns() {
    } else if d == "team_goals_per_gw" || d == "team_assists_per_gw" || d == "team_expected_assists_per_gw" ||
              d == "team_expected_goals_per_gw" {
    } else {
      assert d == "teammate_goals" || d == "teammate_assists" || d == "teammate_expected_assists" ||
             d == "teammate_expected_goals";
    }
  }

  /** The row with the team totals of its team and round and the teammate
      columns derived from them. */
  function TeammateRow(rows: seq<Row>, i: nat): Row
    requires i < |rows|
  {
    WithTeamTotals(rows[i], TeamRoundTotal(rows, i, "goals_scored"), TeamRoundTotal(rows, i, "assists"),
                   TeamRoundTotal(rows, i, "expected_assists"), TeamRoundTotal(rows, i, "expected_goals"))
  }

  /** The team-total and teammate columns of `create_features`, with
      `teammate_expected_assists` as written. */
  function TeammateTable(rows: seq<Row>): (r: seq<Row>)
    ensures SameMeta(r, rows)
    ensures forall i :: 0 <= i < |rows| ==> r[i] == TeammateRow(rows, i)
  {
    seq(|rows|, i requires 0 <= i < |rows| => TeammateRow(rows, i))
  }

  /** Two rows agree on the team statistics the teammate columns read. */
  predicate SameTeamStatistics(x: Row, y: Row) {
    Get(x, "goals_scored") == Get(y, "goals_scored") && Get(x, "assists") == Get(y, "assists") &&
    Get(x, "expected_assists") == Get(y, "expected_assists") && Get(x, "expected_goals") == Get(y, "expected_goals")
  }

  /** The teammate columns read only the team statistics and the teams and
      rounds of the rows. */
  lemma TeammateTableSameBase(a: seq<Row>, b: seq<Row>, d: string)
    requires SameMeta(a, b)
    requires forall k :: 0 <= k < |a| ==> SameTeamStatistics(a[k], b[k])
    requires forall k :: 0 <= k < |a| ==> Get(a[k], d) == Get(b[k], d)
    ensures forall k :: 0 <= k < |a| ==> Get(TeammateTable(a)[k], d) == Get(TeammateTable(b)[k], d)
  {
    forall k | 0 <= k < |a| ensures Get(TeammateRow(a, k), d) == Get(TeammateRow(b, k), d) {
      TeammateRowSameBase(a, b, k, d);
    }
  }

  lemma TeammateRowSameBase(a: seq<Row>, b: seq<Row>, k: nat, d: string)
    requires SameMeta(a, b) && k < |a|
    requires forall j :: 0 <= j < |a| ==> SameTeamStatistics(a[j], b[j])
    requires Get(a[k], d) == Get(b[k], d)
    ensures Get(TeammateRow(a, k), d) == Get(TeammateRow(b, k), d)
  {
    TeamTotalsSame(a, b, k);
    WithTeamTotalsSame(a[k], b[k], TeamRoundTotal(a, k, "goals_scored"), TeamRoundTotal(a, k, "assists"),
                       TeamRoundTotal(a, k, "expected_assists"), TeamRoundTotal(a, k, "expected_goals"), d);
  }

  lemma TeamTotalsSame(a: seq<Row>, b: seq<Row>, k: nat)
    requires SameMeta(a, b) && k < |a|
    requires forall j :: 0 <= j < |a| ==> SameTeamStatistics(a[j], b[j])
    ensures TeamRoundTotal(a, k, "goals_scored") == TeamRoundTotal(b, k, "goals_scored")
    ensures TeamRoundTotal(a, k, "assists") == TeamRoundTotal(b, k, "assists")
    ensures TeamRoundTotal(a, k, "expected_assists") == TeamRoundTotal(b, k, "expected_assists")
    ensures TeamRoundTotal(a, k, "expected_goals") == TeamRoundTotal(b, k, "expected_goals")
  {
    var p := InTeamRound(a[k].team, a[k].round);
    var q := InTeamRound(b[k].team, b[k].round);
    assert forall j :: 0 <= j < |a| ==> p(a[j]) == q(b[j]);
    ColumnFilterSame(a, b, p, q, "goals_scored");
    ColumnFilterSame(a, b, p, q, "assists");
    ColumnFilterSame(a, b, p, q, "expected_assists");
    ColumnFilterSame(a, b, p, q, "expected_goals");
  }

  // ---------------------------------------------------------------- fixture difficulty

  /** A fixture of `team` in gameweek `current` or later; an unscheduled
      fixture never is. */
  function Future(team: int, current: int): Fixture -> bool {
    (f: Fixture) => f.event.Some? && f.event.value >= current && (f.teamH == team || f.teamA == team)
  }

  /** The difficulty of the fixture for `team`'s own side. */
  function OwnSide(f: Fixture, team: int): real {
    if f.teamH == team then f.teamHDifficulty as real else f.teamADifficulty as real
  }

  function OwnSides(fs: seq<Fixture>, team: int): (r: seq<real>)
    ensures |r| == |fs| && forall k :: 0 <= k < |fs| ==> r[k] == OwnSide(fs[k], team)
  {
    seq(|fs|, k requires 0 <= k < |fs| => OwnSide(fs[k], team))
  }

  /** The mean own-side difficulty of the team's first three future fixtures
      in list order, or 3 (medium) when it has none. */
  function Difficulty(team: int, current: int, fixtures: seq<Fixture>): (d: real)
    ensures Filter(fixtures, Future(team, current)) == [] ==> d == 3.0
  {
    var next := FirstN(Filter(fixtures, Future(team, current)), 3);
    if next == [] then 3.0 else Mean(OwnSides(next, team))
  }

  /** `get_fixture_difficulty`: the list of difficulties is built by appends
      over the first three future fixtures, then averaged. */
  method FixtureDifficulty(team: int, current: int, fixtures: seq<Fixture>) returns (d: real)
    ensures d == Difficulty(team, current, fixtures)
  {
    var next := FirstN(Filter(fixtures, Future(team, current)), 3);
    var difficulties: seq<real> := [];
    for k := 0 to |next|
      invariant difficulties == OwnSides(next[..k], team)
    {
      difficulties := difficulties + [OwnSide(next[k], team)];
    }
    assert next[..|next|] == next;
    if difficulties == [] {
      d := 3.0;
    } else {
      d := Mean(difficulties);
    }
  }

  /** With every difficulty between 1 and 5, so is the team's. */
  lemma DifficultyBounds(team: int, current: int, fixtures: seq<Fixture>)
    requires forall k :: 0 <= k < |fixtures| ==>
               1 <= fixtures[k].teamHDifficulty <= 5 && 1 <= fixtures[k].teamADifficulty <= 5
    ensures 1.0 <= Difficulty(team, current, fixtures) <= 5.0
  {
    var next := FirstN(Filter(fixtures, Future(team, current)), 3);
    if next != [] {
      var sides := OwnSides(next, team);
      forall k | 0 <= k < |sides| ensures 1.0 <= sides[k] <= 5.0 {
        assert next[k] in fixtures;
      }
      SumBounds(sides, 1.0, 5.0);
      DivideBounds(Sum(sides), |sides| as real, 1.0, 5.0);
    }
  }

  /** Only the first three future fixtures count: fixtures listed after them
      change nothing. */
  lemma DifficultyFirstThree(team: int, current: int, a: seq<Fixture>, b: seq<Fixture>)
    requires |Filter(a, Future(team, current))| >= 3
    ensures Difficulty(team, current, a + b) == Difficulty(team, current, a)
  {
    var fa := Filter(a, Future(team, current));
    FilterAppend(a, b, Future(team, current));
    assert FirstN(fa + Filter(b, Future(team, current)), 3) == fa[..3];
  }

  /** `next_<horizon>_difficulty` */
  function DifficultyName(horizon: int): (r: string)
    ensures Head2(r) == ('n', 'e')
  {
    "next_" + ShowInt(horizon) + "_difficulty"
  }

  /** `merged.apply(get_fixture_difficulty, axis=1)`: each row's team and
      round give its difficulty. */
  method AddDifficulty(rows: seq<Row>, fixtures: seq<Fixture>, horizon: int) returns (out: seq<Row>)
    ensures SameMeta(out, rows)
    ensures forall i :: 0 <= i < |rows| ==>
              Get(out[i], DifficultyName(horizon)) == Difficulty(rows[i].team, rows[i].round, fixtures)
    ensures forall i, d :: 0 <= i < |rows| && d != DifficultyName(horizon) ==> Get(out[i], d) == Get(rows[i], d)
  {
    var vals: seq<real> := [];
    for i := 0 to |rows|
      invariant |vals| == i
      invariant forall k :: 0 <= k < i ==> vals[k] == Difficulty(rows[k].team, rows[k].round, fixtures)
    {
      var d := FixtureDifficulty(rows[i].team, rows[i].round, fixtures);
      vals := vals + [d];
    }
    out := WithColumn(rows, DifficultyName(horizon), vals);
  }

  // ---------------------------------------------------------------- team strength

  function StrengthColumns(): (r: seq<string>)
    ensures |r| == 6 && forall k :: 0 <= k < |r| ==> r[k] !in TeammateColumns()
  {
    ["team_attack_strength", "team_defence_strength", "team_strength_attack_home", "team_strength_attack_away",
     "team_strength_defence_home", "team_strength_defence_away"]
  }

  /** `team_attack_strength` and `team_defence_strength`: the team's home
      strengths on a home row, its away strengths otherwise. */
  function WithStrengths(rows: seq<Row>): (r: seq<Row>)
    ensures SameMeta(r, rows)
    ensures forall i :: 0 <= i < |rows| ==>
              Get(r[i], "team_attack_strength") ==
                Get(rows[i], if rows[i].wasHome then "team_strength_attack_home" else "team_strength_attack_away") &&
              Get(r[i], "team_defence_strength") ==
                Get(rows[i], if rows[i].wasHome then "team_strength_defence_home" else "team_strength_defence_away")
    ensures forall i, d :: 0 <= i < |rows| && d != "team_attack_strength" && d != "team_defence_strength" ==>
              Get(r[i], d) == Get(rows[i], d)
  {
    var attack := seq(|rows|, i requires 0 <= i < |rows| =>
      Get(rows[i], if rows[i].wasHome then "team_strength_attack_home" else "team_strength_attack_away"));
    var defence := seq(|rows|, i requires 0 <= i < |rows| =>
      Get(rows[i], if rows[i].wasHome then "team_strength_defence_home" else "team_strength_defence_away"));
    WithColumn(WithColumn(rows, "team_attack_strength", attack), "team_defence_strength", defence)
  }

  // ---------------------------------------------------------------- the whole feature set

  /** `create_features` on the merged table: sort by player and round, add the
      running totals, the team and teammate columns, the rolling means, the
      fixture difficulty and the team strengths, in that order. */
  method CreateFeatures(merged: seq<Row>, fixtures: seq<Fixture>, horizon: int) returns (out: seq<Row>)
    ensures SameMeta(out, SortRows(merged))
    ensures forall i, k :: 0 <= i < |out| && 0 <= k < 8 ==>
              Get(out[i], CumulativeFeatures()[k].0) == RunningTotal(SortRows(merged), i, CumulativeFeatures()[k].1.source)
    ensures forall i, d :: 0 <= i < |out| && d in TeammateColumns() ==>
              Get(out[i], d) == Get(TeammateTable(SortRows(merged))[i], d)
    ensures forall i, k :: 0 <= i < |out| && 0 <= k < 32 ==>
              Get(out[i], RollingFeatures()[k].0) == FeatureValue(TeammateTable(SortRows(merged)), i, RollingFeatures()[k].1)
    ensures forall i :: 0 <= i < |out| ==>
              Get(out[i], DifficultyName(horizon)) == Difficulty(SortRows(merged)[i].team, SortRows(merged)[i].round, fixtures)
    ensures forall i :: 0 <= i < |out| ==> StrengthsOf(out[i], SortRows(merged)[i])
  {
    var sorted := SortRows(merged);
    CumulativeFeaturesValid();
    var s1 := AddFeatures(sorted, CumulativeFeatures());
    KeepsByHead(s1, sorted, CumulativeFeatures(), ('c', 'u'));
    var s2 := TeammateTable(s1);
    RollingFeaturesValid();
    var s3 := AddFeatures(s2, RollingFeatures());
    KeepsByHead(s3, s2, RollingFeatures(), ('r', 'o'));
    var s4 := AddDifficulty(s3, fixtures, horizon);
    out := WithStrengths(s4);
    SameMetaTrans(s2, s1, sorted);
    SameMetaTrans(s3, s2, sorted);
    DifficultySurvives(sorted, s3, s4, out, fixtures, horizon);
    assert Later(s2, s3, s4, out, horizon);
    CumulativeSurvives(sorted, s1, s2, s3, s4, out, horizon, CumulativeFeatures());
    TeammateSurvives(sorted, s1, s2, s3, s4, out, horizon);
    RollingSourcesKept();
    RollingSurvives(sorted, s1, s2, s3, s4, out, horizon, RollingFeatures());
    StrengthsSurvive(sorted, s1, s2, s3, s4, out, horizon);
  }

  lemma SameMetaTrans(a: seq<Row>, b: seq<Row>, c: seq<Row>)
    requires SameMeta(a, b) && SameMeta(b, c)
    ensures SameMeta(a, c)
  {
  }

  /** The difficulty column is the last one written but the strengths, which
      leave it alone. */
  lemma DifficultySurvives(sorted: seq<Row>, s3: seq<Row>, s4: seq<Row>, out: seq<Row>, fixtures: seq<Fixture>, horizon: int)
    requires SameMeta(s3, sorted) && SameMeta(s4, s3) && out == WithStrengths(s4)
    requires forall i :: 0 <= i < |s3| ==>
               Get(s4[i], DifficultyName(horizon)) == Difficulty(s3[i].team, s3[i].round, fixtures)
    ensures SameMeta(out, sorted)
    ensures forall i :: 0 <= i < |out| ==>
              Get(out[i], DifficultyName(horizon)) == Difficulty(sorted[i].team, sorted[i].round, fixtures)
  {
    SameMetaTrans(s4, s3, sorted);
    SameMetaTrans(out, s4, sorted);
    assert DifficultyName(horizon) != "team_attack_strength" && DifficultyName(horizon) != "team_defence_strength";
  }

  /** The strength columns of `r` are those of `source`'s side. */
  predicate StrengthsOf(r: Row, source: Row) {
    Get(r, "team_attack_strength") ==
      Get(source, if source.wasHome then "team_strength_attack_home" else "team_strength_attack_away") &&
    Get(r, "team_defence_strength") ==
      Get(source, if source.wasHome then "team_strength_defence_home" else "team_strength_defence_away")
  }

  /** `a` is `b` with at most columns whose first two letters are `h`
      changed. */
  ghost predicate KeepsHead(a: seq<Row>, b: seq<Row>, h: (char, char)) {
    SameMeta(a, b) && forall i, d :: 0 <= i < |a| && Head2(d) != h ==> Get(a[i], d) == Get(b[i], d)
  }

  /** The derived columns of a stage all start with `h`, so every other
      column is kept. */
  lemma KeepsByHead(a: seq<Row>, b: seq<Row>, feats: seq<(string, Feature)>, h: (char, char))
    requires SameMeta(a, b)
    requires forall i, d :: 0 <= i < |a| && d !in Names(feats) ==> Get(a[i], d) == Get(b[i], d)
    requires forall k :: 0 <= k < |feats| ==> Head2(feats[k].0) == h
    ensures KeepsHead(a, b, h)
  {
    forall i, d | 0 <= i < |a| && Head2(d) != h ensures Get(a[i], d) == Get(b[i], d) {
      assert d !in Names(feats);
    }
  }

  /** The stages after the teammate columns, as their operations state them. */
  ghost predicate Later(s2: seq<Row>, s3: seq<Row>, s4: seq<Row>, out: seq<Row>, horizon: int) {
    KeepsHead(s3, s2, ('r', 'o')) && SameMeta(s4, s3) && out == WithStrengths(s4) &&
    forall i, d :: 0 <= i < |s4| && d != DifficultyName(horizon) ==> Get(s4[i], d) == Get(s3[i], d)
  }

  /** A column that the stages after the teammate columns do not write keeps
      its value to the end. */
  lemma Untouched(s2: seq<Row>, s3: seq<Row>, s4: seq<Row>, out: seq<Row>, horizon: int, i: nat, d: string)
    requires Later(s2, s3, s4, out, horizon) && i < |s2|
    requires Head2(d) != ('r', 'o') && Head2(d) != ('n', 'e')
    requires d != "team_attack_strength" && d != "team_defence_strength"
    ensures Get(out[i], d) == Get(s2[i], d)
  {
    assert d != DifficultyName(horizon);
  }

  lemma StrengthNames()
    ensures Head2("team_attack_strength") == ('t', 'e') && Head2("team_defence_strength") == ('t', 'e')
    ensures "team_attack_strength" !in TeammateColumns() && "team_defence_strength" !in TeammateColumns()
  {
  }

  lemma CumulativeSurvives(sorted: seq<Row>, s1: seq<Row>, s2: seq<Row>, s3: seq<Row>, s4: seq<Row>, out: seq<Row>,
                           horizon: int, feats: seq<(string, Feature)>)
    requires SameMeta(s1, sorted)
    requires forall k :: 0 <= k < |feats| ==> Head2(feats[k].0) == ('c', 'u') && feats[k].1.Cumulative?
    requires forall i, k :: 0 <= i < |s1| && 0 <= k < |feats| ==>
               Get(s1[i], feats[k].0) == FeatureValue(sorted, i, feats[k].1)
    requires s2 == TeammateTable(s1) && Later(s2, s3, s4, out, horizon)
    ensures forall i, k :: 0 <= i < |out| && 0 <= k < |feats| ==>
              Get(out[i], feats[k].0) == RunningTotal(sorted, i, feats[k].1.source)
  {
    forall i, k | 0 <= i < |out| && 0 <= k < |feats|
      ensures Get(out[i], feats[k].0) == RunningTotal(sorted, i, feats[k].1.source)
    {
      TeammateKeeps(s1, i, feats[k].0);
      CumulativeSurvivesAt(sorted, s2, s3, s4, out, horizon, i, feats[k].0, feats[k].1);
    }
  }

  /** The teammate stage keeps every column it does not write. */
  lemma TeammateKeeps(rows: seq<Row>, i: nat, d: string)
    requires i < |rows| && Head2(d) != ('t', 'e')
    ensures Get(TeammateTable(rows)[i], d) == Get(rows[i], d)
  {
    assert d !in TeammateColumns();
  }

  lemma CumulativeSurvivesAt(sorted: seq<Row>, s2: seq<Row>, s3: seq<Row>, s4: seq<Row>, out: seq<Row>,
                             horizon: int, i: nat, n: string, f: Feature)
    requires i < |s2| && i < |sorted| && Later(s2, s3, s4, out, horizon)
    requires Head2(n) == ('c', 'u') && f.Cumulative?
    requires Get(s2[i], n) == FeatureValue(sorted, i, f)
    ensures Get(out[i], n) == RunningTotal(sorted, i, f.source)
  {
    StrengthNames();
    Untouched(s2, s3, s4, out, horizon, i, n);
  }

  /** The teammate columns of the table with the running totals are those of
      the sorted table: the running totals overwrite nothing they read. */
  lemma BaseKept(sorted: seq<Row>, s1: seq<Row>, d: string)
    requires KeepsHead(s1, sorted, ('c', 'u')) && Head2(d) != ('c', 'u')
    ensures forall i :: 0 <= i < |s1| ==> Get(TeammateTable(s1)[i], d) == Get(TeammateTable(sorted)[i], d)
  {
    assert Head2("goals_scored") == ('g', 'o') && Head2("assists") == ('a', 's');
    assert Head2("expected_assists") == ('e', 'x') && Head2("expected_goals") == ('e', 'x');
    TeammateTableSameBase(s1, sorted, d);
  }

  lemma TeammateSurvives(sorted: seq<Row>, s1: seq<Row>, s2: seq<Row>, s3: seq<Row>, s4: seq<Row>, out: seq<Row>,
                         horizon: int)
    requires KeepsHead(s1, sorted, ('c', 'u')) && s2 == TeammateTable(s1) && Later(s2, s3, s4, out, horizon)
    ensures forall i, d :: 0 <= i < |out| && d in TeammateColumns() ==>
              Get(out[i], d) == Get(TeammateTable(sorted)[i], d)
  {
    StrengthNames();
    forall i, d | 0 <= i < |out| && d in TeammateColumns() ensures Get(out[i], d) == Get(TeammateTable(sorted)[i], d) {
      BaseKept(sorted, s1, d);
      Untouched(s2, s3, s4, out, horizon, i, d);
    }
  }

  lemma RollingSurvives(sorted: seq<Row>, s1: seq<Row>, s2: seq<Row>, s3: seq<Row>, s4: seq<Row>, out: seq<Row>,
                        horizon: int, feats: seq<(string, Feature)>)
    requires KeepsHead(s1, sorted, ('c', 'u')) && s2 == TeammateTable(s1) && Later(s2, s3, s4, out, horizon)
    requires forall k :: 0 <= k < |feats| ==>
               Head2(feats[k].0) == ('r', 'o') && feats[k].1.Rolling? && feats[k].1.window > 0 &&
               Head2(feats[k].1.source) != ('c', 'u')
    requires forall i, k :: 0 <= i < |s3| && 0 <= k < |feats| ==>
               Get(s3[i], feats[k].0) == FeatureValue(s2, i, feats[k].1)
    ensures forall i, k :: 0 <= i < |out| && 0 <= k < |feats| ==>
              Get(out[i], feats[k].0) == FeatureValue(TeammateTable(sorted), i, feats[k].1)
  {
    TeammateTablesMeta(sorted, s1);
    forall i, k | 0 <= i < |out| && 0 <= k < |feats|
      ensures Get(out[i], feats[k].0) == FeatureValue(TeammateTable(sorted), i, feats[k].1)
    {
      BaseKept(sorted, s1, feats[k].1.source);
      RollingSurvivesAt(TeammateTable(sorted), s2, s3, s4, out, horizon, i, feats[k].0, feats[k].1);
    }
  }

  lemma TeammateTablesMeta(sorted: seq<Row>, s1: seq<Row>)
    requires SameMeta(s1, sorted)
    ensures SameMeta(TeammateTable(s1), TeammateTable(sorted))
  {
  }

  lemma RollingSurvivesAt(base: seq<Row>, s2: seq<Row>, s3: seq<Row>, s4: seq<Row>, out: seq<Row>,
                          horizon: int, i: nat, n: string, f: Feature)
    requires Later(s2, s3, s4, out, horizon) && SameMeta(s2, base)
    requires i < |s3| && Head2(n) == ('r', 'o') && (f.Rolling? ==> f.window > 0)
    requires forall k :: 0 <= k < |s2| ==> Get(s2[k], f.source) == Get(base[k], f.source)
    requires Get(s3[i], n) == FeatureValue(s2, i, f)
    ensures Get(out[i], n) == FeatureValue(base, i, f)
  {
    assert n != DifficultyName(horizon);
    assert n != "team_attack_strength" && n != "team_defence_strength";
    FeatureValueSameSource(s2, base, i, f);
  }

  lemma StrengthsSurvive(sorted: seq<Row>, s1: seq<Row>, s2: seq<Row>, s3: seq<Row>, s4: seq<Row>, out: seq<Row>,
                         horizon: int)
    requires KeepsHead(s1, sorted, ('c', 'u')) && s2 == TeammateTable(s1) && Later(s2, s3, s4, out, horizon)
    ensures forall i :: 0 <= i < |out| ==> StrengthsOf(out[i], sorted[i])
  {
    forall i | 0 <= i < |out| ensures StrengthsOf(out[i], sorted[i]) {
      StrengthSourceKept(sorted, s1, s2, s3, s4, out, horizon, i, "team_strength_attack_home");
      StrengthSourceKept(sorted, s1, s2, s3, s4, out, horizon, i, "team_strength_attack_away");
      StrengthSourceKept(sorted, s1, s2, s3, s4, out, horizon, i, "team_strength_defence_home");
      StrengthSourceKept(sorted, s1, s2, s3, s4, out, horizon, i, "team_strength_defence_away");
    }
  }

  lemma StrengthSourceKept(sorted: seq<Row>, s1: seq<Row>, s2: seq<Row>, s3: seq<Row>, s4: seq<Row>, out: seq<Row>,
                           horizon: int, i: nat, d: string)
    requires KeepsHead(s1, sorted, ('c', 'u')) && s2 == TeammateTable(s1) && Later(s2, s3, s4, out, horizon)
    requires i < |s4|
    requires d == "team_strength_attack_home" || d == "team_strength_attack_away" ||
             d == "team_strength_defence_home" || d == "team_strength_defence_away"
    ensures Get(s4[i], d) == Get(sorted[i], d)
  {
    assert Head2(d) == ('t', 'e');
    assert d != DifficultyName(horizon);
    assert d !in TeammateColumns();
    BaseKept(sorted, s1, d);
  }
}
