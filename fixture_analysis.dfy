/** The fixture analysis page (src/Components/FIxtureAnalysisPage.tsx): the
    effect that narrows the fixture list by gameweek window, difficulty and team,
    the difficulty badge colour, and the previous/next gameweek buttons. */
module FixtureAnalysis {
  import opened Common
  import opened Seqs
  import opened Records
  import Reducers

  datatype HomeAway = All | Home | Away

  /** The page's filter controls, with the store's gameweek. A selection of 0
      or null is "none", as JavaScript's truthiness makes it. */
  datatype Controls = Controls(
    gameweek: Option<int>,
    fixtureHorizon: int,
    difficulty: Option<int>,
    selectedTeam: Option<int>,
    homeAway: HomeAway)

  /** The page's starting controls: horizon 5, no difficulty, no team, all venues. */
  function InitialControls(gameweek: Option<int>): (r: Controls)
    ensures r.fixtureHorizon == 5 && !Truthy(r.difficulty) && !Truthy(r.selectedTeam) && r.homeAway == All
  {
    Controls(gameweek, 5, None, None, All)
  }

  // Each test below holds trivially when its control is not chosen.

  /** In the window `[gameweek, gameweek + horizon]`; an unscheduled fixture
      (or event 0) is outside every window. */
  predicate InWindow(c: Controls, f: Fixture) {
    Truthy(c.gameweek) ==>
      f.event.Some? && f.event.value != 0 &&
      c.gameweek.value <= f.event.value <= c.gameweek.value + c.fixtureHorizon
  }

  predicate EitherSideDifficulty(c: Controls, f: Fixture) {
    Truthy(c.difficulty) ==>
      f.teamADifficulty == c.difficulty.value || f.teamHDifficulty == c.difficulty.value
  }

  predicate VenueDifficulty(c: Controls, f: Fixture) {
    Truthy(c.difficulty) ==>
      match c.homeAway
      case All => true
      case Home => f.teamHDifficulty == c.difficulty.value
      case Away => f.teamADifficulty == c.difficulty.value
  }

  predicate InvolvesTeam(c: Controls, f: Fixture) {
    Truthy(c.selectedTeam) ==> f.teamH == c.selectedTeam.value || f.teamA == c.selectedTeam.value
  }

  predicate VenueTeam(c: Controls, f: Fixture) {
    Truthy(c.selectedTeam) ==>
      match c.homeAway
      case All => true
      case Home => f.teamH == c.selectedTeam.value
      case Away => f.teamA == c.selectedTeam.value
  }

  /** A fixture stays in the list exactly when it passes every chosen test. */
  predicate Keep(c: Controls, f: Fixture) {
    InWindow(c, f) && EitherSideDifficulty(c, f) && VenueDifficulty(c, f) && InvolvesTeam(c, f) && VenueTeam(c, f)
  }

  predicate Stage1(c: Controls, f: Fixture) { InWindow(c, f) }
  predicate Stage2(c: Controls, f: Fixture) { Stage1(c, f) && EitherSideDifficulty(c, f) }
  predicate Stage3(c: Controls, f: Fixture) { Stage2(c, f) && VenueDifficulty(c, f) }
  predicate Stage4(c: Controls, f: Fixture) { Stage3(c, f) && InvolvesTeam(c, f) }

  /** The filter effect: `filtered` starts as a copy and is narrowed by each
      chosen control in turn. */
  method FilterFixtures(fixtures: seq<Fixture>, c: Controls) returns (filtered: seq<Fixture>)
    ensures filtered == Filter(fixtures, (f: Fixture) => Keep(c, f))
    ensures IsSubsequence(filtered, fixtures)
  {
    filtered := fixtures;
    FilterAll(fixtures, (f: Fixture) => true);
    if Truthy(c.gameweek) {
      filtered := Filter(filtered, (f: Fixture) => InWindow(c, f));
      FilterFilter(fixtures, (f: Fixture) => true, (f: Fixture) => InWindow(c, f), (f: Fixture) => Stage1(c, f));
    } else {
      FilterExt(fixtures, (f: Fixture) => true, (f: Fixture) => Stage1(c, f));
    }
    assert filtered == Filter(fixtures, (f: Fixture) => Stage1(c, f));
    if Truthy(c.difficulty) {
      filtered := Filter(filtered, (f: Fixture) => EitherSideDifficulty(c, f));
      FilterFilter(fixtures, (f: Fixture) => Stage1(c, f), (f: Fixture) => EitherSideDifficulty(c, f), (f: Fixture) => Stage2(c, f));
      if c.homeAway == Home {
        filtered := Filter(filtered, (f: Fixture) => f.teamHDifficulty == c.difficulty.value);
        FilterFilter(fixtures, (f: Fixture) => Stage2(c, f), (f: Fixture) => f.teamHDifficulty == c.difficulty.value, (f: Fixture) => Stage3(c, f));
      } else if c.homeAway == Away {
        filtered := Filter(filtered, (f: Fixture) => f.teamADifficulty == c.difficulty.value);
        FilterFilter(fixtures, (f: Fixture) => Stage2(c, f), (f: Fixture) => f.teamADifficulty == c.difficulty.value, (f: Fixture) => Stage3(c, f));
      } else {
        FilterExt(fixtures, (f: Fixture) => Stage2(c, f), (f: Fixture) => Stage3(c, f));
      }
    } else {
      FilterExt(fixtures, (f: Fixture) => Stage1(c, f), (f: Fixture) => Stage3(c, f));
    }
    assert filtered == Filter(fixtures, (f: Fixture) => Stage3(c, f));
    if Truthy(c.selectedTeam) {
      filtered := Filter(filtered, (f: Fixture) => InvolvesTeam(c, f));
      FilterFilter(fixtures, (f: Fixture) => Stage3(c, f), (f: Fixture) => InvolvesTeam(c, f), (f: Fixture) => Stage4(c, f));
      if c.homeAway == Home {
        filtered := Filter(filtered, (f: Fixture) => f.teamH == c.selectedTeam.value);
        FilterFilter(fixtures, (f: Fixture) => Stage4(c, f), (f: Fixture) => f.teamH == c.selectedTeam.value, (f: Fixture) => Keep(c, f));
      } else if c.homeAway == Away {
        filtered := Filter(filtered, (f: Fixture) => f.teamA == c.selectedTeam.value);
        FilterFilter(fixtures, (f: Fixture) => Stage4(c, f), (f: Fixture) => f.teamA == c.selectedTeam.value, (f: Fixture) => Keep(c, f));
      } else {
        FilterExt(fixtures, (f: Fixture) => Stage4(c, f), (f: Fixture) => Keep(c, f));
      }
    } else {
      FilterExt(fixtures, (f: Fixture) => Stage3(c, f), (f: Fixture) => Keep(c, f));
    }
    FilterIsSubsequence(fixtures, (f: Fixture) => Keep(c, f));
  }

  /** With no gameweek, difficulty or team chosen, every fixture is shown. */
  lemma NothingChosenKeepsAll(fixtures: seq<Fixture>, c: Controls)
    requires !Truthy(c.gameweek) && !Truthy(c.difficulty) && !Truthy(c.selectedTeam)
    ensures Filter(fixtures, (f: Fixture) => Keep(c, f)) == fixtures
  {
    FilterAll(fixtures, (f: Fixture) => Keep(c, f));
  }

  /** Choosing home or away only ever removes fixtures from the "all" list. */
  lemma VenueNarrows(fixtures: seq<Fixture>, c: Controls)
    ensures IsSubsequence(Filter(fixtures, (f: Fixture) => Keep(c, f)),
                          Filter(fixtures, (f: Fixture) => Keep(c.(homeAway := All), f)))
  {
    var all := Filter(fixtures, (f: Fixture) => Keep(c.(homeAway := All), f));
    FilterFilter(fixtures, (f: Fixture) => Keep(c.(homeAway := All), f), (f: Fixture) => Keep(c, f), (f: Fixture) => Keep(c, f));
    FilterIsSubsequence(all, (f: Fixture) => Keep(c, f));
  }

  /** The component's list of shown fixtures. */
  class FixtureAnalysisView {
    var filteredFixtures: seq<Fixture>

    constructor ()
      ensures filteredFixtures == []
    {
      filteredFixtures := [];
    }

    /** The effect: a missing fixture list changes nothing. */
    method Refresh(fixtures: Option<seq<Fixture>>, c: Controls)
      modifies this
      ensures fixtures.None? ==> filteredFixtures == old(filteredFixtures)
      ensures fixtures.Some? ==> filteredFixtures == Filter(fixtures.value, (f: Fixture) => Keep(c, f))
    {
      if fixtures.Some? {
        filteredFixtures := FilterFixtures(fixtures.value, c);
      }
    }
  }

  // ---------------------------------------------------------------- badges and buttons

  datatype Colour = Green | Yellow | Orange | Red | Blue

  /** `renderDifficultyBadge`: the tests run in order, and a value that passes
      none of them (between 2 and 5 but not 3 or 4) stays blue. */
  function BadgeColour(difficulty: real): (r: Colour)
    ensures r == Green <==> difficulty <= 2.0
    ensures r == Yellow <==> difficulty == 3.0
    ensures r == Orange <==> difficulty == 4.0
    ensures r == Red <==> difficulty >= 5.0
  {
    if difficulty <= 2.0 then Green
    else if difficulty == 3.0 then Yellow
    else if difficulty == 4.0 then Orange
    else if difficulty >= 5.0 then Red
    else Blue
  }

  /** A whole-number difficulty is never blue; a fractional one between 2 and 5
      other than 3 and 4 is. */
  lemma BlueOnlyForFractions(d: int, x: real)
    ensures BadgeColour(d as real) != Blue
    ensures 2.0 < x < 5.0 && x != 3.0 && x != 4.0 ==> BadgeColour(x) == Blue
  {
  }

  /** The left arrow's payload: one gameweek back, never below 1. A missing
      gameweek counts as 0, as `null - 1` does. */
  function PreviousGameweek(gameweek: Option<int>): (r: int)
    ensures r >= 1
    ensures gameweek.GetOr(0) >= 2 ==> r == gameweek.GetOr(0) - 1
  {
    Max(1, gameweek.GetOr(0) - 1)
  }

  /** The right arrow's payload: one gameweek on, with no upper bound. */
  function NextGameweek(gameweek: Option<int>): (r: int)
    ensures r == gameweek.GetOr(0) + 1
  {
    gameweek.GetOr(0) + 1
  }

  /** Going forward and back returns to the same gameweek from gameweek 1 on. */
  lemma NextThenPrevious(g: int)
    requires g >= 1
    ensures PreviousGameweek(Some(NextGameweek(Some(g)))) == g
  {
  }

  function PreviousAction(gameweek: Option<int>): Reducers.Action {
    Reducers.SetGameweek(Some(PreviousGameweek(gameweek)))
  }

  function NextAction(gameweek: Option<int>): Reducers.Action {
    Reducers.SetGameweek(Some(NextGameweek(gameweek)))
  }

  /** The left arrow is disabled on gameweek 1. */
  predicate PreviousEnabled(gameweek: Option<int>) {
    gameweek != Some(1)
  }
}
