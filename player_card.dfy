/** The rules inside a player card (src/Components/PlayerCard.tsx): availability
    status, the captaincy border, the next fixture, the gameweek points shown and
    the availability badge text. */
module PlayerCard {
  import opened Common
  import opened Seqs
  import opened Records
  import Text

  /** The player's status letter, when the card has a player. */
  function Status(player: Option<PlayerElement>): Option<string> {
    match player
    case None => None
    case Some(p) => Some(p.status)
  }

  predicate Injured(player: Option<PlayerElement>) {
    Status(player) == Some("i") || Status(player) == Some("u")
  }

  predicate Suspended(player: Option<PlayerElement>) {
    Status(player) == Some("d") || Status(player) == Some("p") || Status(player) == Some("s")
  }

  /** No status is both; a card without a player is neither. */
  lemma InjuredOrSuspendedNotBoth(player: Option<PlayerElement>)
    ensures !(Injured(player) && Suspended(player))
    ensures player.None? ==> !Injured(player) && !Suspended(player)
  {
  }

  datatype BorderColour = RedBorder | YellowBorder | Transparent

  /** `captainColor`: the flags are truthy only when present and true. */
  function CaptainColour(isCaptain: Option<bool>, vice: Option<bool>): (r: BorderColour)
    ensures r == RedBorder <==> isCaptain == Some(true)
    ensures r == YellowBorder <==> isCaptain != Some(true) && vice == Some(true)
  {
    if isCaptain == Some(true) then RedBorder
    else if vice == Some(true) then YellowBorder
    else Transparent
  }

  /** What `getNextFixture` returns. */
  datatype NextFixture = NextFixture(opponentId: int, opponent: Option<Team>, isHome: bool, isFinished: bool)

  /** The fixtures the card searches: of the stored gameweek (`==` makes a null
      event match a null gameweek), not finished, involving the team. */
  predicate Candidate(gameweek: Option<int>, teamId: int, f: Fixture) {
    f.event == gameweek && !f.finished && (f.teamA == teamId || f.teamH == teamId)
  }

  /** `getNextFixture(teamId)`: the first candidate fixture, seen from the team's side. */
  function GetNextFixture(fixtures: seq<Fixture>, teams: seq<Team>, gameweek: Option<int>, teamId: int): (r: Option<NextFixture>)
    ensures r.None? <==> forall i :: 0 <= i < |fixtures| ==> !Candidate(gameweek, teamId, fixtures[i])
    ensures r.Some? ==>
              exists i ::
                0 <= i < |fixtures| && Candidate(gameweek, teamId, fixtures[i]) &&
                (forall j :: 0 <= j < i ==> !Candidate(gameweek, teamId, fixtures[j])) &&
                r.value.isHome == (fixtures[i].teamH == teamId) &&
                r.value.opponentId == (if fixtures[i].teamH == teamId then fixtures[i].teamA else fixtures[i].teamH)
    ensures r.Some? ==> !r.value.isFinished
    // the opponent is the first team with the opponent's id, or none when no team has it
    ensures r.Some? ==>
              (r.value.opponent.None? <==> forall k :: 0 <= k < |teams| ==> teams[k].id != r.value.opponentId)
    ensures r.Some? && r.value.opponent.Some? ==>
              exists k :: 0 <= k < |teams| && teams[k] == r.value.opponent.value &&
                teams[k].id == r.value.opponentId && forall j :: 0 <= j < k ==> teams[j].id != r.value.opponentId
  {
    var sameWeek := Filter(fixtures, (f: Fixture) => f.event == gameweek);
    var open := Filter(sameWeek, (f: Fixture) => f.finished == false);
    FilterFilter(fixtures, (f: Fixture) => f.event == gameweek, (f: Fixture) => f.finished == false,
                 (f: Fixture) => f.event == gameweek && !f.finished);
    FindFirst(open, (f: Fixture) => f.teamA == teamId || f.teamH == teamId);
    FilterThenFind(fixtures, (f: Fixture) => f.event == gameweek && !f.finished,
                   (f: Fixture) => f.teamA == teamId || f.teamH == teamId,
                   (f: Fixture) => Candidate(gameweek, teamId, f));
    FindFirst(fixtures, (f: Fixture) => Candidate(gameweek, teamId, f));
    match Find(open, (f: Fixture) => f.teamA == teamId || f.teamH == teamId)
    case None => None
    case Some(next) =>
      var isHome := next.teamH == teamId;
      var opponentId := if isHome then next.teamA else next.teamH;
      var opponent := Find(teams, (t: Team) => t.id == opponentId);
      FindFirst(teams, (t: Team) => t.id == opponentId);
      Some(NextFixture(opponentId, opponent, isHome, next.finished))
  }

  /** `find` returns the first element that passes. */
  lemma {:induction false} FindFirst<T>(s: seq<T>, p: T -> bool)
    ensures Find(s, p).Some? ==> exists i :: 0 <= i < |s| && s[i] == Find(s, p).value && p(s[i])
                                             && forall j :: 0 <= j < i ==> !p(s[j])
  {
    if s != [] && !p(s[0]) {
      FindFirst(s[1..], p);
      if Find(s, p).Some? {
        var i :| 0 <= i < |s[1..]| && s[1..][i] == Find(s[1..], p).value && p(s[1..][i])
                 && forall j :: 0 <= j < i ==> !p(s[1..][j]);
        assert s[i + 1] == Find(s, p).value;
        forall j | 0 <= j < i + 1 ensures !p(s[j]) {
          if j > 0 { assert s[j] == s[1..][j - 1]; }
        }
      }
    }
  }

  /** Finding in a filtered list is finding with both tests in the whole list. */
  lemma {:induction false} FilterThenFind<T>(s: seq<T>, p: T -> bool, q: T -> bool, pq: T -> bool)
    requires forall x :: pq(x) == (p(x) && q(x))
    ensures Find(Filter(s, p), q) == Find(s, pq)
  {
    if s != [] {
      FilterThenFind(s[1..], p, q, pq);
      FindCons(s, pq);
      if p(s[0]) {
        var f := Filter(s, p);
        assert f == [s[0]] + Filter(s[1..], p);
        assert f[1..] == Filter(s[1..], p);
        FindCons(f, q);
      } else {
        assert Filter(s, p) == Filter(s[1..], p);
      }
    }
  }

  /** `find` looks at the head first and otherwise searches the tail. */
  lemma FindCons<T>(s: seq<T>, p: T -> bool)
    requires s != []
    ensures Find(s, p) == if p(s[0]) then Some(s[0]) else Find(s[1..], p)
  {
    if !p(s[0]) {
      match FirstIndex(s[1..], p)
      case None =>
      case Some(k) => assert s[k + 1] == s[1..][k];
    }
  }

  /** The card looks up the next fixture only for a player with a team. */
  function CardNextFixture(player: Option<PlayerElement>, fixtures: seq<Fixture>, teams: seq<Team>, gameweek: Option<int>): (r: Option<NextFixture>)
    ensures player.None? || player.value.team == 0 ==> r.None?
    ensures player.Some? && player.value.team != 0 ==> r == GetNextFixture(fixtures, teams, gameweek, player.value.team)
  {
    match player
    case None => None
    case Some(p) => if p.team == 0 then None else GetNextFixture(fixtures, teams, gameweek, p.team)
  }

  /** The points shown for the gameweek: the live total (0 when missing),
      doubled when the pick itself is the captain. */
  function ShownPoints(pick: Pick, element: Option<LiveElement>): (r: int)
    ensures element.None? || element.value.totalPoints.None? ==> r == 0
    ensures element.Some? && element.value.totalPoints.Some? ==>
              r == (if pick.isCaptain then 2 else 1) * element.value.totalPoints.value
  {
    var points := match element
      case None => 0
      case Some(e) => e.totalPoints.GetOr(0);
    points * (if pick.isCaptain then 2 else 1)
  }

  /** Only the captain's points are doubled. */
  lemma CaptainDoubles(pick: Pick, element: Option<LiveElement>)
    ensures ShownPoints(pick.(isCaptain := true), element) == 2 * ShownPoints(pick.(isCaptain := false), element)
  {
  }

  /** The badge text: the news up to its first space, or "Out" when that is
      empty (no news, empty news, or news starting with a space). */
  function BadgeText(player: Option<PlayerElement>): (r: string)
    ensures r != ""
    ensures ' ' !in r || r == "Out"
    ensures player.None? || player.value.news.None? || player.value.news == Some("") ==> r == "Out"
    // otherwise a word the news begins with
    ensures player.Some? && player.value.news.Some? && r != "Out" ==> r <= player.value.news.value
  {
    var firstWord := match player
      case None => ""
      case Some(p) =>
        match p.news
        case None => ""
        case Some(n) => Text.Split(n, ' ')[0];
    if firstWord == "" then "Out" else firstWord
  }

  /** News that is one word followed by more text shows that word. */
  lemma BadgeShowsFirstWord(p: PlayerElement, word: string, rest: string)
    requires word != "" && ' ' !in word && p.news == Some(word + " " + rest)
    ensures BadgeText(Some(p)) == word
  {
    var n := word + " " + rest;
    assert n[|word|] == ' ';
    assert n[..|word|] == word;
    assert forall k :: 0 <= k < |word| ==> n[k] == word[k];
    var i := Text.IndexOf(n, ' ');
    assert i == |word|;
  }

  /** News that is a single word shows in full. */
  lemma BadgeShowsOneWordNews(p: PlayerElement, word: string)
    requires word != "" && ' ' !in word && p.news == Some(word)
    ensures BadgeText(Some(p)) == word
  {
    assert Text.Split(word, ' ') == [word];
  }
}
