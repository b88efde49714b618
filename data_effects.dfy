/** The data effects of the app shell (src/Hooks/useDataEffects.ts): deriving the
    gameweek from the event deadlines, the guards in front of the manager's team
    and transfer requests, and resolving the picks into players. Each effect is
    modelled as the list of commands it issues; the network requests are
    commands whose answers come back as separate inputs. */
module DataEffects {
  import opened Common
  import opened Seqs
  import opened Records
  import opened Reducers

  /** What an effect does: dispatch an action, or start a request. */
  datatype Command =
    | Send(action: Action)
    | FetchGameweekData(gameweek: int)
    | FetchManagersTeam(teamID: int, gameweek: int)
    | FetchTransfers(maybeTeamID: Option<int>)

  // ---------------------------------------------------------------- gameweek

  /** The gameweek: the first event, in list order, whose deadline is after `now`. */
  function FirstFuture(events: seq<Event>, now: int): (r: Option<int>)
    ensures r.None? <==> forall i :: 0 <= i < |events| ==> events[i].deadline <= now
    ensures r.Some? ==> exists i :: 0 <= i < |events| && events[i].id == r.value && events[i].deadline > now
                          && forall j :: 0 <= j < i ==> events[j].deadline <= now
  {
    match FirstIndex(events, (e: Event) => e.deadline > now)
    case None => None
    case Some(i) => Some(events[i].id)
  }

  /** The `for…of` loop that stops at the first future deadline. */
  method DeriveGameweek(events: seq<Event>, now: int) returns (gameweek: Option<int>)
    ensures gameweek == FirstFuture(events, now)
  {
    var k := 0;
    while k < |events|
      invariant 0 <= k <= |events|
      invariant forall j :: 0 <= j < k ==> events[j].deadline <= now
    {
      if events[k].deadline > now {
        assert FirstIndex(events, (e: Event) => e.deadline > now) == Some(k) by {
          FirstIndexAt(events, (e: Event) => e.deadline > now, k);
        }
        return Some(events[k].id);
      }
      k := k + 1;
    }
    return None;
  }

  /** The first effect: nothing without general information; otherwise request
      the gameweek's data, then store the gameweek (or null when every deadline
      has passed). */
  function GameweekEffect(info: Option<GeneralInformation>, now: int): (r: seq<Command>)
    ensures info.None? ==> r == []
    ensures info.Some? && FirstFuture(info.value.events, now).None? ==> r == [Send(SetGameweek(None))]
    ensures info.Some? && FirstFuture(info.value.events, now).Some? ==>
              var g := FirstFuture(info.value.events, now).value;
              r == [FetchGameweekData(g), Send(SetGameweek(Some(g)))]
  {
    match info
    case None => []
    case Some(gi) =>
      match FirstFuture(gi.events, now)
      case None => [Send(SetGameweek(None))]
      case Some(g) => [FetchGameweekData(g), Send(SetGameweek(Some(g)))]
  }

  /** The gameweek is requested only for the gameweek that is stored. */
  lemma GameweekDataMatchesStoredGameweek(info: Option<GeneralInformation>, now: int, g: int)
    requires FetchGameweekData(g) in GameweekEffect(info, now)
    ensures Send(SetGameweek(Some(g))) in GameweekEffect(info, now)
    ensures info.Some? && FirstFuture(info.value.events, now) == Some(g)
  {
  }

  /** A failed gameweek-data request stops the app. */
  function GameweekDataFailed(errorName: string): (r: Action)
    ensures r.SetLatestError? && r.latestError.Present? && r.latestError.error.isFatal
  {
    SetLatestError(Present(LatestError(errorName, "Unable to load Gameweek Data", true)))
  }

  // ---------------------------------------------------------------- manager's team

  /** The second effect: with a team id and a gameweek, mark the user as loading
      and request the picks of the gameweek before the stored one. */
  function ManagersTeamEffect(user: FantasyUser, gameweek: Option<int>): (r: seq<Command>)
    ensures r != [] <==> Truthy(user.teamID) && Truthy(gameweek)
    ensures r != [] ==> r == [Send(SetUser(user.(loadedInformation := false))),
                              FetchManagersTeam(user.teamID.value, gameweek.value - 1)]
  {
    if !Truthy(user.teamID) || !Truthy(gameweek) then []
    else [Send(SetUser(user.(loadedInformation := false))), FetchManagersTeam(user.teamID.value, gameweek.value - 1)]
  }

  /** The picks' answer is spread over the user captured before the request, so
      the loading flag goes back to what it was. */
  function ManagersTeamLoaded(user: FantasyUser, team: ManagersTeam): (r: Action)
    ensures r.SetUser? && r.user.team == Some(team)
    ensures r.user.loadedInformation == user.loadedInformation
    ensures r.user.(team := user.team) == user
  {
    SetUser(user.(team := Some(team)))
  }

  /** Applying the whole exchange to the store: the user ends up with the team
      and with the loading flag it had before. */
  lemma ManagersTeamRoundTrip(s: State, gameweek: Option<int>, team: ManagersTeam)
    requires Truthy(s.user.teamID) && Truthy(gameweek)
    ensures var cmds := ManagersTeamEffect(s.user, gameweek);
            Apply(Apply(s, cmds[0].action), ManagersTeamLoaded(s.user, team)) == s.(user := s.user.(team := Some(team)))
  {
  }

  function ManagersTeamFailed(errorName: string): (r: Action)
    ensures r.SetLatestError? && r.latestError.Present? && !r.latestError.error.isFatal
  {
    SetLatestError(Present(LatestError(errorName, "Unable to Load Managers Team By Gameweek", false)))
  }

  /** The third effect: once a team is loaded, request the transfers. */
  function TransfersEffect(user: FantasyUser): (r: seq<Command>)
    ensures r != [] <==> user.team.Some?
    ensures r != [] ==> r == [FetchTransfers(user.teamID)]
  {
    if user.team.None? then [] else [FetchTransfers(user.teamID)]
  }

  function TransfersLoaded(user: FantasyUser, transfers: seq<Transfer>): (r: Action)
    ensures r.SetUser? && r.user.transfers == transfers && r.user.(transfers := user.transfers) == user
  {
    SetUser(user.(transfers := transfers))
  }

  function TransfersFailed(errorName: string): (r: Action)
    ensures r.SetLatestError? && r.latestError.Present? && !r.latestError.error.isFatal
  {
    SetLatestError(Present(LatestError(errorName, "Unable to Load Managers Transfers By Gameweek", false)))
  }

  // ---------------------------------------------------------------- players

  /** `elements.find(e => e.id === id)` */
  function LookUp(elements: seq<PlayerElement>, id: int): (r: Option<PlayerElement>)
    ensures r.None? <==> forall k :: 0 <= k < |elements| ==> elements[k].id != id
    ensures r.Some? ==> exists k :: 0 <= k < |elements| && elements[k] == r.value && r.value.id == id
                          && forall j :: 0 <= j < k ==> elements[j].id != id
  {
    match FirstIndex(elements, (e: PlayerElement) => e.id == id)
    case None => None
    case Some(k) => Some(elements[k])
  }

  /** The picks' players that can be found, in pick order. */
  function Found(picks: seq<Pick>, elements: seq<PlayerElement>): (r: seq<PlayerElement>)
    ensures |r| <= |picks|
  {
    if picks == [] then []
    else
      var rest := Found(picks[1..], elements);
      match LookUp(elements, picks[0].element)
      case None => rest
      case Some(e) => [e] + rest
  }

  /** Every pick resolves exactly when nothing is lost, and then the players are
      the picks' elements one for one. */
  lemma {:induction false} FoundAll(picks: seq<Pick>, elements: seq<PlayerElement>)
    ensures |Found(picks, elements)| == |picks| <==> forall i :: 0 <= i < |picks| ==> LookUp(elements, picks[i].element).Some?
    ensures |Found(picks, elements)| == |picks| ==>
              forall i :: 0 <= i < |picks| ==> Found(picks, elements)[i] == LookUp(elements, picks[i].element).value
  {
    if picks != [] {
      FoundAll(picks[1..], elements);
      var rest := Found(picks[1..], elements);
      if LookUp(elements, picks[0].element).Some? {
        forall i | 0 < i < |picks| ensures LookUp(elements, picks[i].element) == LookUp(elements, picks[1..][i - 1].element) {
        }
      } else {
        assert |Found(picks, elements)| < |picks|;
      }
    }
  }

  /** The players of the picks, or the "Mismatch in player data." error when a
      pick has no player. */
  function ResolvePlayers(picks: seq<Pick>, elements: seq<PlayerElement>): (r: Result<seq<PlayerElement>>)
    ensures r.Ok? <==> forall i :: 0 <= i < |picks| ==> exists k :: 0 <= k < |elements| && elements[k].id == picks[i].element
    ensures r.Err? ==> r.message == "Mismatch in player data."
    ensures r.Ok? ==> |r.value| == |picks| && forall i :: 0 <= i < |picks| ==> r.value[i].id == picks[i].element
  {
    FoundAll(picks, elements);
    var found := Found(picks, elements);
    if |found| != |picks| then Err("Mismatch in player data.") else Ok(found)
  }

  /** The last effect: with picks and general information, store the players,
      or fail when a pick is unknown. */
  function PlayersEffect(user: FantasyUser, info: Option<GeneralInformation>): (r: Result<seq<Command>>)
    ensures user.team.None? || info.None? ==> r == Ok([])
    ensures user.team.Some? && info.Some? ==>
              match ResolvePlayers(user.team.value.picks, info.value.elements)
              case Err(m) => r == Err(m)
              case Ok(players) => r == Ok([Send(SetUser(user.(players := players)))])
  {
    if user.team.None? || info.None? then Ok([])
    else
      match ResolvePlayers(user.team.value.picks, info.value.elements)
      case Err(m) => Err(m)
      case Ok(players) => Ok([Send(SetUser(user.(players := players)))])
  }
}
