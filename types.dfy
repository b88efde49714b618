/** The records the front end stores and passes around (the files under src/Types). Only
    the fields some modelled operation reads are kept. */
module Records {
  import opened Common

  /** One slot of a manager's fifteen-man squad for a gameweek (ManagersTeam.ts). */
  datatype Pick = Pick(
    element: int,
    position: int,
    multiplier: int,
    isCaptain: bool,
    isViceCaptain: bool,
    elementType: int)   // 1 goalkeeper, 2 defender, 3 midfielder, 4 forward, 5 manager

  datatype ManagersTeam = ManagersTeam(picks: seq<Pick>)

  /** A player as listed in the season's general information. `team` 0 stands for
      the absent value the card tests with `player?.team`. */
  datatype PlayerElement = PlayerElement(
    id: int,
    team: int,
    webName: string,
    photo: string,
    status: string,
    news: Option<string>)

  /** A match. `event` is the gameweek it belongs to, null while unscheduled. */
  datatype Fixture = Fixture(
    event: Option<int>,
    finished: bool,
    started: bool,
    teamA: int,
    teamH: int,
    teamHDifficulty: int,
    teamADifficulty: int)

  /** A named number from a player's metric map (Transfer.ts `PlayerMetrics`). */
  datatype Metric = Metric(name: string, value: real)

  /** One suggested swap of players (Transfer.ts). */
  datatype Transfer = Transfer(
    cost: real,
    gain: real,
    playerInName: string,
    playerOutName: string,
    transferIn: int,
    transferOut: int,
    transferInMetrics: seq<Metric>,
    transferOutMetrics: seq<Metric>)

  datatype TransferResponse = TransferResponse(pairs: seq<Transfer>, cost: real, gain: real)

  /** The signed-in manager and what has been loaded for them (FantasyUser.ts). */
  datatype FantasyUser = FantasyUser(
    teamID: Option<int>,
    team: Option<ManagersTeam>,
    transfers: seq<Transfer>,
    players: seq<PlayerElement>,
    loadedInformation: bool,
    player: seq<int>)

  /** A gameweek's live points for one player (GameweekData.ts, `stats.total_points`). */
  datatype LiveElement = LiveElement(id: int, totalPoints: Option<int>)

  datatype GameweekData = GameweekData(elements: seq<LiveElement>)

  /** A gameweek of the season with its transfer deadline (milliseconds since the epoch). */
  datatype Event = Event(id: int, deadline: int, isCurrent: bool)

  datatype Team = Team(id: int, name: string)

  datatype GeneralInformation = GeneralInformation(
    events: seq<Event>,
    teams: seq<Team>,
    elements: seq<PlayerElement>)

  /** LatestError.ts: the error, its message and whether the app must stop. */
  datatype LatestError = LatestError(errorName: string, message: string, isFatal: bool)

  /** A player row of the prediction response (PredictionResponse.ts). */
  datatype PredictedElement = PredictedElement(element: int, team: int, totalPoints: real)

  datatype PredictionResponse = PredictionResponse(currentTarget: string, elements: seq<PredictedElement>)

  /** A player row of the starting-XI optimiser's answer. */
  datatype OptimisedElement = OptimisedElement(
    element: int,
    elementType: int,
    startingXi: bool,
    isCaptain: bool,
    isViceCaptain: bool)

  datatype Notification = Notification(message: string)

  /** The pages of the app (FantasyFootball.tsx `PageType`). */
  datatype PageType = Landing | Development | TeamPage | Fixtures | Info | Login

  /** The prediction settings the team page edits. */
  datatype Filters = Filters(model: Option<string>, horizon: int, transfers: int)
}
