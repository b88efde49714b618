# Fantasy football assistant: a verified model of its deterministic core

The application helps a Fantasy Premier League manager. A React front end shows
the manager's squad, upcoming fixtures, predicted points and suggested
transfers. A Python (Azure Functions) back end builds a per-player, per-round
training table from the official data, trains a regressor per statistic, turns
predictions into fantasy points and asks an LP solver for the best squad.

This project models the parts of that system that are deterministic and
sequential, and proves what they promise:

- **Request admission** (`RateLimiting`). The sliding-window rate limiter of the
  data service is a class. It has a timestamp list, a timed-out flag and an
  explicit cooldown expiry. Every call is specified by a pure transition
  function `Admit`.
- **The store** (`Reducers`, `Navigation`, `TeamFilterControls`,
  `ModelSelection`).
  - The root reducer is a pure function over the fourteen actions.
  - The store is a class that dispatches through it.
  - The action producers of the menu, the filter panel and the model picker
    are modelled as methods on the store.
- **Derived data and views** (`DataEffects`, `FixtureAnalysis`,
  `FixtureCalendar`, `TeamDisplay`, `PlayerCard`, `TransferSuggestion`,
  `PointsTable`, `ImageHelper`, `LoadingCard`).
  - The gameweek derivation loop and the resolution of picks into players.
  - The fixture filters and groupings, and the squad layout.
  - The card rules, the transfer comparison and the sortable points table.
  - The URL and label builders.
- **Back-end scoring and bookkeeping** (`FunctionApp`, `ModelOperations`).
  - The points rules and the request checks.
  - The FPL sale-price rule, the 80/20 split, and the bookkeeping after the
    solver: transfer pairs, vice captain and bench order.
- **The feature and target pipeline** (`DataProcessing`, `FeatureEngineering`,
  `TargetEngineering`, `DataHelpers`, over the table model in `Frames`).
  - A DataFrame is a sequence of rows sorted by (player, round), with
    statistics as exact `real`s.
  - The per-round grid, padding of missing fixtures, the fixture join, running
    totals, three rolling-mean conventions, shifted horizon targets and the
    next-round rows.

`Seqs`, `Sorting` and `Text` hold the generic helpers:

- filter, find, dedup and sums;
- a stable insertion sort;
- splitting, joining, and integer printing and parsing.

## Model

| member | source | states |
|---|---|---|
| RateLimiting.Survivors | src/Helpers/DataHelpers.ts:27-32 | cleanup keeps exactly the timestamps younger than the window (strict `<`), each as often as it was stored, in stored order |
| RateLimiting.SurvivorsAll | src/Helpers/DataHelpers.ts:27-32 | when every timestamp is inside the window, cleanup changes nothing |
| RateLimiting.BoundaryEvicted | src/Helpers/DataHelpers.ts:30 | a timestamp exactly one window old never survives cleanup |
| RateLimiting.Admit | src/Helpers/DataHelpers.ts:34-73 | while timed out, every call is rejected, reports a fatal error and leaves the state unchanged; otherwise a call is accepted iff fewer than maxRequests timestamps survive cleanup; an accepted call stores the survivors followed by `now`; an overflow stores the survivors and times out |
| RateLimiting.ExpiredFreeTheWindow | src/Helpers/DataHelpers.ts:27-72 | once every stored timestamp is at least a window old, the next call is accepted and leaves only `now` stored |
| RateLimiting.Expire | src/Helpers/DataHelpers.ts:62-65 | cooldown expiry clears the flag and empties the list |
| RateLimiting.AdmitKeepsBound | src/Helpers/DataHelpers.ts:54-72 | the stored timestamp count never exceeds maxRequests |
| RateLimiting.TimedOutIsSticky | src/Helpers/DataHelpers.ts:35-52 | from the timed-out state, any sequence of calls is rejected and changes nothing, so only expiry leaves it |
| RateLimiting.BurstAccepted | src/Helpers/DataHelpers.ts:54-72 | from fresh, up to maxRequests calls at one instant are all accepted |
| RateLimiting.BurstThenOverflow | src/Helpers/DataHelpers.ts:54-72 | the call after maxRequests simultaneous accepted calls is rejected and starts the cooldown |
| RateLimiting.RateLimiter.constructor | src/Helpers/DataHelpers.ts:14-25 | a new limiter is empty, not timed out, with the given configuration |
| RateLimiting.RateLimiter.WithDefaultTimeout | src/Helpers/DataHelpers.ts:17 | the timeout duration defaults to 5000 ms |
| RateLimiting.RateLimiter.CleanupOldRequests | src/Helpers/DataHelpers.ts:27-32 | the field becomes the survivors of the old list; the flag is untouched |
| RateLimiting.RateLimiter.MakeRequest | src/Helpers/DataHelpers.ts:34-73 | the new state and the outcome are exactly `Admit` of the old state |
| RateLimiting.RateLimiter.CooldownExpired | src/Helpers/DataHelpers.ts:62-65 | the new state is `Expire` of the old one |
| Reducers.Apply | Reducers.ts:112-195 | each Set action stores its payload in its own field and leaves every other field unchanged; an unknown action returns the state unchanged |
| Reducers.ApplyForgetsOldValue | Reducers.ts:137-141 | replacement is wholesale: the result does not depend on the old value of the written field |
| Reducers.ApplyIdempotent | Reducers.ts:112-193 | applying an action twice equals applying it once |
| Reducers.LastWins | Reducers.ts:112-193 | of two actions on the same field, the later one wins |
| Reducers.DifferentFieldsCommute | Reducers.ts:112-193 | actions naming different fields commute |
| Reducers.Initial | Reducers.ts:55-103 | the initial state has theme dark, navbar closed, landing page, no gameweek, a null error, filters (null, 1, 1), no loading, and a non-null empty prediction response |
| Reducers.Reduce | src/FantasyFootballEntry.tsx:13-22 | with no prior state the store yields the initial state, otherwise one reducer step |
| Reducers.Store.constructor | src/FantasyFootballEntry.tsx:12-24 | the store starts in the initial state, whatever the first action |
| Reducers.Store.Dispatch | Reducers.ts:105-197 | the store's new state is `Apply` of the old one |
| Navigation.NavItems | src/Components/Navbar.tsx:30-56 | five distinct menu pages, login not among them |
| Navigation.MenuReachesAllButLogin | src/Components/Navbar.tsx:30-56 | a page is in the menu iff it is not the login page |
| Navigation.SelectPage | src/Components/Navbar.tsx:24-28 | the three dispatches set the page, close the navbar and clear the error to undefined, and nothing else |
| Navigation.SelectPageTwice | src/Components/Navbar.tsx:24-28 | selecting a page twice equals selecting it once; a later selection overrides an earlier one |
| Navigation.SetSelectedPage | src/Components/Navbar.tsx:24-28 | the store method leaves the store in `SelectPage` of its old state |
| TeamFilterControls.OrOne | src/Components/TeamFilters.tsx:48-51 | a falsy stored value falls back to 1; any other value is kept |
| TeamFilterControls.WithHorizon | src/Components/TeamFilters.tsx:53-59 | the new filters carry the horizon; model and transfers are copied |
| TeamFilterControls.WithTransfers | src/Components/TeamFilters.tsx:61-67 | the new filters carry the transfers; model and horizon are copied |
| TeamFilterControls.SliderEditsCommute | src/Components/TeamFilters.tsx:53-67 | the two slider edits commute, and together they set both fields |
| TeamFilterControls.HorizonSlider | src/Components/TeamFilters.tsx:109-120 | the slider allows exactly the integers from 1 to 39 − (gameweek ?? 0) |
| TeamFilterControls.TransfersSlider | src/Components/TeamFilters.tsx:135-148 | the slider allows exactly the integers from 1 to 5 |
| TeamFilterControls.SliderMatchesBackendCap | api/function_app.py:189-196 | every horizon the slider allows is accepted unchanged by the back end's cap, given the back end's round is the one before the front end's gameweek |
| TeamFilterControls.PanelButtons | src/Components/TeamFilters.tsx:167-190 | the two optimise buttons are enabled iff predictions exist |
| TeamFilterControls.TeamFiltersPanel.constructor | src/Components/TeamFilters.tsx:48-51 | local controls start at the stored values, or 1 when they are falsy |
| TeamFilterControls.TeamFiltersPanel.OnChangeHorizon | src/Components/TeamFilters.tsx:53-59 | local horizon updated; the store's filters become `WithHorizon` of the old ones |
| TeamFilterControls.TeamFiltersPanel.OnChangeTransfers | src/Components/TeamFilters.tsx:61-67 | local transfers updated; the store's filters become `WithTransfers` of the old ones |
| ModelSelection.ModelNames | src/Components/ModelSelectionPane.tsx:43-69 | five distinct model names |
| ModelSelection.ModelNamesMatchBackend | api/functions/model_operations.py:374-395 | a name is offered by the picker iff training accepts it |
| ModelSelection.InitialValue | src/Components/ModelSelectionPane.tsx:27 | the selection starts at the stored model, or "" when it is null |
| ModelSelection.WithModel | src/Components/ModelSelectionPane.tsx:29-32 | the new filters carry the model; horizon and transfers are copied |
| ModelSelection.AtMostOneHighlighted | src/Components/ModelSelectionPane.tsx:75 | at most one card is highlighted, and card i is highlighted for its own name only |
| ModelSelection.ModelSelectionPane.constructor | src/Components/ModelSelectionPane.tsx:27 | the local value starts at `InitialValue` |
| ModelSelection.ModelSelectionPane.SetModel | src/Components/ModelSelectionPane.tsx:29-32 | the local value becomes the name; the store's filters become `WithModel` of the old ones |
| DataEffects.FirstFuture | src/Hooks/useDataEffects.ts:32-74 | the id of the first event in list order whose deadline is after now; none iff there is no such event |
| DataEffects.DeriveGameweek | src/Hooks/useDataEffects.ts:32-74 | the loop with early return computes `FirstFuture` |
| DataEffects.GameweekEffect | src/Hooks/useDataEffects.ts:20-81 | nothing happens without general information; otherwise the gameweek data of the found gameweek is requested and the gameweek (or null) is stored |
| DataEffects.GameweekDataMatchesStoredGameweek | src/Hooks/useDataEffects.ts:38-62 | gameweek data is requested only for the gameweek that is also stored |
| DataEffects.GameweekDataFailed | src/Hooks/useDataEffects.ts:48-56 | failing to load gameweek data records a fatal error |
| DataEffects.ManagersTeamEffect | src/Hooks/useDataEffects.ts:84-101 | the picks are requested, for gameweek − 1, iff team id and gameweek are set, after loadedInformation is set false |
| DataEffects.ManagersTeamLoaded | src/Hooks/useDataEffects.ts:102-105 | the loaded team replaces the user's team and nothing else |
| DataEffects.ManagersTeamRoundTrip | src/Hooks/useDataEffects.ts:91-105 | through the reducer, the two SetUser steps leave the user as before except for the new team |
| DataEffects.ManagersTeamFailed | src/Hooks/useDataEffects.ts:106-115 | failing to load the picks records a non-fatal error |
| DataEffects.TransfersEffect | src/Hooks/useDataEffects.ts:122-150 | transfers are requested iff the user has a team |
| DataEffects.TransfersLoaded | src/Hooks/useDataEffects.ts:132-135 | the loaded transfers replace the user's transfers and nothing else |
| DataEffects.TransfersFailed | src/Hooks/useDataEffects.ts:136-145 | failing to load transfers records a non-fatal error |
| DataEffects.LookUp | src/Hooks/useDataEffects.ts:158-160 | the first element with the pick's id, or none iff no element has it |
| DataEffects.FoundAll | src/Hooks/useDataEffects.ts:156-164 | the found list is as long as the picks iff every pick resolves, and then it is each pick's element in pick order |
| DataEffects.ResolvePlayers | src/Hooks/useDataEffects.ts:156-166 | success iff every pick resolves, giving one player per pick in order; otherwise the error "Mismatch in player data." |
| DataEffects.PlayersEffect | src/Hooks/useDataEffects.ts:153-172 | without team or general information nothing happens; otherwise the resolved players are stored or the mismatch error is raised |
| FixtureAnalysis.InitialControls | src/Components/FIxtureAnalysisPage.tsx:69-73 | horizon 5, no difficulty, no team, all venues |
| FixtureAnalysis.FilterFixtures | src/Components/FIxtureAnalysisPage.tsx:84-138 | the successive filters keep exactly the fixtures passing every chosen test, as an order-preserving subsequence |
| FixtureAnalysis.NothingChosenKeepsAll | src/Components/FIxtureAnalysisPage.tsx:84-138 | with no gameweek, difficulty or team chosen, the output equals the input |
| FixtureAnalysis.VenueNarrows | src/Components/FIxtureAnalysisPage.tsx:96-136 | choosing home or away only narrows the result of "all" |
| FixtureAnalysis.FixtureAnalysisView.constructor | src/Components/FIxtureAnalysisPage.tsx:70 | the filtered list starts empty |
| FixtureAnalysis.FixtureAnalysisView.Refresh | src/Components/FIxtureAnalysisPage.tsx:82-138 | a missing fixture list leaves the view unchanged; otherwise the view holds the filtered list |
| FixtureAnalysis.BadgeColour | src/Components/FIxtureAnalysisPage.tsx:157-161 | ≤2 green, 3 yellow, 4 orange, ≥5 red, each iff |
| FixtureAnalysis.BlueOnlyForFractions | src/Components/FIxtureAnalysisPage.tsx:157-161 | an integer difficulty is never blue; a fraction strictly between 2 and 5 other than 3 and 4 is |
| FixtureAnalysis.PreviousGameweek | src/Components/FIxtureAnalysisPage.tsx:286-297 | the previous arrow dispatches max(1, gameweek − 1) |
| FixtureAnalysis.NextGameweek | src/Components/FIxtureAnalysisPage.tsx:298-310 | the next arrow dispatches gameweek + 1, with no upper bound |
| FixtureAnalysis.NextThenPrevious | src/Components/FIxtureAnalysisPage.tsx:286-310 | next then previous returns to the same gameweek |
| FixtureCalendar.GroupByGameweek | src/Components/TeamFixtureCalendar.tsx:30-43 | the keys are exactly the gameweeks of scheduled fixtures, and each group is that gameweek's fixtures in input order |
| FixtureCalendar.GroupsPartition | src/Components/TeamFixtureCalendar.tsx:30-43 | every group is non-empty, and a fixture is in group g iff its event is g |
| FixtureCalendar.Keys | src/Components/TeamFixtureCalendar.tsx:76 | the dictionary's keys are the gameweeks with a fixture |
| FixtureCalendar.ColumnOrder | src/Components/TeamFixtureCalendar.tsx:74-80 | the keys sorted ascending, as a permutation |
| FixtureCalendar.ColumnsAreGameweeks | src/Components/TeamFixtureCalendar.tsx:74-80 | the columns are the gameweeks with fixtures, each once, strictly ascending |
| FixtureCalendar.CalendarColour | src/Components/TeamFixtureCalendar.tsx:46-51 | ≤2 green, 3 yellow, 4 orange, anything else red, never blue |
| FixtureCalendar.ColourRulesCompared | src/Components/TeamFixtureCalendar.tsx:46-51 | both colour rules agree on integers and differ on fractions such as 2.5 |
| FixtureCalendar.ShownDifficulty | src/Components/TeamFixtureCalendar.tsx:102-112 | the home difficulty for the home team, else the away difficulty for the away team, else 0 |
| FixtureCalendar.Truncate | src/Components/TeamFixtureCalendar.tsx:141-144 | names of at most 15 characters are kept; longer ones become their first 15 characters and "..." |
| FixtureCalendar.TruncateForgetsTail | src/Components/TeamFixtureCalendar.tsx:155-158 | two long names with the same first 15 characters display the same |
| FixtureCalendar.Status | src/Components/TeamFixtureCalendar.tsx:192-201 | "FT" iff finished, "Live" iff started and not finished, no badge otherwise |
| TeamDisplay.Placement | src/Components/TeamDisplay.tsx:40-43 | without the optimiser, row k holds the picks with position < 12 and type k; the bench holds position > 11 except managers; managers are type 5 |
| TeamDisplay.SquadPartition | src/Components/TeamDisplay.tsx:255-259 | without the optimiser, the picks of types 1–4 are split, each exactly once, between the four rows and the bench |
| TeamDisplay.ManagerOnlyInManagerSection | src/Components/TeamDisplay.tsx:297-299 | a pick outside types 1–4 is in no starting row; a manager pick appears only in the manager section |
| TeamDisplay.Marked | src/Components/TeamDisplay.tsx:151-157 | the ids the optimiser marks with a starting flag (and type) |
| TeamDisplay.Row | src/Components/TeamDisplay.tsx:149-160 | without the optimiser a row is `StartingRow`; with it, the picks the optimiser marks as starting with that type |
| TeamDisplay.BenchRow | src/Components/TeamDisplay.tsx:246-259 | without the optimiser the bench is `Bench`; with it, the picks marked as not starting |
| TeamDisplay.OptimisedPlacement | src/Components/TeamDisplay.tsx:181-193 | with an optimiser result, a pick is in the row of its type iff it starts, on the bench iff it does not, and in no other row |
| TeamDisplay.CaptainFlag | src/Components/TeamDisplay.tsx:88 | the optimiser's captain flag when it answered, otherwise the pick's |
| TeamDisplay.ViceFlag | src/Components/TeamDisplay.tsx:89 | the optimiser's vice flag when it answered, otherwise the pick's |
| TeamDisplay.Predicted | src/Components/TeamDisplay.tsx:90 | none without predictions; with them, points are shown iff some entry has the pick's element, and they are the first such entry's points |
| TeamDisplay.PitchCards | src/Components/TeamDisplay.tsx:172-174 | one card per pick, with `CaptainFlag`, `ViceFlag` and `Predicted` of that pick |
| TeamDisplay.BenchCards | src/Components/TeamDisplay.tsx:277-279 | bench cards never show captain or vice; each shows `Predicted` of its pick |
| TeamDisplay.ManagerCards | src/Components/TeamDisplay.tsx:297-312 | manager cards pass no captain or vice flag and no predicted points |
| TeamDisplay.Display | src/Components/TeamDisplay.tsx:139-318 | no team, no pitch; otherwise four rows from `Row`, the bench is `BenchCards` of `BenchRow` (so without flags), and a manager section iff some pick is type 5, holding `ManagerCards` of the manager picks |
| PlayerCard.InjuredOrSuspendedNotBoth | src/Components/PlayerCard.tsx:30-32 | no status is both injured and suspended; a card without a player is neither |
| PlayerCard.CaptainColour | src/Components/PlayerCard.tsx:33-37 | red iff captain, yellow iff vice and not captain, transparent otherwise |
| PlayerCard.GetNextFixture | src/Components/PlayerCard.tsx:49-63 | the first fixture in list order of the current gameweek, not finished, involving the team; seen from that team's side; never finished; none iff there is no such fixture; the opponent is the first team with the opponent's id, none iff no team has it |
| PlayerCard.CardNextFixture | src/Components/PlayerCard.tsx:74 | no player, or a falsy team, gives no next fixture |
| PlayerCard.ShownPoints | src/Components/PlayerCard.tsx:194-195 | total points (0 if missing), doubled iff the pick is captain |
| PlayerCard.CaptainDoubles | src/Components/PlayerCard.tsx:194-195 | the captain shows twice the points of the same pick uncaptained |
| PlayerCard.BadgeText | src/Components/PlayerCard.tsx:133 | a non-empty single word; "Out" when news is missing or empty; otherwise a prefix of the news |
| PlayerCard.BadgeShowsFirstWord | src/Components/PlayerCard.tsx:133 | news of a word, a space and more text shows that word |
| PlayerCard.BadgeShowsOneWordNews | src/Components/PlayerCard.tsx:133 | news of a single word shows that word |
| TransferSuggestion.ValueOf | src/Components/TransferSuggestion.tsx:38-39 | a metric missing on one side counts as 0 |
| TransferSuggestion.Compare | src/Components/TransferSuggestion.tsx:40-47 | difference = in − out, and better iff in > out |
| TransferSuggestion.AllMetrics | src/Components/TransferSuggestion.tsx:31-37 | the union of both players' metric names, without duplicates |
| TransferSuggestion.ComparisonData | src/Components/TransferSuggestion.tsx:37-48 | one comparison per metric of the union, none repeated |
| TransferSuggestion.ReversedComparison | src/Components/TransferSuggestion.tsx:40-47 | swapping the two players negates every difference, and no metric is better both ways |
| TransferSuggestion.GainBadge | src/Components/TransferSuggestion.tsx:79-89 | teal with "+" iff the gain is positive, otherwise red with no prefix |
| TransferSuggestion.Suggestion | src/Components/TransferSuggestion.tsx:28 | a null transfer renders nothing; otherwise the comparison rows and the badge |
| PointsTable.MetricKeys | src/Components/PlayersPointsTable.tsx:32-34 | every metric name of any player, each once |
| PointsTable.MetricKeysGrow | src/Components/PlayersPointsTable.tsx:32-34 | the columns keep first-appearance order: more players only append columns |
| PointsTable.KeyOf | src/Components/PlayersPointsTable.tsx:41-53 | "totalPoints" sorts by the sum of the metrics; a metric the player has, by the value of its first entry; otherwise "name", "id", "position" and "team" by that field, and any other key by the text "undefined" |
| PointsTable.ByKeyIsPreorder | src/Components/PlayersPointsTable.tsx:55-58 | the comparison is a total preorder |
| PointsTable.ReverseInPlace | src/Components/PlayersPointsTable.tsx:61 | the array becomes its old contents reversed |
| PointsTable.SortData | src/Components/PlayersPointsTable.tsx:36-62 | a permutation of the input; ascending by key, or exactly the ascending result reversed |
| PointsTable.NextSort | src/Components/PlayersPointsTable.tsx:64-68 | the clicked column becomes the sort column; reverse iff it was already the column and not reversed |
| PointsTable.ClickTwice | src/Components/PlayersPointsTable.tsx:64-68 | clicking the same column twice toggles the direction; another column starts ascending |
| PointsTable.PointsTableState.constructor | src/Components/PlayersPointsTable.tsx:29-30 | sorting starts by name, ascending |
| PointsTable.PointsTableState.HandleSort | src/Components/PlayersPointsTable.tsx:64-68 | the state becomes `NextSort` of the old one |
| ImageHelper.ReplaceFirst | src/Helpers/ImageHelper.ts:8 | only the first occurrence of the pattern is replaced; no occurrence, no change |
| ImageHelper.PlayerImageUrl | src/Helpers/ImageHelper.ts:3-8 | the fixed base followed by the photo; "undefined" when no player matches |
| ImageHelper.JpgBecomesPng | src/Helpers/ImageHelper.ts:8 | a ".jpg" photo becomes ".png" |
| ImageHelper.FirstMatchWins | src/Helpers/ImageHelper.ts:6-8 | the first player with the id supplies the photo |
| LoadingCard.FormatTargetName | src/Components/LoadingCard.tsx:48-49 | the length is kept, the first character is uppercased, and every later "_" becomes a space |
| LoadingCard.FormatTwice | src/Components/LoadingCard.tsx:48-49 | formatting twice equals formatting once |
| LoadingCard.NoUnderscoreAfterFirst | src/Components/LoadingCard.tsx:48-49 | no underscore remains after the first character, and a leading one stays |
| LoadingCard.AvatarUrl | src/Components/LoadingCard.tsx:138 | the fixed base, then the photo up to its first ".", then ".png" |
| LoadingCard.AvatarKeepsStem | src/Components/LoadingCard.tsx:138 | the avatar keeps the photo's stem, whatever its extension |
| LoadingCard.AvatarMatchesPlayerImage | src/Components/LoadingCard.tsx:138 | for a ".jpg" photo the avatar equals the player image URL |
| LoadingCard.Card | src/Components/LoadingCard.tsx:40-43 | nothing without a user; a shimmer while loading; otherwise the avatar and a label as long as the target |
| ModelOperations.TrainAlgorithm | api/functions/model_operations.py:374-395 | an unknown model type fails with "Unknown model type: …" |
| ModelOperations.TrainAlgorithmInjective | api/functions/model_operations.py:374-395 | different accepted names choose different algorithms |
| ModelOperations.TrainTestSplit | api/functions/model_operations.py:205-212 | a prefix and suffix that concatenate to the input, the prefix being floor(0.8·n) rows |
| ModelOperations.TrainTestSplitSizes | api/functions/model_operations.py:205-212 | with two or more rows both parts are non-empty and the test part holds at least a fifth |
| ModelOperations.LatestPurchase | api/functions/model_operations.py:935-945 | the player's purchase with the latest time; none iff the player was never bought |
| ModelOperations.SalePrice | api/functions/model_operations.py:947-958 | no rise: the current price; otherwise purchase plus half the rise rounded down, below the current price |
| ModelOperations.CalculateSalePrice | api/functions/model_operations.py:927-958 | the sale rule applied to the cost of the player's latest purchase; the current price without purchase history; never above the current price |
| ModelOperations.SalePriceOfOnlyPurchase | api/functions/model_operations.py:935-958 | with one purchase, the sale price follows the half-profit rule from that cost |
| ModelOperations.SalePriceUsesLatestPurchase | api/functions/model_operations.py:935-958 | a purchase later than every other purchase of the player supplies the cost the sale price is computed from |
| ModelOperations.CheckCurrentSquad | api/functions/model_operations.py:770-771 | succeeds iff the current squad has exactly 15 players |
| ModelOperations.TargetMetrics | api/functions/model_operations.py:883-888 | one metric per target, in target order |
| ModelOperations.MakePair | api/functions/model_operations.py:872-889 | gain = in points − out points, cost = in value − out value |
| ModelOperations.BuildTransferPairs | api/functions/model_operations.py:866-890 | the ins and outs zipped in order: as many pairs as the shorter list, each `MakePair` |
| ModelOperations.PointsGainIsInMinusOut | api/functions/model_operations.py:893-900 | the squad's points gain equals the points coming in minus the points going out |
| ModelOperations.PairGainsAddUp | api/functions/model_operations.py:871-900 | with balanced transfers, the pairs' gains add up to the reported points gain |
| ModelOperations.Summarise | api/functions/model_operations.py:893-908 | one transfer per pair; the total cost is the value of the players in and the sale value that of the players out, both over ten; net cost = cost − sale value; the points gain (final squad − current squad) equals the points coming in minus the points going out |
| ModelOperations.PairCostsAddUp | api/functions/model_operations.py:871-908 | with balanced transfers, the pairs' costs add up to ten times the reported net cost |
| ModelOperations.SelectSquad | api/functions/model_operations.py:632-635 | accepted iff exactly 15 rows belong to the chosen players, otherwise the error "Expected 15 players, got n"; the accepted rows are all the chosen players' rows, in input order |
| ModelOperations.CaptainIndex | api/functions/model_operations.py:680-681 | the first starter the solver marked captain |
| ModelOperations.ViceCaptainIndex | api/functions/model_operations.py:679-688 | a starter other than the captain with the most points |
| ModelOperations.BenchIndices | api/functions/model_operations.py:691 | exactly the non-starters |
| ModelOperations.BenchOrder | api/functions/model_operations.py:690-694 | starters get 0; the k-th bench row gets k + 1 |
| ModelOperations.BenchIndicesDistinct | api/functions/model_operations.py:691-694 | no bench row is numbered twice |
| ModelOperations.BenchNumberedByPoints | api/functions/model_operations.py:691-694 | a lower bench number never has fewer points |
| FunctionApp.BuildNumericalFeatures | api/function_app.py:84-93 | "selected" followed by three engineered names per target: 37 names |
| FunctionApp.EngineeredFeatureAt | api/function_app.py:86-93 | name 3i + k is the k-th engineered name of target i |
| FunctionApp.MinutesPoints | api/function_app.py:98-104 | 0 minutes → 0, under 60 → minutes / 60, 60 or more → 2 |
| FunctionApp.MinutesPointsMonotone | api/function_app.py:98-104 | more minutes never score fewer points |
| FunctionApp.Points | api/function_app.py:107-156 | defined iff the target is known; unknown targets are an error |
| FunctionApp.PointsLinear | api/function_app.py:107-156 | every target but minutes scores the prediction times its rate |
| FunctionApp.PointRates | api/function_app.py:106-127 | the rates that depend on position: goals 10/6/5/4 and clean sheets 4/4/1/0 for types 1–4, 0 for any other type |
| FunctionApp.FlatRates | api/function_app.py:119-150 | the other rates: assists 3, saves 1/3, penalties saved 5, penalties missed −2, bonus 1, goals conceded −0.5, yellow −1, red −3, own goals −2 |
| FunctionApp.PointsMonotone | api/function_app.py:121-153 | a larger non-negative prediction of a rewarded statistic never scores less |
| FunctionApp.PointsSign | api/function_app.py:121-153 | rewarded statistics never score negative, penalised ones never positive |
| FunctionApp.GoalValueByPosition | api/function_app.py:108-129 | a goal is worth more the further back the player; managers score nothing |
| FunctionApp.Clamp | api/function_app.py:250 | predictions are clamped at 0 |
| FunctionApp.TotalPoints | api/function_app.py:249-260 | the round total of the clamped predictions is 0 when nothing positive is predicted |
| FunctionApp.RewardedPredictionRaisesTotal | api/function_app.py:249-260 | raising the prediction of a rewarded statistic never lowers the total over the targets |
| FunctionApp.TotalPointsMonotone | api/function_app.py:249-260 | a larger prediction of a rewarded statistic never lowers the player's `total_points` |
| FunctionApp.ZeroPredictionsScoreZero | api/function_app.py:249-260 | all-non-positive predictions total 0 points, over any prefix of the targets |
| FunctionApp.PlanPredictions | api/function_app.py:176-196 | a bad horizon is a server error; a missing model is 400; an accepted horizon is min(requested, 38 − round) and at least 1 |
| FunctionApp.PredictedRounds | api/function_app.py:209-210 | the rounds after the current one, one per horizon step |
| FunctionApp.PlanStaysInSeason | api/function_app.py:189-210 | every predicted round lies after the current round and at most 38 |
| FunctionApp.HorizonInRangeUnchanged | api/function_app.py:193 | a horizon already within the season is accepted unchanged |
| FunctionApp.ParseElements | api/function_app.py:320-330 | a missing list is 400; an accepted list has one integer per comma-separated item |
| FunctionApp.ParseAll | api/function_app.py:326 | every item parses, or some item does not |
| FunctionApp.ElementsRoundTrip | api/function_app.py:320-330 | printing ids comma-separated and parsing them back gives the same ids |
| Text.ParseShowInt | api/function_app.py:326 | `int()` reads back what `str()` prints |
| DataHelpers.GetTargets | api/helpers/data_helpers.py:7-17 | seven distinct names, among them minutes_60+ and minutes_1+ |
| DataHelpers.CurrentGameweek | api/helpers/data_helpers.py:20-26 | the id of the first current event; none iff no event is current |
| DataHelpers.GetCurrentGameweek | api/helpers/data_helpers.py:20-26 | the loop with break computes `CurrentGameweek` |
| DataHelpers.NextFixturesForPlayer | api/helpers/data_helpers.py:42-51 | one [home, away] pair per fixture of the id after the current round, in fixture-list order, each containing the id (the player id used as a team id) |
| DataHelpers.Players | api/helpers/data_helpers.py:160 | the players of the table |
| DataHelpers.PlayersDistinct | api/helpers/data_helpers.py:160 | each player is listed once |
| DataHelpers.RowFor | api/helpers/data_helpers.py:183-211 | player, team, position code and value from the player's row, the next round, home iff the team is home, the other team as opponent |
| DataHelpers.MaxRoundOf | api/helpers/data_helpers.py:147 | the largest round of a non-empty table: no row is later and some row has it |
| DataHelpers.NextRound | api/helpers/data_helpers.py:147-154 | one more than the latest round: every row is earlier, and some row is in the round just before |
| DataHelpers.CreateNextRoundRows | api/helpers/data_helpers.py:147-214 | the nested loops build, player by player, one row per fixture of the player's team in the next round |
| DataHelpers.NextRoundRowCount | api/helpers/data_helpers.py:160-214 | each player gets as many rows as their team has fixtures that round: none in a blank, two in a double |
| DataHelpers.NextRoundDf | api/helpers/data_helpers.py:217-226 | fails (the KeyError of the "element" lookup at lines 113-115) iff no next-round row was built and there are metrics to fill; otherwise the built rows |
| DataHelpers.NextRoundDfOk | api/helpers/data_helpers.py:160-226 | the table is built as soon as one player's team plays in the next round |
| DataHelpers.NextRoundDfOfEmpty | api/helpers/data_helpers.py:113-115 | an empty history with metrics to fill fails |
| DataHelpers.NextRoundRolling | api/helpers/data_helpers.py:73-93 | the mean of the player's last w rows by round; none iff the player has no history |
| DataHelpers.NextRoundRollingBounds | api/helpers/data_helpers.py:73-93 | the rolling value lies within the range of the player's values |
| DataHelpers.NextRoundRollingIsLastIncluding | api/helpers/data_helpers.py:73-93 | on a sorted table, the prediction-side rolling value is the training-side rolling mean (current row included) at the player's last row |
| DataHelpers.NextRoundSeasonTotal | api/helpers/data_helpers.py:112-115 | the sum over the player's history, non-negative for non-negative data |
| DataHelpers.SeasonTotalIsLastRunningTotal | api/helpers/data_helpers.py:112-115 | the prediction-side total equals the training-side running total at the player's last row |
| Frames.SortRows | api/functions/target_engineering.py:17 | a permutation sorted by (player, round) |
| Frames.SortRowsKeepsSorted | api/functions/data_processing.py:371 | sorting a sorted table changes nothing |
| Frames.RunningTotalAtLast | api/functions/data_processing.py:414 | the running total on a player's last row is the sum of the player's history |
| Frames.RollingMeanBounds | api/functions/feature_engineering.py:89-94 | a rolling mean lies within the range of its values |
| TargetEngineering.TargetColumns | api/functions/target_engineering.py:20-27 | the processed names are the seven targets (the two minutes flags twice), none a target column itself |
| TargetEngineering.WithFlags | api/functions/target_engineering.py:23-27 | minutes_60+ = 1 iff minutes ≥ 60; minutes_1+ = 1 iff minutes > 0; nothing else changes |
| TargetEngineering.FlagsIdempotent | api/functions/target_engineering.py:20-31 | recomputing the flags gives the same values |
| TargetEngineering.Flagged | api/functions/target_engineering.py:17-27 | rows sorted by (player, round), each with its flags |
| TargetEngineering.Shift | api/functions/target_engineering.py:7 | the i-th later value exists iff the player has i later rows |
| TargetEngineering.CreateShiftedTargets | api/functions/target_engineering.py:4-11 | each row gets target_X = the sum of the player's following horizon values, missing ones skipped |
| TargetEngineering.CreateTargets | api/functions/target_engineering.py:16-45 | every target column is the shifted sum over the flagged, sorted table; non-target columns are kept; no row is dropped |
| TargetEngineering.PartialTargetAsWritten | api/functions/target_engineering.py:11 | near a player's end the target is a partial sum, 0 on the last row |
| TargetEngineering.LastRowKeptWithZeroTarget | api/functions/target_engineering.py:41-43 | a last row with a goal keeps a target of 0 and is not dropped |
| TargetEngineering.CompleteTargets | api/functions/target_engineering.py:41-43 | only rows with a full horizon remain |
| TargetEngineering.CompleteTargetsExact | api/functions/target_engineering.py:4-11 | every remaining target is the sum of exactly the next h values, and no last row remains |
| DataProcessing.Cell | api/functions/data_processing.py:69-135 | blank iff the player has no appearance in the round; otherwise the fixture count and double iff more than one, both missing in a blank cell (the merge leaves them empty and the fill omits them); every summed column is present, except total_points in a blank cell (left missing, as the fill omits it); zeros when blank |
| DataProcessing.Aggregated | api/functions/data_processing.py:101 | the appearances of a known gameweek, ordered by player and then gameweek, as the groupby leaves them |
| DataProcessing.GridPlayers | api/functions/data_processing.py:101-111 | the players with an appearance in a known gameweek, each once, ascending |
| DataProcessing.GridRounds | api/functions/data_processing.py:101-111 | the known gameweeks of the appearances, each once |
| DataProcessing.GridFor | api/functions/data_processing.py:103-113 | one cell per (player, round) pair, each the cell of its pair |
| DataProcessing.ProcessElementGameweek | api/functions/data_processing.py:39-135 | the grid has players × rounds rows |
| DataProcessing.GridIsComplete | api/functions/data_processing.py:103-135 | every seen player has a row for every seen round, and every row is the cell of its pair |
| DataProcessing.UnknownRoundDropped | api/functions/data_processing.py:69-100 | an appearance whose fixture has no known round is in no cell |
| DataProcessing.GridConservesTotals | api/functions/data_processing.py:72-133 | for each summed column, a player's cells over the grid's gameweeks add up to the column summed over the player's appearances in a known gameweek |
| DataProcessing.CellTotalIsSum | api/functions/data_processing.py:72-133 | a cell's total of a summed column is that column summed over the cell's appearances, 0 for a blank |
| DataProcessing.PadRow | api/functions/data_processing.py:295-316 | the player's static columns, the fixture's columns, zeroed statistics, marked as added |
| DataProcessing.AddMissingPlayerData | api/functions/data_processing.py:272-323 | the original rows followed by the padding, team by team, player by player |
| DataProcessing.PadMissingFixtures | api/functions/data_processing.py:286-316 | the inner loop builds one padded row per missing fixture |
| DataProcessing.PaddingIsMarked | api/functions/data_processing.py:309-313 | every added row is marked and has zero statistics |
| DataProcessing.PaddingCoversTeamFixtures | api/functions/data_processing.py:279-316 | afterwards every player has a row for every fixture of their team |
| DataProcessing.NothingMissingNothingAdded | api/functions/data_processing.py:292-293 | when nothing is missing, nothing is added |
| DataProcessing.JoinRow | api/functions/data_processing.py:345 | a left join of one row: the row alone when no finished fixture has its id, otherwise one joined row per matching fixture, in fixture-list order |
| DataProcessing.AddFixtures | api/functions/data_processing.py:326-345 | an error (the missing "finished" column) iff the fixture list is empty; otherwise only finished fixtures with the row's id are joined |
| DataProcessing.JoinKeepsRows | api/functions/data_processing.py:330-345 | with distinct finished ids, a successful join keeps the rows one to one |
| DataProcessing.RollingAverage | api/functions/data_processing.py:371-389 | one value per row of the table in (player, round) order, missing exactly on a player's first row |
| DataProcessing.RollingUsesPreviousRows | api/functions/data_processing.py:383-389 | otherwise it is the mean of the last w values up to the previous row |
| DataProcessing.SeasonTotals | api/functions/data_processing.py:405-414 | one total per row in (player, round) order: a player's first value, then the previous row's total plus the row's value |
| FeatureEngineering.WithColumn | api/functions/feature_engineering.py:42 | a column assignment sets one column and keeps every other |
| FeatureEngineering.AddFeatures | api/functions/feature_engineering.py:41-42 | every new column holds its feature value; other columns are kept |
| FeatureEngineering.RollingExcludingIsPreviousIncluding | api/functions/feature_engineering.py:89-94 | the excluding rolling mean at a row is the including one at the player's previous row |
| FeatureEngineering.RollingIncludingBounds | api/functions/feature_engineering.py:89-94 | the including rolling mean lies within the range of the player's values |
| FeatureEngineering.CumulativeFeatures | api/functions/feature_engineering.py:23-39 | eight running-sum features |
| FeatureEngineering.RollingFeatures | api/functions/feature_engineering.py:71-94 | 32 rolling features of windows 3 and 5 over 16 sources |
| FeatureEngineering.TeammateIsOthersSum | api/functions/feature_engineering.py:45-55 | a teammate value is the sum over the other players of the team that round |
| FeatureEngineering.TeammateExpectedAssistsMismatch | api/functions/feature_engineering.py:60-62 | a lone player with one assist and 0.5 expected assists gets 0.5 |
| FeatureEngineering.TeammateExpectedAssistsIntended | api/functions/feature_engineering.py:57-59 | teammates' expected assists, done as for goals, are never negative |
| FeatureEngineering.WithTeamTotals | api/functions/feature_engineering.py:45-69 | the eight team and teammate columns, the expected-assists one from actual assists |
| FeatureEngineering.TeammateTable | api/functions/feature_engineering.py:45-69 | every row gets its team-round totals |
| FeatureEngineering.Difficulty | api/functions/feature_engineering.py:100-124 | 3.0 when the team has no fixture from this round on |
| FeatureEngineering.FixtureDifficulty | api/functions/feature_engineering.py:100-124 | the append loop computes `Difficulty` |
| FeatureEngineering.DifficultyBounds | api/functions/feature_engineering.py:100-124 | for difficulties 1–5 the mean lies in [1, 5] |
| FeatureEngineering.DifficultyFirstThree | api/functions/feature_engineering.py:116 | only the first three future fixtures count |
| FeatureEngineering.AddDifficulty | api/functions/feature_engineering.py:126-128 | every row gets `Difficulty` for its team and round; other columns are kept |
| FeatureEngineering.WithStrengths | api/functions/feature_engineering.py:132-142 | home strengths when the player was at home, away ones otherwise |
| FeatureEngineering.CreateFeatures | api/functions/feature_engineering.py:6-147 | on the sorted table: running totals, teammate columns, rolling means, difficulty and strengths, each as specified |

## Left out

- Rendering, theming, animation and layout maths are not modelled. Only the values the views compute are.
- Network and file I/O are not modelled:
  - the data service and its fetches;
  - the JSON files the back end writes;
  - storage access, including the storage helpers and their credentials.
  Fetches appear as `Command` values; their answers are parameters.
- React scheduling is not modelled: effect dependency arrays, promise completion order, and the limiter being rebuilt on each render. A single limiter is modelled, with time as an explicit `now` and cooldown expiry as an explicit call.
- Machine learning and the LP solver are not modelled. The solver's selection (starting flags, captain flag, final squad) is an input. The scikit-learn model is reduced to the algorithm a model name selects.
- IEEE floating point, `toFixed` and price display strings are not modelled. Fractional quantities are exact `real`s.
- Authentication, the development page and the landing page's team-id validator are not modelled: they rely on external services or JavaScript `Number()` coercion.
- The team page's orchestration is not modelled. Its guards only gate network calls.
- Back-end routes that call functions absent from the model code are not modelled, nor the multi-gameweek optimiser, which fetches over the network, nor the response remapping helpers.
- The make_predictions loop is modelled only up to its plan: the parameter checks, the horizon cap, the rounds to predict and the scoring of clamped predictions. Training and predicting are not.
- The dispatch inside the limiter's timed-out branch is reported as the `fatalReported` flag of the outcome. It is not a store action.
- PointsTable.ByKeyIsPreorder: `localeCompare` is modelled as code-point order. A number compared with text sorts first, where JavaScript would compare both as strings. So the order is a preorder JavaScript's comparator need not be.
- Sorting.SortBy stands for pandas `sort_values` and JavaScript `sort` as a stable sort. pandas' default quicksort may order ties differently.
- ModelOperations.ViceCaptainIndex: of several starters tied on points it picks the first. The unstable pandas sort may pick another.
- ModelOperations.CalculateSalePrice takes the current price as a parameter. The source reads it with a label lookup on the player table.
- LoadingCard.FormatTargetName: `Upper` uppercases ASCII letters only. JavaScript's `toUpperCase` covers all of Unicode.
- Text.ParseInt accepts what Python's `int()` accepts for ASCII input: surrounding whitespace, a sign, and digits with single underscores between them. Non-ASCII digits and whitespace are not modelled.
- DataHelpers.NextRoundRolling gives the value per player. Writing it into every next-round row of the player is not modelled as a separate step.
- DataHelpers.NextRound: on an empty table the source's maximum is NaN. The model gives 0 there; an empty table has no players, so no row uses it.
- DataProcessing.Cell does not model the value forward-fill or the first-of-fixture columns (threat, influence and the like); only the counted statistics, the fixture count, the flags and the opponent are modelled.
- DataHelpers.RowFor does not carry the player's web_name and photo, display strings the source copies from the first row as it does element_type, because the model's rows hold no text columns; the categorical columns set to None are not modelled either.
- DataProcessing.GridRounds: the contract states which gameweeks form the grid, not their order (first appearance in the player-sorted aggregate). That order only decides the order of the grid's rows.
- DataProcessing.AddMissingPlayerData iterates Python's `set` of missing fixtures in first-appearance order. Python's set order is unspecified.

## Findings

| source | as written | input that shows it | evidently intended | confidence | as-written member | corrected member |
|---|---|---|---|---|---|---|
| api/functions/target_engineering.py:11 | the row sum skips missing shifted values, so a player's last rows get partial targets (0 on the last) and the `dropna` at lines 41-43 removes nothing | one row, player 1, round 38, one goal, horizon 1: target_goals_scored is 0 and the row stays | rows without a full horizon are dropped; each target sums exactly the next h rounds | not executed | TargetEngineering.LastRowKeptWithZeroTarget | TargetEngineering.CompleteTargetsExact |
| api/functions/feature_engineering.py:60-62 | teammate_expected_assists subtracts the player's expected assists from the team's actual assists | one row with assists 1.0 and expected assists 0.5 and no teammates: the value is 0.5, not 0 | the team's expected assists minus the player's, as for the other teammate columns | not executed | FeatureEngineering.TeammateExpectedAssistsMismatch | FeatureEngineering.TeammateExpectedAssistsIntended |
