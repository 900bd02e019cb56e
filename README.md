# NemeStats core in Dafny

This project models three small pieces of NemeStats, a board-game statistics
web application, and proves what they promise.

- **NemePoints achievement** (`Achievements`, file `neme_points_achievement.dfy`).
  - A player's progress is the sum of `TotalPoints` over that player's game results.
  - A level is asked of `GetLevelAwarded` only once the progress reaches the Bronze threshold.
  - The thresholds are Bronze 2500, Silver 25000 and Gold 100000.
  - The data context's table of game results is a sequence.
  - The evaluation is a function, so it reads the results and changes nothing.
  - The LINQ query is kept as written (`Where`, `Select`, `DefaultIfEmpty(0)`, `Sum`) and is proved equal to a plain recursive fold, `PointsFor`.
- **Player details view model** (`PlayerTransformations` in `player_details_view_model_builder.dfy`, `PlayerViewModels` in `player_details_view_model.dfy`).
  - `PlayerDetailsViewModelBuilder.Build` runs five validators in a fixed order. The first missing part decides the exception.
  - It then creates a `PlayerDetailsViewModel` object and sets its properties step by step, in the order of the source.
  - The view model is a class. Build's own property assignments call setter methods on it; the helper methods assign the fields directly, and each states the whole new `State()`.
  - The view model's `State()` is a value snapshot of all 22 properties. Every method that changes the view model states its whole new state as the old snapshot with the written properties replaced.
  - `PopulatePlayerGameSummaries` is a loop. Its invariant says that the list built so far is the map of the results seen so far.
  - What Build promises about the returned object is the predicate `IsBuiltFrom`, and it fixes every property.
- **Game definition saver** (`GameDefinitions`, file `game_definition_saver.dfy`).
  - `Save` rejects a null definition, then a null or blank name.
  - It asks the event tracker for a creation event only when the definition is new.
  - It then hands the definition to the data context once and returns what the data context returns, or throws what it throws.
  - The requests made of the tracker and the data context are recorded, in order, in the ghost log `effects`.
  - The class invariant `Valid()` says that every creation event was for a new definition with a non-blank name, and was immediately followed by that definition's save.

Shared pieces:
- `Wrappers` (`wrappers.dfy`) holds three types:
  - `Option`, where `None` is a .NET null;
  - `Outcome`, the result of a validator that either returns or throws;
  - `Result`.
- `Wrappers.FirstFailure` models consecutive validator calls, where the first one that throws wins.
- `DotNet` (`dotnet.dfy`) models the framework facilities the code uses: the two exception types, a catch-all `ForeignException` for exceptions thrown by code outside the model, `string.IsNullOrWhiteSpace`, and the LINQ operators over sequences.
- `Models` and `AchievementModels` (`models.dfy`) hold the records and enums that are read, plus the identifiers that are only handed whole to the unmodelled collaborators.

Code this model cannot see is passed in as Dafny functions. Nothing is assumed about them beyond being functions, so they cannot throw (except the data context's save, which returns a `Result`), always give the same result for the same input, and have no side effects:
- `getLevelAwarded` stands for `BaseAchievement.GetLevelAwarded`;
- `alreadyInDatabase` stands for `GameDefinition.AlreadyInDatabase`;
- `dataContextSave` stands for `IDataContext.Save`: it returns either the saved entity or the exception the save throws;
- `isWhiteSpace` stands for `Char.IsWhiteSpace`;
- `gameResultViewModelBuilder`, `minionViewModelBuilder` and `championViewModelBuilder` stand for the per-item builders.

The element types of the view-model lists are type parameters, because their classes are not part of this model.

## Model

| member | source | states |
|---|---|---|
| Wrappers.FirstFailure | Source/UI/Transformations/PlayerTransformations/PlayerDetailsViewModelBuilder.cs:133-140 | validators run in sequence pass iff every one passes, and otherwise the first failing one is the outcome |
| DotNet.AllWhiteSpace | Source/BusinessLogic/Logic/GameDefinitions/GameDefinitionSaver.cs:49 | true exactly when every character of the string is white space |
| DotNet.IsNullOrWhiteSpace | Source/BusinessLogic/Logic/GameDefinitions/GameDefinitionSaver.cs:49 | true for null and for the empty string; for a string, true iff every character is white space |
| DotNet.Where | Source/BusinessLogic/Logic/Achievements/NemePointsAchievement.cs:42 | every kept element satisfies the filter, and each satisfying value is kept exactly as often as it occurs in the input |
| DotNet.WhereAppend | Source/BusinessLogic/Logic/Achievements/NemePointsAchievement.cs:42 | filtering a concatenation is the concatenation of the filtered parts, so the kept rows keep their order |
| DotNet.DefaultIfEmpty | Source/BusinessLogic/Logic/Achievements/NemePointsAchievement.cs:44 | never empty: the input itself when it has elements, otherwise the single default |
| DotNet.Sum | Source/BusinessLogic/Logic/Achievements/NemePointsAchievement.cs:45 | 0 for no elements, the element itself for one, and never negative when no element is |
| DotNet.Select | Source/BusinessLogic/Logic/Achievements/NemePointsAchievement.cs:43 | same length as the input, and element i is the projection of input element i |
| DotNet.SelectAppendOne | Source/UI/Transformations/PlayerTransformations/PlayerDetailsViewModelBuilder.cs:186-190 | mapping a list with one more item appends that item's projection |
| DotNet.SumDefaultIfEmptyZero | Source/BusinessLogic/Logic/Achievements/NemePointsAchievement.cs:44-45 | DefaultIfEmpty(0) does not change the sum, so no results sum to 0 |
| Achievements.Id | Source/BusinessLogic/Logic/Achievements/NemePointsAchievement.cs:15 | the achievement is NemePoints |
| Achievements.Group | Source/BusinessLogic/Logic/Achievements/NemePointsAchievement.cs:17 | the achievement's group is NotApply |
| Achievements.Name | Source/BusinessLogic/Logic/Achievements/NemePointsAchievement.cs:19 | the name "NemePoints collector" |
| Achievements.Description | Source/BusinessLogic/Logic/Achievements/NemePointsAchievement.cs:21 | the description shown for the achievement |
| Achievements.IconClass | Source/BusinessLogic/Logic/Achievements/NemePointsAchievement.cs:23 | the icon class "fa fa-eye" |
| Achievements.LevelThresholds | Source/BusinessLogic/Logic/Achievements/NemePointsAchievement.cs:25-30 | Bronze 2500, Silver 25000, Gold 100000 |
| Achievements.BelongsTo | Source/BusinessLogic/Logic/Achievements/NemePointsAchievement.cs:42 | the query's filter holds for a result exactly when its PlayerId is the requested player |
| Achievements.TotalPointsOf | Source/BusinessLogic/Logic/Achievements/NemePointsAchievement.cs:43 | the query's projection to a result's TotalPoints |
| Achievements.QueryMatchesPointsFor | Source/BusinessLogic/Logic/Achievements/NemePointsAchievement.cs:39-45 | Where/Select/Sum over the results equals the reference fold PointsFor, the sum over exactly the player's results |
| Achievements.TotalPoints | Source/BusinessLogic/Logic/Achievements/NemePointsAchievement.cs:39-45 | the query's total, DefaultIfEmpty included, is PointsFor(results, playerId) |
| Achievements.IsAwardedForThisPlayer | Source/BusinessLogic/Logic/Achievements/NemePointsAchievement.cs:32-57 | the achievement is NemePoints; the progress is the player's total; below the Bronze threshold no level is set; at or above it the level is whatever GetLevelAwarded returns for the progress |
| Achievements.ThresholdsAscending | Source/BusinessLogic/Logic/Achievements/NemePointsAchievement.cs:25-30 | thresholds exist for Bronze, Silver and Gold exactly, Bronze is 2500, and they strictly ascend |
| Achievements.PointsForAppend | Source/BusinessLogic/Logic/Achievements/NemePointsAchievement.cs:39-45 | the player's total over two concatenated tables is the sum of the two totals |
| Achievements.OtherPlayersResultsHaveNoEffect | Source/BusinessLogic/Logic/Achievements/NemePointsAchievement.cs:42 | inserting another player's result anywhere leaves the evaluation unchanged |
| Achievements.NoResultsSumToZero | Source/BusinessLogic/Logic/Achievements/NemePointsAchievement.cs:39-45 | with no result for the player the total is 0 |
| Achievements.NoResultsMeansNoProgress | Source/BusinessLogic/Logic/Achievements/NemePointsAchievement.cs:39-53 | with no result for the player the evaluation is NemePoints, progress 0, no level |
| Achievements.OwnResultsKeepPoints | Source/BusinessLogic/Logic/Achievements/NemePointsAchievement.cs:42 | filtering the table to the player's own results keeps their total |
| Achievements.AwardDependsOnlyOnOwnResults | Source/BusinessLogic/Logic/Achievements/NemePointsAchievement.cs:42 | evaluating on the whole table or on the player's own results gives the same award |
| Achievements.ProgressIgnoresOrder | Source/BusinessLogic/Logic/Achievements/NemePointsAchievement.cs:40-45 | two tables holding the same rows in any order give the same total |
| Achievements.ProgressIsMonotone | Source/BusinessLogic/Logic/Achievements/NemePointsAchievement.cs:45-53 | one more result with non-negative points never lowers the progress, so Bronze once reached stays reached |
| GameDefinitions.NameCannotBeNullOrWhitespaceMessage | Source/BusinessLogic/Logic/GameDefinitions/GameDefinitionSaver.cs:13-14 | the message "gameDefinition.Name cannot be null or whitespace." of the exception for a blank name |
| GameDefinitions.ValidateGameDefinitionIsNotNull | Source/BusinessLogic/Logic/GameDefinitions/GameDefinitionSaver.cs:39-45 | passes iff the definition is present; otherwise ArgumentNullException("gameDefinition") |
| GameDefinitions.ValidateGameDefinitionNameIsNotNullOrWhitespace | Source/BusinessLogic/Logic/GameDefinitions/GameDefinitionSaver.cs:47-53 | a null name fails; a present name fails iff it is all white space; the failure is ArgumentException with the exact message |
| GameDefinitions.Validate | Source/BusinessLogic/Logic/GameDefinitions/GameDefinitionSaver.cs:27-28 | a null definition fails with ArgumentNullException before the name is looked at; passes iff present with a non-blank name; a present definition fails only with the name message |
| GameDefinitions.GameDefinitionSaver.constructor | Source/BusinessLogic/Logic/GameDefinitions/GameDefinitionSaver.cs:19-23 | keeps the collaborators; nothing has been requested yet and the invariant holds |
| GameDefinitions.GameDefinitionSaver.Save | Source/BusinessLogic/Logic/GameDefinitions/GameDefinitionSaver.cs:25-37 | fails iff validation fails or the data context's save throws; a validation failure returns its exception with no request made; otherwise the name is non-blank, a creation event with the name is requested iff the definition is not in the database, then one save is requested, the data context's result (its value or its exception) is returned, a creation event requested before a failing save stays in the log, and the invariant is kept |
| PlayerViewModels.PlayerDetailsViewModel.constructor | Source/UI/Models/Players/PlayerDetailsViewModel.cs:9-35 | a new view model holds the .NET default of every property |
| PlayerViewModels.PlayerDetailsViewModel.SetPlayerId | Source/UI/Models/Players/PlayerDetailsViewModel.cs:11 | sets PlayerId and nothing else |
| PlayerViewModels.PlayerDetailsViewModel.SetPlayerName | Source/UI/Models/Players/PlayerDetailsViewModel.cs:12 | sets PlayerName and nothing else |
| PlayerViewModels.PlayerDetailsViewModel.SetPlayerRegistered | Source/UI/Models/Players/PlayerDetailsViewModel.cs:14 | sets PlayerRegistered and nothing else |
| PlayerViewModels.PlayerDetailsViewModel.SetActive | Source/UI/Models/Players/PlayerDetailsViewModel.cs:15 | sets Active and nothing else |
| PlayerViewModels.PlayerDetailsViewModel.SetTotalGamesPlayed | Source/UI/Models/Players/PlayerDetailsViewModel.cs:17 | sets TotalGamesPlayed and nothing else |
| PlayerViewModels.PlayerDetailsViewModel.SetTotalPoints | Source/UI/Models/Players/PlayerDetailsViewModel.cs:18 | sets TotalPoints and nothing else |
| PlayerViewModels.PlayerDetailsViewModel.SetAveragePlayersPerGame | Source/UI/Models/Players/PlayerDetailsViewModel.cs:20 | sets AveragePlayersPerGame and nothing else |
| PlayerViewModels.PlayerDetailsViewModel.SetMinions | Source/UI/Models/Players/PlayerDetailsViewModel.cs:28 | sets Minions and nothing else |
| PlayerViewModels.PlayerDetailsViewModel.SetPlayerGameSummaries | Source/UI/Models/Players/PlayerDetailsViewModel.cs:29 | sets PlayerGameSummaries and nothing else |
| PlayerViewModels.PlayerDetailsViewModel.SetGamingGroupName | Source/UI/Models/Players/PlayerDetailsViewModel.cs:32 | sets GamingGroupName and nothing else |
| PlayerViewModels.PlayerDetailsViewModel.SetGamingGroupId | Source/UI/Models/Players/PlayerDetailsViewModel.cs:33 | sets GamingGroupId and nothing else |
| PlayerTransformations.PlayerGameResultsCannotBeNullMessage | Source/UI/Transformations/PlayerTransformations/PlayerDetailsViewModelBuilder.cs:15 | the message "PlayerDetails.PlayerGameResults cannot be null." |
| PlayerTransformations.PlayerStatisticsCannotBeNullMessage | Source/UI/Transformations/PlayerTransformations/PlayerDetailsViewModelBuilder.cs:16 | the message "PlayerDetails.PlayerStatistics cannot be null." |
| PlayerTransformations.MinionsCannotBeNullMessage | Source/UI/Transformations/PlayerTransformations/PlayerDetailsViewModelBuilder.cs:17 | the message "PlayerDetails.Minions cannot be null." |
| PlayerTransformations.ChampionedGamesCannotBeNullMessage | Source/UI/Transformations/PlayerTransformations/PlayerDetailsViewModelBuilder.cs:18 | the message "PlayerDetails.ChampionedGames cannot be null." |
| PlayerTransformations.ValidatePlayerDetailsIsNotNull | Source/UI/Transformations/PlayerTransformations/PlayerDetailsViewModelBuilder.cs:142-148 | passes iff the details are present; otherwise ArgumentNullException("playerDetails") |
| PlayerTransformations.ValidatePlayerGameResultsIsNotNull | Source/UI/Transformations/PlayerTransformations/PlayerDetailsViewModelBuilder.cs:150-156 | passes iff the game results are present; otherwise ArgumentException with the game-results message |
| PlayerTransformations.ValidatePlayerStatisticsIsNotNull | Source/UI/Transformations/PlayerTransformations/PlayerDetailsViewModelBuilder.cs:158-164 | passes iff the statistics are present; otherwise ArgumentException with the statistics message |
| PlayerTransformations.ValidateMinions | Source/UI/Transformations/PlayerTransformations/PlayerDetailsViewModelBuilder.cs:166-172 | passes iff the minions are present; otherwise ArgumentException with the minions message |
| PlayerTransformations.ValidateChampionedGames | Source/UI/Transformations/PlayerTransformations/PlayerDetailsViewModelBuilder.cs:174-180 | passes iff the championed games are present; otherwise ArgumentException with the championed-games message |
| PlayerTransformations.Validate | Source/UI/Transformations/PlayerTransformations/PlayerDetailsViewModelBuilder.cs:133-140 | passes iff the details are present and complete; otherwise the exception of the first missing part in the order details, game results, statistics, minions, championed games |
| PlayerTransformations.ValidationMessagesAreDistinct | Source/UI/Transformations/PlayerTransformations/PlayerDetailsViewModelBuilder.cs:15-18 | the four messages are pairwise different, so the exception tells which part is missing |
| PlayerTransformations.AveragePointsPerGame | Source/UI/Transformations/PlayerTransformations/PlayerDetailsViewModelBuilder.cs:77-87 | 0 when no game was played; otherwise the average times the number of games is the total points |
| PlayerTransformations.AveragePointsPerPlayer | Source/UI/Transformations/PlayerTransformations/PlayerDetailsViewModelBuilder.cs:89-100 | 0 when players per game is 0; otherwise the result times players per game is points per game |
| PlayerTransformations.UserCanEdit | Source/UI/Transformations/PlayerTransformations/PlayerDetailsViewModelBuilder.cs:102-112 | true iff a user is logged in and their current gaming group is the player's |
| PlayerTransformations.IsViewedPlayer | Source/UI/Transformations/PlayerTransformations/PlayerDetailsViewModelBuilder.cs:71 | true iff a user is logged in and their id is the player's application user id, which then is not null |
| PlayerTransformations.AveragePointsPerGameExample | Source/UI/Transformations/PlayerTransformations/PlayerDetailsViewModelBuilder.cs:77-100 | 100 points over 4 games is 25 per game, and 12.5 per player at 2 players per game |
| PlayerTransformations.PlayerDetailsViewModelBuilder.constructor | Source/UI/Transformations/PlayerTransformations/PlayerDetailsViewModelBuilder.cs:24-29 | keeps the three per-item builders |
| PlayerTransformations.PlayerDetailsViewModelBuilder.BuiltViewModelIsDetermined | Source/UI/Transformations/PlayerTransformations/PlayerDetailsViewModelBuilder.cs:31-64 | what Build promises fixes every property: two view models built from the same inputs are equal |
| PlayerTransformations.PlayerDetailsViewModelBuilder.ViewerDependentPrivileges | Source/UI/Transformations/PlayerTransformations/PlayerDetailsViewModelBuilder.cs:45-50 | with nobody logged in there is no edit right and no link; a bragging link implies a logged-in viewer and a registered player; edit rights imply a logged-in viewer |
| PlayerTransformations.PlayerDetailsViewModelBuilder.NoGamesMeansZeroAverages | Source/UI/Transformations/PlayerTransformations/PlayerDetailsViewModelBuilder.cs:47-49 | a player without games shows 0 points per game and 0 points per player |
| PlayerTransformations.PlayerDetailsViewModelBuilder.ListsAreMappedInOrder | Source/UI/Transformations/PlayerTransformations/PlayerDetailsViewModelBuilder.cs:52-61 | the game result, minion and champion lists have the source lists' lengths, and element i is the per-item builder applied to source element i |
| PlayerTransformations.PlayerDetailsViewModelBuilder.Build | Source/UI/Transformations/PlayerTransformations/PlayerDetailsViewModelBuilder.cs:31-64 | fails iff validation fails, with the same exception; otherwise returns a new view model with the copied properties, registered iff an application user id exists, the viewer-dependent flags and link, the two guarded averages, the nemesis block (defaults for NullNemesis) and the three mapped lists |
| PlayerTransformations.PlayerDetailsViewModelBuilder.SetViewerDependentValuesAndAverages | Source/UI/Transformations/PlayerTransformations/PlayerDetailsViewModelBuilder.cs:45-50 | sets the bragging link, the three averages and the edit flag as the four helpers and the one assignment do, and nothing else |
| PlayerTransformations.PlayerDetailsViewModelBuilder.SetGameResultsNemesisAndLists | Source/UI/Transformations/PlayerTransformations/PlayerDetailsViewModelBuilder.cs:52-61 | sets the game results, the nemesis block, minions, summaries and championed games, and nothing else |
| PlayerTransformations.PlayerDetailsViewModelBuilder.SetTwitterBraggingUrlIfThePlayerIsTheCurrentlyLoggedInUser | Source/UI/Transformations/PlayerTransformations/PlayerDetailsViewModelBuilder.cs:66-75 | the link becomes the given URL iff the viewer is the player, and otherwise keeps its value; nothing else changes |
| PlayerTransformations.PlayerDetailsViewModelBuilder.SetAveragePointsPerGame | Source/UI/Transformations/PlayerTransformations/PlayerDetailsViewModelBuilder.cs:77-87 | sets points per game to the guarded average and nothing else |
| PlayerTransformations.PlayerDetailsViewModelBuilder.SetAveragePointsPerPlayer | Source/UI/Transformations/PlayerTransformations/PlayerDetailsViewModelBuilder.cs:89-100 | sets points per player from the view model's own points per game, guarded, and nothing else |
| PlayerTransformations.PlayerDetailsViewModelBuilder.SetUserCanEditFlag | Source/UI/Transformations/PlayerTransformations/PlayerDetailsViewModelBuilder.cs:102-112 | sets the edit flag to UserCanEdit and nothing else |
| PlayerTransformations.PlayerDetailsViewModelBuilder.PopulateNemesisData | Source/UI/Transformations/PlayerTransformations/PlayerDetailsViewModelBuilder.cs:114-124 | HasNemesis iff the nemesis is not NullNemesis; the four nemesis properties are written from it only then; nothing else changes |
| PlayerTransformations.PlayerDetailsViewModelBuilder.SetChampionedGames | Source/UI/Transformations/PlayerTransformations/PlayerDetailsViewModelBuilder.cs:126-131 | sets the championed games to the champion builder mapped over the source list, and nothing else |
| PlayerTransformations.PlayerDetailsViewModelBuilder.PopulatePlayerGameSummaries | Source/UI/Transformations/PlayerTransformations/PlayerDetailsViewModelBuilder.cs:182-191 | starting from an empty list and appending per result, leaves the game result builder mapped over the results, in order, and nothing else changed |

## Left out

- Source/UI/Controllers/PlayerController.cs: HTTP status codes, redirects and the repository calls are web plumbing over code that cannot be seen. Its call to `Build` at line 70 does not match the signature at Source/UI/Transformations/PlayerTransformations/PlayerDetailsViewModelBuilder.cs:31, and this model follows the builder's own signature.
- Source/UI/Global.asax.cs: framework start-up, error reporting and container disposal.
- Source/BusinessLogic/Components/DbComponentBase.cs: it declares signatures only.
- The numeric values of the `AchievementId` and `AchievementGroup` enums are not modelled. Only the names are used.
- Achievements.IsAwardedForThisPlayer: the sum is over unbounded integers, so the overflow of a 32-bit sum, and the exception or wrap-around it would cause, is not modelled.
- Achievements.IsAwardedForThisPlayer: `GetLevelAwarded` is a parameter, because `BaseAchievement` is not part of this model. Nothing is assumed about it beyond being a function that cannot throw. The query's translation to SQL is also not modelled.
- PlayerTransformations.PlayerDetailsViewModelBuilder.Build: the averages are exact `real` divisions, so the rounding of the C# `float` arithmetic is not modelled.
- PlayerTransformations.PlayerDetailsViewModelBuilder.Build: a null `CurrentNemesis`, or a null `NemesisPlayer` on a real nemesis, would throw a NullReferenceException in the source. The model's nemesis is never null.
- PlayerTransformations.IsViewedPlayer: `currentUser.Id` is taken to be non-null. In C#, a null `Id` would equal a null `ApplicationUserId` at PlayerDetailsViewModelBuilder.cs line 71, and the link would then be set for an unregistered player. The model does not capture that case, and its clause that the viewed player's application user id is not null rests on this assumption.
- PlayerTransformations.PlayerDetailsViewModelBuilder.Build: `currentUser.Id` is taken to be non-null (see IsViewedPlayer), and `CurrentGamingGroupId` to be an `int`.
- PlayerTransformations.PlayerDetailsViewModelBuilder.SetViewerDependentValuesAndAverages and PlayerTransformations.PlayerDetailsViewModelBuilder.SetGameResultsNemesisAndLists: the source writes these steps inline in Build. Here they are two methods, so each proof stays small; the steps and their order are unchanged.
- PlayerTransformations.PlayerDetailsViewModelBuilder.SetGameResultsNemesisAndLists and PlayerTransformations.PlayerDetailsViewModelBuilder.PopulatePlayerGameSummaries: the .NET `List` objects are modelled as sequence values. At PlayerDetailsViewModelBuilder.cs line 59 the view model shares the aggregate's `PlayerGameSummaries` list object, and at lines 184-189 the result list is grown in place by `Add`. The model copies the values, so it captures neither that sharing (a later change to one list showing in the other) nor the lists' object identity; only their contents and order are modelled.
- The per-item view model builders are functions, and their element types are type parameters. Nothing is assumed about them beyond being functions that cannot throw.
- DotNet.IsNullOrWhiteSpace: `Char.IsWhiteSpace` and its Unicode tables are the parameter `isWhiteSpace`.
- GameDefinitions.GameDefinitionSaver.Save: the fire-and-forget tracking task is recorded as a request in the ghost log. Its concurrent execution and completion are not modelled.
- GameDefinitions.GameDefinitionSaver.Save: the data context's result, a value or an exception, is a function of the entity and the user, so two saves of the same entity by the same user give the same result. `AlreadyInDatabase` is likewise a function of the entity alone. What the data context stores is not modelled.
- PlayerTransformations.PlayerDetailsViewModelBuilder.Build and Achievements.IsAwardedForThisPlayer: the per-item builders (PlayerDetailsViewModelBuilder.cs lines 57, 129 and 188) and `GetLevelAwarded` (NemePointsAchievement.cs line 55) are functions that cannot throw, always give the same result for the same input and have no side effects. In the source an exception from one of them propagates out of Build or IsAwardedForThisPlayer; the model does not capture that path, so Build's "fails iff Validate fails" holds only under this assumption, and a view model left half-built by a throwing builder is not modelled.
- GameDefinitions.GameDefinitionSaver.Save: it requires the class invariant `Valid()`, which the constructor establishes and every save keeps.
- Only a few fields of `GameDefinition`, `Player`, `PlayerGameResult` and the other records are modelled: those the modelled code reads, plus identifiers such as `Player.id` or `GameDefinition.id` that make the records handed whole to the unmodelled collaborators distinguishable. The records' other columns are not modelled.
