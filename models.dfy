/** The domain records the modelled code reads: players and their game
    results, player statistics and nemesis data, the aggregate PlayerDetails,
    the logged-in ApplicationUser and game definitions. Only the fields the
    modelled code reads are kept, plus identifiers such as `Player.id` or
    `GameDefinition.id` that keep the records handed whole to the unmodelled
    collaborators distinguishable; a .NET reference that may be null is an
    Option. */
module Models {
  import opened Wrappers

  datatype Player = Player(
    id: int,
    name: Option<string>,
    active: bool,
    applicationUserId: Option<string>,
    gamingGroupId: int)

  /** One player's outcome in one played game. */
  datatype PlayerGameResult = PlayerGameResult(
    id: int,
    playerId: int,
    playedGameId: int,
    totalPoints: int)

  datatype PlayerStatistics = PlayerStatistics(
    totalGames: int,
    totalPoints: int,
    averagePlayersPerGame: real)

  /** The player's rival; NullNemesis is the explicit "no nemesis yet"
      value the repository returns instead of null. */
  datatype Nemesis =
    | NullNemesis
    | Nemesis(
        nemesisPlayerId: int,
        nemesisPlayer: Player,
        numberOfGamesLost: int,
        lossPercentage: real)

  /** The aggregate the player repository assembles. The element types of
      the championed games (CG) and the game summaries (S) are not looked
      into by the modelled code, so they are left as parameters. */
  datatype PlayerDetails<CG, S> = PlayerDetails(
    id: int,
    name: Option<string>,
    active: bool,
    applicationUserId: Option<string>,
    gamingGroupId: int,
    gamingGroupName: Option<string>,
    playerGameResults: Option<seq<PlayerGameResult>>,
    playerStats: Option<PlayerStatistics>,
    currentNemesis: Nemesis,
    minions: Option<seq<Player>>,
    championedGames: Option<seq<CG>>,
    playerGameSummaries: Option<seq<S>>)

  datatype ApplicationUser = ApplicationUser(id: string, currentGamingGroupId: int)

  datatype GameDefinition = GameDefinition(id: int, name: Option<string>)
}

/** Achievement identifiers, groups, levels, and the per-player evaluation
    result, as the achievement models declare them. */
module AchievementModels {
  import opened Wrappers

  datatype AchievementId =
    | Diversified | Champion | BusyBee | SocialButterfly | HotStreak
    | RiskTaker | YouveGotHeart | Hardcore | BoardGameGeek2016_10x10 | NemePoints

  datatype AchievementGroup = NotApply | Game | Player | PlayedGame

  datatype AchievementLevel = Bronze | Silver | Gold

  /** The outcome of evaluating one achievement for one player. */
  datatype AchievementAwarded = AchievementAwarded(
    achievementId: AchievementId,
    playerProgress: int,
    levelAwarded: Option<AchievementLevel>)
}
