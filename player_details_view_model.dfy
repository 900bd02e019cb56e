/** The view model of the player details page. Its properties are set one
    by one by the builder, so it is a class. The element types of its lists
    (game result, minion and champion view models, game summaries) are built
    by code outside this model and are type parameters. */
module PlayerViewModels {
  import opened Wrappers

  /** The values of all properties of a view model at one moment. */
  datatype PlayerDetailsViewModelState<G, M, C, S> = PlayerDetailsViewModelState(
    playerId: int,
    playerName: Option<string>,
    playerRegistered: bool,
    active: bool,
    playerGameResultDetails: Option<seq<G>>,
    totalGamesPlayed: int,
    totalPoints: int,
    averagePointsPerGame: real,
    averagePlayersPerGame: real,
    averagePointsPerPlayer: real,
    hasNemesis: bool,
    nemesisPlayerId: int,
    nemesisName: Option<string>,
    lossPercentageVersusPlayer: real,
    numberOfGamesLostVersusNemesis: int,
    userCanEdit: bool,
    minions: Option<seq<M>>,
    playerGameSummaries: Option<seq<S>>,
    championedGames: Option<seq<C>>,
    gamingGroupName: Option<string>,
    gamingGroupId: int,
    minionBraggingTweetUrl: Option<string>)

  /** Every property holds the .NET default of its type: zero, false or null. */
  ghost predicate HasDefaultValues<G, M, C, S>(v: PlayerDetailsViewModelState<G, M, C, S>)
  {
    && v.playerId == 0 && v.playerName == None && !v.playerRegistered && !v.active
    && v.playerGameResultDetails == None && v.totalGamesPlayed == 0 && v.totalPoints == 0
    && v.averagePointsPerGame == 0.0 && v.averagePlayersPerGame == 0.0
    && v.averagePointsPerPlayer == 0.0 && !v.hasNemesis && v.nemesisPlayerId == 0
    && v.nemesisName == None && v.lossPercentageVersusPlayer == 0.0
    && v.numberOfGamesLostVersusNemesis == 0 && !v.userCanEdit && v.minions == None
    && v.playerGameSummaries == None && v.championedGames == None
    && v.gamingGroupName == None && v.gamingGroupId == 0 && v.minionBraggingTweetUrl == None
  }

  class PlayerDetailsViewModel<G, M, C, S> {
    var playerId: int
    var playerName: Option<string>
    var playerRegistered: bool
    var active: bool
    var playerGameResultDetails: Option<seq<G>>
    var totalGamesPlayed: int
    var totalPoints: int
    var averagePointsPerGame: real
    var averagePlayersPerGame: real
    var averagePointsPerPlayer: real
    var hasNemesis: bool
    var nemesisPlayerId: int
    var nemesisName: Option<string>
    var lossPercentageVersusPlayer: real
    var numberOfGamesLostVersusNemesis: int
    var userCanEdit: bool
    var minions: Option<seq<M>>
    var playerGameSummaries: Option<seq<S>>
    var championedGames: Option<seq<C>>
    var gamingGroupName: Option<string>
    var gamingGroupId: int
    var minionBraggingTweetUrl: Option<string>

    /** The current values of all properties. */
    ghost function State(): PlayerDetailsViewModelState<G, M, C, S>
      reads this
    {
      PlayerDetailsViewModelState(
        playerId, playerName, playerRegistered, active, playerGameResultDetails,
        totalGamesPlayed, totalPoints, averagePointsPerGame, averagePlayersPerGame,
        averagePointsPerPlayer, hasNemesis, nemesisPlayerId, nemesisName,
        lossPercentageVersusPlayer, numberOfGamesLostVersusNemesis, userCanEdit,
        minions, playerGameSummaries, championedGames, gamingGroupName, gamingGroupId,
        minionBraggingTweetUrl)
    }

    constructor()
      ensures HasDefaultValues(State())
    {
      playerId, playerName, playerRegistered, active := 0, None, false, false;
      playerGameResultDetails, totalGamesPlayed, totalPoints := None, 0, 0;
      averagePointsPerGame, averagePlayersPerGame, averagePointsPerPlayer := 0.0, 0.0, 0.0;
      hasNemesis, nemesisPlayerId, nemesisName := false, 0, None;
      lossPercentageVersusPlayer, numberOfGamesLostVersusNemesis := 0.0, 0;
      userCanEdit, minions, playerGameSummaries, championedGames := false, None, None, None;
      gamingGroupName, gamingGroupId, minionBraggingTweetUrl := None, 0, None;
    }

    method SetPlayerId(value: int)
      modifies this
      ensures State() == old(State()).(playerId := value)
    {
      playerId := value;
    }

    method SetPlayerName(value: Option<string>)
      modifies this
      ensures State() == old(State()).(playerName := value)
    {
      playerName := value;
    }

    method SetPlayerRegistered(value: bool)
      modifies this
      ensures State() == old(State()).(playerRegistered := value)
    {
      playerRegistered := value;
    }

    method SetActive(value: bool)
      modifies this
      ensures State() == old(State()).(active := value)
    {
      active := value;
    }

    method SetGamingGroupName(value: Option<string>)
      modifies this
      ensures State() == old(State()).(gamingGroupName := value)
    {
      gamingGroupName := value;
    }

    method SetGamingGroupId(value: int)
      modifies this
      ensures State() == old(State()).(gamingGroupId := value)
    {
      gamingGroupId := value;
    }

    method SetTotalGamesPlayed(value: int)
      modifies this
      ensures State() == old(State()).(totalGamesPlayed := value)
    {
      totalGamesPlayed := value;
    }

    method SetTotalPoints(value: int)
      modifies this
      ensures State() == old(State()).(totalPoints := value)
    {
      totalPoints := value;
    }

    method SetAveragePlayersPerGame(value: real)
      modifies this
      ensures State() == old(State()).(averagePlayersPerGame := value)
    {
      averagePlayersPerGame := value;
    }

    method SetMinions(value: Option<seq<M>>)
      modifies this
      ensures State() == old(State()).(minions := value)
    {
      minions := value;
    }

    method SetPlayerGameSummaries(value: Option<seq<S>>)
      modifies this
      ensures State() == old(State()).(playerGameSummaries := value)
    {
      playerGameSummaries := value;
    }
  }
}
