/** Assembling the player details view model from the PlayerDetails
    aggregate: five validations in a fixed order, then field copies, three
    derived flags, two zero-guarded averages, the nemesis block, and three
    lists mapped element by element through the injected per-item builders.

    The per-item builders (game result, minion, champion) are not part of
    this model; the builder holds them as functions about which nothing is
    assumed beyond being functions that cannot throw. Averages are exact `real` divisions. */
module PlayerTransformations {
  import opened Wrappers
  import opened DotNet
  import opened Models
  import opened PlayerViewModels

  /** The messages of the ArgumentExceptions thrown for a missing part. */
  const PlayerGameResultsCannotBeNullMessage: string := "PlayerDetails.PlayerGameResults cannot be null."
  const PlayerStatisticsCannotBeNullMessage: string := "PlayerDetails.PlayerStatistics cannot be null."
  const MinionsCannotBeNullMessage: string := "PlayerDetails.Minions cannot be null."
  const ChampionedGamesCannotBeNullMessage: string := "PlayerDetails.ChampionedGames cannot be null."

  // ---------------------------------------------------------------- validation

  function ValidatePlayerDetailsIsNotNull<CG, S>(playerDetails: Option<PlayerDetails<CG, S>>): (r: Outcome<Exception>)
    ensures r.Pass? <==> playerDetails.Some?
    ensures r.Fail? ==> r.error == ArgumentNullException("playerDetails")
  {
    if playerDetails.None? then Fail(ArgumentNullException("playerDetails")) else Pass
  }

  function ValidatePlayerGameResultsIsNotNull<CG, S>(playerDetails: PlayerDetails<CG, S>): (r: Outcome<Exception>)
    ensures r.Pass? <==> playerDetails.playerGameResults.Some?
    ensures r.Fail? ==> r.error == ArgumentException(PlayerGameResultsCannotBeNullMessage)
  {
    if playerDetails.playerGameResults.None? then Fail(ArgumentException(PlayerGameResultsCannotBeNullMessage)) else Pass
  }

  function ValidatePlayerStatisticsIsNotNull<CG, S>(playerDetails: PlayerDetails<CG, S>): (r: Outcome<Exception>)
    ensures r.Pass? <==> playerDetails.playerStats.Some?
    ensures r.Fail? ==> r.error == ArgumentException(PlayerStatisticsCannotBeNullMessage)
  {
    if playerDetails.playerStats.None? then Fail(ArgumentException(PlayerStatisticsCannotBeNullMessage)) else Pass
  }

  function ValidateMinions<CG, S>(playerDetails: PlayerDetails<CG, S>): (r: Outcome<Exception>)
    ensures r.Pass? <==> playerDetails.minions.Some?
    ensures r.Fail? ==> r.error == ArgumentException(MinionsCannotBeNullMessage)
  {
    if playerDetails.minions.None? then Fail(ArgumentException(MinionsCannotBeNullMessage)) else Pass
  }

  function ValidateChampionedGames<CG, S>(playerDetails: PlayerDetails<CG, S>): (r: Outcome<Exception>)
    ensures r.Pass? <==> playerDetails.championedGames.Some?
    ensures r.Fail? ==> r.error == ArgumentException(ChampionedGamesCannotBeNullMessage)
  {
    if playerDetails.championedGames.None? then Fail(ArgumentException(ChampionedGamesCannotBeNullMessage)) else Pass
  }

  /** The aggregate has every part Build reads. */
  predicate IsComplete<CG, S>(playerDetails: PlayerDetails<CG, S>)
  {
    && playerDetails.playerGameResults.Some?
    && playerDetails.playerStats.Some?
    && playerDetails.minions.Some?
    && playerDetails.championedGames.Some?
  }

  /** The five validators run in order; the first missing part, in the order
      details, game results, statistics, minions, championed games, decides
      the exception, whatever else is missing. */
  function Validate<CG, S>(playerDetails: Option<PlayerDetails<CG, S>>): (r: Outcome<Exception>)
    ensures r.Pass? <==> playerDetails.Some? && IsComplete(playerDetails.value)
    ensures playerDetails.None? ==> r == Fail(ArgumentNullException("playerDetails"))
    ensures playerDetails.Some? ==>
      var d := playerDetails.value;
      && (d.playerGameResults.None? ==>
            r == Fail(ArgumentException(PlayerGameResultsCannotBeNullMessage)))
      && (d.playerGameResults.Some? && d.playerStats.None? ==>
            r == Fail(ArgumentException(PlayerStatisticsCannotBeNullMessage)))
      && (d.playerGameResults.Some? && d.playerStats.Some? && d.minions.None? ==>
            r == Fail(ArgumentException(MinionsCannotBeNullMessage)))
      && (d.playerGameResults.Some? && d.playerStats.Some? && d.minions.Some? && d.championedGames.None? ==>
            r == Fail(ArgumentException(ChampionedGamesCannotBeNullMessage)))
  {
    match playerDetails
    case None => ValidatePlayerDetailsIsNotNull(playerDetails)
    case Some(d) =>
      var checks := [
        ValidatePlayerDetailsIsNotNull(playerDetails),
        ValidatePlayerGameResultsIsNotNull(d),
        ValidatePlayerStatisticsIsNotNull(d),
        ValidateMinions(d),
        ValidateChampionedGames(d)];
      var r := FirstFailure(checks);
      assert checks[0].Pass?;
      assert r.Pass? <==> checks[1].Pass? && checks[2].Pass? && checks[3].Pass? && checks[4].Pass?;
      r
  }

  /** Each of the four argument messages names a different part. */
  lemma ValidationMessagesAreDistinct()
    ensures PlayerGameResultsCannotBeNullMessage != PlayerStatisticsCannotBeNullMessage
    ensures PlayerGameResultsCannotBeNullMessage != MinionsCannotBeNullMessage
    ensures PlayerGameResultsCannotBeNullMessage != ChampionedGamesCannotBeNullMessage
    ensures PlayerStatisticsCannotBeNullMessage != MinionsCannotBeNullMessage
    ensures PlayerStatisticsCannotBeNullMessage != ChampionedGamesCannotBeNullMessage
    ensures MinionsCannotBeNullMessage != ChampionedGamesCannotBeNullMessage
  {
  }

  // ------------------------------------------------------- derived values

  /** Points per game, 0 when no game was played. */
  function AveragePointsPerGame(stats: PlayerStatistics): (r: real)
    ensures stats.totalGames == 0 ==> r == 0.0
    ensures stats.totalGames != 0 ==> r * stats.totalGames as real == stats.totalPoints as real
  {
    if stats.totalGames == 0 then 0.0
    else stats.totalPoints as real / stats.totalGames as real
  }

  /** Points per game divided by players per game, 0 when that average is 0. */
  function AveragePointsPerPlayer(averagePointsPerGame: real, averagePlayersPerGame: real): (r: real)
    ensures averagePlayersPerGame == 0.0 ==> r == 0.0
    ensures averagePlayersPerGame != 0.0 ==> r * averagePlayersPerGame == averagePointsPerGame
  {
    if averagePlayersPerGame == 0.0 then 0.0
    else averagePointsPerGame / averagePlayersPerGame
  }

  /** A logged-in user may edit a player of their current gaming group. */
  function UserCanEdit<CG, S>(playerDetails: PlayerDetails<CG, S>, currentUser: Option<ApplicationUser>): (r: bool)
    ensures r <==> currentUser.Some? && currentUser.value.currentGamingGroupId == playerDetails.gamingGroupId
  {
    if currentUser.None? || playerDetails.gamingGroupId != currentUser.value.currentGamingGroupId then false
    else true
  }

  /** The logged-in user is the viewed player: only then may they brag. */
  function IsViewedPlayer<CG, S>(playerDetails: PlayerDetails<CG, S>, currentUser: Option<ApplicationUser>): (r: bool)
    ensures r <==> currentUser.Some? && playerDetails.applicationUserId == Some(currentUser.value.id)
    ensures r ==> playerDetails.applicationUserId.Some?
  {
    currentUser.Some? && Some(currentUser.value.id) == playerDetails.applicationUserId
  }

  /** 100 points over 4 games is 25 points per game. */
  lemma AveragePointsPerGameExample()
    ensures AveragePointsPerGame(PlayerStatistics(4, 100, 2.0)) == 25.0
    ensures AveragePointsPerPlayer(25.0, 2.0) == 12.5
  {
  }

  // ------------------------------------------------------------- the builder

  class PlayerDetailsViewModelBuilder<CG, S, G, M, C> {
    const gameResultViewModelBuilder: PlayerGameResult -> G
    const minionViewModelBuilder: Player -> M
    const championViewModelBuilder: CG -> C

    constructor(
      builder: PlayerGameResult -> G,
      minionViewModelBuilder: Player -> M,
      championViewModelBuilder: CG -> C)
      ensures gameResultViewModelBuilder == builder
      ensures this.minionViewModelBuilder == minionViewModelBuilder
      ensures this.championViewModelBuilder == championViewModelBuilder
    {
      gameResultViewModelBuilder := builder;
      this.minionViewModelBuilder := minionViewModelBuilder;
      this.championViewModelBuilder := championViewModelBuilder;
    }

    /** The properties Build copies from the aggregate and its statistics. */
    static ghost predicate CopiesFields(v: PlayerDetailsViewModelState<G, M, C, S>, d: PlayerDetails<CG, S>)
      requires d.playerStats.Some?
    {
      && v.playerId == d.id
      && v.playerName == d.name
      && v.active == d.active
      && v.gamingGroupName == d.gamingGroupName
      && v.gamingGroupId == d.gamingGroupId
      && v.totalGamesPlayed == d.playerStats.value.totalGames
      && v.totalPoints == d.playerStats.value.totalPoints
    }

    /** The two flags and the bragging link that depend on who is looking. */
    static ghost predicate SetsViewerDependentFields(
      v: PlayerDetailsViewModelState<G, M, C, S>,
      d: PlayerDetails<CG, S>,
      urlForMinionBragging: Option<string>,
      currentUser: Option<ApplicationUser>)
    {
      && (v.playerRegistered <==> d.applicationUserId.Some?)
      && v.userCanEdit == UserCanEdit(d, currentUser)
      && v.minionBraggingTweetUrl == (if IsViewedPlayer(d, currentUser) then urlForMinionBragging else None)
    }

    /** The averages: players per game copied, the other two derived. */
    static ghost predicate SetsAverages(v: PlayerDetailsViewModelState<G, M, C, S>, stats: PlayerStatistics)
    {
      && v.averagePlayersPerGame == stats.averagePlayersPerGame
      && v.averagePointsPerGame == AveragePointsPerGame(stats)
      && v.averagePointsPerPlayer
         == AveragePointsPerPlayer(AveragePointsPerGame(stats), stats.averagePlayersPerGame)
    }

    /** The nemesis block: filled in from a real nemesis, left at its
        defaults for NullNemesis. */
    static ghost predicate SetsNemesisData(v: PlayerDetailsViewModelState<G, M, C, S>, nemesis: Nemesis)
    {
      && (v.hasNemesis <==> !nemesis.NullNemesis?)
      && if v.hasNemesis then
           && v.nemesisPlayerId == nemesis.nemesisPlayerId
           && v.nemesisName == nemesis.nemesisPlayer.name
           && v.numberOfGamesLostVersusNemesis == nemesis.numberOfGamesLost
           && v.lossPercentageVersusPlayer == nemesis.lossPercentage
         else
           && v.nemesisPlayerId == 0
           && v.nemesisName == None
           && v.numberOfGamesLostVersusNemesis == 0
           && v.lossPercentageVersusPlayer == 0.0
    }

    /** The three mapped lists, each mapped element by element and in
        order, and the game summaries passed on as they are. */
    ghost predicate SetsLists(v: PlayerDetailsViewModelState<G, M, C, S>, d: PlayerDetails<CG, S>)
      requires IsComplete(d)
    {
      && v.playerGameSummaries == d.playerGameSummaries
      && v.playerGameResultDetails == Some(Select(d.playerGameResults.value, gameResultViewModelBuilder))
      && v.minions == Some(Select(d.minions.value, minionViewModelBuilder))
      && v.championedGames == Some(Select(d.championedGames.value, championViewModelBuilder))
    }

    /** What Build promises about the view model it returns. */
    ghost predicate IsBuiltFrom(
      v: PlayerDetailsViewModelState<G, M, C, S>,
      d: PlayerDetails<CG, S>,
      urlForMinionBragging: Option<string>,
      currentUser: Option<ApplicationUser>)
      requires IsComplete(d)
    {
      && CopiesFields(v, d)
      && SetsViewerDependentFields(v, d, urlForMinionBragging, currentUser)
      && SetsAverages(v, d.playerStats.value)
      && SetsNemesisData(v, d.currentNemesis)
      && SetsLists(v, d)
    }

    /** IsBuiltFrom leaves no property open: two view models built from the
        same inputs hold the same values. */
    lemma BuiltViewModelIsDetermined(
      v1: PlayerDetailsViewModelState<G, M, C, S>,
      v2: PlayerDetailsViewModelState<G, M, C, S>,
      d: PlayerDetails<CG, S>,
      urlForMinionBragging: Option<string>,
      currentUser: Option<ApplicationUser>)
      requires IsComplete(d)
      requires IsBuiltFrom(v1, d, urlForMinionBragging, currentUser)
      requires IsBuiltFrom(v2, d, urlForMinionBragging, currentUser)
      ensures v1 == v2
    {
    }

    /** Only a logged-in viewer can edit, and only the viewed player, who
        is then registered, gets the bragging link. */
    lemma ViewerDependentPrivileges(
      v: PlayerDetailsViewModelState<G, M, C, S>,
      d: PlayerDetails<CG, S>,
      urlForMinionBragging: Option<string>,
      currentUser: Option<ApplicationUser>)
      requires IsComplete(d)
      requires IsBuiltFrom(v, d, urlForMinionBragging, currentUser)
      ensures currentUser.None? ==> !v.userCanEdit && v.minionBraggingTweetUrl == None
      ensures v.minionBraggingTweetUrl.Some? ==> v.playerRegistered && currentUser.Some?
      ensures v.userCanEdit ==> currentUser.Some?
    {
    }

    /** A player without games shows zero for both per-game averages. */
    lemma NoGamesMeansZeroAverages(
      v: PlayerDetailsViewModelState<G, M, C, S>,
      d: PlayerDetails<CG, S>,
      urlForMinionBragging: Option<string>,
      currentUser: Option<ApplicationUser>)
      requires IsComplete(d) && d.playerStats.value.totalGames == 0
      requires IsBuiltFrom(v, d, urlForMinionBragging, currentUser)
      ensures v.averagePointsPerGame == 0.0 && v.averagePointsPerPlayer == 0.0
    {
    }

    /** Each mapped list has one view model per source item, in the same
        order. */
    lemma ListsAreMappedInOrder(
      v: PlayerDetailsViewModelState<G, M, C, S>,
      d: PlayerDetails<CG, S>,
      urlForMinionBragging: Option<string>,
      currentUser: Option<ApplicationUser>)
      requires IsComplete(d)
      requires IsBuiltFrom(v, d, urlForMinionBragging, currentUser)
      ensures v.playerGameResultDetails.Some? && v.minions.Some? && v.championedGames.Some?
      ensures |v.playerGameResultDetails.value| == |d.playerGameResults.value|
      ensures forall i :: 0 <= i < |d.playerGameResults.value| ==>
                v.playerGameResultDetails.value[i] == gameResultViewModelBuilder(d.playerGameResults.value[i])
      ensures |v.minions.value| == |d.minions.value|
      ensures forall i :: 0 <= i < |d.minions.value| ==>
                v.minions.value[i] == minionViewModelBuilder(d.minions.value[i])
      ensures |v.championedGames.value| == |d.championedGames.value|
      ensures forall i :: 0 <= i < |d.championedGames.value| ==>
                v.championedGames.value[i] == championViewModelBuilder(d.championedGames.value[i])
    {
    }

    /** Validates the aggregate, then builds a new view model from it. */
    method Build(
      playerDetails: Option<PlayerDetails<CG, S>>,
      urlForMinionBragging: Option<string>,
      currentUser: Option<ApplicationUser>)
      returns (r: Result<PlayerDetailsViewModel<G, M, C, S>, Exception>)
      ensures r.Err? <==> Validate(playerDetails).Fail?
      ensures r.Err? ==> r.error == Validate(playerDetails).error
      ensures r.Ok? ==>
        && playerDetails.Some? && IsComplete(playerDetails.value)
        && fresh(r.value)
        && IsBuiltFrom(r.value.State(), playerDetails.value, urlForMinionBragging, currentUser)
    {
      var validation := Validate(playerDetails);
      if validation.Fail? {
        return Err(validation.error);
      }
      var details := playerDetails.value;

      var stats := details.playerStats.value;

      var vm := new PlayerDetailsViewModel<G, M, C, S>();
      vm.SetPlayerId(details.id);
      vm.SetPlayerName(details.name);
      vm.SetPlayerRegistered(details.applicationUserId != None);
      vm.SetActive(details.active);
      vm.SetGamingGroupName(details.gamingGroupName);
      vm.SetGamingGroupId(details.gamingGroupId);
      vm.SetTotalGamesPlayed(stats.totalGames);
      vm.SetTotalPoints(stats.totalPoints);

      SetViewerDependentValuesAndAverages(details, urlForMinionBragging, currentUser, vm);
      SetGameResultsNemesisAndLists(details, vm);
      return Ok(vm);
    }

    /** The part of Build between the copies and the lists: the bragging
        link, the three averages and the edit flag, set in this order. */
    static method SetViewerDependentValuesAndAverages(
      playerDetails: PlayerDetails<CG, S>,
      urlForMinionBragging: Option<string>,
      currentUser: Option<ApplicationUser>,
      vm: PlayerDetailsViewModel<G, M, C, S>)
      requires playerDetails.playerStats.Some?
      modifies vm
      ensures
        var stats := playerDetails.playerStats.value;
        vm.State() == old(vm.State()).(
          minionBraggingTweetUrl :=
            if IsViewedPlayer(playerDetails, currentUser) then urlForMinionBragging
            else old(vm.minionBraggingTweetUrl),
          averagePointsPerGame := AveragePointsPerGame(stats),
          averagePlayersPerGame := stats.averagePlayersPerGame,
          averagePointsPerPlayer := AveragePointsPerPlayer(AveragePointsPerGame(stats), stats.averagePlayersPerGame),
          userCanEdit := UserCanEdit(playerDetails, currentUser))
    {
      SetTwitterBraggingUrlIfThePlayerIsTheCurrentlyLoggedInUser(playerDetails, urlForMinionBragging, currentUser, vm);

      SetAveragePointsPerGame(playerDetails, vm);
      vm.SetAveragePlayersPerGame(playerDetails.playerStats.value.averagePlayersPerGame);
      SetAveragePointsPerPlayer(playerDetails, vm);
      SetUserCanEditFlag(playerDetails, currentUser, vm);
    }

    /** The last part of Build: the game result view models, the nemesis
        block, the minions, the game summaries and the championed games,
        set in this order. */
    method SetGameResultsNemesisAndLists(playerDetails: PlayerDetails<CG, S>, vm: PlayerDetailsViewModel<G, M, C, S>)
      requires IsComplete(playerDetails)
      modifies vm
      ensures
        var nemesis := playerDetails.currentNemesis;
        var lists := old(vm.State()).(
          playerGameResultDetails := Some(Select(playerDetails.playerGameResults.value, gameResultViewModelBuilder)),
          minions := Some(Select(playerDetails.minions.value, minionViewModelBuilder)),
          playerGameSummaries := playerDetails.playerGameSummaries,
          championedGames := Some(Select(playerDetails.championedGames.value, championViewModelBuilder)));
        vm.State() ==
          if nemesis.NullNemesis? then lists.(hasNemesis := false)
          else lists.(
            hasNemesis := true,
            nemesisPlayerId := nemesis.nemesisPlayerId,
            nemesisName := nemesis.nemesisPlayer.name,
            numberOfGamesLostVersusNemesis := nemesis.numberOfGamesLost,
            lossPercentageVersusPlayer := nemesis.lossPercentage)
    {
      PopulatePlayerGameSummaries(playerDetails, vm);

      PopulateNemesisData(playerDetails.currentNemesis, vm);

      vm.SetMinions(Some(Select(playerDetails.minions.value, minionViewModelBuilder)));

      vm.SetPlayerGameSummaries(playerDetails.playerGameSummaries);

      SetChampionedGames(playerDetails, vm);
    }

    static method SetTwitterBraggingUrlIfThePlayerIsTheCurrentlyLoggedInUser(
      playerDetails: PlayerDetails<CG, S>,
      urlForMinionBragging: Option<string>,
      currentUser: Option<ApplicationUser>,
      vm: PlayerDetailsViewModel<G, M, C, S>)
      modifies vm
      ensures vm.State() == old(vm.State()).(minionBraggingTweetUrl :=
        if IsViewedPlayer(playerDetails, currentUser) then urlForMinionBragging
        else old(vm.minionBraggingTweetUrl))
    {
      if currentUser.Some? && Some(currentUser.value.id) == playerDetails.applicationUserId {
        vm.minionBraggingTweetUrl := urlForMinionBragging;
      }
    }

    static method SetAveragePointsPerGame(playerDetails: PlayerDetails<CG, S>, vm: PlayerDetailsViewModel<G, M, C, S>)
      requires playerDetails.playerStats.Some?
      modifies vm
      ensures vm.State() == old(vm.State()).(averagePointsPerGame :=
        AveragePointsPerGame(playerDetails.playerStats.value))
    {
      var stats := playerDetails.playerStats.value;
      if stats.totalGames == 0 {
        vm.averagePointsPerGame := 0.0;
      } else {
        vm.averagePointsPerGame := stats.totalPoints as real / stats.totalGames as real;
      }
    }

    /** Divides the view model's own points-per-game average, which Build
        has already set. */
    static method SetAveragePointsPerPlayer(playerDetails: PlayerDetails<CG, S>, vm: PlayerDetailsViewModel<G, M, C, S>)
      requires playerDetails.playerStats.Some?
      modifies vm
      ensures vm.State() == old(vm.State()).(averagePointsPerPlayer :=
        AveragePointsPerPlayer(old(vm.averagePointsPerGame), playerDetails.playerStats.value.averagePlayersPerGame))
    {
      var stats := playerDetails.playerStats.value;
      if stats.averagePlayersPerGame == 0.0 {
        vm.averagePointsPerPlayer := 0.0;
      } else {
        vm.averagePointsPerPlayer := vm.averagePointsPerGame / stats.averagePlayersPerGame;
      }
    }

    static method SetUserCanEditFlag(
      playerDetails: PlayerDetails<CG, S>,
      currentUser: Option<ApplicationUser>,
      vm: PlayerDetailsViewModel<G, M, C, S>)
      modifies vm
      ensures vm.State() == old(vm.State()).(userCanEdit := UserCanEdit(playerDetails, currentUser))
    {
      if currentUser.None? || playerDetails.gamingGroupId != currentUser.value.currentGamingGroupId {
        vm.userCanEdit := false;
      } else {
        vm.userCanEdit := true;
      }
    }

    /** The nemesis properties are written only when there is a nemesis. */
    static method PopulateNemesisData(nemesis: Nemesis, vm: PlayerDetailsViewModel<G, M, C, S>)
      modifies vm
      ensures nemesis.NullNemesis? ==> vm.State() == old(vm.State()).(hasNemesis := false)
      ensures !nemesis.NullNemesis? ==> vm.State() == old(vm.State()).(
        hasNemesis := true,
        nemesisPlayerId := nemesis.nemesisPlayerId,
        nemesisName := nemesis.nemesisPlayer.name,
        numberOfGamesLostVersusNemesis := nemesis.numberOfGamesLost,
        lossPercentageVersusPlayer := nemesis.lossPercentage)
    {
      vm.hasNemesis := !nemesis.NullNemesis?;
      if vm.hasNemesis {
        vm.nemesisPlayerId := nemesis.nemesisPlayerId;
        vm.nemesisName := nemesis.nemesisPlayer.name;
        vm.numberOfGamesLostVersusNemesis := nemesis.numberOfGamesLost;
        vm.lossPercentageVersusPlayer := nemesis.lossPercentage;
      }
    }

    method SetChampionedGames(playerDetails: PlayerDetails<CG, S>, vm: PlayerDetailsViewModel<G, M, C, S>)
      requires playerDetails.championedGames.Some?
      modifies vm
      ensures vm.State() == old(vm.State()).(championedGames :=
        Some(Select(playerDetails.championedGames.value, championViewModelBuilder)))
    {
      vm.championedGames := Some(Select(playerDetails.championedGames.value, championViewModelBuilder));
    }

    /** Starts a new list and appends one game result view model per game
        result, in order. */
    method PopulatePlayerGameSummaries(playerDetails: PlayerDetails<CG, S>, vm: PlayerDetailsViewModel<G, M, C, S>)
      requires playerDetails.playerGameResults.Some?
      modifies vm
      ensures vm.State() == old(vm.State()).(playerGameResultDetails :=
        Some(Select(playerDetails.playerGameResults.value, gameResultViewModelBuilder)))
    {
      var results := playerDetails.playerGameResults.value;
      vm.playerGameResultDetails := Some([]);
      for i := 0 to |results|
        invariant vm.State() == old(vm.State()).(playerGameResultDetails :=
          Some(Select(results[..i], gameResultViewModelBuilder)))
      {
        assert results[..i + 1] == results[..i] + [results[i]];
        SelectAppendOne(results[..i], results[i], gameResultViewModelBuilder);
        var gameResultViewModel := gameResultViewModelBuilder(results[i]);
        vm.playerGameResultDetails := Some(vm.playerGameResultDetails.value + [gameResultViewModel]);
      }
      assert results[..|results|] == results;
    }
  }
}
