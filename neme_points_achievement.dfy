/** The NemePoints achievement: a player earns it by accumulating NemePoints
    over all of their recorded game results. The data context's table of
    PlayerGameResult rows is a sequence; the evaluation reads it and changes
    nothing. BaseAchievement.GetLevelAwarded is not part of this model: it is
    the parameter `getLevelAwarded`, about which nothing is assumed beyond
    being a function that cannot throw. */
module Achievements {
  import opened Wrappers
  import opened DotNet
  import opened Models
  import opened AchievementModels

  const Id: AchievementId := NemePoints
  const Group: AchievementGroup := NotApply
  const Name: string := "NemePoints collector"
  const Description: string := "Play games to earn NemePoints to unlock this achievement."
  const IconClass: string := "fa fa-eye"

  const LevelThresholds: map<AchievementLevel, int> :=
    map[Bronze := 2500, Silver := 25000, Gold := 100000]

  /** The reference meaning of a player's progress: the sum of TotalPoints
      over exactly the results whose PlayerId is `playerId`. */
  function PointsFor(results: seq<PlayerGameResult>, playerId: int): int
  {
    if results == [] then 0
    else
      (if results[0].playerId == playerId then results[0].totalPoints else 0)
      + PointsFor(results[1..], playerId)
  }

  /** The filter of the query: `pgr => pgr.PlayerId == playerId`. */
  function BelongsTo(playerId: int): (p: PlayerGameResult -> bool)
    ensures forall pgr :: p(pgr) <==> pgr.playerId == playerId
  {
    (pgr: PlayerGameResult) => pgr.playerId == playerId
  }

  /** The projection of the query: `pg => pg.TotalPoints`. */
  function TotalPointsOf(pg: PlayerGameResult): int
  {
    pg.totalPoints
  }

  /** The query as written: Where, Select, DefaultIfEmpty(0), Sum. */
  function TotalPoints(results: seq<PlayerGameResult>, playerId: int): (total: int)
    ensures total == PointsFor(results, playerId)
  {
    QueryMatchesPointsFor(results, playerId);
    SumDefaultIfEmptyZero(Select(Where(results, BelongsTo(playerId)), TotalPointsOf));
    Sum(DefaultIfEmpty(Select(Where(results, BelongsTo(playerId)), TotalPointsOf), 0))
  }

  lemma {:induction false} QueryMatchesPointsFor(results: seq<PlayerGameResult>, playerId: int)
    ensures Sum(Select(Where(results, BelongsTo(playerId)), TotalPointsOf)) == PointsFor(results, playerId)
  {
    if results != [] {
      QueryMatchesPointsFor(results[1..], playerId);
    }
  }

  /** IsAwardedForThisPlayer: the progress is the player's total, and a level
      is asked of GetLevelAwarded only once the Bronze threshold is reached. */
  function IsAwardedForThisPlayer(
    results: seq<PlayerGameResult>,
    playerId: int,
    getLevelAwarded: int -> Option<AchievementLevel>): (r: AchievementAwarded)
    ensures r.achievementId == NemePoints
    ensures r.playerProgress == PointsFor(results, playerId)
    ensures r.playerProgress < LevelThresholds[Bronze] ==> r.levelAwarded == None
    ensures r.playerProgress >= LevelThresholds[Bronze] ==>
              r.levelAwarded == getLevelAwarded(r.playerProgress)
  {
    var totalPoints := TotalPoints(results, playerId);
    var result := AchievementAwarded(Id, totalPoints, None);
    if result.playerProgress < LevelThresholds[Bronze] then result
    else result.(levelAwarded := getLevelAwarded(totalPoints))
  }

  lemma ThresholdsAscending()
    ensures LevelThresholds.Keys == {Bronze, Silver, Gold}
    ensures LevelThresholds[Bronze] == 2500
    ensures LevelThresholds[Bronze] < LevelThresholds[Silver] < LevelThresholds[Gold]
  {
  }

  lemma {:induction false} PointsForAppend(a: seq<PlayerGameResult>, b: seq<PlayerGameResult>, playerId: int)
    ensures PointsFor(a + b, playerId) == PointsFor(a, playerId) + PointsFor(b, playerId)
  {
    if a == [] {
      assert a + b == b;
    } else {
      assert (a + b)[1..] == a[1..] + b;
      PointsForAppend(a[1..], b, playerId);
    }
  }

  /** A result recorded for another player, wherever it stands, changes
      neither the progress nor the level. */
  lemma OtherPlayersResultsHaveNoEffect(
    before: seq<PlayerGameResult>, other: PlayerGameResult, after: seq<PlayerGameResult>,
    playerId: int, getLevelAwarded: int -> Option<AchievementLevel>)
    requires other.playerId != playerId
    ensures IsAwardedForThisPlayer(before + [other] + after, playerId, getLevelAwarded)
         == IsAwardedForThisPlayer(before + after, playerId, getLevelAwarded)
  {
    PointsForAppend(before + [other], after, playerId);
    PointsForAppend(before, [other], playerId);
    PointsForAppend(before, after, playerId);
  }

  /** With no result for the player the progress is 0 and nothing is awarded. */
  lemma {:induction false} NoResultsMeansNoProgress(
    results: seq<PlayerGameResult>, playerId: int, getLevelAwarded: int -> Option<AchievementLevel>)
    requires forall i :: 0 <= i < |results| ==> results[i].playerId != playerId
    ensures IsAwardedForThisPlayer(results, playerId, getLevelAwarded)
         == AchievementAwarded(NemePoints, 0, None)
  {
    NoResultsSumToZero(results, playerId);
  }

  lemma {:induction false} NoResultsSumToZero(results: seq<PlayerGameResult>, playerId: int)
    requires forall i :: 0 <= i < |results| ==> results[i].playerId != playerId
    ensures PointsFor(results, playerId) == 0
  {
    if results != [] {
      NoResultsSumToZero(results[1..], playerId);
    }
  }

  /** The evaluation depends only on the player's own results. */
  lemma AwardDependsOnlyOnOwnResults(
    results: seq<PlayerGameResult>, playerId: int, getLevelAwarded: int -> Option<AchievementLevel>)
    ensures IsAwardedForThisPlayer(results, playerId, getLevelAwarded)
         == IsAwardedForThisPlayer(Where(results, BelongsTo(playerId)), playerId, getLevelAwarded)
  {
    OwnResultsKeepPoints(results, playerId);
  }

  lemma {:induction false} OwnResultsKeepPoints(results: seq<PlayerGameResult>, playerId: int)
    ensures PointsFor(Where(results, BelongsTo(playerId)), playerId) == PointsFor(results, playerId)
  {
    if results != [] {
      OwnResultsKeepPoints(results[1..], playerId);
    }
  }

  /** The database returns the rows in no guaranteed order; the evaluation
      does not depend on it. */
  lemma {:induction false} ProgressIgnoresOrder(a: seq<PlayerGameResult>, b: seq<PlayerGameResult>, playerId: int)
    requires multiset(a) == multiset(b)
    ensures PointsFor(a, playerId) == PointsFor(b, playerId)
    decreases |a|
  {
    if a != [] {
      assert a[0] in multiset(b);
      var k :| 0 <= k < |b| && b[k] == a[0];
      var rest := b[..k] + b[k + 1..];
      PointsForWithout(b, k, playerId);
      RemainingRowsAgree(a, b, k);
      ProgressIgnoresOrder(a[1..], rest, playerId);
    }
  }

  /** Taking row k out of a table takes exactly its contribution out of the total. */
  lemma PointsForWithout(b: seq<PlayerGameResult>, k: int, playerId: int)
    requires 0 <= k < |b|
    ensures PointsFor(b, playerId)
         == PointsFor([b[k]], playerId) + PointsFor(b[..k] + b[k + 1..], playerId)
  {
    assert b == b[..k] + [b[k]] + b[k + 1..];
    PointsForAppend(b[..k] + [b[k]], b[k + 1..], playerId);
    PointsForAppend(b[..k], [b[k]], playerId);
    PointsForAppend(b[..k], b[k + 1..], playerId);
  }

  /** Two tables with the same rows, less one shared row, still hold the same rows. */
  lemma RemainingRowsAgree(a: seq<PlayerGameResult>, b: seq<PlayerGameResult>, k: int)
    requires a != [] && 0 <= k < |b| && b[k] == a[0]
    requires multiset(a) == multiset(b)
    ensures multiset(a[1..]) == multiset(b[..k] + b[k + 1..])
  {
    assert a == [a[0]] + a[1..];
    assert b == b[..k] + [b[k]] + b[k + 1..];
    assert multiset(a[1..]) == multiset(a) - multiset{a[0]};
    assert multiset(b[..k] + b[k + 1..]) == multiset(b) - multiset{b[k]};
  }

  /** Recording one more result with non-negative points never lowers the
      progress, so a player who reached Bronze stays there. */
  lemma ProgressIsMonotone(
    results: seq<PlayerGameResult>, next: PlayerGameResult, playerId: int,
    getLevelAwarded: int -> Option<AchievementLevel>)
    requires next.totalPoints >= 0
    ensures IsAwardedForThisPlayer(results + [next], playerId, getLevelAwarded).playerProgress
         >= IsAwardedForThisPlayer(results, playerId, getLevelAwarded).playerProgress
    ensures IsAwardedForThisPlayer(results, playerId, getLevelAwarded).playerProgress >= LevelThresholds[Bronze] ==>
              IsAwardedForThisPlayer(results + [next], playerId, getLevelAwarded).playerProgress >= LevelThresholds[Bronze]
  {
    PointsForAppend(results, [next], playerId);
  }
}
