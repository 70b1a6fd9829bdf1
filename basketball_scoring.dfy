/** The basketball scoring pipeline (BasketballScoringSystem): zone events set
    the value of the next basket, and the hoop's collider events award it once
    the ball has left the score collider and then the cheat collider. */
module Scoring {
  import opened Statistics

  const ScoreCollider := "score_collider"
  const CheatCollider := "cheat_collider"

  /** The value of a basket before any zone has been entered (the largest zone). */
  const DefaultZone := 3

  /** The scoring fields of the system. */
  datatype ScoringState = ScoringState(score: int, lastZone: int, scoreExited: bool)

  const InitialScoring := ScoringState(0, DefaultZone, false)

  /** An event delivered to the system. A hoop event also carries the answer
      the game logic manager would give at that moment: `scoringEnabled` is
      false exactly when a manager is assigned and reports scoring disabled. */
  datatype ScoringEvent =
    | ZoneEntered(zone: int)
    | BallHoop(colliderName: string, isExiting: bool, scoringEnabled: bool)

  predicate IsScoreEntry(e: ScoringEvent)
  {
    e.BallHoop? && e.colliderName == ScoreCollider && !e.isExiting
  }

  predicate IsScoreExit(e: ScoringEvent)
  {
    e.BallHoop? && e.colliderName == ScoreCollider && e.isExiting
  }

  predicate IsCheatExit(e: ScoringEvent)
  {
    e.BallHoop? && e.colliderName == CheatCollider && e.isExiting
  }

  /** The hoop events that decide the exited flag; every other event leaves it alone. */
  predicate SetsExitFlag(e: ScoringEvent)
  {
    IsScoreEntry(e) || IsScoreExit(e) || IsCheatExit(e)
  }

  /** A valid scoring sequence completes and the manager lets it count. */
  predicate Awards(s: ScoringState, e: ScoringEvent)
  {
    IsCheatExit(e) && s.scoreExited && e.scoringEnabled
  }

  /** HandlePlayerEnterZone and HandleBallHoopEvent on the scoring fields. */
  function Step(s: ScoringState, e: ScoringEvent): (r: ScoringState)
    ensures r.score == (if Awards(s, e) then s.score + s.lastZone else s.score)
    ensures r.lastZone == (if e.ZoneEntered? then e.zone else s.lastZone)
    ensures r.scoreExited == (if SetsExitFlag(e) then IsScoreExit(e) else s.scoreExited)
  {
    match e
    case ZoneEntered(zone) => s.(lastZone := zone)
    case BallHoop(name, isExiting, enabled) =>
      if name == ScoreCollider && !isExiting then s.(scoreExited := false)
      else if name == ScoreCollider && isExiting then s.(scoreExited := true)
      else if name == CheatCollider && isExiting && s.scoreExited then
        (if enabled then s.(score := s.score + s.lastZone) else s).(scoreExited := false)
      else s
  }

  /** The scoring fields after the events, in order. */
  function Run(s: ScoringState, events: seq<ScoringEvent>): ScoringState
  {
    if events == [] then s else Step(Run(s, events[..|events| - 1]), events[|events| - 1])
  }

  /** No event after position j touches the exited flag. */
  ghost predicate QuietAfter(events: seq<ScoringEvent>, j: int)
  {
    forall k :: 0 <= k < |events| && j < k ==> !SetsExitFlag(events[k])
  }

  /** The ball is known to have left the score collider and has neither
      re-entered it nor completed a sequence since. */
  ghost predicate ExitPending(s: ScoringState, events: seq<ScoringEvent>)
  {
    (exists j :: 0 <= j < |events| && IsScoreExit(events[j]) && QuietAfter(events, j))
    || (s.scoreExited && QuietAfter(events, -1))
  }

  /** The exited flag is set exactly when the last flag-deciding event was a
      score-collider exit (or there was none and it was set before). */
  lemma {:induction false} ExitFlagTracksHoopEvents(s: ScoringState, events: seq<ScoringEvent>)
    ensures Run(s, events).scoreExited <==> ExitPending(s, events)
  {
    if events != [] {
      var n := |events| - 1;
      var prefix := events[..n];
      var e := events[n];
      ExitFlagTracksHoopEvents(s, prefix);
      if SetsExitFlag(e) {
        if IsScoreExit(e) {
          assert QuietAfter(events, n);
        } else {
          assert SetsExitFlag(events[n]);
        }
      } else {
        if ExitPending(s, prefix) {
          if s.scoreExited && QuietAfter(prefix, -1) {
            assert forall k :: -1 < k < |events| ==> k == n || events[k] == prefix[k];
          } else {
            var j :| 0 <= j < |prefix| && IsScoreExit(prefix[j]) && QuietAfter(prefix, j);
            assert events[j] == prefix[j];
            assert forall k :: j < k < |events| ==> k == n || events[k] == prefix[k];
          }
        }
        if ExitPending(s, events) {
          if s.scoreExited && QuietAfter(events, -1) {
            assert forall k :: -1 < k < |prefix| ==> prefix[k] == events[k];
          } else {
            var j :| 0 <= j < |events| && IsScoreExit(events[j]) && QuietAfter(events, j);
            assert j != n;
            assert prefix[j] == events[j];
            assert forall k :: j < k < |prefix| ==> prefix[k] == events[k];
          }
        }
      }
    }
  }

  /** Points are awarded at event i exactly when it is a cheat-collider exit
      that scoring lets count, and it follows a score-collider exit with no
      score-collider entry and no completed sequence in between. */
  lemma AwardOnlyAfterScoreThenCheatExit(s: ScoringState, events: seq<ScoringEvent>, i: nat)
    requires i < |events|
    ensures Awards(Run(s, events[..i]), events[i]) <==>
      IsCheatExit(events[i]) && events[i].scoringEnabled && ExitPending(s, events[..i])
  {
    ExitFlagTracksHoopEvents(s, events[..i]);
  }

  /** Event j is a zone event and no zone event follows it. */
  ghost predicate LastZoneEvent(events: seq<ScoringEvent>, j: int)
    requires 0 <= j < |events|
  {
    events[j].ZoneEntered? && forall k :: j < k < |events| ==> !events[k].ZoneEntered?
  }

  /** The value of the next basket is the value of the last zone entered. */
  lemma {:induction false} AwardValueIsLastZone(s: ScoringState, events: seq<ScoringEvent>, j: int)
    requires 0 <= j < |events| && LastZoneEvent(events, j)
    ensures Run(s, events).lastZone == events[j].zone
  {
    var n := |events| - 1;
    if j < n {
      var prefix := events[..n];
      assert prefix[j] == events[j];
      assert forall k :: j < k < n ==> prefix[k] == events[k];
      AwardValueIsLastZone(s, prefix, j);
    }
  }

  /** With no zone entered, the value of the next basket is kept. */
  lemma {:induction false} AwardValueKeptWithoutZones(s: ScoringState, events: seq<ScoringEvent>)
    requires forall k :: 0 <= k < |events| ==> !events[k].ZoneEntered?
    ensures Run(s, events).lastZone == s.lastZone
  {
    if events != [] {
      var n := |events| - 1;
      var prefix := events[..n];
      assert forall k :: 0 <= k < n ==> prefix[k] == events[k];
      AwardValueKeptWithoutZones(s, prefix);
    }
  }

  /** When every zone is worth a non-negative amount, the score never goes down. */
  lemma {:induction false} ScoreNeverDecreases(s: ScoringState, events: seq<ScoringEvent>)
    requires s.lastZone >= 0
    requires forall k :: 0 <= k < |events| && events[k].ZoneEntered? ==> events[k].zone >= 0
    ensures Run(s, events).score >= s.score
    ensures Run(s, events).lastZone >= 0
  {
    if events != [] {
      var n := |events| - 1;
      ScoreNeverDecreases(s, events[..n]);
    }
  }

  /** Once a sequence is completed, a second cheat-collider exit awards
      nothing until the ball leaves the score collider again. */
  lemma SecondCheatExitAwardsNothing(s: ScoringState, first: ScoringEvent, second: ScoringEvent)
    requires IsCheatExit(first)
    ensures !Awards(Step(s, first), second)
  {
  }

  class BasketballScoringSystem {
    const statisticsManager: StatisticsManager?
    var currentScore: int
    var lastZoneEntered: int
    var scoreExited: bool
    /** The values broadcast through OnScoreUpdated, oldest first. */
    var scoreUpdates: seq<int>

    function State(): ScoringState
      reads this
    {
      ScoringState(currentScore, lastZoneEntered, scoreExited)
    }

    constructor (statisticsManager: StatisticsManager?)
      ensures this.statisticsManager == statisticsManager
      ensures State() == InitialScoring && scoreUpdates == []
    {
      this.statisticsManager := statisticsManager;
      currentScore := 0;
      lastZoneEntered := DefaultZone;
      scoreExited := false;
      scoreUpdates := [];
    }

    method HandlePlayerEnterZone(zoneScore: int)
      modifies this
      ensures State() == Step(old(State()), ZoneEntered(zoneScore))
      ensures scoreUpdates == old(scoreUpdates)
    {
      lastZoneEntered := zoneScore;
    }

    method HandleBallHoopEvent(colliderName: string, isExiting: bool, scoringEnabled: bool, now: real)
      requires statisticsManager != null ==> statisticsManager.Valid()
      modifies this, statisticsManager
      ensures State() == Step(old(State()), BallHoop(colliderName, isExiting, scoringEnabled))
      ensures Awards(old(State()), BallHoop(colliderName, isExiting, scoringEnabled)) ==>
        scoreUpdates == old(scoreUpdates) + [currentScore] &&
        (statisticsManager != null ==>
          statisticsManager.Snapshot() == WithShot(old(statisticsManager.Snapshot()), now) &&
          statisticsManager.Valid())
      ensures !Awards(old(State()), BallHoop(colliderName, isExiting, scoringEnabled)) ==>
        scoreUpdates == old(scoreUpdates) &&
        (statisticsManager != null ==> unchanged(statisticsManager))
    {
      if colliderName == ScoreCollider && !isExiting {
        scoreExited := false;
      } else if colliderName == ScoreCollider && isExiting {
        scoreExited := true;
      } else if colliderName == CheatCollider && isExiting && scoreExited {
        AwardPoints(scoringEnabled, now);
        scoreExited := false;
      }
    }

    /** Adds the value of the last zone entered, unless scoring is disabled,
        and counts the shot. */
    method AwardPoints(scoringEnabled: bool, now: real)
      requires statisticsManager != null ==> statisticsManager.Valid()
      modifies this, statisticsManager
      ensures lastZoneEntered == old(lastZoneEntered) && scoreExited == old(scoreExited)
      ensures scoringEnabled ==>
        currentScore == old(currentScore) + old(lastZoneEntered) &&
        scoreUpdates == old(scoreUpdates) + [currentScore] &&
        (statisticsManager != null ==>
          statisticsManager.Snapshot() == WithShot(old(statisticsManager.Snapshot()), now) &&
          statisticsManager.Valid())
      ensures !scoringEnabled ==>
        currentScore == old(currentScore) && scoreUpdates == old(scoreUpdates) &&
        (statisticsManager != null ==> unchanged(statisticsManager))
    {
      if !scoringEnabled {
        return;
      }
      AddScore(lastZoneEntered);
      if statisticsManager != null {
        statisticsManager.IncrementShots(now);
      }
    }

    method AddScore(points: int)
      modifies this
      ensures currentScore == old(currentScore) + points
      ensures lastZoneEntered == old(lastZoneEntered) && scoreExited == old(scoreExited)
      ensures scoreUpdates == old(scoreUpdates) + [currentScore]
    {
      currentScore := currentScore + points;
      scoreUpdates := scoreUpdates + [currentScore];
    }

    method ResetScore()
      modifies this
      ensures currentScore == 0
      ensures lastZoneEntered == old(lastZoneEntered) && scoreExited == old(scoreExited)
      ensures scoreUpdates == old(scoreUpdates) + [0]
    {
      currentScore := 0;
      scoreUpdates := scoreUpdates + [currentScore];
    }

    method GetCurrentScore() returns (score: int)
      ensures score == currentScore
    {
      return currentScore;
    }

    /** The public shot counter forwarder. */
    method IncrementShots(now: real)
      requires statisticsManager != null ==> statisticsManager.Valid()
      modifies statisticsManager
      ensures statisticsManager != null ==>
        statisticsManager.Snapshot() == WithShot(old(statisticsManager.Snapshot()), now) &&
        statisticsManager.Valid()
    {
      if statisticsManager != null {
        statisticsManager.IncrementShots(now);
      }
    }

    /** Resets the statistics of the game (the score itself is kept). */
    method ResetGame()
      modifies statisticsManager
      ensures statisticsManager != null ==>
        statisticsManager.Snapshot() == Cleared && statisticsManager.Valid()
    {
      if statisticsManager != null {
        statisticsManager.ResetStatistics();
      }
    }
  }
}
