/** Shot and streak statistics of the basketball game (StatisticsManager).
    Float fields are modelled as reals; the engine clock (Time.time) is an
    argument of IncrementShots. */
module Statistics {

  /** The five counters and times the manager keeps. */
  datatype Stats = Stats(
    currentStreak: int,
    highestStreak: int,
    totalShots: int,
    totalShotTime: real,
    lastShotTime: real)

  /** What ResetStatistics (and the field initialisers) leave behind. */
  const Cleared := Stats(0, 0, 0, 0.0, 0.0)

  function Max(a: int, b: int): int
  {
    if a < b then b else a
  }

  /** The statistics after UpdateStreak(streak). */
  function WithStreak(s: Stats, streak: int): (r: Stats)
    ensures r.currentStreak == streak
    ensures r.highestStreak == Max(s.highestStreak, streak)
    ensures r.highestStreak >= r.currentStreak && r.highestStreak >= s.highestStreak
    ensures r.(currentStreak := s.currentStreak, highestStreak := s.highestStreak) == s
  {
    var highest := if streak > s.highestStreak then streak else s.highestStreak;
    s.(currentStreak := streak, highestStreak := highest)
  }

  /** The statistics after IncrementShots at engine time `now`: the interval
      since the previous shot is added only when a previous shot time was
      recorded (lastShotTime > 0). */
  function WithShot(s: Stats, now: real): (r: Stats)
    ensures r.totalShots == s.totalShots + 1
    ensures r.lastShotTime == now
    ensures s.lastShotTime <= 0.0 ==> r.totalShotTime == s.totalShotTime
    ensures s.lastShotTime > 0.0 ==> r.totalShotTime == s.totalShotTime + (now - s.lastShotTime)
    ensures r.currentStreak == s.currentStreak && r.highestStreak == s.highestStreak
  {
    var interval := if s.lastShotTime > 0.0 then now - s.lastShotTime else 0.0;
    s.(totalShots := s.totalShots + 1, totalShotTime := s.totalShotTime + interval, lastShotTime := now)
  }

  /** The average time between shots shown by UpdateDisplays. */
  function AverageShotTime(totalShots: int, totalShotTime: real): (avg: real)
    ensures totalShots <= 1 ==> avg == 0.0
    ensures totalShots > 1 ==> avg * (totalShots - 1) as real == totalShotTime
  {
    if totalShots > 1 then totalShotTime / (totalShots - 1) as real else 0.0
  }

  /** One public call on the manager. */
  datatype StatsCall = ResetStatistics | UpdateStreak(streak: int) | IncrementShots(now: real)

  function Apply(s: Stats, c: StatsCall): Stats
  {
    match c
    case ResetStatistics => Cleared
    case UpdateStreak(streak) => WithStreak(s, streak)
    case IncrementShots(now) => WithShot(s, now)
  }

  /** The statistics after the calls, in order, starting from a reset. */
  function Replay(calls: seq<StatsCall>): Stats
  {
    if calls == [] then Cleared else Apply(Replay(calls[..|calls| - 1]), calls[|calls| - 1])
  }

  /** After a reset and any calls, the highest streak is at least the
      current one and never negative. */
  lemma {:induction false} HighestBoundsCurrent(calls: seq<StatsCall>)
    ensures Replay(calls).highestStreak >= Replay(calls).currentStreak
    ensures Replay(calls).highestStreak >= 0
  {
    if calls != [] {
      HighestBoundsCurrent(calls[..|calls| - 1]);
    }
  }

  /** The highest streak never decreases except through ResetStatistics. */
  lemma {:induction false} HighestNeverDecreases(calls: seq<StatsCall>, i: nat)
    requires i <= |calls|
    requires forall k :: i <= k < |calls| ==> !calls[k].ResetStatistics?
    ensures Replay(calls[..i]).highestStreak <= Replay(calls).highestStreak
  {
    if i < |calls| {
      var prefix := calls[..|calls| - 1];
      assert prefix[..i] == calls[..i];
      HighestNeverDecreases(prefix, i);
    } else {
      assert calls[..i] == calls;
    }
  }

  /** Without a reset, every streak reported is bounded by the highest one,
      and the highest one is 0 or one of the reported streaks. */
  lemma {:induction false} HighestIsMaximum(calls: seq<StatsCall>)
    requires forall k :: 0 <= k < |calls| ==> !calls[k].ResetStatistics?
    ensures forall k :: 0 <= k < |calls| && calls[k].UpdateStreak? ==>
      calls[k].streak <= Replay(calls).highestStreak
    ensures Replay(calls).highestStreak == 0 ||
      exists k :: 0 <= k < |calls| && calls[k] == UpdateStreak(Replay(calls).highestStreak)
  {
    if calls != [] {
      var prefix := calls[..|calls| - 1];
      HighestIsMaximum(prefix);
      var h := Replay(prefix).highestStreak;
      if h != 0 && Replay(calls).highestStreak == h {
        var k :| 0 <= k < |prefix| && prefix[k] == UpdateStreak(h);
        assert calls[k] == UpdateStreak(h);
      }
    }
  }

  function CountShots(calls: seq<StatsCall>): nat
  {
    if calls == [] then 0
    else CountShots(calls[..|calls| - 1]) + (if calls[|calls| - 1].IncrementShots? then 1 else 0)
  }

  /** Without a reset, the shot counter is the number of IncrementShots calls. */
  lemma {:induction false} ShotsCounted(calls: seq<StatsCall>)
    requires forall k :: 0 <= k < |calls| ==> !calls[k].ResetStatistics?
    ensures Replay(calls).totalShots == CountShots(calls)
  {
    if calls != [] {
      ShotsCounted(calls[..|calls| - 1]);
    }
  }

  /** Shots at the given engine times, in order, after a reset. */
  function Shots(times: seq<real>): Stats
  {
    if times == [] then Cleared else WithShot(Shots(times[..|times| - 1]), times[|times| - 1])
  }

  /** When every shot happens at a positive engine time, the accumulated
      intervals add up to the time between the first and the last shot, so
      the average is that span divided by the number of intervals. */
  lemma {:induction false} IntervalsTelescope(times: seq<real>)
    requires |times| > 0
    requires forall k :: 0 <= k < |times| ==> times[k] > 0.0
    ensures Shots(times).totalShots == |times|
    ensures Shots(times).lastShotTime == times[|times| - 1]
    ensures Shots(times).totalShotTime == times[|times| - 1] - times[0]
    ensures |times| > 1 ==>
      AverageShotTime(Shots(times).totalShots, Shots(times).totalShotTime)
        == (times[|times| - 1] - times[0]) / (|times| - 1) as real
  {
    if |times| > 1 {
      var prefix := times[..|times| - 1];
      IntervalsTelescope(prefix);
      assert prefix[0] == times[0];
    }
  }

  class StatisticsManager {
    var currentStreak: int
    var highestStreak: int
    var totalShots: int
    var totalShotTime: real
    var lastShotTime: real

    function Snapshot(): Stats
      reads this
    {
      Stats(currentStreak, highestStreak, totalShots, totalShotTime, lastShotTime)
    }

    /** The streak invariant the manager keeps. */
    predicate Valid()
      reads this
    {
      highestStreak >= currentStreak && highestStreak >= 0 && totalShots >= 0
    }

    constructor ()
      ensures Snapshot() == Cleared && Valid()
    {
      currentStreak, highestStreak, totalShots := 0, 0, 0;
      totalShotTime, lastShotTime := 0.0, 0.0;
    }

    method ResetStatistics()
      modifies this
      ensures Snapshot() == Cleared && Valid()
    {
      currentStreak := 0;
      highestStreak := 0;
      totalShots := 0;
      totalShotTime := 0.0;
      lastShotTime := 0.0;
    }

    method UpdateStreak(streak: int)
      requires Valid()
      modifies this
      ensures Snapshot() == WithStreak(old(Snapshot()), streak) && Valid()
      ensures highestStreak >= old(highestStreak)
    {
      currentStreak := streak;
      if currentStreak > highestStreak {
        highestStreak := currentStreak;
      }
    }

    method IncrementShots(now: real)
      requires Valid()
      modifies this
      ensures Snapshot() == WithShot(old(Snapshot()), now) && Valid()
    {
      totalShots := totalShots + 1;
      var currentTime := now;
      if lastShotTime > 0.0 {
        var timeSinceLastShot := currentTime - lastShotTime;
        totalShotTime := totalShotTime + timeSinceLastShot;
      }
      lastShotTime := currentTime;
    }
  }
}
