/** The statistics object, whose sampling is tied to `StatisticsSpec.Sampled`. */
module Statistics {
  import opened StatisticsSpec

  const ZERO := Counters(0, 0, 0, 0, 0, 0, 0, 0, 0)

  class Statistics {
    const maxPeriod: int
    const pushInterval: int
    var counters: Counters
    var dataPoints: seq<Point>

    constructor (maxPeriod: int, pushInterval: int)
      ensures this.maxPeriod == maxPeriod && this.pushInterval == pushInterval
      ensures counters == ZERO && dataPoints == []
    {
      this.maxPeriod := maxPeriod;
      this.pushInterval := pushInterval;
      counters := ZERO;
      dataPoints := [];
    }

    /** Drops points from the front until the first one is within the period; the newest one always is. */
    method Prune(now: int)
      requires 0 <= maxPeriod && dataPoints != [] && dataPoints[|dataPoints| - 1].timestamp == now
      modifies this`dataPoints
      ensures dataPoints != [] && dataPoints[|dataPoints| - 1].timestamp == now
      ensures dataPoints == Pruned(old(dataPoints), now, maxPeriod)
      ensures forall c :: Refreshed(dataPoints, c) == Pruned(Refreshed(old(dataPoints), c), now, maxPeriod)
    {
      var diff := now - dataPoints[0].timestamp;
      while diff > maxPeriod
        invariant dataPoints != [] && dataPoints[|dataPoints| - 1].timestamp == now
        invariant diff == now - dataPoints[0].timestamp
        invariant Pruned(dataPoints, now, maxPeriod) == Pruned(old(dataPoints), now, maxPeriod)
        invariant forall c ::
          Pruned(Refreshed(dataPoints, c), now, maxPeriod) == Pruned(Refreshed(old(dataPoints), c), now, maxPeriod)
        decreases |dataPoints|
      {
        forall c ensures Refreshed(dataPoints, c)[1..] == Refreshed(dataPoints[1..], c) {
        }
        dataPoints := dataPoints[1..];
        diff := now - dataPoints[0].timestamp;
      }
    }

    /** A new point is pushed blank, the old ones are pruned, and then the last point takes the counters. */
    method TakeSample(now: int)
      requires 0 <= maxPeriod
      modifies this`dataPoints
      ensures dataPoints == Sampled(old(dataPoints), maxPeriod, pushInterval, Reading(now, counters))
      ensures
        var before := old(dataPoints);
        if before == [] || pushInterval <= now - before[|before| - 1].timestamp then
          exists k: nat :: PushedBehind(before, dataPoints, maxPeriod, Reading(now, counters), k)
        else OnlyRefreshed(before, dataPoints, counters)
    {
      PushesExactlyIfDue(dataPoints, maxPeriod, pushInterval, Reading(now, counters));
      var refresh := false;
      if |dataPoints| > 0 {
        refresh := now - dataPoints[|dataPoints| - 1].timestamp < pushInterval;
      }
      if !refresh {
        dataPoints := dataPoints + [Point(now, ZERO)];
        assert Refreshed(dataPoints, counters) == old(dataPoints) + [Point(now, counters)];
        Prune(now);
      }
      Fill();
    }

    /** The last point takes the counters. */
    method Fill()
      requires dataPoints != []
      modifies this`dataPoints
      ensures dataPoints == Refreshed(old(dataPoints), counters)
    {
      var last := |dataPoints| - 1;
      dataPoints := dataPoints[last := dataPoints[last].(counters := counters)];
    }
  }
}
