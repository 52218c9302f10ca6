/** The sliding window of statistics points, as a function of all samples ever taken. */
module StatisticsSpec {
  datatype Counters = Counters(
    frontPageLoaded: nat, peerConnected: nat, peerDisconnected: nat, peerZombieDropped: nat,
    peerSendMessage: nat, peerShareFile: nat, roomCreated: nat, roomDeleted: nat, fileServedBytes: nat)

  datatype Point = Point(timestamp: int, counters: Counters)

  datatype Reading = Reading(now: int, counters: Counters)

  predicate AtMost(a: Counters, b: Counters) {
    && a.frontPageLoaded <= b.frontPageLoaded && a.peerConnected <= b.peerConnected
    && a.peerDisconnected <= b.peerDisconnected && a.peerZombieDropped <= b.peerZombieDropped
    && a.peerSendMessage <= b.peerSendMessage && a.peerShareFile <= b.peerShareFile
    && a.roomCreated <= b.roomCreated && a.roomDeleted <= b.roomDeleted
    && a.fileServedBytes <= b.fileServedBytes
  }

  /** A reading too close to the last point only refreshes that point. */
  predicate Refreshes(points: seq<Point>, pushInterval: int, now: int) {
    points != [] && now - points[|points| - 1].timestamp < pushInterval
  }

  function Refreshed(points: seq<Point>, counters: Counters): seq<Point>
    requires points != []
  {
    points[..|points| - 1] + [points[|points| - 1].(counters := counters)]
  }

  function Pruned(points: seq<Point>, now: int, maxPeriod: int): seq<Point> {
    if points != [] && now - points[0].timestamp > maxPeriod then Pruned(points[1..], now, maxPeriod) else points
  }

  /** One `takeSample` on the retained points. */
  function Sampled(points: seq<Point>, maxPeriod: int, pushInterval: int, r: Reading): seq<Point> {
    if Refreshes(points, pushInterval, r.now) then Refreshed(points, r.counters)
    else Pruned(points + [Point(r.now, r.counters)], r.now, maxPeriod)
  }

  function Retained(maxPeriod: int, pushInterval: int, rs: seq<Reading>): seq<Point> {
    if rs == [] then []
    else Sampled(Retained(maxPeriod, pushInterval, rs[..|rs| - 1]), maxPeriod, pushInterval, rs[|rs| - 1])
  }

  // ---- The reference: all points ever pushed, and a filter ----

  function Pushed(pushInterval: int, rs: seq<Reading>): seq<Point> {
    if rs == [] then []
    else
      var before := Pushed(pushInterval, rs[..|rs| - 1]);
      var r := rs[|rs| - 1];
      if Refreshes(before, pushInterval, r.now) then Refreshed(before, r.counters)
      else before + [Point(r.now, r.counters)]
  }

  function Within(points: seq<Point>, newest: int, maxPeriod: int): seq<Point> {
    if points == [] then []
    else if newest - points[0].timestamp <= maxPeriod then [points[0]] + Within(points[1..], newest, maxPeriod)
    else Within(points[1..], newest, maxPeriod)
  }

  function Newest(points: seq<Point>): int {
    if points == [] then 0 else points[|points| - 1].timestamp
  }

  ghost predicate Spaced(points: seq<Point>, gap: int) {
    forall i :: 0 <= i < |points| - 1 ==> points[i].timestamp + gap <= points[i + 1].timestamp
  }

  ghost predicate Rising(points: seq<Point>) {
    forall i :: 0 <= i < |points| - 1 ==> AtMost(points[i].counters, points[i + 1].counters)
  }

  ghost predicate CountersRise(rs: seq<Reading>) {
    forall i :: 0 <= i < |rs| - 1 ==> AtMost(rs[i].counters, rs[i + 1].counters)
  }

  lemma {:induction false} SpacedApart(points: seq<Point>, gap: int, i: nat, j: nat)
    requires Spaced(points, gap) && 0 < gap && i <= j < |points|
    ensures points[i].timestamp + (j - i) * gap <= points[j].timestamp
    decreases j - i
  {
    if i < j {
      SpacedApart(points, gap, i, j - 1);
      assert points[j - 1].timestamp + gap <= points[j - 1 + 1].timestamp;
      assert (j - i) * gap == (j - 1 - i) * gap + gap;
    }
  }

  lemma {:induction false} WithinAll(points: seq<Point>, newest: int, maxPeriod: int)
    requires forall p :: p in points ==> newest - p.timestamp <= maxPeriod
    ensures Within(points, newest, maxPeriod) == points
  {
    if points == [] {
    } else {
      assert points[0] in points;
      WithinAll(points[1..], newest, maxPeriod);
    }
  }

  /** On spaced points, popping from the front is filtering. */
  lemma {:induction false} PruningFilters(points: seq<Point>, gap: int, now: int, maxPeriod: int)
    requires Spaced(points, gap) && 0 < gap
    ensures Pruned(points, now, maxPeriod) == Within(points, now, maxPeriod)
  {
    if points == [] {
    } else {
      if now - points[0].timestamp > maxPeriod {
        PruningFilters(points[1..], gap, now, maxPeriod);
      } else {
        forall p | p in points ensures now - p.timestamp <= maxPeriod {
          var j :| 0 <= j < |points| && points[j] == p;
          SpacedApart(points, gap, 0, j);
          assert 0 <= j * gap;
        }
        WithinAll(points, now, maxPeriod);
      }
    }
  }

  lemma {:induction false} WithinAppend(points: seq<Point>, p: Point, newest: int, maxPeriod: int)
    ensures Within(points + [p], newest, maxPeriod) ==
      Within(points, newest, maxPeriod) + (if newest - p.timestamp <= maxPeriod then [p] else [])
  {
    if points == [] {
      assert points + [p] == [p];
    } else {
      assert (points + [p])[1..] == points[1..] + [p];
      WithinAppend(points[1..], p, newest, maxPeriod);
    }
  }

  /** Filtering for an older newest point first loses nothing that a newer one keeps. */
  lemma {:induction false} WithinTwice(points: seq<Point>, older: int, newer: int, maxPeriod: int)
    requires older <= newer
    ensures Within(Within(points, older, maxPeriod), newer, maxPeriod) == Within(points, newer, maxPeriod)
  {
    if points == [] {
    } else {
      WithinTwice(points[1..], older, newer, maxPeriod);
    }
  }

  lemma {:induction false} PushedIsSpaced(pushInterval: int, rs: seq<Reading>)
    requires 0 < pushInterval
    ensures Spaced(Pushed(pushInterval, rs), pushInterval)
    ensures rs != [] ==> Pushed(pushInterval, rs) != []
    decreases |rs|
  {
    if rs == [] {
    } else {
      PushedIsSpaced(pushInterval, rs[..|rs| - 1]);
    }
  }

  lemma {:induction false} PrunedIsSuffix(points: seq<Point>, now: int, maxPeriod: int)
    ensures exists k :: 0 <= k <= |points| && Pruned(points, now, maxPeriod) == points[k..]
  {
    if points != [] && now - points[0].timestamp > maxPeriod {
      PrunedIsSuffix(points[1..], now, maxPeriod);
      var k :| 0 <= k <= |points[1..]| && Pruned(points[1..], now, maxPeriod) == points[1..][k..];
      assert points[1..][k..] == points[k + 1..];
    } else {
      assert points == points[0..];
    }
  }

  lemma {:induction false} WithinSpaced(points: seq<Point>, gap: int, newest: int, maxPeriod: int)
    requires Spaced(points, gap) && 0 < gap
    ensures exists k :: 0 <= k <= |points| && Within(points, newest, maxPeriod) == points[k..]
  {
    PruningFilters(points, gap, newest, maxPeriod);
    PrunedIsSuffix(points, newest, maxPeriod);
  }

  lemma WindowRefreshes(maxPeriod: int, pushed: seq<Point>, points: seq<Point>, counters: Counters)
    requires 0 <= maxPeriod && pushed != [] && points != []
    requires points == Within(pushed, Newest(pushed), maxPeriod)
    ensures Refreshed(points, counters) == Within(Refreshed(pushed, counters), Newest(pushed), maxPeriod)
  {
    var last := pushed[|pushed| - 1];
    var init := pushed[..|pushed| - 1];
    assert pushed == init + [last];
    WithinAppend(init, last, last.timestamp, maxPeriod);
    WithinAppend(init, last.(counters := counters), last.timestamp, maxPeriod);
    assert points[..|points| - 1] == Within(init, last.timestamp, maxPeriod);
  }

  lemma SpacedOn(points: seq<Point>, gap: int, p: Point)
    requires Spaced(points, gap) && points != [] && Newest(points) + gap <= p.timestamp
    ensures Spaced(points + [p], gap)
  {
  }

  lemma SuffixKeepsShape(points: seq<Point>, k: nat, gap: int)
    requires k <= |points| && Spaced(points, gap)
    ensures Spaced(points[k..], gap) && (Rising(points) ==> Rising(points[k..]))
  {
    var rest := points[k..];
    forall i | 0 <= i < |rest| - 1
      ensures rest[i].timestamp + gap <= rest[i + 1].timestamp
      ensures Rising(points) ==> AtMost(rest[i].counters, rest[i + 1].counters)
    {
      assert points[k + i] == rest[i] && points[k + i + 1] == rest[i + 1];
    }
  }

  lemma WindowGrows(maxPeriod: int, pushInterval: int, pushed: seq<Point>, points: seq<Point>, p: Point)
    requires 0 < pushInterval && 0 <= maxPeriod && Spaced(pushed, pushInterval) && pushed != [] && points != []
    requires points == Within(pushed, Newest(pushed), maxPeriod)
    requires Newest(points) == Newest(pushed) && Newest(pushed) + pushInterval <= p.timestamp
    ensures Pruned(points + [p], p.timestamp, maxPeriod) == Within(pushed + [p], p.timestamp, maxPeriod)
  {
    assert Spaced(points + [p], pushInterval) by {
      WithinSpaced(pushed, pushInterval, Newest(pushed), maxPeriod);
      var k :| 0 <= k <= |pushed| && points == pushed[k..];
      SuffixKeepsShape(pushed, k, pushInterval);
      SpacedOn(points, pushInterval, p);
    }
    WithinTwice(pushed, Newest(pushed), p.timestamp, maxPeriod);
    PruningFilters(points + [p], pushInterval, p.timestamp, maxPeriod);
    WithinAppend(points, p, p.timestamp, maxPeriod);
    WithinAppend(pushed, p, p.timestamp, maxPeriod);
  }

  lemma WindowStep(maxPeriod: int, pushInterval: int, pushed: seq<Point>, points: seq<Point>, r: Reading)
    requires 0 < pushInterval && 0 <= maxPeriod && Spaced(pushed, pushInterval)
    requires points == Within(pushed, Newest(pushed), maxPeriod)
    requires pushed != [] ==> points != [] && Newest(points) == Newest(pushed)
    ensures
      var points' := Sampled(points, maxPeriod, pushInterval, r);
      var pushed' := if Refreshes(pushed, pushInterval, r.now) then Refreshed(pushed, r.counters)
                     else pushed + [Point(r.now, r.counters)];
      && points' == Within(pushed', Newest(pushed'), maxPeriod)
      && points' != [] && Newest(points') == Newest(pushed')
  {
    var p := Point(r.now, r.counters);
    if Refreshes(pushed, pushInterval, r.now) {
      WindowRefreshes(maxPeriod, pushed, points, r.counters);
    } else {
      WithinAppend(pushed, p, r.now, maxPeriod);
      if pushed == [] {
        assert points + [p] == [p] == pushed + [p];
      } else {
        WindowGrows(maxPeriod, pushInterval, pushed, points, p);
      }
    }
  }

  /**
   For any clock readings: what incremental pushing, refreshing and popping retains is the filter of all
   points ever pushed to those within `maxPeriod` of the newest, and it is not empty after the first sample.
   */
  lemma {:induction false} RetainedIsWindow(maxPeriod: int, pushInterval: int, rs: seq<Reading>)
    requires 0 < pushInterval && 0 <= maxPeriod
    ensures
      var pushed := Pushed(pushInterval, rs);
      Retained(maxPeriod, pushInterval, rs) == Within(pushed, Newest(pushed), maxPeriod)
    ensures rs != [] ==> Retained(maxPeriod, pushInterval, rs) != []
    ensures rs != [] ==> Newest(Retained(maxPeriod, pushInterval, rs)) == Newest(Pushed(pushInterval, rs))
    decreases |rs|
  {
    if rs == [] {
    } else {
      var init, r := rs[..|rs| - 1], rs[|rs| - 1];
      RetainedIsWindow(maxPeriod, pushInterval, init);
      PushedIsSpaced(pushInterval, init);
      PushedIsSpaced(pushInterval, rs);
      WindowStep(maxPeriod, pushInterval, Pushed(pushInterval, init), Retained(maxPeriod, pushInterval, init), r);
    }
  }

  lemma AtMostTransitive(a: Counters, b: Counters, c: Counters)
    requires AtMost(a, b) && AtMost(b, c)
    ensures AtMost(a, c)
  {
  }

  lemma RefreshedRises(points: seq<Point>, counters: Counters)
    requires points != [] && Rising(points) && AtMost(points[|points| - 1].counters, counters)
    ensures Rising(Refreshed(points, counters))
  {
    var n := |points|;
    if n > 1 {
      assert AtMost(points[n - 2].counters, points[n - 2 + 1].counters);
      AtMostTransitive(points[n - 2].counters, points[n - 1].counters, counters);
    }
  }

  lemma {:induction false} PushedRises(pushInterval: int, rs: seq<Reading>)
    requires CountersRise(rs)
    ensures Rising(Pushed(pushInterval, rs))
    ensures rs != [] ==> Pushed(pushInterval, rs) != []
    ensures rs != [] ==> Pushed(pushInterval, rs)[|Pushed(pushInterval, rs)| - 1].counters == rs[|rs| - 1].counters
    decreases |rs|
  {
    if rs == [] {
    } else {
      var init := rs[..|rs| - 1];
      assert CountersRise(init);
      PushedRises(pushInterval, init);
      if init != [] {
        assert AtMost(rs[|rs| - 2].counters, rs[|rs| - 2 + 1].counters);
        RefreshedRises(Pushed(pushInterval, init), rs[|rs| - 1].counters);
      }
    }
  }

  lemma MulOrder(a: nat, b: nat, c: nat)
    ensures a <= b ==> a * c <= b * c
  {
  }

  lemma CountFits(n: nat, period: nat, gap: nat)
    requires 0 < gap && n * gap <= period
    ensures n <= period / gap
  {
    var q := period / gap;
    assert period < q * gap + gap;
    assert (q + 1) * gap == q * gap + gap;
    MulOrder(q + 1, n, gap);
  }

  lemma SpanBoundsCount(points: seq<Point>, gap: int, period: int)
    requires points != [] && 0 < gap && Spaced(points, gap)
    requires forall p :: p in points ==> Newest(points) - p.timestamp <= period
    ensures 0 <= period && |points| <= period / gap + 1
  {
    assert points[0] in points;
    assert points[|points| - 1] in points;
    SpacedApart(points, gap, 0, |points| - 1);
    CountFits(|points| - 1, period, gap);
  }

  lemma {:induction false} WithinHolds(points: seq<Point>, newest: int, maxPeriod: int)
    ensures forall p :: p in Within(points, newest, maxPeriod) ==> newest - p.timestamp <= maxPeriod
  {
    if points == [] {
    } else {
      WithinHolds(points[1..], newest, maxPeriod);
    }
  }

  lemma SuffixIsShort(pushed: seq<Point>, k: nat, gap: int, period: int)
    requires 0 < gap && 0 <= period && k <= |pushed| && Spaced(pushed[k..], gap)
    requires Within(pushed, Newest(pushed), period) == pushed[k..]
    ensures |pushed[k..]| <= period / gap + 1
  {
    WithinHolds(pushed, Newest(pushed), period);
    if k < |pushed| {
      SpanBoundsCount(pushed[k..], gap, period);
    } else {
      CountFits(0, period, gap);
    }
  }

  /**
   The shape of the retained list: points at least `pushInterval` apart, at most
   `maxPeriod / pushInterval + 1` of them, and every counter nondecreasing along it.
   */
  lemma RetainedIsBounded(maxPeriod: int, pushInterval: int, rs: seq<Reading>)
    requires 0 < pushInterval && 0 <= maxPeriod
    ensures
      var points := Retained(maxPeriod, pushInterval, rs);
      && Spaced(points, pushInterval)
      && |points| <= maxPeriod / pushInterval + 1
      && (CountersRise(rs) ==> Rising(points))
  {
    var pushed := Pushed(pushInterval, rs);
    RetainedIsWindow(maxPeriod, pushInterval, rs);
    PushedIsSpaced(pushInterval, rs);
    WithinSpaced(pushed, pushInterval, Newest(pushed), maxPeriod);
    var k :| 0 <= k <= |pushed| && Within(pushed, Newest(pushed), maxPeriod) == pushed[k..];
    SuffixKeepsShape(pushed, k, pushInterval);
    if CountersRise(rs) {
      PushedRises(pushInterval, rs);
    }
    SuffixIsShort(pushed, k, pushInterval, maxPeriod);
  }

  // ---- When a point is pushed ----

  /** The points are as before, but for the last one's counters. */
  predicate OnlyRefreshed(points: seq<Point>, points': seq<Point>, counters: Counters) {
    && |points'| == |points| && points != []
    && (forall i :: 0 <= i < |points| - 1 ==> points'[i] == points[i])
    && points'[|points| - 1] == Point(points[|points| - 1].timestamp, counters)
  }

  /** The new point is the last one, and just those in front that are too old by now are gone. */
  ghost predicate PushedBehind(points: seq<Point>, points': seq<Point>, maxPeriod: int, r: Reading, k: nat) {
    && k <= |points| && points' == points[k..] + [Point(r.now, r.counters)]
    && (forall i :: 0 <= i < k ==> maxPeriod < r.now - points[i].timestamp)
    && (k < |points| ==> r.now - points[k].timestamp <= maxPeriod)
  }

  lemma OneMoreTooOld(points: seq<Point>, rest: seq<Point>, maxPeriod: int, r: Reading, k: nat)
    requires points != [] && maxPeriod < r.now - points[0].timestamp
    requires PushedBehind(points[1..], rest, maxPeriod, r, k)
    ensures PushedBehind(points, rest, maxPeriod, r, k + 1)
  {
    assert points[1..][k..] == points[k + 1..];
    assert forall i :: 0 < i < |points| ==> points[i] == points[1..][i - 1];
  }

  lemma {:induction false} PruningStops(points: seq<Point>, maxPeriod: int, r: Reading) returns (k: nat)
    requires 0 <= maxPeriod
    ensures PushedBehind(points, Pruned(points + [Point(r.now, r.counters)], r.now, maxPeriod), maxPeriod, r, k)
  {
    var p := Point(r.now, r.counters);
    k := 0;
    if points == [] {
      assert points + [p] == [p] == points[0..] + [p];
    } else if maxPeriod < r.now - points[0].timestamp {
      assert (points + [p])[1..] == points[1..] + [p];
      k := PruningStops(points[1..], maxPeriod, r);
      OneMoreTooOld(points, Pruned(points[1..] + [p], r.now, maxPeriod), maxPeriod, r, k);
      k := k + 1;
    } else {
      assert points[0..] == points;
    }
  }

  /**
   A sample pushes a point exactly if there is none yet or the newest one is at least `pushInterval` old; a
   nearer one changes nothing but the newest point's counters. For any points and any clock readings.
   */
  lemma PushesExactlyIfDue(points: seq<Point>, maxPeriod: int, pushInterval: int, r: Reading)
    requires 0 <= maxPeriod
    ensures
      var points' := Sampled(points, maxPeriod, pushInterval, r);
      if points == [] || pushInterval <= r.now - points[|points| - 1].timestamp then
        exists k: nat :: PushedBehind(points, points', maxPeriod, r, k)
      else OnlyRefreshed(points, points', r.counters)
  {
    var k := PruningStops(points, maxPeriod, r);
    if !Refreshes(points, pushInterval, r.now) {
      assert PushedBehind(points, Sampled(points, maxPeriod, pushInterval, r), maxPeriod, r, k);
    }
  }

  /** So it is with all points ever pushed, which the window is a part of. */
  lemma EveryPushIsDue(pushInterval: int, rs: seq<Reading>, r: Reading)
    ensures
      var before, after := Pushed(pushInterval, rs), Pushed(pushInterval, rs + [r]);
      if before == [] || pushInterval <= r.now - before[|before| - 1].timestamp then
        after == before + [Point(r.now, r.counters)]
      else OnlyRefreshed(before, after, r.counters)
  {
    assert (rs + [r])[..|rs|] == rs;
  }
}
