/** Trajectory analysis of a tracking session's GPS points: removal of stationary
    jitter (`filterStationaryNoise`) and detection of dwell stops (`detectStopPoints`).
    Distances come from a function parameter standing for the haversine formula;
    timestamps are milliseconds since the epoch. */
module Trajectory {
  import opened Seqs
  import opened Dates

  /** One GPS fix. Speed, heading and an attached driving event are carried by the
      source's points but used by neither algorithm, so they are not fields here. */
  datatype Point = Point(latitude: real, longitude: real, accuracy: real, time: int, isStationary: bool)

  /** Metres between (latitude1, longitude1) and (latitude2, longitude2). */
  type Distance = (real, real, real, real) -> real

  function Meters(dist: Distance, a: Point, b: Point): real
  {
    dist(a.latitude, a.longitude, b.latitude, b.longitude)
  }

  const MIN_MOVEMENT_METERS: real := 10.0
  const RADIUS_METERS: real := 30.0
  const MIN_STOP_MINUTES: int := 5
  const MIN_STOP_POINTS: int := 10

  // ---------------------------------------------------------------------------
  // Stationary-noise filter
  // ---------------------------------------------------------------------------

  /** What the filter keeps from `ps[i..]` when `last` is the point kept most recently:
      stationary points are skipped; a moving point is kept when it is at least 10 m
      from `last`, or when it is the final input point. */
  function KeepAfter(dist: Distance, ps: seq<Point>, i: nat, last: Point): seq<Point>
    requires 1 <= i <= |ps|
    decreases |ps| - i
  {
    if i == |ps| then []
    else if ps[i].isStationary then KeepAfter(dist, ps, i + 1, last)
    else if Meters(dist, last, ps[i]) >= MIN_MOVEMENT_METERS || i == |ps| - 1 then
      [ps[i]] + KeepAfter(dist, ps, i + 1, ps[i])
    else KeepAfter(dist, ps, i + 1, last)
  }

  /** The filter's result: the first point always, then what `KeepAfter` keeps. */
  function NoiseFiltered(dist: Distance, ps: seq<Point>): seq<Point>
  {
    if |ps| == 0 then [] else [ps[0]] + KeepAfter(dist, ps, 1, ps[0])
  }

  /** `filterStationaryNoise`: the single left-to-right pass. */
  method FilterStationaryNoise(dist: Distance, ps: seq<Point>) returns (filtered: seq<Point>)
    ensures filtered == NoiseFiltered(dist, ps)
  {
    if |ps| == 0 {
      return [];
    }
    filtered := [ps[0]];
    var i := 1;
    while i < |ps|
      invariant 1 <= i <= |ps|
      invariant |filtered| >= 1
      invariant filtered + KeepAfter(dist, ps, i, filtered[|filtered| - 1]) == NoiseFiltered(dist, ps)
    {
      var current := ps[i];
      var last := filtered[|filtered| - 1];
      if current.isStationary {
        i := i + 1;
        continue;
      }
      var distance := Meters(dist, last, current);
      if distance >= MIN_MOVEMENT_METERS || i == |ps| - 1 {
        assert KeepAfter(dist, ps, i, last) == [current] + KeepAfter(dist, ps, i + 1, current);
        filtered := filtered + [current];
      }
      i := i + 1;
    }
  }

  lemma {:induction false} KeepAfterMoving(dist: Distance, ps: seq<Point>, i: nat, last: Point)
    requires 1 <= i <= |ps|
    ensures forall k :: 0 <= k < |KeepAfter(dist, ps, i, last)| ==> !KeepAfter(dist, ps, i, last)[k].isStationary
    decreases |ps| - i
  {
    if i < |ps| {
      if ps[i].isStationary || !(Meters(dist, last, ps[i]) >= MIN_MOVEMENT_METERS || i == |ps| - 1) {
        KeepAfterMoving(dist, ps, i + 1, last);
      } else {
        KeepAfterMoving(dist, ps, i + 1, ps[i]);
        var rest := KeepAfter(dist, ps, i + 1, ps[i]);
        var s := KeepAfter(dist, ps, i, last);
        assert s == [ps[i]] + rest;
        forall k | 1 <= k < |s| ensures !s[k].isStationary {
          assert s[k] == rest[k - 1];
        }
      }
    }
  }

  lemma {:induction false} KeepAfterSubseq(dist: Distance, ps: seq<Point>, i: nat, last: Point)
    requires 1 <= i <= |ps|
    ensures IsSubseq(KeepAfter(dist, ps, i, last), ps[i..])
    decreases |ps| - i
  {
    var s := KeepAfter(dist, ps, i, last);
    if i == |ps| {
      assert s == [];
    } else {
      assert ps[i..][1..] == ps[i + 1..];
      if ps[i].isStationary || !(Meters(dist, last, ps[i]) >= MIN_MOVEMENT_METERS || i == |ps| - 1) {
        KeepAfterSubseq(dist, ps, i + 1, last);
      } else {
        KeepAfterSubseq(dist, ps, i + 1, ps[i]);
        assert s[1..] == KeepAfter(dist, ps, i + 1, ps[i]);
      }
    }
  }

  /** Consecutive points of `t` are at least 10 m apart, except that `final` may close
      the sequence at any distance. */
  ghost predicate SpacedUntil(dist: Distance, t: seq<Point>, final: Point)
  {
    forall k :: 1 <= k < |t| ==>
      Meters(dist, t[k - 1], t[k]) >= MIN_MOVEMENT_METERS || (k == |t| - 1 && t[k] == final)
  }

  lemma {:induction false} KeepAfterSpacing(dist: Distance, ps: seq<Point>, i: nat, last: Point)
    requires 1 <= i <= |ps|
    ensures SpacedUntil(dist, [last] + KeepAfter(dist, ps, i, last), ps[|ps| - 1])
    decreases |ps| - i
  {
    var final := ps[|ps| - 1];
    if i < |ps| {
      if ps[i].isStationary || !(Meters(dist, last, ps[i]) >= MIN_MOVEMENT_METERS || i == |ps| - 1) {
        KeepAfterSpacing(dist, ps, i + 1, last);
        assert KeepAfter(dist, ps, i, last) == KeepAfter(dist, ps, i + 1, last);
      } else {
        KeepAfterSpacing(dist, ps, i + 1, ps[i]);
        var rest := KeepAfter(dist, ps, i + 1, ps[i]);
        var t2 := [ps[i]] + rest;
        var t := [last] + KeepAfter(dist, ps, i, last);
        assert t == [last] + t2;
        assert SpacedUntil(dist, t2, final);
        if i == |ps| - 1 {
          assert rest == [];
          assert |t| == 2;
        }
        forall k | 1 <= k < |t|
          ensures Meters(dist, t[k - 1], t[k]) >= MIN_MOVEMENT_METERS || (k == |t| - 1 && t[k] == final)
        {
          if k >= 2 {
            assert t[k - 1] == t2[k - 2] && t[k] == t2[k - 1];
            assert Meters(dist, t2[k - 2], t2[k - 1]) >= MIN_MOVEMENT_METERS || (k - 1 == |t2| - 1 && t2[k - 1] == final);
          }
        }
      }
    }
  }

  /** A moving final point is always the last point kept. */
  lemma {:induction false} KeepAfterEndpoint(dist: Distance, ps: seq<Point>, i: nat, last: Point)
    requires 1 <= i < |ps|
    requires !ps[|ps| - 1].isStationary
    ensures |KeepAfter(dist, ps, i, last)| > 0
    ensures KeepAfter(dist, ps, i, last)[|KeepAfter(dist, ps, i, last)| - 1] == ps[|ps| - 1]
    decreases |ps| - i
  {
    if i < |ps| - 1 {
      KeepAfterEndpoint(dist, ps, i + 1, last);
      KeepAfterEndpoint(dist, ps, i + 1, ps[i]);
    }
  }

  /** The shape of the filter's output: empty for no input, otherwise an order-keeping
      subsequence that starts with the first input point (stationary or not), after
      which no stationary point appears. */
  lemma FilterShape(dist: Distance, ps: seq<Point>)
    ensures |ps| == 0 ==> NoiseFiltered(dist, ps) == []
    ensures |ps| > 0 ==> |NoiseFiltered(dist, ps)| >= 1 && NoiseFiltered(dist, ps)[0] == ps[0]
    ensures IsSubseq(NoiseFiltered(dist, ps), ps)
    ensures forall k :: 1 <= k < |NoiseFiltered(dist, ps)| ==> !NoiseFiltered(dist, ps)[k].isStationary
  {
    if |ps| > 0 {
      var rest := KeepAfter(dist, ps, 1, ps[0]);
      KeepAfterSubseq(dist, ps, 1, ps[0]);
      KeepAfterMoving(dist, ps, 1, ps[0]);
      var r := NoiseFiltered(dist, ps);
      assert r[1..] == rest;
      assert ps[1..] == ps[1..][0..];
      forall k | 1 <= k < |r| ensures !r[k].isStationary {
        assert r[k] == rest[k - 1];
      }
    }
  }

  /** Every kept point after the first is at least 10 m from the point kept before it,
      unless it is the final input point, which may close the output at any distance. */
  lemma FilterSpacing(dist: Distance, ps: seq<Point>)
    requires |ps| > 0
    ensures SpacedUntil(dist, NoiseFiltered(dist, ps), ps[|ps| - 1])
  {
    KeepAfterSpacing(dist, ps, 1, ps[0]);
  }

  /** With two or more points, the final input point ends the output exactly when it is
      not marked stationary; a stationary final point appears nowhere after the first. */
  lemma FilterEndpoint(dist: Distance, ps: seq<Point>)
    requires |ps| >= 2
    ensures var r := NoiseFiltered(dist, ps);
      && (!ps[|ps| - 1].isStationary ==> r[|r| - 1] == ps[|ps| - 1])
      && (ps[|ps| - 1].isStationary ==> ps[|ps| - 1] !in r[1..])
  {
    var r := NoiseFiltered(dist, ps);
    var rest := KeepAfter(dist, ps, 1, ps[0]);
    assert r[1..] == rest;
    if !ps[|ps| - 1].isStationary {
      KeepAfterEndpoint(dist, ps, 1, ps[0]);
      assert r[|r| - 1] == rest[|rest| - 1];
    } else {
      KeepAfterMoving(dist, ps, 1, ps[0]);
    }
  }

  /** The sequences the filter leaves unchanged: after the first point, every point is
      moving and at least 10 m from its predecessor, except that the last may be closer. */
  ghost predicate Settled(dist: Distance, g: seq<Point>)
  {
    forall k :: 1 <= k < |g| ==>
      !g[k].isStationary && (Meters(dist, g[k - 1], g[k]) >= MIN_MOVEMENT_METERS || k == |g| - 1)
  }

  lemma {:induction false} KeepAfterSettled(dist: Distance, g: seq<Point>, i: nat)
    requires 1 <= i <= |g|
    requires Settled(dist, g)
    ensures KeepAfter(dist, g, i, g[i - 1]) == g[i..]
    decreases |g| - i
  {
    if i < |g| {
      KeepAfterSettled(dist, g, i + 1);
      assert g[i..] == [g[i]] + g[i + 1..];
    }
  }

  /** Filtering leaves a sequence unchanged exactly when it is settled. */
  lemma FixpointIffSettled(dist: Distance, g: seq<Point>)
    ensures NoiseFiltered(dist, g) == g <==> Settled(dist, g)
  {
    if Settled(dist, g) && |g| > 0 {
      KeepAfterSettled(dist, g, 1);
      assert g == [g[0]] + g[1..];
    }
    FilteredIsSettled(dist, g);
  }

  lemma FilteredIsSettled(dist: Distance, ps: seq<Point>)
    ensures Settled(dist, NoiseFiltered(dist, ps))
  {
    FilterShape(dist, ps);
    if |ps| > 0 {
      FilterSpacing(dist, ps);
    }
  }

  /** `filterStationaryNoise` is idempotent. */
  lemma FilterIdempotent(dist: Distance, ps: seq<Point>)
    ensures NoiseFiltered(dist, NoiseFiltered(dist, ps)) == NoiseFiltered(dist, ps)
  {
    FilteredIsSettled(dist, ps);
    FixpointIffSettled(dist, NoiseFiltered(dist, ps));
  }

  // ---------------------------------------------------------------------------
  // Stop-point detection
  // ---------------------------------------------------------------------------

  /** A cluster: the points with indices in the half-open range [lo, hi). */
  datatype Span = Span(lo: nat, hi: nat)

  predicate ValidSpan(ps: seq<Point>, c: Span)
  {
    c.lo < c.hi <= |ps|
  }

  /** A dwell event: the centroid of the cluster, its first and last timestamps and the
      rounded number of minutes between them. */
  datatype StopPoint = StopPoint(latitude: real, longitude: real, arrivedAt: int, departedAt: int, durationMinutes: int)

  /** `ps[i]` falls outside the 30 m radius around the cluster start `ps[cs]`. */
  predicate OutOfRadius(dist: Distance, ps: seq<Point>, cs: nat, i: nat)
  {
    cs < |ps| && i < |ps| && Meters(dist, ps[cs], ps[i]) > RADIUS_METERS
  }

  /** The greedy forward scan from cluster start `cs`, having examined up to index `i`. */
  function ClustersFrom(dist: Distance, ps: seq<Point>, cs: nat, i: nat): (r: seq<Span>)
    requires cs < i <= |ps|
    ensures |r| >= 1 && r[0].lo == cs && r[0].hi >= i && r[|r| - 1].hi == |ps|
    ensures forall k :: 0 <= k < |r| ==> ValidSpan(ps, r[k])
    ensures forall k :: 0 <= k < |r| - 1 ==> r[k].hi == r[k + 1].lo
    decreases |ps| - i
  {
    if i == |ps| then [Span(cs, i)]
    else if OutOfRadius(dist, ps, cs, i) then [Span(cs, i)] + ClustersFrom(dist, ps, i, i + 1)
    else ClustersFrom(dist, ps, cs, i + 1)
  }

  /** The clusters `detectStopPoints` evaluates, in index order. */
  function Clusters(dist: Distance, ps: seq<Point>): seq<Span>
  {
    if |ps| == 0 then [] else ClustersFrom(dist, ps, 0, 1)
  }

  /** Every member after the first lies within 30 m (inclusive) of the first. */
  ghost predicate WithinRadius(dist: Distance, ps: seq<Point>, c: Span)
    requires ValidSpan(ps, c)
  {
    forall j :: c.lo < j < c.hi ==> !OutOfRadius(dist, ps, c.lo, j)
  }

  /** `cs` splits `ps` into consecutive, non-empty index ranges covering it, each within
      the radius of its first point, and each next range starts at a point outside the
      radius of the previous range's first point. */
  ghost predicate IsClustering(dist: Distance, ps: seq<Point>, cs: seq<Span>)
  {
    && (|cs| == 0 <==> |ps| == 0)
    && (|cs| > 0 ==> cs[0].lo == 0 && cs[|cs| - 1].hi == |ps|)
    && (forall k :: 0 <= k < |cs| ==> ValidSpan(ps, cs[k]) && WithinRadius(dist, ps, cs[k]))
    && (forall k :: 0 <= k < |cs| - 1 ==> cs[k].hi == cs[k + 1].lo && OutOfRadius(dist, ps, cs[k].lo, cs[k].hi))
  }

  /** Each range of `r` is within the radius, and each but the last is followed by a
      point outside it. */
  ghost predicate RadiusSound(dist: Distance, ps: seq<Point>, r: seq<Span>)
  {
    && (forall k :: 0 <= k < |r| ==> ValidSpan(ps, r[k]) && WithinRadius(dist, ps, r[k]))
    && (forall k :: 0 <= k < |r| - 1 ==> OutOfRadius(dist, ps, r[k].lo, r[k].hi))
  }

  lemma {:induction false} ClustersFromSound(dist: Distance, ps: seq<Point>, cs: nat, i: nat)
    requires cs < i <= |ps|
    requires forall j :: cs < j < i ==> !OutOfRadius(dist, ps, cs, j)
    ensures RadiusSound(dist, ps, ClustersFrom(dist, ps, cs, i))
    decreases |ps| - i
  {
    if i < |ps| {
      if OutOfRadius(dist, ps, cs, i) {
        ClustersFromSound(dist, ps, i, i + 1);
        var rest := ClustersFrom(dist, ps, i, i + 1);
        assert ClustersFrom(dist, ps, cs, i) == [Span(cs, i)] + rest;
        ConsSound(dist, ps, cs, i, rest);
      } else {
        ClustersFromSound(dist, ps, cs, i + 1);
      }
    }
  }

  /** A range within the radius, closed by a point outside it, can precede sound ranges. */
  lemma ConsSound(dist: Distance, ps: seq<Point>, cs: nat, i: nat, rest: seq<Span>)
    requires cs < i <= |ps| && OutOfRadius(dist, ps, cs, i)
    requires forall j :: cs < j < i ==> !OutOfRadius(dist, ps, cs, j)
    requires RadiusSound(dist, ps, rest)
    ensures RadiusSound(dist, ps, [Span(cs, i)] + rest)
  {
    var r := [Span(cs, i)] + rest;
    forall k | 1 <= k < |r| ensures ValidSpan(ps, r[k]) && WithinRadius(dist, ps, r[k]) {
      assert r[k] == rest[k - 1];
    }
    forall k | 1 <= k < |r| - 1 ensures OutOfRadius(dist, ps, r[k].lo, r[k].hi) {
      assert r[k] == rest[k - 1];
    }
  }

  /** The scan's clusters satisfy the clustering properties. */
  lemma ClustersAreClustering(dist: Distance, ps: seq<Point>)
    ensures IsClustering(dist, ps, Clusters(dist, ps))
  {
    if |ps| > 0 {
      ClustersFromSound(dist, ps, 0, 1);
    }
  }

  lemma {:induction false} ClustersFromUnique(dist: Distance, ps: seq<Point>, c: nat, i: nat, cs: seq<Span>)
    requires c < i <= |ps|
    requires |cs| > 0 && cs[0].lo == c && i <= cs[0].hi && cs[|cs| - 1].hi == |ps|
    requires forall k :: 0 <= k < |cs| ==> ValidSpan(ps, cs[k]) && WithinRadius(dist, ps, cs[k])
    requires forall k :: 0 <= k < |cs| - 1 ==> cs[k].hi == cs[k + 1].lo && OutOfRadius(dist, ps, cs[k].lo, cs[k].hi)
    ensures ClustersFrom(dist, ps, c, i) == cs
    decreases |ps| - i
  {
    if i == |ps| {
    } else if OutOfRadius(dist, ps, c, i) {
      assert cs[0].hi == i;
      assert |cs| > 1;
      TailSpans(dist, ps, cs);
      ClustersFromUnique(dist, ps, i, i + 1, cs[1..]);
      assert cs == [cs[0]] + cs[1..];
    } else {
      ClustersFromUnique(dist, ps, c, i + 1, cs);
    }
  }

  /** Dropping the first of several consecutive ranges keeps the others' properties. */
  lemma TailSpans(dist: Distance, ps: seq<Point>, cs: seq<Span>)
    requires |cs| > 1 && cs[|cs| - 1].hi == |ps|
    requires forall k :: 0 <= k < |cs| ==> ValidSpan(ps, cs[k]) && WithinRadius(dist, ps, cs[k])
    requires forall k :: 0 <= k < |cs| - 1 ==> cs[k].hi == cs[k + 1].lo && OutOfRadius(dist, ps, cs[k].lo, cs[k].hi)
    ensures cs[1..][0].lo == cs[0].hi && cs[1..][|cs[1..]| - 1].hi == |ps|
    ensures forall k :: 0 <= k < |cs[1..]| ==> ValidSpan(ps, cs[1..][k]) && WithinRadius(dist, ps, cs[1..][k])
    ensures forall k :: 0 <= k < |cs[1..]| - 1 ==>
      cs[1..][k].hi == cs[1..][k + 1].lo && OutOfRadius(dist, ps, cs[1..][k].lo, cs[1..][k].hi)
  {
    var t := cs[1..];
    forall k | 0 <= k < |t| ensures ValidSpan(ps, t[k]) && WithinRadius(dist, ps, t[k]) {
      assert t[k] == cs[k + 1];
    }
    forall k | 0 <= k < |t| - 1 ensures t[k].hi == t[k + 1].lo && OutOfRadius(dist, ps, t[k].lo, t[k].hi) {
      assert t[k] == cs[k + 1] && t[k + 1] == cs[k + 2];
    }
  }

  /** The clustering properties determine the clusters: the greedy scan is the only
      partition of the points that has them. */
  lemma ClusteringIsUnique(dist: Distance, ps: seq<Point>, cs: seq<Span>)
    requires IsClustering(dist, ps, cs)
    ensures cs == Clusters(dist, ps)
  {
    if |ps| > 0 {
      ClustersFromUnique(dist, ps, 0, 1, cs);
    }
  }

  /** Sum of the latitudes of `ps[lo..hi]`. */
  function SumLatitude(ps: seq<Point>, lo: nat, hi: nat): real
    requires lo <= hi <= |ps|
    decreases hi - lo
  {
    if lo == hi then 0.0 else SumLatitude(ps, lo, hi - 1) + ps[hi - 1].latitude
  }

  /** Sum of the longitudes of `ps[lo..hi]`. */
  function SumLongitude(ps: seq<Point>, lo: nat, hi: nat): real
    requires lo <= hi <= |ps|
    decreases hi - lo
  {
    if lo == hi then 0.0 else SumLongitude(ps, lo, hi - 1) + ps[hi - 1].longitude
  }

  /** `Math.round(ms / 60000)`: JavaScript rounds halves upwards, i.e. floor(x + 1/2). */
  function RoundMinutes(ms: int): int
  {
    (ms + MINUTE_MS / 2) / MINUTE_MS
  }

  /** The rounded minute count is within half a minute of the exact span. */
  lemma RoundMinutesNearest(ms: int)
    ensures RoundMinutes(ms) * MINUTE_MS - MINUTE_MS / 2 <= ms < RoundMinutes(ms) * MINUTE_MS + MINUTE_MS / 2
  {
  }

  lemma RoundMinutesAtLeast(ms: int)
    requires ms >= MIN_STOP_MINUTES * MINUTE_MS
    ensures RoundMinutes(ms) >= MIN_STOP_MINUTES
  {
  }

  /** The cluster lasted five minutes or more (`durationMin >= MIN_STOP_MINUTES`). */
  predicate LongEnough(ps: seq<Point>, c: Span)
  {
    ValidSpan(ps, c) && ps[c.hi - 1].time - ps[c.lo].time >= MIN_STOP_MINUTES * MINUTE_MS
  }

  function StopOf(ps: seq<Point>, c: Span): StopPoint
    requires ValidSpan(ps, c)
  {
    var count := (c.hi - c.lo) as real;
    StopPoint(
      SumLatitude(ps, c.lo, c.hi) / count,
      SumLongitude(ps, c.lo, c.hi) / count,
      ps[c.lo].time,
      ps[c.hi - 1].time,
      RoundMinutes(ps[c.hi - 1].time - ps[c.lo].time))
  }

  /** One stop per long-enough cluster, in cluster order. */
  function StopsOf(ps: seq<Point>, cs: seq<Span>): seq<StopPoint>
    requires forall k :: 0 <= k < |cs| ==> ValidSpan(ps, cs[k])
    decreases |cs|
  {
    if |cs| == 0 then []
    else (if LongEnough(ps, cs[0]) then [StopOf(ps, cs[0])] else []) + StopsOf(ps, cs[1..])
  }

  /** The stops of a session: none below ten points, otherwise one per long-enough cluster. */
  function DetectedStops(dist: Distance, ps: seq<Point>): seq<StopPoint>
  {
    if |ps| < MIN_STOP_POINTS then [] else StopsOf(ps, Clusters(dist, ps))
  }

  /** Closing the cluster that starts at `cs` when index `i` leaves its radius or
      ends the input yields its stop (when long enough) followed by the later ones. */
  lemma CloseCluster(dist: Distance, ps: seq<Point>, cs: nat, i: nat)
    requires cs < i <= |ps|
    requires i == |ps| || OutOfRadius(dist, ps, cs, i)
    ensures StopsOf(ps, ClustersFrom(dist, ps, cs, i)) ==
      (if LongEnough(ps, Span(cs, i)) then [StopOf(ps, Span(cs, i))] else []) +
      (if i == |ps| then [] else StopsOf(ps, ClustersFrom(dist, ps, i, i + 1)))
  {
    var rest := if i == |ps| then [] else ClustersFrom(dist, ps, i, i + 1);
    assert ClustersFrom(dist, ps, cs, i) == [Span(cs, i)] + rest;
    assert ([Span(cs, i)] + rest)[1..] == rest;
  }

  /** A point inside the radius extends the current cluster. */
  lemma ScanExtend(dist: Distance, ps: seq<Point>, cs: nat, i: nat)
    requires cs < i < |ps|
    requires Meters(dist, ps[cs], ps[i]) <= RADIUS_METERS
    ensures StopsOf(ps, ClustersFrom(dist, ps, cs, i)) == StopsOf(ps, ClustersFrom(dist, ps, cs, i + 1))
  {
  }

  /** A point outside the radius closes the current cluster and starts the next one at it. */
  lemma ScanClose(dist: Distance, ps: seq<Point>, cs: nat, i: nat, stops: seq<StopPoint>,
                  stop: seq<StopPoint>, all: seq<StopPoint>)
    requires cs < i < |ps|
    requires Meters(dist, ps[cs], ps[i]) > RADIUS_METERS
    requires stop == if LongEnough(ps, Span(cs, i)) then [StopOf(ps, Span(cs, i))] else []
    requires stops + StopsOf(ps, ClustersFrom(dist, ps, cs, i)) == all
    ensures (stops + stop) + StopsOf(ps, ClustersFrom(dist, ps, i, i + 1)) == all
  {
    CloseCluster(dist, ps, cs, i);
  }

  /** The scan starts with no stops and the cluster opened by the first point. */
  lemma ScanStart(dist: Distance, ps: seq<Point>)
    requires |ps| >= MIN_STOP_POINTS
    ensures [] + StopsOf(ps, ClustersFrom(dist, ps, 0, 1)) == DetectedStops(dist, ps)
  {
  }

  /** At the end of the input the open cluster is closed and the scan has every stop. */
  lemma ScanEnd(dist: Distance, ps: seq<Point>, cs: nat, stops: seq<StopPoint>,
                stop: seq<StopPoint>, all: seq<StopPoint>)
    requires cs < |ps|
    requires stop == if LongEnough(ps, Span(cs, |ps|)) then [StopOf(ps, Span(cs, |ps|))] else []
    requires stops + StopsOf(ps, ClustersFrom(dist, ps, cs, |ps|)) == all
    ensures stops + stop == all
  {
    CloseCluster(dist, ps, cs, |ps|);
    assert stop + [] == stop;
  }

  /** `detectStopPoints`: one forward scan that closes a cluster when a point leaves the
      radius (or the input ends) and emits it when it lasted long enough. */
  method DetectStopPoints(dist: Distance, ps: seq<Point>) returns (stops: seq<StopPoint>)
    ensures stops == DetectedStops(dist, ps)
  {
    if |ps| < MIN_STOP_POINTS {
      return [];
    }
    ghost var all := DetectedStops(dist, ps);
    ScanStart(dist, ps);
    stops := [];
    var clusterStart := 0;
    var i := 1;
    while i < |ps|
      invariant clusterStart < i <= |ps|
      invariant stops + StopsOf(ps, ClustersFrom(dist, ps, clusterStart, i)) == all
      decreases |ps| - i
    {
      if Meters(dist, ps[clusterStart], ps[i]) > RADIUS_METERS {
        var stop := ClosedStop(ps, clusterStart, i);
        ScanClose(dist, ps, clusterStart, i, stops, stop, all);
        stops := stops + stop;
        clusterStart := i;
      } else {
        ScanExtend(dist, ps, clusterStart, i);
      }
      i := i + 1;
    }
    var stop := ClosedStop(ps, clusterStart, i);
    ScanEnd(dist, ps, clusterStart, stops, stop, all);
    stops := stops + stop;
  }

  /** The stop a closed cluster `ps[lo..hi]` contributes: none when it lasted under five
      minutes, otherwise its centroid, arrival, departure and rounded duration. */
  method ClosedStop(ps: seq<Point>, lo: nat, hi: nat) returns (stop: seq<StopPoint>)
    requires lo < hi <= |ps|
    ensures stop == if LongEnough(ps, Span(lo, hi)) then [StopOf(ps, Span(lo, hi))] else []
  {
    var startTime := ps[lo].time;
    var endTime := ps[hi - 1].time;
    if endTime - startTime >= MIN_STOP_MINUTES * MINUTE_MS {
      var sumLat, sumLng := SumCoordinates(ps, lo, hi);
      var count := (hi - lo) as real;
      return [StopPoint(sumLat / count, sumLng / count, startTime, endTime,
                        RoundMinutes(endTime - startTime))];
    }
    return [];
  }

  /** The latitude and longitude sums of `ps[lo..hi]`, accumulated left to right. */
  method SumCoordinates(ps: seq<Point>, lo: nat, hi: nat) returns (sumLat: real, sumLng: real)
    requires lo <= hi <= |ps|
    ensures sumLat == SumLatitude(ps, lo, hi)
    ensures sumLng == SumLongitude(ps, lo, hi)
  {
    sumLat, sumLng := 0.0, 0.0;
    var j := lo;
    while j < hi
      invariant lo <= j <= hi
      invariant sumLat == SumLatitude(ps, lo, j)
      invariant sumLng == SumLongitude(ps, lo, j)
    {
      sumLat := sumLat + ps[j].latitude;
      sumLng := sumLng + ps[j].longitude;
      j := j + 1;
    }
  }

  /** A stop that lasted at least five minutes, by its timestamps and by its rounded duration. */
  predicate LastsFiveMinutes(p: StopPoint)
  {
    p.departedAt - p.arrivedAt >= MIN_STOP_MINUTES * MINUTE_MS && p.durationMinutes >= MIN_STOP_MINUTES
  }

  lemma {:induction false} StopsOfBounds(ps: seq<Point>, cs: seq<Span>)
    requires forall k :: 0 <= k < |cs| ==> ValidSpan(ps, cs[k])
    ensures forall k :: 0 <= k < |StopsOf(ps, cs)| ==> LastsFiveMinutes(StopsOf(ps, cs)[k])
    decreases |cs|
  {
    if |cs| > 0 {
      StopsOfBounds(ps, cs[1..]);
      var head := if LongEnough(ps, cs[0]) then [StopOf(ps, cs[0])] else [];
      var rest := StopsOf(ps, cs[1..]);
      var s := StopsOf(ps, cs);
      assert s == head + rest;
      if LongEnough(ps, cs[0]) {
        RoundMinutesAtLeast(ps[cs[0].hi - 1].time - ps[cs[0].lo].time);
        assert LastsFiveMinutes(StopOf(ps, cs[0]));
      }
      forall k | 0 <= k < |s| ensures LastsFiveMinutes(s[k]) {
        if k >= |head| {
          assert s[k] == rest[k - |head|];
        }
      }
    }
  }

  /** The stops are exactly the long-enough clusters, in order: stop k is built from the
      k-th cluster that lasted five minutes or more. */
  lemma {:induction false} StopsOfLongClusters(ps: seq<Point>, cs: seq<Span>)
    requires forall k :: 0 <= k < |cs| ==> ValidSpan(ps, cs[k])
    ensures var long := Filter(cs, c => LongEnough(ps, c));
      var s := StopsOf(ps, cs);
      |s| == |long| && forall k :: 0 <= k < |s| ==> s[k] == StopOf(ps, long[k])
    decreases |cs|
  {
    if |cs| > 0 {
      StopsOfLongClusters(ps, cs[1..]);
    }
  }

  /** No stops below ten points; otherwise every stop is the summary of one long-enough
      cluster, in index order, and lasted at least five minutes. */
  lemma DetectedStopsSpec(dist: Distance, ps: seq<Point>)
    ensures |ps| < MIN_STOP_POINTS ==> DetectedStops(dist, ps) == []
    ensures |ps| >= MIN_STOP_POINTS ==>
      var long := Filter(Clusters(dist, ps), c => LongEnough(ps, c));
      var s := DetectedStops(dist, ps);
      |s| == |long| && forall k :: 0 <= k < |s| ==> s[k] == StopOf(ps, long[k])
    ensures forall k :: 0 <= k < |DetectedStops(dist, ps)| ==> LastsFiveMinutes(DetectedStops(dist, ps)[k])
  {
    if |ps| >= MIN_STOP_POINTS {
      StopsOfLongClusters(ps, Clusters(dist, ps));
      StopsOfBounds(ps, Clusters(dist, ps));
    }
  }

  /** A stop's position is the mean of its cluster's coordinates and its times are those
      of the cluster's first and last members. */
  lemma StopOfIsCentroid(ps: seq<Point>, c: Span)
    requires ValidSpan(ps, c)
    ensures var s := StopOf(ps, c);
      && s.latitude * (c.hi - c.lo) as real == SumLatitude(ps, c.lo, c.hi)
      && s.longitude * (c.hi - c.lo) as real == SumLongitude(ps, c.lo, c.hi)
      && s.arrivedAt == ps[c.lo].time
      && s.departedAt == ps[c.hi - 1].time
  {
  }
}
