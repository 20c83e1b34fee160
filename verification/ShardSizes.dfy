/**
 The arithmetic around the monitor: how the capacity is split among shards, which share of the cache
 the search picks from its measurements, and for which shards freezing that share cannot make the
 unsigned subtractions of construct_ratio wrap. Doubles are reals.
 */
module ShardSizes {
  import Controller

  const RELAX := Controller.FC_RELAXATION

  // ---------------------------------------------------------------- splitting the capacity

  function Sum(sizes: seq<nat>): nat {
    if sizes == [] then 0 else Sum(sizes[..|sizes| - 1]) + sizes[|sizes| - 1]
  }

  /** Every shard gets its share rounded down or up, and nothing of the capacity is lost. */
  method SplitShards(maxSize: nat, shards: nat) returns (sizes: seq<nat>)
    requires shards > 0
    ensures |sizes| == shards && Sum(sizes) == maxSize
    ensures forall i :: 0 <= i < shards ==> maxSize / shards <= sizes[i] <= maxSize / shards + 1
    ensures forall i, j :: 0 <= i < j < shards ==> sizes[i] >= sizes[j]
  {
    var q, t := maxSize / shards, maxSize % shards;
    sizes := [];
    while |sizes| < shards
      invariant |sizes| <= shards && sizes == Shares(q, t, |sizes|)
    {
      var s := q;
      if |sizes| < t {
        s := s + 1;
      }
      sizes := sizes + [s];
    }
    SharesAre(q, t, shards);
    assert maxSize == shards * q + t by { DivMod(maxSize, shards); }
  }

  lemma DivMod(n: nat, d: nat)
    requires d > 0
    ensures n == d * (n / d) + n % d
  {
  }

  /** The first n sizes when t shards get one more than the q all get. */
  function Shares(q: nat, t: nat, n: nat): seq<nat> {
    if n == 0 then [] else Shares(q, t, n - 1) + [if n - 1 < t then q + 1 else q]
  }

  lemma {:induction false} SharesAre(q: nat, t: nat, n: nat)
    ensures |Shares(q, t, n)| == n && Sum(Shares(q, t, n)) == n * q + (if n < t then n else t)
    ensures forall i :: 0 <= i < n ==> Shares(q, t, n)[i] == if i < t then q + 1 else q
  {
    if n > 0 {
      SharesAre(q, t, n - 1);
      var rest := Shares(q, t, n - 1);
      assert Shares(q, t, n)[..n - 1] == rest;
      OneMore(n - 1, q);
    }
  }

  lemma OneMore(i: nat, q: nat)
    ensures (i + 1) * q == i * q + q
  {
  }

  // ---------------------------------------------------------------- what is frozen of a shard

  function FcSize(ratio: real, capacity: nat): int {
    (ratio * capacity as real).Floor
  }

  /** Neither FC_size - FC_RELAXATION nor DC_size - FC_RELAXATION is negative. */
  predicate NoWrap(ratio: real, capacity: nat) {
    FcSize(ratio, capacity) >= RELAX && capacity - FcSize(ratio, capacity) >= RELAX
  }

  lemma ScaleBounds(ratio: real, c: real)
    requires 0.05 <= ratio <= 0.9 && c >= 0.0
    ensures 0.05 * c <= ratio * c <= 0.9 * c
  {
  }

  lemma BigEnough(ratio: real, capacity: nat)
    requires 0.05 <= ratio <= 0.9 && capacity >= 400
    ensures NoWrap(ratio, capacity)
  {
    ScaleBounds(ratio, capacity as real);
  }

  /** The subtractions are safe for every share the monitor may ask for exactly from capacity 400 on. */
  lemma NoWrapIff(capacity: nat)
    ensures (forall ratio: real :: 0.05 <= ratio <= 0.9 ==> NoWrap(ratio, capacity)) <==> capacity >= 400
  {
    if capacity >= 400 {
      forall ratio: real | 0.05 <= ratio <= 0.9 ensures NoWrap(ratio, capacity) {
        BigEnough(ratio, capacity);
      }
    } else {
      assert FcSize(0.05, capacity) < RELAX;
      assert !NoWrap(0.05, capacity);
    }
  }

  /** In every run of the monitor over shards of a cache with room for 400 keys each. */
  lemma ShardsNeverWrap(states: seq<Controller.State>, steps: seq<Controller.Step>, i: nat, sizes: seq<nat>, x: nat)
    requires Controller.Run(states, steps) && i < |steps| && x in Controller.Freezes(states[i], steps[i])
    requires steps[i] == Controller.Construct && states[i].best != 1.0
    requires |sizes| == states[i].shards && forall k :: 0 <= k < |sizes| ==> sizes[k] >= 400
    ensures x < |sizes| && NoWrap(states[i].best, sizes[x])
  {
    Controller.FreezesThawed(states, steps, i, x);
    Controller.RatioInRange(states, steps, i);
    BigEnough(states[i].best, sizes[x]);
  }

  // ---------------------------------------------------------------- the search

  datatype Point = Point(size: real, fcHit: real, miss: real)

  /**
   One look of the waiting loop at the running cache: nodes ahead of the marker, hit and miss rate since
   the last look, and whether the monitor was to stop by then. The last two are the rates a point is
   recorded with if the wait ends here.
   */
  datatype Look = Look(moved: nat, hit: real, miss: real, stop: bool, fcHit: real, fcMiss: real)

  /** The i-th wait ends at saturation, when the marker has moved i steps of two percent, or on a stop. */
  predicate Ends(look: Look, maxSize: nat, i: nat) {
    look.hit + look.miss > 0.992 || look.moved as real > maxSize as real * i as real / 100.0 * 2.0 || look.stop
  }

  method Wait(looks: seq<Look>, start: nat, maxSize: nat, i: nat) returns (j: nat)
    requires start <= |looks|
    ensures start <= j <= |looks| && (j < |looks| ==> Ends(looks[j], maxSize, i))
    ensures forall k :: start <= k < j ==> !Ends(looks[k], maxSize, i)
  {
    j := start;
    while j < |looks| && !Ends(looks[j], maxSize, i)
      invariant start <= j <= |looks| && forall k :: start <= k < j ==> !Ends(looks[k], maxSize, i)
    {
      j := j + 1;
    }
  }

  /** None of these looks ends the i-th wait. */
  ghost predicate Quiet(looks: seq<Look>, start: nat, end: nat, maxSize: nat, i: nat) {
    forall k :: start <= k < end < |looks| ==> !Ends(looks[k], maxSize, i)
  }

  /**
   The i-th point, taken from this look. Its share is above two percent for each earlier point, unless
   saturation or a stop cut the wait short.
   */
  ghost predicate Recorded(p: Point, look: Look, maxSize: nat, i: nat)
    requires maxSize > 0
  {
    && p == Point(look.moved as real / maxSize as real, look.fcHit, look.fcMiss)
    && p.size <= 0.9 && p.fcHit + p.miss <= 0.992 && Ends(look, maxSize, i)
    && (p.size > i as real * 0.02 || look.hit + look.miss > 0.992 || look.stop)
  }

  /** The i-th point comes from a look at the end of its wait, which began behind the one before. */
  ghost predicate Taken(curve: seq<Point>, at: seq<nat>, looks: seq<Look>, maxSize: nat, i: nat)
    requires maxSize > 0 && i < |curve| == |at|
  {
    && at[i] < |looks| && Recorded(curve[i], looks[at[i]], maxSize, i)
    && Quiet(looks, if i == 0 then 0 else at[i - 1] + 1, at[i], maxSize, i)
  }

  /**
   The points get_curve records from a stream of looks; `at` says at which look. It stops at the first
   share above 0.9, at saturation and when told to.
   */
  method DrawCurve(maxSize: nat, looks: seq<Look>) returns (curve: seq<Point>, ghost at: seq<nat>)
    requires maxSize > 0
    ensures |at| == |curve| <= 45
    ensures forall i :: 0 <= i < |curve| ==> curve[i].size <= 0.9 && Taken(curve, at, looks, maxSize, i)
  {
    curve, at := [], [];
    var i, next, stopped := 0, 0, false;
    while i < 45 && !stopped
      invariant |curve| == |at| == i <= 45 && next <= |looks| && next == if i == 0 then 0 else at[i - 1] + 1
      invariant forall k {:trigger Taken(curve, at, looks, maxSize, k)} :: 0 <= k < i ==> Taken(curve, at, looks, maxSize, k)
    {
      var j := Wait(looks, next, maxSize, i);
      if j == |looks| {
        break;
      }
      var look := looks[j];
      var ratio := look.moved as real / maxSize as real;
      if look.fcHit + look.fcMiss > 0.992 || ratio > 0.9 {
        break;
      }
      ShareAbove(look.moved, maxSize, i);
      TakeNext(curve, at, looks, maxSize, Point(ratio, look.fcHit, look.fcMiss), j);
      curve, at := curve + [Point(ratio, look.fcHit, look.fcMiss)], at + [j];
      i, next, stopped := i + 1, j + 1, look.stop;
    }
    forall k | 0 <= k < |curve| ensures curve[k].size <= 0.9 {
      assert Taken(curve, at, looks, maxSize, k);
    }
  }

  lemma TakeNext(curve: seq<Point>, at: seq<nat>, looks: seq<Look>, maxSize: nat, p: Point, j: nat)
    requires maxSize > 0 && |curve| == |at| && j < |looks|
    requires forall k {:trigger Taken(curve, at, looks, maxSize, k)} :: 0 <= k < |curve| ==> Taken(curve, at, looks, maxSize, k)
    requires Recorded(p, looks[j], maxSize, |curve|) && Quiet(looks, if curve == [] then 0 else at[|at| - 1] + 1, j, maxSize, |curve|)
    ensures forall k {:trigger Taken(curve + [p], at + [j], looks, maxSize, k)} :: 0 <= k <= |curve| ==> Taken(curve + [p], at + [j], looks, maxSize, k)
  {
    forall k | 0 <= k <= |curve| ensures Taken(curve + [p], at + [j], looks, maxSize, k) {
      if k < |curve| {
        assert Taken(curve, at, looks, maxSize, k);
      }
    }
  }

  lemma ShareAbove(moved: nat, maxSize: nat, i: nat)
    requires maxSize > 0
    ensures moved as real > maxSize as real * i as real / 100.0 * 2.0 ==> moved as real / maxSize as real > i as real * 0.02
  {
    var m := maxSize as real;
    var share := moved as real / m;
    assert share * m == moved as real;
    TimesAtMost(share, i as real * 0.02, m);
    assert i as real * 0.02 * m == m * i as real / 100.0 * 2.0;
  }

  lemma TimesAtMost(x: real, b: real, m: real)
    requires m > 0.0
    ensures x <= b ==> x * m <= b * m
  {
    assert (b - x) * m == b * m - x * m;
    assert x <= b ==> (b - x) * m >= 0.0;
  }

  datatype Latency = Latency(dcHit: real, miss: real, fc: real, frozenAvg: real)

  const THRESHOLD: real := 0.2     // FH_PERFORMANCE_THRESHOLD

  /** The average latency the search expects of a point of the curve. */
  function Expected(p: Point, lat: Latency): real {
    if p.size < 0.01 then (p.miss * lat.miss + (1.0 - p.miss) * lat.dcHit) / (1.0 + THRESHOLD)
    else p.fcHit * lat.fc + p.miss * (lat.miss + lat.fc) + (1.0 - p.fcHit - p.miss) * (lat.fc + lat.dcHit)
  }

  /** The size a point stands for: tiny ones for no freezing, a last large one for a full freeze. */
  function Meant(p: Point, isLast: bool): real {
    if p.size < 0.01 then 0.0 else if isLast && p.size > 0.65 then 1.0 else p.size
  }

  /** The option with the least expected latency, the full freeze included. */
  method BestSize(curve: seq<Point>, lat: Latency) returns (best: real, avg: real)
    ensures avg <= 1000.0 && avg <= lat.frozenAvg && forall i :: 0 <= i < |curve| ==> avg <= Expected(curve[i], lat)
    ensures (best == 0.0 && avg == 1000.0) || (best == 1.0 && avg == lat.frozenAvg)
      || exists i :: 0 <= i < |curve| && best == Meant(curve[i], i == |curve| - 1) && avg == Expected(curve[i], lat)
    ensures (forall i :: 0 <= i < |curve| ==> curve[i].size <= 0.9) ==> Controller.Share(best)
  {
    best, avg := 0.0, 1000.0;
    var i := 0;
    while i < |curve|
      invariant 0 <= i <= |curve| && avg <= 1000.0
      invariant forall k :: 0 <= k < i ==> avg <= Expected(curve[k], lat)
      invariant (best == 0.0 && avg == 1000.0)
        || exists k :: 0 <= k < i && best == Meant(curve[k], k == |curve| - 1) && avg == Expected(curve[k], lat)
    {
      var here := Expected(curve[i], lat);
      if here < avg {
        best, avg := Meant(curve[i], i == |curve| - 1), here;
      }
      i := i + 1;
    }
    if avg > lat.frozenAvg {
      best, avg := 1.0, lat.frozenAvg;
    }
  }
}
