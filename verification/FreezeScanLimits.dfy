/**
 Where the guarantees of the freezing scan end. The slack keeps the scan on linked nodes exactly as
 long as twice the inserts of one pass of its loop, and the uncounted ones, stay below twice the slack
 less one. The frozen part stays within the slack of its target exactly when no two inserts are under
 way at once.
 */
module FreezeScanLimits {
  import opened FreezeScan
  import opened Sets

  // ---------------------------------------------------------------- runs, step by step

  datatype Trace = Trace(states: seq<State>, steps: seq<Step>) {
    ghost predicate Valid() {
      Run(states, steps)
    }

    ghost function End(): State
      requires Valid()
    {
      states[|steps|]
    }
  }

  lemma Then(r: Trace, step: Step) returns (r': Trace)
    requires r.Valid() && r.End().fcSize <= r.End().maxSize && Enabled(r.End(), step)
    ensures r'.Valid() && r'.End() == Do(r.End(), step) && r'.states == r.states + [Do(r.End(), step)]
  {
    r' := Trace(r.states + [Do(r.End(), step)], r.steps + [step]);
  }

  /** Nodes and keys are numbered. */
  ghost function N(i: nat): Node {
    Node(i, i)
  }

  ghost function Line(n: nat): seq<Node> {
    seq(n, i requires 0 <= i => N(i))
  }

  /** A full cache of the first keys; threads 0 .. n have made their map entries and are not counted. */
  ghost function Start(maxSize: nat, fcSize: nat, pace: nat, n: nat): State {
    var index := map k: nat | k < 100 + n && (k < maxSize || 100 <= k) :: Entry(0, N(k));
    var inserts: map<Thread, Insert> := map t <- Below(n) :: Mapped(N(100 + t));
    State(maxSize, fcSize, Line(maxSize), [], index, map[], maxSize, 0, inserts, Top, N(0), At(N(0)), 0, true,
          pace, Line(maxSize), n, false, 0, 0, 0, 0)
  }

  lemma StartPlaced(maxSize: nat, fcSize: nat, pace: nat, n: nat)
    requires maxSize <= 100
    ensures Placed(Start(maxSize, fcSize, pace, n))
  {
    var s := Start(maxSize, fcSize, pace, n);
    LineNoDup(maxSize);
    forall n <- s.main ensures BoundIn(s.index, n) {
      assert n.key < maxSize && n == N(n.key);
    }
    forall t <- s.inserts ensures HoldsApart(s, s.inserts[t]) {
    }
  }

  lemma LineNoDup(n: nat)
    ensures NoDup(Line(n)) && forall x <- Line(n) :: x == N(x.key) && x.key < n
  {
    forall i, j | 0 <= i < j < n ensures Differ(Line(n), i, j) {
    }
  }

  lemma StartInit(maxSize: nat, fcSize: nat, pace: nat, n: nat)
    requires RELAX <= fcSize && RELAX + fcSize <= maxSize <= 100
    ensures Init(Start(maxSize, fcSize, pace, n))
  {
    var s := Start(maxSize, fcSize, pace, n);
    StartPlaced(maxSize, fcSize, pace, n);
    assert InFlightSet(s.inserts) == Below(n);
    assert AwaySet(s.inserts) == {};
    assert s.main[0..] == s.start;
  }

  lemma Begun(maxSize: nat, fcSize: nat, pace: nat, n: nat) returns (r: Trace)
    requires RELAX <= fcSize && RELAX + fcSize <= maxSize <= 100
    ensures r == Trace([Start(maxSize, fcSize, pace, n)], []) && r.Valid() && r.End() == Start(maxSize, fcSize, pace, n)
  {
    StartInit(maxSize, fcSize, pace, n);
    r := Trace([Start(maxSize, fcSize, pace, n)], []);
  }

  // ---------------------------------------------------------------- when the scan strays

  /** Under this pace and with so many uncounted nodes no run leads the scan off the lists. */
  ghost predicate NeverStrays(pace: nat, early: nat) {
    forall states: seq<State>, steps: seq<Step>, i {:trigger Run(states, steps), states[i]} ::
      Run(states, steps) && states[0].pace <= pace && states[0].early <= early && 0 <= i < |states|
      ==> states[i].scan != Stray
  }

  lemma StraysIff(pace: nat, early: nat)
    ensures NeverStrays(pace, early) <==> 2 * pace + early < 2 * RELAX - 1
  {
    if 2 * pace + early < 2 * RELAX - 1 {
      forall states: seq<State>, steps: seq<Step>, i | Run(states, steps) && states[0].pace <= pace && states[0].early <= early && 0 <= i < |states|
        ensures states[i].scan != Stray
      {
        ScannerNeverStrays(states, steps, i);
      }
    } else {
      var r := StrayingRun(pace, early);
      assert r.states[|r.steps|].scan == Stray;
    }
  }

  /** The state of a cache for 40 keys, 20 of them to be frozen, that has only been evicting. */
  ghost predicate Draining(s: State, left: nat, used: nat) {
    && s.maxSize == 40 && s.fcSize == 20 && s.size == 40 && s.frozen == [] && !s.cut && s.firstPass
    && left <= 40 && s.main == Line(40)[..left]
    && 0 in s.index && (forall k <- s.index :: k < 100 + used) && (forall t <- s.inserts :: t < used)
  }

  /** A thread that has its map entry loads the size and evicts. */
  lemma EvictOne(r: Trace, t: Thread, left: nat, used: nat) returns (r': Trace)
    requires r.Valid() && left > 0 && Draining(r.End(), left, used) && t in r.End().inserts && r.End().inserts[t].Mapped?
    ensures r'.Valid() && Draining(r'.End(), left - 1, used) && SameScan(r.End(), r'.End()) && r'.End().gap == r.End().gap
    ensures forall u <- r.End().inserts :: u != t ==> u in r'.End().inserts && r'.End().inserts[u] == r.End().inserts[u]
    ensures r.states <= r'.states
  {
    r' := Then(r, LoadSize(t));
    r' := Then(r', Evict(t));
  }

  lemma BeginOne(r: Trace, left: nat, used: nat) returns (r': Trace)
    requires r.Valid() && Draining(r.End(), left, used) && r.End().gap < r.End().pace
    ensures r'.Valid() && Draining(r'.End(), left, used + 1) && SameScan(r.End(), r'.End()) && r'.End().gap == r.End().gap + 1
    ensures used in r'.End().inserts && r'.End().inserts[used].Mapped?
    ensures forall u <- r.End().inserts :: u in r'.End().inserts && r'.End().inserts[u] == r.End().inserts[u]
    ensures r.states <= r'.states
  {
    r' := Then(r, Begin(used, N(100 + used), 0));
  }

  /** The uncounted inserts evict. */
  lemma {:induction false} DrainEarly(r: Trace, from: nat, n: nat, left: nat, used: nat) returns (r': Trace)
    requires r.Valid() && from <= n && n - from <= left && Draining(r.End(), left, used) && MappedFrom(r.End(), from, n)
    ensures r'.Valid() && Draining(r'.End(), left - (n - from), used) && SameScan(r.End(), r'.End()) && r'.End().gap == r.End().gap
    ensures r.states <= r'.states
    decreases n - from
  {
    if from == n {
      r' := r;
    } else {
      var r1 := EvictOne(r, from, left, used);
      r' := DrainEarly(r1, from + 1, n, left - 1, used);
    }
  }

  ghost predicate MappedFrom(s: State, from: nat, n: nat) {
    forall t :: from <= t < n ==> t in s.inserts && s.inserts[t].Mapped?
  }

  /** Counted inserts begin and evict. */
  lemma {:induction false} DrainNew(r: Trace, k: nat, left: nat, used: nat, n: nat) returns (r': Trace)
    requires r.Valid() && k <= left && Draining(r.End(), left, used) && r.End().gap + k <= r.End().pace
    requires n <= used && MappedFrom(r.End(), 0, n)
    ensures r'.Valid() && Draining(r'.End(), left - k, used + k) && SameScan(r.End(), r'.End()) && MappedFrom(r'.End(), 0, n)
    ensures r.states <= r'.states
    decreases k
  {
    if k == 0 {
      r' := r;
    } else {
      var r1 := BeginOne(r, left, used);
      var r2 := EvictOne(r1, used, left, used + 1);
      r' := DrainNew(r2, k - 1, left - 1, used + 1, n);
    }
  }

  /** The scan copies its first node and steps to the second. */
  lemma FirstPass(r: Trace, left: nat, used: nat) returns (r': Trace)
    requires r.Valid() && 2 <= left && Draining(r.End(), left, used)
    requires r.End().scan == Top && r.End().cursor == At(N(0)) && r.End().count == 0
    ensures r'.Valid() && Draining(r'.End(), left, used) && r'.End().gap == 0 && r'.End().pace == r.End().pace
    ensures r'.End().scan.Advanced? && r'.End().cursor == At(N(1)) && r'.End().count == 1 && r'.End().inserts == r.End().inserts
    ensures r.states <= r'.states
  {
    FirstPassIs(r.End(), left, used);
    r' := Then(r, ScanTop);
    r' := Then(r', ScanFind);
    r' := Then(r', ScanAdvance);
  }

  lemma FirstPassIs(s: State, left: nat, used: nat)
    requires 2 <= left && Draining(s, left, used) && s.scan == Top && s.cursor == At(N(0)) && s.count == 0
    ensures var s1 := DoScanTop(s); s1.scan.Loaded? && s1.fcSize == 20 && s1.maxSize == 40
    ensures var s2 := DoScanFind(DoScanTop(s)); s2.scan.Inserted? && s2.fcSize == 20 && s2.maxSize == 40
    ensures var s3 := DoScanAdvance(DoScanFind(DoScanTop(s)));
      && Draining(s3, left, used) && s3.gap == 0 && s3.pace == s.pace
      && s3.scan.Advanced? && s3.cursor == At(N(1)) && s3.count == 1 && s3.inserts == s.inserts
  {
    LineNext(left);
  }

  lemma LineNext(left: nat)
    requires 2 <= left <= 40
    ensures var main := Line(40)[..left]; N(0) in main && PositionOf(main, N(0)) == 0 && main[1] == N(1)
  {
    var main := Line(40)[..left];
    assert main[0] == N(0);
  }

  /** The node the scan stands on has been evicted when it cuts. */
  lemma CutStrays(r: Trace, used: nat) returns (r': Trace)
    requires r.Valid() && Draining(r.End(), 1, used)
    requires r.End().scan.Advanced? && r.End().cursor == At(N(1)) && r.End().count == 1
    ensures r'.Valid() && r'.End().scan == Stray
    ensures r.states <= r'.states
  {
    assert forall n <- r.End().main :: n == N(0);
    r' := Then(r, ScanCut);
  }

  /**
   The run: a cache for 40 keys, 20 to be frozen. A first round of counted inserts evicts, the scan
   makes its first pass, and then the uncounted inserts and a second round evict the node it stands on.
   */
  lemma StrayingRun(pace: nat, early: nat) returns (r: Trace)
    requires 2 * pace + early >= 2 * RELAX - 1
    ensures r.Valid() && r.states[0].pace <= pace && r.states[0].early <= early && r.End().scan == Stray
  {
    var a := if pace <= 20 then pace else 20;
    var b := if pace <= 39 - a then pace else 39 - a;
    var e := 39 - a - b;
    var r1 := FirstRound(pace, a, e);
    r := SecondRound(r1, b, e, a);
    assert r.states[0] == r1.states[0];
  }

  lemma FirstRound(pace: nat, a: nat, e: nat) returns (r: Trace)
    requires a <= pace && a <= 20
    ensures r.Valid() && r.states[0].pace == pace && r.states[0].early == e
    ensures Draining(r.End(), 40 - a, e + a) && MappedFrom(r.End(), 0, e) && r.End().gap == 0 && r.End().pace == pace
    ensures r.End().scan.Advanced? && r.End().cursor == At(N(1)) && r.End().count == 1
  {
    var r0 := Begun(40, 20, pace, e);
    assert Line(40) == Line(40)[..40];
    var r1 := DrainNew(r0, a, 40, e, e);
    r := FirstPass(r1, 40 - a, e + a);
    assert r.states[0] == r0.states[0];
  }

  lemma SecondRound(r: Trace, b: nat, e: nat, a: nat) returns (r': Trace)
    requires r.Valid() && a + b + e == 39 && b <= r.End().pace
    requires Draining(r.End(), 40 - a, e + a) && MappedFrom(r.End(), 0, e) && r.End().gap == 0
    requires r.End().scan.Advanced? && r.End().cursor == At(N(1)) && r.End().count == 1
    ensures r'.Valid() && r'.End().scan == Stray && r.states <= r'.states
  {
    var r1 := DrainNew(r, b, 40 - a, e + a, e);
    var r2 := DrainEarly(r1, 0, e, 40 - a - b, e + a + b);
    r' := CutStrays(r2, e + a + b);
  }

  // ---------------------------------------------------------------- how much is frozen

  ghost predicate AtMost(states: seq<State>, T: nat) {
    forall i :: 0 <= i < |states| ==> |states[i].inserts| <= T
  }

  /** With at most T inserts under way at once, the frozen part of every slow run is within the slack. */
  ghost predicate WithinSlack(T: nat) {
    forall states: seq<State>, steps: seq<Step>, i {:trigger Run(states, steps), states[i]} ::
      Run(states, steps) && Slow(states[0]) && AtMost(states, T) && 0 <= i < |states| && states[i].cut
      ==> |states[i].frozen| <= states[i].fcSize + RELAX
  }

  lemma WithinSlackIff(T: nat)
    ensures WithinSlack(T) <==> T <= 1
  {
    if T <= 1 {
      forall states: seq<State>, steps: seq<Step>, i |
          Run(states, steps) && Slow(states[0]) && AtMost(states, T) && 0 <= i < |states| && states[i].cut
        ensures |states[i].frozen| <= states[i].fcSize + RELAX
      {
        FrozenLength(states, steps, T, i);
      }
    } else {
      var r := WideRun();
      assert |r.states[|r.steps|].frozen| > r.states[|r.steps|].fcSize + RELAX;
    }
  }

  lemma FrozenLength(states: seq<State>, steps: seq<Step>, T: nat, i: nat)
    requires Run(states, steps) && Slow(states[0]) && AtMost(states, T) && i < |states| && states[i].cut
    ensures states[i].fcSize - RELAX < |states[i].frozen| < states[i].fcSize + RELAX + T
  {
    LagBounded(states, steps, T, i);
    RunInv(states, steps, i);
  }

  lemma {:induction false} LagBounded(states: seq<State>, steps: seq<Step>, T: nat, i: nat)
    requires Run(states, steps) && AtMost(states, T) && i < |states|
    ensures states[i].lag <= T
  {
    if i > 0 {
      LagBounded(states, steps, T, i - 1);
      LagNext(states, steps, i - 1);
    }
  }

  lemma LagNext(states: seq<State>, steps: seq<Step>, i: nat)
    requires Run(states, steps) && i < |steps|
    ensures states[i + 1].lag == states[i].lag || states[i + 1].lag <= |states[i].inserts|
  {
    LagStep(states[i], steps[i]);
  }

  lemma LagStep(s: State, step: Step)
    requires s.fcSize <= s.maxSize && Enabled(s, step)
    ensures Do(s, step).lag == s.lag || Do(s, step).lag <= |s.inserts|
  {
    if IsScan(step) {
      Smaller(InFlightSet(s.inserts), s.inserts.Keys);
    } else {
      InsertSameScan(s, step);
    }
  }

  /** The scan looks at its first node when two inserts have begun and neither has evicted. */
  lemma WideRun() returns (r: Trace)
    ensures r.Valid() && Slow(r.states[0]) && AtMost(r.states, 2)
    ensures r.End().cut && |r.End().frozen| == r.End().fcSize + RELAX + 1
  {
    var r0 := TwoBegin();
    r := ScanOnce(r0);
    assert r.states[0] == r0.states[0];
  }

  /** The first n threads have begun, and the scan has not. */
  ghost predicate Waiting(s: State, n: nat) {
    && !s.cut && s.scan == Top && s.count == 0 && s.firstPass && s.early == 0 && s.maxSize == 42 && s.fcSize == 21
    && s.evictions == s.gap == n && s.pace == 2 && (forall k <- s.index :: k < 100 + n)
    && s.inserts.Keys == Below(n) && (forall t <- s.inserts :: s.inserts[t].Mapped?)
  }

  ghost predicate BothWaiting(s: State) {
    Waiting(s, 2) && |s.inserts| == 2 && InFlight(s.inserts) == 2
  }

  lemma BeginNext(r: Trace, n: nat) returns (r': Trace)
    requires r.Valid() && n < 2 && Waiting(r.End(), n)
    ensures r'.Valid() && Waiting(r'.End(), n + 1) && r'.states == r.states + [r'.End()]
  {
    r' := Then(r, Begin(n, N(100 + n), 0));
    assert r'.End().inserts.Keys == Below(n + 1);
  }

  lemma TwoBegin() returns (r: Trace)
    ensures r.Valid() && Slow(r.states[0]) && AtMost(r.states, 2) && BothWaiting(r.End())
  {
    var r0 := Begun(42, 21, 2, 0);
    var r1 := BeginNext(r0, 0);
    r := BeginNext(r1, 1);
    assert InFlightSet(r.End().inserts) == Below(2);
    assert |r0.End().inserts.Keys| == 0 && |r1.End().inserts.Keys| == 1 && |r.End().inserts.Keys| == 2;
  }

  lemma ScanOnceIs(s: State)
    requires Inv(s) && BothWaiting(s)
    ensures var s3 := DoScanTop(s); s3.scan == Loaded(2) && s3.fcSize == 21 && s3.maxSize == 42 && s3.inserts == s.inserts
    ensures var s4 := DoScanFind(DoScanTop(s)); s4.scan == Inserted(2) && s4.fcSize == 21 && s4.maxSize == 42 && s4.inserts == s.inserts
    ensures var s5 := DoScanAdvance(DoScanFind(DoScanTop(s))); OnePassed(s5) && s5.inserts == s.inserts
  {
    ScanTopBeforeCut(s);
    ScanFindBeforeCut(DoScanTop(s));
    ScanAdvanceBeforeCut(DoScanFind(DoScanTop(s)));
  }

  ghost predicate OnePassed(s: State) {
    && !s.cut && s.scan == Advanced(2) && s.count == 1 && s.firstPass && s.evictions == 2 && s.early == 0
    && s.maxSize == 42 && s.fcSize == 21 && InFlight(s.inserts) == 2
  }

  lemma CutsWide(s: State)
    requires Inv(s) && OnePassed(s)
    ensures var s' := DoScanCut(s); s'.cut && |s'.frozen| == 42 && s'.fcSize == 21 && s'.inserts == s.inserts
  {
    CutAtTailLength(s);
  }

  /** One step of the scan, which leaves the inserts alone. */
  lemma ThenScan(r: Trace, step: Step, s': State) returns (r': Trace)
    requires r.Valid() && AtMost(r.states, 2) && r.End().fcSize <= r.End().maxSize && Enabled(r.End(), step)
    requires s' == Do(r.End(), step) && |s'.inserts| == 2
    ensures r'.Valid() && AtMost(r'.states, 2) && r'.End() == s' && r.states <= r'.states
  {
    r' := Then(r, step);
  }

  lemma ScanWalk(r: Trace) returns (r': Trace)
    requires r.Valid() && Slow(r.states[0]) && AtMost(r.states, 2) && BothWaiting(r.End())
    ensures r'.Valid() && AtMost(r'.states, 2) && r.states <= r'.states && OnePassed(r'.End()) && |r'.End().inserts| == 2
  {
    var s := r.End();
    RunInv(r.states, r.steps, |r.steps|);
    ScanOnceIs(s);
    var s3 := DoScanTop(s);
    var s4 := DoScanFind(s3);
    var r3 := ThenScan(r, ScanTop, s3);
    var r4 := ThenScan(r3, ScanFind, s4);
    r' := ThenScan(r4, ScanAdvance, DoScanAdvance(s4));
  }

  lemma ScanOnce(r: Trace) returns (r': Trace)
    requires r.Valid() && Slow(r.states[0]) && AtMost(r.states, 2) && BothWaiting(r.End())
    ensures r'.Valid() && AtMost(r'.states, 2) && r.states <= r'.states && r'.End().cut && |r'.End().frozen| == 42 && r'.End().fcSize == 21
  {
    var r5 := ScanWalk(r);
    RunInv(r5.states, r5.steps, |r5.steps|);
    CutsWide(r5.End());
    r' := ThenScan(r5, ScanCut, DoScanCut(r5.End()));
  }
}
