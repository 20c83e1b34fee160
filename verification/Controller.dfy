/**
 The monitor that decides when shards are frozen: it waits until the cache is stable, profiles shard
 0, picks the share of the cache to freeze, constructs shard by shard with a bounded number of passes,
 watches the frozen cache and thaws it. What it measures is arbitrary; the stop flag may be set at any
 time and is never reset. Each step is one call to a shard or one test of the stop flag.
 */
module Controller {

  const PASS_THRESHOLD: nat := 3
  const FC_RELAXATION: nat := 20

  datatype Pc =
    | Filling                       // WAIT_STABLE
    | Profiling                     // before get_curve
    | TierUp(i: nat)                // freezing everything once, to measure
    | TierDown(i: nat)
    | Deciding
    | Dozing
    | Entering                      // CONSTRUCT
    | PassTop
    | Building                      // a pass: constructing
    | Judging                       // the same pass: comparing with the baseline
    | Built
    | Watching                      // top of the frozen loop
    | Measuring                     // its body
    | Refreshing(i: nat)
    | Thawing(i: nat)               // DECONSTRUCT
    | Resting
    | Ended

  datatype State = State(
    shards: nat,
    pc: Pc,
    stop: bool,
    frozen: set<nat>,
    queue: seq<nat>,                // construct_container
    fails: set<nat>,                // fail_list
    pass: nat,
    left: nat,                      // shards of the current pass still at the front of the queue
    best: real)                     // best_size

  datatype Verdict = GoOn | Depleted | Refresh

  datatype Step =
    | SetStop
    | Fill(stable: bool) | Profile | FreezeNext | ThawNext | Choose(best: real) | Decide | Doze(over: bool)
    | Enter | StartPass | Construct | Judge(good: bool) | Finish | Watch | Measure(verdict: Verdict) | Rest

  ghost predicate Init(s: State) {
    s.pc == Filling && !s.stop && s.frozen == {} && s.queue == [] && s.fails == {} && s.pass == 0 && s.left == 0 && s.best == 0.0
  }

  /** The sizes the search can come up with: none, a measured share, or everything. */
  predicate Share(best: real) {
    best == 0.0 || best == 1.0 || 0.01 <= best <= 0.9
  }

  ghost predicate Enabled(s: State, step: Step) {
    match step
    case SetStop => true
    case Fill(_) => s.pc == Filling
    case Profile => s.pc == Profiling
    case FreezeNext => s.pc.TierUp?
    case ThawNext => (s.pc.TierDown? && s.pc.i < s.shards) || s.pc.Refreshing? || s.pc.Thawing?
    case Choose(best) => s.pc.TierDown? && s.pc.i >= s.shards && Share(best)
    case Decide => s.pc == Deciding
    case Doze(_) => s.pc == Dozing
    case Enter => s.pc == Entering
    case StartPass => s.pc == PassTop
    case Construct => s.pc.Building? && s.queue != []
    case Judge(_) => s.pc.Judging? && (s.left > 0 ==> s.queue != [])
    case Finish => s.pc == Built
    case Watch => s.pc == Watching
    case Measure(_) => s.pc == Measuring
    case Rest => s.pc == Resting
  }

  function Range(n: nat): seq<nat> {
    seq(n, i => i)
  }

  ghost function Do(s: State, step: Step): State
    requires Enabled(s, step)
  {
    match step
    case SetStop => s.(stop := true)
    case Fill(stable) => if s.stop || stable then s.(pc := Profiling) else s
    case Profile => s.(pc := TierUp(0))
    case FreezeNext =>
      if s.pc.i < s.shards then s.(pc := TierUp(s.pc.i + 1), frozen := s.frozen + {s.pc.i}) else s.(pc := TierDown(0))
    case ThawNext => DoThaw(s)
    case Choose(best) => s.(pc := Deciding, best := best)
    case Decide => s.(pc := if !s.stop && s.best < 0.05 then Dozing else Entering)
    case Doze(over) => if s.stop then s.(pc := Entering) else if over then s.(pc := Filling) else s
    case Enter => s.(pc := PassTop, queue := s.queue + Range(s.shards), fails := {}, pass := 0)
    case StartPass => DoStartPass(s)
    case Construct => DoConstruct(s)
    case Judge(good) => DoJudge(s, good)
    case Finish => s.(pc := if !s.stop && |s.fails| == s.shards then Filling else Watching)
    case Watch => s.(pc := if s.stop then Thawing(0) else Measuring)
    case Measure(verdict) =>
      s.(pc := match verdict case GoOn => Watching case Depleted => Thawing(0) case Refresh => Refreshing(0))
    case Rest => s.(pc := if s.stop then Ended else Filling)
  }

  ghost function DoThaw(s: State): State
    requires s.pc.TierDown? || s.pc.Refreshing? || s.pc.Thawing?
  {
    var i := s.pc.i;
    match s.pc
    case TierDown(_) => s.(pc := TierDown(i + 1), frozen := s.frozen - {i})
    case Refreshing(_) => if i < s.shards then s.(pc := Refreshing(i + 1), frozen := s.frozen - {i}) else s.(pc := Entering)
    case Thawing(_) => if i < s.shards then s.(pc := Thawing(i + 1), frozen := s.frozen - {i}) else s.(pc := Resting)
  }

  /** The test of the construction loop, and its way out when there have been enough passes. */
  ghost function DoStartPass(s: State): State {
    if s.stop || s.queue == [] then s.(pc := Built)
    else if s.pass >= PASS_THRESHOLD then s.(pc := Built, queue := [], fails := s.fails + set x | x in s.queue)
    else s.(pc := Building, left := |s.queue|)
  }

  /** The front shard is frozen and goes to the back of the queue. */
  ghost function DoConstruct(s: State): State
    requires s.pc.Building? && s.queue != []
  {
    if s.left > 0 then
      s.(left := s.left - 1, frozen := s.frozen + {s.queue[0]}, queue := s.queue[1..] + [s.queue[0]])
    else s.(pc := Judging, left := |s.queue|)
  }

  /** The front shard leaves the queue, or is thawed and goes to the back for another pass. */
  ghost function DoJudge(s: State, good: bool): State
    requires s.pc.Judging? && (s.left > 0 ==> s.queue != [])
  {
    if s.left > 0 then
      if good then s.(left := s.left - 1, queue := s.queue[1..])
      else s.(left := s.left - 1, frozen := s.frozen - {s.queue[0]}, queue := s.queue[1..] + [s.queue[0]])
    else s.(pc := PassTop, pass := s.pass + 1)
  }

  // ---------------------------------------------------------------- what every step keeps

  ghost predicate Distinct(q: seq<nat>) {
    forall i, j {:trigger Apart(q, i, j)} :: 0 <= i < j < |q| ==> Apart(q, i, j)
  }

  predicate Apart(q: seq<nat>, i: nat, j: nat)
    requires i < |q| && j < |q|
  {
    q[i] != q[j]
  }

  ghost predicate Bounded(s: State) {
    && Distinct(s.queue) && (forall j :: 0 <= j < |s.queue| ==> s.queue[j] < s.shards)
    && (forall x :: x in s.frozen ==> x < s.shards) && (forall x :: x in s.fails ==> x < s.shards)
    && s.pass <= PASS_THRESHOLD && Share(s.best)
  }

  /** Of the queue, the first `left` shards are thawed and the others frozen, or the other way round. */
  ghost predicate FrontIs(s: State, thawed: bool) {
    && s.fails == {} && s.left <= |s.queue| && s.pass < PASS_THRESHOLD && s.best >= 0.05
    && (forall j :: 0 <= j < |s.queue| ==> (s.queue[j] in s.frozen <==> (j < s.left) != thawed))
    && (forall x :: 0 <= x < s.shards && x !in s.frozen ==> x in s.queue)
  }

  ghost predicate Unfrozen(s: State) {
    forall x :: 0 <= x < s.shards ==> (x !in s.frozen <==> x in s.queue || x in s.fails)
  }

  ghost predicate Placed(s: State) {
    match s.pc
    case Filling => s.frozen == {} && s.queue == []
    case Profiling => s.frozen == {} && s.queue == []
    case Deciding => s.frozen == {} && s.queue == []
    case Dozing => s.frozen == {} && s.queue == []
    case TierUp(i) => s.queue == [] && forall x :: x in s.frozen ==> x < i
    case TierDown(i) => s.queue == [] && forall x :: x in s.frozen ==> x >= i
    case Entering => s.frozen == {} && s.queue == [] && (s.stop || s.best >= 0.05)
    case PassTop => s.fails == {} && Unfrozen(s) && (s.stop || s.best >= 0.05)
    case Building => s.queue != [] && FrontIs(s, true)
    case Judging => FrontIs(s, false)
    case Built => Unfrozen(s) && (s.stop || (s.queue == [] && s.best >= 0.05))
    case Watching => Unfrozen(s) && (s.stop || (s.queue == [] && s.best >= 0.05))
    case Measuring => Unfrozen(s) && s.queue == [] && s.best >= 0.05
    case Refreshing(i) => s.queue == [] && s.best >= 0.05 && forall x :: x in s.frozen ==> x >= i
    case Thawing(i) => (s.stop || s.queue == []) && forall x :: x in s.frozen ==> x >= i
    case Resting => s.frozen == {} && (s.stop || s.queue == [])
    case Ended => s.frozen == {} && s.stop
  }

  ghost predicate Inv(s: State) {
    Bounded(s) && Placed(s)
  }

  lemma RangeIs(n: nat)
    ensures Distinct(Range(n)) && |Range(n)| == n && forall x :: 0 <= x < n <==> x in Range(n)
  {
    forall i, j | 0 <= i < j < n ensures Apart(Range(n), i, j) {
    }
    forall x | 0 <= x < n ensures x in Range(n) {
      assert Range(n)[x] == x;
    }
  }

  lemma EnterStep(s: State)
    requires Inv(s) && s.pc == Entering
    ensures Inv(Do(s, Enter))
  {
    RangeIs(s.shards);
    assert s.queue + Range(s.shards) == Range(s.shards);
  }

  lemma StartPassStep(s: State)
    requires Inv(s) && s.pc == PassTop
    ensures Inv(DoStartPass(s))
  {
  }

  lemma RotateDistinct(q: seq<nat>)
    requires Distinct(q) && q != []
    ensures Distinct(q[1..] + [q[0]]) && Distinct(q[1..]) && q[0] !in q[1..]
  {
    var r := q[1..] + [q[0]];
    forall i, j | 0 <= i < j < |r| ensures Apart(r, i, j) {
      if j < |q| - 1 {
        assert Apart(q, i + 1, j + 1);
      } else {
        assert Apart(q, 0, i + 1);
      }
    }
    forall i, j | 0 <= i < j < |q[1..]| ensures Apart(q[1..], i, j) {
      assert Apart(q, i + 1, j + 1);
    }
    forall j | 0 <= j < |q[1..]| ensures q[1..][j] != q[0] {
      assert Apart(q, 0, j + 1);
    }
  }

  lemma Rotated(q: seq<nat>, j: nat)
    requires q != [] && j < |q|
    ensures (q[1..] + [q[0]])[j] == if j < |q| - 1 then q[j + 1] else q[0]
    ensures forall x :: x in q <==> x in q[1..] + [q[0]]
  {
    assert q == [q[0]] + q[1..];
  }

  lemma ConstructStep(s: State)
    requires Inv(s) && s.pc == Building
    ensures Inv(DoConstruct(s))
  {
    var s' := DoConstruct(s);
    if s.left > 0 {
      RotateDistinct(s.queue);
      Rotated(s.queue, 0);
      forall j | 0 <= j < |s'.queue|
        ensures s'.queue[j] < s.shards && (s'.queue[j] in s'.frozen <==> (j < s'.left) != true)
      {
        Rotated(s.queue, j);
        if j < |s.queue| - 1 {
          assert Apart(s.queue, 0, j + 1);
        }
      }
    }
  }

  lemma JudgeStep(s: State, good: bool)
    requires Inv(s) && s.pc == Judging && Enabled(s, Judge(good))
    ensures Inv(DoJudge(s, good))
  {
    var s' := DoJudge(s, good);
    if s.left > 0 {
      RotateDistinct(s.queue);
      Rotated(s.queue, 0);
      forall j | 0 <= j < |s'.queue|
        ensures s'.queue[j] < s.shards && (s'.queue[j] in s'.frozen <==> j < s'.left)
      {
        Rotated(s.queue, j);
        if j < |s.queue| - 1 {
          assert Apart(s.queue, 0, j + 1);
        }
      }
    }
  }

  lemma {:induction false} SetBelow(a: set<nat>, n: nat)
    requires forall x :: x in a ==> x < n
    ensures |a| <= n
  {
    if n > 0 {
      var rest := a - {n - 1};
      SetBelow(rest, n - 1);
      assert n - 1 in a ==> a == rest + {n - 1};
      assert n - 1 !in a ==> a == rest;
    } else {
      assert a == {};
    }
  }

  /** As many failures as shards: all have failed. */
  lemma {:induction false} AllFailed(a: set<nat>, n: nat, y: nat)
    requires (forall x :: x in a ==> x < n) && |a| == n && y < n
    ensures y in a
  {
    var rest := a - {n - 1};
    SetBelow(rest, n - 1);
    assert n - 1 in a ==> a == rest + {n - 1};
    assert n - 1 !in a ==> a == rest;
    if y < n - 1 {
      AllFailed(rest, n - 1, y);
    }
  }

  lemma FinishStep(s: State)
    requires Inv(s) && s.pc == Built
    ensures Inv(Do(s, Finish))
  {
    if !s.stop && |s.fails| == s.shards {
      forall x | x in s.frozen ensures false {
        AllFailed(s.fails, s.shards, x);
      }
    }
  }

  lemma ThawStep(s: State)
    requires Inv(s) && Enabled(s, ThawNext)
    ensures Inv(DoThaw(s))
  {
  }

  lemma StepInv(s: State, step: Step)
    requires Inv(s) && Enabled(s, step)
    ensures Inv(Do(s, step))
  {
    match step
    case Finish => FinishStep(s);
    case ThawNext => ThawStep(s);
    case Enter => EnterStep(s);
    case StartPass => StartPassStep(s);
    case Construct => ConstructStep(s);
    case Judge(good) => JudgeStep(s, good);
    case _ => OtherStep(s, step);
  }

  lemma OtherStep(s: State, step: Step)
    requires Inv(s) && Enabled(s, step)
    requires !step.Finish? && !step.ThawNext? && !step.Enter? && !step.StartPass? && !step.Construct? && !step.Judge?
    ensures Inv(Do(s, step))
  {
  }

  ghost predicate Run(states: seq<State>, steps: seq<Step>) {
    && |states| == |steps| + 1 && Init(states[0])
    && forall i :: 0 <= i < |steps| ==> Enabled(states[i], steps[i]) && states[i + 1] == Do(states[i], steps[i])
  }

  lemma {:induction false} RunInv(states: seq<State>, steps: seq<Step>, i: nat)
    requires Run(states, steps) && i < |states|
    ensures Inv(states[i]) && states[i].shards == states[0].shards
  {
    if i > 0 {
      RunInv(states, steps, i - 1);
      StepInv(states[i - 1], steps[i - 1]);
    }
  }

  // ---------------------------------------------------------------- what follows for every run

  /** The shard a step freezes, if any. */
  ghost function Freezes(s: State, step: Step): set<nat>
    requires Enabled(s, step)
  {
    if step == FreezeNext && s.pc.i < s.shards then {s.pc.i}
    else if step == Construct && s.left > 0 then {s.queue[0]}
    else {}
  }

  /** A shard is only ever frozen when it is thawed. */
  lemma FreezesThawed(states: seq<State>, steps: seq<Step>, i: nat, x: nat)
    requires Run(states, steps) && i < |steps| && x in Freezes(states[i], steps[i])
    ensures x < states[i].shards && x !in states[i].frozen && x in states[i + 1].frozen
  {
    RunInv(states, steps, i);
  }

  /** The share handed to construct_ratio is between 0.05 and 0.9; otherwise the whole shard is frozen. */
  lemma RatioInRange(states: seq<State>, steps: seq<Step>, i: nat)
    requires Run(states, steps) && i < |steps| && steps[i] == Construct && states[i].left > 0
    ensures 0.05 <= states[i].best <= 0.9 || states[i].best == 1.0
  {
    RunInv(states, steps, i);
  }

  /** Profiling starts with every shard thawed. */
  lemma ProfilesThawed(states: seq<State>, steps: seq<Step>, i: nat)
    requires Run(states, steps) && i < |steps| && steps[i] == Profile
    ensures states[i].frozen == {}
  {
    RunInv(states, steps, i);
  }

  /** Whenever construction begins, the queue is empty and every shard is thawed. */
  lemma QueueEmptyOnEntry(states: seq<State>, steps: seq<Step>, i: nat)
    requires Run(states, steps) && i < |steps| && steps[i] == Enter
    ensures states[i].queue == [] && states[i].frozen == {}
  {
    RunInv(states, steps, i);
  }

  /** Between passes, and after the last one, the thawed shards are exactly those queued or given up. */
  lemma ThawedAreQueuedOrFailed(states: seq<State>, steps: seq<Step>, i: nat, x: nat)
    requires Run(states, steps) && i < |states| && x < states[i].shards
    requires states[i].pc == PassTop || states[i].pc == Built || states[i].pc == Watching || states[i].pc == Measuring
    ensures x !in states[i].frozen <==> x in states[i].queue || x in states[i].fails
  {
    RunInv(states, steps, i);
  }

  /** No pass begins after PASS_THRESHOLD of them; a construction not stopped ends with an empty queue. */
  lemma PassesBounded(states: seq<State>, steps: seq<Step>, i: nat)
    requires Run(states, steps) && i < |states|
    ensures states[i].pass <= PASS_THRESHOLD
    ensures states[i].pc == Building || states[i].pc == Judging ==> states[i].pass < PASS_THRESHOLD
    ensures states[i].pc == Built && !states[i].stop ==> states[i].queue == []
  {
    RunInv(states, steps, i);
  }

  /** The monitor ends with every shard thawed. */
  lemma EndsThawed(states: seq<State>, steps: seq<Step>, i: nat)
    requires Run(states, steps) && i < |states| && states[i].pc == Ended
    ensures states[i].frozen == {} && states[i].stop
  {
    RunInv(states, steps, i);
  }
}
