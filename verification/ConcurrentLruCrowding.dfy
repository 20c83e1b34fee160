/**
 How many inserts the baseline LRU cache bears at once before an eviction finds the list empty: as many as
 it has room for if nobody deletes, and none at all if somebody does. What deletes then do to the size
 counter is shown for every capacity, too.
 */
module ConcurrentLruCrowding {
  import opened ConcurrentLru
  import opened ConcurrentLruCounting
  import opened ConcurrentLruRuns
  import opened Sets

  /** No run at this capacity, with at most T inserts in flight, evicts from an empty list. */
  ghost predicate NeverEmpty(max: nat, T: nat, deletes: bool) {
    forall states: seq<State>, steps: seq<Step>, i {:trigger Run(states, steps), steps[i]} ::
      (&& Run(states, steps) && states[0].max == max && (deletes || NoDelete(steps)) && AtMost(states, T)
       && 0 <= i < |steps| && steps[i].act.Evict?)
      ==> states[i].list != []
  }

  /** With no insert in flight nothing ever happens. */
  lemma NothingHappens(states: seq<State>, steps: seq<Step>)
    requires Run(states, steps) && AtMost(states, 0)
    ensures steps == []
  {
    if steps != [] {
      FirstIsInsert(states[0], steps[0]);
      CountsAsFlying(states[1], steps[0].t);
    }
  }

  lemma FirstIsInsert(s: State, step: Step)
    requires Init(s) && Enabled(s, step)
    ensures step.t in Do(s, step).pc && Inserting(Do(s, step).pc[step.t])
  {
  }

  lemma CountsAsFlying(s: State, t: Tid)
    requires t in s.pc && Inserting(s.pc[t])
    ensures HowMany(s.pc, InFlight) > 0
  {
    assert t in Those(s.pc, InFlight);
  }

  /** Without deletes; the size counter is a 64-bit word and needs room for the inserts. */
  lemma NeverEmptyIff(max: nat, T: nat)
    requires max < U64 && (T <= max ==> max + T <= U64)
    ensures NeverEmpty(max, T, false) <==> T <= max
  {
    if T <= max {
      forall states: seq<State>, steps: seq<Step>, i |
          Run(states, steps) && states[0].max == max && NoDelete(steps) && AtMost(states, T) && 0 <= i < |steps| && steps[i].act.Evict?
        ensures states[i].list != []
      {
        if T == 0 {
          NothingHappens(states, steps);
        } else {
          EvictNeverFindsEmptyList(states, steps, T, i);
        }
      }
    } else {
      var r := CrowdedRun(max);
      assert r.steps[|r.steps| - 1].act.Evict?;
    }
  }

  /** With deletes one insert is too many, at every capacity. */
  lemma NeverEmptyWithDeletesIff(max: nat, T: nat)
    requires max < U64
    ensures NeverEmpty(max, T, true) <==> T == 0
  {
    if T == 0 {
      forall states: seq<State>, steps: seq<Step> | Run(states, steps) && AtMost(states, 0) ensures steps == [] {
        NothingHappens(states, steps);
      }
    } else {
      var r := DeletedRun(max);
      assert r.steps[|r.steps| - 1].act.Evict?;
    }
  }

  // ---------------------------------------------------------------- more inserts than room

  /** The first j threads have taken their nodes. */
  ghost predicate Draining(s: State, max: nat, j: nat) {
    j <= max && |s.list| == max - j && forall t :: t in s.pc && t >= j ==> s.pc[t].Evicting?
  }

  lemma PressedDrains(s: State, c: Crew)
    requires Staffed(s, c) && Pressing(s, c.threads) && s.max == c.max
    ensures Draining(s, c.max, 0)
  {
    forall t | t in s.pc ensures s.pc[t].Evicting? {
      assert Pressed(s.max, c.threads, t, s.pc[t]);
    }
  }

  lemma DrainOne(r: Trace, c: Crew, used: nat, j: nat) returns (r': Trace)
    requires By(r, c, used) && Draining(r.End(), c.max, j) && j < c.threads <= c.inserters
    ensures By(r', c, used) && r'.steps == r.steps + [Step(j, Evict)] && r'.states == r.states + [r'.End()]
    ensures j < c.max ==> Draining(r'.End(), c.max, j + 1)
  {
    var s := r.End();
    assert Staffed(r.states[|r.steps|], c);
    var s' := DoEvict(s, j);
    r' := ThenBy(r, c, used, Step(j, Evict), s'.pc[j], s', used);
  }

  lemma {:induction false} DrainAll(c: Crew, j: nat) returns (r: Trace)
    requires j <= c.max < U64 && c.threads == c.inserters == c.max + 1
    ensures By(r, c, 2 * c.max + 1) && Draining(r.End(), c.max, j)
  {
    if j == 0 {
      r := PressAll(c, c.threads);
      assert Staffed(r.states[|r.steps|], c);
      PressedDrains(r.End(), c);
    } else {
      var r1 := DrainAll(c, j - 1);
      r := DrainOne(r1, c, 2 * c.max + 1, j - 1);
    }
  }

  /** One insert more than there is room: all see a full cache, and the last to evict finds nothing. */
  lemma CrowdedRun(max: nat) returns (r: Trace)
    requires max < U64
    ensures Run(r.states, r.steps) && NoDelete(r.steps) && r.states[0].max == max && AtMost(r.states, max + 1)
    ensures |r.steps| > 0 && r.steps[|r.steps| - 1].act.Evict? && r.states[|r.steps| - 1].list == []
  {
    var c := Crew(max, max + 1, max + 1, false);
    var r1 := DrainAll(c, max);
    r := DrainOne(r1, c, 2 * max + 1, max);
    ByAtMost(r, c, 2 * max + 1);
    IsRun(r);
  }

  // ---------------------------------------------------------------- deletes

  ghost function Two(max: nat): Crew {
    Crew(max, 2, 1, true)
  }

  /** Thread 0 inserts into a full cache and is about to evict; thread 1 has deleted everything. */
  lemma AllDeleted(max: nat) returns (r: Trace)
    requires max < U64
    ensures By(r, Two(max), max + 1) && r.End().list == [] && r.End().size == 0 && OnlyAt(r.End(), Evicting(max, max))
  {
    var c := Two(max);
    var r1 := PressAll(c, 1);
    assert Staffed(r1.states[|r1.steps|], c);
    PressedOnce(r1.End());
    r := DeleteMany(r1, c, max + 1, max);
  }

  lemma PressedOnce(s: State)
    requires Pressing(s, 1) && s.pc.Keys == Below(2)
    ensures OnlyAt(s, Evicting(s.max, s.max))
  {
    forall t | t in s.pc ensures s.pc[t] == if t < 1 then Evicting(s.max + t, s.max) else Idle {
      assert Pressed(s.max, 1, t, s.pc[t]);
    }
  }

  /** Its eviction finds nothing; it goes on as if it had evicted. */
  lemma EvictsNothing(max: nat) returns (r: Trace)
    requires max < U64
    ensures By(r, Two(max), max + 1) && r.End().list == [] && r.End().size == 0 && OnlyAt(r.End(), Pushing(max, max, true))
    ensures |r.steps| > 0 && r.steps[|r.steps| - 1].act.Evict? && r.states[|r.steps| - 1].list == []
  {
    var r1 := AllDeleted(max);
    r := ThenBy(r1, Two(max), max + 1, Step(0, Evict), Pushing(max, max, true), DoEvict(r1.End(), 0), max + 1);
  }

  /** One insert in flight, deletes, and an eviction that finds the list empty. */
  lemma DeletedRun(max: nat) returns (r: Trace)
    requires max < U64
    ensures Run(r.states, r.steps) && r.states[0].max == max && AtMost(r.states, 1)
    ensures |r.steps| > 0 && r.steps[|r.steps| - 1].act.Evict? && r.states[|r.steps| - 1].list == []
  {
    r := EvictsNothing(max);
    ByAtMost(r, Two(max), max + 1);
    IsRun(r);
  }

  lemma PushesOn(max: nat) returns (r: Trace)
    requires max < U64
    ensures By(r, Two(max), max + 1) && |r.End().list| == 1 && r.End().size == 0 && OnlyAt(r.End(), Returning(max))
  {
    var r1 := EvictsNothing(max);
    r := ThenBy(r1, Two(max), max + 1, Step(0, Push), Returning(max), DoPush(r1.End(), 0), max + 1);
  }

  /** Nobody is at work, one key is cached and the counter is 0. */
  lemma CounterFallsBehind(max: nat) returns (r: Trace)
    requires max < U64
    ensures By(r, Two(max), max + 1) && |r.End().list| == 1 && r.End().size == 0 && OnlyAt(r.End(), Idle)
  {
    var r1 := PushesOn(max);
    r := GoHome(r1, Two(max), max + 1, max);
  }

  /** Deleting that key wraps the counter: an empty cache that every insert takes for full. */
  lemma CounterWraps(max: nat) returns (r: Trace)
    requires max < U64
    ensures By(r, Two(max), max + 1) && r.End().list == [] && r.End().size == U64 - 1 && OnlyAt(r.End(), Idle)
  {
    var r1 := CounterFallsBehind(max);
    assert Staffed(r1.states[|r1.steps|], Two(max));
    r := DeleteOne(r1, Two(max), max + 1);
    assert Wrap(-1) == U64 - 1;
  }

  // ---------------------------------------------------------------- the counter of an idle cache

  ghost predicate AllIdle(s: State) {
    forall t :: t in s.pc ==> s.pc[t] == Idle
  }

  /** Whenever nobody is at work, the counter is the number of cached nodes. */
  ghost predicate CountsRight(max: nat, T: nat) {
    forall states: seq<State>, steps: seq<Step>, i {:trigger Run(states, steps), states[i]} ::
      Run(states, steps) && states[0].max == max && AtMost(states, T) && 0 <= i < |states| && AllIdle(states[i])
      ==> states[i].size == |states[i].list|
  }

  /** With deletes the counter of an idle cache is right in every run if and only if nobody ever inserts. */
  lemma CountsRightIff(max: nat, T: nat)
    requires max < U64
    ensures CountsRight(max, T) <==> T == 0
  {
    if T == 0 {
      forall states: seq<State>, steps: seq<Step>, i |
          Run(states, steps) && states[0].max == max && AtMost(states, T) && 0 <= i < |states| && AllIdle(states[i])
        ensures states[i].size == |states[i].list|
      {
        NothingHappens(states, steps);
      }
    } else {
      var r := CounterWraps(max);
      ByAtMost(r, Two(max), max + 1);
      IsRun(r);
      assert AllIdle(r.states[|r.steps|]);
    }
  }
}
