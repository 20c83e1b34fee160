/**
 An insert of the baseline LRU cache keeps the accessor to its own element while it evicts a second
 time. If its own node has become the last one, it waits for itself for ever; otherwise an eviction
 waits for nothing but the accessors of other threads. Without deletes two inserts at once, and finds
 that promote all other nodes, get it there; with deletes one insert alone does.
 */
module ConcurrentLruSelfWait {
  import opened Options
  import opened ConcurrentLru
  import opened ConcurrentLruOwnership
  import opened ConcurrentLruCounting
  import opened ConcurrentLruRuns
  import opened ConcurrentLruCrowding
  import opened Sets

  ghost predicate AtErase(s: State, t: Tid) {
    t in s.pc && (s.pc[t].Erasing? || s.pc[t].ErasingMore?)
  }

  /** The thread evicts its own node. */
  ghost predicate SelfWaits(s: State, t: Tid) {
    AtErase(s, t) && s.pc[t].m == s.pc[t].n
  }

  /** An eviction can go on if and only if its node is not the thread's own and nobody else has an accessor to it. */
  lemma EraseEnabledIff(states: seq<State>, steps: seq<Step>, i: nat, t: Tid)
    requires Run(states, steps) && i < |states| && AtErase(states[i], t)
    ensures var s := states[i];
      Enabled(s, Step(t, Erase)) <==> s.pc[t].m != s.pc[t].n && OnlyHolder(s, t, s.pc[t].m)
  {
    RunInv(states, steps, i);
    ErasesItsNode(states[i], t);
    EraseEnabled(states[i], t);
  }

  lemma EraseEnabled(s: State, t: Tid)
    requires AtErase(s, t) && InTable(s.table, s.key, s.pc[t].m)
    ensures Enabled(s, Step(t, Erase)) <==> s.pc[t].m != s.pc[t].n && OnlyHolder(s, t, s.pc[t].m)
  {
    assert HolderOf(s.pc[t]) == Some(s.pc[t].n);
  }

  /** A thread that evicts its own node never takes another step. */
  lemma {:induction false} StuckForever(states: seq<State>, steps: seq<Step>, i: nat, j: nat, t: Tid)
    requires Run(states, steps) && i <= j < |states| && SelfWaits(states[i], t)
    ensures t in states[j].pc && states[j].pc[t] == states[i].pc[t]
    ensures forall act :: !Enabled(states[j], Step(t, act))
    decreases j
  {
    if i < j {
      StuckForever(states, steps, i, j - 1, t);
      OthersStay(states, steps, j - 1, t);
    }
    EraseEnabledIff(states, steps, j, t);
    OnlyErase(states[j], t);
  }

  lemma OnlyErase(s: State, t: Tid)
    requires AtErase(s, t) && !Enabled(s, Step(t, Erase))
    ensures forall act :: !Enabled(s, Step(t, act))
  {
  }

  lemma OthersStay(states: seq<State>, steps: seq<Step>, j: nat, t: Tid)
    requires Run(states, steps) && j < |steps| && t in states[j].pc && forall act :: !Enabled(states[j], Step(t, act))
    ensures t in states[j + 1].pc && states[j + 1].pc[t] == states[j].pc[t]
  {
    assert steps[j] == Step(steps[j].t, steps[j].act);
    StepKeeps(states[j], steps[j], t);
  }

  lemma StepKeeps(s: State, step: Step, t: Tid)
    requires Enabled(s, step) && step.t != t && t in s.pc
    ensures t in Do(s, step).pc && Do(s, step).pc[t] == s.pc[t]
  {
    var q := Do(s, step).pc;
    match step.act
    case InsertFail(_) => assert q == s.pc;
    case Evict => ListKeeps(s, step, t);
    case Erase => ListKeeps(s, step, t);
    case Delink => ListKeeps(s, step, t);
    case Claim => ListKeeps(s, step, t);
    case _ => assert q == s.pc[step.t := q[step.t]];
  }

  lemma ListKeeps(s: State, step: Step, t: Tid)
    requires Enabled(s, step) && step.t != t && t in s.pc && (step.act.Evict? || step.act.Erase? || step.act.Delink? || step.act.Claim?)
    ensures t in Do(s, step).pc && Do(s, step).pc[t] == s.pc[t]
  {
  }

  // ---------------------------------------------------------------- when nobody waits for itself

  /** No run at this capacity, with at most T inserts in flight, makes a thread evict its own node. */
  ghost predicate NeverSelfWaits(max: nat, T: nat, deletes: bool) {
    forall states: seq<State>, steps: seq<Step>, i, t {:trigger Run(states, steps), SelfWaits(states[i], t)} ::
      Run(states, steps) && states[0].max == max && (deletes || NoDelete(steps)) && AtMost(states, T) && 0 <= i < |states|
      ==> !SelfWaits(states[i], t)
  }

  /** Without deletes it takes two inserts at once, whatever the capacity, and some room. */
  lemma NeverSelfWaitsIff(max: nat, T: nat)
    requires max + 1 < U64
    ensures NeverSelfWaits(max, T, false) <==> T <= 1 || max == 0
  {
    if T <= 1 || max == 0 {
      forall states: seq<State>, steps: seq<Step>, i, t |
          Run(states, steps) && states[0].max == max && NoDelete(steps) && AtMost(states, T) && 0 <= i < |states|
        ensures !SelfWaits(states[i], t)
      {
        RunQuiet(states, steps, T, i);
        RunInv(states, steps, i);
        QuietEvictsOthers(states[i], t);
      }
    } else {
      var r := TwoInsertsRun(max);
      assert SelfWaits(r.states[|r.steps|], 0);
    }
  }

  /** With deletes it takes one. */
  lemma NeverSelfWaitsWithDeletesIff(max: nat, T: nat)
    requires max + 1 < U64
    ensures NeverSelfWaits(max, T, true) <==> T == 0
  {
    if T == 0 {
      forall states: seq<State>, steps: seq<Step>, i, t |
          Run(states, steps) && states[0].max == max && AtMost(states, T) && 0 <= i < |states|
        ensures !SelfWaits(states[i], t)
      {
        NothingHappens(states, steps);
      }
    } else {
      var r := LoneInsertRun(max);
      assert SelfWaits(r.states[|r.steps|], 0);
    }
  }

  /** A thread that has seen no overfull cache, and none with room where there is no room at all. */
  predicate QuietPc(max: nat, p: Pc) {
    && !p.Claiming? && !p.EvictingMore? && !p.ErasingMore? && !p.FreeingMore?
    && !p.Deleting? && !p.Unmapping? && !p.Awaiting? && !p.Deallocating? && !p.Uncounting?
    && (p.Evicting? || p.Erasing? || p.Freeing? || p.Pushing? ==> p.s <= max)
    && (max == 0 ==> !p.Counting? && (p.Pushing? ==> p.done))
  }

  ghost predicate Quiet(s: State) {
    s.size <= s.max && forall t {:trigger QuietPc(s.max, s.pc[t])} :: t in s.pc ==> QuietPc(s.max, s.pc[t])
  }

  lemma QuietEvictsOthers(s: State, t: Tid)
    requires Quiet(s) && Inv(s)
    ensures !SelfWaits(s, t)
  {
    if t in s.pc {
      assert QuietPc(s.max, s.pc[t]) && ThreadOk(s.status, t, s.pc[t]);
    }
  }

  lemma QuietMove(s: State, step: Step)
    requires Enabled(s, step) && QuietPc(s.max, s.pc[step.t]) && s.size <= s.max && !step.act.Delete?
    ensures QuietPc(s.max, Do(s, step).pc[step.t])
    ensures s.max == 0 ==> Do(s, step).size == s.size
  {
    var q := Do(s, step).pc[step.t];
    match step.act
    case Evict => QuietEvict(s, step.t);
    case Erase => QuietErase(s, step.t);
    case Push => QuietPush(s, step.t);
    case Load => assert QuietPc(s.max, q);
    case Count => assert QuietPc(s.max, q);
    case Insert(_, _) => assert QuietPc(s.max, q);
    case Free => assert QuietPc(s.max, q);
    case _ => QuietOther(s, step);
  }

  lemma QuietOther(s: State, step: Step)
    requires Enabled(s, step) && QuietPc(s.max, s.pc[step.t]) && !step.act.Delete?
    requires var a := step.act; !(a.Insert? || a.Load? || a.Evict? || a.Erase? || a.Free? || a.Push? || a.Count?)
    ensures QuietPc(s.max, Do(s, step).pc[step.t]) && Do(s, step).size == s.size
  {
  }

  lemma QuietPush(s: State, t: Tid)
    requires t in s.pc && s.pc[t].Pushing? && QuietPc(s.max, s.pc[t])
    ensures QuietPc(s.max, DoPush(s, t).pc[t]) && DoPush(s, t).size == s.size
  {
  }

  lemma QuietEvict(s: State, t: Tid)
    requires t in s.pc && s.pc[t].Evicting? && QuietPc(s.max, s.pc[t])
    ensures QuietPc(s.max, DoEvict(s, t).pc[t]) && DoEvict(s, t).size == s.size
  {
  }

  lemma QuietErase(s: State, t: Tid)
    requires t in s.pc && s.pc[t].Erasing? && QuietPc(s.max, s.pc[t]) && s.pc[t].m in s.key
    ensures QuietPc(s.max, DoErase(s, t).pc[t]) && DoErase(s, t).size == s.size
  {
  }

  lemma SameMax(s: State, step: Step)
    requires Enabled(s, step)
    ensures Do(s, step).max == s.max && Do(s, step).pc.Keys == s.pc.Keys
  {
    if step.act.Evict? || step.act.Erase? || step.act.Delink? || step.act.Claim? {
      SameMaxList(s, step);
    } else {
      assert Do(s, step).max == s.max;
    }
  }

  lemma SameMaxList(s: State, step: Step)
    requires Enabled(s, step) && (step.act.Evict? || step.act.Erase? || step.act.Delink? || step.act.Claim?)
    ensures Do(s, step).max == s.max && Do(s, step).pc.Keys == s.pc.Keys
  {
  }

  lemma QuietStep(s: State, step: Step)
    requires Quiet(s) && Enabled(s, step) && !step.act.Delete? && (s.max > 0 ==> Do(s, step).size <= s.max)
    ensures Quiet(Do(s, step))
  {
    var s' := Do(s, step);
    SameMax(s, step);
    assert QuietPc(s.max, s.pc[step.t]);
    QuietMove(s, step);
    forall t | t in s'.pc ensures QuietPc(s'.max, s'.pc[t]) {
      if t != step.t {
        StepKeeps(s, step, t);
        assert QuietPc(s.max, s.pc[t]);
      }
    }
  }

  lemma QuietNext(s: State, step: Step, s': State)
    requires Quiet(s) && Enabled(s, step) && s' == Do(s, step) && !step.act.Delete? && (s.max > 0 ==> s'.size <= s.max)
    ensures Quiet(s') && s'.max == s.max
  {
    SameMax(s, step);
    QuietStep(s, step);
  }

  lemma StartsQuiet(s: State)
    requires Init(s)
    ensures Quiet(s)
  {
  }

  lemma {:induction false} RunQuiet(states: seq<State>, steps: seq<Step>, T: nat, i: nat)
    requires Run(states, steps) && NoDelete(steps) && AtMost(states, T) && (T <= 1 || states[0].max == 0) && states[0].max < U64
    requires i < |states|
    ensures Quiet(states[i]) && states[i].max == states[0].max
  {
    if i == 0 {
      StartsQuiet(states[0]);
    } else {
      RunQuiet(states, steps, T, i - 1);
      if states[0].max > 0 {
        SizeStaysWithin(states, steps, T, i);
      }
      LinkAt(states, steps, i - 1);
      QuietNext(states[i - 1], steps[i - 1], states[i]);
    }
  }

  lemma LinkAt(states: seq<State>, steps: seq<Step>, i: nat)
    requires Run(states, steps) && i < |steps|
    ensures Link(states, steps, i)
  {
  }

  lemma SizeStaysWithin(states: seq<State>, steps: seq<Step>, T: nat, i: nat)
    requires Run(states, steps) && NoDelete(steps) && AtMost(states, T) && T <= 1 && 0 < states[0].max < U64 && i < |states|
    ensures states[i].size <= states[0].max
  {
    assert InsertRun(states, steps, 1);
    SizeNeverRunsAway(states, steps, 1, i);
    MaxStays(states, steps, i);
  }

  lemma {:induction false} MaxStays(states: seq<State>, steps: seq<Step>, i: nat)
    requires Run(states, steps) && i < |states|
    ensures states[i].max == states[0].max
  {
    if i > 0 {
      MaxStays(states, steps, i - 1);
      SameMax(states[i - 1], steps[i - 1]);
    }
  }

  // ---------------------------------------------------------------- two inserts at once

  /** A thread inserts a new key and sees room. */
  lemma SeeRoom(r: Trace, c: Crew, used: nat, t: Tid) returns (r': Trace)
    requires By(r, c, used) && t in r.End().pc && r.End().pc[t] == Idle && t < c.inserters && r.End().size < c.max
    ensures By(r', c, used + 1) && r'.End().pc == r.End().pc[t := Pushing(used, r.End().size, false)]
    ensures r'.End().size == r.End().size && r'.End().list == r.End().list
  {
    var s, p := r.End(), Pushing(used, r.End().size, false);
    var r1 := ThenBy(r, c, used, Step(t, Insert(used, used)), Loading(used), DoInsert(s, t, used, used), used + 1);
    r' := ThenBy(r1, c, used + 1, Step(t, Load), p, To(r1.End(), t, p), used + 1);
    TwoMoves(s.pc, t, Loading(used), p);
  }

  /** It pushes its node, counts it and returns. */
  lemma PushAndCount(r: Trace, c: Crew, used: nat, t: Tid, n: Node, seen: nat) returns (r': Trace)
    requires By(r, c, used) && t in r.End().pc && r.End().pc[t] == Pushing(n, seen, false) && t < c.inserters
    requires r.End().size <= c.max && c.max + 1 < U64
    ensures By(r', c, used) && r'.End().pc == r.End().pc[t := Idle]
    ensures r'.End().size == r.End().size + 1 && r'.End().list == [n] + r.End().list
  {
    var s := r.End();
    var r1 := ThenBy(r, c, used, Step(t, Push), Counting(n), DoPush(s, t), used);
    CountFirst(r1.End(), t, n);
    var r2 := ThenBy(r1, c, used, Step(t, Count), Returning(n),
                     To(r1.End(), t, Returning(n)).(size := s.size + 1, net := s.net + 1), used);
    r' := ThenBy(r2, c, used, Step(t, Return), Idle, To(r2.End(), t, Idle), used);
    TwoMoves(s.pc, t, Counting(n), Returning(n));
    TwoMoves(s.pc, t, Returning(n), Idle);
  }

  ghost function Pair(max: nat): Crew {
    Crew(max, 2, 2, false)
  }

  /** Both threads insert the last key there is room for: the cache is overfull. */
  lemma Overfull(max: nat) returns (r: Trace)
    requires 1 <= max && max + 1 < U64
    ensures By(r, Pair(max), max + 1) && r.End().size == |r.End().list| == max + 1 && OnlyAt(r.End(), Idle)
  {
    var c := Pair(max);
    var r2 := BothSeeRoom(max);
    var r3 := PushAndCount(r2, c, max + 1, 0, max - 1, max - 1);
    r := PushAndCount(r3, c, max + 1, 1, max, max - 1);
    TwoIdle(r2.End(), r.End());
  }

  lemma TwoIdle(s: State, s': State)
    requires s.pc.Keys == Below(2) && s'.pc == s.pc[0 := Idle][1 := Idle]
    ensures OnlyAt(s', Idle)
  {
  }

  lemma BothSeeRoom(max: nat) returns (r: Trace)
    requires 1 <= max && max + 1 < U64
    ensures By(r, Pair(max), max + 1) && r.End().size == |r.End().list| == max - 1 && r.End().pc.Keys == Below(2)
    ensures r.End().pc[0] == Pushing(max - 1, max - 1, false) && r.End().pc[1] == Pushing(max, max - 1, false)
  {
    var r1 := OneSeesRoom(max);
    r := SeeRoom(r1, Pair(max), max, 1);
  }

  lemma OneSeesRoom(max: nat) returns (r: Trace)
    requires 1 <= max && max + 1 < U64
    ensures By(r, Pair(max), max) && r.End().size == |r.End().list| == max - 1 && r.End().pc.Keys == Below(2)
    ensures r.End().pc[0] == Pushing(max - 1, max - 1, false) && r.End().pc[1] == Idle
  {
    var c := Pair(max);
    var r0 := FillAll(c, max - 1);
    assert Staffed(r0.states[|r0.steps|], c);
    r := SeeRoom(r0, c, max - 1, 0);
  }

  /** Thread 0 inserts one more key and takes the last node. */
  lemma ThirdEvicts(max: nat) returns (r: Trace, m: Node)
    requires 1 <= max && max + 1 < U64
    ensures By(r, Pair(max), max + 2) && r.End().size == max + 1 && |r.End().list| == max && OnlyAt(r.End(), Erasing(max + 1, max + 1, m))
  {
    var c, n := Pair(max), max + 1;
    var r0 := Overfull(max);
    var r1 := BeginInsert(r0, c, n);
    var p := Evicting(n, n);
    var r2 := ThenBy(r1, c, n + 1, Step(0, Load), p, To(r1.End(), 0, p), n + 1);
    m := r2.End().list[|r2.End().list| - 1];
    r := ThenBy(r2, c, n + 1, Step(0, Evict), Erasing(n, n, m), DoEvict(r2.End(), 0), n + 1);
  }

  /** It finds the element of that node, which nobody holds. */
  lemma ErasingOther(r: Trace, n: Node, z: nat, m: Node)
    requires r.Valid() && OnlyAt(r.End(), Erasing(n, z, m))
    ensures var s := r.End(); m in s.key && s.key[m] in s.table && s.table[s.key[m]] == m && Enabled(s, Step(0, Erase))
  {
    IsRun(r);
    RunInv(r.states, r.steps, |r.steps|);
    var s := r.End();
    ErasesItsNode(s, 0);
    assert ThreadOk(s.status, 0, s.pc[0]);
    EraseEnabled(s, 0);
  }

  lemma ThirdPushes(max: nat) returns (r: Trace)
    requires 1 <= max && max + 1 < U64
    ensures By(r, Pair(max), max + 2) && r.End().size == max + 1 && OnlyAt(r.End(), Claiming(max + 1, max + 1))
    ensures |r.End().list| == max + 1 && r.End().list[0] == max + 1
  {
    var c, n := Pair(max), max + 1;
    var r0, m := ThirdEvicts(max);
    ErasingOther(r0, n, n, m);
    var r1 := ThenBy(r0, c, n + 1, Step(0, Erase), Freeing(n, n, m), DoErase(r0.End(), 0), n + 1);
    var p := Pushing(n, n, true);
    var r2 := ThenBy(r1, c, n + 1, Step(0, Free), p, DoFree(r1.End(), 0, m, p), n + 1);
    r := ThenBy(r2, c, n + 1, Step(0, Push), Claiming(n, n), DoPush(r2.End(), 0), n + 1);
  }

  /** It claims the right to evict once more; its own node stands at place j. */
  ghost predicate Second(s: State, max: nat, j: nat) {
    && s.pc.Keys == Below(2) && s.pc[0] == EvictingMore(max + 1) && s.pc[1] == Idle && s.max == max
    && |s.list| == max + 1 && j <= max && s.list[j] == max + 1
  }

  lemma ThirdClaims(max: nat) returns (r: Trace)
    requires 1 <= max && max + 1 < U64
    ensures By(r, Pair(max), max + 2) && Second(r.End(), max, 0)
  {
    var c, n := Pair(max), max + 1;
    var r0 := ThirdPushes(max);
    assert Staffed(r0.states[|r0.steps|], c);
    var s, p := r0.End(), EvictingMore(n);
    r := ThenBy(r0, c, n + 1, Step(0, Claim), p, To(s, 0, p).(size := Wrap(s.size - 1), net := s.net - 1), n + 1);
  }

  lemma {:induction false} WithoutLast(list: seq<Node>)
    requires list != [] && ConcurrentLruOwnership.Distinct(list)
    ensures Without(list, list[|list| - 1]) == list[..|list| - 1]
  {
    if |list| > 1 {
      WithoutLast(list[1..]);
      assert list[..|list| - 1] == [list[0]] + list[1..][..|list| - 2];
    }
  }

  lemma LastIsFindable(r: Trace, max: nat, j: nat)
    requires r.Valid() && Second(r.End(), max, j) && j < max
    ensures var s := r.End(); var m := s.list[max];
      && m in s.key && s.key[m] in s.table && s.table[s.key[m]] == m && NoWriter(s, m) && Without(s.list, m) == s.list[..max]
  {
    IsRun(r);
    var s := r.End();
    assert s.list[max] in s.list;
    OneListedPerKey(r.states, r.steps, |r.steps|, s.list[max], s.list[max]);
    WithoutLast(s.list);
    assert s.list[max] != s.list[j];
  }

  /** Thread 1 finds the last key of the list. */
  lemma FindLast(r: Trace, max: nat, j: nat) returns (r': Trace)
    requires By(r, Pair(max), max + 2) && Second(r.End(), max, j) && j < max
    ensures By(r', Pair(max), max + 2) && Second(r'.End(), max, j + 1)
  {
    var c, s, used := Pair(max), r.End(), max + 2;
    var m := s.list[max];
    LastIsFindable(r, max, j);
    var r1 := ThenBy(r, c, used, Step(1, Find(s.key[m])), Found(m), To(s, 1, Found(m)), used);
    assert m in s.list;
    r' := Promotes(r1, c, used, m);
    SecondNext(s, r'.End(), max, j);
  }

  lemma Promotes(r: Trace, c: Crew, used: nat, m: Node) returns (r': Trace)
    requires By(r, c, used) && 1 in r.End().pc && r.End().pc[1] == Found(m) && m in r.End().list
    ensures By(r', c, used) && r'.End().pc == r.End().pc[1 := Idle] && r'.End().list == [m] + Without(r.End().list, m)
  {
    var s := r.End();
    var r1 := ThenBy(r, c, used, Step(1, Promote), Leaving(m), DoPromote(s, 1), used);
    r' := ThenBy(r1, c, used, Step(1, Leave), Idle, To(r1.End(), 1, Idle), used);
    TwoMoves(s.pc, 1, Leaving(m), Idle);
  }

  lemma SecondNext(s: State, s': State, max: nat, j: nat)
    requires Second(s, max, j) && j < max && s'.list == [s.list[max]] + s.list[..max] && s'.max == s.max
    requires s'.pc.Keys == s.pc.Keys && s'.pc[0] == s.pc[0] && s'.pc[1] == Idle
    ensures Second(s', max, j + 1)
  {
  }

  lemma {:induction false} FindOthers(max: nat, j: nat) returns (r: Trace)
    requires 1 <= max && max + 1 < U64 && j <= max
    ensures By(r, Pair(max), max + 2) && Second(r.End(), max, j)
  {
    if j == 0 {
      r := ThirdClaims(max);
    } else {
      var r1 := FindOthers(max, j - 1);
      r := FindLast(r1, max, j - 1);
    }
  }

  /** Thread 0 takes its own node. */
  lemma TwoInsertsRun(max: nat) returns (r: Trace)
    requires 1 <= max && max + 1 < U64
    ensures Run(r.states, r.steps) && r.states[0].max == max && NoDelete(r.steps) && AtMost(r.states, 2)
    ensures SelfWaits(r.states[|r.steps|], 0)
  {
    var c, n := Pair(max), max + 1;
    var r1 := FindOthers(max, max);
    r := ThenBy(r1, c, max + 2, Step(0, Evict), ErasingMore(n, n), DoEvict(r1.End(), 0), max + 2);
    ByAtMost(r, c, max + 2);
    IsRun(r);
  }

  // ---------------------------------------------------------------- one insert and deletes

  lemma LonePushes(max: nat) returns (r: Trace)
    requires max + 1 < U64
    ensures By(r, Two(max), max + 2) && r.End().size == U64 - 1 && r.End().list == [max + 1] && OnlyAt(r.End(), Claiming(max + 1, U64 - 1))
  {
    var c, n := Two(max), max + 1;
    var r0 := CounterWraps(max);
    var r1 := BeginInsert(r0, c, n);
    var p, q := Evicting(n, U64 - 1), Pushing(n, U64 - 1, true);
    var r2 := ThenBy(r1, c, n + 1, Step(0, Load), p, To(r1.End(), 0, p), n + 1);
    var r3 := ThenBy(r2, c, n + 1, Step(0, Evict), q, DoEvict(r2.End(), 0), n + 1);
    r := ThenBy(r3, c, n + 1, Step(0, Push), Claiming(n, U64 - 1), DoPush(r3.End(), 0), n + 1);
  }

  /** The counter has wrapped: an insert into the empty cache evicts its own node, with no find involved. */
  lemma LoneInsertRun(max: nat) returns (r: Trace)
    requires max + 1 < U64
    ensures Run(r.states, r.steps) && r.states[0].max == max && AtMost(r.states, 1) && SelfWaits(r.states[|r.steps|], 0)
  {
    var c, n := Two(max), max + 1;
    var r1 := LonePushes(max);
    var s, p := r1.End(), EvictingMore(n);
    var r2 := ThenBy(r1, c, n + 1, Step(0, Claim), p, To(s, 0, p).(size := Wrap(s.size - 1), net := s.net - 1), n + 1);
    r := ThenBy(r2, c, n + 1, Step(0, Evict), ErasingMore(n, n), DoEvict(r2.End(), 0), n + 1);
    ByAtMost(r, c, n + 1);
    IsRun(r);
  }
}
