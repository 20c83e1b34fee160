/**
 Building runs of the baseline LRU cache, for every capacity: filling it, pressing it with inserts that
 see it full, and deleting what it holds.
 */
module ConcurrentLruRuns {
  import opened Options
  import opened ConcurrentLru
  import opened ConcurrentLruOwnership
  import opened ConcurrentLruCounting
  import opened Sets

  datatype Trace = Trace(states: seq<State>, steps: seq<Step>) {
    ghost predicate Valid() {
      && |states| == |steps| + 1 && Init(states[0])
      && forall i {:trigger Link(states, steps, i)} :: 0 <= i < |steps| ==> Link(states, steps, i)
    }

    ghost function End(): State
      requires Valid()
    {
      states[|steps|]
    }
  }

  ghost predicate Link(states: seq<State>, steps: seq<Step>, i: nat)
    requires i < |steps| < |states|
  {
    Enabled(states[i], steps[i]) && states[i + 1] == Do(states[i], steps[i])
  }

  lemma IsRun(r: Trace)
    requires r.Valid()
    ensures Run(r.states, r.steps)
  {
    forall i | 0 <= i < |r.steps| ensures Enabled(r.states[i], r.steps[i]) && r.states[i + 1] == Do(r.states[i], r.steps[i]) {
      assert Link(r.states, r.steps, i);
    }
  }

  lemma Then(r: Trace, step: Step) returns (r': Trace)
    requires r.Valid() && Enabled(r.End(), step)
    ensures r'.Valid() && r'.End() == Do(r.End(), step) && r'.steps == r.steps + [step]
    ensures r'.states == r.states + [Do(r.End(), step)]
  {
    r' := Trace(r.states + [Do(r.End(), step)], r.steps + [step]);
    forall i | 0 <= i < |r'.steps| ensures Link(r'.states, r'.steps, i) {
      assert i < |r.steps| ==> Link(r.states, r.steps, i);
    }
  }

  ghost predicate NoDelete(steps: seq<Step>) {
    forall i :: 0 <= i < |steps| ==> !steps[i].act.Delete?
  }

  ghost predicate AtMost(states: seq<State>, T: nat) {
    forall i :: 0 <= i < |states| ==> HowMany(states[i].pc, InFlight) <= T
  }

  // ---------------------------------------------------------------- crews

  /** The capacity, the number of threads, how many of them insert, and whether anybody deletes. */
  datatype Crew = Crew(max: nat, threads: nat, inserters: nat, deletes: bool)

  ghost predicate Staffed(s: State, c: Crew) {
    s.pc.Keys == Below(c.threads) && forall t {:trigger Role(c, t, s.pc[t])} :: t in s.pc ==> Role(c, t, s.pc[t])
  }

  ghost predicate Role(c: Crew, t: Tid, p: Pc) {
    Inserting(p) ==> t < c.inserters
  }

  /** Keys and nodes are used in the order of the numbers. */
  ghost predicate Unused(s: State, c: Crew, used: nat) {
    s.max == c.max && (forall k <- s.table :: k < used) && (forall n <- s.key :: n < used)
  }

  ghost predicate By(r: Trace, c: Crew, used: nat) {
    && r.Valid() && (c.deletes || NoDelete(r.steps)) && (forall i {:trigger Staffed(r.states[i], c)} :: 0 <= i < |r.states| ==> Staffed(r.states[i], c))
    && r.states[0].max == c.max && Unused(r.End(), c, used)
  }

  /** One more step, which takes its thread to `q` and leads to `s`. */
  lemma ThenBy(r: Trace, c: Crew, used: nat, step: Step, q: Pc, s: State, used': nat) returns (r': Trace)
    requires By(r, c, used) && Enabled(r.End(), step) && (step.act.Delete? ==> c.deletes) && s == Do(r.End(), step)
    requires s.pc == r.End().pc[step.t := q] && Role(c, step.t, q) && Unused(s, c, used')
    ensures By(r', c, used') && r'.End() == s && r'.steps == r.steps + [step] && r'.states == r.states + [s]
  {
    assert Staffed(r.states[|r.steps|], c);
    StaffedMove(r.End(), s, c, step.t, q);
    r' := Then(r, step);
    forall i | 0 <= i < |r'.states| ensures Staffed(r'.states[i], c) {
      assert i < |r.states| ==> Staffed(r.states[i], c);
    }
  }

  lemma StaffedMove(s: State, s': State, c: Crew, t: Tid, q: Pc)
    requires Staffed(s, c) && t in s.pc && s'.pc == s.pc[t := q] && Role(c, t, q)
    ensures Staffed(s', c)
  {
    forall u | u in s'.pc ensures Role(c, u, s'.pc[u]) {
      assert u != t ==> Role(c, u, s.pc[u]);
    }
  }

  /** No more inserts are in flight than there are threads to insert. */
  lemma ByAtMost(r: Trace, c: Crew, used: nat)
    requires By(r, c, used)
    ensures AtMost(r.states, c.inserters)
  {
    forall i | 0 <= i < |r.states| ensures HowMany(r.states[i].pc, InFlight) <= c.inserters {
      assert Staffed(r.states[i], c);
      forall t | t in Those(r.states[i].pc, InFlight) ensures t in Below(c.inserters) {
        assert Role(c, t, r.states[i].pc[t]);
      }
      Smaller(Those(r.states[i].pc, InFlight), Below(c.inserters));
    }
  }

  ghost function IdleThreads(n: nat): (pc: map<Tid, Pc>)
    ensures pc.Keys == Below(n) && forall t <- pc :: pc[t] == Idle
  {
    if n == 0 then map[] else IdleThreads(n - 1)[n - 1 := Idle]
  }

  /** One thread at a place, the others idle. */
  ghost predicate OnlyAt(s: State, p: Pc) {
    0 in s.pc && s.pc[0] == p && forall t <- s.pc :: t != 0 ==> s.pc[t] == Idle
  }

  /** n keys are cached and nobody is at work. */
  ghost predicate Holding(s: State, n: nat) {
    s.size == n && |s.list| == n && OnlyAt(s, Idle)
  }

  // ---------------------------------------------------------------- filling

  lemma EmptyCache(c: Crew) returns (r: Trace)
    requires c.threads > 0
    ensures By(r, c, 0) && Holding(r.End(), 0)
  {
    r := Trace([State(c.max, 0, map[], map[], [], IdleThreads(c.threads), map[], 0, 0)], []);
  }

  /** Thread 0 begins to insert a new key. */
  lemma BeginInsert(r: Trace, c: Crew, used: nat) returns (r': Trace)
    requires By(r, c, used) && OnlyAt(r.End(), Idle) && c.inserters > 0
    ensures By(r', c, used + 1) && r'.End().size == r.End().size && r'.End().list == r.End().list && OnlyAt(r'.End(), Loading(used))
  {
    r' := ThenBy(r, c, used, Step(0, Insert(used, used)), Loading(used), DoInsert(r.End(), 0, used, used), used + 1);
  }

  /** It sees room and pushes its node. */
  lemma PushRoom(r: Trace, c: Crew, used: nat, n: Node) returns (r': Trace)
    requires By(r, c, used) && OnlyAt(r.End(), Loading(n)) && c.inserters > 0 && r.End().size < c.max
    ensures By(r', c, used) && r'.End().size == r.End().size && r'.End().list == [n] + r.End().list && OnlyAt(r'.End(), Counting(n))
  {
    var p := Pushing(n, r.End().size, false);
    var r1 := ThenBy(r, c, used, Step(0, Load), p, To(r.End(), 0, p), used);
    r' := ThenBy(r1, c, used, Step(0, Push), Counting(n), DoPush(r1.End(), 0), used);
  }

  lemma CountFirst(s: State, t: Tid, n: Node)
    requires t in s.pc && s.pc[t] == Counting(n) && s.size <= s.max && s.size + 1 < U64
    ensures Enabled(s, Step(t, Count))
    ensures Do(s, Step(t, Count)) == To(s, t, Returning(n)).(size := s.size + 1, net := s.net + 1)
  {
    assert Wrap(s.size + 1) == s.size + 1;
  }

  lemma CountRoom(r: Trace, c: Crew, used: nat, n: Node) returns (r': Trace)
    requires By(r, c, used) && OnlyAt(r.End(), Counting(n)) && r.End().size <= c.max && r.End().size + 1 < U64 && c.inserters > 0
    ensures By(r', c, used) && r'.End().size == r.End().size + 1 && r'.End().list == r.End().list && OnlyAt(r'.End(), Returning(n))
  {
    var s := r.End();
    CountFirst(s, 0, n);
    r' := ThenBy(r, c, used, Step(0, Count), Returning(n), To(s, 0, Returning(n)).(size := s.size + 1, net := s.net + 1), used);
  }

  lemma GoHome(r: Trace, c: Crew, used: nat, n: Node) returns (r': Trace)
    requires By(r, c, used) && OnlyAt(r.End(), Returning(n))
    ensures By(r', c, used) && r'.End().size == r.End().size && r'.End().list == r.End().list && OnlyAt(r'.End(), Idle)
  {
    r' := ThenBy(r, c, used, Step(0, Return), Idle, To(r.End(), 0, Idle), used);
  }

  lemma {:induction false} FillAll(c: Crew, n: nat) returns (r: Trace)
    requires n <= c.max < U64 && c.inserters > 0 && c.threads > 0
    ensures By(r, c, n) && Holding(r.End(), n)
  {
    if n == 0 {
      r := EmptyCache(c);
    } else {
      var r1 := FillAll(c, n - 1);
      r := FillOne(r1, c, n - 1);
    }
  }

  lemma FillOne(r: Trace, c: Crew, n: nat) returns (r': Trace)
    requires By(r, c, n) && Holding(r.End(), n) && n < c.max < U64 && c.inserters > 0
    ensures By(r', c, n + 1) && Holding(r'.End(), n + 1)
  {
    var r1 := BeginInsert(r, c, n);
    var r2 := PushRoom(r1, c, n + 1, n);
    var r3 := CountRoom(r2, c, n + 1, n);
    r' := GoHome(r3, c, n + 1, n);
  }

  // ---------------------------------------------------------------- pressing

  /** The first j threads have seen a full cache and are about to evict. */
  ghost predicate Pressing(s: State, j: nat) {
    s.size == s.max == |s.list| && forall t {:trigger Pressed(s.max, j, t, s.pc[t])} :: t in s.pc ==> Pressed(s.max, j, t, s.pc[t])
  }

  ghost predicate Pressed(max: nat, j: nat, t: Tid, p: Pc) {
    p == if t < j then Evicting(max + t, max) else Idle
  }

  lemma PressOne(r: Trace, c: Crew, j: nat) returns (r': Trace)
    requires By(r, c, c.max + j) && Pressing(r.End(), j) && j < c.threads && j < c.inserters
    ensures By(r', c, c.max + j + 1) && Pressing(r'.End(), j + 1)
  {
    var s, n := r.End(), c.max + j;
    assert Staffed(r.states[|r.steps|], c);
    assert Pressed(s.max, j, j, s.pc[j]);
    var r1 := ThenBy(r, c, n, Step(j, Insert(n, n)), Loading(n), DoInsert(s, j, n, n), n + 1);
    var p := Evicting(n, c.max);
    r' := ThenBy(r1, c, n + 1, Step(j, Load), p, To(r1.End(), j, p), n + 1);
    PressNext(s, r'.End(), j);
  }

  lemma PressNext(s: State, s': State, j: nat)
    requires Pressing(s, j) && s'.size == s.size && s'.max == s.max && s'.list == s.list && s'.pc == s.pc[j := Evicting(s.max + j, s.max)]
    ensures Pressing(s', j + 1)
  {
    forall t | t in s'.pc ensures Pressed(s'.max, j + 1, t, s'.pc[t]) {
      assert t != j ==> Pressed(s.max, j, t, s.pc[t]);
    }
  }

  lemma {:induction false} PressAll(c: Crew, j: nat) returns (r: Trace)
    requires j <= c.threads && j <= c.inserters && c.max < U64 && c.inserters > 0 && c.threads > 0
    ensures By(r, c, c.max + j) && Pressing(r.End(), j)
  {
    if j == 0 {
      r := FillAll(c, c.max);
    } else {
      var r1 := PressAll(c, j - 1);
      r := PressOne(r1, c, j - 1);
    }
  }

  // ---------------------------------------------------------------- deleting

  /** The first node of the list is the one the map has for its key, and nobody has an accessor to it. */
  ghost predicate Loose(s: State, n: Node) {
    && s.list != [] && s.list[0] == n && InTable(s.table, s.key, n) && 1 in s.pc && s.pc[1] == Idle
    && forall u {:trigger HolderOf(s.pc[u])} :: u in s.pc ==> HolderOf(s.pc[u]) != Some(n)
  }

  /** Everybody is idle or about to evict. */
  ghost predicate Calm(s: State) {
    forall u :: u in s.pc ==> s.pc[u] == Idle || s.pc[u].Evicting?
  }

  lemma HeadIsLoose(r: Trace)
    requires r.Valid() && Calm(r.End()) && r.End().list != [] && 1 in r.End().pc && r.End().pc[1] == Idle
    ensures Loose(r.End(), r.End().list[0])
  {
    IsRun(r);
    RunInv(r.states, r.steps, |r.steps|);
    InvLoose(r.End());
  }

  lemma InvLoose(s: State)
    requires Inv(s) && Calm(s) && s.list != [] && 1 in s.pc && s.pc[1] == Idle
    ensures Loose(s, s.list[0])
  {
    var n := s.list[0];
    assert n in s.list && NodeOk(s, n);
    forall u | u in s.pc ensures HolderOf(s.pc[u]) != Some(n) {
      assert ThreadOk(s.status, u, s.pc[u]);
    }
  }

  /** Thread 1 gets hold of the first node's element. */
  lemma DeleteBegin(r: Trace, c: Crew, used: nat, n: Node) returns (r': Trace)
    requires By(r, c, used) && c.deletes && Loose(r.End(), n)
    ensures By(r', c, used) && r'.End() == To(r.End(), 1, Deleting(n))
  {
    var s := r.End();
    assert NoWriter(s, n) by {
      forall u <- s.pc ensures HolderOf(s.pc[u]) != Some(n) {
      }
    }
    r' := ThenBy(r, c, used, Step(1, Delete(s.key[n])), Deleting(n), To(s, 1, Deleting(n)), used);
  }

  /** It takes the node out of the list and the element out of the map. */
  lemma DeleteHalf(r: Trace, c: Crew, used: nat, n: Node) returns (r': Trace)
    requires By(r, c, used) && 1 in r.End().pc && r.End().pc[1] == Deleting(n) && n in r.End().key && r.End().list != [] && r.End().list[0] == n
    ensures By(r', c, used)
    ensures var s, s' := r.End(), r'.End();
      s'.pc == s.pc[1 := Awaiting(n)] && s'.list == s.list[1..] && s'.size == s.size
  {
    var s := r.End();
    var s1 := DoDelink(s, 1);
    DelinkIs(s, n);
    var r1 := ThenBy(r, c, used, Step(1, Delink), Unmapping(n), s1, used);
    r' := ThenBy(r1, c, used, Step(1, Unmap), Awaiting(n), DoUnmap(s1, 1), used);
    TwoMoves(s.pc, 1, Unmapping(n), Awaiting(n));
  }

  lemma DelinkIs(s: State, n: Node)
    requires 1 in s.pc && s.pc[1] == Deleting(n) && s.list != [] && s.list[0] == n
    ensures Enabled(s, Step(1, Delink)) && Do(s, Step(1, Delink)) == DoDelink(s, 1)
    ensures DoDelink(s, 1) == To(s, 1, Unmapping(n)).(list := s.list[1..], status := s.status[n := Taken(1)])
  {
  }

  lemma TwoMoves(pc: map<Tid, Pc>, t: Tid, p: Pc, q: Pc)
    ensures pc[t := p][t := q] == pc[t := q]
  {
  }

  /** It frees the node, for which it has waited until nobody else had an accessor to it. */
  lemma DeleteFree(r: Trace, c: Crew, used: nat, n: Node) returns (r': Trace)
    requires By(r, c, used) && 1 in r.End().pc && r.End().pc[1] == Awaiting(n) && OnlyHolder(r.End(), 1, n)
    ensures By(r', c, used) && r'.End().pc == r.End().pc[1 := Uncounting] && r'.End().list == r.End().list && r'.End().size == r.End().size
  {
    var s := r.End();
    var r1 := ThenBy(r, c, used, Step(1, Await), Deallocating(n), To(s, 1, Deallocating(n)), used);
    r' := ThenBy(r1, c, used, Step(1, FreeDeleted), Uncounting, DoFree(r1.End(), 1, n, Uncounting), used);
    TwoMoves(s.pc, 1, Deallocating(n), Uncounting);
  }

  /** It counts down. */
  lemma DeleteCount(r: Trace, c: Crew, used: nat) returns (r': Trace)
    requires By(r, c, used) && 1 in r.End().pc && r.End().pc[1] == Uncounting
    ensures By(r', c, used) && r'.End().pc == r.End().pc[1 := Idle] && r'.End().list == r.End().list && r'.End().size == Wrap(r.End().size - 1)
  {
    var s := r.End();
    r' := ThenBy(r, c, used, Step(1, Uncount), Idle, To(s, 1, Idle).(size := Wrap(s.size - 1), net := s.net - 1), used);
  }

  /** Thread 1 deletes the first key of the list. */
  lemma DeleteOne(r: Trace, c: Crew, used: nat) returns (r': Trace)
    requires By(r, c, used) && c.deletes && Calm(r.End()) && r.End().list != [] && 1 in r.End().pc && r.End().pc[1] == Idle
    ensures By(r', c, used)
    ensures var s, s' := r.End(), r'.End(); s'.pc == s.pc && s'.list == s.list[1..] && s'.size == Wrap(s.size - 1)
  {
    HeadIsLoose(r);
    var n, s := r.End().list[0], r.End();
    var r0 := DeleteBegin(r, c, used, n);
    var r1 := DeleteHalf(r0, c, used, n);
    TwoMoves(s.pc, 1, Deleting(n), Awaiting(n));
    OthersLoose(s, r1.End(), n, Awaiting(n));
    var r2 := DeleteFree(r1, c, used, n);
    r' := DeleteCount(r2, c, used);
    TwoMoves(s.pc, 1, Awaiting(n), Uncounting);
    TwoMoves(s.pc, 1, Uncounting, Idle);
    assert s.pc[1 := Idle] == s.pc;
  }

  lemma OthersLoose(s: State, s': State, n: Node, p: Pc)
    requires Loose(s, n) && s'.pc == s.pc[1 := p]
    ensures OnlyHolder(s', 1, n)
  {
    forall u <- s'.pc | u != 1 ensures HolderOf(s'.pc[u]) != Some(n) {
      assert HolderOf(s.pc[u]) != Some(n);
    }
  }

  /** Thread 1 deletes the first j keys of the list. */
  lemma {:induction false} DeleteMany(r: Trace, c: Crew, used: nat, j: nat) returns (r': Trace)
    requires By(r, c, used) && c.deletes && Calm(r.End()) && 1 in r.End().pc && r.End().pc[1] == Idle
    requires j <= |r.End().list| && j <= r.End().size < U64
    ensures By(r', c, used)
    ensures var s, s' := r.End(), r'.End(); s'.pc == s.pc && s'.list == s.list[j..] && s'.size == s.size - j
  {
    if j == 0 {
      r' := r;
    } else {
      var r1 := DeleteMany(r, c, used, j - 1);
      r' := DeleteOne(r1, c, used);
      assert r.End().list[j - 1..][1..] == r.End().list[j..];
    }
  }
}
