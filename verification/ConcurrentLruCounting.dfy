/**
 The size counter of the concurrent LRU. It is changed in other steps than the list is, so the two
 agree only up to the threads that are between such steps; how exactly is proved for every run, and
 from that, for runs without deletes, that the counter stays bounded and evictions find a node.
 */
module ConcurrentLruCounting {
  import opened ConcurrentLru
  import opened Sets

  /** Threads between a change of the list and the change of the counter that goes with it. */
  datatype Kind =
    | PushedUncounted
    | EvictedUnpushed
    | DecrementedUnevicted
    | DeletedUncounted
    | InFlight              // inserting
    | Underfull             // has seen room and is still to count itself

  predicate Is(kind: Kind, p: Pc) {
    match kind
    case PushedUncounted => p.Counting?
    case EvictedUnpushed => p.Erasing? || p.Freeing? || (p.Pushing? && p.done)
    case DecrementedUnevicted => p.EvictingMore?
    case DeletedUncounted => p.Unmapping? || p.Awaiting? || p.Deallocating? || p.Uncounting?
    case InFlight => Inserting(p)
    case Underfull => p.Counting? || (p.Pushing? && !p.done)
  }

  function Those(pc: map<Tid, Pc>, kind: Kind): set<Tid> {
    set t | t in pc && Is(kind, pc[t])
  }

  function HowMany(pc: map<Tid, Pc>, kind: Kind): nat {
    |Those(pc, kind)|
  }

  function One(b: bool): int {
    if b then 1 else 0
  }

  lemma HowManyMove(pc: map<Tid, Pc>, t: Tid, q: Pc, kind: Kind)
    requires t in pc
    ensures HowMany(pc[t := q], kind) == HowMany(pc, kind) - One(Is(kind, pc[t])) + One(Is(kind, q))
  {
    SetMove(Those(pc, kind), Those(pc[t := q], kind), t);
  }

  /** List length less what the threads in between still owe. */
  function Owed(pc: map<Tid, Pc>): int {
    HowMany(pc, PushedUncounted) - HowMany(pc, EvictedUnpushed)
    + HowMany(pc, DecrementedUnevicted) - HowMany(pc, DeletedUncounted)
  }

  function Owes(p: Pc): int {
    One(Is(PushedUncounted, p)) - One(Is(EvictedUnpushed, p)) + One(Is(DecrementedUnevicted, p)) - One(Is(DeletedUncounted, p))
  }

  lemma OwedMove(pc: map<Tid, Pc>, t: Tid, q: Pc)
    requires t in pc
    ensures Owed(pc[t := q]) == Owed(pc) - Owes(pc[t]) + Owes(q)
  {
    HowManyMove(pc, t, q, PushedUncounted);
    HowManyMove(pc, t, q, EvictedUnpushed);
    HowManyMove(pc, t, q, DecrementedUnevicted);
    HowManyMove(pc, t, q, DeletedUncounted);
  }

  ghost predicate Balance(s: State) {
    |s.list| == s.net + Owed(s.pc) + s.empties && s.size == Wrap(s.net)
  }

  lemma WrapNext(x: int)
    ensures Wrap(Wrap(x) + 1) == Wrap(x + 1) && Wrap(Wrap(x) - 1) == Wrap(x - 1)
  {
  }

  lemma {:induction false} WithoutLength(list: seq<Node>, n: Node)
    requires n in list
    ensures |Without(list, n)| == |list| - 1
  {
    if list[0] != n {
      WithoutLength(list[1..], n);
    }
  }

  /** What a step of `t` does to the list, the counter and the threads adds up. */
  ghost predicate AddsUp(s: State, s': State, t: Tid) {
    && t in s.pc && t in s'.pc && s'.pc == s.pc[t := s'.pc[t]]
    && |s'.list| - s'.net - s'.empties - Owes(s'.pc[t]) == |s.list| - s.net - s.empties - Owes(s.pc[t])
    && ((s'.net == s.net && s'.size == s.size)
        || (s'.net == s.net + 1 && s'.size == Wrap(s.size + 1))
        || (s'.net == s.net - 1 && s'.size == Wrap(s.size - 1)))
  }

  lemma EvictAddsUp(s: State, t: Tid)
    requires Enabled(s, Step(t, Evict))
    ensures AddsUp(s, DoEvict(s, t), t)
  {
  }

  lemma PushAddsUp(s: State, t: Tid)
    requires Enabled(s, Step(t, Push))
    ensures AddsUp(s, DoPush(s, t), t)
  {
  }

  lemma PromoteAddsUp(s: State, t: Tid)
    requires Enabled(s, Step(t, Promote))
    ensures AddsUp(s, DoPromote(s, t), t)
  {
    if s.pc[t].n in s.list {
      WithoutLength(s.list, s.pc[t].n);
    }
  }

  lemma DelinkAddsUp(s: State, t: Tid)
    requires Enabled(s, Step(t, Delink))
    ensures AddsUp(s, DoDelink(s, t), t)
  {
    if s.pc[t].n in s.list {
      WithoutLength(s.list, s.pc[t].n);
    }
  }

  /** A thread moves, the list and the counter stay. */
  lemma ToAddsUp(s: State, s': State, t: Tid, q: Pc)
    requires t in s.pc && Owes(q) == Owes(s.pc[t])
    requires s'.pc == s.pc[t := q] && s'.list == s.list && s'.size == s.size && s'.net == s.net && s'.empties == s.empties
    ensures AddsUp(s, s', t)
  {
  }

  lemma CountAddsUp(s: State, step: Step)
    requires Enabled(s, step) && (step.act.Count? || step.act.Claim? || step.act.Uncount?)
    ensures AddsUp(s, Do(s, step), step.t)
  {
  }

  lemma EraseAddsUp(s: State, t: Tid)
    requires Enabled(s, Step(t, Erase))
    ensures AddsUp(s, DoErase(s, t), t)
  {
  }

  lemma StepAddsUp(s: State, step: Step)
    requires Enabled(s, step) && !step.act.InsertFail?
    ensures AddsUp(s, Do(s, step), step.t)
  {
    var t := step.t;
    var p := s.pc[t];
    match step.act
    case Insert(k, n) => ToAddsUp(s, DoInsert(s, t, k, n), t, Loading(n));
    case Evict => EvictAddsUp(s, t);
    case Erase => EraseAddsUp(s, t);
    case Free => ToAddsUp(s, DoFree(s, t, p.m, AfterEvict(p)), t, AfterEvict(p));
    case Push => PushAddsUp(s, t);
    case Promote => PromoteAddsUp(s, t);
    case Delink => DelinkAddsUp(s, t);
    case Unmap => ToAddsUp(s, DoUnmap(s, t), t, Awaiting(p.n));
    case FreeDeleted => ToAddsUp(s, DoFree(s, t, p.n, Uncounting), t, Uncounting);
    case _ => OtherAddsUp(s, step);
  }

  lemma OtherAddsUp(s: State, step: Step)
    requires Enabled(s, step)
    requires !step.act.InsertFail? && !step.act.Insert? && !step.act.Evict? && !step.act.Erase? && !step.act.Free?
    requires !step.act.Push? && !step.act.Promote? && !step.act.Delink? && !step.act.Unmap? && !step.act.FreeDeleted?
    ensures AddsUp(s, Do(s, step), step.t)
  {
    if step.act.Count? || step.act.Claim? || step.act.Uncount? {
      CountAddsUp(s, step);
    } else {
      ToAddsUp(s, Do(s, step), step.t, Do(s, step).pc[step.t]);
    }
  }

  lemma StepBalance(s: State, step: Step)
    requires Enabled(s, step) && Balance(s)
    ensures Balance(Do(s, step))
  {
    if !step.act.InsertFail? {
      StepAddsUp(s, step);
      OwedMove(s.pc, step.t, Do(s, step).pc[step.t]);
      WrapNext(s.net);
    }
  }

  lemma {:induction false} NoneOwed(s: State)
    requires Init(s)
    ensures Balance(s)
  {
    forall kind: Kind | !kind.InFlight? && !kind.Underfull? ensures HowMany(s.pc, kind) == 0 {
      assert Those(s.pc, kind) == {};
    }
  }

  /**
   The counting law of every run, deletes and overflow of the counter included: list length is the
   counter (modulo its width) corrected by the threads in between and by the evictions that found
   the list empty.
   */
  lemma {:induction false} ListLength(states: seq<State>, steps: seq<Step>, i: nat)
    requires Run(states, steps) && i < |states|
    ensures var s := states[i];
      && |s.list| == s.net + HowMany(s.pc, PushedUncounted) - HowMany(s.pc, EvictedUnpushed)
                     + HowMany(s.pc, DecrementedUnevicted) - HowMany(s.pc, DeletedUncounted) + s.empties
      && s.size == Wrap(s.net)
  {
    if i == 0 {
      NoneOwed(states[0]);
    } else {
      ListLength(states, steps, i - 1);
      StepBalance(states[i - 1], steps[i - 1]);
    }
  }

  // ---------------------------------------------------------------- runs without deletes

  /** Has seen a full cache. */
  predicate SawFull(p: Pc) {
    p.Evicting? || p.Erasing? || p.Freeing? || (p.Pushing? && p.done) || p.Claiming?
    || p.EvictingMore? || p.ErasingMore? || p.FreeingMore?
  }

  ghost predicate Bounded(s: State, T: nat) {
    && Balance(s) && s.empties == 0 && s.size == s.net
    && s.size + HowMany(s.pc, Underfull) <= s.max - 1 + T
    && (forall t :: t in s.pc ==> !Is(DeletedUncounted, s.pc[t]) && !s.pc[t].Deleting?)
    && (forall t :: t in s.pc && SawFull(s.pc[t]) ==> s.size >= s.max)
    && (forall t :: t in s.pc && s.pc[t].Claiming? ==> s.pc[t].s > s.max)
  }

  /** A thread about to evict: the others cannot have evicted everything. */
  lemma EvictFindsNode(s: State, t: Tid, T: nat)
    requires Bounded(s, T) && T <= s.max && HowMany(s.pc, InFlight) <= T
    requires t in s.pc && (s.pc[t].Evicting? || s.pc[t].EvictingMore?)
    ensures s.list != []
  {
    assert Those(s.pc, DeletedUncounted) == {};
    var evicted := Those(s.pc, EvictedUnpushed);
    var flying := Those(s.pc, InFlight);
    assert evicted <= flying - {t};
    Smaller(evicted, flying - {t});
    assert |flying - {t}| == |flying| - 1;
  }

  lemma UnderfullBound(pc: map<Tid, Pc>)
    ensures HowMany(pc, Underfull) <= HowMany(pc, InFlight)
  {
    Smaller(Those(pc, Underfull), Those(pc, InFlight));
  }

  /** The counter after a step of a run without deletes. */
  lemma SizeBounded(s: State, step: Step, T: nat)
    requires Bounded(s, T) && Enabled(s, step) && !step.act.Delete? && !step.act.InsertFail?
    requires 1 <= T <= s.max && s.max + T <= U64 && HowMany(s.pc, InFlight) <= T
    ensures var s' := Do(s, step);
      && s'.size == s'.net && s'.empties == 0 && s'.max == s.max && (s.size >= s.max ==> s'.size >= s.max)
      && s'.size == s.size + One(step.act.Count?) - One(step.act.Claim? && s.size == s.pc[step.t].s)
  {
    if step.act.Evict? {
      EvictFindsNode(s, step.t, T);
    }
    if step.act.Count? {
      CountingIsUnderfull(s.pc, step.t);
    }
  }

  lemma SumBounded(s: State, step: Step, T: nat)
    requires Bounded(s, T) && Enabled(s, step) && !step.act.Delete? && !step.act.InsertFail?
    requires 1 <= T <= s.max && s.max + T <= U64 && HowMany(s.pc, InFlight) <= T && HowMany(Do(s, step).pc, InFlight) <= T
    ensures Do(s, step).size + HowMany(Do(s, step).pc, Underfull) <= s.max - 1 + T
  {
    var s' := Do(s, step);
    var t := step.t;
    SizeBounded(s, step, T);
    StepAddsUp(s, step);
    HowManyMove(s.pc, t, s'.pc[t], Underfull);
    if step.act.Load? && s.size < s.max {
      UnderfullBound(s'.pc);
    } else {
      StepMoves(s, step);
      UnderfullStays(s.pc[t], step.act, s'.pc[t], s.max, s.size);
    }
  }

  /** Where a step takes its thread. */
  ghost predicate Moves(p: Pc, a: Act, q: Pc, max: nat, size: nat) {
    match a
    case Insert(k, n) => p.Idle? && q == Loading(n)
    case InsertFail(k) => p == q
    case Load => p.Loading? && q == if size >= max then Evicting(p.n, size) else Pushing(p.n, size, false)
    case Evict => if p.Evicting? then q.Erasing? || (q.Pushing? && q.done) else p.EvictingMore? && (q.ErasingMore? || q.Returning?)
    case Erase => if p.Erasing? then q.Freeing? || (q.Pushing? && q.done) else p.ErasingMore? && (q.FreeingMore? || q.Returning?)
    case Free => if p.Freeing? then q.Pushing? && q.done else p.FreeingMore? && q.Returning?
    case Push => p.Pushing? && (if p.done then q.Returning? || (q.Claiming? && q.s > max) else q.Counting?)
    case Count => p.Counting? && (q.Returning? || (q.Claiming? && q.s > max && size >= max))
    case Claim => p.Claiming? && (q.EvictingMore? || q.Returning?)
    case Return => q.Idle?
    case Find(k) => q.Found?
    case Promote => q.Leaving?
    case Skip => q.Leaving?
    case Leave => q.Idle?
    case Delete(k) => p.Idle? && q.Deleting?
    case Delink => p.Deleting? && (q.Idle? || q.Unmapping?)
    case Unmap => p.Unmapping? && q.Awaiting?
    case Await => p.Awaiting? && q.Deallocating?
    case FreeDeleted => p.Deallocating? && q.Uncounting?
    case Uncount => p.Uncounting? && q.Idle?
  }

  lemma InsertMoves(s: State, step: Step)
    requires Enabled(s, step)
    requires var a := step.act; a.Evict? || a.Erase? || a.Free? || a.Push? || a.Count? || a.Claim? || a.Load?
    ensures Moves(s.pc[step.t], step.act, Do(s, step).pc[step.t], s.max, s.size)
  {
  }

  lemma OtherMoves(s: State, step: Step)
    requires Enabled(s, step)
    requires var a := step.act; !(a.Evict? || a.Erase? || a.Free? || a.Push? || a.Count? || a.Claim? || a.Load?)
    ensures Moves(s.pc[step.t], step.act, Do(s, step).pc[step.t], s.max, s.size)
  {
  }

  lemma StepMoves(s: State, step: Step)
    requires Enabled(s, step)
    ensures Moves(s.pc[step.t], step.act, Do(s, step).pc[step.t], s.max, s.size)
  {
    if step.act.Evict? || step.act.Erase? || step.act.Free? || step.act.Push? || step.act.Count? || step.act.Claim? || step.act.Load? {
      InsertMoves(s, step);
    } else {
      OtherMoves(s, step);
    }
  }

  lemma UnderfullStays(p: Pc, a: Act, q: Pc, max: nat, size: nat)
    requires Moves(p, a, q, max, size) && !a.InsertFail? && !(a.Load? && size < max)
    ensures Is(Underfull, q) ==> Is(Underfull, p) && !a.Count?
    ensures a.Count? ==> Is(Underfull, p)
  {
  }

  /** Where a thread may get when the cache is used without deletes. */
  lemma MoverBounded(p: Pc, a: Act, q: Pc, max: nat, size: nat)
    requires Moves(p, a, q, max, size) && !a.Delete? && !Is(DeletedUncounted, p) && !p.Deleting?
    requires (p.Claiming? ==> p.s > max) && (SawFull(p) ==> size >= max)
    ensures !Is(DeletedUncounted, q) && !q.Deleting? && (SawFull(q) ==> size >= max) && (q.Claiming? ==> q.s > max)
  {
  }

  lemma ThreadBounded(s: State, step: Step, T: nat, u: Tid)
    requires Bounded(s, T) && Enabled(s, step) && !step.act.Delete? && !step.act.InsertFail? && u in Do(s, step).pc
    ensures var p := Do(s, step).pc[u];
      !Is(DeletedUncounted, p) && !p.Deleting? && (SawFull(p) ==> s.size >= s.max) && (p.Claiming? ==> p.s > s.max)
  {
    if u == step.t {
      StepMoves(s, step);
      MoverBounded(s.pc[u], step.act, Do(s, step).pc[u], s.max, s.size);
    } else {
      StepAddsUp(s, step);
    }
  }

  lemma StepBounded(s: State, step: Step, T: nat)
    requires Bounded(s, T) && Enabled(s, step) && !step.act.Delete? && !step.act.InsertFail?
    requires 1 <= T <= s.max && s.max + T <= U64 && HowMany(s.pc, InFlight) <= T && HowMany(Do(s, step).pc, InFlight) <= T
    ensures Bounded(Do(s, step), T) && Do(s, step).max == s.max
  {
    var s' := Do(s, step);
    StepBalance(s, step);
    SizeBounded(s, step, T);
    SumBounded(s, step, T);
    forall u | u in s'.pc
      ensures !Is(DeletedUncounted, s'.pc[u]) && !s'.pc[u].Deleting?
      ensures (SawFull(s'.pc[u]) ==> s'.size >= s'.max) && (s'.pc[u].Claiming? ==> s'.pc[u].s > s'.max)
    {
      ThreadBounded(s, step, T, u);
    }
  }

  lemma CountingIsUnderfull(pc: map<Tid, Pc>, t: Tid)
    requires t in pc && pc[t].Counting?
    ensures HowMany(pc, Underfull) >= 1
  {
    Smaller({t}, Those(pc, Underfull));
  }

  /** A run without deletes and with at most T inserts in flight at any time. */
  ghost predicate InsertRun(states: seq<State>, steps: seq<Step>, T: nat) {
    && Run(states, steps) && 1 <= T <= states[0].max && states[0].max + T <= U64
    && (forall i :: 0 <= i < |steps| ==> !steps[i].act.Delete?)
    && (forall i :: 0 <= i < |states| ==> HowMany(states[i].pc, InFlight) <= T)
  }

  lemma StartsBounded(s: State, T: nat)
    requires Init(s) && 1 <= T
    ensures Bounded(s, T)
  {
    NoneOwed(s);
    assert Those(s.pc, Underfull) == {};
  }

  lemma {:induction false} RunBounded(states: seq<State>, steps: seq<Step>, T: nat, i: nat)
    requires InsertRun(states, steps, T) && i < |states|
    ensures Bounded(states[i], T) && states[i].max == states[0].max
  {
    if i == 0 {
      StartsBounded(states[0], T);
    } else {
      RunBounded(states, steps, T, i - 1);
      assert states[i] == Do(states[i - 1], steps[i - 1]) && HowMany(states[i].pc, InFlight) <= T;
      if !steps[i - 1].act.InsertFail? {
        StepBounded(states[i - 1], steps[i - 1], T);
      }
    }
  }

  /**
   Without deletes and with at most T <= m_maxSize inserts in flight, the counter never exceeds
   m_maxSize - 1 + T and the list length is the counter corrected by the threads in between.
   */
  lemma SizeNeverRunsAway(states: seq<State>, steps: seq<Step>, T: nat, i: nat)
    requires InsertRun(states, steps, T) && i < |states|
    ensures var s := states[i];
      && s.size <= s.max - 1 + T
      && |s.list| == s.size + HowMany(s.pc, PushedUncounted) - HowMany(s.pc, EvictedUnpushed)
                     + HowMany(s.pc, DecrementedUnevicted)
  {
    RunBounded(states, steps, T, i);
    assert Those(states[i].pc, DeletedUncounted) == {};
  }

  /** In such a run no eviction finds the list empty. */
  lemma EvictNeverFindsEmptyList(states: seq<State>, steps: seq<Step>, T: nat, i: nat)
    requires InsertRun(states, steps, T) && i < |steps| && steps[i].act.Evict?
    ensures states[i].list != []
  {
    RunBounded(states, steps, T, i);
    EvictFindsNode(states[i], steps[i].t, T);
  }

  /** Once full, such a cache stays full: nobody who loads the counter later sees room. */
  lemma {:induction false} FullStaysFull(states: seq<State>, steps: seq<Step>, T: nat, i: nat, j: nat)
    requires InsertRun(states, steps, T) && i <= j < |states| && states[i].size >= states[i].max
    ensures states[j].size >= states[j].max
    decreases j - i
  {
    if i < j {
      RunBounded(states, steps, T, i);
      if !steps[i].act.InsertFail? {
        SizeBounded(states[i], steps[i], T);
      }
      FullStaysFull(states, steps, T, i + 1, j);
    }
  }
}
