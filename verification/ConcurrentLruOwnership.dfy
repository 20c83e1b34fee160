/**
 Who owns a node of the concurrent LRU, over every interleaving of insert, find, evict and
 delete_key: one thread takes it out of the list, that thread frees it, and nobody touches it after.
 */
module ConcurrentLruOwnership {
  import opened Options
  import opened ConcurrentLru

  /** The node a thread is still to push. */
  function FreshOf(p: Pc): Option<Node> {
    if p.Loading? || p.Evicting? || p.Erasing? || p.Freeing? || p.Pushing? then Some(p.n) else None
  }

  /** The node a thread has taken out of the list and is still to free. */
  function TakenOf(p: Pc): Option<Node> {
    if p.Erasing? || p.ErasingMore? || p.Freeing? || p.FreeingMore? then Some(p.m)
    else if p.Unmapping? || p.Awaiting? || p.Deallocating? then Some(p.n)
    else None
  }

  /** It has not erased the element of that node yet. */
  predicate Unerased(p: Pc) {
    p.Erasing? || p.ErasingMore? || p.Unmapping?
  }

  /** The node a thread frees with its next step. */
  function DoomedOf(p: Pc): Option<Node> {
    if p.Freeing? || p.FreeingMore? then Some(p.m) else if p.Deallocating? then Some(p.n) else None
  }

  predicate InTable(table: map<Key, Node>, key: map<Node, Key>, n: Node) {
    n in key && key[n] in table && table[key[n]] == n
  }

  ghost predicate Distinct(list: seq<Node>) {
    forall i, j :: 0 <= i < j < |list| ==> list[i] != list[j]
  }

  ghost predicate ListOk(list: seq<Node>, status: map<Node, Status>) {
    && Distinct(list)
    && (forall n :: n in list <==> n in status && status[n].Listed?)
  }

  ghost predicate TableOk(table: map<Key, Node>, key: map<Node, Key>, status: map<Node, Status>) {
    && status.Keys == key.Keys
    && forall k <- table :: table[k] in key && key[table[k]] == k
  }

  ghost predicate NodeOk(s: State, n: Node)
    requires n in s.status
  {
    match s.status[n]
    case Listed => InTable(s.table, s.key, n)
    case Fresh(t) => t in s.pc && FreshOf(s.pc[t]) == Some(n) && InTable(s.table, s.key, n)
    case Taken(t) => t in s.pc && TakenOf(s.pc[t]) == Some(n) && (InTable(s.table, s.key, n) <==> Unerased(s.pc[t]))
    case Freed => !InTable(s.table, s.key, n)
  }

  /** What a thread is about to use has not been freed, and what it is to push or free is its own. */
  ghost predicate ThreadOk(status: map<Node, Status>, t: Tid, p: Pc) {
    && (FreshOf(p).Some? ==> FreshOf(p).value in status && status[FreshOf(p).value] == Fresh(t))
    && (TakenOf(p).Some? ==> TakenOf(p).value in status && status[TakenOf(p).value] == Taken(t))
    && (HolderOf(p).Some? ==> HolderOf(p).value in status && !status[HolderOf(p).value].Freed?)
    && (DoomedOf(p).Some? ==> HolderOf(p) != DoomedOf(p))
  }

  /** Accessors exclude each other, and nobody has one to a node about to be freed. */
  ghost predicate PairOk(p: Pc, q: Pc) {
    && (HolderOf(p).Some? && HolderOf(p) == HolderOf(q) ==> !Inserting(p) && !Inserting(q))
    && (DoomedOf(p).Some? ==> HolderOf(q) != DoomedOf(p))
  }

  ghost predicate Inv(s: State) {
    && ListOk(s.list, s.status) && TableOk(s.table, s.key, s.status)
    && (forall n {:trigger NodeOk(s, n)} :: n in s.status ==> NodeOk(s, n))
    && (forall t {:trigger ThreadOk(s.status, t, s.pc[t])} :: t in s.pc ==> ThreadOk(s.status, t, s.pc[t]))
    && PairsOk(s.pc)
  }

  ghost predicate PairsOk(pc: map<Tid, Pc>) {
    forall t, u {:trigger PairOk(pc[t], pc[u])} :: t in pc && u in pc && t != u ==> PairOk(pc[t], pc[u])
  }

  lemma InitInv(s: State)
    requires Init(s)
    ensures Inv(s)
  {
  }

  // ---------------------------------------------------------------- moves of one thread

  lemma PairsMove(pc: map<Tid, Pc>, t: Tid, q: Pc)
    requires t in pc && PairsOk(pc)
    requires forall u :: u in pc && u != t ==> PairOk(q, pc[u]) && PairOk(pc[u], q)
    ensures PairsOk(pc[t := q])
  {
    var pc' := pc[t := q];
    forall v, u | v in pc' && u in pc' && v != u ensures PairOk(pc'[v], pc'[u]) {
      assert v != t && u != t ==> PairOk(pc[v], pc[u]);
    }
  }

  /** From `p` to `q` a thread gives nothing away but, perhaps, its accessor. */
  predicate Alike(p: Pc, q: Pc) {
    && FreshOf(p) == FreshOf(q) && TakenOf(p) == TakenOf(q) && Unerased(p) == Unerased(q) && DoomedOf(p) == DoomedOf(q)
    && (HolderOf(q) == HolderOf(p) || HolderOf(q) == None) && (Inserting(q) ==> Inserting(p))
  }

  lemma AlikePairs(pc: map<Tid, Pc>, t: Tid, q: Pc)
    requires t in pc && PairsOk(pc) && Alike(pc[t], q)
    ensures PairsOk(pc[t := q])
  {
    forall u | u in pc && u != t ensures PairOk(q, pc[u]) && PairOk(pc[u], q) {
      assert PairOk(pc[t], pc[u]) && PairOk(pc[u], pc[t]);
    }
    PairsMove(pc, t, q);
  }

  lemma AlikeInv(s: State, s': State, t: Tid, q: Pc)
    requires Inv(s) && t in s.pc && Alike(s.pc[t], q)
    requires s' == s.(pc := s.pc[t := q], size := s'.size, net := s'.net, empties := s'.empties)
    ensures Inv(s')
  {
    AlikePairs(s.pc, t, q);
    forall n | n in s'.status ensures NodeOk(s', n) {
      assert NodeOk(s, n);
    }
    forall u | u in s'.pc ensures ThreadOk(s'.status, u, s'.pc[u]) {
      assert ThreadOk(s.status, u, s.pc[u]);
    }
  }

  // ---------------------------------------------------------------- insert

  lemma InsertNodes(s: State, s': State, t: Tid, k: Key, n: Node, m: Node)
    requires Inv(s) && Enabled(s, Step(t, Insert(k, n))) && s' == DoInsert(s, t, k, n) && m in s'.status
    ensures NodeOk(s', m)
  {
    if m != n {
      assert NodeOk(s, m);
    }
  }

  lemma InsertThreads(s: State, s': State, t: Tid, k: Key, n: Node, u: Tid)
    requires Inv(s) && Enabled(s, Step(t, Insert(k, n))) && s' == DoInsert(s, t, k, n) && u in s'.pc
    ensures ThreadOk(s'.status, u, s'.pc[u])
    ensures u != t ==> PairOk(s'.pc[t], s.pc[u]) && PairOk(s.pc[u], s'.pc[t])
  {
    assert ThreadOk(s.status, u, s.pc[u]);
    assert DoomedOf(s.pc[u]).Some? ==> TakenOf(s.pc[u]) == DoomedOf(s.pc[u]);
  }

  lemma InsertStep(s: State, t: Tid, k: Key, n: Node)
    requires Inv(s) && Enabled(s, Step(t, Insert(k, n)))
    ensures Inv(DoInsert(s, t, k, n))
  {
    var s' := DoInsert(s, t, k, n);
    assert n !in s.status.Keys;
    forall m | m in s'.status ensures NodeOk(s', m) {
      InsertNodes(s, s', t, k, n, m);
    }
    forall u | u in s'.pc
      ensures ThreadOk(s'.status, u, s'.pc[u])
      ensures u != t ==> PairOk(s'.pc[t], s.pc[u]) && PairOk(s.pc[u], s'.pc[t])
    {
      InsertThreads(s, s', t, k, n, u);
    }
    PairsMove(s.pc, t, Loading(n));
  }

  // ---------------------------------------------------------------- accessors

  lemma AcquirePair(s: State, t: Tid, n: Node, q: Pc, u: Tid)
    requires Inv(s) && t in s.pc && InTable(s.table, s.key, n) && NoWriter(s, n) && (q == Found(n) || q == Deleting(n))
    requires u in s.pc && u != t
    ensures PairOk(q, s.pc[u]) && PairOk(s.pc[u], q)
  {
    assert ThreadOk(s.status, u, s.pc[u]);
    assert n in s.status.Keys;
    assert NodeOk(s, n);
    assert DoomedOf(s.pc[u]).Some? ==> TakenOf(s.pc[u]) == DoomedOf(s.pc[u]) && !Unerased(s.pc[u]);
  }

  lemma AcquireStep(s: State, t: Tid, n: Node, q: Pc)
    requires Inv(s) && t in s.pc && s.pc[t].Idle? && InTable(s.table, s.key, n) && NoWriter(s, n)
    requires q == Found(n) || q == Deleting(n)
    ensures Inv(To(s, t, q))
  {
    var s' := To(s, t, q);
    forall u | u in s.pc && u != t ensures PairOk(q, s.pc[u]) && PairOk(s.pc[u], q) {
      AcquirePair(s, t, n, q, u);
    }
    PairsMove(s.pc, t, q);
    assert n in s.status.Keys;
    forall m | m in s'.status ensures NodeOk(s', m) {
      assert NodeOk(s, m);
    }
    forall u | u in s'.pc ensures ThreadOk(s'.status, u, s'.pc[u]) {
      assert ThreadOk(s.status, u, s.pc[u]);
      assert NodeOk(s, n);
    }
  }

  // ---------------------------------------------------------------- the list

  lemma {:induction false} WithoutIs(list: seq<Node>, n: Node, m: Node)
    requires n in list && Distinct(list)
    ensures m in Without(list, n) <==> m in list && m != n
    ensures |Without(list, n)| == |list| - 1
  {
    if list[0] != n {
      WithoutIs(list[1..], n, m);
      assert list == [list[0]] + list[1..];
    }
  }

  lemma {:induction false} WithoutDistinct(list: seq<Node>, n: Node)
    requires n in list && Distinct(list)
    ensures Distinct(Without(list, n))
  {
    if list[0] != n {
      WithoutDistinct(list[1..], n);
      var r := Without(list[1..], n);
      forall j | 0 <= j < |r| ensures r[j] != list[0] {
        WithoutIs(list[1..], n, r[j]);
      }
    }
  }

  lemma PromotedDistinct(list: seq<Node>, n: Node)
    requires n in list && Distinct(list)
    ensures Distinct([n] + Without(list, n))
  {
    WithoutDistinct(list, n);
    var w := Without(list, n);
    forall j | 0 <= j < |w| ensures w[j] != n {
      WithoutIs(list, n, w[j]);
    }
  }

  lemma PromoteStep(s: State, t: Tid)
    requires Inv(s) && Enabled(s, Step(t, Promote))
    ensures Inv(DoPromote(s, t))
  {
    var s' := DoPromote(s, t);
    var n := s.pc[t].n;
    if n in s.list {
      forall m ensures m in s'.list <==> m in s.list {
        WithoutIs(s.list, n, m);
      }
      PromotedDistinct(s.list, n);
    }
    AlikeInv(s, s'.(list := s.list), t, Leaving(n));
    PromoteRest(s'.(list := s.list), s');
  }

  lemma PromoteRest(s: State, s': State)
    requires Inv(s) && s' == s.(list := s'.list) && ListOk(s'.list, s.status)
    ensures Inv(s')
  {
    forall m | m in s'.status ensures NodeOk(s', m) {
      assert NodeOk(s, m);
    }
    forall u | u in s'.pc ensures ThreadOk(s'.status, u, s'.pc[u]) {
      assert ThreadOk(s.status, u, s.pc[u]);
    }
  }

  /** A thread takes a node out of the list. */
  ghost function Take(s: State, t: Tid, m: Node, q: Pc, list: seq<Node>): State {
    To(s, t, q).(list := list, status := s.status[m := Taken(t)])
  }

  lemma TakeStep(s: State, t: Tid, m: Node, q: Pc, list: seq<Node>)
    requires Inv(s) && t in s.pc && m in s.list && TakenOf(s.pc[t]) == None
    requires forall n :: n in list <==> n in s.list && n != m
    requires Distinct(list)
    requires FreshOf(q) == FreshOf(s.pc[t]) && TakenOf(q) == Some(m) && Unerased(q) && DoomedOf(q) == None
    requires HolderOf(q) == HolderOf(s.pc[t]) && Inserting(q) == Inserting(s.pc[t])
    ensures Inv(Take(s, t, m, q, list))
  {
    var s' := Take(s, t, m, q, list);
    TakePairs(s, t, q);
    assert m in s.status && s.status[m].Listed?;
    forall n | n in s'.status ensures NodeOk(s', n) {
      assert NodeOk(s, n);
    }
    forall u | u in s'.pc ensures ThreadOk(s'.status, u, s'.pc[u]) {
      assert ThreadOk(s.status, u, s.pc[u]);
    }
  }

  lemma TakePairs(s: State, t: Tid, q: Pc)
    requires Inv(s) && t in s.pc && DoomedOf(q) == None
    requires HolderOf(q) == HolderOf(s.pc[t]) && Inserting(q) == Inserting(s.pc[t])
    ensures PairsOk(s.pc[t := q])
  {
    forall u | u in s.pc && u != t ensures PairOk(q, s.pc[u]) && PairOk(s.pc[u], q) {
      assert PairOk(s.pc[t], s.pc[u]) && PairOk(s.pc[u], s.pc[t]);
    }
    PairsMove(s.pc, t, q);
  }

  lemma EvictStep(s: State, t: Tid)
    requires Inv(s) && Enabled(s, Step(t, Evict))
    ensures Inv(DoEvict(s, t))
  {
    var p := s.pc[t];
    if s.list == [] {
      AlikeInv(s, DoEvict(s, t), t, AfterEvict(p));
    } else {
      var m := s.list[|s.list| - 1];
      var rest := s.list[..|s.list| - 1];
      assert s.list == rest + [m];
      TakeStep(s, t, m, AtErase(p, m), rest);
    }
  }

  lemma DelinkStep(s: State, t: Tid)
    requires Inv(s) && Enabled(s, Step(t, Delink))
    ensures Inv(DoDelink(s, t))
  {
    var n := s.pc[t].n;
    if n in s.list {
      WithoutDistinct(s.list, n);
      forall m ensures m in Without(s.list, n) <==> m in s.list && m != n {
        WithoutIs(s.list, n, m);
      }
      TakeStep(s, t, n, Unmapping(n), Without(s.list, n));
    } else {
      AlikeInv(s, DoDelink(s, t), t, Idle);
    }
  }

  lemma PushStep(s: State, t: Tid)
    requires Inv(s) && Enabled(s, Step(t, Push))
    ensures Inv(DoPush(s, t))
  {
    var s' := DoPush(s, t);
    var n := s.pc[t].n;
    assert ThreadOk(s.status, t, s.pc[t]);
    TakePairs(s, t, s'.pc[t]);
    forall m | m in s'.status ensures NodeOk(s', m) {
      assert NodeOk(s, m);
    }
    forall u | u in s'.pc ensures ThreadOk(s'.status, u, s'.pc[u]) {
      assert ThreadOk(s.status, u, s.pc[u]);
    }
  }

  // ---------------------------------------------------------------- the map

  /** What an evicting thread finds in the map is the element of the node it took: it always gets on to free it. */
  lemma ErasesItsNode(s: State, t: Tid)
    requires Inv(s) && t in s.pc && Unerased(s.pc[t])
    ensures var m := TakenOf(s.pc[t]).value; m in s.status && s.status[m] == Taken(t) && InTable(s.table, s.key, m)
  {
    assert ThreadOk(s.status, t, s.pc[t]);
    assert NodeOk(s, TakenOf(s.pc[t]).value);
  }

  /** The element of a taken node leaves the map. */
  lemma UnmapInv(s: State, s': State, t: Tid, m: Node, q: Pc)
    requires Inv(s) && t in s.pc && Unerased(s.pc[t]) && TakenOf(s.pc[t]) == Some(m) && InTable(s.table, s.key, m)
    requires s' == To(s, t, q).(table := s.table - {s.key[m]})
    requires FreshOf(q) == FreshOf(s.pc[t]) && TakenOf(q) == Some(m) && !Unerased(q) && HolderOf(q) == HolderOf(s.pc[t])
    requires Inserting(q) == Inserting(s.pc[t])
    requires DoomedOf(q).Some? ==> DoomedOf(q) == Some(m) && Unheld(s, m)
    ensures Inv(s')
  {
    forall u | u in s.pc && u != t ensures PairOk(q, s.pc[u]) && PairOk(s.pc[u], q) {
      assert PairOk(s.pc[t], s.pc[u]) && PairOk(s.pc[u], s.pc[t]);
    }
    PairsMove(s.pc, t, q);
    assert ThreadOk(s.status, t, s.pc[t]);
    forall n | n in s'.status ensures NodeOk(s', n) {
      assert NodeOk(s, n);
      LeavesTable(s.table, s.key, m, n);
    }
    forall u | u in s'.pc ensures ThreadOk(s'.status, u, s'.pc[u]) {
      assert ThreadOk(s.status, u, s.pc[u]);
    }
  }

  lemma LeavesTable(table: map<Key, Node>, key: map<Node, Key>, m: Node, n: Node)
    requires InTable(table, key, m)
    ensures InTable(table - {key[m]}, key, n) <==> InTable(table, key, n) && n != m
  {
  }

  lemma EraseStep(s: State, t: Tid)
    requires Inv(s) && Enabled(s, Step(t, Erase))
    ensures Inv(DoErase(s, t))
  {
    ErasesItsNode(s, t);
    UnmapInv(s, DoErase(s, t), t, s.pc[t].m, AtFree(s.pc[t]));
  }

  lemma UnmapStep(s: State, t: Tid)
    requires Inv(s) && Enabled(s, Step(t, Unmap))
    ensures Inv(DoUnmap(s, t))
  {
    ErasesItsNode(s, t);
    UnmapInv(s, DoUnmap(s, t), t, s.pc[t].n, Awaiting(s.pc[t].n));
  }

  lemma AwaitStep(s: State, t: Tid)
    requires Inv(s) && Enabled(s, Step(t, Await))
    ensures Inv(To(s, t, Deallocating(s.pc[t].n)))
  {
    var n := s.pc[t].n;
    var q := Deallocating(n);
    var s' := To(s, t, q);
    forall u | u in s.pc && u != t ensures PairOk(q, s.pc[u]) && PairOk(s.pc[u], q) {
      assert PairOk(s.pc[u], s.pc[t]);
    }
    PairsMove(s.pc, t, q);
    forall m | m in s'.status ensures NodeOk(s', m) {
      assert NodeOk(s, m);
    }
    forall u | u in s'.pc ensures ThreadOk(s'.status, u, s'.pc[u]) {
      assert ThreadOk(s.status, u, s.pc[u]);
    }
  }

  lemma FreeStep(s: State, t: Tid, m: Node, q: Pc)
    requires Inv(s) && t in s.pc && DoomedOf(s.pc[t]) == Some(m)
    requires FreshOf(q) == FreshOf(s.pc[t]) && TakenOf(q) == None && HolderOf(q) == HolderOf(s.pc[t])
    requires Inserting(q) == Inserting(s.pc[t])
    ensures Inv(DoFree(s, t, m, q))
  {
    var s' := DoFree(s, t, m, q);
    assert TakenOf(s.pc[t]) == Some(m) && !Unerased(s.pc[t]);
    assert ThreadOk(s.status, t, s.pc[t]);
    TakePairs(s, t, q);
    forall n | n in s'.status ensures NodeOk(s', n) {
      assert NodeOk(s, n);
    }
    forall u | u in s'.pc ensures ThreadOk(s'.status, u, s'.pc[u]) {
      assert ThreadOk(s.status, u, s.pc[u]);
      assert u != t ==> PairOk(s.pc[t], s.pc[u]);
    }
  }

  lemma StepInv(s: State, step: Step)
    requires Inv(s) && Enabled(s, step)
    ensures Inv(Do(s, step))
  {
    var t := step.t;
    var p := s.pc[t];
    match step.act
    case Insert(k, n) => InsertStep(s, t, k, n);
    case Evict => EvictStep(s, t);
    case Erase => EraseStep(s, t);
    case Free => FreeStep(s, t, p.m, AfterEvict(p));
    case Push => PushStep(s, t);
    case Find(k) => AcquireStep(s, t, s.table[k], Found(s.table[k]));
    case Promote => PromoteStep(s, t);
    case Delete(k) => AcquireStep(s, t, s.table[k], Deleting(s.table[k]));
    case Delink => DelinkStep(s, t);
    case Unmap => UnmapStep(s, t);
    case Await => AwaitStep(s, t);
    case FreeDeleted => FreeStep(s, t, p.n, Uncounting);
    case _ => QuietStep(s, step);
  }

  /** Steps that change nothing but the thread's place and the counter. */
  predicate Quiet(a: Act) {
    a.InsertFail? || a.Load? || a.Count? || a.Claim? || a.Return? || a.Skip? || a.Leave? || a.Uncount?
  }

  lemma QuietStep(s: State, step: Step)
    requires Inv(s) && Enabled(s, step) && Quiet(step.act)
    ensures Inv(Do(s, step))
  {
    var s' := Do(s, step);
    if !step.act.InsertFail? {
      AlikeInv(s, s', step.t, s'.pc[step.t]);
    }
  }

  lemma {:induction false} RunInv(states: seq<State>, steps: seq<Step>, i: nat)
    requires Run(states, steps) && i < |states|
    ensures Inv(states[i])
  {
    if i == 0 {
      InitInv(states[0]);
    } else {
      RunInv(states, steps, i - 1);
      StepInv(states[i - 1], steps[i - 1]);
    }
  }

  // ---------------------------------------------------------------- what follows for every run

  /** At most one listed node per key, and a listed node is the one the map has for its key. */
  lemma OneListedPerKey(states: seq<State>, steps: seq<Step>, i: nat, n: Node, m: Node)
    requires Run(states, steps) && i < |states| && n in states[i].list && m in states[i].list
    ensures var s := states[i];
      && InTable(s.table, s.key, n) && m in s.key
      && (s.key[n] == s.key[m] ==> n == m)
      && Distinct(s.list)
  {
    RunInv(states, steps, i);
    assert NodeOk(states[i], n);
    assert NodeOk(states[i], m);
  }

  /** The branch the source calls presumably unreachable is: whoever evicts finds the element of its node. */
  lemma EvictFindsItsElement(states: seq<State>, steps: seq<Step>, i: nat)
    requires Run(states, steps) && i < |steps| && steps[i].act.Erase?
    ensures var s := states[i]; var m := s.pc[steps[i].t].m; InTable(s.table, s.key, m)
  {
    RunInv(states, steps, i);
    ErasesItsNode(states[i], steps[i].t);
  }

  /** No step uses the memory of a freed node; in particular none frees it again. */
  lemma NoUseAfterFree(states: seq<State>, steps: seq<Step>, i: nat, n: Node)
    requires Run(states, steps) && i < |steps| && n in Uses(states[i], steps[i])
    ensures n in states[i].status && !states[i].status[n].Freed?
  {
    RunInv(states, steps, i);
    var s := states[i];
    assert ThreadOk(s.status, steps[i].t, s.pc[steps[i].t]);
  }

  /** How far a node has come: pushed, taken out, freed, in this order. */
  function Age(x: Status): nat {
    match x
    case Fresh(_) => 0
    case Listed => 1
    case Taken(_) => 2
    case Freed => 3
  }

  lemma StepAge(s: State, step: Step, n: Node)
    requires Inv(s) && Enabled(s, step) && n in s.status
    ensures n in Do(s, step).status && Age(Do(s, step).status[n]) >= Age(s.status[n])
  {
    assert ThreadOk(s.status, step.t, s.pc[step.t]);
  }

  lemma {:induction false} RunAge(states: seq<State>, steps: seq<Step>, i: nat, j: nat, n: Node)
    requires Run(states, steps) && i <= j < |states| && n in states[i].status
    ensures n in states[j].status && Age(states[j].status[n]) >= Age(states[i].status[n])
    decreases j - i
  {
    if i < j {
      RunInv(states, steps, i);
      StepAge(states[i], steps[i], n);
      RunAge(states, steps, i + 1, j, n);
    }
  }

  lemma RemovesTakes(s: State, step: Step, n: Node)
    requires Inv(s) && Enabled(s, step) && Removes(s, step) == Some(n)
    ensures n in s.status && s.status[n] == Listed
    ensures n in Do(s, step).status && Do(s, step).status[n] == Taken(step.t)
  {
  }

  /** Exactly one of evict and delete_key removes a node: once it is removed, no later step removes it. */
  lemma RemovedOnce(states: seq<State>, steps: seq<Step>, i: nat, j: nat, n: Node)
    requires Run(states, steps) && i < j < |steps| && Removes(states[i], steps[i]) == Some(n)
    ensures Removes(states[j], steps[j]) != Some(n)
  {
    RunInv(states, steps, i);
    RunInv(states, steps, j);
    RemovesTakes(states[i], steps[i], n);
    RunAge(states, steps, i + 1, j, n);
    if Removes(states[j], steps[j]) == Some(n) {
      RemovesTakes(states[j], steps[j], n);
      assert false;
    }
  }
}
