/**
 The baseline concurrent LRU cache. Hash map, recency list and the size counter are updated in
 separate steps by any number of threads. A map element is created together with its list node, so a
 node stands for both; an accessor is a reader or writer lock on an element. The list is a sequence,
 most recently used first; what a thread does to it under the list mutex is one step. The counter is
 an unsigned 64-bit word.

 Not read by any step: `status`, `net` and `empties`.
 */
module ConcurrentLru {
  import opened Options

  type Key = nat
  type Node = nat
  type Tid = nat

  const U64: nat := 0x1_0000_0000_0000_0000

  /** Where a thread is. `n` is the node of its own operation, `m` the one it evicts, `s` what it saw of the size. */
  datatype Pc =
    | Idle
    // insert
    | Loading(n: Node)
    | Evicting(n: Node, s: nat)
    | Erasing(n: Node, s: nat, m: Node)
    | Freeing(n: Node, s: nat, m: Node)
    | Pushing(n: Node, s: nat, done: bool)
    | Counting(n: Node)
    | Claiming(n: Node, s: nat)
    | EvictingMore(n: Node)
    | ErasingMore(n: Node, m: Node)
    | FreeingMore(n: Node, m: Node)
    | Returning(n: Node)
    // find
    | Found(n: Node)
    | Leaving(n: Node)
    // delete_key
    | Deleting(n: Node)
    | Unmapping(n: Node)
    | Awaiting(n: Node)
    | Deallocating(n: Node)
    | Uncounting

  /** Who may take a node out of the list: nobody yet, anybody, the thread that did, nobody any more. */
  datatype Status = Fresh(t: Tid) | Listed | Taken(t: Tid) | Freed

  datatype State = State(
    max: nat,
    size: nat,
    table: map<Key, Node>,
    key: map<Node, Key>,
    list: seq<Node>,
    pc: map<Tid, Pc>,
    // bookkeeping
    status: map<Node, Status>,
    net: int,                  // increments of the counter less decrements
    empties: nat)              // evictions that found the list empty

  datatype Act =
    | Insert(k: Key, n: Node) | InsertFail(k: Key) | Load | Evict | Erase | Free | Push | Count | Claim | Return
    | Find(k: Key) | Promote | Skip | Leave
    | Delete(k: Key) | Delink | Unmap | Await | FreeDeleted | Uncount

  datatype Step = Step(t: Tid, act: Act)

  /** Any number of threads on an empty cache. */
  ghost predicate Init(s: State) {
    && s.size == 0 && s.table == map[] && s.key == map[] && s.list == [] && (forall t <- s.pc :: s.pc[t] == Idle)
    && s.status == map[] && s.net == 0 && s.empties == 0
  }

  function Wrap(x: int): (y: nat)
    ensures y < U64
  {
    x % U64
  }

  /** The element a thread has an accessor to. */
  function HolderOf(p: Pc): Option<Node> {
    match p
    case Loading(n) => Some(n)
    case Evicting(n, _) => Some(n)
    case Erasing(n, _, _) => Some(n)
    case Freeing(n, _, _) => Some(n)
    case Pushing(n, _, _) => Some(n)
    case Counting(n) => Some(n)
    case Claiming(n, _) => Some(n)
    case EvictingMore(n) => Some(n)
    case ErasingMore(n, _) => Some(n)
    case FreeingMore(n, _) => Some(n)
    case Returning(n) => Some(n)
    case Found(n) => Some(n)
    case Leaving(n) => Some(n)
    case Deleting(n) => Some(n)
    case Unmapping(n) => Some(n)
    case Awaiting(n) => Some(n)
    case _ => None
  }

  /** Inserting threads hold writer accessors, the others reader accessors. */
  predicate Inserting(p: Pc) {
    p.Loading? || p.Evicting? || p.Erasing? || p.Freeing? || p.Pushing? || p.Counting? || p.Claiming?
    || p.EvictingMore? || p.ErasingMore? || p.FreeingMore? || p.Returning?
  }

  /** No thread has an accessor to this element. */
  ghost predicate Unheld(s: State, n: Node) {
    forall u <- s.pc :: HolderOf(s.pc[u]) != Some(n)
  }

  ghost predicate NoWriter(s: State, n: Node) {
    forall u <- s.pc :: Inserting(s.pc[u]) ==> HolderOf(s.pc[u]) != Some(n)
  }

  ghost predicate OnlyHolder(s: State, t: Tid, n: Node) {
    forall u <- s.pc :: u != t ==> HolderOf(s.pc[u]) != Some(n)
  }

  ghost predicate Enabled(s: State, step: Step) {
    step.t in s.pc && var p := s.pc[step.t];
    match step.act
    case Insert(k, n) => p.Idle? && k !in s.table && n !in s.key
    case InsertFail(k) => p.Idle? && k in s.table && Unheld(s, s.table[k])
    case Load => p.Loading?
    case Evict => p.Evicting? || p.EvictingMore?
    case Erase => (p.Erasing? || p.ErasingMore?) && p.m in s.key
                  && (s.key[p.m] in s.table ==> Unheld(s, s.table[s.key[p.m]]))
    case Free => p.Freeing? || p.FreeingMore?
    case Push => p.Pushing?
    case Count => p.Counting?
    case Claim => p.Claiming?
    case Return => p.Returning?
    case Find(k) => p.Idle? && k in s.table && NoWriter(s, s.table[k])
    case Promote => p.Found?
    case Skip => p.Found?
    case Leave => p.Leaving?
    case Delete(k) => p.Idle? && k in s.table && NoWriter(s, s.table[k])
    case Delink => p.Deleting?
    case Unmap => p.Unmapping? && p.n in s.key
    case Await => p.Awaiting? && OnlyHolder(s, step.t, p.n)
    case FreeDeleted => p.Deallocating?
    case Uncount => p.Uncounting?
  }

  /** The list without the first occurrence of a node. */
  function Without(list: seq<Node>, n: Node): seq<Node> {
    if list == [] then [] else if list[0] == n then list[1..] else [list[0]] + Without(list[1..], n)
  }

  /** Where an insert goes after its first or its second eviction. */
  function AfterEvict(p: Pc): Pc
    requires Inserting(p)
  {
    if p.Evicting? || p.Erasing? || p.Freeing? then Pushing(p.n, p.s, true) else Returning(p.n)
  }

  function AtErase(p: Pc, m: Node): Pc
    requires p.Evicting? || p.EvictingMore?
  {
    if p.Evicting? then Erasing(p.n, p.s, m) else ErasingMore(p.n, m)
  }

  function AtFree(p: Pc): Pc
    requires p.Erasing? || p.ErasingMore?
  {
    if p.Erasing? then Freeing(p.n, p.s, p.m) else FreeingMore(p.n, p.m)
  }

  function AfterCount(s: State, n: Node, seen: nat): Pc {
    if seen > s.max then Claiming(n, seen) else Returning(n)
  }

  ghost function Do(s: State, step: Step): State
    requires Enabled(s, step)
  {
    var t := step.t;
    var p := s.pc[t];
    match step.act
    case Insert(k, n) => DoInsert(s, t, k, n)
    case InsertFail(k) => s
    case Load => To(s, t, if s.size >= s.max then Evicting(p.n, s.size) else Pushing(p.n, s.size, false))
    case Evict => DoEvict(s, t)
    case Erase => DoErase(s, t)
    case Free => DoFree(s, t, p.m, AfterEvict(p))
    case Push => DoPush(s, t)
    case Count => To(s, t, AfterCount(s, p.n, s.size)).(size := Wrap(s.size + 1), net := s.net + 1)
    case Claim =>
      if s.size == p.s then To(s, t, EvictingMore(p.n)).(size := Wrap(s.size - 1), net := s.net - 1)
      else To(s, t, Returning(p.n))
    case Return => To(s, t, Idle)
    case Find(k) => To(s, t, Found(s.table[k]))
    case Promote => DoPromote(s, t)
    case Skip => To(s, t, Leaving(p.n))
    case Leave => To(s, t, Idle)
    case Delete(k) => To(s, t, Deleting(s.table[k]))
    case Delink => DoDelink(s, t)
    case Unmap => DoUnmap(s, t)
    case Await => To(s, t, Deallocating(p.n))
    case FreeDeleted => DoFree(s, t, p.n, Uncounting)
    case Uncount => To(s, t, Idle).(size := Wrap(s.size - 1), net := s.net - 1)
  }

  ghost function To(s: State, t: Tid, p: Pc): State {
    s.(pc := s.pc[t := p])
  }

  ghost function DoInsert(s: State, t: Tid, k: Key, n: Node): State {
    To(s, t, Loading(n)).(table := s.table[k := n], key := s.key[n := k], status := s.status[n := Fresh(t)])
  }

  /** The list part of evict. */
  ghost function DoEvict(s: State, t: Tid): State
    requires t in s.pc && (s.pc[t].Evicting? || s.pc[t].EvictingMore?)
  {
    if s.list == [] then To(s, t, AfterEvict(s.pc[t])).(empties := s.empties + 1)
    else
      var m := s.list[|s.list| - 1];
      To(s, t, AtErase(s.pc[t], m)).(list := s.list[..|s.list| - 1], status := s.status[m := Taken(t)])
  }

  /** The map part of evict: find the element of the node's key and erase it. */
  ghost function DoErase(s: State, t: Tid): State
    requires t in s.pc && (s.pc[t].Erasing? || s.pc[t].ErasingMore?) && s.pc[t].m in s.key
  {
    var k := s.key[s.pc[t].m];
    if k in s.table then To(s, t, AtFree(s.pc[t])).(table := s.table - {k})
    else To(s, t, AfterEvict(s.pc[t]))
  }

  ghost function DoFree(s: State, t: Tid, m: Node, q: Pc): State {
    To(s, t, q).(status := s.status[m := Freed])
  }

  ghost function DoPush(s: State, t: Tid): State
    requires t in s.pc && s.pc[t].Pushing?
  {
    var p := s.pc[t];
    To(s, t, if p.done then AfterCount(s, p.n, p.s) else Counting(p.n)).(list := [p.n] + s.list, status := s.status[p.n := Listed])
  }

  ghost function DoPromote(s: State, t: Tid): State
    requires t in s.pc && s.pc[t].Found?
  {
    var n := s.pc[t].n;
    To(s, t, Leaving(n)).(list := if n in s.list then [n] + Without(s.list, n) else s.list)
  }

  ghost function DoDelink(s: State, t: Tid): State
    requires t in s.pc && s.pc[t].Deleting?
  {
    var n := s.pc[t].n;
    if n in s.list then To(s, t, Unmapping(n)).(list := Without(s.list, n), status := s.status[n := Taken(t)])
    else To(s, t, Idle)
  }

  /** Erase through the accessor: the element leaves the map, if it is still there. */
  ghost function DoUnmap(s: State, t: Tid): State
    requires t in s.pc && s.pc[t].Unmapping? && s.pc[t].n in s.key
  {
    var n := s.pc[t].n;
    var k := s.key[n];
    To(s, t, Awaiting(n)).(table := if k in s.table && s.table[k] == n then s.table - {k} else s.table)
  }

  ghost predicate Run(states: seq<State>, steps: seq<Step>) {
    && |states| == |steps| + 1 && Init(states[0])
    && forall i :: 0 <= i < |steps| ==> Enabled(states[i], steps[i]) && states[i + 1] == Do(states[i], steps[i])
  }

  /** The node a step takes out of the list for good. */
  ghost function Removes(s: State, step: Step): Option<Node>
    requires Enabled(s, step)
  {
    if step.act.Evict? && s.list != [] then Some(s.list[|s.list| - 1])
    else if step.act.Delink? && s.pc[step.t].n in s.list then Some(s.pc[step.t].n)
    else None
  }

  /** The nodes whose memory a step may read or write. */
  ghost function Uses(s: State, step: Step): set<Node>
    requires Enabled(s, step)
  {
    var p := s.pc[step.t];
    var listed := set n | n in s.list;
    match step.act
    case Evict => listed
    case Erase => {p.m}
    case Free => {p.m}
    case Push => listed + {p.n}
    case Promote => listed + {p.n}
    case Delink => listed + {p.n}
    case FreeDeleted => {p.n}
    case _ => {}
  }
}
