/**
 The freezing scan of the freezable LRU cache (`construct_ratio`), run while any number of
 threads keep inserting.

 The scan walks the main list from its head without holding the list mutex.  Meanwhile every
 insert pushes a node at the head and evicts the one at the tail.  The scan ends with one of two
 cuts: either it has walked far enough and cuts the walked part out, or the evictions have eaten
 so much of the old list that everything from the scan's first node on becomes the frozen part.
 Nothing but a slack of `RELAX` nodes keeps the walker away from the nodes being freed.

 The state below is advanced one atomic action at a time: one map operation, one counter
 operation or one section under the list mutex.
 */
module FreezeScan {
  import opened Sets

  /** FC_RELAXATION */
  const RELAX: nat := 20

  type Key = nat
  type Value = nat
  type Thread = nat

  /** A list node; `id` is its address. */
  datatype Node = Node(id: nat, key: Key)

  datatype Entry = Entry(value: Value, node: Node)

  /** What the scan's pointer may hold: a node or one of the two tail sentinels. */
  datatype Cursor = At(node: Node) | MainTail | FastTail

  /** How far one insert has come. `s` is the size it has loaded. */
  datatype Insert =
    | Mapped(node: Node)
    | MustEvict(node: Node, s: nat)
    | Erasing(node: Node, s: nat, victim: Node)
    | Pushing(node: Node, evicted: bool, s: nat)
    | Pushed(evicted: bool, s: nat)
    | Trimming(s: nat)
    | TrimErasing(victim: Node)

  /** Where in its loop body the scan stands; `seen` is the eviction count it loaded. */
  datatype Scan =
    | Top
    | Loaded(seen: nat)
    | Inserted(seen: nat)
    | Advanced(seen: nat)
    | Finished
    | Stray // dereferenced a node that is in neither list

  datatype State = State(
    maxSize: nat,
    fcSize: nat,
    main: seq<Node>,            // m_head .. m_tail
    frozen: seq<Node>,          // m_fast_head .. m_fast_tail
    index: map<Key, Entry>,     // m_map
    fast: map<Key, Value>,      // m_fasthash
    size: nat,                  // m_size
    evictions: nat,             // eviction_counter
    inserts: map<Thread, Insert>,
    scan: Scan,
    first: Node,                // m_fast_head.m_next
    cursor: Cursor,             // temp_node
    count: nat,
    firstPass: bool,
    pace: nat,                  // the most inserts that may begin between two loads of the eviction count
    // bookkeeping for the statements below; no action reads these
    start: seq<Node>,           // the list from the scan's first node on, when counting began
    early: nat,                 // uncounted nodes that were ahead of that node or still to be pushed
    cut: bool,
    gone: nat,                  // tail nodes delinked before the cut
    lastSeen: nat,              // the eviction count loaded last
    gap: nat,                   // inserts begun since that load
    lag: nat)                   // inserts that had not evicted yet, at the moment of the cut

  function DcSize(s: State): nat
    requires s.fcSize <= s.maxSize
  {
    s.maxSize - s.fcSize
  }

  /**
   The moment fast_hash_construct is set. The cache is full and has no frozen part; any number of
   inserts are under way, each before, at or after its one eviction, and they are not counted. The scan
   has noted its first node a little earlier, so that nodes may stand ahead of it.
   */
  ghost predicate Init(s: State) {
    && RELAX <= s.fcSize && RELAX + s.fcSize <= s.maxSize
    && |s.main| + |AwaySet(s.inserts)| == s.maxSize == s.size
    && s.frozen == [] && s.fast == map[] && Placed(s) && AllEvicting(s.maxSize, s.inserts)
    && 0 < |s.start| <= |s.main| && s.main[|s.main| - |s.start|..] == s.start
    && s.early == |s.main| - |s.start| + |AwaySet(s.inserts)| + InFlight(s.inserts)
    && s.scan == Top && s.first == s.start[0] && s.cursor == At(s.first) && s.count == 0 && s.firstPass
    && !s.cut && s.gone == s.evictions == s.lastSeen == s.gap == s.lag == 0
  }

  /** What the slack allows: inserts that begin during a pass of the loop, twice, and the early ones. */
  predicate Slow(s: State) {
    2 * s.pace + s.early < 2 * RELAX - 1
  }

  datatype Step =
    | Begin(t: Thread, node: Node, value: Value)
    | LoadSize(t: Thread)
    | Evict(t: Thread)
    | Erase(t: Thread)
    | PushFront(t: Thread)
    | CountUp(t: Thread)
    | Trim(t: Thread)
    | TrimErase(t: Thread)
    | ScanTop
    | ScanFind
    | ScanAdvance
    | ScanCut

  /**
   Which actions may happen. The one assumption on timing is in `Begin`: until the cut, at most
   `pace` inserts begin between two successive loads of the eviction counter. An inserted key is
   absent, because clients insert only what they failed to find.
   */
  ghost predicate Enabled(s: State, step: Step) {
    match step
    case Begin(t, node, _) =>
      t !in s.inserts && node.key !in s.index && (!s.cut ==> s.gap < s.pace)
    case LoadSize(t) => t in s.inserts && s.inserts[t].Mapped?
    case Evict(t) => t in s.inserts && s.inserts[t].MustEvict?
    case Erase(t) => t in s.inserts && s.inserts[t].Erasing?
    case PushFront(t) => t in s.inserts && s.inserts[t].Pushing?
    case CountUp(t) => t in s.inserts && s.inserts[t].Pushed?
    case Trim(t) => t in s.inserts && s.inserts[t].Trimming?
    case TrimErase(t) => t in s.inserts && s.inserts[t].TrimErasing?
    case ScanTop => s.scan.Top?
    case ScanFind => s.scan.Loaded?
    case ScanAdvance => s.scan.Inserted?
    case ScanCut => s.scan.Advanced?
  }

  function ButLast(list: seq<Node>): seq<Node>
    requires list != []
  {
    list[..|list| - 1]
  }

  ghost function Do(s: State, step: Step): State
    requires Enabled(s, step) && s.fcSize <= s.maxSize
  {
    match step
    case Begin(t, node, value) =>
      // m_map.insert; fast_hash_construct is set until the scan has finished
      s.(index := s.index[node.key := Entry(value, node)],
         evictions := if s.scan.Finished? then s.evictions else s.evictions + 1,
         gap := s.gap + 1,
         inserts := s.inserts[t := Mapped(node)])
    case LoadSize(t) =>
      var node := s.inserts[t].node;
      s.(inserts := s.inserts[t := if s.size >= s.maxSize then MustEvict(node, s.size)
                                   else Pushing(node, false, s.size)])
    case Evict(t) =>
      var i := s.inserts[t];
      if s.main == [] then
        s.(inserts := s.inserts[t := Pushing(i.node, false, i.s)])
      else
        var victim := s.main[|s.main| - 1];
        s.(main := ButLast(s.main),
           gone := if s.cut then s.gone else s.gone + 1,
           inserts := s.inserts[t := Erasing(i.node, i.s, victim)])
    case Erase(t) =>
      var i := s.inserts[t];
      s.(index := s.index - {i.victim.key},
         inserts := s.inserts[t := Pushing(i.node, true, i.s)])
    case PushFront(t) =>
      var i := s.inserts[t];
      s.(main := [i.node] + s.main, inserts := s.inserts[t := Pushed(i.evicted, i.s)])
    case CountUp(t) =>
      var i := s.inserts[t];
      var loaded := if i.evicted then i.s else s.size;
      var rest := if loaded > s.maxSize then s.inserts[t := Trimming(loaded)] else s.inserts - {t};
      s.(size := if i.evicted then s.size else s.size + 1, inserts := rest)
    case Trim(t) =>
      if s.main == [] then
        s.(inserts := s.inserts - {t})
      else
        s.(main := ButLast(s.main),
           gone := if s.cut then s.gone else s.gone + 1,
           inserts := s.inserts[t := TrimErasing(s.main[|s.main| - 1])])
    case TrimErase(t) =>
      s.(index := s.index - {s.inserts[t].victim.key},
         size := if s.size > 0 then s.size - 1 else 0,
         inserts := s.inserts - {t})
    case ScanTop => DoScanTop(s)
    case ScanFind => DoScanFind(s)
    case ScanAdvance => DoScanAdvance(s)
    case ScanCut => DoScanCut(s)
  }

  ghost function DoScanTop(s: State): State {
    if s.cursor == FastTail then s.(scan := Finished)
    else s.(scan := Loaded(s.evictions), count := s.count + 1, lastSeen := s.evictions, gap := 0)
  }

  ghost function DoScanFind(s: State): State
    requires s.scan.Loaded?
  {
    if s.cursor.At? && Linked(s, s.cursor.node) && s.cursor.node.key in s.index then
      var key := s.cursor.node.key;
      s.(fast := s.fast[key := s.index[key].value], scan := Inserted(s.scan.seen))
    else
      s.(scan := Stray)
  }

  ghost function DoScanAdvance(s: State): State
    requires s.scan.Inserted?
  {
    if s.cursor.At? && Linked(s, s.cursor.node) then
      s.(cursor := Following(s, s.cursor.node), scan := Advanced(s.scan.seen))
    else
      s.(scan := Stray)
  }

  ghost function DoScanCut(s: State): State
    requires s.scan.Advanced? && s.fcSize <= s.maxSize
  {
    if !s.firstPass then s.(scan := Top)
    else if s.count > s.fcSize - RELAX then CutBehindCursor(s)
    else if s.scan.seen > DcSize(s) - RELAX then CutAtTail(s)
    else s.(scan := Top)
  }

  predicate Linked(s: State, n: Node) {
    n in s.main || n in s.frozen
  }

  ghost function PositionOf(list: seq<Node>, n: Node): (i: nat)
    requires n in list
    ensures i < |list| && list[i] == n
  {
    var i :| 0 <= i < |list| && list[i] == n;
    i
  }

  /** What the node's next pointer holds. */
  ghost function Following(s: State, n: Node): Cursor
    requires Linked(s, n)
  {
    if n in s.main then
      var i := PositionOf(s.main, n);
      if i + 1 < |s.main| then At(s.main[i + 1]) else MainTail
    else
      var i := PositionOf(s.frozen, n);
      if i + 1 < |s.frozen| then At(s.frozen[i + 1]) else FastTail
  }

  /** Number of nodes ahead of the scan's first node: those pushed since the scan began. */
  ghost function Ahead(s: State): nat {
    if s.first in s.main then PositionOf(s.main, s.first) else 0
  }

  /** The first cut: everything from the scan's first node up to the cursor leaves the main list. */
  ghost function CutBehindCursor(s: State): State
  {
    var a := Ahead(s);
    if s.cursor.At? && s.cursor.node in s.main && a <= PositionOf(s.main, s.cursor.node) then
      var b := PositionOf(s.main, s.cursor.node);
      s.(main := s.main[..a] + s.main[b..], frozen := s.main[a..b],
         scan := Finished, cut := true, lag := InFlight(s.inserts))
    else
      s.(scan := Stray)
  }

  /** The second cut: everything from the scan's first node on leaves the main list. */
  ghost function CutAtTail(s: State): State
  {
    var a := Ahead(s);
    if s.first in s.main then
      s.(main := s.main[..a], frozen := s.main[a..],
         scan := Top, firstPass := false, cut := true, lag := InFlight(s.inserts))
    else
      s.(scan := Stray)
  }

  ghost predicate NoDup(list: seq<Node>) {
    forall i, j {:trigger Differ(list, i, j)} :: 0 <= i < j < |list| ==> Differ(list, i, j)
  }

  predicate Differ(list: seq<Node>, i: nat, j: nat)
    requires i < |list| && j < |list|
  {
    list[i] != list[j]
  }

  lemma NoDupButLast(list: seq<Node>)
    requires NoDup(list) && list != []
    ensures NoDup(ButLast(list)) && list[|list| - 1] !in ButLast(list)
  {
    forall i, j | 0 <= i < j < |list| - 1 ensures Differ(ButLast(list), i, j) {
      assert Differ(list, i, j);
    }
    forall i | 0 <= i < |list| - 1 ensures list[i] != list[|list| - 1] {
      assert Differ(list, i, |list| - 1);
    }
  }

  lemma NoDupPush(list: seq<Node>, n: Node)
    requires NoDup(list) && n !in list
    ensures NoDup([n] + list)
  {
    var r := [n] + list;
    forall i, j | 0 <= i < j < |r| ensures Differ(r, i, j) {
      assert i > 0 ==> Differ(list, i - 1, j - 1);
    }
  }

  /** The map still holds this very node. */
  ghost predicate Bound(s: State, n: Node) {
    BoundIn(s.index, n)
  }

  ghost predicate BoundIn(index: map<Key, Entry>, n: Node) {
    n.key in index && index[n.key].node == n
  }

  /** The nodes an insert holds that are in no list. */
  ghost function Held(i: Insert): set<Node> {
    match i
    case Mapped(n) => {n}
    case MustEvict(n, _) => {n}
    case Erasing(n, _, v) => {n, v}
    case Pushing(n, _, _) => {n}
    case Pushed(_, _) => {}
    case Trimming(_) => {}
    case TrimErasing(v) => {v}
  }

  /** Inserts that have not delinked their victim yet. */
  ghost function InFlightSet(inserts: map<Thread, Insert>): set<Thread> {
    set t | t in inserts && (inserts[t].Mapped? || inserts[t].MustEvict?)
  }

  /** Inserts that have delinked their victim and not pushed their node yet. */
  ghost function AwaySet(inserts: map<Thread, Insert>): set<Thread> {
    set t | t in inserts && (inserts[t].Erasing? || inserts[t].Pushing?)
  }

  ghost function InFlight(inserts: map<Thread, Insert>): nat {
    |InFlightSet(inserts)|
  }

  // ---------------------------------------------------------------- invariant

  /** Each live node is in exactly one place and the map leads to it. */
  ghost predicate Placed(s: State) {
    PlacedIn(s.main, s.frozen, s.index, s.inserts)
  }

  ghost predicate PlacedIn(main: seq<Node>, frozen: seq<Node>, index: map<Key, Entry>, inserts: map<Thread, Insert>) {
    && NoDup(main) && NoDup(frozen)
    && (forall n <- main :: BoundIn(index, n) && n !in frozen)
    && (forall n <- frozen :: BoundIn(index, n))
    && (forall t <- inserts :: Apart(main, frozen, index, inserts[t]))
    && (forall t <- inserts, u <- inserts :: t != u ==> Held(inserts[t]) !! Held(inserts[u]))
  }

  ghost predicate Apart(main: seq<Node>, frozen: seq<Node>, index: map<Key, Entry>, i: Insert) {
    && (forall n <- Held(i) :: BoundIn(index, n) && n !in main && n !in frozen)
    && (i.Erasing? ==> i.node != i.victim)
  }

  ghost predicate HoldsApart(s: State, i: Insert) {
    Apart(s.main, s.frozen, s.index, i)
  }

  /** The first `k` nodes of the old list are exactly what the fast hash holds, with the map's values. */
  ghost predicate Filled(s: State, k: nat) {
    FilledIn(s.start, s.fast, s.index, k)
  }

  ghost predicate FilledIn(start: seq<Node>, fast: map<Key, Value>, index: map<Key, Entry>, k: nat) {
    && k <= |start|
    && (forall i :: 0 <= i < k ==> start[i].key in fast && start[i].key in index
                                   && fast[start[i].key] == index[start[i].key].value)
    && (forall key <- fast :: exists i :: 0 <= i < k && start[i].key == key)
  }

  /** Before the cut every insert evicts exactly one node. */
  ghost predicate Evicting(maxSize: nat, i: Insert) {
    match i
    case Mapped(_) => true
    case MustEvict(_, z) => z == maxSize
    case Erasing(_, z, _) => z == maxSize
    case Pushing(_, e, z) => e && z == maxSize
    case Pushed(e, z) => e && z == maxSize
    case Trimming(_) => false
    case TrimErasing(_) => false
  }

  ghost predicate Sized(s: State) {
    && Slow(s) && RELAX <= s.fcSize && RELAX + s.fcSize <= s.maxSize <= |s.start| + s.early
    && NoDup(s.start) && s.first == s.start[0]
  }

  /** The main list is what was pushed since, followed by the old list less the evicted tail. */
  ghost predicate OldTail(s: State)
    requires Sized(s)
  {
    s.frozen == [] && OldTailIn(s.main, s.start, s.gone)
  }

  ghost predicate OldTailIn(main: seq<Node>, start: seq<Node>, gone: nat) {
    && gone <= |start| <= |main| + gone
    && main[|main| - (|start| - gone)..] == start[..|start| - gone]
  }

  ghost predicate Counters(s: State) {
    && s.size == s.maxSize
    && AllEvicting(s.maxSize, s.inserts)
    && s.evictions + s.early + |s.start| == s.maxSize + s.gone + InFlight(s.inserts)
    && s.lastSeen <= s.evictions <= s.lastSeen + s.gap
    && s.gap <= s.pace
  }

  ghost predicate AllEvicting(maxSize: nat, inserts: map<Thread, Insert>) {
    forall t <- inserts :: Evicting(maxSize, inserts[t])
  }

  ghost predicate ScanBeforeCut(s: State)
    requires Sized(s)
  {
    && s.firstPass
    && match s.scan
       case Top =>
         && s.count <= s.fcSize - RELAX && s.lastSeen <= DcSize(s) - RELAX
         && s.cursor == At(s.start[s.count]) && Filled(s, s.count)
       case Loaded(c) =>
         && Walking(s, c) && s.cursor == At(s.start[s.count - 1]) && Filled(s, s.count - 1)
       case Inserted(c) =>
         && Walking(s, c) && s.cursor == At(s.start[s.count - 1]) && Filled(s, s.count)
       case Advanced(c) =>
         && Walking(s, c) && s.cursor == At(s.start[s.count]) && Filled(s, s.count)
       case Finished => false
       case Stray => false
  }

  ghost predicate Walking(s: State, seen: nat)
    requires Sized(s)
  {
    && 1 <= s.count <= s.fcSize - RELAX + 1
    && seen == s.lastSeen <= DcSize(s) - RELAX + s.pace
  }

  ghost predicate BeforeCut(s: State) {
    Sized(s) && OldTail(s) && Counters(s) && ScanBeforeCut(s)
  }

  /** The frozen list is a prefix of the old list whose length is the target up to the slack. */
  ghost predicate FrozenRight(s: State)
    requires Sized(s)
  {
    FrozenIn(s.frozen, s.start, s.fcSize, s.lag)
  }

  ghost predicate FrozenIn(frozen: seq<Node>, start: seq<Node>, fcSize: nat, lag: nat) {
    && |frozen| <= |start|
    && frozen == start[..|frozen|]
    && fcSize - RELAX < |frozen| < fcSize + RELAX + lag
  }

  ghost predicate ScanAfterCut(s: State) {
    match s.scan
    case Top =>
      !s.firstPass && s.count <= |s.frozen| && s.cursor == CursorAt(s.frozen, s.count) && Filled(s, s.count)
    case Loaded(_) =>
      !s.firstPass && 1 <= s.count <= |s.frozen| && s.cursor == CursorAt(s.frozen, s.count - 1) && Filled(s, s.count - 1)
    case Inserted(_) =>
      !s.firstPass && 1 <= s.count <= |s.frozen| && s.cursor == CursorAt(s.frozen, s.count - 1) && Filled(s, s.count)
    case Advanced(_) =>
      !s.firstPass && s.count <= |s.frozen| && s.cursor == CursorAt(s.frozen, s.count) && Filled(s, s.count)
    case Finished => Filled(s, |s.frozen|)
    case Stray => false
  }

  function CursorAt(list: seq<Node>, i: nat): Cursor {
    if i < |list| then At(list[i]) else FastTail
  }

  ghost predicate AfterCut(s: State) {
    Sized(s) && FrozenRight(s) && ScanAfterCut(s)
  }

  ghost predicate Inv(s: State) {
    Placed(s) && (if s.cut then AfterCut(s) else BeforeCut(s))
  }

  // ---------------------------------------------------------------- preservation

  lemma InitInv(s: State)
    requires Init(s) && Slow(s)
    ensures Inv(s)
  {
    assert s.start[..|s.start|] == s.start;
    forall i, j | 0 <= i < j < |s.start| ensures Differ(s.start, i, j) {
      assert Differ(s.main, |s.main| - |s.start| + i, |s.main| - |s.start| + j);
    }
  }

  /** Moving one thread into or out of the counted-not-evicting phases changes their number by one. */
  lemma InFlightChange(a: map<Thread, Insert>, b: map<Thread, Insert>, t: Thread)
    requires a.Keys - {t} == b.Keys - {t}
    requires forall u <- a :: u != t ==> u in b && a[u] == b[u]
    ensures InFlight(b) == InFlight(a)
                           - (if t in InFlightSet(a) then 1 else 0)
                           + (if t in InFlightSet(b) then 1 else 0)
  {
    forall u | u != t ensures u in InFlightSet(a) <==> u in InFlightSet(b) {
      assert u in a.Keys - {t} <==> u in b.Keys - {t};
    }
    SetMove(InFlightSet(a), InFlightSet(b), t);
  }

  ghost predicate IsScan(step: Step) {
    step.ScanTop? || step.ScanFind? || step.ScanAdvance? || step.ScanCut?
  }

  lemma PlacedBegin(s: State, step: Step)
    requires s.fcSize <= s.maxSize && Placed(s) && Enabled(s, step) && step.Begin?
    ensures Placed(Do(s, step))
  {
    var s' := Do(s, step);
    forall n | Bound(s, n) ensures n != step.node && Bound(s', n) {
    }
  }

  lemma PlacedLoadSize(s: State, step: Step)
    requires s.fcSize <= s.maxSize && Placed(s) && Enabled(s, step)
    requires step.LoadSize? || step.CountUp?
    ensures Placed(Do(s, step))
  {
    PlacedShrink(s, Do(s, step));
  }

  /** Delinking the tail node moves it from the main list into the evicting thread's hands. */
  lemma PlacedDelinkTail(s: State, s': State, t: Thread)
    requires Placed(s) && s.main != [] && t in s.inserts
    requires s'.main == ButLast(s.main) && s'.frozen == s.frozen && s'.index == s.index
    requires s'.inserts.Keys == s.inserts.Keys
    requires forall u <- s.inserts :: u != t ==> s'.inserts[u] == s.inserts[u]
    requires Held(s'.inserts[t]) == Held(s.inserts[t]) + {s.main[|s.main| - 1]}
    requires s'.inserts[t].Erasing? ==>
      s'.inserts[t].victim == s.main[|s.main| - 1] && s'.inserts[t].node in Held(s.inserts[t])
    ensures Placed(s')
  {
    var v := s.main[|s.main| - 1];
    assert v in s.main;
    NoDupButLast(s.main);
    forall n <- s'.main ensures n in s.main {
    }
    forall u <- s'.inserts ensures HoldsApart(s', s'.inserts[u]) {
      assert HoldsApart(s, s.inserts[u]);
    }
    forall u <- s'.inserts, w <- s'.inserts | u != w ensures Held(s'.inserts[u]) !! Held(s'.inserts[w]) {
      assert HoldsApart(s, s.inserts[u]) && HoldsApart(s, s.inserts[w]);
      assert Held(s.inserts[u]) !! Held(s.inserts[w]);
    }
  }

  lemma PlacedShrink(s: State, s': State)
    requires Placed(s)
    requires s'.main == s.main && s'.frozen == s.frozen && s'.index == s.index
    requires forall u <- s'.inserts :: u in s.inserts && Held(s'.inserts[u]) <= Held(s.inserts[u])
                                       && (s'.inserts[u].Erasing? ==> s'.inserts[u] == s.inserts[u])
    ensures Placed(s')
  {
    forall u <- s'.inserts ensures HoldsApart(s', s'.inserts[u]) {
      assert HoldsApart(s, s.inserts[u]);
    }
    forall u <- s'.inserts, w <- s'.inserts | u != w ensures Held(s'.inserts[u]) !! Held(s'.inserts[w]) {
      assert Held(s.inserts[u]) !! Held(s.inserts[w]);
    }
  }

  lemma PlacedEvict(s: State, step: Step)
    requires s.fcSize <= s.maxSize && Placed(s) && Enabled(s, step)
    requires step.Evict? || step.Trim?
    ensures Placed(Do(s, step))
  {
    if s.main == [] {
      PlacedShrink(s, Do(s, step));
    } else {
      PlacedDelinkTail(s, Do(s, step), step.t);
    }
  }

  lemma PlacedErase(s: State, step: Step)
    requires s.fcSize <= s.maxSize && Placed(s) && Enabled(s, step)
    requires step.Erase? || step.TrimErase?
    ensures Placed(Do(s, step))
  {
    var s' := Do(s, step);
    var v := s.inserts[step.t].victim;
    assert HoldsApart(s, s.inserts[step.t]) && v in Held(s.inserts[step.t]);
    forall n | Bound(s, n) && n != v ensures Bound(s', n) {
    }
    forall u <- s'.inserts ensures u in s.inserts && Held(s'.inserts[u]) <= Held(s.inserts[u]) && v !in Held(s'.inserts[u]) {
      if u != step.t {
        assert Held(s.inserts[u]) !! Held(s.inserts[step.t]);
      }
    }
  }

  lemma PlacedPushFront(s: State, step: Step)
    requires s.fcSize <= s.maxSize && Placed(s) && Enabled(s, step) && step.PushFront?
    ensures Placed(Do(s, step))
  {
    var s' := Do(s, step);
    var node := s.inserts[step.t].node;
    assert HoldsApart(s, s.inserts[step.t]) && node in Held(s.inserts[step.t]);
    NoDupPush(s.main, node);
    forall n ensures n in s'.main <==> n == node || n in s.main {
    }
    forall u <- s'.inserts ensures u in s.inserts && Held(s'.inserts[u]) <= Held(s.inserts[u]) && node !in Held(s'.inserts[u]) {
      if u != step.t {
        assert Held(s.inserts[u]) !! Held(s.inserts[step.t]);
      }
    }
  }

  lemma PlacedInsert(s: State, step: Step)
    requires s.fcSize <= s.maxSize && Placed(s) && Enabled(s, step) && !IsScan(step)
    ensures Placed(Do(s, step))
  {
    match step
    case Begin(_, _, _) => PlacedBegin(s, step);
    case LoadSize(_) => PlacedLoadSize(s, step);
    case Evict(_) => PlacedEvict(s, step);
    case Erase(_) => PlacedErase(s, step);
    case PushFront(_) => PlacedPushFront(s, step);
    case CountUp(_) => PlacedLoadSize(s, step);
    case Trim(_) => PlacedEvict(s, step);
    case TrimErase(_) => PlacedErase(s, step);
  }

  /** A linked node keeps its map entry through every insert action. */
  lemma EntryKept(s: State, step: Step, n: Node)
    requires s.fcSize <= s.maxSize && Placed(s) && Enabled(s, step) && !IsScan(step)
    requires Linked(s, n)
    ensures var s' := Do(s, step);
            n.key in s.index && n.key in s'.index && s'.index[n.key] == s.index[n.key]
  {
    if step.Erase? || step.TrimErase? {
      assert HoldsApart(s, s.inserts[step.t]) && s.inserts[step.t].victim in Held(s.inserts[step.t]);
    }
  }

  lemma FilledKept(s: State, step: Step, k: nat)
    requires s.fcSize <= s.maxSize && Placed(s) && Enabled(s, step) && !IsScan(step)
    requires Filled(s, k)
    requires forall i :: 0 <= i < k ==> Linked(s, s.start[i])
    ensures Filled(Do(s, step), k)
  {
    forall i | 0 <= i < k
      ensures s.start[i].key in Do(s, step).index && Do(s, step).index[s.start[i].key] == s.index[s.start[i].key]
    {
      EntryKept(s, step, s.start[i]);
    }
  }

  /** A node of the old list that evictions have not reached is still in the main list. */
  lemma OldNode(s: State, i: nat)
    requires Sized(s) && OldTail(s) && i < |s.start| - s.gone
    ensures s.start[i] == s.main[|s.main| - (|s.start| - s.gone) + i]
    ensures s.start[i] in s.main
  {
    var a := |s.main| - (|s.start| - s.gone);
    assert s.main[a..][i] == s.start[..|s.start| - s.gone][i];
  }

  /** Before the cut the evictions have not come nearer than the node after the walked part. */
  lemma RoomLeft(s: State)
    requires BeforeCut(s)
    ensures s.count < |s.start| - s.gone <= |s.main|
  {
  }

  lemma WalkedIsLinked(s: State)
    requires BeforeCut(s)
    ensures forall i :: 0 <= i <= s.count ==> Linked(s, s.start[i])
  {
    RoomLeft(s);
    forall i | 0 <= i <= s.count ensures Linked(s, s.start[i]) {
      OldNode(s, i);
    }
  }

  lemma CountersKept(s: State, step: Step)
    requires !s.cut && BeforeCut(s) && Enabled(s, step) && !IsScan(step)
    ensures Counters(Do(s, step))
  {
    RoomLeft(s);
    var s' := Do(s, step);
    assert step.Begin? || Evicting(s.maxSize, s.inserts[step.t]);
    InFlightChange(s.inserts, s'.inserts, step.t);
    forall u <- s'.inserts ensures Evicting(s'.maxSize, s'.inserts[u]) {
      assert u != step.t ==> u in s.inserts && Evicting(s.maxSize, s.inserts[u]);
    }
  }

  lemma OldTailPush(s: State, s': State)
    requires Sized(s) && OldTail(s) && SameScan(s, s') && s'.gone == s.gone
    requires s'.main == s.main || (exists n :: s'.main == [n] + s.main)
    ensures OldTail(s')
  {
    var k := |s.start| - s.gone;
    assert s'.main[|s'.main| - k..] == s.main[|s.main| - k..];
  }

  lemma OldTailPop(s: State, s': State)
    requires Sized(s) && OldTail(s) && SameScan(s, s') && s.gone < |s.start| && s'.gone == s.gone + 1
    requires s.main != [] && s'.main == ButLast(s.main)
    ensures OldTail(s')
  {
    var k := |s.start| - s.gone;
    assert s'.main[|s'.main| - (k - 1)..] == ButLast(s.main[|s.main| - k..]);
  }

  /** The fields that only the scan changes. */
  ghost predicate SameScan(s: State, s': State) {
    && s'.maxSize == s.maxSize && s'.fcSize == s.fcSize && s'.frozen == s.frozen && s'.fast == s.fast
    && s'.scan == s.scan && s'.first == s.first && s'.cursor == s.cursor && s'.count == s.count
    && s'.firstPass == s.firstPass && s'.start == s.start && s'.cut == s.cut
    && s'.lastSeen == s.lastSeen && s'.lag == s.lag && s'.early == s.early && s'.pace == s.pace
  }

  lemma OldTailKept(s: State, step: Step)
    requires !s.cut && BeforeCut(s) && Enabled(s, step) && !IsScan(step)
    ensures OldTail(Do(s, step)) && SameScan(s, Do(s, step))
  {
    RoomLeft(s);
    InsertSameScan(s, step);
    assert step.Begin? || Evicting(s.maxSize, s.inserts[step.t]);
    if step.Evict? {
      OldTailPop(s, Do(s, step));
    } else {
      OldTailPush(s, Do(s, step));
    }
  }

  lemma ScanBeforeCutKept(s: State, s': State)
    requires BeforeCut(s) && SameScan(s, s')
    requires Filled(s', if s.scan.Loaded? then s.count - 1 else s.count)
    ensures ScanBeforeCut(s')
  {
  }

  lemma InsertBeforeCut(s: State, step: Step)
    requires !s.cut && Inv(s) && Enabled(s, step) && !IsScan(step)
    ensures Inv(Do(s, step))
  {
    PlacedInsert(s, step);
    CountersKept(s, step);
    OldTailKept(s, step);
    WalkedIsLinked(s);
    FilledKept(s, step, if s.scan.Loaded? then s.count - 1 else s.count);
    ScanBeforeCutKept(s, Do(s, step));
  }

  lemma PositionUnique(list: seq<Node>, i: nat)
    requires NoDup(list) && i < |list|
    ensures PositionOf(list, list[i]) == i
  {
    var j := PositionOf(list, list[i]);
    assert i < j ==> Differ(list, i, j);
    assert j < i ==> Differ(list, j, i);
  }

  lemma ScanTopBeforeCut(s: State)
    requires !s.cut && Inv(s) && s.scan.Top?
    ensures Inv(DoScanTop(s))
  {
  }

  lemma ScanFindBeforeCut(s: State)
    requires !s.cut && Inv(s) && s.scan.Loaded?
    ensures Inv(DoScanFind(s))
  {
    RoomLeft(s);
    OldNode(s, s.count - 1);
    assert Bound(s, s.start[s.count - 1]);
    FilledMore(s, DoScanFind(s), s.count - 1);
  }

  lemma ScanAdvanceBeforeCut(s: State)
    requires !s.cut && Inv(s) && s.scan.Inserted?
    ensures Inv(DoScanAdvance(s))
  {
    NextOldNode(s);
    AdvanceIs(s, |s.main| - (|s.start| - s.gone) + s.count - 1);
    AdvancedInv(s, DoScanAdvance(s));
  }

  lemma AdvanceIs(s: State, i: nat)
    requires s.scan.Inserted? && i < |s.main| - 1 && 1 <= s.count < |s.start| && s.cursor == At(s.start[s.count - 1])
    requires s.main[i] == s.start[s.count - 1] && s.main[i + 1] == s.start[s.count] && PositionOf(s.main, s.main[i]) == i
    ensures DoScanAdvance(s) == s.(cursor := At(s.start[s.count]), scan := Advanced(s.scan.seen))
  {
    assert s.main[i] in s.main;
  }

  lemma AdvancedInv(s: State, s': State)
    requires !s.cut && Inv(s) && s.scan.Inserted? && s.count < |s.start|
    requires s' == s.(cursor := At(s.start[s.count]), scan := Advanced(s.scan.seen))
    ensures Inv(s')
  {
  }

  /** Behind the node just copied stands the next of the old list. */
  lemma NextOldNode(s: State)
    requires !s.cut && Inv(s) && s.scan.Inserted?
    ensures 1 <= s.count < |s.start|
    ensures var i := |s.main| - (|s.start| - s.gone) + s.count - 1;
      && 0 <= i < |s.main| - 1 && s.main[i] == s.start[s.count - 1] && s.main[i + 1] == s.start[s.count]
      && PositionOf(s.main, s.main[i]) == i
  {
    RoomLeft(s);
    OldNode(s, s.count - 1);
    OldNode(s, s.count);
    PositionUnique(s.main, |s.main| - (|s.start| - s.gone) + s.count - 1);
  }

  /** One more key goes into the fast hash. */
  lemma FilledMore(s: State, s': State, k: nat)
    requires Filled(s, k) && k < |s.start| && s'.start == s.start && s'.index == s.index
    requires s.start[k].key in s.index
    requires s'.fast == s.fast[s.start[k].key := s.index[s.start[k].key].value]
    ensures Filled(s', k + 1)
  {
    forall key <- s'.fast ensures exists i :: 0 <= i < k + 1 && s.start[i].key == key {
      if key in s.fast {
        var i :| 0 <= i < k && s.start[i].key == key;
      } else {
        assert s.start[k].key == key;
      }
    }
  }

  lemma FrozenNode(s: State, i: nat)
    requires s.cut && Inv(s) && i < |s.frozen|
    ensures s.frozen[i] == s.start[i] && s.start[i] in s.frozen && s.start[i] !in s.main && Bound(s, s.start[i])
  {
    assert s.frozen[i] in s.frozen;
  }

  lemma FindAlongFrozen(s: State)
    requires AfterCut(s) && s.scan.Loaded? && Linked(s, s.frozen[s.count - 1]) && Bound(s, s.frozen[s.count - 1])
    ensures AfterCut(DoScanFind(s))
  {
    assert s.frozen[s.count - 1] == s.start[s.count - 1];
    FilledMore(s, DoScanFind(s), s.count - 1);
  }

  lemma ScanFindAfterCut(s: State)
    requires s.cut && Inv(s) && s.scan.Loaded?
    ensures Inv(DoScanFind(s))
  {
    FrozenNode(s, s.count - 1);
    FindAlongFrozen(s);
  }

  lemma AdvanceAlongFrozen(s: State)
    requires AfterCut(s) && s.scan.Inserted? && NoDup(s.frozen) && s.frozen[s.count - 1] !in s.main
    ensures AfterCut(DoScanAdvance(s))
  {
    PositionUnique(s.frozen, s.count - 1);
  }

  lemma ScanAdvanceAfterCut(s: State)
    requires s.cut && Inv(s) && s.scan.Inserted?
    ensures Inv(DoScanAdvance(s))
  {
    FrozenNode(s, s.count - 1);
    AdvanceAlongFrozen(s);
  }

  lemma ScanTopAfterCut(s: State)
    requires s.cut && Inv(s) && s.scan.Top?
    ensures Inv(DoScanTop(s))
  {
  }

  lemma ScanCutAfterCut(s: State)
    requires s.cut && Inv(s) && s.scan.Advanced?
    ensures Inv(DoScanCut(s))
  {
  }

  lemma ScanStep(s: State, step: Step)
    requires Inv(s) && Enabled(s, step) && IsScan(step)
    ensures Inv(Do(s, step))
  {
    match step
    case ScanTop => if s.cut { ScanTopAfterCut(s); } else { ScanTopBeforeCut(s); }
    case ScanFind => if s.cut { ScanFindAfterCut(s); } else { ScanFindBeforeCut(s); }
    case ScanAdvance => if s.cut { ScanAdvanceAfterCut(s); } else { ScanAdvanceBeforeCut(s); }
    case ScanCut => if s.cut { ScanCutAfterCut(s); } else { ScanCutBeforeCut(s); }
  }

  lemma InsertSameScan(s: State, step: Step)
    requires s.fcSize <= s.maxSize && Enabled(s, step) && !IsScan(step)
    ensures SameScan(s, Do(s, step))
  {
  }

  lemma AfterCutKept(s: State, s': State)
    requires AfterCut(s) && SameScan(s, s')
    requires Filled(s', if s.scan.Loaded? then s.count - 1 else if s.scan.Finished? then |s.frozen| else s.count)
    ensures AfterCut(s')
  {
  }

  lemma InsertAfterCut(s: State, step: Step)
    requires s.cut && Inv(s) && Enabled(s, step) && !IsScan(step)
    ensures Inv(Do(s, step))
  {
    PlacedInsert(s, step);
    forall i | 0 <= i < |s.frozen| ensures Linked(s, s.start[i]) {
      FrozenNode(s, i);
    }
    FilledKept(s, step, if s.scan.Loaded? then s.count - 1 else if s.scan.Finished? then |s.frozen| else s.count);
    InsertSameScan(s, step);
    AfterCutKept(s, Do(s, step));
  }

  lemma AheadIs(s: State)
    requires !s.cut && Inv(s)
    ensures s.first in s.main && Ahead(s) == |s.main| - (|s.start| - s.gone)
  {
    RoomLeft(s);
    OldNode(s, 0);
    PositionUnique(s.main, |s.main| - (|s.start| - s.gone));
  }

  /** Cutting a stretch out of the main list leaves every node in exactly one list. */
  lemma PlacedCut(s: State, s': State, a: nat, b: nat)
    requires Placed(s) && s.frozen == [] && a <= b <= |s.main|
    requires s'.main == s.main[..a] + s.main[b..] && s'.frozen == s.main[a..b]
    requires s'.index == s.index && s'.inserts == s.inserts
    ensures Placed(s')
  {
    CutParts(s.main, a, b);
    forall n <- s'.main ensures Bound(s', n) && n !in s'.frozen {
      assert n in s.main;
    }
    forall n <- s'.frozen ensures Bound(s', n) {
      assert n in s.main;
    }
    forall t <- s'.inserts ensures HoldsApart(s', s'.inserts[t]) {
      assert HoldsApart(s, s.inserts[t]);
    }
  }

  lemma CutParts(list: seq<Node>, a: nat, b: nat)
    requires NoDup(list) && a <= b <= |list|
    ensures var rest, f := list[..a] + list[b..], list[a..b];
      && NoDup(rest) && NoDup(f) && (forall n <- rest :: n in list && n !in f) && (forall n <- f :: n in list)
  {
    var rest, f := list[..a] + list[b..], list[a..b];
    forall i, j | 0 <= i < j < |rest| ensures Differ(rest, i, j) {
      assert Differ(list, if i < a then i else i - a + b, if j < a then j else j - a + b);
    }
    forall i, j | 0 <= i < j < |f| ensures Differ(f, i, j) {
      assert Differ(list, a + i, a + j);
    }
    forall i, j | 0 <= i < |rest| && 0 <= j < |f| ensures rest[i] != f[j] {
      assert if i < a then Differ(list, i, a + j) else Differ(list, a + j, i - a + b);
    }
  }

  /** The first `k` nodes of the old list, as a stretch of the main list. */
  lemma OldStretch(s: State, k: nat)
    requires Sized(s) && OldTail(s) && k <= |s.start| - s.gone
    ensures var a := |s.main| - (|s.start| - s.gone); s.main[a..a + k] == s.start[..k]
  {
    var a := |s.main| - (|s.start| - s.gone);
    assert s.main[a..a + k] == s.main[a..][..k];
    assert s.start[..k] == s.start[..|s.start| - s.gone][..k];
  }

  lemma Stretch(list: seq<Node>, a: nat, b: nat)
    requires a <= b <= |list|
    ensures var rest := list[..a] + list[b..]; list == rest[..a] + list[a..b] + rest[a..]
  {
  }

  /** What the first cut freezes is the walked part of the old list. */
  lemma CutBehindIs(s: State, a: nat, b: nat)
    requires !s.cut && Inv(s) && s.scan.Advanced? && a == Ahead(s) && b == a + s.count
    ensures b <= |s.main| && s.main[a..b] == s.start[..s.count]
    ensures CutBehindCursor(s) == s.(main := s.main[..a] + s.main[b..], frozen := s.main[a..b],
                                     scan := Finished, cut := true, lag := InFlight(s.inserts))
  {
    RoomLeft(s);
    AheadIs(s);
    OldNode(s, s.count);
    PositionUnique(s.main, b);
    OldStretch(s, s.count);
  }

  lemma CutBehindAfter(s: State, s': State)
    requires BeforeCut(s) && s.scan.Advanced? && s.count > s.fcSize - RELAX
    requires s' == s.(main := s'.main, frozen := s.start[..s.count], scan := Finished, cut := true, lag := s'.lag)
    ensures AfterCut(s')
  {
  }

  lemma CutBehindCursorInv(s: State)
    requires !s.cut && Inv(s) && s.scan.Advanced? && s.count > s.fcSize - RELAX
    ensures Inv(CutBehindCursor(s)) && CutPartitions(s, CutBehindCursor(s))
  {
    var a := Ahead(s);
    var b := a + s.count;
    CutBehindIs(s, a, b);
    Stretch(s.main, a, b);
    PlacedCut(s, CutBehindCursor(s), a, b);
    CutBehindAfter(s, CutBehindCursor(s));
  }

  /** After the second cut the scan goes on along the frozen list, well short of its end. */
  lemma CutAtTailScan(s: State, s': State)
    requires BeforeCut(s) && s.scan.Advanced? && s.count <= s.fcSize - RELAX
    requires s.scan.seen > DcSize(s) - RELAX
    requires s' == s.(main := s'.main, frozen := s.start[..|s.start| - s.gone],
                      scan := Top, firstPass := false, cut := true, lag := InFlight(s.inserts))
    ensures AfterCut(s')
  {
  }

  lemma CutAtTailIs(s: State, a: nat)
    requires !s.cut && Inv(s) && a == Ahead(s)
    ensures a <= |s.main| && s.main[a..] == s.start[..|s.start| - s.gone]
    ensures CutAtTail(s) == s.(main := s.main[..a], frozen := s.main[a..],
                               scan := Top, firstPass := false, cut := true, lag := InFlight(s.inserts))
  {
    AheadIs(s);
    OldStretch(s, |s.start| - s.gone);
    assert s.main[a..|s.main|] == s.main[a..];
  }

  lemma WholeTail(list: seq<Node>, a: nat)
    requires a <= |list|
    ensures list[a..|list|] == list[a..] && list[..a] + list[|list|..] == list[..a]
  {
  }

  lemma CutAtTailInv(s: State)
    requires !s.cut && Inv(s) && s.scan.Advanced? && s.count <= s.fcSize - RELAX
    requires s.scan.seen > DcSize(s) - RELAX
    ensures Inv(CutAtTail(s)) && CutPartitions(s, CutAtTail(s))
  {
    var a, n := Ahead(s), |s.main|;
    CutAtTailIs(s, a);
    WholeTail(s.main, a);
    Stretch(s.main, a, n);
    PlacedCut(s, CutAtTail(s), a, n);
    CutAtTailScan(s, CutAtTail(s));
  }

  lemma ScanCutBeforeCut(s: State)
    requires !s.cut && Inv(s) && s.scan.Advanced?
    ensures Inv(DoScanCut(s))
    ensures CutPartitions(s, DoScanCut(s))
  {
    if s.count > s.fcSize - RELAX {
      CutBehindCursorInv(s);
    } else if s.scan.seen > DcSize(s) - RELAX {
      CutAtTailInv(s);
    }
  }

  /** If this step cuts, the frozen part is a stretch of the old main list and the rest stays, in order. */
  ghost predicate CutPartitions(s: State, s': State) {
    !s.cut && s'.cut ==>
      exists i :: 0 <= i <= |s'.main| && s.main == s'.main[..i] + s'.frozen + s'.main[i..]
  }

  lemma StepInv(s: State, step: Step)
    requires Inv(s) && Enabled(s, step)
    ensures Inv(Do(s, step))
  {
    if IsScan(step) {
      ScanStep(s, step);
    } else if s.cut {
      InsertAfterCut(s, step);
    } else {
      InsertBeforeCut(s, step);
    }
  }

  lemma StepSplits(s: State, step: Step)
    requires Inv(s) && Enabled(s, step)
    ensures CutPartitions(s, Do(s, step))
  {
    if step.ScanCut? && !s.cut {
      ScanCutBeforeCut(s);
    } else if !IsScan(step) {
      InsertSameScan(s, step);
    }
  }

  // ---------------------------------------------------------------- runs

  /** A run: each state follows from the one before by the matching enabled step. */
  ghost predicate Run(states: seq<State>, steps: seq<Step>) {
    && |states| == |steps| + 1
    && Init(states[0])
    && forall i :: 0 <= i < |steps| ==>
         && states[i].fcSize <= states[i].maxSize
         && Enabled(states[i], steps[i])
         && states[i + 1] == Do(states[i], steps[i])
  }

  lemma {:induction false} RunInv(states: seq<State>, steps: seq<Step>, i: nat)
    requires Run(states, steps) && Slow(states[0]) && i < |states|
    ensures Inv(states[i])
  {
    if i == 0 {
      InitInv(states[0]);
    } else {
      RunInv(states, steps, i - 1);
      StepInv(states[i - 1], steps[i - 1]);
    }
  }

  /** In no slow run does the scan ever touch a node that has left the lists. */
  lemma ScannerNeverStrays(states: seq<State>, steps: seq<Step>, i: nat)
    requires Run(states, steps) && Slow(states[0]) && i < |states|
    ensures states[i].scan != Stray
    ensures states[i].cursor.At? && !states[i].scan.Finished? ==>
      Linked(states[i], states[i].cursor.node) && Bound(states[i], states[i].cursor.node)
  {
    var s := states[i];
    RunInv(states, steps, i);
    if !s.cut {
      WalkedIsLinked(s);
    }
  }

  /** Whichever cut fires, it splits the live list in order. */
  lemma CutSplitsLiveList(states: seq<State>, steps: seq<Step>, i: nat)
    requires Run(states, steps) && Slow(states[0]) && i < |steps|
    ensures CutPartitions(states[i], states[i + 1])
  {
    RunInv(states, steps, i);
    StepSplits(states[i], steps[i]);
  }

  /**
   When the scan has finished: the frozen list is the head of the list the scan started on, its
   length is the target up to the slack, its nodes are live in the map and in no other list, and
   the fast hash holds exactly their keys with the map's values.
   */
  lemma FinishedScanIsRight(states: seq<State>, steps: seq<Step>, i: nat)
    requires Run(states, steps) && Slow(states[0]) && i < |states| && states[i].scan.Finished?
    ensures var s := states[i];
      && |s.frozen| <= |s.start| && s.frozen == s.start[..|s.frozen|]
      && s.fcSize - RELAX < |s.frozen| < s.fcSize + RELAX + s.lag
      && (forall n <- s.frozen :: Bound(s, n) && n !in s.main)
      && (forall key :: key in s.fast <==> exists n :: n in s.frozen && n.key == key)
      && (forall n <- s.frozen :: n.key in s.fast && s.fast[n.key] == s.index[n.key].value)
  {
    var s := states[i];
    RunInv(states, steps, i);
    forall n <- s.frozen ensures exists j :: 0 <= j < |s.frozen| && s.start[j] == n {
      var j :| 0 <= j < |s.frozen| && s.frozen[j] == n;
    }
    forall key ensures key in s.fast <==> exists n :: n in s.frozen && n.key == key {
      if key in s.fast {
        var j :| 0 <= j < |s.frozen| && s.start[j].key == key;
        assert s.frozen[j] in s.frozen;
      }
    }
  }

  // ---------------------------------------------------------------- the length of the frozen part

  /** The cut behind the cursor always leaves one node more than the target less the slack. */
  lemma CutBehindCursorLength(s: State)
    requires !s.cut && Inv(s) && s.scan.Advanced? && s.firstPass && s.count > s.fcSize - RELAX
    ensures |DoScanCut(s).frozen| == s.fcSize - RELAX + 1
  {
    CutBehindIs(s, Ahead(s), Ahead(s) + s.count);
  }

  /** The cut at the tail leaves what the counted inserts, less those under way, have not evicted. */
  lemma CutAtTailLength(s: State)
    requires !s.cut && Inv(s) && s.scan.Advanced? && s.firstPass
    requires s.count <= s.fcSize - RELAX && s.scan.seen > DcSize(s) - RELAX
    ensures DoScanCut(s).cut && |DoScanCut(s).frozen| == s.maxSize - s.evictions - s.early + InFlight(s.inserts)
  {
    CutAtTailIs(s, Ahead(s));
  }
}
