/**
 Pointer surgery on the two doubly linked lists of the freezable LRU cache. A node is an address; its
 m_prev and m_next fields are the entries of two maps. The lists are the chains between the sentinels
 of the main list (DC) and those of the fast list (FC).
 */
module LruLinks {

  type Id = nat

  const HEAD: Id := 0
  const TAIL: Id := 1
  const FAST_HEAD: Id := 2
  const FAST_TAIL: Id := 3
  const OUT: Id := 4         // OutOfListMarker

  datatype Links = Links(prev: map<Id, Id>, next: map<Id, Id>)

  function SetNext(l: Links, x: Id, y: Id): Links { l.(next := l.next[x := y]) }
  function SetPrev(l: Links, x: Id, y: Id): Links { l.(prev := l.prev[x := y]) }

  /** The next field of x leads to y and the prev field of y back. */
  predicate Edge(l: Links, x: Id, y: Id) {
    x in l.next && l.next[x] == y && y in l.prev && l.prev[y] == x
  }

  /** The nodes are linked one after the other. */
  ghost predicate Chain(l: Links, s: seq<Id>) {
    forall i {:trigger Joined(l, s, i)} :: 0 <= i < |s| - 1 ==> Joined(l, s, i)
  }

  predicate Joined(l: Links, s: seq<Id>, i: nat)
    requires i < |s| - 1
  {
    Edge(l, s[i], s[i + 1])
  }

  function First(s: seq<Id>): Id
    requires s != []
  {
    s[0]
  }

  function Last(s: seq<Id>): Id
    requires s != []
  {
    s[|s| - 1]
  }

  /** A chain of two parts: both are chains and an edge joins them. */
  lemma ChainSplit(l: Links, s: seq<Id>, t: seq<Id>)
    requires s != [] && t != []
    ensures Chain(l, s + t) <==> Chain(l, s) && Chain(l, t) && Edge(l, Last(s), First(t))
  {
    var r := s + t;
    if Chain(l, r) {
      forall i | 0 <= i < |s| - 1 ensures Joined(l, s, i) {
        assert Joined(l, r, i);
      }
      forall i | 0 <= i < |t| - 1 ensures Joined(l, t, i) {
        assert Joined(l, r, i + |s|);
      }
      assert Joined(l, r, |s| - 1);
    }
    if Chain(l, s) && Chain(l, t) && Edge(l, Last(s), First(t)) {
      forall i | 0 <= i < |r| - 1 ensures Joined(l, r, i) {
        if i < |s| - 1 {
          assert Joined(l, s, i);
        } else if i >= |s| {
          assert Joined(l, t, i - |s|);
        }
      }
    }
  }

  // ---------------------------------------------------------------- the two lists

  ghost predicate Distinct(s: seq<Id>) {
    forall i, j {:trigger Apart(s, i, j)} :: 0 <= i < j < |s| ==> Apart(s, i, j)
  }

  predicate Apart(s: seq<Id>, i: nat, j: nat)
    requires i < |s| && j < |s|
  {
    s[i] != s[j]
  }

  /** Two sequences without a node in common. */
  ghost predicate Disjoint(s: seq<Id>, t: seq<Id>) {
    forall x :: x in s ==> x !in t
  }

  /** Main and fast list, between their sentinels; the nodes are all different and none is a sentinel. */
  ghost predicate Lists(l: Links, main: seq<Id>, fast: seq<Id>) {
    && Chain(l, [HEAD] + main + [TAIL]) && Chain(l, [FAST_HEAD] + fast + [FAST_TAIL])
    && Distinct(main) && Distinct(fast) && Disjoint(main, fast)
    && Nodes(main) && Nodes(fast)
  }

  /** None of them is a sentinel. */
  ghost predicate Nodes(s: seq<Id>) {
    forall x :: x in s ==> x > OUT
  }

  // ---------------------------------------------------------------- delink

  function Delink(l: Links, n: Id): Links
    requires n in l.prev && n in l.next
  {
    var p, q := l.prev[n], l.next[n];
    SetPrev(SetPrev(SetNext(l, p, q), q, p), n, OUT)
  }

  /** Taking a node out of a chain joins its neighbours. */
  lemma DelinkChain(l: Links, a: seq<Id>, n: Id, b: seq<Id>)
    requires a != [] && b != [] && Chain(l, a + [n] + b)
    requires n !in a && n !in b && Distinct(a) && Distinct(b) && Disjoint(a, b)
    ensures n in l.prev && n in l.next && l.prev[n] == Last(a) && l.next[n] == First(b)
    ensures Chain(Delink(l, n), a + b)
  {
    ChainSplit(l, a + [n], b);
    ChainSplit(l, a, [n]);
    var l' := Delink(l, n);
    KeepsChain(l, l', a);
    KeepsChain(l, l', b);
    ChainSplit(l', a, b);
  }

  /** A chain is kept when of its nodes' fields only the first's prev and the last's next have changed. */
  lemma KeepsChain(l: Links, l': Links, s: seq<Id>)
    requires Chain(l, s) && Distinct(s) && s != []
    requires forall x :: x in s && x != Last(s) && x in l.next ==> x in l'.next && l'.next[x] == l.next[x]
    requires forall x :: x in s && x != First(s) && x in l.prev ==> x in l'.prev && l'.prev[x] == l.prev[x]
    ensures Chain(l', s)
  {
    forall i | 0 <= i < |s| - 1 ensures Joined(l', s, i) {
      assert Joined(l, s, i);
      assert Apart(s, i, |s| - 1);
      assert Apart(s, 0, i + 1);
    }
  }

  // ---------------------------------------------------------------- sequences

  lemma DistinctParts(s: seq<Id>, t: seq<Id>)
    requires Distinct(s + t)
    ensures Distinct(s) && Distinct(t) && Disjoint(s, t)
  {
    var r := s + t;
    forall i, j | 0 <= i < j < |s| ensures Apart(s, i, j) {
      assert Apart(r, i, j);
    }
    forall i, j | 0 <= i < j < |t| ensures Apart(t, i, j) {
      assert Apart(r, i + |s|, j + |s|);
    }
    forall i, j | 0 <= i < |s| && 0 <= j < |t| ensures s[i] != t[j] {
      assert Apart(r, i, j + |s|);
    }
  }

  lemma DistinctJoin(s: seq<Id>, t: seq<Id>)
    requires Distinct(s) && Distinct(t) && Disjoint(s, t)
    ensures Distinct(s + t)
  {
    var r := s + t;
    forall i, j | 0 <= i < j < |r| ensures Apart(r, i, j) {
      if j < |s| {
        assert Apart(s, i, j);
      } else if i >= |s| {
        assert Apart(t, i - |s|, j - |s|);
      } else {
        assert s[i] in s && t[j - |s|] in t;
      }
    }
  }

  /** A list with its sentinels. */
  function Main(main: seq<Id>): seq<Id> { [HEAD] + main + [TAIL] }
  function FastOf(fast: seq<Id>): seq<Id> { [FAST_HEAD] + fast + [FAST_TAIL] }

  lemma MainDistinct(main: seq<Id>)
    requires Distinct(main) && Nodes(main)
    ensures Distinct(Main(main)) && Distinct([HEAD] + main) && Distinct(main + [TAIL])
  {
    DistinctJoin([HEAD], main);
    DistinctJoin([HEAD] + main, [TAIL]);
    DistinctJoin(main, [TAIL]);
  }

  // ---------------------------------------------------------------- operations on the lists

  lemma NodesParts(s: seq<Id>, t: seq<Id>)
    ensures Nodes(s + t) <==> Nodes(s) && Nodes(t)
  {
    assert forall x :: x in s ==> x in s + t;
    assert forall x :: x in t ==> x in s + t;
  }

  lemma DisjointParts(s: seq<Id>, t: seq<Id>, u: seq<Id>)
    ensures Disjoint(s + t, u) <==> Disjoint(s, u) && Disjoint(t, u)
  {
    assert forall x :: x in s ==> x in s + t;
    assert forall x :: x in t ==> x in s + t;
  }

  /** A sentinel or node of the main list is none of the fast list. */
  lemma NotFast(x: Id, main: seq<Id>, fast: seq<Id>)
    requires Nodes(main) && Nodes(fast) && Disjoint(main, fast) && x in Main(main)
    ensures x !in FastOf(fast)
  {
  }

  /** Only fields of these nodes have changed. */
  ghost predicate Only(l: Links, l': Links, touched: set<Id>) {
    && (forall x :: x in l.next && x !in touched ==> x in l'.next && l'.next[x] == l.next[x])
    && (forall x :: x in l.prev && x !in touched ==> x in l'.prev && l'.prev[x] == l.prev[x])
  }

  lemma OtherChain(l: Links, l': Links, touched: set<Id>, s: seq<Id>)
    requires Chain(l, s) && Only(l, l', touched) && forall x :: x in touched ==> x !in s
    ensures Chain(l', s)
  {
    forall i | 0 <= i < |s| - 1 ensures Joined(l', s, i) {
      assert Joined(l, s, i);
      assert s[i] in s && s[i + 1] in s;
    }
  }

  lemma DelinkLists(l: Links, a: seq<Id>, n: Id, b: seq<Id>, fast: seq<Id>)
    requires Lists(l, a + [n] + b, fast)
    ensures n in l.prev && n in l.next
    ensures Lists(Delink(l, n), a + b, fast) && Delink(l, n).prev[n] == OUT
  {
    var main := a + [n] + b;
    NodesParts(a + [n], b);
    NodesParts(a, [n]);
    NodesParts(a, b);
    DistinctParts(a + [n], b);
    DistinctParts(a, [n]);
    DisjointParts(a + [n], b, fast);
    DisjointParts(a, [n], fast);
    DisjointParts(a, b, fast);
    DisjointParts(a, [n], b);
    DistinctJoin(a, b);
    DelinkMain(l, a, n, b);
    DelinkFast(l, a, n, b, fast);
  }

  lemma DelinkMain(l: Links, a: seq<Id>, n: Id, b: seq<Id>)
    requires Chain(l, Main(a + [n] + b)) && Distinct(a) && Distinct(b) && Disjoint(a, b) && n !in a && n !in b
    requires Nodes(a) && Nodes(b) && n > OUT
    ensures n in l.prev && n in l.next && l.prev[n] in [HEAD] + a && l.next[n] in b + [TAIL]
    ensures Chain(Delink(l, n), Main(a + b)) && Delink(l, n).prev[n] == OUT
  {
    assert Main(a + [n] + b) == ([HEAD] + a) + [n] + (b + [TAIL]);
    DistinctJoin([HEAD], a);
    DistinctJoin(b, [TAIL]);
    DelinkChain(l, [HEAD] + a, n, b + [TAIL]);
    assert Main(a + b) == ([HEAD] + a) + (b + [TAIL]);
  }

  lemma DelinkFast(l: Links, a: seq<Id>, n: Id, b: seq<Id>, fast: seq<Id>)
    requires Chain(l, FastOf(fast)) && Nodes(a) && Nodes(b) && Nodes(fast) && n > OUT && n !in fast
    requires Disjoint(a, fast) && Disjoint(b, fast)
    requires n in l.prev && n in l.next && l.prev[n] in [HEAD] + a && l.next[n] in b + [TAIL]
    ensures Chain(Delink(l, n), FastOf(fast))
  {
    OtherChain(l, Delink(l, n), {l.prev[n], l.next[n], n}, FastOf(fast));
  }

  function PushFront(l: Links, n: Id): Links
    requires HEAD in l.next
  {
    var oldHead := l.next[HEAD];
    SetNext(SetPrev(SetNext(SetPrev(l, n, HEAD), n, oldHead), oldHead, n), HEAD, n)
  }

  lemma PushFrontMain(l: Links, n: Id, main: seq<Id>)
    requires Chain(l, Main(main)) && Distinct(main) && Nodes(main) && n !in main && n > OUT
    ensures HEAD in l.next && l.next[HEAD] in main + [TAIL] && Chain(PushFront(l, n), Main([n] + main))
  {
    var rest := main + [TAIL];
    assert Main(main) == [HEAD] + rest;
    ChainSplit(l, [HEAD], rest);
    var l' := PushFront(l, n);
    MainDistinct(main);
    KeepsChain(l, l', rest);
    ChainSplit(l', [n], rest);
    ChainSplit(l', [HEAD], [n] + rest);
    assert Main([n] + main) == [HEAD] + ([n] + rest);
  }

  lemma PushFrontLists(l: Links, n: Id, main: seq<Id>, fast: seq<Id>)
    requires Lists(l, main, fast) && n !in main && n !in fast && n > OUT
    ensures HEAD in l.next && Lists(PushFront(l, n), [n] + main, fast)
  {
    PushFrontMain(l, n, main);
    NotFast(l.next[HEAD], main, fast);
    OtherChain(l, PushFront(l, n), {HEAD, n, l.next[HEAD]}, FastOf(fast));
    DistinctJoin([n], main);
    NodesParts([n], main);
    DisjointParts([n], main, fast);
  }

  // ---------------------------------------------------------------- cutting a stretch out of the main list

  /** The cut behind the scanner: what lies from the fast head's next up to `temp` becomes the fast list. */
  function CutBehind(l: Links, temp: Id): Links
    requires FAST_HEAD in l.next && l.next[FAST_HEAD] in l.prev && temp in l.prev
  {
    var first := l.next[FAST_HEAD];
    var nodeBefore, last := l.prev[first], l.prev[temp];
    var l1 := SetNext(SetPrev(l, FAST_TAIL, last), last, FAST_TAIL);
    var l2 := SetPrev(l1, first, FAST_HEAD);
    SetPrev(SetNext(l2, nodeBefore, temp), temp, nodeBefore)
  }

  lemma CutBehindChains(l: Links, a: seq<Id>, f: seq<Id>, b: seq<Id>)
    requires a != [] && f != [] && b != [] && Chain(l, a + f + b) && FAST_HEAD in l.next && l.next[FAST_HEAD] == First(f)
    requires Distinct(a) && Distinct(f) && Distinct(b) && Disjoint(a, f) && Disjoint(a, b) && Disjoint(f, b)
    requires FAST_HEAD !in a && FAST_HEAD !in f && FAST_TAIL !in a && FAST_TAIL !in f && FAST_TAIL !in b
    ensures First(f) in l.prev && First(b) in l.prev
    ensures Chain(CutBehind(l, First(b)), a + b) && Chain(CutBehind(l, First(b)), FastOf(f))
  {
    ChainSplit(l, a + f, b);
    ChainSplit(l, a, f);
    assert Last(a + f) == Last(f);
    var l' := CutBehind(l, First(b));
    assert First(f) in f && Last(f) in f && First(b) in b && Last(a) in a;
    KeepsChain(l, l', a);
    KeepsChain(l, l', b);
    KeepsChain(l, l', f);
    ChainSplit(l', a, b);
    ChainSplit(l', [FAST_HEAD], f);
    ChainSplit(l', [FAST_HEAD] + f, [FAST_TAIL]);
    assert Last([FAST_HEAD] + f) == Last(f);
  }

  /** The cut at the tail: everything from the fast head's next on becomes the fast list. */
  function CutTail(l: Links): Links
    requires FAST_HEAD in l.next && l.next[FAST_HEAD] in l.prev && TAIL in l.prev && l.next[FAST_HEAD] != FAST_TAIL
  {
    var node := l.next[FAST_HEAD];
    var last := l.prev[TAIL];
    var l1 := SetNext(SetPrev(l, FAST_TAIL, last), last, FAST_TAIL);
    var l2 := SetPrev(l1, TAIL, l1.prev[node]);
    var l3 := SetNext(l2, l2.prev[TAIL], TAIL);
    SetPrev(l3, node, FAST_HEAD)
  }

  lemma CutTailChains(l: Links, a: seq<Id>, f: seq<Id>)
    requires a != [] && f != [] && Chain(l, a + f + [TAIL]) && FAST_HEAD in l.next && l.next[FAST_HEAD] == First(f)
    requires Distinct(a) && Distinct(f) && Disjoint(a, f) && TAIL !in a && TAIL !in f
    requires FAST_HEAD !in a && FAST_HEAD !in f && FAST_TAIL !in a && FAST_TAIL !in f
    ensures First(f) in l.prev && TAIL in l.prev && First(f) != FAST_TAIL
    ensures Chain(CutTail(l), a + [TAIL]) && Chain(CutTail(l), FastOf(f))
  {
    ChainSplit(l, a + f, [TAIL]);
    ChainSplit(l, a, f);
    assert Last(a + f) == Last(f);
    assert First(f) in f && Last(f) in f && Last(a) in a;
    var l' := CutTail(l);
    KeepsChain(l, l', a);
    KeepsChain(l, l', f);
    ChainSplit(l', a, [TAIL]);
    ChainSplit(l', [FAST_HEAD], f);
    ChainSplit(l', [FAST_HEAD] + f, [FAST_TAIL]);
    assert Last([FAST_HEAD] + f) == Last(f);
  }

  /** While it scans, construct_ratio has the fast head lead into the main list at `first`. */
  ghost predicate Scanning(l: Links, main: seq<Id>, first: Id) {
    && Chain(l, Main(main)) && Distinct(main) && Nodes(main)
    && FAST_HEAD in l.next && l.next[FAST_HEAD] == first
  }

  lemma CutBehindLists(l: Links, x: seq<Id>, f: seq<Id>, y: seq<Id>)
    requires f != [] && Scanning(l, x + f + y, First(f))
    ensures var temp := First(y + [TAIL]);
      && First(f) in l.prev && temp in l.prev && Lists(CutBehind(l, temp), x + y, f)
  {
    Pieces(x, f, y);
    var a, b := [HEAD] + x, y + [TAIL];
    assert Main(x + f + y) == a + f + b;
    DistinctJoin([HEAD], x);
    DistinctJoin(y, [TAIL]);
    CutBehindChains(l, a, f, b);
    assert Main(x + y) == a + b;
    DistinctJoin(x, y);
    NodesParts(x, y);
    DisjointParts(x, y, f);
  }

  lemma Pieces(x: seq<Id>, f: seq<Id>, y: seq<Id>)
    requires Distinct(x + f + y) && Nodes(x + f + y)
    ensures Distinct(x) && Distinct(f) && Distinct(y) && Disjoint(x, f) && Disjoint(x, y) && Disjoint(f, y)
    ensures Disjoint(y, f) && Nodes(x) && Nodes(f) && Nodes(y)
  {
    DistinctParts(x + f, y);
    DistinctParts(x, f);
    DisjointParts(x, f, y);
    NodesParts(x + f, y);
    NodesParts(x, f);
  }

  lemma CutTailLists(l: Links, x: seq<Id>, f: seq<Id>)
    requires f != [] && Scanning(l, x + f, First(f))
    ensures First(f) in l.prev && TAIL in l.prev && First(f) != FAST_TAIL && Lists(CutTail(l), x, f)
  {
    assert x + f + [] == x + f;
    Pieces(x, f, []);
    assert Main(x + f) == ([HEAD] + x) + f + [TAIL];
    DistinctJoin([HEAD], x);
    CutTailChains(l, [HEAD] + x, f);
  }

  // ---------------------------------------------------------------- freezing and thawing whole lists

  function Tier(l: Links): Links
    requires HEAD in l.next && TAIL in l.prev
  {
    var l1 := SetNext(l, FAST_HEAD, l.next[HEAD]);
    var l2 := SetPrev(l1, l1.next[HEAD], FAST_HEAD);
    var l3 := SetPrev(l2, FAST_TAIL, l2.prev[TAIL]);
    var l4 := SetNext(l3, l3.prev[TAIL], FAST_TAIL);
    SetPrev(SetNext(l4, HEAD, TAIL), TAIL, HEAD)
  }

  /** The whole main list, empty or not, becomes the fast list. */
  lemma TierLists(l: Links, main: seq<Id>)
    requires Lists(l, main, [])
    ensures HEAD in l.next && TAIL in l.prev && Lists(Tier(l), [], main)
  {
    assert Main(main) == [HEAD] + (main + [TAIL]);
    ChainSplit(l, [HEAD], main + [TAIL]);
    ChainSplit(l, [HEAD] + main, [TAIL]);
    var l' := Tier(l);
    assert Main([]) == [HEAD] + [TAIL];
    ChainSplit(l', [HEAD], [TAIL]);
    if main == [] {
      assert FastOf(main) == [FAST_HEAD] + [FAST_TAIL];
      ChainSplit(l', [FAST_HEAD], [FAST_TAIL]);
    } else {
      ChainSplit(l, main, [TAIL]);
      assert First(main + [TAIL]) == First(main) && Last([HEAD] + main) == Last(main);
      assert First(main) in main && Last(main) in main;
      KeepsChain(l, l', main);
      ChainSplit(l', [FAST_HEAD], main);
      ChainSplit(l', [FAST_HEAD] + main, [FAST_TAIL]);
      assert Last([FAST_HEAD] + main) == Last(main);
    }
  }

  function Thaw(l: Links): Links
    requires HEAD in l.next && FAST_HEAD in l.next && FAST_TAIL in l.prev && l.next[FAST_HEAD] != FAST_TAIL && l.next[HEAD] != FAST_TAIL
  {
    var node := l.next[HEAD];
    var l1 := SetPrev(l, l.next[FAST_HEAD], HEAD);
    var l2 := SetNext(l1, l1.prev[FAST_TAIL], node);
    var l3 := SetNext(l2, HEAD, l2.next[FAST_HEAD]);
    var l4 := SetPrev(l3, node, l3.prev[FAST_TAIL]);
    SetPrev(SetNext(l4, FAST_HEAD, FAST_TAIL), FAST_TAIL, FAST_HEAD)
  }

  /** The fast list goes in front of the main list. */
  lemma ThawLists(l: Links, main: seq<Id>, fast: seq<Id>)
    requires Lists(l, main, fast) && fast != []
    ensures HEAD in l.next && FAST_HEAD in l.next && FAST_TAIL in l.prev && l.next[FAST_HEAD] == First(fast)
    ensures l.next[FAST_HEAD] != FAST_TAIL && l.next[HEAD] != FAST_TAIL
    ensures Lists(Thaw(l), fast + main, [])
  {
    var rest := main + [TAIL];
    assert Main(main) == [HEAD] + rest;
    ChainSplit(l, [HEAD], rest);
    ChainSplit(l, [FAST_HEAD] + fast, [FAST_TAIL]);
    ChainSplit(l, [FAST_HEAD], fast);
    assert First(fast) in fast && Last(fast) in fast && First(rest) in rest && Last([FAST_HEAD] + fast) == Last(fast);
    MainDistinct(main);
    ThawRest(l, main, fast, rest);
    assert Main(fast + main) == [HEAD] + (fast + rest);
    assert FastOf([]) == [FAST_HEAD] + [FAST_TAIL];
    DistinctJoin(fast, main);
    NodesParts(fast, main);
  }

  lemma ThawRest(l: Links, main: seq<Id>, fast: seq<Id>, rest: seq<Id>)
    requires rest == main + [TAIL] && fast != [] && Chain(l, rest) && Chain(l, fast) && Distinct(rest) && Distinct(fast)
    requires Nodes(main) && Nodes(fast) && Disjoint(main, fast)
    requires Edge(l, HEAD, First(rest)) && Edge(l, FAST_HEAD, First(fast)) && Edge(l, Last(fast), FAST_TAIL)
    requires First(fast) in fast && Last(fast) in fast && First(rest) in rest
    ensures First(fast) != FAST_TAIL && First(rest) != FAST_TAIL
    ensures Chain(Thaw(l), [HEAD] + (fast + rest)) && Chain(Thaw(l), [FAST_HEAD] + [FAST_TAIL])
  {
    var l' := Thaw(l);
    KeepsChain(l, l', rest);
    KeepsChain(l, l', fast);
    ChainSplit(l', fast, rest);
    ChainSplit(l', [HEAD], fast + rest);
    assert First(fast + rest) == First(fast);
    ChainSplit(l', [FAST_HEAD], [FAST_TAIL]);
  }
}
