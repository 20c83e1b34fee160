/**
 Curve mode of the freezable LRU cache: a marker node is put at the head of the recency list, nodes
 found behind it move to the head, nodes found ahead of it stay, new nodes go right behind it. So the
 nodes ahead of the marker are those a frozen cache would hold, and the movement counter is their
 number. One call at a time; clock readings are parameters. A key stands for its list node, whose
 last access time is in `time`; key 2 is the marker's.
 */
module CurveMarker {
  import opened Options

  type Key = nat
  const MARKER: Key := 2

  // ---------------------------------------------------------------- lists

  ghost predicate Distinct(list: seq<Key>) {
    forall i, j {:trigger Apart(list, i, j)} :: 0 <= i < j < |list| ==> Apart(list, i, j)
  }

  predicate Apart(list: seq<Key>, i: nat, j: nat)
    requires i < |list| && j < |list|
  {
    list[i] != list[j]
  }

  /** Different places hold different keys. */
  lemma NotTwice(list: seq<Key>, i: nat, j: nat)
    requires Distinct(list) && i < |list| && j < |list|
    ensures list[i] == list[j] <==> i == j
  {
    assert i < j ==> Apart(list, i, j);
    assert j < i ==> Apart(list, j, i);
  }

  ghost function Pos(list: seq<Key>, k: Key): (i: nat)
    requires k in list
    ensures i < |list| && list[i] == k
  {
    var i :| 0 <= i < |list| && list[i] == k;
    i
  }

  /** Where a node is; the source has a pointer to it. */
  method Locate(list: seq<Key>, k: Key) returns (i: nat)
    requires k in list && Distinct(list)
    ensures i == Pos(list, k)
  {
    i :| 0 <= i < |list| && list[i] == k;
    NotTwice(list, i, Pos(list, k));
  }

  function DropAt(list: seq<Key>, i: nat): seq<Key>
    requires i < |list|
  {
    list[..i] + list[i + 1..]
  }

  lemma DropAtIs(list: seq<Key>, i: nat)
    requires Distinct(list) && i < |list|
    ensures Distinct(DropAt(list, i)) && forall k :: k in DropAt(list, i) <==> k in list && k != list[i]
  {
    var r := DropAt(list, i);
    forall k | k in list && k != list[i] ensures k in r {
      var j :| 0 <= j < |list| && list[j] == k;
      assert k == r[if j < i then j else j - 1];
    }
    forall a, b | 0 <= a < b < |r| ensures Apart(r, a, b) {
      assert Apart(list, if a < i then a else a + 1, if b < i then b else b + 1);
    }
    forall a | 0 <= a < |r| ensures r[a] != list[i] {
      if a < i {
        assert Apart(list, a, i);
      } else {
        assert Apart(list, i, a + 1);
      }
    }
  }

  // ---------------------------------------------------------------- what holds of list, times and counter

  /** The list holds each cached key once and, in curve mode, the marker. */
  ghost predicate Holds(list: seq<Key>, keys: set<Key>, curve: bool) {
    && Distinct(list) && MARKER !in keys
    && forall k :: k in list <==> k in keys || (curve && k == MARKER)
  }

  ghost predicate Timed(list: seq<Key>, time: map<Key, nat>, clock: nat) {
    forall k :: k in list ==> k in time && time[k] <= clock
  }

  /** The marker's distance from the head is the movement counter; ahead of it are the newer nodes and only those. */
  ghost predicate Splits(list: seq<Key>, time: map<Key, nat>, moved: nat) {
    && moved < |list| && list[moved] == MARKER && MARKER in time
    && forall i :: 0 <= i < |list| && i != moved ==> list[i] in time && (i < moved <==> time[list[i]] > time[MARKER])
  }

  ghost predicate Ahead(list: seq<Key>, moved: nat, seen: set<Key>)
    requires moved <= |list|
  {
    forall k :: k in seen <==> k in list[..moved]
  }

  /** The node at i, behind the marker, moves to the head. */
  function MoveUp(list: seq<Key>, i: nat): seq<Key>
    requires i < |list|
  {
    [list[i]] + DropAt(list, i)
  }

  lemma MoveUpIs(list: seq<Key>, i: nat)
    requires Distinct(list) && i < |list|
    ensures Distinct(MoveUp(list, i)) && forall k :: k in MoveUp(list, i) <==> k in list
  {
    DropAtIs(list, i);
    var r := MoveUp(list, i);
    forall a, b | 0 <= a < b < |r| ensures Apart(r, a, b) {
      MoveUpAt(list, i, a);
      MoveUpAt(list, i, b);
      NotTwice(list, if a == 0 then i else if a <= i then a - 1 else a, if b <= i then b - 1 else b);
    }
  }

  lemma MoveUpAt(list: seq<Key>, i: nat, j: nat)
    requires i < |list| && j < |list|
    ensures MoveUp(list, i)[j] == if j == 0 then list[i] else if j <= i then list[j - 1] else list[j]
  {
  }

  lemma MoveUpSplits(list: seq<Key>, time: map<Key, nat>, moved: nat, i: nat, now: nat)
    requires Splits(list, time, moved) && Distinct(list) && moved < i < |list| && now > time[MARKER]
    ensures Splits(MoveUp(list, i), time[list[i] := now], moved + 1)
  {
    var list', time' := MoveUp(list, i), time[list[i] := now];
    MoveUpAt(list, i, moved + 1);
    NotTwice(list, moved, i);
    forall j | 0 <= j < |list'| && j != moved + 1
      ensures list'[j] in time' && (j < moved + 1 <==> time'[list'[j]] > time'[MARKER])
    {
      MoveUpAt(list, i, j);
      NotTwice(list, if j == 0 then i else if j <= i then j - 1 else j, i);
    }
  }

  lemma MoveUpAhead(list: seq<Key>, moved: nat, seen: set<Key>, i: nat)
    requires moved < i < |list| && Ahead(list, moved, seen)
    ensures Ahead(MoveUp(list, i), moved + 1, seen + {list[i]})
  {
    assert MoveUp(list, i)[..moved + 1] == [list[i]] + list[..moved];
  }

  /** A new node right behind the marker. */
  function PushAfter(list: seq<Key>, m: nat, k: Key): seq<Key>
    requires m < |list|
  {
    list[..m + 1] + [k] + list[m + 1..]
  }

  lemma PushAfterAt(list: seq<Key>, m: nat, k: Key, j: nat)
    requires m < |list| && j <= |list|
    ensures PushAfter(list, m, k)[j] == if j <= m then list[j] else if j == m + 1 then k else list[j - 1]
  {
  }

  lemma PushAfterIs(list: seq<Key>, m: nat, k: Key)
    requires Distinct(list) && m < |list| && k !in list
    ensures Distinct(PushAfter(list, m, k)) && forall x :: x in PushAfter(list, m, k) <==> x in list || x == k
  {
    var r := PushAfter(list, m, k);
    forall i, j | 0 <= i < j < |r| ensures Apart(r, i, j) {
      PushAfterAt(list, m, k, i);
      PushAfterAt(list, m, k, j);
      if i != m + 1 && j != m + 1 {
        assert Apart(list, if i <= m then i else i - 1, if j <= m then j else j - 1);
      }
    }
    assert list == list[..m + 1] + list[m + 1..];
  }

  lemma PushAfterSplits(list: seq<Key>, time: map<Key, nat>, moved: nat, k: Key)
    requires Splits(list, time, moved) && k !in list
    ensures Splits(PushAfter(list, moved, k), time[k := time[MARKER]], moved)
  {
    var list', time' := PushAfter(list, moved, k), time[k := time[MARKER]];
    PushAfterAt(list, moved, k, moved);
    forall j | 0 <= j < |list'| && j != moved
      ensures list'[j] in time' && (j < moved <==> time'[list'[j]] > time'[MARKER])
    {
      PushAfterAt(list, moved, k, j);
    }
  }

  /** A node precedes the marker if and only if it has been accessed since the marker was put in. */
  lemma AheadIffNewer(list: seq<Key>, time: map<Key, nat>, moved: nat, k: Key)
    requires Splits(list, time, moved) && k in list && k != MARKER
    ensures k in time && (Pos(list, k) < moved <==> time[k] > time[MARKER])
    ensures Pos(list, k) != moved
  {
  }

  /** The least recently used node goes; if that is not the marker, nothing moves relative to it. */
  lemma DropLastIs(list: seq<Key>, keys: set<Key>, curve: bool)
    requires Holds(list, keys, curve) && list != [] && list[|list| - 1] != MARKER
    ensures Holds(list[..|list| - 1], keys - {list[|list| - 1]}, curve)
  {
    var last := |list| - 1;
    DropAtIs(list, last);
    assert DropAt(list, last) == list[..last];
  }

  lemma DropLastSplits(list: seq<Key>, time: map<Key, nat>, moved: nat, seen: set<Key>)
    requires Splits(list, time, moved) && moved < |list| - 1 && Ahead(list, moved, seen)
    ensures Splits(list[..|list| - 1], time, moved) && Ahead(list[..|list| - 1], moved, seen)
  {
    assert list[..|list| - 1][..moved] == list[..moved];
  }

  ghost predicate InCurve(list: seq<Key>, keys: set<Key>, time: map<Key, nat>, clock: nat, moved: nat, seen: set<Key>) {
    Holds(list, keys, true) && Timed(list, time, clock) && Splits(list, time, moved) && Ahead(list, moved, seen)
  }

  lemma Advances(list: seq<Key>, keys: set<Key>, time: map<Key, nat>, clock: nat, moved: nat, seen: set<Key>, key: Key, now: nat)
    requires InCurve(list, keys, time, clock, moved, seen) && key in keys && now > clock && time[key] <= time[MARKER]
    ensures key in list && InCurve(MoveUp(list, Pos(list, key)), keys, time[key := now], now, moved + 1, seen + {key})
    ensures Pos(list, key) > moved
  {
    var i := Pos(list, key);
    AheadIffNewer(list, time, moved, key);
    assert MARKER in list;
    MoveUpIs(list, i);
    MoveUpSplits(list, time, moved, i, now);
    MoveUpAhead(list, moved, seen, i);
  }

  lemma Stays(list: seq<Key>, keys: set<Key>, time: map<Key, nat>, clock: nat, moved: nat, seen: set<Key>, key: Key, now: nat)
    requires InCurve(list, keys, time, clock, moved, seen) && key in keys && now > clock && time[key] > time[MARKER]
    ensures key in list && Pos(list, key) < moved && InCurve(list, keys, time, now, moved, seen) && seen + {key} == seen
  {
    AheadIffNewer(list, time, moved, key);
    SeenAhead(list, moved, seen, key);
  }

  lemma Ends(list: seq<Key>, keys: set<Key>, time: map<Key, nat>, clock: nat, moved: nat, seen: set<Key>)
    requires InCurve(list, keys, time, clock, moved, seen)
    ensures MARKER in list && Pos(list, MARKER) == moved
    ensures Holds(DropAt(list, moved), keys, false) && Timed(DropAt(list, moved), time, clock)
  {
    DropAtIs(list, moved);
    assert MARKER in list;
    NotTwice(list, Pos(list, MARKER), moved);
  }

  lemma SeenAhead(list: seq<Key>, moved: nat, seen: set<Key>, k: Key)
    requires k in list && moved <= |list| && Pos(list, k) < moved && Ahead(list, moved, seen)
    ensures seen + {k} == seen
  {
    assert list[..moved][Pos(list, k)] == k;
  }

  lemma Begins(list: seq<Key>, keys: set<Key>, time: map<Key, nat>, clock: nat, now: nat)
    requires Holds(list, keys, false) && Timed(list, time, clock) && now > clock
    ensures var list', time' := [MARKER] + list, time[MARKER := now];
      InCurve(list', keys, time', now, 0, {})
  {
    var list' := [MARKER] + list;
    forall i, j | 0 <= i < j < |list'| ensures Apart(list', i, j) {
      if i > 0 {
        assert Apart(list, i - 1, j - 1);
      }
    }
  }

  function Last(list: seq<Key>): Key
    requires list != []
  {
    list[|list| - 1]
  }

  /** As many nodes as cached keys, and the marker. */
  lemma {:induction false} ListSize(list: seq<Key>, keys: set<Key>)
    requires Distinct(list) && forall k :: k in list <==> k in keys
    ensures |list| == |keys|
  {
    if list != [] {
      var last := Last(list);
      var rest := list[..|list| - 1];
      assert DropAt(list, |list| - 1) == rest;
      DropAtIs(list, |list| - 1);
      ListSize(rest, keys - {last});
    } else {
      assert keys == {};
    }
  }

  /** The marker is the last node exactly when all cached nodes have passed it. */
  lemma MarkerLastIff(list: seq<Key>, keys: set<Key>, time: map<Key, nat>, clock: nat, moved: nat, seen: set<Key>)
    requires InCurve(list, keys, time, clock, moved, seen)
    ensures |list| == |keys| + 1 && (Last(list) == MARKER <==> moved == |keys|)
  {
    ListSize(list, keys + {MARKER});
    NotTwice(list, moved, |list| - 1);
  }

  /** Eviction of a node behind the marker. */
  lemma Evicts(list: seq<Key>, keys: set<Key>, time: map<Key, nat>, clock: nat, moved: nat, seen: set<Key>)
    requires InCurve(list, keys, time, clock, moved, seen) && moved < |keys|
    ensures list != [] && Last(list) in keys && Last(list) !in seen
    ensures InCurve(list[..|list| - 1], keys - {Last(list)}, time, clock, moved, seen)
  {
    MarkerLastIff(list, keys, time, clock, moved, seen);
    DropLastIs(list, keys, true);
    DropLastSplits(list, time, moved, seen);
  }

  /** What is left when the marker goes from the end of the list. */
  lemma WithoutMarker(list: seq<Key>, keys: set<Key>)
    requires Holds(list, keys, true) && list != [] && Last(list) == MARKER
    ensures var rest := list[..|list| - 1]; MARKER !in rest && forall k :: k in rest <==> k in keys
  {
    assert DropAt(list, |list| - 1) == list[..|list| - 1];
    DropAtIs(list, |list| - 1);
  }

  lemma SeenCached(list: seq<Key>, keys: set<Key>, time: map<Key, nat>, clock: nat, moved: nat, seen: set<Key>)
    requires InCurve(list, keys, time, clock, moved, seen)
    ensures forall k :: k in seen ==> k in keys
  {
    forall k | k in seen ensures k in keys {
      var i :| 0 <= i < moved && list[i] == k;
      assert Apart(list, i, moved);
    }
  }

  /** The nodes ahead of the marker are those of the keys found since it was put in. */
  ghost predicate FoundAhead(list: seq<Key>, keys: set<Key>, moved: nat, seen: set<Key>) {
    forall k <- keys :: k in list && (Pos(list, k) < moved <==> k in seen)
  }

  lemma AheadIffFound(list: seq<Key>, keys: set<Key>, time: map<Key, nat>, clock: nat, moved: nat, seen: set<Key>, curve: bool)
    requires curve ==> InCurve(list, keys, time, clock, moved, seen)
    ensures curve ==> FoundAhead(list, keys, moved, seen)
  {
    if curve {
      forall k <- keys ensures k in list && (Pos(list, k) < moved <==> k in seen) {
        OneAhead(list, moved, seen, k);
      }
    }
  }

  lemma OneAhead(list: seq<Key>, moved: nat, seen: set<Key>, k: Key)
    requires Distinct(list) && moved <= |list| && Ahead(list, moved, seen) && k in list
    ensures Pos(list, k) < moved <==> k in seen
  {
    var i := Pos(list, k);
    if i < moved {
      assert list[..moved][i] == k;
    }
    if k in seen {
      var j :| 0 <= j < moved && list[..moved][j] == k;
      NotTwice(list, j, i);
    }
  }

  lemma Inserts(list: seq<Key>, keys: set<Key>, time: map<Key, nat>, clock: nat, moved: nat, seen: set<Key>, key: Key, now: nat)
    requires InCurve(list, keys, time, clock, moved, seen) && key !in keys && key != MARKER && now > clock
    ensures InCurve(PushAfter(list, moved, key), keys + {key}, time[key := time[MARKER]], now, moved, seen)
  {
    PushAfterIs(list, moved, key);
    PushAfterSplits(list, time, moved, key);
    assert PushAfter(list, moved, key)[..moved] == list[..moved];
  }

  /** A new node at the head, outside curve mode. */
  lemma PushFrontHolds(list: seq<Key>, keys: set<Key>, time: map<Key, nat>, clock: nat, key: Key, now: nat)
    requires Holds(list, keys, false) && Timed(list, time, clock) && key !in keys && key != MARKER && now > clock
    ensures Holds([key] + list, keys + {key}, false) && Timed([key] + list, time[key := now], now)
  {
    var r := [key] + list;
    forall i, j | 0 <= i < j < |r| ensures Apart(r, i, j) {
      if i > 0 {
        assert Apart(list, i - 1, j - 1);
      }
    }
  }

  function Butlast(list: seq<Key>): seq<Key>
    requires list != []
  {
    list[..|list| - 1]
  }

  /** The marker is in the list and not the one to be evicted. */
  predicate Roomy(list: seq<Key>, moved: nat, size: nat, maxSize: nat) {
    moved < |list| - (if size >= maxSize then 1 else 0)
  }

  /** The list after an insert in curve mode: a node right behind the marker, and as many evicted as needed. */
  function Inserted(list: seq<Key>, moved: nat, key: Key, size: nat, maxSize: nat): seq<Key>
    requires Roomy(list, moved, size, maxSize)
  {
    var pushed := PushAfter(if size >= maxSize then Butlast(list) else list, moved, key);
    if size > maxSize then Butlast(pushed) else pushed
  }

  /** Entries may be missing; those there are the same. */
  ghost predicate Within<V>(table: map<Key, V>, whole: map<Key, V>) {
    forall k :: k in table ==> k in whole && table[k] == whole[k]
  }

  lemma WithinLess<V>(whole: map<Key, V>, k: Key)
    ensures Within(whole - {k}, whole)
  {
  }

  lemma WithinBoth<V>(a: map<Key, V>, b: map<Key, V>, c: map<Key, V>)
    requires Within(a, b) && Within(b, c)
    ensures Within(a, c)
  {
  }

  lemma Swapped<V>(keys: set<Key>, last: Key, key: Key, table: map<Key, V>, table': map<Key, V>)
    requires last in keys && key !in keys && table.Keys == keys + {key} && table' == table - {last}
    ensures table'.Keys == keys - {last} + {key} && |table'| == |keys|
  {
    assert |table'.Keys| == |keys - {last} + {key}|;
  }

  // ---------------------------------------------------------------- the cache

  class CurveCache<V> {
    const maxSize: nat
    var list: seq<Key>                 // most recently used first, the marker among them in curve mode
    var table: map<Key, V>
    var time: map<Key, nat>
    var size: nat
    var curve: bool
    var moved: nat                     // movement_counter
    var fastHits: nat
    var otherHits: nat
    var misses: nat

    ghost var clock: nat               // latest reading so far
    ghost var seen: set<Key>           // keys found since the marker was put in
    ghost var aheadHits: nat           // hits, since then, on nodes that stood ahead of the marker

    ghost predicate Valid()
      reads this
    {
      && size == |table|
      && if curve then InCurve(list, table.Keys, time, clock, moved, seen) && fastHits == aheadHits
         else Holds(list, table.Keys, false) && Timed(list, time, clock) && moved == 0
    }

    constructor (maxSize: nat)
      ensures Valid() && !curve && table == map[] && this.maxSize == maxSize && clock == 0
    {
      this.maxSize := maxSize;
      list, table, time, size, curve, moved := [], map[], map[], 0, false, 0;
      fastHits, otherHits, misses, clock, seen, aheadHits := 0, 0, 0, 0, {}, 0;
    }

    /** The start of get_curve; the statistics are reset. */
    method BeginCurve(now: nat)
      requires Valid() && !curve && now > clock
      modifies this
      ensures Valid() && curve && moved == 0 && table == old(table) && list == [MARKER] + old(list) && seen == {}
      ensures clock == now && fastHits == aheadHits == 0
    {
      Begins(list, table.Keys, time, clock, now);
      list := [MARKER] + list;
      time := time[MARKER := now];
      curve := true;
      fastHits, otherHits, misses := 0, 0, 0;
      clock, seen, aheadHits := now, {}, 0;
    }

    /** The end of get_curve. */
    method EndCurve()
      requires Valid() && curve
      modifies this
      ensures Valid() && !curve && table == old(table) && list == DropAt(old(list), old(moved))
    {
      Ends(list, table.Keys, time, clock, moved, seen);
      var i := Locate(list, MARKER);
      list := DropAt(list, i);
      curve := false;
      moved := 0;
    }

    /**
     A hit ahead of the marker counts as a fast hit and moves nothing; a hit behind it moves the node
     to the head and is counted as a movement.
     */
    method Find(key: Key, now: nat, locked: bool) returns (value: Option<V>)
      requires Valid() && key != MARKER && now > clock
      modifies this
      ensures Valid() && table == old(table) && curve == old(curve)
      ensures value == if key in table then Some(table[key]) else None
      ensures value.None? ==> list == old(list) && fastHits == old(fastHits) && misses == old(misses) + 1
      ensures value.Some? && !curve ==> list == if locked then MoveUp(old(list), Pos(old(list), key)) else old(list)
      ensures value.Some? && curve ==>
        var i := Pos(old(list), key);
        if i < old(moved) then list == old(list) && moved == old(moved) && fastHits == old(fastHits) + 1
        else list == MoveUp(old(list), i) && moved == old(moved) + 1 && fastHits == old(fastHits)
      ensures curve ==> seen == old(seen) + (if value.Some? then {key} else {})
      ensures clock == now && size == old(size) && (curve ==> FoundAhead(list, table.Keys, moved, seen))
    {
      if key !in table {
        clock, misses := now, misses + 1;
        AheadIffFound(list, table.Keys, time, clock, moved, seen, curve);
        return None;
      }
      if !curve {
        MoveToHead(key, now, locked);
      } else if time[key] <= time[MARKER] {
        Advance(key, now);
        otherHits := otherHits + 1;
      } else {
        Stay(key, now);
      }
      AheadIffFound(list, table.Keys, time, clock, moved, seen, curve);
      return Some(table[key]);
    }

    /** Outside curve mode a hit goes to the head, unless the list mutex is taken. */
    method MoveToHead(key: Key, now: nat, locked: bool)
      requires Valid() && !curve && key in table && now > clock
      modifies this
      ensures Valid() && !curve && table == old(table) && clock == now && size == old(size)
      ensures list == if locked then MoveUp(old(list), Pos(old(list), key)) else old(list)
    {
      var i := Locate(list, key);
      MoveUpIs(list, i);
      clock, otherHits := now, otherHits + 1;
      if locked {
        list := MoveUp(list, i);
      }
    }

    method Advance(key: Key, now: nat)
      requires Valid() && curve && key in table && now > clock && time[key] <= time[MARKER]
      modifies this`list, this`time, this`moved, this`clock, this`seen
      ensures Valid() && moved == old(moved) + 1 && clock == now
      ensures seen == old(seen) + {key} && Pos(old(list), key) > old(moved)
      ensures list == MoveUp(old(list), Pos(old(list), key))
    {
      Advances(list, table.Keys, time, clock, moved, seen, key, now);
      var i := Locate(list, key);
      Become(MoveUp(list, i), time[key := now], now, moved + 1, seen + {key});
    }

    method Become(list': seq<Key>, time': map<Key, nat>, ghost now: nat, moved': nat, ghost seen': set<Key>)
      requires curve && size == |table| && fastHits == aheadHits && InCurve(list', table.Keys, time', now, moved', seen')
      modifies this`list, this`time, this`moved, this`clock, this`seen
      ensures Valid() && list == list' && time == time' && clock == now && moved == moved' && seen == seen'
    {
      clock, moved, time, list, seen := now, moved', time', list', seen';
    }

    method Stay(key: Key, now: nat)
      requires Valid() && curve && key in table && now > clock && time[key] > time[MARKER]
      modifies this
      ensures Valid() && curve && table == old(table) && moved == old(moved) && list == old(list) && clock == now && size == old(size)
      ensures seen == old(seen) + {key} && Pos(list, key) < moved && fastHits == old(fastHits) + 1
    {
      Stays(list, table.Keys, time, clock, moved, seen, key, now);
      clock, aheadHits, fastHits := now, aheadHits + (if Pos(list, key) < moved then 1 else 0), fastHits + 1;
    }

    method Evict() returns (ok: bool)
      modifies this`list, this`table
      ensures ok == (old(list) != [] && Last(old(list)) in old(table))
      ensures list == if old(list) == [] then [] else old(list)[..|old(list)| - 1]
      ensures table == if ok then old(table) - {Last(old(list))} else old(table)
    {
      if list == [] {
        return false;
      }
      var moribund := list[|list| - 1];
      list := list[..|list| - 1];
      if moribund !in table {
        return false;
      }
      table := table - {moribund};
      return true;
    }

    /** The last node is behind the marker: it leaves list and map. */
    method EvictBehind(ghost keys: set<Key>)
      requires curve && InCurve(list, keys, time, clock, moved, seen) && keys <= table.Keys && moved < |keys|
      modifies this`list, this`table
      ensures var last := Last(old(list));
        && last in keys && last !in seen && table == old(table) - {last}
        && InCurve(list, keys - {last}, time, clock, moved, seen)
      ensures moved < |old(list)| - 1 && list == Butlast(old(list))
    {
      Evicts(list, keys, time, clock, moved, seen);
      var ok := Evict();
    }

    /** The new node goes right behind the marker and is as old as it. */
    method PushBehind(key: Key, now: nat, ghost keys: set<Key>)
      requires curve && InCurve(list, keys, time, clock, moved, seen) && key !in keys && key != MARKER && now > clock
      modifies this`list, this`time, this`clock
      ensures InCurve(list, keys + {key}, time, clock, moved, seen) && list == PushAfter(old(list), moved, key)
    {
      Inserts(list, keys, time, clock, moved, seen, key, now);
      Ends(list, keys, time, clock, moved, seen);
      var i := Locate(list, MARKER);
      time, list, clock := time[key := time[MARKER]], PushAfter(list, i, key), now;
    }

    /**
     A new key in curve mode. If the cache is full and all cached nodes have passed the marker, the
     marker itself is evicted and the new node gets linked to a node no longer in the list, where the
     model stops; otherwise, and only then, everything stays as it should.
     */
    method InsertInCurve(key: Key, value: V, now: nat) returns (lost: bool)
      requires Valid() && curve && key != MARKER && key !in table && now > clock
      modifies this
      ensures lost <==> old(size) >= maxSize && old(moved) == |old(table)|
      ensures lost ==> list == old(list)[..|old(list)| - 1] && Last(old(list)) == MARKER && MARKER !in list
      ensures lost ==> table == old(table)[key := value] && curve && moved == old(moved) && forall k :: k in list <==> k in old(table)
      ensures !lost ==> Valid() && curve && moved == old(moved) && seen == old(seen) && fastHits == old(fastHits)
      ensures !lost ==> size == old(size) + (if old(size) < maxSize then 1 else if old(size) == maxSize then 0 else -1)
      ensures !lost ==> Roomy(old(list), old(moved), old(size), maxSize)
      ensures !lost ==> list == Inserted(old(list), old(moved), key, old(size), maxSize)
      ensures !lost ==> Within(table, old(table)[key := value]) && forall k <- old(seen) :: k in table
      ensures !lost ==> FoundAhead(list, table.Keys, moved, seen)
    {
      MarkerLastIff(list, table.Keys, time, clock, moved, seen);
      if Last(list) == MARKER {
        WithoutMarker(list, table.Keys);
      }
      lost := PutInCurve(key, value, now);
      if !lost {
        SeenCached(list, table.Keys, time, clock, moved, seen);
        AheadIffFound(list, table.Keys, time, clock, moved, seen, true);
      }
    }

    method PutInCurve(key: Key, value: V, now: nat) returns (lost: bool)
      requires Valid() && curve && key != MARKER && key !in table && now > clock
      modifies this
      ensures lost <==> old(size) >= maxSize && old(moved) == |old(table)|
      ensures lost ==> list == old(list)[..|old(list)| - 1] && table == old(table)[key := value] && curve && moved == old(moved)
      ensures !lost ==> Valid() && curve && moved == old(moved) && seen == old(seen) && fastHits == old(fastHits)
      ensures !lost ==> size == old(size) + (if old(size) < maxSize then 1 else if old(size) == maxSize then 0 else -1)
      ensures !lost ==> Roomy(old(list), old(moved), old(size), maxSize)
      ensures !lost ==> list == Inserted(old(list), old(moved), key, old(size), maxSize)
      ensures !lost ==> Within(table, old(table)[key := value])
    {
      MarkerLastIff(list, table.Keys, time, clock, moved, seen);
      var s := size;
      ghost var keys := table.Keys;
      table := table[key := value];
      if s < maxSize {
        InsertRoom(key, now, keys);
      } else if list[|list| - 1] == MARKER {
        var _ := Evict();
        return true;
      } else {
        InsertFull(key, now, keys);
      }
      return false;
    }

    /** There is room: the rest of insert after the map. */
    method InsertRoom(key: Key, now: nat, ghost keys: set<Key>)
      requires curve && InCurve(list, keys, time, clock, moved, seen) && key !in keys && key != MARKER && now > clock
      requires table.Keys == keys + {key} && size == |keys| < maxSize && fastHits == aheadHits
      modifies this`list, this`time, this`clock, this`size
      ensures Valid() && size == old(size) + 1 && list == PushAfter(old(list), moved, key)
    {
      PushBehind(key, now, keys);
      size := size + 1;
    }

    /** The cache is full: one node is evicted before the new one is pushed, and one more after if it was overfull. */
    method InsertFull(key: Key, now: nat, ghost keys: set<Key>)
      requires curve && InCurve(list, keys, time, clock, moved, seen) && key !in keys && key != MARKER && now > clock
      requires table.Keys == keys + {key} && size == |keys| >= maxSize && fastHits == aheadHits && moved < |keys|
      modifies this`list, this`time, this`clock, this`size, this`table
      ensures Valid() && size == old(size) - (if old(size) > maxSize then 1 else 0) && Within(table, old(table))
      ensures Roomy(old(list), moved, old(size), maxSize)
      ensures list == Inserted(old(list), moved, key, old(size), maxSize)
    {
      Exchange(key, now, keys);
      if size > maxSize {
        ghost var table1 := table;
        EvictAgain();
        WithinBoth(table, table1, old(table));
      }
    }

    /** One node goes, the new one comes. */
    method Exchange(key: Key, now: nat, ghost keys: set<Key>)
      requires curve && InCurve(list, keys, time, clock, moved, seen) && key !in keys && key != MARKER && now > clock
      requires table.Keys == keys + {key} && size == |keys| && fastHits == aheadHits && moved < |keys|
      modifies this`list, this`time, this`clock, this`table
      ensures Valid() && |table| == size && Within(table, old(table))
      ensures moved < |old(list)| - 1 && list == PushAfter(Butlast(old(list)), moved, key)
    {
      Replace(key, now, keys);
      Swapped(keys, Last(old(list)), key, old(table), table);
      WithinLess(old(table), Last(old(list)));
    }

    method Replace(key: Key, now: nat, ghost keys: set<Key>)
      requires curve && InCurve(list, keys, time, clock, moved, seen) && key !in keys && key != MARKER && now > clock
      requires table.Keys == keys + {key} && moved < |keys|
      modifies this`list, this`time, this`clock, this`table
      ensures Last(old(list)) in keys && table == old(table) - {Last(old(list))}
      ensures InCurve(list, keys - {Last(old(list))} + {key}, time, clock, moved, seen)
      ensures moved < |old(list)| - 1 && list == PushAfter(Butlast(old(list)), moved, key)
    {
      ghost var rest := keys - {Last(list)};
      EvictBehind(keys);
      PushBehind(key, now, rest);
    }

    method EvictAgain()
      requires Valid() && curve && moved < |table|
      modifies this`list, this`table, this`size
      ensures Valid() && size == old(size) - 1 && Within(table, old(table)) && old(list) != [] && list == Butlast(old(list))
    {
      EvictBehind(table.Keys);
      size := size - 1;
    }

    /** A new key outside curve mode that finds room: it goes to the head of the list. */
    method InsertPlain(key: Key, value: V, now: nat)
      requires Valid() && !curve && key != MARKER && key !in table && now > clock && size < maxSize
      modifies this
      ensures Valid() && !curve && table == old(table)[key := value] && list == [key] + old(list) && clock == now
    {
      PushFrontHolds(list, table.Keys, time, clock, key, now);
      table, time, list, size, clock := table[key := value], time[key := now], [key] + list, size + 1, now;
    }
  }

  /**
   For every capacity: fill the cache, begin a curve, find every key, and insert one more. The marker
   is evicted.
   */
  method MarkerLost<V>(capacity: nat, value: V) returns (cache: CurveCache<V>, lost: bool)
    ensures fresh(cache) && cache.maxSize == capacity && lost && cache.curve && cache.moved == capacity
    ensures MARKER !in cache.list && HasKeys(cache.table.Keys, capacity + 1)
    ensures forall k :: k in cache.list <==> k in cache.table && k != FIRST + capacity
  {
    cache := Filled(capacity, value);
    cache.BeginCurve(capacity + 1);
    FindAll(cache, capacity);
    NextKey(cache.table.Keys, capacity);
    lost := cache.InsertInCurve(FIRST + capacity, value, 2 * capacity + 2);
  }

  const FIRST: Key := MARKER + 1

  /** The keys of a filled cache are the first ones after the marker's. */
  ghost predicate HasKeys(keys: set<Key>, n: nat) {
    |keys| == n && forall k :: k in keys <==> FIRST <= k < FIRST + n
  }

  lemma NextKey(keys: set<Key>, n: nat)
    requires HasKeys(keys, n)
    ensures FIRST + n !in keys && HasKeys(keys + {FIRST + n}, n + 1)
  {
  }

  method FillNext<V>(cache: CurveCache<V>, key: Key, value: V, now: nat)
    requires cache.Valid() && !cache.curve && key != MARKER && key !in cache.table && now > cache.clock && |cache.table.Keys| < cache.maxSize
    modifies cache
    ensures cache.Valid() && !cache.curve && cache.clock == now && cache.table.Keys == old(cache.table.Keys) + {key}
  {
    cache.InsertPlain(key, value, now);
  }

  method Filled<V>(capacity: nat, value: V) returns (cache: CurveCache<V>)
    ensures fresh(cache) && cache.Valid() && !cache.curve && cache.maxSize == capacity && cache.clock == capacity
    ensures HasKeys(cache.table.Keys, capacity)
  {
    cache := new CurveCache<V>(capacity);
    var i := 0;
    while i < capacity
      invariant 0 <= i <= capacity && fresh(cache) && cache.Valid() && !cache.curve && cache.maxSize == capacity && cache.clock == i
      invariant HasKeys(cache.table.Keys, i)
    {
      NextKey(cache.table.Keys, i);
      FillNext(cache, FIRST + i, value, i + 1);
      i := i + 1;
    }
  }

  method FindAll<V>(cache: CurveCache<V>, n: nat)
    requires cache.Valid() && cache.curve && cache.clock == n + 1 && cache.moved == 0 && cache.seen == {} && HasKeys(cache.table.Keys, n)
    modifies cache
    ensures cache.Valid() && cache.curve && cache.clock == 2 * n + 1 && cache.moved == n && cache.table == old(cache.table)
    ensures cache.size == old(cache.size)
  {
    var i := 0;
    while i < n
      invariant 0 <= i <= n && cache.Valid() && cache.curve && cache.clock == n + 1 + i && cache.moved == i
      invariant cache.table == old(cache.table) && cache.size == old(cache.size)
      invariant forall k <- cache.seen :: k < FIRST + i
    {
      FindFirst(cache, FIRST + i, n + 2 + i);
      i := i + 1;
    }
  }

  /** A key is found for the first time since the curve began. */
  method FindFirst<V>(cache: CurveCache<V>, key: Key, now: nat)
    requires cache.Valid() && cache.curve && key in cache.table && key !in cache.seen && key != MARKER && now > cache.clock
    modifies cache
    ensures cache.Valid() && cache.curve && cache.table == old(cache.table) && cache.size == old(cache.size)
    ensures cache.clock == now && cache.moved == old(cache.moved) + 1 && cache.seen == old(cache.seen) + {key}
  {
    AheadIffFound(cache.list, cache.table.Keys, cache.time, cache.clock, cache.moved, cache.seen, true);
    var _ := cache.Find(key, now, true);
  }
}
