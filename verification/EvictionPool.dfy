/**
 The eviction pool of the Redis-style cache: sixteen slots pointing to entries. Making room moves
 pointers, not entries, so two neighbouring slots come to share one entry and a write through one
 shows in the other. The pool as read through its pointers is a sequence of items; which slots share
 an entry is the sequence of pointers itself.
 */
module EvictionPool {
  import opened Options

  type Key = nat     // 0 means no key

  const SIZE: nat := 16

  datatype Item = Item(idle: nat, key: Key)

  class Entry {
    var item: Item

    constructor (item: Item)
      ensures this.item == item
    {
      this.item := item;
    }
  }

  // ---------------------------------------------------------------- the pool as values

  /** Slots that share an entry show the same item and stand side by side. */
  ghost predicate Aliased(slots: seq<Entry>, view: seq<Item>)
    requires |slots| == |view|
  {
    && (forall i, k :: 0 <= i < k < |slots| && slots[i] == slots[k] ==> view[i] == view[k])
    && (forall i, m, k :: 0 <= i < m < k < |slots| && slots[i] == slots[k] ==> slots[m] == slots[i])
  }

  /** Keys fill a prefix of the slots. */
  ghost predicate Packed(view: seq<Item>) {
    forall i, k :: 0 <= i < k < |view| && view[k].key != 0 ==> view[i].key != 0
  }

  /** The items with keys are in ascending order of idle time. */
  ghost predicate Sorted(view: seq<Item>) {
    forall i, k :: 0 <= i < k < |view| && view[k].key != 0 ==> view[i].idle <= view[k].idle
  }

  ghost predicate Good(slots: seq<Entry>, view: seq<Item>) {
    |slots| == SIZE && |view| == SIZE && Aliased(slots, view) && Packed(view) && Sorted(view)
  }

  /** The first slot from j on that is empty or at least as idle. */
  function FirstAtLeast(view: seq<Item>, idle: nat, j: nat): (r: nat)
    requires j <= |view|
    ensures j <= r <= |view|
    ensures forall i :: j <= i < r ==> view[i].key != 0 && view[i].idle < idle
    ensures r < |view| ==> view[r].key == 0 || view[r].idle >= idle
    decreases |view| - j
  {
    if j < |view| && view[j].key != 0 && view[j].idle < idle then FirstAtLeast(view, idle, j + 1) else j
  }

  /** What to do with a sample: nothing, write it into a slot, or do so after moving pointers right or left. */
  datatype Way = Reject | Into(j: nat) | Right(j: nat) | Left(j: nat)

  function Choose(view: seq<Item>, idle: nat): (w: Way)
    requires |view| == SIZE
    ensures !w.Reject? ==> w.j < SIZE
  {
    var j := FirstAtLeast(view, idle, 0);
    if j == 0 && view[0].key != 0 && view[SIZE - 1].key != 0 then Reject
    else if j < SIZE && view[j].key == 0 then Into(j)
    else if view[SIZE - 1].key == 0 then Right(j)
    else Left(j - 1)
  }

  /** Where the pointer in slot i came from. */
  function From(w: Way, i: nat): nat {
    if w.Right? && i > w.j then i - 1 else if w.Left? && i < w.j then i + 1 else i
  }

  /** The sequence after the move of pointers. */
  function Shift<T>(s: seq<T>, w: Way): (r: seq<T>)
    requires |s| == SIZE && (!w.Reject? ==> w.j < SIZE)
    ensures |r| == SIZE
  {
    seq(SIZE, i requires 0 <= i < SIZE => s[From(w, i)])
  }

  /** A write through slot j shows in every slot that shares its entry. */
  ghost function Write(slots: seq<Entry>, view: seq<Item>, j: nat, item: Item): seq<Item>
    requires |slots| == |view| && j < |slots|
  {
    seq(|view|, i requires 0 <= i < |view| => if slots[i] == slots[j] then item else view[i])
  }

  /** The pool after a sample. */
  ghost function Placed(slots: seq<Entry>, view: seq<Item>, item: Item): seq<Item>
    requires |slots| == SIZE && |view| == SIZE
  {
    var w := Choose(view, item.idle);
    if w.Reject? then view else Write(Shift(slots, w), Shift(view, w), w.j, item)
  }

  // ---------------------------------------------------------------- placing keeps the pool good

  lemma ShiftAliased(slots: seq<Entry>, view: seq<Item>, w: Way)
    requires |slots| == SIZE && |view| == SIZE && Aliased(slots, view) && (!w.Reject? ==> w.j < SIZE)
    ensures Aliased(Shift(slots, w), Shift(view, w))
  {
    var slots', view' := Shift(slots, w), Shift(view, w);
    forall i, m, k | 0 <= i < m < k < SIZE && slots'[i] == slots'[k] ensures slots'[m] == slots'[i] {
      assert slots[From(w, i)] == slots[From(w, k)] && From(w, i) <= From(w, m) <= From(w, k);
    }
  }

  lemma ShiftSorted(view: seq<Item>, w: Way)
    requires |view| == SIZE && Packed(view) && Sorted(view) && (!w.Reject? ==> w.j < SIZE)
    ensures Packed(Shift(view, w)) && Sorted(Shift(view, w))
  {
  }

  lemma WriteAliased(slots: seq<Entry>, view: seq<Item>, j: nat, item: Item)
    requires |slots| == |view| && Aliased(slots, view) && j < |slots|
    ensures Aliased(slots, Write(slots, view, j, item))
  {
  }

  /** The item fits at j: everything before is no more idle, everything behind is empty, overwritten or no less idle. */
  ghost predicate Fits(slots: seq<Entry>, view: seq<Item>, j: nat, item: Item)
    requires |slots| == |view| && j < |slots|
  {
    && item.key != 0
    && (forall i :: 0 <= i < j ==> view[i].key != 0 && view[i].idle <= item.idle)
    && (forall i :: j < i < |view| ==> slots[i] == slots[j] || view[i].key == 0 || view[i].idle >= item.idle)
  }

  lemma WriteSorted(slots: seq<Entry>, view: seq<Item>, j: nat, item: Item)
    requires |slots| == |view| && Aliased(slots, view) && Packed(view) && Sorted(view)
    requires j < |slots| && Fits(slots, view, j, item)
    ensures var v := Write(slots, view, j, item); Packed(v) && Sorted(v)
  {
  }

  lemma ChosenFits(slots: seq<Entry>, view: seq<Item>, item: Item)
    requires Good(slots, view) && item.key != 0 && !Choose(view, item.idle).Reject?
    ensures var w := Choose(view, item.idle); Fits(Shift(slots, w), Shift(view, w), w.j, item)
  {
    var w := Choose(view, item.idle);
    var first := FirstAtLeast(view, item.idle, 0);
    match w
    case Into(j) =>
    case Right(j) =>
    case Left(j) =>
      assert first == j + 1;
  }

  /** Whatever the sample, the pool read through its pointers stays packed, sorted and side by side. */
  lemma PlacedIs(slots: seq<Entry>, view: seq<Item>, item: Item, w: Way)
    requires |slots| == SIZE && |view| == SIZE && w == Choose(view, item.idle)
    ensures w.Reject? ==> Placed(slots, view, item) == view && Shift(slots, w) == slots
    ensures !w.Reject? ==> Placed(slots, view, item) == Write(Shift(slots, w), Shift(view, w), w.j, item)
  {
  }

  lemma PlacedIsGood(slots: seq<Entry>, view: seq<Item>, item: Item)
    requires Good(slots, view) && item.key != 0
    ensures Good(Shift(slots, Choose(view, item.idle)), Placed(slots, view, item))
  {
    var w := Choose(view, item.idle);
    ShiftAliased(slots, view, w);
    ShiftSorted(view, w);
    if !w.Reject? {
      ChosenFits(slots, view, item);
      WriteAliased(Shift(slots, w), Shift(view, w), w.j, item);
      WriteSorted(Shift(slots, w), Shift(view, w), w.j, item);
    } else {
      assert Shift(view, w) == view;
    }
  }

  /** A sample that is not rejected is in the pool afterwards; everything else in it was there before. */
  lemma PlacedHolds(slots: seq<Entry>, view: seq<Item>, item: Item, i: nat)
    requires |slots| == SIZE && |view| == SIZE && i < SIZE
    ensures Placed(slots, view, item)[i] == item || Placed(slots, view, item)[i] in view
    ensures !Choose(view, item.idle).Reject? ==> item in Placed(slots, view, item)
  {
    var w := Choose(view, item.idle);
    if !w.Reject? {
      assert Placed(slots, view, item)[w.j] == item;
    }
  }

  /** Moving pointers makes neighbours share an entry: the item that had its place there is overwritten, not moved. */
  lemma MovedSlotsShare(slots: seq<Entry>, view: seq<Item>, item: Item)
    requires |slots| == SIZE && |view| == SIZE && Good(slots, view)
    ensures var w := Choose(view, item.idle); var slots' := Shift(slots, w);
      && (w.Right? ==> w.j + 1 < SIZE && slots'[w.j + 1] == slots'[w.j] && Placed(slots, view, item)[w.j + 1] == item)
      && (w.Left? && w.j > 0 ==> slots'[w.j - 1] == slots'[w.j] && Placed(slots, view, item)[w.j - 1] == item)
  {
  }

  /** Only a sample less idle than everything in a full pool is turned away. */
  lemma RejectedIff(slots: seq<Entry>, view: seq<Item>, idle: nat)
    requires Good(slots, view)
    ensures Choose(view, idle).Reject? <==> forall i :: 0 <= i < SIZE ==> view[i].key != 0 && view[i].idle >= idle
  {
    var first := FirstAtLeast(view, idle, 0);
    if view[0].key != 0 && view[SIZE - 1].key != 0 && first == 0 {
      assert view[0].idle >= idle;
    }
  }

  // ---------------------------------------------------------------- taking a victim

  const NOTHING := Item(0, 0)

  /** The scan from the most idle slot down: keys that are gone are cleared, the first that is cached is the victim. */
  ghost function Scan(slots: seq<Entry>, view: seq<Item>, keys: set<Key>, k: nat): (seq<Item>, Option<Key>)
    requires |slots| == |view| && k <= |view|
    decreases k
  {
    if k == 0 then (view, None)
    else if view[k - 1].key == 0 then Scan(slots, view, keys, k - 1)
    else if view[k - 1].key in keys then (Write(slots, view, k - 1, NOTHING), Some(view[k - 1].key))
    else Scan(slots, Write(slots, view, k - 1, NOTHING), keys, k - 1)
  }

  ghost predicate EmptyFrom(view: seq<Item>, k: nat) {
    forall i :: k <= i < |view| ==> view[i].key == 0
  }

  /** Clearing the last item that is left. */
  lemma ClearIsGood(slots: seq<Entry>, view: seq<Item>, k: nat)
    requires Good(slots, view) && k < SIZE && EmptyFrom(view, k + 1)
    ensures Good(slots, Write(slots, view, k, NOTHING)) && EmptyFrom(Write(slots, view, k, NOTHING), k)
  {
    WriteAliased(slots, view, k, NOTHING);
  }

  lemma {:induction false} ScanIsGood(slots: seq<Entry>, view: seq<Item>, keys: set<Key>, k: nat)
    requires Good(slots, view) && k <= SIZE && EmptyFrom(view, k)
    ensures Good(slots, Scan(slots, view, keys, k).0)
    ensures Scan(slots, view, keys, k).1.None? ==> EmptyFrom(Scan(slots, view, keys, k).0, 0)
    decreases k
  {
    if k > 0 {
      if view[k - 1].key == 0 {
        ScanIsGood(slots, view, keys, k - 1);
      } else {
        ClearIsGood(slots, view, k - 1);
        ScanIsGood(slots, Write(slots, view, k - 1, NOTHING), keys, k - 1);
      }
    }
  }

  /** The victim is the key of some slot, is cached, and no cached key in the pool has been idle for longer. */
  ghost predicate MostIdle(view: seq<Item>, keys: set<Key>, victim: Key) {
    && victim in keys
    && exists i :: 0 <= i < |view| && view[i].key == victim && victim != 0
         && forall k :: 0 <= k < |view| && view[k].key != 0 && view[k].key in keys ==> view[k].idle <= view[i].idle
  }

  /** A slot that shows a cached key does not share the entry of one that does not. */
  lemma ClearKeeps(slots: seq<Entry>, view: seq<Item>, keys: set<Key>, k: nat, m: nat)
    requires Good(slots, view) && k < SIZE && m < SIZE && view[k].key !in keys
    ensures var rest := Write(slots, view, k, NOTHING);
      && (view[m].key in keys ==> rest[m] == view[m])
      && (rest[m].key != 0 ==> rest[m] == view[m])
  {
    if slots[m] == slots[k] {
      assert view[m] == view[k] by {
        if m < k { assert slots[m] == slots[k]; } else if k < m { assert slots[k] == slots[m]; }
      }
    }
  }

  lemma ClearedVictim(slots: seq<Entry>, view: seq<Item>, keys: set<Key>, k: nat, victim: Key)
    requires Good(slots, view) && k < SIZE && view[k].key !in keys && MostIdle(Write(slots, view, k, NOTHING), keys, victim)
    ensures MostIdle(view, keys, victim)
  {
    var rest := Write(slots, view, k, NOTHING);
    var i :| 0 <= i < SIZE && rest[i].key == victim && victim != 0
      && forall m :: 0 <= m < SIZE && rest[m].key != 0 && rest[m].key in keys ==> rest[m].idle <= rest[i].idle;
    ClearKeeps(slots, view, keys, k, i);
    forall m | 0 <= m < SIZE && view[m].key != 0 && view[m].key in keys ensures view[m].idle <= view[i].idle {
      ClearKeeps(slots, view, keys, k, m);
    }
    assert view[i].key == victim;
  }

  lemma LastIsMostIdle(slots: seq<Entry>, view: seq<Item>, keys: set<Key>, k: nat)
    requires Good(slots, view) && k < SIZE && EmptyFrom(view, k + 1) && view[k].key != 0 && view[k].key in keys
    ensures MostIdle(view, keys, view[k].key)
  {
    forall m | 0 <= m < |view| && view[m].key != 0 && view[m].key in keys ensures view[m].idle <= view[k].idle {
    }
  }

  ghost predicate RightVictim(view: seq<Item>, keys: set<Key>, victim: Option<Key>) {
    match victim
    case Some(v) => MostIdle(view, keys, v)
    case None => forall i :: 0 <= i < |view| && view[i].key != 0 ==> view[i].key !in keys
  }

  lemma {:induction false} ScanVictim(slots: seq<Entry>, view: seq<Item>, keys: set<Key>, k: nat)
    requires Good(slots, view) && k <= SIZE && EmptyFrom(view, k)
    ensures RightVictim(view, keys, Scan(slots, view, keys, k).1)
    decreases k
  {
    if k > 0 {
      if view[k - 1].key == 0 {
        ScanVictim(slots, view, keys, k - 1);
      } else if view[k - 1].key in keys {
        LastIsMostIdle(slots, view, keys, k - 1);
      } else {
        ClearIsGood(slots, view, k - 1);
        var rest := Write(slots, view, k - 1, NOTHING);
        ScanVictim(slots, rest, keys, k - 1);
        var victim := Scan(slots, rest, keys, k - 1).1;
        assert Scan(slots, view, keys, k).1 == victim;
        ScanOn(slots, view, keys, k - 1, victim);
      }
    }
  }

  lemma ScanOn(slots: seq<Entry>, view: seq<Item>, keys: set<Key>, k: nat, victim: Option<Key>)
    requires Good(slots, view) && k < SIZE && view[k].key !in keys && RightVictim(Write(slots, view, k, NOTHING), keys, victim)
    ensures RightVictim(view, keys, victim)
  {
    if victim.Some? {
      ClearedVictim(slots, view, keys, k, victim.value);
    } else {
      forall i | 0 <= i < |view| && view[i].key != 0 ensures view[i].key !in keys {
        ClearKeeps(slots, view, keys, k, i);
        assert Write(slots, view, k, NOTHING)[i].key != 0 ==> Write(slots, view, k, NOTHING)[i].key !in keys;
      }
    }
  }

  // ---------------------------------------------------------------- the pool as objects

  class Pool {
    const slots: array<Entry>
    ghost const entries: set<Entry>   // what the slots pointed to at the start

    ghost function View(): seq<Item>
      reads slots, slots[..]
    {
      seq(slots.Length, i requires 0 <= i < slots.Length reads slots, slots[..] => slots[i].item)
    }

    ghost predicate Valid()
      reads slots, entries
    {
      Owned() && Good(slots[..], View())
    }

    ghost predicate Owned()
      reads slots
    {
      forall i :: 0 <= i < slots.Length ==> slots[i] in entries
    }

    constructor ()
      ensures Valid() && EmptyFrom(View(), 0) && fresh(slots) && fresh(entries)
    {
      var e := new Entry(NOTHING);
      var a := new Entry[SIZE](_ => e);
      var i := 0;
      while i < SIZE
        invariant 0 <= i <= SIZE && fresh(a) && a.Length == SIZE
        invariant forall k :: 0 <= k < SIZE ==> fresh(a[k]) && a[k].item == NOTHING
        invariant forall k, m :: 0 <= k < m < i ==> a[k] != a[m]
        invariant forall k :: 0 <= k < i ==> a[k] != e
        invariant forall k :: i <= k < SIZE ==> a[k] == e
      {
        a[i] := new Entry(NOTHING);
        i := i + 1;
      }
      slots := a;
      entries := set k | k in a[..];
    }

    method Search(idle: nat) returns (j: nat)
      requires slots.Length == SIZE
      ensures j == FirstAtLeast(View(), idle, 0)
    {
      j := 0;
      while j < SIZE && slots[j].item.key != 0 && slots[j].item.idle < idle
        invariant 0 <= j <= SIZE && FirstAtLeast(View(), idle, 0) == FirstAtLeast(View(), idle, j)
      {
        j := j + 1;
      }
    }

    /** The move of pointers: memmove towards the end from j, or towards the front up to j. */
    method Move(w: Way)
      requires slots.Length == SIZE && !w.Reject? && w.j < SIZE && Owned()
      modifies slots
      ensures Owned() && slots[..] == Shift(old(slots[..]), w) && View() == Shift(old(View()), w)
    {
      match w
      case Right(j) => forall i | j < i < SIZE { slots[i] := slots[i - 1]; }
      case Left(j) => forall i | 0 <= i < j { slots[i] := slots[i + 1]; }
      case Into(j) =>
    }

    method Put(j: nat, item: Item)
      requires j < slots.Length
      modifies slots[j]
      ensures slots[..] == old(slots[..]) && View() == Write(slots[..], old(View()), j, item)
    {
      slots[j].item := item;
    }

    /** Offers a sampled key with its idle time to the pool. */
    method Place(idle: nat, key: Key)
      requires Valid() && key != 0
      modifies slots, entries
      ensures Valid()
      ensures slots[..] == Shift(old(slots[..]), Choose(old(View()), idle))
      ensures View() == Placed(old(slots[..]), old(View()), Item(idle, key))
    {
      ghost var slots0, view0, item := slots[..], View(), Item(idle, key);
      PlacedIsGood(slots0, view0, item);
      var w := Decide(idle);
      PlacedIs(slots0, view0, item, w);
      if !w.Reject? {
        Settle(w, Item(idle, key));
      }
    }

    method Decide(idle: nat) returns (w: Way)
      requires slots.Length == SIZE
      ensures w == Choose(View(), idle)
    {
      var j := Search(idle);
      if j == 0 && slots[0].item.key != 0 && slots[SIZE - 1].item.key != 0 {
        w := Reject;
      } else if j < SIZE && slots[j].item.key == 0 {
        w := Into(j);
      } else if slots[SIZE - 1].item.key == 0 {
        w := Right(j);
      } else {
        w := Left(j - 1);
      }
    }

    method Settle(w: Way, item: Item)
      requires slots.Length == SIZE && Owned() && !w.Reject? && w.j < SIZE
      modifies slots, entries
      ensures Owned() && slots[..] == Shift(old(slots[..]), w)
      ensures View() == Write(slots[..], Shift(old(View()), w), w.j, item)
    {
      Move(w);
      Put(w.j, item);
    }

    /** One scan of performEvictions over the pool, for a cache holding `keys`. */
    method Victim(keys: set<Key>) returns (victim: Option<Key>)
      requires Valid()
      modifies entries
      ensures Valid() && slots[..] == old(slots[..])
      ensures View() == Scan(old(slots[..]), old(View()), keys, SIZE).0
      ensures victim == Scan(old(slots[..]), old(View()), keys, SIZE).1
      ensures RightVictim(old(View()), keys, victim)
    {
      ScanIsGood(slots[..], View(), keys, SIZE);
      ScanVictim(slots[..], View(), keys, SIZE);
      var k: nat := SIZE;
      while k > 0
        invariant k <= SIZE && slots[..] == old(slots[..])
        invariant Scan(slots[..], View(), keys, k) == Scan(old(slots[..]), old(View()), keys, SIZE)
      {
        k := k - 1;
        var key := slots[k].item.key;
        if key != 0 {
          Put(k, NOTHING);
          if key in keys {
            return Some(key);
          }
        }
      }
      victim := None;
    }
  }
}
