/**
 The bucket list of the LFU caches: buckets in order of falling frequency, each with the keys of that
 frequency, newest first. A bucket is an address with fields; the buckets in the list are given by
 `order`. `at` is the pointer from a cached key to its bucket.

 What the three ways of moving a key up have in common is stated on levels: the level of a frequency
 is the list of its keys, whether there is a bucket for it or not.
 */
module LfuBuckets {

  type Key = nat
  type Id = nat      // address of a bucket

  datatype Buckets = Buckets(order: seq<Id>, fre: map<Id, nat>, keys: map<Id, seq<Key>>)

  // ---------------------------------------------------------------- key lists

  ghost predicate Distinct(list: seq<Key>) {
    forall i, j {:trigger Apart(list, i, j)} :: 0 <= i < j < |list| ==> Apart(list, i, j)
  }

  predicate Apart(list: seq<Key>, i: nat, j: nat)
    requires i < |list| && j < |list|
  {
    list[i] != list[j]
  }

  /** The list without the first occurrence of a key. */
  function Without(list: seq<Key>, k: Key): seq<Key> {
    if list == [] then [] else if list[0] == k then list[1..] else [list[0]] + Without(list[1..], k)
  }

  lemma DistinctTail(list: seq<Key>)
    requires Distinct(list) && list != []
    ensures Distinct(list[1..]) && list[0] !in list[1..]
  {
    forall i, j | 0 <= i < j < |list[1..]| ensures Apart(list[1..], i, j) {
      assert Apart(list, i + 1, j + 1);
    }
    forall j | 0 <= j < |list[1..]| ensures list[1..][j] != list[0] {
      assert Apart(list, 0, j + 1);
    }
  }

  lemma DistinctPush(list: seq<Key>, k: Key)
    requires Distinct(list) && k !in list
    ensures Distinct([k] + list)
  {
    var r := [k] + list;
    forall i, j | 0 <= i < j < |r| ensures Apart(r, i, j) {
      if i > 0 {
        assert Apart(list, i - 1, j - 1);
      }
    }
  }

  lemma {:induction false} WithoutIs(list: seq<Key>, k: Key, x: Key)
    requires Distinct(list) && k in list
    ensures x in Without(list, k) <==> x in list && x != k
    ensures |Without(list, k)| == |list| - 1
  {
    DistinctTail(list);
    assert list == [list[0]] + list[1..];
    if list[0] != k {
      WithoutIs(list[1..], k, x);
    }
  }

  lemma {:induction false} WithoutDistinct(list: seq<Key>, k: Key)
    requires Distinct(list) && k in list
    ensures Distinct(Without(list, k))
  {
    DistinctTail(list);
    if list[0] != k {
      WithoutDistinct(list[1..], k);
      WithoutIs(list[1..], k, list[0]);
      DistinctPush(Without(list[1..], k), list[0]);
    }
  }

  // ---------------------------------------------------------------- the bucket list

  /** Frequencies fall strictly from head to tail. */
  ghost predicate Ranked(b: Buckets) {
    && (forall i :: 0 <= i < |b.order| ==> b.order[i] in b.fre && b.order[i] in b.keys && b.fre[b.order[i]] >= 1)
    && (forall i, j {:trigger Above(b, i, j)} :: 0 <= i < j < |b.order| ==> Above(b, i, j))
  }

  predicate Above(b: Buckets, i: nat, j: nat)
    requires i < |b.order| && j < |b.order|
  {
    b.order[i] in b.fre && b.order[j] in b.fre && b.fre[b.order[i]] > b.fre[b.order[j]]
  }

  /** Only a last bucket of frequency 1 may be empty. */
  ghost predicate Filled(b: Buckets)
    requires Ranked(b)
  {
    forall i :: 0 <= i < |b.order| && b.keys[b.order[i]] == [] ==> i == |b.order| - 1 && b.fre[b.order[i]] == 1
  }

  /** The bucket at i holds different keys and their pointers lead to it. */
  ghost predicate Points(b: Buckets, at: map<Key, Id>, i: nat)
    requires i < |b.order|
  {
    b.order[i] in b.keys && Distinct(b.keys[b.order[i]])
    && forall k :: k in b.keys[b.order[i]] ==> k in at && at[k] == b.order[i]
  }

  /** A key is in the bucket its pointer leads to. */
  ghost predicate Filed(b: Buckets, at: map<Key, Id>, k: Key)
    requires k in at
  {
    at[k] in b.order && at[k] in b.keys && k in b.keys[at[k]]
  }

  ghost predicate Good(b: Buckets, at: map<Key, Id>) {
    && Ranked(b) && Filled(b)
    && (forall i {:trigger Points(b, at, i)} :: 0 <= i < |b.order| ==> Points(b, at, i))
    && (forall k {:trigger Filed(b, at, k)} :: k in at ==> Filed(b, at, k))
  }

  /** Different places hold different buckets. */
  lemma OneFrequency(b: Buckets, i: nat, j: nat)
    requires Ranked(b) && i < |b.order| && j < |b.order|
    ensures b.fre[b.order[i]] == b.fre[b.order[j]] <==> i == j
    ensures b.order[i] == b.order[j] <==> i == j
    ensures i < j <==> b.fre[b.order[i]] > b.fre[b.order[j]]
  {
    assert i < j ==> Above(b, i, j);
    assert j < i ==> Above(b, j, i);
  }

  ghost function Pos(order: seq<Id>, id: Id): (i: nat)
    requires id in order
    ensures i < |order| && order[i] == id
  {
    var i :| 0 <= i < |order| && order[i] == id;
    i
  }

  // ---------------------------------------------------------------- levels

  ghost predicate Has(b: Buckets, f: nat, i: int) {
    0 <= i < |b.order| && b.order[i] in b.fre && b.order[i] in b.keys && b.fre[b.order[i]] == f
  }

  /** The place of the bucket of a frequency, or -1. */
  ghost function PlaceOf(b: Buckets, f: nat): (i: int)
    ensures i >= 0 ==> Has(b, f, i)
    ensures i < 0 ==> forall j :: !Has(b, f, j)
  {
    if exists i :: Has(b, f, i) then var i :| Has(b, f, i); i else -1
  }

  /** The keys of a frequency. */
  ghost function Level(b: Buckets, f: nat): seq<Key> {
    if PlaceOf(b, f) >= 0 then b.keys[b.order[PlaceOf(b, f)]] else []
  }

  lemma LevelAt(b: Buckets, f: nat, i: nat)
    requires Ranked(b) && Has(b, f, i)
    ensures PlaceOf(b, f) == i && Level(b, f) == b.keys[b.order[i]]
  {
    OneFrequency(b, i, PlaceOf(b, f));
  }

  /** The levels hold exactly the cached keys, each at the frequency of its bucket. */
  lemma LevelHolds(b: Buckets, at: map<Key, Id>, f: nat, k: Key)
    requires Good(b, at)
    ensures k in Level(b, f) <==> k in at && at[k] in b.fre && b.fre[at[k]] == f
  {
    var i := PlaceOf(b, f);
    if i >= 0 {
      assert Points(b, at, i);
    }
    if k in at {
      assert Filed(b, at, k);
      LevelAt(b, b.fre[at[k]], Pos(b.order, at[k]));
    }
  }

  // ---------------------------------------------------------------- moving a key up one frequency

  /** A key of frequency f has been found once more: all that changes are its old and its new level. */
  ghost predicate MovedUp(b: Buckets, b': Buckets, k: Key, f: nat) {
    forall g :: Level(b', g) == Up(b, k, f, g)
  }

  ghost function Up(b: Buckets, k: Key, f: nat, g: nat): seq<Key> {
    if g == f then Without(Level(b, f), k) else if g == f + 1 then [k] + Level(b, f + 1) else Level(b, g)
  }

  /** Its bucket becomes the bucket of the next frequency: it is alone in it and there is none yet. */
  function Raise(b: Buckets, id: Id): Buckets
    requires id in b.fre
  {
    b.(fre := b.fre[id := b.fre[id] + 1])
  }

  /** A new bucket `c` for it goes before its old one. */
  function Split(b: Buckets, i: nat, k: Key, c: Id): Buckets
    requires i < |b.order| && b.order[i] in b.fre && b.order[i] in b.keys
  {
    var id := b.order[i];
    Buckets(b.order[..i] + [c] + b.order[i..], b.fre[c := b.fre[id] + 1], b.keys[id := Without(b.keys[id], k)][c := [k]])
  }

  /** It moves to the bucket before; its old bucket goes if that leaves it empty. */
  function Shift(b: Buckets, i: nat, k: Key): Buckets
    requires 0 < i < |b.order| && b.order[i] in b.keys && b.order[i - 1] in b.keys
  {
    var id, prev := b.order[i], b.order[i - 1];
    var left := Without(b.keys[id], k);
    Buckets(if left == [] then b.order[..i] + b.order[i + 1..] else b.order, b.fre,
            b.keys[id := left][prev := [k] + b.keys[prev]])
  }

  /** The key is at place i; there is no bucket of the next frequency. */
  ghost predicate Gap(b: Buckets, at: map<Key, Id>, k: Key, i: nat) {
    && Good(b, at) && i < |b.order| && k in at && at[k] == b.order[i]
    && (i == 0 || b.fre[b.order[i - 1]] > b.fre[b.order[i]] + 1)
  }

  /** The key is at place i and the bucket before is of the next frequency. */
  ghost predicate Step(b: Buckets, at: map<Key, Id>, k: Key, i: nat) {
    && Good(b, at) && 0 < i < |b.order| && k in at && at[k] == b.order[i]
    && b.fre[b.order[i - 1]] == b.fre[b.order[i]] + 1
  }

  lemma GapAbove(b: Buckets, at: map<Key, Id>, k: Key, i: nat, j: nat)
    requires Gap(b, at, k, i) && j < |b.order|
    ensures j < i ==> b.fre[b.order[j]] > b.fre[b.order[i]] + 1
    ensures i < j ==> b.fre[b.order[j]] < b.fre[b.order[i]]
  {
    OneFrequency(b, i, j);
    if j < i {
      OneFrequency(b, j, i - 1);
    }
  }

  // Raise

  lemma RaiseRanked(b: Buckets, at: map<Key, Id>, k: Key, i: nat)
    requires Gap(b, at, k, i)
    ensures Ranked(Raise(b, b.order[i]))
  {
    var b' := Raise(b, b.order[i]);
    forall x, y | 0 <= x < y < |b'.order| ensures Above(b', x, y) {
      OneFrequency(b, x, y);
      OneFrequency(b, x, i);
      OneFrequency(b, y, i);
      GapAbove(b, at, k, i, x);
    }
  }

  lemma RaiseGood(b: Buckets, at: map<Key, Id>, k: Key, i: nat)
    requires Gap(b, at, k, i) && |b.keys[b.order[i]]| == 1
    ensures Good(Raise(b, b.order[i]), at)
  {
    var b' := Raise(b, b.order[i]);
    RaiseRanked(b, at, k, i);
    forall x | 0 <= x < |b'.order| ensures Points(b', at, x) {
      assert Points(b, at, x);
    }
    forall x | x in at ensures Filed(b', at, x) {
      assert Filed(b, at, x);
    }
    forall x | 0 <= x < |b'.order| && b'.keys[b'.order[x]] == [] ensures x == |b'.order| - 1 && b'.fre[b'.order[x]] == 1 {
      OneFrequency(b, x, i);
    }
  }

  lemma OnlyKey(list: seq<Key>, k: Key)
    requires |list| == 1 && k in list
    ensures list == [k] && Without(list, k) == []
  {
  }

  lemma RaiseLevel(b: Buckets, at: map<Key, Id>, k: Key, i: nat, g: nat)
    requires Gap(b, at, k, i) && |b.keys[b.order[i]]| == 1
    ensures var b' := Raise(b, b.order[i]); var f := b.fre[b.order[i]];
      Level(b', g) == Up(b, k, f, g)
  {
    var b' := Raise(b, b.order[i]);
    var f := b.fre[b.order[i]];
    RaiseRanked(b, at, k, i);
    assert Filed(b, at, k);
    OnlyKey(b.keys[b.order[i]], k);
    LevelAt(b, f, i);
    forall x | 0 <= x < |b.order| ensures b'.fre[b.order[x]] == if x == i then f + 1 else b.fre[b.order[x]] {
      OneFrequency(b, x, i);
      GapAbove(b, at, k, i, x);
    }
    if g == f + 1 {
      LevelAt(b', g, i);
      forall x | 0 <= x < |b.order| ensures !Has(b, g, x) {
        GapAbove(b, at, k, i, x);
      }
    } else if g == f {
      forall x | 0 <= x < |b.order| ensures !Has(b', g, x) {
        OneFrequency(b, x, i);
      }
    } else {
      var x := PlaceOf(b, g);
      if x >= 0 {
        OneFrequency(b, x, i);
        LevelAt(b', g, x);
      } else {
        forall y | 0 <= y < |b.order| ensures !Has(b', g, y) {
          assert !Has(b, g, y);
        }
      }
    }
  }

  // Split

  lemma SplitAt(b: Buckets, i: nat, k: Key, c: Id, x: nat)
    requires i < |b.order| && b.order[i] in b.fre && b.order[i] in b.keys && x <= |b.order|
    ensures Split(b, i, k, c).order[x] == if x < i then b.order[x] else if x == i then c else b.order[x - 1]
  {
  }

  /** Where a place of the longer list was in the shorter one. */
  function Shrink(i: nat, x: nat): nat {
    if x <= i then x else x - 1
  }

  lemma SplitRanked(b: Buckets, at: map<Key, Id>, k: Key, i: nat, c: Id)
    requires Gap(b, at, k, i) && c !in b.order
    ensures Ranked(Split(b, i, k, c))
  {
    var b' := Split(b, i, k, c);
    forall x | 0 <= x < |b'.order|
      ensures b'.order[x] in b'.fre && b'.order[x] in b'.keys && b'.fre[b'.order[x]] >= 1
    {
      SplitAt(b, i, k, c, x);
    }
    forall x, y | 0 <= x < y < |b'.order| ensures Above(b', x, y) {
      SplitAt(b, i, k, c, x);
      SplitAt(b, i, k, c, y);
      if x == i {
        OneFrequency(b, i, y - 1);
      } else if y == i {
        GapAbove(b, at, k, i, x);
      } else {
        OneFrequency(b, Shrink(i, x), Shrink(i, y));
      }
    }
  }

  lemma SplitPoints(b: Buckets, at: map<Key, Id>, k: Key, i: nat, c: Id, x: nat)
    requires Gap(b, at, k, i) && c !in b.order && x <= |b.order|
    ensures Points(Split(b, i, k, c), at[k := c], x)
  {
    SplitAt(b, i, k, c, x);
    var y := Shrink(i, x);
    assert Filed(b, at, k);
    if x == i {
      assert Distinct([k]);
    } else {
      assert Points(b, at, y);
      OneFrequency(b, y, i);
      if y == i {
        WithoutDistinct(b.keys[b.order[i]], k);
        forall z | z in Without(b.keys[b.order[i]], k) ensures z in b.keys[b.order[i]] && z != k {
          WithoutIs(b.keys[b.order[i]], k, z);
        }
      }
    }
  }

  lemma SplitFiled(b: Buckets, at: map<Key, Id>, k: Key, i: nat, c: Id, z: Key)
    requires Gap(b, at, k, i) && c !in b.order && (z in at || z == k)
    ensures Filed(Split(b, i, k, c), at[k := c], z)
  {
    var b' := Split(b, i, k, c);
    if z == k {
      SplitAt(b, i, k, c, i);
      assert b'.order[i] == c;
    } else {
      assert Filed(b, at, z) && Filed(b, at, k);
      assert Points(b, at, i);
      var x := Pos(b.order, at[z]);
      SplitAt(b, i, k, c, if x < i then x else x + 1);
      if at[z] == at[k] {
        WithoutIs(b.keys[at[k]], k, z);
      }
    }
  }

  lemma SplitGood(b: Buckets, at: map<Key, Id>, k: Key, i: nat, c: Id)
    requires Gap(b, at, k, i) && c !in b.order && |b.keys[b.order[i]]| != 1
    ensures Good(Split(b, i, k, c), at[k := c])
  {
    var b' := Split(b, i, k, c);
    SplitRanked(b, at, k, i, c);
    var at' := at[k := c];
    forall x | 0 <= x < |b'.order| ensures Points(b', at', x) {
      SplitPoints(b, at, k, i, c, x);
    }
    forall z | z in at' ensures Filed(b', at', z) {
      SplitFiled(b, at, k, i, c, z);
    }
    assert Filed(b, at, k) && Points(b, at, i);
    WithoutIs(b.keys[b.order[i]], k, k);
    forall x | 0 <= x < |b'.order| && b'.keys[b'.order[x]] == [] ensures x == |b'.order| - 1 && b'.fre[b'.order[x]] == 1 {
      SplitAt(b, i, k, c, x);
      OneFrequency(b, Shrink(i, x), i);
    }
  }

  lemma SplitLevel(b: Buckets, at: map<Key, Id>, k: Key, i: nat, c: Id, g: nat)
    requires Gap(b, at, k, i) && c !in b.order
    ensures var b' := Split(b, i, k, c); var f := b.fre[b.order[i]];
      Level(b', g) == Up(b, k, f, g)
  {
    var b' := Split(b, i, k, c);
    var f := b.fre[b.order[i]];
    SplitRanked(b, at, k, i, c);
    LevelAt(b, f, i);
    SplitAt(b, i, k, c, i);
    SplitAt(b, i, k, c, i + 1);
    if g == f + 1 {
      LevelAt(b', g, i);
      forall x | 0 <= x < |b.order| ensures !Has(b, g, x) {
        GapAbove(b, at, k, i, x);
      }
    } else if g == f {
      LevelAt(b', g, i + 1);
    } else {
      SplitOtherLevel(b, at, k, i, c, g);
    }
  }

  lemma SplitOtherLevel(b: Buckets, at: map<Key, Id>, k: Key, i: nat, c: Id, g: nat)
    requires Gap(b, at, k, i) && c !in b.order && g != b.fre[b.order[i]] && g != b.fre[b.order[i]] + 1
    ensures Level(Split(b, i, k, c), g) == Level(b, g)
  {
    var b' := Split(b, i, k, c);
    SplitRanked(b, at, k, i, c);
    var x := PlaceOf(b, g);
    if x >= 0 {
      OneFrequency(b, x, i);
      var y := if x < i then x else x + 1;
      SplitAt(b, i, k, c, y);
      LevelAt(b', g, y);
    } else {
      forall y | 0 <= y < |b'.order| ensures !Has(b', g, y) {
        SplitAt(b, i, k, c, y);
        assert y != i ==> !Has(b, g, Shrink(i, y));
      }
    }
  }

  // Shift

  /** Places before and after the old bucket has gone, if it has. */
  function Grow(gone: bool, i: nat, x: nat): nat {
    if gone && x >= i then x + 1 else x
  }

  predicate Gone(b: Buckets, i: nat, k: Key)
    requires i < |b.order| && b.order[i] in b.keys
  {
    Without(b.keys[b.order[i]], k) == []
  }

  lemma ShiftAt(b: Buckets, i: nat, k: Key, x: nat)
    requires 0 < i < |b.order| && b.order[i] in b.keys && b.order[i - 1] in b.keys
    requires x < |b.order| - (if Gone(b, i, k) then 1 else 0)
    ensures |Shift(b, i, k).order| == |b.order| - (if Gone(b, i, k) then 1 else 0)
    ensures Shift(b, i, k).order[x] == b.order[Grow(Gone(b, i, k), i, x)]
  {
  }

  lemma ShiftRanked(b: Buckets, at: map<Key, Id>, k: Key, i: nat)
    requires Step(b, at, k, i)
    ensures Ranked(Shift(b, i, k))
  {
    var b' := Shift(b, i, k);
    forall x | 0 <= x < |b'.order|
      ensures b'.order[x] in b'.fre && b'.order[x] in b'.keys && b'.fre[b'.order[x]] >= 1
    {
      ShiftAt(b, i, k, x);
    }
    forall x, y | 0 <= x < y < |b'.order| ensures Above(b', x, y) {
      ShiftAt(b, i, k, x);
      ShiftAt(b, i, k, y);
      OneFrequency(b, Grow(Gone(b, i, k), i, x), Grow(Gone(b, i, k), i, y));
    }
  }

  /** What the bucket at a place of the old list holds afterwards. */
  lemma ShiftKeys(b: Buckets, at: map<Key, Id>, k: Key, i: nat, x: nat)
    requires Step(b, at, k, i) && x < |b.order|
    ensures b.order[x] in Shift(b, i, k).keys
    ensures Shift(b, i, k).keys[b.order[x]] ==
            if x == i then Without(b.keys[b.order[i]], k)
            else if x == i - 1 then [k] + b.keys[b.order[x]] else b.keys[b.order[x]]
  {
    OneFrequency(b, x, i);
    OneFrequency(b, x, i - 1);
  }

  lemma ShiftPoints(b: Buckets, at: map<Key, Id>, k: Key, i: nat, x: nat)
    requires Step(b, at, k, i) && x < |Shift(b, i, k).order|
    ensures Points(Shift(b, i, k), at[k := b.order[i - 1]], x)
  {
    ShiftAt(b, i, k, x);
    var y := Grow(Gone(b, i, k), i, x);
    ShiftKeys(b, at, k, i, y);
    assert Filed(b, at, k) && Points(b, at, y);
    OneFrequency(b, y, i);
    if y == i {
      WithoutDistinct(b.keys[b.order[i]], k);
      forall z | z in Without(b.keys[b.order[i]], k) ensures z in b.keys[b.order[i]] && z != k {
        WithoutIs(b.keys[b.order[i]], k, z);
      }
    } else if y == i - 1 {
      DistinctPush(b.keys[b.order[y]], k);
    }
  }

  lemma ShiftFiled(b: Buckets, at: map<Key, Id>, k: Key, i: nat, z: Key)
    requires Step(b, at, k, i) && (z in at || z == k)
    ensures Filed(Shift(b, i, k), at[k := b.order[i - 1]], z)
  {
    var b' := Shift(b, i, k);
    assert Filed(b, at, k) && Points(b, at, i);
    if z == k {
      ShiftKeys(b, at, k, i, i - 1);
      ShiftAt(b, i, k, i - 1);
      assert b'.order[i - 1] == b.order[i - 1];
    } else {
      assert Filed(b, at, z);
      var x := Pos(b.order, at[z]);
      ShiftKeys(b, at, k, i, x);
      OneFrequency(b, x, i);
      if x == i {
        WithoutIs(b.keys[at[k]], k, z);
      }
      ShiftAt(b, i, k, if Gone(b, i, k) && x > i then x - 1 else x);
    }
  }

  lemma ShiftGood(b: Buckets, at: map<Key, Id>, k: Key, i: nat)
    requires Step(b, at, k, i)
    ensures Good(Shift(b, i, k), at[k := b.order[i - 1]])
  {
    var b', at' := Shift(b, i, k), at[k := b.order[i - 1]];
    ShiftRanked(b, at, k, i);
    forall x | 0 <= x < |b'.order| ensures Points(b', at', x) {
      ShiftPoints(b, at, k, i, x);
    }
    forall z | z in at' ensures Filed(b', at', z) {
      ShiftFiled(b, at, k, i, z);
    }
    forall x | 0 <= x < |b'.order| && b'.keys[b'.order[x]] == [] ensures x == |b'.order| - 1 && b'.fre[b'.order[x]] == 1 {
      ShiftAt(b, i, k, x);
      ShiftKeys(b, at, k, i, Grow(Gone(b, i, k), i, x));
    }
  }

  lemma ShiftLevel(b: Buckets, at: map<Key, Id>, k: Key, i: nat, g: nat)
    requires Step(b, at, k, i)
    ensures var b' := Shift(b, i, k); var f := b.fre[b.order[i]];
      Level(b', g) == Up(b, k, f, g)
  {
    var b' := Shift(b, i, k);
    ShiftRanked(b, at, k, i);
    var gone := Gone(b, i, k);
    var x := PlaceOf(b, g);
    if x >= 0 && !(x == i && gone) {
      ShiftKeys(b, at, k, i, x);
      OneFrequency(b, x, i);
      OneFrequency(b, x, i - 1);
      var y := if gone && x > i then x - 1 else x;
      ShiftAt(b, i, k, y);
      LevelAt(b', g, y);
      LevelAt(b, g, x);
    } else {
      forall y | 0 <= y < |b'.order| ensures !Has(b', g, y) {
        ShiftAt(b, i, k, y);
        assert x < 0 ==> !Has(b, g, Grow(gone, i, y));
        OneFrequency(b, Grow(gone, i, y), i);
      }
      if x >= 0 {
        LevelAt(b, g, i);
      } else {
        assert !Has(b, g, i) && !Has(b, g, i - 1);
      }
    }
  }

  /** All three ways move the key up and nothing else. */
  lemma RaiseMovedUp(b: Buckets, at: map<Key, Id>, k: Key, i: nat)
    requires Gap(b, at, k, i) && |b.keys[b.order[i]]| == 1
    ensures MovedUp(b, Raise(b, b.order[i]), k, b.fre[b.order[i]])
  {
    var b', f := Raise(b, b.order[i]), b.fre[b.order[i]];
    forall g: nat ensures Level(b', g) == Up(b, k, f, g) {
      RaiseLevel(b, at, k, i, g);
    }
  }

  lemma SplitMovedUp(b: Buckets, at: map<Key, Id>, k: Key, i: nat, c: Id)
    requires Gap(b, at, k, i) && c !in b.order
    ensures MovedUp(b, Split(b, i, k, c), k, b.fre[b.order[i]])
  {
    var b', f := Split(b, i, k, c), b.fre[b.order[i]];
    forall g: nat ensures Level(b', g) == Up(b, k, f, g) {
      SplitLevel(b, at, k, i, c, g);
    }
  }

  lemma ShiftMovedUp(b: Buckets, at: map<Key, Id>, k: Key, i: nat)
    requires Step(b, at, k, i)
    ensures MovedUp(b, Shift(b, i, k), k, b.fre[b.order[i]])
  {
    var b', f := Shift(b, i, k), b.fre[b.order[i]];
    forall g: nat ensures Level(b', g) == Up(b, k, f, g) {
      ShiftLevel(b, at, k, i, g);
    }
  }

  // ---------------------------------------------------------------- a new key, and the oldest

  ghost predicate EndsAtOne(b: Buckets) {
    b.order != [] && b.order[|b.order| - 1] in b.fre && b.order[|b.order| - 1] in b.keys && b.fre[b.order[|b.order| - 1]] == 1
  }

  /** The bucket a new key goes to: the last one if it is of frequency 1, else a new one. */
  function Join(b: Buckets, k: Key): Buckets
    requires b.order != [] && b.order[|b.order| - 1] in b.keys
  {
    var last := b.order[|b.order| - 1];
    b.(keys := b.keys[last := [k] + b.keys[last]])
  }

  function Found(b: Buckets, k: Key, c: Id): Buckets {
    Buckets(b.order + [c], b.fre[c := 1], b.keys[c := [k]])
  }

  lemma JoinKeys(b: Buckets, k: Key, x: nat)
    requires Ranked(b) && EndsAtOne(b) && x < |b.order|
    ensures b.order[x] in Join(b, k).keys
    ensures Join(b, k).keys[b.order[x]] == if x == |b.order| - 1 then [k] + b.keys[b.order[x]] else b.keys[b.order[x]]
  {
    OneFrequency(b, x, |b.order| - 1);
  }

  lemma JoinGood(b: Buckets, at: map<Key, Id>, k: Key)
    requires Good(b, at) && EndsAtOne(b) && k !in at
    ensures Good(Join(b, k), at[k := b.order[|b.order| - 1]])
  {
    var last := |b.order| - 1;
    var b', at' := Join(b, k), at[k := b.order[last]];
    forall x, y | 0 <= x < y < |b'.order| ensures Above(b', x, y) {
      OneFrequency(b, x, y);
    }
    forall x | 0 <= x < |b'.order| ensures Points(b', at', x) {
      JoinKeys(b, k, x);
      assert Points(b, at, x);
      if x == last {
        DistinctPush(b.keys[b.order[x]], k);
      }
    }
    forall z | z in at' ensures Filed(b', at', z) {
      assert z != k ==> Filed(b, at, z);
    }
    forall x | 0 <= x < |b'.order| ensures b'.keys[b'.order[x]] != [] {
      JoinKeys(b, k, x);
    }
  }

  lemma JoinLevel(b: Buckets, at: map<Key, Id>, k: Key, g: nat)
    requires Good(b, at) && EndsAtOne(b) && k !in at
    ensures Level(Join(b, k), g) == if g == 1 then [k] + Level(b, 1) else Level(b, g)
  {
    JoinGood(b, at, k);
    var b', last := Join(b, k), |b.order| - 1;
    LevelAt(b, 1, last);
    LevelAt(b', 1, last);
    var x := PlaceOf(b, g);
    if x >= 0 {
      JoinKeys(b, k, x);
      OneFrequency(b, x, last);
      LevelAt(b', g, x);
    } else {
      forall y | 0 <= y < |b'.order| ensures !Has(b', g, y) {
        assert !Has(b, g, y);
      }
    }
  }

  lemma FoundGood(b: Buckets, at: map<Key, Id>, k: Key, c: Id)
    requires Good(b, at) && !EndsAtOne(b) && k !in at && c !in b.order
    ensures Good(Found(b, k, c), at[k := c])
  {
    var b', at' := Found(b, k, c), at[k := c];
    forall x, y | 0 <= x < y < |b'.order| ensures Above(b', x, y) {
      if y < |b.order| {
        OneFrequency(b, x, y);
      } else {
        OneFrequency(b, x, |b.order| - 1);
      }
    }
    forall x | 0 <= x < |b'.order| ensures Points(b', at', x) {
      if x < |b.order| {
        assert Points(b, at, x);
      } else {
        assert Distinct([k]);
      }
    }
    forall z | z in at' ensures Filed(b', at', z) {
      if z == k {
        assert b'.order[|b.order|] == c;
      } else {
        assert Filed(b, at, z);
        assert b'.order[Pos(b.order, at[z])] == at[z];
      }
    }
  }

  lemma FoundLevel(b: Buckets, at: map<Key, Id>, k: Key, c: Id, g: nat)
    requires Good(b, at) && !EndsAtOne(b) && k !in at && c !in b.order
    ensures Level(Found(b, k, c), g) == if g == 1 then [k] + Level(b, 1) else Level(b, g)
  {
    FoundGood(b, at, k, c);
    var b' := Found(b, k, c);
    LevelAt(b', 1, |b.order|);
    if g == 1 {
      forall x | 0 <= x < |b.order| ensures !Has(b, 1, x) {
        OneFrequency(b, x, |b.order| - 1);
      }
    } else {
      var x := PlaceOf(b, g);
      if x >= 0 {
        LevelAt(b', g, x);
      } else {
        forall y | 0 <= y < |b'.order| ensures !Has(b', g, y) {
          assert y < |b.order| ==> !Has(b, g, y);
        }
      }
    }
  }

  /** The oldest key of the last bucket goes; the bucket stays. */
  function Drop(b: Buckets): Buckets
    requires b.order != [] && b.order[|b.order| - 1] in b.keys && b.keys[b.order[|b.order| - 1]] != []
  {
    var last := b.order[|b.order| - 1];
    b.(keys := b.keys[last := b.keys[last][..|b.keys[last]| - 1]])
  }

  function Oldest(b: Buckets): Key
    requires b.order != [] && b.order[|b.order| - 1] in b.keys && b.keys[b.order[|b.order| - 1]] != []
  {
    var list := b.keys[b.order[|b.order| - 1]];
    list[|list| - 1]
  }

  lemma DropLastIs(list: seq<Key>, z: Key)
    requires Distinct(list) && list != []
    ensures Distinct(list[..|list| - 1]) && (z in list[..|list| - 1] <==> z in list && z != list[|list| - 1])
  {
    var r := list[..|list| - 1];
    forall i, j | 0 <= i < j < |r| ensures Apart(r, i, j) {
      assert Apart(list, i, j);
    }
    forall i | 0 <= i < |r| ensures r[i] != list[|list| - 1] {
      assert Apart(list, i, |list| - 1);
    }
    assert list == r + [list[|list| - 1]];
  }

  lemma DropKeys(b: Buckets, x: nat)
    requires Ranked(b) && EndsAtOne(b) && b.keys[b.order[|b.order| - 1]] != [] && x < |b.order|
    ensures b.order[x] in Drop(b).keys
    ensures var list := b.keys[b.order[x]];
            Drop(b).keys[b.order[x]] == if x == |b.order| - 1 then list[..|list| - 1] else list
  {
    OneFrequency(b, x, |b.order| - 1);
  }

  lemma DropFiled(b: Buckets, at: map<Key, Id>, z: Key)
    requires Good(b, at) && EndsAtOne(b) && b.keys[b.order[|b.order| - 1]] != [] && z in at && z != Oldest(b)
    ensures Filed(Drop(b), at - {Oldest(b)}, z)
  {
    assert Filed(b, at, z);
    var x := Pos(b.order, at[z]);
    DropKeys(b, x);
    assert Points(b, at, x);
    DropLastIs(b.keys[b.order[x]], z);
  }

  lemma DropGood(b: Buckets, at: map<Key, Id>)
    requires Good(b, at) && EndsAtOne(b) && b.keys[b.order[|b.order| - 1]] != []
    ensures Good(Drop(b), at - {Oldest(b)}) && Oldest(b) in at
  {
    var last := |b.order| - 1;
    var list := b.keys[b.order[last]];
    var b', at' := Drop(b), at - {Oldest(b)};
    assert Points(b, at, last);
    assert list[|list| - 1] in list;
    forall x, y | 0 <= x < y < |b'.order| ensures Above(b', x, y) {
      OneFrequency(b, x, y);
    }
    forall x | 0 <= x < |b'.order| ensures Points(b', at', x) {
      DropPoints(b, at, x);
    }
    forall z | z in at' ensures Filed(b', at', z) {
      DropFiled(b, at, z);
    }
    forall x | 0 <= x < |b'.order| && b'.keys[b'.order[x]] == [] ensures x == |b'.order| - 1 && b'.fre[b'.order[x]] == 1 {
      DropKeys(b, x);
    }
  }

  lemma DropPoints(b: Buckets, at: map<Key, Id>, x: nat)
    requires Good(b, at) && EndsAtOne(b) && b.keys[b.order[|b.order| - 1]] != [] && x < |b.order|
    ensures Points(Drop(b), at - {Oldest(b)}, x)
  {
    var last := |b.order| - 1;
    DropKeys(b, x);
    assert Points(b, at, x) && Points(b, at, last);
    var list := b.keys[b.order[x]];
    OneFrequency(b, x, last);
    if x == last {
      DropLastIs(list, 0);
      var at' := at - {Oldest(b)};
      forall z | z in Drop(b).keys[b.order[x]] ensures z in at' && at'[z] == b.order[x] {
        DropLastIs(list, z);
      }
    } else {
      var end := b.keys[b.order[last]];
      assert end[|end| - 1] in end;
    }
  }

  lemma DropLevel(b: Buckets, at: map<Key, Id>, g: nat)
    requires Good(b, at) && EndsAtOne(b) && b.keys[b.order[|b.order| - 1]] != []
    ensures var list := Level(b, 1);
      && list != [] && list[|list| - 1] == Oldest(b)
      && Level(Drop(b), g) == if g == 1 then list[..|list| - 1] else Level(b, g)
  {
    DropGood(b, at);
    var b', last := Drop(b), |b.order| - 1;
    LevelAt(b, 1, last);
    LevelAt(b', 1, last);
    var x := PlaceOf(b, g);
    if x >= 0 {
      DropKeys(b, x);
      OneFrequency(b, x, last);
      LevelAt(b', g, x);
    } else {
      forall y | 0 <= y < |b'.order| ensures !Has(b', g, y) {
        assert !Has(b, g, y);
      }
    }
  }

  // ---------------------------------------------------------------- find and insert as a whole

  /** The steps of find on the key `k` in the bucket at place i: the buckets and the key's bucket afterwards. */
  function Promote(b: Buckets, i: nat, k: Key, c: Id): (Buckets, Id)
    requires i < |b.order| && b.order[i] in b.fre && b.order[i] in b.keys
    requires i > 0 ==> b.order[i - 1] in b.fre && b.order[i - 1] in b.keys
  {
    if i == 0 || b.fre[b.order[i - 1]] > b.fre[b.order[i]] + 1 then
      if |b.keys[b.order[i]]| == 1 then (Raise(b, b.order[i]), b.order[i]) else (Split(b, i, k, c), c)
    else (Shift(b, i, k), b.order[i - 1])
  }

  /** Outside its list and the new bucket, nothing is touched. */
  ghost predicate Frame(b: Buckets, b': Buckets, c: Id) {
    && (forall x :: 0 <= x < |b'.order| ==> b'.order[x] in b.order || b'.order[x] == c)
    && (forall id :: id in b.keys && id !in b.order && id != c ==> id in b'.keys && b'.keys[id] == b.keys[id])
    && (forall id :: id in b.fre && id !in b.order && id != c ==> id in b'.fre && b'.fre[id] == b.fre[id])
  }

  lemma PromoteGood(b: Buckets, at: map<Key, Id>, i: nat, k: Key, c: Id)
    requires Good(b, at) && i < |b.order| && k in at && at[k] == b.order[i] && c !in b.order
    ensures var (b', id) := Promote(b, i, k, c); Good(b', at[k := id]) && MovedUp(b, b', k, b.fre[b.order[i]])
  {
    if i == 0 || b.fre[b.order[i - 1]] > b.fre[b.order[i]] + 1 {
      if |b.keys[b.order[i]]| == 1 {
        RaiseGood(b, at, k, i);
        RaiseMovedUp(b, at, k, i);
        assert at[k := b.order[i]] == at;
      } else {
        SplitGood(b, at, k, i, c);
        SplitMovedUp(b, at, k, i, c);
      }
    } else {
      OneFrequency(b, i - 1, i);
      ShiftGood(b, at, k, i);
      ShiftMovedUp(b, at, k, i);
    }
  }

  lemma PromoteFrame(b: Buckets, i: nat, k: Key, c: Id)
    requires Ranked(b) && i < |b.order|
    ensures Frame(b, Promote(b, i, k, c).0, c) && Promote(b, i, k, c).0.order != []
  {
    var b' := Promote(b, i, k, c).0;
    forall x | 0 <= x < |b'.order| ensures b'.order[x] in b.order || b'.order[x] == c {
    }
  }

  /** The steps of insert on a new key. */
  function Enter(b: Buckets, k: Key, c: Id): (Buckets, Id)
    requires b.order != [] ==> b.order[|b.order| - 1] in b.fre && b.order[|b.order| - 1] in b.keys
  {
    if b.order != [] && b.fre[b.order[|b.order| - 1]] == 1 then (Join(b, k), b.order[|b.order| - 1])
    else (Found(b, k, c), c)
  }

  lemma EnterGood(b: Buckets, at: map<Key, Id>, k: Key, c: Id)
    requires Good(b, at) && k !in at && c !in b.order
    ensures var (b', id) := Enter(b, k, c);
      Good(b', at[k := id]) && Frame(b, b', c) && EndsAtOne(b') && k in b'.keys[b'.order[|b'.order| - 1]]
  {
    if b.order != [] && b.fre[b.order[|b.order| - 1]] == 1 {
      JoinGood(b, at, k);
    } else {
      FoundGood(b, at, k, c);
    }
  }

  lemma DropFrame(b: Buckets, c: Id)
    requires Ranked(b) && EndsAtOne(b) && b.keys[b.order[|b.order| - 1]] != []
    ensures Frame(b, Drop(b), c) && Drop(b).order == b.order
  {
  }

  /** A new key comes first on level 1; the other levels stay. */
  ghost predicate AddedTo(b: Buckets, b': Buckets, k: Key) {
    forall g :: Level(b', g) == if g == 1 then [k] + Level(b, 1) else Level(b, g)
  }

  ghost predicate DroppedFrom(b: Buckets, b': Buckets) {
    var list := Level(b, 1);
    list != [] && forall g :: Level(b', g) == if g == 1 then list[..|list| - 1] else Level(b, g)
  }

  lemma EnterIs(b: Buckets, at: map<Key, Id>, k: Key, c: Id)
    requires Good(b, at) && k !in at && c !in b.order
    ensures AddedTo(b, Enter(b, k, c).0, k)
  {
    var b' := Enter(b, k, c).0;
    forall g: nat ensures Level(b', g) == if g == 1 then [k] + Level(b, 1) else Level(b, g) {
      if b.order != [] && b.fre[b.order[|b.order| - 1]] == 1 {
        JoinLevel(b, at, k, g);
      } else {
        FoundLevel(b, at, k, c, g);
      }
    }
  }

  lemma DropIs(b: Buckets, at: map<Key, Id>)
    requires Good(b, at) && EndsAtOne(b) && b.keys[b.order[|b.order| - 1]] != []
    ensures DroppedFrom(b, Drop(b)) && Oldest(b) == Level(b, 1)[|Level(b, 1)| - 1]
  {
    DropLevel(b, at, 1);
    forall g: nat ensures Level(Drop(b), g) == if g == 1 then Level(b, 1)[..|Level(b, 1)| - 1] else Level(b, g) {
      DropLevel(b, at, g);
    }
  }

  // ---------------------------------------------------------------- addresses

  /** All buckets have been allocated. */
  ghost predicate Below(ids: seq<Id>, next: Id) {
    forall i :: 0 <= i < |ids| ==> ids[i] < next
  }

  lemma NewAddress(ids: seq<Id>, next: Id)
    requires Below(ids, next)
    ensures next !in ids
  {
  }

  lemma PromoteBelow(b: Buckets, i: nat, k: Key, c: Id)
    requires Ranked(b) && i < |b.order| && Below(b.order, c)
    ensures Below(Promote(b, i, k, c).0.order, c + 1)
  {
    PromoteFrame(b, i, k, c);
    var b' := Promote(b, i, k, c).0;
    forall x | 0 <= x < |b'.order| ensures b'.order[x] < c + 1 {
      if b'.order[x] != c {
        assert b'.order[x] == b.order[Pos(b.order, b'.order[x])];
      }
    }
  }

  lemma EnterBelow(b: Buckets, k: Key, c: Id)
    requires Below(b.order, c) && (b.order != [] ==> b.order[|b.order| - 1] in b.fre && b.order[|b.order| - 1] in b.keys)
    ensures Below(Enter(b, k, c).0.order, c + 1)
  {
  }

  /** Where a bucket is in the list; the source has a pointer to it and to its neighbours. */
  method Locate(order: seq<Id>, id: Id) returns (i: nat)
    requires id in order
    ensures i < |order| && order[i] == id
  {
    i :| 0 <= i < |order| && order[i] == id;
  }
}
