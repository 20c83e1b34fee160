/**
 The freezable LFU cache. Freezing cuts the most frequent buckets off the list (FC) and copies their
 keys into a fast hash that finds are answered from; the rest of the list (DC) goes on as an LFU.
 Thawing gives the FC buckets new frequencies above those of the DC and puts them back in front. Each
 call is one step. `b` has the DC list and the fields of all buckets, `fast` is the FC list.
 */
module LfuFreeze {
  import opened Options
  import opened LfuBuckets

  // ---------------------------------------------------------------- the frozen part

  ghost predicate Fast(b: Buckets, fast: seq<Id>, at: map<Key, Id>, hot: set<Key>) {
    && FastList(b, fast)
    && (forall x {:trigger FastPoints(b, fast, at, hot, x)} :: 0 <= x < |fast| ==> FastPoints(b, fast, at, hot, x))
    && (forall k {:trigger FastFiled(b, fast, at, k)} :: k in hot ==> FastFiled(b, fast, at, k))
  }

  /** Buckets of their own, none empty but perhaps the very last of all. */
  ghost predicate FastList(b: Buckets, fast: seq<Id>) {
    && (forall x, y {:trigger Apart(fast, x, y)} :: 0 <= x < y < |fast| ==> Apart(fast, x, y))
    && (forall x :: 0 <= x < |fast| ==> fast[x] in b.fre && fast[x] in b.keys && fast[x] !in b.order)
    && (forall x :: 0 <= x < |fast| && b.keys[fast[x]] == [] ==> x == |fast| - 1 && b.order == [])
  }

  /** The keys of an FC bucket are different, hot, and point to it. */
  ghost predicate FastPoints(b: Buckets, fast: seq<Id>, at: map<Key, Id>, hot: set<Key>, x: nat)
    requires x < |fast|
  {
    fast[x] in b.keys && Distinct(b.keys[fast[x]])
    && forall k :: k in b.keys[fast[x]] ==> k in hot && k in at && at[k] == fast[x]
  }

  ghost predicate FastFiled(b: Buckets, fast: seq<Id>, at: map<Key, Id>, k: Key) {
    k in at && at[k] in fast && at[k] in b.keys && k in b.keys[at[k]]
  }

  /** The DC is an LFU of the keys that are not hot. */
  ghost predicate Divided(b: Buckets, fast: seq<Id>, at: map<Key, Id>, hot: set<Key>) {
    Good(b, at - hot) && Fast(b, fast, at, hot)
  }

  /** Nothing of the FC has been touched. */
  lemma FastFrame(b: Buckets, b': Buckets, fast: seq<Id>, at: map<Key, Id>, at': map<Key, Id>, hot: set<Key>)
    requires Fast(b, fast, at, hot)
    requires forall x :: 0 <= x < |fast| ==> fast[x] in b'.fre && fast[x] in b'.keys && b'.keys[fast[x]] == b.keys[fast[x]] && fast[x] !in b'.order
    requires b.order == [] ==> b'.order == []
    requires forall x :: 0 <= x < |fast| && b.keys[fast[x]] == [] ==> b.order == []
    requires forall k :: k in hot ==> k in at && k in at' && at'[k] == at[k]
    ensures Fast(b', fast, at', hot)
  {
    forall x | 0 <= x < |fast| ensures FastPoints(b', fast, at', hot, x) {
      assert FastPoints(b, fast, at, hot, x);
    }
    forall k | k in hot ensures FastFiled(b', fast, at', k) {
      assert FastFiled(b, fast, at, k);
    }
  }

  // ---------------------------------------------------------------- cutting

  /** The keys of the first m buckets. */
  ghost function HotKeys(b: Buckets, m: nat): set<Key>
    requires Ranked(b) && m <= |b.order|
  {
    if m == 0 then {} else HotKeys(b, m - 1) + KeySet(b.keys[b.order[m - 1]])
  }

  function KeySet(list: seq<Key>): set<Key> {
    set k | k in list
  }

  /** Their number, as the construction loop counts it. */
  function Total(b: Buckets, m: nat): nat
    requires m <= |b.order| && forall i :: 0 <= i < |b.order| ==> b.order[i] in b.keys
  {
    if m == 0 then 0 else Total(b, m - 1) + |b.keys[b.order[m - 1]]|
  }

  lemma {:induction false} HotKeysIs(b: Buckets, at: map<Key, Id>, m: nat, k: Key)
    requires Good(b, at) && m <= |b.order|
    ensures k in HotKeys(b, m) <==> k in at && exists x :: 0 <= x < m && b.order[x] == at[k]
  {
    if m > 0 {
      HotKeysIs(b, at, m - 1, k);
      assert Points(b, at, m - 1);
      assert k in at ==> Filed(b, at, k);
    }
  }

  ghost function Cut(b: Buckets, m: nat): Buckets
    requires m <= |b.order|
  {
    b.(order := b.order[m..])
  }

  lemma CutRanked(b: Buckets, at: map<Key, Id>, m: nat)
    requires Good(b, at) && m <= |b.order|
    ensures Ranked(Cut(b, m)) && Filled(Cut(b, m))
  {
    var b' := Cut(b, m);
    forall x, y | 0 <= x < y < |b'.order| ensures Above(b', x, y) {
      assert Above(b, x + m, y + m);
    }
  }

  lemma CutPoints(b: Buckets, at: map<Key, Id>, m: nat, x: nat)
    requires Good(b, at) && m <= |b.order| && x < |b.order| - m
    ensures Points(Cut(b, m), at - HotKeys(b, m), x)
  {
    assert Points(b, at, x + m);
    var hot := HotKeys(b, m);
    forall k | k in b.keys[b.order[x + m]] ensures k !in hot {
      HotKeysIs(b, at, m, k);
      if k in hot {
        var y :| 0 <= y < m && b.order[y] == at[k];
        OneFrequency(b, y, x + m);
      }
    }
  }

  lemma CutFiled(b: Buckets, at: map<Key, Id>, m: nat, k: Key)
    requires Good(b, at) && m <= |b.order| && k in at && k !in HotKeys(b, m)
    ensures Filed(Cut(b, m), at - HotKeys(b, m), k)
  {
    assert Filed(b, at, k);
    HotKeysIs(b, at, m, k);
    var x := Pos(b.order, at[k]);
    assert x >= m;
    assert Cut(b, m).order[x - m] == at[k];
  }

  lemma CutGood(b: Buckets, at: map<Key, Id>, m: nat)
    requires Good(b, at) && m <= |b.order|
    ensures Good(Cut(b, m), at - HotKeys(b, m))
  {
    var b', at' := Cut(b, m), at - HotKeys(b, m);
    CutRanked(b, at, m);
    forall x | 0 <= x < |b'.order| ensures Points(b', at', x) {
      CutPoints(b, at, m, x);
    }
    forall k | k in at' ensures Filed(b', at', k) {
      CutFiled(b, at, m, k);
    }
  }

  lemma CutFastList(b: Buckets, at: map<Key, Id>, m: nat)
    requires Good(b, at) && m <= |b.order|
    ensures FastList(Cut(b, m), b.order[..m])
  {
    var b', fast := Cut(b, m), b.order[..m];
    forall x, y | 0 <= x < y < |fast| ensures Apart(fast, x, y) {
      OneFrequency(b, x, y);
    }
    forall x | 0 <= x < |fast| ensures fast[x] !in b'.order {
      forall y | 0 <= y < |b'.order| ensures b'.order[y] != fast[x] {
        OneFrequency(b, x, y + m);
      }
    }
  }

  lemma CutFast(b: Buckets, at: map<Key, Id>, m: nat)
    requires Good(b, at) && m <= |b.order|
    ensures Fast(Cut(b, m), b.order[..m], at, HotKeys(b, m))
  {
    var b', fast, hot := Cut(b, m), b.order[..m], HotKeys(b, m);
    CutFastList(b, at, m);
    forall x | 0 <= x < |fast| ensures FastPoints(b', fast, at, hot, x) {
      assert Points(b, at, x);
      forall k | k in b.keys[fast[x]] ensures k in hot {
        HotKeysIs(b, at, m, k);
      }
    }
    forall k | k in hot ensures FastFiled(b', fast, at, k) {
      HotKeysIs(b, at, m, k);
      assert Filed(b, at, k);
    }
  }

  // ---------------------------------------------------------------- thawing

  ghost predicate Renumbered(fre: map<Id, nat>, fre': map<Id, nat>, fast: seq<Id>, top: nat) {
    && (forall x :: 0 <= x < |fast| ==> fast[x] in fre' && fre'[fast[x]] == top + |fast| - x)
    && (forall id :: id in fre && id !in fast ==> id in fre' && fre'[id] == fre[id])
  }

  function Top(b: Buckets): nat {
    if b.order != [] && b.order[0] in b.fre then b.fre[b.order[0]] else 0
  }

  lemma ThawRanked(b: Buckets, fast: seq<Id>, at: map<Key, Id>, hot: set<Key>, fre': map<Id, nat>)
    requires Divided(b, fast, at, hot) && Renumbered(b.fre, fre', fast, Top(b))
    ensures Ranked(Buckets(fast + b.order, fre', b.keys))
  {
    var b', n := Buckets(fast + b.order, fre', b.keys), |fast|;
    forall x | 0 <= x < |b'.order|
      ensures b'.order[x] in b'.fre && b'.order[x] in b'.keys && b'.fre[b'.order[x]] >= 1
    {
      ThawFre(b, fast, at, hot, fre', x);
    }
    forall x, y | 0 <= x < y < |b'.order| ensures Above(b', x, y) {
      ThawFre(b, fast, at, hot, fre', x);
      ThawFre(b, fast, at, hot, fre', y);
      if y >= n {
        OneFrequency(b, 0, y - n);
        if x >= n {
          OneFrequency(b, x - n, y - n);
        }
      }
    }
  }

  lemma ThawFre(b: Buckets, fast: seq<Id>, at: map<Key, Id>, hot: set<Key>, fre': map<Id, nat>, x: nat)
    requires Divided(b, fast, at, hot) && Renumbered(b.fre, fre', fast, Top(b)) && x < |fast| + |b.order|
    ensures var id := (fast + b.order)[x];
      && id in b.keys && id in fre'
      && fre'[id] == if x < |fast| then Top(b) + |fast| - x else b.fre[b.order[x - |fast|]]
  {
    if x >= |fast| {
      var id := b.order[x - |fast|];
      forall y | 0 <= y < |fast| ensures fast[y] != id {
      }
      assert id !in fast;
    }
  }

  lemma ThawGood(b: Buckets, fast: seq<Id>, at: map<Key, Id>, hot: set<Key>, fre': map<Id, nat>)
    requires Divided(b, fast, at, hot) && Renumbered(b.fre, fre', fast, Top(b))
    ensures Good(Buckets(fast + b.order, fre', b.keys), at)
  {
    var b', n := Buckets(fast + b.order, fre', b.keys), |fast|;
    ThawRanked(b, fast, at, hot, fre');
    forall x | 0 <= x < |b'.order| ensures Points(b', at, x) {
      if x < n {
        assert FastPoints(b, fast, at, hot, x);
      } else {
        assert Points(b, at - hot, x - n);
      }
    }
    forall k | k in at ensures Filed(b', at, k) {
      if k in hot {
        assert FastFiled(b, fast, at, k);
      } else {
        assert Filed(b, at - hot, k);
      }
    }
    forall x | 0 <= x < |b'.order| && b'.keys[b'.order[x]] == [] ensures x == |b'.order| - 1 && b'.fre[b'.order[x]] == 1 {
      ThawFre(b, fast, at, hot, fre', x);
    }
  }

  lemma ThawDivided(b: Buckets, fast: seq<Id>, at: map<Key, Id>, hot: set<Key>, fre': map<Id, nat>)
    requires Divided(b, fast, at, hot) && Renumbered(b.fre, fre', fast, Top(b))
    ensures Divided(Buckets(fast + b.order, fre', b.keys), [], at, {})
  {
    ThawGood(b, fast, at, hot, fre');
    assert at - {} == at;
  }

  // ---------------------------------------------------------------- the DC goes on while frozen

  lemma DividedPromote(b: Buckets, fast: seq<Id>, at: map<Key, Id>, hot: set<Key>, i: nat, k: Key, c: Id)
    requires Divided(b, fast, at, hot) && i < |b.order| && k in at && k !in hot && at[k] == b.order[i] && c !in b.order && c !in fast
    ensures var (b', id) := Promote(b, i, k, c); Divided(b', fast, at[k := id], hot) && MovedUp(b, b', k, b.fre[b.order[i]])
  {
    var (b', id) := Promote(b, i, k, c);
    PromoteGood(b, at - hot, i, k, c);
    PromoteFrame(b, i, k, c);
    assert at[k := id] - hot == (at - hot)[k := id];
    HotFiled(b, fast, at, hot);
    FastFrame(b, b', fast, at, at[k := id], hot);
  }

  lemma HotFiled(b: Buckets, fast: seq<Id>, at: map<Key, Id>, hot: set<Key>)
    requires Fast(b, fast, at, hot)
    ensures forall k :: k in hot ==> k in at
  {
    forall k | k in hot ensures k in at {
      assert FastFiled(b, fast, at, k);
    }
  }

  lemma DividedEnter(b: Buckets, fast: seq<Id>, at: map<Key, Id>, hot: set<Key>, k: Key, c: Id)
    requires Divided(b, fast, at, hot) && k !in at && c !in b.order && c !in fast
    requires forall x :: 0 <= x < |fast| ==> b.keys[fast[x]] != []
    ensures var (b', id) := Enter(b, k, c);
      Divided(b', fast, at[k := id], hot) && EndsAtOne(b') && k in b'.keys[b'.order[|b'.order| - 1]]
  {
    var (b', id) := Enter(b, k, c);
    EnterGood(b, at - hot, k, c);
    HotFiled(b, fast, at, hot);
    assert at[k := id] - hot == (at - hot)[k := id];
    FastEnter(b, b', fast, at, at[k := id], hot, c);
  }

  lemma DividedAdds(b: Buckets, fast: seq<Id>, at: map<Key, Id>, hot: set<Key>, k: Key, c: Id)
    requires Divided(b, fast, at, hot) && k !in at && c !in b.order
    ensures AddedTo(b, Enter(b, k, c).0, k)
  {
    EnterIs(b, at - hot, k, c);
  }

  lemma FastEnter(b: Buckets, b': Buckets, fast: seq<Id>, at: map<Key, Id>, at': map<Key, Id>, hot: set<Key>, c: Id)
    requires Fast(b, fast, at, hot) && Frame(b, b', c) && c !in fast
    requires forall x :: 0 <= x < |fast| ==> b.keys[fast[x]] != []
    requires forall k :: k in hot ==> k in at && k in at' && at'[k] == at[k]
    ensures Fast(b', fast, at', hot)
  {
    forall x | 0 <= x < |fast| ensures FastPoints(b', fast, at', hot, x) {
      assert FastPoints(b, fast, at, hot, x);
    }
    forall k | k in hot ensures FastFiled(b', fast, at', k) {
      assert FastFiled(b, fast, at, k);
    }
  }

  /** The key evicted is none of the frozen ones. */
  lemma DividedDrop(b: Buckets, fast: seq<Id>, at: map<Key, Id>, hot: set<Key>)
    requires Divided(b, fast, at, hot) && EndsAtOne(b) && b.keys[b.order[|b.order| - 1]] != []
    ensures Oldest(b) in at && Oldest(b) !in hot && Divided(Drop(b), fast, at - {Oldest(b)}, hot)
  {
    DropGood(b, at - hot);
    DropFrame(b, 0);
    HotFiled(b, fast, at, hot);
    assert at - {Oldest(b)} - hot == at - hot - {Oldest(b)};
    FastFrame(b, Drop(b), fast, at, at - {Oldest(b)}, hot);
  }

  // ---------------------------------------------------------------- the cache

  /** The fast hash holds what the map holds for these keys. */
  ghost predicate Copies<V>(frozen: map<Key, V>, table: map<Key, V>) {
    forall k :: k in frozen ==> k in table && frozen[k] == table[k]
  }

  lemma BelowBoth(s: seq<Id>, t: seq<Id>, next: Id)
    requires Below(s, next) && Below(t, next)
    ensures Below(s + t, next)
  {
  }

  /** m is the least number of buckets that hold at least `fcSize` keys. */
  ghost predicate Least(b: Buckets, m: nat, fcSize: nat)
    requires m <= |b.order| && forall i :: 0 <= i < |b.order| ==> b.order[i] in b.keys
  {
    Total(b, m) >= fcSize && (m > 0 ==> Total(b, m - 1) < fcSize)
  }

  /** The inner loop of construction: one bucket's keys go to the fast hash. */
  method CopyBucket<V>(list: seq<Key>, table: map<Key, V>, frozen: map<Key, V>) returns (hash: map<Key, V>)
    requires (forall k :: k in list ==> k in table) && Copies(frozen, table)
    ensures hash.Keys == frozen.Keys + KeySet(list) && Copies(hash, table)
  {
    hash := frozen;
    var i := 0;
    while i < |list|
      invariant 0 <= i <= |list| && hash.Keys == frozen.Keys + KeySet(list[..i]) && Copies(hash, table)
    {
      hash := hash[list[i] := table[list[i]]];
      assert list[..i + 1] == list[..i] + [list[i]];
      i := i + 1;
    }
    assert list[..i] == list;
  }

  /** The outer loop of construct_ratio; it gives up where the source's assertion fails. */
  method ScanRatio<V>(b: Buckets, at: map<Key, Id>, table: map<Key, V>, fcSize: nat)
    returns (ok: bool, m: nat, hash: map<Key, V>)
    requires Good(b, at) && at.Keys == table.Keys
    ensures ok <==> fcSize == 0 || (b.order != [] && Total(b, |b.order| - 1) >= fcSize)
    ensures ok ==> m <= |b.order| && Least(b, m, fcSize) && (m > 0 ==> m < |b.order|)
    ensures ok ==> hash.Keys == HotKeys(b, m) && Copies(hash, table)
    ensures ok ==> Divided(b.(order := b.order[m..]), b.order[..m], at, hash.Keys)
  {
    var count := 0;
    m, hash := 0, map[];
    while count < fcSize
      invariant 0 <= m <= |b.order| && count == Total(b, m) && Copies(hash, table) && hash.Keys == HotKeys(b, m)
      invariant m > 0 ==> Total(b, m - 1) < fcSize && m < |b.order|
      decreases |b.order| - m
    {
      if m == |b.order| {
        return false, m, hash;
      }
      assert Points(b, at, m);
      hash := CopyBucket(b.keys[b.order[m]], table, hash);
      count := count + |b.keys[b.order[m]]|;
      m := m + 1;
      if m == |b.order| {
        return false, m, hash;
      }
    }
    TotalGrows(b, m, |b.order| - 1);
    CutGood(b, at, m);
    CutFast(b, at, m);
    ok := true;
  }

  lemma {:induction false} TotalGrows(b: Buckets, m: nat, n: int)
    requires (forall i :: 0 <= i < |b.order| ==> b.order[i] in b.keys) && n <= |b.order|
    ensures m <= n ==> Total(b, m) <= Total(b, n)
  {
    if m < n {
      TotalGrows(b, m, n - 1);
    }
  }

  /** The loops of construct_tier. */
  method ScanAll<V>(b: Buckets, at: map<Key, Id>, table: map<Key, V>) returns (hash: map<Key, V>)
    requires Good(b, at) && at.Keys == table.Keys
    ensures hash == table && Divided(b.(order := []), b.order, at, at.Keys)
  {
    var m := 0;
    hash := map[];
    while m < |b.order|
      invariant 0 <= m <= |b.order| && Copies(hash, table) && hash.Keys == HotKeys(b, m)
    {
      assert Points(b, at, m);
      hash := CopyBucket(b.keys[b.order[m]], table, hash);
      m := m + 1;
    }
    CutAll(b, at);
    CopiesAll(hash, table);
  }

  lemma CutAll(b: Buckets, at: map<Key, Id>)
    requires Good(b, at)
    ensures Divided(b.(order := []), b.order, at, HotKeys(b, |b.order|)) && HotKeys(b, |b.order|) == at.Keys
  {
    var m := |b.order|;
    CutGood(b, at, m);
    CutFast(b, at, m);
    assert b.order[..m] == b.order && b.order[m..] == [];
    AllOrNone(b.(order := []), b.order, at, HotKeys(b, m));
  }

  lemma CopiesAll<V>(hash: map<Key, V>, table: map<Key, V>)
    requires Copies(hash, table) && hash.Keys == table.Keys
    ensures hash == table
  {
  }

  /** The loop of deconstruct: from the end, each FC bucket gets a frequency above the one before. */
  method Renumber(fast: seq<Id>, fre: map<Id, nat>, top: nat) returns (fre': map<Id, nat>)
    requires forall x, y {:trigger Apart(fast, x, y)} :: 0 <= x < y < |fast| ==> Apart(fast, x, y)
    ensures Renumbered(fre, fre', fast, top)
  {
    fre' := fre;
    var i, count := |fast|, 0;
    while i > 0
      invariant 0 <= i <= |fast| && count == |fast| - i
      invariant forall x :: i <= x < |fast| ==> fast[x] in fre' && fre'[fast[x]] == top + |fast| - x
      invariant forall id :: id in fre && id !in fast ==> id in fre' && fre'[id] == fre[id]
    {
      i, count := i - 1, count + 1;
      forall x | i < x < |fast| ensures fast[x] != fast[i] {
        assert Apart(fast, i, x);
      }
      fre' := fre'[fast[i] := top + count];
    }
  }

  class FreezableLfu<V> {
    const maxSize: nat
    var size: nat
    var table: map<Key, V>
    var at: map<Key, Id>
    var b: Buckets
    var fast: seq<Id>
    var frozen: map<Key, V>
    var ready: bool
    var tier: bool
    var noInsert: bool
    var next: Id

    ghost predicate Valid()
      reads this
    {
      && at.Keys == table.Keys && size == |table| <= maxSize && Copies(frozen, table)
      && Divided(b, fast, at, frozen.Keys) && Below(b.order, next) && Below(fast, next)
      && (!ready ==> fast == [] && !tier) && (tier <==> noInsert)
      && (tier ==> b.order == []) && (fast != [] && !tier ==> b.order != [])
    }

    constructor (capacity: nat)
      ensures Valid() && table == map[] && maxSize == capacity && !ready && !noInsert && b.order == [] && fast == []
    {
      maxSize, size, table, at, next := capacity, 0, map[], map[], 0;
      b, fast, frozen := Buckets([], map[], map[]), [], map[];
      ready, tier, noInsert := false, false, false;
    }

    /** Frozen or not, a find answers what the map holds. Only a key of the DC is moved, up one frequency. */
    method Find(key: Key) returns (value: Option<V>)
      requires Valid()
      modifies this`b, this`at, this`next
      ensures Valid() && value == if key in table then Some(table[key]) else None
      ensures key !in table || key in frozen ==> b == old(b) && at == old(at)
      ensures key in table && key !in frozen ==>
        key in old(at) && old(at)[key] in old(b).fre && MovedUp(old(b), b, key, old(b).fre[old(at)[key]])
    {
      AllOrNone(b, fast, at, frozen.Keys);
      if ready {
        if key in frozen {
          return Some(frozen[key]);
        } else if tier {
          return None;
        }
      }
      if key !in table {
        return None;
      }
      Climb(key);
      return Some(table[key]);
    }

    method Climb(key: Key)
      requires Valid() && key in table && key !in frozen
      modifies this`b, this`at, this`next
      ensures Valid() && key in old(at) && old(at)[key] in old(b).fre && MovedUp(old(b), b, key, old(b).fre[old(at)[key]])
    {
      assert Filed(b, at - frozen.Keys, key);
      var i := Locate(b.order, at[key]);
      Climbs(b, fast, at, frozen.Keys, i, key, next);
      var (b', id) := Promote(b, i, key, next);
      b, at, next := b', at[key := id], next + 1;
    }

    /**
     Freezes the least number of leading buckets that hold fcSize keys. The loop's assertion holds if
     and only if the buckets before the last one hold that many, or none are asked for.
     */
    method ConstructRatio(fcSize: nat) returns (ok: bool, m: nat)
      requires Valid() && fast == []
      modifies this`b, this`fast, this`frozen, this`ready
      ensures Ranked(old(b)) && (ok <==> fcSize == 0 || (old(b).order != [] && Total(old(b), |old(b).order| - 1) >= fcSize))
      ensures !ok ==> unchanged(this)
      ensures ok ==> Valid() && ready && m <= |old(b).order| && Least(old(b), m, fcSize) && frozen.Keys == HotKeys(old(b), m)
      ensures ok ==> fast == old(b).order[..m] && b == old(b).(order := old(b).order[m..])
    {
      Thawed(b, fast, at, frozen.Keys);
      var hash;
      ok, m, hash := ScanRatio(b, at, table, fcSize);
      if ok {
        Freeze(m, hash);
      }
    }

    method Freeze(m: nat, hash: map<Key, V>)
      requires Valid() && m <= |b.order| && (m > 0 ==> m < |b.order|) && Copies(hash, table)
      requires Divided(b.(order := b.order[m..]), b.order[..m], at, hash.Keys)
      modifies this`b, this`fast, this`frozen, this`ready
      ensures Valid() && ready && frozen == hash && fast == old(b).order[..m] && b == old(b).(order := old(b).order[m..])
    {
      CutLists(m, hash);
      ready := true;
    }

    method CutLists(m: nat, hash: map<Key, V>)
      requires m <= |b.order| && Divided(b.(order := b.order[m..]), b.order[..m], at, hash.Keys) && Below(b.order, next)
      modifies this`b, this`fast, this`frozen
      ensures Divided(b, fast, at, frozen.Keys) && Below(b.order, next) && Below(fast, next) && frozen == hash
      ensures fast == old(b).order[..m] && b == old(b).(order := old(b).order[m..])
    {
      fast, b, frozen := b.order[..m], b.(order := b.order[m..]), hash;
    }

    /** Freezes everything and closes the cache for inserts. */
    method ConstructTier()
      requires Valid() && fast == []
      modifies this`b, this`fast, this`frozen, this`ready, this`tier, this`noInsert
      ensures Valid() && ready && tier && noInsert
      ensures fast == old(b).order && b.order == [] && b.fre == old(b).fre && b.keys == old(b).keys
      ensures frozen == table
    {
      Thawed(b, fast, at, frozen.Keys);
      var hash := ScanAll(b, at, table);
      fast, b, frozen, ready, tier, noInsert := b.order, b.(order := []), hash, true, true, true;
    }

    /**
     The FC goes back in front of the DC, in the same order, with new frequencies above it, and the
     cache is open again. With an empty FC nothing happens: flags set by a construction stay set.
     */
    method Deconstruct()
      requires Valid()
      modifies this`b, this`fast, this`frozen, this`ready, this`tier, this`noInsert
      ensures Valid()
      ensures old(fast) == [] ==> unchanged(this)
      ensures old(fast) != [] ==> fast == [] && frozen == map[] && !ready && !tier && !noInsert
      ensures old(fast) != [] ==> b.order == old(fast) + old(b).order && b.keys == old(b).keys
      ensures old(fast) != [] ==> Renumbered(old(b).fre, b.fre, old(fast), Top(old(b)))
    {
      if fast == [] {
        return;
      }
      var fre' := Renumber(fast, b.fre, Top(b));
      JoinLists(fre');
      ready, noInsert, tier := false, noInsert && !tier, false;
    }

    method JoinLists(fre': map<Id, nat>)
      requires Divided(b, fast, at, frozen.Keys) && Renumbered(b.fre, fre', fast, Top(b)) && Below(b.order, next) && Below(fast, next)
      modifies this`b, this`fast, this`frozen
      ensures Divided(b, fast, at, frozen.Keys) && Below(b.order, next) && fast == [] && frozen == map[]
      ensures b == Buckets(old(fast) + old(b).order, fre', old(b).keys)
    {
      ThawDivided(b, fast, at, frozen.Keys, fre');
      BelowBoth(fast, b.order, next);
      fast, b, frozen := [], Buckets(fast + b.order, fre', b.keys), map[];
      assert frozen.Keys == {};
    }

    /** A new key joins the DC; when the cache is full a key of the DC goes, never one of the FC. */
    method Insert(key: Key, value: V) returns (added: bool, victim: Option<Key>)
      requires Valid()
      modifies this`b, this`at, this`next, this`table, this`size
      ensures Valid() && added == (!noInsert && key !in old(table))
      ensures !added ==> unchanged(this) && victim.None?
      ensures added ==> (victim.Some? <==> old(size) == maxSize)
      ensures added ==> table == old(table)[key := value] - (if victim.Some? then {victim.value} else {})
      ensures victim.Some? ==> victim.value !in frozen && (victim.value in old(table) || victim.value == key)
      ensures added ==> if victim.None? then AddedTo(old(b), b, key) else Exchanged(old(b), b, key, victim.value)
    {
      if noInsert || key in table {
        return false, None;
      }
      Add(key, value);
      ghost var b1 := b;
      if size < maxSize {
        size := size + 1;
        return true, None;
      }
      var z := EvictOldest();
      AddedDropped(old(b), b1, b, key, z);
      return true, Some(z);
    }

    method Add(key: Key, value: V)
      requires Valid() && key !in table && !tier
      modifies this`b, this`at, this`next, this`table
      ensures table == old(table)[key := value] && at.Keys == table.Keys && Copies(frozen, table)
      ensures Divided(b, fast, at, frozen.Keys) && Below(b.order, next) && Below(fast, next) && b.order != []
      ensures EndsAtOne(b) && b.keys[b.order[|b.order| - 1]] != [] && AddedTo(old(b), b, key)
    {
      DividedAdds(b, fast, at, frozen.Keys, key, next);
      DividedEnter(b, fast, at, frozen.Keys, key, next);
      EnterBelow(b, key, next);
      var (b', id) := Enter(b, key, next);
      b, at, next, table := b', at[key := id], next + 1, table[key := value];
    }

    method EvictOldest() returns (z: Key)
      requires at.Keys == table.Keys && size == |table| - 1 <= maxSize && Copies(frozen, table) && !tier && !noInsert
      requires Divided(b, fast, at, frozen.Keys) && Below(b.order, next) && Below(fast, next) && b.order != []
      requires EndsAtOne(b) && b.keys[b.order[|b.order| - 1]] != [] && (!ready ==> fast == [])
      modifies this`b, this`at, this`table
      ensures Valid() && z in old(table) && z !in frozen && table == old(table) - {z}
      ensures DroppedFrom(old(b), b) && z == Level(old(b), 1)[|Level(old(b), 1)| - 1]
    {
      DropIs(b, at - frozen.Keys);
      DividedDrop(b, fast, at, frozen.Keys);
      z := Oldest(b);
      b, at, table := Drop(b), at - {z}, table - {z};
    }
  }

  /** The new key came first on level 1 and the last key of that level went. */
  ghost predicate Exchanged(b: Buckets, b': Buckets, k: Key, z: Key) {
    var list := [k] + Level(b, 1);
    z == list[|list| - 1] && forall g :: Level(b', g) == if g == 1 then list[..|list| - 1] else Level(b, g)
  }

  lemma AddedDropped(b: Buckets, b1: Buckets, b2: Buckets, k: Key, z: Key)
    requires AddedTo(b, b1, k) && DroppedFrom(b1, b2) && z == Level(b1, 1)[|Level(b1, 1)| - 1]
    ensures Exchanged(b, b2, k, z)
  {
    forall g: nat ensures Level(b2, g) == if g == 1 then ([k] + Level(b, 1))[..|Level(b, 1)|] else Level(b, g) {
      assert g != 1 ==> Level(b1, g) == Level(b, g);
    }
  }

  /**
   Freezing the whole cache and thawing it gives back buckets, keys and map; it leaves the cache open
   for inserts if and only if there was a bucket.
   */
  method TierThaw<V>(cache: FreezableLfu<V>)
    requires cache.Valid() && cache.fast == []
    modifies cache
    ensures cache.Valid() && cache.fast == [] && cache.b.order == old(cache.b.order) && cache.b.keys == old(cache.b.keys)
    ensures cache.table == old(cache.table) && cache.size == old(cache.size) && cache.at == old(cache.at)
    ensures !cache.noInsert <==> old(cache.b.order) != []
  {
    cache.ConstructTier();
    cache.Deconstruct();
  }

  /** Freezing a cache that never held a key closes it for good: thawing does not open it again. */
  method EmptyTierStaysClosed<V>(capacity: nat, key: Key, value: V) returns (cache: FreezableLfu<V>, added: bool)
    ensures fresh(cache) && cache.Valid() && cache.maxSize == capacity && cache.table == map[] && cache.fast == []
    ensures cache.ready && cache.tier && cache.noInsert && !added
  {
    cache := new FreezableLfu<V>(capacity);
    AllOrNone(cache.b, cache.fast, cache.at, cache.frozen.Keys);
    cache.ConstructTier();
    cache.Deconstruct();
    var victim;
    added, victim := cache.Insert(key, value);
  }

  lemma Climbs(b: Buckets, fast: seq<Id>, at: map<Key, Id>, hot: set<Key>, i: nat, k: Key, next: Id)
    requires Divided(b, fast, at, hot) && i < |b.order| && k in at && k !in hot && at[k] == b.order[i]
    requires Below(b.order, next) && Below(fast, next)
    ensures var (b', id) := Promote(b, i, k, next);
      && Divided(b', fast, at[k := id], hot) && MovedUp(b, b', k, b.fre[b.order[i]])
      && Below(b'.order, next + 1) && Below(fast, next + 1) && b'.order != []
  {
    DividedPromote(b, fast, at, hot, i, k, next);
    PromoteFrame(b, i, k, next);
    PromoteBelow(b, i, k, next);
  }

  lemma ColdFiled(b: Buckets, fast: seq<Id>, at: map<Key, Id>, hot: set<Key>, k: Key)
    requires Divided(b, fast, at, hot)
    ensures k in at && k !in hot ==> at[k] in b.order
  {
    if k in at && k !in hot {
      assert Filed(b, at - hot, k);
    }
  }

  /** When the DC has no buckets every cached key is frozen, when the FC has none no key is. */
  lemma AllOrNone(b: Buckets, fast: seq<Id>, at: map<Key, Id>, hot: set<Key>)
    requires Divided(b, fast, at, hot)
    ensures b.order == [] ==> at.Keys == hot
    ensures fast == [] ==> hot == {}
  {
    HotFiled(b, fast, at, hot);
    forall k ensures b.order == [] && k in at ==> k in hot {
      ColdFiled(b, fast, at, hot, k);
    }
    forall k | k in hot ensures fast != [] {
      assert FastFiled(b, fast, at, k);
    }
  }

  /** With an empty FC the DC is everything. */
  lemma Thawed(b: Buckets, fast: seq<Id>, at: map<Key, Id>, hot: set<Key>)
    requires Divided(b, fast, at, hot) && fast == []
    ensures Good(b, at)
  {
    AllOrNone(b, fast, at, hot);
    assert at - hot == at;
  }
}
