/** The LFU cache: find moves a key up one frequency, insert puts a key at frequency 1 and may evict. */
module Lfu {
  import opened Options
  import opened LfuBuckets

  // ---------------------------------------------------------------- hits and arrivals

  /** The frequency of a key's bucket is one more than its hits since it was inserted. */
  ghost predicate Counted(b: Buckets, at: map<Key, Id>, hits: map<Key, nat>) {
    forall k :: k in at ==> k in hits && at[k] in b.fre && b.fre[at[k]] == 1 + hits[k]
  }

  /** The list is in falling order of arrival. */
  ghost predicate Aged(list: seq<Key>, arrival: map<Key, nat>, now: nat) {
    && (forall i :: 0 <= i < |list| ==> list[i] in arrival && arrival[list[i]] < now)
    && (forall i, j {:trigger Newer(list, arrival, i, j)} :: 0 <= i < j < |list| ==> Newer(list, arrival, i, j))
  }

  predicate Newer(list: seq<Key>, arrival: map<Key, nat>, i: nat, j: nat)
    requires i < |list| && j < |list|
  {
    list[i] in arrival && list[j] in arrival && arrival[list[i]] > arrival[list[j]]
  }

  lemma MovedUpCounted(b: Buckets, b': Buckets, at: map<Key, Id>, at': map<Key, Id>, hits: map<Key, nat>, k: Key, x: Key)
    requires Good(b, at) && Good(b', at') && at'.Keys == at.Keys && k in at && Counted(b, at, hits)
    requires MovedUp(b, b', k, 1 + hits[k]) && x in at
    ensures at'[x] in b'.fre && b'.fre[at'[x]] == 1 + (if x == k then hits[k] + 1 else hits[x])
  {
    var f := 1 + hits[k];
    var g := if x == k then f + 1 else 1 + hits[x];
    LevelHolds(b, at, f, k);
    LevelHolds(b, at, g, x);
    assert Level(b', g) == Up(b, k, f, g);
    if g == f {
      LevelDistinct(b, at, f);
      WithoutIs(Level(b, f), k, x);
    }
    LevelHolds(b', at', g, x);
  }

  lemma LevelDistinct(b: Buckets, at: map<Key, Id>, f: nat)
    requires Good(b, at)
    ensures Distinct(Level(b, f))
  {
    if PlaceOf(b, f) >= 0 {
      assert Points(b, at, PlaceOf(b, f));
    }
  }

  lemma AgedTail(list: seq<Key>, arrival: map<Key, nat>, now: nat)
    requires Aged(list, arrival, now) && list != []
    ensures Aged(list[1..], arrival, now)
  {
    forall i, j | 0 <= i < j < |list[1..]| ensures Newer(list[1..], arrival, i, j) {
      assert Newer(list, arrival, i + 1, j + 1);
    }
  }

  lemma AgedPush(list: seq<Key>, arrival: map<Key, nat>, now: nat, k: Key)
    requires Aged(list, arrival, now) && k !in list
    ensures Aged([k] + list, arrival[k := now], now + 1)
  {
    var r, arrival' := [k] + list, arrival[k := now];
    forall i, j | 0 <= i < j < |r| ensures Newer(r, arrival', i, j) {
      assert r[j] == list[j - 1];
      if i > 0 {
        assert Newer(list, arrival, i - 1, j - 1);
      }
    }
  }

  /** Taking keys out keeps the order. */
  lemma {:induction false} AgedWithout(list: seq<Key>, arrival: map<Key, nat>, now: nat, k: Key)
    requires Aged(list, arrival, now)
    ensures Aged(Without(list, k), arrival, now) && forall x :: x in Without(list, k) ==> x in list
  {
    if list != [] {
      AgedTail(list, arrival, now);
      if list[0] != k {
        AgedWithout(list[1..], arrival, now, k);
        var rest := Without(list[1..], k);
        var r := [list[0]] + rest;
        forall i, j | 0 <= i < j < |r| ensures Newer(r, arrival, i, j) {
          if i > 0 {
            assert Newer(rest, arrival, i - 1, j - 1);
          } else {
            assert rest[j - 1] in list[1..];
            var m :| 0 <= m < |list[1..]| && list[1..][m] == rest[j - 1];
            assert Newer(list, arrival, 0, m + 1);
          }
        }
      }
    }
  }

  lemma AgedDrop(list: seq<Key>, arrival: map<Key, nat>, now: nat)
    requires Aged(list, arrival, now) && list != []
    ensures Aged(list[..|list| - 1], arrival, now)
  {
    var r := list[..|list| - 1];
    forall i, j | 0 <= i < j < |r| ensures Newer(r, arrival, i, j) {
      assert Newer(list, arrival, i, j);
    }
  }

  /** The victim is the oldest of the keys that were never hit. */
  lemma LastIsOldest(b: Buckets, at: map<Key, Id>, hits: map<Key, nat>, arrival: map<Key, nat>, now: nat, x: Key)
    requires Good(b, at) && Counted(b, at, hits) && Aged(Level(b, 1), arrival, now) && Level(b, 1) != []
    requires x in at && hits[x] == 0
    ensures var list := Level(b, 1); var victim := list[|list| - 1];
      && victim in at && hits[victim] == 0 && x in arrival && victim in arrival && arrival[victim] <= arrival[x]
  {
    var list := Level(b, 1);
    var victim := list[|list| - 1];
    LevelHolds(b, at, 1, victim);
    LevelHolds(b, at, 1, x);
    var i :| 0 <= i < |list| && list[i] == x;
    if i < |list| - 1 {
      assert Newer(list, arrival, i, |list| - 1);
    }
  }

  // ---------------------------------------------------------------- the steps

  /** What holds of buckets and pointers, of hits and of arrivals. */
  ghost predicate Ok(b: Buckets, at: map<Key, Id>, hits: map<Key, nat>, arrival: map<Key, nat>, now: nat) {
    Good(b, at) && Counted(b, at, hits) && Aged(Level(b, 1), arrival, now)
  }

  lemma MovedUpOk(b: Buckets, b': Buckets, at: map<Key, Id>, at': map<Key, Id>, hits: map<Key, nat>, arrival: map<Key, nat>, now: nat, k: Key)
    requires Ok(b, at, hits, arrival, now) && Good(b', at') && at'.Keys == at.Keys && k in at
    requires MovedUp(b, b', k, 1 + hits[k])
    ensures Ok(b', at', hits[k := hits[k] + 1], arrival, now)
  {
    var hits' := hits[k := hits[k] + 1];
    forall x | x in at' ensures x in hits' && at'[x] in b'.fre && b'.fre[at'[x]] == 1 + hits'[x] {
      MovedUpCounted(b, b', at, at', hits, k, x);
    }
    assert Level(b', 1) == Up(b, k, 1 + hits[k], 1);
    AgedWithout(Level(b, 1), arrival, now, k);
  }

  lemma AddedOk(b: Buckets, b': Buckets, at: map<Key, Id>, at': map<Key, Id>, hits: map<Key, nat>, arrival: map<Key, nat>, now: nat, k: Key)
    requires Ok(b, at, hits, arrival, now) && Good(b', at') && at'.Keys == at.Keys + {k} && k !in at && AddedTo(b, b', k)
    ensures Ok(b', at', hits[k := 0], arrival[k := now], now + 1)
  {
    var hits' := hits[k := 0];
    forall x | x in at' ensures x in hits' && at'[x] in b'.fre && b'.fre[at'[x]] == 1 + hits'[x] {
      var g := 1 + hits'[x];
      LevelHolds(b, at, g, x);
      assert Level(b', g) == if g == 1 then [k] + Level(b, 1) else Level(b, g);
      LevelHolds(b', at', g, x);
    }
    LevelHolds(b, at, 1, k);
    AgedPush(Level(b, 1), arrival, now, k);
  }

  lemma DroppedOk(b: Buckets, b': Buckets, at: map<Key, Id>, hits: map<Key, nat>, arrival: map<Key, nat>, now: nat, z: Key)
    requires Ok(b, at, hits, arrival, now) && Good(b', at - {z}) && DroppedFrom(b, b') && z == Level(b, 1)[|Level(b, 1)| - 1]
    ensures Ok(b', at - {z}, hits, arrival, now)
  {
    var at' := at - {z};
    forall x | x in at' ensures x in hits && at'[x] in b'.fre && b'.fre[at'[x]] == 1 + hits[x] {
      var g := 1 + hits[x];
      LevelHolds(b, at, g, x);
      assert Level(b', g) == if g == 1 then Level(b, 1)[..|Level(b, 1)| - 1] else Level(b, g);
      if g == 1 {
        LevelDistinct(b, at, 1);
        DropLastIs(Level(b, 1), x);
      }
      LevelHolds(b', at', g, x);
    }
    AgedDrop(Level(b, 1), arrival, now);
  }

  /** Of these keys, all but `z` were hit or came later. */
  ghost predicate OldestUnhit(z: Key, keys: set<Key>, hits: map<Key, nat>, arrival: map<Key, nat>) {
    && z in keys && z in hits && hits[z] == 0 && z in arrival
    && forall x :: x in keys && x in hits && hits[x] == 0 ==> x in arrival && arrival[z] <= arrival[x]
  }

  lemma VictimIs(b: Buckets, at: map<Key, Id>, hits: map<Key, nat>, arrival: map<Key, nat>, now: nat, key: Key)
    requires Ok(b, at, hits, arrival, now) && key in at && hits[key] == 0
    ensures EndsAtOne(b) && b.keys[b.order[|b.order| - 1]] != []
    ensures OldestUnhit(Oldest(b), at.Keys, hits, arrival)
    ensures Ok(Drop(b), at - {Oldest(b)}, hits, arrival, now)
  {
    LevelHolds(b, at, 1, key);
    var place := PlaceOf(b, 1);
    OneFrequency(b, place, |b.order| - 1);
    DropGood(b, at);
    DropIs(b, at);
    var z := Oldest(b);
    DroppedOk(b, Drop(b), at, hits, arrival, now, z);
    forall x | x in at.Keys && x in hits && hits[x] == 0 ensures x in arrival && arrival[z] <= arrival[x] {
      LastIsOldest(b, at, hits, arrival, now, x);
    }
    LastIsOldest(b, at, hits, arrival, now, key);
  }

  // ---------------------------------------------------------------- the cache

  class LfuCache<V> {
    const n: nat
    var size: nat
    var table: map<Key, V>
    var at: map<Key, Id>          // listNode of each map entry
    var b: Buckets
    var next: Id                  // address of the next bucket to be allocated

    ghost var hits: map<Key, nat>
    ghost var arrival: map<Key, nat>
    ghost var now: nat

    ghost predicate Valid()
      reads this
    {
      && at.Keys == table.Keys && size == |table| <= n
      && Below(b.order, next)
      && Ok(b, at, hits, arrival, now)
    }

    constructor (capacity: nat)
      ensures Valid() && table == map[] && n == capacity
    {
      n, size, table, at, next := capacity, 0, map[], map[], 0;
      b := Buckets([], map[], map[]);
      hits, arrival, now := map[], map[], 0;
    }

    /** A hit moves the key up one frequency, whichever way the buckets make it; a miss changes nothing. */
    method Find(key: Key) returns (value: Option<V>)
      requires Valid()
      modifies this
      ensures Valid() && table == old(table) && arrival == old(arrival)
      ensures value == if key in table then Some(table[key]) else None
      ensures key in table ==> key in old(hits) && hits == old(hits)[key := old(hits)[key] + 1]
      ensures key in table ==> MovedUp(old(b), b, key, 1 + old(hits)[key])
      ensures key !in table ==> b == old(b) && hits == old(hits)
    {
      if key !in table {
        return None;
      }
      ghost var b0, at0 := b, at;
      Up(key);
      MovedUpOk(b0, b, at0, at, hits, arrival, now, key);
      hits := hits[key := hits[key] + 1];
      return Some(table[key]);
    }

    method Up(key: Key)
      requires Good(b, at) && key in at && at[key] in b.fre && Below(b.order, next)
      modifies this`b, this`at, this`next
      ensures Good(b, at) && at.Keys == old(at.Keys) && Below(b.order, next)
      ensures MovedUp(old(b), b, key, old(b).fre[old(at)[key]])
    {
      assert Filed(b, at, key);
      var i := Locate(b.order, at[key]);
      NewAddress(b.order, next);
      PromoteGood(b, at, i, key, next);
      PromoteBelow(b, i, key, next);
      var (b', id) := Promote(b, i, key, next);
      b, at, next := b', at[key := id], next + 1;
    }

    /**
     A new key at frequency 1; when the cache is full the oldest key of that frequency goes, which is
     the oldest key that was never hit and may be the new one.
     */
    method Insert(key: Key, value: V) returns (added: bool, victim: Option<Key>)
      requires Valid()
      modifies this
      ensures Valid() && added == (key !in old(table))
      ensures !added ==> table == old(table) && b == old(b) && victim.None?
      ensures added ==> (victim.Some? <==> old(size) == n)
      ensures added ==> table == old(table)[key := value] - (if victim.Some? then {victim.value} else {})
      ensures added ==> hits == old(hits)[key := 0] && arrival == old(arrival)[key := old(now)]
      ensures victim.Some? ==> OldestUnhit(victim.value, old(table).Keys + {key}, hits, arrival)
    {
      if key in table {
        return false, None;
      }
      if size < n {
        InsertRoom(key, value);
        return true, None;
      }
      var z := InsertFull(key, value);
      return true, Some(z);
    }

    method InsertRoom(key: Key, value: V)
      requires Valid() && key !in table && size < n
      modifies this
      ensures Valid() && table == old(table)[key := value]
      ensures hits == old(hits)[key := 0] && arrival == old(arrival)[key := old(now)]
    {
      Enter(key);
      table, size := table[key := value], size + 1;
    }

    method InsertFull(key: Key, value: V) returns (z: Key)
      requires Valid() && key !in table && size == n
      modifies this
      ensures Valid() && table == old(table)[key := value] - {z}
      ensures hits == old(hits)[key := 0] && arrival == old(arrival)[key := old(now)]
      ensures OldestUnhit(z, old(table).Keys + {key}, hits, arrival)
    {
      Enter(key);
      table := table[key := value];
      z := EvictOldest(key);
    }

    method Enter(key: Key)
      requires Ok(b, at, hits, arrival, now) && key !in at && Below(b.order, next)
      modifies this`b, this`at, this`next, this`hits, this`arrival, this`now
      ensures Ok(b, at, hits, arrival, now) && at.Keys == old(at).Keys + {key} && Below(b.order, next)
      ensures hits == old(hits)[key := 0] && arrival == old(arrival)[key := old(now)]
    {
      Put(key);
      AddedOk(old(b), b, old(at), at, hits, arrival, now, key);
      hits, arrival, now := hits[key := 0], arrival[key := now], now + 1;
    }

    method Put(key: Key)
      requires Good(b, at) && key !in at && Below(b.order, next)
      modifies this`b, this`at, this`next
      ensures Good(b, at) && at.Keys == old(at.Keys) + {key} && AddedTo(old(b), b, key)
      ensures Below(b.order, next)
    {
      NewAddress(b.order, next);
      EnterGood(b, at, key, next);
      EnterIs(b, at, key, next);
      EnterBelow(b, key, next);
      var (b', id) := LfuBuckets.Enter(b, key, next);
      b, at, next := b', at[key := id], next + 1;
    }

    method EvictOldest(ghost key: Key) returns (z: Key)
      requires Ok(b, at, hits, arrival, now) && at.Keys == table.Keys && key in at && hits[key] == 0
      requires size == |table| - 1 <= n && Below(b.order, next)
      modifies this`b, this`at, this`table
      ensures Valid() && table == old(table) - {z} && OldestUnhit(z, old(table).Keys, hits, arrival)
    {
      VictimIs(b, at, hits, arrival, now, key);
      z := Oldest(b);
      b, at, table := Drop(b), at - {z}, table - {z};
    }
  }
}
