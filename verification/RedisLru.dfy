/**
 The Redis-style cache around the eviction pool: the hash map, the randomized set its samples are
 drawn from and the counter, in the order insert, find and performEvictions update them. Clock
 readings and random draws are parameters.
 */
module RedisLru {
  import opened Options
  import opened EvictionPool

  const U32: nat := 0x1_0000_0000
  const LRU_CLOCK_MAX: nat := 0xff_ffff
  const LRU_CLOCK_RESOLUTION: nat := 100
  const EVICTION_SAMPLE: nat := 5

  // ---------------------------------------------------------------- randomized set

  /** A set of keys with a vector to draw from and the position of each key in it. */
  class RandomizedSet {
    var position: map<Key, nat>
    var vec: seq<Key>

    /** The positions invert the vector. */
    ghost predicate Valid()
      reads this
    {
      && (forall k :: k in position ==> position[k] < |vec| && vec[position[k]] == k)
      && (forall i :: 0 <= i < |vec| ==> vec[i] in position && position[vec[i]] == i)
    }

    function Keys(): set<Key>
      reads this
    {
      position.Keys
    }

    constructor ()
      ensures Valid() && Keys() == {}
    {
      position, vec := map[], [];
    }

    method Insert(key: Key) returns (added: bool)
      requires Valid()
      modifies this
      ensures Valid() && Keys() == old(Keys()) + {key} && added == (key !in old(Keys()))
      ensures vec == if added then old(vec) + [key] else old(vec)
    {
      if key in position {
        return false;
      }
      position := position[key := |vec|];
      vec := vec + [key];
      return true;
    }

    /** The last key takes the place of the removed one. */
    method Remove(key: Key) returns (removed: bool)
      requires Valid()
      modifies this
      ensures Valid() && Keys() == old(Keys()) - {key} && removed == (key in old(Keys()))
      ensures !removed ==> vec == old(vec)
    {
      if key !in position {
        return false;
      }
      var pos := position[key];
      var last := vec[|vec| - 1];
      position := position[last := pos];
      position := position - {key};
      vec := vec[pos := last][|vec| - 1 := vec[pos]];
      vec := vec[..|vec| - 1];
      return true;
    }

    /** The draw of getRandom for an index in range: a key of the set. */
    method At(index: nat) returns (key: Key)
      requires Valid() && index < |vec|
      ensures key == vec[index] && key in Keys()
    {
      key := vec[index];
    }
  }

  // ---------------------------------------------------------------- the cache

  /** How long an object has been idle at a clock reading; the object keeps 32 bits of the clock. */
  function IdleTime(clock: nat, lru: nat): nat {
    if clock >= lru then (clock - lru) / LRU_CLOCK_RESOLUTION
    else (clock + (LRU_CLOCK_MAX - lru) % U32) / LRU_CLOCK_RESOLUTION
  }

  datatype Object<V> = Object(value: V, lru: nat)

  /** The random draws and clock readings of one pass of sampling. */
  datatype Round = Round(draws: seq<nat>, clocks: seq<nat>)

  ghost predicate Drawable(round: Round, size: nat) {
    && |round.draws| == 2 * EVICTION_SAMPLE && |round.clocks| == EVICTION_SAMPLE
    && forall i :: 0 <= i < |round.draws| ==> round.draws[i] < size
  }

  /** The item says for how long a cached key had been idle. */
  ghost predicate Reading<V(!new)>(table: map<Key, Object<V>>, item: Item) {
    item.key in table && exists clock :: item.idle == IdleTime(clock, table[item.key].lru)
  }

  /** Everything in a pool was in it before or is a reading of a cached key. */
  ghost predicate Recorded<V(!new)>(view: seq<Item>, before: seq<Item>, table: map<Key, Object<V>>) {
    forall item <- view :: item.key == 0 || item in before || (Reading(table, item) && item.idle > 0)
  }

  class RedisCache<V(!new)> {
    const capacity: nat
    var size: nat
    var table: map<Key, Object<V>>
    const rs: RandomizedSet
    const pool: Pool

    ghost predicate Valid()
      reads this, rs, pool, pool.slots, pool.entries
    {
      && rs.Valid() && pool.Valid()
      && rs.Keys() == table.Keys && 0 !in table
    }

    constructor (capacity: nat)
      ensures Valid() && table == map[] && size == 0 && this.capacity == capacity
      ensures fresh(rs) && fresh(pool) && fresh(pool.slots) && fresh(pool.entries)
    {
      this.capacity, size, table := capacity, 0, map[];
      var set0 := new RandomizedSet();
      var pool0 := new Pool();
      rs, pool := set0, pool0;
    }

    method Find(key: Key, clock: nat) returns (value: Option<V>)
      requires Valid()
      modifies this`table
      ensures Valid()
      ensures value == if key in old(table) then Some(old(table)[key].value) else None
      ensures table == if key in old(table) then old(table)[key := Object(old(table)[key].value, clock % U32)] else old(table)
    {
      if key !in table {
        return None;
      }
      table := table[key := table[key].(lru := clock % U32)];
      return Some(table[key].value);
    }

    /** Draws until five different keys have been seen or ten draws are used up. */
    method Sample(draws: seq<nat>) returns (samples: seq<Key>)
      requires Valid() && |draws| == 2 * EVICTION_SAMPLE && forall i :: 0 <= i < |draws| ==> draws[i] < |rs.vec|
      ensures 1 <= |samples| <= EVICTION_SAMPLE && (forall k <- samples :: k in table)
      ensures forall i, j :: 0 <= i < j < |samples| ==> samples[i] != samples[j]
      ensures |samples| == EVICTION_SAMPLE || forall i :: 0 <= i < |draws| ==> rs.vec[draws[i]] in samples
    {
      samples := [];
      var i := 0;
      while i < 2 * EVICTION_SAMPLE && |samples| < EVICTION_SAMPLE
        invariant 0 <= i <= 2 * EVICTION_SAMPLE && |samples| <= EVICTION_SAMPLE && (i > 0 ==> samples != [])
        invariant forall k <- samples :: k in table
        invariant forall i, j :: 0 <= i < j < |samples| ==> samples[i] != samples[j]
        invariant forall k :: 0 <= k < i ==> rs.vec[draws[k]] in samples
      {
        var key := rs.At(draws[i]);
        if key !in samples {
          samples := samples + [key];
        }
        i := i + 1;
      }
    }

    /** Offers fresh samples to the pool: what is new in it is a reading of a cached key that is not zero. */
    method Populate(round: Round)
      requires Valid() && Drawable(round, |rs.vec|)
      modifies pool.slots, pool.entries
      ensures Valid()
      ensures Recorded(pool.View(), old(pool.View()), table)
    {
      var samples := Sample(round.draws);
      var i := 0;
      while i < |samples|
        invariant 0 <= i <= |samples| && pool.Valid()
        invariant Recorded(pool.View(), old(pool.View()), table)
      {
        if samples[i] in table {
          var idle := IdleTime(round.clocks[i], table[samples[i]].lru);
          if idle != 0 {
            assert Reading(table, Item(idle, samples[i]));
            ghost var slots, view := pool.slots[..], pool.View();
            pool.Place(idle, samples[i]);
            forall k | 0 <= k < SIZE ensures pool.View()[k] == Item(idle, samples[i]) || pool.View()[k] in view {
              PlacedHolds(slots, view, Item(idle, samples[i]), k);
            }
          }
        }
        i := i + 1;
      }
    }

    /** One pass: the victim, if any, leaves the map and the set. `view` is the pool it was chosen from. */
    method OneRound(round: Round) returns (victim: Option<Key>, ghost view: seq<Item>)
      requires Valid() && Drawable(round, |rs.vec|)
      modifies this`table, rs, pool.slots, pool.entries
      ensures Valid()
      ensures victim.None? ==> table == old(table) && rs.vec == old(rs.vec) && EmptyFrom(pool.View(), 0)
      ensures victim.Some? ==> victim.value in old(table) && table == old(table) - {victim.value}
      ensures RightVictim(view, old(table).Keys, victim) && Recorded(view, old(pool.View()), old(table))
    {
      Populate(round);
      view := pool.View();
      ScanIsGood(pool.slots[..], view, table.Keys, SIZE);
      victim := pool.Victim(table.Keys);
      if victim.Some? {
        table := table - {victim.value};
        var _ := rs.Remove(victim.value);
      }
    }

    /**
     Samples and scans the pool until it holds a cached key. The source repeats without bound; here
     it is given the rounds it takes, or fewer.
     */
    method PerformEvictions(rounds: seq<Round>) returns (victim: Option<Key>, ghost view: seq<Item>)
      requires Valid() && forall r <- rounds :: Drawable(r, |rs.vec|)
      modifies this`table, rs, pool.slots, pool.entries
      ensures Valid()
      ensures victim.None? ==> table == old(table)
      ensures victim.Some? ==>
        && victim.value in old(table) && table == old(table) - {victim.value}
        && MostIdle(view, old(table).Keys, victim.value) && Recorded(view, old(pool.View()), old(table))
    {
      victim, view := None, [];
      var i := 0;
      while i < |rounds| && victim.None?
        invariant 0 <= i <= |rounds| && Valid()
        invariant victim.None? ==> table == old(table) && rs.vec == old(rs.vec)
        invariant victim.None? ==> pool.View() == old(pool.View()) || EmptyFrom(pool.View(), 0)
        invariant victim.Some? ==> victim.value in old(table) && table == old(table) - {victim.value}
        invariant victim.Some? ==> MostIdle(view, old(table).Keys, victim.value) && Recorded(view, old(pool.View()), old(table))
      {
        ghost var before := pool.View();
        victim, view := OneRound(rounds[i]);
        assert Recorded(view, before, old(table)) && (before == old(pool.View()) || EmptyFrom(before, 0));
        i := i + 1;
      }
    }

    method Add(key: Key, value: V, clock: nat) returns (added: bool)
      requires Valid() && key != 0
      modifies this`table, rs
      ensures Valid() && added == (key !in old(table))
      ensures table == if added then old(table)[key := Object(value, clock % U32)] else old(table)
      ensures added ==> |rs.vec| == |old(rs.vec)| + 1 && |table| == |old(table)| + 1
    {
      if key in table {
        return false;
      }
      table := table[key := Object(value, clock % U32)];
      added := rs.Insert(key);
    }

    /** A new key; when the cache is full a victim makes room for it, which may be the new key itself. */
    method Insert(key: Key, value: V, clock: nat, rounds: seq<Round>) returns (added: bool, victim: Option<Key>)
      requires Valid() && key != 0 && |table| == size <= capacity
      requires forall r <- rounds :: Drawable(r, |rs.vec| + 1)
      modifies this, rs, pool.slots, pool.entries
      ensures Valid() && added == (key !in old(table)) && (!added ==> victim.None?)
      ensures var full := if added then old(table)[key := Object(value, clock % U32)] else old(table);
        table == if victim.Some? then full - {victim.value} else full
      ensures victim.Some? ==> old(size) == capacity && (victim.value in old(table) || victim.value == key)
      ensures (added && old(size) == capacity && victim.None?) || |table| == size <= capacity
    {
      victim := None;
      added := Add(key, value, clock);
      if added {
        if size < capacity {
          size := size + 1;
        } else {
          ghost var view;
          victim, view := PerformEvictions(rounds);
        }
      }
    }
  }
}
