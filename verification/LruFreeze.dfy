/**
 The freezable LRU cache, one call at a time and outside curve mode: hash map, two linked lists of
 nodes and the fast hash. Freezing moves the head of the main list (DC) to the fast list (FC) and
 copies its keys and values into the fast hash; thawing puts it back in front.

 `home` says which linked node a cached key has; the map's own pointer to a node may differ from it,
 because inserting a key that is present makes it point to a new node that is linked nowhere.
 */
module LruFreeze {
  import opened Options
  import opened LruLinks

  type Key = nat
  const FC_RELAXATION: nat := 20

  
  /** A map entry; `node` is None when it points to a node that is linked nowhere. */
  datatype Entry<V> = Entry(value: V, node: Option<Id>)

  // ---------------------------------------------------------------- keys and nodes

  /** The node has a key whose home it is. */
  ghost predicate Listed(key: map<Id, Key>, home: map<Key, Id>, n: Id) {
    n in key && key[n] in home && home[key[n]] == n
  }

  /** A key's home is a linked node of that key. */
  ghost predicate Housed(key: map<Id, Key>, home: map<Key, Id>, main: seq<Id>, fast: seq<Id>, k: Key)
    requires k in home
  {
    home[k] in key && key[home[k]] == k && (home[k] in main || home[k] in fast)
  }

  ghost predicate House(key: map<Id, Key>, home: map<Key, Id>, main: seq<Id>, fast: seq<Id>) {
    && (forall n {:trigger Listed(key, home, n)} :: n in main || n in fast ==> Listed(key, home, n))
    && (forall k {:trigger Housed(key, home, main, fast, k)} :: k in home ==> Housed(key, home, main, fast, k))
  }

  ghost predicate Core(l: Links, key: map<Id, Key>, home: map<Key, Id>, main: seq<Id>, fast: seq<Id>) {
    Lists(l, main, fast) && House(key, home, main, fast)
  }

  /** The same nodes, differently ordered or divided. */
  lemma HouseSame(key: map<Id, Key>, home: map<Key, Id>, main: seq<Id>, fast: seq<Id>, main': seq<Id>, fast': seq<Id>)
    requires House(key, home, main, fast)
    requires forall n :: n in main' || n in fast' <==> n in main || n in fast
    ensures House(key, home, main', fast')
  {
    forall n | n in main' || n in fast' ensures Listed(key, home, n) {
      assert n in main || n in fast;
    }
    forall k | k in home ensures Housed(key, home, main', fast', k) {
      assert Housed(key, home, main, fast, k);
    }
  }

  // ---------------------------------------------------------------- moving and evicting

  function DropAt(s: seq<Id>, i: nat): seq<Id>
    requires i < |s|
  {
    s[..i] + s[i + 1..]
  }

  lemma DropAtIs(s: seq<Id>, i: nat, x: Id)
    requires Distinct(s) && i < |s|
    ensures x in DropAt(s, i) <==> x in s && x != s[i]
    ensures s == s[..i] + [s[i]] + s[i + 1..]
  {
    assert s == s[..i] + [s[i]] + s[i + 1..];
    DistinctParts(s[..i] + [s[i]], s[i + 1..]);
    DistinctParts(s[..i], [s[i]]);
    assert x in s <==> x in s[..i] || x == s[i] || x in s[i + 1..];
    assert s[i] in s[..i] + [s[i]];
  }

  /** A hit: the node goes to the head of the main list. */
  lemma CorePromote(l: Links, key: map<Id, Key>, home: map<Key, Id>, main: seq<Id>, fast: seq<Id>, i: nat)
    requires Core(l, key, home, main, fast) && i < |main|
    ensures main[i] in l.prev && main[i] in l.next && HEAD in Delink(l, main[i]).next
    ensures Core(PushFront(Delink(l, main[i]), main[i]), key, home, [main[i]] + DropAt(main, i), fast)
  {
    var n := main[i];
    DropAtIs(main, i, n);
    DelinkLists(l, main[..i], n, main[i + 1..], fast);
    assert n in main;
    PushFrontLists(Delink(l, n), n, DropAt(main, i), fast);
    forall x ensures x in [n] + DropAt(main, i) <==> x in main {
      DropAtIs(main, i, x);
    }
    HouseSame(key, home, main, fast, [n] + DropAt(main, i), fast);
  }

  /** The last node of the main list goes, and its key. */
  lemma CoreEvict(l: Links, key: map<Id, Key>, home: map<Key, Id>, main: seq<Id>, fast: seq<Id>)
    requires Core(l, key, home, main, fast) && main != []
    ensures var n := Last(main);
      && n in l.prev && n in l.next && n in key && key[n] in home
      && Core(Delink(l, n), key, home - {key[n]}, main[..|main| - 1], fast)
  {
    var n, rest := Last(main), main[..|main| - 1];
    assert main == rest + [n] + [];
    assert n in main && Listed(key, home, n);
    DelinkLists(l, rest, n, [], fast);
    assert rest + [] == rest;
    DropAtIs(main, |main| - 1, n);
    assert DropAt(main, |main| - 1) == rest;
    var home' := home - {key[n]};
    forall x | x in rest || x in fast ensures Listed(key, home', x) {
      DropAtIs(main, |main| - 1, x);
      assert Listed(key, home, x);
    }
    forall k | k in home' ensures Housed(key, home', rest, fast, k) {
      assert Housed(key, home, main, fast, k);
      DropAtIs(main, |main| - 1, home[k]);
    }
  }

  /** A new node for a new key at the head of the main list. */
  lemma CorePush(l: Links, key: map<Id, Key>, home: map<Key, Id>, main: seq<Id>, fast: seq<Id>, n: Id, k: Key)
    requires Core(l, key, home, main, fast) && n !in main && n !in fast && n > OUT && k !in home
    ensures HEAD in l.next && Core(PushFront(l, n), key[n := k], home[k := n], [n] + main, fast)
  {
    PushFrontLists(l, n, main, fast);
    var key', home' := key[n := k], home[k := n];
    forall x | x in [n] + main || x in fast ensures Listed(key', home', x) {
      assert x != n ==> Listed(key, home, x);
    }
    forall j | j in home' ensures Housed(key', home', [n] + main, fast, j) {
      assert j != k ==> Housed(key, home, main, fast, j);
    }
  }

  // ---------------------------------------------------------------- freezing and thawing

  /** The cut of a scan during which nothing was inserted. */
  lemma CoreCut(l: Links, key: map<Id, Key>, home: map<Key, Id>, main: seq<Id>, m: nat)
    requires Core(l, key, home, main, []) && 0 < m <= |main|
    ensures HEAD in l.next && l.next[HEAD] == main[0]
    ensures var l1 := SetNext(l, FAST_HEAD, main[0]); var temp := First(main[m..] + [TAIL]);
      && main[0] in l1.prev && temp in l1.prev
      && Core(CutBehind(l1, temp), key, home, main[m..], main[..m])
  {
    var f, y := main[..m], main[m..];
    assert main == [] + f + y;
    var l1 := SetNext(l, FAST_HEAD, main[0]);
    assert Main(main) == [HEAD] + (main + [TAIL]);
    ChainSplit(l, [HEAD], main + [TAIL]);
    MainDistinct(main);
    ScanStart(l, main);
    CutBehindLists(l1, [], f, y);
    assert [] + y == y;
    assert forall x :: x in main <==> x in f || x in y;
    HouseSame(key, home, main, [], y, f);
  }

  lemma ScanStart(l: Links, main: seq<Id>)
    requires Chain(l, Main(main)) && Distinct(main) && Nodes(main) && main != []
    ensures Scanning(SetNext(l, FAST_HEAD, main[0]), main, main[0])
  {
    OtherChain(l, SetNext(l, FAST_HEAD, main[0]), {FAST_HEAD}, Main(main));
  }

  lemma CoreTier(l: Links, key: map<Id, Key>, home: map<Key, Id>, main: seq<Id>)
    requires Core(l, key, home, main, [])
    ensures HEAD in l.next && TAIL in l.prev && Core(Tier(l), key, home, [], main)
  {
    TierLists(l, main);
    HouseSame(key, home, main, [], [], main);
  }

  lemma CoreThaw(l: Links, key: map<Id, Key>, home: map<Key, Id>, main: seq<Id>, fast: seq<Id>)
    requires Core(l, key, home, main, fast) && fast != []
    ensures HEAD in l.next && FAST_HEAD in l.next && FAST_TAIL in l.prev
    ensures l.next[FAST_HEAD] != FAST_TAIL && l.next[HEAD] != FAST_TAIL
    ensures Core(Thaw(l), key, home, fast + main, [])
  {
    ThawLists(l, main, fast);
    HouseSame(key, home, main, fast, fast + main, []);
  }

  // ---------------------------------------------------------------- the fast hash

  /** These are the keys whose homes are among the nodes. */
  ghost predicate Iced(keys: set<Key>, home: map<Key, Id>, nodes: seq<Id>) {
    forall k :: k in keys <==> k in home && home[k] in nodes
  }

  /** The fast hash answers what the map holds. */
  ghost predicate Copies<V>(frozen: map<Key, V>, table: map<Key, Entry<V>>) {
    forall k :: k in frozen ==> k in table && frozen[k] == table[k].value
  }

  lemma IcedNext(keys: set<Key>, key: map<Id, Key>, home: map<Key, Id>, s: seq<Id>, j: nat)
    requires j < |s| && Listed(key, home, s[j]) && Iced(keys, home, s[..j])
    requires forall k :: k in home ==> home[k] in key && key[home[k]] == k
    ensures Iced(keys + {key[s[j]]}, home, s[..j + 1])
  {
    assert s[..j + 1] == s[..j] + [s[j]];
  }

  lemma HomesHaveKeys(key: map<Id, Key>, home: map<Key, Id>, main: seq<Id>, fast: seq<Id>)
    requires House(key, home, main, fast)
    ensures forall k :: k in home ==> home[k] in key && key[home[k]] == k
  {
    forall k | k in home ensures home[k] in key && key[home[k]] == k {
      assert Housed(key, home, main, fast, k);
    }
  }

  /**
   The scan of construct_ratio: from `first` on, key after key goes to the fast hash until `limit`
   nodes have been seen. It fails where the source would run off the end of the list.
   */
  method CopyNodes<V>(l: Links, key: map<Id, Key>, table: map<Key, Entry<V>>, first: Id, limit: nat,
                      ghost main: seq<Id>, ghost home: map<Key, Id>) returns (ok: bool, hash: map<Key, V>, temp: Id)
    requires first == First(main + [TAIL]) && Chain(l, main + [TAIL]) && Nodes(main) && home.Keys == table.Keys
    requires forall n :: n in main ==> Listed(key, home, n)
    requires forall k :: k in home ==> home[k] in key && key[home[k]] == k
    ensures ok <==> limit <= |main|
    ensures ok ==> temp == First(main[limit..] + [TAIL]) && Iced(hash.Keys, home, main[..limit]) && Copies(hash, table)
  {
    hash, temp := map[], first;
    var count := 0;
    while count < limit
      invariant 0 <= count <= limit && count <= |main| && temp == (main + [TAIL])[count]
      invariant Iced(hash.Keys, home, main[..count]) && Copies(hash, table)
    {
      assert count < |main| ==> main[count] in main;
      if temp == TAIL {
        return false, hash, temp;
      }
      IcedNext(hash.Keys, key, home, main, count);
      hash := hash[key[temp] := table[key[temp]].value];
      assert Joined(l, main + [TAIL], count);
      temp := l.next[temp];
      count := count + 1;
    }
    ok := true;
  }

  /** The same over a whole list, up to the sentinel at its end. */
  method CopyAll<V>(l: Links, key: map<Id, Key>, table: map<Key, Entry<V>>, first: Id, end: Id,
                    ghost s: seq<Id>, ghost home: map<Key, Id>) returns (hash: map<Key, V>)
    requires first == First(s + [end]) && Chain(l, s + [end]) && end !in s && home.Keys == table.Keys
    requires forall i :: 0 <= i < |s| ==> Listed(key, home, s[i])
    requires forall k :: k in home ==> home[k] in key && key[home[k]] == k
    ensures Iced(hash.Keys, home, s) && Copies(hash, table)
  {
    hash := map[];
    var temp := first;
    ghost var count := 0;
    while temp != end
      invariant 0 <= count <= |s| && temp == (s + [end])[count] && Iced(hash.Keys, home, s[..count]) && Copies(hash, table)
      decreases |s| - count
    {
      IcedNext(hash.Keys, key, home, s, count);
      hash := hash[key[temp] := table[key[temp]].value];
      assert Joined(l, s + [end], count);
      temp := l.next[temp];
      count := count + 1;
    }
    assert s[..count] == s;
  }

  // ---------------------------------------------------------------- the cache

  class FreezableLru<V> {
    const maxSize: nat
    var size: nat
    var table: map<Key, Entry<V>>
    var key: map<Id, Key>
    var l: Links
    var frozen: map<Key, V>
    var ready: bool              // fast_hash_ready
    var tier: bool               // tier_ready
    var noInsert: bool           // tier_no_insert
    var next: Id                 // address of the next node to be allocated

    ghost var main: seq<Id>
    ghost var fast: seq<Id>
    ghost var home: map<Key, Id>

    /** What holds between the steps of an insert, too: a key may be in the map and not yet in a list. */
    ghost predicate Sound()
      reads this
    {
      && Core(l, key, home, main, fast) && home.Keys <= table.Keys && Pointers(table, home) && Iced(frozen.Keys, home, fast)
      && Below(main, next) && Below(fast, next) && next > OUT
    }

    ghost predicate Valid()
      reads this
    {
      && Sound() && home.Keys == table.Keys && size == |table| <= maxSize + 1
      && (!ready && !tier ==> fast == []) && (tier <==> noInsert) && (tier ==> main == [])
    }

    /** Nothing has made the fast hash go stale. */
    ghost predicate Agrees()
      reads this
    {
      Copies(frozen, table)
    }

    constructor (capacity: nat)
      ensures Valid() && Agrees() && table == map[] && maxSize == capacity && !ready && !tier && main == []
    {
      maxSize, size, table, key, frozen, next := capacity, 0, map[], map[], map[], OUT + 1;
      ready, tier, noInsert := false, false, false;
      l := Links(map[TAIL := HEAD, FAST_TAIL := FAST_HEAD], map[HEAD := TAIL, FAST_HEAD := FAST_TAIL]);
      main, fast, home := [], [], map[];
      new;
      EmptyLists(l);
    }

    /**
     A frozen key is answered from the fast hash, which is what the map holds as long as the hash is not
     stale. A key of the DC goes to the head of the main list, unless the list mutex is taken; nothing
     else changes.
     */
    method Find(k: Key, locked: bool) returns (value: Option<V>)
      requires Valid()
      modifies this`l, this`main
      ensures Valid() && value == if k in frozen then Some(frozen[k]) else if k in table then Some(table[k].value) else None
      ensures main == if locked && k in table && k !in frozen && table[k].node.Some? then ToFront(old(main), home[k]) else old(main)
    {
      if ready || tier {
        if k in frozen {
          return Some(frozen[k]);
        } else if tier {
          TierMiss(key, home, main, fast, frozen.Keys, k);
          return None;
        }
      }
      if k !in table {
        return None;
      }
      if locked {
        Touch(k);
      }
      return Some(table[k].value);
    }

    method Touch(k: Key)
      requires Valid() && k in table && k !in frozen
      modifies this`l, this`main
      ensures Valid() && main == if table[k].node.Some? then ToFront(old(main), home[k]) else old(main)
    {
      InMain(key, home, main, fast, frozen.Keys, k);
      match table[k].node
      case None =>
      case Some(n) =>
        ghost var i := Pos(main, n);
        LinkedNotOut(l, main, fast, i);
        if l.prev[n] != OUT {
          CorePromote(l, key, home, main, fast, i);
          FrontBelow(main, n, next);
          l, main := PushFront(Delink(l, n), n), ToFront(main, n);
        }
    }

    /**
     Freezes the first fcSize - FC_RELAXATION + 1 nodes. If the subtraction would wrap, or the list has
     fewer nodes, the scan runs off the list's end; that is reported as false.
     */
    method ConstructRatio(fcSize: nat) returns (ok: bool)
      requires Valid() && fast == []
      modifies this`l, this`main, this`fast, this`frozen, this`ready
      ensures ok <==> FC_RELAXATION <= fcSize && fcSize - FC_RELAXATION < |old(main)|
      ensures !ok ==> unchanged(this)
      ensures ok ==> Valid() && Agrees() && ready
      ensures ok ==> var m := fcSize - FC_RELAXATION + 1; fast == old(main)[..m] && main == old(main)[m..]
    {
      if fcSize < FC_RELAXATION {
        return false;
      }
      var m := fcSize - FC_RELAXATION + 1;
      HomesHaveKeys(key, home, main, fast);
      ScanOf(l, main);
      var l1 := SetNext(l, FAST_HEAD, l.next[HEAD]);
      var hash, temp;
      ok, hash, temp := CopyNodes(l1, key, table, l1.next[FAST_HEAD], m, main, home);
      if ok {
        Freeze(l1, m, hash, temp);
      }
    }

    method Freeze(l1: Links, m: nat, hash: map<Key, V>, temp: Id)
      requires Valid() && fast == [] && !tier && 0 < m <= |main| && l1 == SetNext(l, FAST_HEAD, main[0])
      requires temp == First(main[m..] + [TAIL]) && Iced(hash.Keys, home, main[..m]) && Copies(hash, table)
      modifies this`l, this`main, this`fast, this`frozen, this`ready
      ensures Valid() && Agrees() && ready && fast == old(main)[..m] && main == old(main)[m..]
    {
      CutLists(l1, m, hash, temp);
      ready := true;
    }

    method CutLists(l1: Links, m: nat, hash: map<Key, V>, temp: Id)
      requires Sound() && fast == [] && 0 < m <= |main| && l1 == SetNext(l, FAST_HEAD, main[0])
      requires temp == First(main[m..] + [TAIL]) && Iced(hash.Keys, home, main[..m])
      modifies this`l, this`main, this`fast, this`frozen
      ensures Sound() && frozen == hash && fast == old(main)[..m] && main == old(main)[m..]
    {
      CoreCut(l, key, home, main, m);
      PartsBelow(main, m, next);
      l, frozen, main, fast := CutBehind(l1, temp), hash, main[m..], main[..m];
    }

    /** Freezes the whole list and closes the cache for inserts. */
    method ConstructTier()
      requires Valid() && fast == []
      modifies this`l, this`main, this`fast, this`frozen, this`tier, this`noInsert
      ensures Valid() && Agrees() && tier && noInsert && fast == old(main) && main == []
    {
      CoreTier(l, key, home, main);
      HomesHaveKeys(key, home, main, fast);
      var l1 := Tier(l);
      FastScan(l1, main);
      var hash := CopyAll(l1, key, table, l1.next[FAST_HEAD], FAST_TAIL, main, home);
      TakeAll(l1, hash);
      tier, noInsert := true, true;
    }

    method TakeAll(l1: Links, hash: map<Key, V>)
      requires Sound() && Core(l1, key, home, [], main) && Iced(hash.Keys, home, main)
      modifies this`l, this`main, this`fast, this`frozen
      ensures Sound() && frozen == hash && fast == old(main) && main == []
    {
      l, frozen, main, fast := l1, hash, [], main;
    }

    /**
     The FC goes back in front of the DC and the cache is open again. With an empty FC nothing happens:
     flags set by a construction stay set.
     */
    method Deconstruct()
      requires Valid()
      modifies this`l, this`main, this`fast, this`frozen, this`ready, this`tier, this`noInsert
      ensures Valid()
      ensures old(fast) == [] ==> unchanged(this)
      ensures old(fast) != [] ==> main == old(fast) + old(main) && fast == [] && frozen == map[] && !ready && !tier && !noInsert
    {
      FastEmptyIff(l, main, fast);
      if l.next[FAST_HEAD] != FAST_TAIL {
        Melt();
      }
    }

    method Melt()
      requires Valid() && fast != []
      modifies this`l, this`main, this`fast, this`frozen, this`ready, this`tier, this`noInsert
      ensures Valid() && main == old(fast) + old(main) && fast == [] && frozen == map[] && !ready && !tier && !noInsert
    {
      JoinLists();
      ready, noInsert, tier := false, noInsert && !tier, false;
    }

    /** The pointers and the fast hash. */
    method JoinLists()
      requires Sound() && fast != []
      modifies this`l, this`main, this`fast, this`frozen
      ensures Sound() && main == old(fast) + old(main) && fast == [] && frozen == map[]
    {
      CoreThaw(l, key, home, main, fast);
      BothBelow(fast, main, next);
      l, frozen, main, fast := Thaw(l), map[], fast + main, [];
    }

    /** The least recently used node of the DC and its key leave; false if there is none. */
    method Evict() returns (ok: bool)
      requires Sound()
      modifies this`l, this`main, this`home, this`table
      ensures Sound() && ok == (old(main) != []) && (old(Agrees()) ==> Agrees())
      ensures !ok ==> main == old(main) && home == old(home) && table == old(table)
      ensures ok ==> main == Butlast(old(main)) && VictimIn(key, old(home), Last(old(main)))
      ensures ok ==> var k := key[Last(old(main))]; home == old(home) - {k} && table == old(table) - {k}
    {
      MainEmptyIff(l, main, fast);
      var moribund := l.prev[TAIL];
      if moribund == HEAD {
        return false;
      }
      CoreEvict(l, key, home, main, fast);
      EvictRest(key, home, main, fast, frozen.Keys, table);
      ButlastBelow(main, next);
      var k := key[moribund];
      l, main, home, table := Delink(l, moribund), Butlast(main), home - {k}, table - {k};
      return true;
    }

    /** The new node goes to the head of the DC. */
    method Push(k: Key, n: Id)
      requires Sound() && k !in home && k in table && table[k].node == Some(n) && n !in main && n !in fast && OUT < n < next
      modifies this`l, this`main, this`home, this`key
      ensures Sound() && main == [n] + old(main) && home == old(home)[k := n] && key == old(key)[n := k]
    {
      CorePush(l, key, home, main, fast, n, k);
      IcedPush(frozen.Keys, home, fast, k, n);
      BothBelow([n], main, next);
      l, main, home, key := PushFront(l, n), [n] + main, home[k := n], key[n := k];
    }

    /**
     A key that is present gets the new value and a node linked nowhere: afterwards the fast hash is
     stale exactly when it holds another value for the key. A new key goes to the head of the DC; the
     DC's last node makes room if the cache is full, and one more if it was overfull.
     */
    method Insert(k: Key, value: V) returns (added: bool)
      requires Valid()
      modifies this`l, this`main, this`home, this`key, this`table, this`size, this`next
      ensures Valid() && added == (!noInsert && k !in old(table))
      ensures noInsert ==> table == old(table) && main == old(main)
      ensures !noInsert && k in old(table) ==> table == old(table)[k := Entry(value, None)] && main == old(main)
      ensures !noInsert && k in old(table) && old(Agrees()) ==> (Agrees() <==> (k in frozen ==> frozen[k] == value))
      ensures added ==> main == Inserted(old(main), old(next), old(size), maxSize)
      ensures added ==> Within(table, old(table)[k := Entry(value, Some(old(next)))]) && key == old(key)[old(next) := k]
      ensures added && old(Agrees()) ==> Agrees()
    {
      if noInsert {
        return false;
      }
      if k in table {
        table := table[k := Entry(value, None)];
        return false;
      }
      ghost var whole := table[k := Entry(value, Some(next))];
      Enter(k, value);
      StillCopies(frozen, home, fast, old(table), whole, table, k);
      return true;
    }

    method Enter(k: Key, value: V)
      requires Valid() && !noInsert && k !in table
      modifies this`l, this`main, this`home, this`key, this`table, this`size, this`next
      ensures Valid() && main == Inserted(old(main), old(next), old(size), maxSize)
      ensures Within(table, old(table)[k := Entry(value, Some(old(next)))]) && key == old(key)[old(next) := k]
    {
      var n := Register(k, value);
      Settle(k, n);
    }

    /** The insert after the map entry has been made. */
    method Settle(k: Key, n: Id)
      requires Sound() && k in table && table[k].node == Some(n) && home.Keys == table.Keys - {k} && |table| == size + 1
      requires n !in main && n !in fast && OUT < n < next && size <= maxSize + 1
      modifies this`l, this`main, this`home, this`key, this`table, this`size
      ensures Sound() && home.Keys == table.Keys && |table| == size <= maxSize + 1
      ensures Within(table, old(table)) && key == old(key)[n := k]
      ensures main == Inserted(old(main), n, old(size), maxSize)
    {
      var s := size;
      Place(k, n);
      if s > maxSize {
        ghost var placed := table;
        Trim();
        WithinBoth(table, placed, old(table));
      }
    }

    /** The insert up to where the new node is linked and counted. */
    method Place(k: Key, n: Id)
      requires Sound() && k in table && table[k].node == Some(n) && home.Keys == table.Keys - {k} && |table| == size + 1
      requires n !in main && n !in fast && OUT < n < next
      modifies this`l, this`main, this`home, this`key, this`table, this`size
      ensures Sound() && home.Keys == table.Keys && |table| == size && Within(table, old(table))
      ensures key == old(key)[n := k]
      ensures main == [n] + (if old(size) >= maxSize && old(main) != [] then Butlast(old(main)) else old(main))
      ensures size == old(size) + (if old(size) >= maxSize && old(main) != [] then 0 else 1)
    {
      var done := MakeRoom(k);
      ButlastKeeps(old(main), n);
      Push(k, n);
      if !done {
        size := size + 1;
      }
    }

    /** The entry in the map and its node, not linked yet. */
    method Register(k: Key, value: V) returns (n: Id)
      requires Valid() && k !in table
      modifies this`table, this`next
      ensures Sound() && n == old(next) && n < next && table == old(table)[k := Entry(value, Some(n))]
      ensures home.Keys == table.Keys - {k} && |table| == size + 1 && n !in main && n !in fast
    {
      n := next;
      FreshNode(main, next);
      FreshNode(fast, next);
      next, table := next + 1, table[k := Entry(value, Some(n))];
    }

    /** The first eviction of an insert. */
    method MakeRoom(k: Key) returns (done: bool)
      requires Sound() && k in table && home.Keys == table.Keys - {k} && |table| == size + 1
      modifies this`l, this`main, this`home, this`table
      ensures Sound() && k in table && table[k] == old(table)[k] && home.Keys == table.Keys - {k}
      ensures done == (size >= maxSize && old(main) != []) && |table| == size + (if done then 0 else 1)
      ensures main == if done then Butlast(old(main)) else old(main)
      ensures Within(table, old(table))
    {
      done := false;
      if size >= maxSize {
        done := Evict();
      }
    }

    /** The second eviction of an insert. */
    method Trim()
      requires Sound() && home.Keys == table.Keys && |table| == size && main != []
      modifies this`l, this`main, this`home, this`table, this`size
      ensures Sound() && home.Keys == table.Keys && |table| == size == old(size) - 1 && main == Butlast(old(main))
      ensures Within(table, old(table))
    {
      var ok := Evict();
      if ok {
        size := size - 1;
      }
    }
  }

  /** Freezing and thawing with nothing in between gives back the list node by node. */
  method FreezeThaw<V>(cache: FreezableLru<V>, fcSize: nat) returns (ok: bool)
    requires cache.Valid() && cache.fast == []
    modifies cache
    ensures ok <==> FC_RELAXATION <= fcSize && fcSize - FC_RELAXATION < |old(cache.main)|
    ensures ok ==> cache.Valid() && cache.main == old(cache.main) && cache.fast == []
    ensures ok ==> cache.table == old(cache.table) && cache.size == old(cache.size)
  {
    ok := cache.ConstructRatio(fcSize);
    if ok {
      cache.Deconstruct();
    }
  }

  /** The same for a full freeze; it leaves the cache open for inserts if and only if the list had a node. */
  method TierThaw<V>(cache: FreezableLru<V>)
    requires cache.Valid() && cache.fast == []
    modifies cache
    ensures cache.Valid() && cache.main == old(cache.main) && cache.fast == [] && cache.table == old(cache.table)
    ensures cache.size == old(cache.size)
    ensures !cache.noInsert <==> old(cache.main) != []
  {
    cache.ConstructTier();
    cache.Deconstruct();
  }

  /** When nothing is stale, a find answers what the map holds. */
  method FindAgrees<V>(cache: FreezableLru<V>, k: Key, locked: bool) returns (value: Option<V>)
    requires cache.Valid() && cache.Agrees()
    modifies cache
    ensures cache.Valid() && cache.Agrees() && cache.table == old(cache.table)
    ensures value == if k in cache.table then Some(cache.table[k].value) else None
  {
    value := cache.Find(k, locked);
  }

  /** Inserting a frozen key anew: the map holds the second value, and a find answers the first. */
  method StaleAnswer<V>(k: Key, first: V, second: V, locked: bool) returns (cache: FreezableLru<V>, value: Option<V>)
    ensures cache.Valid() && k in cache.table && cache.table[k].value == second && value == Some(first)
  {
    cache := FrozenOne(k, first);
    var _ := cache.Insert(k, second);
    value := cache.Find(k, locked);
  }

  /** A cache with one key, which is frozen. */
  method FrozenOne<V>(k: Key, value: V) returns (cache: FreezableLru<V>)
    ensures fresh(cache) && cache.Valid() && !cache.noInsert && k in cache.table && k in cache.frozen && cache.frozen[k] == value
  {
    cache := new FreezableLru<V>(1);
    var n := cache.next;
    var _ := cache.Insert(k, value);
    assert cache.main == [n];
    var _ := cache.ConstructRatio(FC_RELAXATION);
    assert cache.fast == [n];
    IsFrozen(cache.key, cache.home, cache.main, cache.fast, cache.frozen.Keys, n);
  }

  lemma IsFrozen(key: map<Id, Key>, home: map<Key, Id>, main: seq<Id>, fast: seq<Id>, keys: set<Key>, n: Id)
    requires House(key, home, main, fast) && Iced(keys, home, fast) && n in fast
    ensures n in key && key[n] in keys
  {
    assert Listed(key, home, n);
  }

  lemma FreshNode(s: seq<Id>, next: Id)
    requires Below(s, next)
    ensures next !in s && Below(s, next + 1)
  {
  }

  /** The main list after an insert of node n. */
  function Inserted(main: seq<Id>, n: Id, size: nat, maxSize: nat): seq<Id> {
    var pushed := [n] + if size >= maxSize && main != [] then Butlast(main) else main;
    if size > maxSize then Butlast(pushed) else pushed
  }

  /** Entries may be missing; those there are the same. */
  ghost predicate Within<V>(table: map<Key, Entry<V>>, whole: map<Key, Entry<V>>) {
    forall k :: k in table ==> k in whole && table[k] == whole[k]
  }

  lemma WithinBoth<V>(a: map<Key, Entry<V>>, b: map<Key, Entry<V>>, c: map<Key, Entry<V>>)
    requires Within(a, b) && Within(b, c)
    ensures Within(a, c)
  {
  }

  /** No insert of a new key makes the fast hash go stale: what is frozen stays in the map. */
  lemma StillCopies<V>(frozen: map<Key, V>, home: map<Key, Id>, fast: seq<Id>,
                       was: map<Key, Entry<V>>, whole: map<Key, Entry<V>>, table: map<Key, Entry<V>>, k: Key)
    requires Iced(frozen.Keys, home, fast) && home.Keys == table.Keys && Within(table, whole)
    requires k in whole && k !in was && whole == was[k := whole[k]]
    ensures Copies(frozen, was) ==> Copies(frozen, table)
  {
  }

  function Butlast(s: seq<Id>): seq<Id>
    requires s != []
  {
    s[..|s| - 1]
  }

  ghost predicate VictimIn(key: map<Id, Key>, home: map<Key, Id>, n: Id) {
    n in key && key[n] in home
  }

  lemma ButlastBelow(s: seq<Id>, next: Id)
    requires s != [] && Below(s, next)
    ensures Below(Butlast(s), next)
  {
    PartsBelow(s, |s| - 1, next);
  }

  lemma ButlastKeeps(s: seq<Id>, n: Id)
    requires n !in s
    ensures s != [] ==> n !in Butlast(s)
  {
  }

  /** An evicted key is not a frozen one. */
  lemma EvictRest<V>(key: map<Id, Key>, home: map<Key, Id>, main: seq<Id>, fast: seq<Id>, keys: set<Key>, table: map<Key, Entry<V>>)
    requires House(key, home, main, fast) && Disjoint(main, fast) && main != [] && Iced(keys, home, fast) && Pointers(table, home)
    ensures VictimIn(key, home, Last(main))
    ensures var k := key[Last(main)]; k !in keys && Iced(keys, home - {k}, fast) && Pointers(table - {k}, home - {k})
  {
    assert Last(main) in main && Listed(key, home, Last(main));
  }

  lemma IcedPush(keys: set<Key>, home: map<Key, Id>, fast: seq<Id>, k: Key, n: Id)
    requires Iced(keys, home, fast) && k !in home && n !in fast
    ensures Iced(keys, home[k := n], fast)
  {
  }

  /** All nodes have been allocated. */
  ghost predicate Below(s: seq<Id>, next: Id) {
    forall i :: 0 <= i < |s| ==> s[i] < next
  }

  /** The map's pointer to a node leads to the key's home, or to a node that is linked nowhere. */
  ghost predicate Pointers<V>(table: map<Key, Entry<V>>, home: map<Key, Id>) {
    forall k :: k in table && k in home ==> table[k].node.None? || table[k].node == Some(home[k])
  }

  ghost function Pos(s: seq<Id>, x: Id): (i: nat)
    requires x in s
    ensures i < |s| && s[i] == x
  {
    var i :| 0 <= i < |s| && s[i] == x;
    i
  }

  ghost function ToFront(s: seq<Id>, x: Id): seq<Id> {
    if x in s then [x] + DropAt(s, Pos(s, x)) else s
  }

  lemma FrontBelow(s: seq<Id>, n: Id, next: Id)
    requires n in s && Below(s, next)
    ensures Below(ToFront(s, n), next)
  {
    var i := Pos(s, n);
    forall j | 0 <= j < |ToFront(s, n)| ensures ToFront(s, n)[j] < next {
      assert ToFront(s, n)[j] == s[if j == 0 then i else if j <= i then j - 1 else j];
    }
  }

  lemma EmptyLists(l: Links)
    requires l == Links(map[TAIL := HEAD, FAST_TAIL := FAST_HEAD], map[HEAD := TAIL, FAST_HEAD := FAST_TAIL])
    ensures Lists(l, [], [])
  {
    assert Main([]) == [HEAD, TAIL] && FastOf([]) == [FAST_HEAD, FAST_TAIL];
  }

  lemma InMain(key: map<Id, Key>, home: map<Key, Id>, main: seq<Id>, fast: seq<Id>, keys: set<Key>, k: Key)
    requires House(key, home, main, fast) && Iced(keys, home, fast) && k in home && k !in keys
    ensures home[k] in main
  {
    assert Housed(key, home, main, fast, k);
  }

  lemma TierMiss(key: map<Id, Key>, home: map<Key, Id>, main: seq<Id>, fast: seq<Id>, keys: set<Key>, k: Key)
    requires House(key, home, main, fast) && Iced(keys, home, fast) && main == [] && k !in keys
    ensures k !in home
  {
    if k in home {
      InMain(key, home, main, fast, keys, k);
    }
  }

  lemma LinkedNotOut(l: Links, main: seq<Id>, fast: seq<Id>, i: nat)
    requires Lists(l, main, fast) && i < |main|
    ensures main[i] in l.prev && main[i] in l.next && l.prev[main[i]] != OUT
  {
    var s := Main(main);
    assert Joined(l, s, i) && Joined(l, s, i + 1);
    assert s[i + 1] == main[i];
    assert i > 0 ==> s[i] == main[i - 1] && main[i - 1] in main;
  }

  lemma PartsBelow(main: seq<Id>, m: nat, next: Id)
    requires m <= |main| && Below(main, next)
    ensures Below(main[..m], next) && Below(main[m..], next)
  {
  }

  lemma ScanOf(l: Links, main: seq<Id>)
    requires Chain(l, Main(main)) && Nodes(main)
    ensures HEAD in l.next && l.next[HEAD] == First(main + [TAIL])
    ensures Chain(SetNext(l, FAST_HEAD, l.next[HEAD]), main + [TAIL])
  {
    assert Main(main) == [HEAD] + (main + [TAIL]);
    ChainSplit(l, [HEAD], main + [TAIL]);
    OtherChain(l, SetNext(l, FAST_HEAD, l.next[HEAD]), {FAST_HEAD}, main + [TAIL]);
  }

  lemma BothBelow(s: seq<Id>, t: seq<Id>, next: Id)
    requires Below(s, next) && Below(t, next)
    ensures Below(s + t, next)
  {
  }

  lemma FastScan(l: Links, fast: seq<Id>)
    requires Chain(l, FastOf(fast))
    ensures FAST_HEAD in l.next && l.next[FAST_HEAD] == First(fast + [FAST_TAIL]) && Chain(l, fast + [FAST_TAIL])
  {
    assert FastOf(fast) == [FAST_HEAD] + (fast + [FAST_TAIL]);
    ChainSplit(l, [FAST_HEAD], fast + [FAST_TAIL]);
  }

  lemma FastEmptyIff(l: Links, main: seq<Id>, fast: seq<Id>)
    requires Lists(l, main, fast)
    ensures FAST_HEAD in l.next && (l.next[FAST_HEAD] == FAST_TAIL <==> fast == [])
  {
    FastScan(l, fast);
    assert fast != [] ==> fast[0] in fast;
  }

  lemma MainEmptyIff(l: Links, main: seq<Id>, fast: seq<Id>)
    requires Lists(l, main, fast)
    ensures TAIL in l.prev && l.prev[TAIL] == Last([HEAD] + main) && (l.prev[TAIL] == HEAD <==> main == [])
  {
    ChainSplit(l, [HEAD] + main, [TAIL]);
    assert main != [] ==> Last(main) in main;
  }
}
