/**
 What every step of the group commit keeps: the shape of the lists, the handshake of each writer
 with whoever sets its state word, the progress of each leader through its group, and which data
 are in which log.
 */
module GroupCommitInv {
  import opened Options
  import opened GroupCommit

  // ---------------------------------------------------------------- invariant: the lists

  /** The stack and the groups are chains of link_older pointers, and each writer has one place. */
  ghost predicate Shape(s: State) {
    ShapeIn(s.newest, s.older, s.pile, s.groups, s.place)
  }

  ghost predicate ShapeIn(newest: Option<Id>, older: map<Id, Option<Id>>, pile: seq<Id>, groups: map<Id, seq<Id>>, place: map<Id, Place>) {
    && newest == Ptr(pile, |pile| - 1)
    && (forall i {:trigger Chained(older, pile, i)} :: 0 <= i < |pile| ==> Chained(older, pile, i))
    && (forall i :: 0 <= i < |pile| ==> pile[i] in place && place[pile[i]] == Piled(i))
    && Ends(groups)
    && (forall g, j {:trigger Chained(older, groups[g], j)} :: g in groups && 0 <= j < |groups[g]| ==> Chained(older, groups[g], j))
    && (forall g, j :: g in groups && 0 <= j < |groups[g]| ==> groups[g][j] in place && place[groups[g][j]] == Grouped(g, j))
    && (forall w {:trigger Placed(pile, groups, w, place[w])} :: w in place ==> Placed(pile, groups, w, place[w]))
  }

  /** The leader of a group is its newest writer. */
  ghost predicate Ends(groups: map<Id, seq<Id>>) {
    forall g <- groups :: groups[g] != [] && groups[g][|groups[g]| - 1] == g
  }

  ghost predicate Chained(older: map<Id, Option<Id>>, g: seq<Id>, i: nat)
    requires i < |g|
  {
    g[i] in older && older[g[i]] == Ptr(g, i - 1)
  }

  ghost predicate Placed(pile: seq<Id>, groups: map<Id, seq<Id>>, w: Id, p: Place) {
    match p
    case Piled(i) => i < |pile| && pile[i] == w
    case Grouped(g, j) => g in groups && j < |groups[g]| && groups[g][j] == w
  }

  // ---------------------------------------------------------------- invariant: the handshake

  ghost predicate Unset(f: Option<Phase>) {
    f == None || f == Some(ToLoad) || f == Some(ToCas)
  }

  /** State word, waiting thread, setting thread and mutex of one writer fit together. */
  ghost predicate Shake(p: Pc, x: Word, f: Option<Phase>, made: bool, o: Option<Owner>) {
    match p
    case Load => x.Init? && f == None && o == None
    case Cas(_) => x.Init? && f == None && o == None
    case Spin => Fast(x, f, o)
    case Made => Fast(x, f, o) && made
    case TryLock => Fast(x, f, o) && made
    case Acquire => made && Slow(x, f, o)
    case Sleeping => made && Slow(x, f, o) && (x.Locked? || f == Some(ToNotify))
    case Holding => made && o == Some(Self) && (if x.Locked? then Unset(f) || f == Some(ToLock) else !x.Init? && f == None)
    case Woke(y) => x == y && (x.Leader? || x.Completed?) && f == None && o == None
    case Returned => (x.Leader? || x.Completed?) && f == None && o == None
    case _ => x.Leader? && f == None && o == None
  }

  ghost predicate Fast(x: Word, f: Option<Phase>, o: Option<Owner>) {
    o == None && !x.Locked? && (if x.Init? then Unset(f) else f == None)
  }

  ghost predicate Slow(x: Word, f: Option<Phase>, o: Option<Owner>) {
    match x
    case Init => false
    case Locked => if f == Some(ToStore) then o == Some(Setter) else (Unset(f) || f == Some(ToLock)) && o == None
    case _ => if f == None then o == None else (f == Some(ToNotify) || f == Some(ToUnlock)) && o == Some(Setter)
  }

  function PhaseOf(setting: map<Id, Phase>, w: Id): Option<Phase> {
    if w in setting then Some(setting[w]) else None
  }

  ghost predicate Shaken(s: State, w: Id)
    requires w in s.pc && w in s.word
  {
    Shake(s.pc[w], s.word[w], PhaseOf(s.setting, w), w in s.made, OwnerOf(s.owner, w))
  }

  // ---------------------------------------------------------------- invariant: who does what

  /** Not told anything yet. */
  ghost predicate Unmarked(x: Word, f: Option<Phase>) {
    (x.Init? || x.Locked?) && f == None
  }

  /** Being told `goal` by somebody. */
  ghost predicate Marking(x: Word, f: Option<Phase>, goal: Word) {
    match f
    case None => false
    case Some(p) => if p.ToNotify? || p.ToUnlock? then x == goal else x.Init? || x.Locked?
  }

  ghost predicate Marked(x: Word, f: Option<Phase>, goal: Word) {
    x == goal && f == None
  }

  /** The leader at `p` has completed the member at index j. */
  predicate Past(p: Pc, j: int) {
    match p
    case Finish(_, k) => j > k
    case FinishSet(_, _, k) => j > k
    case Returned => true
    case _ => false
  }

  ghost predicate MemberOk(p: Pc, g: seq<Id>, j: nat, w: Id, x: Word, f: Option<Phase>)
    requires j < |g|
  {
    if Past(p, j) then Marked(x, f, Completed)
    else if p.FinishSet? && p.k == j then Marking(x, f, Completed)
    else Unmarked(x, f)
  }

  ghost predicate LeaderOk(server: Server, w: Id, x: Word, f: Option<Phase>) {
    if server == Electing(w) then Marking(x, f, Leader) else Marked(x, f, Leader)
  }

  /** The leader's pointer is where its index says. */
  ghost predicate CursorOk(p: Pc, g: seq<Id>) {
    match p
    case Gather(c, k) => -1 <= k <= |g| - 2 && c == Ptr(g, k)
    case Append(c, k) => -1 <= k <= |g| - 1 && c == Ptr(g, k)
    case Finish(c, k) => -1 <= k <= |g| - 2 && c == Ptr(g, k)
    case FinishSet(t, n, k) => 0 <= k <= |g| - 2 && t == g[k] && n == Ptr(g, k - 1)
    case _ => true
  }

  ghost predicate RoleOk(s: State, w: Id)
    requires w in s.pc && w in s.word
  {
    if w !in s.place then s.pc[w].Load? || s.pc[w].Cas?
    else
      && !s.pc[w].Load? && !s.pc[w].Cas?
      && match s.place[w]
         case Piled(_) => Unmarked(s.word[w], PhaseOf(s.setting, w))
         case Grouped(g, j) =>
           && g in s.groups && g in s.pc && j < |s.groups[g]|
           && if w == g then LeaderOk(s.server, w, s.word[w], PhaseOf(s.setting, w)) && CursorOk(s.pc[w], s.groups[w])
              else MemberOk(s.pc[g], s.groups[g], j, w, s.word[w], PhaseOf(s.setting, w))
  }

  /** The server's business: the group it has just formed. */
  ghost predicate ServerOk(s: State) {
    s.server.Electing? ==> s.server.h in s.groups
  }

  // ---------------------------------------------------------------- invariant: logs and data

  /** A group holds its log until its leader has freed it. */
  predicate HoldsLog(p: Pc) {
    !p.Finish? && !p.FinishSet? && !p.Returned?
  }

  ghost predicate LogsOk(s: State) {
    && (forall g <- s.groups :: g in s.pc && g in s.log && (HoldsLog(s.pc[g]) ==> s.log[g] in s.busy))
    && (forall g <- s.groups, h <- s.groups :: g != h && HoldsLog(s.pc[g]) && HoldsLog(s.pc[h]) ==> s.log[g] != s.log[h])
    && (s.server.Grabbed? || s.server.Releasing? ==>
          s.server.l in s.busy && forall g <- s.groups :: HoldsLog(s.pc[g]) ==> s.log[g] != s.server.l)
  }

  predicate HasAppended(p: Pc, j: int) {
    match p
    case Append(_, k) => j > k
    case Syncing => true
    case Freeing => true
    case Finish(_, _) => true
    case FinishSet(_, _, _) => true
    case Returned => true
    case _ => false
  }

  predicate HasSynced(p: Pc) {
    p.Freeing? || p.Finish? || p.FinishSet? || p.Returned?
  }

  /** Data of this writer are in the log of its group once the leader has come past it, not before. */
  ghost predicate DataOk(s: State, w: Id) {
    if w in s.place && s.place[w].Grouped? && s.place[w].leader in s.pc && s.place[w].leader in s.log then
      var g := s.place[w].leader;
      && (w in Ids(s.appended) <==> HasAppended(s.pc[g], s.place[w].j))
      && (w in Ids(s.appended) ==> w in IdsIn(s.appended, s.log[g]))
      && (HasSynced(s.pc[g]) ==> w in s.synced)
    else
      w !in Ids(s.appended)
  }

  ghost predicate NoDup(appended: seq<Entry>) {
    forall i, j :: 0 <= i < j < |appended| ==> appended[i].id != appended[j].id
  }

  predicate HasGathered(p: Pc, j: int) {
    match p
    case Gather(_, k) => j > k
    case Append(_, _) => true
    case Syncing => true
    case Freeing => true
    case Finish(_, _) => true
    case FinishSet(_, _, _) => true
    case Returned => true
    case _ => false
  }

  /** The group pointer of a member leads to its group's leader once that has gathered it. */
  ghost predicate GroupPtrOk(s: State, w: Id) {
    && (w in s.groupOf ==> w in s.place && s.place[w].Grouped? && s.groupOf[w] == s.place[w].leader)
    && (w in s.place && s.place[w].Grouped? && s.place[w].leader in s.pc ==>
          HasGathered(s.pc[s.place[w].leader], s.place[w].j) ==> w in s.groupOf)
  }

  ghost predicate Keys(s: State) {
    && s.word.Keys == s.pc.Keys && s.older.Keys == s.pc.Keys && s.place.Keys <= s.pc.Keys
    && s.setting.Keys <= s.pc.Keys && s.owner.Keys <= s.pc.Keys && s.groupOf.Keys <= s.pc.Keys
    && Ids(s.appended) <= s.pc.Keys
  }

  ghost predicate WriterOk(s: State, w: Id)
    requires w in s.pc && w in s.word
  {
    Shaken(s, w) && RoleOk(s, w) && DataOk(s, w) && GroupPtrOk(s, w)
  }

  ghost predicate Globals(s: State) {
    Keys(s) && Shape(s) && ServerOk(s) && LogsOk(s) && NoDup(s.appended)
  }

  ghost predicate Inv(s: State) {
    Globals(s) && forall w {:trigger WriterOk(s, w)} :: w in s.pc ==> WriterOk(s, w)
  }

  lemma InitInv(s: State)
    requires InitState(s)
    ensures Inv(s)
  {
  }

  // ---------------------------------------------------------------- waiting

  /** Before it leads, a thread's position says nothing about a group. */
  predicate Early(p: Pc) {
    p.Load? || p.Cas? || p.Spin? || p.Made? || p.TryLock? || p.Acquire? || p.Holding? || p.Sleeping? || p.Woke?
  }

  ghost predicate SameBut<V>(m: map<Id, V>, m': map<Id, V>, w: Id) {
    && (forall u :: u != w ==> (u in m <==> u in m'))
    && (forall u :: u != w && u in m && u in m' ==> m[u] == m'[u])
  }

  /** A writer that leads no group, or does not lead yet, moves: nobody else notices. */
  ghost predicate OwnMove(s: State, s': State, w: Id) {
    && w in s.pc && w in s.word
    && s'.logs == s.logs && s'.newest == s.newest && s'.busy == s.busy && s'.server == s.server
    && s'.older == s.older && s'.log == s.log && s'.groupOf == s.groupOf && s'.appended == s.appended
    && s'.synced == s.synced && s'.pile == s.pile && s'.groups == s.groups && s'.place == s.place
    && w in s'.pc && SameBut(s.pc, s'.pc, w)
    && w in s'.word && SameBut(s.word, s'.word, w)
    && SameBut(s.setting, s'.setting, w) && SameBut(s.owner, s'.owner, w)
    && (forall u :: u != w ==> (u in s.made <==> u in s'.made))
    && ((Early(s.pc[w]) && Early(s'.pc[w])) || w !in s.groups)
  }

  lemma OtherUnshaken(s: State, s': State, w: Id, u: Id)
    requires Keys(s) && OwnMove(s, s', w) && u in s.pc && u != w && Shaken(s, u)
    ensures Shaken(s', u)
  {
    assert PhaseOf(s'.setting, u) == PhaseOf(s.setting, u);
    assert OwnerOf(s'.owner, u) == OwnerOf(s.owner, u);
  }

  lemma OtherRole(s: State, s': State, w: Id, u: Id)
    requires Keys(s) && OwnMove(s, s', w) && u in s.pc && u != w && RoleOk(s, u)
    ensures RoleOk(s', u)
  {
    assert PhaseOf(s'.setting, u) == PhaseOf(s.setting, u);
  }

  lemma OwnMoveData(s: State, s': State, w: Id, u: Id)
    requires Keys(s) && Shape(s) && OwnMove(s, s', w) && u in s.pc && DataOk(s, u) && GroupPtrOk(s, u)
    ensures DataOk(s', u) && GroupPtrOk(s', u)
  {
    if u in s.place {
      assert Placed(s.pile, s.groups, u, s.place[u]);
    }
  }

  lemma OwnMoveGlobals(s: State, s': State, w: Id)
    requires Globals(s) && OwnMove(s, s', w)
    ensures Globals(s') && s'.pc.Keys == s.pc.Keys
  {
    forall v ensures v in s'.pc.Keys <==> v in s.pc.Keys {
    }
    forall v ensures v in s'.word.Keys <==> v in s.word.Keys {
    }
    forall v | v in s'.setting.Keys ensures v in s'.pc.Keys {
      assert v == w || v in s.setting.Keys;
    }
    forall v | v in s'.owner.Keys ensures v in s'.pc.Keys {
      assert v == w || v in s.owner.Keys;
    }
    OwnMoveLogs(s, s', w);
  }

  lemma OwnMoveLogs(s: State, s': State, w: Id)
    requires LogsOk(s) && OwnMove(s, s', w)
    ensures LogsOk(s')
  {
    assert forall g <- s.groups :: HoldsLog(s'.pc[g]) == HoldsLog(s.pc[g]);
  }

  /** What is left to show for a step of a waiting writer. */
  lemma OwnMoveInv(s: State, s': State, w: Id)
    requires Inv(s) && OwnMove(s, s', w) && Shaken(s', w) && RoleOk(s', w)
    ensures Inv(s')
  {
    OwnMoveGlobals(s, s', w);
    forall u <- s'.pc ensures WriterOk(s', u) {
      assert WriterOk(s, u);
      OwnMoveData(s, s', w, u);
      if u != w {
        OtherUnshaken(s, s', w, u);
        OtherRole(s, s', w, u);
      }
    }
  }

  lemma MovedIsOwnMove(s: State, w: Id, p: Pc, x: Word, made: bool, o: Option<Owner>)
    requires w in s.pc && w in s.word && ((Early(s.pc[w]) && Early(p)) || w !in s.groups)
    ensures OwnMove(s, Moved(s, w, p, x, made, o), w)
  {
  }

  lemma MovedShaken(s: State, w: Id, p: Pc, x: Word, made: bool, o: Option<Owner>)
    requires Shake(p, x, PhaseOf(s.setting, w), made, o)
    ensures Shaken(Moved(s, w, p, x, made, o), w)
  {
  }

  /** The tests the waiting writer makes before it moves. */
  ghost predicate MayMove(a: WriterAct, m: Move)
    requires Waits(a)
  {
    match a
    case LoadNewest => m.p == Load
    case CasFail => m.p.Cas?
    case SpinSee => m.p == Spin && (m.x.Leader? || m.x.Completed?)
    case MakeMutex => m.p == Spin
    case LoadAgain => m.p == Made
    case LockWord => m.p == TryLock
    case AcquireMutex => m.p == Acquire && m.o == None
    case TestWord => m.p == Holding
    case Wake => m.p == Sleeping
    case ReturnCompleted => m.p == Woke(Completed)
  }

  /** Every step of waiting keeps the writer in tune with whoever sets its word. */
  lemma WaitShaken(a: WriterAct, newest: Option<Id>, m: Move, f: Option<Phase>)
    requires Waits(a) && MayMove(a, m) && Shake(m.p, m.x, f, m.made, m.o)
    ensures var n := WaitMove(a, newest, m);
      && Shake(n.p, n.x, f, n.made, n.o)
      && (n.x == m.x || (m.x.Init? && n.x.Locked?))
      && (Early(m.p) && (Early(n.p) || n.p.Returned?))
      && ((n.p.Load? || n.p.Cas?) <==> (m.p.Load? || m.p.Cas?))
      && (n.p.Returned? ==> m.x.Completed?)
  {
  }

  lemma MovedRole(s: State, s': State, w: Id, p: Pc, x: Word, made: bool, o: Option<Owner>)
    requires w in s.pc && w in s.word && w in s'.pc && w in s'.word
    requires s' == Moved(s, w, p, x, made, o)
    requires RoleOk(s, w)
    requires w in s.place ==> Placed(s.pile, s.groups, w, s.place[w])
    requires x == s.word[w] || (s.word[w].Init? && x.Locked?)
    requires Early(s.pc[w]) && (Early(p) || (p.Returned? && w !in s.groups))
    requires (p.Load? || p.Cas?) <==> (s.pc[w].Load? || s.pc[w].Cas?)
    ensures RoleOk(s', w)
  {
  }

  lemma WaitPieces(s: State, w: Id, a: WriterAct)
    requires WriterEnabled(s, w, a) && Waits(a) && w in s.pc && w in s.word && Shaken(s, w) && RoleOk(s, w)
    requires w in s.place ==> Placed(s.pile, s.groups, w, s.place[w])
    requires a.ReturnCompleted? ==> w !in s.groups
    ensures var s' := DoWriter(s, w, a);
            OwnMove(s, s', w) && Shaken(s', w) && RoleOk(s', w)
  {
    var m := Move(s.pc[w], s.word[w], w in s.made, OwnerOf(s.owner, w));
    var n := WaitMove(a, s.newest, m);
    WaitShaken(a, s.newest, m, PhaseOf(s.setting, w));
    MovedIsOwnMove(s, w, n.p, n.x, n.made, n.o);
    MovedShaken(s, w, n.p, n.x, n.made, n.o);
    MovedRole(s, Moved(s, w, n.p, n.x, n.made, n.o), w, n.p, n.x, n.made, n.o);
  }

  lemma WaitStep(s: State, w: Id, a: WriterAct)
    requires Inv(s) && WriterEnabled(s, w, a) && Waits(a)
    ensures Inv(DoWriter(s, w, a))
  {
    assert WriterOk(s, w);
    if a.ReturnCompleted? && w in s.groups {
      LeaderIsMarked(s, w);
      assert false;
    }
    WaitPieces(s, w, a);
    OwnMoveInv(s, DoWriter(s, w, a), w);
  }

  /** The first of a group has the word of a leader or none yet. */
  lemma LeaderIsMarked(s: State, w: Id)
    requires Inv(s) && w in s.groups
    ensures w in s.pc && w in s.place && s.place[w] == Grouped(w, |s.groups[w]| - 1) && !s.word[w].Completed?
  {
    var g := s.groups[w];
    assert g[|g| - 1] in s.place;
    assert WriterOk(s, w);
  }

  // ---------------------------------------------------------------- pushing

  lemma ArriveShape(s: State, w: Id)
    requires Keys(s) && Shape(s) && w !in s.pc
    ensures Shape(DoWriter(s, w, Arrive))
  {
    var s' := DoWriter(s, w, Arrive);
    forall i | 0 <= i < |s.pile| ensures Chained(s'.older, s.pile, i) {
      assert Chained(s.older, s.pile, i);
    }
    forall g, j | g in s.groups && 0 <= j < |s.groups[g]| ensures Chained(s'.older, s.groups[g], j) {
      assert Chained(s.older, s.groups[g], j);
    }
  }

  lemma ArriveLogs(s: State, w: Id)
    requires Keys(s) && LogsOk(s) && w !in s.pc
    ensures LogsOk(DoWriter(s, w, Arrive)) && Keys(DoWriter(s, w, Arrive))
  {
    assert w !in s.groups;
  }

  lemma ArriveOther(s: State, w: Id, u: Id)
    requires Keys(s) && Shape(s) && LogsOk(s) && w !in s.pc && u in s.pc && WriterOk(s, u)
    ensures WriterOk(DoWriter(s, w, Arrive), u)
  {
    if u in s.place {
      assert Placed(s.pile, s.groups, u, s.place[u]);
    }
  }

  lemma ArriveSelf(s: State, w: Id)
    requires Keys(s) && w !in s.pc
    ensures WriterOk(DoWriter(s, w, Arrive), w)
  {
    assert w !in s.setting.Keys && w !in s.owner.Keys && w !in s.groupOf.Keys && w !in s.place.Keys;
  }

  lemma ArriveStep(s: State, w: Id)
    requires Inv(s) && w !in s.pc
    ensures Inv(DoWriter(s, w, Arrive))
  {
    var s' := DoWriter(s, w, Arrive);
    ArriveShape(s, w);
    ArriveLogs(s, w);
    ArriveSelf(s, w);
    forall u <- s'.pc ensures WriterOk(s', u) {
      if u != w {
        ArriveOther(s, w, u);
      }
    }
  }

  lemma PushPile(s: State, w: Id, i: nat)
    requires Shape(s) && w in s.pc && s.pc[w].Cas? && s.newest == s.pc[w].expected && w !in s.place
    requires i <= |s.pile|
    ensures var s' := DoPush(s, w);
      Chained(s'.older, s'.pile, i) && s'.pile[i] in s'.place && s'.place[s'.pile[i]] == Piled(i)
  {
    if i < |s.pile| {
      assert Chained(s.older, s.pile, i);
    }
  }

  lemma PushGroups(s: State, w: Id, g: Id, j: nat)
    requires Shape(s) && w in s.pc && s.pc[w].Cas? && w !in s.place && g in s.groups && j < |s.groups[g]|
    ensures var s' := DoPush(s, w);
      Chained(s'.older, s.groups[g], j) && s.groups[g][j] in s'.place && s'.place[s.groups[g][j]] == Grouped(g, j)
  {
    assert Chained(s.older, s.groups[g], j);
  }

  lemma PushPlaced(s: State, w: Id, u: Id)
    requires Shape(s) && w in s.pc && s.pc[w].Cas? && u in DoPush(s, w).place
    ensures var s' := DoPush(s, w); Placed(s'.pile, s'.groups, u, s'.place[u])
  {
    if u != w {
      assert Placed(s.pile, s.groups, u, s.place[u]);
    }
  }

  lemma PushShape(s: State, w: Id)
    requires Shape(s) && w in s.pc && s.pc[w].Cas? && s.newest == s.pc[w].expected && w !in s.place
    ensures Shape(DoPush(s, w))
  {
    var s' := DoPush(s, w);
    forall i | 0 <= i < |s'.pile|
      ensures Chained(s'.older, s'.pile, i) && s'.pile[i] in s'.place && s'.place[s'.pile[i]] == Piled(i)
    {
      PushPile(s, w, i);
    }
    forall g, j | g in s.groups && 0 <= j < |s.groups[g]|
      ensures Chained(s'.older, s.groups[g], j) && s.groups[g][j] in s'.place && s'.place[s.groups[g][j]] == Grouped(g, j)
    {
      PushGroups(s, w, g, j);
    }
    forall u <- s'.place ensures Placed(s'.pile, s'.groups, u, s'.place[u]) {
      PushPlaced(s, w, u);
    }
  }

  /** Whoever leads a group is in it, at its end. */
  lemma LeaderIsPlaced(s: State, w: Id)
    requires Shape(s) && w in s.groups
    ensures w in s.place && s.groups[w] != [] && s.place[w] == Grouped(w, |s.groups[w]| - 1)
  {
    var g := s.groups[w];
    assert g[|g| - 1] in s.place;
  }

  lemma PushOther(s: State, w: Id, u: Id)
    requires Keys(s) && Shape(s) && w in s.pc && s.pc[w].Cas? && w !in s.place
    requires u in s.pc && u != w && WriterOk(s, u)
    ensures WriterOk(DoPush(s, w), u)
  {
    if u in s.place {
      assert Placed(s.pile, s.groups, u, s.place[u]);
      if s.place[u].Grouped? {
        LeaderIsPlaced(s, s.place[u].leader);
      }
    }
  }

  lemma PushSelf(s: State, w: Id)
    requires w in s.pc && s.pc[w].Cas? && w in s.word && WriterOk(s, w)
    ensures WriterOk(DoPush(s, w), w)
  {
  }

  lemma PushGlobals(s: State, w: Id)
    requires Globals(s) && w in s.pc && s.pc[w].Cas? && s.newest == s.pc[w].expected && w !in s.place
    ensures Globals(DoPush(s, w))
  {
    PushShape(s, w);
    if w in s.groups {
      LeaderIsPlaced(s, w);
    }
  }

  lemma PushStep(s: State, w: Id)
    requires Inv(s) && WriterEnabled(s, w, CasPush)
    ensures Inv(DoPush(s, w))
  {
    assert WriterOk(s, w);
    PushGlobals(s, w);
    PushSelf(s, w);
    forall u <- DoPush(s, w).pc ensures WriterOk(DoPush(s, w), u) {
      if u != w {
        PushOther(s, w, u);
      }
    }
  }

  // ---------------------------------------------------------------- setting a state word

  /** Every action of SetState keeps setter and writer in tune and brings the word nearer its goal. */
  lemma SetShaken(f: Phase, goal: Word, m: Move)
    requires Shake(m.p, m.x, Some(f), m.made, m.o) && (goal.Leader? || goal.Completed?)
    requires Marking(m.x, Some(f), goal) && (f.ToLock? ==> m.o == None)
    ensures Early(m.p) && !m.p.Load? && !m.p.Cas? && !m.p.Woke?
    ensures var (n, f') := SetMove(f, goal, m);
      && Shake(n.p, n.x, f', n.made, n.o)
      && (if f'.Some? then Marking(n.x, f', goal) else Marked(n.x, f', goal))
      && Early(n.p) && !n.p.Load? && !n.p.Cas? && (f'.None? ==> n.p == m.p)
  {
  }

  lemma SettingRole(s: State, w: Id)
    requires w in s.setting && w in s.pc && w in s.word && WriterOk(s, w)
    requires s.server == Electing(w) && w in s.place && s.place[w].Grouped? ==> s.place[w].leader == w
    ensures w in s.place && s.place[w].Grouped?
    ensures Marking(s.word[w], PhaseOf(s.setting, w), Goal(s, w))
    ensures var g := s.place[w].leader;
      && g in s.pc && (s.server == Electing(w) <==> g == w)
      && (g != w ==> s.pc[g].FinishSet? && s.pc[g].k == s.place[w].j)
  {
  }

  /** Whose word is being set, and by whom: the server elects a leader, a leader completes a member. */
  lemma SetterIs(s: State, w: Id)
    requires Inv(s) && w in s.setting
    ensures w in s.pc && w in s.word && w in s.place && s.place[w].Grouped?
    ensures Marking(s.word[w], PhaseOf(s.setting, w), Goal(s, w))
    ensures var g := s.place[w].leader;
      && g in s.groups && g in s.pc && s.place[w].j < |s.groups[g]| && s.groups[g][s.place[w].j] == w
      && (s.server == Electing(w) <==> g == w)
      && (g != w ==> s.pc[g].FinishSet? && s.pc[g].k == s.place[w].j)
  {
    assert WriterOk(s, w);
    if s.server == Electing(w) {
      LeaderIsPlaced(s, w);
    }
    SettingRole(s, w);
    assert Placed(s.pile, s.groups, w, s.place[w]);
  }

  ghost function MovedSetting(s: State, w: Id, m: Move, f: Phase): State {
    Moved(s, w, m.p, m.x, m.made, m.o).(setting := s.setting[w := f])
  }

  lemma SettingIsOwnMove(s: State, w: Id, m: Move, f: Phase)
    requires w in s.pc && w in s.word && Early(s.pc[w]) && Early(m.p)
    ensures OwnMove(s, MovedSetting(s, w, m, f), w)
  {
  }

  lemma SettingPieces(s: State, s': State, w: Id, m: Move, f: Phase)
    requires w in s.pc && w in s.word && w in s'.pc && w in s'.word && s' == MovedSetting(s, w, m, f)
    requires Early(m.p) && !m.p.Load? && !m.p.Cas? && Shake(m.p, m.x, Some(f), m.made, m.o)
    requires RoleOk(s, w) && Early(s.pc[w]) && w in s.place && s.place[w].Grouped? && w in s.setting
    requires s.server == Electing(w) <==> s.place[w].leader == w
    requires Marking(s.word[w], PhaseOf(s.setting, w), Goal(s, w)) && Marking(m.x, Some(f), Goal(s, w))
    ensures Shaken(s', w) && RoleOk(s', w)
  {
    assert PhaseOf(s'.setting, w) == Some(f);
  }

  lemma SetGoesOn(s: State, w: Id)
    requires Inv(s) && SetEnabled(s, w) && SetMove(s.setting[w], Goal(s, w), MoveOf(s, w)).1.Some?
    ensures Inv(DoSet(s, w))
  {
    assert WriterOk(s, w);
    SetterIs(s, w);
    SetShaken(s.setting[w], Goal(s, w), MoveOf(s, w));
    var (m, f) := SetMove(s.setting[w], Goal(s, w), MoveOf(s, w));
    SettingIsOwnMove(s, w, m, f.value);
    SettingPieces(s, DoSet(s, w), w, m, f.value);
    OwnMoveInv(s, DoSet(s, w), w);
  }

  ghost function Elected(s: State, w: Id, m: Move): State {
    s.(word := s.word[w := m.x], made := if m.made then s.made + {w} else s.made - {w},
       owner := if m.o.Some? then s.owner[w := m.o.value] else s.owner - {w}, setting := s.setting - {w}, server := Idle)
  }

  lemma ReturnsElected(s: State, w: Id, m: Move)
    requires s.server == Electing(w) && w in s.pc && m.p == s.pc[w]
    ensures Resume(Moved(s, w, m.p, m.x, m.made, m.o), w) == Elected(s, w, m)
  {
    assert s.pc[w := m.p] == s.pc;
  }

  lemma ElectedGlobals(s: State, w: Id, m: Move)
    requires Globals(s) && s.server == Electing(w) && w in s.pc
    ensures Globals(Elected(s, w, m))
  {
    var s' := Elected(s, w, m);
    assert s'.word.Keys == s.word.Keys;
    assert s'.setting.Keys <= s.setting.Keys;
    assert s'.owner.Keys <= s.owner.Keys + {w};
  }

  lemma ElectedSelf(s: State, s': State, w: Id, m: Move)
    requires w in s.pc && w in s.word && s' == Elected(s, w, m) && w in s'.word && WriterOk(s, w)
    requires w in s.place && s.place[w].Grouped? && s.place[w].leader == w
    requires Shake(s.pc[w], m.x, None, m.made, m.o) && Marked(m.x, None, Leader)
    ensures WriterOk(s', w)
  {
    assert PhaseOf(s'.setting, w) == None;
  }

  lemma ElectedOther(s: State, s': State, w: Id, m: Move, u: Id)
    requires w in s.pc && w in s.word && s' == Elected(s, w, m) && s.server == Electing(w)
    requires u in s.pc && u in s.word && u in s'.word && u != w && WriterOk(s, u)
    ensures WriterOk(s', u)
  {
    assert PhaseOf(s'.setting, u) == PhaseOf(s.setting, u);
    assert OwnerOf(s'.owner, u) == OwnerOf(s.owner, u);
  }

  /** The server has told the new leader. */
  lemma SetReturnsToServer(s: State, w: Id)
    requires Inv(s) && SetEnabled(s, w) && SetMove(s.setting[w], Goal(s, w), MoveOf(s, w)).1.None?
    requires s.server == Electing(w)
    ensures Inv(DoSet(s, w))
  {
    assert WriterOk(s, w);
    SetterIs(s, w);
    SetShaken(s.setting[w], Goal(s, w), MoveOf(s, w));
    var (m, f) := SetMove(s.setting[w], Goal(s, w), MoveOf(s, w));
    ReturnsElected(s, w, m);
    ElectedInv(s, Elected(s, w, m), w, m);
  }

  lemma ElectedInv(s: State, s': State, w: Id, m: Move)
    requires Inv(s) && s.server == Electing(w) && w in s.pc && w in s.word && s' == Elected(s, w, m)
    requires w in s.place && s.place[w].Grouped? && s.place[w].leader == w
    requires Shake(s.pc[w], m.x, None, m.made, m.o) && Marked(m.x, None, Leader)
    ensures Inv(s')
  {
    assert WriterOk(s, w);
    ElectedGlobals(s, w, m);
    ElectedSelf(s, s', w, m);
    forall u <- s'.pc ensures WriterOk(s', u) {
      if u != w {
        ElectedOther(s, s', w, m, u);
      }
    }
  }

  /** The leader `g` has completed `w` and goes on to the next member. */
  ghost function Told(s: State, w: Id, m: Move, g: Id): State
    requires g in s.pc && s.pc[g].FinishSet?
  {
    s.(word := s.word[w := m.x], made := if m.made then s.made + {w} else s.made - {w},
       owner := if m.o.Some? then s.owner[w := m.o.value] else s.owner - {w}, setting := s.setting - {w},
       pc := s.pc[g := Finish(s.pc[g].next, s.pc[g].k - 1)])
  }

  /** The leader `g` is completing its member `w`. */
  ghost predicate Telling(s: State, w: Id, g: Id) {
    && w in s.pc && w in s.word && w in s.place && g in s.pc && g in s.groups && g != w
    && s.place[w].Grouped? && s.place[w].leader == g && s.place[w].j < |s.groups[g]|
    && s.pc[g].FinishSet? && s.pc[g].k == s.place[w].j
    && s.server != Electing(w)
  }

  lemma ReturnsTold(s: State, w: Id, m: Move, g: Id)
    requires Telling(s, w, g) && m.p == s.pc[w]
    ensures Resume(Moved(s, w, m.p, m.x, m.made, m.o), w) == Told(s, w, m, g)
  {
    assert s.pc[w := m.p] == s.pc;
  }

  lemma ToldGlobals(s: State, w: Id, m: Move, g: Id)
    requires Globals(s) && Telling(s, w, g)
    ensures Globals(Told(s, w, m, g))
  {
    var s' := Told(s, w, m, g);
    assert s'.word.Keys == s.word.Keys;
    assert s'.pc.Keys == s.pc.Keys;
    assert s'.setting.Keys <= s.setting.Keys;
    assert s'.owner.Keys <= s.owner.Keys + {w};
    ToldLogs(s, w, m, g);
  }

  lemma ToldLogs(s: State, w: Id, m: Move, g: Id)
    requires LogsOk(s) && Telling(s, w, g)
    ensures LogsOk(Told(s, w, m, g))
  {
    assert forall h <- s.groups :: HoldsLog(Told(s, w, m, g).pc[h]) == HoldsLog(s.pc[h]);
  }

  lemma ToldSelf(s: State, s': State, w: Id, m: Move, g: Id)
    requires Telling(s, w, g) && s' == Told(s, w, m, g) && w in s'.pc && w in s'.word && WriterOk(s, w)
    requires Shake(s.pc[w], m.x, None, m.made, m.o) && Marked(m.x, None, Completed)
    ensures WriterOk(s', w)
  {
    assert PhaseOf(s'.setting, w) == None;
  }

  lemma ToldLeader(s: State, s': State, w: Id, m: Move, g: Id)
    requires Telling(s, w, g) && s' == Told(s, w, m, g) && g in s.word && g in s'.word && WriterOk(s, g)
    requires g in s.place && s.place[g] == Grouped(g, |s.groups[g]| - 1)
    ensures WriterOk(s', g)
  {
    assert PhaseOf(s'.setting, g) == PhaseOf(s.setting, g);
  }

  lemma ToldOther(s: State, s': State, w: Id, m: Move, g: Id, u: Id)
    requires Telling(s, w, g) && s' == Told(s, w, m, g)
    requires u in s.pc && u in s.word && u in s'.pc && u in s'.word && u != w && u != g && WriterOk(s, u)
    requires u in s.place && s.place[u].Grouped? && s.place[u].leader == g ==> s.place[u].j != s.pc[g].k
    ensures WriterOk(s', u)
  {
    assert PhaseOf(s'.setting, u) == PhaseOf(s.setting, u);
    assert OwnerOf(s'.owner, u) == OwnerOf(s.owner, u);
  }

  lemma ToldInv(s: State, s': State, w: Id, m: Move, g: Id)
    requires Inv(s) && Telling(s, w, g) && s' == Told(s, w, m, g)
    requires Shake(s.pc[w], m.x, None, m.made, m.o) && Marked(m.x, None, Completed)
    ensures Inv(s')
  {
    ToldGlobals(s, w, m, g);
    forall u <- s'.pc ensures WriterOk(s', u) {
      assert WriterOk(s, u);
      if u == w {
        ToldSelf(s, s', w, m, g);
      } else if u == g {
        LeaderIsPlaced(s, g);
        ToldLeader(s, s', w, m, g);
      } else {
        OnePlace(s, u, w);
        ToldOther(s, s', w, m, g, u);
      }
    }
  }

  /** No two writers have the same place. */
  lemma OnePlace(s: State, u: Id, w: Id)
    requires Shape(s) && u != w
    ensures w in s.place && u in s.place ==> s.place[u] != s.place[w]
  {
    if w in s.place && u in s.place {
      assert Placed(s.pile, s.groups, u, s.place[u]);
      assert Placed(s.pile, s.groups, w, s.place[w]);
    }
  }

  lemma SetReturnsToLeader(s: State, w: Id)
    requires Inv(s) && SetEnabled(s, w) && SetMove(s.setting[w], Goal(s, w), MoveOf(s, w)).1.None?
    requires s.server != Electing(w)
    ensures Inv(DoSet(s, w))
  {
    assert WriterOk(s, w);
    SetterIs(s, w);
    SetShaken(s.setting[w], Goal(s, w), MoveOf(s, w));
    var (m, f) := SetMove(s.setting[w], Goal(s, w), MoveOf(s, w));
    var g := s.place[w].leader;
    ReturnsTold(s, w, m, g);
    ToldInv(s, Told(s, w, m, g), w, m, g);
  }

  lemma SetStep(s: State, w: Id)
    requires Inv(s) && SetEnabled(s, w)
    ensures Inv(DoSet(s, w))
  {
    if SetMove(s.setting[w], Goal(s, w), MoveOf(s, w)).1.Some? {
      SetGoesOn(s, w);
    } else if s.server == Electing(w) {
      SetReturnsToServer(s, w);
    } else {
      SetReturnsToLeader(s, w);
    }
  }

  // ---------------------------------------------------------------- the server

  /** The server moves without electing anybody. */
  lemma ServerMoveInv(s: State, server: Server, busy: set<LogNo>)
    requires Inv(s) && !s.server.Electing? && !server.Electing?
    requires LogsOk(s.(server := server, busy := busy))
    ensures Inv(s.(server := server, busy := busy))
  {
    var s' := s.(server := server, busy := busy);
    forall u <- s'.pc ensures WriterOk(s', u) {
      assert WriterOk(s, u);
      ServerMoveWriter(s, s', server, busy, u);
    }
  }

  lemma ServerMoveWriter(s: State, s': State, server: Server, busy: set<LogNo>, u: Id)
    requires !s.server.Electing? && !server.Electing? && s' == s.(server := server, busy := busy)
    requires u in s.pc && u in s.word && u in s'.pc && u in s'.word && WriterOk(s, u)
    ensures WriterOk(s', u)
  {
  }

  /** A writer that has been pushed and not told anything can be told. */
  lemma BeginSet(p: Pc, x: Word, made: bool, o: Option<Owner>)
    requires Unmarked(x, None) && Shake(p, x, None, made, o) && !p.Load? && !p.Cas?
    ensures Shake(p, x, Some(ToLoad), made, o) && Early(p)
  {
  }

  /** The stack is not empty; `h` is its newest writer. */
  ghost predicate Heads(s: State, h: Id) {
    && s.server.Grabbed? && s.newest == Some(h) && s.pile != [] && s.pile[|s.pile| - 1] == h
    && h in s.place && s.place[h] == Piled(|s.pile| - 1) && h !in s.groups
  }

  lemma HeadOfPile(s: State)
    requires Shape(s) && s.server.Grabbed? && s.newest.Some?
    ensures Heads(s, s.newest.value)
  {
    var h := s.newest.value;
    assert s.place[s.pile[|s.pile| - 1]] == Piled(|s.pile| - 1);
    if h in s.groups {
      LeaderIsPlaced(s, h);
    }
  }

  lemma ExchangeGroups(s: State, s': State, h: Id, g: Id, j: nat)
    requires Shape(s) && Heads(s, h) && s' == DoExchange(s) && g in s'.groups && j < |s'.groups[g]|
    ensures Chained(s'.older, s'.groups[g], j) && s'.groups[g][j] in s'.place && s'.place[s'.groups[g][j]] == Grouped(g, j)
  {
    if g == h {
      assert Chained(s.older, s.pile, j);
      assert s.place[s.pile[j]] == Piled(j);
    } else {
      assert Chained(s.older, s.groups[g], j);
      assert s.place[s.groups[g][j]] == Grouped(g, j);
    }
  }

  lemma ExchangePlaced(s: State, s': State, h: Id, w: Id)
    requires Shape(s) && Heads(s, h) && s' == DoExchange(s) && w in s'.place
    ensures Placed(s'.pile, s'.groups, w, s'.place[w])
  {
    assert Placed(s.pile, s.groups, w, s.place[w]);
  }

  lemma EndsUpdate(groups: map<Id, seq<Id>>, h: Id, g: seq<Id>)
    requires Ends(groups) && g != [] && g[|g| - 1] == h
    ensures Ends(groups[h := g])
  {
  }

  lemma ExchangeShape(s: State, h: Id)
    requires Shape(s) && Heads(s, h)
    ensures Shape(DoExchange(s))
  {
    var s' := DoExchange(s);
    EndsUpdate(s.groups, h, s.pile);
    forall g, j | g in s'.groups && 0 <= j < |s'.groups[g]| ensures Chained(s'.older, s'.groups[g], j) {
      ExchangeGroups(s, s', h, g, j);
    }
    forall g, j | g in s'.groups && 0 <= j < |s'.groups[g]|
      ensures s'.groups[g][j] in s'.place && s'.place[s'.groups[g][j]] == Grouped(g, j)
    {
      ExchangeGroups(s, s', h, g, j);
    }
    forall w <- s'.place ensures Placed(s'.pile, s'.groups, w, s'.place[w]) {
      ExchangePlaced(s, s', h, w);
    }
  }

  lemma ExchangeLogs(s: State, h: Id)
    requires LogsOk(s) && Heads(s, h) && h in s.pc
    ensures LogsOk(DoExchange(s))
  {
  }

  lemma ExchangeHead(s: State, s': State, h: Id)
    requires Heads(s, h) && h in s.pc && h in s.word && WriterOk(s, h) && s' == DoExchange(s)
    requires h in s'.pc && h in s'.word
    ensures WriterOk(s', h) && Early(s.pc[h])
  {
    BeginSet(s.pc[h], s.word[h], h in s.made, OwnerOf(s.owner, h));
    assert PhaseOf(s'.setting, h) == Some(ToLoad);
    assert s'.place[h] == Grouped(h, |s.pile| - 1);
  }

  lemma ExchangePiled(s: State, s': State, h: Id, u: Id)
    requires Heads(s, h) && h in s.pc && Early(s.pc[h]) && s' == DoExchange(s)
    requires u in s.pc && u in s.word && u in s'.pc && u in s'.word && u != h && WriterOk(s, u)
    requires u in s.place && s.place[u].Piled? && s.place[u].i < |s.pile|
    ensures WriterOk(s', u)
  {
    assert PhaseOf(s'.setting, u) == PhaseOf(s.setting, u);
    assert s'.place[u] == Grouped(h, s.place[u].i);
  }

  lemma ExchangeOther(s: State, s': State, h: Id, u: Id)
    requires Heads(s, h) && s' == DoExchange(s)
    requires u in s.pc && u in s.word && u in s'.pc && u in s'.word && u != h && WriterOk(s, u)
    requires u in s.place ==> s.place[u].Grouped? && s.place[u].leader in s.groups && s.place[u].leader in s.log
    ensures WriterOk(s', u)
  {
    assert PhaseOf(s'.setting, u) == PhaseOf(s.setting, u);
    assert u in s.place ==> s'.place[u] == s.place[u];
  }

  lemma ExchangeGlobals(s: State, h: Id)
    requires Globals(s) && Heads(s, h)
    ensures Globals(DoExchange(s))
  {
    ExchangeShape(s, h);
    ExchangeLogs(s, h);
    assert DoExchange(s).place.Keys == s.place.Keys;
  }

  lemma ExchangeStep(s: State, h: Id)
    requires Inv(s) && Heads(s, h)
    ensures Inv(DoExchange(s))
  {
    var s' := DoExchange(s);
    ExchangeGlobals(s, h);
    assert WriterOk(s, h);
    ExchangeHead(s, s', h);
    forall u <- s'.pc ensures WriterOk(s', u) {
      if u != h {
        assert WriterOk(s, u);
        ExchangeWriter(s, s', h, u);
      }
    }
  }

  lemma ExchangeWriter(s: State, s': State, h: Id, u: Id)
    requires Globals(s) && Heads(s, h) && Early(s.pc[h]) && s' == DoExchange(s)
    requires u in s.pc && u != h && WriterOk(s, u)
    ensures WriterOk(s', u)
  {
    if u in s.place {
      assert Placed(s.pile, s.groups, u, s.place[u]);
    }
    if u in s.place && s.place[u].Piled? {
      ExchangePiled(s, s', h, u);
    } else {
      ExchangeOther(s, s', h, u);
    }
  }

  /** A log that is free is held by no group. */
  lemma GrabLogs(s: State, l: LogNo)
    requires LogsOk(s) && l !in s.busy
    ensures LogsOk(s.(server := Grabbed(l), busy := s.busy + {l}))
  {
  }

  lemma ReleaseLogs(s: State)
    requires LogsOk(s) && s.server.Releasing?
    ensures LogsOk(s.(server := Idle, busy := s.busy - {s.server.l}))
  {
  }

  lemma ServerStep(s: State, a: ServerAct)
    requires Inv(s) && ServerEnabled(s, a)
    ensures Inv(DoServer(s, a))
  {
    match a
    case Probe => ServerMoveInv(s, Probing, s.busy);
    case Grab(l) =>
      GrabLogs(s, l);
      ServerMoveInv(s, Grabbed(l), s.busy + {l});
    case NoLog => ServerMoveInv(s, Idle, s.busy);
    case Release =>
      ReleaseLogs(s);
      ServerMoveInv(s, Idle, s.busy - {s.server.l});
    case Exchange =>
      if s.newest.None? {
        ServerMoveInv(s, Releasing(s.server.l), s.busy);
      } else {
        HeadOfPile(s);
        ExchangeStep(s, s.newest.value);
      }
  }

  // ---------------------------------------------------------------- the leader

  ghost predicate Leads(s: State, w: Id) {
    && w in s.pc && w in s.word && w in s.log && w in s.groups && s.groups[w] != []
    && s.groups[w][|s.groups[w]| - 1] == w
    && w in s.place && s.place[w] == Grouped(w, |s.groups[w]| - 1)
  }

  lemma LeadPlace(s: State, w: Id)
    requires Globals(s) && w in s.groups
    ensures Leads(s, w)
  {
    LeaderIsPlaced(s, w);
  }

  lemma LeadCursor(s: State, w: Id)
    requires Leads(s, w) && RoleOk(s, w)
    ensures CursorOk(s.pc[w], s.groups[w])
  {
  }

  lemma LeadFacts(s: State, w: Id)
    requires Inv(s) && w in s.groups
    ensures Leads(s, w) && CursorOk(s.pc[w], s.groups[w])
  {
    LeadPlace(s, w);
    assert WriterOk(s, w);
    LeadCursor(s, w);
  }

  /** The pointer of a leader's walk and the next older writer behind it. */
  lemma WalkFacts(s: State, w: Id, k: int)
    requires Shape(s) && w in s.groups && 0 <= k < |s.groups[w]|
    ensures var c := s.groups[w][k];
      && c in s.older && s.older[c] == Ptr(s.groups[w], k - 1)
      && c in s.place && s.place[c] == Grouped(w, k)
  {
    assert Chained(s.older, s.groups[w], k);
  }

  /** Only the leader has come further; no word is being set. */
  ghost predicate LeadMove(s: State, s': State, w: Id, q: Pc) {
    && w in s.pc && s'.pc == s.pc[w := q]
    && s'.word == s.word && s'.setting == s.setting && s'.made == s.made && s'.owner == s.owner
    && s'.server == s.server && s'.place == s.place && s'.groups == s.groups && s'.log == s.log
    && s'.newest == s.newest && s'.older == s.older && s'.pile == s.pile
  }

  /** From `p` to `q` a leader completes nobody and is completing nobody. */
  ghost predicate CompletesNone(p: Pc, q: Pc, n: nat) {
    !p.FinishSet? && !q.FinishSet? && forall j :: 0 <= j < n - 1 ==> Past(p, j) == Past(q, j)
  }

  ghost predicate SameData(p: Pc, q: Pc, n: nat) {
    HasSynced(p) == HasSynced(q) && forall j :: 0 <= j < n ==> HasAppended(p, j) == HasAppended(q, j)
  }

  ghost predicate SameGathered(p: Pc, q: Pc, n: nat) {
    forall j :: 0 <= j < n ==> HasGathered(p, j) == HasGathered(q, j)
  }

  lemma LeadMoveLeader(s: State, s': State, w: Id, q: Pc)
    requires w in s.pc && w in s.word && Leads(s, w) && LeadMove(s, s', w, q) && w in s'.pc && w in s'.word
    requires Shaken(s, w) && RoleOk(s, w) && CursorOk(q, s.groups[w])
    requires (s.pc[w] == Woke(Leader) || !Early(s.pc[w])) && !Early(q)
    ensures Shaken(s', w) && RoleOk(s', w)
  {
  }

  lemma LeadMoveOther(s: State, s': State, w: Id, q: Pc, u: Id)
    requires w in s.pc && Leads(s, w) && LeadMove(s, s', w, q) && CompletesNone(s.pc[w], q, |s.groups[w]|)
    requires u in s.pc && u in s.word && u in s'.pc && u in s'.word && u != w && Shaken(s, u) && RoleOk(s, u)
    requires u in s.place && s.place[u].Grouped? && s.place[u].leader == w ==> s.place[u].j < |s.groups[w]| - 1
    ensures Shaken(s', u) && RoleOk(s', u)
  {
  }

  /** A leader's own steps: everybody's word and role stay right. */
  lemma LeadMoveRoles(s: State, s': State, w: Id, q: Pc, u: Id)
    requires Inv(s) && w in s.groups && Leads(s, w) && LeadMove(s, s', w, q)
    requires CompletesNone(s.pc[w], q, |s.groups[w]|) && CursorOk(q, s.groups[w])
    requires (s.pc[w] == Woke(Leader) || !Early(s.pc[w])) && !Early(q)
    requires u in s.pc
    ensures u in s'.pc && u in s'.word && Shaken(s', u) && RoleOk(s', u)
  {
    assert WriterOk(s, u);
    if u == w {
      LeadMoveLeader(s, s', w, q);
    } else {
      OnePlace(s, u, w);
      if u in s.place {
        assert Placed(s.pile, s.groups, u, s.place[u]);
      }
      LeadMoveOther(s, s', w, q, u);
    }
  }

  lemma LeadMoveData(s: State, s': State, w: Id, q: Pc, u: Id)
    requires Shape(s) && w in s.groups && Leads(s, w) && s'.pc == s.pc[w := q]
    requires s'.place == s.place && s'.log == s.log && s'.appended == s.appended && s'.synced == s.synced
    requires SameData(s.pc[w], q, |s.groups[w]|) && DataOk(s, u)
    ensures DataOk(s', u)
  {
    if u in s.place {
      assert Placed(s.pile, s.groups, u, s.place[u]);
    }
  }

  lemma LeadMovePtr(s: State, s': State, w: Id, q: Pc, u: Id)
    requires Shape(s) && w in s.groups && Leads(s, w) && s'.pc == s.pc[w := q]
    requires s'.place == s.place && s'.groupOf == s.groupOf
    requires SameGathered(s.pc[w], q, |s.groups[w]|) && GroupPtrOk(s, u)
    ensures GroupPtrOk(s', u)
  {
    if u in s.place {
      assert Placed(s.pile, s.groups, u, s.place[u]);
    }
  }

  lemma LeadMoveLogs(s: State, s': State, w: Id, q: Pc)
    requires LogsOk(s) && w in s.pc && LeadMove(s, s', w, q) && s'.busy == s.busy && HoldsLog(s.pc[w]) == HoldsLog(q)
    ensures LogsOk(s')
  {
    assert forall h <- s.groups :: HoldsLog(s'.pc[h]) == HoldsLog(s.pc[h]);
  }

  ghost predicate LeadsOn(s: State, w: Id, q: Pc) {
    && Leads(s, w) && CompletesNone(s.pc[w], q, |s.groups[w]|) && CursorOk(q, s.groups[w])
    && (s.pc[w] == Woke(Leader) || !Early(s.pc[w])) && !Early(q)
  }

  ghost predicate AllData(s: State) {
    forall u {:trigger DataOk(s, u)} :: u in s.pc ==> DataOk(s, u) && GroupPtrOk(s, u)
  }

  /** What is left to show for a leader's step that sets no word. */
  lemma LeadInv(s: State, s': State, w: Id, q: Pc)
    requires Inv(s) && LeadsOn(s, w, q) && LeadMove(s, s', w, q) && LogsOk(s') && NoDup(s'.appended)
    requires s'.groupOf.Keys <= s.pc.Keys && Ids(s'.appended) <= s.pc.Keys
    requires AllData(s')
    ensures Inv(s')
  {
    forall u <- s'.pc ensures WriterOk(s', u) {
      LeadMoveRoles(s, s', w, q, u);
      assert DataOk(s', u);
    }
    LeadKeys(s, s', w, q);
  }

  lemma LeadKeys(s: State, s': State, w: Id, q: Pc)
    requires Globals(s) && w in s.pc && LeadMove(s, s', w, q) && LogsOk(s') && NoDup(s'.appended)
    requires s'.groupOf.Keys <= s.pc.Keys && Ids(s'.appended) <= s.pc.Keys
    ensures Globals(s')
  {
    assert s'.pc.Keys == s.pc.Keys;
  }

  /** A step that changes nothing but where the leader is and which logs are busy. */
  lemma LeadOnly(s: State, s': State, w: Id, q: Pc)
    requires Inv(s) && LeadsOn(s, w, q) && s' == s.(pc := s.pc[w := q], busy := s'.busy) && LogsOk(s')
    requires SameData(s.pc[w], q, |s.groups[w]|) && SameGathered(s.pc[w], q, |s.groups[w]|)
    ensures Inv(s')
  {
    forall u <- s.pc ensures DataOk(s', u) && GroupPtrOk(s', u) {
      assert WriterOk(s, u);
      LeadMoveData(s, s', w, q, u);
      LeadMovePtr(s, s', w, q, u);
    }
    LeadInv(s, s', w, q);
  }

  lemma FreeLogs(s: State, w: Id, q: Pc)
    requires LogsOk(s) && w in s.groups && w in s.pc && HoldsLog(s.pc[w]) && !HoldsLog(q)
    ensures LogsOk(s.(pc := s.pc[w := q], busy := s.busy - {s.log[w]}))
  {
  }

  /** Between two places of a leader the members see no difference. */
  ghost predicate Unseen(p: Pc, q: Pc, g: seq<Id>) {
    && CompletesNone(p, q, |g|) && CursorOk(q, g) && SameData(p, q, |g|) && SameGathered(p, q, |g|)
    && !Early(p) && !Early(q)
  }

  lemma UnseenInv(s: State, w: Id, q: Pc)
    requires Inv(s) && Leads(s, w) && Unseen(s.pc[w], q, s.groups[w]) && HoldsLog(s.pc[w]) == HoldsLog(q)
    ensures Inv(s.(pc := s.pc[w := q]))
  {
    var s' := s.(pc := s.pc[w := q]);
    LeadMoveLogs(s, s', w, q);
    LeadOnly(s, s', w, q);
  }

  lemma BeginWriteUnseen(p: Pc, g: seq<Id>)
    requires p.Gather? && p.c.None? && CursorOk(p, g) && g != []
    ensures Unseen(p, Append(Some(g[|g| - 1]), |g| - 1), g)
  {
  }

  lemma EndWriteUnseen(p: Pc, g: seq<Id>)
    requires p.Append? && p.c.None? && CursorOk(p, g)
    ensures Unseen(p, Syncing, g)
  {
  }

  lemma ReturnUnseen(p: Pc, g: seq<Id>)
    requires p.Finish? && p.c.None? && CursorOk(p, g)
    ensures Unseen(p, Returned, g)
  {
  }

  lemma FreeUnseen(g: seq<Id>)
    requires g != []
    ensures Unseen(Freeing, Finish(Ptr(g, |g| - 2), |g| - 2), g)
  {
  }

  lemma BeginWriteStep(s: State, w: Id)
    requires Inv(s) && LeadEnabled(s, w, BeginWrite)
    ensures Inv(DoLead(s, w, BeginWrite))
  {
    LeadFacts(s, w);
    BeginWriteUnseen(s.pc[w], s.groups[w]);
    UnseenInv(s, w, Append(Some(w), |s.groups[w]| - 1));
  }

  lemma EndWriteStep(s: State, w: Id)
    requires Inv(s) && LeadEnabled(s, w, EndWrite)
    ensures Inv(DoLead(s, w, EndWrite))
  {
    LeadFacts(s, w);
    EndWriteUnseen(s.pc[w], s.groups[w]);
    UnseenInv(s, w, Syncing);
  }

  lemma ReturnLeaderStep(s: State, w: Id)
    requires Inv(s) && LeadEnabled(s, w, ReturnLeader)
    ensures Inv(DoLead(s, w, ReturnLeader))
  {
    LeadFacts(s, w);
    ReturnUnseen(s.pc[w], s.groups[w]);
    UnseenInv(s, w, Returned);
  }

  lemma FreedInv(s: State, s': State, w: Id, q: Pc)
    requires Inv(s) && Leads(s, w) && Unseen(s.pc[w], q, s.groups[w]) && HoldsLog(s.pc[w]) && !HoldsLog(q)
    requires s' == s.(pc := s.pc[w := q], busy := s.busy - {s.log[w]})
    ensures Inv(s')
  {
    FreeLogs(s, w, q);
    LeadOnly(s, s', w, q);
  }

  lemma FreeLogStep(s: State, w: Id)
    requires Inv(s) && LeadEnabled(s, w, FreeLog)
    ensures Inv(DoLead(s, w, FreeLog))
  {
    LeadFacts(s, w);
    FreeUnseen(s.groups[w]);
    WalkFacts(s, w, |s.groups[w]| - 1);
    FreedInv(s, DoLead(s, w, FreeLog), w, Finish(Ptr(s.groups[w], |s.groups[w]| - 2), |s.groups[w]| - 2));
  }

  /** The leader has given its group pointer to the member at k + 1 and looks at the one at k. */
  ghost function Gathered(s: State, w: Id, k: int): State
    requires w in s.groups && -1 <= k <= |s.groups[w]| - 2
  {
    s.(pc := s.pc[w := Gather(Ptr(s.groups[w], k), k)], groupOf := s.groupOf[s.groups[w][k + 1] := w])
  }

  lemma GatheredPtr(s: State, s': State, w: Id, k: int, u: Id)
    requires Leads(s, w) && -1 <= k <= |s.groups[w]| - 2 && s' == Gathered(s, w, k) && GroupPtrOk(s, u)
    requires s.pc[w] == Gather(Ptr(s.groups[w], k + 1), k + 1) || (s.pc[w] == Woke(Leader) && k == |s.groups[w]| - 2)
    requires var c := s.groups[w][k + 1]; c in s.place && s.place[c] == Grouped(w, k + 1)
    requires u in s.place ==> Placed(s.pile, s.groups, u, s.place[u])
    ensures GroupPtrOk(s', u)
  {
  }

  lemma GatherFlags(p: Pc, g: seq<Id>, k: int)
    requires -1 <= k <= |g| - 2 && (p.Gather? || p == Woke(Leader))
    ensures var q := Gather(Ptr(g, k), k);
      && CompletesNone(p, q, |g|) && CursorOk(q, g) && SameData(p, q, |g|) && HoldsLog(p) && HoldsLog(q)
  {
  }

  lemma GatheredWriter(s: State, s': State, w: Id, k: int, u: Id)
    requires Inv(s) && Leads(s, w) && -1 <= k <= |s.groups[w]| - 2 && s' == Gathered(s, w, k) && u in s.pc
    requires s.pc[w] == Gather(Ptr(s.groups[w], k + 1), k + 1) || (s.pc[w] == Woke(Leader) && k == |s.groups[w]| - 2)
    ensures DataOk(s', u) && GroupPtrOk(s', u)
  {
    assert WriterOk(s, u);
    assert u in s.place ==> Placed(s.pile, s.groups, u, s.place[u]);
    WalkFacts(s, w, k + 1);
    GatherFlags(s.pc[w], s.groups[w], k);
    LeadMoveData(s, s', w, s'.pc[w], u);
    GatheredPtr(s, s', w, k, u);
  }

  lemma GatheredData(s: State, s': State, w: Id, k: int)
    requires Inv(s) && Leads(s, w) && -1 <= k <= |s.groups[w]| - 2 && s' == Gathered(s, w, k)
    requires s.pc[w] == Gather(Ptr(s.groups[w], k + 1), k + 1) || (s.pc[w] == Woke(Leader) && k == |s.groups[w]| - 2)
    ensures AllData(s')
  {
    forall u | u in s'.pc ensures DataOk(s', u) && GroupPtrOk(s', u) {
      GatheredWriter(s, s', w, k, u);
    }
  }

  lemma GatheredInv(s: State, s': State, w: Id, k: int)
    requires Inv(s) && Leads(s, w) && -1 <= k <= |s.groups[w]| - 2 && s' == Gathered(s, w, k)
    requires s.pc[w] == Gather(Ptr(s.groups[w], k + 1), k + 1) || (s.pc[w] == Woke(Leader) && k == |s.groups[w]| - 2)
    ensures Inv(s')
  {
    GatheredData(s, s', w, k);
    WalkFacts(s, w, k + 1);
    GatherFlags(s.pc[w], s.groups[w], k);
    LeadMoveLogs(s, s', w, s'.pc[w]);
    LeadInv(s, s', w, s'.pc[w]);
  }

  lemma BeginGroupStep(s: State, w: Id)
    requires Inv(s) && LeadEnabled(s, w, BeginGroup)
    ensures Inv(DoLead(s, w, BeginGroup))
  {
    LeadFacts(s, w);
    WalkFacts(s, w, |s.groups[w]| - 1);
    BeginGroupIs(s, w);
    GatheredInv(s, DoLead(s, w, BeginGroup), w, |s.groups[w]| - 2);
  }

  lemma BeginGroupIs(s: State, w: Id)
    requires LeadEnabled(s, w, BeginGroup) && Leads(s, w) && s.older[w] == Ptr(s.groups[w], |s.groups[w]| - 2)
    ensures DoLead(s, w, BeginGroup) == Gathered(s, w, |s.groups[w]| - 2)
  {
  }

  lemma GatherOneIs(s: State, w: Id, k: nat)
    requires LeadEnabled(s, w, GatherOne) && Leads(s, w) && k == s.pc[w].k < |s.groups[w]| && s.pc[w].c.value == s.groups[w][k]
    requires s.older[s.groups[w][k]] == Ptr(s.groups[w], k - 1) && k <= |s.groups[w]| - 2
    ensures DoLead(s, w, GatherOne) == Gathered(s, w, k - 1)
  {
  }

  lemma GatherOneStep(s: State, w: Id)
    requires Inv(s) && LeadEnabled(s, w, GatherOne)
    ensures Inv(DoLead(s, w, GatherOne))
  {
    LeadFacts(s, w);
    WalkFacts(s, w, s.pc[w].k);
    GatherOneIs(s, w, s.pc[w].k);
    GatheredInv(s, DoLead(s, w, GatherOne), w, s.pc[w].k - 1);
  }

  /** The leader has appended the data of the member at k. */
  ghost function AppendedAt(s: State, w: Id, k: int): State
    requires w in s.groups && 0 <= k < |s.groups[w]| && w in s.log
  {
    s.(pc := s.pc[w := Append(Ptr(s.groups[w], k - 1), k - 1)],
       appended := s.appended + [Entry(s.log[w], s.groups[w][k])])
  }

  lemma AppendIds(appended: seq<Entry>, e: Entry, u: Id)
    ensures u in Ids(appended + [e]) <==> u in Ids(appended) || u == e.id
    ensures forall l :: u in IdsIn(appended, l) ==> u in IdsIn(appended + [e], l)
    ensures e.id in IdsIn(appended + [e], e.log)
  {
    assert (appended + [e])[|appended|] == e;
    if u in Ids(appended) {
      var i :| i in appended && i.id == u;
      assert i in appended + [e];
    }
    forall l | u in IdsIn(appended, l) ensures u in IdsIn(appended + [e], l) {
      var i :| i in appended && i.id == u && i.log == l;
      assert i in appended + [e];
    }
  }

  lemma AppendNoDup(appended: seq<Entry>, e: Entry)
    requires NoDup(appended) && e.id !in Ids(appended)
    ensures NoDup(appended + [e])
  {
    forall i | 0 <= i < |appended| ensures appended[i].id != e.id {
      assert appended[i] in appended;
    }
  }

  lemma AppendedData(s: State, s': State, w: Id, k: int, u: Id)
    requires Leads(s, w) && 0 <= k < |s.groups[w]| && s' == AppendedAt(s, w, k) && DataOk(s, u)
    requires s.pc[w] == Append(Ptr(s.groups[w], k), k)
    requires var c := s.groups[w][k]; c in s.place && s.place[c] == Grouped(w, k)
    requires u in s.place ==> Placed(s.pile, s.groups, u, s.place[u])
    ensures DataOk(s', u)
  {
    AppendIds(s.appended, Entry(s.log[w], s.groups[w][k]), u);
  }

  lemma AppendFlags(p: Pc, g: seq<Id>, k: int)
    requires 0 <= k < |g| && p.Append?
    ensures var q := Append(Ptr(g, k - 1), k - 1);
      && CompletesNone(p, q, |g|) && CursorOk(q, g) && SameGathered(p, q, |g|) && HoldsLog(p) && HoldsLog(q)
  {
  }

  lemma AppendedWriter(s: State, s': State, w: Id, k: int, u: Id)
    requires Inv(s) && Leads(s, w) && 0 <= k < |s.groups[w]| && s' == AppendedAt(s, w, k) && u in s.pc
    requires s.pc[w] == Append(Ptr(s.groups[w], k), k)
    ensures DataOk(s', u) && GroupPtrOk(s', u)
  {
    assert WriterOk(s, u);
    assert u in s.place ==> Placed(s.pile, s.groups, u, s.place[u]);
    WalkFacts(s, w, k);
    AppendFlags(s.pc[w], s.groups[w], k);
    AppendedData(s, s', w, k, u);
    LeadMovePtr(s, s', w, s'.pc[w], u);
  }

  lemma AppendedAllData(s: State, s': State, w: Id, k: int)
    requires Inv(s) && Leads(s, w) && 0 <= k < |s.groups[w]| && s' == AppendedAt(s, w, k)
    requires s.pc[w] == Append(Ptr(s.groups[w], k), k)
    ensures AllData(s')
  {
    forall u | u in s'.pc ensures DataOk(s', u) && GroupPtrOk(s', u) {
      AppendedWriter(s, s', w, k, u);
    }
  }

  lemma AppendedInv(s: State, s': State, w: Id, k: int)
    requires Inv(s) && Leads(s, w) && 0 <= k < |s.groups[w]| && s' == AppendedAt(s, w, k)
    requires s.pc[w] == Append(Ptr(s.groups[w], k), k)
    ensures Inv(s')
  {
    AppendedAllData(s, s', w, k);
    AppendFlags(s.pc[w], s.groups[w], k);
    LeadMoveLogs(s, s', w, s'.pc[w]);
    AppendFresh(s, s', w, k);
    LeadInv(s, s', w, s'.pc[w]);
  }

  lemma AppendFresh(s: State, s': State, w: Id, k: int)
    requires Inv(s) && Leads(s, w) && 0 <= k < |s.groups[w]| && s' == AppendedAt(s, w, k)
    requires s.pc[w] == Append(Ptr(s.groups[w], k), k)
    ensures NoDup(s'.appended) && Ids(s'.appended) <= s.pc.Keys
  {
    var c := s.groups[w][k];
    WalkFacts(s, w, k);
    assert WriterOk(s, c);
    AppendNoDup(s.appended, Entry(s.log[w], c));
    forall u | u in Ids(s'.appended) ensures u in s.pc.Keys {
      AppendIds(s.appended, Entry(s.log[w], c), u);
    }
  }

  lemma AppendOneIs(s: State, w: Id, k: int)
    requires LeadEnabled(s, w, AppendOne) && w in s.groups && 0 <= k < |s.groups[w]| && w in s.log
    requires var c := s.groups[w][k]; s.pc[w] == Append(Some(c), k) && c in s.older && s.older[c] == Ptr(s.groups[w], k - 1)
    ensures DoLead(s, w, AppendOne) == AppendedAt(s, w, k)
  {
  }

  lemma AppendOneStep(s: State, w: Id)
    requires Inv(s) && LeadEnabled(s, w, AppendOne)
    ensures Inv(DoLead(s, w, AppendOne))
  {
    LeadFacts(s, w);
    WalkFacts(s, w, s.pc[w].k);
    AppendOneIs(s, w, s.pc[w].k);
    AppendedInv(s, AppendedAt(s, w, s.pc[w].k), w, s.pc[w].k);
  }

  lemma SyncData(s: State, s': State, w: Id, u: Id)
    requires Leads(s, w) && s.pc[w] == Syncing && DataOk(s, u)
    requires s' == s.(pc := s.pc[w := Freeing], synced := s.synced + IdsIn(s.appended, s.log[w]))
    ensures DataOk(s', u)
  {
  }

  lemma SyncAllData(s: State, s': State, w: Id)
    requires Inv(s) && Leads(s, w) && s.pc[w] == Syncing
    requires s' == s.(pc := s.pc[w := Freeing], synced := s.synced + IdsIn(s.appended, s.log[w]))
    ensures AllData(s')
  {
    forall u | u in s'.pc ensures DataOk(s', u) && GroupPtrOk(s', u) {
      assert WriterOk(s, u);
      SyncData(s, s', w, u);
      LeadMovePtr(s, s', w, Freeing, u);
    }
  }

  lemma SyncInv(s: State, s': State, w: Id)
    requires Inv(s) && Leads(s, w) && s.pc[w] == Syncing
    requires s' == s.(pc := s.pc[w := Freeing], synced := s.synced + IdsIn(s.appended, s.log[w]))
    ensures Inv(s')
  {
    SyncAllData(s, s', w);
    LeadMoveLogs(s, s', w, Freeing);
    LeadInv(s, s', w, Freeing);
  }

  lemma SyncStep(s: State, w: Id)
    requires Inv(s) && LeadEnabled(s, w, Sync)
    ensures Inv(DoLead(s, w, Sync))
  {
    LeadFacts(s, w);
    SyncInv(s, DoLead(s, w, Sync), w);
  }

  /** The leader has begun to complete its member at k. */
  ghost function Finishing(s: State, w: Id, k: int): State
    requires w in s.groups && 0 <= k < |s.groups[w]|
  {
    var c := s.groups[w][k];
    s.(pc := s.pc[w := FinishSet(c, Ptr(s.groups[w], k - 1), k)], setting := s.setting[c := ToLoad])
  }

  /** The leader is about to complete its member `c`. */
  ghost predicate Finishes(s: State, w: Id, k: int, c: Id) {
    && Leads(s, w) && 0 <= k <= |s.groups[w]| - 2 && s.groups[w][k] == c && c != w
    && c in s.place && s.place[c] == Grouped(w, k) && c in s.pc && c in s.word
    && s.pc[w] == Finish(Some(c), k)
  }

  lemma FinishingMember(s: State, s': State, w: Id, k: int, c: Id)
    requires Finishes(s, w, k, c) && s' == Finishing(s, w, k) && c in s'.pc && c in s'.word && WriterOk(s, c)
    ensures WriterOk(s', c)
  {
    BeginSet(s.pc[c], s.word[c], c in s.made, OwnerOf(s.owner, c));
    assert PhaseOf(s'.setting, c) == Some(ToLoad);
  }

  lemma FinishingLeader(s: State, s': State, w: Id, k: int, c: Id)
    requires Finishes(s, w, k, c) && s' == Finishing(s, w, k) && w in s'.pc && w in s'.word && WriterOk(s, w)
    ensures WriterOk(s', w)
  {
    assert PhaseOf(s'.setting, w) == PhaseOf(s.setting, w);
  }

  lemma FinishingOther(s: State, s': State, w: Id, k: int, c: Id, u: Id)
    requires Finishes(s, w, k, c) && s' == Finishing(s, w, k) && u != w && u != c
    requires u in s.pc && u in s.word && u in s'.pc && u in s'.word && WriterOk(s, u)
    requires u in s.place ==> s.place[u] != s.place[c]
    ensures WriterOk(s', u)
  {
    assert PhaseOf(s'.setting, u) == PhaseOf(s.setting, u);
  }

  lemma FinishingGlobals(s: State, s': State, w: Id, k: int, c: Id)
    requires Globals(s) && Finishes(s, w, k, c) && s' == Finishing(s, w, k)
    ensures Globals(s')
  {
    assert s'.pc.Keys == s.pc.Keys;
    assert s'.setting.Keys <= s.setting.Keys + {c};
    assert forall h <- s.groups :: h in s.pc && HoldsLog(s'.pc[h]) == HoldsLog(s.pc[h]);
  }

  lemma FinishingInv(s: State, s': State, w: Id, k: int, c: Id)
    requires Inv(s) && Finishes(s, w, k, c) && s' == Finishing(s, w, k)
    ensures Inv(s')
  {
    FinishingGlobals(s, s', w, k, c);
    forall u <- s'.pc ensures WriterOk(s', u) {
      assert WriterOk(s, u);
      if u == c {
        FinishingMember(s, s', w, k, c);
      } else if u == w {
        FinishingLeader(s, s', w, k, c);
      } else {
        OnePlace(s, u, c);
        FinishingOther(s, s', w, k, c, u);
      }
    }
  }

  lemma FinishNextIs(s: State, w: Id, k: int)
    requires LeadEnabled(s, w, FinishNext) && w in s.groups && 0 <= k < |s.groups[w]|
    requires var c := s.groups[w][k]; s.pc[w] == Finish(Some(c), k) && c in s.older && s.older[c] == Ptr(s.groups[w], k - 1)
    ensures DoLead(s, w, FinishNext) == Finishing(s, w, k)
  {
  }

  lemma FinishNextStep(s: State, w: Id)
    requires Inv(s) && LeadEnabled(s, w, FinishNext)
    ensures Inv(DoLead(s, w, FinishNext))
  {
    LeadFacts(s, w);
    var k := s.pc[w].k;
    WalkFacts(s, w, k);
    FinishNextIs(s, w, k);
    FinishingInv(s, Finishing(s, w, k), w, k, s.groups[w][k]);
  }

  lemma LeadStep(s: State, w: Id, a: LeadAct)
    requires Inv(s) && LeadEnabled(s, w, a)
    ensures Inv(DoLead(s, w, a))
  {
    match a
    case BeginGroup => BeginGroupStep(s, w);
    case GatherOne => GatherOneStep(s, w);
    case BeginWrite => BeginWriteStep(s, w);
    case AppendOne => AppendOneStep(s, w);
    case EndWrite => EndWriteStep(s, w);
    case Sync => SyncStep(s, w);
    case FreeLog => FreeLogStep(s, w);
    case FinishNext => FinishNextStep(s, w);
    case ReturnLeader => ReturnLeaderStep(s, w);
  }

  lemma WriterStep(s: State, w: Id, a: WriterAct)
    requires Inv(s) && WriterEnabled(s, w, a)
    ensures Inv(DoWriter(s, w, a))
  {
    match a
    case Arrive => ArriveStep(s, w);
    case CasPush => PushStep(s, w);
    case _ => WaitStep(s, w, a);
  }

  lemma StepInv(s: State, step: Step)
    requires Inv(s) && Enabled(s, step)
    ensures Inv(Do(s, step))
  {
    match step
    case Writer(w, a) => WriterStep(s, w, a);
    case Lead(w, a) => LeadStep(s, w, a);
    case Set(w) => SetStep(s, w);
    case Serve(a) => ServerStep(s, a);
  }
}
