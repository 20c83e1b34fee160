/**
 No run of the group commit leads into a dead end: from every reachable state there is a continuation in
 which every call of AddLog that has arrived returns. It is built step by step; each step makes a measure
 smaller: the calls not yet on the stack, the calls on the stack, what the calls and the threads that set
 their state words have still to do, and how far the server is from its next election.
 */
module GroupCommitProgress {
  import opened Options
  import opened GroupCommit
  import opened GroupCommitInv
  import opened GroupCommitSafety

  // ---------------------------------------------------------------- a marked log is held by somebody

  ghost predicate HeldBy(s: State, g: Id, l: LogNo) {
    g in s.groups && g in s.pc && g in s.log && HoldsLog(s.pc[g]) && s.log[g] == l
  }

  predicate ServerHolds(server: Server, l: LogNo) {
    (server.Grabbed? || server.Releasing?) && server.l == l
  }

  ghost predicate Held(s: State, l: LogNo) {
    ServerHolds(s.server, l) || exists g :: HeldBy(s, g, l)
  }

  ghost predicate BusyHeld(s: State) {
    forall l {:trigger Held(s, l)} :: l in s.busy ==> Held(s, l)
  }

  /** Whoever held a log still does. */
  lemma HeldKept(s: State, s': State)
    requires BusyHeld(s) && s'.busy <= s.busy
    requires forall l {:trigger ServerHolds(s.server, l)} :: ServerHolds(s.server, l) && l in s'.busy ==> Held(s', l)
    requires forall g, l {:trigger HeldBy(s, g, l)} :: HeldBy(s, g, l) && l in s'.busy ==> HeldBy(s', g, l)
    ensures BusyHeld(s')
  {
    forall l | l in s'.busy ensures Held(s', l) {
      assert Held(s, l);
      if !ServerHolds(s.server, l) {
        var g :| HeldBy(s, g, l);
        assert HeldBy(s', g, l);
      }
    }
  }

  lemma WriterHeld(s: State, w: Id, a: WriterAct)
    requires Inv(s) && BusyHeld(s) && WriterEnabled(s, w, a)
    ensures BusyHeld(DoWriter(s, w, a))
  {
    var s' := DoWriter(s, w, a);
    WriterBusy(s, w, a);
    WriterMoves(s, w, a);
    forall g, l | HeldBy(s, g, l) && l in s'.busy ensures HeldBy(s', g, l) {
      if g == w {
        LeaderStaysOn(s, w, a);
      }
    }
    HeldKept(s, s');
  }

  /** What a step of a writer changes for others. */
  lemma WriterMoves(s: State, w: Id, a: WriterAct)
    requires WriterEnabled(s, w, a)
    ensures var s' := DoWriter(s, w, a);
      && s'.groups == s.groups && s'.log == s.log && s'.server == s.server && s'.setting == s.setting && s'.logs == s.logs
      && w in s'.pc && s'.pc == s.pc[w := s'.pc[w]]
  {
    if Waits(a) {
      assert DoWriter(s, w, a) == DoWait(s, w, a);
    }
  }

  lemma LeaderStaysOn(s: State, w: Id, a: WriterAct)
    requires Inv(s) && WriterEnabled(s, w, a) && w in s.groups && w in s.pc && HoldsLog(s.pc[w])
    ensures HoldsLog(DoWriter(s, w, a).pc[w])
  {
    LeaderNotCompleted(s, w);
    if Waits(a) {
      WaitHolds(a, s.newest, Move(s.pc[w], if w in s.word then s.word[w] else Init, w in s.made, OwnerOf(s.owner, w)));
    }
  }

  lemma WaitHolds(a: WriterAct, newest: Option<Id>, m: Move)
    requires Waits(a) && !a.ReturnCompleted? && HoldsLog(m.p)
    ensures HoldsLog(WaitMove(a, newest, m).p)
  {
  }

  lemma LeaderNotCompleted(s: State, w: Id)
    requires Inv(s) && w in s.groups && w in s.pc
    ensures s.pc[w] != Woke(Completed)
  {
    assert WriterOk(s, w);
    LeadPlace(s, w);
  }

  lemma LeadHeld(s: State, w: Id, a: LeadAct)
    requires Inv(s) && BusyHeld(s) && LeadEnabled(s, w, a)
    ensures BusyHeld(DoLead(s, w, a))
  {
    var s' := DoLead(s, w, a);
    LeadBusy(s, w, a);
    LeadMoves(s, w, a);
    forall g, l | HeldBy(s, g, l) && l in s'.busy ensures HeldBy(s', g, l) {
      if g == w {
        LeadKeepsLog(s, w, a);
      }
    }
    HeldKept(s, s');
  }

  lemma LeadMoves(s: State, w: Id, a: LeadAct)
    requires LeadEnabled(s, w, a)
    ensures var s' := DoLead(s, w, a);
      && s'.groups == s.groups && s'.log == s.log && s'.server == s.server && s'.logs == s.logs && s'.newest == s.newest
      && s'.pile == s.pile && w in s'.pc && s'.pc == s.pc[w := s'.pc[w]]
      && s'.setting == if a.FinishNext? then s.setting[s.pc[w].c.value := ToLoad] else s.setting
  {
  }

  lemma LeadKeepsLog(s: State, w: Id, a: LeadAct)
    requires LeadEnabled(s, w, a) && HoldsLog(s.pc[w])
    ensures HoldsLog(DoLead(s, w, a).pc[w]) || s.log[w] !in DoLead(s, w, a).busy
  {
  }

  /** How one action of SetState comes out: it goes on, or returns to the server or to a leader. */
  datatype Outcome = GoesOn(m: Move, f: Phase) | ToServer(m: Move) | ToLeader(m: Move, g: Id)

  ghost function After(s: State, w: Id, o: Outcome): State
    requires o.ToLeader? ==> o.g in s.pc && s.pc[o.g].FinishSet?
  {
    match o
    case GoesOn(m, f) => MovedSetting(s, w, m, f)
    case ToServer(m) => Elected(s, w, m)
    case ToLeader(m, g) => Told(s, w, m, g)
  }

  /** What is known of the outcome of an action of SetState on `w`. */
  ghost predicate Comes(s: State, w: Id, o: Outcome) {
    && w in s.setting && w in s.pc && Early(s.pc[w]) && !s.pc[w].Load? && !s.pc[w].Cas?
    && match o
       case GoesOn(m, f) =>
         && Early(m.p) && !m.p.Load? && !m.p.Cas? && PhaseRank(Some(f)) + 5 <= PhaseRank(Some(s.setting[w]))
         && (m.p == s.pc[w] || (s.pc[w].Sleeping? && m.p.Acquire?))
       case ToServer(m) => s.server.Electing?
       case ToLeader(m, g) => g in s.pc && g != w && s.pc[g].FinishSet?
  }

  lemma SetComes(s: State, w: Id) returns (o: Outcome)
    requires Inv(s) && SetEnabled(s, w)
    ensures Comes(s, w, o) && DoSet(s, w) == After(s, w, o)
  {
    SetFacts(s, w);
    SetterIs(s, w);
    var (m, f) := SetMove(s.setting[w], Goal(s, w), MoveOf(s, w));
    if f.Some? {
      SetMoveRank(s.setting[w], Goal(s, w), MoveOf(s, w));
      o := GoesOn(m, f.value);
    } else if s.server == Electing(w) {
      ReturnsElected(s, w, m);
      o := ToServer(m);
    } else {
      ReturnsTold(s, w, m, s.place[w].leader);
      o := ToLeader(m, s.place[w].leader);
    }
  }

  lemma SetFacts(s: State, w: Id)
    requires Inv(s) && SetEnabled(s, w)
    ensures Early(s.pc[w]) && !s.pc[w].Load? && !s.pc[w].Cas?
    ensures var (m, f) := SetMove(s.setting[w], Goal(s, w), MoveOf(s, w));
      Early(m.p) && !m.p.Load? && !m.p.Cas? && (f.None? ==> m.p == s.pc[w])
  {
    assert WriterOk(s, w);
    SetterIs(s, w);
    SetShaken(s.setting[w], Goal(s, w), MoveOf(s, w));
  }

  lemma SetMoveRank(f: Phase, goal: Word, m: Move)
    ensures var (n, f') := SetMove(f, goal, m);
      && PhaseRank(f') + 5 <= PhaseRank(Some(f)) && (n.p == m.p || (m.p.Sleeping? && n.p.Acquire?))
  {
  }

  lemma SetHeld(s: State, w: Id)
    requires Inv(s) && BusyHeld(s) && SetEnabled(s, w)
    ensures BusyHeld(DoSet(s, w))
  {
    var o := SetComes(s, w);
    var s' := After(s, w, o);
    forall g, l | HeldBy(s, g, l) ensures HeldBy(s', g, l) {
      AfterHeldBy(s, w, o, g, l);
    }
    HeldKept(s, s');
  }

  lemma AfterHeldBy(s: State, w: Id, o: Outcome, g: Id, l: LogNo)
    requires Comes(s, w, o) && HeldBy(s, g, l)
    ensures HeldBy(After(s, w, o), g, l)
  {
  }

  lemma ServerHeld(s: State, a: ServerAct)
    requires Inv(s) && BusyHeld(s) && ServerEnabled(s, a)
    ensures BusyHeld(DoServer(s, a))
  {
    match a
    case Probe => PlainHeld(s, a);
    case NoLog => PlainHeld(s, a);
    case Release => PlainHeld(s, a);
    case Grab(l) => GrabHeld(s, l);
    case Exchange => if s.newest.Some? { ElectHeld(s); } else { EmptyHeld(s); }
  }

  lemma PlainHeld(s: State, a: ServerAct)
    requires BusyHeld(s) && ServerEnabled(s, a) && (a.Probe? || a.NoLog? || a.Release?)
    ensures BusyHeld(DoServer(s, a))
  {
    var s' := DoServer(s, a);
    forall g, l | HeldBy(s, g, l) && l in s'.busy ensures HeldBy(s', g, l) {
    }
    HeldKept(s, s');
  }

  lemma GrabHeld(s: State, l: LogNo)
    requires BusyHeld(s) && ServerEnabled(s, Grab(l))
    ensures BusyHeld(DoServer(s, Grab(l)))
  {
    var s' := DoServer(s, Grab(l));
    forall k | k in s'.busy ensures Held(s', k) {
      if k != l {
        assert Held(s, k);
        var g :| HeldBy(s, g, k);
        assert HeldBy(s', g, k);
      }
    }
  }

  lemma EmptyHeld(s: State)
    requires BusyHeld(s) && s.server.Grabbed? && s.newest.None?
    ensures BusyHeld(DoExchange(s))
  {
    var s' := DoExchange(s);
    forall g, l | HeldBy(s, g, l) && l in s'.busy ensures HeldBy(s', g, l) {
    }
    HeldKept(s, s');
  }

  /** The server's log goes over to the group it forms. */
  lemma ElectHeld(s: State)
    requires Inv(s) && BusyHeld(s) && s.server.Grabbed? && s.newest.Some?
    ensures BusyHeld(DoExchange(s))
  {
    var h, s' := s.newest.value, DoExchange(s);
    NewHead(s);
    forall l | ServerHolds(s.server, l) && l in s'.busy ensures Held(s', l) {
      assert HeldBy(s', h, l);
    }
    forall g, l | HeldBy(s, g, l) && l in s'.busy ensures HeldBy(s', g, l) {
    }
    HeldKept(s, s');
  }

  /** The newest call on the stack leads no group yet and waits. */
  lemma NewHead(s: State)
    requires Inv(s) && s.newest.Some? && s.server.Grabbed?
    ensures var h := s.newest.value; h in s.pc && h !in s.groups && HoldsLog(s.pc[h]) && s.pile != []
  {
    var h := s.newest.value;
    HeadOfPile(s);
    assert WriterOk(s, h);
    if h in s.groups {
      LeadPlace(s, h);
    }
  }

  // ---------------------------------------------------------------- the measure

  predicate Unpushed(p: Pc) {
    p.Load? || p.Cas?
  }

  /** What a thread has still to do; n is the size of the group it leads. */
  function Rank(p: Pc, n: nat, newest: Option<Id>): nat {
    match p
    case Load => 52 * n + 13
    case Cas(e) => 52 * n + if e == newest then 11 else 12
    case Spin => 52 * n + 10
    case Made => 52 * n + 10
    case TryLock => 52 * n + 10
    case Acquire => 52 * n + 9
    case Holding => 52 * n + 8
    case Sleeping => 52 * n + 7
    case Woke(_) => 52 * n + 6
    case Gather(_, k) => if k < -1 then 0 else 51 * n + 7 + k
    case Append(_, k) => if k < -1 then 0 else 50 * n + 6 + k
    case Syncing => 50 * n + 4
    case Freeing => 50 * n + 3
    case Finish(_, k) => if k < -1 then 0 else 50 * (k + 1) + 2
    case FinishSet(_, _, k) => if k < 0 then 0 else 50 * k + 10
    case Returned => 0
  }

  function PhaseRank(f: Option<Phase>): nat {
    match f
    case None => 0
    case Some(ToUnlock) => 5
    case Some(ToNotify) => 10
    case Some(ToStore) => 15
    case Some(ToLock) => 20
    case Some(ToCas) => 25
    case Some(ToLoad) => 30
  }

  ghost function Cost(s: State, w: Id): nat
    requires w in s.pc
  {
    Rank(s.pc[w], if w in s.groups then |s.groups[w]| else 0, s.newest) + PhaseRank(PhaseOf(s.setting, w))
  }

  ghost function Costs(s: State): map<Id, nat> {
    map w | w in s.pc :: Cost(s, w)
  }

  ghost function Sum(m: map<Id, nat>): nat {
    if m == map[] then 0 else var w :| w in m; m[w] + Sum(m - {w})
  }

  lemma {:induction false} SumSplit(m: map<Id, nat>, w: Id)
    requires w in m
    ensures Sum(m) == m[w] + Sum(m - {w})
    decreases |m|
  {
    var u :| u in m && Sum(m) == m[u] + Sum(m - {u});
    if u != w {
      SumSplit(m - {u}, w);
      SumSplit(m - {w}, u);
      assert m - {u} - {w} == m - {w} - {u};
    }
  }

  lemma {:induction false} SumAtMost(m: map<Id, nat>, m': map<Id, nat>)
    requires m.Keys == m'.Keys && forall u :: u in m ==> m'[u] <= m[u]
    ensures Sum(m') <= Sum(m)
    decreases |m|
  {
    if m != map[] {
      var u :| u in m;
      SumSplit(m, u);
      SumSplit(m', u);
      SumAtMost(m - {u}, m' - {u});
    }
  }

  lemma SumLess(m: map<Id, nat>, m': map<Id, nat>, w: Id)
    requires m.Keys == m'.Keys && (forall u :: u in m ==> m'[u] <= m[u]) && w in m && m'[w] < m[w]
    ensures Sum(m') < Sum(m)
  {
    SumSplit(m, w);
    SumSplit(m', w);
    SumAtMost(m - {w}, m' - {w});
  }

  lemma SumTwo(m: map<Id, nat>, m': map<Id, nat>, a: Id, b: Id)
    requires m.Keys == m'.Keys && a in m && b in m && a != b && m'[a] + m'[b] < m[a] + m[b]
    requires forall u :: u in m && u != a && u != b ==> m'[u] == m[u]
    ensures Sum(m') < Sum(m)
  {
    SumSplit(m, a);
    SumSplit(m', a);
    SumSplit(m - {a}, b);
    SumSplit(m' - {a}, b);
    SumAtMost(m - {a} - {b}, m' - {a} - {b});
  }

  function ServerRank(server: Server): nat {
    match server
    case Releasing(_) => 4
    case Idle => 3
    case Probing => 2
    case Grabbed(_) => 1
    case Electing(_) => 0
  }

  ghost function Behind(s: State): set<Id> {
    set w | w in s.pc && Unpushed(s.pc[w])
  }

  /** Nearer to the end: fewer calls to push, then fewer on the stack, then less to do, then the server. */
  ghost predicate Nearer(s': State, s: State) {
    || |Behind(s')| < |Behind(s)|
    || (|Behind(s')| == |Behind(s)| && |s'.pile| < |s.pile|)
    || (|Behind(s')| == |Behind(s)| && |s'.pile| == |s.pile| && Sum(Costs(s')) < Sum(Costs(s)))
    || (|Behind(s')| == |Behind(s)| && |s'.pile| == |s.pile| && Sum(Costs(s')) == Sum(Costs(s)) && ServerRank(s'.server) < ServerRank(s.server))
  }

  /** Only `w` has come further. */
  lemma OneNearer(s: State, s': State, w: Id)
    requires w in s.pc && w in s'.pc && s'.pc == s.pc[w := s'.pc[w]] && s'.groups == s.groups && s'.newest == s.newest
    requires s'.setting == s.setting && s'.pile == s.pile && Unpushed(s.pc[w]) == Unpushed(s'.pc[w]) && Cost(s', w) < Cost(s, w)
    ensures Nearer(s', s)
  {
    assert Behind(s') == Behind(s);
    SumLess(Costs(s), Costs(s'), w);
  }

  // ---------------------------------------------------------------- a step that leads on

  lemma LoadNearer(s: State, w: Id)
    requires At(s, w, Load)
    ensures Nearer(DoWriter(s, w, LoadNewest), s)
  {
    WriterMoves(s, w, LoadNewest);
    OneNearer(s, DoWriter(s, w, LoadNewest), w);
  }

  lemma RetryNearer(s: State, w: Id)
    requires w in s.pc && s.pc[w].Cas? && s.pc[w].expected != s.newest
    ensures Nearer(DoWriter(s, w, CasFail), s)
  {
    WriterMoves(s, w, CasFail);
    OneNearer(s, DoWriter(s, w, CasFail), w);
  }

  lemma PushNearer(s: State, w: Id)
    requires w in s.pc && s.pc[w].Cas? && s.pc[w].expected == s.newest
    ensures Nearer(DoWriter(s, w, CasPush), s)
  {
    var s' := DoPush(s, w);
    assert DoWriter(s, w, CasPush) == s';
    assert Behind(s') == Behind(s) - {w} && w in Behind(s);
  }

  /** The waiting thread of a call that has been told, or the one whose mutex is wanted, goes on. */
  lemma WaitNearer(s: State, w: Id, a: WriterAct)
    requires WriterEnabled(s, w, a) && w in s.word
    requires a.SpinSee? || (a.LoadAgain? && !s.word[w].Init?) || (a.LockWord? && !s.word[w].Init?) || a.AcquireMutex? || a.TestWord? || a.ReturnCompleted?
    ensures Nearer(DoWriter(s, w, a), s)
  {
    WriterMoves(s, w, a);
    var s' := DoWriter(s, w, a);
    assert s' == DoWait(s, w, a) && s'.newest == s.newest && s'.pile == s.pile;
    OneNearer(s, s', w);
  }

  lemma LeadNearer(s: State, w: Id, a: LeadAct)
    requires Inv(s) && LeadEnabled(s, w, a) && !a.FinishNext?
    ensures Nearer(DoLead(s, w, a), s)
  {
    LeadFacts(s, w);
    LeadMoves(s, w, a);
    LeadRank(s, w, a);
    OneNearer(s, DoLead(s, w, a), w);
  }

  lemma LeadRank(s: State, w: Id, a: LeadAct)
    requires LeadEnabled(s, w, a) && Leads(s, w) && CursorOk(s.pc[w], s.groups[w]) && !a.FinishNext?
    ensures var n := |s.groups[w]|; Rank(DoLead(s, w, a).pc[w], n, s.newest) < Rank(s.pc[w], n, s.newest)
    ensures !Unpushed(s.pc[w]) && !Unpushed(DoLead(s, w, a).pc[w])
  {
    LeadGoes(s, w, a);
    GoesLess(s.pc[w], DoLead(s, w, a).pc[w], |s.groups[w]|, s.newest);
  }

  /** Where a leader gets by a step other than FinishNext. */
  ghost predicate Goes(p: Pc, q: Pc, n: nat) {
    match p
    case Woke(_) => q.Gather? && q.k == n - 2
    case Gather(_, k) => -1 <= k && ((q.Gather? && 0 <= k && q.k == k - 1) || (q.Append? && q.k == n - 1))
    case Append(_, k) => -1 <= k && ((q.Append? && 0 <= k && q.k == k - 1) || q.Syncing?)
    case Syncing => q.Freeing?
    case Freeing => q.Finish? && q.k == n - 2
    case Finish(_, k) => -1 <= k && q.Returned?
    case _ => false
  }

  lemma LeadGoes(s: State, w: Id, a: LeadAct)
    requires LeadEnabled(s, w, a) && Leads(s, w) && CursorOk(s.pc[w], s.groups[w]) && !a.FinishNext?
    ensures Goes(s.pc[w], DoLead(s, w, a).pc[w], |s.groups[w]|)
  {
  }

  lemma GoesLess(p: Pc, q: Pc, n: nat, newest: Option<Id>)
    requires Goes(p, q, n) && n > 0
    ensures Rank(q, n, newest) < Rank(p, n, newest) && !Unpushed(p) && !Unpushed(q)
  {
  }

  lemma FinishNearer(s: State, w: Id)
    requires Inv(s) && LeadEnabled(s, w, FinishNext)
    ensures Nearer(DoLead(s, w, FinishNext), s)
  {
    LeadFacts(s, w);
    var k := s.pc[w].k;
    WalkFacts(s, w, k);
    FinishNextIs(s, w, k);
    FinishingNearer(s, w, k, s.groups[w][k]);
  }

  lemma FinishingNearer(s: State, w: Id, k: int, c: Id)
    requires Inv(s) && w in s.pc && w in s.groups && 0 <= k <= |s.groups[w]| - 2 && s.groups[w][k] == c && s.pc[w] == Finish(Some(c), k)
    requires c in s.place && s.place[c] == Grouped(w, k) && w in s.place && s.place[w] == Grouped(w, |s.groups[w]| - 1)
    ensures Nearer(Finishing(s, w, k), s)
  {
    NotToldYet(s, w, k, c);
    TwoNearer(s, Finishing(s, w, k), w, c, k);
  }

  lemma NotToldYet(s: State, w: Id, k: int, c: Id)
    requires Inv(s) && w in s.pc && w in s.groups && 0 <= k <= |s.groups[w]| - 2 && s.pc[w] == Finish(Some(c), k)
    requires c in s.place && s.place[c] == Grouped(w, k) && w in s.place && s.place[w] == Grouped(w, |s.groups[w]| - 1)
    ensures c in s.pc && c !in s.setting && c != w
  {
    assert WriterOk(s, c);
  }

  lemma TwoNearer(s: State, s': State, w: Id, c: Id, k: int)
    requires w in s.pc && c in s.pc && c != w && c !in s.setting && s.pc[w] == Finish(Some(c), k) && k >= 0
    requires w in s'.pc && s'.pc == s.pc[w := s'.pc[w]] && s'.pc[w].FinishSet? && s'.pc[w].k == k
    requires s'.setting == s.setting[c := ToLoad] && s'.groups == s.groups && s'.newest == s.newest && s'.pile == s.pile
    ensures Nearer(s', s)
  {
    assert Behind(s') == Behind(s);
    assert Cost(s', c) == Cost(s, c) + 30 && Cost(s', w) + 42 == Cost(s, w);
    SumTwo(Costs(s), Costs(s'), w, c);
  }

  /** Nobody has fallen back and `w` has come further. */
  lemma AllNearer(s: State, s': State, w: Id)
    requires s'.pc.Keys == s.pc.Keys && s'.pile == s.pile && w in s.pc && Cost(s', w) < Cost(s, w)
    requires forall u {:trigger NoFurther(s, s', u)} :: u in s.pc ==> NoFurther(s, s', u)
    ensures Nearer(s', s)
  {
    forall u ensures u in Behind(s') <==> u in Behind(s) {
      assert u in s.pc ==> NoFurther(s, s', u);
    }
    forall u | u in s.pc ensures Costs(s')[u] <= Costs(s)[u] {
      assert NoFurther(s, s', u);
    }
    assert Behind(s') == Behind(s);
    SumLess(Costs(s), Costs(s'), w);
  }

  ghost predicate NoFurther(s: State, s': State, u: Id) {
    u in s.pc && u in s'.pc && Cost(s', u) <= Cost(s, u) && Unpushed(s'.pc[u]) == Unpushed(s.pc[u])
  }

  lemma SetNearer(s: State, w: Id)
    requires Inv(s) && SetEnabled(s, w)
    ensures Nearer(DoSet(s, w), s)
  {
    var o := SetComes(s, w);
    match o
    case GoesOn(m, f) => GoesOnNearer(s, w, m, f);
    case ToServer(m) => ToServerNearer(s, w, m);
    case ToLeader(m, g) => ToLeaderNearer(s, w, m, g);
  }

  lemma GoesOnNearer(s: State, w: Id, m: Move, f: Phase)
    requires Comes(s, w, GoesOn(m, f))
    ensures Nearer(MovedSetting(s, w, m, f), s)
  {
    var s' := MovedSetting(s, w, m, f);
    assert Cost(s', w) < Cost(s, w);
    forall u | u in s.pc ensures NoFurther(s, s', u) {
      assert u != w ==> PhaseOf(s'.setting, u) == PhaseOf(s.setting, u) && s'.pc[u] == s.pc[u];
    }
    AllNearer(s, s', w);
  }

  lemma ToServerNearer(s: State, w: Id, m: Move)
    requires Comes(s, w, ToServer(m))
    ensures Nearer(Elected(s, w, m), s)
  {
    var s' := Elected(s, w, m);
    assert Cost(s', w) < Cost(s, w);
    forall u | u in s.pc ensures NoFurther(s, s', u) {
      assert u != w ==> PhaseOf(s'.setting, u) == PhaseOf(s.setting, u);
    }
    AllNearer(s, s', w);
  }

  lemma ToLeaderNearer(s: State, w: Id, m: Move, g: Id)
    requires Comes(s, w, ToLeader(m, g))
    ensures Nearer(Told(s, w, m, g), s)
  {
    var s' := Told(s, w, m, g);
    assert Cost(s', w) < Cost(s, w);
    forall u | u in s.pc ensures NoFurther(s, s', u) {
      assert u != w ==> PhaseOf(s'.setting, u) == PhaseOf(s.setting, u);
    }
    AllNearer(s, s', w);
  }

  lemma ServerNearer(s: State, a: ServerAct)
    requires ServerEnabled(s, a) && (a.Probe? || a.Grab? || a.Release? || (a.Exchange? && s.newest.Some? && s.pile != []))
    ensures Nearer(DoServer(s, a), s)
  {
    var s' := DoServer(s, a);
    assert s'.pc == s.pc && Behind(s') == Behind(s);
    if !a.Exchange? {
      assert Costs(s') == Costs(s);
    }
  }

  // ---------------------------------------------------------------- somebody can always go on

  ghost predicate Sound(s: State) {
    Inv(s) && BusyInRange(s) && BusyHeld(s) && s.logs > 0
  }

  /** A step that is no arrival, can be taken and leads on. */
  ghost predicate Advances(s: State, step: Step) {
    Enabled(s, step) && !(step.Writer? && step.wait.Arrive?) && Nearer(Do(s, step), s)
  }

  lemma PushOn(s: State, w: Id) returns (step: Step)
    requires w in s.pc && Unpushed(s.pc[w])
    ensures Advances(s, step)
  {
    if s.pc[w].Load? {
      LoadNearer(s, w);
      step := Writer(w, LoadNewest);
    } else if s.pc[w].expected == s.newest {
      PushNearer(s, w);
      step := Writer(w, CasPush);
    } else {
      RetryNearer(s, w);
      step := Writer(w, CasFail);
    }
  }

  lemma SetOn(s: State, w: Id) returns (step: Step)
    requires Inv(s) && w in s.setting
    ensures Advances(s, step)
  {
    SetterIs(s, w);
    if SetEnabled(s, w) {
      SetNearer(s, w);
      step := Set(w);
    } else {
      WantsMutex(s, w);
      WaitNearer(s, w, TestWord);
      step := Writer(w, TestWord);
    }
  }

  /** The setter waits for the mutex of a writer about to test its word. */
  lemma WantsMutex(s: State, w: Id)
    requires Inv(s) && w in s.setting && w in s.pc && w in s.word && !SetEnabled(s, w)
    ensures At(s, w, Holding)
  {
    assert WriterOk(s, w);
  }

  lemma WaitOn(s: State, w: Id) returns (step: Step)
    requires Inv(s) && w in s.pc && w in s.word && w !in s.setting && Waiting(s.pc[w]) && (s.word[w].Leader? || s.word[w].Completed?)
    ensures Advances(s, step)
  {
    assert WriterOk(s, w);
    ToldCanMove(s.pc[w], s.word[w], PhaseOf(s.setting, w), w in s.made, OwnerOf(s.owner, w));
    var a := NextWait(s.pc[w]);
    WaitNearer(s, w, a);
    step := Writer(w, a);
  }

  lemma ReturnOn(s: State, w: Id) returns (step: Step)
    requires Inv(s) && w in s.pc && s.pc[w] == Woke(Completed)
    ensures Advances(s, step)
  {
    WaitNearer(s, w, ReturnCompleted);
    step := Writer(w, ReturnCompleted);
  }

  /** A call that leads, but is not in SetState. */
  predicate Leading(p: Pc) {
    p == Woke(Leader) || (!Early(p) && !p.Returned? && !p.FinishSet?)
  }

  lemma LeadOn(s: State, w: Id) returns (step: Step)
    requires Inv(s) && w in s.pc && Leading(s.pc[w])
    ensures Advances(s, step)
  {
    var a := NextLead(s.pc[w]);
    CanLead(s, w);
    if a.FinishNext? {
      FinishNearer(s, w);
    } else {
      LeadNearer(s, w, a);
    }
    step := Lead(w, a);
  }

  lemma CanLead(s: State, w: Id)
    requires Inv(s) && w in s.pc && Leading(s.pc[w])
    ensures LeadEnabled(s, w, NextLead(s.pc[w]))
  {
    assert WriterOk(s, w);
    LeaderWord(s, w);
    LeadFacts(s, w);
    var p := s.pc[w];
    if (p.Gather? || p.Append? || p.Finish?) && p.c.Some? {
      WalkFacts(s, w, p.k);
    }
  }

  /** None of the above can go on: nobody is being told anything. */
  ghost predicate Stalled(s: State, w: Id) {
    && w in s.pc && w in s.word && w !in s.setting
    && (s.pc[w].Returned? || s.pc[w].FinishSet? || (Waiting(s.pc[w]) && (s.word[w].Init? || s.word[w].Locked?)))
  }

  lemma StalledOr(s: State, w: Id) returns (step: Option<Step>)
    requires Inv(s) && w in s.pc
    ensures step.None? ==> Stalled(s, w)
    ensures step.Some? ==> Advances(s, step.value)
  {
    assert WriterOk(s, w);
    var p := s.pc[w];
    var on;
    step := None;
    if Unpushed(p) {
      on := PushOn(s, w);
      step := Some(on);
    } else if w in s.setting {
      on := SetOn(s, w);
      step := Some(on);
    } else if Waiting(p) && (s.word[w].Leader? || s.word[w].Completed?) {
      on := WaitOn(s, w);
      step := Some(on);
    } else if p == Woke(Completed) {
      on := ReturnOn(s, w);
      step := Some(on);
    } else if Leading(p) {
      on := LeadOn(s, w);
      step := Some(on);
    }
  }

  ghost predicate AllStalled(s: State) {
    forall w {:trigger Stalled(s, w)} :: w in s.pc ==> Stalled(s, w)
  }

  /** A stalled leader has returned. */
  lemma StalledLeader(s: State, g: Id)
    requires Inv(s) && AllStalled(s) && g in s.groups
    ensures g in s.pc && s.pc[g].Returned?
  {
    LeadFacts(s, g);
    assert WriterOk(s, g) && Stalled(s, g);
    if s.pc[g].FinishSet? {
      var c := s.groups[g][s.pc[g].k];
      WalkFacts(s, g, s.pc[g].k);
      InPc(s, c);
      assert Stalled(s, c);
      TargetIsTold(s, g, c);
    }
  }

  lemma InPc(s: State, c: Id)
    requires Inv(s) && c in s.place
    ensures c in s.pc
  {
  }

  lemma TargetIsTold(s: State, g: Id, c: Id)
    requires Inv(s) && g in s.pc && s.pc[g].FinishSet? && g in s.groups && 0 <= s.pc[g].k <= |s.groups[g]| - 2
    requires c in s.place && s.place[c] == Grouped(g, s.pc[g].k) && g in s.place && s.place[g] == Grouped(g, |s.groups[g]| - 1)
    ensures c in s.pc && c in s.setting
  {
    assert WriterOk(s, c);
  }

  /** A stalled call that has not returned is on the stack. */
  lemma StalledIsPiled(s: State, w: Id)
    requires Inv(s) && AllStalled(s) && w in s.pc && !s.pc[w].Returned?
    ensures w in s.place && s.place[w].Piled? && s.newest.Some? && s.pile != []
  {
    assert WriterOk(s, w) && Stalled(s, w);
    if s.pc[w].FinishSet? {
      LeaderWord(s, w);
      StalledLeader(s, w);
    }
    assert Placed(s.pile, s.groups, w, s.place[w]);
    if s.place[w].Grouped? {
      StalledLeader(s, s.place[w].leader);
    }
  }

  /** Then no log is marked but the server's, and the server is not electing. */
  lemma LogsAreFree(s: State, l: LogNo)
    requires Inv(s) && AllStalled(s) && BusyHeld(s)
    ensures l in s.busy ==> ServerHolds(s.server, l)
    ensures !s.server.Electing?
  {
    if l in s.busy {
      assert Held(s, l);
      if !ServerHolds(s.server, l) {
        var g :| HeldBy(s, g, l);
        StalledLeader(s, g);
      }
    }
    if s.server.Electing? {
      LeadFacts(s, s.server.h);
      assert Stalled(s, s.server.h);
      ElectedIsTold(s, s.server.h);
    }
  }

  lemma ElectedIsTold(s: State, h: Id)
    requires Inv(s) && s.server == Electing(h) && h in s.pc
    ensures h in s.setting
  {
    LeadFacts(s, h);
    assert WriterOk(s, h);
  }

  lemma ServeOn(s: State) returns (step: Step)
    requires Sound(s) && AllStalled(s) && s.newest.Some? && s.pile != []
    ensures Advances(s, step)
  {
    LogsAreFree(s, 0);
    var a := match s.server
      case Idle => Probe
      case Probing => Grab(0)
      case Grabbed(_) => Exchange
      case Releasing(_) => Release
      case Electing(_) => NoLog;
    ServerNearer(s, a);
    step := Serve(a);
  }

  /** As long as a call has not returned, some step leads on. */
  lemma StepOn(s: State, w: Id) returns (step: Step)
    requires Sound(s) && w in s.pc && !s.pc[w].Returned?
    ensures Advances(s, step)
  {
    if u, on: Step :| u in s.pc && Advances(s, on) {
      step := on;
    } else {
      forall u | u in s.pc ensures Stalled(s, u) {
        var on := StalledOr(s, u);
      }
      StalledIsPiled(s, w);
      step := ServeOn(s);
    }
  }

  // ---------------------------------------------------------------- to the end

  lemma StepHeld(s: State, step: Step)
    requires Inv(s) && BusyHeld(s) && Enabled(s, step)
    ensures BusyHeld(Do(s, step))
  {
    match step
    case Writer(w, a) => WriterHeld(s, w, a);
    case Lead(w, a) => LeadHeld(s, w, a);
    case Set(w) => SetHeld(s, w);
    case Serve(a) => ServerHeld(s, a);
  }

  lemma StepKeys(s: State, step: Step)
    requires Inv(s) && Enabled(s, step)
    ensures Do(s, step).logs == s.logs
    ensures Do(s, step).pc.Keys == if step.Writer? && step.wait.Arrive? then s.pc.Keys + {step.w} else s.pc.Keys
  {
    match step
    case Writer(w, a) => WriterKeys(s, w, a);
    case Lead(w, a) => LeadMoves(s, w, a);
    case Set(w) => SetKeys(s, w);
    case Serve(a) => ServerKeys(s, a);
  }

  lemma WriterKeys(s: State, w: Id, a: WriterAct)
    requires WriterEnabled(s, w, a)
    ensures DoWriter(s, w, a).logs == s.logs && DoWriter(s, w, a).pc.Keys == if a.Arrive? then s.pc.Keys + {w} else s.pc.Keys
  {
    WriterMoves(s, w, a);
    assert a.Arrive? || w in s.pc;
  }

  lemma SetKeys(s: State, w: Id)
    requires Inv(s) && SetEnabled(s, w)
    ensures DoSet(s, w).pc.Keys == s.pc.Keys && DoSet(s, w).logs == s.logs
  {
    var o := SetComes(s, w);
    match o
    case GoesOn(m, f) => assert s.pc[w := m.p].Keys == s.pc.Keys;
    case ToServer(m) =>
    case ToLeader(m, g) =>
  }

  lemma ServerKeys(s: State, a: ServerAct)
    requires ServerEnabled(s, a)
    ensures DoServer(s, a).pc == s.pc && DoServer(s, a).logs == s.logs
  {
    if a.Exchange? {
      ExchangeSame(s);
    }
  }

  lemma ExchangeSame(s: State)
    requires s.server.Grabbed?
    ensures DoExchange(s).pc == s.pc && DoExchange(s).logs == s.logs
  {
    if s.newest.None? {
      assert DoExchange(s) == s.(server := Releasing(s.server.l));
    } else {
      var s' := DoExchange(s);
      assert s'.pc == s.pc;
    }
  }

  lemma {:induction false} RunSound(states: seq<State>, steps: seq<Step>, i: nat)
    requires Run(states, steps) && states[0].logs > 0 && i < |states|
    ensures Sound(states[i])
  {
    RunInv(states, steps, i);
    if i > 0 {
      RunSound(states, steps, i - 1);
      StepHeld(states[i - 1], steps[i - 1]);
      StepKeys(states[i - 1], steps[i - 1]);
    }
  }

  ghost predicate AllReturned(s: State) {
    forall w :: w in s.pc ==> s.pc[w].Returned?
  }

  /** Every run can be continued, without further calls, until every call has returned. */
  lemma {:induction false} EveryCallCanReturn(states: seq<State>, steps: seq<Step>) returns (more: seq<State>, acts: seq<Step>)
    requires Run(states, steps) && states[0].logs > 0
    ensures Run(more, acts) && states <= more && steps <= acts
    ensures more[|acts|].pc.Keys == states[|steps|].pc.Keys && AllReturned(more[|acts|])
    decreases |Behind(states[|steps|])|, |states[|steps|].pile|, Sum(Costs(states[|steps|])), ServerRank(states[|steps|].server)
  {
    var s := states[|steps|];
    if w :| w in s.pc && !s.pc[w].Returned? {
      var step := OneStepOn(states, steps, w);
      more, acts := EveryCallCanReturn(states + [Do(s, step)], steps + [step]);
    } else {
      more, acts := states, steps;
    }
  }

  lemma OneStepOn(states: seq<State>, steps: seq<Step>, w: Id) returns (step: Step)
    requires Run(states, steps) && states[0].logs > 0 && w in states[|steps|].pc && !states[|steps|].pc[w].Returned?
    ensures Enabled(states[|steps|], step) && Run(states + [Do(states[|steps|], step)], steps + [step])
    ensures Nearer(Do(states[|steps|], step), states[|steps|]) && Do(states[|steps|], step).pc.Keys == states[|steps|].pc.Keys
  {
    var s := states[|steps|];
    RunSound(states, steps, |steps|);
    step := StepOn(s, w);
    StepKeys(s, step);
    RunOn(states, steps, step);
  }

  lemma RunOn(states: seq<State>, steps: seq<Step>, step: Step)
    requires Run(states, steps) && Enabled(states[|steps|], step)
    ensures Run(states + [Do(states[|steps|], step)], steps + [step])
  {
    var more, acts := states + [Do(states[|steps|], step)], steps + [step];
    forall i | 0 <= i < |acts| ensures Enabled(more[i], acts[i]) && more[i + 1] == Do(more[i], acts[i]) {
      if i < |steps| {
        assert more[i] == states[i] && more[i + 1] == states[i + 1] && acts[i] == steps[i];
      }
    }
  }

  // ---------------------------------------------------------------- without a log

  /** A continuation of the run, without further calls, after which every call has returned. */
  ghost predicate Concludes(states: seq<State>, steps: seq<Step>, more: seq<State>, acts: seq<Step>) {
    && Run(states, steps) && Run(more, acts) && states <= more && steps <= acts
    && more[|acts|].pc.Keys == states[|steps|].pc.Keys && AllReturned(more[|acts|])
  }

  ghost predicate AlwaysConcludes(logs: nat) {
    forall states: seq<State>, steps: seq<Step> :: Run(states, steps) && states[0].logs == logs ==>
      exists more: seq<State>, acts: seq<Step> :: Concludes(states, steps, more, acts)
  }

  /** Every run can be brought to an end if and only if there is a log. */
  lemma AlwaysConcludesIff(logs: nat)
    ensures AlwaysConcludes(logs) <==> logs > 0
  {
    if logs > 0 {
      forall states: seq<State>, steps: seq<Step> | Run(states, steps) && states[0].logs == logs
        ensures exists more: seq<State>, acts: seq<Step> :: Concludes(states, steps, more, acts)
      {
        var more, acts := EveryCallCanReturn(states, steps);
        assert Concludes(states, steps, more, acts);
      }
    } else {
      var states, steps := OneCall();
      forall more: seq<State>, acts: seq<Step> ensures !Concludes(states, steps, more, acts) {
        NeverConcludes(states, steps, more, acts);
      }
    }
  }

  /** One call has arrived at a server without logs. */
  lemma OneCall() returns (states: seq<State>, steps: seq<Step>)
    ensures Run(states, steps) && states[0].logs == 0 && 0 in states[|steps|].pc
  {
    var s := State(0, None, {}, Idle, map[], map[], map[], map[], {}, map[], map[], map[], [], {}, [], map[], map[]);
    states, steps := [s, Do(s, Writer(0, Arrive))], [Writer(0, Arrive)];
  }

  lemma NeverConcludes(states: seq<State>, steps: seq<Step>, more: seq<State>, acts: seq<Step>)
    requires Run(states, steps) && states[0].logs == 0 && 0 in states[|steps|].pc
    ensures !Concludes(states, steps, more, acts)
  {
    if Concludes(states, steps, more, acts) {
      assert more[0] == states[0];
      NobodyReturns(more, acts, |acts|, 0);
    }
  }

  /** The server never gets a log and no group is formed. */
  ghost predicate Logless(s: State) {
    s.logs == 0 && s.groups == map[] && (s.server.Idle? || s.server.Probing?)
  }

  lemma LoglessStep(s: State, step: Step)
    requires Inv(s) && Logless(s) && Enabled(s, step)
    ensures Logless(Do(s, step))
  {
    match step
    case Writer(w, a) => WriterMoves(s, w, a);
    case Lead(w, a) => LeadMoves(s, w, a);
    case Set(w) => SetterIs(s, w);
    case Serve(a) =>
  }

  lemma {:induction false} RunLogless(states: seq<State>, steps: seq<Step>, i: nat)
    requires Run(states, steps) && states[0].logs == 0 && i < |states|
    ensures Logless(states[i])
  {
    if i > 0 {
      RunLogless(states, steps, i - 1);
      RunInv(states, steps, i - 1);
      LoglessStep(states[i - 1], steps[i - 1]);
    }
  }

  lemma NobodyReturns(states: seq<State>, steps: seq<Step>, i: nat, w: Id)
    requires Run(states, steps) && states[0].logs == 0 && i < |states| && w in states[i].pc
    ensures !states[i].pc[w].Returned?
  {
    RunLogless(states, steps, i);
    RunInv(states, steps, i);
    var s := states[i];
    assert WriterOk(s, w);
    UntoldHasNotReturned(s.pc[w], s.word[w], PhaseOf(s.setting, w), w in s.made, OwnerOf(s.owner, w));
  }
}
