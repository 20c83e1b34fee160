/** Group commit and writer handshake over every run. */
module GroupCommitSafety {
  import opened Options
  import opened GroupCommit
  import opened GroupCommitInv

  /** Any interleaving of any number of writers with the server, from an empty logging server. */
  ghost predicate Run(states: seq<State>, steps: seq<Step>) {
    && |states| == |steps| + 1 && InitState(states[0])
    && forall i :: 0 <= i < |steps| ==> Enabled(states[i], steps[i]) && states[i + 1] == Do(states[i], steps[i])
  }

  lemma {:induction false} RunInv(states: seq<State>, steps: seq<Step>, i: nat)
    requires Run(states, steps) && i < |states|
    ensures Inv(states[i]) && BusyInRange(states[i])
  {
    if i == 0 {
      InitInv(states[0]);
    } else {
      RunInv(states, steps, i - 1);
      StepInv(states[i - 1], steps[i - 1]);
      StepBusy(states[i - 1], steps[i - 1]);
    }
  }

  ghost predicate BusyInRange(s: State) {
    forall l :: l in s.busy ==> l < s.logs
  }

  lemma StepBusy(s: State, step: Step)
    requires Enabled(s, step) && BusyInRange(s)
    ensures BusyInRange(Do(s, step))
  {
    match step
    case Writer(w, a) => WriterBusy(s, w, a);
    case Lead(w, a) => LeadBusy(s, w, a);
    case Set(w) => SetBusy(s, w);
    case Serve(a) => ServerBusy(s, a);
  }

  lemma WriterBusy(s: State, w: Id, a: WriterAct)
    requires WriterEnabled(s, w, a)
    ensures DoWriter(s, w, a).busy == s.busy && DoWriter(s, w, a).logs == s.logs
  {
  }

  lemma ServerBusy(s: State, a: ServerAct)
    requires ServerEnabled(s, a) && BusyInRange(s)
    ensures BusyInRange(DoServer(s, a))
  {
    match a
    case Exchange => ExchangeKeeps(s);
    case Grab(l) => assert l < s.logs;
    case _ =>
  }

  lemma ExchangeKeeps(s: State)
    requires s.server.Grabbed?
    ensures var s' := DoExchange(s); s'.busy == s.busy && s'.logs == s.logs && s'.synced == s.synced
  {
  }

  lemma LeadBusy(s: State, w: Id, a: LeadAct)
    requires LeadEnabled(s, w, a)
    ensures DoLead(s, w, a).busy <= s.busy && DoLead(s, w, a).logs == s.logs
    ensures DoLead(s, w, a).groups == s.groups && DoLead(s, w, a).place == s.place && s.appended <= DoLead(s, w, a).appended
  {
  }

  lemma SetBusy(s: State, w: Id)
    requires SetEnabled(s, w)
    ensures DoSet(s, w).busy == s.busy && DoSet(s, w).logs == s.logs
    ensures DoSet(s, w).groups == s.groups && DoSet(s, w).place == s.place && DoSet(s, w).appended == s.appended
  {
    var (m, f) := SetMove(s.setting[w], Goal(s, w), MoveOf(s, w));
    ResumeBusy(Moved(s, w, m.p, m.x, m.made, m.o), w);
  }

  lemma ResumeBusy(s: State, w: Id)
    ensures Resume(s, w).busy == s.busy && Resume(s, w).logs == s.logs
    ensures Resume(s, w).groups == s.groups && Resume(s, w).place == s.place && Resume(s, w).appended == s.appended
  {
  }

  // ---------------------------------------------------------------- groups

  ghost predicate GroupsKept(groups: map<Id, seq<Id>>, groups': map<Id, seq<Id>>) {
    forall g :: g in groups ==> g in groups' && groups'[g] == groups[g]
  }

  ghost predicate PlacesKept(place: map<Id, Place>, place': map<Id, Place>) {
    forall w :: w in place && place[w].Grouped? ==> w in place' && place'[w] == place[w]
  }

  /** A step forms at most one group and breaks none; a grouped writer keeps its place. */
  lemma StepKeepsGroups(s: State, step: Step)
    requires Inv(s) && Enabled(s, step)
    ensures var s' := Do(s, step);
      GroupsKept(s.groups, s'.groups) && PlacesKept(s.place, s'.place) && s.appended <= s'.appended
  {
    match step
    case Writer(w, a) => WriterKeepsGroups(s, w, a);
    case Lead(w, a) => LeadBusy(s, w, a);
    case Set(w) => SetBusy(s, w);
    case Serve(a) => ServerKeepsGroups(s, a);
  }

  lemma WriterKeepsGroups(s: State, w: Id, a: WriterAct)
    requires Inv(s) && WriterEnabled(s, w, a)
    ensures var s' := DoWriter(s, w, a);
      GroupsKept(s.groups, s'.groups) && PlacesKept(s.place, s'.place) && s.appended == s'.appended
  {
    if a.CasPush? {
      assert WriterOk(s, w);
    }
  }

  lemma ServerKeepsGroups(s: State, a: ServerAct)
    requires Inv(s) && ServerEnabled(s, a)
    ensures var s' := DoServer(s, a);
      GroupsKept(s.groups, s'.groups) && PlacesKept(s.place, s'.place) && s.appended == s'.appended
  {
    if a.Exchange? && s.newest.Some? {
      HeadOfPile(s);
    }
  }

  lemma {:induction false} RunKeepsGroups(states: seq<State>, steps: seq<Step>, i: nat, j: nat, w: Id)
    requires Run(states, steps) && i <= j < |states| && w in states[i].place && states[i].place[w].Grouped?
    ensures w in states[j].place && states[j].place[w] == states[i].place[w]
    decreases j - i
  {
    if i < j {
      RunInv(states, steps, i);
      StepKeepsGroups(states[i], steps[i]);
      RunKeepsGroups(states, steps, i + 1, j, w);
    }
  }

  // ---------------------------------------------------------------- data

  lemma {:induction false} RunAppended(states: seq<State>, steps: seq<Step>, i: nat, j: nat)
    requires Run(states, steps) && i <= j < |states|
    ensures states[i].appended <= states[j].appended
    decreases j - i
  {
    if i < j {
      RunInv(states, steps, i);
      StepKeepsGroups(states[i], steps[i]);
      RunAppended(states, steps, i + 1, j);
    }
  }

  lemma WriterSynced(s: State, w: Id, a: WriterAct)
    requires WriterEnabled(s, w, a)
    ensures DoWriter(s, w, a).synced == s.synced
  {
  }

  lemma ResumeSynced(s: State, w: Id)
    ensures Resume(s, w).synced == s.synced
  {
  }

  lemma SetSynced(s: State, w: Id)
    requires SetEnabled(s, w)
    ensures DoSet(s, w).synced == s.synced
  {
    var (m, f) := SetMove(s.setting[w], Goal(s, w), MoveOf(s, w));
    ResumeSynced(Moved(s, w, m.p, m.x, m.made, m.o), w);
  }

  /** The step is a Sync of a log that has data of `w`. */
  ghost predicate Covers(s: State, step: Step, w: Id) {
    step.Lead? && step.lead.Sync? && step.w in s.log && Entry(s.log[step.w], w) in s.appended
  }

  /** The step is a Sync of this log, which has data of `w`. */
  ghost predicate CoversIn(s: State, step: Step, w: Id, l: LogNo) {
    step.Lead? && step.lead.Sync? && step.w in s.log && s.log[step.w] == l && Entry(l, w) in s.appended
  }

  lemma StepSynced(s: State, step: Step, w: Id)
    requires Enabled(s, step) && w in Do(s, step).synced && w !in s.synced
    ensures Covers(s, step, w)
  {
    match step
    case Writer(v, a) => WriterSynced(s, v, a);
    case Lead(v, a) => LeadSynced(s, v, a, w);
    case Set(v) => SetSynced(s, v);
    case Serve(a) => ServerSynced(s, a);
  }

  lemma ServerSynced(s: State, a: ServerAct)
    requires ServerEnabled(s, a)
    ensures DoServer(s, a).synced == s.synced
  {
    if a.Exchange? {
      ExchangeKeeps(s);
    }
  }

  lemma LeadSynced(s: State, v: Id, a: LeadAct, w: Id)
    requires LeadEnabled(s, v, a) && w in DoLead(s, v, a).synced && w !in s.synced
    ensures Covers(s, Lead(v, a), w)
  {
  }

  lemma {:induction false} SyncedByCover(states: seq<State>, steps: seq<Step>, i: nat, w: Id)
    requires Run(states, steps) && i < |states| && w in states[i].synced
    ensures exists m :: 0 <= m < i && Covers(states[m], steps[m], w)
  {
    if i > 0 {
      if w in states[i - 1].synced {
        SyncedByCover(states, steps, i - 1, w);
      } else {
        StepSynced(states[i - 1], steps[i - 1], w);
      }
    }
  }

  /** Exactly one entry is the writer's, and it is in this log. */
  ghost predicate AppendedOnce(appended: seq<Entry>, w: Id, l: LogNo) {
    exists e :: 0 <= e < |appended| && appended[e] == Entry(l, w)
      && forall d :: 0 <= d < |appended| && d != e ==> appended[d].id != w
  }

  /** The writer is in the group of `g` and in no other, and its group pointer says so. */
  ghost predicate InOneGroup(s: State, w: Id, g: Id) {
    && (exists j :: g in s.groups && 0 <= j < |s.groups[g]| && s.groups[g][j] == w)
    && (forall h, j :: h in s.groups && 0 <= j < |s.groups[h]| && s.groups[h][j] == w ==> h == g)
    && w in s.groupOf && s.groupOf[w] == g
  }

  /** A call that has returned is a leader or a completed member, and its leader has synced. */
  lemma ReturnedRole(s: State, w: Id)
    requires w in s.pc && w in s.word && s.pc[w] == Returned && Shaken(s, w) && RoleOk(s, w)
    ensures w in s.place && s.place[w].Grouped?
    ensures var g := s.place[w].leader; g in s.pc && Past(s.pc[g], s.place[w].j)
  {
  }

  lemma ReturnedOnce(s: State, w: Id, g: Id)
    requires w in s.pc && w in s.place && s.place[w].Grouped? && s.place[w].leader == g && g in s.pc && g in s.log
    requires Past(s.pc[g], s.place[w].j) && DataOk(s, w) && NoDup(s.appended)
    ensures AppendedOnce(s.appended, w, s.log[g]) && w in s.synced
  {
    assert Entry(s.log[g], w) in s.appended;
    var e :| 0 <= e < |s.appended| && s.appended[e] == Entry(s.log[g], w);
    forall d | 0 <= d < |s.appended| && d != e ensures s.appended[d].id != w {
      assert s.appended[if d < e then d else e].id != s.appended[if d < e then e else d].id;
    }
  }

  lemma ReturnedGroup(s: State, w: Id, g: Id)
    requires Shape(s) && w in s.pc && w in s.place && s.place[w].Grouped? && s.place[w].leader == g && g in s.pc
    requires Past(s.pc[g], s.place[w].j) && GroupPtrOk(s, w)
    ensures InOneGroup(s, w, g)
  {
    assert Placed(s.pile, s.groups, w, s.place[w]);
  }

  /**
   Durability: when a call of AddLog returns, its writer has been in exactly one group, its data
   have been appended exactly once, to that group's log, and a Sync of that log came after the append.
   */
  lemma ReturnIsDurable(states: seq<State>, steps: seq<Step>, i: nat, w: Id)
    requires Run(states, steps) && i < |states| && At(states[i], w, Returned)
    ensures var s := states[i]; exists g ::
      && g in s.log && InOneGroup(s, w, g) && AppendedOnce(s.appended, w, s.log[g])
      && exists m :: 0 <= m < i && CoversIn(states[m], steps[m], w, s.log[g])
  {
    RunInv(states, steps, i);
    var s := states[i];
    assert WriterOk(s, w);
    ReturnedRole(s, w);
    var g := s.place[w].leader;
    ReturnedGroup(s, w, g);
    assert g in s.groups && g in s.log;
    ReturnedOnce(s, w, g);
    SyncedByCover(states, steps, i, w);
    var m :| 0 <= m < i && Covers(states[m], steps[m], w);
    RunAppended(states, steps, m, i);
    OnceIn(states[m].appended, s.appended, w, states[m].log[steps[m].w], s.log[g]);
    assert CoversIn(states[m], steps[m], w, s.log[g]);
  }

  lemma OnceIn(appended: seq<Entry>, appended': seq<Entry>, w: Id, l: LogNo, l': LogNo)
    requires appended <= appended' && Entry(l, w) in appended && AppendedOnce(appended', w, l')
    ensures l == l'
  {
    var d :| 0 <= d < |appended| && appended[d] == Entry(l, w);
    assert appended'[d] == Entry(l, w);
  }

  /** Two groups never hold the same log at the same time. */
  lemma LogsAreExclusive(states: seq<State>, steps: seq<Step>, i: nat, g: Id, h: Id)
    requires Run(states, steps) && i < |states|
    requires var s := states[i]; g in s.groups && h in s.groups && g != h
    ensures var s := states[i];
      && g in s.pc && h in s.pc && g in s.log && h in s.log
      && (HoldsLog(s.pc[g]) && HoldsLog(s.pc[h]) ==> s.log[g] != s.log[h])
      && (HoldsLog(s.pc[g]) ==> s.log[g] in s.busy && s.log[g] < s.logs)
  {
    RunInv(states, steps, i);
  }

  // ---------------------------------------------------------------- the handshake

  /** The moves of a state word. */
  predicate NextWord(x: Word, y: Word) {
    x == y || (x.Init? && y.Locked?) || ((x.Init? || x.Locked?) && (y.Leader? || y.Completed?))
  }

  lemma LeadWord(s: State, v: Id, a: LeadAct)
    requires LeadEnabled(s, v, a)
    ensures DoLead(s, v, a).word == s.word
  {
  }

  lemma ExchangeWord(s: State)
    requires s.server.Grabbed?
    ensures DoExchange(s).word == s.word
  {
    if s.newest.Some? {
      var h := s.newest.value;
      assert DoExchange(s) ==
        s.(newest := None, server := Electing(h), log := s.log[h := s.server.l], setting := s.setting[h := ToLoad],
           pile := [], groups := s.groups[h := s.pile], place := Regroup(s.place, h));
    }
  }

  lemma ServerWord(s: State, a: ServerAct)
    requires ServerEnabled(s, a)
    ensures DoServer(s, a).word == s.word
  {
    if a.Exchange? {
      ExchangeWord(s);
    }
  }

  lemma ResumeWord(s: State, w: Id)
    ensures Resume(s, w).word == s.word
  {
  }

  lemma SetWordIs(s: State, v: Id)
    requires SetEnabled(s, v)
    ensures DoSet(s, v).word == s.word[v := SetMove(s.setting[v], Goal(s, v), MoveOf(s, v)).0.x]
  {
    var (m, f) := SetMove(s.setting[v], Goal(s, v), MoveOf(s, v));
    ResumeWord(Moved(s, v, m.p, m.x, m.made, m.o), v);
  }

  lemma SetNextWord(f: Phase, goal: Word, m: Move)
    requires Marking(m.x, Some(f), goal) && (goal.Leader? || goal.Completed?)
    ensures NextWord(m.x, SetMove(f, goal, m).0.x)
  {
  }

  lemma SetWord(s: State, v: Id, w: Id)
    requires Inv(s) && SetEnabled(s, v) && w in s.word
    ensures w in DoSet(s, v).word && NextWord(s.word[w], DoSet(s, v).word[w])
  {
    SetWordIs(s, v);
    SetterIs(s, v);
    SetNextWord(s.setting[v], Goal(s, v), MoveOf(s, v));
  }

  lemma WriterWord(s: State, v: Id, a: WriterAct, w: Id)
    requires Keys(s) && WriterEnabled(s, v, a) && w in s.word
    ensures w in DoWriter(s, v, a).word && NextWord(s.word[w], DoWriter(s, v, a).word[w])
  {
  }

  lemma StepWord(s: State, step: Step, w: Id)
    requires Inv(s) && Enabled(s, step) && w in s.word
    ensures w in Do(s, step).word && NextWord(s.word[w], Do(s, step).word[w])
  {
    match step
    case Writer(v, a) => WriterWord(s, v, a, w);
    case Lead(v, a) => LeadWord(s, v, a);
    case Set(v) => SetWord(s, v, w);
    case Serve(a) => ServerWord(s, a);
  }

  /** Along every run the word goes INIT, perhaps LOCKED_WAITING, then LEADER or COMPLETED for good. */
  lemma {:induction false} RunWord(states: seq<State>, steps: seq<Step>, i: nat, j: nat, w: Id)
    requires Run(states, steps) && i <= j < |states| && w in states[i].word
    ensures w in states[j].word && NextWord(states[i].word[w], states[j].word[w])
    decreases j - i
  {
    if i < j {
      RunInv(states, steps, i);
      StepWord(states[i], steps[i], w);
      RunWord(states, steps, i + 1, j, w);
    }
  }

  /** What the source asserts before or after the step. */
  ghost predicate AssertsHold(s: State, step: Step)
    requires Enabled(s, step)
  {
    match step
    case Writer(w, a) => w in s.pc ==> w in s.word && WaitAsserts(a, MoveOf(s, w))
    case Lead(w, a) =>
      && (a.BeginGroup? ==> w in s.word && s.word[w].Leader?)     // where AddLog goes on as a leader
      && (a.BeginGroup? || a.FreeLog? ==> s.log[w] in s.busy && s.log[w] < s.logs)
      && (a.GatherOne? || a.FinishNext? ==> s.pc[w].c != Some(w))
    case Set(w) => SetAsserts(s.setting[w], Goal(s, w), MoveOf(s, w))
    case Serve(_) => true
  }

  predicate WaitAsserts(a: WriterAct, m: Move) {
    match a
    case LoadNewest => m.x.Init?                                  // on entry of AddToLink
    case LoadAgain => !m.x.Locked?
    case LockWord => m.x.Init? || m.x.Leader? || m.x.Completed?   // a failed exchange has seen a goal
    case AcquireMutex => m.made
    case TestWord => m.made && !m.x.Init?                         // what ends the wait is a goal
    case _ => true
  }

  predicate SetAsserts(f: Phase, goal: Word, m: Move) {
    match f
    case ToLoad => !m.x.Completed?
    case ToCas => m.x.Init? || m.x.Locked?                        // a failed exchange has seen LOCKED_WAITING
    case ToLock => m.x.Locked? && m.made
    case ToStore => m.x != goal && m.made && m.o == Some(Setter)
    case ToNotify => m.made && m.o == Some(Setter)
    case ToUnlock => m.o == Some(Setter)
  }

  lemma SetAssertsHold(f: Phase, goal: Word, m: Move)
    requires Shake(m.p, m.x, Some(f), m.made, m.o) && (goal.Leader? || goal.Completed?) && Marking(m.x, Some(f), goal)
    ensures SetAsserts(f, goal, m)
  {
  }

  lemma WaitAssertsHold(a: WriterAct, m: Move, f: Option<Phase>)
    requires Waits(a) && MayMove(a, m) && Shake(m.p, m.x, f, m.made, m.o)
    ensures WaitAsserts(a, m)
  {
  }

  lemma WriterAssertsHold(s: State, w: Id, a: WriterAct)
    requires Inv(s) && WriterEnabled(s, w, a)
    ensures AssertsHold(s, Writer(w, a))
  {
    if w in s.pc {
      assert WriterOk(s, w);
      if Waits(a) {
        WaitAssertsHold(a, MoveOf(s, w), PhaseOf(s.setting, w));
      }
    }
  }

  lemma LeadAssertsHold(s: State, w: Id, a: LeadAct)
    requires Inv(s) && BusyInRange(s) && LeadEnabled(s, w, a)
    ensures AssertsHold(s, Lead(w, a))
  {
    LeadFacts(s, w);
    WokenWord(s, w);
    if a.GatherOne? || a.FinishNext? {
      NotLast(s.groups[w], s.place, w, s.pc[w].k);
    }
  }

  lemma WokenWord(s: State, w: Id)
    requires Inv(s) && w in s.pc
    ensures w in s.word && (s.pc[w] == Woke(Leader) ==> s.word[w].Leader?)
  {
    assert WriterOk(s, w);
  }

  /** Before the end of its group stands somebody else than the leader. */
  lemma NotLast(g: seq<Id>, place: map<Id, Place>, w: Id, k: int)
    requires 0 <= k < |g| - 1 && w in place && place[w] == Grouped(w, |g| - 1)
    requires g[k] in place && place[g[k]] == Grouped(w, k)
    ensures g[k] != w
  {
  }

  /** Every state assertion of AddLog, AddToLink, AwaitState, SetState, MakeGroup and FinishGroup holds, in every run. */
  lemma AssertionsHold(states: seq<State>, steps: seq<Step>, i: nat)
    requires Run(states, steps) && i < |steps|
    ensures AssertsHold(states[i], steps[i])
  {
    RunInv(states, steps, i);
    var s := states[i];
    match steps[i]
    case Writer(w, a) => WriterAssertsHold(s, w, a);
    case Lead(w, a) => LeadAssertsHold(s, w, a);
    case Set(w) =>
      assert WriterOk(s, w);
      SetterIs(s, w);
      SetAssertsHold(s.setting[w], Goal(s, w), MoveOf(s, w));
    case Serve(_) =>
  }

  /** A writer that waits: pushed, and not yet out of AwaitState. */
  predicate Waiting(p: Pc) {
    p.Spin? || p.Made? || p.TryLock? || p.Acquire? || p.Holding? || p.Sleeping?
  }

  /** The step the waiting thread takes when its word is a goal. */
  function NextWait(p: Pc): WriterAct
    requires Waiting(p) && !p.Sleeping?
  {
    match p
    case Spin => SpinSee
    case Made => LoadAgain
    case TryLock => LockWord
    case Acquire => AcquireMutex
    case Holding => TestWord
  }

  lemma ToldCanMove(p: Pc, x: Word, f: Option<Phase>, made: bool, o: Option<Owner>)
    requires Waiting(p) && Shake(p, x, f, made, o) && (x.Leader? || x.Completed?)
    ensures f == None ==> !p.Sleeping? && o == (if p.Holding? then Some(Self) else None)
    ensures p.Sleeping? ==> f == Some(ToNotify)
    ensures f.Some? ==> f != Some(ToLock)
  {
  }

  /**
   No wake-up is lost: a waiting writer that has been told is asleep only while the notification is
   still to come; the thread telling it can go on, and once that is done the writer can.
   */
  lemma NoLostWakeUp(states: seq<State>, steps: seq<Step>, i: nat, w: Id)
    requires Run(states, steps) && i < |states|
    requires var s := states[i]; w in s.pc && w in s.word && Waiting(s.pc[w]) && (s.word[w].Leader? || s.word[w].Completed?)
    ensures var s := states[i];
      && (s.pc[w].Sleeping? ==> w in s.setting && s.setting[w].ToNotify?)
      && (w in s.setting ==> Enabled(s, Set(w)))
      && (w !in s.setting ==> Enabled(s, Writer(w, NextWait(s.pc[w]))))
  {
    RunInv(states, steps, i);
    var s := states[i];
    assert WriterOk(s, w);
    ToldCanMove(s.pc[w], s.word[w], PhaseOf(s.setting, w), w in s.made, OwnerOf(s.owner, w));
  }

  /** Whoever has not been told anything, or is just being told, has not returned. */
  lemma UntoldHasNotReturned(p: Pc, x: Word, f: Option<Phase>, made: bool, o: Option<Owner>)
    requires Shake(p, x, f, made, o) && (x.Init? || x.Locked? || f.Some?)
    ensures !p.Returned?
  {
  }

  lemma LeadTouches(s: State, w: Id, a: LeadAct, u: Id)
    requires Inv(s) && LeadEnabled(s, w, a) && u in Touches(s, Lead(w, a))
    ensures u in s.pc && !s.pc[u].Returned?
  {
    LeadFacts(s, w);
    WalkFacts(s, w, s.pc[w].k);
    if u != w {
      assert WriterOk(s, u);
      UntoldHasNotReturned(s.pc[u], s.word[u], PhaseOf(s.setting, u), u in s.made, OwnerOf(s.owner, u));
    }
  }

  lemma SetTouches(s: State, w: Id)
    requires Inv(s) && SetEnabled(s, w)
    ensures w in s.pc && !s.pc[w].Returned?
  {
    assert WriterOk(s, w);
    UntoldHasNotReturned(s.pc[w], s.word[w], PhaseOf(s.setting, w), w in s.made, OwnerOf(s.owner, w));
  }

  lemma ServerTouches(s: State)
    requires Inv(s) && s.server.Grabbed? && s.newest.Some?
    ensures var h := s.newest.value; h in s.pc && !s.pc[h].Returned?
  {
    HeadOfPile(s);
    var h := s.newest.value;
    assert WriterOk(s, h);
    UntoldHasNotReturned(s.pc[h], s.word[h], PhaseOf(s.setting, h), h in s.made, OwnerOf(s.owner, h));
  }

  /** No step reads or writes the record of another call that has returned. */
  lemma NeverTouchesReturned(states: seq<State>, steps: seq<Step>, i: nat, u: Id)
    requires Run(states, steps) && i < |steps| && u in Touches(states[i], steps[i])
    ensures u in states[i].pc && !states[i].pc[u].Returned?
  {
    RunInv(states, steps, i);
    var s := states[i];
    match steps[i]
    case Lead(w, a) => LeadTouches(s, w, a, u);
    case Set(w) => SetTouches(s, w);
    case Serve(a) => ServerTouches(s);
  }

  /** The bookkeeping never holds a leader back: whoever was told to lead can begin, and goes on to its end. */
  lemma LeaderNeverStuck(states: seq<State>, steps: seq<Step>, i: nat, w: Id)
    requires Run(states, steps) && i < |states|
    requires var p := states[i].pc; w in p && (p[w] == Woke(Leader) || (!Early(p[w]) && !p[w].Returned? && !p[w].FinishSet?))
    ensures exists a :: Enabled(states[i], Lead(w, a))
  {
    RunInv(states, steps, i);
    var s := states[i];
    assert WriterOk(s, w);
    LeaderWord(s, w);
    LeadFacts(s, w);
    var p := s.pc[w];
    if (p.Gather? || p.Append? || p.Finish?) && p.c.Some? {
      WalkFacts(s, w, p.k);
    }
    assert LeadEnabled(s, w, NextLead(p));
    assert Enabled(s, Lead(w, NextLead(p)));
  }

  function NextLead(p: Pc): LeadAct {
    match p
    case Gather(c, _) => if c.Some? then GatherOne else BeginWrite
    case Append(c, _) => if c.Some? then AppendOne else EndWrite
    case Syncing => Sync
    case Freeing => FreeLog
    case Finish(c, _) => if c.Some? then FinishNext else ReturnLeader
    case _ => BeginGroup
  }

  /** A leader's word means it leads a group. */
  lemma LeaderWord(s: State, w: Id)
    requires Inv(s) && w in s.pc && WriterOk(s, w) && (s.pc[w] == Woke(Leader) || (!Early(s.pc[w]) && !s.pc[w].Returned?))
    ensures w in s.groups
  {
  }
}
