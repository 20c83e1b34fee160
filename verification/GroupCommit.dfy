/**
 Group commit of the logging server.

 Every call of AddLog puts a writer record, living in the caller's stack frame, on a lock-free
 stack and waits. A server thread claims a free log file, takes the whole stack at once and makes
 its newest writer the leader of that group. The leader appends the data of all members to the log,
 syncs it, frees the log and completes the members one by one. Waiting and waking use one state
 word per writer and, on the slow path, a mutex and a condition variable inside the record.

 Each step is one atomic action of one thread; any number of writers run at once. The bookkeeping
 fields at the end of the state are read by no action, but for `groups` and `place` as noted there.
 */
module GroupCommit {
  import opened Options

  type Id = nat      // one call of AddLog
  type LogNo = nat

  /** The state word of a writer. */
  datatype Word = Init | Leader | Completed | Locked

  /** How far SetState on a writer has come. */
  datatype Phase = ToLoad | ToCas | ToLock | ToStore | ToNotify | ToUnlock

  /** Who has a writer's mutex: the writer or the thread that sets its state. */
  datatype Owner = Self | Setter

  /**
   Where a writer's thread is: pushing itself, waiting, or leading. A leader walks its group with a
   pointer `c`; `k` is its index in the group and is read by no action.
   */
  datatype Pc =
    | Load
    | Cas(expected: Option<Id>)
    | Spin
    | Made
    | TryLock
    | Acquire
    | Holding
    | Sleeping
    | Woke(word: Word)
    | Gather(c: Option<Id>, k: int)
    | Append(c: Option<Id>, k: int)
    | Syncing
    | Freeing
    | Finish(c: Option<Id>, k: int)
    | FinishSet(target: Id, next: Option<Id>, k: int)
    | Returned

  datatype Server = Idle | Probing | Grabbed(l: LogNo) | Releasing(l: LogNo) | Electing(h: Id)

  /** Data of a writer in a log. */
  datatype Entry = Entry(log: LogNo, id: Id)

  /** Where a pushed writer is: on the stack, or in a group; both are listed oldest first. */
  datatype Place = Piled(i: nat) | Grouped(leader: Id, j: nat)

  datatype State = State(
    logs: nat,
    newest: Option<Id>,            // newest_writer_
    busy: set<LogNo>,              // log_free_[i] is true
    server: Server,
    pc: map<Id, Pc>,
    word: map<Id, Word>,           // state
    older: map<Id, Option<Id>>,    // link_older
    log: map<Id, LogNo>,           // log_num
    made: set<Id>,                 // made_waitable
    owner: map<Id, Owner>,
    setting: map<Id, Phase>,
    groupOf: map<Id, Id>,          // write_group
    appended: seq<Entry>,
    synced: set<Id>,
    // bookkeeping
    pile: seq<Id>,
    groups: map<Id, seq<Id>>,      // also says who has been elected
    place: map<Id, Place>)         // also says to which leader a call of SetState returns

  ghost predicate InitState(s: State) {
    && s.newest == None && s.busy == {} && s.server == Idle && s.pc == map[] && s.word == map[] && s.older == map[]
    && s.made == {} && s.owner == map[] && s.setting == map[] && s.groupOf == map[] && s.appended == []
    && s.synced == {} && s.pile == [] && s.groups == map[] && s.place == map[] && s.log == map[]
  }

  /** What a writer does to push itself and to wait. */
  datatype WriterAct =
    | Arrive | LoadNewest | CasPush | CasFail
    | SpinSee | MakeMutex | LoadAgain | LockWord | AcquireMutex | TestWord | Wake | ReturnCompleted

  /** What a leader does for its group. */
  datatype LeadAct =
    | BeginGroup | GatherOne | BeginWrite | AppendOne | EndWrite | Sync | FreeLog | FinishNext | ReturnLeader

  datatype ServerAct = Probe | Grab(l: LogNo) | NoLog | Exchange | Release

  /** `Set(w)` is the next action of whoever is running SetState on `w`. */
  datatype Step = Writer(w: Id, wait: WriterAct) | Lead(w: Id, lead: LeadAct) | Set(w: Id) | Serve(serve: ServerAct)

  /** The pointer to the element at an index, null outside. */
  function Ptr(g: seq<Id>, k: int): Option<Id> {
    if 0 <= k < |g| then Some(g[k]) else None
  }

  ghost predicate At(s: State, w: Id, p: Pc) {
    w in s.pc && s.pc[w] == p
  }

  /** The new state word SetState is called with: the server elects, leaders complete. */
  function Goal(s: State, w: Id): Word {
    if s.server == Electing(w) then Leader else Completed
  }

  ghost predicate Enabled(s: State, step: Step) {
    match step
    case Writer(w, a) => WriterEnabled(s, w, a)
    case Lead(w, a) => LeadEnabled(s, w, a)
    case Set(w) => SetEnabled(s, w)
    case Serve(a) => ServerEnabled(s, a)
  }

  ghost predicate WriterEnabled(s: State, w: Id, a: WriterAct) {
    match a
    case Arrive => w !in s.pc
    case LoadNewest => At(s, w, Load)
    case CasPush => w in s.pc && s.pc[w].Cas? && s.newest == s.pc[w].expected
    case CasFail => w in s.pc && s.pc[w].Cas?
    case SpinSee => At(s, w, Spin) && w in s.word && (s.word[w].Leader? || s.word[w].Completed?)
    case MakeMutex => At(s, w, Spin)
    case LoadAgain => At(s, w, Made) && w in s.word
    case LockWord => At(s, w, TryLock) && w in s.word
    case AcquireMutex => At(s, w, Acquire) && w !in s.owner
    case TestWord => At(s, w, Holding) && w in s.word
    case Wake => At(s, w, Sleeping)
    case ReturnCompleted => At(s, w, Woke(Completed))
  }

  ghost predicate LeadEnabled(s: State, w: Id, a: LeadAct) {
    && w in s.pc && w in s.older && w in s.log && w in s.groups
    && match a
       case BeginGroup => s.pc[w] == Woke(Leader)
       case GatherOne => s.pc[w].Gather? && s.pc[w].c.Some? && s.pc[w].c.value in s.older
       case BeginWrite => s.pc[w].Gather? && s.pc[w].c.None?
       case AppendOne => s.pc[w].Append? && s.pc[w].c.Some? && s.pc[w].c.value in s.older
       case EndWrite => s.pc[w].Append? && s.pc[w].c.None?
       case Sync => s.pc[w] == Syncing
       case FreeLog => s.pc[w] == Freeing
       case FinishNext => s.pc[w].Finish? && s.pc[w].c.Some? && s.pc[w].c.value in s.older
       case ReturnLeader => s.pc[w].Finish? && s.pc[w].c.None?
  }

  ghost predicate SetEnabled(s: State, w: Id) {
    w in s.setting && w in s.word && w in s.pc && (s.setting[w].ToLock? ==> w !in s.owner)
  }

  ghost predicate ServerEnabled(s: State, a: ServerAct) {
    match a
    case Probe => s.server == Idle && s.newest.Some?
    case Grab(l) => s.server == Probing && l < s.logs && l !in s.busy
    case NoLog => s.server == Probing
    case Exchange => s.server.Grabbed?
    case Release => s.server.Releasing?
  }

  ghost function Do(s: State, step: Step): State
    requires Enabled(s, step)
  {
    match step
    case Writer(w, a) => DoWriter(s, w, a)
    case Lead(w, a) => DoLead(s, w, a)
    case Set(w) => DoSet(s, w)
    case Serve(a) => DoServer(s, a)
  }

  /** A waiting writer moves: its position, its state word, whether it has a mutex and who holds that. */
  ghost function Moved(s: State, w: Id, p: Pc, x: Word, made: bool, o: Option<Owner>): State {
    s.(pc := s.pc[w := p], word := s.word[w := x], made := if made then s.made + {w} else s.made - {w},
       owner := if o.Some? then s.owner[w := o.value] else s.owner - {w})
  }

  ghost function DoWriter(s: State, w: Id, a: WriterAct): State
    requires WriterEnabled(s, w, a)
  {
    match a
    case Arrive => s.(pc := s.pc[w := Load], word := s.word[w := Init], older := s.older[w := None])
    case CasPush => DoPush(s, w)
    case _ => DoWait(s, w, a)
  }

  function OwnerOf(owner: map<Id, Owner>, w: Id): Option<Owner> {
    if w in owner then Some(owner[w]) else None
  }

  datatype Move = Move(p: Pc, x: Word, made: bool, o: Option<Owner>)

  ghost function DoWait(s: State, w: Id, a: WriterAct): State
    requires WriterEnabled(s, w, a) && Waits(a)
  {
    var m := WaitMove(a, s.newest, Move(s.pc[w], if w in s.word then s.word[w] else Init, w in s.made, OwnerOf(s.owner, w)));
    Moved(s, w, m.p, m.x, m.made, m.o)
  }

  predicate Waits(a: WriterAct) {
    !a.Arrive? && !a.CasPush?
  }

  /** The steps of AwaitState, and the load of the stack's head before it. */
  function WaitMove(a: WriterAct, newest: Option<Id>, m: Move): Move
    requires Waits(a)
  {
    match a
    case LoadNewest => m.(p := Cas(newest))
    case CasFail => m.(p := Cas(newest))
    case SpinSee => m.(p := Woke(m.x))
    case MakeMutex => m.(p := Made, made := true)
    case LoadAgain => m.(p := if m.x.Init? then TryLock else Woke(m.x))
    case LockWord => if m.x.Init? then m.(p := Acquire, x := Locked) else m.(p := Woke(m.x))
    case AcquireMutex => m.(p := Holding, o := Some(Self))
    case TestWord => m.(p := if m.x.Locked? then Sleeping else Woke(m.x), o := None)
    case Wake => m.(p := Acquire)
    case ReturnCompleted => m.(p := Returned)
  }

  ghost function DoLead(s: State, w: Id, a: LeadAct): State
    requires LeadEnabled(s, w, a)
  {
    var n := |s.groups[w]|;
    match a
    case BeginGroup => s.(pc := s.pc[w := Gather(s.older[w], n - 2)], groupOf := s.groupOf[w := w])
    case GatherOne =>
      var c := s.pc[w].c.value;
      s.(pc := s.pc[w := Gather(s.older[c], s.pc[w].k - 1)], groupOf := s.groupOf[c := w])
    case BeginWrite => s.(pc := s.pc[w := Append(Some(w), n - 1)])
    case AppendOne =>
      var c := s.pc[w].c.value;
      s.(pc := s.pc[w := Append(s.older[c], s.pc[w].k - 1)], appended := s.appended + [Entry(s.log[w], c)])
    case EndWrite => s.(pc := s.pc[w := Syncing])
    case Sync => s.(pc := s.pc[w := Freeing], synced := s.synced + IdsIn(s.appended, s.log[w]))
    case FreeLog => s.(pc := s.pc[w := Finish(s.older[w], n - 2)], busy := s.busy - {s.log[w]})
    case FinishNext =>
      var c := s.pc[w].c.value;
      s.(pc := s.pc[w := FinishSet(c, s.older[c], s.pc[w].k)], setting := s.setting[c := ToLoad])
    case ReturnLeader => s.(pc := s.pc[w := Returned])
  }

  /** The next action of SetState, and what it does next if it has not returned. */
  function SetMove(f: Phase, goal: Word, m: Move): (Move, Option<Phase>) {
    match f
    case ToLoad => (m, Some(if m.x.Locked? then ToLock else ToCas))
    case ToCas => if m.x.Init? then (m.(x := goal), None) else (m, Some(ToLock))
    case ToLock => (m.(o := Some(Setter)), Some(ToStore))
    case ToStore => (m.(x := goal), Some(ToNotify))
    case ToNotify => (m.(p := if m.p.Sleeping? then Acquire else m.p), Some(ToUnlock))
    case ToUnlock => (m.(o := None), None)
  }

  ghost function MoveOf(s: State, w: Id): Move
    requires w in s.pc && w in s.word
  {
    Move(s.pc[w], s.word[w], w in s.made, OwnerOf(s.owner, w))
  }

  ghost function DoSet(s: State, w: Id): State
    requires SetEnabled(s, w)
  {
    var (m, f) := SetMove(s.setting[w], Goal(s, w), MoveOf(s, w));
    var t := Moved(s, w, m.p, m.x, m.made, m.o);
    if f.Some? then t.(setting := s.setting[w := f.value]) else Resume(t, w)
  }

  /** SetState on `w` returns: the server goes back to its loop, a leader to its next member. */
  ghost function Resume(s: State, w: Id): State {
    var t := s.(setting := s.setting - {w});
    if s.server == Electing(w) then t.(server := Idle)
    else if w in s.place && s.place[w].Grouped? && s.place[w].leader in s.pc && s.pc[s.place[w].leader].FinishSet? then
      var leader := s.place[w].leader;
      t.(pc := s.pc[leader := Finish(s.pc[leader].next, s.pc[leader].k - 1)])
    else t
  }

  ghost function DoServer(s: State, a: ServerAct): State
    requires ServerEnabled(s, a)
  {
    match a
    case Probe => s.(server := Probing)
    case Grab(l) => s.(server := Grabbed(l), busy := s.busy + {l})
    case NoLog => s.(server := Idle)
    case Exchange => DoExchange(s)
    case Release => s.(server := Idle, busy := s.busy - {s.server.l})
  }

  ghost function DoPush(s: State, w: Id): State
    requires w in s.pc && s.pc[w].Cas?
  {
    s.(pc := s.pc[w := Spin], newest := Some(w), older := s.older[w := s.pc[w].expected],
       pile := s.pile + [w], place := s.place[w := Piled(|s.pile|)])
  }

  ghost function DoExchange(s: State): State
    requires s.server.Grabbed?
  {
    if s.newest.None? then s.(server := Releasing(s.server.l))
    else
      var h := s.newest.value;
      s.(newest := None, server := Electing(h), log := s.log[h := s.server.l],
         setting := s.setting[h := ToLoad],
         pile := [], groups := s.groups[h := s.pile], place := Regroup(s.place, h))
  }

  ghost function Regroup(place: map<Id, Place>, h: Id): map<Id, Place> {
    map w | w in place :: if place[w].Piled? then Grouped(h, place[w].i) else place[w]
  }

  ghost function IdsIn(appended: seq<Entry>, l: LogNo): set<Id> {
    set e | e in appended && e.log == l :: e.id
  }

  ghost function Ids(appended: seq<Entry>): set<Id> {
    set e | e in appended :: e.id
  }

  /** The records of other threads that a step reads or writes. */
  ghost function Touches(s: State, step: Step): set<Id>
    requires Enabled(s, step)
  {
    match step
    case Writer(_, _) => {}
    case Lead(w, a) => if a.GatherOne? || a.AppendOne? || a.FinishNext? then {s.pc[w].c.value} else {}
    case Set(w) => {w}
    case Serve(a) => if a.Exchange? && s.newest.Some? then {s.newest.value} else {}
  }
}
