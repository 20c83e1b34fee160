/**
 The ring of pages between the threads that read the device and those that parse records.

 Any number of writers and readers take tickets by fetch-and-add. A writer waits until its slot is
 free, fills it and publishes in ticket order; a reader waits until its ticket is published, takes
 the page and retires in ticket order. Each action below is one atomic load, store or
 read-modify-write. A ticket stands for the thread that holds it.
 */
module RecoveryRing {

  type Page = nat

  datatype Writer =
    | Waiting
    | Admitted             // saw its slot free
    | Wrote(page: Page)
    | Next(page: Page)     // saw its predecessor published
    | Published(page: Page)
    | Dropped              // stopped, or the ticket was never used

  datatype Reader =
    | Queued
    | Readable             // saw its ticket published
    | Fetched(page: Page)
    | Turn(page: Page)     // saw its predecessor retired
    | Returned(page: Page)
    | GaveUp

  datatype Ring = Ring(
    size: nat,
    lastRead: int,
    lastWrote: int,
    stop: bool,
    slots: map<nat, Page>,
    writers: seq<Writer>,  // by ticket; writableSeq_ is the length
    readers: seq<Reader>)  // by ticket; lastDispatch_ is the length less one

  ghost predicate Init(r: Ring) {
    r.size > 0 && r.lastRead == r.lastWrote == -1 && !r.stop && r.slots == map[] && r.writers == [] && r.readers == []
  }

  datatype Step =
    | TakeWrite
    | AdmitWrite(t: nat)
    | DropWrite(t: nat)
    | Write(t: nat, page: Page)
    | CheckWrite(t: nat)
    | Publish(t: nat)
    | TakeRead
    | AdmitRead(t: nat)
    | GiveUpRead(t: nat)
    | Fetch(t: nat)
    | CheckRead(t: nat)
    | Retire(t: nat)
    | Stop

  ghost predicate Enabled(r: Ring, step: Step) {
    match step
    case TakeWrite => true
    case AdmitWrite(t) => t < |r.writers| && r.writers[t].Waiting? && t - r.lastRead <= r.size
    case DropWrite(t) => t < |r.writers| && (r.writers[t].Admitted? || (r.writers[t].Waiting? && r.stop))
    case Write(t, _) => t < |r.writers| && r.writers[t].Admitted?
    case CheckWrite(t) => t < |r.writers| && r.writers[t].Wrote? && t - 1 == r.lastWrote
    case Publish(t) => t < |r.writers| && r.writers[t].Next?
    case TakeRead => true
    case AdmitRead(t) => t < |r.readers| && r.readers[t].Queued? && t <= r.lastWrote
    case GiveUpRead(t) => t < |r.readers| && r.readers[t].Queued? && r.stop
    case Fetch(t) => t < |r.readers| && r.readers[t].Readable? && Slot(r, t) in r.slots
    case CheckRead(t) => t < |r.readers| && r.readers[t].Fetched? && t - 1 == r.lastRead
    case Retire(t) => t < |r.readers| && r.readers[t].Turn?
    case Stop => true
  }

  function Slot(r: Ring, t: nat): nat {
    if r.size == 0 then 0 else t % r.size
  }

  ghost function Do(r: Ring, step: Step): Ring
    requires Enabled(r, step)
  {
    match step
    case TakeWrite => r.(writers := r.writers + [Waiting])
    case AdmitWrite(t) => r.(writers := r.writers[t := Admitted])
    case DropWrite(t) => r.(writers := r.writers[t := Dropped])
    case Write(t, page) => r.(slots := r.slots[Slot(r, t) := page], writers := r.writers[t := Wrote(page)])
    case CheckWrite(t) => r.(writers := r.writers[t := Next(r.writers[t].page)])
    case Publish(t) => r.(lastWrote := t, writers := r.writers[t := Published(r.writers[t].page)])
    case TakeRead => r.(readers := r.readers + [Queued])
    case AdmitRead(t) => r.(readers := r.readers[t := Readable])
    case GiveUpRead(t) => r.(readers := r.readers[t := GaveUp])
    case Fetch(t) => r.(readers := r.readers[t := Fetched(r.slots[Slot(r, t)])])
    case CheckRead(t) => r.(readers := r.readers[t := Turn(r.readers[t].page)])
    case Retire(t) => r.(lastRead := t, readers := r.readers[t := Returned(r.readers[t].page)])
    case Stop => r.(stop := true)
  }

  // ---------------------------------------------------------------- invariant

  predicate HasPage(w: Writer) {
    w.Wrote? || w.Next? || w.Published?
  }

  ghost predicate Ordered(r: Ring) {
    -1 <= r.lastRead <= r.lastWrote < |r.writers| && r.lastRead < |r.readers| && r.size > 0
  }

  /** Exactly the tickets up to `lastWrote` are published, and nobody passes a full lap. */
  ghost predicate WriterOk(r: Ring, t: nat)
    requires t < |r.writers|
  {
    var w := r.writers[t];
    && (w.Published? <==> t <= r.lastWrote)
    && (w.Next? ==> t == r.lastWrote + 1)
    && (w.Admitted? || HasPage(w) ==> t - r.lastRead <= r.size)
    && (HasPage(w) && t > r.lastRead ==> Slot(r, t) in r.slots && r.slots[Slot(r, t)] == w.page)
  }

  /** Exactly the tickets up to `lastRead` are retired, and a page in hand is the one written for it. */
  ghost predicate ReaderOk(r: Ring, t: nat)
    requires t < |r.readers|
  {
    var d := r.readers[t];
    && (d.Returned? <==> t <= r.lastRead)
    && (d.Turn? ==> t == r.lastRead + 1)
    && (d.Readable? || d.Fetched? || d.Turn? || d.Returned? ==> t <= r.lastWrote)
    && (d.Fetched? || d.Turn? || d.Returned? ==> t < |r.writers| && r.writers[t] == Published(d.page))
  }

  ghost predicate Inv(r: Ring) {
    && Ordered(r)
    && (forall t :: 0 <= t < |r.writers| ==> WriterOk(r, t))
    && (forall t :: 0 <= t < |r.readers| ==> ReaderOk(r, t))
  }

  lemma Times(n: nat, k: int)
    ensures k <= 0 ==> n * k <= 0
    ensures k >= 1 ==> n * k >= n
  {
  }

  lemma SameSlot(n: nat, a: nat, b: nat)
    requires n > 0 && a < b && a % n == b % n
    ensures a + n <= b
  {
    var qa, qb := a / n, b / n;
    assert a == n * qa + a % n && b == n * qb + b % n;
    Times(n, qb - qa);
    assert b - a == n * (qb - qa);
  }

  /** Filling a slot overwrites only a page that has been read. */
  lemma WriteFindsSlotRead(r: Ring, t: nat, page: Page, u: nat)
    requires Inv(r) && Enabled(r, Write(t, page))
    requires u < |r.writers| && u != t && HasPage(r.writers[u]) && Slot(r, u) == Slot(r, t)
    ensures u <= r.lastRead && u < |r.readers| && r.readers[u] == Returned(r.writers[u].page)
  {
    assert WriterOk(r, t) && WriterOk(r, u);
    if u < t {
      SameSlot(r.size, u, t);
    } else {
      SameSlot(r.size, t, u);
    }
    assert ReaderOk(r, u);
  }

  lemma WriterStep(r: Ring, step: Step, t: nat)
    requires Inv(r) && Enabled(r, step) && t < |Do(r, step).writers|
    ensures WriterOk(Do(r, step), t)
  {
    var r' := Do(r, step);
    if t < |r.writers| {
      assert WriterOk(r, t);
      match step
      case Write(u, page) =>
        if t != u && HasPage(r.writers[t]) && Slot(r, t) == Slot(r, u) {
          WriteFindsSlotRead(r, u, page, t);
        }
      case Publish(u) => assert WriterOk(r, u);
      case Retire(u) => assert ReaderOk(r, u);
      case _ =>
    }
  }

  lemma ReaderStep(r: Ring, step: Step, t: nat)
    requires Inv(r) && Enabled(r, step) && t < |Do(r, step).readers|
    ensures ReaderOk(Do(r, step), t)
  {
    if t < |r.readers| {
      assert ReaderOk(r, t);
      match step
      case Publish(u) => assert WriterOk(r, u);
      case Retire(u) => assert ReaderOk(r, u);
      case Fetch(u) =>
        assert ReaderOk(r, u);
        assert WriterOk(r, u);
      case _ =>
    }
  }

  lemma StepInv(r: Ring, step: Step)
    requires Inv(r) && Enabled(r, step)
    ensures Inv(Do(r, step))
  {
    var r' := Do(r, step);
    assert Ordered(r') by {
      match step
      case Publish(u) => assert WriterOk(r, u);
      case Retire(u) => assert ReaderOk(r, u);
      case _ =>
    }
    forall t | 0 <= t < |r'.writers| ensures WriterOk(r', t) {
      WriterStep(r, step, t);
    }
    forall t | 0 <= t < |r'.readers| ensures ReaderOk(r', t) {
      ReaderStep(r, step, t);
    }
  }

  // ---------------------------------------------------------------- runs

  ghost predicate Run(rings: seq<Ring>, steps: seq<Step>) {
    && |rings| == |steps| + 1
    && Init(rings[0])
    && forall i :: 0 <= i < |steps| ==> Enabled(rings[i], steps[i]) && rings[i + 1] == Do(rings[i], steps[i])
  }

  lemma {:induction false} RunInv(rings: seq<Ring>, steps: seq<Step>, i: nat)
    requires Run(rings, steps) && i < |rings|
    ensures Inv(rings[i])
  {
    if i > 0 {
      RunInv(rings, steps, i - 1);
      StepInv(rings[i - 1], steps[i - 1]);
    }
  }

  /**
   In every reachable state of every interleaving: the sequence numbers are ordered, every read
   that has returned returned the very page written for its ticket, and exactly the tickets up to
   the counters are published and retired, so both happen in ticket order.
   */
  lemma RingSafety(rings: seq<Ring>, steps: seq<Step>, i: nat)
    requires Run(rings, steps) && i < |rings|
    ensures var r := rings[i];
      && -1 <= r.lastRead <= r.lastWrote < |r.writers|
      && (forall t :: 0 <= t < |r.readers| && r.readers[t].Returned? ==>
            t < |r.writers| && r.writers[t] == Published(r.readers[t].page))
      && (forall t :: 0 <= t < |r.writers| ==> (r.writers[t].Published? <==> t <= r.lastWrote))
      && (forall t :: 0 <= t < |r.readers| ==> (r.readers[t].Returned? <==> t <= r.lastRead))
  {
    RunInv(rings, steps, i);
    var r := rings[i];
    forall t | 0 <= t < |r.readers|
      ensures r.readers[t].Returned? ==> t < |r.writers| && r.writers[t] == Published(r.readers[t].page)
      ensures r.readers[t].Returned? <==> t <= r.lastRead
    {
      assert ReaderOk(r, t);
    }
    forall t | 0 <= t < |r.writers| ensures r.writers[t].Published? <==> t <= r.lastWrote {
      assert WriterOk(r, t);
    }
  }

  /** No slot is overwritten in any run before the page it held has been read. */
  lemma NoSlotLost(rings: seq<Ring>, steps: seq<Step>, i: nat, u: nat)
    requires Run(rings, steps) && i < |steps| && steps[i].Write?
    requires u < |rings[i].writers| && u != steps[i].t && HasPage(rings[i].writers[u])
    requires Slot(rings[i], u) == Slot(rings[i], steps[i].t)
    ensures u < |rings[i].readers| && rings[i].readers[u] == Returned(rings[i].writers[u].page)
  {
    RunInv(rings, steps, i);
    WriteFindsSlotRead(rings[i], steps[i].t, steps[i].page, u);
  }

  /** A reader that may fetch always finds a page in its slot. */
  lemma FetchNeverBlocks(rings: seq<Ring>, steps: seq<Step>, i: nat, t: nat)
    requires Run(rings, steps) && i < |rings| && t < |rings[i].readers| && rings[i].readers[t].Readable?
    ensures Enabled(rings[i], Fetch(t))
  {
    RunInv(rings, steps, i);
    assert ReaderOk(rings[i], t);
    assert WriterOk(rings[i], t);
  }

  // ---------------------------------------------------------------- the mask

  /** Bitwise and. */
  function And(a: nat, b: nat): nat {
    if a == 0 || b == 0 then 0 else 2 * And(a / 2, b / 2) + (a % 2) * (b % 2)
  }

  function PowerOfTwo(k: nat): (p: nat)
    ensures p > 0
  {
    if k == 0 then 1 else 2 * PowerOfTwo(k - 1)
  }

  lemma RemainderOf(t: nat, m: nat, q: nat, r: nat)
    requires t == q * m + r && r < m
    ensures t % m == r
  {
    var d := t / m - q;
    assert d * m == r - t % m;
    assert d > 0 ==> d * m >= m;
    assert d < 0 ==> d * m + m <= 0;
  }

  lemma HalfRemainder(t: nat, p: nat)
    requires p > 0
    ensures t % (2 * p) == 2 * (t / 2 % p) + t % 2
  {
    var q, r := t / 2 / p, t / 2 % p;
    assert t == 2 * (q * p + r) + t % 2;
    assert t == q * (2 * p) + (2 * r + t % 2);
    RemainderOf(t, 2 * p, q, 2 * r + t % 2);
  }

  /** Masking with one less than a power of two is taking the remainder. */
  lemma {:induction false} MaskIsRemainder(t: nat, k: nat)
    ensures And(t, PowerOfTwo(k) - 1) == t % PowerOfTwo(k)
  {
    if k > 0 {
      var p := PowerOfTwo(k - 1);
      MaskIsRemainder(t / 2, k - 1);
      HalfRemainder(t, p);
      assert (2 * p - 1) / 2 == p - 1 && (2 * p - 1) % 2 == 1;
    }
  }

  /** The slot of a ring whose size is a power of two is the sequence number masked, as the source computes it. */
  lemma SlotIsMasked(r: Ring, t: nat, k: nat)
    requires r.size == PowerOfTwo(k)
    ensures Slot(r, t) == And(t, r.size - 1)
  {
    MaskIsRemainder(t, k);
  }
}
