/**
 The list of live log files and its image on page 0 of the device.
 */
module WalMetadata {
  import opened Fixed

  const PAGE_SIZE: nat := 4096
  const LOGGING_START_LPN: nat := 1
  const MAX_LPN_FOR_LOGGING: nat := 0x20_0000

  /** A log file: its tag, its first and last page (last is 0 while it is written) and its size. */
  datatype Log = Log(seqno: uint32, start: uint64, end: uint64, size: uint64)

  /** What page 0 keeps of a log file. */
  datatype Extent = Extent(seqno: uint32, start: uint64, end: uint64)

  /** How an operation ends: normally, in a failed assertion, or by overrunning the metadata page. */
  datatype Outcome = Done | AssertFailed | Overrun

  function ExtentOf(log: Log): Extent {
    Extent(log.seqno, log.start, log.end)
  }

  function Extents(logs: seq<Log>): (e: seq<Extent>)
    ensures |e| == |logs| && forall i :: 0 <= i < |logs| ==> e[i] == ExtentOf(logs[i])
  {
    seq(|logs|, i requires 0 <= i < |logs| => ExtentOf(logs[i]))
  }

  function Total(logs: seq<Log>): nat {
    if logs == [] then 0 else logs[0].size + Total(logs[1..])
  }

  lemma {:induction false} TotalAppend(a: seq<Log>, b: seq<Log>)
    ensures Total(a + b) == Total(a) + Total(b)
  {
    if a == [] {
      assert a + b == b;
    } else {
      TotalAppend(a[1..], b);
      assert (a + b)[1..] == a[1..] + b;
    }
  }

  lemma TotalLast(logs: seq<Log>, last: Log)
    requires logs != []
    ensures Total(logs[..|logs| - 1] + [last]) == Total(logs) - logs[|logs| - 1].size + last.size
  {
    var front := logs[..|logs| - 1];
    assert logs == front + [logs[|logs| - 1]];
    TotalAppend(front, [last]);
    TotalAppend(front, [logs[|logs| - 1]]);
  }

  /** Each log starts on the page behind its predecessor's last one. */
  ghost predicate Contiguous(logs: seq<Log>) {
    forall i {:trigger Adjoin(logs, i)} :: 0 < i < |logs| ==> Adjoin(logs, i)
  }

  predicate Adjoin(logs: seq<Log>, i: nat)
    requires 0 < i < |logs|
  {
    logs[i - 1].end + 1 == logs[i].start
  }

  ghost predicate Increasing(logs: seq<Log>) {
    forall i, j :: 0 <= i < j < |logs| ==> logs[i].seqno < logs[j].seqno
  }

  /** Extents lie on the device and only the newest log is still open. */
  ghost predicate OnDevice(logs: seq<Log>) {
    forall l <- logs :: LOGGING_START_LPN <= l.start <= MAX_LPN_FOR_LOGGING && l.end < MAX_LPN_FOR_LOGGING
  }

  /** The tag of a numbered log file, in 32 bits. */
  function TagOf(number: uint32, base: uint32): uint32 {
    (number + base) % U32
  }

  /** The size counter wraps at 64 bits. */
  function Wrap(n: int): uint64 {
    n % U64
  }

  lemma WrapShift(a: int, b: int)
    ensures Wrap(Wrap(a) + b) == Wrap(a + b)
  {
  }

  lemma WrapLess(a: int, b: nat)
    ensures Wrap((Wrap(a) as int) - b) == Wrap(a - b)
  {
  }

  lemma WrapInner(a: int, b: int)
    ensures Wrap(a + Wrap(b)) == Wrap(a + b)
  {
  }

  /** The logs after the newest has grown. */
  function Grow(logs: seq<Log>, size: nat): seq<Log>
    requires logs != []
  {
    logs[|logs| - 1 := logs[|logs| - 1].(size := Wrap(logs[|logs| - 1].size + size))]
  }

  lemma GrowTotal(logs: seq<Log>, size: nat)
    requires logs != []
    ensures Wrap(Total(Grow(logs, size))) == Wrap(Total(logs) + size)
  {
    var n := |logs| - 1;
    var last := Grow(logs, size)[n];
    TotalLast(logs, last);
    assert logs[..n] + [last] == Grow(logs, size);
    WrapInner(Total(logs) - logs[n].size, logs[n].size + size);
  }

  lemma GrowKeeps(logs: seq<Log>, size: nat)
    requires logs != [] && Contiguous(logs) && OnDevice(logs)
    ensures Contiguous(Grow(logs, size)) && OnDevice(Grow(logs, size))
  {
    var r := Grow(logs, size);
    forall i | 0 < i < |r| ensures Adjoin(r, i) {
      assert Adjoin(logs, i);
    }
    forall l <- r ensures LOGGING_START_LPN <= l.start <= MAX_LPN_FOR_LOGGING && l.end < MAX_LPN_FOR_LOGGING {
      var i :| 0 <= i < |r| && r[i] == l;
      assert logs[i] in logs;
    }
  }

  /** The logs after the newest has been closed in front of page `offset`. */
  function Close(logs: seq<Log>, offset: nat): seq<Log>
    requires 0 < offset <= U64
  {
    if logs == [] then [] else logs[|logs| - 1 := logs[|logs| - 1].(end := offset - 1)]
  }

  lemma CloseTotal(logs: seq<Log>, offset: nat)
    requires 0 < offset <= U64
    ensures Total(Close(logs, offset)) == Total(logs)
  {
    if logs != [] {
      var n := |logs| - 1;
      var last := Close(logs, offset)[n];
      TotalLast(logs, last);
      assert logs[..n] + [last] == Close(logs, offset);
    }
  }

  /** The logs after a new one has been opened. */
  function Open(logs: seq<Log>, seqno: uint32, offset: nat): seq<Log>
    requires 0 < offset < U64
  {
    Close(logs, offset) + [Log(seqno, offset, 0, 0)]
  }

  lemma OpenTotal(logs: seq<Log>, seqno: uint32, offset: nat)
    requires 0 < offset < U64
    ensures Total(Open(logs, seqno, offset)) == Total(logs)
  {
    CloseTotal(logs, offset);
    TotalAppend(Close(logs, offset), [Log(seqno, offset, 0, 0)]);
  }

  lemma OpenKeeps(logs: seq<Log>, seqno: uint32, offset: nat)
    requires LOGGING_START_LPN <= offset <= MAX_LPN_FOR_LOGGING
    requires Contiguous(logs) && OnDevice(logs)
    ensures Contiguous(Open(logs, seqno, offset)) && OnDevice(Open(logs, seqno, offset))
    ensures Increasing(logs) && (logs != [] ==> logs[|logs| - 1].seqno < seqno) ==> Increasing(Open(logs, seqno, offset))
  {
    var r := Open(logs, seqno, offset);
    forall l <- r ensures LOGGING_START_LPN <= l.start <= MAX_LPN_FOR_LOGGING && l.end < MAX_LPN_FOR_LOGGING {
      var i :| 0 <= i < |r| && r[i] == l;
      assert i < |logs| ==> logs[i] in logs;
    }
    forall i | 0 < i < |r| ensures Adjoin(r, i) {
      assert i < |logs| ==> Adjoin(logs, i);
    }
  }

  lemma SuffixKeeps(logs: seq<Log>, k: nat)
    requires k <= |logs| && Contiguous(logs) && OnDevice(logs)
    ensures Contiguous(logs[k..]) && OnDevice(logs[k..])
    ensures Increasing(logs) ==> Increasing(logs[k..])
  {
    forall i | 0 < i < |logs| - k ensures Adjoin(logs[k..], i) {
      assert Adjoin(logs, k + i);
    }
  }

  // ---------------------------------------------------------------- deleting

  function DropBelow(logs: seq<Log>, bound: uint32): (r: seq<Log>)
    ensures r != [] ==> r[0].seqno >= bound
  {
    if logs == [] || logs[0].seqno >= bound then logs else DropBelow(logs[1..], bound)
  }

  /** What is left is the newest part of the list. */
  lemma {:induction false} DropKeeps(logs: seq<Log>, bound: uint32)
    requires Contiguous(logs) && OnDevice(logs)
    ensures var r := DropBelow(logs, bound);
      && Contiguous(r) && OnDevice(r) && (Increasing(logs) ==> Increasing(r))
      && (r != [] ==> r[|r| - 1] == logs[|logs| - 1])
  {
    var k := DropIsSuffix(logs, bound);
    SuffixKeeps(logs, k);
  }

  lemma {:induction false} DropIsSuffix(logs: seq<Log>, bound: uint32) returns (k: nat)
    ensures k <= |logs| && DropBelow(logs, bound) == logs[k..]
  {
    if logs != [] && logs[0].seqno < bound {
      var j := DropIsSuffix(logs[1..], bound);
      k := j + 1;
    } else {
      k := 0;
    }
  }

  /** The logs at or above the bound. */
  function AtLeast(logs: seq<Log>, bound: uint32): (r: seq<Log>)
    ensures forall l <- r :: l.seqno >= bound
  {
    if logs == [] then []
    else (if logs[0].seqno >= bound then [logs[0]] else []) + AtLeast(logs[1..], bound)
  }

  lemma {:induction false} AtLeastAll(logs: seq<Log>, bound: uint32)
    ensures (AtLeast(logs, bound) == logs) <==> forall l <- logs :: l.seqno >= bound
  {
    if logs != [] {
      AtLeastAll(logs[1..], bound);
      assert logs == [logs[0]] + logs[1..];
      AtLeastShort(logs[1..], bound);
      if AtLeast(logs, bound) == logs {
        assert AtLeast(logs, bound)[1..] == logs[1..];
      }
    }
  }

  lemma {:induction false} AtLeastShort(logs: seq<Log>, bound: uint32)
    ensures |AtLeast(logs, bound)| <= |logs|
  {
    if logs != [] {
      AtLeastShort(logs[1..], bound);
    }
  }

  /** No log below the bound stands behind one at or above it. */
  ghost predicate NoneBehind(logs: seq<Log>, bound: uint32) {
    forall i, j :: 0 <= i < j < |logs| && logs[i].seqno >= bound ==> logs[j].seqno >= bound
  }

  lemma NoneBehindTail(logs: seq<Log>, bound: uint32)
    requires logs != [] && logs[0].seqno < bound
    ensures NoneBehind(logs, bound) <==> NoneBehind(logs[1..], bound)
  {
    var rest := logs[1..];
    if NoneBehind(rest, bound) {
      forall i, j | 0 <= i < j < |logs| && logs[i].seqno >= bound ensures logs[j].seqno >= bound {
        assert rest[i - 1] == logs[i] && rest[j - 1] == logs[j];
      }
    }
  }

  lemma NoneBehindHead(logs: seq<Log>, bound: uint32)
    requires logs != [] && logs[0].seqno >= bound
    ensures NoneBehind(logs, bound) <==> forall l <- logs :: l.seqno >= bound
  {
    if NoneBehind(logs, bound) {
      forall l <- logs ensures l.seqno >= bound {
        var j :| 0 <= j < |logs| && logs[j] == l;
      }
    }
  }

  /**
   Popping from the front keeps exactly the logs at or above the bound if and only if no log below
   it stands behind one at or above it.
   */
  lemma {:induction false} DropKeepsExactly(logs: seq<Log>, bound: uint32)
    ensures DropBelow(logs, bound) == AtLeast(logs, bound) <==> NoneBehind(logs, bound)
  {
    if logs != [] {
      if logs[0].seqno >= bound {
        AtLeastAll(logs, bound);
        NoneBehindHead(logs, bound);
      } else {
        DropKeepsExactly(logs[1..], bound);
        NoneBehindTail(logs, bound);
      }
    }
  }

  /** With tags handed out in increasing order, deleting keeps exactly the logs at or above the minimum. */
  lemma DropOfIncreasing(logs: seq<Log>, bound: uint32)
    requires Increasing(logs) && Contiguous(logs) && OnDevice(logs)
    ensures DropBelow(logs, bound) == AtLeast(logs, bound) && Increasing(DropBelow(logs, bound))
  {
    DropKeepsExactly(logs, bound);
    DropKeeps(logs, bound);
  }

  // ---------------------------------------------------------------- page 0

  function EncodeExtent(e: Extent): (b: seq<byte>)
    ensures |b| == 20
  {
    Encode32(e.seqno) + Encode64(e.start) + Encode64(e.end)
  }

  function EncodeExtents(e: seq<Extent>): (b: seq<byte>)
    ensures |b| == 20 * |e|
  {
    if e == [] then [] else EncodeExtents(e[..|e| - 1]) + EncodeExtent(e[|e| - 1])
  }

  function EncodeMeta(base: uint32, e: seq<Extent>): (b: seq<byte>)
    requires |e| < U32
    ensures |b| == 8 + 20 * |e|
  {
    Encode32(base) + Encode32(|e|) + EncodeExtents(e)
  }

  function DecodeExtent(b: seq<byte>): Extent
    requires |b| == 20
  {
    Extent(Decode32(b[..4]), Decode64(b[4..12]), Decode64(b[12..20]))
  }

  lemma DecodeExtentOfEncode(e: Extent)
    ensures DecodeExtent(EncodeExtent(e)) == e
  {
    var b := EncodeExtent(e);
    assert b[..4] == Encode32(e.seqno) && b[4..12] == Encode64(e.start) && b[12..20] == Encode64(e.end);
    Decode32OfEncode32(e.seqno);
    Decode64OfEncode64(e.start);
    Decode64OfEncode64(e.end);
  }

  /** The i-th extent is where the reader looks for it. */
  lemma {:induction false} ExtentAt(e: seq<Extent>, i: nat)
    requires i < |e|
    ensures EncodeExtents(e)[20 * i..20 * i + 20] == EncodeExtent(e[i])
  {
    var front := e[..|e| - 1];
    if i < |e| - 1 {
      ExtentAt(front, i);
      assert EncodeExtents(e)[20 * i..20 * i + 20] == EncodeExtents(front)[20 * i..20 * i + 20];
    }
  }

  /** How many extents page 0 says it holds. */
  function StoredCount(page: seq<byte>): uint32
    requires 8 <= |page|
  {
    Decode32(page[4..8])
  }

  function StoredExtent(page: seq<byte>, i: nat): Extent
    requires 8 + 20 * i + 20 <= |page|
  {
    DecodeExtent(page[8 + 20 * i..8 + 20 * i + 20])
  }

  /** The check recovery makes between neighbours; it keeps the last page in 32 bits. */
  predicate Follows(prev: Extent, next: Extent) {
    var last := prev.end % U32;
    last != 0 ==> (last + 1) % U32 == next.start
  }

  lemma NeighboursFollow(prev: Extent, next: Extent)
    requires prev.end + 1 == next.start && prev.end < MAX_LPN_FOR_LOGGING
    ensures Follows(prev, next)
  {
  }

  lemma StoredIsEncoded(page: seq<byte>, base: uint32, e: seq<Extent>)
    requires |e| < U32 && EncodeMeta(base, e) <= page
    ensures Decode32(page[..4]) == base && StoredCount(page) == |e|
    ensures forall i :: 0 <= i < |e| ==> StoredExtent(page, i) == e[i]
  {
    var m := EncodeMeta(base, e);
    assert page[..4] == m[..4] == Encode32(base);
    assert page[4..8] == m[4..8] == Encode32(|e|);
    Decode32OfEncode32(base);
    Decode32OfEncode32(|e|);
    forall i | 0 <= i < |e| ensures StoredExtent(page, i) == e[i] {
      ExtentAt(e, i);
      assert page[8 + 20 * i..8 + 20 * i + 20] == m[8 + 20 * i..8 + 20 * i + 20] == EncodeExtents(e)[20 * i..20 * i + 20];
      DecodeExtentOfEncode(e[i]);
    }
  }

  /** Recovery's reading of page 0: base tag, extents, and whether its check held throughout. */
  method ReadMetadata(page: array<byte>) returns (base: uint32, e: seq<Extent>, ok: bool)
    requires 8 <= page.Length && 8 + 20 * StoredCount(page[..]) <= page.Length
    ensures base == Decode32(page[..4])
    ensures |e| == StoredCount(page[..]) && forall i :: 0 <= i < |e| ==> e[i] == StoredExtent(page[..], i)
    ensures ok <==> forall i :: 0 < i < |e| ==> Follows(e[i - 1], e[i])
  {
    var offset := 0;
    base := Decode32(page[offset..offset + 4]);
    offset := offset + 4;
    var num := Decode32(page[offset..offset + 4]);
    offset := offset + 4;
    assert page[4..8] == page[..][4..8];
    var last: nat := 0;
    e, ok := [], true;
    var i: nat := 0;
    while i < num
      invariant 0 <= i <= num && |e| == i && offset == 8 + 20 * i
      invariant forall j :: 0 <= j < i ==> e[j] == StoredExtent(page[..], j)
      invariant last == if i == 0 then 0 else e[i - 1].end % U32
      invariant ok <==> forall j :: 0 < j < i ==> Follows(e[j - 1], e[j])
    {
      var x := DecodeExtent(page[offset..offset + 20]);
      assert page[offset..offset + 20] == page[..][8 + 20 * i..8 + 20 * i + 20];
      ok := ok && (last != 0 ==> (last + 1) % U32 == x.start);
      e := e + [x];
      last := x.end % U32;
      offset := offset + 20;
      i := i + 1;
    }
  }

  // ---------------------------------------------------------------- the server

  class LogServer {
    var alive: seq<Log>          // alive_log_files_
    var currentOffset: nat       // next page to write
    var logfileSeq: uint32
    var logSize: uint64
    var base: uint32             // base_log_tag_seq_
    const metadata: array<byte>

    ghost predicate Valid()
      reads this
    {
      && metadata.Length == PAGE_SIZE
      && LOGGING_START_LPN <= currentOffset <= MAX_LPN_FOR_LOGGING
      && logSize == Wrap(Total(alive))
      && Contiguous(alive) && OnDevice(alive)
      && (alive != [] ==> alive[|alive| - 1].seqno == logfileSeq && alive[|alive| - 1].end == 0)
    }

    /** Page 0 holds the live logs. */
    ghost predicate Synced()
      reads this, metadata
    {
      |alive| < U32 && EncodeMeta(base, Extents(alive)) <= metadata[..]
    }

    constructor (base: uint32)
      ensures Valid() && alive == [] && logSize == 0 && this.base == base && fresh(metadata) && currentOffset == LOGGING_START_LPN
    {
      metadata := new byte[PAGE_SIZE](_ => 0);
      alive, currentOffset, logfileSeq, logSize := [], LOGGING_START_LPN, 0, 0;
      this.base := base;
    }

    /** Account for bytes logged to the newest file, on behalf of AddLog or directly. */
    method AddSize(size: nat)
      requires Valid() && alive != []
      modifies this`alive, this`logSize
      ensures Valid() && alive == Grow(old(alive), size)
      ensures logSize == Wrap(old(logSize) + size)
    {
      GrowTotal(alive, size);
      GrowKeeps(alive, size);
      WrapShift(Total(alive), size);
      logSize := Wrap(logSize + size);
      alive := Grow(alive, size);
    }

    /** Take the next pages of the device; the log area is used in turns. */
    method Reserve(pages: nat) returns (lpn: nat)
      requires Valid()
      modifies this`currentOffset
      ensures Valid() && lpn == old(currentOffset)
      ensures currentOffset == if lpn + pages > MAX_LPN_FOR_LOGGING then LOGGING_START_LPN else lpn + pages
    {
      lpn := currentOffset;
      currentOffset := currentOffset + pages;
      if currentOffset > MAX_LPN_FOR_LOGGING {
        currentOffset := LOGGING_START_LPN;
      }
    }

    method WriteMetadata() returns (outcome: Outcome)
      requires metadata.Length == PAGE_SIZE
      modifies metadata
      ensures outcome == if 8 + 20 * |alive| <= PAGE_SIZE then Done else Overrun
      ensures outcome.Done? ==> Synced()
    {
      if 8 + 20 * |alive| > PAGE_SIZE {
        return Overrun;
      }
      var offset: nat := 0;
      Store(metadata, offset, Encode32(base));
      offset := offset + 4;
      Store(metadata, offset, Encode32(|alive|));
      offset := offset + 4;
      ghost var head := Encode32(base) + Encode32(|alive|);
      assert metadata[..8] == head;
      ghost var e := Extents(alive);
      var i := 0;
      while i < |alive|
        invariant 0 <= i <= |alive| && offset == 8 + 20 * i
        invariant metadata[..offset] == head + EncodeExtents(e[..i])
      {
        assert e[..i + 1][..i] == e[..i];
        Store(metadata, offset, EncodeExtent(ExtentOf(alive[i])));
        AppendExtent(head, e, i);
        offset := offset + 20;
        i := i + 1;
      }
      assert e[..i] == e;
      outcome := Done;
    }

    /** Close the newest log in front of the next page to be written and open a new one there. */
    method CreateWAL(number: uint32) returns (outcome: Outcome)
      requires Valid()
      modifies this, metadata
      ensures outcome == if old(alive) != [] && old(currentOffset) <= 1 then AssertFailed
                         else if 8 + 20 * (|old(alive)| + 1) > PAGE_SIZE then Overrun else Done
      ensures outcome.Done? ==>
        && Valid() && Synced() && logSize == old(logSize)
        && base == old(base) && currentOffset == old(currentOffset)
        && alive == Open(old(alive), TagOf(number, base), currentOffset)
      ensures outcome.Done? && old(Increasing(alive)) ==>
        (old(alive) != [] ==> old(logfileSeq) < TagOf(number, base)) ==> Increasing(alive)
    {
      if |alive| != 0 {
        assert alive[|alive| - 1].seqno == logfileSeq;
        if !(currentOffset > 1) {
          return AssertFailed;
        }
      }
      OpenLog(TagOf(number, base));
      outcome := WriteMetadata();
    }

    method OpenLog(seqno: uint32)
      requires Valid()
      modifies this`alive, this`logfileSeq
      ensures Valid() && alive == Open(old(alive), seqno, currentOffset)
      ensures old(Increasing(alive)) && (old(alive) != [] ==> old(logfileSeq) < seqno) ==> Increasing(alive)
    {
      OpenTotal(alive, seqno, currentOffset);
      OpenKeeps(alive, seqno, currentOffset);
      if |alive| != 0 {
        alive := Close(alive, currentOffset);
      }
      logfileSeq := seqno;
      alive := alive + [Log(logfileSeq, currentOffset, 0, 0)];
    }

    /** Forget the logs below the minimum; `size` is how many the caller expects to stay. */
    method DeleteLog(min: uint32, size: nat) returns (outcome: Outcome)
      requires Valid()
      modifies this, metadata
      ensures outcome == DeleteOutcome(old(alive), TagOf(min, old(base)), size)
      ensures outcome.Done? ==>
        && Valid() && Synced() && base == old(base) && currentOffset == old(currentOffset)
        && alive == DropBelow(old(alive), TagOf(min, base))
    {
      var bound := TagOf(min, base);
      var ok := Forget(bound);
      if !ok || size != |alive| {
        return AssertFailed;
      }
      outcome := WriteMetadata();
    }

    method Forget(bound: uint32) returns (ok: bool)
      requires Valid()
      modifies this`alive, this`logSize
      ensures ok <==> (old(alive) == [] || DropBelow(old(alive), bound) != [])
      ensures ok ==> Valid() && alive == DropBelow(old(alive), bound)
    {
      DropKeeps(alive, bound);
      ok := PopBelow(bound);
    }

    /** The popping loop; false when it empties the list, where the source asserts it does not. */
    method PopBelow(bound: uint32) returns (ok: bool)
      requires logSize == Wrap(Total(alive))
      modifies this`alive, this`logSize
      ensures ok <==> (old(alive) == [] || DropBelow(old(alive), bound) != [])
      ensures ok ==> alive == DropBelow(old(alive), bound) && logSize == Wrap(Total(alive))
    {
      if |alive| != 0 {
        while alive[0].seqno < bound
          invariant alive != []
          invariant DropBelow(alive, bound) == DropBelow(old(alive), bound)
          invariant logSize == Wrap(Total(alive))
          decreases |alive|
        {
          WrapLess(Total(alive), alive[0].size);
          logSize := Wrap((logSize as int) - alive[0].size);
          alive := alive[1..];
          if |alive| == 0 {
            return false;
          }
        }
      }
      ok := true;
    }
  }

  function DeleteOutcome(logs: seq<Log>, bound: uint32, size: nat): Outcome {
    var kept := DropBelow(logs, bound);
    if (logs != [] && kept == []) || |kept| != size then AssertFailed
    else if 8 + 20 * |kept| > PAGE_SIZE then Overrun else Done
  }

  lemma AppendExtent(head: seq<byte>, e: seq<Extent>, i: nat)
    requires i < |e|
    ensures (head + EncodeExtents(e[..i])) + EncodeExtent(e[i]) == head + EncodeExtents(e[..i + 1])
  {
    assert e[..i + 1][..i] == e[..i];
  }

  /** What the server has on page 0, recovery reads back, and its check passes. */
  lemma MetadataRoundTrip(page: seq<byte>, base: uint32, logs: seq<Log>)
    requires |logs| < U32 && Contiguous(logs) && OnDevice(logs) && EncodeMeta(base, Extents(logs)) <= page
    ensures Decode32(page[..4]) == base && StoredCount(page) == |logs|
    ensures forall i :: 0 <= i < |logs| ==> StoredExtent(page, i) == ExtentOf(logs[i])
    ensures forall i :: 0 < i < |logs| ==> Follows(StoredExtent(page, i - 1), StoredExtent(page, i))
  {
    var e := Extents(logs);
    StoredIsEncoded(page, base, e);
    forall i | 0 < i < |logs| ensures Follows(StoredExtent(page, i - 1), StoredExtent(page, i)) {
      assert logs[i - 1] in logs;
      assert Adjoin(logs, i);
      NeighboursFollow(ExtentOf(logs[i - 1]), ExtentOf(logs[i]));
    }
  }

  /** Log numbers that go down: the log below the minimum stays, because it stands behind a newer one. */
  method OlderLogKept(base: uint32, high: uint32, low: uint32, min: uint32) returns (server: LogServer, outcome: Outcome)
    requires low < min <= high && base + high < U32
    ensures outcome.Done? && server.Valid() && server.Synced() && |server.alive| == 2 && server.alive[1].seqno == low + base < min + base <= server.alive[0].seqno
  {
    server := TwoLogs(base, high, low);
    DropNothing(server.alive, TagOf(min, base));
    outcome := server.DeleteLog(min, 2);
  }

  lemma DropNothing(logs: seq<Log>, bound: uint32)
    requires logs != [] && logs[0].seqno >= bound
    ensures DropBelow(logs, bound) == logs
  {
  }

  method TwoLogs(base: uint32, first: uint32, second: uint32) returns (server: LogServer)
    requires base + first < U32 && base + second < U32
    ensures fresh(server) && fresh(server.metadata) && server.Valid() && server.base == base
    ensures |server.alive| == 2 && server.alive[0].seqno == first + base && server.alive[1].seqno == second + base
  {
    server := OneLog(base, first);
    var outcome := AddWAL(server, second);
    assert outcome.Done?;
  }

  /** CreateWAL on a server with one log and a page written, seen from its sequence numbers. */
  method AddWAL(server: LogServer, number: uint32) returns (outcome: Outcome)
    requires server.Valid() && |server.alive| == 1 && server.currentOffset > 1 && server.base + number < U32
    modifies server, server.metadata
    ensures outcome.Done? && server.Valid() && server.base == old(server.base) && |server.alive| == 2
    ensures server.alive[0].seqno == old(server.alive)[0].seqno && server.alive[1].seqno == number + server.base
  {
    TagSmall(number, server.base);
    OpenSecond(server.alive, TagOf(number, server.base), server.currentOffset);
    outcome := server.CreateWAL(number);
  }

  lemma TagSmall(number: uint32, base: uint32)
    requires number + base < U32
    ensures TagOf(number, base) == number + base
  {
  }

  lemma OpenSecond(logs: seq<Log>, seqno: uint32, offset: nat)
    requires 0 < offset < U64 && |logs| == 1
    ensures var r := Open(logs, seqno, offset); |r| == 2 && r[0].seqno == logs[0].seqno && r[1].seqno == seqno
  {
  }

  /** One log, with a page written to it. */
  method OneLog(base: uint32, number: uint32) returns (server: LogServer)
    requires base + number < U32
    ensures fresh(server) && fresh(server.metadata) && server.Valid() && server.base == base && server.currentOffset == 2
    ensures |server.alive| == 1 && server.alive[0].seqno == number + base
  {
    server := new LogServer(base);
    TagSmall(number, base);
    var outcome := server.CreateWAL(number);
    var _ := server.Reserve(1);
  }
}
