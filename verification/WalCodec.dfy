/**
 The log writer's packing loop and recovery's unpacking loop, as imperative code on buffers,
 proved against the page format.
 */
module WalCodec {
  import opened Options
  import opened Fixed
  import opened WalFormat
  import opened WalRoundTrip

  // ---------------------------------------------------------------- lengths

  /** The bytes written so far. */
  function Written(o: Out): seq<byte> {
    Flatten(o.full) + o.open
  }

  /** Pages begun. */
  function Started(o: Out): nat {
    |o.full| + if o.open == [] then 0 else 1
  }

  lemma {:induction false} FlattenAppend<T>(a: seq<seq<T>>, x: seq<T>)
    ensures Flatten(a + [x]) == Flatten(a) + x
  {
    if a == [] {
      assert a + [x] == [x];
      assert Flatten([x]) == x + [] == x;
    } else {
      FlattenAppend(a[1..], x);
      assert (a + [x])[1..] == a[1..] + [x];
      Assoc(a[0], Flatten(a[1..]), x);
    }
  }

  lemma {:induction false} FlattenLength(pages: seq<Page>, pageSize: nat)
    requires forall p <- pages :: |p| == pageSize
    ensures |Flatten(pages)| == |pages| * pageSize
  {
    if pages != [] {
      FlattenLength(pages[1..], pageSize);
      Successor(|pages| - 1, pageSize);
    }
  }

  /** What has been written lies within the pages begun. */
  lemma WithinStarted(o: Out, pageSize: nat, k: nat)
    requires Fits(o, pageSize) && Started(o) <= k
    ensures |Written(o)| <= k * pageSize
  {
    FlattenLength(o.full, pageSize);
    Monotone(Started(o), k, pageSize);
    Successor(|o.full|, pageSize);
  }

  lemma Successor(n: nat, c: nat)
    ensures (n + 1) * c == n * c + c
  {
  }

  lemma Monotone(a: nat, b: nat, c: nat)
    requires a <= b
    ensures a * c <= b * c
  {
  }

  lemma Distribute(n: nat, c: nat)
    ensures n * (c + 4) == n * c + 4 * n
  {
  }

  lemma LessTimes(a: nat, b: nat, c: nat)
    requires a * c < b * c
    ensures a < b
  {
    if b <= a {
      Monotone(b, a, c);
    }
  }

  lemma WrittenFlush(full: seq<Page>, page: Page)
    ensures Written(Out(full + [page], [])) == Flatten(full) + page == Written(Out(full, page))
  {
    FlattenAppend(full, page);
  }

  /** Data grow the output by their length and one tag per page begun. */
  lemma {:induction false} DataLength(o: Out, pageSize: nat, tag: uint32, data: seq<byte>)
    requires Fits(o, pageSize)
    ensures var r := PutData(o, pageSize, tag, data);
            && Started(o) <= Started(r)
            && |Written(r)| == |Written(o)| + |data| + 4 * (Started(r) - Started(o))
    decreases |data|, |o.open|
  {
    if data != [] {
      var o1 := StartPage(o, tag);
      var left := pageSize - |o1.open|;
      if |data| > left {
        var page := o1.open + data[..left];
        WrittenFlush(o1.full, page);
        DataLength(Out(o1.full + [page], []), pageSize, tag, data[left..]);
      }
    }
  }

  /** The test every record passes before it is copied. */
  predicate Admits(o: Out, pageSize: nat, bufferPages: nat, record: Record) {
    |Written(o)| + |record| + 4 < bufferPages * pageSize - 4 * bufferPages
  }

  predicate Accepted(o: Out, pageSize: nat, bufferPages: nat, tag: uint32, records: seq<Record>)
    requires Fits(o, pageSize) && Storable(records)
    decreases |records|
  {
    records == [] ||
    (Admits(o, pageSize, bufferPages, records[0]) &&
     Accepted(PutRecord(o, pageSize, tag, records[0]), pageSize, bufferPages, tag, records[1..]))
  }

  lemma SizeLength(o: Out, pageSize: nat, tag: uint32, size: uint32)
    requires Fits(o, pageSize)
    ensures var r := PutSize(o, pageSize, tag, size);
            var skipped := if o.open != [] && pageSize - |o.open| < 4 then pageSize - |o.open| else 0;
            && Started(o) <= Started(r)
            && |Written(r)| == |Written(o)| + skipped + 4 + 4 * (Started(r) - Started(o))
            && (skipped > 0 ==> Started(r) == Started(o) + 1)
  {
    if o.open != [] && pageSize - |o.open| < 4 {
      WrittenFlush(o.full, o.open + Zeros(pageSize - |o.open|));
    }
  }

  /**
   The bound. A record that passes the test fits the buffer with all the tags and padding it brings:
   the writer's test leaves four bytes per page for them.
   */
  lemma RecordFits(o: Out, pageSize: nat, bufferPages: nat, tag: uint32, record: Record)
    requires Fits(o, pageSize) && |record| < U32 && Admits(o, pageSize, bufferPages, record)
    ensures Started(PutRecord(o, pageSize, tag, record)) <= bufferPages
  {
    var sized := PutSize(o, pageSize, tag, |record|);
    var r := PutRecord(o, pageSize, tag, record);
    SizeLength(o, pageSize, tag, |record|);
    DataLength(sized, pageSize, tag, record);
    FlattenLength(r.full, pageSize);
    var c := pageSize - 4;
    Distribute(|r.full|, c);
    Distribute(bufferPages, c);
    SizedIsOpen(o, pageSize, tag, record);
    LessTimes(|r.full|, bufferPages, c);
  }

  lemma SizedIsOpen(o: Out, pageSize: nat, tag: uint32, record: Record)
    requires Fits(o, pageSize) && |record| < U32
    ensures |PutRecord(o, pageSize, tag, record).open| >= 4
  {
    if record == [] {
      assert PutRecord(o, pageSize, tag, record) == PutSize(o, pageSize, tag, 0);
    }
  }

  /** A whole accepted batch, padded, takes no more than the buffer and is a whole number of pages. */
  lemma {:induction false} BatchFits(o: Out, pageSize: nat, bufferPages: nat, tag: uint32, records: seq<Record>)
    requires Fits(o, pageSize) && Storable(records) && Started(o) <= bufferPages
    requires Accepted(o, pageSize, bufferPages, tag, records)
    ensures Started(PutAll(o, pageSize, tag, records)) <= bufferPages
    decreases |records|
  {
    if records != [] {
      RecordFits(o, pageSize, bufferPages, tag, records[0]);
      BatchFits(PutRecord(o, pageSize, tag, records[0]), pageSize, bufferPages, tag, records[1..]);
    }
  }

  // ---------------------------------------------------------------- writing

  /** The buffer holds what has been written and the counters agree. */
  ghost predicate Holds(buf: array<byte>, offset: nat, left: nat, o: Out, pageSize: nat)
    reads buf
  {
    && Fits(o, pageSize)
    && offset <= buf.Length && buf[..offset] == Written(o)
    && left + |o.open| == pageSize
  }

  /** Append bytes to the page at hand. */
  method Append(buf: array<byte>, offset: nat, left: nat, bytes: seq<byte>, ghost o: Out, pageSize: nat, ghost bufferPages: nat, ghost maxBuffer: nat)
    returns (newOffset: nat, newLeft: nat)
    requires Holds(buf, offset, left, o, pageSize) && |bytes| <= left
    requires |o.open| + |bytes| >= 4 || bytes == []
    requires Started(Out(o.full, o.open + bytes)) <= bufferPages && bufferPages * pageSize == maxBuffer <= buf.Length
    modifies buf
    ensures Holds(buf, newOffset, newLeft, Out(o.full, o.open + bytes), pageSize)
    ensures buf[maxBuffer..] == old(buf[maxBuffer..])
  {
    var o1 := Out(o.full, o.open + bytes);
    assert Written(o1) == Written(o) + bytes;
    WithinStarted(o1, pageSize, bufferPages);
    ghost var end := maxBuffer;
    ghost var before := buf[..];
    Store(buf, offset, bytes);
    newOffset, newLeft := offset + |bytes|, left - |bytes|;
    assert buf[end..] == buf[newOffset..][end - newOffset..];
    assert before[end..] == before[newOffset..][end - newOffset..];
  }

  /** The page at hand is full: the writer goes on at the beginning of the next one. */
  lemma TurnPage(buf: array<byte>, offset: nat, o: Out, pageSize: nat)
    requires Holds(buf, offset, 0, o, pageSize)
    ensures Holds(buf, offset, pageSize, Out(o.full + [o.open], []), pageSize)
  {
    WrittenFlush(o.full, o.open);
  }

  /** Padding, tag and size of one record. */
  method WriteSize(buf: array<byte>, offset: nat, left: nat, size: uint32, pageSize: nat, tag: uint32,
                   ghost o: Out, ghost bufferPages: nat, ghost maxBuffer: nat)
    returns (newOffset: nat, newLeft: nat)
    requires Holds(buf, offset, left, o, pageSize)
    requires Started(PutSize(o, pageSize, tag, size)) <= bufferPages && bufferPages * pageSize == maxBuffer <= buf.Length
    modifies buf
    ensures Holds(buf, newOffset, newLeft, PutSize(o, pageSize, tag, size), pageSize)
    ensures buf[maxBuffer..] == old(buf[maxBuffer..])
  {
    newOffset, newLeft := offset, left;
    ghost var p := o;
    if newLeft < 4 {
      newOffset, newLeft := Append(buf, newOffset, newLeft, Zeros(newLeft), p, pageSize, bufferPages, maxBuffer);
      p := Out(p.full, p.open + Zeros(left));
      TurnPage(buf, newOffset, p, pageSize);
      newLeft := pageSize;
      p := Out(p.full + [p.open], []);
      assert p == PadPage(o, pageSize);
    }
    if newLeft == pageSize {
      assert p.open == [] && [] + Encode32(tag) == Encode32(tag);
      newOffset, newLeft := Append(buf, newOffset, newLeft, Encode32(tag), p, pageSize, bufferPages, maxBuffer);
      p := Out(p.full, Encode32(tag));
    }
    newOffset, newLeft := Append(buf, newOffset, newLeft, Encode32(size), p, pageSize, bufferPages, maxBuffer);
  }

  /** Where the writer stands after one turn of its copying loop, and what it still has to copy. */
  ghost function AfterChunk(p: Out, pageSize: nat, tag: uint32, data: seq<byte>): (Out, seq<byte>)
    requires Fits(p, pageSize)
  {
    var p1 := StartPage(p, tag);
    var left := pageSize - |p1.open|;
    if |data| <= left then (Out(p1.full, p1.open + data), [])
    else (Out(p1.full + [p1.open + data[..left]], []), data[left..])
  }

  lemma AfterChunkSame(p: Out, pageSize: nat, tag: uint32, data: seq<byte>)
    requires Fits(p, pageSize) && data != []
    ensures var (q, rest) := AfterChunk(p, pageSize, tag, data);
            && Fits(q, pageSize)
            && PutData(q, pageSize, tag, rest) == PutData(p, pageSize, tag, data)
            && Started(StartPage(p, tag)) <= Started(q) <= Started(PutData(p, pageSize, tag, data))
  {
    var (q, rest) := AfterChunk(p, pageSize, tag, data);
    DataLength(q, pageSize, tag, rest);
  }

  /** A page begins with the tag. */
  method WriteTag(buf: array<byte>, offset: nat, left: nat, pageSize: nat, tag: uint32,
                  ghost p: Out, ghost bufferPages: nat, ghost maxBuffer: nat)
    returns (newOffset: nat, newLeft: nat)
    requires Holds(buf, offset, left, p, pageSize)
    requires Started(StartPage(p, tag)) <= bufferPages && bufferPages * pageSize == maxBuffer <= buf.Length
    modifies buf
    ensures Holds(buf, newOffset, newLeft, StartPage(p, tag), pageSize)
    ensures newLeft == if left == pageSize then pageSize - 4 else left
    ensures buf[maxBuffer..] == old(buf[maxBuffer..])
  {
    newOffset, newLeft := offset, left;
    if newLeft == pageSize {
      assert p.open == [] && [] + Encode32(tag) == Encode32(tag);
      newOffset, newLeft := Append(buf, newOffset, newLeft, Encode32(tag), p, pageSize, bufferPages, maxBuffer);
    }
  }

  /** One turn of the copying loop. */
  method WriteChunk(buf: array<byte>, offset: nat, left: nat, data: seq<byte>, pageSize: nat, tag: uint32,
                    ghost p: Out, ghost bufferPages: nat, ghost maxBuffer: nat)
    returns (newOffset: nat, newLeft: nat, copied: nat)
    requires Holds(buf, offset, left, p, pageSize) && data != []
    requires Started(StartPage(p, tag)) <= bufferPages
    requires Started(AfterChunk(p, pageSize, tag, data).0) <= bufferPages && bufferPages * pageSize == maxBuffer <= buf.Length
    modifies buf
    ensures copied <= |data| && data[copied..] == AfterChunk(p, pageSize, tag, data).1
    ensures copied == 0 ==> newLeft == pageSize && left != pageSize
    ensures Holds(buf, newOffset, newLeft, AfterChunk(p, pageSize, tag, data).0, pageSize)
    ensures buf[maxBuffer..] == old(buf[maxBuffer..])
  {
    ghost var p1 := StartPage(p, tag);
    newOffset, newLeft := WriteTag(buf, offset, left, pageSize, tag, p, bufferPages, maxBuffer);
    if |data| <= newLeft {
      newOffset, newLeft := Append(buf, newOffset, newLeft, data, p1, pageSize, bufferPages, maxBuffer);
      copied := |data|;
    } else {
      copied := newLeft;
      newOffset, newLeft := Append(buf, newOffset, newLeft, data[..newLeft], p1, pageSize, bufferPages, maxBuffer);
      TurnPage(buf, newOffset, Out(p1.full, p1.open + data[..copied]), pageSize);
      newLeft := pageSize;
    }
  }

  /** The bytes of one record, page by page. */
  method WriteData(buf: array<byte>, offset: nat, left: nat, data: seq<byte>, pageSize: nat, tag: uint32,
                   ghost o: Out, ghost bufferPages: nat, ghost maxBuffer: nat)
    returns (newOffset: nat, newLeft: nat)
    requires Holds(buf, offset, left, o, pageSize)
    requires Started(PutData(o, pageSize, tag, data)) <= bufferPages && bufferPages * pageSize == maxBuffer <= buf.Length
    modifies buf
    ensures Holds(buf, newOffset, newLeft, PutData(o, pageSize, tag, data), pageSize)
    ensures buf[maxBuffer..] == old(buf[maxBuffer..])
  {
    newOffset, newLeft := offset, left;
    var size := |data|;
    ghost var p := o;
    assert data[0..] == data;
    while size > 0
      invariant 0 <= size <= |data|
      invariant Holds(buf, newOffset, newLeft, p, pageSize)
      invariant PutData(p, pageSize, tag, data[|data| - size..]) == PutData(o, pageSize, tag, data)
      invariant buf[maxBuffer..] == old(buf[maxBuffer..])
      decreases size, if newLeft == pageSize then 0 else 1
    {
      var rest := data[|data| - size..];
      AfterChunkSame(p, pageSize, tag, rest);
      var copied: nat;
      newOffset, newLeft, copied := WriteChunk(buf, newOffset, newLeft, rest, pageSize, tag, p, bufferPages, maxBuffer);
      p := AfterChunk(p, pageSize, tag, rest).0;
      size := size - copied;
      assert rest[copied..] == data[|data| - size..];
    }
  }

  /** One record: its size, then its bytes. */
  method WriteRecord(buf: array<byte>, offset: nat, left: nat, record: Record, pageSize: nat, tag: uint32,
                     ghost o: Out, ghost bufferPages: nat, ghost maxBuffer: nat)
    returns (newOffset: nat, newLeft: nat)
    requires Holds(buf, offset, left, o, pageSize) && |record| < U32
    requires Started(PutRecord(o, pageSize, tag, record)) <= bufferPages && bufferPages * pageSize == maxBuffer <= buf.Length
    modifies buf
    ensures Holds(buf, newOffset, newLeft, PutRecord(o, pageSize, tag, record), pageSize)
    ensures buf[maxBuffer..] == old(buf[maxBuffer..])
  {
    ghost var sized := PutSize(o, pageSize, tag, |record|);
    DataLength(sized, pageSize, tag, record);
    newOffset, newLeft := WriteSize(buf, offset, left, |record|, pageSize, tag, o, bufferPages, maxBuffer);
    newOffset, newLeft := WriteData(buf, newOffset, newLeft, record, pageSize, tag, sized, bufferPages, maxBuffer);
  }

  /** Zeros up to the end of the page at hand. */
  method WritePadding(buf: array<byte>, offset: nat, left: nat, pageSize: nat, ghost o: Out, ghost bufferPages: nat, ghost maxBuffer: nat)
    returns (newOffset: nat)
    requires Holds(buf, offset, left, o, pageSize) && Started(o) <= bufferPages && bufferPages * pageSize == maxBuffer <= buf.Length
    modifies buf
    ensures newOffset <= buf.Length && buf[..newOffset] == Flatten(PadPage(o, pageSize).full)
    ensures newOffset == |PadPage(o, pageSize).full| * pageSize <= maxBuffer
    ensures buf[maxBuffer..] == old(buf[maxBuffer..])
  {
    newOffset := offset;
    if 0 < left < pageSize {
      ghost var newLeft;
      newOffset, newLeft := Append(buf, newOffset, left, Zeros(left), o, pageSize, bufferPages, maxBuffer);
    }
    ghost var padded := PadPage(o, pageSize);
    if o.open != [] {
      assert o.open + Zeros(0) == o.open;
      WrittenFlush(o.full, o.open + Zeros(left));
    }
    assert Written(padded) == Flatten(padded.full);
    FlattenLength(padded.full, pageSize);
    Monotone(|padded.full|, bufferPages, pageSize);
  }

  /**
   Pack a chain of records into the buffer. The result is None exactly when some record fails the
   test in front of it; otherwise it is the length used, a whole number of pages no more than the
   buffer has, and the buffer holds the pages of the batch.
   */
  method MemCopy(buf: array<byte>, records: seq<Record>, pageSize: nat, maxBuffer: nat, bufferPages: nat, tag: uint32)
    returns (used: Option<nat>)
    requires 8 <= pageSize && Storable(records) && bufferPages * pageSize == maxBuffer <= buf.Length
    modifies buf
    ensures used.Some? <==> Accepted(Empty, pageSize, bufferPages, tag, records)
    ensures used.Some? ==>
      && used.value == |BatchPages(pageSize, tag, records)| * pageSize
      && used.value <= maxBuffer
      && buf[..used.value] == Flatten(BatchPages(pageSize, tag, records))
    ensures buf[maxBuffer..] == old(buf[maxBuffer..])
  {
    var offset: nat, left: nat := 0, pageSize;
    ghost var o := Empty;
    var h := 0;
    assert records[0..] == records;
    while h < |records|
      invariant 0 <= h <= |records|
      invariant Holds(buf, offset, left, o, pageSize) && Started(o) <= bufferPages
      invariant PutAll(o, pageSize, tag, records[h..]) == PutAll(Empty, pageSize, tag, records)
      invariant Accepted(o, pageSize, bufferPages, tag, records[h..])
                <==> Accepted(Empty, pageSize, bufferPages, tag, records)
      invariant buf[maxBuffer..] == old(buf[maxBuffer..])
    {
      var record := records[h];
      if !(offset + |record| + 4 < maxBuffer - 4 * bufferPages) {
        return None;
      }
      RecordFits(o, pageSize, bufferPages, tag, record);
      offset, left := WriteRecord(buf, offset, left, record, pageSize, tag, o, bufferPages, maxBuffer);
      o := PutRecord(o, pageSize, tag, record);
      assert records[h..][1..] == records[h + 1..];
      h := h + 1;
    }
    offset := WritePadding(buf, offset, left, pageSize, o, bufferPages, maxBuffer);
    used := Some(offset);
  }

  // ---------------------------------------------------------------- reading

  /** A record being put together; `Append` and `Check` carry the source's assertions. */
  class LogEntry {
    var data: seq<byte>
    const size: nat
    const tag: uint32

    constructor (size: nat, tag: uint32)
      ensures this.size == size && this.tag == tag && data == []
    {
      this.size := size;
      this.tag := tag;
      data := [];
    }

    method Append(bytes: seq<byte>)
      requires |data| + |bytes| <= size
      modifies this
      ensures data == old(data) + bytes
    {
      data := data + bytes;
    }

    predicate Check()
      reads this
    {
      |data| == size
    }
  }

  /** What collecting from the next page on gives, put behind bytes already there. */
  ghost function Behind(data: seq<byte>, pages: seq<Page>, pageSize: nat, i: nat, n: nat): Collected
    requires AllPages(pages, pageSize) && i < |pages|
  {
    if i + 1 == |pages| then Short
    else
      match Collect(pages, pageSize, i + 1, 4, n)
      case Short => Short
      case Got(rest, j, q) => Got(data + rest, j, q)
  }

  lemma BehindStep(data: seq<byte>, pages: seq<Page>, pageSize: nat, i: nat, n: nat)
    requires AllPages(pages, pageSize) && i + 1 < |pages|
    ensures var left := pageSize - 4;
            && (n <= left ==> Behind(data, pages, pageSize, i, n) == Got(data + pages[i + 1][4..4 + n], i + 1, 4 + n))
            && (n > left ==> Behind(data, pages, pageSize, i, n)
                             == Behind(data + pages[i + 1][4..], pages, pageSize, i + 1, n - left))
  {
    if n > pageSize - 4 && i + 2 < |pages| {
      var c := Collect(pages, pageSize, i + 2, 4, n - (pageSize - 4));
      if c.Got? {
        Assoc(data, pages[i + 1][4..], c.data);
      }
    }
  }

  /** The rest of a record that continues on the following pages; `ok` is false if they run out. */
  method ReadAcross(pages: seq<Page>, pageSize: nat, page: nat, entry: LogEntry)
    returns (i: nat, pos: nat, ok: bool)
    requires AllPages(pages, pageSize) && page < |pages| && |entry.data| < entry.size
    modifies entry
    ensures match Behind(old(entry.data), pages, pageSize, page, entry.size - |old(entry.data)|)
            case Short => !ok
            case Got(data, j, q) => ok && i == j < |pages| && pos == q && entry.data == data && 4 <= pos <= pageSize
    ensures ok ==> entry.Check()
  {
    i, pos, ok := page, pageSize, true;
    var r := entry.size - |entry.data|;
    ghost var goal := Behind(entry.data, pages, pageSize, page, r);
    while r != 0
      invariant page <= i < |pages| && 4 <= pos <= pageSize && 0 <= r
      invariant ok && |entry.data| + r == entry.size
      invariant r > 0 ==> goal == Behind(entry.data, pages, pageSize, i, r)
      invariant r == 0 ==> goal == Got(entry.data, i, pos)
      decreases r
    {
      if i + 1 == |pages| {
        ok := false;
        return;
      }
      BehindStep(entry.data, pages, pageSize, i, r);
      i := i + 1;
      var left := pageSize - 4;
      pos := 4;
      if left >= r {
        entry.Append(pages[i][pos..pos + r]);
        pos := pos + r;
        r := 0;
      } else {
        entry.Append(pages[i][pos..]);
        r := r - left;
        pos := pos + left;
        assert pos == pageSize;
      }
    }
  }

  /** One record whose size has just been read. */
  method ReadRecord(pages: seq<Page>, pageSize: nat, page: nat, start: nat, size: nat, tag: uint32)
    returns (entry: LogEntry, i: nat, pos: nat, ok: bool)
    requires AllPages(pages, pageSize) && page < |pages| && 4 <= start <= pageSize && size > 0
    ensures match Collect(pages, pageSize, page, start, size)
            case Short => !ok
            case Got(data, j, q) => ok && i == j && pos == q && entry.data == data && entry.tag == tag && entry.Check()
    ensures ok ==> page <= i < |pages| && 4 <= pos <= pageSize && (i == page ==> pos == start + size)
  {
    i, pos, ok := page, start, true;
    var left := pageSize - pos;
    entry := new LogEntry(size, tag);
    if left >= size {
      entry.Append(pages[i][pos..pos + size]);
      pos := pos + size;
    } else {
      entry.Append(pages[i][pos..]);
      assert entry.data == pages[i][pos..];
      i, pos, ok := ReadAcross(pages, pageSize, page, entry);
    }
  }

  ghost function Join(entries: seq<Entry>, rest: Parsed): Parsed {
    Parsed(entries + rest.entries, rest.ok)
  }

  lemma JoinMore(entries: seq<Entry>, e: seq<Entry>, rest: Parsed)
    ensures Join(entries, Join(e, rest)) == Join(entries + e, rest)
    ensures e == [] ==> entries + e == entries
  {
  }

  /** What is left to recover, at the top of the loop or behind the last page. */
  ghost function Remaining(pages: seq<Page>, pageSize: nat, i: nat, pos: nat, tag: uint32): Parsed
    requires AllPages(pages, pageSize) && 4 <= pos <= pageSize
  {
    if i < |pages| then Parse(pages, pageSize, i, pos, tag) else Parsed([], true)
  }

  /** The top of the loop: the tag is noted at the start of a page, and a page without room for a size is left. */
  method FindSize(pages: seq<Page>, pageSize: nat, page: nat, start: nat, noted: uint32) returns (i: nat, pos: nat, tag: uint32)
    requires AllPages(pages, pageSize) && page < |pages| && 4 <= start <= pageSize
    ensures page <= i <= |pages| && (i == page ==> pos == start)
    ensures i == |pages| ==> Parse(pages, pageSize, page, start, noted) == Parsed([], true)
    ensures i < |pages| ==> 4 <= pos <= pageSize - 4 && Parse(pages, pageSize, page, start, noted) == ParseHere(pages, pageSize, i, pos, tag)
  {
    i, pos, tag := page, start, noted;
    if pos == 4 {
      tag := Decode32(pages[i][..4]);
    }
    if pageSize - pos < 4 {
      i, pos := i + 1, 4;
    }
  }

  /** The rest of the loop: padding up to the end of the page, or a record. */
  method TakeEntry(pages: seq<Page>, pageSize: nat, page: nat, start: nat, tag: uint32)
    returns (entry: Option<Entry>, i: nat, pos: nat, ok: bool)
    requires AllPages(pages, pageSize) && page < |pages| && 4 <= start <= pageSize - 4
    ensures page <= i <= |pages| && 4 <= pos <= pageSize && (ok && i == page ==> pos > start)
    ensures !ok ==> ParseHere(pages, pageSize, page, start, tag) == Parsed([], false)
    ensures ok ==> ParseHere(pages, pageSize, page, start, tag)
                   == Join(if entry.Some? then [entry.value] else [], Remaining(pages, pageSize, i, pos, tag))
  {
    entry, ok := None, true;
    var size := Decode32(pages[page][start..start + 4]);
    if size == 0 {
      i, pos := page + 1, 4;
      JoinNone(Remaining(pages, pageSize, i, pos, tag));
    } else {
      var read;
      read, i, pos, ok := ReadRecord(pages, pageSize, page, start + 4, size, tag);
      if ok {
        entry := Some(Entry(read.data, read.tag));
      } else {
        i, pos := page, start;
      }
    }
  }

  lemma JoinNone(rest: Parsed)
    ensures Join([], rest) == rest
  {
  }

  /** One turn of the loop; `ok` is false where a record is cut off by the end of the log. */
  method Turn(pages: seq<Page>, pageSize: nat, page: nat, start: nat, noted: uint32)
    returns (entry: Option<Entry>, i: nat, pos: nat, tag: uint32, ok: bool)
    requires AllPages(pages, pageSize) && page < |pages| && 4 <= start <= pageSize
    ensures page <= i <= |pages| && 4 <= pos <= pageSize && (ok && i == page ==> pos > start)
    ensures !ok ==> Remaining(pages, pageSize, page, start, noted) == Parsed([], false)
    ensures ok ==> Remaining(pages, pageSize, page, start, noted)
                   == Join(if entry.Some? then [entry.value] else [], Remaining(pages, pageSize, i, pos, tag))
  {
    i, pos, tag := FindSize(pages, pageSize, page, start, noted);
    if i == |pages| {
      entry, ok, pos := None, true, 4;
      JoinNone(Parsed([], true));
    } else {
      entry, i, pos, ok := TakeEntry(pages, pageSize, i, pos, tag);
    }
  }

  /** Recovery of the records from the pages of a log. */
  method ProcessData(pages: seq<Page>, pageSize: nat) returns (entries: seq<Entry>, ok: bool)
    requires AllPages(pages, pageSize)
    ensures Parsed(entries, ok) == ParseAll(pages, pageSize)
  {
    entries, ok := [], true;
    var i := 0;
    var pos, tag: uint32 := 4, 0;
    ghost var rest := Remaining(pages, pageSize, 0, 4, 0);
    JoinNone(rest);
    while i < |pages|
      invariant 0 <= i <= |pages| && 4 <= pos <= pageSize && ok
      invariant rest == Remaining(pages, pageSize, i, pos, tag) && Join(entries, rest) == ParseAll(pages, pageSize)
      decreases |pages| - i, pageSize - pos
    {
      var entry;
      entry, i, pos, tag, ok := Turn(pages, pageSize, i, pos, tag);
      if !ok {
        return;
      }
      rest := Remaining(pages, pageSize, i, pos, tag);
      JoinMore(entries, if entry.Some? then [entry.value] else [], rest);
      if entry.Some? {
        entries := entries + [entry.value];
      }
    }
  }
}
