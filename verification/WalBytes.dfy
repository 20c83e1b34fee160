/**
 Writing and recovering a log as bytes: batches are copied into the write buffer one after the other
 and what is used of it goes to the device; recovery cuts the device's bytes into pages and parses them.
 */
module WalBytes {
  import opened Options
  import opened Fixed
  import opened WalFormat
  import opened WalRoundTrip
  import opened WalCodec

  lemma {:induction false} FlattenPlus<T>(a: seq<seq<T>>, b: seq<seq<T>>)
    ensures Flatten(a + b) == Flatten(a) + Flatten(b)
  {
    if a == [] {
      assert a + b == b;
    } else {
      FlattenPlus(a[1..], b);
      assert (a + b)[1..] == a[1..] + b;
    }
  }

  /** The pages the device holds, as recovery reads them. */
  method ReadPages(disk: seq<byte>, pageSize: nat, ghost whole: seq<Page>) returns (pages: seq<Page>)
    requires AllPages(whole, pageSize) && disk == Flatten(whole)
    ensures pages == whole
  {
    pages := [];
    var at := 0;
    FlattenLength(whole, pageSize);
    while at < |disk|
      invariant |pages| <= |whole| && pages == whole[..|pages|] && at == |pages| * pageSize
      decreases |disk| - at
    {
      NextPage(whole, pageSize, |pages|);
      pages := pages + [disk[at..at + pageSize]];
      Successor(|pages| - 1, pageSize);
      at := at + pageSize;
    }
    if |pages| < |whole| {
      NextPage(whole, pageSize, |pages|);
    }
  }

  /** The i-th page stands at the i-th multiple of the page size. */
  lemma NextPage(whole: seq<Page>, pageSize: nat, i: nat)
    requires AllPages(whole, pageSize) && i * pageSize <= |Flatten(whole)| && i <= |whole|
    ensures i * pageSize < |Flatten(whole)| <==> i < |whole|
    ensures i < |whole| ==> i * pageSize + pageSize <= |Flatten(whole)| && Flatten(whole)[i * pageSize..i * pageSize + pageSize] == whole[i]
  {
    FlattenLength(whole, pageSize);
    if i < |whole| {
      var a, b := whole[..i], whole[i + 1..];
      assert whole == a + ([whole[i]] + b);
      FlattenPlus(a, [whole[i]] + b);
      FlattenLength(a, pageSize);
      assert ([whole[i]] + b)[1..] == b;
      assert Flatten([whole[i]] + b) == whole[i] + Flatten(b);
    }
  }

  /** Every batch passes the buffer test. */
  predicate AllAccepted(batches: seq<seq<Record>>, pageSize: nat, bufferPages: nat, tag: uint32)
    requires 8 <= pageSize && forall b <- batches :: Storable(b)
  {
    forall b <- batches :: Accepted(Empty, pageSize, bufferPages, tag, b)
  }

  ghost function LogBytes(batches: seq<seq<Record>>, pageSize: nat, tag: uint32): seq<byte>
    requires 8 <= pageSize && forall b <- batches :: Storable(b)
  {
    Flatten(LogPages(pageSize, tag, batches))
  }

  lemma LogBytesNext(batches: seq<seq<Record>>, pageSize: nat, tag: uint32, i: nat)
    requires 8 <= pageSize && i < |batches| && forall b <- batches :: Storable(b)
    ensures LogBytes(batches[i..], pageSize, tag)
            == Flatten(BatchPages(pageSize, tag, batches[i])) + LogBytes(batches[i + 1..], pageSize, tag)
  {
    assert batches[i..][1..] == batches[i + 1..];
    FlattenPlus(BatchPages(pageSize, tag, batches[i]), LogPages(pageSize, tag, batches[i + 1..]));
  }

  /** One batch through the buffer. */
  method WriteBatch(buf: array<byte>, batch: seq<Record>, pageSize: nat, bufferPages: nat, tag: uint32) returns (bytes: Option<seq<byte>>)
    requires 8 <= pageSize && Storable(batch) && buf.Length == bufferPages * pageSize
    modifies buf
    ensures bytes.Some? <==> Accepted(Empty, pageSize, bufferPages, tag, batch)
    ensures bytes.Some? ==> bytes.value == Flatten(BatchPages(pageSize, tag, batch))
  {
    var used := MemCopy(buf, batch, pageSize, buf.Length, bufferPages, tag);
    bytes := if used.Some? then Some(buf[..used.value]) else None;
  }

  /** The device after the batches have been written, or None where the source's assertion fails. */
  method WriteLog(batches: seq<seq<Record>>, pageSize: nat, bufferPages: nat, tag: uint32) returns (disk: Option<seq<byte>>)
    requires 8 <= pageSize && forall b <- batches :: Storable(b)
    ensures disk.Some? <==> AllAccepted(batches, pageSize, bufferPages, tag)
    ensures disk.Some? ==> disk.value == LogBytes(batches, pageSize, tag)
  {
    var buf := new byte[bufferPages * pageSize];
    var sofar: seq<byte> := [];
    var i := 0;
    ghost var whole := LogBytes(batches, pageSize, tag);
    assert batches[0..] == batches;
    while i < |batches|
      invariant 0 <= i <= |batches| && forall j :: 0 <= j < i ==> Accepted(Empty, pageSize, bufferPages, tag, batches[j])
      invariant sofar + LogBytes(batches[i..], pageSize, tag) == whole
    {
      var bytes := WriteBatch(buf, batches[i], pageSize, bufferPages, tag);
      if bytes.None? {
        return None;
      }
      LogBytesNext(batches, pageSize, tag, i);
      Assoc(sofar, bytes.value, LogBytes(batches[i + 1..], pageSize, tag));
      sofar, i := sofar + bytes.value, i + 1;
    }
    disk := Some(sofar);
  }

  /**
   A log written and recovered, bytes in between: if every batch fits the buffer, what comes back is
   exactly what was written, in order, if and only if no record is empty.
   */
  method WriteAndRecover(batches: seq<seq<Record>>, pageSize: nat, bufferPages: nat, tag: uint32)
    returns (written: bool, entries: seq<Entry>, ok: bool)
    requires 8 <= pageSize && forall b <- batches :: Storable(b)
    ensures written <==> AllAccepted(batches, pageSize, bufferPages, tag)
    ensures written ==> ((ok && entries == Entries(Flatten(batches), tag)) <==> forall b <- batches :: NonEmpty(b))
  {
    entries, ok := [], false;
    var disk := WriteLog(batches, pageSize, bufferPages, tag);
    written := disk.Some?;
    if written {
      RoundTrip(pageSize, tag, batches);
      var pages := ReadPages(disk.value, pageSize, LogPages(pageSize, tag, batches));
      entries, ok := ProcessData(pages, pageSize);
    }
  }
}
