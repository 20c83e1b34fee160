/**
 Recovery reads back exactly what the log writer wrote.
 */
module WalRoundTrip {
  import opened Fixed
  import opened WalFormat

  lemma Assoc<T>(a: seq<T>, b: seq<T>, c: seq<T>)
    ensures a + (b + c) == (a + b) + c
  {
  }

  lemma HeadFirst<T>(a: seq<T>, b: seq<T>)
    requires a != []
    ensures a + b == [a[0]] + (a[1..] + b)
  {
  }

  /** The pages agree with everything written so far. */
  ghost predicate Extends(pages: seq<Page>, o: Out) {
    && o.full <= pages
    && (o.open != [] ==> |o.full| < |pages| && o.open <= pages[|o.full|])
  }

  // ------------------------------------------------ writing only appends

  lemma ExtendsAppend(pages: seq<Page>, o: Out, more: seq<byte>)
    requires Extends(pages, Out(o.full, o.open + more))
    ensures Extends(pages, o)
  {
    if o.open != [] {
      assert o.open <= o.open + more <= pages[|o.full|];
    }
  }

  lemma ExtendsFlush(pages: seq<Page>, o: Out, more: seq<byte>)
    requires Extends(pages, Out(o.full + [o.open + more], []))
    ensures Extends(pages, Out(o.full, o.open + more)) && Extends(pages, o)
  {
    var full := o.full + [o.open + more];
    assert full <= pages;
    assert pages[|o.full|] == full[|o.full|];
    assert o.full <= full;
    ExtendsAppend(pages, o, more);
  }

  lemma ExtendsStart(pages: seq<Page>, o: Out, tag: uint32)
    requires Extends(pages, StartPage(o, tag))
    ensures Extends(pages, o)
  {
  }

  lemma ExtendsPad(pages: seq<Page>, o: Out, pageSize: nat)
    requires |o.open| <= pageSize && Extends(pages, PadPage(o, pageSize))
    ensures Extends(pages, o)
  {
    if o.open != [] {
      ExtendsFlush(pages, o, Zeros(pageSize - |o.open|));
    }
  }

  lemma ExtendsSize(pages: seq<Page>, o: Out, pageSize: nat, tag: uint32, size: uint32)
    requires Fits(o, pageSize) && Extends(pages, PutSize(o, pageSize, tag, size))
    ensures Extends(pages, o)
  {
    var o0 := if pageSize - |o.open| < 4 then PadPage(o, pageSize) else o;
    ExtendsAppend(pages, StartPage(o0, tag), Encode32(size));
    ExtendsStart(pages, o0, tag);
    if pageSize - |o.open| < 4 {
      ExtendsPad(pages, o, pageSize);
    }
  }

  lemma {:induction false} ExtendsData(pages: seq<Page>, o: Out, pageSize: nat, tag: uint32, data: seq<byte>)
    requires Fits(o, pageSize) && Extends(pages, PutData(o, pageSize, tag, data))
    ensures Extends(pages, o)
    decreases |data|, |o.open|
  {
    if data != [] {
      var o1 := StartPage(o, tag);
      var left := pageSize - |o1.open|;
      if |data| <= left {
        ExtendsAppend(pages, o1, data);
      } else {
        ExtendsData(pages, Out(o1.full + [o1.open + data[..left]], []), pageSize, tag, data[left..]);
        ExtendsFlush(pages, o1, data[..left]);
      }
      ExtendsStart(pages, o, tag);
    }
  }

  lemma {:induction false} ExtendsAll(pages: seq<Page>, o: Out, pageSize: nat, tag: uint32, records: seq<Record>)
    requires Fits(o, pageSize) && Storable(records) && Extends(pages, PutAll(o, pageSize, tag, records))
    ensures Extends(pages, o)
    decreases |records|
  {
    if records != [] {
      var o1 := PutRecord(o, pageSize, tag, records[0]);
      ExtendsAll(pages, o1, pageSize, tag, records[1..]);
      ExtendsData(pages, PutSize(o, pageSize, tag, |records[0]|), pageSize, tag, records[0]);
      ExtendsSize(pages, o, pageSize, tag, |records[0]|);
    }
  }

  // ------------------------------------------------ one record

  lemma SliceAfter(page: Page, open: seq<byte>, data: seq<byte>)
    requires open + data <= page
    ensures page[|open|..|open| + |data|] == data
  {
    assert (open + data)[|open|..] == data;
    assert page[..|open + data|] == open + data;
  }

  /** Bytes that fit the page at hand. */
  lemma CollectFitting(pages: seq<Page>, o: Out, pageSize: nat, data: seq<byte>)
    requires Fits(o, pageSize) && AllPages(pages, pageSize) && o.open != [] && |data| <= pageSize - |o.open|
    requires Extends(pages, Out(o.full, o.open + data))
    ensures Collect(pages, pageSize, |o.full|, |o.open|, |data|) == Got(data, |o.full|, |o.open| + |data|)
  {
    SliceAfter(pages[|o.full|], o.open, data);
  }

  lemma PageFilled(pages: seq<Page>, o: Out, pageSize: nat, chunk: seq<byte>)
    requires Fits(o, pageSize) && |o.open| + |chunk| == pageSize
    requires Extends(pages, Out(o.full + [o.open + chunk], []))
    ensures |o.full| < |pages| && pages[|o.full|][|o.open|..] == chunk
  {
    var full := o.full + [o.open + chunk];
    assert pages[|o.full|] == full[|o.full|];
  }

  lemma PutDataLast(o: Out, pageSize: nat, tag: uint32, data: seq<byte>)
    requires Fits(o, pageSize) && 0 < |data| <= pageSize - |StartPage(o, tag).open|
    ensures PutData(o, pageSize, tag, data) == Out(StartPage(o, tag).full, StartPage(o, tag).open + data)
  {
  }

  lemma PutDataNext(o: Out, pageSize: nat, tag: uint32, data: seq<byte>)
    requires Fits(o, pageSize) && |data| > pageSize - |StartPage(o, tag).open|
    ensures var o1 := StartPage(o, tag); var left := pageSize - |o1.open|;
      && left <= |data| && Fits(Out(o1.full + [o1.open + data[..left]], []), pageSize)
      && PutData(o, pageSize, tag, data) == PutData(Out(o1.full + [o1.open + data[..left]], []), pageSize, tag, data[left..])
  {
  }

  /** Data goes behind the tag of the page, whether the tag is written first or with it. */
  lemma PutDataStart(o: Out, pageSize: nat, tag: uint32, data: seq<byte>)
    requires Fits(o, pageSize) && Fits(StartPage(o, tag), pageSize) && data != []
    ensures PutData(o, pageSize, tag, data) == PutData(StartPage(o, tag), pageSize, tag, data)
  {
    var o1 := StartPage(o, tag);
    assert StartPage(o1, tag) == o1;
    if |data| <= pageSize - |o1.open| {
      PutDataLast(o, pageSize, tag, data);
      PutDataLast(o1, pageSize, tag, data);
    } else {
      PutDataNext(o, pageSize, tag, data);
      PutDataNext(o1, pageSize, tag, data);
    }
  }

  /** The part of `data` that no longer fits goes behind the tag of a new page. */
  lemma PutDataOverflow(o: Out, pageSize: nat, tag: uint32, data: seq<byte>)
    requires Fits(o, pageSize) && o.open != [] && |data| > pageSize - |o.open|
    ensures var left := pageSize - |o.open|;
            var next := StartPage(Out(o.full + [o.open + data[..left]], []), tag);
            Fits(next, pageSize) && PutData(o, pageSize, tag, data) == PutData(next, pageSize, tag, data[left..])
  {
    var left := pageSize - |o.open|;
    var o1 := Out(o.full + [o.open + data[..left]], []);
    PutDataNext(o, pageSize, tag, data);
    PutDataStart(o1, pageSize, tag, data[left..]);
  }

  lemma CollectNext(pages: seq<Page>, pageSize: nat, i: nat, pos: nat, n: nat)
    requires AllPages(pages, pageSize) && i + 1 < |pages| && 4 <= pos <= pageSize && n > pageSize - pos
    ensures Collect(pages, pageSize, i, pos, n) ==
      match Collect(pages, pageSize, i + 1, 4, n - (pageSize - pos))
      case Short => Short
      case Got(rest, j, q) => Got(pages[i][pos..] + rest, j, q)
  {
  }

  lemma CollectOverflow(pages: seq<Page>, pageSize: nat, i: nat, pos: nat, chunk: seq<byte>, rest: seq<byte>, j: nat, q: nat)
    requires AllPages(pages, pageSize) && i + 1 < |pages| && 4 <= pos <= pageSize
    requires pages[i][pos..] == chunk && rest != []
    requires Collect(pages, pageSize, i + 1, 4, |rest|) == Got(rest, j, q)
    ensures Collect(pages, pageSize, i, pos, |chunk + rest|) == Got(chunk + rest, j, q)
  {
    assert |chunk| == pageSize - pos;
    var n := |chunk| + |rest|;
    assert n - (pageSize - pos) == |rest|;
    CollectNext(pages, pageSize, i, pos, n);
  }

  /** Where data overflows, the page is as it was filled and the rest was written behind the next tag. */
  lemma CollectSplit(pages: seq<Page>, o: Out, pageSize: nat, tag: uint32, data: seq<byte>, left: nat) returns (next: Out)
    requires Fits(o, pageSize) && AllPages(pages, pageSize) && o.open != [] && left == pageSize - |o.open| < |data|
    requires Extends(pages, PutData(o, pageSize, tag, data))
    ensures Fits(next, pageSize) && next.open != [] && |next.full| == |o.full| + 1 && |next.open| == 4
    ensures PutData(o, pageSize, tag, data) == PutData(next, pageSize, tag, data[left..])
    ensures |o.full| + 1 < |pages| && pages[|o.full|][|o.open|..] == data[..left]
  {
    var o1 := Out(o.full + [o.open + data[..left]], []);
    next := StartPage(o1, tag);
    PutDataOverflow(o, pageSize, tag, data);
    ExtendsData(pages, next, pageSize, tag, data[left..]);
    ExtendsStart(pages, o1, tag);
    PageFilled(pages, o, pageSize, data[..left]);
  }

  /** Reading as many bytes as were written yields the bytes and ends where the writer stood. */
  lemma {:induction false} CollectData(pages: seq<Page>, o: Out, pageSize: nat, tag: uint32, data: seq<byte>)
    requires Fits(o, pageSize) && AllPages(pages, pageSize) && o.open != [] && data != []
    requires Extends(pages, PutData(o, pageSize, tag, data))
    ensures |o.full| < |pages|
    ensures var r := PutData(o, pageSize, tag, data);
            Collect(pages, pageSize, |o.full|, |o.open|, |data|) == Got(data, |r.full|, |r.open|)
    decreases |data|, |o.open|, 1
  {
    if |data| <= pageSize - |o.open| {
      CollectFitting(pages, o, pageSize, data);
    } else {
      CollectMore(pages, o, pageSize, tag, data, pageSize - |o.open|);
    }
  }

  lemma {:induction false} CollectMore(pages: seq<Page>, o: Out, pageSize: nat, tag: uint32, data: seq<byte>, left: nat)
    requires Fits(o, pageSize) && AllPages(pages, pageSize) && o.open != [] && left == pageSize - |o.open| < |data|
    requires Extends(pages, PutData(o, pageSize, tag, data))
    ensures |o.full| < |pages|
    ensures var r := PutData(o, pageSize, tag, data);
            Collect(pages, pageSize, |o.full|, |o.open|, |data|) == Got(data, |r.full|, |r.open|)
    decreases |data|, |o.open|, 0
  {
    var next := CollectSplit(pages, o, pageSize, tag, data, left);
    var r := PutData(next, pageSize, tag, data[left..]);
    CollectData(pages, next, pageSize, tag, data[left..]);
    CollectOverflow(pages, pageSize, |o.full|, |o.open|, data[..left], data[left..], |r.full|, |r.open|);
    Halves(data, left);
  }

  lemma Halves<T>(s: seq<T>, i: nat)
    requires i <= |s|
    ensures s[..i] + s[i..] == s
  {
  }

  // ------------------------------------------------ the whole log

  /** Recovery from where the writer stood. */
  function ParseFrom(pages: seq<Page>, pageSize: nat, o: Out, tag: uint32): Parsed
    requires AllPages(pages, pageSize) && Fits(o, pageSize) && Extends(pages, o)
  {
    if o.open != [] then Parse(pages, pageSize, |o.full|, |o.open|, tag)
    else if |o.full| < |pages| then Parse(pages, pageSize, |o.full|, 4, tag)
    else Parsed([], true)
  }

  lemma TagOf(pages: seq<Page>, o: Out, tag: uint32)
    requires |o.full| < |pages| && Encode32(tag) <= pages[|o.full|]
    ensures Decode32(pages[|o.full|][..4]) == tag
  {
    assert pages[|o.full|][..4] == Encode32(tag);
    Decode32OfEncode32(tag);
  }

  /** Every page begun carries the tag. */
  ghost predicate Tagged(o: Out, tag: uint32) {
    (o.open != [] ==> Encode32(tag) <= o.open) && forall p <- o.full :: Encode32(tag) <= p
  }

  lemma PadTagged(o: Out, pageSize: nat, tag: uint32)
    requires Fits(o, pageSize) && Tagged(o, tag)
    ensures Tagged(PadPage(o, pageSize), tag) && Fits(PadPage(o, pageSize), pageSize)
  {
  }

  lemma SizeTagged(o: Out, pageSize: nat, tag: uint32, size: uint32)
    requires Fits(o, pageSize) && Tagged(o, tag)
    ensures Tagged(PutSize(o, pageSize, tag, size), tag)
  {
    PadTagged(o, pageSize, tag);
  }

  lemma {:induction false} AllTagged(o: Out, pageSize: nat, tag: uint32, records: seq<Record>)
    requires Fits(o, pageSize) && Tagged(o, tag) && Storable(records)
    ensures Tagged(PutAll(o, pageSize, tag, records), tag)
    decreases |records|
  {
    if records != [] {
      SizeTagged(o, pageSize, tag, |records[0]|);
      DataTagged(PutSize(o, pageSize, tag, |records[0]|), pageSize, tag, records[0]);
      AllTagged(PutRecord(o, pageSize, tag, records[0]), pageSize, tag, records[1..]);
    }
  }

  lemma {:induction false} DataTagged(o: Out, pageSize: nat, tag: uint32, data: seq<byte>)
    requires Fits(o, pageSize) && Tagged(o, tag)
    ensures Tagged(PutData(o, pageSize, tag, data), tag)
    decreases |data|, |o.open|
  {
    if data != [] {
      var o1 := StartPage(o, tag);
      var left := pageSize - |o1.open|;
      if |data| > left {
        DataTagged(Out(o1.full + [o1.open + data[..left]], []), pageSize, tag, data[left..]);
      }
    }
  }

  /** Where the size of the next record goes. */
  function SizeSlot(o: Out, pageSize: nat, tag: uint32): Out
    requires Fits(o, pageSize)
  {
    StartPage(if pageSize - |o.open| < 4 then PadPage(o, pageSize) else o, tag)
  }

  /** At the top of the loop recovery finds its way to the slot of the next size, under the right tag. */
  lemma ParseToSlot(pages: seq<Page>, pageSize: nat, o: Out, tag: uint32, t: uint32)
    requires AllPages(pages, pageSize) && Fits(o, pageSize) && Tagged(o, tag)
    requires Extends(pages, SizeSlot(o, pageSize, tag)) && Extends(pages, o)
    requires o.open != [] ==> t == tag
    ensures var slot := SizeSlot(o, pageSize, tag);
            && |slot.open| <= pageSize - 4
            && ParseFrom(pages, pageSize, o, t) == ParseHere(pages, pageSize, |slot.full|, |slot.open|, tag)
  {
    var slot := SizeSlot(o, pageSize, tag);
    TagOf(pages, slot, tag);
    if o.open != [] {
      TagOf(pages, o, tag);
    }
  }

  /** Recovery reads the record written next and then stands where the writer stood. */
  lemma ParseRecord(pages: seq<Page>, pageSize: nat, o: Out, tag: uint32, t: uint32, record: Record)
    requires AllPages(pages, pageSize) && Fits(o, pageSize) && Tagged(o, tag)
    requires o.open != [] ==> t == tag
    requires 0 < |record| < U32
    requires Extends(pages, PutRecord(o, pageSize, tag, record))
    ensures Extends(pages, o) && Tagged(PutRecord(o, pageSize, tag, record), tag)
    ensures var rest := ParseFrom(pages, pageSize, PutRecord(o, pageSize, tag, record), tag);
            ParseFrom(pages, pageSize, o, t) == Parsed([Entry(record, tag)] + rest.entries, rest.ok)
  {
    var slot := SizeSlot(o, pageSize, tag);
    var sized := PutSize(o, pageSize, tag, |record|);
    assert sized == Out(slot.full, slot.open + Encode32(|record|));
    ExtendsData(pages, sized, pageSize, tag, record);
    ExtendsSize(pages, o, pageSize, tag, |record|);
    SizeStands(pages, slot, |record|);
    ParseToSlot(pages, pageSize, o, tag, t);
    CollectData(pages, sized, pageSize, tag, record);
    var r := PutRecord(o, pageSize, tag, record);
    ParseOne(pages, pageSize, |slot.full|, |slot.open|, tag, record, |r.full|, |r.open|);
    SizeTagged(o, pageSize, tag, |record|);
    DataTagged(sized, pageSize, tag, record);
  }

  /** A size that was written is read back. */
  lemma SizeStands(pages: seq<Page>, slot: Out, size: uint32)
    requires Extends(pages, Out(slot.full, slot.open + Encode32(size)))
    ensures Extends(pages, slot) && |slot.full| < |pages| && |slot.open| + 4 <= |pages[|slot.full|]|
    ensures Decode32(pages[|slot.full|][|slot.open|..|slot.open| + 4]) == size
  {
    ExtendsAppend(pages, slot, Encode32(size));
    SliceAfter(pages[|slot.full|], slot.open, Encode32(size));
    Decode32OfEncode32(size);
  }

  lemma ParseOne(pages: seq<Page>, pageSize: nat, i: nat, pos: nat, tag: uint32, record: Record, j: nat, q: nat)
    requires AllPages(pages, pageSize) && i < |pages| && 4 <= pos <= pageSize - 4 && 0 < |record| < U32
    requires Decode32(pages[i][pos..pos + 4]) == |record| && Collect(pages, pageSize, i, pos + 4, |record|) == Got(record, j, q)
    ensures j < |pages| && 4 <= q <= pageSize
    ensures var rest := Parse(pages, pageSize, j, q, tag);
            ParseHere(pages, pageSize, i, pos, tag) == Parsed([Entry(record, tag)] + rest.entries, rest.ok)
  {
  }

  /** Padding is skipped. */
  lemma ParsePadding(pages: seq<Page>, pageSize: nat, o: Out, tag: uint32)
    requires AllPages(pages, pageSize) && Fits(o, pageSize) && o.open != [] && Tagged(o, tag)
    requires Extends(pages, PadPage(o, pageSize))
    requires |o.full| + 1 < |pages| ==> Encode32(tag) <= pages[|o.full| + 1]
    ensures Extends(pages, o)
    ensures ParseFrom(pages, pageSize, o, tag) == ParseFrom(pages, pageSize, PadPage(o, pageSize), tag)
  {
    var i, pos := |o.full|, |o.open|;
    ExtendsPad(pages, o, pageSize);
    var pad := Zeros(pageSize - pos);
    PageFilled(pages, o, pageSize, pad);
    TagOf(pages, o, tag);
    if pos + 4 <= pageSize {
      assert pages[i][pos..pos + 4] == pages[i][pos..][..4] == [0, 0, 0, 0];
      Decode32Zero(pages[i][pos..pos + 4]);
      assert Parse(pages, pageSize, i, pos, tag) == ParseHere(pages, pageSize, i, pos, tag);
    } else if i + 1 < |pages| {
      TagOf(pages, PadPage(o, pageSize), tag);
    }
  }

  /** The writer finishes the batch at hand and then writes the batches to come. */
  function WriteRest(o: Out, pageSize: nat, tag: uint32, batch: seq<Record>, more: seq<seq<Record>>): (r: Out)
    requires Fits(o, pageSize) && Storable(batch) && forall b <- more :: Storable(b)
    ensures Fits(r, pageSize) && r.open == []
    decreases |more|
  {
    var o1 := PadPage(PutAll(o, pageSize, tag, batch), pageSize);
    if more == [] then o1 else WriteRest(o1, pageSize, tag, more[0], more[1..])
  }

  lemma {:induction false} RestExtends(o: Out, pageSize: nat, tag: uint32, batch: seq<Record>, more: seq<seq<Record>>)
    requires Fits(o, pageSize) && Storable(batch) && Tagged(o, tag) && forall b <- more :: Storable(b)
    ensures var pages := WriteRest(o, pageSize, tag, batch, more).full;
            Extends(pages, PadPage(PutAll(o, pageSize, tag, batch), pageSize)) && forall p <- pages :: Encode32(tag) <= p
    decreases |more|
  {
    var o0 := PutAll(o, pageSize, tag, batch);
    AllTagged(o, pageSize, tag, batch);
    PadTagged(o0, pageSize, tag);
    if more != [] {
      var o1 := PadPage(o0, pageSize);
      var pages := WriteRest(o1, pageSize, tag, more[0], more[1..]).full;
      RestExtends(o1, pageSize, tag, more[0], more[1..]);
      ExtendsPad(pages, PutAll(o1, pageSize, tag, more[0]), pageSize);
      ExtendsAll(pages, o1, pageSize, tag, more[0]);
    }
  }

  function Entries(records: seq<Record>, tag: uint32): (e: seq<Entry>)
    ensures |e| == |records|
  {
    seq(|records|, i requires 0 <= i < |records| => Entry(records[i], tag))
  }

  ghost predicate NonEmpty(records: seq<Record>) {
    forall r <- records :: r != []
  }

  lemma WriteRestHead(o: Out, pageSize: nat, tag: uint32, batch: seq<Record>, more: seq<seq<Record>>)
    requires Fits(o, pageSize) && Storable(batch) && batch != [] && forall b <- more :: Storable(b)
    ensures WriteRest(o, pageSize, tag, batch, more)
            == WriteRest(PutRecord(o, pageSize, tag, batch[0]), pageSize, tag, batch[1..], more)
  {
  }

  lemma WriteRestNext(o: Out, pageSize: nat, tag: uint32, more: seq<seq<Record>>)
    requires Fits(o, pageSize) && more != [] && forall b <- more :: Storable(b)
    ensures Fits(PadPage(o, pageSize), pageSize)
    ensures WriteRest(o, pageSize, tag, [], more)
            == WriteRest(PadPage(o, pageSize), pageSize, tag, more[0], more[1..])
  {
  }

  lemma EntriesCons(r: Record, rest: seq<Record>, tag: uint32)
    ensures Entries([r] + rest, tag) == [Entry(r, tag)] + Entries(rest, tag)
  {
  }

  /** Recovery from `o` yields these records and no failure. */
  ghost predicate Recovers(pages: seq<Page>, pageSize: nat, o: Out, tag: uint32, t: uint32, records: seq<Record>) {
    && AllPages(pages, pageSize) && Fits(o, pageSize) && Extends(pages, o)
    && ParseFrom(pages, pageSize, o, t) == Parsed(Entries(records, tag), true)
  }

  lemma RecoversHead(pages: seq<Page>, pageSize: nat, o: Out, tag: uint32, t: uint32, r: Record, rest: seq<Record>)
    requires Fits(o, pageSize) && Tagged(o, tag) && 0 < |r| < U32
    requires o.open != [] ==> t == tag
    requires Recovers(pages, pageSize, PutRecord(o, pageSize, tag, r), tag, tag, rest)
    ensures Recovers(pages, pageSize, o, tag, t, [r] + rest)
  {
    ParseRecord(pages, pageSize, o, tag, t, r);
    EntriesCons(r, rest, tag);
  }

  /** From any point of the writing on, recovery yields the records still to be written. */
  lemma {:induction false} ParseRest(o: Out, pageSize: nat, tag: uint32, t: uint32, batch: seq<Record>, more: seq<seq<Record>>)
    requires Fits(o, pageSize) && Storable(batch) && Tagged(o, tag) && NonEmpty(batch)
    requires forall b <- more :: Storable(b) && NonEmpty(b)
    requires o.open != [] ==> t == tag
    ensures Recovers(WriteRest(o, pageSize, tag, batch, more).full, pageSize, o, tag, t, batch + Flatten(more))
    decreases |more|, |batch|
  {
    var pages := WriteRest(o, pageSize, tag, batch, more).full;
    if batch != [] {
      var o1 := PutRecord(o, pageSize, tag, batch[0]);
      WriteRestHead(o, pageSize, tag, batch, more);
      SizeTagged(o, pageSize, tag, |batch[0]|);
      DataTagged(PutSize(o, pageSize, tag, |batch[0]|), pageSize, tag, batch[0]);
      forall r <- batch[1..] ensures r in batch {
      }
      ParseRest(o1, pageSize, tag, tag, batch[1..], more);
      RecoversHead(pages, pageSize, o, tag, t, batch[0], batch[1..] + Flatten(more));
      HeadFirst(batch, Flatten(more));
    } else {
      ParseBatchEnd(o, pageSize, tag, t, more);
      assert batch + Flatten(more) == Flatten(more);
      if more != [] {
        WriteRestNext(o, pageSize, tag, more);
        PadTagged(o, pageSize, tag);
        ParseRest(PadPage(o, pageSize), pageSize, tag, t, more[0], more[1..]);
      }
    }
  }

  /** At the end of a batch recovery skips to the next page, or stops behind the last one. */
  lemma ParseBatchEnd(o: Out, pageSize: nat, tag: uint32, t: uint32, more: seq<seq<Record>>)
    requires Fits(o, pageSize) && Tagged(o, tag) && forall b <- more :: Storable(b)
    requires o.open != [] ==> t == tag
    ensures var pages := WriteRest(o, pageSize, tag, [], more).full;
            && Extends(pages, o) && Extends(pages, PadPage(o, pageSize))
            && ParseFrom(pages, pageSize, o, t) == ParseFrom(pages, pageSize, PadPage(o, pageSize), t)
            && (more == [] ==> ParseFrom(pages, pageSize, o, t) == Parsed([], true))
  {
    var pages := WriteRest(o, pageSize, tag, [], more).full;
    RestExtends(o, pageSize, tag, [], more);
    ExtendsPad(pages, o, pageSize);
    if o.open != [] {
      assert |o.full| + 1 < |pages| ==> pages[|o.full| + 1] in pages;
      ParsePadding(pages, pageSize, o, tag);
    }
  }

  // ------------------------------------------------ batches are written separately

  lemma {:induction false} ShiftData(pre: seq<Page>, o: Out, pageSize: nat, tag: uint32, data: seq<byte>)
    requires Fits(o, pageSize) && Fits(Out(pre + o.full, o.open), pageSize)
    ensures var r := PutData(o, pageSize, tag, data);
            PutData(Out(pre + o.full, o.open), pageSize, tag, data) == Out(pre + r.full, r.open)
    decreases |data|, |o.open|
  {
    if data != [] {
      var o1 := StartPage(o, tag);
      var left := pageSize - |o1.open|;
      if |data| > left {
        var chunk := [o1.open + data[..left]];
        Assoc(pre, o1.full, chunk);
        ShiftData(pre, Out(o1.full + chunk, []), pageSize, tag, data[left..]);
        PutDataNext(o, pageSize, tag, data);
        PutDataNext(Out(pre + o.full, o.open), pageSize, tag, data);
      } else {
        PutDataLast(o, pageSize, tag, data);
        PutDataLast(Out(pre + o.full, o.open), pageSize, tag, data);
      }
    }
  }

  lemma ShiftPad(pre: seq<Page>, o: Out, pageSize: nat)
    requires |o.open| <= pageSize
    ensures var r := PadPage(o, pageSize); PadPage(Out(pre + o.full, o.open), pageSize) == Out(pre + r.full, r.open)
  {
    if o.open != [] {
      var last := [o.open + Zeros(pageSize - |o.open|)];
      assert pre + (o.full + last) == (pre + o.full) + last;
    }
  }

  lemma {:induction false} ShiftAll(pre: seq<Page>, o: Out, pageSize: nat, tag: uint32, records: seq<Record>)
    requires Fits(o, pageSize) && Fits(Out(pre + o.full, o.open), pageSize) && Storable(records)
    ensures var r := PutAll(o, pageSize, tag, records);
            PutAll(Out(pre + o.full, o.open), pageSize, tag, records) == Out(pre + r.full, r.open)
    decreases |records|
  {
    if records != [] {
      ShiftPad(pre, o, pageSize);
      var sized := PutSize(o, pageSize, tag, |records[0]|);
      assert PutSize(Out(pre + o.full, o.open), pageSize, tag, |records[0]|) == Out(pre + sized.full, sized.open);
      ShiftData(pre, sized, pageSize, tag, records[0]);
      ShiftAll(pre, PutRecord(o, pageSize, tag, records[0]), pageSize, tag, records[1..]);
    }
  }

  lemma BatchBehind(pre: seq<Page>, pageSize: nat, tag: uint32, batch: seq<Record>)
    requires Fits(Out(pre, []), pageSize) && Storable(batch)
    ensures PadPage(PutAll(Out(pre, []), pageSize, tag, batch), pageSize) == Out(pre + BatchPages(pageSize, tag, batch), [])
    ensures forall p <- BatchPages(pageSize, tag, batch) :: |p| == pageSize
  {
    assert pre + [] == pre;
    ShiftAll(pre, Empty, pageSize, tag, batch);
    ShiftPad(pre, PutAll(Empty, pageSize, tag, batch), pageSize);
  }

  lemma WriteRestMore(o: Out, pageSize: nat, tag: uint32, batch: seq<Record>, more: seq<seq<Record>>)
    requires Fits(o, pageSize) && Storable(batch) && more != [] && forall b <- more :: Storable(b)
    ensures var o1 := PadPage(PutAll(o, pageSize, tag, batch), pageSize);
            Fits(o1, pageSize) && WriteRest(o, pageSize, tag, batch, more) == WriteRest(o1, pageSize, tag, more[0], more[1..])
  {
  }

  /** Writing batch after batch into one log gives the pages of the batches one after the other. */
  lemma {:induction false} WriteRestIsLogPages(pre: seq<Page>, pageSize: nat, tag: uint32, batch: seq<Record>, more: seq<seq<Record>>)
    requires Fits(Out(pre, []), pageSize) && Storable(batch) && forall b <- more :: Storable(b)
    ensures WriteRest(Out(pre, []), pageSize, tag, batch, more).full
            == pre + (BatchPages(pageSize, tag, batch) + LogPages(pageSize, tag, more))
    decreases |more|
  {
    var pages, later := BatchPages(pageSize, tag, batch), LogPages(pageSize, tag, more);
    BatchBehind(pre, pageSize, tag, batch);
    Assoc(pre, pages, later);
    if more != [] {
      WriteRestMore(Out(pre, []), pageSize, tag, batch, more);
      forall p <- pre + pages ensures |p| == pageSize {
      }
      WriteRestIsLogPages(pre + pages, pageSize, tag, more[0], more[1..]);
    }
  }

  lemma {:induction false} LogPagesAreWhole(pageSize: nat, tag: uint32, batches: seq<seq<Record>>)
    requires 8 <= pageSize && forall b <- batches :: Storable(b)
    ensures AllPages(LogPages(pageSize, tag, batches), pageSize)
  {
    if batches != [] {
      LogPagesAreWhole(pageSize, tag, batches[1..]);
    }
  }

  lemma RecoverNonEmpty(pageSize: nat, tag: uint32, batches: seq<seq<Record>>)
    requires 8 <= pageSize && forall b <- batches :: Storable(b) && NonEmpty(b)
    ensures AllPages(LogPages(pageSize, tag, batches), pageSize)
    ensures ParseAll(LogPages(pageSize, tag, batches), pageSize) == Parsed(Entries(Flatten(batches), tag), true)
  {
    LogPagesAreWhole(pageSize, tag, batches);
    if batches != [] {
      WriteRestIsLogPages([], pageSize, tag, batches[0], batches[1..]);
      assert [] + LogPages(pageSize, tag, batches) == LogPages(pageSize, tag, batches);
      ParseRest(Empty, pageSize, tag, 0, batches[0], batches[1..]);
    }
  }

  /** Whatever is on the pages, recovery never yields an empty record. */
  lemma {:induction false} EntriesNonEmpty(pages: seq<Page>, pageSize: nat, i: nat, pos: nat, tag: uint32, here: bool)
    requires AllPages(pages, pageSize) && i < |pages| && 4 <= pos <= pageSize && (here ==> pos <= pageSize - 4)
    ensures var p := if here then ParseHere(pages, pageSize, i, pos, tag) else Parse(pages, pageSize, i, pos, tag);
            forall e <- p.entries :: e.data != []
    decreases |pages| - i, pageSize - pos, if here then 0 else 1
  {
    if !here {
      var t := if pos == 4 then Decode32(pages[i][..4]) else tag;
      if pageSize - pos >= 4 {
        EntriesNonEmpty(pages, pageSize, i, pos, t, true);
      } else if i + 1 < |pages| {
        EntriesNonEmpty(pages, pageSize, i + 1, 4, t, true);
      }
    } else {
      var size := Decode32(pages[i][pos..pos + 4]);
      if size == 0 {
        if i + 1 < |pages| {
          EntriesNonEmpty(pages, pageSize, i + 1, 4, tag, false);
        }
      } else {
        var c := Collect(pages, pageSize, i, pos + 4, size);
        if c.Got? {
          EntriesNonEmpty(pages, pageSize, c.page, c.pos, tag, false);
        }
      }
    }
  }

  lemma FlattenMembers(batches: seq<seq<Record>>, b: seq<Record>, r: Record)
    requires b in batches && r in b
    ensures r in Flatten(batches)
  {
    if batches[0] != b {
      FlattenMembers(batches[1..], b, r);
    }
  }

  /**
   The round trip. For any batches under one tag, whatever their sizes, page crossings and padding,
   recovery yields exactly the records in chain order under that tag, without tripping over an
   assertion, if and only if no record is empty: an empty record's size reads as padding.
   */
  lemma RoundTrip(pageSize: nat, tag: uint32, batches: seq<seq<Record>>)
    requires 8 <= pageSize && forall b <- batches :: Storable(b)
    ensures AllPages(LogPages(pageSize, tag, batches), pageSize)
    ensures ParseAll(LogPages(pageSize, tag, batches), pageSize) == Parsed(Entries(Flatten(batches), tag), true)
            <==> forall b <- batches :: NonEmpty(b)
  {
    var pages := LogPages(pageSize, tag, batches);
    LogPagesAreWhole(pageSize, tag, batches);
    if forall b <- batches :: NonEmpty(b) {
      RecoverNonEmpty(pageSize, tag, batches);
    } else {
      var b: seq<Record> :| b in batches && [] in b;
      FlattenMembers(batches, b, []);
      var all := Flatten(batches);
      var k :| 0 <= k < |all| && all[k] == [];
      assert Entries(all, tag)[k].data == [];
      if pages != [] {
        EntriesNonEmpty(pages, pageSize, 0, 4, 0, false);
      }
    }
  }
}
