/**
 The page format of the write-ahead log, on values.

 A page starts with the tag of its log file. Records follow, each as a 4-byte size and its bytes.
 The bytes run across pages; a size never does, so up to three bytes at the end of a page may be
 skipped. A batch is padded with zeros to a whole number of pages.

 `PutRecord` and `Seal` say what the writer appends; `Parse` says what recovery reads.
 */
module WalFormat {
  import opened Fixed

  type Page = seq<byte>
  type Record = seq<byte>

  /** The writer's output: finished pages and the bytes of the page being filled. */
  datatype Out = Out(full: seq<Page>, open: seq<byte>)

  const Empty: Out := Out([], [])

  /** Room for a tag and a size is what the format needs of a page. */
  ghost predicate Fits(o: Out, pageSize: nat) {
    && 8 <= pageSize
    && |o.open| <= pageSize
    && (o.open != [] ==> 4 <= |o.open|)
    && (forall p <- o.full :: |p| == pageSize)
  }

  function Zeros(n: nat): (z: seq<byte>)
    ensures |z| == n
  {
    seq(n, _ => 0)
  }

  /** Fill the page being written, if any, with zeros. */
  function PadPage(o: Out, pageSize: nat): Out
    requires |o.open| <= pageSize
  {
    if o.open == [] then o else Out(o.full + [o.open + Zeros(pageSize - |o.open|)], [])
  }

  /** At the beginning of a page, put the tag. */
  function StartPage(o: Out, tag: uint32): Out {
    if o.open == [] then Out(o.full, Encode32(tag)) else o
  }

  function PutSize(o: Out, pageSize: nat, tag: uint32, size: uint32): Out
    requires Fits(o, pageSize)
  {
    var o1 := StartPage(if pageSize - |o.open| < 4 then PadPage(o, pageSize) else o, tag);
    Out(o1.full, o1.open + Encode32(size))
  }

  function PutData(o: Out, pageSize: nat, tag: uint32, data: seq<byte>): (r: Out)
    requires Fits(o, pageSize)
    ensures Fits(r, pageSize)
    ensures data != [] ==> r.open != []
    decreases |data|, |o.open|
  {
    if data == [] then o
    else
      var o1 := StartPage(o, tag);
      var left := pageSize - |o1.open|;
      if |data| <= left then Out(o1.full, o1.open + data)
      else PutData(Out(o1.full + [o1.open + data[..left]], []), pageSize, tag, data[left..])
  }

  function PutRecord(o: Out, pageSize: nat, tag: uint32, record: Record): (r: Out)
    requires Fits(o, pageSize) && |record| < U32
    ensures Fits(r, pageSize)
  {
    PutData(PutSize(o, pageSize, tag, |record|), pageSize, tag, record)
  }

  predicate Storable(records: seq<Record>) {
    forall r <- records :: |r| < U32
  }

  function PutAll(o: Out, pageSize: nat, tag: uint32, records: seq<Record>): (r: Out)
    requires Fits(o, pageSize) && Storable(records)
    ensures Fits(r, pageSize)
    decreases |records|
  {
    if records == [] then o
    else PutAll(PutRecord(o, pageSize, tag, records[0]), pageSize, tag, records[1..])
  }

  /** The pages of one batch. */
  function BatchPages(pageSize: nat, tag: uint32, records: seq<Record>): seq<Page>
    requires 8 <= pageSize && Storable(records)
  {
    PadPage(PutAll(Empty, pageSize, tag, records), pageSize).full
  }

  /** The pages of batches written one after the other. */
  function LogPages(pageSize: nat, tag: uint32, batches: seq<seq<Record>>): seq<Page>
    requires 8 <= pageSize && forall b <- batches :: Storable(b)
  {
    if batches == [] then []
    else BatchPages(pageSize, tag, batches[0]) + LogPages(pageSize, tag, batches[1..])
  }

  function Flatten<T>(s: seq<seq<T>>): seq<T> {
    if s == [] then [] else s[0] + Flatten(s[1..])
  }

  // ---------------------------------------------------------------- reading

  /** A recovered record with the tag it was read under. */
  datatype Entry = Entry(data: seq<byte>, tag: uint32)

  /** `ok` is false when recovery runs into its assertion that a started record has a next page. */
  datatype Parsed = Parsed(entries: seq<Entry>, ok: bool)

  datatype Collected = Short | Got(data: seq<byte>, page: nat, pos: nat)

  predicate AllPages(pages: seq<Page>, pageSize: nat) {
    8 <= pageSize && forall p <- pages :: |p| == pageSize
  }

  /** The next `n` bytes from a position on, skipping the tags of the pages entered. */
  function Collect(pages: seq<Page>, pageSize: nat, i: nat, pos: nat, n: nat): (c: Collected)
    requires AllPages(pages, pageSize) && i < |pages| && 4 <= pos <= pageSize
    ensures c.Got? ==> |c.data| == n && i <= c.page < |pages| && 4 <= c.pos <= pageSize
    ensures c.Got? && c.page == i ==> c.pos == pos + n
    decreases |pages| - i
  {
    var left := pageSize - pos;
    if left >= n then Got(pages[i][pos..pos + n], i, pos + n)
    else if i + 1 == |pages| then Short
    else
      match Collect(pages, pageSize, i + 1, 4, n - left)
      case Short => Short
      case Got(rest, j, q) => Got(pages[i][pos..] + rest, j, q)
  }

  /** From the top of recovery's loop: page `i`, position `pos`, tag noted last. */
  function Parse(pages: seq<Page>, pageSize: nat, i: nat, pos: nat, tag: uint32): Parsed
    requires AllPages(pages, pageSize) && i < |pages| && 4 <= pos <= pageSize
    decreases |pages| - i, pageSize - pos, 1
  {
    var t := if pos == 4 then Decode32(pages[i][..4]) else tag;
    if pageSize - pos < 4 then
      if i + 1 == |pages| then Parsed([], true) else ParseHere(pages, pageSize, i + 1, 4, t)
    else
      ParseHere(pages, pageSize, i, pos, t)
  }

  /** From the point where the size is read. */
  function ParseHere(pages: seq<Page>, pageSize: nat, i: nat, pos: nat, tag: uint32): Parsed
    requires AllPages(pages, pageSize) && i < |pages| && 4 <= pos <= pageSize - 4
    decreases |pages| - i, pageSize - pos, 0
  {
    var size := Decode32(pages[i][pos..pos + 4]);
    if size == 0 then
      if i + 1 == |pages| then Parsed([], true) else Parse(pages, pageSize, i + 1, 4, tag)
    else
      match Collect(pages, pageSize, i, pos + 4, size)
      case Short => Parsed([], false)
      case Got(data, j, q) =>
        var rest := Parse(pages, pageSize, j, q, tag);
        Parsed([Entry(data, tag)] + rest.entries, rest.ok)
  }

  function ParseAll(pages: seq<Page>, pageSize: nat): Parsed
    requires AllPages(pages, pageSize)
  {
    if pages == [] then Parsed([], true) else Parse(pages, pageSize, 0, 4, 0)
  }
}
