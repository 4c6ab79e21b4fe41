/** Objects: data blocks, index block and footer; the writer that uploads them in parts. */
module ObjectFormat {
  import opened Records
  import opened DataBlocks
  import opened Codec

  const FOOTER_SIZE: nat := 48
  const FOOTER_MAGIC: nat := 0x88E2_41B7_85F4_CFF7
  const MIN_PART_SIZE: nat := 5 * 1024 * 1024

  /** One sealed data block: records of one stream. */
  datatype DataBlock = DataBlock(streamId: nat, records: seq<Record>) {
    function Start(): nat
      requires records != []
    {
      records[0].baseOffset
    }

    function End(): nat
      requires records != []
    {
      records[|records| - 1].LastOffset()
    }
  }

  /** Records of one stream at ascending offsets, none empty. */
  predicate InOrder(rs: seq<Record>, streamId: nat) {
    && (forall i :: 0 <= i < |rs| ==> rs[i].streamId == streamId && rs[i].count > 0)
    && (forall i, j :: 0 <= i < j < |rs| ==> rs[i].LastOffset() <= rs[j].baseOffset)
  }

  /** A block whose 32-bit fields do not overflow. */
  predicate BlockFits(b: DataBlock) {
    && BlockEncodable(b.records) && InOrder(b.records, b.streamId)
    && b.End() - b.Start() < U32 && |EncodeDataBlock(b.records)| < U32
  }

  predicate AllFit(blocks: seq<DataBlock>) {
    forall i :: 0 <= i < |blocks| ==> BlockFits(blocks[i])
  }

  function DataOf(blocks: seq<DataBlock>): Bytes
    requires AllFit(blocks)
  {
    if blocks == [] then []
    else DataOf(blocks[..|blocks| - 1]) + EncodeDataBlock(blocks[|blocks| - 1].records)
  }

  function EntryOf(b: DataBlock, position: nat): DataBlockIndex
    requires BlockFits(b)
  {
    DataBlockIndex(b.streamId, b.Start(), b.End() - b.Start(), |b.records|, position, |EncodeDataBlock(b.records)|)
  }

  function IndexOf(blocks: seq<DataBlock>): (es: seq<DataBlockIndex>)
    requires AllFit(blocks)
    ensures |es| == |blocks|
  {
    if blocks == [] then []
    else
      var n := |blocks| - 1;
      IndexOf(blocks[..n]) + [EntryOf(blocks[n], |DataOf(blocks[..n])|)]
  }

  function RecordsOf(blocks: seq<DataBlock>): seq<Record> {
    if blocks == [] then [] else RecordsOf(blocks[..|blocks| - 1]) + blocks[|blocks| - 1].records
  }

  function Zeros(n: nat): (b: Bytes)
    ensures |b| == n
  {
    seq(n, _ => 0)
  }

  function Footer(indexPosition: nat, indexSize: nat): (b: Bytes)
    ensures |b| == FOOTER_SIZE
  {
    Put(8, indexPosition) + Put(4, indexSize) + Zeros(28) + Put(8, FOOTER_MAGIC)
  }

  function ObjectBytes(blocks: seq<DataBlock>): Bytes
    requires AllFit(blocks)
  {
    var index := EncodeIndexes(IndexOf(blocks));
    DataOf(blocks) + index + Footer(|DataOf(blocks)|, |index|)
  }

  // ---- Blocks in sequence ------------------------------------------------------------------------------

  lemma DataPush(blocks: seq<DataBlock>, x: DataBlock)
    requires AllFit(blocks) && BlockFits(x)
    ensures AllFit(blocks + [x]) && BlockEncodable(x.records)
    ensures DataOf(blocks + [x]) == DataOf(blocks) + EncodeDataBlock(x.records)
  {
    hide EncodeDataBlock, InOrder, BlockEncodable;
    assert (blocks + [x])[..|blocks|] == blocks;
  }

  lemma JoinAssoc(a: Bytes, b: Bytes, c: Bytes)
    ensures a + b + c == a + (b + c)
  {
  }

  lemma {:induction false} DataConcat(a: seq<DataBlock>, b: seq<DataBlock>)
    requires AllFit(a) && AllFit(b)
    ensures AllFit(a + b) && DataOf(a + b) == DataOf(a) + DataOf(b)
  {
    hide BlockFits, EncodeDataBlock;
    if b == [] {
      assert a + b == a;
    } else {
      hide DataOf;
      var init, x := b[..|b| - 1], b[|b| - 1];
      assert b == init + [x] && a + b == (a + init) + [x];
      DataConcat(a, init);
      DataPush(init, x);
      DataPush(a + init, x);
      JoinAssoc(DataOf(a), DataOf(init), EncodeDataBlock(x.records));
    }
  }

  lemma {:induction false} RecordsConcat(a: seq<DataBlock>, b: seq<DataBlock>)
    ensures RecordsOf(a + b) == RecordsOf(a) + RecordsOf(b)
  {
    if b == [] {
      assert a + b == a;
    } else {
      assert (a + b)[..|a + b| - 1] == a + b[..|b| - 1];
      RecordsConcat(a, b[..|b| - 1]);
    }
  }

  /** Where a block's bytes lie in the object. */
  lemma {:induction false} EntryAtBlock(blocks: seq<DataBlock>, k: nat)
    requires AllFit(blocks) && k < |blocks|
    ensures var e := IndexOf(blocks)[k];
            && e == EntryOf(blocks[k], |DataOf(blocks[..k])|)
            && e.EndPosition() <= |DataOf(blocks)|
            && DataOf(blocks)[e.position..e.EndPosition()] == EncodeDataBlock(blocks[k].records)
  {
    hide BlockFits, EncodeDataBlock, IndexOf, DataOf;
    var n := |blocks| - 1;
    assert blocks[..n + 1] == blocks;
    IndexNext(blocks, n);
    var data, last := DataOf(blocks[..n]), EncodeDataBlock(blocks[n].records);
    if k < n {
      EntryAtBlock(blocks[..n], k);
      assert blocks[..n][..k] == blocks[..k];
      var e := IndexOf(blocks[..n])[k];
      assert (data + last)[e.position..e.EndPosition()] == data[e.position..e.EndPosition()];
    } else {
      assert (data + last)[|data|..|data| + |last|] == last;
    }
  }

  lemma IndexNext(blocks: seq<DataBlock>, i: nat)
    requires AllFit(blocks) && i < |blocks|
    ensures BlockEncodable(blocks[i].records)
    ensures IndexOf(blocks[..i + 1]) == IndexOf(blocks[..i]) + [EntryOf(blocks[i], |DataOf(blocks[..i])|)]
    ensures DataOf(blocks[..i + 1]) == DataOf(blocks[..i]) + EncodeDataBlock(blocks[i].records)
  {
    hide EncodeDataBlock, InOrder, BlockEncodable;
    assert BlockFits(blocks[i]);
    assert blocks[..i + 1][..i] == blocks[..i];
  }

  /** Any run of consecutive blocks decodes to its records, in order. */
  lemma {:induction false} DecodeBlocks(blocks: seq<DataBlock>)
    requires AllFit(blocks)
    ensures Decode(DataOf(blocks)) == Ok(RecordsOf(blocks))
  {
    hide Decode, EncodeDataBlock;
    if blocks == [] {
      DecodeNothing();
    } else {
      var n := |blocks| - 1;
      DecodeBlocks(blocks[..n]);
      var last := EncodeDataBlock(blocks[n].records);
      DecodeOne(blocks[n].records);
      DecodeConcat(DataOf(blocks[..n]), last);
    }
  }

  lemma DecodeNothing()
    ensures Decode([]) == Ok([])
  {
  }

  lemma DecodeOne(rs: seq<Record>)
    requires BlockEncodable(rs)
    ensures Decode(EncodeDataBlock(rs)) == Ok(rs)
  {
    hide Decode, EncodeDataBlock;
    BlockRoundTrip(rs, []);
    assert EncodeDataBlock(rs) + [] == EncodeDataBlock(rs);
    DecodeNothing();
    assert rs + [] == rs;
  }

  // ---- Reading the footer and the index ----------------------------------------------------------------

  datatype Info = Info(dataSize: nat, index: seq<DataBlockIndex>)

  /** What a reader demands of an object: its size, the magic, and the geometry of the index. */
  predicate WellFormed(obj: Bytes) {
    && |obj| >= FOOTER_SIZE
    && var footer := obj[|obj| - FOOTER_SIZE..];
       && Get(footer[40..48]) == FOOTER_MAGIC
       && Get(footer[0..8]) + Get(footer[8..12]) + FOOTER_SIZE == |obj|
       && Get(footer[8..12]) % BLOCK_INDEX_SIZE == 0
  }

  /** The data size the footer announces. */
  function StoredDataSize(obj: Bytes): (position: nat)
    requires WellFormed(obj)
    ensures position <= |obj|
  {
    Get(obj[|obj| - FOOTER_SIZE..][0..8])
  }

  function IndexSection(obj: Bytes): Bytes
    requires WellFormed(obj)
  {
    obj[StoredDataSize(obj)..|obj| - FOOTER_SIZE]
  }

  /** The index as a reader decodes it from the object's bytes. */
  function StoredIndex(obj: Bytes): (es: seq<DataBlockIndex>)
    requires WellFormed(obj)
  {
    var section := IndexSection(obj);
    seq(|section| / BLOCK_INDEX_SIZE, i requires 0 <= i < |section| / BLOCK_INDEX_SIZE =>
      DecodeIndex(section[i * BLOCK_INDEX_SIZE..]).value)
  }

  method BasicObjectInfo(obj: Bytes) returns (r: Result<Info>)
    ensures r.Ok? <==> WellFormed(obj)
    ensures r.Ok? ==> r.value == Info(StoredDataSize(obj), StoredIndex(obj))
  {
    hide Get, EntryAt;
    if |obj| < FOOTER_SIZE {
      return Err(BadFormat);
    }
    var footer := obj[|obj| - FOOTER_SIZE..];
    if Get(footer[40..48]) != FOOTER_MAGIC {
      return Err(BadFormat);
    }
    var position, size := Get(footer[0..8]), Get(footer[8..12]);
    if position + size + FOOTER_SIZE != |obj| {
      return Err(BadFormat);
    }
    var entries := ParseIndexBlock(obj[position..position + size]);
    if entries.Err? {
      return Err(entries.error);
    }
    StoredIndexIs(obj, entries.value);
    r := Ok(Info(position, entries.value));
  }

  lemma StoredIndexIs(obj: Bytes, es: seq<DataBlockIndex>)
    requires WellFormed(obj) && |es| == |IndexSection(obj)| / BLOCK_INDEX_SIZE
    requires forall i :: 0 <= i < |es| ==> EntryAt(IndexSection(obj), i) == Ok(es[i])
    ensures StoredIndex(obj) == es
  {
    hide Get, DecodeIndex;
    assert forall i :: 0 <= i < |es| ==> EntryAt(IndexSection(obj), i) == Ok(es[i]) && StoredIndex(obj)[i] == es[i];
  }

  lemma FooterFields(position: nat, size: nat)
    requires position < U64 && size < U32
    ensures var f := Footer(position, size);
            Get(f[0..8]) == position && Get(f[8..12]) == size && Get(f[40..48]) == FOOTER_MAGIC
  {
    hide Put, Get;
    var p, s, z, m := Put(8, position), Put(4, size), Zeros(28), Put(8, FOOTER_MAGIC);
    var f := Footer(position, size);
    assert f == [] + p + (s + z + m) && f == p + s + (z + m) && f == (p + s + z) + m + [];
    Field([], p, s + z + m);
    Field(p, s, z + m);
    Field(p + s + z, m, []);
    Long(position);
    Word(size);
    Long(FOOTER_MAGIC);
  }

  /** An object small enough for its 64-bit positions and its 32-bit index size. */
  predicate ObjectFits(blocks: seq<DataBlock>) {
    && AllFit(blocks) && |DataOf(blocks)| < U64 && |blocks| * BLOCK_INDEX_SIZE < U32
    && forall i :: 0 <= i < |blocks| ==> blocks[i].streamId < U64
  }

  lemma IndexEncodes(blocks: seq<DataBlock>)
    requires ObjectFits(blocks)
    ensures AllIndexEncodable(IndexOf(blocks))
  {
    hide EncodeDataBlock, IndexOf, DataOf;
    forall k: nat | k < |blocks| ensures IndexEncodable(IndexOf(blocks)[k]) {
      EntryAtBlock(blocks, k);
      assert Encodable(blocks[k].records[0]);
    }
  }

  /** An index whose entries fit their widths reads back from behind any data section. */
  lemma ReadBack(data: Bytes, es: seq<DataBlockIndex>)
    requires AllIndexEncodable(es) && |data| < U64 && |es| * BLOCK_INDEX_SIZE < U32
    ensures var obj := data + EncodeIndexes(es) + Footer(|data|, |EncodeIndexes(es)|);
            WellFormed(obj) && StoredDataSize(obj) == |data| && StoredIndex(obj) == es
  {
    hide Get, EntryAt, EncodeIndexes, Footer, AllIndexEncodable;
    var index := EncodeIndexes(es);
    var footer := Footer(|data|, |index|);
    var obj := data + index + footer;
    assert obj[|obj| - FOOTER_SIZE..] == footer;
    FooterFields(|data|, |index|);
    Field(data, index, footer);
    assert IndexSection(obj) == index;
    forall i: nat | i < |es| ensures EntryAt(index, i) == Ok(es[i]) {
      EntryRoundTrip(es, [], i);
      assert index + [] == index;
    }
    StoredIndexIs(obj, es);
  }

  /** Reading back a written object yields exactly the written index. */
  lemma ObjectRoundTrip(blocks: seq<DataBlock>)
    requires ObjectFits(blocks)
    ensures var obj := ObjectBytes(blocks);
            WellFormed(obj) && StoredDataSize(obj) == |DataOf(blocks)| && StoredIndex(obj) == IndexOf(blocks)
  {
    hide EncodeDataBlock, IndexOf, DataOf, EncodeIndexes, Footer, WellFormed, StoredIndex, StoredDataSize;
    IndexEncodes(blocks);
    ReadBack(DataOf(blocks), IndexOf(blocks));
  }

  /** The bytes at an index entry decode to the records of its block. */
  lemma EntryDecodesToBlock(blocks: seq<DataBlock>, k: nat)
    requires AllFit(blocks) && k < |blocks|
    ensures var e := IndexOf(blocks)[k];
            && e.EndPosition() <= |ObjectBytes(blocks)|
            && Decode(ObjectBytes(blocks)[e.position..e.EndPosition()]) == Ok(blocks[k].records)
  {
    hide EncodeDataBlock, IndexOf, DataOf, EncodeIndexes, Footer, Decode;
    EntryAtBlock(blocks, k);
    DecodeOne(blocks[k].records);
    var e, data, obj := IndexOf(blocks)[k], DataOf(blocks), ObjectBytes(blocks);
    assert obj[e.position..e.EndPosition()] == data[e.position..e.EndPosition()];
  }

  // ---- Order -------------------------------------------------------------------------------------------

  /** Streams ascend; within a stream blocks do not overlap. */
  predicate BlockBefore(a: DataBlock, b: DataBlock)
    requires a.records != [] && b.records != []
  {
    a.streamId < b.streamId || (a.streamId == b.streamId && a.End() <= b.Start())
  }

  predicate MeetAt(blocks: seq<DataBlock>, k: int) {
    0 < k < |blocks| && blocks[k - 1].records != [] && blocks[k].records != [] && BlockBefore(blocks[k - 1], blocks[k])
  }

  predicate BlocksInOrder(blocks: seq<DataBlock>) {
    forall i :: 0 < i < |blocks| ==> MeetAt(blocks, i)
  }

  predicate EntryBefore(a: DataBlockIndex, b: DataBlockIndex) {
    a.streamId < b.streamId || (a.streamId == b.streamId && a.End() <= b.start)
  }

  /** A searchable index: sorted, non-overlapping, no empty entry. */
  predicate SortedIndex(es: seq<DataBlockIndex>) {
    && (forall i :: 0 <= i < |es| ==> es[i].delta > 0)
    && (forall i :: 0 < i < |es| ==> EntryBefore(es[i - 1], es[i]))
  }

  /** Ordered blocks give a sorted index. */
  lemma WrittenIndexSorted(blocks: seq<DataBlock>)
    requires AllFit(blocks) && BlocksInOrder(blocks)
    ensures SortedIndex(IndexOf(blocks))
  {
    hide EncodeDataBlock, IndexOf, DataOf;
    var es := IndexOf(blocks);
    forall k: nat | k < |es|
      ensures es[k].streamId == blocks[k].streamId && es[k].start == blocks[k].Start() && es[k].End() == blocks[k].End()
      ensures es[k].delta > 0
    {
      EntryAtBlock(blocks, k);
      Forward(blocks[k]);
    }
    forall i | 0 < i < |es| ensures EntryBefore(es[i - 1], es[i]) {
      assert MeetAt(blocks, i);
    }
  }

  lemma Forward(b: DataBlock)
    requires BlockFits(b)
    ensures b.Start() < b.End()
  {
    var n := |b.records| - 1;
    assert b.records[0].count > 0 && b.records[n].count > 0;
    if n > 0 {
      assert b.records[0].LastOffset() <= b.records[n].baseOffset;
    }
  }
}
