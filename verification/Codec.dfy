/** Big-endian fields, encoded record batches, data blocks and index entries. */
module Codec {
  import opened Records
  import opened DataBlocks

  datatype Error = TooShort | BadMagic | BadCrc | BadFormat
  datatype Result<+T> = Ok(value: T) | Err(error: Error)

  type Bytes = seq<byte>

  // ---- Big-endian integers ---------------------------------------------------------------------------

  function Pow256(w: nat): nat {
    if w == 0 then 1 else 256 * Pow256(w - 1)
  }

  /** `n` in `w` bytes, most significant first; excess high bits are cut off. */
  function Put(w: nat, n: nat): (b: Bytes)
    ensures |b| == w
  {
    if w == 0 then [] else Put(w - 1, n / 256) + [n % 256]
  }

  function Get(b: Bytes): nat {
    if b == [] then 0 else Get(b[..|b| - 1]) * 256 + b[|b| - 1]
  }

  lemma {:induction false} PutGet(w: nat, n: nat)
    requires n < Pow256(w)
    ensures Get(Put(w, n)) == n
  {
    if w > 0 {
      PutGet(w - 1, n / 256);
      assert Put(w, n)[..w - 1] == Put(w - 1, n / 256);
    }
  }

  const U64: nat := 0x1_0000_0000_0000_0000

  lemma Widths()
    ensures Pow256(4) == U32 && Pow256(8) == U64
  {
    assert Pow256(2) == 65536;
    assert Pow256(4) == 65536 * 65536 by { assert Pow256(3) == 256 * 65536; }
    assert Pow256(6) == 65536 * Pow256(4) by { assert Pow256(5) == 256 * Pow256(4); }
    assert Pow256(7) == 256 * Pow256(6);
  }

  lemma Word(n: nat)
    requires n < U32
    ensures Get(Put(4, n)) == n
  {
    Widths();
    PutGet(4, n);
  }

  lemma Long(n: nat)
    requires n < U64
    ensures Get(Put(8, n)) == n
  {
    Widths();
    PutGet(8, n);
  }

  /** Two's complement of a 32-bit signed integer. */
  function FromI32(n: int): nat
    requires -0x8000_0000 <= n < 0x8000_0000
  {
    if n < 0 then n + U32 else n
  }

  function ToI32(n: nat): int { if n < 0x8000_0000 then n else n - U32 }

  // ---- Record batches ----------------------------------------------------------------------------------

  const MAGIC_V0: byte := 0x22

  /** What fits the encoded header: 64-bit ids and offsets, a signed 32-bit count and length. */
  predicate Encodable(r: Record) {
    && r.streamId < U64 && r.epoch < U64 && r.baseOffset < U64
    && -0x8000_0000 <= r.count < 0x8000_0000 && |r.payload| <= I32_MAX
  }

  function RecordHeader(r: Record): (b: Bytes)
    requires Encodable(r)
    ensures |b| == RECORD_HEADER_SIZE
  {
    [MAGIC_V0] + Put(8, r.streamId) + Put(8, r.epoch) + Put(8, r.baseOffset)
    + Put(4, FromI32(r.count)) + Put(4, |r.payload|)
  }

  function EncodeRecord(r: Record): Bytes
    requires Encodable(r)
  {
    RecordHeader(r) + r.payload
  }

  datatype Parsed = Parsed(record: Record, rest: Bytes)

  function ParseRecord(buf: Bytes): (p: Result<Parsed>)
    ensures p.Ok? ==> |p.value.rest| < |buf|
  {
    if |buf| < RECORD_HEADER_SIZE then Err(TooShort)
    else if buf[0] != MAGIC_V0 then Err(BadMagic)
    else
      var len := ToI32(Get(buf[29..33]));
      if len < 0 || |buf| < RECORD_HEADER_SIZE + len then Err(TooShort)
      else
        Ok(Parsed(
          Record(Get(buf[1..9]), Get(buf[9..17]), Get(buf[17..25]), ToI32(Get(buf[25..29])), buf[33..33 + len]),
          buf[33 + len..]))
  }

  /** A field in the middle of a buffer. */
  lemma Field(a: Bytes, b: Bytes, c: Bytes)
    ensures (a + b + c)[|a|..|a| + |b|] == b
  {
  }

  lemma HeaderFields(r: Record, tail: Bytes)
    requires Encodable(r)
    ensures var h := RecordHeader(r) + tail;
            && h[0] == MAGIC_V0 && h[1..9] == Put(8, r.streamId) && h[9..17] == Put(8, r.epoch)
            && h[17..25] == Put(8, r.baseOffset) && h[25..29] == Put(4, FromI32(r.count))
            && h[29..33] == Put(4, |r.payload|) && h[33..] == tail
  {
    hide Put;
    var m: Bytes := [MAGIC_V0];
    var s, e, b := Put(8, r.streamId), Put(8, r.epoch), Put(8, r.baseOffset);
    var c, l := Put(4, FromI32(r.count)), Put(4, |r.payload|);
    var h := RecordHeader(r) + tail;
    assert h == m + s + (e + b + c + l + tail);
    assert h == (m + s) + e + (b + c + l + tail);
    assert h == (m + s + e) + b + (c + l + tail);
    assert h == (m + s + e + b) + c + (l + tail);
    assert h == (m + s + e + b + c) + l + tail;
    Field(m, s, e + b + c + l + tail);
    Field(m + s, e, b + c + l + tail);
    Field(m + s + e, b, c + l + tail);
    Field(m + s + e + b, c, l + tail);
    Field(m + s + e + b + c, l, tail);
  }

  /** Parsing undoes encoding and leaves exactly what follows. */
  lemma RecordRoundTrip(r: Record, rest: Bytes)
    requires Encodable(r)
    ensures ParseRecord(EncodeRecord(r) + rest) == Ok(Parsed(r, rest))
  {
    hide Put, Get, RecordHeader;
    var buf := EncodeRecord(r) + rest;
    assert buf == RecordHeader(r) + (r.payload + rest);
    HeaderFields(r, r.payload + rest);
    Long(r.streamId);
    Long(r.epoch);
    Long(r.baseOffset);
    Word(FromI32(r.count));
    Word(|r.payload|);
    var len := |r.payload|;
    assert buf[33..33 + len] == buf[33..][..len] == r.payload;
    assert buf[33 + len..] == buf[33..][len..] == rest;
  }

  // ---- Data blocks ---------------------------------------------------------------------------------------

  const DATA_BLOCK_MAGIC: byte := 0x5A
  const DATA_BLOCK_DEFAULT_FLAG: byte := 0x02
  const BLOCK_HEADER_SIZE: nat := 10

  predicate AllEncodable(rs: seq<Record>) {
    forall i :: 0 <= i < |rs| ==> Encodable(rs[i])
  }

  function EncodeRecords(rs: seq<Record>): Bytes
    requires AllEncodable(rs)
  {
    if rs == [] then [] else EncodeRecord(rs[0]) + EncodeRecords(rs[1..])
  }

  /** A block that fits its 32-bit count and length fields. */
  predicate BlockEncodable(rs: seq<Record>) {
    rs != [] && AllEncodable(rs) && |rs| < U32 && |EncodeRecords(rs)| < U32
  }

  function BlockHeader(count: nat, length: nat): (b: Bytes)
    ensures |b| == BLOCK_HEADER_SIZE
  {
    [DATA_BLOCK_MAGIC, DATA_BLOCK_DEFAULT_FLAG] + Put(4, count) + Put(4, length)
  }

  function EncodeDataBlock(rs: seq<Record>): Bytes
    requires BlockEncodable(rs)
  {
    BlockHeader(|rs|, |EncodeRecords(rs)|) + EncodeRecords(rs)
  }

  /** Records already decoded in front of what is still to come. */
  function Join(records: seq<Record>, rest: Result<seq<Record>>): Result<seq<Record>> {
    if rest.Err? then rest else Ok(records + rest.value)
  }

  lemma JoinNone(rest: Result<seq<Record>>)
    ensures Join([], rest) == rest
  {
    assert rest.Ok? ==> [] + rest.value == rest.value;
  }

  lemma JoinTwice(a: seq<Record>, b: seq<Record>, rest: Result<seq<Record>>)
    ensures Join(a, Join(b, rest)) == Join(a + b, rest)
  {
    assert rest.Ok? ==> a + (b + rest.value) == a + b + rest.value;
  }

  /** `count` records from the front of `data`, which they must use up. */
  function ParseRecords(data: Bytes, count: nat): Result<seq<Record>> {
    if count == 0 then (if data == [] then Ok([]) else Err(BadFormat))
    else
      var p := ParseRecord(data);
      if p.Err? then Err(p.error)
      else
        Join([p.value.record], ParseRecords(p.value.rest, count - 1))
  }

  /** A region may hold several consecutive data blocks, each with its own header. */
  function Decode(buf: Bytes): Result<seq<Record>>
    decreases |buf|
  {
    if buf == [] then Ok([])
    else if |buf| < BLOCK_HEADER_SIZE then Err(BadFormat)
    else if buf[0] != DATA_BLOCK_MAGIC then Err(BadFormat)
    else
      var count, length := Get(buf[2..6]), Get(buf[6..10]);
      if |buf| < BLOCK_HEADER_SIZE + length then Err(BadFormat)
      else
        var own := ParseRecords(buf[10..10 + length], count);
        if own.Err? then own else Join(own.value, Decode(buf[10 + length..]))
  }

  lemma {:induction false} RecordsRoundTrip(rs: seq<Record>)
    requires AllEncodable(rs)
    ensures ParseRecords(EncodeRecords(rs), |rs|) == Ok(rs)
  {
    hide ParseRecord, EncodeRecord;
    if rs != [] {
      RecordRoundTrip(rs[0], EncodeRecords(rs[1..]));
      RecordsRoundTrip(rs[1..]);
      assert rs == [rs[0]] + rs[1..];
    }
  }

  lemma BlockFields(count: nat, length: nat, tail: Bytes)
    ensures var b := BlockHeader(count, length) + tail;
            b[0] == DATA_BLOCK_MAGIC && b[2..6] == Put(4, count) && b[6..10] == Put(4, length) && b[10..] == tail
  {
    hide Put;
    var m: Bytes := [DATA_BLOCK_MAGIC, DATA_BLOCK_DEFAULT_FLAG];
    var c, l := Put(4, count), Put(4, length);
    var b := BlockHeader(count, length) + tail;
    assert b == m + c + (l + tail);
    assert b == (m + c) + l + tail;
    Field(m, c, l + tail);
    Field(m + c, l, tail);
  }

  /** A block in front of a region decodes to its own records, then the region's. */
  lemma BlockRoundTrip(rs: seq<Record>, tail: Bytes)
    requires BlockEncodable(rs)
    ensures Decode(EncodeDataBlock(rs) + tail) == Join(rs, Decode(tail))
  {
    hide Put, Get, BlockHeader, EncodeRecords, ParseRecords;
    var data := EncodeRecords(rs);
    var buf := EncodeDataBlock(rs) + tail;
    assert buf == BlockHeader(|rs|, |data|) + (data + tail);
    BlockFields(|rs|, |data|, data + tail);
    Word(|rs|);
    Word(|data|);
    RecordsRoundTrip(rs);
    var length := |data|;
    assert buf[10..10 + length] == buf[10..][..length] == data;
    assert buf[10 + length..] == buf[10..][length..] == tail;
  }

  /** Regions decode independently: the records of a concatenation are the concatenated records. */
  lemma {:induction false} DecodeConcat(a: Bytes, b: Bytes)
    requires Decode(a).Ok?
    ensures Decode(a + b) == Join(Decode(a).value, Decode(b))
    decreases |a|
  {
    hide ParseRecords, Get;
    if a == [] {
      assert a + b == b;
      JoinNone(Decode(b));
    } else {
      var length := Get(a[6..10]);
      var own, tail := ParseRecords(a[10..10 + length], Get(a[2..6])), a[10 + length..];
      DecodeConcat(tail, b);
      DecodeFront(a, b);
      JoinTwice(own.value, Decode(tail).value, Decode(b));
    }
  }

  /** The first block of a region does not depend on what follows the region. */
  lemma DecodeFront(a: Bytes, b: Bytes)
    requires a != [] && Decode(a).Ok?
    ensures var length := Get(a[6..10]);
            && |a| >= 10 + length && ParseRecords(a[10..10 + length], Get(a[2..6])).Ok? && Decode(a[10 + length..]).Ok?
            && Decode(a).value == ParseRecords(a[10..10 + length], Get(a[2..6])).value + Decode(a[10 + length..]).value
            && Decode(a + b)
               == Join(ParseRecords(a[10..10 + length], Get(a[2..6])).value, Decode(a[10 + length..] + b))
  {
    hide ParseRecords, Get;
    var length := Get(a[6..10]);
    var c := a + b;
    assert c[2..6] == a[2..6] && c[6..10] == a[6..10] && c[0] == a[0];
    assert c[10..10 + length] == a[10..10 + length];
    assert c[10 + length..] == a[10 + length..] + b;
  }

  /** The decoding loop: consumes a buffer block by block and record by record. */
  method DecodeDataBlock(block: Bytes) returns (r: Result<seq<Record>>)
    ensures r == Decode(block)
  {
    hide Get, ParseRecords;
    var records: seq<Record> := [];
    var buf := block;
    JoinNone(Decode(block));
    while buf != []
      invariant Decode(block) == Join(records, Decode(buf))
      decreases |buf|
    {
      if |buf| < BLOCK_HEADER_SIZE {
        return Err(BadFormat);
      }
      if buf[0] != DATA_BLOCK_MAGIC {
        return Err(BadFormat);
      }
      var count, length := Get(buf[2..6]), Get(buf[6..10]);
      if |buf| < BLOCK_HEADER_SIZE + length {
        return Err(BadFormat);
      }
      var own := TakeRecords(buf[10..10 + length], count);
      if own.Err? {
        return own;
      }
      JoinTwice(records, own.value, Decode(buf[10 + length..]));
      records := records + own.value;
      buf := buf[10 + length..];
    }
    assert records + [] == records;
    r := Ok(records);
  }

  method TakeRecords(block: Bytes, count: nat) returns (r: Result<seq<Record>>)
    ensures r == ParseRecords(block, count)
  {
    hide ParseRecord;
    var records: seq<Record> := [];
    var data, k := block, 0;
    JoinNone(ParseRecords(block, count));
    while k < count
      invariant 0 <= k <= count
      invariant ParseRecords(block, count) == Join(records, ParseRecords(data, count - k))
    {
      var p := ParseRecord(data);
      if p.Err? {
        return Err(p.error);
      }
      JoinTwice(records, [p.value.record], ParseRecords(p.value.rest, count - k - 1));
      records := records + [p.value.record];
      data := p.value.rest;
      k := k + 1;
    }
    if data != [] {
      return Err(BadFormat);
    }
    assert records + [] == records;
    r := Ok(records);
  }

  // ---- Index entries ---------------------------------------------------------------------------------------

  const BLOCK_INDEX_SIZE: nat := 36

  predicate IndexEncodable(e: DataBlockIndex) {
    e.streamId < U64 && e.start < U64 && e.delta < U32 && e.count < U32 && e.position < U64 && e.size < U32
  }

  function EncodeIndex(e: DataBlockIndex): (b: Bytes)
    ensures |b| == BLOCK_INDEX_SIZE
  {
    Put(8, e.streamId) + Put(8, e.start) + Put(4, e.delta) + Put(4, e.count) + Put(8, e.position) + Put(4, e.size)
  }

  function DecodeIndex(buf: Bytes): Result<DataBlockIndex> {
    if |buf| < BLOCK_INDEX_SIZE then Err(BadFormat)
    else Ok(DataBlockIndex(Get(buf[0..8]), Get(buf[8..16]), Get(buf[16..20]), Get(buf[20..24]),
                           Get(buf[24..32]), Get(buf[32..36])))
  }

  lemma IndexFields(e: DataBlockIndex, tail: Bytes)
    ensures var b := EncodeIndex(e) + tail;
            && b[0..8] == Put(8, e.streamId) && b[8..16] == Put(8, e.start) && b[16..20] == Put(4, e.delta)
            && b[20..24] == Put(4, e.count) && b[24..32] == Put(8, e.position) && b[32..36] == Put(4, e.size)
  {
    hide Put;
    var s, o, d := Put(8, e.streamId), Put(8, e.start), Put(4, e.delta);
    var c, p, z := Put(4, e.count), Put(8, e.position), Put(4, e.size);
    var b := EncodeIndex(e) + tail;
    assert b == [] + s + (o + d + c + p + z + tail);
    assert b == s + o + (d + c + p + z + tail);
    assert b == (s + o) + d + (c + p + z + tail);
    assert b == (s + o + d) + c + (p + z + tail);
    assert b == (s + o + d + c) + p + (z + tail);
    assert b == (s + o + d + c + p) + z + tail;
    Field([], s, o + d + c + p + z + tail);
    Field(s, o, d + c + p + z + tail);
    Field(s + o, d, c + p + z + tail);
    Field(s + o + d, c, p + z + tail);
    Field(s + o + d + c, p, z + tail);
    Field(s + o + d + c + p, z, tail);
  }

  lemma IndexRoundTrip(e: DataBlockIndex, tail: Bytes)
    requires IndexEncodable(e)
    ensures DecodeIndex(EncodeIndex(e) + tail) == Ok(e)
  {
    hide Put, Get, EncodeIndex;
    IndexFields(e, tail);
    Long(e.streamId);
    Long(e.start);
    Word(e.delta);
    Word(e.count);
    Long(e.position);
    Word(e.size);
  }

  function EncodeIndexes(es: seq<DataBlockIndex>): (b: Bytes)
    ensures |b| == |es| * BLOCK_INDEX_SIZE
  {
    if es == [] then [] else EncodeIndexes(es[..|es| - 1]) + EncodeIndex(es[|es| - 1])
  }

  /** Parses a whole index block; its length must be a multiple of the entry size. */
  method ParseIndexBlock(data: Bytes) returns (r: Result<seq<DataBlockIndex>>)
    ensures r.Err? <==> |data| % BLOCK_INDEX_SIZE != 0
    ensures r.Ok? ==> |r.value| == |data| / BLOCK_INDEX_SIZE
    ensures r.Ok? ==> forall i :: 0 <= i < |r.value| ==> EntryAt(data, i) == Ok(r.value[i])
  {
    hide DecodeIndex;
    if |data| % BLOCK_INDEX_SIZE != 0 {
      return Err(BadFormat);
    }
    var count := |data| / BLOCK_INDEX_SIZE;
    var entries: seq<DataBlockIndex> := [];
    var i := 0;
    while i < count
      invariant 0 <= i <= count && |entries| == i
      invariant forall k :: 0 <= k < i ==> EntryAt(data, k) == Ok(entries[k])
    {
      EntryDecodes(data[i * BLOCK_INDEX_SIZE..]);
      var e := DecodeIndex(data[i * BLOCK_INDEX_SIZE..]);
      entries := entries + [e.value];
      i := i + 1;
    }
    r := Ok(entries);
  }

  function EntryAt(data: Bytes, i: int): Result<DataBlockIndex> {
    if 0 <= i && i * BLOCK_INDEX_SIZE <= |data| then DecodeIndex(data[i * BLOCK_INDEX_SIZE..]) else Err(BadFormat)
  }

  lemma EntryDecodes(buf: Bytes)
    requires |buf| >= BLOCK_INDEX_SIZE
    ensures DecodeIndex(buf).Ok?
  {
  }

  predicate AllIndexEncodable(es: seq<DataBlockIndex>) {
    forall i :: 0 <= i < |es| ==> IndexEncodable(es[i])
  }

  /** Entry `i` of an encoded index is found at its place. */
  lemma {:induction false} EntryRoundTrip(es: seq<DataBlockIndex>, tail: Bytes, i: nat)
    requires AllIndexEncodable(es) && i < |es|
    ensures EntryAt(EncodeIndexes(es) + tail, i) == Ok(es[i])
  {
    hide DecodeIndex, EncodeIndex;
    var n := |es| - 1;
    var init := EncodeIndexes(es[..n]);
    var b := EncodeIndexes(es) + tail;
    assert b == init + (EncodeIndex(es[n]) + tail);
    if i == n {
      assert b[n * BLOCK_INDEX_SIZE..] == EncodeIndex(es[n]) + tail;
      IndexRoundTrip(es[n], tail);
    } else {
      EntryRoundTrip(es[..n], EncodeIndex(es[n]) + tail, i);
    }
  }
}
