/** Framed log objects, and the recovery cursor with its read-ahead over them. */
module WalIterator {
  import opened Records
  import opened WalLayout
  import opened WalReplay
  import opened WalEpochs
  import opened Codec

  const RECORD_DATA_MAGIC: nat := 0x8765_4321
  const WAL_HEADER_MAGIC_V1: nat := 0xEDCB_A987
  const WAL_HEADER_SIZE_V1: nat := 48

  /** The checksum is a foreign function; its result is masked to 31 bits. */
  function Crc(crc: Bytes -> nat, b: Bytes): (c: nat)
    ensures c < U32
  {
    crc(b) % 0x8000_0000
  }

  // ---- Record frames -----------------------------------------------------------------------------------

  function FrameFields(magic: nat, length: nat, bodyOffset: nat, bodyCrc: nat): (b: Bytes)
    ensures |b| == 20
  {
    Put(4, magic) + Put(4, length) + Put(8, bodyOffset) + Put(4, bodyCrc)
  }

  function FrameHeader(crc: Bytes -> nat, offset: nat, body: Bytes): (b: Bytes)
    ensures |b| == WAL_RECORD_HEADER_SIZE
  {
    var fields := FrameFields(RECORD_DATA_MAGIC, |body|, offset + WAL_RECORD_HEADER_SIZE, Crc(crc, body));
    fields + Put(4, Crc(crc, fields))
  }

  predicate FrameFits(e: Entry) {
    Encodable(e.record) && |EncodeRecord(e.record)| < U32 && e.offset + WAL_RECORD_HEADER_SIZE < U64
  }

  function Frame(crc: Bytes -> nat, e: Entry): (b: Bytes)
    requires FrameFits(e)
    ensures b != []
  {
    FrameHeader(crc, e.offset, EncodeRecord(e.record)) + EncodeRecord(e.record)
  }

  datatype ParsedFrame = ParsedFrame(entry: Entry, rest: Bytes)

  /** One frame from the front: header checksum, magic, length, body checksum, record. */
  function ParseFrame(crc: Bytes -> nat, buf: Bytes): (p: Result<ParsedFrame>)
    ensures p.Ok? ==> |p.value.rest| < |buf|
  {
    if |buf| < WAL_RECORD_HEADER_SIZE then Err(TooShort)
    else if Get(buf[20..24]) != Crc(crc, buf[..20]) then Err(BadCrc)
    else if Get(buf[0..4]) != RECORD_DATA_MAGIC then Err(BadMagic)
    else
      var length, bodyOffset := Get(buf[4..8]), Get(buf[8..16]);
      if |buf| < WAL_RECORD_HEADER_SIZE + length || bodyOffset < WAL_RECORD_HEADER_SIZE then Err(TooShort)
      else
        var body := buf[24..24 + length];
        if Get(buf[16..20]) != Crc(crc, body) then Err(BadCrc)
        else
          var r := ParseRecord(body);
          if r.Err? then Err(r.error)
          else Ok(ParsedFrame(Entry(bodyOffset - WAL_RECORD_HEADER_SIZE, r.value.record), buf[24 + length..]))
  }

  lemma FrameSlices(crc: Bytes -> nat, offset: nat, body: Bytes, tail: Bytes)
    ensures var fields := FrameFields(RECORD_DATA_MAGIC, |body|, offset + WAL_RECORD_HEADER_SIZE, Crc(crc, body));
            var b := FrameHeader(crc, offset, body) + tail;
            && b[..20] == fields && b[20..24] == Put(4, Crc(crc, fields)) && b[24..] == tail
            && b[0..4] == Put(4, RECORD_DATA_MAGIC) && b[4..8] == Put(4, |body|)
            && b[8..16] == Put(8, offset + WAL_RECORD_HEADER_SIZE) && b[16..20] == Put(4, Crc(crc, body))
  {
    hide Put, Crc;
    var m, l := Put(4, RECORD_DATA_MAGIC), Put(4, |body|);
    var o, c := Put(8, offset + WAL_RECORD_HEADER_SIZE), Put(4, Crc(crc, body));
    var fields := FrameFields(RECORD_DATA_MAGIC, |body|, offset + WAL_RECORD_HEADER_SIZE, Crc(crc, body));
    var h := Put(4, Crc(crc, fields));
    var b := FrameHeader(crc, offset, body) + tail;
    assert b == [] + m + (l + o + c + h + tail) && b == m + l + (o + c + h + tail);
    assert b == (m + l) + o + (c + h + tail) && b == (m + l + o) + c + (h + tail) && b == fields + h + tail;
    Field([], m, l + o + c + h + tail);
    Field(m, l, o + c + h + tail);
    Field(m + l, o, c + h + tail);
    Field(m + l + o, c, h + tail);
    Field(fields, h, tail);
  }

  /** A frame parses to its entry and leaves what follows. */
  lemma FrameRoundTrip(crc: Bytes -> nat, e: Entry, rest: Bytes)
    requires FrameFits(e)
    ensures ParseFrame(crc, Frame(crc, e) + rest) == Ok(ParsedFrame(e, rest))
  {
    hide Put, Get, Crc, FrameHeader, FrameFields, EncodeRecord, ParseRecord;
    var body := EncodeRecord(e.record);
    var buf := Frame(crc, e) + rest;
    assert buf == FrameHeader(crc, e.offset, body) + (body + rest);
    FrameSlices(crc, e.offset, body, body + rest);
    var fields := FrameFields(RECORD_DATA_MAGIC, |body|, e.offset + WAL_RECORD_HEADER_SIZE, Crc(crc, body));
    Word(RECORD_DATA_MAGIC);
    Word(|body|);
    Long(e.offset + WAL_RECORD_HEADER_SIZE);
    Word(Crc(crc, body));
    Word(Crc(crc, fields));
    var length := |body|;
    assert buf[24..24 + length] == buf[24..][..length] == body;
    assert buf[24 + length..] == buf[24..][length..] == rest;
    RecordRoundTrip(e.record, []);
    assert body + [] == body;
  }

  predicate AllFramed(entries: seq<Entry>) {
    forall i :: 0 <= i < |entries| ==> FrameFits(entries[i])
  }

  function Frames(crc: Bytes -> nat, entries: seq<Entry>): Bytes
    requires AllFramed(entries)
  {
    if entries == [] then [] else Frame(crc, entries[0]) + Frames(crc, entries[1..])
  }

  // ---- Objects -------------------------------------------------------------------------------------------

  const I64: int := 0x8000_0000_0000_0000

  function FromI64(n: int): nat
    requires -I64 <= n < I64
  {
    if n < 0 then n + U64 else n
  }

  function ToI64(n: nat): int { if n < I64 then n else n - U64 }

  /** The 48-byte header; the trim point is a signed 64-bit integer. */
  function ObjectHeader(o: WalObject, node: nat, length: nat): (b: Bytes)
    requires -I64 <= o.trim < I64
    ensures |b| == WAL_HEADER_SIZE_V1
  {
    Put(4, WAL_HEADER_MAGIC_V1) + Put(8, o.start) + Put(8, length) + Put(8, 0) + Put(4, node) + Put(8, o.epoch)
    + Put(8, FromI64(o.trim))
  }

  /** What the writer stores: records that can be framed, and header fields within their widths. */
  predicate ObjectOk(o: WalObject) {
    && o.entries != [] && AllFramed(o.entries)
    && o.start < U64 && o.epoch < U64 && -I64 <= o.trim < I64
  }

  function ObjectBuffer(crc: Bytes -> nat, o: WalObject, node: nat): Bytes
    requires ObjectOk(o)
  {
    ObjectHeader(o, node, |Frames(crc, o.entries)|) + Frames(crc, o.entries)
  }

  datatype Header = Header(start: nat, length: nat, node: nat, epoch: nat, trim: int)

  /** The header, if the magic is known and the header is complete. */
  function HeaderOf(buf: Bytes): Result<Header> {
    if |buf| < 4 then Err(BadFormat)
    else if Get(buf[0..4]) != WAL_HEADER_MAGIC_V1 then Err(BadMagic)
    else if |buf| < WAL_HEADER_SIZE_V1 then Err(TooShort)
    else Ok(Header(Get(buf[4..12]), Get(buf[12..20]), Get(buf[28..32]), Get(buf[32..40]), ToI64(Get(buf[40..48]))))
  }

  lemma HeaderSlices(o: WalObject, node: nat, length: nat, tail: Bytes)
    requires -I64 <= o.trim < I64
    ensures var b := ObjectHeader(o, node, length) + tail;
            && b[0..4] == Put(4, WAL_HEADER_MAGIC_V1) && b[4..12] == Put(8, o.start) && b[12..20] == Put(8, length)
            && b[28..32] == Put(4, node) && b[32..40] == Put(8, o.epoch) && b[40..48] == Put(8, FromI64(o.trim))
            && b[48..] == tail
  {
    hide Put, FromI64;
    var m, s, l, z := Put(4, WAL_HEADER_MAGIC_V1), Put(8, o.start), Put(8, length), Put(8, 0);
    var n, e, t := Put(4, node), Put(8, o.epoch), Put(8, FromI64(o.trim));
    SevenFields(m, s, l, z, n, e, t, tail);
  }

  lemma SevenFields(m: Bytes, s: Bytes, l: Bytes, z: Bytes, n: Bytes, e: Bytes, t: Bytes, tail: Bytes)
    requires |m| == 4 && |s| == 8 && |l| == 8 && |z| == 8 && |n| == 4 && |e| == 8 && |t| == 8
    ensures var b := m + s + l + z + n + e + t + tail;
            && b[0..4] == m && b[4..12] == s && b[12..20] == l && b[28..32] == n && b[32..40] == e && b[40..48] == t
            && b[48..] == tail
  {
    var front, back := m + s + l + z, n + e + t + tail;
    var b := m + s + l + z + n + e + t + tail;
    assert b == front + back;
    assert b[28..32] == back[0..4] && b[32..40] == back[4..12] && b[40..48] == back[12..20] && b[48..] == back[20..];
    assert b[0..4] == front[0..4] && b[4..12] == front[4..12] && b[12..20] == front[12..20];
  }

  /** A stored object's header reads back as written, and the record section follows it. */
  lemma BodyRoundTrip(crc: Bytes -> nat, o: WalObject, node: nat)
    requires ObjectOk(o)
    ensures var buf, frames := ObjectBuffer(crc, o, node), Frames(crc, o.entries);
            && HeaderOf(buf).Ok? && buf[WAL_HEADER_SIZE_V1..] == frames
            && var h := HeaderOf(buf).value;
               && h.start == o.start && h.epoch == o.epoch && h.trim == o.trim
               && (node < U32 ==> h.node == node) && (|frames| < U64 ==> h.length == |frames|)
  {
    hide Put, Get, Frames, ObjectHeader;
    var frames := Frames(crc, o.entries);
    HeaderSlices(o, node, |frames|, frames);
    Word(WAL_HEADER_MAGIC_V1);
    Long(o.start);
    Long(o.epoch);
    Long(FromI64(o.trim));
    if |frames| < U64 { Long(|frames|); }
    if node < U32 { Word(node); }
  }

  // ---- The cursor --------------------------------------------------------------------------------------------

  function TotalBytes(buffers: seq<Bytes>): nat {
    if buffers == [] then 0 else |buffers[0]| + TotalBytes(buffers[1..])
  }

  lemma {:induction false} TotalPush(buffers: seq<Bytes>, b: Bytes)
    ensures TotalBytes(buffers + [b]) == TotalBytes(buffers) + |b|
  {
    if buffers == [] {
      assert (buffers + [b])[1..] == [];
    } else {
      assert (buffers + [b])[1..] == buffers[1..] + [b];
      TotalPush(buffers[1..], b);
    }
  }

  predicate AllOk(objects: seq<WalObject>) {
    forall i :: 0 <= i < |objects| ==> ObjectOk(objects[i])
  }

  /** Buffer `k` of the queue belongs to the object that is `n - k` places before the next one. */
  predicate BufferAt(crc: Bytes -> nat, node: nat, objects: seq<WalObject>, next: nat, buffers: seq<Bytes>, k: int) {
    && 0 <= k < |buffers| <= next <= |objects|
    && ObjectOk(objects[next - |buffers| + k])
    && buffers[k] == ObjectBuffer(crc, objects[next - |buffers| + k], node)
  }

  ghost predicate Prefetched(crc: Bytes -> nat, node: nat, objects: seq<WalObject>, next: nat, buffers: seq<Bytes>) {
    forall k :: 0 <= k < |buffers| ==> BufferAt(crc, node, objects, next, buffers, k)
  }

  lemma PrefetchNext(crc: Bytes -> nat, node: nat, objects: seq<WalObject>, next: nat, buffers: seq<Bytes>)
    requires Prefetched(crc, node, objects, next, buffers) && |buffers| <= next < |objects| && ObjectOk(objects[next])
    ensures Prefetched(crc, node, objects, next + 1, buffers + [ObjectBuffer(crc, objects[next], node)])
  {
    hide ObjectBuffer, ObjectOk;
    var buffers', next' := buffers + [ObjectBuffer(crc, objects[next], node)], next + 1;
    forall k | 0 <= k < |buffers'| ensures BufferAt(crc, node, objects, next', buffers', k) {
      if k < |buffers| {
        assert BufferAt(crc, node, objects, next, buffers, k);
      }
    }
  }

  lemma PrefetchPop(crc: Bytes -> nat, node: nat, objects: seq<WalObject>, next: nat, buffers: seq<Bytes>)
    requires Prefetched(crc, node, objects, next, buffers) && buffers != []
    ensures |buffers| <= next <= |objects| && Prefetched(crc, node, objects, next, buffers[1..])
    ensures ObjectOk(objects[next - |buffers|]) && buffers[0] == ObjectBuffer(crc, objects[next - |buffers|], node)
    ensures EntriesIn(objects[next - |buffers|..])
         == objects[next - |buffers|].entries + EntriesIn(objects[next - |buffers[1..]|..])
  {
    hide ObjectBuffer, ObjectOk;
    assert BufferAt(crc, node, objects, next, buffers, 0);
    var rest := buffers[1..];
    forall k | 0 <= k < |rest| ensures BufferAt(crc, node, objects, next, rest, k) {
      assert BufferAt(crc, node, objects, next, buffers, k + 1);
    }
    assert objects[next - |buffers|..][1..] == objects[next - |buffers[1..]|..];
  }

  class RecoverIterator {
    const crc: Bytes -> nat
    const node: nat
    const budget: nat
    const trim: int
    ghost const all: seq<WalObject>        // the listing
    const objects: seq<WalObject>          // the run of it that recovery reads
    const epochs: map<nat, nat>            // where each epoch of the listing starts
    var nextIndex: nat
    var readahead: seq<Bytes>
    var readaheadSize: nat
    var data: Bytes
    ghost var pending: seq<Entry>          // entries still framed in `data`

    ghost predicate Loaded()
      reads this
    {
      && budget > 0 && AllOk(objects) && |readahead| <= nextIndex <= |objects|
      && Prefetched(crc, node, objects, nextIndex, readahead)
      && readaheadSize == TotalBytes(readahead)
      && AllFramed(pending) && data == Frames(crc, pending)
      && epochs == EpochIndex(all) && AllKnown(epochs, objects) && Known(epochs, pending)
    }

    /** Between calls a further object has been prefetched unless none is left. */
    ghost predicate Valid()
      reads this
    {
      Loaded() && (nextIndex < |objects| ==> readahead != [])
    }

    /** Entries not delivered yet. */
    ghost function Left(): seq<Entry>
      requires Loaded()
      reads this
    {
      pending + EntriesIn(objects[nextIndex - |readahead|..])
    }

    /** Reads the trim point from the newest header, picks the run, and indexes the epochs of the
        whole listing. */
    constructor (all: seq<WalObject>, crc: Bytes -> nat, node: nat, budget: nat)
      requires budget > 0 && AllOk(all) && ByEpoch(all) && Placed(all)
      ensures Valid() && trim == TrimOffset(all) && this.all == all
      ensures Left() == EntriesIn(Continuous(all, trim))
    {
      hide EpochIndex, EpochAt, ByEpoch, Placed, Continuous, Frames, AllOk;
      var trim := GetTrimOffset(all, crc, node);
      var run := GetContinuousFromTrimOffset(all, trim);
      ContinuousOk(all, trim);
      var epochs := BuildEpochs(all);
      RunKnown(all, run);
      FramesEmpty(crc, []);
      this.all, this.crc, this.node, this.budget := all, crc, node, budget;
      this.trim, this.objects, this.epochs := trim, run, epochs;
      nextIndex, readahead, readaheadSize, data, pending := 0, [], 0, [], [];
      new;
      assert objects[0..] == objects;
      assert [] + EntriesIn(objects) == EntriesIn(objects);
      TryReadAhead();
    }

    /** Prefetches while the queue is below its byte budget. */
    method TryReadAhead()
      requires Loaded()
      modifies this`nextIndex, this`readahead, this`readaheadSize
      ensures Valid() && Left() == old(Left()) && pending == old(pending)
    {
      hide Prefetched, Frames, EpochIndex, Known, AllKnown;
      while readaheadSize < budget && nextIndex < |objects|
        invariant Loaded()
        invariant nextIndex - |readahead| == old(nextIndex - |readahead|)
        decreases |objects| - nextIndex
      {
        var b := ObjectBuffer(crc, objects[nextIndex], node);
        PrefetchNext(crc, node, objects, nextIndex, readahead);
        TotalPush(readahead, b);
        nextIndex := nextIndex + 1;
        readahead := readahead + [b];
        readaheadSize := readaheadSize + |b|;
      }
    }

    method LoadNextBuffer()
      requires Loaded() && pending == [] && readahead != []
      modifies this`readahead, this`readaheadSize, this`data, this`pending
      ensures Loaded() && Left() == old(Left()) && pending != []
    {
      hide Prefetched, Frames, ObjectHeader, EpochIndex, Known, HeaderOf;
      PrefetchPop(crc, node, objects, nextIndex, readahead);
      ghost var o := objects[nextIndex - |readahead|];
      BodyRoundTrip(crc, o, node);
      var buffer := readahead[0];
      readahead := readahead[1..];
      readaheadSize := readaheadSize - |buffer|;
      data := buffer[WAL_HEADER_SIZE_V1..];
      pending := o.entries;
    }

    /** Makes sure a frame is at hand, then prefetches. */
    method Refill()
      requires Valid() && Left() != []
      modifies this`nextIndex, this`readahead, this`readaheadSize, this`data, this`pending
      ensures Valid() && Left() == old(Left()) && pending != []
    {
      hide Prefetched, Frames, EpochIndex, Known, AllKnown;
      FramesEmpty(crc, pending);
      NothingBehind(objects, nextIndex, readahead);
      if |data| == 0 {
        LoadNextBuffer();
      }
      TryReadAhead();
    }

    /** The next entry, whatever its offset, with the epoch the index has for it. */
    method Next0() returns (x: Delivery)
      requires Valid() && Left() != []
      modifies this`nextIndex, this`readahead, this`readaheadSize, this`data, this`pending
      ensures Valid() && [x.entry] + Left() == old(Left())
      ensures EpochAt(EpochIndex(all), x.entry.offset) == Some(x.epoch)
    {
      hide Prefetched, ParseFrame, EpochAt, EpochIndex, Frame, Known, AllKnown;
      Refill();
      ghost var first, rest, behind := pending[0], pending[1..], EntriesIn(objects[nextIndex - |readahead|..]);
      FrameRoundTrip(crc, first, Frames(crc, rest));
      assert pending == [first] + rest;
      assert [first] + rest + behind == [first] + (rest + behind);
      KnownTail(epochs, first, rest);
      var p := ParseFrame(crc, data);
      data := p.value.rest;
      pending := rest;
      x := Delivery(p.value.entry, EpochAt(epochs, p.value.entry.offset).value);
    }

    /** Skips what is trimmed and the sentinels; `None` is the clean end. */
    method Next() returns (r: Option<Delivery>)
      requires Valid()
      modifies this`nextIndex, this`readahead, this`readaheadSize, this`data, this`pending
      ensures Valid()
      ensures Above(old(Left()), trim) == (if r.Some? then [r.value.entry] else []) + Above(Left(), trim)
      ensures r.None? ==> Above(Left(), trim) == [] && Left() == []
      ensures r.Some? ==> |Left()| < |old(Left())|
      ensures r.Some? ==> EpochAt(EpochIndex(all), r.value.entry.offset) == Some(r.value.epoch)
    {
      hide Prefetched, Frames, Above, EpochAt, EpochIndex, Known, AllKnown;
      assert [] + Above(Left(), trim) == Above(Left(), trim);
      while HasNext0()
        invariant Valid() && |Left()| <= |old(Left())|
        invariant Above(old(Left()), trim) == Above(Left(), trim)
        decreases |Left()|
      {
        HasNextLeft(crc, pending, objects, nextIndex, readahead);
        var x := Next0();
        AboveHead(x.entry, Left(), trim);
        if x.entry.offset <= trim || x.entry.record.IsSentinel() {
          continue;
        }
        return Some(x);
      }
      NoneLeft(crc, pending, objects, nextIndex, readahead);
      r := None;
      assert [] + Above(Left(), trim) == Above(Left(), trim);
      AboveEmpty(trim);
    }

    predicate HasNext0()
      reads this
    {
      data != [] || readahead != [] || nextIndex < |objects|
    }

    /**
     * Draining the cursor delivers the same records for every positive budget: those of the run,
     * in order, above the trim point and without sentinels.
     */
    method Drain() returns (out: seq<Delivery>)
      requires Valid()
      modifies this`nextIndex, this`readahead, this`readaheadSize, this`data, this`pending
      ensures Valid() && EntriesAre(out) == Above(old(Left()), trim) && LookedUp(all, out)
    {
      hide Prefetched, Frames, Above, EpochAt, EpochIndex, Known, AllKnown, EntriesAre;
      out := [];
      EntriesAreConcat(out, out);
      assert EntriesAre(out) == [] by { EntriesAreAt(out, 0); }
      assert [] + Above(Left(), trim) == Above(Left(), trim);
      while true
        invariant Valid() && Above(old(Left()), trim) == EntriesAre(out) + Above(Left(), trim)
        invariant LookedUp(all, out)
        decreases |Left()|
      {
        ghost var done := EntriesAre(out);
        var r := Next();
        if r.None? {
          assert done + ([] + []) == done;
          return;
        }
        assert done + ([r.value.entry] + Above(Left(), trim)) == done + [r.value.entry] + Above(Left(), trim);
        EntriesArePush(out, r.value);
        out := out + [r.value];
      }
    }
  }

  lemma EntriesArePush(out: seq<Delivery>, x: Delivery)
    ensures EntriesAre(out + [x]) == EntriesAre(out) + [x.entry]
  {
    assert (out + [x])[..|out|] == out;
  }

  /** The index has an epoch for every entry. */
  predicate Known(epochs: map<nat, nat>, entries: seq<Entry>) {
    forall i :: 0 <= i < |entries| ==> EpochAt(epochs, entries[i].offset).Some?
  }

  lemma KnownTail(epochs: map<nat, nat>, first: Entry, rest: seq<Entry>)
    requires Known(epochs, [first] + rest)
    ensures EpochAt(epochs, first.offset).Some? && Known(epochs, rest)
  {
    var all := [first] + rest;
    assert all[0] == first;
    assert forall i :: 0 <= i < |rest| ==> rest[i] == all[i + 1];
  }

  predicate AllKnown(epochs: map<nat, nat>, objects: seq<WalObject>) {
    forall i :: 0 <= i < |objects| ==> Known(epochs, objects[i].entries)
  }

  lemma RunKnown(all: seq<WalObject>, run: seq<WalObject>)
    requires ByEpoch(all) && Placed(all) && forall o :: o in run ==> o in all
    ensures AllKnown(EpochIndex(all), run) && Known(EpochIndex(all), [])
  {
    hide EpochAt, EpochIndex, ByEpoch, Placed, Shadowed;
    forall i, j | 0 <= i < |run| && 0 <= j < |run[i].entries|
      ensures EpochAt(EpochIndex(all), run[i].entries[j].offset).Some?
    {
      RightHere(all, run[i], run[i].entries[j]);
    }
  }

  lemma FramesEmpty(crc: Bytes -> nat, entries: seq<Entry>)
    requires AllFramed(entries)
    ensures Frames(crc, entries) == [] <==> entries == []
  {
  }

  lemma NothingBehind(objects: seq<WalObject>, next: nat, buffers: seq<Bytes>)
    requires |buffers| <= next <= |objects|
    ensures buffers == [] && next == |objects| ==> EntriesIn(objects[next - |buffers|..]) == []
  {
  }

  lemma HasNextLeft(crc: Bytes -> nat, pending: seq<Entry>, objects: seq<WalObject>, next: nat, buffers: seq<Bytes>)
    requires AllFramed(pending) && AllOk(objects) && |buffers| <= next <= |objects|
    requires Frames(crc, pending) != [] || buffers != [] || next < |objects|
    ensures pending + EntriesIn(objects[next - |buffers|..]) != []
  {
    FramesEmpty(crc, pending);
    if next - |buffers| < |objects| {
      assert ObjectOk(objects[next - |buffers|..][0]);
    }
  }

  lemma NoneLeft(crc: Bytes -> nat, pending: seq<Entry>, objects: seq<WalObject>, next: nat, buffers: seq<Bytes>)
    requires AllFramed(pending) && |buffers| <= next <= |objects|
    requires Frames(crc, pending) == [] && buffers == [] && next >= |objects|
    ensures pending + EntriesIn(objects[next - |buffers|..]) == []
  {
    FramesEmpty(crc, pending);
  }

  lemma AboveHead(e: Entry, rest: seq<Entry>, trim: int)
    ensures Above([e] + rest, trim) == (if Delivered(e, trim) then [e] else []) + Above(rest, trim)
  {
    AboveConcat([e], rest, trim);
    assert [e][..0] == [];
  }

  lemma AboveEmpty(trim: int)
    ensures Above([], trim) == []
  {
  }

  method GetTrimOffset(all: seq<WalObject>, crc: Bytes -> nat, node: nat) returns (trim: int)
    requires AllOk(all)
    ensures trim == TrimOffset(all)
  {
    if |all| == 0 {
      return -1;
    }
    hide Frames, ObjectBuffer, HeaderOf;
    var o := all[|all| - 1];
    BodyRoundTrip(crc, o, node);
    return HeaderOf(ObjectBuffer(crc, o, node)).value.trim;
  }

  /**
   * A whole recovery pass over any listing replays the same records for any budget. Each is
   * reported with the epoch of the object that holds it if and only if no delivered record is
   * shadowed by another epoch's first object.
   */
  method RecoverAll(all: seq<WalObject>, crc: Bytes -> nat, node: nat, budget: nat) returns (out: seq<Delivery>)
    requires budget > 0 && AllOk(all) && ByEpoch(all) && Placed(all)
    ensures EntriesAre(out) == Replay(all) && LookedUp(all, out)
    ensures var t := TrimOffset(all); var run := Continuous(all, t);
            out == Owned(run, t) <==> Unshadowed(all, run, t)
  {
    hide Above, ByEpoch, Placed, EpochAt, EpochIndex, EntriesAre, Continuous, Owned, Unshadowed, LookedUp;
    var it := new RecoverIterator(all, crc, node, budget);
    out := it.Drain();
    ghost var t := TrimOffset(all);
    ContinuousOk(all, t);
    EpochsRightIff(all, Continuous(all, t), t, out);
  }

  lemma {:induction false} ContinuousOk(all: seq<WalObject>, trim: int)
    requires AllOk(all)
    ensures AllOk(Continuous(all, trim))
    ensures forall o :: o in Continuous(all, trim) ==> o in all
  {
    hide ObjectOk;
    DropOk(all, trim);
    var kept := DropTrimmed(all, trim);
    if kept != [] {
      ChainOk(kept, kept[0].start);
    }
  }

  lemma {:induction false} DropOk(all: seq<WalObject>, trim: int)
    requires AllOk(all)
    ensures AllOk(DropTrimmed(all, trim))
    ensures forall o :: o in DropTrimmed(all, trim) ==> o in all
  {
    hide ObjectOk;
    if !(all == [] || all[0].end > trim) {
      DropOk(all[1..], trim);
    }
  }

  lemma {:induction false} ChainOk(all: seq<WalObject>, from: nat)
    requires AllOk(all)
    ensures AllOk(Chain(all, from))
    ensures forall o :: o in Chain(all, from) ==> o in all
  {
    hide ObjectOk;
    if !(all == [] || all[0].start != from) {
      ChainOk(all[1..], all[0].end);
    }
  }
}
