/**
 * Values of the log cache: one stream's records inside a block, the block, and the plain list of
 * a stream's cached records that reads are specified against.
 */
module CacheBlocks {
  import opened Records

  const MAX_BLOCKS_COUNT: nat := 64
  const MERGE_BLOCK_THRESHOLD: nat := 8
  const DEFAULT_MAX_BLOCK_STREAM_COUNT: nat := 10_000
  const U64_MAX: nat := 0xFFFF_FFFF_FFFF_FFFF

  /** A read that ended at some offset left the index after it, and how often it may be used. */
  datatype Hint = Hint(index: nat, uses: nat)

  datatype StreamCache = StreamCache(
    records: seq<Record>,
    start: Option<nat>,
    end: Option<nat>,
    hints: map<nat, Hint>)

  const EMPTY_CACHE: StreamCache := StreamCache([], None, None, map[])

  predicate Positive(records: seq<Record>) {
    forall i :: 0 <= i < |records| ==> records[i].count > 0
  }

  /** A hint for offset `o` points just behind the record that ends at `o`. */
  predicate HintOk(records: seq<Record>, o: nat, h: Hint) {
    1 <= h.index <= |records| && records[h.index - 1].LastOffset() == o
  }

  predicate HintsOk(c: StreamCache) {
    forall o :: o in c.hints ==> HintOk(c.records, o, c.hints[o])
  }

  predicate CacheOk(c: StreamCache) {
    && Contiguous(c.records) && Positive(c.records) && HintsOk(c)
    && c.start == (if c.records == [] then None else Some(c.records[0].baseOffset))
    && c.end == (if c.records == [] then None else Some(c.records[|c.records| - 1].LastOffset()))
  }

  /** The 32-bit span check of a block: an end below the start wraps to a huge unsigned value. */
  predicate TooWide(start: nat, last: nat) {
    last < start || last - start > I32_MAX
  }

  function EffectiveStart(c: StreamCache, record: Record): nat {
    if c.start.Some? then c.start.value else record.baseOffset
  }

  function Add(c: StreamCache, record: Record): StreamCache {
    StreamCache(c.records + [record], Some(EffectiveStart(c, record)), Some(record.LastOffset()), c.hints)
  }

  datatype Block = Block(
    id: nat,
    maxSize: nat,
    maxStreams: nat,
    streams: map<nat, StreamCache>,
    last: Option<nat>,
    size: nat,
    overflow: bool,
    free: bool)
  {
    predicate IsFull() {
      overflow || size >= maxSize || |streams| >= maxStreams
    }

    function Cached(s: nat): StreamCache {
      if s in streams then streams[s] else EMPTY_CACHE
    }

    function Of(s: nat): seq<Record> { Cached(s).records }
  }

  function NewBlock(id: nat, maxSize: nat, maxStreams: nat): Block {
    Block(id, maxSize, maxStreams, map[], None, 0, false, false)
  }

  predicate BlockOk(b: Block) {
    forall s :: s in b.streams ==> CacheOk(b.streams[s])
  }

  predicate Accepts(b: Block, record: Record) {
    && !b.IsFull()
    && !TooWide(EffectiveStart(b.Cached(record.streamId), record), record.LastOffset())
  }

  /** A rejected record still leaves its mark: the overflow flag and an empty stream entry. */
  function PutBlock(b: Block, record: Record): Block {
    var c := b.Cached(record.streamId);
    if b.IsFull() then b
    else if Accepts(b, record) then
      b.(streams := b.streams[record.streamId := Add(c, record)], size := b.size + record.OccupiedSize())
    else b.(streams := b.streams[record.streamId := c], overflow := true)
  }

  /** What the stream's next record must satisfy so that a block's records stay gap-free. */
  predicate Continues(b: Block, record: Record) {
    record.count > 0 && (b.Of(record.streamId) != [] ==> b.Cached(record.streamId).end == Some(record.baseOffset))
  }

  lemma PutBlockOk(b: Block, record: Record)
    requires BlockOk(b) && Continues(b, record)
    ensures BlockOk(PutBlock(b, record))
    ensures forall s :: PutBlock(b, record).Of(s)
                     == b.Of(s) + (if Accepts(b, record) && s == record.streamId then [record] else [])
  {
    hide CacheOk, TooWide, Add;
    var c := b.Cached(record.streamId);
    EmptyCacheOk();
    if Accepts(b, record) {
      AddOk(c, record);
    }
  }

  lemma EmptyCacheOk()
    ensures CacheOk(EMPTY_CACHE)
  {
  }

  lemma AddOk(c: StreamCache, record: Record)
    requires CacheOk(c) && record.count > 0 && (c.records != [] ==> c.end == Some(record.baseOffset))
    ensures CacheOk(Add(c, record)) && Add(c, record).records == c.records + [record]
  {
    var c' := Add(c, record);
    forall o | o in c'.hints ensures HintOk(c'.records, o, c'.hints[o]) {
      assert HintOk(c.records, o, c.hints[o]);
    }
  }

  // ---- The plain list ------------------------------------------------------------------------

  /** A stream's cached records in block order. */
  function ListOf(blocks: seq<Block>, s: nat): seq<Record> {
    if blocks == [] then [] else ListOf(blocks[..|blocks| - 1], s) + blocks[|blocks| - 1].Of(s)
  }

  lemma {:induction false} ListConcat(a: seq<Block>, b: seq<Block>, s: nat)
    ensures ListOf(a + b, s) == ListOf(a, s) + ListOf(b, s)
  {
    if b == [] {
      assert a + b == a;
    } else {
      var init := b[..|b| - 1];
      assert (a + b)[..|a + b| - 1] == a + init;
      ListConcat(a, init, s);
    }
  }

  lemma ListOne(b: Block, s: nat)
    ensures ListOf([b], s) == b.Of(s)
  {
    assert [b][..0] == [];
  }

  lemma ListSplit(blocks: seq<Block>, k: nat, s: nat)
    requires k < |blocks|
    ensures ListOf(blocks, s) == ListOf(blocks[..k], s) + blocks[k].Of(s) + ListOf(blocks[k + 1..], s)
    ensures ListOf(blocks[..k + 1], s) == ListOf(blocks[..k], s) + blocks[k].Of(s)
  {
    assert blocks[..k + 1][..k] == blocks[..k];
    assert blocks == blocks[..k + 1] + blocks[k + 1..];
    ListConcat(blocks[..k + 1], blocks[k + 1..], s);
  }

  lemma {:induction false} ListSame(a: seq<Block>, b: seq<Block>, s: nat)
    requires |a| == |b| && forall i :: 0 <= i < |a| ==> a[i].Of(s) == b[i].Of(s)
    ensures ListOf(a, s) == ListOf(b, s)
  {
    if a != [] {
      ListSame(a[..|a| - 1], b[..|b| - 1], s);
    }
  }

  /** Later records lie at later offsets; there may be holes between blocks. */
  predicate Ordered(list: seq<Record>) {
    && Positive(list)
    && forall i, j :: 0 <= i < j < |list| ==> list[i].LastOffset() <= list[j].baseOffset
  }

  predicate Covers(record: Record, offset: nat) {
    record.baseOffset <= offset < record.LastOffset()
  }

  function Cover(list: seq<Record>, offset: nat, from: nat := 0): (i: Option<nat>)
    requires from <= |list|
    ensures i.Some? ==> from <= i.value < |list| && Covers(list[i.value], offset)
    ensures i.None? ==> forall k :: from <= k < |list| ==> !Covers(list[k], offset)
    decreases |list| - from
  {
    if from == |list| then None
    else if Covers(list[from], offset) then Some(from)
    else Cover(list, offset, from + 1)
  }

  lemma CoverUnique(list: seq<Record>, offset: nat, i: nat)
    requires Ordered(list) && i < |list| && Covers(list[i], offset)
    ensures Cover(list, offset) == Some(i)
  {
    var j := Cover(list, offset).value;
  }

  lemma BaseIsCovered(list: seq<Record>, i: nat)
    requires Ordered(list) && i < |list|
    ensures Cover(list, list[i].baseOffset) == Some(i)
  {
    CoverUnique(list, list[i].baseOffset, i);
  }

  function Remaining(max: nat, size: nat): nat { if size <= max then max - size else 0 }

  datatype Run = Run(stop: nat, fulfilled: bool)

  /** Takes records from `i` until the end offset or the byte budget is reached, or the run breaks. */
  function TakeRun(list: seq<Record>, i: nat, end: nat, max: nat): (r: Run)
    requires i < |list|
    ensures i < r.stop <= |list|
    decreases |list| - i
  {
    var rem := Remaining(max, list[i].Size());
    if list[i].LastOffset() >= end || rem == 0 then Run(i + 1, true)
    else if i + 1 == |list| || list[i + 1].baseOffset != list[i].LastOffset() then Run(i + 1, false)
    else TakeRun(list, i + 1, end, rem)
  }

  function Serve(list: seq<Record>, start: nat, end: nat, max: nat): Option<seq<Record>> {
    var i := Cover(list, start);
    if i.None? then None
    else
      var run := TakeRun(list, i.value, end, max);
      if run.fulfilled then Some(list[i.value..run.stop]) else None
  }

  /** Where the longest gap-free tail begins. */
  function TailIndex(list: seq<Record>): (i: nat)
    requires list != []
    ensures i < |list|
  {
    var n := |list|;
    if n == 1 || list[n - 1].baseOffset != list[n - 2].LastOffset() then n - 1
    else TailIndex(list[..n - 1])
  }

  /** The read the cache promises, on the plain list. */
  function PlainGet(list: seq<Record>, start: nat, end: nat, max: nat): seq<Record> {
    var served := Serve(list, start, end, max);
    if served.Some? then served.value
    else if list == [] then []
    else
      var tail := list[TailIndex(list)].baseOffset;
      if tail >= end || tail <= start then []
      else
        var again := Serve(list, tail, end, max);
        if again.Some? then again.value else []
  }

  function Bytes(records: seq<Record>): nat {
    if records == [] then 0 else records[0].Size() + Bytes(records[1..])
  }

  // ---- What a read returns -------------------------------------------------------------------

  lemma {:induction false} TakeRunIsContiguous(list: seq<Record>, i: nat, end: nat, max: nat)
    requires i < |list|
    ensures var r := TakeRun(list, i, end, max);
            && Contiguous(list[i..r.stop])
            && (r.fulfilled ==> list[r.stop - 1].LastOffset() >= end || Bytes(list[i..r.stop]) >= max)
            && (!r.fulfilled ==> r.stop == |list| || list[r.stop].baseOffset != list[r.stop - 1].LastOffset())
    decreases |list| - i
  {
    var r := TakeRun(list, i, end, max);
    var rem := Remaining(max, list[i].Size());
    var all := list[i..r.stop];
    assert all[1..] == list[i + 1..r.stop];
    if list[i].LastOffset() >= end || rem == 0 {
    } else if i + 1 == |list| || list[i + 1].baseOffset != list[i].LastOffset() {
    } else {
      TakeRunIsContiguous(list, i + 1, end, rem);
      var rest := list[i + 1..r.stop];
      forall k | 0 < k < |all| ensures all[k].baseOffset == all[k - 1].LastOffset() {
        if k > 1 {
          assert rest[k - 1].baseOffset == rest[k - 2].LastOffset();
        }
      }
    }
  }

  lemma AppendContiguous(list: seq<Record>, x: Record)
    requires Contiguous(list) && list != [] && x.baseOffset == list[|list| - 1].LastOffset()
    ensures Contiguous(list + [x])
  {
  }

  /** The run stops at the first record at which the end offset or the budget is met. */
  lemma {:induction false} TakeRunIsShortest(list: seq<Record>, i: nat, end: nat, max: nat, k: nat)
    requires i < |list| && i < k < TakeRun(list, i, end, max).stop
    ensures list[k - 1].LastOffset() < end && Bytes(list[i..k]) < max
    decreases |list| - i
  {
    var rem := Remaining(max, list[i].Size());
    var part := list[i..k];
    assert part[1..] == list[i + 1..k];
    if k > i + 1 {
      TakeRunIsShortest(list, i + 1, end, rem, k);
    }
  }

  /** The records from `t` on have no gap, and one more record before them would make one. */
  predicate LongestTail(list: seq<Record>, t: nat) {
    t < |list| && Contiguous(list[t..]) && (t > 0 ==> list[t].baseOffset != list[t - 1].LastOffset())
  }

  lemma {:induction false} TailIsLongest(list: seq<Record>)
    requires list != []
    ensures LongestTail(list, TailIndex(list))
  {
    var n, t := |list|, TailIndex(list);
    if !(n == 1 || list[n - 1].baseOffset != list[n - 2].LastOffset()) {
      TailIsLongest(list[..n - 1]);
      var shorter := list[..n - 1][t..];
      assert list[t..] == shorter + [list[n - 1]];
      AppendContiguous(shorter, list[n - 1]);
    }
  }

  /** The first `k` records meet the end offset or the budget. */
  predicate MetAt(r: seq<Record>, k: int, end: nat, max: nat) {
    0 < k <= |r| && (r[k - 1].LastOffset() >= end || Bytes(r[..k]) >= max)
  }

  lemma RunIsShortest(list: seq<Record>, i: nat, end: nat, max: nat, r: seq<Record>)
    requires i < |list| && r == list[i..TakeRun(list, i, end, max).stop]
    ensures forall k :: 0 < k < |r| ==> !MetAt(r, k, end, max)
  {
    hide TakeRun, Bytes;
    forall k | 0 < k < |r| ensures !MetAt(r, k, end, max) {
      TakeRunIsShortest(list, i, end, max, i + k);
      assert r[..k] == list[i..i + k] && r[k - 1] == list[i + k - 1];
    }
  }

  /**
   * A nonempty read is gap-free, meets the end offset or the budget with its last record and not
   * before, and begins with the record that covers the start, or is cut from the longest gap-free
   * tail when that begins inside the range.
   */
  lemma ReadShape(list: seq<Record>, start: nat, end: nat, max: nat)
    requires Ordered(list)
    ensures var r := PlainGet(list, start, end, max);
            r != [] ==>
              && Contiguous(r)
              && (r[|r| - 1].LastOffset() >= end || Bytes(r) >= max)
              && (forall k :: 0 < k < |r| ==> !MetAt(r, k, end, max))
              && (Covers(r[0], start)
                  || exists t: nat :: LongestTail(list, t) && r <= list[t..] && start < r[0].baseOffset < end)
  {
    hide TakeRun, TailIndex, Contiguous, Ordered, Bytes, LongestTail;
    var r := PlainGet(list, start, end, max);
    if r != [] {
      var served := Serve(list, start, end, max);
      if served.Some? {
        TakeRunIsContiguous(list, Cover(list, start).value, end, max);
        RunIsShortest(list, Cover(list, start).value, end, max, r);
      } else {
        var t := TailIndex(list);
        BaseIsCovered(list, t);
        TakeRunIsContiguous(list, t, end, max);
        RunIsShortest(list, t, end, max, r);
        TailIsLongest(list);
        assert r <= list[t..];
      }
    }
  }

  /** From record `i` on, record `j` is reached without a gap, and there the end offset or the
      byte budget is met. */
  predicate Reaches(list: seq<Record>, i: nat, j: nat, end: nat, max: nat) {
    && i <= j < |list| && Contiguous(list[i..j + 1])
    && (list[j].LastOffset() >= end || Bytes(list[i..j + 1]) >= max)
  }

  lemma {:induction false} ReachingFulfills(list: seq<Record>, i: nat, j: nat, end: nat, max: nat)
    requires Reaches(list, i, j, end, max)
    ensures TakeRun(list, i, end, max).fulfilled
    decreases j - i
  {
    var all := list[i..j + 1];
    assert all[1..] == list[i + 1..j + 1];
    if i < j {
      assert all[1].baseOffset == all[0].LastOffset();
      forall k | 0 < k < |all[1..]| ensures all[1..][k].baseOffset == all[1..][k - 1].LastOffset() {
        assert all[k + 1].baseOffset == all[k].LastOffset();
      }
      var rem := Remaining(max, list[i].Size());
      if list[i].LastOffset() < end && rem > 0 {
        ReachingFulfills(list, i + 1, j, end, rem);
      }
    } else {
      assert all[1..] == [] && Bytes(all) == list[i].Size() + Bytes(all[1..]);
    }
  }

  /** The run from record `i` is long enough exactly when some record is reached. */
  lemma FulfilledIff(list: seq<Record>, i: nat, end: nat, max: nat)
    requires i < |list|
    ensures TakeRun(list, i, end, max).fulfilled <==> exists j: nat :: Reaches(list, i, j, end, max)
  {
    hide Contiguous, Bytes, TakeRun;
    var r := TakeRun(list, i, end, max);
    TakeRunIsContiguous(list, i, end, max);
    if r.fulfilled {
      assert Reaches(list, i, r.stop - 1, end, max);
    }
    forall j: nat | Reaches(list, i, j, end, max) ensures r.fulfilled {
      ReachingFulfills(list, i, j, end, max);
    }
  }

  /** Any cached gap-free range is served: when record `i` covers the start and the end offset or
      the budget is reached at record `j` without a gap, the read is the run from record `i`. */
  lemma CoveredReadIsServed(list: seq<Record>, start: nat, end: nat, max: nat, i: nat, j: nat)
    requires Ordered(list) && i < |list| && Covers(list[i], start) && Reaches(list, i, j, end, max)
    ensures var r := PlainGet(list, start, end, max);
            && r != [] && i + |r| <= |list| && r == list[i..i + |r|] && Contiguous(r)
            && (r[|r| - 1].LastOffset() >= end || Bytes(r) >= max)
  {
    hide Contiguous, Bytes, TakeRun, Ordered, Reaches;
    CoverUnique(list, start, i);
    FulfilledIff(list, i, end, max);
    TakeRunIsContiguous(list, i, end, max);
  }

  /** In particular each cached record is served. */
  lemma RecordIsServed(list: seq<Record>, k: nat, max: nat)
    requires Ordered(list) && k < |list|
    ensures PlainGet(list, list[k].baseOffset, list[k].LastOffset(), max) == [list[k]]
  {
    BaseIsCovered(list, k);
    assert list[k..k + 1] == [list[k]];
  }
}
