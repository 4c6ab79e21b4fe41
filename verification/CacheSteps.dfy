/** The cache's operations on its block list, and what every run of them keeps. */
module CacheSteps {
  import opened Records
  import opened CacheBlocks
  import opened CacheReads

  datatype Config = Config(capacity: nat, blockMaxSize: nat, blockMaxStreams: nat)

  datatype Cache = Cache(blocks: seq<Block>, size: nat, last: Option<nat>, nextId: nat)

  function SumSizes(blocks: seq<Block>): nat {
    if blocks == [] then 0 else blocks[0].size + SumSizes(blocks[1..])
  }

  function Init(cfg: Config): Cache {
    Cache([NewBlock(0, cfg.blockMaxSize, cfg.blockMaxStreams)], 0, None, 1)
  }

  function Active(c: Cache): Block
    requires c.blocks != []
  {
    c.blocks[|c.blocks| - 1]
  }

  // ---- Operations ----------------------------------------------------------------------------

  /** What callers owe: a stream's records arrive in order, gap-free inside the active block. */
  predicate CanPut(c: Cache, record: Record)
    requires c.blocks != []
  {
    var list := ListOf(c.blocks, record.streamId);
    && Continues(Active(c), record)
    && (list != [] ==> list[|list| - 1].LastOffset() <= record.baseOffset)
  }

  function PutActive(c: Cache, record: Record): Cache
    requires c.blocks != []
  {
    c.(blocks := c.blocks[|c.blocks| - 1 := PutBlock(Active(c), record)],
       size := if Accepts(Active(c), record) then c.size + record.OccupiedSize() else c.size)
  }

  function Archive(cfg: Config, c: Cache): Cache
    requires c.blocks != []
  {
    var n := |c.blocks|;
    var sealed := if c.last.Some? then Active(c).(last := c.last) else Active(c);
    c.(blocks := c.blocks[n - 1 := sealed] + [NewBlock(c.nextId, cfg.blockMaxSize, cfg.blockMaxStreams)],
       nextId := c.nextId + 1)
  }

  function Mark(c: Cache, id: nat): Cache {
    c.(blocks := seq(|c.blocks|, i requires 0 <= i < |c.blocks| =>
         if c.blocks[i].id == id then c.blocks[i].(free := true) else c.blocks[i]))
  }

  predicate Over(cfg: Config, size: nat, blocks: nat) {
    size > cfg.capacity / 10 * 9 || blocks > MAX_BLOCKS_COUNT
  }

  /** Drops freed blocks from the front while the cache is over its limits. */
  function FreePrefix(cfg: Config, c: Cache): Cache
    requires c.size == SumSizes(c.blocks)
    decreases |c.blocks|
  {
    if c.blocks == [] || !Over(cfg, c.size, |c.blocks|) || !c.blocks[0].free then c
    else FreePrefix(cfg, c.(blocks := c.blocks[1..], size := c.size - c.blocks[0].size))
  }

  predicate Discontinuous(left: Block, right: Block) {
    exists s :: s in left.streams && s in right.streams && left.streams[s].end != right.streams[s].start
  }

  function AbsorbCache(merged: Block, source: Block, s: nat): StreamCache
    requires s in merged.streams || s in source.streams
  {
    if s !in merged.streams then source.streams[s].(hints := map[])
    else if s !in source.streams then merged.streams[s]
    else StreamCache(merged.streams[s].records + source.streams[s].records,
                     merged.streams[s].start, source.streams[s].end, map[])
  }

  /** `merge_block`: appends one block's streams to another's. */
  function Absorb(merged: Block, source: Block): Block {
    merged.(
      size := merged.size + source.size,
      last := if source.last.Some? then source.last else merged.last,
      streams := map s | s in merged.streams.Keys + source.streams.Keys :: AbsorbCache(merged, source, s))
  }

  function Merged(left: Block, right: Block, id: nat): Block {
    Absorb(Absorb(NewBlock(id, U64_MAX, DEFAULT_MAX_BLOCK_STREAM_COUNT), left), right).(free := true)
  }

  predicate Mergeable(cfg: Config, c: Cache, i: nat) {
    && i + 1 < |c.blocks| && c.blocks[i].free && c.blocks[i + 1].free
    && c.blocks[i].size + c.blocks[i + 1].size < cfg.blockMaxSize
    && !Discontinuous(c.blocks[i], c.blocks[i + 1])
  }

  function MergeAt(c: Cache, i: nat): Cache
    requires i + 1 < |c.blocks|
  {
    c.(blocks := c.blocks[..i] + [Merged(c.blocks[i], c.blocks[i + 1], c.nextId)] + c.blocks[i + 2..],
       nextId := c.nextId + 1)
  }

  /** `try_merge` from index `i`: merges small neighbours until a block still in use is met. */
  function MergeFrom(cfg: Config, c: Cache, i: nat): Cache
    decreases |c.blocks| - i
  {
    if |c.blocks| <= MERGE_BLOCK_THRESHOLD || i + 1 >= |c.blocks| then c
    else if !c.blocks[i].free || !c.blocks[i + 1].free then c
    else if Mergeable(cfg, c, i) then MergeFrom(cfg, MergeAt(c, i), i)
    else MergeFrom(cfg, c, i + 1)
  }

  // ---- Invariant -----------------------------------------------------------------------------

  ghost predicate Lists(blocks: seq<Block>) {
    forall s :: Ordered(ListOf(blocks, s))
  }

  predicate Ids(c: Cache) {
    && (forall i :: 0 <= i < |c.blocks| ==> c.blocks[i].id < c.nextId)
    && (forall i, j :: 0 <= i < j < |c.blocks| ==> c.blocks[i].id != c.blocks[j].id)
  }

  predicate BlocksOk(blocks: seq<Block>) {
    forall i :: 0 <= i < |blocks| ==> BlockOk(blocks[i])
  }

  ghost predicate Inv(c: Cache) {
    && c.blocks != [] && !Active(c).free
    && BlocksOk(c.blocks)
    && Lists(c.blocks)
    && c.size == SumSizes(c.blocks)
    && Ids(c)
  }

  lemma {:induction false} SumConcat(a: seq<Block>, b: seq<Block>)
    ensures SumSizes(a + b) == SumSizes(a) + SumSizes(b)
  {
    if a == [] {
      assert a + b == b;
    } else {
      assert (a + b)[1..] == a[1..] + b;
      SumConcat(a[1..], b);
    }
  }

  lemma SumUpdate(blocks: seq<Block>, i: nat, b: Block)
    requires i < |blocks|
    ensures SumSizes(blocks[i := b]) == SumSizes(blocks) - blocks[i].size + b.size
  {
    hide SumSizes;
    assert blocks == blocks[..i] + [blocks[i]] + blocks[i + 1..];
    assert blocks[i := b] == blocks[..i] + [b] + blocks[i + 1..];
    SumConcat(blocks[..i] + [blocks[i]], blocks[i + 1..]);
    SumConcat(blocks[..i], [blocks[i]]);
    SumConcat(blocks[..i] + [b], blocks[i + 1..]);
    SumConcat(blocks[..i], [b]);
    SumOne(b);
    SumOne(blocks[i]);
  }

  lemma SumOne(b: Block)
    ensures SumSizes([b]) == b.size
  {
    assert [b][1..] == [];
  }

  lemma OrderedAppend(list: seq<Record>, record: Record)
    requires Ordered(list) && record.count > 0
    requires list != [] ==> list[|list| - 1].LastOffset() <= record.baseOffset
    ensures Ordered(list + [record])
  {
    var l := list + [record];
    forall i, j | 0 <= i < j < |l| ensures l[i].LastOffset() <= l[j].baseOffset {
      if j == |list| && i < |list| - 1 {
        assert list[i].LastOffset() <= list[|list| - 1].baseOffset;
        assert list[|list| - 1].count > 0;
      }
    }
  }

  /** A put appends to one stream's list and touches no other. */
  lemma PutList(c: Cache, record: Record, s: nat)
    requires c.blocks != [] && BlocksOk(c.blocks) && Continues(Active(c), record)
    ensures ListOf(PutActive(c, record).blocks, s)
         == ListOf(c.blocks, s) + (if Accepts(Active(c), record) && s == record.streamId then [record] else [])
  {
    hide BlockOk, Accepts, PutBlock, Continues;
    var n := |c.blocks|;
    PutBlockOk(Active(c), record);
    var blocks' := PutActive(c, record).blocks;
    assert blocks'[..n - 1] == c.blocks[..n - 1];
  }

  lemma PutKeeps(c: Cache, record: Record)
    requires Inv(c) && CanPut(c, record)
    ensures Inv(PutActive(c, record))
  {
    hide BlockOk, Accepts, Continues, Ordered, ListOf, SumSizes, PutBlock;
    var c' := PutActive(c, record);
    PutBlockOk(Active(c), record);
    PutFields(Active(c), record);
    SumUpdate(c.blocks, |c.blocks| - 1, PutBlock(Active(c), record));
    forall s ensures Ordered(ListOf(c'.blocks, s)) {
      PutList(c, record, s);
      if Accepts(Active(c), record) && s == record.streamId {
        ContinuesPositive(Active(c), record);
        OrderedAppend(ListOf(c.blocks, s), record);
      } else {
        assert ListOf(c'.blocks, s) == ListOf(c.blocks, s);
      }
    }
  }

  lemma PutFields(b: Block, record: Record)
    ensures var b' := PutBlock(b, record);
            && b'.id == b.id && b'.free == b.free
            && b'.size == b.size + (if Accepts(b, record) then record.OccupiedSize() else 0)
  {
  }

  lemma ContinuesPositive(b: Block, record: Record)
    requires Continues(b, record)
    ensures record.count > 0
  {
  }

  /** Sealing adds an empty block and moves no record. */
  lemma ArchiveList(cfg: Config, c: Cache, s: nat)
    requires c.blocks != []
    ensures ListOf(Archive(cfg, c).blocks, s) == ListOf(c.blocks, s)
  {
    var blocks' := Archive(cfg, c).blocks;
    var n := |c.blocks|;
    assert blocks'[..n][..n - 1] == c.blocks[..n - 1];
    assert blocks'[..n] == blocks'[..|blocks'| - 1];
    assert blocks'[n].Of(s) == [];
  }

  lemma ArchiveKeeps(cfg: Config, c: Cache)
    requires Inv(c)
    ensures Inv(Archive(cfg, c))
  {
    hide Ordered, ListOf, SumSizes;
    var c', n := Archive(cfg, c), |c.blocks|;
    forall s ensures Ordered(ListOf(c'.blocks, s)) {
      ArchiveList(cfg, c, s);
    }
    SumUpdate(c.blocks, n - 1, c'.blocks[n - 1]);
    SumConcat(c.blocks[n - 1 := c'.blocks[n - 1]], [c'.blocks[n]]);
    SumOne(c'.blocks[n]);
  }

  lemma MarkList(c: Cache, id: nat, s: nat)
    ensures ListOf(Mark(c, id).blocks, s) == ListOf(c.blocks, s)
  {
    ListSame(Mark(c, id).blocks, c.blocks, s);
  }

  lemma {:induction false} SumSame(a: seq<Block>, b: seq<Block>)
    requires |a| == |b| && forall i :: 0 <= i < |a| ==> a[i].size == b[i].size
    ensures SumSizes(a) == SumSizes(b)
  {
    if a != [] {
      SumSame(a[1..], b[1..]);
    }
  }

  lemma MarkKeeps(c: Cache, id: nat)
    requires Inv(c) && id != Active(c).id
    ensures Inv(Mark(c, id))
  {
    hide Ordered, ListOf, SumSizes;
    var c' := Mark(c, id);
    forall s ensures Ordered(ListOf(c'.blocks, s)) {
      MarkList(c, id, s);
    }
    SumSame(c'.blocks, c.blocks);
  }

  // ---- Freeing -------------------------------------------------------------------------------

  /** Physical freeing removes a prefix: blocks marked free, each while what is left exceeds a limit.
      It stops at the first block that is in use, or when the rest is within the limits. */
  lemma {:induction false} FreePrefixSplits(cfg: Config, c: Cache) returns (k: nat)
    requires c.size == SumSizes(c.blocks)
    ensures k <= |c.blocks| && FreePrefix(cfg, c) == c.(blocks := c.blocks[k..], size := SumSizes(c.blocks[k..]))
    ensures forall i :: 0 <= i < k ==> c.blocks[i].free && Over(cfg, SumSizes(c.blocks[i..]), |c.blocks| - i)
    ensures k < |c.blocks| ==> !c.blocks[k].free || !Over(cfg, SumSizes(c.blocks[k..]), |c.blocks| - k)
    decreases |c.blocks|
  {
    if c.blocks == [] || !Over(cfg, c.size, |c.blocks|) || !c.blocks[0].free {
      k := 0;
      assert c.blocks[0..] == c.blocks;
    } else {
      var rest := c.(blocks := c.blocks[1..], size := c.size - c.blocks[0].size);
      var j := FreePrefixSplits(cfg, rest);
      k := j + 1;
      assert rest.blocks[j..] == c.blocks[k..];
      forall i | 0 <= i < k ensures c.blocks[i].free && Over(cfg, SumSizes(c.blocks[i..]), |c.blocks| - i) {
        if i == 0 {
          assert c.blocks[0..] == c.blocks;
        } else {
          assert c.blocks[i] == rest.blocks[i - 1] && rest.blocks[i - 1..] == c.blocks[i..];
        }
      }
    }
  }

  /** A cache within its limits frees nothing. */
  lemma WithinFreesNothing(cfg: Config, c: Cache)
    requires c.size == SumSizes(c.blocks) && !Over(cfg, c.size, |c.blocks|)
    ensures FreePrefix(cfg, c) == c
  {
  }

  lemma OrderedSuffix(list: seq<Record>, a: seq<Record>, b: seq<Record>)
    requires list == a + b && Ordered(list)
    ensures Ordered(b)
  {
    forall i | 0 <= i < |b| ensures b[i].count > 0 {
      assert list[|a| + i] == b[i];
    }
    forall i, j | 0 <= i < j < |b| ensures b[i].LastOffset() <= b[j].baseOffset {
      assert list[|a| + i] == b[i] && list[|a| + j] == b[j];
    }
  }

  lemma FreeKeeps(cfg: Config, c: Cache) returns (k: nat)
    requires Inv(c)
    ensures Inv(FreePrefix(cfg, c))
    ensures k < |c.blocks| && FreePrefix(cfg, c).blocks == c.blocks[k..]
    ensures forall i :: 0 <= i < k ==> c.blocks[i].free
    ensures Active(FreePrefix(cfg, c)) == Active(c)
    ensures forall s :: ListOf(c.blocks, s) == ListOf(c.blocks[..k], s) + ListOf(FreePrefix(cfg, c).blocks, s)
  {
    hide Ordered, ListOf, SumSizes, FreePrefix, BlockOk;
    k := FreePrefixSplits(cfg, c);
    var c' := FreePrefix(cfg, c);
    assert Active(c) == c.blocks[|c.blocks| - 1];
    forall s ensures ListOf(c.blocks, s) == ListOf(c.blocks[..k], s) + ListOf(c'.blocks, s)
             && Ordered(ListOf(c'.blocks, s)) {
      assert c.blocks == c.blocks[..k] + c.blocks[k..];
      ListConcat(c.blocks[..k], c.blocks[k..], s);
      OrderedSuffix(ListOf(c.blocks, s), ListOf(c.blocks[..k], s), ListOf(c'.blocks, s));
    }
  }

  /** Freeing never makes a put illegal. */
  lemma FreeKeepsCanPut(cfg: Config, c: Cache, record: Record)
    requires Inv(c) && CanPut(c, record)
    ensures FreePrefix(cfg, c).blocks != [] && CanPut(FreePrefix(cfg, c), record)
  {
    hide Inv, ListOf, FreePrefix, Continues;
    assert c.size == SumSizes(c.blocks) by { InvSize(c); }
    var k := FreeKeeps(cfg, c);
    var list, rest := ListOf(c.blocks, record.streamId), ListOf(FreePrefix(cfg, c).blocks, record.streamId);
    assert list == ListOf(c.blocks[..k], record.streamId) + rest;
    if rest != [] {
      assert list[|list| - 1] == rest[|rest| - 1];
    }
  }

  lemma InvSize(c: Cache)
    requires Inv(c)
    ensures c.size == SumSizes(c.blocks)
  {
  }

  // ---- Merging -------------------------------------------------------------------------------

  lemma AbsorbAt(merged: Block, source: Block, s: nat)
    ensures s in Absorb(merged, source).streams <==> s in merged.streams || s in source.streams
    ensures s in Absorb(merged, source).streams ==>
              Absorb(merged, source).streams[s] == AbsorbCache(merged, source, s)
  {
    hide AbsorbCache;
  }

  lemma MergedStream(left: Block, right: Block, id: nat, s: nat)
    requires BlockOk(left) && BlockOk(right) && !Discontinuous(left, right)
    ensures Merged(left, right, id).Of(s) == left.Of(s) + right.Of(s)
    ensures s in Merged(left, right, id).streams ==> CacheOk(Merged(left, right, id).streams[s])
  {
    hide Absorb, CacheOk;
    var blank := NewBlock(id, U64_MAX, DEFAULT_MAX_BLOCK_STREAM_COUNT);
    AbsorbAt(blank, left, s);
    AbsorbAt(Absorb(blank, left), right, s);
    if s in left.streams && s in right.streams {
      JoinOk(left.streams[s], right.streams[s]);
    } else if s in left.streams {
      HintsDropped(left.streams[s]);
    } else if s in right.streams {
      HintsDropped(right.streams[s]);
    }
  }

  lemma HintsDropped(c: StreamCache)
    requires CacheOk(c)
    ensures CacheOk(c.(hints := map[]))
  {
  }

  lemma JoinOk(a: StreamCache, b: StreamCache)
    requires CacheOk(a) && CacheOk(b) && a.end == b.start
    ensures CacheOk(StreamCache(a.records + b.records, a.start, b.end, map[]))
  {
    if b.records == [] {
      assert a.records + b.records == a.records;
    } else {
      hide Contiguous;
      JoinContiguous(a.records, b.records);
    }
  }

  lemma JoinContiguous(a: seq<Record>, b: seq<Record>)
    requires Contiguous(a) && Contiguous(b) && a != []
    requires b != [] ==> b[0].baseOffset == a[|a| - 1].LastOffset()
    ensures Contiguous(a + b)
  {
  }

  /** Merging freed neighbours moves records between blocks; no stream's list changes. */
  lemma MergeList(cfg: Config, c: Cache, i: nat, s: nat)
    requires BlocksOk(c.blocks) && Mergeable(cfg, c, i)
    ensures ListOf(MergeAt(c, i).blocks, s) == ListOf(c.blocks, s)
  {
    hide ListOf, Merged, Discontinuous, BlockOk;
    var m := Merged(c.blocks[i], c.blocks[i + 1], c.nextId);
    var a, rest := c.blocks[..i], c.blocks[i + 2..];
    MergedStream(c.blocks[i], c.blocks[i + 1], c.nextId, s);
    ListConcat(a + [m], rest, s);
    ListConcat(a, [m], s);
    ListOne(m, s);
    ListSplit(c.blocks, i, s);
    var tail := c.blocks[i + 1..];
    ListSplit(tail, 0, s);
    assert tail[..0] == [] && tail[1..] == rest && tail[0] == c.blocks[i + 1];
    ListNone(s);
  }

  lemma ListNone(s: nat)
    ensures ListOf([], s) == []
  {
  }

  lemma MergeKeeps(cfg: Config, c: Cache, i: nat)
    requires Inv(c) && Mergeable(cfg, c, i)
    ensures Inv(MergeAt(c, i))
    ensures Active(MergeAt(c, i)) == Active(c)
  {
    hide ListOf, Merged, Discontinuous, SumSizes, Ordered, BlockOk, Ids;
    var c', l, r := MergeAt(c, i), c.blocks[i], c.blocks[i + 1];
    assert Active(c) == c.blocks[|c.blocks| - 1];
    forall s ensures Ordered(ListOf(c'.blocks, s)) {
      MergeList(cfg, c, i, s);
    }
    MergedBlock(l, r, c.nextId);
    MergeSums(c, i);
    MergeIds(c, i);
    assert BlocksOk(c'.blocks);
  }

  lemma MergedBlock(left: Block, right: Block, id: nat)
    requires BlockOk(left) && BlockOk(right) && !Discontinuous(left, right)
    ensures BlockOk(Merged(left, right, id)) && Merged(left, right, id).id == id
    ensures Merged(left, right, id).size == left.size + right.size && Merged(left, right, id).free
  {
    hide Discontinuous, BlockOk;
    MergedFields(left, right, id);
    var m := Merged(left, right, id);
    assert BlockOk(m) by {
      forall s | s in m.streams ensures CacheOk(m.streams[s]) {
        MergedStream(left, right, id, s);
      }
      StreamsOk(m);
    }
  }

  lemma StreamsOk(b: Block)
    requires forall s :: s in b.streams ==> CacheOk(b.streams[s])
    ensures BlockOk(b)
  {
  }

  lemma MergedFields(left: Block, right: Block, id: nat)
    ensures Merged(left, right, id).id == id
    ensures Merged(left, right, id).size == left.size + right.size && Merged(left, right, id).free
  {
  }

  lemma MergeSums(c: Cache, i: nat)
    requires i + 1 < |c.blocks|
    ensures SumSizes(MergeAt(c, i).blocks) == SumSizes(c.blocks)
  {
    hide SumSizes, Merged;
    var m := Merged(c.blocks[i], c.blocks[i + 1], c.nextId);
    MergedFields(c.blocks[i], c.blocks[i + 1], c.nextId);
    var a, rest := c.blocks[..i], c.blocks[i + 2..];
    assert c.blocks == a + [c.blocks[i]] + [c.blocks[i + 1]] + rest;
    SumConcat(a + [m], rest);
    SumConcat(a, [m]);
    SumConcat(a + [c.blocks[i]] + [c.blocks[i + 1]], rest);
    SumConcat(a + [c.blocks[i]], [c.blocks[i + 1]]);
    SumConcat(a, [c.blocks[i]]);
    SumOne(m);
    SumOne(c.blocks[i]);
    SumOne(c.blocks[i + 1]);
  }

  lemma MergeIds(c: Cache, i: nat)
    requires Ids(c) && i + 1 < |c.blocks|
    ensures Ids(MergeAt(c, i))
  {
    hide Merged;
    MergedFields(c.blocks[i], c.blocks[i + 1], c.nextId);
  }

  /** A whole merge pass is invisible to every query, and keeps the active block. */
  lemma {:induction false} MergePass(cfg: Config, c: Cache, i: nat, s: nat)
    requires Inv(c)
    ensures Inv(MergeFrom(cfg, c, i))
    ensures ListOf(MergeFrom(cfg, c, i).blocks, s) == ListOf(c.blocks, s)
    ensures Active(MergeFrom(cfg, c, i)) == Active(c)
    decreases |c.blocks| - i
  {
    hide Inv, ListOf, Merged, Discontinuous, SumSizes, Ordered, BlockOk;
    if |c.blocks| <= MERGE_BLOCK_THRESHOLD || i + 1 >= |c.blocks| {
    } else if !c.blocks[i].free || !c.blocks[i + 1].free {
    } else if Mergeable(cfg, c, i) {
      MergeKeeps(cfg, c, i);
      InvBlocks(c);
      MergeList(cfg, c, i, s);
      MergePass(cfg, MergeAt(c, i), i, s);
    } else {
      MergePass(cfg, c, i + 1, s);
    }
  }

  lemma InvBlocks(c: Cache)
    requires Inv(c)
    ensures BlocksOk(c.blocks)
  {
  }

  lemma ReadKeeps(c: Cache, blocks: seq<Block>)
    requires Inv(c) && SameBlocks(c.blocks, blocks) && BlocksOk(blocks)
    ensures Inv(c.(blocks := blocks))
  {
    hide Ordered, ListOf, SumSizes, BlockOk;
    forall s ensures Ordered(ListOf(blocks, s)) {
      SameLists(c.blocks, blocks, s);
    }
    assert forall i :: 0 <= i < |blocks| ==> SameBlock(c.blocks[i], blocks[i]);
    SumSame(c.blocks, blocks);
  }
}
