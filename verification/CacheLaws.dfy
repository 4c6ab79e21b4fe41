/**
 * What the cache keeps and gives up over its runs: records stay while it is within its limits, marked
 * blocks can go, merge passes finish their work, and the size counter is the size of the records.
 */
module CacheLaws {
  import opened Records
  import opened CacheBlocks
  import opened CacheReads
  import opened CacheSteps
  import opened LogCache

  // ---- When a read finds something -------------------------------------------------------------------------

  /** A gap-free run from the record that covers the start meets the end offset or the budget. */
  ghost predicate CoverServes(list: seq<Record>, start: nat, end: nat, max: nat) {
    exists i: nat, j: nat :: i < |list| && Covers(list[i], start) && Reaches(list, i, j, end, max)
  }

  /** So does the longest gap-free tail, and it begins inside the range. */
  ghost predicate TailServes(list: seq<Record>, start: nat, end: nat, max: nat) {
    exists t: nat, j: nat :: LongestTail(list, t) && start < list[t].baseOffset < end && Reaches(list, t, j, end, max)
  }

  lemma ServeIff(list: seq<Record>, start: nat, end: nat, max: nat)
    requires Ordered(list)
    ensures Serve(list, start, end, max).Some? <==> CoverServes(list, start, end, max)
    ensures Serve(list, start, end, max).Some? ==> Serve(list, start, end, max).value != []
  {
    hide TakeRun, Reaches, Ordered;
    var c := Cover(list, start);
    if c.Some? {
      FulfilledIff(list, c.value, end, max);
    }
    forall i: nat, j: nat | i < |list| && Covers(list[i], start) && Reaches(list, i, j, end, max)
      ensures c == Some(i)
    {
      CoverUnique(list, start, i);
    }
  }

  lemma TailServesIff(list: seq<Record>, start: nat, end: nat, max: nat)
    requires Ordered(list) && list != []
    ensures var tail := list[TailIndex(list)].baseOffset;
            TailServes(list, start, end, max) <==> start < tail < end && Serve(list, tail, end, max).Some?
  {
    hide TakeRun, Reaches, Ordered, Contiguous, TailIndex, Serve;
    var t := TailIndex(list);
    TailIsLongest(list);
    BaseIsCovered(list, t);
    ServeIff(list, list[t].baseOffset, end, max);
    forall u: nat | LongestTail(list, u) ensures u == t {
      TailIndexIs(list, u);
    }
    if CoverServes(list, list[t].baseOffset, end, max) {
      var i: nat, j: nat :| i < |list| && Covers(list[i], list[t].baseOffset) && Reaches(list, i, j, end, max);
      CoverUnique(list, list[t].baseOffset, i);
      assert LongestTail(list, t) && Reaches(list, t, j, end, max);
    }
    if TailServes(list, start, end, max) {
      var u: nat, j: nat :| LongestTail(list, u) && start < list[u].baseOffset < end && Reaches(list, u, j, end, max);
      assert Covers(list[t], list[t].baseOffset);
    }
  }

  /** A read finds something if and only if one of the two can serve it. */
  lemma ReadFindsIff(list: seq<Record>, start: nat, end: nat, max: nat)
    requires Ordered(list)
    ensures PlainGet(list, start, end, max) != [] <==>
              CoverServes(list, start, end, max) || TailServes(list, start, end, max)
  {
    hide Ordered, TailIndex, Serve, CoverServes, TailServes;
    ServeIff(list, start, end, max);
    if list != [] {
      TailServesIff(list, start, end, max);
      ServeIff(list, list[TailIndex(list)].baseOffset, end, max);
    } else {
      NothingServes(start, end, max);
    }
  }

  lemma NothingServes(start: nat, end: nat, max: nat)
    ensures !TailServes([], start, end, max)
  {
  }

  // ---- Freed blocks stay while there is room -------------------------------------------------------------

  predicate WithinLimits(cfg: Config, c: Cache) { !Over(cfg, c.size, |c.blocks|) }

  lemma StepExtends(cfg: Config, t: Trace, op: Op, s: nat)
    requires Inv(t.cache) && t.cache.blocks != [] && Enabled(cfg, t, op) && WithinLimits(cfg, t.cache)
    ensures ListOf(t.cache.blocks, s) <= ListOf(Apply(cfg, t, op).cache.blocks, s)
  {
    hide Inv, ListOf, FreePrefix, MergeAt, PutActive, Archive, Mark, SameBlocks, Mergeable, CanPut;
    var c := t.cache;
    InvBlocks(c);
    match op
    case PutOp(record) => PutNeeds(c, record); PutList(c, record, s);
    case ArchiveOp => ArchiveList(cfg, c, s);
    case MarkOp(id) => MarkList(c, id, s);
    case FreeOp => WithinFreesNothing(cfg, c);
    case MergeOne(i) => MergeList(cfg, c, i, s);
    case ReadOp(blocks) => SameLists(c.blocks, blocks, s);
    case SetLast(_) =>
  }

  /** While the cache stays within its limits every stream's list only grows at its end. */
  lemma {:induction false} ListsGrow(cfg: Config, run: seq<Trace>, m: nat, n: nat, s: nat)
    requires IsRun(cfg, run) && m <= n < |run|
    requires forall i :: m <= i < n ==> WithinLimits(cfg, run[i].cache)
    ensures ListOf(run[m].cache.blocks, s) <= ListOf(run[n].cache.blocks, s)
    decreases n - m
  {
    hide Inv, Enabled, Apply, ListOf, WithinLimits;
    if m < n {
      ListsGrow(cfg, run, m, n - 1, s);
      assert Step(cfg, run[n - 1], run[n]);
      var op :| Enabled(cfg, run[n - 1], op) && Apply(cfg, run[n - 1], op) == run[n];
      RunInv(cfg, run, n - 1);
      StepExtends(cfg, run[n - 1], op, s);
    }
  }

  /** Marked free or not, a cached record is served as long as the cache stays within its limits. */
  lemma ServedWhileWithin(cfg: Config, run: seq<Trace>, m: nat, n: nat, s: nat, x: Record, max: nat)
    requires IsRun(cfg, run) && m <= n < |run| && x in ListOf(run[m].cache.blocks, s)
    requires forall i :: m <= i < n ==> WithinLimits(cfg, run[i].cache)
    ensures PlainGet(ListOf(run[n].cache.blocks, s), x.baseOffset, x.LastOffset(), max) == [x]
  {
    hide IsRun, PlainGet, ListOf, Ordered, WithinLimits, Inv;
    ListsGrow(cfg, run, m, n, s);
    RunInv(cfg, run, n);
    InvList(run[n].cache, s);
    var list := ListOf(run[n].cache.blocks, s);
    var k :| 0 <= k < |ListOf(run[m].cache.blocks, s)| && ListOf(run[m].cache.blocks, s)[k] == x;
    assert list[k] == x;
    RecordIsServed(list, k, max);
  }

  // ---- Marked blocks can go ------------------------------------------------------------------------------

  /** Blocks that were marked are free, and no later block takes their id. */
  ghost predicate MarkedFree(t: Trace) {
    && (forall i :: 0 <= i < |t.cache.blocks| && t.cache.blocks[i].id in t.marked ==> t.cache.blocks[i].free)
    && (forall id :: id in t.marked ==> id < t.cache.nextId)
  }

  lemma StepMarkedFree(cfg: Config, t: Trace, op: Op)
    requires Inv(t.cache) && t.cache.blocks != [] && Enabled(cfg, t, op) && MarkedFree(t)
    ensures MarkedFree(Apply(cfg, t, op))
  {
    hide Inv, Lists, SumSizes, FreePrefix, Merged, Discontinuous, SameBlocks, PutBlock, Accepts, ListOf;
    var c := t.cache;
    match op
    case PutOp(record) => PutFields(Active(c), record);
    case FreeOp => var k := FreeKeeps(cfg, c);
      FreeFields(cfg, c);
    case MergeOne(i) => MergedFields(c.blocks[i], c.blocks[i + 1], c.nextId);
    case ReadOp(blocks) => SameFields(c.blocks, blocks);
    case _ =>
  }

  lemma FreeFields(cfg: Config, c: Cache)
    requires c.size == SumSizes(c.blocks)
    ensures FreePrefix(cfg, c).nextId == c.nextId && FreePrefix(cfg, c).last == c.last
  {
    hide FreePrefix;
    var _ := FreePrefixSplits(cfg, c);
  }

  lemma SameFields(a: seq<Block>, b: seq<Block>)
    requires SameBlocks(a, b)
    ensures |a| == |b| && forall i :: 0 <= i < |a| ==> b[i] == a[i].(streams := b[i].streams)
  {
    forall i | 0 <= i < |a| ensures b[i] == a[i].(streams := b[i].streams) {
      assert SameBlock(a[i], b[i]);
    }
  }

  lemma {:induction false} RunMarkedFree(cfg: Config, run: seq<Trace>, n: nat)
    requires IsRun(cfg, run) && n < |run|
    ensures MarkedFree(run[n])
  {
    hide Inv, Enabled, Apply;
    if n > 0 {
      RunMarkedFree(cfg, run, n - 1);
      assert Step(cfg, run[n - 1], run[n]);
      var op :| Enabled(cfg, run[n - 1], op) && Apply(cfg, run[n - 1], op) == run[n];
      RunInv(cfg, run, n - 1);
      StepMarkedFree(cfg, run[n - 1], op);
    }
  }

  /** After freeing, the cache is within its limits or its oldest block was never marked free. */
  lemma FreeMakesRoom(cfg: Config, run: seq<Trace>, n: nat)
    requires IsRun(cfg, run) && n < |run|
    ensures run[n].cache.size == SumSizes(run[n].cache.blocks)
    ensures var c := FreePrefix(cfg, run[n].cache);
            c.blocks != [] && (WithinLimits(cfg, c) || c.blocks[0].id !in run[n].marked)
  {
    hide IsRun, Inv, FreePrefix, ListOf, SumSizes;
    RunInv(cfg, run, n);
    RunMarkedFree(cfg, run, n);
    var c := run[n].cache;
    InvSize(c);
    var _ := FreeKeeps(cfg, c);
    var k := FreePrefixSplits(cfg, c);
    InvNonempty(FreePrefix(cfg, c));
    if k < |c.blocks| {
      assert FreePrefix(cfg, c).blocks[0] == c.blocks[k];
    }
  }

  // ---- A merge pass finishes -------------------------------------------------------------------------------

  /** Blocks `j` and `j + 1` are free, small enough together and meet in every shared stream. */
  predicate Pair(cfg: Config, blocks: seq<Block>, j: nat) {
    && j + 1 < |blocks| && blocks[j].free && blocks[j + 1].free
    && blocks[j].size + blocks[j + 1].size < cfg.blockMaxSize && !Discontinuous(blocks[j], blocks[j + 1])
  }

  /** The blocks up to and including `j` are free. */
  predicate FreeUpTo(blocks: seq<Block>, j: nat) {
    j < |blocks| && forall k :: 0 <= k <= j ==> blocks[k].free
  }

  /** A pair that cannot be merged stays so when its right block absorbs more. */
  lemma StaysApart(cfg: Config, left: Block, mid: Block, right: Block, id: nat)
    requires BlockOk(mid) && BlockOk(right) && !Discontinuous(mid, right)
    requires left.size + mid.size >= cfg.blockMaxSize || Discontinuous(left, mid)
    ensures left.size + Merged(mid, right, id).size >= cfg.blockMaxSize || Discontinuous(left, Merged(mid, right, id))
  {
    hide BlockOk;
    MergedFields(mid, right, id);
    if Discontinuous(left, mid) {
      var s :| s in left.streams && s in mid.streams && left.streams[s].end != mid.streams[s].start;
      MergedStart(mid, right, id, s);
    }
  }

  lemma MergedStart(left: Block, right: Block, id: nat, s: nat)
    requires s in left.streams
    ensures s in Merged(left, right, id).streams && Merged(left, right, id).streams[s].start == left.streams[s].start
  {
    var half := Absorb(NewBlock(id, U64_MAX, DEFAULT_MAX_BLOCK_STREAM_COUNT), left);
    assert s in half.streams && half.streams[s].start == left.streams[s].start;
  }

  /** No pair before `i` can be merged. */
  predicate NoPairBefore(cfg: Config, blocks: seq<Block>, i: nat) {
    forall j: nat :: j < i ==> !Pair(cfg, blocks, j)
  }

  lemma MergeApart(cfg: Config, c: Cache, i: nat)
    requires Inv(c) && Mergeable(cfg, c, i) && NoPairBefore(cfg, c.blocks, i) && FreeUpTo(c.blocks, i)
    ensures NoPairBefore(cfg, MergeAt(c, i).blocks, i) && FreeUpTo(MergeAt(c, i).blocks, i)
    ensures |MergeAt(c, i).blocks| == |c.blocks| - 1
  {
    hide Merged, Discontinuous, Lists, Ids, SumSizes, BlockOk;
    var blocks := MergeAt(c, i).blocks;
    MergedFields(c.blocks[i], c.blocks[i + 1], c.nextId);
    forall j: nat | j < i ensures !Pair(cfg, blocks, j) {
      assert !Pair(cfg, c.blocks, j);
      if j == i - 1 {
        StaysApart(cfg, c.blocks[j], c.blocks[i], c.blocks[i + 1], c.nextId);
      }
    }
  }

  /**
   * A merge pass leaves no two neighbouring freed blocks that could be merged in front of the first
   * block in use, unless it got down to the threshold; it never goes below the threshold.
   */
  lemma {:induction false} MergePassFinishes(cfg: Config, c: Cache, i: nat)
    requires Inv(c) && NoPairBefore(cfg, c.blocks, i) && (i > 0 ==> FreeUpTo(c.blocks, i))
    ensures var blocks := MergeFrom(cfg, c, i).blocks;
            && (|blocks| <= MERGE_BLOCK_THRESHOLD || forall j: nat :: FreeUpTo(blocks, j) ==> !Pair(cfg, blocks, j))
            && (|c.blocks| >= MERGE_BLOCK_THRESHOLD ==> |blocks| >= MERGE_BLOCK_THRESHOLD)
            && (|c.blocks| <= MERGE_BLOCK_THRESHOLD ==> blocks == c.blocks)
    decreases |c.blocks| - i
  {
    hide Inv, Discontinuous, MergeAt, Merged;
    if |c.blocks| <= MERGE_BLOCK_THRESHOLD || i + 1 >= |c.blocks| {
    } else if !c.blocks[i].free || !c.blocks[i + 1].free {
      forall j: nat | FreeUpTo(c.blocks, j) ensures !Pair(cfg, c.blocks, j) {
        if j >= i {
          assert c.blocks[i].free;
        }
      }
    } else if Mergeable(cfg, c, i) {
      MergeKeeps(cfg, c, i);
      MergeApart(cfg, c, i);
      MergePassFinishes(cfg, MergeAt(c, i), i);
    } else {
      MergePassFinishes(cfg, c, i + 1);
    }
  }

  // ---- What the size counter counts ------------------------------------------------------------------------

  function Occupied(records: seq<Record>): nat {
    if records == [] then 0 else Occupied(records[..|records| - 1]) + records[|records| - 1].OccupiedSize()
  }

  lemma {:induction false} OccupiedConcat(a: seq<Record>, b: seq<Record>)
    ensures Occupied(a + b) == Occupied(a) + Occupied(b)
  {
    if b == [] {
      assert a + b == a;
    } else {
      assert (a + b)[..|a + b| - 1] == a + b[..|b| - 1];
      OccupiedConcat(a, b[..|b| - 1]);
    }
  }

  /** The total size of the records of all streams. */
  ghost function Weight(streams: map<nat, StreamCache>): nat
    decreases streams.Keys
  {
    if streams == map[] then 0
    else
      var s :| s in streams;
      Occupied(streams[s].records) + Weight(streams - {s})
  }

  /** The order in which streams are added up does not matter. */
  lemma {:induction false} WeightWithout(streams: map<nat, StreamCache>, s: nat)
    requires s in streams
    ensures Weight(streams) == Occupied(streams[s].records) + Weight(streams - {s})
    decreases streams.Keys
  {
    var t :| t in streams && Weight(streams) == Occupied(streams[t].records) + Weight(streams - {t});
    if t != s {
      WeightWithout(streams - {t}, s);
      WeightWithout(streams - {s}, t);
      assert streams - {t} - {s} == streams - {s} - {t};
    }
  }

  lemma WeightUpdate(streams: map<nat, StreamCache>, s: nat, c: StreamCache)
    ensures Weight(streams[s := c])
         == Weight(streams - {s}) + Occupied(c.records)
    ensures Weight(streams) == Weight(streams - {s}) + if s in streams then Occupied(streams[s].records) else 0
  {
    WeightWithout(streams[s := c], s);
    assert streams[s := c] - {s} == streams - {s};
    if s in streams {
      WeightWithout(streams, s);
    } else {
      assert streams - {s} == streams;
    }
  }

  lemma {:induction false} WeightSame(a: map<nat, StreamCache>, b: map<nat, StreamCache>)
    requires a.Keys == b.Keys && forall s :: s in a ==> a[s].records == b[s].records
    ensures Weight(a) == Weight(b)
    decreases a.Keys
  {
    if a != map[] {
      var s :| s in a;
      WeightWithout(a, s);
      WeightWithout(b, s);
      WeightSame(a - {s}, b - {s});
    } else {
      assert b == map[];
    }
  }

  lemma AppendWeight(streams: map<nat, StreamCache>, s: nat, from: StreamCache)
    ensures Weight(AppendStream(streams, s, from)) == Weight(streams) + Occupied(from.records)
  {
    hide Weight, Occupied;
    WeightUpdate(streams, s, AppendStream(streams, s, from)[s]);
    if s in streams {
      OccupiedConcat(streams[s].records, from.records);
    }
  }

  lemma {:induction false} AbsorbingWeight(merged: Block, source: Block, streams: map<nat, StreamCache>, todo: set<nat>)
    requires Absorbing(merged, source, streams, todo)
    ensures Weight(Absorb(merged, source).streams)
         == Weight(streams) + Weight(source.streams - (source.streams.Keys - todo))
    decreases todo
  {
    hide Weight, Occupied, AppendStream, AbsorbCache;
    if todo == {} {
      AbsorbIs(merged, source, streams);
      assert source.streams - (source.streams.Keys - todo) == map[];
      WeightNone();
    } else {
      var s :| s in todo;
      AbsorbOne(merged, source, streams, todo, s);
      AppendWeight(streams, s, source.streams[s]);
      AbsorbingWeight(merged, source, AppendStream(streams, s, source.streams[s]), todo - {s});
      var left := source.streams - (source.streams.Keys - todo);
      WeightWithout(left, s);
      assert left - {s} == source.streams - (source.streams.Keys - (todo - {s}));
    }
  }

  lemma WeightNone()
    ensures Weight(map[]) == 0
  {
  }

  lemma AbsorbWeight(merged: Block, source: Block)
    ensures Weight(Absorb(merged, source).streams) == Weight(merged.streams) + Weight(source.streams)
  {
    hide Weight, Absorb, Absorbing;
    AbsorbStart(merged, source);
    AbsorbingWeight(merged, source, merged.streams, source.streams.Keys);
    assert source.streams - (source.streams.Keys - source.streams.Keys) == source.streams;
  }

  lemma MergedWeight(left: Block, right: Block, id: nat)
    ensures Weight(Merged(left, right, id).streams) == Weight(left.streams) + Weight(right.streams)
  {
    hide Weight, Absorb;
    var blank := NewBlock(id, U64_MAX, DEFAULT_MAX_BLOCK_STREAM_COUNT);
    WeightNone();
    AbsorbWeight(blank, left);
    AbsorbWeight(Absorb(blank, left), right);
  }

  /** Each block's size is the total size of its records. */
  ghost predicate Weighed(blocks: seq<Block>) {
    forall i :: 0 <= i < |blocks| ==> blocks[i].size == Weight(blocks[i].streams)
  }

  lemma PutWeight(b: Block, record: Record)
    requires b.size == Weight(b.streams) && BlockOk(b) && Continues(b, record)
    ensures PutBlock(b, record).size == Weight(PutBlock(b, record).streams)
  {
    hide Weight, TooWide;
    var c := b.Cached(record.streamId);
    WeightUpdate(b.streams, record.streamId, PutBlock(b, record).Cached(record.streamId));
    OccupiedNone();
    if Accepts(b, record) {
      assert Add(c, record).records == c.records + [record];
      OccupiedConcat(c.records, [record]);
      OccupiedOne(record);
    }
  }

  lemma OccupiedNone()
    ensures Occupied([]) == 0
  {
  }

  lemma OccupiedOne(x: Record)
    ensures Occupied([x]) == x.OccupiedSize()
  {
    assert [x][..0] == [];
  }

  lemma StepWeighed(cfg: Config, t: Trace, op: Op)
    requires Inv(t.cache) && t.cache.blocks != [] && Enabled(cfg, t, op) && Weighed(t.cache.blocks)
    ensures Weighed(Apply(cfg, t, op).cache.blocks)
  {
    hide Inv, Weight, SumSizes, FreePrefix, Merged, Discontinuous, PutBlock, Accepts, CanPut, SameBlocks;
    hide ListOf, BlockOk;
    var c := t.cache;
    match op
    case PutOp(record) => PutNeeds(c, record); PutWeight(Active(c), record);
    case ArchiveOp => WeightNone();
    case FreeOp => var k := FreeKeeps(cfg, c);
    case MergeOne(i) =>
      MergedFields(c.blocks[i], c.blocks[i + 1], c.nextId);
      MergedWeight(c.blocks[i], c.blocks[i + 1], c.nextId);
    case ReadOp(blocks) => ReadWeighed(c.blocks, blocks);
    case _ =>
  }

  lemma ReadWeighed(a: seq<Block>, b: seq<Block>)
    requires SameBlocks(a, b) && Weighed(a)
    ensures Weighed(b)
  {
    hide Weight;
    forall i | 0 <= i < |b| ensures b[i].size == Weight(b[i].streams) {
      assert SameBlock(a[i], b[i]);
      WeightSame(a[i].streams, b[i].streams);
    }
  }

  ghost function TotalWeight(blocks: seq<Block>): nat {
    if blocks == [] then 0 else Weight(blocks[0].streams) + TotalWeight(blocks[1..])
  }

  lemma {:induction false} WeighedTotal(blocks: seq<Block>)
    requires Weighed(blocks)
    ensures SumSizes(blocks) == TotalWeight(blocks)
  {
    if blocks != [] {
      WeighedTotal(blocks[1..]);
    }
  }

  lemma {:induction false} RunWeighed(cfg: Config, run: seq<Trace>, n: nat)
    requires IsRun(cfg, run) && n < |run|
    ensures Weighed(run[n].cache.blocks)
  {
    hide Inv, Enabled, Apply, Weight, Weighed;
    if n == 0 {
      InitWeighed(cfg);
    } else {
      RunWeighed(cfg, run, n - 1);
      assert Step(cfg, run[n - 1], run[n]);
      var op :| Enabled(cfg, run[n - 1], op) && Apply(cfg, run[n - 1], op) == run[n];
      RunInv(cfg, run, n - 1);
      StepWeighed(cfg, run[n - 1], op);
    }
  }

  lemma InitWeighed(cfg: Config)
    ensures Weighed(Init(cfg).blocks)
  {
    WeightNone();
  }

  /** In every run the cache's size counter is the total size of the records it holds. */
  lemma SizeIsRecords(cfg: Config, run: seq<Trace>, n: nat)
    requires IsRun(cfg, run) && n < |run|
    ensures run[n].cache.size == TotalWeight(run[n].cache.blocks)
  {
    hide IsRun, Inv, Weighed, SumSizes, TotalWeight;
    RunInv(cfg, run, n);
    InvSize(run[n].cache);
    RunWeighed(cfg, run, n);
    WeighedTotal(run[n].cache.blocks);
  }

  // ---- The offset a sealed block is trimmed to ---------------------------------------------------------------

  predicate StepAt(cfg: Config, run: seq<Trace>, ops: seq<Op>, i: nat) {
    && i < |ops| && i + 1 < |run| && run[i].cache.blocks != []
    && Enabled(cfg, run[i], ops[i]) && run[i + 1] == Apply(cfg, run[i], ops[i])
  }

  ghost predicate OpRun(cfg: Config, run: seq<Trace>, ops: seq<Op>) {
    && |run| == |ops| + 1 && run[0] == Trace(Init(cfg), {})
    && forall i: nat :: i < |ops| ==> StepAt(cfg, run, ops, i)
  }

  /** The last confirmed log offset that was reported. */
  function LastSet(ops: seq<Op>): Option<nat> {
    if ops == [] then None
    else if ops[|ops| - 1].SetLast? then Some(ops[|ops| - 1].offset) else LastSet(ops[..|ops| - 1])
  }

  lemma OpRunInv(cfg: Config, run: seq<Trace>, ops: seq<Op>, n: nat)
    requires OpRun(cfg, run, ops) && n <= |ops|
    ensures IsRun(cfg, run) && Inv(run[n].cache)
  {
    hide Enabled, Apply, Inv;
    forall i | 0 < i < |run| ensures Step(cfg, run[i - 1], run[i]) {
      assert StepAt(cfg, run, ops, i - 1);
    }
    RunInv(cfg, run, n);
  }

  lemma StepLast(cfg: Config, t: Trace, op: Op)
    requires Inv(t.cache) && t.cache.blocks != [] && Enabled(cfg, t, op)
    ensures Apply(cfg, t, op).cache.last == if op.SetLast? then Some(op.offset) else t.cache.last
  {
    hide FreePrefix, Merged, Inv, PutBlock, SumSizes;
    if op.FreeOp? {
      FreeFields(cfg, t.cache);
    }
  }

  lemma {:induction false} LastIs(cfg: Config, run: seq<Trace>, ops: seq<Op>, n: nat)
    requires OpRun(cfg, run, ops) && n <= |ops|
    ensures run[n].cache.last == LastSet(ops[..n])
  {
    hide Enabled, Apply, Inv;
    if n > 0 {
      LastIs(cfg, run, ops, n - 1);
      OpRunInv(cfg, run, ops, n - 1);
      assert StepAt(cfg, run, ops, n - 1);
      assert ops[..n][..n - 1] == ops[..n - 1];
      StepLast(cfg, run[n - 1], ops[n - 1]);
    }
  }

  /** Block `id` is in use, sealed, and carries this offset. */
  ghost predicate Carries(c: Cache, id: nat, last: Option<nat>) {
    exists i :: 0 <= i < |c.blocks| - 1 && CarriesAt(c.blocks[i], id, last)
  }

  predicate CarriesAt(b: Block, id: nat, last: Option<nat>) {
    b.id == id && !b.free && b.last == last
  }

  lemma StepCarries(cfg: Config, t: Trace, op: Op, id: nat, last: Option<nat>)
    requires Inv(t.cache) && t.cache.blocks != [] && Enabled(cfg, t, op)
    requires Carries(t.cache, id, last) && id !in Apply(cfg, t, op).marked
    ensures Carries(Apply(cfg, t, op).cache, id, last)
  {
    hide Inv, SumSizes, FreePrefix, Merged, Discontinuous, PutBlock, Accepts, CanPut, SameBlocks, ListOf, BlockOk;
    var c, c' := t.cache, Apply(cfg, t, op).cache;
    var i :| 0 <= i < |c.blocks| - 1 && CarriesAt(c.blocks[i], id, last);
    match op
    case FreeOp =>
      var k := FreeKeeps(cfg, c);
      assert CarriesAt(c'.blocks[i - k], id, last);
    case MergeOne(j) =>
      assert CarriesAt(c'.blocks[if i < j then i else i - 1], id, last);
    case ReadOp(blocks) =>
      SameFields(c.blocks, blocks);
      assert CarriesAt(c'.blocks[i], id, last);
    case _ =>
      assert CarriesAt(c'.blocks[i], id, last);
  }

  lemma {:induction false} RunCarries(cfg: Config, run: seq<Trace>, ops: seq<Op>, m: nat, n: nat, id: nat,
                                      last: Option<nat>)
    requires OpRun(cfg, run, ops) && m <= n <= |ops|
    requires Carries(run[m].cache, id, last) && id !in run[n].marked
    ensures Carries(run[n].cache, id, last)
    decreases n - m
  {
    hide Inv, Enabled, Apply, Carries;
    if m < n {
      assert StepAt(cfg, run, ops, n - 1);
      StepMarks(cfg, run[n - 1], ops[n - 1]);
      RunCarries(cfg, run, ops, m, n - 1, id, last);
      OpRunInv(cfg, run, ops, n - 1);
      StepCarries(cfg, run[n - 1], ops[n - 1], id, last);
    }
  }

  lemma ArchiveCarries(cfg: Config, c: Cache)
    requires Inv(c) && c.last.Some?
    ensures Carries(Archive(cfg, c), Active(c).id, c.last)
  {
    hide Lists, SumSizes, Ids, BlocksOk;
    assert CarriesAt(Archive(cfg, c).blocks[|c.blocks| - 1], Active(c).id, c.last);
  }

  /**
   * A block sealed at step `m` carries the log offset that was confirmed last before it, and keeps it
   * until it is marked free: that is the offset the log is trimmed to once the block is committed.
   */
  lemma SealedCarriesLast(cfg: Config, run: seq<Trace>, ops: seq<Op>, m: nat, n: nat)
    requires OpRun(cfg, run, ops) && m < n <= |ops| && ops[m].ArchiveOp? && LastSet(ops[..m]).Some?
    ensures run[m].cache.blocks != []
    ensures Active(run[m].cache).id in run[n].marked
            || Carries(run[n].cache, Active(run[m].cache).id, LastSet(ops[..m]))
  {
    hide Inv, Carries, Archive;
    OpRunInv(cfg, run, ops, m);
    LastIs(cfg, run, ops, m);
    assert StepAt(cfg, run, ops, m);
    var id := Active(run[m].cache).id;
    ArchiveCarries(cfg, run[m].cache);
    if id !in run[n].marked {
      RunCarries(cfg, run, ops, m + 1, n, id, LastSet(ops[..m]));
    }
  }
}
