/** The accumulator for planned output objects, and the grouping of sorted blocks into them. */
module Builders {
  import opened Records
  import opened DataBlocks

  datatype Kind = Split | Compact

  /** A planned output object. */
  datatype CompactedObject = CompactedObject(kind: Kind, blocks: seq<StreamDataBlock>)

  function Flatten(objects: seq<CompactedObject>): seq<StreamDataBlock> {
    if objects == [] then [] else Flatten(objects[..|objects| - 1]) + objects[|objects| - 1].blocks
  }

  /** The blocks of all objects of one kind, in order. */
  function OfKind(objects: seq<CompactedObject>, kind: Kind): seq<StreamDataBlock> {
    if objects == [] then []
    else
      var o := objects[|objects| - 1];
      OfKind(objects[..|objects| - 1], kind) + if o.kind == kind then o.blocks else []
  }

  lemma FlattenPush(objects: seq<CompactedObject>, o: CompactedObject)
    ensures Flatten(objects + [o]) == Flatten(objects) + o.blocks
    ensures OfKind(objects + [o], o.kind) == OfKind(objects, o.kind) + o.blocks
    ensures forall k: Kind :: k != o.kind ==> OfKind(objects + [o], k) == OfKind(objects, k)
  {
    assert (objects + [o])[..|objects|] == objects;
  }

  // ---- The builder -------------------------------------------------------------------------------

  /** The window marks the blocks of the last stream. */
  predicate WindowOk(blocks: seq<StreamDataBlock>, head: int, tail: int) {
    if blocks == [] then head == -1 && tail == -1
    else
      && 0 <= head < |blocks| && tail == |blocks|
      && (forall i :: head <= i < |blocks| ==> blocks[i].Stream() == blocks[|blocks| - 1].Stream())
      && (head > 0 ==> blocks[head - 1].Stream() != blocks[|blocks| - 1].Stream())
  }

  lemma WindowNext(blocks: seq<StreamDataBlock>, head: int, tail: int, x: StreamDataBlock)
    requires WindowOk(blocks, head, tail)
    ensures WindowOk(blocks + [x],
                     if blocks == [] || x.Stream() != blocks[|blocks| - 1].Stream() then |blocks| else head,
                     |blocks| + 1)
  {
    var all := blocks + [x];
    assert forall i :: 0 <= i < |blocks| ==> all[i] == blocks[i];
  }

  class CompactedObjectBuilder {
    var kind: Kind
    var blocks: seq<StreamDataBlock>
    var head: int
    var tail: int

    ghost predicate Valid()
      reads this
    {
      WindowOk(blocks, head, tail)
    }

    constructor ()
      ensures Valid() && kind == Compact && blocks == []
    {
      kind, blocks, head, tail := Compact, [], -1, -1;
    }

    method AddBlock(block: StreamDataBlock)
      requires Valid()
      modifies this`blocks, this`head, this`tail
      ensures Valid() && blocks == old(blocks) + [block]
      ensures head == if old(blocks) == [] || block.Stream() != old(blocks)[|old(blocks)| - 1].Stream()
                      then |old(blocks)| else old(head)
    {
      WindowNext(blocks, head, tail, block);
      if |blocks| == 0 || block.Stream() != blocks[|blocks| - 1].Stream() {
        head := |blocks|;
      }
      blocks := blocks + [block];
      tail := |blocks|;
    }

    /** Recomputes the window after blocks have been taken out or put in. */
    method ResetCurrStreamPosition()
      modifies this`head, this`tail
      ensures Valid()
    {
      head, tail := -1, -1;
      var i := 0;
      while i < |blocks|
        invariant 0 <= i <= |blocks|
        invariant WindowOk(blocks[..i], head, tail)
      {
        assert blocks[..i + 1] == blocks[..i] + [blocks[i]];
        WindowNext(blocks[..i], head, tail, blocks[i]);
        if i == 0 || blocks[i].Stream() != blocks[i - 1].Stream() {
          head := i;
        }
        tail := i + 1;
        i := i + 1;
      }
      assert blocks[..i] == blocks;
    }

    /** Moves blocks `start..end` into a new builder of the same kind. */
    method SplitOff(start: int, end: int) returns (other: CompactedObjectBuilder)
      requires Valid() && start <= end
      modifies this`blocks, this`head, this`tail
      ensures Valid() && other.Valid() && fresh(other)
      ensures start < 0 || end > old(tail) ==> blocks == old(blocks) && other.blocks == [] && other.kind == Compact
      ensures !(start < 0 || end > old(tail)) ==>
                && end <= |old(blocks)| && other.kind == kind
                && other.blocks == old(blocks)[start..end]
                && blocks == old(blocks)[..start] + old(blocks)[end..]
    {
      other := new CompactedObjectBuilder();
      if start < 0 || end > tail {
        return;
      }
      var i := start;
      while i < end
        invariant start <= i <= end && other.Valid()
        invariant blocks == old(blocks) && head == old(head) && tail == old(tail)
        invariant other.blocks == blocks[start..i]
        modifies other`blocks, other`head, other`tail
      {
        other.AddBlock(blocks[i]);
        i := i + 1;
      }
      other.kind := kind;
      blocks := blocks[..start] + blocks[end..];
      ResetCurrStreamPosition();
    }

    function CurrStreamBlockSize(): nat
      requires WindowOk(blocks, head, tail)
      reads this
    {
      if head < 0 || tail < 0 then 0 else TotalSize(blocks[head..tail])
    }

    /** Appends another builder's blocks; a standalone stream object is never merged. */
    method Merge(other: CompactedObject)
      requires Valid()
      modifies this`blocks, this`head, this`tail
      ensures Valid()
      ensures blocks == old(blocks) + if other.kind == Split then [] else other.blocks
    {
      if other.kind == Split {
        return;
      }
      blocks := blocks + other.blocks;
      ResetCurrStreamPosition();
    }

    function Build(): CompactedObject
      reads this
    {
      CompactedObject(kind, blocks)
    }
  }

  // ---- Grouping sorted blocks ----------------------------------------------------------------------

  /** The run that ends at a block of `sorted` must leave: a hole follows it, or it is large. */
  ghost predicate MustSplit(sorted: seq<StreamDataBlock>, splitSize: nat, run: seq<StreamDataBlock>) {
    run != [] && (TotalSize(run) > splitSize || HoleBehind(sorted, run[|run| - 1]))
  }

  ghost predicate HoleBehind(sorted: seq<StreamDataBlock>, last: StreamDataBlock) {
    exists i :: HoleAfter(sorted, i, last)
  }

  predicate HoleAfter(sorted: seq<StreamDataBlock>, i: int, last: StreamDataBlock) {
    && 0 < i < |sorted| && sorted[i - 1] == last
    && sorted[i].Stream() == last.Stream() && sorted[i].Start() > last.End()
  }

  predicate SmallStreams(blocks: seq<StreamDataBlock>, splitSize: nat) {
    forall i :: 0 <= i < |blocks| ==> TotalSize(StreamBlocks(blocks, blocks[i].Stream())) <= splitSize
  }

  /** A gap-free run of a stream ends in front of block `p`. */
  predicate Break(sorted: seq<StreamDataBlock>, p: nat) {
    0 < p < |sorted| ==> sorted[p - 1].Stream() != sorted[p].Stream() || sorted[p - 1].End() != sorted[p].Start()
  }

  /** No gap-free run of a stream is cut in two. */
  ghost predicate Cuts(objects: seq<CompactedObject>, sorted: seq<StreamDataBlock>) {
    forall k :: 0 <= k <= |objects| ==> Break(sorted, |Flatten(objects[..k])|)
  }

  lemma CutsPush(objects: seq<CompactedObject>, o: CompactedObject, sorted: seq<StreamDataBlock>)
    requires Cuts(objects, sorted) && Break(sorted, |Flatten(objects)| + |o.blocks|)
    ensures Cuts(objects + [o], sorted)
  {
    hide Break, Flatten;
    var all := objects + [o];
    FlattenPush(objects, o);
    forall k | 0 <= k <= |all| ensures Break(sorted, |Flatten(all[..k])|) {
      if k <= |objects| {
        assert all[..k] == objects[..k];
      } else {
        assert all[..k] == all;
      }
    }
  }

  /** What the finished objects promise. */
  ghost predicate Usable(objects: seq<CompactedObject>, sorted: seq<StreamDataBlock>, splitSize: nat) {
    && (forall i :: 0 <= i < |objects| ==> ObjectOk(objects[i], sorted, splitSize))
    && Runs(OfKind(objects, Compact)) && Cuts(objects, sorted)
  }

  ghost predicate ObjectOk(o: CompactedObject, sorted: seq<StreamDataBlock>, splitSize: nat) {
    && (o.kind == Split ==> OneRun(o.blocks) && MustSplit(sorted, splitSize, o.blocks))
    && (o.kind == Compact ==> SmallStreams(o.blocks, splitSize))
  }

  /** Progress: `done` objects and the builder's blocks `cur` are the first `n` sorted blocks. */
  ghost predicate Grouped(done: seq<CompactedObject>, cur: seq<StreamDataBlock>, head: int,
                          sorted: seq<StreamDataBlock>, n: nat, splitSize: nat)
  {
    && n <= |sorted| && Flatten(done) + cur == sorted[..n]
    && Usable(done, sorted, splitSize)
    && Runs(cur) && (n > 0 ==> cur != [])
    && (cur != [] ==> 0 <= head < |cur| && SmallStreams(cur[..head], splitSize))
    && (OfKind(done, Compact) != [] && cur != [] ==>
          OfKind(done, Compact)[|OfKind(done, Compact)| - 1].Stream() < cur[0].Stream())
  }

  lemma {:induction false} RunsAscend(blocks: seq<StreamDataBlock>, i: nat, j: nat)
    requires Runs(blocks) && i <= j < |blocks|
    ensures blocks[i].Stream() <= blocks[j].Stream()
    decreases j - i
  {
    if i < j {
      RunsAscend(blocks, i, j - 1);
      assert Follows(blocks[j - 1], blocks[j]);
    }
  }

  /** Everything before the window belongs to earlier streams. */
  lemma BeforeWindow(blocks: seq<StreamDataBlock>, head: int, i: nat)
    requires Runs(blocks) && blocks != [] && WindowOk(blocks, head, |blocks|) && i < head
    ensures blocks[i].Stream() < blocks[|blocks| - 1].Stream()
  {
    RunsAscend(blocks, i, head - 1);
    assert Follows(blocks[head - 1], blocks[head]);
  }

  lemma WindowIsOneRun(blocks: seq<StreamDataBlock>, head: int)
    requires Runs(blocks) && blocks != [] && WindowOk(blocks, head, |blocks|)
    ensures OneRun(blocks[head..])
  {
    var run := blocks[head..];
    forall i | 0 < i < |run|
      ensures run[i - 1].Stream() == run[i].Stream() && run[i - 1].End() == run[i].Start()
    {
      assert Follows(blocks[head + i - 1], blocks[head + i]);
    }
  }

  lemma {:induction false} StreamBlocksAll(blocks: seq<StreamDataBlock>, s: nat)
    ensures (forall i :: 0 <= i < |blocks| ==> blocks[i].Stream() == s) ==> StreamBlocks(blocks, s) == blocks
    ensures (forall i :: 0 <= i < |blocks| ==> blocks[i].Stream() != s) ==> StreamBlocks(blocks, s) == []
  {
    if blocks != [] {
      StreamBlocksAll(blocks[..|blocks| - 1], s);
    }
  }

  /** A window within the split size keeps all streams of the builder small. */
  lemma SmallWindow(blocks: seq<StreamDataBlock>, head: int, splitSize: nat)
    requires Runs(blocks) && blocks != [] && WindowOk(blocks, head, |blocks|)
    requires SmallStreams(blocks[..head], splitSize) && TotalSize(blocks[head..]) <= splitSize
    ensures SmallStreams(blocks, splitSize)
  {
    hide TotalSize, StreamBlocks, Runs;
    var a, run := blocks[..head], blocks[head..];
    assert blocks == a + run;
    var last := blocks[|blocks| - 1].Stream();
    forall i: nat | i < head ensures blocks[i].Stream() < last {
      BeforeWindow(blocks, head, i);
    }
    forall i: nat | i < |blocks| ensures TotalSize(StreamBlocks(blocks, blocks[i].Stream())) <= splitSize {
      var s := blocks[i].Stream();
      StreamBlocksConcat(a, run, s);
      if i < head {
        StreamBlocksAll(run, s);
        assert a[i].Stream() == s;
        assert StreamBlocks(a, s) + [] == StreamBlocks(a, s);
      } else {
        StreamBlocksAll(a, s);
        StreamBlocksAll(run, s);
        assert [] + run == run;
      }
    }
  }

  lemma RunsAppend(blocks: seq<StreamDataBlock>, x: StreamDataBlock)
    requires Runs(blocks) && (blocks != [] ==> Follows(blocks[|blocks| - 1], x))
    ensures Runs(blocks + [x])
  {
  }

  /** The next block extends the builder. */
  lemma GroupAdd(done: seq<CompactedObject>, cur: seq<StreamDataBlock>, head: int, head': int,
                 sorted: seq<StreamDataBlock>, n: nat, splitSize: nat)
    requires Grouped(done, cur, head, sorted, n, splitSize) && n < |sorted|
    requires cur == [] ==> done == [] && head' == 0
    requires cur != [] ==> Follows(cur[|cur| - 1], sorted[n])
    requires cur != [] && head' != head ==> head' == |cur| && SmallStreams(cur, splitSize)
    ensures Grouped(done, cur + [sorted[n]], head', sorted, n + 1, splitSize)
  {
    hide Usable, TotalSize, StreamBlocks;
    var x := sorted[n];
    assert sorted[..n + 1] == sorted[..n] + [x];
    assert Flatten(done) + (cur + [x]) == Flatten(done) + cur + [x];
    RunsAppend(cur, x);
    if cur != [] && head' == head {
      assert (cur + [x])[..head] == cur[..head];
    } else {
      assert (cur + [x])[..head'] == cur;
    }
  }

  lemma UsablePush(objects: seq<CompactedObject>, o: CompactedObject, sorted: seq<StreamDataBlock>, splitSize: nat)
    requires Usable(objects, sorted, splitSize) && ObjectOk(o, sorted, splitSize)
    requires o.kind == Compact ==> Runs(o.blocks)
    requires var k := OfKind(objects, Compact);
             o.kind == Compact && k != [] && o.blocks != [] ==> k[|k| - 1].Stream() < o.blocks[0].Stream()
    requires Break(sorted, |Flatten(objects)| + |o.blocks|)
    ensures Usable(objects + [o], sorted, splitSize)
  {
    hide ObjectOk, OfKind, Cuts, Break, Flatten;
    FlattenPush(objects, o);
    CutsPush(objects, o, sorted);
    if o.kind == Compact {
      RunsJoin(OfKind(objects, Compact), o.blocks);
    }
  }

  lemma RunsJoin(a: seq<StreamDataBlock>, b: seq<StreamDataBlock>)
    requires Runs(a) && Runs(b) && (a != [] && b != [] ==> Follows(a[|a| - 1], b[0]))
    ensures Runs(a + b)
  {
    var c := a + b;
    forall i | 0 < i < |c| ensures Follows(c[i - 1], c[i]) {
      if i > |a| {
        assert Follows(b[i - |a| - 1], b[i - |a|]);
      } else if i < |a| {
        assert Follows(a[i - 1], a[i]);
      }
    }
  }

  /** What stays behind when the window leaves. */
  lemma GroupRest(done: seq<CompactedObject>, cur: seq<StreamDataBlock>, head: int,
                  sorted: seq<StreamDataBlock>, n: nat, splitSize: nat) returns (mid: seq<CompactedObject>)
    requires Grouped(done, cur, head, sorted, n, splitSize) && n > 0 && WindowOk(cur, head, |cur|)
    ensures mid == done + (if head > 0 then [CompactedObject(Compact, cur[..head])] else [])
    ensures Usable(mid, sorted, splitSize) && Flatten(mid) + cur[head..] == sorted[..n]
    ensures var k := OfKind(mid, Compact); k != [] ==> k[|k| - 1].Stream() < cur[|cur| - 1].Stream()
  {
    hide ObjectOk, OfKind, Flatten, TotalSize, StreamBlocks, MustSplit, Usable, SmallStreams, Runs;
    var a, run := cur[..head], cur[head..];
    if head > 0 {
      var rest := CompactedObject(Compact, a);
      CompactOk(a, sorted, splitSize);
      RunsPrefix(cur, head);
      BeforeWindow(cur, head, head - 1);
      BreakInside(Flatten(done), cur, head, sorted, n);
      UsablePush(done, rest, sorted, splitSize);
      FlattenPush(done, rest);
      mid := done + [rest];
      SplitConcat(Flatten(done), cur, head);
    } else {
      mid := done;
      assert done + [] == done && run == cur;
      assert cur[0].Stream() == cur[|cur| - 1].Stream();
    }
  }

  lemma BreakInside(a: seq<StreamDataBlock>, cur: seq<StreamDataBlock>, head: nat, sorted: seq<StreamDataBlock>, n: nat)
    requires n <= |sorted| && a + cur == sorted[..n] && 0 < head < |cur| && cur[head - 1].Stream() != cur[head].Stream()
    ensures Break(sorted, |a| + head)
  {
    assert sorted[|a| + head - 1] == (a + cur)[|a| + head - 1] && sorted[|a| + head] == (a + cur)[|a| + head];
  }

  lemma SplitConcat(a: seq<StreamDataBlock>, b: seq<StreamDataBlock>, k: nat)
    requires k <= |b|
    ensures a + b[..k] + b[k..] == a + b
  {
    assert b == b[..k] + b[k..];
  }

  /** Moving the window out as a stream object leaves everything usable. */
  lemma GroupSplit(done: seq<CompactedObject>, cur: seq<StreamDataBlock>, head: int,
                   sorted: seq<StreamDataBlock>, n: nat, splitSize: nat) returns (done': seq<CompactedObject>)
    requires Grouped(done, cur, head, sorted, n, splitSize) && n > 0 && WindowOk(cur, head, |cur|)
    requires MustSplit(sorted, splitSize, cur[head..]) && Break(sorted, n)
    ensures done' == done + (if head > 0 then [CompactedObject(Compact, cur[..head])] else [])
                   + [CompactedObject(Split, cur[head..])]
    ensures Usable(done', sorted, splitSize) && Flatten(done') == sorted[..n]
    ensures var k := OfKind(done', Compact); k != [] ==> k[|k| - 1].Stream() < cur[|cur| - 1].Stream()
  {
    hide ObjectOk, OfKind, Flatten, TotalSize, StreamBlocks, MustSplit, Usable, SmallStreams;
    var mid := GroupRest(done, cur, head, sorted, n, splitSize);
    var split := CompactedObject(Split, cur[head..]);
    WindowIsOneRun(cur, head);
    SplitOk(cur[head..], sorted, splitSize);
    assert |Flatten(mid)| + |cur[head..]| == |sorted[..n]|;
    UsablePush(mid, split, sorted, splitSize);
    FlattenPush(mid, split);
    done' := mid + [split];
  }

  lemma SplitOk(run: seq<StreamDataBlock>, sorted: seq<StreamDataBlock>, splitSize: nat)
    requires OneRun(run) && MustSplit(sorted, splitSize, run)
    ensures ObjectOk(CompactedObject(Split, run), sorted, splitSize)
  {
  }

  lemma CompactOk(a: seq<StreamDataBlock>, sorted: seq<StreamDataBlock>, splitSize: nat)
    requires SmallStreams(a, splitSize)
    ensures ObjectOk(CompactedObject(Compact, a), sorted, splitSize)
  {
  }

  lemma RunsPrefix(blocks: seq<StreamDataBlock>, n: nat)
    requires Runs(blocks) && n <= |blocks|
    ensures Runs(blocks[..n])
  {
  }

  /** After the window has left, the next block starts a new builder. */
  lemma GroupRestart(done: seq<CompactedObject>, sorted: seq<StreamDataBlock>, n: nat, splitSize: nat)
    requires n < |sorted| && Usable(done, sorted, splitSize) && Flatten(done) == sorted[..n]
    requires var k := OfKind(done, Compact); k != [] ==> k[|k| - 1].Stream() < sorted[n].Stream()
    ensures Grouped(done, [sorted[n]], 0, sorted, n + 1, splitSize)
  {
    hide Usable, OfKind, Flatten, TotalSize, StreamBlocks;
    assert [sorted[n]][..0] == [];
  }

  /** Splits the window of the builder out and starts a new builder. */
  method SplitObject(builder: CompactedObjectBuilder, builders: seq<CompactedObject>)
    returns (blank: CompactedObjectBuilder, builders': seq<CompactedObject>)
    requires builder.Valid() && builder.blocks != [] && PositiveSizes(builder.blocks)
    modifies builder
    ensures blank.Valid() && fresh(blank) && blank.blocks == [] && blank.kind == Compact
    ensures builders' == builders
             + (if old(builder.head) > 0
                then [CompactedObject(old(builder.kind), old(builder.blocks)[..old(builder.head)])] else [])
             + [CompactedObject(Split, old(builder.blocks)[old(builder.head)..])]
  {
    ghost var all, head := builder.blocks, builder.head;
    var split := builder.SplitOff(builder.head, builder.tail);
    assert all[|all|..] == [] && builder.blocks == all[..head];
    assert all[head..|all|] == all[head..] && split.blocks == all[head..];
    split.kind := Split;
    TotalSizeZero(builder.blocks);
    builders' := builders;
    if TotalSize(builder.blocks) != 0 {
      builders' := builders' + [builder.Build()];
    }
    builders' := builders' + [split.Build()];
    blank := new CompactedObjectBuilder();
  }

  /** Two neighbours of one stream overlap. */
  ghost predicate Overlap(sorted: seq<StreamDataBlock>) {
    exists i :: OverlapAt(sorted, i)
  }

  predicate OverlapAt(sorted: seq<StreamDataBlock>, i: int) {
    0 < i < |sorted| && sorted[i].Stream() == sorted[i - 1].Stream() && sorted[i].Start() < sorted[i - 1].End()
  }

  /** The builder's window and the finished objects account for the first `n` sorted blocks. */
  ghost predicate Building(builder: CompactedObjectBuilder, builders: seq<CompactedObject>,
                           sorted: seq<StreamDataBlock>, n: nat, splitSize: nat)
    reads builder
  {
    && builder.Valid() && builder.kind == Compact && PositiveSizes(builder.blocks)
    && n <= |sorted| && (n > 0 ==> builder.blocks != [] && builder.blocks[|builder.blocks| - 1] == sorted[n - 1])
    && (n == 0 ==> builder.blocks == [] && builders == [])
    && (forall i :: 0 <= i < |builders| ==> builders[i].blocks != [])
    && Grouped(builders, builder.blocks, builder.head, sorted, n, splitSize)
  }

  /** The window leaves as a stream object and the next block starts a new builder. */
  method SplitThenAdd(builder: CompactedObjectBuilder, builders: seq<CompactedObject>,
                      sorted: seq<StreamDataBlock>, n: nat, splitSize: nat)
    returns (builder': CompactedObjectBuilder, builders': seq<CompactedObject>)
    requires Building(builder, builders, sorted, n, splitSize) && 0 < n < |sorted| && PositiveSizes(sorted)
    requires MustSplit(sorted, splitSize, builder.blocks[builder.head..]) && Break(sorted, n)
    requires sorted[n - 1].Stream() <= sorted[n].Stream()
    modifies builder
    ensures Building(builder', builders', sorted, n + 1, splitSize) && fresh(builder')
  {
    hide Grouped, Usable, Flatten, OfKind, TotalSize, StreamBlocks, MustSplit;
    ghost var done := GroupSplit(builders, builder.blocks, builder.head, sorted, n, splitSize);
    builder', builders' := SplitObject(builder, builders);
    GroupRestart(done, sorted, n, splitSize);
    builder'.AddBlock(sorted[n]);
    assert builders' == done && builder'.blocks == [sorted[n]];
  }

  /** The next block joins the builder, in the window or as a new one. */
  method JustAdd(builder: CompactedObjectBuilder, ghost builders: seq<CompactedObject>,
                 sorted: seq<StreamDataBlock>, n: nat, ghost splitSize: nat)
    requires Building(builder, builders, sorted, n, splitSize) && n < |sorted| && PositiveSizes(sorted)
    requires n > 0 ==> Follows(sorted[n - 1], sorted[n])
    requires n > 0 && sorted[n - 1].Stream() != sorted[n].Stream() ==> SmallStreams(builder.blocks, splitSize)
    modifies builder
    ensures Building(builder, builders, sorted, n + 1, splitSize)
  {
    hide Grouped, Usable, Flatten, OfKind, TotalSize, StreamBlocks, SmallStreams;
    ghost var cur, head := builder.blocks, builder.head;
    builder.AddBlock(sorted[n]);
    GroupAdd(builders, cur, head, builder.head, sorted, n, splitSize);
  }

  /** The next block belongs to another stream: a large run leaves first. */
  method SplitAndAddBlock(builder: CompactedObjectBuilder, builders: seq<CompactedObject>,
                          sorted: seq<StreamDataBlock>, n: nat, splitSize: nat)
    returns (builder': CompactedObjectBuilder, builders': seq<CompactedObject>)
    requires Building(builder, builders, sorted, n, splitSize) && 0 < n < |sorted| && PositiveSizes(sorted)
    requires sorted[n - 1].Stream() < sorted[n].Stream()
    modifies builder
    ensures Building(builder', builders', sorted, n + 1, splitSize) && (builder' == builder || fresh(builder'))
  {
    hide Grouped, Usable, Flatten, OfKind, TotalSize, StreamBlocks, SmallStreams;
    ghost var cur, head := builder.blocks, builder.head;
    assert cur[head..|cur|] == cur[head..];
    GroupedRuns(builders, cur, head, sorted, n, splitSize);
    if builder.CurrStreamBlockSize() > splitSize {
      builder', builders' := SplitThenAdd(builder, builders, sorted, n, splitSize);
    } else {
      SmallWindow(cur, head, splitSize);
      JustAdd(builder, builders, sorted, n, splitSize);
      builder', builders' := builder, builders;
    }
  }

  /**
   * Groups sorted blocks into output objects. It fails exactly when two blocks of a stream
   * overlap; otherwise the objects hold the sorted blocks, each once and in order, every stream
   * object is one gap-free run, the remaining blocks have one run per stream, and no gap-free run
   * is cut in two.
   */
  method CompactObjects(sorted: seq<StreamDataBlock>, splitSize: nat) returns (r: Option<seq<CompactedObject>>)
    requires Sorted(sorted) && PositiveSizes(sorted)
    ensures r.None? <==> Overlap(sorted)
    ensures r.Some? ==> Flatten(r.value) == sorted && Usable(r.value, sorted, splitSize)
    ensures r.Some? && sorted != [] ==> forall i :: 0 <= i < |r.value| ==> r.value[i].blocks != []
  {
    hide Grouped, Usable, Flatten, OfKind, TotalSize, StreamBlocks, MustSplit;
    var builders: seq<CompactedObject> := [];
    var builder := new CompactedObjectBuilder();
    GroupStart(sorted, splitSize);
    var n := 0;
    while n < |sorted|
      invariant 0 <= n <= |sorted| && fresh(builder)
      invariant Building(builder, builders, sorted, n, splitSize)
      invariant forall i :: 0 < i < n ==> !OverlapAt(sorted, i)
    {
      var block := sorted[n];
      if |builder.blocks| == 0 {
        JustAdd(builder, builders, sorted, n, splitSize);
      } else if builder.blocks[|builder.blocks| - 1].Stream() == block.Stream() {
        var lastOffset := builder.blocks[|builder.blocks| - 1].End();
        if block.Start() > lastOffset {
          HoleSplits(sorted, n, splitSize, builder.blocks[builder.head..]);
          builder, builders := SplitThenAdd(builder, builders, sorted, n, splitSize);
        } else if block.Start() == lastOffset {
          JustAdd(builder, builders, sorted, n, splitSize);
        } else {
          assert OverlapAt(sorted, n);
          return None;
        }
      } else {
        assert Before(sorted[n - 1], sorted[n]);
        builder, builders := SplitAndAddBlock(builder, builders, sorted, n, splitSize);
      }
      n := n + 1;
    }
    builders := FinishBuilder(builder, builders, sorted, splitSize);
    r := Some(builders);
  }

  /** The last builder: its run leaves if it is large, and whatever remains is one more object. */
  method FinishBuilder(builder: CompactedObjectBuilder, builders: seq<CompactedObject>,
                       ghost sorted: seq<StreamDataBlock>, splitSize: nat)
    returns (builders': seq<CompactedObject>)
    requires Building(builder, builders, sorted, |sorted|, splitSize)
    modifies builder
    ensures Flatten(builders') == sorted && Usable(builders', sorted, splitSize)
    ensures sorted != [] ==> forall i :: 0 <= i < |builders'| ==> builders'[i].blocks != []
  {
    hide Grouped, Usable, Flatten, OfKind, TotalSize, StreamBlocks, SmallStreams;
    ghost var n, cur, head := |sorted|, builder.blocks, builder.head;
    assert sorted[..n] == sorted;
    assert cur != [] ==> cur[head..|cur|] == cur[head..];
    if builder.CurrStreamBlockSize() > splitSize {
      ghost var done := GroupSplit(builders, cur, head, sorted, n, splitSize);
      var blank;
      blank, builders' := SplitObject(builder, builders);
    } else {
      GroupFinish(builders, cur, head, sorted, splitSize);
      builders' := builders + [builder.Build()];
    }
  }

  lemma GroupStart(sorted: seq<StreamDataBlock>, splitSize: nat)
    ensures Grouped([], [], -1, sorted, 0, splitSize)
  {
  }

  lemma HoleSplits(sorted: seq<StreamDataBlock>, n: nat, splitSize: nat, run: seq<StreamDataBlock>)
    requires run != [] && HoleAfter(sorted, n, run[|run| - 1])
    ensures MustSplit(sorted, splitSize, run)
  {
  }

  lemma GroupedRuns(done: seq<CompactedObject>, cur: seq<StreamDataBlock>, head: int,
                    sorted: seq<StreamDataBlock>, n: nat, splitSize: nat)
    requires Grouped(done, cur, head, sorted, n, splitSize) && cur != []
    ensures Runs(cur) && 0 <= head < |cur| && SmallStreams(cur[..head], splitSize)
  {
  }

  lemma GroupFinish(done: seq<CompactedObject>, cur: seq<StreamDataBlock>, head: int,
                    sorted: seq<StreamDataBlock>, splitSize: nat)
    requires Grouped(done, cur, head, sorted, |sorted|, splitSize)
    requires cur != [] ==> WindowOk(cur, head, |cur|) && TotalSize(cur[head..]) <= splitSize
    ensures Usable(done + [CompactedObject(Compact, cur)], sorted, splitSize)
    ensures Flatten(done + [CompactedObject(Compact, cur)]) == sorted
  {
    hide Usable, OfKind, Flatten, TotalSize, StreamBlocks;
    if cur != [] {
      SmallWindow(cur, head, splitSize);
    }
    CompactOk(cur, sorted, splitSize);
    UsablePush(done, CompactedObject(Compact, cur), sorted, splitSize);
    FlattenPush(done, CompactedObject(Compact, cur));
    assert sorted[..|sorted|] == sorted;
  }
}
