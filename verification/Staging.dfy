/** Cutting the planned objects into stages that fit the compaction cache. */
module Staging {
  import opened Records
  import opened DataBlocks
  import opened Builders
  import opened Exclusion

  /** One memory-bounded stage: its outputs, and what to read from each source object. */
  datatype Plan = Plan(order: nat, objects: seq<CompactedObject>, toRead: BlockMap)

  function PlanObjects(plans: seq<Plan>): seq<CompactedObject> {
    if plans == [] then [] else PlanObjects(plans[..|plans| - 1]) + plans[|plans| - 1].objects
  }

  lemma PlanPush(plans: seq<Plan>, p: Plan)
    ensures PlanObjects(plans + [p]) == PlanObjects(plans) + p.objects
  {
    assert (plans + [p])[..|plans|] == plans;
  }

  lemma {:induction false} KindConcat(a: seq<CompactedObject>, b: seq<CompactedObject>, k: Kind)
    ensures OfKind(a + b, k) == OfKind(a, k) + OfKind(b, k)
  {
    if b == [] {
      assert a + b == a;
    } else {
      assert (a + b)[..|a + b| - 1] == a + b[..|b| - 1];
      KindConcat(a, b[..|b| - 1], k);
    }
  }

  // ---- The read map --------------------------------------------------------------------------------

  predicate ByPosition(blocks: seq<StreamDataBlock>) {
    forall i :: 0 < i < |blocks| ==> blocks[i - 1].Position() <= blocks[i].Position()
  }

  function InsertByPosition(blocks: seq<StreamDataBlock>, x: StreamDataBlock): seq<StreamDataBlock> {
    if blocks == [] || blocks[|blocks| - 1].Position() <= x.Position() then blocks + [x]
    else InsertByPosition(blocks[..|blocks| - 1], x) + [blocks[|blocks| - 1]]
  }

  lemma {:induction false} InsertPositionOk(blocks: seq<StreamDataBlock>, x: StreamDataBlock)
    requires ByPosition(blocks)
    ensures ByPosition(InsertByPosition(blocks, x)) && |InsertByPosition(blocks, x)| == |blocks| + 1
    ensures InsertByPosition(blocks, x)[|blocks|]
         == if blocks == [] || blocks[|blocks| - 1].Position() <= x.Position() then x else blocks[|blocks| - 1]
  {
    if !(blocks == [] || blocks[|blocks| - 1].Position() <= x.Position()) {
      InsertPositionOk(blocks[..|blocks| - 1], x);
    }
  }

  lemma {:induction false} InsertPositionCount(blocks: seq<StreamDataBlock>, x: StreamDataBlock)
    ensures multiset(InsertByPosition(blocks, x)) == multiset(blocks) + multiset{x}
  {
    if !(blocks == [] || blocks[|blocks| - 1].Position() <= x.Position()) {
      var init := blocks[..|blocks| - 1];
      assert blocks == init + [blocks[|blocks| - 1]];
      InsertPositionCount(init, x);
    }
  }

  /** What a stage toRead is what it writes, filed by source object in position order. */
  ghost predicate ReadsOk(blocks: seq<StreamDataBlock>, toRead: BlockMap) {
    && KeysMatch(toRead) && Holds(blocks, toRead)
    && forall id :: id in toRead ==> ByPosition(toRead[id]) && toRead[id] != []
  }

  function FileBlock(toRead: BlockMap, x: StreamDataBlock): BlockMap {
    toRead[x.objectId := InsertByPosition(if x.objectId in toRead then toRead[x.objectId] else [], x)]
  }

  lemma FileBlockOk(blocks: seq<StreamDataBlock>, toRead: BlockMap, x: StreamDataBlock)
    requires ReadsOk(blocks, toRead)
    ensures ReadsOk(blocks + [x], FileBlock(toRead, x))
  {
    hide InsertByPosition, ByPosition, KeysMatch, Holds;
    var was := if x.objectId in toRead then toRead[x.objectId] else [];
    NoPositions();
    InsertPositionOk(was, x);
    FileKeys(toRead, x);
    FileHolds(blocks, toRead, x);
  }

  lemma FileKeys(toRead: BlockMap, x: StreamDataBlock)
    requires KeysMatch(toRead)
    ensures KeysMatch(FileBlock(toRead, x))
  {
    hide InsertByPosition;
    var was := if x.objectId in toRead then toRead[x.objectId] else [];
    var now := InsertByPosition(was, x);
    InsertPositionCount(was, x);
    forall i | 0 <= i < |now| ensures now[i].objectId == x.objectId {
      assert now[i] in multiset(now);
      assert now[i] in was || now[i] == x;
    }
  }

  lemma FileHolds(blocks: seq<StreamDataBlock>, toRead: BlockMap, x: StreamDataBlock)
    requires Holds(blocks, toRead)
    ensures Holds(blocks + [x], FileBlock(toRead, x))
  {
    hide InsertByPosition;
    var was := if x.objectId in toRead then toRead[x.objectId] else [];
    InsertPositionCount(was, x);
    assert multiset(blocks + [x]) == multiset(blocks) + multiset{x};
    forall y ensures multiset(blocks + [x])[y] == CountIn(FileBlock(toRead, x), y) {
      assert multiset(blocks)[y] == CountIn(toRead, y);
    }
  }

  lemma NoPositions()
    ensures ByPosition([])
  {
  }

  method BuildReads(objects: seq<CompactedObject>) returns (toRead: BlockMap)
    ensures ReadsOk(Flatten(objects), toRead)
  {
    hide ReadsOk, FileBlock;
    toRead := map[];
    NoReads();
    var i := 0;
    while i < |objects|
      invariant 0 <= i <= |objects| && ReadsOk(Flatten(objects[..i]), toRead)
    {
      var blocks, j := objects[i].blocks, 0;
      ghost var flat := Flatten(objects[..i]);
      assert flat + blocks[..0] == flat;
      while j < |blocks|
        invariant 0 <= j <= |blocks| && ReadsOk(flat + blocks[..j], toRead)
      {
        FileBlockOk(flat + blocks[..j], toRead, blocks[j]);
        assert flat + blocks[..j] + [blocks[j]] == flat + blocks[..j + 1];
        toRead := FileBlock(toRead, blocks[j]);
        j := j + 1;
      }
      assert blocks[..j] == blocks;
      assert objects[..i + 1][..i] == objects[..i];
      i := i + 1;
    }
    assert objects[..i] == objects;
  }

  lemma NoReads()
    ensures ReadsOk(Flatten([]), map[])
  {
  }

  // ---- Stages --------------------------------------------------------------------------------------

  /** Outputs collected for the stage: stream objects, and the blocks of its stream set object. */
  datatype Stage = Stage(splits: seq<CompactedObject>, streamSet: Option<seq<StreamDataBlock>>)

  function AddOrMerge(stage: Stage, o: CompactedObject): Stage {
    if o.kind == Split then stage.(splits := stage.splits + [o])
    else stage.(streamSet := Some((if stage.streamSet.Some? then stage.streamSet.value else []) + o.blocks))
  }

  function StageObjects(stage: Stage): seq<CompactedObject> {
    stage.splits + if stage.streamSet.Some? then [CompactedObject(Compact, stage.streamSet.value)] else []
  }

  predicate StageOk(stage: Stage) {
    forall i :: 0 <= i < |stage.splits| ==> stage.splits[i].kind == Split && OneRun(stage.splits[i].blocks)
  }

  predicate PlanOk(p: Plan, cacheSize: nat) {
    && TotalSize(Flatten(p.objects)) <= cacheSize
    && (forall i :: 0 <= i < |p.objects| && p.objects[i].kind == Split ==> OneRun(p.objects[i].blocks))
    && (forall i :: 0 <= i < |p.objects| && p.objects[i].kind == Compact ==> i == |p.objects| - 1)
  }

  ghost predicate PlansOk(plans: seq<Plan>, cacheSize: nat) {
    forall i :: 0 <= i < |plans| ==>
      plans[i].order == i && PlanOk(plans[i], cacheSize) && ReadsOk(Flatten(plans[i].objects), plans[i].toRead)
  }

  lemma AddKinds(stage: Stage, o: CompactedObject, k: Kind)
    requires StageOk(stage) && (o.kind == Split ==> OneRun(o.blocks))
    ensures StageOk(AddOrMerge(stage, o))
    ensures OfKind(StageObjects(AddOrMerge(stage, o)), k)
         == OfKind(StageObjects(stage), k) + if o.kind == k then o.blocks else []
    ensures TotalSize(Flatten(StageObjects(AddOrMerge(stage, o))))
         == TotalSize(Flatten(StageObjects(stage))) + TotalSize(o.blocks)
  {
    hide OfKind, Flatten, TotalSize, OneRun;
    var stage' := AddOrMerge(stage, o);
    StageKind(stage, k);
    StageKind(stage', k);
    StageSize(stage);
    StageSize(stage');
    FlattenPush(stage.splits, o);
    if o.kind == Split {
      TotalSizeConcat(Flatten(stage.splits), o.blocks);
    } else {
      TotalSizeConcat(SetBlocks(stage), o.blocks);
    }
  }

  function SetBlocks(stage: Stage): seq<StreamDataBlock> {
    if stage.streamSet.Some? then stage.streamSet.value else []
  }

  lemma StageKind(stage: Stage, k: Kind)
    requires StageOk(stage)
    ensures OfKind(StageObjects(stage), k) == if k == Split then Flatten(stage.splits) else SetBlocks(stage)
  {
    hide OneRun;
    SplitsOnly(stage.splits, k);
    if stage.streamSet.Some? {
      FlattenPush(stage.splits, CompactedObject(Compact, stage.streamSet.value));
      assert [] + stage.streamSet.value == stage.streamSet.value;
    } else {
      assert stage.splits + [] == stage.splits;
    }
  }

  lemma {:induction false} SplitsOnly(splits: seq<CompactedObject>, k: Kind)
    requires forall i :: 0 <= i < |splits| ==> splits[i].kind == Split
    ensures OfKind(splits, k) == if k == Split then Flatten(splits) else []
  {
    if splits != [] {
      SplitsOnly(splits[..|splits| - 1], k);
    }
  }

  lemma StageSize(stage: Stage)
    ensures TotalSize(Flatten(StageObjects(stage))) == TotalSize(Flatten(stage.splits)) + TotalSize(SetBlocks(stage))
  {
    hide Flatten;
    if stage.streamSet.Some? {
      FlattenPush(stage.splits, CompactedObject(Compact, stage.streamSet.value));
      TotalSizeConcat(Flatten(stage.splits), stage.streamSet.value);
    } else {
      assert stage.splits + [] == stage.splits;
    }
  }

  /** The longest prefix of the blocks that still fits behind `total`, or zero if all of them fit. */
  method CutPoint(blocks: seq<StreamDataBlock>, total: nat, cacheSize: nat) returns (end: nat)
    requires total <= cacheSize
    ensures cacheSize < total + TotalSize(blocks) ==>
              && end < |blocks|
              && total + TotalSize(blocks[..end]) <= cacheSize < total + TotalSize(blocks[..end + 1])
    ensures total + TotalSize(blocks) <= cacheSize ==> end == 0
  {
    end := 0;
    var size, j := total, 0;
    while j < |blocks|
      invariant 0 <= j <= |blocks| && size == total + TotalSize(blocks[..j]) <= cacheSize
    {
      assert blocks[..j + 1][..j] == blocks[..j];
      size := size + blocks[j].Size();
      if size > cacheSize {
        end := j;
        assert blocks == blocks[..j + 1] + blocks[j + 1..];
        TotalSizeConcat(blocks[..j + 1], blocks[j + 1..]);
        return;
      }
      j := j + 1;
    }
    assert blocks[..j] == blocks;
  }

  method GeneratePlan(order: nat, stage: Stage, ghost cacheSize: nat) returns (p: Plan)
    requires StageOk(stage) && TotalSize(Flatten(StageObjects(stage))) <= cacheSize
    ensures p.order == order && p.objects == StageObjects(stage)
    ensures PlanOk(p, cacheSize) && ReadsOk(Flatten(p.objects), p.toRead)
  {
    hide OneRun, Flatten, TotalSize, ReadsOk;
    var toRead := BuildReads(StageObjects(stage));
    p := Plan(order, StageObjects(stage), toRead);
  }

  /** What has been staged: whole objects before `i` and the first `done` blocks of object `i`. */
  function Staged(objects: seq<CompactedObject>, i: nat, done: nat, k: Kind): seq<StreamDataBlock>
    requires i <= |objects| && (i < |objects| ==> done <= |objects[i].blocks|)
  {
    OfKind(objects[..i], k) + if i < |objects| && objects[i].kind == k then objects[i].blocks[..done] else []
  }

  /** Finished plans and the open stage together hold what has been staged, in order. */
  ghost predicate Accounted(plans: seq<Plan>, stage: Stage, objects: seq<CompactedObject>, i: nat, done: nat)
    requires i <= |objects| && (i < |objects| ==> done <= |objects[i].blocks|)
  {
    forall k :: OfKind(PlanObjects(plans), k) + OfKind(StageObjects(stage), k) == Staged(objects, i, done, k)
  }

  lemma AccountPlan(plans: seq<Plan>, stage: Stage, p: Plan, objects: seq<CompactedObject>, i: nat, done: nat)
    requires i <= |objects| && (i < |objects| ==> done <= |objects[i].blocks|)
    requires Accounted(plans, stage, objects, i, done) && p.objects == StageObjects(stage)
    ensures Accounted(plans + [p], Stage([], None), objects, i, done)
  {
    hide OfKind, Staged;
    PlanPush(plans, p);
    forall k ensures OfKind(PlanObjects(plans + [p]), k) + OfKind(StageObjects(Stage([], None)), k)
                  == Staged(objects, i, done, k) {
      KindConcat(PlanObjects(plans), p.objects, k);
      EmptyStageKind(k);
      assert OfKind(PlanObjects(plans), k) + OfKind(StageObjects(stage), k) == Staged(objects, i, done, k);
    }
  }

  lemma EmptyStageKind(k: Kind)
    ensures OfKind(StageObjects(Stage([], None)), k) == []
  {
  }

  /** Staging blocks `done..end` of object `i`. */
  lemma AccountAdd(plans: seq<Plan>, stage: Stage, objects: seq<CompactedObject>, i: nat, done: nat, end: nat)
    requires i < |objects| && done <= end <= |objects[i].blocks|
    requires Accounted(plans, stage, objects, i, done) && StageOk(stage)
    requires var o := CompactedObject(objects[i].kind, objects[i].blocks[done..end]);
             o.kind == Split ==> OneRun(o.blocks)
    ensures var o := CompactedObject(objects[i].kind, objects[i].blocks[done..end]);
            Accounted(plans, AddOrMerge(stage, o), objects, i, end)
  {
    hide OfKind, AddOrMerge, StageObjects, StageOk, OneRun, Staged, TotalSize, Flatten;
    var o := CompactedObject(objects[i].kind, objects[i].blocks[done..end]);
    forall k ensures OfKind(PlanObjects(plans), k) + OfKind(StageObjects(AddOrMerge(stage, o)), k)
                  == Staged(objects, i, end, k) {
      AddKinds(stage, o, k);
      var was, own := OfKind(StageObjects(stage), k), if o.kind == k then o.blocks else [];
      StagedNext(objects, i, done, end, k);
      Associate(OfKind(PlanObjects(plans), k), was, own);
      assert OfKind(PlanObjects(plans), k) + was == Staged(objects, i, done, k);
    }
  }

  lemma StagedNext(objects: seq<CompactedObject>, i: nat, done: nat, end: nat, k: Kind)
    requires i < |objects| && done <= end <= |objects[i].blocks|
    ensures Staged(objects, i, end, k)
         == Staged(objects, i, done, k) + if objects[i].kind == k then objects[i].blocks[done..end] else []
  {
    hide OfKind;
    assert objects[i].blocks[..end] == objects[i].blocks[..done] + objects[i].blocks[done..end];
  }

  lemma Associate(a: seq<StreamDataBlock>, b: seq<StreamDataBlock>, c: seq<StreamDataBlock>)
    ensures a + (b + c) == (a + b) + c
  {
  }

  /** A fully staged object is behind us. */
  lemma AccountNext(plans: seq<Plan>, stage: Stage, objects: seq<CompactedObject>, i: nat)
    requires i < |objects| && Accounted(plans, stage, objects, i, |objects[i].blocks|)
    ensures Accounted(plans, stage, objects, i + 1, 0)
  {
    hide StageObjects;
    forall k ensures Staged(objects, i + 1, 0, k) == Staged(objects, i, |objects[i].blocks|, k) {
      assert objects[..i + 1][..i] == objects[..i];
      assert objects[i].blocks[..|objects[i].blocks|] == objects[i].blocks;
    }
  }

  lemma RunPart(blocks: seq<StreamDataBlock>, a: nat, b: nat)
    requires OneRun(blocks) && a < b <= |blocks|
    ensures OneRun(blocks[a..b])
  {
    var part := blocks[a..b];
    forall i | 0 < i < |part|
      ensures part[i - 1].Stream() == part[i].Stream() && part[i - 1].End() == part[i].Start()
    {
      assert blocks[a + i - 1].Stream() == blocks[a + i].Stream();
    }
  }

  predicate Fits(objects: seq<CompactedObject>, cacheSize: nat) {
    forall i, j :: 0 <= i < |objects| && 0 <= j < |objects[i].blocks| ==> objects[i].blocks[j].Size() <= cacheSize
  }

  predicate SplitsAreRuns(objects: seq<CompactedObject>) {
    forall i :: 0 <= i < |objects| && objects[i].kind == Split ==> OneRun(objects[i].blocks)
  }

  // ---- Stages are filled ---------------------------------------------------------------------------

  /** The block does not fit the plan's stage any more. */
  ghost predicate Refuses(p: Plan, x: StreamDataBlock, cacheSize: nat) {
    TotalSize(Flatten(p.objects)) + x.Size() > cacheSize
  }

  /** Every stage but the last leaves no room for a block of the next one. */
  ghost predicate Packed(plans: seq<Plan>, cacheSize: nat) {
    forall k :: 0 < k < |plans| ==> FullBefore(plans[k - 1], plans[k], cacheSize)
  }

  ghost predicate FullBefore(a: Plan, b: Plan, cacheSize: nat) {
    exists x :: x in Flatten(b.objects) && Refuses(a, x, cacheSize)
  }

  lemma PackedPush(plans: seq<Plan>, p: Plan, x: StreamDataBlock, cacheSize: nat)
    requires Packed(plans, cacheSize)
    requires plans != [] ==> x in Flatten(p.objects) && Refuses(plans[|plans| - 1], x, cacheSize)
    ensures Packed(plans + [p], cacheSize)
  {
    hide Flatten, TotalSize, Refuses, FullBefore;
    if plans != [] {
      assert FullBefore(plans[|plans| - 1], p, cacheSize) by { RefusedInNext(plans[|plans| - 1], p, x, cacheSize); }
    }
  }

  lemma RefusedInNext(a: Plan, b: Plan, x: StreamDataBlock, cacheSize: nat)
    requires x in Flatten(b.objects) && Refuses(a, x, cacheSize)
    ensures FullBefore(a, b, cacheSize)
  {
  }

  /** The block that ended the last stage is in the open stage, or comes next. */
  ghost predicate Ended(plans: seq<Plan>, stage: Stage, total: nat, left: seq<StreamDataBlock>, x: StreamDataBlock,
                        cacheSize: nat)
  {
    plans != [] ==>
      && Refuses(plans[|plans| - 1], x, cacheSize)
      && (x in Flatten(StageObjects(stage)) || (total == 0 && left != [] && x == left[0]))
  }

  lemma EndedAdd(plans: seq<Plan>, stage: Stage, total: nat, left: seq<StreamDataBlock>, kind: Kind, end: nat,
                 x: StreamDataBlock, cacheSize: nat)
    requires Ended(plans, stage, total, left, x, cacheSize) && end <= |left| && (left != [] ==> 0 < end)
    ensures plans != [] ==>
              && Refuses(plans[|plans| - 1], x, cacheSize)
              && x in Flatten(StageObjects(AddOrMerge(stage, CompactedObject(kind, left[..end]))))
  {
    hide Flatten, StageObjects, AddOrMerge, Refuses;
    if plans != [] {
      assert left != [] ==> left[0] in left[..end];
      StageGrows(stage, CompactedObject(kind, left[..end]), x);
    }
  }

  lemma {:induction false} FlattenHome(objects: seq<CompactedObject>, x: StreamDataBlock) returns (k: nat)
    requires x in Flatten(objects)
    ensures k < |objects| && x in objects[k].blocks
  {
    var n := |objects| - 1;
    if x in objects[n].blocks {
      k := n;
    } else {
      k := FlattenHome(objects[..n], x);
    }
  }

  /** A stage that takes more keeps what it has. */
  lemma StageGrows(stage: Stage, o: CompactedObject, x: StreamDataBlock)
    requires x in Flatten(StageObjects(stage)) || x in o.blocks
    ensures x in Flatten(StageObjects(AddOrMerge(stage, o)))
  {
    hide Flatten;
    var now := StageObjects(AddOrMerge(stage, o));
    var n := |stage.splits|;
    if x in o.blocks {
      InFlatten(now, n, x);
    } else {
      var k := FlattenHome(StageObjects(stage), x);
      InFlatten(now, if k < n then k else if o.kind == Split then n + 1 else n, x);
    }
  }

  lemma CutRefuses(left: seq<StreamDataBlock>, end: nat, total: nat, cacheSize: nat, p: Plan)
    requires end < |left| && total + TotalSize(left[..end + 1]) > cacheSize
    requires TotalSize(Flatten(p.objects)) == total + TotalSize(left[..end])
    ensures Refuses(p, left[end], cacheSize)
  {
    hide Flatten;
    assert left[..end + 1][..end] == left[..end];
  }

  /** A stage is closed at block `left[end]`, which does not fit it. */
  lemma StageCut(plans: seq<Plan>, stage: Stage, total: nat, left: seq<StreamDataBlock>, kind: Kind, end: nat,
                 x: StreamDataBlock, p: Plan, cacheSize: nat)
    requires Packed(plans, cacheSize) && Ended(plans, stage, total, left, x, cacheSize)
    requires end < |left| && left[0].Size() <= cacheSize < total + TotalSize(left[..end + 1])
    requires p.objects
          == StageObjects(if end == 0 then stage else AddOrMerge(stage, CompactedObject(kind, left[..end])))
    requires TotalSize(Flatten(p.objects)) == total + TotalSize(left[..end])
    ensures Packed(plans + [p], cacheSize)
    ensures Ended(plans + [p], Stage([], None), 0, left[end..], left[end], cacheSize)
  {
    hide Flatten, StageObjects, AddOrMerge, Refuses, Packed, TotalSize;
    if end == 0 {
      FirstFits(left, cacheSize);
    } else {
      EndedAdd(plans, stage, total, left, kind, end, x, cacheSize);
    }
    PackedPush(plans, p, x, cacheSize);
    CutRefuses(left, end, total, cacheSize, p);
  }

  /** A stage takes all that is left of an object. */
  lemma StageTakes(plans: seq<Plan>, stage: Stage, total: nat, left: seq<StreamDataBlock>, kind: Kind,
                   x: StreamDataBlock, total': nat, rest: seq<StreamDataBlock>, cacheSize: nat)
    requires Ended(plans, stage, total, left, x, cacheSize)
    ensures Ended(plans, AddOrMerge(stage, CompactedObject(kind, left)), total', rest, x, cacheSize)
  {
    hide Flatten, StageObjects, AddOrMerge, Refuses;
    assert left[..|left|] == left;
    EndedAdd(plans, stage, total, left, kind, |left|, x, cacheSize);
  }

  lemma StageLast(plans: seq<Plan>, stage: Stage, total: nat, x: StreamDataBlock, p: Plan, cacheSize: nat)
    requires Packed(plans, cacheSize) && Ended(plans, stage, total, [], x, cacheSize)
    requires p.objects == StageObjects(stage)
    ensures Packed(plans + [p], cacheSize)
  {
    hide Flatten, StageObjects, Refuses, Packed;
    PackedPush(plans, p, x, cacheSize);
  }

  function LeftOf(objects: seq<CompactedObject>, i: nat, done: nat): seq<StreamDataBlock>
    requires i < |objects| ==> done <= |objects[i].blocks|
  {
    if i < |objects| then objects[i].blocks[done..] else []
  }

  /**
   * The staging loop. When no single block exceeds the cache it ends, every stage fits the cache,
   * and over all stages the blocks of each kind are the planned ones, each once and in order. A stage
   * ends only at a block that does not fit it any more.
   */
  method GeneratePlanWithCacheLimit(objects: seq<CompactedObject>, cacheSize: nat) returns (plans: seq<Plan>)
    requires Fits(objects, cacheSize) && SplitsAreRuns(objects)
    ensures PlansOk(plans, cacheSize) && Packed(plans, cacheSize)
    ensures forall k :: OfKind(PlanObjects(plans), k) == OfKind(objects, k)
  {
    hide PlanOk, ReadsOk, Flatten, TotalSize, Accounted, StageObjects, AddOrMerge, StageOk, Packed, Ended;
    hide PlansOk, Fits;
    plans := [];
    ghost var x := StreamDataBlock(0, DataBlockIndex(0, 0, 0, 0, 0, 0));
    NothingPacked(cacheSize);
    NoPlans(cacheSize);
    var stage, total, i, done := Stage([], None), 0, 0, 0;
    StagingStart(objects);
    while i < |objects|
      invariant 0 <= i <= |objects| && (i < |objects| ==> 0 <= done <= |objects[i].blocks|)
      invariant i < |objects| && done > 0 ==> done < |objects[i].blocks|
      invariant i == |objects| ==> done == 0
      invariant StageOk(stage) && total == TotalSize(Flatten(StageObjects(stage))) <= cacheSize
      invariant PlansOk(plans, cacheSize)
      invariant Accounted(plans, stage, objects, i, done) && Packed(plans, cacheSize)
      invariant Ended(plans, stage, total, LeftOf(objects, i, done), x, cacheSize)
      decreases |objects| - i, if i < |objects| then |objects[i].blocks| - done else 0, total
    {
      var kind, left := objects[i].kind, objects[i].blocks[done..];
      if total + TotalSize(left) > cacheSize {
        var end := CutPoint(left, total, cacheSize);
        FitsAt(objects, i, done, cacheSize);
        ghost var was := stage;
        if end != 0 {
          var o := CompactedObject(kind, left[..end]);
          assert left[..end] == objects[i].blocks[done..done + end];
          StageAdd(plans, stage, objects, i, done, done + end);
          stage := AddOrMerge(stage, o);
          done := done + end;
        } else {
          FirstFits(left, cacheSize);
        }
        var p := GeneratePlan(|plans|, stage, cacheSize);
        AccountPlan(plans, stage, p, objects, i, done);
        StageCut(plans, was, total, left, kind, end, x, p, cacheSize);
        PlansPush(plans, p, cacheSize);
        x := left[end];
        assert objects[i].blocks[done..] == left[end..];
        plans := plans + [p];
        stage, total := Stage([], None), 0;
        EmptyStage();
      } else {
        var o := CompactedObject(kind, left);
        assert left == objects[i].blocks[done..|objects[i].blocks|];
        StageAdd(plans, stage, objects, i, done, |objects[i].blocks|);
        AccountNext(plans, AddOrMerge(stage, o), objects, i);
        StageTakes(plans, stage, total, left, kind, x, total + TotalSize(left), LeftOf(objects, i + 1, 0), cacheSize);
        total := total + TotalSize(left);
        stage := AddOrMerge(stage, o);
        i, done := i + 1, 0;
      }
    }
    if |stage.splits| != 0 || stage.streamSet.Some? {
      var p := GeneratePlan(|plans|, stage, cacheSize);
      AccountPlan(plans, stage, p, objects, i, done);
      StageLast(plans, stage, total, x, p, cacheSize);
      PlansPush(plans, p, cacheSize);
      plans := plans + [p];
      stage := Stage([], None);
    }
    AccountEnd(plans, stage, objects);
  }

  lemma NoPlans(cacheSize: nat)
    ensures PlansOk([], cacheSize)
  {
  }

  lemma PlansPush(plans: seq<Plan>, p: Plan, cacheSize: nat)
    requires PlansOk(plans, cacheSize) && p.order == |plans|
    requires PlanOk(p, cacheSize) && ReadsOk(Flatten(p.objects), p.toRead)
    ensures PlansOk(plans + [p], cacheSize)
  {
    hide PlanOk, ReadsOk, Flatten;
  }

  lemma FitsAt(objects: seq<CompactedObject>, i: nat, done: nat, cacheSize: nat)
    requires Fits(objects, cacheSize) && i < |objects| && done < |objects[i].blocks|
    ensures objects[i].blocks[done..][0].Size() <= cacheSize
  {
  }

  lemma NothingPacked(cacheSize: nat)
    ensures Packed([], cacheSize)
    ensures forall left, x: StreamDataBlock :: Ended([], Stage([], None), 0, left, x, cacheSize)
  {
  }

  lemma StagingStart(objects: seq<CompactedObject>)
    ensures StageOk(Stage([], None)) && TotalSize(Flatten(StageObjects(Stage([], None)))) == 0
    ensures Accounted([], Stage([], None), objects, 0, 0)
  {
    assert objects[..0] == [];
  }

  lemma EmptyStage()
    ensures StageOk(Stage([], None)) && TotalSize(Flatten(StageObjects(Stage([], None)))) == 0
  {
  }

  /** With an empty cut something must have been staged before, since the block alone fits. */
  lemma FirstFits(left: seq<StreamDataBlock>, cacheSize: nat)
    requires left != [] && left[0].Size() <= cacheSize
    ensures TotalSize(left[..0]) == 0 && TotalSize(left[..1]) <= cacheSize
  {
    assert left[..1][..0] == [];
  }

  lemma StageAdd(plans: seq<Plan>, stage: Stage, objects: seq<CompactedObject>, i: nat, done: nat, end: nat)
    requires i < |objects| && done <= end <= |objects[i].blocks| && SplitsAreRuns(objects)
    requires done == end ==> objects[i].kind == Compact
    requires Accounted(plans, stage, objects, i, done) && StageOk(stage)
    ensures var o := CompactedObject(objects[i].kind, objects[i].blocks[done..end]);
            && Accounted(plans, AddOrMerge(stage, o), objects, i, end) && StageOk(AddOrMerge(stage, o))
            && TotalSize(Flatten(StageObjects(AddOrMerge(stage, o))))
               == TotalSize(Flatten(StageObjects(stage))) + TotalSize(o.blocks)
  {
    hide OneRun, Flatten, TotalSize, Accounted, StageObjects, AddOrMerge, StageOk;
    var o := CompactedObject(objects[i].kind, objects[i].blocks[done..end]);
    if o.kind == Split {
      RunPart(objects[i].blocks, done, end);
    }
    AccountAdd(plans, stage, objects, i, done, end);
    AddKinds(stage, o, Split);
  }

  lemma AccountEnd(plans: seq<Plan>, stage: Stage, objects: seq<CompactedObject>)
    requires Accounted(plans, stage, objects, |objects|, 0) && stage == Stage([], None)
    ensures forall k :: OfKind(PlanObjects(plans), k) == OfKind(objects, k)
  {
    hide OfKind, StageObjects;
    assert objects[..|objects|] == objects;
    forall k ensures OfKind(PlanObjects(plans), k) == OfKind(objects, k) {
      EmptyStageKind(k);
      var a, b := OfKind(PlanObjects(plans), k), OfKind(objects, k);
      assert a + OfKind(StageObjects(stage), k) == Staged(objects, |objects|, 0, k);
      assert a + [] == a && b + [] == b;
    }
  }
}
