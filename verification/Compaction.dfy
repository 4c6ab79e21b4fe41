/** A compaction round: planning, assembling the commit request, and why the check always passes. */
module Compaction {
  import opened Sequences
  import opened DataBlocks
  import opened Builders
  import opened Exclusion
  import opened Staging
  import opened Grouping
  import opened Sanity

  predicate MapFits(m: BlockMap, cacheSize: nat) {
    forall id, i :: id in m && 0 <= i < |m[id]| ==> m[id][i].Size() <= cacheSize
  }

  lemma {:induction false} KindsPartition(objects: seq<CompactedObject>)
    ensures multiset(Flatten(objects)) == multiset(OfKind(objects, Compact)) + multiset(OfKind(objects, Split))
  {
    if objects != [] {
      KindsPartition(objects[..|objects| - 1]);
    }
  }

  lemma InHolds(blocks: seq<StreamDataBlock>, m: BlockMap, x: StreamDataBlock)
    requires Holds(blocks, m)
    ensures x in blocks <==> x.objectId in m && x in m[x.objectId]
  {
    assert x in blocks <==> multiset(blocks)[x] > 0;
    assert x.objectId in m ==> (x in m[x.objectId] <==> multiset(m[x.objectId])[x] > 0);
  }

  lemma PlannedFits(objects: seq<CompactedObject>, m: BlockMap, cacheSize: nat)
    requires Holds(Flatten(objects), m) && MapFits(m, cacheSize)
    ensures Staging.Fits(objects, cacheSize)
  {
    hide Flatten, Holds;
    forall i: nat, j | i < |objects| && 0 <= j < |objects[i].blocks| ensures objects[i].blocks[j].Size() <= cacheSize {
      var x := objects[i].blocks[j];
      InFlatten(objects, i, x);
      InHolds(Flatten(objects), m, x);
    }
  }

  lemma UsableSplits(objects: seq<CompactedObject>, sorted: seq<StreamDataBlock>, splitSize: nat)
    requires Usable(objects, sorted, splitSize)
    ensures SplitsAreRuns(objects) && Runs(OfKind(objects, Compact))
  {
    forall i | 0 <= i < |objects| && objects[i].kind == Split ensures OneRun(objects[i].blocks) {
      assert ObjectOk(objects[i], sorted, splitSize);
    }
  }

  /**
   * Plans a round. Whenever plans come out, their blocks over all stages are exactly the blocks of
   * the objects that share a stream and were not excluded, each once; every stage fits the cache and
   * is filled as far as it goes;
   * stream objects are single runs and the stream set blocks have one run per stream. Nothing comes
   * out only if no stream is shared by what is left, or blocks overlap; objects are excluded only for
   * a grouping that exceeds a limit.
   */
  method Analyze(limits: Limits, m: BlockMap)
    returns (plans: seq<Plan>, excluded: set<nat>, ghost rounds: seq<Round>)
    requires KeysMatch(m) && MapSizes(m) && MapFits(m, limits.cacheSize)
    ensures PlansOk(plans, limits.cacheSize) && Packed(plans, limits.cacheSize)
    ensures plans != [] ==> Holds(Flatten(PlanObjects(plans)), Shared(m) - excluded)
    ensures Runs(OfKind(PlanObjects(plans), Compact))
    ensures plans == [] ==>
              || Shared(Shared(m) - excluded) == map[]
              || exists sorted :: Sorted(sorted) && Holds(sorted, Shared(m) - excluded) && Overlap(sorted)
    ensures ExcludedIn(limits, Shared(m), rounds, excluded)
    ensures AlwaysWithin(limits, Shared(m)) && NeverOverlaps(Shared(m)) && Shared(m) != map[] ==>
              plans != [] && excluded == {}
  {
    hide Shared, Flatten, OfKind, Usable, Runs, KeysMatch, MapSizes, MapFits, Holds, PlanObjects, Sorted;
    hide ExcludedIn, AlwaysWithin, NeverOverlaps, Overlap, Packed;
    plans, excluded, rounds := [], {}, [];
    NothingPlanned();
    NothingPacked(limits.cacheSize);
    NoRounds(limits, Shared(m));
    if m == map[] {
      NothingLeft(m);
      return;
    }
    var shared := FilterBlocksToCompact(m);
    if shared == map[] {
      NothingLeft(shared);
      return;
    }
    SharedMap(m, limits.cacheSize);
    SharedTwice(m);
    var grouped;
    grouped, excluded, rounds := GroupObjectWithLimits(limits, shared);
    if grouped.Some? {
      var objects := grouped.value;
      FitsLess(shared, excluded, limits.cacheSize);
      PlannedFits(objects, shared - excluded, limits.cacheSize);
      UsableSplits(objects, Flatten(objects), limits.splitSize);
      plans := GeneratePlanWithCacheLimit(objects, limits.cacheSize);
      SameBlocks(PlanObjects(plans), objects, shared - excluded);
      KeysRemoved(shared, excluded);
      SharedHolds(shared - excluded, Flatten(PlanObjects(plans)));
      PlansNeeded(plans);
    }
  }

  lemma NothingLeft(m: BlockMap)
    requires m == map[]
    ensures Shared(m) == map[] && Shared(Shared(m) - {}) == map[] && Shared(m - {}) == map[]
  {
  }

  lemma SharedTwice(m: BlockMap)
    ensures Shared(Shared(m)) == Shared(m)
  {
    hide Shared;
    SharedAfterRemoval(m, {});
    assert Shared(m) - {} == Shared(m) && m - {} == m;
  }

  /** Objects that share a stream have blocks. */
  lemma SharedHolds(m: BlockMap, blocks: seq<StreamDataBlock>)
    requires KeysMatch(m) && Holds(blocks, m) && Shared(m) != map[]
    ensures blocks != []
  {
    var id :| id in Shared(m);
    assert Shares(m, id);
    var x := m[id][0];
    assert x in multiset(m[id]);
    assert multiset(blocks)[x] > 0;
  }

  lemma PlansNeeded(plans: seq<Plan>)
    requires Flatten(PlanObjects(plans)) != []
    ensures plans != []
  {
  }

  lemma NothingPlanned()
    ensures Runs(OfKind(PlanObjects([]), Compact))
  {
  }

  lemma SharedMap(m: BlockMap, cacheSize: nat)
    requires KeysMatch(m) && MapSizes(m) && MapFits(m, cacheSize)
    ensures KeysMatch(Shared(m)) && MapSizes(Shared(m)) && MapFits(Shared(m), cacheSize)
  {
  }

  lemma FitsLess(m: BlockMap, gone: set<nat>, cacheSize: nat)
    requires MapFits(m, cacheSize)
    ensures MapFits(m - gone, cacheSize)
  {
  }

  lemma SameBlocks(a: seq<CompactedObject>, b: seq<CompactedObject>, m: BlockMap)
    requires Holds(Flatten(b), m) && forall k :: OfKind(a, k) == OfKind(b, k)
    ensures Holds(Flatten(a), m)
  {
    hide Flatten, OfKind;
    KindsPartition(a);
    KindsPartition(b);
    assert OfKind(a, Compact) == OfKind(b, Compact) && OfKind(a, Split) == OfKind(b, Split);
  }

  // ---- The commit request ----------------------------------------------------------------------------

  function SplitRanges(objects: seq<CompactedObject>): seq<StreamRange> {
    if objects == [] then []
    else
      var rest, o := SplitRanges(objects[..|objects| - 1]), objects[|objects| - 1];
      if o.kind == Split && o.blocks != [] then rest + [RangeOf(o.blocks)] else rest
  }

  lemma {:induction false} InSplitRanges(objects: seq<CompactedObject>, k: nat)
    requires k < |objects| && objects[k].kind == Split && objects[k].blocks != []
    ensures RangeOf(objects[k].blocks) in SplitRanges(objects)
  {
    if k < |objects| - 1 {
      InSplitRanges(objects[..|objects| - 1], k);
    }
  }

  /** The object was read by some stage. */
  predicate ReadBy(plans: seq<Plan>, id: nat) {
    exists i :: 0 <= i < |plans| && id in plans[i].toRead
  }

  /** The request of a round: the runs of the stream set object, the stream objects, and the
      source objects that may go. */
  ghost predicate Assembled(plans: seq<Plan>, m: BlockMap, request: Request) {
    && (exists groups :: Concat(groups) == OfKind(PlanObjects(plans), Compact) && Maximal(groups)
          && request.ranges == RangesOf(groups))
    && request.streamObjects == SplitRanges(PlanObjects(plans))
    && (forall id :: id in request.compacted ==> ReadBy(plans, id) || (id in m && m[id] == []))
    && (forall id :: ReadBy(plans, id) || (id in m && m[id] == []) ==> id in request.compacted)
  }

  method AssembleRequest(plans: seq<Plan>, m: BlockMap) returns (request: Request)
    ensures Assembled(plans, m, request)
  {
    hide Concat, OfKind, PlanObjects, Maximal, SplitRanges, RangesOf;
    var setBlocks, splits := CollectOutputs(PlanObjects(plans));
    var groups := GroupByOffset(setBlocks);
    MaximalNonempty(groups);
    var ids := CollectSources(plans, m);
    request := Request(RangesOf(groups), splits, ids);
  }

  lemma MaximalNonempty(groups: seq<seq<StreamDataBlock>>)
    requires Maximal(groups)
    ensures forall i :: 0 <= i < |groups| ==> groups[i] != []
  {
  }

  method CollectOutputs(objects: seq<CompactedObject>)
    returns (setBlocks: seq<StreamDataBlock>, splits: seq<StreamRange>)
    ensures setBlocks == OfKind(objects, Compact) && splits == SplitRanges(objects)
  {
    setBlocks, splits := [], [];
    var i := 0;
    while i < |objects|
      invariant 0 <= i <= |objects|
      invariant setBlocks == OfKind(objects[..i], Compact) && splits == SplitRanges(objects[..i])
    {
      assert objects[..i + 1][..i] == objects[..i];
      var o := objects[i];
      if o.kind == Compact {
        setBlocks := setBlocks + o.blocks;
      } else if |o.blocks| != 0 {
        splits := splits + [RangeOf(o.blocks)];
      }
      i := i + 1;
    }
    assert objects[..i] == objects;
  }

  /** Every object some stage read, and every object without live blocks, each once. */
  method CollectSources(plans: seq<Plan>, m: BlockMap) returns (ids: seq<nat>)
    ensures forall id :: id in ids <==> ReadBy(plans, id) || (id in m && m[id] == [])
  {
    ids := [];
    var i := 0;
    while i < |plans|
      invariant 0 <= i <= |plans|
      invariant forall id :: id in ids <==> ReadBy(plans[..i], id)
    {
      ghost var before := ids;
      ids := AddKeys(ids, plans[i].toRead.Keys);
      forall id ensures ReadBy(plans[..i + 1], id) <==> ReadBy(plans[..i], id) || id in plans[i].toRead {
        ReadByNext(plans, i, id);
      }
      i := i + 1;
    }
    assert plans[..i] == plans;
    ids := AddKeys(ids, set id | id in m && m[id] == []);
  }

  lemma ReadByNext(plans: seq<Plan>, i: nat, id: nat)
    requires i < |plans|
    ensures ReadBy(plans[..i + 1], id) <==> ReadBy(plans[..i], id) || id in plans[i].toRead
  {
    if ReadBy(plans[..i], id) {
      var k :| 0 <= k < i && id in plans[..i][k].toRead;
      assert plans[..i + 1][k] == plans[..i][k];
    }
    assert plans[..i + 1][i] == plans[i];
    if ReadBy(plans[..i + 1], id) && id !in plans[i].toRead {
      var k :| 0 <= k < i + 1 && id in plans[..i + 1][k].toRead;
      assert plans[..i][k] == plans[..i + 1][k];
    }
  }

  method AddKeys(ids: seq<nat>, keys: set<nat>) returns (r: seq<nat>)
    ensures forall id :: id in r <==> id in ids || id in keys
  {
    r := ids;
    var todo := keys;
    while todo != {}
      invariant todo <= keys
      invariant forall id :: id in r <==> id in ids || (id in keys && id !in todo)
      decreases |todo|
    {
      var id :| id in todo;
      todo := todo - {id};
      if id !in r {
        r := r + [id];
      }
    }
  }

  // ---- Why the check passes ----------------------------------------------------------------------------

  lemma InsideCovered(ranges: seq<StreamRange>, x: StreamDataBlock, r: StreamRange)
    requires r in ranges && Inside(x, r)
    ensures AllCovered(StreamRanges(ranges, x.Stream()), x.Start(), x.End())
  {
    forall o | x.Start() <= o < x.End() ensures Covers(StreamRanges(ranges, x.Stream()), o) {
      StreamRangesMember(ranges, r, o);
    }
  }

  lemma GroupInside(groups: seq<seq<StreamDataBlock>>, x: StreamDataBlock) returns (k: nat)
    requires Maximal(groups) && x in Concat(groups) && Nonempty(Concat(groups))
    ensures k < |groups| && Inside(x, RangeOf(groups[k])) && RangesOf(groups)[k] == RangeOf(groups[k])
  {
    hide Concat, OneRun;
    k := InConcat(groups, x);
    GroupNonempty(groups, k);
    var i :| 0 <= i < |groups[k]| && groups[k][i] == x;
    RunSpans(groups[k], i);
  }

  lemma {:induction false} InSplit(objects: seq<CompactedObject>, x: StreamDataBlock) returns (k: nat)
    requires x in OfKind(objects, Split)
    ensures k < |objects| && objects[k].kind == Split && x in objects[k].blocks
  {
    var n := |objects| - 1;
    if objects[n].kind == Split && x in objects[n].blocks {
      k := n;
    } else {
      k := InSplit(objects[..n], x);
    }
  }

  lemma {:induction false} PlanSplitRuns(plans: seq<Plan>, cacheSize: nat, k: nat)
    requires PlansOk(plans, cacheSize) && k < |PlanObjects(plans)| && PlanObjects(plans)[k].kind == Split
    ensures OneRun(PlanObjects(plans)[k].blocks)
  {
    var n := |plans| - 1;
    var init := PlanObjects(plans[..n]);
    if k < |init| {
      PlanSplitRuns(plans[..n], cacheSize, k);
    } else {
      assert PlanOk(plans[n], cacheSize) && plans[n].objects[k - |init|] == PlanObjects(plans)[k];
    }
  }

  /** Every planned block lies inside an output range. */
  lemma PlannedCovered(plans: seq<Plan>, cacheSize: nat, m: BlockMap, request: Request, x: StreamDataBlock)
    requires PlansOk(plans, cacheSize) && Assembled(plans, m, request)
    requires x in Flatten(PlanObjects(plans)) && Nonempty(Flatten(PlanObjects(plans)))
    ensures AllCovered(Outputs(request, x.Stream()), x.Start(), x.End())
  {
    hide Flatten, OfKind, PlanObjects, PlansOk, AllCovered, Concat, SplitRanges;
    var objects := PlanObjects(plans);
    var all := request.ranges + request.streamObjects;
    KindsPartition(objects);
    assert x in multiset(Flatten(objects));
    if x in OfKind(objects, Compact) {
      var groups :| Concat(groups) == OfKind(objects, Compact) && Maximal(groups) && request.ranges == RangesOf(groups);
      CompactNonempty(objects);
      var k := GroupInside(groups, x);
      assert request.ranges[k] in all;
      InsideCovered(all, x, request.ranges[k]);
    } else {
      assert x in OfKind(objects, Split);
      var k := InSplit(objects, x);
      PlanSplitRuns(plans, cacheSize, k);
      ObjectNonempty(objects, k);
      var i :| 0 <= i < |objects[k].blocks| && objects[k].blocks[i] == x;
      RunSpans(objects[k].blocks, i);
      InSplitRanges(objects, k);
      InsideCovered(all, x, RangeOf(objects[k].blocks));
    }
  }

  lemma CompactNonempty(objects: seq<CompactedObject>)
    requires Nonempty(Flatten(objects))
    ensures Nonempty(OfKind(objects, Compact))
  {
    var own := OfKind(objects, Compact);
    forall i | 0 <= i < |own| ensures own[i].Start() < own[i].End() {
      KindInFlatten(objects, Compact, own[i]);
    }
  }

  lemma ObjectNonempty(objects: seq<CompactedObject>, k: nat)
    requires k < |objects| && Nonempty(Flatten(objects))
    ensures Nonempty(objects[k].blocks)
  {
    forall i | 0 <= i < |objects[k].blocks| ensures objects[k].blocks[i].Start() < objects[k].blocks[i].End() {
      InFlatten(objects, k, objects[k].blocks[i]);
    }
  }

  lemma HoldsNonempty(blocks: seq<StreamDataBlock>, m: BlockMap)
    requires Holds(blocks, m) && forall id :: id in m ==> Nonempty(m[id])
    ensures Nonempty(blocks)
  {
    hide Holds;
    forall i | 0 <= i < |blocks| ensures blocks[i].Start() < blocks[i].End() {
      InHolds(blocks, m, blocks[i]);
    }
  }

  /** A source that some stage read is among the planned objects, as a whole. */
  lemma ReadIsPlanned(plans: seq<Plan>, cacheSize: nat, m: BlockMap, id: nat)
    requires PlansOk(plans, cacheSize) && ReadBy(plans, id) && Holds(Flatten(PlanObjects(plans)), m)
    ensures id in m
  {
    hide Flatten, PlanObjects, Holds, PlanOk;
    var i: nat :| i < |plans| && id in plans[i].toRead;
    assert ReadsOk(Flatten(plans[i].objects), plans[i].toRead);
    var x := plans[i].toRead[id][0];
    assert x.objectId == id;
    InHolds(Flatten(plans[i].objects), plans[i].toRead, x);
    InPlans(plans, i, x);
    InHolds(Flatten(PlanObjects(plans)), m, x);
  }

  lemma {:induction false} InPlans(plans: seq<Plan>, i: nat, x: StreamDataBlock)
    requires i < |plans| && x in Flatten(plans[i].objects)
    ensures x in Flatten(PlanObjects(plans))
  {
    var n := |plans| - 1;
    FlattenConcat(PlanObjects(plans[..n]), plans[n].objects);
    if i < n {
      InPlans(plans[..n], i, x);
    }
  }

  lemma {:induction false} FlattenConcat(a: seq<CompactedObject>, b: seq<CompactedObject>)
    ensures Flatten(a + b) == Flatten(a) + Flatten(b)
  {
    if b == [] {
      assert a + b == a;
    } else {
      assert (a + b)[..|a + b| - 1] == a + b[..|b| - 1];
      FlattenConcat(a, b[..|b| - 1]);
    }
  }

  /** The request of a planned round never loses an offset, trimmed or not. */
  lemma PlannedLosesNothing(plans: seq<Plan>, cacheSize: nat, m: BlockMap, excluded: set<nat>,
                            starts: map<nat, nat>, request: Request)
    requires KeysMatch(m) && forall id :: id in m ==> Nonempty(m[id])
    requires PlansOk(plans, cacheSize) && Assembled(plans, m, request)
    requires plans != [] ==> Holds(Flatten(PlanObjects(plans)), Shared(m) - excluded)
    ensures !LosesSomething(starts, m, request)
  {
    hide Flatten, PlanObjects, PlansOk, Holds, Outputs, AllCovered;
    forall i, j | 0 <= i < |request.compacted| && request.compacted[i] in m && 0 <= j < |m[request.compacted[i]]|
      ensures !Lost(starts, request, m[request.compacted[i]][j])
    {
      var id := request.compacted[i];
      var x := m[id][j];
      assert id in request.compacted && ReadBy(plans, id);
      var left := Shared(m) - excluded;
      ReadIsPlanned(plans, cacheSize, left, id);
      InHolds(Flatten(PlanObjects(plans)), left, x);
      HoldsNonempty(Flatten(PlanObjects(plans)), left);
      PlannedCovered(plans, cacheSize, m, request, x);
    }
  }

  /** A whole round: plan, assemble, check. Every block of the chosen sources is planned once, and
      the check passes for every input. */
  method CompactRound(limits: Limits, m: BlockMap, starts: map<nat, nat>)
    returns (plans: seq<Plan>, excluded: set<nat>, request: Request, failed: bool, ghost rounds: seq<Round>)
    requires KeysMatch(m) && MapSizes(m) && MapFits(m, limits.cacheSize)
    requires forall id :: id in m ==> Nonempty(m[id])
    ensures PlansOk(plans, limits.cacheSize) && Assembled(plans, m, request)
    ensures plans != [] ==> Holds(Flatten(PlanObjects(plans)), Shared(m) - excluded)
    ensures Runs(OfKind(PlanObjects(plans), Compact))
    ensures ExcludedIn(limits, Shared(m), rounds, excluded)
    ensures AlwaysWithin(limits, Shared(m)) && NeverOverlaps(Shared(m)) && Shared(m) != map[] ==>
              plans != [] && excluded == {}
    ensures !failed
  {
    hide Flatten, PlanObjects, PlansOk, Holds, Assembled, LosesSomething, MapSizes, MapFits, KeysMatch, Shared;
    hide OfKind, Runs, ExcludedIn, AlwaysWithin, NeverOverlaps;
    plans, excluded, rounds := Analyze(limits, m);
    request := AssembleRequest(plans, m);
    failed := IsSanityCheckFailed(starts, m, request);
    PlannedLosesNothing(plans, limits.cacheSize, m, excluded, starts, request);
  }

  /** Keeps the blocks of existing streams that reach past the stream's start. */
  function Alive(blocks: seq<StreamDataBlock>, starts: map<nat, nat>): seq<StreamDataBlock> {
    if blocks == [] then []
    else
      var rest, x := Alive(blocks[..|blocks| - 1], starts), blocks[|blocks| - 1];
      if x.Stream() in starts && x.End() > starts[x.Stream()] then rest + [x] else rest
  }

  lemma {:induction false} AliveOnly(blocks: seq<StreamDataBlock>, starts: map<nat, nat>, x: StreamDataBlock)
    ensures x in Alive(blocks, starts) <==> x in blocks && x.Stream() in starts && x.End() > starts[x.Stream()]
  {
    if blocks != [] {
      AliveOnly(blocks[..|blocks| - 1], starts, x);
      assert blocks == blocks[..|blocks| - 1] + [blocks[|blocks| - 1]];
    }
  }

  /** Drops dead blocks object by object; objects that end up empty stay listed. */
  method FilterInvalidStreamDataBlocks(m: BlockMap, starts: map<nat, nat>) returns (r: BlockMap)
    ensures r.Keys == m.Keys && forall id :: id in m ==> r[id] == Alive(m[id], starts)
  {
    r := m;
    var todo := m.Keys;
    while todo != {}
      invariant todo <= m.Keys == r.Keys
      invariant forall id :: id in m ==> r[id] == if id in todo then m[id] else Alive(m[id], starts)
      decreases |todo|
    {
      var id :| id in todo;
      var kept := Retained(m[id], starts);
      r := r[id := kept];
      todo := todo - {id};
    }
  }

  method Retained(blocks: seq<StreamDataBlock>, starts: map<nat, nat>) returns (kept: seq<StreamDataBlock>)
    ensures kept == Alive(blocks, starts)
  {
    kept := [];
    var i := 0;
    while i < |blocks|
      invariant 0 <= i <= |blocks| && kept == Alive(blocks[..i], starts)
    {
      assert blocks[..i + 1][..i] == blocks[..i];
      if blocks[i].Stream() in starts && blocks[i].End() > starts[blocks[i].Stream()] {
        kept := kept + [blocks[i]];
      }
      i := i + 1;
    }
    assert blocks[..i] == blocks;
  }

  /** Trimming the input first cannot hide a loss: what it drops the check ignores anyway. */
  lemma FilteringHidesNoLoss(m: BlockMap, r: BlockMap, starts: map<nat, nat>, request: Request)
    requires r.Keys == m.Keys && forall id :: id in m ==> r[id] == Alive(m[id], starts)
    ensures LosesSomething(starts, m, request) <==> LosesSomething(starts, r, request)
  {
    hide Alive, Outputs, AllCovered;
    if LosesSomething(starts, m, request) {
      var i, j :| 0 <= i < |request.compacted| && request.compacted[i] in m
        && 0 <= j < |m[request.compacted[i]]| && Lost(starts, request, m[request.compacted[i]][j]);
      var id := request.compacted[i];
      var x := m[id][j];
      AliveOnly(m[id], starts, x);
      var k :| 0 <= k < |r[id]| && r[id][k] == x;
    }
    if LosesSomething(starts, r, request) {
      var i, j :| 0 <= i < |request.compacted| && request.compacted[i] in r
        && 0 <= j < |r[request.compacted[i]]| && Lost(starts, request, r[request.compacted[i]][j]);
      var id := request.compacted[i];
      var x := r[id][j];
      AliveOnly(m[id], starts, x);
      var k :| 0 <= k < |m[id]| && m[id][k] == x;
    }
  }
}
