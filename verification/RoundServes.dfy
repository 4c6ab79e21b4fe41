/**
 * A whole compaction round, from the objects it replaces to the objects it writes: what a replaced
 * object served is served by the new stream set object or by a new stream object.
 */
module RoundServes {
  import opened Sequences
  import opened Records
  import opened DataBlocks
  import opened Codec
  import opened ObjectFormat
  import opened ObjectIndex
  import opened Builders
  import opened Exclusion
  import opened Staging
  import opened Grouping
  import opened Sanity
  import opened Compaction
  import opened BlockReader
  import opened Rewrite
  import opened RewriteServes

  // ---- What a round writes -------------------------------------------------------------------------

  /** The one stream set object of a round, or the stream object of a planned object. */
  datatype Output = StreamSet | StreamObject(i: nat)

  predicate IsOutput(plans: seq<Plan>, out: Output) {
    out.StreamSet? || (out.i < |PlanObjects(plans)| && PlanObjects(plans)[out.i].kind == Split)
  }

  /** The blocks copied into the object, in order. */
  function BlocksIn(plans: seq<Plan>, out: Output): seq<StreamDataBlock>
    requires IsOutput(plans, out)
  {
    if out.StreamSet? then OfKind(PlanObjects(plans), Compact) else PlanObjects(plans)[out.i].blocks
  }

  /** The block's bytes are in its source object and decode. */
  predicate Readable(store: map<nat, Bytes>, x: StreamDataBlock) {
    && x.objectId in store && x.index.EndPosition() <= |store[x.objectId]|
    && Decode(OwnBytes(store[x.objectId], x)).Ok?
  }

  predicate AllReadable(store: map<nat, Bytes>, blocks: seq<StreamDataBlock>) {
    forall i :: 0 <= i < |blocks| ==> Readable(store, blocks[i])
  }

  /** Each block with its own bytes. */
  function Copies(store: map<nat, Bytes>, blocks: seq<StreamDataBlock>): (fs: seq<Fetched>)
    requires AllReadable(store, blocks)
    ensures |fs| == |blocks|
  {
    seq(|blocks|, i requires 0 <= i < |blocks| => Fetched(blocks[i], OwnBytes(store[blocks[i].objectId], blocks[i])))
  }

  /** The records a source block holds. */
  function RecordsIn(store: map<nat, Bytes>, x: StreamDataBlock): seq<Record>
    requires Readable(store, x)
  {
    Decode(OwnBytes(store[x.objectId], x)).value
  }

  /** An object written from these blocks, its index regrouped within the limits. */
  ghost predicate Written(store: map<nat, Bytes>, blocks: seq<StreamDataBlock>, groups: seq<seq<StreamDataBlock>>,
                          threshold: nat)
  {
    && AllReadable(store, blocks) && Concat(groups) == blocks && RewriteFits(Copies(store, blocks), groups)
    && LimitGroups(groups, threshold) && threshold <= U32
  }

  ghost predicate AllWritten(store: map<nat, Bytes>, plans: seq<Plan>, groups: map<Output, seq<seq<StreamDataBlock>>>,
                             threshold: nat)
  {
    forall out :: IsOutput(plans, out) ==> out in groups && Written(store, BlocksIn(plans, out), groups[out], threshold)
  }

  /** What planning a round gives. */
  ghost predicate Planned(plans: seq<Plan>, cacheSize: nat, m: BlockMap, excluded: set<nat>) {
    && PlansOk(plans, cacheSize) && Runs(OfKind(PlanObjects(plans), Compact))
    && (plans != [] ==> Holds(Flatten(PlanObjects(plans)), Shared(m) - excluded))
    && forall id :: id in m ==> Nonempty(m[id])
  }

  // ---- One output ----------------------------------------------------------------------------------

  lemma CopiesSound(store: map<nat, Bytes>, blocks: seq<StreamDataBlock>)
    requires AllReadable(store, blocks)
    ensures Sound(Copies(store, blocks)) && BlocksOf(Copies(store, blocks)) == blocks
  {
    hide Decode;
    var fs := Copies(store, blocks);
    forall i | 0 <= i < |fs| ensures |fs[i].data| == fs[i].block.Size() && Decode(fs[i].data).Ok? {
      assert Readable(store, blocks[i]);
    }
  }

  lemma RunRuns(blocks: seq<StreamDataBlock>)
    requires OneRun(blocks)
    ensures Runs(blocks)
  {
  }

  lemma NothingPlans()
    ensures PlanObjects([]) == [] && OfKind([], Compact) == [] && Nonempty([])
  {
  }

  lemma LeftNonempty(m: BlockMap, excluded: set<nat>)
    requires forall id :: id in m ==> Nonempty(m[id])
    ensures forall id :: id in Shared(m) - excluded ==> Nonempty((Shared(m) - excluded)[id])
  {
  }

  lemma OutputRuns(plans: seq<Plan>, cacheSize: nat, m: BlockMap, excluded: set<nat>, out: Output)
    requires Planned(plans, cacheSize, m, excluded) && IsOutput(plans, out)
    ensures Runs(BlocksIn(plans, out)) && Nonempty(BlocksIn(plans, out))
  {
    hide PlansOk, Runs, OfKind, PlanObjects, Flatten, Holds, Shared, OneRun, Nonempty;
    NothingPlans();
    if plans != [] {
      LeftNonempty(m, excluded);
      HoldsNonempty(Flatten(PlanObjects(plans)), Shared(m) - excluded);
      if out.StreamSet? {
        CompactNonempty(PlanObjects(plans));
      } else {
        PlanSplitRuns(plans, cacheSize, out.i);
        RunRuns(PlanObjects(plans)[out.i].blocks);
        ObjectNonempty(PlanObjects(plans), out.i);
      }
    }
  }

  lemma OutputRewritable(store: map<nat, Bytes>, blocks: seq<StreamDataBlock>, groups: seq<seq<StreamDataBlock>>,
                         threshold: nat)
    requires Written(store, blocks, groups, threshold) && Runs(blocks) && Nonempty(blocks)
    ensures Rewritable(Copies(store, blocks), groups, threshold)
  {
    hide Sound, Concat, RewriteFits, LimitGroups, Runs, Nonempty, Readable;
    CopiesSound(store, blocks);
  }

  /** In blocks with one run per stream, at most one serves an offset. */
  lemma ServedOnce(blocks: seq<StreamDataBlock>, p: nat, q: nat, s: nat, o: nat)
    requires Runs(blocks) && Nonempty(blocks) && p < |blocks| && q < |blocks|
    requires Serves(blocks[p], s, o) && Serves(blocks[q], s, o)
    ensures p == q
  {
    if p < q {
      EndsBefore(blocks, p, q);
    } else if q < p {
      EndsBefore(blocks, q, p);
    }
  }

  lemma {:induction false} EndsBefore(blocks: seq<StreamDataBlock>, p: nat, q: nat)
    requires Runs(blocks) && Nonempty(blocks) && p < q < |blocks| && blocks[p].Stream() == blocks[q].Stream()
    ensures blocks[p].End() <= blocks[q].Start()
    decreases q - p
  {
    StreamsAscend(blocks, p, q - 1);
    assert Follows(blocks[q - 1], blocks[q]);
    if p < q - 1 {
      EndsBefore(blocks, p, q - 1);
    }
  }

  lemma SoundConcat(a: seq<Fetched>, b: seq<Fetched>)
    requires Sound(a) && Sound(b)
    ensures Sound(a + b)
  {
    hide Decode;
  }

  lemma SoundPrefix(fs: seq<Fetched>, n: nat)
    requires Sound(fs) && n <= |fs|
    ensures Sound(fs[..n])
  {
    hide Decode;
  }

  lemma NoRecords()
    ensures Sound([]) && SourceRecords([]) == []
  {
  }

  lemma RecordsPush(fs: seq<Fetched>, f: Fetched)
    requires Sound(fs) && Sound(fs + [f])
    ensures Decode(f.data).Ok? && SourceRecords(fs + [f]) == SourceRecords(fs) + Decode(f.data).value
  {
    hide Decode;
    assert (fs + [f])[..|fs|] == fs && (fs + [f])[|fs|] == f;
  }

  lemma {:induction false} RecordsConcat(a: seq<Fetched>, b: seq<Fetched>)
    requires Sound(a) && Sound(b)
    ensures Sound(a + b) && SourceRecords(a + b) == SourceRecords(a) + SourceRecords(b)
  {
    hide Decode, Sound, SourceRecords;
    SoundConcat(a, b);
    if b == [] {
      NoRecords();
      assert a + b == a;
    } else {
      var init, f := b[..|b| - 1], b[|b| - 1];
      SoundPrefix(b, |b| - 1);
      RecordsConcat(a, init);
      assert b == init + [f];
      assert a + b == (a + init) + [f];
      RecordsPush(init, f);
      RecordsPush(a + init, f);
    }
  }

  lemma RecordsSplit(fs: seq<Fetched>, a: nat, k: nat, b: nat)
    requires Sound(fs) && a <= k < b <= |fs|
    ensures Sound(fs[a..k]) && Sound(fs[k + 1..b]) && Sound(fs[a..b])
    ensures SourceRecords(fs[a..b]) == SourceRecords(fs[a..k]) + Decode(fs[k].data).value + SourceRecords(fs[k + 1..b])
  {
    hide Decode;
    assert fs[a..b] == fs[a..k] + [fs[k]] + fs[k + 1..b];
    RecordsConcat(fs[a..k], [fs[k]]);
    RecordsConcat(fs[a..k] + [fs[k]], fs[k + 1..b]);
    assert [fs[k]][..0] == [];
  }

  /**
   * A reader finds the offset in the written object. The region found decodes to the records of
   * copied blocks of the stream, and those of block `k` are among them, whole and in order.
   */
  ghost predicate Found(fs: seq<Fetched>, groups: seq<seq<StreamDataBlock>>, s: nat, o: nat, end: nat, max: nat,
                        a: nat, k: nat, b: nat)
  {
    && a <= k < b <= |fs| && Sound(fs) && GroupsForward(groups) && WellFormed(RewrittenBytes(fs, groups))
    && (forall i :: a <= i < b ==> fs[i].block.Stream() == s)
    && Sound(fs[a..k]) && Sound(fs[k + 1..b])
    && var obj := RewrittenBytes(fs, groups);
       var r := Lookup(StoredIndex(obj), s, o, end, max);
       && r.blocks != []
       && var from, to := r.blocks[0].position, r.blocks[|r.blocks| - 1].EndPosition();
          && from <= to <= |obj|
          && Decode(obj[from..to])
          == Ok(SourceRecords(fs[a..k]) + Decode(fs[k].data).value + SourceRecords(fs[k + 1..b]))
  }

  lemma FoundIn(fs: seq<Fetched>, groups: seq<seq<StreamDataBlock>>, threshold: nat, k: nat, s: nat, o: nat, end: nat,
                max: nat) returns (a: nat, b: nat)
    requires Rewritable(fs, groups, threshold) && k < |fs| && Serves(fs[k].block, s, o)
    ensures Found(fs, groups, s, o, end, max, a, k, b)
  {
    hide Concat, LimitGroups, GroupsForward, Sound, Runs, Nonempty, RewriteFits, StoredIndex, WellFormed;
    hide RewrittenBytes, Decode, SourceRecords, Lookup;
    a, b := RewriteServesSources(fs, groups, threshold, s, o, end, max);
    var l :| a <= l < b && Serves(fs[l].block, s, o);
    ServedOnce(BlocksOf(fs), l, k, s, o);
    RecordsSplit(fs, a, k, b);
  }

  // ---- The round -------------------------------------------------------------------------------------

  /** Every block of a planned object is copied into some output. */
  lemma CopiedSomewhere(plans: seq<Plan>, x: StreamDataBlock) returns (out: Output, k: nat)
    requires x in Flatten(PlanObjects(plans))
    ensures IsOutput(plans, out) && k < |BlocksIn(plans, out)| && BlocksIn(plans, out)[k] == x
  {
    hide Flatten, OfKind, PlanObjects;
    var objects := PlanObjects(plans);
    KindsPartition(objects);
    assert x in multiset(Flatten(objects));
    if x in OfKind(objects, Compact) {
      out := StreamSet;
    } else {
      assert x in OfKind(objects, Split);
      var i := InSplit(objects, x);
      out := StreamObject(i);
    }
    k :| 0 <= k < |BlocksIn(plans, out)| && BlocksIn(plans, out)[k] == x;
  }

  /** A replaced object with blocks was read, so all its blocks are planned. */
  lemma ReplacedIsPlanned(plans: seq<Plan>, cacheSize: nat, m: BlockMap, excluded: set<nat>, request: Request,
                          x: StreamDataBlock)
    requires Planned(plans, cacheSize, m, excluded) && KeysMatch(m) && Assembled(plans, m, request)
    requires x.objectId in request.compacted && x.objectId in m && x in m[x.objectId]
    ensures x in Flatten(PlanObjects(plans))
  {
    hide Flatten, PlanObjects, PlansOk, Holds, OfKind, Runs, Shared, Nonempty, RangesOf, Maximal, Concat;
    assert ReadBy(plans, x.objectId);
    var left := Shared(m) - excluded;
    ReadIsPlanned(plans, cacheSize, left, x.objectId);
    SharedSame(m, x.objectId);
    InHolds(Flatten(PlanObjects(plans)), left, x);
  }

  lemma SharedSame(m: BlockMap, id: nat)
    requires id in Shared(m)
    ensures id in m && Shared(m)[id] == m[id]
  {
  }

  /**
   * Nothing a round replaces is lost to readers: every offset served by a block of a replaced object
   * is found in the stream set object or a stream object, with that block's records.
   */
  lemma RoundServesBlock(store: map<nat, Bytes>, plans: seq<Plan>, cacheSize: nat, m: BlockMap, excluded: set<nat>,
                         request: Request, groups: map<Output, seq<seq<StreamDataBlock>>>, threshold: nat,
                         x: StreamDataBlock, o: nat, end: nat, max: nat)
    returns (out: Output, a: nat, k: nat, b: nat)
    requires Planned(plans, cacheSize, m, excluded) && KeysMatch(m) && Assembled(plans, m, request)
    requires AllWritten(store, plans, groups, threshold)
    requires x.objectId in request.compacted && x.objectId in m && x in m[x.objectId] && x.Start() <= o < x.End()
    ensures IsOutput(plans, out) && out in groups && AllReadable(store, BlocksIn(plans, out)) && Readable(store, x)
    ensures var fs := Copies(store, BlocksIn(plans, out));
            && Found(fs, groups[out], x.Stream(), o, end, max, a, k, b)
            && fs[k].block == x && Decode(fs[k].data).value == RecordsIn(store, x)
  {
    hide Flatten, PlanObjects, Planned, Assembled, BlocksIn, IsOutput, Found, Decode, RewriteFits, LimitGroups, Concat;
    hide Rewritable, Runs, Nonempty;
    ReplacedIsPlanned(plans, cacheSize, m, excluded, request, x);
    out, k := CopiedSomewhere(plans, x);
    var blocks := BlocksIn(plans, out);
    OutputRuns(plans, cacheSize, m, excluded, out);
    OutputRewritable(store, blocks, groups[out], threshold);
    a, b := FoundIn(Copies(store, blocks), groups[out], threshold, k, x.Stream(), o, end, max);
  }

  /** Conversely, whatever a reader finds in an output of the round was served by a planned block. */
  lemma RoundServesOnlySources(store: map<nat, Bytes>, plans: seq<Plan>, cacheSize: nat, m: BlockMap,
                               excluded: set<nat>, groups: map<Output, seq<seq<StreamDataBlock>>>,
                               threshold: nat, out: Output, s: nat, o: nat, end: nat, max: nat)
    returns (x: StreamDataBlock)
    requires Planned(plans, cacheSize, m, excluded) && AllWritten(store, plans, groups, threshold)
    requires IsOutput(plans, out) && GroupsForward(groups[out])
    requires var obj := RewrittenBytes(Copies(store, BlocksIn(plans, out)), groups[out]);
             WellFormed(obj) && Lookup(StoredIndex(obj), s, o, end, max).blocks != []
    ensures x.objectId in m && x.objectId !in excluded && x in m[x.objectId] && Serves(x, s, o)
  {
    hide Flatten, PlanObjects, PlansOk, Holds, OfKind, Runs, Shared, Nonempty, RewriteFits, LimitGroups, Concat, Decode;
    hide StoredIndex, WellFormed, RewrittenBytes, Lookup, Rewritable, GroupsForward;
    var blocks := BlocksIn(plans, out);
    OutputRuns(plans, cacheSize, m, excluded, out);
    OutputRewritable(store, blocks, groups[out], threshold);
    var _, _ := RewriteServesSources(Copies(store, blocks), groups[out], threshold, s, o, end, max);
    var k :| 0 <= k < |blocks| && Serves(Copies(store, blocks)[k].block, s, o);
    x := blocks[k];
    NothingPlans();
    if out.StreamSet? {
      KindInFlatten(PlanObjects(plans), Compact, x);
    } else {
      InFlatten(PlanObjects(plans), out.i, x);
    }
    InHolds(Flatten(PlanObjects(plans)), Shared(m) - excluded, x);
    SharedSame(m, x.objectId);
  }

  // ---- From the replaced object's own index -----------------------------------------------------------

  /** The blocks a stored index lists. */
  function Tagged(id: nat, es: seq<DataBlockIndex>): (blocks: seq<StreamDataBlock>)
    ensures |blocks| == |es|
  {
    seq(|es|, i requires 0 <= i < |es| => StreamDataBlock(id, es[i]))
  }

  /** An entry that a lookup on the source finds at an untrimmed offset takes part in the round. */
  lemma FoundIsAlive(es: seq<DataBlockIndex>, id: nat, starts: map<nat, nat>, s: nat, o: nat, end: nat, max: nat)
    returns (x: StreamDataBlock)
    requires Lookup(es, s, o, end, max).blocks != [] && s in starts && starts[s] <= o
    ensures x == StreamDataBlock(id, Lookup(es, s, o, end, max).blocks[0]) && Serves(x, s, o)
    ensures x in Alive(Tagged(id, es), starts)
  {
    hide Alive, Charge, Reached;
    var i := First(es, s, o, 0).value;
    x := StreamDataBlock(id, es[i]);
    assert Tagged(id, es)[i] == x;
    AliveOnly(Tagged(id, es), starts, x);
  }

  /**
   * The round as a reader sees it: where the index of a replaced object leads to a block for an
   * offset that is not trimmed, an object written by the round leads to that block's records.
   */
  lemma RoundServesSources(store: map<nat, Bytes>, plans: seq<Plan>, cacheSize: nat, m: BlockMap, excluded: set<nat>,
                           request: Request, groups: map<Output, seq<seq<StreamDataBlock>>>, threshold: nat,
                           starts: map<nat, nat>, id: nat, s: nat, o: nat, end: nat, max: nat)
    returns (out: Output, a: nat, k: nat, b: nat)
    requires Planned(plans, cacheSize, m, excluded) && KeysMatch(m) && Assembled(plans, m, request)
    requires AllWritten(store, plans, groups, threshold)
    requires id in request.compacted && id in m && id in store && WellFormed(store[id])
    requires m[id] == Alive(Tagged(id, StoredIndex(store[id])), starts) && s in starts && starts[s] <= o
    requires Lookup(StoredIndex(store[id]), s, o, end, max).blocks != []
    ensures IsOutput(plans, out) && out in groups && AllReadable(store, BlocksIn(plans, out))
    ensures var fs, x := Copies(store, BlocksIn(plans, out)),
                         StreamDataBlock(id, Lookup(StoredIndex(store[id]), s, o, end, max).blocks[0]);
            && Found(fs, groups[out], s, o, end, max, a, k, b) && fs[k].block == x
            && Readable(store, x) && Decode(fs[k].data).value == RecordsIn(store, x)
  {
    hide Planned, Assembled, BlocksIn, IsOutput, Found, Decode, Alive, Tagged, StoredIndex, WellFormed, Lookup;
    hide AllWritten, Readable, KeysMatch;
    var x := FoundIsAlive(StoredIndex(store[id]), id, starts, s, o, end, max);
    out, a, k, b := RoundServesBlock(store, plans, cacheSize, m, excluded, request, groups, threshold, x, o, end, max);
  }
}
