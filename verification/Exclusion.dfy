/** Choosing which objects to compact together: sharing, sorting, and the exclusion loop. */
module Exclusion {
  import opened Records
  import opened DataBlocks
  import opened Builders

  type BlockMap = map<nat, seq<StreamDataBlock>>

  /** Every block is filed under its own object. */
  predicate KeysMatch(m: BlockMap) {
    forall id, i :: id in m && 0 <= i < |m[id]| ==> m[id][i].objectId == id
  }

  predicate MapSizes(m: BlockMap) {
    forall id :: id in m ==> PositiveSizes(m[id])
  }

  function CountIn(m: BlockMap, x: StreamDataBlock): nat {
    if x.objectId in m then multiset(m[x.objectId])[x] else 0
  }

  /** The list holds exactly the map's blocks, each as often as the map does. */
  ghost predicate Holds(blocks: seq<StreamDataBlock>, m: BlockMap) {
    forall x :: multiset(blocks)[x] == CountIn(m, x)
  }

  // ---- Objects that share a stream -----------------------------------------------------------------

  function StreamsOf(blocks: seq<StreamDataBlock>): set<nat> {
    set i | 0 <= i < |blocks| :: blocks[i].Stream()
  }

  function ObjectsOf(blocks: seq<StreamDataBlock>): set<nat> {
    set i | 0 <= i < |blocks| :: blocks[i].objectId
  }

  predicate Meet(m: BlockMap, a: nat, b: nat)
    requires a in m && b in m
  {
    exists s :: s in StreamsOf(m[a]) && s in StreamsOf(m[b])
  }

  predicate Shares(m: BlockMap, id: nat)
    requires id in m
  {
    exists other :: other in m && other != id && Meet(m, id, other)
  }

  /** Only objects that share a stream with another object. */
  function Shared(m: BlockMap): BlockMap {
    map id | id in m && Shares(m, id) :: m[id]
  }

  /** An object without partners is nobody's partner, so filtering again after removals is the same
      as removing first. */
  lemma SharedAfterRemoval(m: BlockMap, gone: set<nat>)
    ensures Shared(Shared(m) - gone) == Shared(m - gone)
  {
    hide Meet;
    forall id ensures id in Shared(Shared(m) - gone) <==> id in Shared(m - gone) {
      if id in Shared(Shared(m) - gone) {
        var other :| other in Shared(m) - gone && other != id && Meet(Shared(m) - gone, id, other);
        MeetSame(Shared(m) - gone, m - gone, id, other);
      }
      if id in Shared(m - gone) {
        var other :| other in m - gone && other != id && Meet(m - gone, id, other);
        MeetSame(m - gone, m, id, other);
        MeetSame(m, Shared(m) - gone, id, other);
      }
    }
  }

  lemma MeetSame(m: BlockMap, m': BlockMap, a: nat, b: nat)
    requires a in m && b in m && Meet(m, a, b)
    ensures Meet(m, b, a)
    ensures a in m' && b in m' && m'[a] == m[a] && m'[b] == m[b] ==> Meet(m', a, b)
  {
  }

  /** The streams of the map and the objects each occurs in, over the objects seen so far. */
  ghost predicate Indexed(m: BlockMap, seen: set<nat>, index: map<nat, set<nat>>) {
    forall s: nat, id: nat :: Filed(index, s, id) <==> id in seen && id in m && s in StreamsOf(m[id])
  }

  predicate Filed(index: map<nat, set<nat>>, s: nat, id: nat) {
    s in index && id in index[s]
  }

  method FilterBlocksToCompact(m: BlockMap) returns (r: BlockMap)
    requires KeysMatch(m)
    ensures r == Shared(m)
  {
    hide Indexed, Filed, Shares, StreamsOf;
    var index: map<nat, set<nat>> := map[];
    assert Indexed(m, {}, index) by { IndexedNone(m); }
    var todo := m.Keys;
    assert m.Keys - todo == {};
    while todo != {}
      invariant todo <= m.Keys && Indexed(m, m.Keys - todo, index)
      decreases |todo|
    {
      var id :| id in todo;
      var index' := IndexObject(m, m.Keys - todo, index, id);
      index := index';
      assert m.Keys - todo + {id} == m.Keys - (todo - {id});
      todo := todo - {id};
    }
    assert m.Keys - todo == m.Keys;
    var busy := set s, id | s in index && |index[s]| > 1 && id in index[s] :: id;
    r := map id | id in m && id in busy :: m[id];
    forall id | id in m ensures id in busy <==> Shares(m, id) {
      BusyShares(m, index, busy, id);
    }
  }

  lemma IndexedNone(m: BlockMap)
    ensures Indexed(m, {}, map[])
  {
  }

  /** Files one object's blocks under their streams. */
  method IndexObject(m: BlockMap, ghost seen: set<nat>, index: map<nat, set<nat>>, id: nat)
    returns (index': map<nat, set<nat>>)
    requires KeysMatch(m) && id in m && Indexed(m, seen, index)
    ensures Indexed(m, seen + {id}, index')
  {
    index' := index;
    var blocks := m[id];
    var i := 0;
    while i < |blocks|
      invariant 0 <= i <= |blocks|
      invariant forall s: nat, o: nat ::
                  Filed(index', s, o) <==> Filed(index, s, o) || (o == id && s in StreamsOf(blocks[..i]))
    {
      var b := blocks[i];
      assert StreamsOf(blocks[..i + 1]) == StreamsOf(blocks[..i]) + {b.Stream()} by { StreamsNext(blocks, i); }
      var filed := if b.Stream() in index' then index'[b.Stream()] else {};
      ghost var before := index';
      assert b.objectId == id;
      index' := index'[b.Stream() := filed + {b.objectId}];
      forall s: nat, o: nat ensures Filed(index', s, o) <==> Filed(before, s, o) || (o == id && s == b.Stream()) {
      }
      i := i + 1;
    }
    assert blocks[..i] == blocks;
  }

  lemma StreamsNext(blocks: seq<StreamDataBlock>, i: nat)
    requires i < |blocks|
    ensures StreamsOf(blocks[..i + 1]) == StreamsOf(blocks[..i]) + {blocks[i].Stream()}
  {
    assert blocks[..i + 1] == blocks[..i] + [blocks[i]];
    var a := blocks[..i];
    forall s ensures s in StreamsOf(a + [blocks[i]]) <==> s in StreamsOf(a) || s == blocks[i].Stream() {
      if s in StreamsOf(a) {
        var k :| 0 <= k < |a| && a[k].Stream() == s;
        assert (a + [blocks[i]])[k].Stream() == s;
      }
      assert (a + [blocks[i]])[|a|] == blocks[i];
    }
  }

  lemma TwoInSet(s: set<nat>, a: nat)
    requires a in s
    ensures |s| > 1 <==> exists b :: b in s && b != a
  {
    if |s| > 1 {
      assert |s - {a}| > 0;
      var b :| b in s - {a};
    } else if exists b :: b in s && b != a {
      var b :| b in s && b != a;
      assert |{a, b}| == 2;
      SubsetSize({a, b}, s);
    }
  }

  lemma {:induction false} SubsetSize(a: set<nat>, b: set<nat>)
    requires a <= b
    ensures |a| <= |b|
    decreases |b|
  {
    if a != {} {
      var x :| x in a;
      SubsetSize(a - {x}, b - {x});
    }
  }

  lemma BusyShares(m: BlockMap, index: map<nat, set<nat>>, busy: set<nat>, id: nat)
    requires Indexed(m, m.Keys, index) && id in m
    requires busy == set s, o | s in index && |index[s]| > 1 && o in index[s] :: o
    ensures id in busy <==> Shares(m, id)
  {
    if id in busy {
      var s :| s in index && |index[s]| > 1 && id in index[s];
      TwoInSet(index[s], id);
      var b :| b in index[s] && b != id;
      assert Filed(index, s, id) && Filed(index, s, b);
    }
    if Shares(m, id) {
      var other :| other in m && other != id && Meet(m, id, other);
      var s :| s in StreamsOf(m[id]) && s in StreamsOf(m[other]);
      assert Filed(index, s, id) && Filed(index, s, other);
      TwoInSet(index[s], id);
    }
  }

  // ---- Sorting -------------------------------------------------------------------------------------

  /** Stable insertion by stream and start offset. */
  function InsertBlock(sorted: seq<StreamDataBlock>, x: StreamDataBlock): seq<StreamDataBlock> {
    if sorted == [] || Before(sorted[|sorted| - 1], x) then sorted + [x]
    else InsertBlock(sorted[..|sorted| - 1], x) + [sorted[|sorted| - 1]]
  }

  lemma SortedAppend(blocks: seq<StreamDataBlock>, x: StreamDataBlock)
    requires Sorted(blocks) && (blocks != [] ==> Before(blocks[|blocks| - 1], x))
    ensures Sorted(blocks + [x])
  {
  }

  lemma SortedPrefix(blocks: seq<StreamDataBlock>)
    requires Sorted(blocks) && blocks != []
    ensures Sorted(blocks[..|blocks| - 1])
    ensures |blocks| > 1 ==> Before(blocks[|blocks| - 2], blocks[|blocks| - 1])
  {
  }

  lemma {:induction false} InsertBlockOk(sorted: seq<StreamDataBlock>, x: StreamDataBlock)
    requires Sorted(sorted)
    ensures Sorted(InsertBlock(sorted, x)) && |InsertBlock(sorted, x)| == |sorted| + 1
    ensures var last := InsertBlock(sorted, x)[|sorted|];
            last == if sorted == [] || Before(sorted[|sorted| - 1], x) then x else sorted[|sorted| - 1]
  {
    hide Sorted;
    if sorted == [] || Before(sorted[|sorted| - 1], x) {
      SortedAppend(sorted, x);
    } else {
      var n := |sorted|;
      SortedPrefix(sorted);
      InsertBlockOk(sorted[..n - 1], x);
      SortedAppend(InsertBlock(sorted[..n - 1], x), sorted[n - 1]);
    }
  }

  lemma {:induction false} InsertBlockCount(sorted: seq<StreamDataBlock>, x: StreamDataBlock)
    ensures multiset(InsertBlock(sorted, x)) == multiset(sorted) + multiset{x}
  {
    if !(sorted == [] || Before(sorted[|sorted| - 1], x)) {
      var init, last := sorted[..|sorted| - 1], sorted[|sorted| - 1];
      assert sorted == init + [last];
      InsertBlockCount(init, x);
    }
  }

  /** Inserts one object's blocks. */
  method InsertAll(sorted: seq<StreamDataBlock>, blocks: seq<StreamDataBlock>) returns (r: seq<StreamDataBlock>)
    requires Sorted(sorted)
    ensures Sorted(r) && multiset(r) == multiset(sorted) + multiset(blocks)
  {
    hide InsertBlock, Sorted;
    r := sorted;
    var i := 0;
    while i < |blocks|
      invariant 0 <= i <= |blocks| && Sorted(r)
      invariant multiset(r) == multiset(sorted) + multiset(blocks[..i])
    {
      InsertBlockOk(r, blocks[i]);
      InsertBlockCount(r, blocks[i]);
      assert blocks[..i + 1] == blocks[..i] + [blocks[i]];
      r := InsertBlock(r, blocks[i]);
      i := i + 1;
    }
    assert blocks[..i] == blocks;
  }

  /** The list holds the blocks of every object that is not left to do. */
  ghost predicate Collected(sorted: seq<StreamDataBlock>, m: BlockMap, todo: set<nat>) {
    forall x :: multiset(sorted)[x] == if x.objectId in todo then 0 else CountIn(m, x)
  }

  lemma CollectNext(sorted: seq<StreamDataBlock>, r: seq<StreamDataBlock>, m: BlockMap, todo: set<nat>, id: nat)
    requires KeysMatch(m) && id in m && id in todo && Collected(sorted, m, todo)
    requires multiset(r) == multiset(sorted) + multiset(m[id])
    ensures Collected(r, m, todo - {id})
  {
    forall x ensures multiset(r)[x] == if x.objectId in todo - {id} then 0 else CountIn(m, x) {
      if x.objectId != id {
        NotIn(m[id], x);
      }
    }
  }

  /** All blocks of all objects, by stream and then by start offset. */
  method SortStreamRangePositions(m: BlockMap) returns (sorted: seq<StreamDataBlock>)
    requires KeysMatch(m)
    ensures Sorted(sorted) && Holds(sorted, m)
  {
    hide Sorted, KeysMatch;
    sorted := [];
    SortedNone();
    var todo := m.Keys;
    while todo != {}
      invariant todo <= m.Keys && Sorted(sorted) && Collected(sorted, m, todo)
      decreases |todo|
    {
      var id :| id in todo;
      var r := InsertAll(sorted, m[id]);
      CollectNext(sorted, r, m, todo, id);
      sorted, todo := r, todo - {id};
    }
  }

  lemma SortedNone()
    ensures Sorted([])
  {
  }

  lemma NotIn(blocks: seq<StreamDataBlock>, x: StreamDataBlock)
    requires forall i :: 0 <= i < |blocks| ==> blocks[i].objectId != x.objectId
    ensures multiset(blocks)[x] == 0
  {
    assert x !in blocks;
  }

  /** Drops the blocks of removed objects. */
  function Retain(blocks: seq<StreamDataBlock>, gone: set<nat>): seq<StreamDataBlock> {
    if blocks == [] then []
    else
      var rest := Retain(blocks[..|blocks| - 1], gone);
      var x := blocks[|blocks| - 1];
      if x.objectId in gone then rest else rest + [x]
  }

  lemma {:induction false} SortedPair(blocks: seq<StreamDataBlock>, i: nat, j: nat)
    requires Sorted(blocks) && i < j < |blocks|
    ensures Before(blocks[i], blocks[j])
    decreases j - i
  {
    if i + 1 < j {
      SortedPair(blocks, i, j - 1);
      assert Before(blocks[j - 1], blocks[j]);
    }
  }

  lemma {:induction false} RetainCount(blocks: seq<StreamDataBlock>, gone: set<nat>, x: StreamDataBlock)
    ensures multiset(Retain(blocks, gone))[x] == if x.objectId in gone then 0 else multiset(blocks)[x]
  {
    if blocks != [] {
      var init := blocks[..|blocks| - 1];
      assert blocks == init + [blocks[|blocks| - 1]];
      RetainCount(init, gone, x);
    }
  }

  lemma RetainMember(blocks: seq<StreamDataBlock>, gone: set<nat>, x: StreamDataBlock)
    ensures x in Retain(blocks, gone) <==> x in blocks && x.objectId !in gone
  {
    RetainCount(blocks, gone, x);
    assert x in Retain(blocks, gone) <==> multiset(Retain(blocks, gone))[x] > 0;
    assert x in blocks <==> multiset(blocks)[x] > 0;
  }

  lemma {:induction false} RetainSorted(blocks: seq<StreamDataBlock>, gone: set<nat>)
    requires Sorted(blocks)
    ensures Sorted(Retain(blocks, gone))
  {
    hide Sorted;
    if blocks != [] {
      var n := |blocks|;
      var init, x := blocks[..n - 1], blocks[n - 1];
      SortedPrefix(blocks);
      RetainSorted(init, gone);
      var rest := Retain(init, gone);
      if rest != [] {
        var last := rest[|rest| - 1];
        RetainMember(init, gone, last);
        var i: nat :| i < |init| && init[i] == last;
        SortedPair(blocks, i, n - 1);
      }
      if x.objectId !in gone {
        SortedAppend(rest, x);
      }
    }
  }

  lemma RetainSizes(blocks: seq<StreamDataBlock>, gone: set<nat>)
    requires PositiveSizes(blocks)
    ensures PositiveSizes(Retain(blocks, gone))
  {
    var r := Retain(blocks, gone);
    forall i | 0 <= i < |r| ensures r[i].Size() > 0 {
      RetainMember(blocks, gone, r[i]);
    }
  }

  /** Removing an object that occurs makes the list strictly shorter. */
  lemma {:induction false} RetainShrinks(blocks: seq<StreamDataBlock>, gone: set<nat>)
    ensures |Retain(blocks, gone)| <= |blocks|
    ensures (exists i :: 0 <= i < |blocks| && blocks[i].objectId in gone) ==> |Retain(blocks, gone)| < |blocks|
  {
    if blocks != [] {
      RetainShrinks(blocks[..|blocks| - 1], gone);
    }
  }

  lemma RetainHolds(blocks: seq<StreamDataBlock>, m: BlockMap, gone: set<nat>)
    requires Holds(blocks, m)
    ensures Holds(Retain(blocks, gone), m - gone)
  {
    forall x ensures multiset(Retain(blocks, gone))[x] == CountIn(m - gone, x) {
      RetainCount(blocks, gone, x);
    }
  }

  // ---- Limits --------------------------------------------------------------------------------------

  /** How many stream objects a grouping would create. */
  function SplitCount(objects: seq<CompactedObject>): nat {
    if objects == [] then 0
    else
      var o := objects[|objects| - 1];
      SplitCount(objects[..|objects| - 1]) + if o.kind == Split && o.blocks != [] then 1 else 0
  }

  /** How many streams its stream set objects would hold. */
  function StreamCount(objects: seq<CompactedObject>): nat {
    if objects == [] then 0
    else
      var o := objects[|objects| - 1];
      StreamCount(objects[..|objects| - 1]) + if o.kind == Compact then |StreamsOf(o.blocks)| else 0
  }

  method Stats(objects: seq<CompactedObject>) returns (streams: nat, splits: nat)
    ensures streams == StreamCount(objects) && splits == SplitCount(objects)
  {
    streams, splits := 0, 0;
    var i := 0;
    while i < |objects|
      invariant 0 <= i <= |objects|
      invariant streams == StreamCount(objects[..i]) && splits == SplitCount(objects[..i])
    {
      assert objects[..i + 1][..i] == objects[..i];
      var o := objects[i];
      if o.kind == Split && o.blocks != [] {
        splits := splits + 1;
      } else if o.kind == Compact {
        streams := streams + |StreamsOf(o.blocks)|;
      }
      i := i + 1;
    }
    assert objects[..i] == objects;
  }

  lemma {:induction false} SplitExists(objects: seq<CompactedObject>) returns (k: nat)
    requires SplitCount(objects) > 0
    ensures k < |objects| && objects[k].kind == Split && objects[k].blocks != []
  {
    var n := |objects| - 1;
    if objects[n].kind == Split && objects[n].blocks != [] {
      k := n;
    } else {
      k := SplitExists(objects[..n]);
    }
  }

  lemma {:induction false} StreamExists(objects: seq<CompactedObject>)
    requires StreamCount(objects) > 0
    ensures OfKind(objects, Compact) != []
  {
    var n := |objects| - 1;
    if objects[n].kind == Compact && objects[n].blocks != [] {
    } else {
      assert StreamsOf([]) == {};
      StreamExists(objects[..n]);
    }
  }

  lemma {:induction false} InFlatten(objects: seq<CompactedObject>, k: nat, x: StreamDataBlock)
    requires k < |objects| && x in objects[k].blocks
    ensures x in Flatten(objects)
  {
    if k < |objects| - 1 {
      InFlatten(objects[..|objects| - 1], k, x);
    }
  }

  lemma {:induction false} KindInFlatten(objects: seq<CompactedObject>, kind: Kind, x: StreamDataBlock)
    requires x in OfKind(objects, kind)
    ensures x in Flatten(objects)
  {
    var n := |objects| - 1;
    if x !in objects[n].blocks || objects[n].kind != kind {
      KindInFlatten(objects[..n], kind, x);
    }
  }

  // ---- Which objects to give up ----------------------------------------------------------------------

  /** Sum, over an output's source objects, of the outputs each occurs in. */
  function ObjectStats(objects: seq<CompactedObject>, o: CompactedObject): nat {
    |set id, i | 0 <= i < |objects| && id in ObjectsOf(o.blocks) && id in ObjectsOf(objects[i].blocks) :: (id, i)|
  }

  predicate KeyLeq(objects: seq<CompactedObject>, a: CompactedObject, b: CompactedObject) {
    |a.blocks| < |b.blocks|
    || (|a.blocks| == |b.blocks| && ObjectStats(objects, a) <= ObjectStats(objects, b))
  }

  /** The stream object with the fewest blocks, ties broken by the fewest uses of its sources. */
  ghost predicate CheapestSplit(objects: seq<CompactedObject>, k: nat) {
    && k < |objects| && objects[k].kind == Split
    && forall j :: 0 <= j < |objects| && objects[j].kind == Split ==> KeyLeq(objects, objects[k], objects[j])
  }

  method SmallestSplit(objects: seq<CompactedObject>) returns (best: Option<nat>)
    ensures best.Some? ==> CheapestSplit(objects, best.value)
    ensures best.None? ==> forall j :: 0 <= j < |objects| ==> objects[j].kind != Split
  {
    hide ObjectStats;
    best := None;
    var i := 0;
    while i < |objects|
      invariant 0 <= i <= |objects|
      invariant best.Some? ==> best.value < i && objects[best.value].kind == Split
      invariant best.Some? ==> forall j :: 0 <= j < i && objects[j].kind == Split ==>
                  KeyLeq(objects, objects[best.value], objects[j])
      invariant best.None? ==> forall j :: 0 <= j < i ==> objects[j].kind != Split
    {
      if objects[i].kind == Split && (best.None? || !KeyLeq(objects, objects[best.value], objects[i])) {
        best := Some(i);
      }
      i := i + 1;
    }
  }

  function ObjectsWith(blocks: seq<StreamDataBlock>, s: nat): set<nat> {
    set i | 0 <= i < |blocks| && blocks[i].Stream() == s :: blocks[i].objectId
  }

  /** Sum, over the objects of a stream, of the streams each of them holds. */
  function Dispersion(blocks: seq<StreamDataBlock>, s: nat): nat {
    |set i | 0 <= i < |blocks| && blocks[i].objectId in ObjectsWith(blocks, s)
       :: (blocks[i].objectId, blocks[i].Stream())|
  }

  predicate StreamLeq(blocks: seq<StreamDataBlock>, a: nat, b: nat) {
    Dispersion(blocks, a) < Dispersion(blocks, b) || (Dispersion(blocks, a) == Dispersion(blocks, b) && a <= b)
  }

  ghost predicate CheapestStream(blocks: seq<StreamDataBlock>, s: nat) {
    s in StreamsOf(blocks) && forall t :: t in StreamsOf(blocks) ==> StreamLeq(blocks, s, t)
  }

  method SmallestStream(blocks: seq<StreamDataBlock>) returns (best: Option<nat>)
    ensures best.Some? ==> CheapestStream(blocks, best.value)
    ensures best.None? ==> blocks == []
  {
    hide Dispersion, StreamsOf;
    best := None;
    var todo := StreamsOf(blocks);
    while todo != {}
      invariant todo <= StreamsOf(blocks)
      invariant best.Some? ==> best.value in StreamsOf(blocks)
      invariant best.Some? ==> forall t :: t in StreamsOf(blocks) && t !in todo ==> StreamLeq(blocks, best.value, t)
      invariant best.None? ==> todo == StreamsOf(blocks)
      decreases |todo|
    {
      var s :| s in todo;
      todo := todo - {s};
      if best.None? || !StreamLeq(blocks, best.value, s) {
        best := Some(s);
      }
    }
    if best.None? {
      NoStreams(blocks);
    }
  }

  lemma NoStreams(blocks: seq<StreamDataBlock>)
    ensures StreamsOf(blocks) == {} <==> blocks == []
  {
    if blocks != [] {
      assert blocks[0].Stream() in StreamsOf(blocks);
    }
  }

  /** The objects to exclude when a limit is exceeded. */
  method AddObjectsToRemove(kind: Kind, objects: seq<CompactedObject>) returns (gone: set<nat>)
    ensures kind == Split && SplitCount(objects) > 0 ==>
              exists k: nat :: CheapestSplit(objects, k) && gone == ObjectsOf(objects[k].blocks)
    ensures kind == Compact && OfKind(objects, Compact) != [] ==>
              exists s: nat ::
                CheapestStream(OfKind(objects, Compact), s) && gone == ObjectsWith(OfKind(objects, Compact), s)
  {
    hide CheapestStream, ObjectsWith, ObjectsOf, KeyLeq;
    gone := {};
    if kind == Split {
      var best := SmallestSplit(objects);
      if best.Some? {
        gone := ObjectsOf(objects[best.value].blocks);
      } else if SplitCount(objects) > 0 {
        var _ := SplitExists(objects);
      }
    } else {
      var blocks := OfKind(objects, Compact);
      var best := SmallestStream(blocks);
      if best.Some? {
        gone := ObjectsWith(blocks, best.value);
      }
    }
  }

  /** Whatever is excluded does occur, so the block list gets strictly shorter. */
  lemma ExclusionOccurs(objects: seq<CompactedObject>, sorted: seq<StreamDataBlock>, splitSize: nat,
                        kind: Kind, gone: set<nat>)
    requires Flatten(objects) == sorted && Usable(objects, sorted, splitSize)
    requires kind == Split ==> exists k: nat :: CheapestSplit(objects, k) && gone == ObjectsOf(objects[k].blocks)
    requires kind == Compact ==>
               exists s: nat ::
                 CheapestStream(OfKind(objects, Compact), s) && gone == ObjectsWith(OfKind(objects, Compact), s)
    ensures gone != {} && exists i :: 0 <= i < |sorted| && sorted[i].objectId in gone
  {
    hide OfKind, Flatten;
    var x: StreamDataBlock;
    if kind == Split {
      var k: nat :| CheapestSplit(objects, k) && gone == ObjectsOf(objects[k].blocks);
      assert ObjectOk(objects[k], sorted, splitSize);
      x := objects[k].blocks[0];
      InFlatten(objects, k, x);
    } else {
      var blocks := OfKind(objects, Compact);
      var s: nat :| CheapestStream(blocks, s) && gone == ObjectsWith(blocks, s);
      var i :| 0 <= i < |blocks| && blocks[i].Stream() == s;
      x := blocks[i];
      KindInFlatten(objects, Compact, x);
    }
    assert x.objectId in gone && x in sorted;
  }

  datatype Limits = Limits(cacheSize: nat, splitSize: nat, maxStreams: nat, maxSplits: nat)

  predicate Within(limits: Limits, objects: seq<CompactedObject>) {
    StreamCount(objects) <= limits.maxStreams && SplitCount(objects) <= limits.maxSplits
  }

  lemma HoldsSizes(sorted: seq<StreamDataBlock>, m: BlockMap)
    requires Holds(sorted, m) && MapSizes(m)
    ensures PositiveSizes(sorted)
  {
    forall i | 0 <= i < |sorted| ensures sorted[i].Size() > 0 {
      var x := sorted[i];
      assert multiset(sorted)[x] > 0;
      assert x in m[x.objectId];
    }
  }

  lemma SharedKeys(m: BlockMap)
    requires KeysMatch(m)
    ensures KeysMatch(Shared(m))
  {
  }

  /** One round: the excluded objects' blocks leave, and the map keeps its sharing objects. */
  lemma RoundKeeps(m0: BlockMap, m: BlockMap, excluded: set<nat>, gone: set<nat>)
    requires Shared(m) == Shared(m0 - excluded)
    ensures Shared(Shared(m - gone)) == Shared(m0 - (excluded + gone))
    ensures Shared(m - gone) == Shared(m0 - (excluded + gone))
  {
    hide Shared;
    SharedAfterRemoval(m, gone);
    SharedAfterRemoval(m0 - excluded, gone);
    assert m0 - excluded - gone == m0 - (excluded + gone);
    SharedAfterRemoval(m - gone, {});
    assert m - gone - {} == m - gone && Shared(m - gone) - {} == Shared(m - gone);
  }

  // ---- Why objects are excluded ----------------------------------------------------------------------

  /** A grouping of all blocks of the map. */
  ghost predicate Grouping(m: BlockMap, objects: seq<CompactedObject>, splitSize: nat) {
    Holds(Flatten(objects), m) && Sorted(Flatten(objects)) && Usable(objects, Flatten(objects), splitSize)
  }

  /** What exceeds a limit decides what goes: the sources of the cheapest stream object, or else those
      of the cheapest stream of the stream set. */
  ghost predicate Chosen(limits: Limits, objects: seq<CompactedObject>, gone: set<nat>) {
    if SplitCount(objects) > limits.maxSplits
    then exists k: nat :: CheapestSplit(objects, k) && gone == ObjectsOf(objects[k].blocks)
    else && StreamCount(objects) > limits.maxStreams
         && exists s: nat ::
              CheapestStream(OfKind(objects, Compact), s) && gone == ObjectsWith(OfKind(objects, Compact), s)
  }

  /** One exclusion: the grouping that exceeded a limit, and the objects that went for it. */
  datatype Round = Round(objects: seq<CompactedObject>, gone: set<nat>)

  ghost function GoneIn(rounds: seq<Round>): set<nat> {
    if rounds == [] then {} else GoneIn(rounds[..|rounds| - 1]) + rounds[|rounds| - 1].gone
  }

  ghost predicate RoundOk(limits: Limits, m: BlockMap, round: Round) {
    Shared(m) != map[] && Grouping(m, round.objects, limits.splitSize) && Chosen(limits, round.objects, round.gone)
  }

  /** Every excluded object went in a round whose grouping of the blocks left exceeded a limit. */
  ghost predicate ExcludedIn(limits: Limits, m: BlockMap, rounds: seq<Round>, excluded: set<nat>) {
    && excluded == GoneIn(rounds)
    && forall k: nat :: k < |rounds| ==> RoundOk(limits, m - GoneIn(rounds[..k]), rounds[k])
  }

  lemma NoRounds(limits: Limits, m: BlockMap)
    ensures ExcludedIn(limits, m, [], {})
  {
  }

  lemma RoundPush(limits: Limits, m: BlockMap, rounds: seq<Round>, excluded: set<nat>, round: Round)
    requires ExcludedIn(limits, m, rounds, excluded) && RoundOk(limits, m - excluded, round)
    ensures ExcludedIn(limits, m, rounds + [round], excluded + round.gone)
  {
    hide RoundOk;
    var rounds' := rounds + [round];
    assert rounds'[..|rounds|] == rounds;
    forall k: nat | k < |rounds'| ensures RoundOk(limits, m - GoneIn(rounds'[..k]), rounds'[k]) {
      if k < |rounds| {
        assert rounds'[..k] == rounds[..k];
      }
    }
  }

  /** Every grouping of the map's blocks is within the limits. */
  ghost predicate AlwaysWithin(limits: Limits, m: BlockMap) {
    forall objects :: Grouping(m, objects, limits.splitSize) ==> Within(limits, objects)
  }

  ghost predicate NeverOverlaps(m: BlockMap) {
    forall sorted :: Sorted(sorted) && Holds(sorted, m) ==> !Overlap(sorted)
  }

  /** Without an exceeded limit nothing is excluded. */
  lemma NothingExcluded(limits: Limits, m: BlockMap, rounds: seq<Round>, excluded: set<nat>)
    requires ExcludedIn(limits, m, rounds, excluded) && AlwaysWithin(limits, m)
    ensures excluded == {}
  {
    hide AlwaysWithin;
    if rounds != [] {
      FirstRound(limits, m, rounds, excluded);
      assert false;
    }
  }

  /** The first round grouped all blocks, and that exceeded a limit. */
  lemma FirstRound(limits: Limits, m: BlockMap, rounds: seq<Round>, excluded: set<nat>)
    requires ExcludedIn(limits, m, rounds, excluded) && rounds != []
    ensures Grouping(m, rounds[0].objects, limits.splitSize) && !Within(limits, rounds[0].objects)
    ensures !AlwaysWithin(limits, m)
  {
    hide Grouping, SplitCount, StreamCount;
    assert rounds[..0] == [] && m - GoneIn([]) == m;
    assert RoundOk(limits, m - GoneIn(rounds[..0]), rounds[0]);
  }

  lemma ChosenBy(limits: Limits, objects: seq<CompactedObject>, sorted: seq<StreamDataBlock>, kind: Kind,
                 gone: set<nat>)
    requires Flatten(objects) == sorted && Usable(objects, sorted, limits.splitSize)
    requires kind == if SplitCount(objects) > limits.maxSplits then Split else Compact
    requires !Within(limits, objects)
    requires kind == Split ==> exists k: nat :: CheapestSplit(objects, k) && gone == ObjectsOf(objects[k].blocks)
    requires kind == Compact ==>
               exists s: nat ::
                 CheapestStream(OfKind(objects, Compact), s) && gone == ObjectsWith(OfKind(objects, Compact), s)
    ensures Chosen(limits, objects, gone)
    ensures gone != {} && exists i :: 0 <= i < |sorted| && sorted[i].objectId in gone
  {
    hide Usable, Flatten, SplitCount, StreamCount, CheapestSplit, CheapestStream, OfKind, ObjectsWith, ObjectsOf;
    ExclusionOccurs(objects, sorted, limits.splitSize, kind, gone);
  }

  lemma RoundIs(limits: Limits, m: BlockMap, objects: seq<CompactedObject>, sorted: seq<StreamDataBlock>,
                gone: set<nat>)
    requires Flatten(objects) == sorted && Usable(objects, sorted, limits.splitSize) && Sorted(sorted)
    requires Holds(sorted, m) && Shared(m) != map[] && Chosen(limits, objects, gone)
    ensures RoundOk(limits, m, Round(objects, gone))
  {
    hide Sorted, Holds, Usable, Flatten, Shared, Chosen;
  }

  /**
   * Excludes objects until the grouping is within both limits. The loop ends because each round
   * excludes an object that still occurs, and the branch for "nothing to exclude" cannot be
   * taken. The grouped blocks are exactly those of the objects that were not excluded: an object
   * is used as a whole or not at all. Objects are excluded only for a grouping that exceeds a limit,
   * and without such a grouping, and without overlap, whatever shares a stream is grouped.
   */
  method GroupObjectWithLimits(limits: Limits, m0: BlockMap)
    returns (r: Option<seq<CompactedObject>>, excluded: set<nat>, ghost rounds: seq<Round>)
    requires KeysMatch(m0) && MapSizes(m0)
    ensures r.Some? ==>
              && Holds(Flatten(r.value), m0 - excluded) && Sorted(Flatten(r.value))
              && Usable(r.value, Flatten(r.value), limits.splitSize)
              && Within(limits, r.value)
              && Shared(m0 - excluded) != map[]
    ensures r.None? ==>
              || Shared(m0 - excluded) == map[]
              || exists sorted :: Sorted(sorted) && Holds(sorted, m0 - excluded) && Overlap(sorted)
    ensures ExcludedIn(limits, m0, rounds, excluded)
    ensures AlwaysWithin(limits, m0) && NeverOverlaps(m0) && Shared(m0) != map[] ==> r.Some? && excluded == {}
  {
    hide Sorted, Holds, Usable, Flatten, Shared, SplitCount, StreamCount, Overlap, KeysMatch, MapSizes, PositiveSizes;
    hide ExcludedIn, AlwaysWithin, RoundOk, Chosen, CheapestSplit, CheapestStream, OfKind, ObjectsWith, ObjectsOf;
    var m := m0;
    var sorted := SortStreamRangePositions(m);
    var builders: seq<CompactedObject> := [];
    var counted := false;
    var streams, splits := 0, 0;
    excluded, rounds := {}, [];
    NoRounds(limits, m0);
    assert m0 - excluded == m0;
    HoldsSizes(sorted, m0);
    while true
      invariant KeysMatch(m) && Shared(m) == Shared(m0 - excluded)
      invariant Sorted(sorted) && Holds(sorted, m0 - excluded) && PositiveSizes(sorted)
      invariant ExcludedIn(limits, m0, rounds, excluded)
      invariant counted ==> Flatten(builders) == sorted && Usable(builders, sorted, limits.splitSize)
      invariant counted ==> streams == StreamCount(builders) && splits == SplitCount(builders)
      invariant counted ==> (streams > limits.maxStreams || splits > limits.maxSplits) && Shared(m0 - excluded) != map[]
      decreases if counted then 0 else 1, |sorted|
    {
      var gone := {};
      if counted {
        var kind := if splits > limits.maxSplits then Split else Compact;
        gone := AddObjectsToRemove(kind, builders);
        if kind == Compact {
          StreamExists(builders);
        }
        ChosenBy(limits, builders, sorted, kind, gone);
        if gone == {} {
          assert false;
        }
        RetainShrinks(sorted, gone);
        RoundIs(limits, m0 - excluded, builders, sorted, gone);
        RoundPush(limits, m0, rounds, excluded, Round(builders, gone));
        rounds := rounds + [Round(builders, gone)];
      }
      assert counted || excluded + gone == excluded;
      assert ExcludedIn(limits, m0, rounds, excluded + gone);
      RetainSorted(sorted, gone);
      RetainSizes(sorted, gone);
      RetainHolds(sorted, m0 - excluded, gone);
      RoundKeeps(m0, m, excluded, gone);
      assert m0 - excluded - gone == m0 - (excluded + gone);
      excluded := excluded + gone;
      if AlwaysWithin(limits, m0) {
        NothingExcluded(limits, m0, rounds, excluded);
        assert m0 - excluded == m0;
      }
      sorted := Retain(sorted, gone);
      KeysRemoved(m, gone);
      m := m - gone;
      SharedKeys(m);
      m := FilterBlocksToCompact(m);
      if m == map[] {
        return None, excluded, rounds;
      }
      var grouped := CompactObjects(sorted, limits.splitSize);
      if grouped.None? {
        return None, excluded, rounds;
      }
      builders := grouped.value;
      streams, splits := Stats(builders);
      if !(streams > limits.maxStreams || splits > limits.maxSplits) {
        return Some(builders), excluded, rounds;
      }
      counted := true;
    }
  }

  lemma KeysRemoved(m: BlockMap, gone: set<nat>)
    requires KeysMatch(m)
    ensures KeysMatch(m - gone)
  {
  }
}
