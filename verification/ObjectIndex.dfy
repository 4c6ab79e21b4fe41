/** Looking up offsets in a sorted index, and what the found entries serve. */
module ObjectIndex {
  import opened Records
  import opened DataBlocks
  import opened Codec
  import opened ObjectFormat

  const NOOP_OFFSET: nat := 0xFFFF_FFFF_FFFF_FFFF

  predicate Contains(e: DataBlockIndex, s: nat, o: nat) {
    e.streamId == s && e.start <= o < e.End()
  }

  predicate Less(e: DataBlockIndex, s: nat, o: nat) {
    e.streamId < s || (e.streamId == s && e.End() <= o)
  }

  predicate Greater(e: DataBlockIndex, s: nat, o: nat) {
    e.streamId > s || (e.streamId == s && e.start > o)
  }

  datatype SearchResult = Found(i: nat) | NotFound(at: nat)

  lemma {:induction false} SortedPair(es: seq<DataBlockIndex>, i: nat, j: nat)
    requires SortedIndex(es) && i < j < |es|
    ensures EntryBefore(es[i], es[j])
    decreases j - i
  {
    if i + 1 < j {
      SortedPair(es, i, j - 1);
      assert EntryBefore(es[j - 1], es[j]) && es[j - 1].delta > 0;
    }
  }

  /** Binary search. A hit contains the target; a miss gives the place where it would belong. */
  method Search(es: seq<DataBlockIndex>, s: nat, o: nat) returns (r: SearchResult)
    requires SortedIndex(es)
    ensures r.Found? ==> r.i < |es| && Contains(es[r.i], s, o)
    ensures r.NotFound? ==>
              && r.at <= |es|
              && (forall k :: 0 <= k < r.at ==> Less(es[k], s, o))
              && (forall k :: r.at <= k < |es| ==> Greater(es[k], s, o))
  {
    hide SortedIndex;
    var lo, hi := 0, |es| - 1;
    while lo <= hi
      invariant 0 <= lo <= hi + 1 <= |es|
      invariant forall k :: 0 <= k < lo ==> Less(es[k], s, o)
      invariant forall k :: hi < k < |es| ==> Greater(es[k], s, o)
    {
      var mid := (lo + hi) / 2;
      var e := es[mid];
      if Less(e, s, o) {
        forall k: nat | k < mid ensures Less(es[k], s, o) {
          SortedPair(es, k, mid);
        }
        lo := mid + 1;
      } else if Greater(e, s, o) {
        forall k: nat | mid < k < |es| ensures Greater(es[k], s, o) {
          SortedPair(es, mid, k);
          EntryForward(es, mid);
        }
        hi := mid - 1;
      } else {
        return Found(mid);
      }
    }
    return NotFound(lo);
  }

  lemma EntryForward(es: seq<DataBlockIndex>, i: nat)
    requires SortedIndex(es) && i < |es|
    ensures es[i].start < es[i].End()
  {
  }

  // ---- The reference: a linear scan for a gap-free run -----------------------------------------------

  datatype FindResult = FindResult(fulfilled: bool, next: nat, max: nat, blocks: seq<DataBlockIndex>)

  function Minus(a: nat, b: nat): nat { if b <= a then a - b else 0 }

  /** Payload bytes a block is charged for. */
  function Charge(e: DataBlockIndex): nat {
    Minus(Minus(e.size, e.count * RECORD_HEADER_SIZE), BLOCK_HEADER_SIZE)
  }

  predicate Reached(next: nat, end: nat, max: nat) {
    (end != NOOP_OFFSET && next >= end) || max == 0
  }

  /** Entries from `i` on that continue at `next`; a first entry read from its middle is free. */
  function RunFrom(es: seq<DataBlockIndex>, i: nat, s: nat, next: nat, end: nat, max: nat): FindResult
    decreases |es| - i
  {
    if i >= |es| || !Contains(es[i], s, next) then FindResult(false, next, max, [])
    else
      var e := es[i];
      var max' := if e.start == next then Minus(max, Charge(e)) else max;
      if Reached(e.End(), end, max') then FindResult(true, e.End(), max', [e])
      else
        var r := RunFrom(es, i + 1, s, e.End(), end, max');
        r.(blocks := [e] + r.blocks)
  }

  function First(es: seq<DataBlockIndex>, s: nat, o: nat, i: nat): (r: Option<nat>)
    requires i <= |es|
    ensures r.Some? ==> i <= r.value < |es| && Contains(es[r.value], s, o)
    ensures r.None? ==> forall k :: i <= k < |es| ==> !Contains(es[k], s, o)
    decreases |es| - i
  {
    if i == |es| then None else if Contains(es[i], s, o) then Some(i) else First(es, s, o, i + 1)
  }

  function Lookup(es: seq<DataBlockIndex>, s: nat, start: nat, end: nat, max: nat): FindResult {
    var i := First(es, s, start, 0);
    if i.None? then FindResult(false, start, max, []) else RunFrom(es, i.value, s, start, end, max)
  }

  // ---- The lookup loop ---------------------------------------------------------------------------------

  function Prepend(blocks: seq<DataBlockIndex>, r: FindResult): FindResult {
    r.(blocks := blocks + r.blocks)
  }

  /** What the loop does from entry `i` on, with its `matched` flag. */
  function ScanFrom(es: seq<DataBlockIndex>, i: nat, s: nat, next: nat, end: nat, max: nat, matched: bool): FindResult
    decreases |es| - i
  {
    if i >= |es| then FindResult(false, next, max, [])
    else
      var e := es[i];
      if e.streamId == s then
        if next < e.start then FindResult(false, next, max, [])
        else if e.End() <= next then ScanFrom(es, i + 1, s, next, end, max, matched)
        else
          var matched' := next == e.start;
          var max' := if matched' then Minus(max, Charge(e)) else max;
          if Reached(e.End(), end, max') then FindResult(true, e.End(), max', [e])
          else Prepend([e], ScanFrom(es, i + 1, s, e.End(), end, max', matched'))
      else if matched then FindResult(false, next, max, [])
      else ScanFrom(es, i + 1, s, next, end, max, matched)
  }

  /** Search, then scan. On a sorted index this is the linear reference lookup. */
  method Find(es: seq<DataBlockIndex>, s: nat, start: nat, end: nat, max: nat) returns (r: FindResult)
    requires SortedIndex(es)
    ensures r == Lookup(es, s, start, end, max)
  {
    hide SortedIndex, Lookup, Charge, ScanFrom;
    var found := Search(es, s, start);
    if found.NotFound? {
      MissIsNone(es, s, start, end, max, found.at);
      return FindResult(false, start, max, []);
    }
    HitIsRun(es, s, start, end, max, found.i);
    r := Scan(es, found.i, s, start, end, max);
  }

  method Scan(es: seq<DataBlockIndex>, from: nat, s: nat, start: nat, end: nat, max0: nat) returns (r: FindResult)
    requires from <= |es|
    ensures r == ScanFrom(es, from, s, start, end, max0, false)
    ensures SortedIndex(es) && from < |es| && Contains(es[from], s, start) ==>
              r == RunFrom(es, from, s, start, end, max0)
  {
    hide Charge, SortedIndex, RunFrom, Reached;
    if SortedIndex(es) && from < |es| && Contains(es[from], s, start) {
      ScanIsRun(es, from, s, start, end, max0, false);
    }
    var next, max, matched := start, max0, false;
    var blocks: seq<DataBlockIndex> := [];
    var i := from;
    while i < |es|
      invariant from <= i <= |es| && 0 <= next && 0 <= max
      invariant ScanFrom(es, from, s, start, end, max0, false)
             == Prepend(blocks, ScanFrom(es, i, s, next, end, max, matched))
    {
      var e := es[i];
      if e.streamId == s {
        if next < e.start {
          break;
        }
        if e.End() <= next {
          i := i + 1;
          continue;
        }
        matched := next == e.start;
        if matched {
          max := Minus(max, Charge(e));
        }
        next := e.End();
        ghost var more := ScanFrom(es, i + 1, s, next, end, max, matched);
        assert blocks + ([e] + more.blocks) == blocks + [e] + more.blocks;
        blocks := blocks + [e];
        if Reached(next, end, max) {
          return FindResult(true, next, max, blocks);
        }
      } else if matched {
        break;
      }
      i := i + 1;
    }
    assert blocks + [] == blocks;
    r := FindResult(false, next, max, blocks);
  }

  lemma MissIsNone(es: seq<DataBlockIndex>, s: nat, start: nat, end: nat, max: nat, at: nat)
    requires at <= |es|
    requires forall k :: 0 <= k < at ==> Less(es[k], s, start)
    requires forall k :: at <= k < |es| ==> Greater(es[k], s, start)
    ensures Lookup(es, s, start, end, max) == FindResult(false, start, max, [])
  {
  }

  lemma HitIsRun(es: seq<DataBlockIndex>, s: nat, start: nat, end: nat, max: nat, i: nat)
    requires SortedIndex(es) && i < |es| && Contains(es[i], s, start)
    ensures Lookup(es, s, start, end, max) == ScanFrom(es, i, s, start, end, max, false)
  {
    hide SortedIndex, ScanFrom, RunFrom;
    var j := First(es, s, start, 0).value;
    if i < j {
      SortedPair(es, i, j);
    } else if j < i {
      SortedPair(es, j, i);
    }
    ScanIsRun(es, i, s, start, end, max, false);
  }

  /** Where the run has stopped, later entries cannot contribute. */
  lemma {:induction false} ScanPast(es: seq<DataBlockIndex>, i: nat, s: nat, next: nat, end: nat, max: nat,
                                    matched: bool)
    requires SortedIndex(es) && (i < |es| ==> Greater(es[i], s, next))
    ensures ScanFrom(es, i, s, next, end, max, matched) == FindResult(false, next, max, [])
    decreases |es| - i
  {
    hide SortedIndex, Charge;
    if i < |es| && es[i].streamId != s && !matched {
      if i + 1 < |es| {
        SortedPair(es, i, i + 1);
      }
      ScanPast(es, i + 1, s, next, end, max, matched);
    }
  }

  /** On a sorted index the loop takes exactly the gap-free run. */
  lemma {:induction false} ScanIsRun(es: seq<DataBlockIndex>, i: nat, s: nat, next: nat, end: nat, max: nat,
                                     matched: bool)
    requires SortedIndex(es)
    requires i < |es| ==> Contains(es[i], s, next) || Greater(es[i], s, next)
    ensures ScanFrom(es, i, s, next, end, max, matched) == RunFrom(es, i, s, next, end, max)
    decreases |es| - i
  {
    hide SortedIndex, Charge;
    if i < |es| {
      var e := es[i];
      if Contains(e, s, next) {
        if i + 1 < |es| {
          SortedPair(es, i, i + 1);
          EntryForward(es, i + 1);
        }
        var max' := if e.start == next then Minus(max, Charge(e)) else max;
        ScanIsRun(es, i + 1, s, e.End(), end, max', next == e.start);
      } else {
        ScanPast(es, i, s, next, end, max, matched);
      }
    }
  }

  // ---- What a lookup means -------------------------------------------------------------------------------

  lemma {:induction false} RunSlice(es: seq<DataBlockIndex>, i: nat, s: nat, next: nat, end: nat, max: nat)
    requires i <= |es|
    ensures var r := RunFrom(es, i, s, next, end, max); var n := |r.blocks|;
            && i + n <= |es| && r.blocks == es[i..i + n]
            && (n > 0 ==> Contains(es[i], s, next) && r.next == es[i + n - 1].End())
            && (n == 0 ==> r.next == next && !r.fulfilled && r.max == max)
    decreases |es| - i
  {
    hide Charge, Minus, Reached, Contains;
    if i < |es| && Contains(es[i], s, next) {
      var e := es[i];
      var max' := if e.start == next then Minus(max, Charge(e)) else max;
      if !Reached(e.End(), end, max') {
        RunSlice(es, i + 1, s, e.End(), end, max');
        var n := |RunFrom(es, i + 1, s, e.End(), end, max').blocks|;
        assert es[i..i + 1 + n] == [e] + es[i + 1..i + 1 + n];
      } else {
        OneEntry(es, i);
      }
    }
  }

  lemma OneEntry(es: seq<DataBlockIndex>, i: nat)
    requires i < |es|
    ensures es[i..i + 1] == [es[i]]
  {
  }

  /** Each further entry contains the offset where the one before it ends. */
  lemma {:induction false} RunMeets(es: seq<DataBlockIndex>, i: nat, s: nat, next: nat, end: nat, max: nat, k: nat)
    requires i <= |es|
    requires 0 < k < |RunFrom(es, i, s, next, end, max).blocks|
    ensures i + k < |es| && Contains(es[i + k], s, es[i + k - 1].End())
    decreases k
  {
    hide Charge, Reached;
    var e := es[i];
    var max' := if e.start == next then Minus(max, Charge(e)) else max;
    if k == 1 {
      RunSlice(es, i + 1, s, e.End(), end, max');
    } else {
      RunMeets(es, i + 1, s, e.End(), end, max', k - 1);
    }
  }

  lemma {:induction false} RunStops(es: seq<DataBlockIndex>, i: nat, s: nat, next: nat, end: nat, max: nat)
    requires i <= |es|
    ensures var r := RunFrom(es, i, s, next, end, max); var n := |r.blocks|;
            && i + n <= |es|
            && (r.fulfilled ==> Reached(r.next, end, r.max))
            && (!r.fulfilled ==> i + n == |es| || !Contains(es[i + n], s, r.next))
    decreases |es| - i
  {
    hide Charge;
    if i < |es| && Contains(es[i], s, next) {
      var e := es[i];
      var max' := if e.start == next then Minus(max, Charge(e)) else max;
      if !Reached(e.End(), end, max') {
        RunStops(es, i + 1, s, e.End(), end, max');
      }
    }
  }

  /**
   * The found entries are consecutive, all of the stream, meet without gap or overlap, and begin
   * with the entry that contains the start. The lookup is fulfilled by the end offset or the
   * budget; otherwise the next entry does not continue the run.
   */
  lemma RunShape(es: seq<DataBlockIndex>, i: nat, s: nat, next: nat, end: nat, max: nat)
    requires SortedIndex(es) && i <= |es|
    ensures var r := RunFrom(es, i, s, next, end, max); var n := |r.blocks|;
            && i + n <= |es| && r.blocks == es[i..i + n]
            && (n > 0 ==> Contains(es[i], s, next) && r.next == es[i + n - 1].End())
            && (forall k :: i <= k < i + n ==> es[k].streamId == s)
            && (forall k :: i < k < i + n ==> Abut(es, k))
            && (r.fulfilled ==> Reached(r.next, end, r.max))
            && (!r.fulfilled ==> i + n == |es| || !Contains(es[i + n], s, r.next))
  {
    hide RunFrom, Reached, SortedIndex;
    RunSlice(es, i, s, next, end, max);
    RunStops(es, i, s, next, end, max);
    var n := |RunFrom(es, i, s, next, end, max).blocks|;
    forall k | i < k < i + n ensures Abut(es, k) && es[k].streamId == s {
      RunMeets(es, i, s, next, end, max, k - i);
      SortedPair(es, k - 1, k);
      if k - 1 > i {
        RunMeets(es, i, s, next, end, max, k - 1 - i);
      }
    }
  }

  /** Entry `k` starts exactly where the one before it ends. */
  /** What is left of the budget after `k` entries: each is charged unless it is read from its middle. */
  function LeftAfter(es: seq<DataBlockIndex>, i: nat, k: nat, next: nat, max: nat): nat
    requires i + k <= |es|
    decreases k
  {
    if k == 0 then max
    else LeftAfter(es, i + 1, k - 1, es[i].End(), if es[i].start == next then Minus(max, Charge(es[i])) else max)
  }

  /** The end offset or the budget is met by the first `k` entries. */
  predicate MetBy(es: seq<DataBlockIndex>, i: nat, k: nat, next: nat, end: nat, max: nat) {
    0 < k && i + k <= |es| && Reached(es[i + k - 1].End(), end, LeftAfter(es, i, k, next, max))
  }

  /** The run stops at the first entry that meets the end offset or the budget, and says so. */
  lemma {:induction false} RunIsShortest(es: seq<DataBlockIndex>, i: nat, s: nat, next: nat, end: nat, max: nat)
    requires i <= |es|
    ensures var r := RunFrom(es, i, s, next, end, max); var n := |r.blocks|;
            && i + n <= |es| && r.max == LeftAfter(es, i, n, next, max)
            && (r.fulfilled <==> MetBy(es, i, n, next, end, max))
            && forall k: nat :: k < n ==> !MetBy(es, i, k, next, end, max)
    decreases |es| - i
  {
    hide Reached, Charge;
    if i < |es| && Contains(es[i], s, next) {
      var e := es[i];
      var max' := if e.start == next then Minus(max, Charge(e)) else max;
      assert LeftAfter(es, i, 1, next, max) == max';
      assert MetBy(es, i, 1, next, end, max) <==> Reached(e.End(), end, max');
      if !Reached(e.End(), end, max') {
        RunIsShortest(es, i + 1, s, e.End(), end, max');
        var n := |RunFrom(es, i, s, next, end, max).blocks|;
        assert forall k: nat :: 1 < k <= n ==>
            (MetBy(es, i, k, next, end, max) <==> MetBy(es, i + 1, k - 1, e.End(), end, max'));
      }
    }
  }

  predicate Abut(es: seq<DataBlockIndex>, k: int) {
    0 < k < |es| && es[k].streamId == es[k - 1].streamId && es[k].start == es[k - 1].End()
  }

  lemma {:induction false} SliceData(blocks: seq<DataBlock>, i: nat, j: nat)
    requires AllFit(blocks) && i <= j <= |blocks|
    ensures AllFit(blocks[i..j])
    ensures |DataOf(blocks[..i])| <= |DataOf(blocks[..j])| <= |DataOf(blocks)|
    ensures DataOf(blocks)[|DataOf(blocks[..i])|..|DataOf(blocks[..j])|] == DataOf(blocks[i..j])
  {
    hide BlockFits, DataOf;
    assert blocks[..j] == blocks[..i] + blocks[i..j] && blocks == blocks[..j] + blocks[j..];
    DataConcat(blocks[..i], blocks[i..j]);
    DataConcat(blocks[..j], blocks[j..]);
    Field(DataOf(blocks[..i]), DataOf(blocks[i..j]), DataOf(blocks[j..]));
  }

  /** The region of consecutive blocks in the finished object. */
  lemma RegionDecodes(blocks: seq<DataBlock>, i: nat, j: nat)
    requires AllFit(blocks) && i < j <= |blocks|
    ensures var es, obj := IndexOf(blocks), ObjectBytes(blocks);
            && es[i].position <= es[j - 1].EndPosition() <= |obj|
            && Decode(obj[es[i].position..es[j - 1].EndPosition()]) == Ok(RecordsOf(blocks[i..j]))
  {
    hide BlockFits, IndexOf, DataOf, EncodeDataBlock, EncodeIndexes, Footer, Decode;
    EntryAtBlock(blocks, i);
    BlockEndsNext(blocks, j - 1);
    SliceData(blocks, i, j);
    DecodeBlocks(blocks[i..j]);
    var a, b := |DataOf(blocks[..i])|, |DataOf(blocks[..j])|;
    assert ObjectBytes(blocks)[a..b] == DataOf(blocks)[a..b];
  }

  /** A written block of the stream that reaches over the offset. */
  predicate Reaches(b: DataBlock, s: nat, o: nat) {
    b.streamId == s && b.records != [] && b.Start() <= o < b.End()
  }

  /**
   * From written records to served records: a lookup finds something exactly when a written block
   * reaches over the offset. What it finds are consecutive blocks of the stream from that one on,
   * and the region they span decodes to exactly the records written into them, in order.
   */
  lemma {:induction false} ServedRecords(blocks: seq<DataBlock>, s: nat, start: nat, end: nat, max: nat)
    returns (i: nat, j: nat)
    requires AllFit(blocks) && BlocksInOrder(blocks)
    ensures i <= j <= |blocks| && Lookup(IndexOf(blocks), s, start, end, max).blocks == IndexOf(blocks)[i..j]
    ensures i < j <==> exists k :: 0 <= k < |blocks| && Reaches(blocks[k], s, start)
    ensures i < j ==> Reaches(blocks[i], s, start)
    ensures forall k :: i < k < j ==> Abut(IndexOf(blocks), k)
    ensures i < j ==>
              var es, obj := IndexOf(blocks), ObjectBytes(blocks);
              && es[i].position <= es[j - 1].EndPosition() <= |obj|
              && Decode(obj[es[i].position..es[j - 1].EndPosition()]) == Ok(RecordsOf(blocks[i..j]))
    ensures ObjectFits(blocks) ==>
              WellFormed(ObjectBytes(blocks)) && StoredIndex(ObjectBytes(blocks)) == IndexOf(blocks)
  {
    hide IndexOf, DataOf, RunFrom, EncodeDataBlock, ObjectBytes, Decode, BlocksInOrder, SortedIndex, InOrder;
    hide BlockEncodable, RecordsOf, WellFormed, StoredIndex, ObjectFits, BlockFits, Reaches;
    var es := IndexOf(blocks);
    var first := First(es, s, start, 0);
    WrittenIndexSorted(blocks);
    if first.None? {
      i, j := 0, 0;
      forall k: nat | k < |blocks| ensures !Reaches(blocks[k], s, start) {
        ReachesIs(blocks, k, s, start);
      }
    } else {
      i := first.value;
      RunShape(es, i, s, start, end, max);
      RunStarts(es, i, s, start, end, max);
      j := i + |Lookup(es, s, start, end, max).blocks|;
      RegionDecodes(blocks, i, j);
      ReachesIs(blocks, i, s, start);
    }
    if ObjectFits(blocks) {
      ObjectRoundTrip(blocks);
    }
  }

  lemma {:induction false} ReachesIs(blocks: seq<DataBlock>, k: nat, s: nat, o: nat)
    requires AllFit(blocks) && k < |blocks|
    ensures Reaches(blocks[k], s, o) <==> Contains(IndexOf(blocks)[k], s, o)
  {
    hide IndexOf, DataOf, EncodeDataBlock;
    EntryAtBlock(blocks, k);
    FitsNonempty(blocks[k]);
    var b, e := blocks[k], IndexOf(blocks)[k];
    assert e.streamId == b.streamId && e.start == b.Start() && e.End() == b.End();
  }

  lemma RunStarts(es: seq<DataBlockIndex>, i: nat, s: nat, next: nat, end: nat, max: nat)
    requires i < |es| && Contains(es[i], s, next)
    ensures RunFrom(es, i, s, next, end, max).blocks != []
  {
    hide Charge, Reached;
  }

  /** Every written record is found at its base offset. */
  lemma {:induction false} WrittenFound(blocks: seq<DataBlock>, k: nat, n: nat, end: nat, max: nat)
    requires AllFit(blocks) && BlocksInOrder(blocks) && k < |blocks| && n < |blocks[k].records|
    ensures Lookup(IndexOf(blocks), blocks[k].streamId, blocks[k].records[n].baseOffset, end, max).blocks != []
  {
    hide IndexOf, EncodeDataBlock, BlockEncodable, BlocksInOrder, Lookup;
    var b := blocks[k];
    assert BlockFits(b) && Reaches(b, b.streamId, b.records[n].baseOffset);
    var _, _ := ServedRecords(blocks, b.streamId, b.records[n].baseOffset, end, max);
  }

  lemma FitsNonempty(b: DataBlock)
    requires BlockFits(b)
    ensures b.records != []
  {
  }

  lemma BlockEndsNext(blocks: seq<DataBlock>, k: nat)
    requires AllFit(blocks) && k < |blocks|
    ensures IndexOf(blocks)[k].EndPosition() == |DataOf(blocks[..k + 1])|
  {
    hide BlockFits, EncodeDataBlock, IndexOf;
    EntryAtBlock(blocks, k);
    assert blocks[..k + 1][..k] == blocks[..k];
  }
}
