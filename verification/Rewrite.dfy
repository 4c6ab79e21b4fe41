/** Rewriting blocks into a new object: bytes are copied verbatim and the index is regrouped. */
module Rewrite {
  import opened Sequences
  import opened Records
  import opened DataBlocks
  import opened Codec
  import opened ObjectFormat
  import opened Grouping
  import opened BlockReader
  import opened ObjectWriter
  import OI = ObjectIndex

  const DATA_BLOCK_GROUP_SIZE_THRESHOLD: nat := 1024 * 1024

  function TotalCount(blocks: seq<StreamDataBlock>): nat {
    if blocks == [] then 0 else TotalCount(blocks[..|blocks| - 1]) + blocks[|blocks| - 1].index.count
  }

  lemma TotalsNext(blocks: seq<StreamDataBlock>, x: StreamDataBlock)
    ensures TotalSize(blocks + [x]) == TotalSize(blocks) + x.Size()
    ensures TotalCount(blocks + [x]) == TotalCount(blocks) + x.index.count
  {
    assert (blocks + [x])[..|blocks|] == blocks;
  }

  // ---- Grouping by limits --------------------------------------------------------------------------------

  /** The next block may not join a group: other stream, gap, or a 32-bit or size limit. */
  predicate MustCut(group: seq<StreamDataBlock>, x: StreamDataBlock, threshold: nat)
    requires group != []
  {
    || x.Stream() != group[0].Stream()
    || x.Start() != group[|group| - 1].End()
    || TotalSize(group) + x.Size() >= threshold
    || TotalCount(group) + x.index.count > I32_MAX
    || SpanTooWide(group[0].Start(), x.End())
  }

  /** The unsigned difference `end - start` exceeds 32 bits; going backwards wraps. */
  predicate SpanTooWide(start: nat, end: nat) {
    end < start || end - start > I32_MAX
  }

  /** The stateful predicate. `stream == -1` means no block has been seen. */
  class GroupByLimitPredicate {
    const threshold: nat
    var stream: int
    var start: nat
    var next: nat
    var size: nat
    var count: nat

    constructor (threshold: nat)
      ensures stream == -1 && this.threshold == threshold
    {
      this.threshold := threshold;
      stream, start, next, size, count := -1, 0, 0, 0, 0;
    }

    /** The predicate has seen exactly the blocks of the current group. */
    ghost predicate Tracks(group: seq<StreamDataBlock>)
      reads this
    {
      if group == [] then stream == -1
      else
        && stream == group[0].Stream() && start == group[0].Start() && next == group[|group| - 1].End()
        && size == TotalSize(group) && count == TotalCount(group)
    }

    method Test(block: StreamDataBlock, ghost group: seq<StreamDataBlock>) returns (same: bool)
      requires Tracks(group)
      modifies this
      ensures same <==> group == [] || !MustCut(group, block, threshold)
      ensures Tracks(if same then group + [block] else [block])
    {
      hide TotalSize, TotalCount;
      same := true;
      TotalsNext(group, block);
      TotalsNext([], block);
      assert [] + [block] == [block];
      NoTotals();
      if stream == -1 || block.Stream() != stream || block.Start() != next
         || size + block.Size() >= threshold || count + block.index.count > I32_MAX
         || SpanTooWide(start, block.End())
      {
        if stream != -1 {
          same := false;
        }
        stream, start, size, count := block.Stream(), block.Start(), 0, 0;
      }
      next := block.End();
      size := size + block.Size();
      count := count + block.index.count;
    }
  }

  lemma NoTotals()
    ensures TotalSize([]) == 0 && TotalCount([]) == 0
  {
  }

  /** A group is one run; beyond its first block it stays within all limits. */
  predicate LimitOk(group: seq<StreamDataBlock>, threshold: nat) {
    && OneRun(group)
    && (|group| > 1 ==>
          && TotalSize(group) < threshold && TotalCount(group) <= I32_MAX
          && !SpanTooWide(group[0].Start(), group[|group| - 1].End()))
  }

  predicate CutNeeded(a: seq<StreamDataBlock>, b: seq<StreamDataBlock>, threshold: nat) {
    a != [] && b != [] && MustCut(a, b[0], threshold)
  }

  predicate LimitGroups(groups: seq<seq<StreamDataBlock>>, threshold: nat) {
    && (forall i :: 0 <= i < |groups| ==> LimitOk(groups[i], threshold))
    && (forall i :: 0 < i < |groups| ==> CutNeeded(groups[i - 1], groups[i], threshold))
  }

  lemma LimitGrows(group: seq<StreamDataBlock>, x: StreamDataBlock, threshold: nat)
    requires group == [] || (LimitOk(group, threshold) && !MustCut(group, x, threshold))
    ensures LimitOk(group + [x], threshold)
  {
    hide TotalSize, TotalCount;
    TotalsNext(group, x);
    if group != [] {
      RunStream(group, |group| - 1);
    }
  }

  lemma {:induction false} RunStream(group: seq<StreamDataBlock>, k: nat)
    requires OneRun(group) && k < |group|
    ensures group[k].Stream() == group[0].Stream()
  {
    if k > 0 {
      RunStream(group, k - 1);
    }
  }

  /** A group is cut exactly where it would exceed a limit or break its run. */
  lemma CutIffOver(group: seq<StreamDataBlock>, x: StreamDataBlock, threshold: nat)
    requires group != [] && LimitOk(group, threshold)
    ensures MustCut(group, x, threshold) <==> !LimitOk(group + [x], threshold)
  {
    hide TotalSize, TotalCount;
    TotalsNext(group, x);
    RunStream(group, |group| - 1);
    if LimitOk(group + [x], threshold) {
      var n := |group|;
      assert (group + [x])[n - 1] == group[n - 1] && (group + [x])[n] == x;
    }
    if !MustCut(group, x, threshold) {
      LimitGrows(group, x, threshold);
    }
  }

  lemma LimitEnds(groups: seq<seq<StreamDataBlock>>, curr: seq<StreamDataBlock>, threshold: nat)
    requires LimitGroups(groups, threshold) && LimitOk(curr, threshold)
    requires groups != [] ==> CutNeeded(groups[|groups| - 1], curr, threshold)
    ensures LimitGroups(groups + [curr], threshold)
  {
    hide LimitOk, CutNeeded;
  }

  lemma CutKept(a: seq<StreamDataBlock>, b: seq<StreamDataBlock>, x: StreamDataBlock, threshold: nat)
    requires CutNeeded(a, b, threshold)
    ensures CutNeeded(a, b + [x], threshold)
  {
    assert (b + [x])[0] == b[0];
  }

  /** Groups are as long as the limits allow, and together they are the input. */
  method GroupByLimit(blocks: seq<StreamDataBlock>, threshold: nat) returns (groups: seq<seq<StreamDataBlock>>)
    ensures Concat(groups) == blocks && LimitGroups(groups, threshold)
  {
    hide Concat, LimitOk, LimitGroups, CutNeeded, MustCut;
    var test := new GroupByLimitPredicate(threshold);
    groups := [];
    var curr: seq<StreamDataBlock> := [];
    var i := 0;
    ConcatNone();
    assert LimitGroups([], threshold) by { NoLimitGroups(threshold); }
    while i < |blocks|
      invariant 0 <= i <= |blocks| && fresh(test) && test.Tracks(curr)
      invariant Concat(groups) + curr == blocks[..i] && (i > 0 ==> curr != [])
      invariant i == 0 ==> curr == [] && groups == []
      invariant curr != [] ==> LimitOk(curr, threshold)
      invariant LimitGroups(groups, threshold)
      invariant groups != [] ==> CutNeeded(groups[|groups| - 1], curr, threshold)
    {
      var x := blocks[i];
      var same := test.Test(x, curr);
      assert blocks[..i + 1] == blocks[..i] + [x];
      if same {
        assert Concat(groups) + (curr + [x]) == Concat(groups) + curr + [x];
        LimitGrows(curr, x, threshold);
        if groups != [] {
          CutKept(groups[|groups| - 1], curr, x, threshold);
        }
        curr := curr + [x];
      } else if |curr| != 0 {
        ConcatPush(groups, curr);
        LimitEnds(groups, curr, threshold);
        LimitGrows([], x, threshold);
        assert [] + [x] == [x];
        CutIs(curr, x, threshold);
        groups := groups + [curr];
        curr := [x];
      }
      i := i + 1;
    }
    assert blocks[..i] == blocks;
    if |curr| != 0 {
      ConcatPush(groups, curr);
      LimitEnds(groups, curr, threshold);
      groups := groups + [curr];
    }
  }

  lemma NoLimitGroups(threshold: nat)
    ensures LimitGroups([], threshold)
  {
  }

  lemma CutIs(a: seq<StreamDataBlock>, x: StreamDataBlock, threshold: nat)
    requires a != [] && MustCut(a, x, threshold)
    ensures CutNeeded(a, [x], threshold)
  {
  }

  // ---- The regrouped index -------------------------------------------------------------------------------

  function GroupEntry(group: seq<StreamDataBlock>, position: nat): DataBlockIndex
    requires group != [] && group[0].Start() <= group[|group| - 1].End()
  {
    DataBlockIndex(group[0].Stream(), group[0].Start(), group[|group| - 1].End() - group[0].Start(),
                   TotalCount(group), position, TotalSize(group))
  }

  predicate GroupsForward(groups: seq<seq<StreamDataBlock>>) {
    forall i :: 0 <= i < |groups| ==> groups[i] != [] && groups[i][0].Start() < groups[i][|groups[i]| - 1].End()
  }

  function IndexOfGroups(groups: seq<seq<StreamDataBlock>>): (es: seq<DataBlockIndex>)
    requires GroupsForward(groups)
    ensures |es| == |groups|
  {
    if groups == [] then []
    else
      var n := |groups| - 1;
      IndexOfGroups(groups[..n]) + [GroupEntry(groups[n], TotalSize(Concat(groups[..n])))]
  }

  lemma IndexPush(groups: seq<seq<StreamDataBlock>>, g: seq<StreamDataBlock>)
    requires GroupsForward(groups) && g != [] && g[0].Start() < g[|g| - 1].End()
    ensures GroupsForward(groups + [g])
    ensures IndexOfGroups(groups + [g]) == IndexOfGroups(groups) + [GroupEntry(g, TotalSize(Concat(groups)))]
  {
    hide TotalSize, TotalCount, Concat;
    assert (groups + [g])[..|groups|] == groups;
  }

  method BuildDataBlockIndices(groups: seq<seq<StreamDataBlock>>) returns (indices: seq<DataBlockIndex>)
    requires GroupsForward(groups)
    ensures indices == IndexOfGroups(groups)
  {
    hide TotalSize, TotalCount;
    indices := [];
    var position, i := 0, 0;
    NoTotals();
    ConcatNone();
    assert groups[..0] == [];
    while i < |groups|
      invariant 0 <= i <= |groups|
      invariant indices == IndexOfGroups(groups[..i]) && position == TotalSize(Concat(groups[..i]))
    {
      var group := groups[i];
      assert groups[..i + 1][..i] == groups[..i];
      TotalSizeConcat(Concat(groups[..i]), group);
      indices := indices + [GroupEntry(group, position)];
      position := position + TotalSize(group);
      i := i + 1;
    }
    assert groups[..i] == groups;
  }

  /** Entries follow one another without a hole and end with the data section. */
  lemma {:induction false} IndexTiles(groups: seq<seq<StreamDataBlock>>, k: nat)
    requires GroupsForward(groups) && k < |groups|
    ensures var es := IndexOfGroups(groups);
            && es[k] == GroupEntry(groups[k], TotalSize(Concat(groups[..k])))
            && es[k].EndPosition() == TotalSize(Concat(groups[..k + 1]))
            && es[k].position == (if k == 0 then 0 else es[k - 1].EndPosition())
            && (k == |groups| - 1 ==> es[k].EndPosition() == TotalSize(Concat(groups)))
  {
    hide TotalSize, TotalCount;
    EntryPlace(groups, k);
    NoTotals();
    ConcatNone();
    assert groups[..0] == [];
    if k > 0 {
      EntryPlace(groups, k - 1);
    }
    assert groups[..|groups|] == groups;
  }

  lemma {:induction false} EntryPlace(groups: seq<seq<StreamDataBlock>>, k: nat)
    requires GroupsForward(groups) && k < |groups|
    ensures IndexOfGroups(groups)[k] == GroupEntry(groups[k], TotalSize(Concat(groups[..k])))
    ensures IndexOfGroups(groups)[k].EndPosition() == TotalSize(Concat(groups[..k + 1]))
  {
    hide TotalSize, TotalCount;
    var n := |groups| - 1;
    if k < n {
      EntryPlace(groups[..n], k);
      assert groups[..n][..k] == groups[..k] && groups[..n][..k + 1] == groups[..k + 1];
    } else {
      assert groups[..k + 1][..k] == groups[..k];
      TotalSizeConcat(Concat(groups[..k]), groups[k]);
    }
  }

  // ---- The 32-bit fields of the regrouped index --------------------------------------------------------------

  /** The source entries were read from index blocks, so they are within their widths. */
  predicate FromIndexes(blocks: seq<StreamDataBlock>) {
    forall i :: 0 <= i < |blocks| ==> IndexEncodable(blocks[i].index)
  }

  /** The size, count and span limits keep a group's entry within its 32-bit fields. */
  lemma GroupEncodes(group: seq<StreamDataBlock>, threshold: nat, position: nat)
    requires LimitOk(group, threshold) && threshold <= U32 && position < U64
    requires group[0].Start() <= group[|group| - 1].End() && IndexEncodable(group[0].index)
    ensures IndexEncodable(GroupEntry(group, position))
  {
    hide TotalSize, TotalCount;
    RunStream(group, |group| - 1);
    if |group| == 1 {
      assert group == [] + [group[0]];
      TotalsNext([], group[0]);
      NoTotals();
    }
  }

  lemma PrefixSize(groups: seq<seq<StreamDataBlock>>, k: nat)
    requires k <= |groups|
    ensures TotalSize(Concat(groups[..k])) <= TotalSize(Concat(groups))
  {
    hide TotalSize, Concat;
    ConcatPrefix(groups, k);
    var pre, all := Concat(groups[..k]), Concat(groups);
    assert all == pre + all[|pre|..];
    TotalSizeConcat(pre, all[|pre|..]);
  }

  /** No cast of the regrouped index loses anything. */
  lemma RegroupedEncodes(groups: seq<seq<StreamDataBlock>>, threshold: nat)
    requires LimitGroups(groups, threshold) && threshold <= U32 && GroupsForward(groups)
    requires FromIndexes(Concat(groups)) && TotalSize(Concat(groups)) < U64
    ensures AllIndexEncodable(IndexOfGroups(groups))
  {
    hide Concat, IndexOfGroups, TotalSize, TotalCount, MustCut, IndexEncodable;
    forall k: nat | k < |groups| ensures IndexEncodable(IndexOfGroups(groups)[k]) {
      EntryPlace(groups, k);
      PrefixSize(groups, k);
      GroupAt(groups, k);
      assert LimitOk(groups[k], threshold);
      GroupEncodes(groups[k], threshold, TotalSize(Concat(groups[..k])));
    }
  }

  // ---- Copied bytes ----------------------------------------------------------------------------------------

  function BlocksOf(fs: seq<Fetched>): (bs: seq<StreamDataBlock>)
    ensures |bs| == |fs|
  {
    seq(|fs|, i requires 0 <= i < |fs| => fs[i].block)
  }

  function BytesOf(fs: seq<Fetched>): Bytes {
    if fs == [] then [] else BytesOf(fs[..|fs| - 1]) + fs[|fs| - 1].data
  }

  predicate SizesMatch(fs: seq<Fetched>) {
    forall i :: 0 <= i < |fs| ==> |fs[i].data| == fs[i].block.Size()
  }

  /** Sources whose bytes have the announced size and decode. */
  predicate Sound(fs: seq<Fetched>) {
    forall i :: 0 <= i < |fs| ==> |fs[i].data| == fs[i].block.Size() && Decode(fs[i].data).Ok?
  }

  function SourceRecords(fs: seq<Fetched>): seq<Record>
    requires Sound(fs)
  {
    if fs == [] then [] else SourceRecords(fs[..|fs| - 1]) + Decode(fs[|fs| - 1].data).value
  }

  lemma {:induction false} BytesConcat(a: seq<Fetched>, b: seq<Fetched>)
    ensures BytesOf(a + b) == BytesOf(a) + BytesOf(b)
  {
    if b == [] {
      assert a + b == a;
    } else {
      assert (a + b)[..|a + b| - 1] == a + b[..|b| - 1];
      BytesConcat(a, b[..|b| - 1]);
    }
  }

  lemma {:induction false} BytesSize(fs: seq<Fetched>)
    requires SizesMatch(fs)
    ensures |BytesOf(fs)| == TotalSize(BlocksOf(fs))
  {
    if fs != [] {
      var n := |fs| - 1;
      BytesSize(fs[..n]);
      assert BlocksOf(fs)[..n] == BlocksOf(fs[..n]);
    }
  }

  /** Copied blocks decode to the concatenation of their sources' records. */
  lemma {:induction false} CopiedRecords(fs: seq<Fetched>)
    requires Sound(fs)
    ensures Decode(BytesOf(fs)) == Ok(SourceRecords(fs))
  {
    hide Decode;
    if fs == [] {
      DecodeNothing();
    } else {
      var n := |fs| - 1;
      CopiedRecords(fs[..n]);
      DecodeConcat(BytesOf(fs[..n]), fs[n].data);
    }
  }

  lemma SliceBytes(fs: seq<Fetched>, i: nat, j: nat)
    requires Sound(fs) && i <= j <= |fs|
    ensures Sound(fs[i..j]) && Sound(fs[..i]) && Sound(fs[..j])
    ensures |BytesOf(fs[..i])| <= |BytesOf(fs[..j])| <= |BytesOf(fs)|
    ensures BytesOf(fs)[|BytesOf(fs[..i])|..|BytesOf(fs[..j])|] == BytesOf(fs[i..j])
  {
    hide Decode, BytesOf;
    assert fs[..j] == fs[..i] + fs[i..j] && fs == fs[..j] + fs[j..];
    BytesConcat(fs[..i], fs[i..j]);
    BytesConcat(fs[..j], fs[j..]);
    Field(BytesOf(fs[..i]), BytesOf(fs[i..j]), BytesOf(fs[j..]));
  }

  /** Where group `k` sits in the list of sources. */
  lemma GroupBounds(fs: seq<Fetched>, groups: seq<seq<StreamDataBlock>>, k: nat) returns (a: nat, b: nat)
    requires Concat(groups) == BlocksOf(fs) && k < |groups|
    ensures a <= b <= |fs| && BlocksOf(fs[..a]) == Concat(groups[..k]) && BlocksOf(fs[..b]) == Concat(groups[..k + 1])
    ensures BlocksOf(fs[a..b]) == groups[k]
  {
    hide Concat;
    ConcatPrefix(groups, k);
    ConcatPrefix(groups, k + 1);
    assert groups[..k + 1] == groups[..k] + [groups[k]];
    ConcatPush(groups[..k], groups[k]);
    a, b := |Concat(groups[..k])|, |Concat(groups[..k + 1])|;
    assert BlocksOf(fs)[..a] == Concat(groups[..k]) && BlocksOf(fs)[..b] == Concat(groups[..k + 1]);
    forall i | 0 <= i < b - a ensures BlocksOf(fs[a..b])[i] == groups[k][i] {
      assert Concat(groups[..k + 1])[a + i] == groups[k][i];
    }
  }

  /**
   * Rewriting preserves meaning: the region of every new index entry lies in the data section and
   * decodes to exactly the records of the source blocks it covers, in order.
   */
  lemma RewritePreserves(fs: seq<Fetched>, groups: seq<seq<StreamDataBlock>>, k: nat) returns (a: nat, b: nat)
    requires Sound(fs) && Concat(groups) == BlocksOf(fs) && GroupsForward(groups) && k < |groups|
    ensures a <= b <= |fs| && BlocksOf(fs[a..b]) == groups[k] && Sound(fs[a..b])
    ensures var e := IndexOfGroups(groups)[k];
            && e.position <= e.EndPosition() <= |BytesOf(fs)|
            && Decode(BytesOf(fs)[e.position..e.EndPosition()]) == Ok(SourceRecords(fs[a..b]))
  {
    hide Decode, Concat, TotalSize, TotalCount, BytesOf, GroupsForward, IndexOfGroups, SourceRecords;
    a, b := GroupBounds(fs, groups, k);
    IndexTiles(groups, k);
    SliceBytes(fs, a, b);
    BytesSize(fs[..a]);
    BytesSize(fs[..b]);
    CopiedRecords(fs[a..b]);
  }

  // ---- The new index is searchable -----------------------------------------------------------------------

  lemma RunForward(group: seq<StreamDataBlock>)
    requires OneRun(group) && Nonempty(group)
    ensures group[0].Start() < group[|group| - 1].End()
  {
    RunSpans(group, 0);
  }

  lemma LimitForward(groups: seq<seq<StreamDataBlock>>, threshold: nat)
    requires LimitGroups(groups, threshold) && Nonempty(Concat(groups))
    ensures GroupsForward(groups)
  {
    hide MustCut, TotalSize, TotalCount, Concat;
    forall i: nat | i < |groups| ensures groups[i] != [] && groups[i][0].Start() < groups[i][|groups[i]| - 1].End() {
      assert LimitOk(groups[i], threshold);
      GroupNonempty(groups, i);
      RunForward(groups[i]);
    }
  }

  /** When the copied blocks have one run per stream, the regrouped index is sorted. */
  lemma RegroupedSorted(groups: seq<seq<StreamDataBlock>>, threshold: nat)
    requires LimitGroups(groups, threshold) && Runs(Concat(groups)) && Nonempty(Concat(groups))
    ensures GroupsForward(groups) && SortedIndex(IndexOfGroups(groups))
  {
    hide Concat, IndexOfGroups, TotalSize, TotalCount, MustCut, Runs;
    LimitForward(groups, threshold);
    var es := IndexOfGroups(groups);
    forall i: nat | i < |es| ensures es[i].delta > 0 {
      EntryPlace(groups, i);
    }
    forall i: nat | 0 < i < |es| ensures EntryBefore(es[i - 1], es[i]) {
      EntryPlace(groups, i - 1);
      EntryPlace(groups, i);
      GroupsFollow(groups, i);
      assert LimitOk(groups[i - 1], threshold);
      RunStream(groups[i - 1], |groups[i - 1]| - 1);
    }
  }

  lemma GroupsFollow(groups: seq<seq<StreamDataBlock>>, i: nat)
    requires Runs(Concat(groups)) && 0 < i < |groups| && groups[i - 1] != [] && groups[i] != []
    ensures Follows(groups[i - 1][|groups[i - 1]| - 1], groups[i][0])
  {
    hide Concat;
    ConcatPrefix(groups, i + 1);
    assert groups[..i + 1] == groups[..i] + [groups[i]];
    assert groups[..i] == groups[..i - 1] + [groups[i - 1]];
    ConcatPush(groups[..i], groups[i]);
    ConcatPush(groups[..i - 1], groups[i - 1]);
    var all, at := Concat(groups), |Concat(groups[..i])|;
    assert all[at] == groups[i][0] && all[at - 1] == groups[i - 1][|groups[i - 1]| - 1];
  }

  /** Every offset a source block served is found in the new index, in the entry of its group. */
  lemma SourceStillFound(groups: seq<seq<StreamDataBlock>>, threshold: nat, x: StreamDataBlock, o: nat)
    returns (k: nat)
    requires LimitGroups(groups, threshold) && Runs(Concat(groups)) && Nonempty(Concat(groups))
    requires x in Concat(groups) && x.Start() <= o < x.End()
    ensures GroupsForward(groups) && SortedIndex(IndexOfGroups(groups))
    ensures k < |groups| && x in groups[k] && OI.First(IndexOfGroups(groups), x.Stream(), o, 0) == Some(k)
  {
    hide Concat, IndexOfGroups, TotalSize, TotalCount, MustCut, Runs, SortedIndex;
    RegroupedSorted(groups, threshold);
    k := InConcat(groups, x);
    EntryPlace(groups, k);
    GroupNonempty(groups, k);
    assert LimitOk(groups[k], threshold);
    var i :| 0 <= i < |groups[k]| && groups[k][i] == x;
    RunSpans(groups[k], i);
    FirstUnique(IndexOfGroups(groups), x.Stream(), o, k);
  }

  lemma FirstUnique(es: seq<DataBlockIndex>, s: nat, o: nat, k: nat)
    requires SortedIndex(es) && k < |es| && OI.Contains(es[k], s, o)
    ensures OI.First(es, s, o, 0) == Some(k)
  {
    hide SortedIndex;
    var j := OI.First(es, s, o, 0).value;
    if k < j {
      OI.SortedPair(es, k, j);
    } else if j < k {
      OI.SortedPair(es, j, k);
    }
  }

  /** The object that copying `fs` and regrouping its index produces. */
  function RewrittenBytes(fs: seq<Fetched>, groups: seq<seq<StreamDataBlock>>): Bytes
    requires GroupsForward(groups)
  {
    var data, index := BytesOf(fs), EncodeIndexes(IndexOfGroups(groups));
    data + index + Footer(|data|, |index|)
  }

  /** Small enough for the 64-bit positions and the 32-bit index size, from entries that fit. */
  predicate RewriteFits(fs: seq<Fetched>, groups: seq<seq<StreamDataBlock>>) {
    FromIndexes(BlocksOf(fs)) && |BytesOf(fs)| < U64 && |groups| * BLOCK_INDEX_SIZE < U32
  }

  /** A reader gets exactly the regrouped index back from the object's bytes. */
  lemma RewriteReadsBack(fs: seq<Fetched>, groups: seq<seq<StreamDataBlock>>, threshold: nat)
    requires SizesMatch(fs) && Concat(groups) == BlocksOf(fs) && RewriteFits(fs, groups)
    requires LimitGroups(groups, threshold) && threshold <= U32 && GroupsForward(groups)
    ensures var obj := RewrittenBytes(fs, groups);
            WellFormed(obj) && StoredDataSize(obj) == |BytesOf(fs)| && StoredIndex(obj) == IndexOfGroups(groups)
  {
    hide Concat, LimitGroups, GroupsForward, IndexOfGroups, BytesOf, EncodeIndexes, Footer;
    hide WellFormed, StoredDataSize, StoredIndex, FromIndexes, AllIndexEncodable;
    BytesSize(fs);
    RegroupedEncodes(groups, threshold);
    ReadBack(BytesOf(fs), IndexOfGroups(groups));
  }

  // ---- The writer ----------------------------------------------------------------------------------------

  class DataBlockWriter {
    const partSizeThreshold: nat
    var parts: seq<Bytes>
    var waiting: Bytes
    var completed: seq<StreamDataBlock>
    var nextPosition: nat
    var size: nat
    ghost var written: seq<Fetched>

    ghost predicate Valid()
      reads this
    {
      && Concat(parts) + waiting == BytesOf(written)
      && completed == BlocksOf(written)
      && SizesMatch(written) && nextPosition == |BytesOf(written)|
      && (forall i :: 0 <= i < |parts| ==> |parts[i]| >= partSizeThreshold)
    }

    constructor (partSize: nat)
      ensures Valid() && written == [] && partSizeThreshold == partSize
    {
      partSizeThreshold := partSize;
      parts, waiting, completed, nextPosition, size, written := [], [], [], 0, 0, [];
    }

    /** Copies a block's bytes verbatim. */
    method Write(f: Fetched)
      requires Valid() && |f.data| == f.block.Size()
      modifies this
      ensures Valid() && written == old(written) + [f]
    {
      hide Concat, BytesOf;
      BytesConcat(written, [f]);
      BytesOne(f);
      assert BlocksOf(written + [f]) == BlocksOf(written) + [f.block];
      assert Concat(parts) + (waiting + f.data) == Concat(parts) + waiting + f.data;
      waiting := waiting + f.data;
      completed := completed + [f.block];
      nextPosition := nextPosition + f.block.Size();
      written := written + [f];
      if |waiting| >= partSizeThreshold {
        ConcatPush(parts, waiting);
        parts := parts + [waiting];
        waiting := [];
        assert Concat(parts) + [] == Concat(parts);
      }
    }

    /** Data verbatim, then the regrouped index and the footer. */
    method Close() returns (ghost groups: seq<seq<StreamDataBlock>>)
      requires Valid() && Nonempty(completed)
      modifies this
      ensures written == old(written) && Concat(groups) == BlocksOf(written)
      ensures LimitGroups(groups, DATA_BLOCK_GROUP_SIZE_THRESHOLD) && GroupsForward(groups)
      ensures Concat(parts) == RewrittenBytes(written, groups) && size == |Concat(parts)|
      ensures RewriteFits(written, groups) ==>
                WellFormed(Concat(parts)) && StoredIndex(Concat(parts)) == IndexOfGroups(groups)
    {
      hide Concat, LimitGroups, IndexOfGroups, EncodeIndexes, Footer, BytesOf, GroupsForward;
      hide WellFormed, StoredIndex, StoredDataSize, RewriteFits;
      var position := nextPosition;
      var gs := GroupByLimit(completed, DATA_BLOCK_GROUP_SIZE_THRESHOLD);
      groups := gs;
      LimitForward(gs, DATA_BLOCK_GROUP_SIZE_THRESHOLD);
      var indices := BuildDataBlockIndices(gs);
      var index := EncodeIndexes(indices);
      var tail := waiting + index + Footer(position, |index|);
      TailIsRest(Concat(parts), waiting, index, Footer(position, |index|));
      ConcatPush(parts, tail);
      parts := parts + [tail];
      waiting := [];
      size := position + |index| + FOOTER_SIZE;
      if RewriteFits(written, groups) {
        RewriteReadsBack(written, groups, DATA_BLOCK_GROUP_SIZE_THRESHOLD);
      }
    }
  }

  lemma BytesOne(f: Fetched)
    ensures BytesOf([f]) == f.data
  {
    assert [f][..0] == [];
  }
}
