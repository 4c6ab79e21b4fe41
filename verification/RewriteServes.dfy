/** Reading a rewritten object: a lookup on its stored index serves the records of the sources. */
module RewriteServes {
  import opened Sequences
  import opened Records
  import opened DataBlocks
  import opened Codec
  import opened ObjectFormat
  import opened ObjectIndex
  import opened Grouping
  import opened BlockReader
  import opened Rewrite

  /** Copied blocks with one run per stream, regrouped within the limits. */
  ghost predicate Rewritable(fs: seq<Fetched>, groups: seq<seq<StreamDataBlock>>, threshold: nat) {
    && Sound(fs) && Concat(groups) == BlocksOf(fs) && RewriteFits(fs, groups)
    && LimitGroups(groups, threshold) && threshold <= U32
    && Runs(BlocksOf(fs)) && Nonempty(BlocksOf(fs))
  }

  predicate Serves(x: StreamDataBlock, s: nat, o: nat) {
    x.Stream() == s && x.Start() <= o < x.End()
  }

  lemma SoundSizes(fs: seq<Fetched>)
    requires Sound(fs)
    ensures SizesMatch(fs)
  {
    hide Decode;
  }

  /** The stored index is the regrouped one, and it is sorted. */
  lemma StoredSorted(fs: seq<Fetched>, groups: seq<seq<StreamDataBlock>>, threshold: nat)
    requires Rewritable(fs, groups, threshold)
    ensures GroupsForward(groups) && SortedIndex(IndexOfGroups(groups))
    ensures var obj := RewrittenBytes(fs, groups);
            WellFormed(obj) && StoredDataSize(obj) == |BytesOf(fs)| && StoredIndex(obj) == IndexOfGroups(groups)
  {
    hide Concat, LimitGroups, GroupsForward, IndexOfGroups, RewrittenBytes, WellFormed, StoredIndex, StoredDataSize;
    hide Runs, Nonempty, SortedIndex, Sound, RewriteFits;
    SoundSizes(fs);
    RegroupedSorted(groups, threshold);
    RewriteReadsBack(fs, groups, threshold);
  }

  // ---- A range of groups -----------------------------------------------------------------------------------

  /** Groups `i` to `j` are the sources `a` to `b`, and their entries span exactly those bytes. */
  ghost predicate Spans(fs: seq<Fetched>, groups: seq<seq<StreamDataBlock>>, i: nat, j: nat, a: nat, b: nat)
    requires GroupsForward(groups)
  {
    && i < j <= |groups| && a < b <= |fs|
    && fs[a].block == groups[i][0] && fs[b - 1].block == groups[j - 1][|groups[j - 1]| - 1]
    && a + |groups[i]| <= b && BlocksOf(fs[a..a + |groups[i]|]) == groups[i]
    && (if j < |groups| then b < |fs| && fs[b].block == groups[j][0] else b == |fs|)
    && IndexOfGroups(groups)[i].position == |BytesOf(fs[..a])|
    && IndexOfGroups(groups)[j - 1].EndPosition() == |BytesOf(fs[..b])|
  }

  lemma BlockAt(fs: seq<Fetched>, groups: seq<seq<StreamDataBlock>>, k: nat) returns (a: nat, b: nat)
    requires Concat(groups) == BlocksOf(fs) && GroupsForward(groups) && k < |groups| && Sound(fs)
    ensures a < b <= |fs| && a == |Concat(groups[..k])| && b == |Concat(groups[..k + 1])|
    ensures BlocksOf(fs[a..b]) == groups[k] && b == a + |groups[k]|
    ensures fs[a].block == groups[k][0] && fs[b - 1].block == groups[k][|groups[k]| - 1]
    ensures IndexOfGroups(groups)[k].position == |BytesOf(fs[..a])|
    ensures IndexOfGroups(groups)[k].EndPosition() == |BytesOf(fs[..b])|
  {
    hide Concat, IndexOfGroups, TotalSize, TotalCount, BytesOf, Decode;
    a, b := GroupBounds(fs, groups, k);
    EntryPlace(groups, k);
    BytesSize(fs[..a]);
    BytesSize(fs[..b]);
    assert BlocksOf(fs[a..b])[0] == fs[a].block && BlocksOf(fs[a..b])[b - a - 1] == fs[b - 1].block;
  }

  lemma GroupsSpan(fs: seq<Fetched>, groups: seq<seq<StreamDataBlock>>, i: nat, j: nat) returns (a: nat, b: nat)
    requires Concat(groups) == BlocksOf(fs) && GroupsForward(groups) && i < j <= |groups| && Sound(fs)
    ensures Spans(fs, groups, i, j, a, b)
  {
    hide Concat, IndexOfGroups, BytesOf, Sound, GroupsForward;
    var b0, a1;
    a, b0 := BlockAt(fs, groups, i);
    a1, b := BlockAt(fs, groups, j - 1);
    ConcatPrefix(groups[..j], i + 1);
    assert groups[..j][..i + 1] == groups[..i + 1];
    assert b0 <= b;
    if j < |groups| {
      var a2, b2 := BlockAt(fs, groups, j);
    } else {
      assert groups[..j] == groups;
    }
  }

  lemma SpanDecodes(fs: seq<Fetched>, groups: seq<seq<StreamDataBlock>>, i: nat, j: nat, a: nat, b: nat)
    requires GroupsForward(groups) && Spans(fs, groups, i, j, a, b) && Sound(fs)
    ensures Sound(fs[a..b])
    ensures var es, obj := IndexOfGroups(groups), RewrittenBytes(fs, groups);
            && es[i].position <= es[j - 1].EndPosition() <= |obj|
            && Decode(obj[es[i].position..es[j - 1].EndPosition()]) == Ok(SourceRecords(fs[a..b]))
  {
    hide IndexOfGroups, BytesOf, Decode, GroupsForward, SourceRecords, EncodeIndexes, Footer;
    SliceBytes(fs, a, b);
    CopiedRecords(fs[a..b]);
    var x, y, data := |BytesOf(fs[..a])|, |BytesOf(fs[..b])|, BytesOf(fs);
    assert RewrittenBytes(fs, groups)[x..y] == data[x..y];
  }

  // ---- Runs of blocks --------------------------------------------------------------------------------------

  lemma {:induction false} StreamsAscend(blocks: seq<StreamDataBlock>, p: nat, q: nat)
    requires Runs(blocks) && p <= q < |blocks|
    ensures blocks[p].Stream() <= blocks[q].Stream()
    decreases q - p
  {
    if p < q {
      StreamsAscend(blocks, p, q - 1);
      assert Follows(blocks[q - 1], blocks[q]);
    }
  }

  /** A gap-free run serves every offset between its ends. */
  lemma {:induction false} RunServes(group: seq<StreamDataBlock>, o: nat) returns (k: nat)
    requires OneRun(group) && group[0].Start() <= o < group[|group| - 1].End()
    ensures k < |group| && Serves(group[k], group[0].Stream(), o)
  {
    var n := |group| - 1;
    if group[n].Start() <= o {
      k := n;
      RunStream(group, n);
    } else {
      assert OneRun(group[..n]);
      k := RunServes(group[..n], o);
    }
  }

  // ---- What a lookup serves --------------------------------------------------------------------------------

  /** Sources `a` to `b` answer a lookup: blocks of the stream around the start offset, up to where
      the lookup goes on, and all of them unless the lookup was fulfilled. */
  ghost predicate Answer(fs: seq<Fetched>, a: nat, b: nat, s: nat, start: nat, end: nat, r: FindResult) {
    && a < b <= |fs|
    && (forall k :: a <= k < b ==> fs[k].block.Stream() == s)
    && (exists k :: a <= k < b && Serves(fs[k].block, s, start))
    && r.next == fs[b - 1].block.End()
    && (r.fulfilled ==> Reached(r.next, end, r.max))
    && (!r.fulfilled ==> b == |fs| || fs[b].block.Stream() != s)
  }

  lemma SpanAnswers(fs: seq<Fetched>, groups: seq<seq<StreamDataBlock>>, threshold: nat, s: nat, start: nat, end: nat,
                    max: nat, i: nat, j: nat, a: nat, b: nat)
    requires Rewritable(fs, groups, threshold) && GroupsForward(groups) && SortedIndex(IndexOfGroups(groups))
    requires Spans(fs, groups, i, j, a, b) && First(IndexOfGroups(groups), s, start, 0) == Some(i)
    requires var r := RunFrom(IndexOfGroups(groups), i, s, start, end, max); j == i + |r.blocks|
    ensures Answer(fs, a, b, s, start, end, RunFrom(IndexOfGroups(groups), i, s, start, end, max))
  {
    hide Concat, IndexOfGroups, BytesOf, Sound, RunFrom, SortedIndex, Runs, Nonempty, RewriteFits, First;
    hide TotalSize, TotalCount, GroupsForward, MustCut;
    var es := IndexOfGroups(groups);
    var r := RunFrom(es, i, s, start, end, max);
    RunShape(es, i, s, start, end, max);
    EntryPlace(groups, i);
    EntryPlace(groups, j - 1);
    assert LimitOk(groups[i], threshold) && LimitOk(groups[j - 1], threshold);
    RunStream(groups[j - 1], |groups[j - 1]| - 1);
    var bs := BlocksOf(fs);
    forall k | a <= k < b ensures fs[k].block.Stream() == s {
      StreamsAscend(bs, a, k);
      StreamsAscend(bs, k, b - 1);
    }
    var k := RunServes(groups[i], start);
    assert BlocksOf(fs[a..a + |groups[i]|])[k] == fs[a + k].block;
    if !r.fulfilled && j < |groups| {
      EntryPlace(groups, j);
      NextFollows(bs, b);
      EntryForward(es, j);
    }
  }

  lemma NextFollows(blocks: seq<StreamDataBlock>, b: nat)
    requires Runs(blocks) && 0 < b < |blocks|
    ensures Follows(blocks[b - 1], blocks[b])
  {
  }

  /**
   * From source records to served records. A lookup on the index that a reader decodes from the
   * rewritten object finds something exactly when a copied block serves the offset. What it finds
   * is the region of consecutive copied blocks of the stream, among them the one that serves the
   * offset, and the region decodes to exactly the records of those source blocks, in order.
   */
  lemma RewriteServesSources(fs: seq<Fetched>, groups: seq<seq<StreamDataBlock>>, threshold: nat,
                             s: nat, start: nat, end: nat, max: nat) returns (a: nat, b: nat)
    requires Rewritable(fs, groups, threshold)
    ensures GroupsForward(groups) && WellFormed(RewrittenBytes(fs, groups))
    ensures var obj := RewrittenBytes(fs, groups);
            var r := Lookup(StoredIndex(obj), s, start, end, max);
            && (r.blocks == [] <==> forall k :: 0 <= k < |fs| ==> !Serves(fs[k].block, s, start))
            && (r.blocks != [] ==>
                  var from, to := r.blocks[0].position, r.blocks[|r.blocks| - 1].EndPosition();
                  && Answer(fs, a, b, s, start, end, r) && Sound(fs[a..b]) && from <= to <= |obj|
                  && Decode(obj[from..to]) == Ok(SourceRecords(fs[a..b])))
  {
    hide Concat, IndexOfGroups, BytesOf, RunFrom, SortedIndex, Answer, Spans, StoredIndex, WellFormed, RewrittenBytes;
    hide Decode, SourceRecords, LimitGroups, GroupsForward, Sound, Runs, Nonempty, RewriteFits;
    StoredSorted(fs, groups, threshold);
    var es := IndexOfGroups(groups);
    var i := First(es, s, start, 0);
    if i.None? {
      a, b := 0, 0;
      forall k | 0 <= k < |fs| ensures !Serves(fs[k].block, s, start) {
        if Serves(fs[k].block, s, start) {
          assert BlocksOf(fs)[k] in Concat(groups);
          var _ := SourceStillFound(groups, threshold, BlocksOf(fs)[k], start);
        }
      }
    } else {
      var r := RunFrom(es, i.value, s, start, end, max);
      RunShape(es, i.value, s, start, end, max);
      RunStarts(es, i.value, s, start, end, max);
      var j := i.value + |r.blocks|;
      a, b := GroupsSpan(fs, groups, i.value, j);
      SpanDecodes(fs, groups, i.value, j, a, b);
      SpanAnswers(fs, groups, threshold, s, start, end, max, i.value, j, a, b);
      AnswerServes(fs, a, b, s, start, end, r);
    }
  }

  lemma AnswerServes(fs: seq<Fetched>, a: nat, b: nat, s: nat, start: nat, end: nat, r: FindResult)
    requires Answer(fs, a, b, s, start, end, r)
    ensures exists k :: 0 <= k < |fs| && Serves(fs[k].block, s, start)
  {
  }
}
