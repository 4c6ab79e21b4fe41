/** The check before a compaction commits: every source offset still alive must be covered. */
module Sanity {
  import opened DataBlocks
  import opened Grouping
  import opened Exclusion

  datatype Range = Range(start: nat, end: nat)

  predicate Has(r: Range, o: nat) { r.start <= o < r.end }

  predicate Covers(ranges: seq<Range>, o: nat) {
    exists i :: 0 <= i < |ranges| && Has(ranges[i], o)
  }

  predicate Leq(a: Range, b: Range) {
    a.start < b.start || (a.start == b.start && a.end <= b.end)
  }

  predicate SortedRanges(ranges: seq<Range>) {
    forall i :: 0 < i < |ranges| ==> ranges[i - 1].start <= ranges[i].start
  }

  function InsertRange(ranges: seq<Range>, x: Range): seq<Range> {
    if ranges == [] || Leq(ranges[|ranges| - 1], x) then ranges + [x]
    else InsertRange(ranges[..|ranges| - 1], x) + [ranges[|ranges| - 1]]
  }

  lemma {:induction false} InsertRangeOk(ranges: seq<Range>, x: Range)
    requires SortedRanges(ranges)
    ensures SortedRanges(InsertRange(ranges, x)) && |InsertRange(ranges, x)| == |ranges| + 1
    ensures InsertRange(ranges, x)[|ranges|]
         == if ranges == [] || Leq(ranges[|ranges| - 1], x) then x else ranges[|ranges| - 1]
  {
    if !(ranges == [] || Leq(ranges[|ranges| - 1], x)) {
      InsertRangeOk(ranges[..|ranges| - 1], x);
    }
  }

  lemma {:induction false} InsertRangeCovers(ranges: seq<Range>, x: Range, o: nat)
    ensures Covers(InsertRange(ranges, x), o) <==> Covers(ranges, o) || Has(x, o)
  {
    if ranges == [] || Leq(ranges[|ranges| - 1], x) {
      CoversAppend(ranges, x, o);
    } else {
      var n := |ranges|;
      InsertRangeCovers(ranges[..n - 1], x, o);
      CoversAppend(InsertRange(ranges[..n - 1], x), ranges[n - 1], o);
      assert ranges == ranges[..n - 1] + [ranges[n - 1]];
      CoversAppend(ranges[..n - 1], ranges[n - 1], o);
    }
  }

  lemma CoversAppend(ranges: seq<Range>, x: Range, o: nat)
    ensures Covers(ranges + [x], o) <==> Covers(ranges, o) || Has(x, o)
  {
    var all := ranges + [x];
    assert all[|ranges|] == x;
    if Covers(ranges, o) {
      var i :| 0 <= i < |ranges| && Has(ranges[i], o);
      assert Has(all[i], o);
    }
  }

  /** Merged ranges never touch: each ends strictly before the next begins. */
  predicate Apart(out: seq<Range>) {
    && SortedRanges(out)
    && forall i :: 0 < i < |out| ==> out[i - 1].end < out[i].start
  }

  /** Sorts the ranges and merges those that overlap or touch; no offset is gained or lost. */
  method MergeRanges(ranges: seq<Range>) returns (out: seq<Range>)
    ensures Apart(out) && forall o :: Covers(out, o) <==> Covers(ranges, o)
  {
    hide Covers;
    var sorted := SortRanges(ranges);
    out := [];
    var i := 0;
    assert forall o :: !Covers([], o) by { NoneCovered(); }
    assert sorted[..0] == [];
    while i < |sorted|
      invariant 0 <= i <= |sorted| && Apart(out)
      invariant out != [] ==> i > 0 && out[|out| - 1].start <= sorted[i - 1].start
      invariant forall o :: Covers(out, o) <==> Covers(sorted[..i], o)
    {
      var x := sorted[i];
      assert sorted[..i + 1] == sorted[..i] + [x];
      forall o ensures Covers(sorted[..i + 1], o) <==> Covers(out, o) || Has(x, o) {
        CoversAppend(sorted[..i], x, o);
      }
      if |out| > 0 && x.start <= out[|out| - 1].end {
        var last := out[|out| - 1];
        var wider := Range(last.start, if last.end < x.end then x.end else last.end);
        ghost var out0 := out;
        out := out[|out| - 1 := wider];
        forall o ensures Covers(out, o) <==> Covers(out0, o) || Has(x, o) {
          Widen(out0, wider, x, o);
        }
      } else {
        forall o ensures Covers(out + [x], o) <==> Covers(out, o) || Has(x, o) {
          CoversAppend(out, x, o);
        }
        out := out + [x];
      }
      i := i + 1;
    }
    assert sorted[..i] == sorted;
  }

  lemma NoneCovered()
    ensures forall o :: !Covers([], o)
  {
  }

  lemma Widen(out: seq<Range>, wider: Range, x: Range, o: nat)
    requires out != [] && out[|out| - 1].start <= x.start <= out[|out| - 1].end
    requires var last := out[|out| - 1];
             wider == Range(last.start, if last.end < x.end then x.end else last.end)
    ensures Covers(out[|out| - 1 := wider], o) <==> Covers(out, o) || Has(x, o)
  {
    var n := |out| - 1;
    assert out == out[..n] + [out[n]] && out[n := wider] == out[..n] + [wider];
    CoversAppend(out[..n], out[n], o);
    CoversAppend(out[..n], wider, o);
  }

  method SortRanges(ranges: seq<Range>) returns (sorted: seq<Range>)
    ensures SortedRanges(sorted) && forall o :: Covers(sorted, o) <==> Covers(ranges, o)
  {
    hide Covers;
    sorted := [];
    var i := 0;
    assert ranges[..0] == [];
    while i < |ranges|
      invariant 0 <= i <= |ranges| && SortedRanges(sorted)
      invariant forall o :: Covers(sorted, o) <==> Covers(ranges[..i], o)
    {
      assert ranges[..i + 1] == ranges[..i] + [ranges[i]];
      InsertRangeOk(sorted, ranges[i]);
      forall o ensures Covers(InsertRange(sorted, ranges[i]), o) <==> Covers(ranges[..i + 1], o) {
        InsertRangeCovers(sorted, ranges[i], o);
        CoversAppend(ranges[..i], ranges[i], o);
      }
      sorted := InsertRange(sorted, ranges[i]);
      i := i + 1;
    }
    assert ranges[..i] == ranges;
  }

  // ---- One block -------------------------------------------------------------------------------------

  /** Every offset of the block lies in some range. */
  ghost predicate AllCovered(ranges: seq<Range>, start: nat, end: nat) {
    forall o :: start <= o < end ==> Covers(ranges, o)
  }

  predicate InOne(out: seq<Range>, start: nat, end: nat) {
    exists i :: 0 <= i < |out| && out[i].start <= start && end <= out[i].end
  }

  lemma {:induction false} ApartPair(out: seq<Range>, i: nat, j: nat)
    requires Apart(out) && i < j < |out|
    ensures out[i].start <= out[j].start && out[i].end < out[j].start
    decreases j - i
  {
    if i + 1 < j {
      ApartPair(out, i + 1, j);
    }
  }

  /** Because merged ranges never touch, a block is covered exactly when one of them contains it. */
  lemma CoveredIffInOne(out: seq<Range>, start: nat, end: nat)
    requires Apart(out) && start < end
    ensures AllCovered(out, start, end) <==> InOne(out, start, end)
  {
    if InOne(out, start, end) {
      var i :| 0 <= i < |out| && out[i].start <= start && end <= out[i].end;
      forall o | start <= o < end ensures Covers(out, o) {
        assert Has(out[i], o);
      }
    } else if AllCovered(out, start, end) {
      assert Covers(out, start);
      var i: nat :| i < |out| && Has(out[i], start);
      var o := out[i].end;
      assert Covers(out, o);
      var j: nat :| j < |out| && Has(out[j], o);
      NoOverlap(out, i, j, start, o);
    }
  }

  lemma NoOverlap(out: seq<Range>, i: nat, j: nat, start: nat, o: nat)
    requires Apart(out) && i < |out| && j < |out| && Has(out[i], start) && o == out[i].end
    ensures !Has(out[j], o)
  {
    if i < j {
      ApartPair(out, i, j);
    } else if j < i {
      ApartPair(out, j, i);
    }
  }

  // ---- The whole request -----------------------------------------------------------------------------

  /** What a compaction asks the metadata plane to commit. */
  datatype Request = Request(ranges: seq<StreamRange>, streamObjects: seq<StreamRange>, compacted: seq<nat>)

  function StreamRanges(ranges: seq<StreamRange>, s: nat): seq<Range> {
    if ranges == [] then []
    else
      var rest, x := StreamRanges(ranges[..|ranges| - 1], s), ranges[|ranges| - 1];
      if x.streamId == s then rest + [Range(x.start, x.end)] else rest
  }

  /** All output ranges of a stream: those of the stream set object, then the stream objects'. */
  function Outputs(request: Request, s: nat): seq<Range> {
    StreamRanges(request.ranges + request.streamObjects, s)
  }

  lemma {:induction false} StreamRangesMember(ranges: seq<StreamRange>, x: StreamRange, o: nat)
    requires x in ranges && x.start <= o < x.end
    ensures Covers(StreamRanges(ranges, x.streamId), o)
  {
    var n := |ranges| - 1;
    var s := x.streamId;
    var rest := StreamRanges(ranges[..n], s);
    if ranges[n] == x {
      CoversAppend(rest, Range(x.start, x.end), o);
    } else {
      assert ranges == ranges[..n] + [ranges[n]];
      StreamRangesMember(ranges[..n], x, o);
      CoversAppend(rest, Range(ranges[n].start, ranges[n].end), o);
    }
  }

  /** The block is still alive (its stream exists and it is not wholly trimmed) and some of its
      offsets would be served by no output. */
  ghost predicate Lost(starts: map<nat, nat>, request: Request, x: StreamDataBlock) {
    && x.Stream() in starts && x.End() > starts[x.Stream()]
    && !AllCovered(Outputs(request, x.Stream()), x.Start(), x.End())
  }

  ghost predicate LosesSomething(starts: map<nat, nat>, m: BlockMap, request: Request) {
    exists i, j :: 0 <= i < |request.compacted| && request.compacted[i] in m
      && 0 <= j < |m[request.compacted[i]]| && Lost(starts, request, m[request.compacted[i]][j])
  }

  /** Collects ranges per stream. */
  method RangesByStream(all: seq<StreamRange>) returns (byStream: map<nat, seq<Range>>)
    ensures forall s :: StreamRanges(all, s) == if s in byStream then byStream[s] else []
  {
    byStream := map[];
    var i := 0;
    assert all[..0] == [];
    while i < |all|
      invariant 0 <= i <= |all|
      invariant forall s :: StreamRanges(all[..i], s) == if s in byStream then byStream[s] else []
    {
      var x := all[i];
      assert all[..i + 1][..i] == all[..i];
      var was := if x.streamId in byStream then byStream[x.streamId] else [];
      byStream := byStream[x.streamId := was + [Range(x.start, x.end)]];
      i := i + 1;
    }
    assert all[..i] == all;
  }

  ghost predicate SameOffsets(a: seq<Range>, b: seq<Range>) {
    forall o :: Covers(a, o) <==> Covers(b, o)
  }

  /** Merges each stream's output ranges. */
  method MergeOutputs(request: Request) returns (merged: map<nat, seq<Range>>)
    ensures forall s :: s in merged ==> Apart(merged[s]) && SameOffsets(merged[s], Outputs(request, s))
    ensures forall s :: s !in merged ==> Outputs(request, s) == []
  {
    hide Covers, Apart, StreamRanges, SameOffsets;
    var byStream := RangesByStream(request.ranges + request.streamObjects);
    merged := map[];
    var todo := byStream.Keys;
    while todo != {}
      invariant todo <= byStream.Keys && merged.Keys == byStream.Keys - todo
      invariant forall s :: s in merged ==> Apart(merged[s]) && SameOffsets(merged[s], Outputs(request, s))
      decreases |todo|
    {
      var s :| s in todo;
      todo := todo - {s};
      var out := MergeRanges(byStream[s]);
      SameOffsetsIs(out, byStream[s]);
      merged := merged[s := out];
    }
  }

  lemma SameOffsetsIs(a: seq<Range>, b: seq<Range>)
    requires forall o :: Covers(a, o) <==> Covers(b, o)
    ensures SameOffsets(a, b)
  {
  }

  /** Fails exactly when the commit would lose an offset of a compacted object that is still alive. */
  method IsSanityCheckFailed(starts: map<nat, nat>, m: BlockMap, request: Request) returns (failed: bool)
    requires forall id :: id in m ==> Nonempty(m[id])
    ensures failed <==> LosesSomething(starts, m, request)
  {
    hide Covers, Apart, Outputs, InOne;
    var merged := MergeOutputs(request);
    var i := 0;
    while i < |request.compacted|
      invariant 0 <= i <= |request.compacted|
      invariant forall k, j :: 0 <= k < i && request.compacted[k] in m && 0 <= j < |m[request.compacted[k]]| ==>
                  !Lost(starts, request, m[request.compacted[k]][j])
    {
      var id := request.compacted[i];
      if id in m {
        var blocks, j := m[id], 0;
        while j < |blocks|
          invariant 0 <= j <= |blocks|
          invariant forall k :: 0 <= k < j ==> !Lost(starts, request, blocks[k])
        {
          var x := blocks[j];
          if x.Stream() in starts && x.End() > starts[x.Stream()] {
            var covered := x.Stream() in merged && InOne(merged[x.Stream()], x.Start(), x.End());
            CoveredAgrees(merged, request, x);
            if !covered {
              return true;
            }
          }
          j := j + 1;
        }
      }
      i := i + 1;
    }
    return false;
  }

  lemma CoveredAgrees(merged: map<nat, seq<Range>>, request: Request, x: StreamDataBlock)
    requires x.Start() < x.End()
    requires forall s :: s in merged ==> Apart(merged[s]) && SameOffsets(merged[s], Outputs(request, s))
    requires forall s :: s !in merged ==> Outputs(request, s) == []
    ensures (x.Stream() in merged && InOne(merged[x.Stream()], x.Start(), x.End()))
       <==> AllCovered(Outputs(request, x.Stream()), x.Start(), x.End())
  {
    hide Covers, Apart, Outputs, InOne;
    var s := x.Stream();
    if s in merged {
      CoveredIffInOne(merged[s], x.Start(), x.End());
    } else {
      NoneCovered();
      assert !Covers(Outputs(request, s), x.Start());
    }
  }
}
