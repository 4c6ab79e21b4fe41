/** Cutting a block list into groups with a stateful predicate, and the ranges of the groups. */
module Grouping {
  import opened Sequences
  import opened DataBlocks

  lemma {:induction false} InConcat(groups: seq<seq<StreamDataBlock>>, x: StreamDataBlock) returns (k: nat)
    requires x in Concat(groups)
    ensures k < |groups| && x in groups[k]
  {
    var n := |groups| - 1;
    if x in groups[n] {
      k := n;
    } else {
      k := InConcat(groups[..n], x);
    }
  }

  /** Cuts at a stream change or an offset gap. `stream == -1` means no block has been seen. */
  class GroupByOffsetPredicate {
    var stream: int
    var next: nat

    constructor ()
      ensures stream == -1
    {
      stream, next := -1, 0;
    }

    method Test(block: StreamDataBlock) returns (same: bool)
      modifies this
      ensures stream == block.Stream() && next == block.End()
      ensures same <==> old(stream) == -1 || (old(stream) == block.Stream() && old(next) == block.Start())
    {
      if stream == -1 {
        same := true;
      } else {
        same := stream == block.Stream() && next == block.Start();
      }
      stream, next := block.Stream(), block.End();
    }
  }

  predicate Continues(a: StreamDataBlock, b: StreamDataBlock) {
    a.Stream() == b.Stream() && a.End() == b.Start()
  }

  /** Neighbouring groups do not continue one another: groups are as long as possible. */
  predicate Maximal(groups: seq<seq<StreamDataBlock>>) {
    && (forall i :: 0 <= i < |groups| ==> OneRun(groups[i]))
    && (forall i :: 0 < i < |groups| ==> CutBetween(groups[i - 1], groups[i]))
  }

  predicate CutBetween(a: seq<StreamDataBlock>, b: seq<StreamDataBlock>) {
    a != [] && b != [] && !Continues(a[|a| - 1], b[0])
  }

  /** The groups are the maximal gap-free runs, and together they are the input. */
  method GroupByOffset(blocks: seq<StreamDataBlock>) returns (groups: seq<seq<StreamDataBlock>>)
    ensures Concat(groups) == blocks && Maximal(groups)
  {
    hide Concat, OneRun, Maximal, CutBetween, Continues;
    var test := new GroupByOffsetPredicate();
    groups := [];
    var curr: seq<StreamDataBlock> := [];
    var i := 0;
    ConcatNone();
    while i < |blocks|
      invariant 0 <= i <= |blocks| && fresh(test)
      invariant Concat(groups) + curr == blocks[..i]
      invariant i == 0 ==> test.stream == -1 && curr == [] && groups == []
      invariant i > 0 ==> curr != [] && OneRun(curr)
      invariant i > 0 ==> test.stream == curr[|curr| - 1].Stream() && test.next == curr[|curr| - 1].End()
      invariant Maximal(groups)
      invariant groups != [] ==> CutBetween(groups[|groups| - 1], curr)
    {
      var same := test.Test(blocks[i]);
      assert blocks[..i + 1] == blocks[..i] + [blocks[i]];
      if same {
        assert Concat(groups) + (curr + [blocks[i]]) == Concat(groups) + curr + [blocks[i]];
        GroupGrows(groups, curr, blocks[i]);
        curr := curr + [blocks[i]];
      } else if |curr| != 0 {
        ConcatPush(groups, curr);
        GroupEnds(groups, curr, blocks[i]);
        groups := groups + [curr];
        curr := [blocks[i]];
      }
      i := i + 1;
    }
    assert blocks[..i] == blocks;
    if |curr| != 0 {
      ConcatPush(groups, curr);
      GroupEnds(groups, curr, curr[0]);
      groups := groups + [curr];
    }
  }

  lemma ConcatNone()
    ensures Concat<StreamDataBlock>([]) == [] && Maximal([])
  {
  }

  lemma GroupGrows(groups: seq<seq<StreamDataBlock>>, curr: seq<StreamDataBlock>, x: StreamDataBlock)
    requires curr != [] ==>
               OneRun(curr) && curr[|curr| - 1].Stream() == x.Stream() && curr[|curr| - 1].End() == x.Start()
    requires groups != [] ==> CutBetween(groups[|groups| - 1], curr)
    ensures OneRun(curr + [x])
    ensures groups != [] ==> CutBetween(groups[|groups| - 1], curr + [x])
  {
  }

  lemma GroupEnds(groups: seq<seq<StreamDataBlock>>, curr: seq<StreamDataBlock>, x: StreamDataBlock)
    requires Maximal(groups) && OneRun(curr) && (groups != [] ==> CutBetween(groups[|groups| - 1], curr))
    ensures Maximal(groups + [curr]) && OneRun([x])
    ensures !(curr[|curr| - 1].Stream() == x.Stream() && curr[|curr| - 1].End() == x.Start()) ==> CutBetween(curr, [x])
  {
  }

  /** Offset range of one stream. */
  datatype StreamRange = StreamRange(streamId: nat, start: nat, end: nat)

  function RangeOf(group: seq<StreamDataBlock>): StreamRange
    requires group != []
  {
    StreamRange(group[0].Stream(), group[0].Start(), group[|group| - 1].End())
  }

  function RangesOf(groups: seq<seq<StreamDataBlock>>): seq<StreamRange>
    requires forall i :: 0 <= i < |groups| ==> groups[i] != []
  {
    seq(|groups|, i requires 0 <= i < |groups| => RangeOf(groups[i]))
  }

  predicate Inside(x: StreamDataBlock, r: StreamRange) {
    x.Stream() == r.streamId && r.start <= x.Start() && x.End() <= r.end
  }

  predicate Nonempty(blocks: seq<StreamDataBlock>) {
    forall i :: 0 <= i < |blocks| ==> blocks[i].Start() < blocks[i].End()
  }

  /** A run's range spans all its blocks. */
  lemma {:induction false} RunSpans(group: seq<StreamDataBlock>, k: nat)
    requires OneRun(group) && Nonempty(group) && k < |group|
    ensures Inside(group[k], RangeOf(group))
  {
    RunSpansUp(group, 0, k);
    RunSpansUp(group, k, |group| - 1);
  }

  lemma {:induction false} RunSpansUp(group: seq<StreamDataBlock>, i: nat, j: nat)
    requires OneRun(group) && Nonempty(group) && i <= j < |group|
    ensures group[i].Stream() == group[j].Stream()
    ensures group[i].Start() <= group[j].Start() && group[i].End() <= group[j].End()
    decreases j - i
  {
    if i < j {
      RunSpansUp(group, i, j - 1);
    }
  }

  lemma {:induction false} ConcatPrefix(groups: seq<seq<StreamDataBlock>>, k: nat)
    requires k <= |groups|
    ensures Concat(groups[..k]) <= Concat(groups)
  {
    if k < |groups| {
      var n := |groups| - 1;
      ConcatPrefix(groups[..n], k);
      assert groups[..n][..k] == groups[..k];
    } else {
      assert groups[..k] == groups;
    }
  }

  lemma GroupNonempty(groups: seq<seq<StreamDataBlock>>, k: nat)
    requires k < |groups| && Nonempty(Concat(groups))
    ensures Nonempty(groups[k])
  {
    hide Concat;
    ConcatPrefix(groups, k + 1);
    assert groups[..k + 1] == groups[..k] + [groups[k]];
    ConcatPush(groups[..k], groups[k]);
    var pre := Concat(groups[..k]);
    forall i | 0 <= i < |groups[k]| ensures groups[k][i].Start() < groups[k][i].End() {
      assert Concat(groups)[|pre| + i] == groups[k][i];
    }
  }

  /** Where a group's first and last block sit in the whole list. */
  lemma GroupAt(groups: seq<seq<StreamDataBlock>>, k: nat)
    requires k < |groups| && groups[k] != []
    ensures var all, at := Concat(groups), |Concat(groups[..k])|;
            && |Concat(groups[..k + 1])| == at + |groups[k]| <= |all|
            && all[at] == groups[k][0] && all[at + |groups[k]| - 1] == groups[k][|groups[k]| - 1]
  {
    hide Concat;
    ConcatPrefix(groups, k + 1);
    assert groups[..k + 1] == groups[..k] + [groups[k]];
    ConcatPush(groups[..k], groups[k]);
  }
}
