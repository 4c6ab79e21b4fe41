/** Reading source blocks in batches: coalesced, chunked and split reads return the same bytes. */
module BlockReader {
  import opened Records
  import opened DataBlocks
  import opened Codec

  datatype Fetched = Fetched(block: StreamDataBlock, data: Bytes)

  predicate InBounds(obj: Bytes, blocks: seq<StreamDataBlock>) {
    forall i :: 0 <= i < |blocks| ==> blocks[i].index.EndPosition() <= |obj|
  }

  function OwnBytes(obj: Bytes, b: StreamDataBlock): Bytes
    requires b.index.EndPosition() <= |obj|
  {
    obj[b.Position()..b.index.EndPosition()]
  }

  /** Each block with its own bytes, in input order. */
  function Fetch(obj: Bytes, blocks: seq<StreamDataBlock>): seq<Fetched>
    requires InBounds(obj, blocks)
  {
    seq(|blocks|, i requires 0 <= i < |blocks| => Fetched(blocks[i], OwnBytes(obj, blocks[i])))
  }

  lemma FetchConcat(obj: Bytes, a: seq<StreamDataBlock>, b: seq<StreamDataBlock>)
    requires InBounds(obj, a + b)
    ensures InBounds(obj, a) && InBounds(obj, b) && Fetch(obj, a + b) == Fetch(obj, a) + Fetch(obj, b)
  {
    forall i | 0 <= i < |a| ensures a[i].index.EndPosition() <= |obj| {
      assert (a + b)[i] == a[i];
    }
    forall i | 0 <= i < |b| ensures b[i].index.EndPosition() <= |obj| {
      assert (a + b)[|a| + i] == b[i];
    }
  }

  lemma FetchSlices(obj: Bytes, blocks: seq<StreamDataBlock>, i: nat, j: nat)
    requires InBounds(obj, blocks) && i <= j <= |blocks|
    ensures InBounds(obj, blocks[..i]) && InBounds(obj, blocks[..j]) && InBounds(obj, blocks[i..j])
    ensures Fetch(obj, blocks[..j]) == Fetch(obj, blocks[..i]) + Fetch(obj, blocks[i..j])
  {
    hide Fetch;
    assert blocks[..j] == blocks[..i] + blocks[i..j];
    FetchConcat(obj, blocks[..i], blocks[i..j]);
  }

  /** Blocks that lie back to back in their object. */
  predicate Continuous(blocks: seq<StreamDataBlock>) {
    forall i :: 0 < i < |blocks| ==> blocks[i].Position() == blocks[i - 1].index.EndPosition()
  }

  lemma {:induction false} ContinuousSpan(blocks: seq<StreamDataBlock>, i: nat)
    requires Continuous(blocks) && i < |blocks|
    ensures blocks[0].Position() <= blocks[i].Position()
    ensures blocks[i].index.EndPosition() <= blocks[|blocks| - 1].index.EndPosition()
  {
    SpanUp(blocks, 0, i);
    SpanUp(blocks, i, |blocks| - 1);
  }

  lemma {:induction false} SpanUp(blocks: seq<StreamDataBlock>, i: nat, j: nat)
    requires Continuous(blocks) && i <= j < |blocks|
    ensures blocks[i].Position() <= blocks[j].Position()
    ensures blocks[i].index.EndPosition() <= blocks[j].index.EndPosition()
    decreases j - i
  {
    if i < j {
      SpanUp(blocks, i, j - 1);
      assert blocks[j].Position() == blocks[j - 1].index.EndPosition();
    }
  }

  /** One read for the whole run, cut at the block sizes. */
  method ReadRun(obj: Bytes, blocks: seq<StreamDataBlock>) returns (out: seq<Fetched>)
    requires blocks != [] && Continuous(blocks) && InBounds(obj, blocks)
    ensures out == Fetch(obj, blocks)
  {
    var start, end := blocks[0].Position(), blocks[|blocks| - 1].index.EndPosition();
    ContinuousSpan(blocks, 0);
    var data := obj[start..end];
    var cursor, i := 0, 0;
    out := [];
    while i < |blocks|
      invariant 0 <= i <= |blocks| && |out| == i
      invariant i < |blocks| ==> start + cursor == blocks[i].Position()
      invariant forall k :: 0 <= k < i ==> out[k] == Fetched(blocks[k], OwnBytes(obj, blocks[k]))
    {
      var size := blocks[i].Size();
      ContinuousSpan(blocks, i);
      CutOfCut(obj, start, end, cursor, cursor + size);
      out := out + [Fetched(blocks[i], data[cursor..cursor + size])];
      cursor := cursor + size;
      i := i + 1;
    }
  }

  lemma CutOfCut(obj: Bytes, start: nat, end: nat, a: nat, b: nat)
    requires start + b <= end <= |obj| && a <= b
    ensures obj[start..end][a..b] == obj[start + a..start + b]
  {
    var x, y := obj[start..end][a..b], obj[start + a..start + b];
    forall i | 0 <= i < b - a ensures x[i] == y[i] {
      assert x[i] == obj[start..end][a + i] == obj[start + a + i];
    }
  }

  /** A block larger than the batch is read in batch-sized chunks. */
  method ReadChunked(obj: Bytes, b: StreamDataBlock, maxBatch: nat) returns (data: Bytes)
    requires b.index.EndPosition() <= |obj| && maxBatch > 0
    ensures data == OwnBytes(obj, b)
  {
    data := [];
    var position, blockEnd := b.Position(), b.index.EndPosition();
    while position < blockEnd
      invariant b.Position() <= position <= blockEnd && data == obj[b.Position()..position]
    {
      var end := if position + maxBatch < blockEnd then position + maxBatch else blockEnd;
      assert obj[b.Position()..end] == obj[b.Position()..position] + obj[position..end];
      data := data + obj[position..end];
      position := end;
    }
  }

  /** Back-to-back blocks, read in runs that stay below the batch size where they can. */
  method ReadContinuous(obj: Bytes, blocks: seq<StreamDataBlock>, maxBatch: nat) returns (out: seq<Fetched>)
    requires Continuous(blocks) && InBounds(obj, blocks)
    ensures out == Fetch(obj, blocks)
  {
    hide Fetch, Continuous, InBounds;
    out := [];
    NoFetch(obj, blocks);
    if |blocks| == 0 {
      assert blocks[..0] == blocks;
      return;
    }
    var start, current, i := 0, 0, 0;
    while i < |blocks|
      invariant 0 <= start <= i <= |blocks| && InBounds(obj, blocks[..start])
      invariant out == Fetch(obj, blocks[..start])
      invariant start == i ==> current == 0
      decreases |blocks| - i, |blocks| - start
    {
      current := current + blocks[i].Size();
      if maxBatch > 0 && current >= maxBatch {
        if start == i {
          FetchSlices(obj, blocks, i, i + 1);
          FetchOne(obj, blocks, i);
          var data := ReadChunked(obj, blocks[i], maxBatch);
          out := out + [Fetched(blocks[i], data)];
          i := i + 1;
        } else {
          FetchSlices(obj, blocks, start, i);
          ContinuousSlice(blocks, start, i);
          var run := ReadRun(obj, blocks[start..i]);
          out := out + run;
        }
        start, current := i, 0;
      } else {
        i := i + 1;
      }
    }
    if start < |blocks| {
      FetchSlices(obj, blocks, start, |blocks|);
      ContinuousSlice(blocks, start, |blocks|);
      assert blocks[start..|blocks|] == blocks[start..];
      var run := ReadRun(obj, blocks[start..]);
      out := out + run;
    }
    assert blocks[..|blocks|] == blocks;
  }

  lemma NoFetch(obj: Bytes, blocks: seq<StreamDataBlock>)
    requires InBounds(obj, blocks)
    ensures InBounds(obj, blocks[..0]) && Fetch(obj, blocks[..0]) == []
  {
  }

  lemma FetchOne(obj: Bytes, blocks: seq<StreamDataBlock>, i: nat)
    requires InBounds(obj, blocks) && i < |blocks|
    ensures blocks[i].index.EndPosition() <= |obj| && InBounds(obj, blocks[i..i + 1])
    ensures Fetch(obj, blocks[i..i + 1]) == [Fetched(blocks[i], OwnBytes(obj, blocks[i]))]
  {
  }

  lemma ContinuousSlice(blocks: seq<StreamDataBlock>, i: nat, j: nat)
    requires Continuous(blocks) && i <= j <= |blocks|
    ensures Continuous(blocks[i..j])
  {
  }

  /**
   * Reads the blocks of one object in any order of positions: neighbours are coalesced, and for
   * every batch size each block comes back with its own bytes, in input order.
   */
  method ReadBlocks(obj: Bytes, blocks: seq<StreamDataBlock>, maxBatch: nat) returns (out: seq<Fetched>)
    requires InBounds(obj, blocks)
    ensures out == Fetch(obj, blocks)
  {
    hide Fetch, Continuous, InBounds;
    out := [];
    NoFetch(obj, blocks);
    var start := 0;
    var offset: Option<nat> := None;
    var end := 0;
    assert Continuous(blocks[0..0]) by { ContinuousNone(blocks); }
    while end < |blocks|
      invariant 0 <= start <= end <= |blocks| && InBounds(obj, blocks[..start])
      invariant out == Fetch(obj, blocks[..start]) && Continuous(blocks[start..end])
      invariant offset == if end == 0 then None else Some(blocks[end - 1].index.EndPosition())
      invariant end > 0 ==> start < end
    {
      if offset.Some? && blocks[end].Position() != offset.value {
        FetchSlices(obj, blocks, start, end);
        var run := ReadContinuous(obj, blocks[start..end], maxBatch);
        out := out + run;
        start := end;
      }
      ContinuousNext(blocks, start, end);
      offset := Some(blocks[end].index.EndPosition());
      end := end + 1;
    }
    if start < |blocks| {
      FetchSlices(obj, blocks, start, |blocks|);
      assert blocks[start..|blocks|] == blocks[start..];
      var run := ReadContinuous(obj, blocks[start..], maxBatch);
      out := out + run;
    }
    assert blocks[..|blocks|] == blocks;
  }

  lemma ContinuousNone(blocks: seq<StreamDataBlock>)
    ensures Continuous(blocks[0..0])
  {
  }

  lemma ContinuousNext(blocks: seq<StreamDataBlock>, start: nat, end: nat)
    requires start <= end < |blocks|
    requires start < end ==> Continuous(blocks[start..end])
    requires start < end ==> blocks[end].Position() == blocks[end - 1].index.EndPosition()
    ensures Continuous(blocks[start..end + 1])
  {
    var all, part := blocks[start..end + 1], blocks[start..end];
    forall i | 0 < i < |all| ensures all[i].Position() == all[i - 1].index.EndPosition() {
      if i < |part| {
        assert part[i].Position() == part[i - 1].index.EndPosition();
      }
    }
  }
}
