/** Index entries of data blocks, and the blocks that compaction moves between objects. */
module DataBlocks {

  /** One 36-byte index entry. */
  datatype DataBlockIndex = DataBlockIndex(
    streamId: nat, start: nat, delta: nat, count: nat, position: nat, size: nat)
  {
    function End(): nat { start + delta }
    function EndPosition(): nat { position + size }
  }

  /** A data block tagged with its source object. */
  datatype StreamDataBlock = StreamDataBlock(objectId: nat, index: DataBlockIndex) {
    function Stream(): nat { index.streamId }
    function Start(): nat { index.start }
    function End(): nat { index.End() }
    function Position(): nat { index.position }
    function Size(): nat { index.size }
  }

  function TotalSize(blocks: seq<StreamDataBlock>): nat {
    if blocks == [] then 0 else TotalSize(blocks[..|blocks| - 1]) + blocks[|blocks| - 1].Size()
  }

  lemma {:induction false} TotalSizeConcat(a: seq<StreamDataBlock>, b: seq<StreamDataBlock>)
    ensures TotalSize(a + b) == TotalSize(a) + TotalSize(b)
  {
    if b == [] {
      assert a + b == a;
    } else {
      assert (a + b)[..|a + b| - 1] == a + b[..|b| - 1];
      TotalSizeConcat(a, b[..|b| - 1]);
    }
  }

  predicate PositiveSizes(blocks: seq<StreamDataBlock>) {
    forall i :: 0 <= i < |blocks| ==> blocks[i].Size() > 0
  }

  lemma {:induction false} TotalSizeZero(blocks: seq<StreamDataBlock>)
    requires PositiveSizes(blocks)
    ensures TotalSize(blocks) == 0 <==> blocks == []
  {
    if blocks != [] {
      TotalSizeZero(blocks[..|blocks| - 1]);
    }
  }

  /** The block after `a` continues its run or belongs to a later stream. */
  predicate Follows(a: StreamDataBlock, b: StreamDataBlock) {
    a.Stream() < b.Stream() || (a.Stream() == b.Stream() && a.End() == b.Start())
  }

  /** Streams ascend, and each stream's blocks are one gap-free run. */
  predicate Runs(blocks: seq<StreamDataBlock>) {
    forall i :: 0 < i < |blocks| ==> Follows(blocks[i - 1], blocks[i])
  }

  /** One gap-free run of one stream. */
  predicate OneRun(blocks: seq<StreamDataBlock>) {
    && blocks != []
    && forall i :: 0 < i < |blocks| ==>
         blocks[i - 1].Stream() == blocks[i].Stream() && blocks[i - 1].End() == blocks[i].Start()
  }

  predicate Before(a: StreamDataBlock, b: StreamDataBlock) {
    a.Stream() < b.Stream() || (a.Stream() == b.Stream() && a.Start() <= b.Start())
  }

  predicate Sorted(blocks: seq<StreamDataBlock>) {
    forall i :: 0 < i < |blocks| ==> Before(blocks[i - 1], blocks[i])
  }

  /** The blocks of one stream, in order. */
  function StreamBlocks(blocks: seq<StreamDataBlock>, s: nat): seq<StreamDataBlock> {
    if blocks == [] then []
    else
      var rest := StreamBlocks(blocks[..|blocks| - 1], s);
      var x := blocks[|blocks| - 1];
      if x.Stream() == s then rest + [x] else rest
  }

  lemma {:induction false} StreamBlocksConcat(a: seq<StreamDataBlock>, b: seq<StreamDataBlock>, s: nat)
    ensures StreamBlocks(a + b, s) == StreamBlocks(a, s) + StreamBlocks(b, s)
  {
    if b == [] {
      assert a + b == a;
    } else {
      assert (a + b)[..|a + b| - 1] == a + b[..|b| - 1];
      StreamBlocksConcat(a, b[..|b| - 1], s);
    }
  }
}
