/** The object writer: ordered writes, block grouping, and multipart upload. */
module ObjectWriter {
  import opened Sequences
  import opened Records
  import opened DataBlocks
  import opened Codec
  import opened ObjectFormat

  // ---- Grouping records into blocks --------------------------------------------------------------------

  datatype Grouped = Grouped(groups: seq<seq<Record>>, open: seq<Record>, acc: nat)

  /** A block is cut when the accumulated payload reaches the threshold. The accumulator is carried
      over from earlier writes and starts again at every cut. */
  function Group(acc: nat, threshold: nat, records: seq<Record>): Grouped {
    if records == [] then Grouped([], [], acc)
    else
      var n := |records| - 1;
      var g := Group(acc, threshold, records[..n]);
      var acc', open' := g.acc + records[n].Size(), g.open + [records[n]];
      if acc' >= threshold then Grouped(g.groups + [open'], [], 0) else Grouped(g.groups, open', acc')
  }

  function Blocks(g: Grouped): seq<seq<Record>> {
    if g.open == [] then g.groups else g.groups + [g.open]
  }

  /** Grouping keeps every record, in order, and makes no empty block. */
  lemma {:induction false} GroupKeeps(acc: nat, threshold: nat, records: seq<Record>)
    ensures var g := Group(acc, threshold, records);
            && Concat(g.groups) + g.open == records
            && forall i :: 0 <= i < |g.groups| ==> g.groups[i] != []
  {
    hide Concat;
    if records == [] {
      assert Concat<Record>([]) == [] by { NoGroups(); }
    } else {
      var n := |records| - 1;
      GroupKeeps(acc, threshold, records[..n]);
      var g := Group(acc, threshold, records[..n]);
      var open' := g.open + [records[n]];
      ConcatPush(g.groups, open');
      AppendOne(Concat(g.groups), g.open, records);
      assert records + [] == records;
    }
  }

  function Payload(records: seq<Record>): nat {
    if records == [] then 0 else Payload(records[..|records| - 1]) + records[|records| - 1].Size()
  }

  /** No record before the last one brings what is carried over up to the threshold. */
  predicate NotBefore(carry: nat, threshold: nat, group: seq<Record>) {
    forall k :: 0 < k < |group| ==> carry + Payload(group[..k]) < threshold
  }

  /** The group ends with the record that brings it up to the threshold. */
  predicate CutAt(carry: nat, threshold: nat, group: seq<Record>) {
    carry + Payload(group) >= threshold && NotBefore(carry, threshold, group)
  }

  lemma PayloadPush(group: seq<Record>, x: Record)
    ensures Payload(group + [x]) == Payload(group) + x.Size()
  {
    assert (group + [x])[..|group|] == group;
  }

  lemma NotBeforePush(carry: nat, threshold: nat, group: seq<Record>, x: Record)
    requires NotBefore(carry, threshold, group) && (group != [] ==> carry + Payload(group) < threshold)
    ensures NotBefore(carry, threshold, group + [x])
  {
    hide Payload;
    forall k | 0 < k < |group + [x]| ensures carry + Payload((group + [x])[..k]) < threshold {
      if k < |group| {
        assert (group + [x])[..k] == group[..k];
      } else {
        assert (group + [x])[..k] == group;
      }
    }
  }

  /** Only the first block gets what earlier writes have carried over. */
  predicate CutsOk(acc: nat, threshold: nat, groups: seq<seq<Record>>) {
    forall i :: 0 <= i < |groups| ==> CutAt(if i == 0 then acc else 0, threshold, groups[i])
  }

  /** A block ends with the first record at which its payload, together with what was carried over
      into the first block, reaches the threshold; the records behind the last cut do not reach it. */
  lemma {:induction false} GroupCuts(acc: nat, threshold: nat, records: seq<Record>)
    ensures var g := Group(acc, threshold, records); var carry := if g.groups == [] then acc else 0;
            && CutsOk(acc, threshold, g.groups) && NotBefore(carry, threshold, g.open)
            && g.acc == carry + Payload(g.open) && (g.open != [] ==> g.acc < threshold)
  {
    hide Payload, NotBefore;
    if records == [] {
      NoPayload(acc, threshold);
    } else {
      var n := |records| - 1;
      var g := Group(acc, threshold, records[..n]);
      var carry := if g.groups == [] then acc else 0;
      GroupCuts(acc, threshold, records[..n]);
      PayloadPush(g.open, records[n]);
      NotBeforePush(carry, threshold, g.open, records[n]);
      NoPayload(0, threshold);
    }
  }

  lemma NoPayload(carry: nat, threshold: nat)
    ensures Payload([]) == 0 && NotBefore(carry, threshold, [])
  {
  }

  lemma NoGroups()
    ensures Concat<Record>([]) == []
  {
  }

  lemma AppendOne(a: seq<Record>, b: seq<Record>, records: seq<Record>)
    requires records != [] && a + b == records[..|records| - 1]
    ensures a + (b + [records[|records| - 1]]) == records
  {
    assert a + (b + [records[|records| - 1]]) == (a + b) + [records[|records| - 1]];
  }

  lemma BlocksKeep(acc: nat, threshold: nat, records: seq<Record>)
    ensures var bs := Blocks(Group(acc, threshold, records));
            Concat(bs) == records && forall i :: 0 <= i < |bs| ==> bs[i] != []
  {
    hide Group, Concat;
    var g := Group(acc, threshold, records);
    GroupKeeps(acc, threshold, records);
    ConcatPush(g.groups, g.open);
    assert g.open == [] ==> Concat(g.groups) + [] == Concat(g.groups);
  }

  method GroupByBlock(acc: nat, threshold: nat, records: seq<Record>) returns (bs: seq<seq<Record>>, acc': nat)
    ensures bs == Blocks(Group(acc, threshold, records)) && acc' == Group(acc, threshold, records).acc
  {
    bs, acc' := [], acc;
    var open: seq<Record> := [];
    var i := 0;
    while i < |records|
      invariant 0 <= i <= |records| && Grouped(bs, open, acc') == Group(acc, threshold, records[..i])
    {
      assert records[..i + 1][..i] == records[..i];
      acc' := acc' + records[i].Size();
      open := open + [records[i]];
      if acc' >= threshold {
        bs, open, acc' := bs + [open], [], 0;
      }
      i := i + 1;
    }
    assert records[..i] == records;
    if |open| != 0 {
      bs := bs + [open];
    }
  }

  // ---- Pieces of one write -------------------------------------------------------------------------------

  /** What callers write: records of one stream in offset order, within the format's widths. */
  predicate Writable(streamId: nat, records: seq<Record>) {
    && InOrder(records, streamId) && AllEncodable(records)
    && |records| < U32 && |EncodeRecords(records)| + BLOCK_HEADER_SIZE < U32
    && (records != [] ==> records[|records| - 1].LastOffset() - records[0].baseOffset < U32)
  }

  lemma {:induction false} EncodeRecordsConcat(a: seq<Record>, b: seq<Record>)
    requires AllEncodable(a) && AllEncodable(b)
    ensures AllEncodable(a + b) && EncodeRecords(a + b) == EncodeRecords(a) + EncodeRecords(b)
  {
    hide EncodeRecord;
    if a == [] {
      assert a + b == b;
    } else {
      assert (a + b)[1..] == a[1..] + b;
      EncodeRecordsConcat(a[1..], b);
    }
  }

  /** Any consecutive piece of a writable batch is a block that fits. */
  lemma PieceFits(streamId: nat, pre: seq<Record>, piece: seq<Record>, post: seq<Record>)
    requires Writable(streamId, pre + piece + post) && piece != []
    ensures BlockFits(DataBlock(streamId, piece))
  {
    hide EncodeRecords, EncodeRecord, AllEncodable, InOrder;
    EncodableParts(pre + piece, post);
    EncodableParts(pre, piece);
    EncodeRecordsConcat(pre + piece, post);
    EncodeRecordsConcat(pre, piece);
    PieceInOrder(streamId, pre, piece, post);
    PieceSpan(streamId, pre, piece, post);
  }

  lemma EncodableParts(a: seq<Record>, b: seq<Record>)
    requires AllEncodable(a + b)
    ensures AllEncodable(a) && AllEncodable(b)
  {
    forall i | 0 <= i < |a| ensures Encodable(a[i]) {
      assert (a + b)[i] == a[i];
    }
    forall i | 0 <= i < |b| ensures Encodable(b[i]) {
      assert (a + b)[|a| + i] == b[i];
    }
  }

  lemma PieceInOrder(streamId: nat, pre: seq<Record>, piece: seq<Record>, post: seq<Record>)
    requires InOrder(pre + piece + post, streamId)
    ensures InOrder(piece, streamId)
  {
    var all := pre + piece + post;
    forall i | 0 <= i < |piece| ensures piece[i].streamId == streamId && piece[i].count > 0 {
      assert piece[i] == all[|pre| + i];
    }
    forall i, j | 0 <= i < j < |piece| ensures piece[i].LastOffset() <= piece[j].baseOffset {
      assert piece[i] == all[|pre| + i] && piece[j] == all[|pre| + j];
    }
  }

  lemma PieceSpan(streamId: nat, pre: seq<Record>, piece: seq<Record>, post: seq<Record>)
    requires InOrder(pre + piece + post, streamId) && piece != []
    ensures var all := pre + piece + post;
            && all[0].baseOffset <= piece[0].baseOffset
            && piece[|piece| - 1].LastOffset() <= all[|all| - 1].LastOffset()
  {
    var all := pre + piece + post;
    assert piece[0] == all[|pre|] && piece[|piece| - 1] == all[|pre| + |piece| - 1];
    OffsetsAscend(all, streamId, 0, |pre|);
    OffsetsAscend(all, streamId, |pre| + |piece| - 1, |all| - 1);
  }

  lemma OffsetsAscend(rs: seq<Record>, streamId: nat, i: nat, j: nat)
    requires InOrder(rs, streamId) && i <= j < |rs|
    ensures rs[i].baseOffset <= rs[j].baseOffset && rs[i].LastOffset() <= rs[j].LastOffset()
  {
    assert rs[i].count > 0 && rs[j].count > 0;
    if i < j {
      assert rs[i].LastOffset() <= rs[j].baseOffset;
    }
  }

  function ToBlocks(streamId: nat, groups: seq<seq<Record>>): (bs: seq<DataBlock>)
    ensures |bs| == |groups|
  {
    seq(|groups|, i requires 0 <= i < |groups| => DataBlock(streamId, groups[i]))
  }

  lemma {:induction false} GroupParts(groups: seq<seq<Record>>, k: nat) returns (pre: seq<Record>, post: seq<Record>)
    requires k < |groups|
    ensures Concat(groups) == pre + groups[k] + post
    ensures k > 0 ==> pre == Concat(groups[..k - 1]) + groups[k - 1]
    ensures k == 0 ==> pre == []
  {
    var n := |groups| - 1;
    if k == n {
      pre, post := Concat(groups[..n]), [];
      assert k > 0 ==> groups[..n][..n - 1] == groups[..k - 1];
    } else {
      var pre', post' := GroupParts(groups[..n], k);
      pre, post := pre', post' + groups[n];
      assert k > 0 ==> groups[..n][..k - 1] == groups[..k - 1];
    }
  }

  /** The blocks of one write fit and are in order. */
  lemma BlocksOfWrite(streamId: nat, groups: seq<seq<Record>>)
    requires Writable(streamId, Concat(groups)) && forall i :: 0 <= i < |groups| ==> groups[i] != []
    ensures AllFit(ToBlocks(streamId, groups)) && BlocksInOrder(ToBlocks(streamId, groups))
  {
    hide Writable, BlockFits, Concat;
    var bs := ToBlocks(streamId, groups);
    forall k: nat | k < |groups| ensures BlockFits(bs[k]) {
      var pre, post := GroupParts(groups, k);
      PieceFits(streamId, pre, groups[k], post);
    }
    AllFitNonempty(bs);
    forall k | 0 < k < |bs| ensures MeetAt(bs, k) {
      var pre, post := GroupParts(groups, k);
      NeighboursInOrder(streamId, Concat(groups[..k - 1]), groups[k - 1], groups[k], post);
    }
  }

  lemma AllFitNonempty(bs: seq<DataBlock>)
    requires AllFit(bs)
    ensures forall i :: 0 <= i < |bs| ==> bs[i].records != []
  {
  }

  lemma NeighboursInOrder(streamId: nat, pre: seq<Record>, a: seq<Record>, b: seq<Record>, post: seq<Record>)
    requires Writable(streamId, pre + a + b + post) && a != [] && b != []
    ensures a[|a| - 1].LastOffset() <= b[0].baseOffset
  {
    hide EncodeRecords;
    var all := pre + a + b + post;
    assert all[|pre| + |a| - 1] == a[|a| - 1] && all[|pre| + |a|] == b[0];
  }

  lemma {:induction false} RecordsOfGroups(streamId: nat, groups: seq<seq<Record>>)
    ensures RecordsOf(ToBlocks(streamId, groups)) == Concat(groups)
  {
    if groups != [] {
      var n := |groups| - 1;
      RecordsOfGroups(streamId, groups[..n]);
      assert ToBlocks(streamId, groups)[..n] == ToBlocks(streamId, groups[..n]);
    }
  }

  /** The last block of a write ends where its records end. */
  lemma LastOfGroups(groups: seq<seq<Record>>)
    requires groups != [] && forall i :: 0 <= i < |groups| ==> groups[i] != []
    ensures var all, last := Concat(groups), groups[|groups| - 1];
            all != [] && all[|all| - 1] == last[|last| - 1]
  {
  }

  lemma {:induction false} FirstOfGroups(groups: seq<seq<Record>>)
    requires groups != [] && forall i :: 0 <= i < |groups| ==> groups[i] != []
    ensures Concat(groups) != [] && Concat(groups)[0] == groups[0][0]
  {
    var n := |groups| - 1;
    if n > 0 {
      FirstOfGroups(groups[..n]);
    } else {
      assert groups[..0] == [];
    }
  }

  // ---- The writer ----------------------------------------------------------------------------------------

  /** The order check: streams do not go back, and neither do a stream's offsets. */
  predicate Accepts(last: Option<(nat, nat)>, streamId: nat, records: seq<Record>) {
    || records == [] || last.None?
    || last.value.0 < streamId
    || (last.value.0 == streamId && last.value.1 <= records[0].baseOffset)
  }

  ghost predicate LastOk(blocks: seq<DataBlock>, last: Option<(nat, nat)>)
    requires AllFit(blocks)
  {
    if blocks == [] then last == None
    else last == Some((blocks[|blocks| - 1].streamId, blocks[|blocks| - 1].End()))
  }

  lemma AppendInOrder(a: seq<DataBlock>, b: seq<DataBlock>, last: Option<(nat, nat)>)
    requires AllFit(a) && AllFit(b) && BlocksInOrder(a) && BlocksInOrder(b) && LastOk(a, last)
    requires b != [] ==> Accepts(last, b[0].streamId, b[0].records)
    ensures AllFit(a + b) && BlocksInOrder(a + b)
  {
    hide BlockFits;
    AllFitNonempty(a);
    AllFitNonempty(b);
    var c := a + b;
    forall i | 0 < i < |c| ensures MeetAt(c, i) {
      if i < |a| {
        assert MeetAt(a, i);
      } else if i > |a| {
        assert MeetAt(b, i - |a|);
      }
    }
  }

  class ObjectWriter {
    const blockSizeThreshold: nat
    const partSizeThreshold: nat
    var parts: seq<Bytes>                    // uploaded so far
    var waiting: seq<DataBlock>
    var waitingSize: nat
    var completed: seq<DataBlock>
    var groupAcc: nat
    var last: Option<(nat, nat)>             // stream and end offset of the latest write
    var size: nat

    ghost function All(): seq<DataBlock>
      reads this
    {
      completed + waiting
    }

    /** While open: uploaded parts are the completed blocks' bytes, each part is large enough, and
        all blocks are in order. */
    ghost predicate Open()
      reads this
    {
      && partSizeThreshold >= MIN_PART_SIZE
      && AllFit(completed) && AllFit(waiting) && AllFit(All())
      && Concat(parts) == DataOf(completed)
      && (forall i :: 0 <= i < |parts| ==> |parts[i]| >= partSizeThreshold)
      && waitingSize == |DataOf(waiting)|
      && BlocksInOrder(All()) && LastOk(All(), last)
    }

    constructor (blockSize: nat, partSize: nat)
      ensures Open() && All() == [] && blockSizeThreshold == blockSize
    {
      blockSizeThreshold := blockSize;
      partSizeThreshold := if partSize < MIN_PART_SIZE then MIN_PART_SIZE else partSize;
      parts, waiting, waitingSize, completed, groupAcc, last, size := [], [], 0, [], 0, None, 0;
    }

    /** An accepted write appends its records in blocks; a rejected one changes nothing. */
    method Write(streamId: nat, records: seq<Record>) returns (ok: bool)
      requires Open() && Writable(streamId, records)
      modifies this
      ensures Open()
      ensures ok == Accepts(old(last), streamId, records)
      ensures !ok ==> All() == old(All()) && parts == old(parts) && last == old(last) && groupAcc == old(groupAcc)
      ensures ok ==>
                && All() == old(All()) + ToBlocks(streamId, Blocks(Group(old(groupAcc), blockSizeThreshold, records)))
                && RecordsOf(All()) == RecordsOf(old(All())) + records
                && groupAcc == Group(old(groupAcc), blockSizeThreshold, records).acc
                && waitingSize < partSizeThreshold
    {
      hide Writable, BlockFits, Group, RecordsOf, DataOf, Concat, BlocksInOrder, Blocks;
      hide LastOk, Accepts, Concat, AllFit;
      ok := Check(streamId, records);
      if !ok {
        return;
      }
      var groups, acc := GroupByBlock(groupAcc, blockSizeThreshold, records);
      BlocksKeep(groupAcc, blockSizeThreshold, records);
      BlocksOfWrite(streamId, groups);
      var blocks := ToBlocks(streamId, groups);
      WriteKeeps(old(All()), blocks, streamId, groups, old(last));
      groupAcc := acc;
      Enqueue(blocks, if records == [] then last else Some((streamId, records[|records| - 1].LastOffset())));
    }

    /** Queues the blocks of a write and uploads what fills a part. */
    method Enqueue(blocks: seq<DataBlock>, last': Option<(nat, nat)>)
      requires Open() && AllFit(blocks) && AllFit(All() + blocks)
      requires BlocksInOrder(All() + blocks) && LastOk(All() + blocks, last')
      modifies this`parts, this`waiting, this`waitingSize, this`completed, this`last
      ensures Open() && All() == old(All()) + blocks && last == last' && waitingSize < partSizeThreshold
    {
      hide BlockFits, DataOf, Concat, BlocksInOrder, LastOk;
      DataConcat(waiting, blocks);
      assert completed + (waiting + blocks) == All() + blocks;
      waitingSize := waitingSize + TotalBytes(blocks);
      waiting := waiting + blocks;
      last := last';
      TryUploadPart();
    }

    method Check(streamId: nat, records: seq<Record>) returns (ok: bool)
      ensures ok == Accepts(last, streamId, records)
    {
      if |records| == 0 {
        return true;
      }
      if last.None? {
        return true;
      }
      if last.value.0 > streamId {
        return false;
      }
      if last.value.0 == streamId && records[0].baseOffset < last.value.1 {
        return false;
      }
      return true;
    }

    /** Uploads whole parts while enough bytes are waiting. */
    method TryUploadPart()
      requires Open()
      modifies this`parts, this`waiting, this`waitingSize, this`completed
      ensures Open() && All() == old(All()) && waitingSize < partSizeThreshold
    {
      hide BlockFits, DataOf, Concat, BlocksInOrder, LastOk;
      while waitingSize >= partSizeThreshold
        invariant Open() && All() == old(All())
        decreases |waiting|
      {
        var take := TakeForPart(waiting, partSizeThreshold);
        var head, rest := waiting[..take], waiting[take..];
        assert waiting == head + rest && completed + head + rest == All();
        FitParts(head, rest);
        DataConcat(head, rest);
        DataConcat(completed, head);
        var part := DataOf(head);
        ConcatPush(parts, part);
        parts := parts + [part];
        waitingSize := waitingSize - |part|;
        completed := completed + head;
        waiting := rest;
      }
    }

    /** The tail holds the remaining blocks, the index and the footer. Afterwards the parts are the
        whole object, and every part but the last is large enough. */
    method Close()
      requires Open()
      modifies this
      ensures AllFit(completed) && completed == old(All()) && waiting == []
      ensures Concat(parts) == ObjectBytes(completed)
      ensures size == |ObjectBytes(completed)|
      ensures |parts| == |old(parts)| + 1
      ensures forall i :: 0 <= i < |parts| - 1 ==> |parts[i]| >= MIN_PART_SIZE
    {
      hide BlockFits, DataOf, Concat, BlocksInOrder, LastOk, EncodeIndexes, Footer, IndexOf;
      DataConcat(completed, waiting);
      var data := DataOf(waiting);
      completed, waiting, waitingSize := completed + waiting, [], 0;
      var index := BuildIndex(completed);
      var bytes := EncodeIndexes(index);
      var position := |DataOf(completed)|;
      var tail := data + bytes + Footer(position, |bytes|);
      ConcatPush(parts, tail);
      TailIsRest(Concat(parts), data, bytes, Footer(position, |bytes|));
      parts := parts + [tail];
      size := position + |bytes| + FOOTER_SIZE;
    }
  }

  lemma TailIsRest(a: Bytes, b: Bytes, c: Bytes, d: Bytes)
    ensures a + (b + c + d) == (a + b) + c + d
  {
  }

  lemma FitParts(a: seq<DataBlock>, b: seq<DataBlock>)
    requires AllFit(a + b)
    ensures AllFit(a) && AllFit(b)
  {
    hide BlockFits;
    forall i | 0 <= i < |a| ensures BlockFits(a[i]) {
      assert (a + b)[i] == a[i];
    }
    forall i | 0 <= i < |b| ensures BlockFits(b[i]) {
      assert (a + b)[|a| + i] == b[i];
    }
  }

  function TotalBytes(blocks: seq<DataBlock>): (n: nat)
    requires AllFit(blocks)
    ensures n == |DataOf(blocks)|
  {
    if blocks == [] then 0
    else TotalBytes(blocks[..|blocks| - 1]) + |EncodeDataBlock(blocks[|blocks| - 1].records)|
  }

  /** The shortest prefix that fills a part. */
  method TakeForPart(waiting: seq<DataBlock>, threshold: nat) returns (take: nat)
    requires AllFit(waiting) && threshold > 0 && |DataOf(waiting)| >= threshold
    ensures 0 < take <= |waiting| && |DataOf(waiting[..take])| >= threshold
    ensures |DataOf(waiting[..take - 1])| < threshold
  {
    hide EncodeDataBlock, BlockFits, DataOf;
    var size := 0;
    take := 0;
    NoData(waiting);
    assert waiting[..|waiting|] == waiting;
    while size < threshold
      invariant 0 <= take <= |waiting| && size == |DataOf(waiting[..take])|
      invariant take == 0 ==> size == 0
      invariant take > 0 ==> |DataOf(waiting[..take - 1])| < threshold
      decreases |waiting| - take
    {
      DataNext(waiting, take);
      size := size + |EncodeDataBlock(waiting[take].records)|;
      take := take + 1;
    }
  }

  lemma DataNext(blocks: seq<DataBlock>, k: nat)
    requires AllFit(blocks) && k < |blocks|
    ensures BlockEncodable(blocks[k].records)
    ensures |DataOf(blocks[..k + 1])| == |DataOf(blocks[..k])| + |EncodeDataBlock(blocks[k].records)|
  {
    hide EncodeDataBlock, BlockFits, BlockEncodable;
    FitsEncodable(blocks[k]);
    assert blocks[..k + 1][..k] == blocks[..k];
  }

  lemma FitsEncodable(b: DataBlock)
    requires BlockFits(b)
    ensures BlockEncodable(b.records)
  {
  }

  lemma NoData(blocks: seq<DataBlock>)
    requires AllFit(blocks)
    ensures DataOf(blocks[..0]) == [] && IndexOf(blocks[..0]) == []
  {
  }

  /** Index entries with running positions. */
  method BuildIndex(blocks: seq<DataBlock>) returns (index: seq<DataBlockIndex>)
    requires AllFit(blocks)
    ensures index == IndexOf(blocks)
  {
    hide EncodeDataBlock, IndexOf, DataOf, BlockFits;
    index := [];
    var position, i := 0, 0;
    NoData(blocks);
    while i < |blocks|
      invariant 0 <= i <= |blocks|
      invariant index == IndexOf(blocks[..i]) && position == |DataOf(blocks[..i])|
    {
      IndexNext(blocks, i);
      index := index + [EntryOf(blocks[i], position)];
      position := position + |EncodeDataBlock(blocks[i].records)|;
      i := i + 1;
    }
    assert blocks[..i] == blocks;
  }

  lemma WriteKeeps(was: seq<DataBlock>, blocks: seq<DataBlock>, streamId: nat, groups: seq<seq<Record>>,
                   last: Option<(nat, nat)>)
    requires AllFit(was) && BlocksInOrder(was) && LastOk(was, last)
    requires blocks == ToBlocks(streamId, groups) && AllFit(blocks) && BlocksInOrder(blocks)
    requires forall i :: 0 <= i < |groups| ==> groups[i] != []
    requires Accepts(last, streamId, Concat(groups))
    ensures AllFit(was + blocks) && BlocksInOrder(was + blocks)
    ensures RecordsOf(was + blocks) == RecordsOf(was) + Concat(groups)
    ensures var records := Concat(groups);
            LastOk(was + blocks, if records == [] then last else Some((streamId, records[|records| - 1].LastOffset())))
    ensures Concat(groups) == [] <==> groups == []
  {
    hide BlockFits, Concat, RecordsOf, BlocksInOrder;
    RecordsConcat(was, blocks);
    RecordsOfGroups(streamId, groups);
    if groups == [] {
      NoGroups();
      assert was + blocks == was;
    } else {
      FirstOfGroups(groups);
      LastOfGroups(groups);
      AppendInOrder(was, blocks, last);
    }
  }
}
