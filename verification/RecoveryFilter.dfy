/** Filtering a log replay against committed end offsets, in bounded blocks. */
module RecoveryFilter {
  import opened Records
  import opened WalLayout
  import opened CacheBlocks

  function RecordsOf(replay: seq<Entry>): (r: seq<Record>)
    ensures |r| == |replay| && forall i :: 0 <= i < |r| ==> r[i] == replay[i].record
  {
    seq(|replay|, i requires 0 <= i < |replay| => replay[i].record)
  }

  // ---- The fold ------------------------------------------------------------------------------

  /** A record is kept when its stream is open and it starts exactly at the stream's end. */
  predicate Keep(ends: map<nat, nat>, x: Record) {
    x.streamId in ends && ends[x.streamId] == x.baseOffset
  }

  datatype Folded = Folded(kept: seq<Record>, ends: map<nat, nat>)

  function Fold(replay: seq<Record>, ends: map<nat, nat>): Folded {
    if replay == [] then Folded([], ends)
    else
      var f := Fold(replay[..|replay| - 1], ends);
      var x := replay[|replay| - 1];
      if Keep(f.ends, x) then Folded(f.kept + [x], f.ends[x.streamId := x.LastOffset()]) else f
  }

  /** One stream on its own: the greedy gap-free run that starts at `from`. */
  function Greedy(replay: seq<Record>, from: nat): seq<Record> {
    if replay == [] then []
    else
      var run := Greedy(replay[..|replay| - 1], from);
      var x := replay[|replay| - 1];
      if x.baseOffset == EndOf(run, from) then run + [x] else run
  }

  /** Streams do not influence one another, and the final map holds the ends of the runs. */
  lemma {:induction false} FoldPerStream(replay: seq<Record>, ends: map<nat, nat>, s: nat)
    ensures Fold(replay, ends).ends.Keys == ends.Keys
    ensures s in ends ==>
              && OfStream(Fold(replay, ends).kept, s) == Greedy(OfStream(replay, s), ends[s])
              && Fold(replay, ends).ends[s] == EndOf(Greedy(OfStream(replay, s), ends[s]), ends[s])
    ensures s !in ends ==> OfStream(Fold(replay, ends).kept, s) == []
  {
    if replay != [] {
      var init, x := replay[..|replay| - 1], replay[|replay| - 1];
      FoldPerStream(init, ends, s);
      var f := Fold(init, ends);
      OfStreamConcat(f.kept, [x], s);
      if x.streamId == s {
        var own := OfStream(replay, s);
        assert own[..|own| - 1] == OfStream(init, s);
      }
    }
  }

  /** The greedy run is gap-free from the committed end. */
  lemma {:induction false} GreedyContiguous(replay: seq<Record>, from: nat)
    ensures ContiguousFrom(Greedy(replay, from), from)
  {
    if replay != [] {
      GreedyContiguous(replay[..|replay| - 1], from);
    }
  }

  // ---- The loop ------------------------------------------------------------------------------

  /** The first `n` replayed records are settled: their kept ones are in `blocks` and `block`. */
  ghost predicate Settled(replay: seq<Record>, ends0: map<nat, nat>, n: nat,
                          blocks: seq<Block>, block: Block, ends: map<nat, nat>)
  {
    && n <= |replay|
    && ends == Fold(replay[..n], ends0).ends
    && BlockOk(block)
    && (forall s :: ListOf(blocks, s) + block.Of(s) == OfStream(Fold(replay[..n], ends0).kept, s))
    && (forall s :: block.Of(s) != [] ==> s in ends && block.Cached(s).end == Some(ends[s]))
  }

  lemma FoldNext(replay: seq<Record>, ends: map<nat, nat>, n: nat)
    requires n < |replay|
    ensures var f, x := Fold(replay[..n], ends), replay[n];
            Fold(replay[..n + 1], ends) ==
              if Keep(f.ends, x) then Folded(f.kept + [x], f.ends[x.streamId := x.LastOffset()]) else f
  {
    assert replay[..n + 1][..n] == replay[..n];
  }

  lemma SettleDropped(replay: seq<Record>, ends0: map<nat, nat>, n: nat,
                      blocks: seq<Block>, block: Block, ends: map<nat, nat>)
    requires Settled(replay, ends0, n, blocks, block, ends) && n < |replay| && !Keep(ends, replay[n])
    ensures Settled(replay, ends0, n + 1, blocks, block, ends)
  {
    hide Fold, OfStream, ListOf, BlockOk, Keep;
    FoldNext(replay, ends0, n);
  }

  lemma SettleKept(replay: seq<Record>, ends0: map<nat, nat>, n: nat,
                   blocks: seq<Block>, block: Block, ends: map<nat, nat>)
    requires Settled(replay, ends0, n, blocks, block, ends) && n < |replay| && Keep(ends, replay[n])
    requires replay[n].count > 0 && Accepts(block, replay[n])
    ensures Settled(replay, ends0, n + 1, blocks, PutBlock(block, replay[n]),
                    ends[replay[n].streamId := replay[n].LastOffset()])
  {
    hide Fold, OfStream, ListOf, BlockOk, Accepts, PutBlock;
    var x := replay[n];
    var block', kept := PutBlock(block, x), Fold(replay[..n], ends0).kept;
    FoldNext(replay, ends0, n);
    PutBlockOk(block, x);
    forall s ensures ListOf(blocks, s) + block'.Of(s) == OfStream(Fold(replay[..n + 1], ends0).kept, s) {
      OfStreamConcat(kept, [x], s);
      OfStreamOne(x, s);
      assert ListOf(blocks, s) + block.Of(s) == OfStream(kept, s);
    }
    forall s | block'.Of(s) != []
      ensures s == x.streamId || (s in ends && block'.Cached(s).end == Some(ends[s]))
    {
      if s != x.streamId {
        PutOther(block, x, s);
      }
    }
    PutOwn(block, x);
  }

  lemma PutOther(b: Block, x: Record, s: nat)
    requires s != x.streamId
    ensures PutBlock(b, x).Cached(s) == b.Cached(s)
  {
  }

  lemma PutOwn(b: Block, x: Record)
    requires Accepts(b, x)
    ensures PutBlock(b, x).Cached(x.streamId).end == Some(x.LastOffset())
  {
  }

  /** A refused record leaves everything settled as before. */
  lemma SettleRefused(replay: seq<Record>, ends0: map<nat, nat>, n: nat,
                      blocks: seq<Block>, block: Block, ends: map<nat, nat>)
    requires Settled(replay, ends0, n, blocks, block, ends) && n < |replay| && Keep(ends, replay[n])
    requires replay[n].count > 0 && !Accepts(block, replay[n])
    ensures Settled(replay, ends0, n, blocks, PutBlock(block, replay[n]), ends)
  {
    hide Fold, OfStream, ListOf, BlockOk, Accepts, PutBlock;
    var x := replay[n];
    PutBlockOk(block, x);
    forall s ensures PutBlock(block, x).Cached(s) == block.Cached(s) {
      RefusedKeeps(block, x, s);
    }
  }

  lemma RefusedKeeps(b: Block, x: Record, s: nat)
    requires !Accepts(b, x)
    ensures PutBlock(b, x).Cached(s) == b.Cached(s)
  {
  }

  /** Handing a block over and starting a fresh one. */
  lemma SettleBlock(replay: seq<Record>, ends0: map<nat, nat>, n: nat, id: nat, maxSize: nat, maxStreams: nat,
                    blocks: seq<Block>, block: Block, ends: map<nat, nat>)
    requires Settled(replay, ends0, n, blocks, block, ends)
    ensures Settled(replay, ends0, n, blocks + [block], NewBlock(id, maxSize, maxStreams), ends)
  {
    hide Fold, OfStream, ListOf;
    var blank := NewBlock(id, maxSize, maxStreams);
    forall s ensures ListOf(blocks + [block], s) + blank.Of(s) == OfStream(Fold(replay[..n], ends0).kept, s) {
      ListConcat(blocks, [block], s);
      ListOne(block, s);
    }
  }

  lemma LastIrrelevant(replay: seq<Record>, ends0: map<nat, nat>, n: nat,
                       blocks: seq<Block>, block: Block, last: Option<nat>, ends: map<nat, nat>)
    requires Settled(replay, ends0, n, blocks, block, ends)
    ensures Settled(replay, ends0, n, blocks, block.(last := last), ends)
  {
    hide Fold, OfStream, ListOf;
    assert forall s :: block.(last := last).Cached(s) == block.Cached(s);
  }

  /** A fresh block takes any user record, so a carried record is never lost. */
  lemma BlankAccepts(id: nat, maxSize: nat, maxStreams: nat, x: Record)
    requires maxSize >= 1 && maxStreams >= 1 && x.IsUser()
    ensures Accepts(NewBlock(id, maxSize, maxStreams), x)
  {
  }

  /** Each block handed over brings the total to the fold of a longer part of the replay. */
  ghost predicate Handed(replay: seq<Record>, ends0: map<nat, nat>, blocks: seq<Block>, cuts: seq<nat>) {
    && |cuts| == |blocks|
    && forall k :: 0 <= k < |blocks| ==> HandedAt(replay, ends0, blocks, cuts, k)
  }

  ghost predicate HandedAt(replay: seq<Record>, ends0: map<nat, nat>, blocks: seq<Block>, cuts: seq<nat>, k: int) {
    && 0 <= k < |blocks| == |cuts| && 0 < cuts[k] <= |replay| && (k > 0 ==> cuts[k - 1] < cuts[k])
    && forall s :: ListOf(blocks[..k + 1], s) == OfStream(Fold(replay[..cuts[k]], ends0).kept, s)
  }

  lemma HandedPush(replay: seq<Record>, ends0: map<nat, nat>, blocks: seq<Block>, cuts: seq<nat>,
                   block: Block, n: nat, blank: Block, ends: map<nat, nat>)
    requires Handed(replay, ends0, blocks, cuts) && blank.streams == map[]
    requires 0 < n && (cuts != [] ==> cuts[|cuts| - 1] < n)
    requires Settled(replay, ends0, n, blocks + [block], blank, ends)
    ensures Handed(replay, ends0, blocks + [block], cuts + [n])
  {
    hide Fold, OfStream, ListOf;
    var blocks', cuts' := blocks + [block], cuts + [n];
    forall k | 0 <= k < |blocks'| ensures HandedAt(replay, ends0, blocks', cuts', k) {
      if k < |blocks| {
        assert HandedAt(replay, ends0, blocks, cuts, k);
        assert blocks'[..k + 1] == blocks[..k + 1];
      } else {
        assert blocks'[..k + 1] == blocks';
        assert forall s :: blank.Of(s) == [];
      }
    }
  }

  /**
   * The recovery loop with its carried record, its look-ahead and its end-of-input flag. Whatever
   * the block limits, the blocks hold exactly the kept records of the fold, each once and in
   * order, and the map ends as the fold's.
   */
  method Recover(replay: seq<Entry>, ends0: map<nat, nat>, maxSize: nat, maxStreams: nat)
    returns (blocks: seq<Block>, ends: map<nat, nat>, ghost cuts: seq<nat>)
    requires maxSize >= 1 && maxStreams >= 1
    requires forall i :: 0 <= i < |replay| ==> replay[i].record.IsUser()
    ensures ends == Fold(RecordsOf(replay), ends0).ends
    ensures forall s :: ListOf(blocks, s) == OfStream(Fold(RecordsOf(replay), ends0).kept, s)
    ensures Handed(RecordsOf(replay), ends0, blocks, cuts)
    ensures forall k :: 0 <= k < |blocks| - 1 ==> blocks[k].IsFull()
  {
    hide Fold, OfStream, ListOf, Settled, Accepts, PutBlock, Keep, Handed;
    ghost var records := RecordsOf(replay);
    blocks, ends, cuts := [], ends0, [];
    assert Handed(records, ends0, [], []) by { NothingHanded(records, ends0); }
    var pos, eof := 0, false;
    var pending: Option<Entry>, next: Option<Entry> := None, None;
    ghost var n := 0;
    SettledStart(records, ends0, maxSize, maxStreams);
    ghost var blank := NewBlock(0, maxSize, maxStreams);
    while true
      invariant pending.None? || next.None?
      invariant n <= |replay| && pos == n + (if pending.Some? || next.Some? then 1 else 0)
      invariant pending.Some? ==> n < |replay| && pending.value == replay[n] && Keep(ends, replay[n].record)
      invariant next.Some? ==> n < |replay| && next.value == replay[n]
      invariant pos <= |replay| && (eof ==> pos == |replay|)
      invariant Settled(records, ends0, n, blocks, blank, ends) && Handed(records, ends0, blocks, cuts)
      invariant cuts != [] ==> cuts[|cuts| - 1] <= n
      invariant blank.id == |blocks| && blank == NewBlock(|blocks|, maxSize, maxStreams)
      invariant forall k :: 0 <= k < |blocks| - 1 ==> blocks[k].IsFull()
      invariant blocks != [] && !blocks[|blocks| - 1].IsFull() ==> pending.None? && next.None? && eof
      decreases |replay| - n
    {
      if pending.None? && next.None? {
        if eof || pos == |replay| {
          break;
        }
        next := Some(replay[pos]);
        pos := pos + 1;
      }
      ghost var n0 := n;
      var block := NewBlock(|blocks|, maxSize, maxStreams);
      var last: Option<nat> := None;
      if pending.Some? {
        var x := pending.value;
        BlankAccepts(|blocks|, maxSize, maxStreams, x.record);
        SettleKept(records, ends0, n, blocks, block, ends);
        ends := ends[x.record.streamId := x.record.LastOffset()];
        last := Some(x.offset);
        block := PutBlock(block, x.record);
        pending, n := None, n + 1;
      }
      while !block.IsFull()
        invariant pending.None? && n0 <= n <= |replay|
        invariant pos == n + (if next.Some? then 1 else 0)
        invariant next.Some? ==> n < |replay| && next.value == replay[n]
        invariant next.Some? ==> block == NewBlock(|blocks|, maxSize, maxStreams)
        invariant next.Some? || n > n0
        invariant pos <= |replay| && (eof ==> pos == |replay|)
        invariant Settled(records, ends0, n, blocks, block, ends)
        decreases |replay| - n
      {
        var x: Entry;
        if next.Some? {
          x := next.value;
          next := None;
          BlankAccepts(|blocks|, maxSize, maxStreams, x.record);
        } else {
          if eof {
            break;
          }
          if pos == |replay| {
            eof := true;
            break;
          }
          x := replay[pos];
          pos := pos + 1;
        }
        if !Keep(ends, x.record) {
          SettleDropped(records, ends0, n, blocks, block, ends);
        } else if Accepts(block, x.record) {
          SettleKept(records, ends0, n, blocks, block, ends);
          block := PutBlock(block, x.record);
          ends := ends[x.record.streamId := x.record.LastOffset()];
        } else {
          SettleRefused(records, ends0, n, blocks, block, ends);
          RefusedFull(block, x.record);
          block := PutBlock(block, x.record);
          pending := Some(x);
          break;
        }
        last := Some(x.offset);
        n := n + 1;
      }
      if last.Some? {
        LastIrrelevant(records, ends0, n, blocks, block, last, ends);
        block := block.(last := last);
      }
      SettleBlock(records, ends0, n, |blocks| + 1, maxSize, maxStreams, blocks, block, ends);
      HandedPush(records, ends0, blocks, cuts, block, n, NewBlock(|blocks| + 1, maxSize, maxStreams), ends);
      blocks, cuts := blocks + [block], cuts + [n];
      blank := NewBlock(|blocks|, maxSize, maxStreams);
    }
    SettledAll(records, ends0, blocks, blank, ends);
  }

  /** A block that refuses a record takes no further one. */
  lemma RefusedFull(b: Block, x: Record)
    requires !Accepts(b, x)
    ensures PutBlock(b, x).IsFull()
  {
  }

  lemma NothingHanded(replay: seq<Record>, ends0: map<nat, nat>)
    ensures Handed(replay, ends0, [], [])
  {
  }

  lemma SettledStart(replay: seq<Record>, ends0: map<nat, nat>, maxSize: nat, maxStreams: nat)
    ensures Settled(replay, ends0, 0, [], NewBlock(0, maxSize, maxStreams), ends0)
  {
  }

  lemma SettledAll(replay: seq<Record>, ends0: map<nat, nat>, blocks: seq<Block>, blank: Block, ends: map<nat, nat>)
    requires Settled(replay, ends0, |replay|, blocks, blank, ends) && blank.streams == map[]
    ensures ends == Fold(replay, ends0).ends
    ensures forall s :: ListOf(blocks, s) == OfStream(Fold(replay, ends0).kept, s)
  {
    hide Fold, OfStream, ListOf;
    assert replay[..|replay|] == replay;
    forall s ensures ListOf(blocks, s) == OfStream(Fold(replay, ends0).kept, s) {
      assert blank.Of(s) == [];
    }
  }
}
