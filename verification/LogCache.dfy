/** The delta-WAL cache: every run of its operations, and the cache object itself. */
module LogCache {
  import opened Records
  import opened CacheBlocks
  import opened CacheReads
  import opened CacheSteps

  // ---- Runs ----------------------------------------------------------------------------------

  /** A cache together with the blocks its users have marked free so far. */
  datatype Trace = Trace(cache: Cache, marked: set<nat>)

  /** Operations at lock granularity; a merge pass is a series of `MergeOne` steps. */
  datatype Op =
    | PutOp(record: Record)
    | ArchiveOp
    | MarkOp(id: nat)
    | FreeOp
    | MergeOne(i: nat)
    | ReadOp(blocks: seq<Block>)
    | SetLast(offset: nat)

  predicate Enabled(cfg: Config, t: Trace, op: Op)
    requires t.cache.blocks != []
  {
    var c := t.cache;
    match op
    case PutOp(record) => CanPut(c, record)
    case MarkOp(id) => id != Active(c).id && id < c.nextId
    case FreeOp => c.size == SumSizes(c.blocks)
    case MergeOne(i) => Mergeable(cfg, c, i)
    case ReadOp(blocks) => SameBlocks(c.blocks, blocks) && BlocksOk(blocks)
    case _ => true
  }

  function Apply(cfg: Config, t: Trace, op: Op): Trace
    requires t.cache.blocks != [] && Enabled(cfg, t, op)
  {
    var c := t.cache;
    match op
    case PutOp(record) => t.(cache := PutActive(c, record))
    case ArchiveOp => t.(cache := Archive(cfg, c))
    case MarkOp(id) => Trace(Mark(c, id), t.marked + {id})
    case FreeOp => t.(cache := FreePrefix(cfg, c))
    case MergeOne(i) => t.(cache := MergeAt(c, i))
    case ReadOp(blocks) => t.(cache := c.(blocks := blocks))
    case SetLast(o) => t.(cache := c.(last := Some(o)))
  }

  ghost predicate Step(cfg: Config, t: Trace, t': Trace) {
    t.cache.blocks != [] && exists op :: Enabled(cfg, t, op) && Apply(cfg, t, op) == t'
  }

  ghost predicate IsRun(cfg: Config, run: seq<Trace>) {
    && run != [] && run[0] == Trace(Init(cfg), {})
    && forall i :: 0 < i < |run| ==> Step(cfg, run[i - 1], run[i])
  }

  lemma InitInv(cfg: Config)
    ensures Inv(Init(cfg))
  {
    var c := Init(cfg);
    forall s ensures Ordered(ListOf(c.blocks, s)) {
      ListOne(c.blocks[0], s);
    }
    SumOne(c.blocks[0]);
  }

  lemma StepKeepsInv(cfg: Config, t: Trace, op: Op)
    requires Inv(t.cache) && Enabled(cfg, t, op)
    ensures Inv(Apply(cfg, t, op).cache)
  {
    match op
    case PutOp(record) => PutKeeps(t.cache, record);
    case ArchiveOp => ArchiveKeeps(cfg, t.cache);
    case MarkOp(id) => MarkKeeps(t.cache, id);
    case FreeOp => var _ := FreeKeeps(cfg, t.cache);
    case MergeOne(i) => MergeKeeps(cfg, t.cache, i);
    case ReadOp(blocks) => ReadKeeps(t.cache, blocks);
    case SetLast(o) =>
  }

  /** In every run the cache size is the sum of its blocks and the active block is in use. */
  lemma {:induction false} RunInv(cfg: Config, run: seq<Trace>, n: nat)
    requires IsRun(cfg, run) && n < |run|
    ensures Inv(run[n].cache)
  {
    hide Inv, Enabled, Apply;
    if n == 0 {
      InitInv(cfg);
    } else {
      RunInv(cfg, run, n - 1);
      assert Step(cfg, run[n - 1], run[n]);
      var op :| Enabled(cfg, run[n - 1], op) && Apply(cfg, run[n - 1], op) == run[n];
      StepKeepsInv(cfg, run[n - 1], op);
    }
  }

  // ---- A record stays readable until its block is marked free ----------------------------------

  /** Block `id` is in use and holds the record. */
  ghost predicate Holds(blocks: seq<Block>, id: nat, s: nat, x: Record) {
    exists i :: 0 <= i < |blocks| && HoldsAt(blocks[i], id, s, x)
  }

  predicate HoldsAt(b: Block, id: nat, s: nat, x: Record) {
    b.id == id && !b.free && x in b.Of(s)
  }

  lemma PutHolds(c: Cache, record: Record, id: nat, s: nat, x: Record)
    requires Inv(c) && CanPut(c, record) && Holds(c.blocks, id, s, x)
    ensures Holds(PutActive(c, record).blocks, id, s, x)
  {
    hide Inv, Accepts, PutBlock, Lists, CanPut;
    assert BlockOk(Active(c)) && Continues(Active(c), record) by { PutNeeds(c, record); }
    PutBlockOk(Active(c), record);
    PutFields(Active(c), record);
    var i :| 0 <= i < |c.blocks| && HoldsAt(c.blocks[i], id, s, x);
    assert HoldsAt(PutActive(c, record).blocks[i], id, s, x);
  }

  lemma PutNeeds(c: Cache, record: Record)
    requires Inv(c) && CanPut(c, record)
    ensures BlockOk(Active(c)) && Continues(Active(c), record)
  {
  }

  lemma FreeHolds(cfg: Config, c: Cache, id: nat, s: nat, x: Record)
    requires Inv(c) && Holds(c.blocks, id, s, x)
    ensures Holds(FreePrefix(cfg, c).blocks, id, s, x)
  {
    hide Inv, FreePrefix;
    assert c.size == SumSizes(c.blocks) by { InvSize(c); }
    var k := FreeKeeps(cfg, c);
    var i :| 0 <= i < |c.blocks| && HoldsAt(c.blocks[i], id, s, x);
    assert FreePrefix(cfg, c).blocks[i - k] == c.blocks[i];
  }

  lemma MergeHolds(cfg: Config, c: Cache, j: nat, id: nat, s: nat, x: Record)
    requires Mergeable(cfg, c, j) && Holds(c.blocks, id, s, x)
    ensures Holds(MergeAt(c, j).blocks, id, s, x)
  {
    hide Merged, Discontinuous;
    var i :| 0 <= i < |c.blocks| && HoldsAt(c.blocks[i], id, s, x);
    var i' := if i < j then i else i - 1;
    assert MergeAt(c, j).blocks[i'] == c.blocks[i];
  }

  lemma StepHolds(cfg: Config, t: Trace, op: Op, id: nat, s: nat, x: Record)
    requires Inv(t.cache) && Enabled(cfg, t, op)
    requires Holds(t.cache.blocks, id, s, x) && id !in Apply(cfg, t, op).marked
    ensures Holds(Apply(cfg, t, op).cache.blocks, id, s, x)
  {
    hide Inv, Holds, CanPut, Mergeable, FreePrefix, MergeAt, PutActive, Archive, Mark, SameBlocks;
    var c := t.cache;
    InvNonempty(c);
    match op
    case PutOp(record) => PutHolds(c, record, id, s, x);
    case ArchiveOp => ArchiveHolds(cfg, c, id, s, x);
    case MarkOp(other) => MarkHolds(c, other, id, s, x);
    case FreeOp => FreeHolds(cfg, c, id, s, x);
    case MergeOne(j) => MergeHolds(cfg, c, j, id, s, x);
    case ReadOp(blocks) => ReadHolds(c.blocks, blocks, id, s, x);
    case SetLast(_) =>
  }

  lemma ArchiveHolds(cfg: Config, c: Cache, id: nat, s: nat, x: Record)
    requires c.blocks != [] && Holds(c.blocks, id, s, x)
    ensures Holds(Archive(cfg, c).blocks, id, s, x)
  {
    var i :| 0 <= i < |c.blocks| && HoldsAt(c.blocks[i], id, s, x);
    assert HoldsAt(Archive(cfg, c).blocks[i], id, s, x);
  }

  lemma MarkHolds(c: Cache, other: nat, id: nat, s: nat, x: Record)
    requires other != id && Holds(c.blocks, id, s, x)
    ensures Holds(Mark(c, other).blocks, id, s, x)
  {
    var i :| 0 <= i < |c.blocks| && HoldsAt(c.blocks[i], id, s, x);
    assert HoldsAt(Mark(c, other).blocks[i], id, s, x);
  }

  lemma ReadHolds(a: seq<Block>, b: seq<Block>, id: nat, s: nat, x: Record)
    requires SameBlocks(a, b) && Holds(a, id, s, x)
    ensures Holds(b, id, s, x)
  {
    var i :| 0 <= i < |a| && HoldsAt(a[i], id, s, x);
    assert SameBlock(a[i], b[i]);
    assert HoldsAt(b[i], id, s, x);
  }

  lemma StepMarks(cfg: Config, t: Trace, op: Op)
    requires t.cache.blocks != [] && Enabled(cfg, t, op)
    ensures t.marked <= Apply(cfg, t, op).marked
  {
  }

  lemma {:induction false} RunHolds(cfg: Config, run: seq<Trace>, m: nat, n: nat, id: nat, s: nat, x: Record)
    requires IsRun(cfg, run) && m <= n < |run|
    requires Holds(run[m].cache.blocks, id, s, x) && id !in run[n].marked
    ensures Holds(run[n].cache.blocks, id, s, x)
    decreases n - m
  {
    hide Inv, Enabled, Apply, Holds;
    if m < n {
      assert Step(cfg, run[n - 1], run[n]);
      var op :| Enabled(cfg, run[n - 1], op) && Apply(cfg, run[n - 1], op) == run[n];
      StepMarks(cfg, run[n - 1], op);
      RunHolds(cfg, run, m, n - 1, id, s, x);
      RunInv(cfg, run, n - 1);
      StepHolds(cfg, run[n - 1], op, id, s, x);
    }
  }

  lemma InList(blocks: seq<Block>, i: nat, s: nat, x: Record) returns (k: nat)
    requires i < |blocks| && x in blocks[i].Of(s)
    ensures k < |ListOf(blocks, s)| && ListOf(blocks, s)[k] == x
  {
    ListSplit(blocks, i, s);
    var j :| 0 <= j < |blocks[i].Of(s)| && blocks[i].Of(s)[j] == x;
    k := |ListOf(blocks[..i], s)| + j;
  }

  /**
   * However puts, reads, seals, merges and frees interleave, a record is served by the cache until
   * the block that received it is marked free.
   */
  lemma ReadableUntilFreed(cfg: Config, run: seq<Trace>, m: nat, n: nat, id: nat, s: nat, x: Record, max: nat)
    requires IsRun(cfg, run) && m <= n < |run|
    requires Holds(run[m].cache.blocks, id, s, x) && id !in run[n].marked
    ensures PlainGet(ListOf(run[n].cache.blocks, s), x.baseOffset, x.LastOffset(), max) == [x]
  {
    hide IsRun, PlainGet, ListOf, Ordered;
    RunHolds(cfg, run, m, n, id, s, x);
    RunInv(cfg, run, n);
    var blocks := run[n].cache.blocks;
    var i :| 0 <= i < |blocks| && HoldsAt(blocks[i], id, s, x);
    var k := InList(blocks, i, s, x);
    assert Lists(blocks);
    RecordIsServed(ListOf(blocks, s), k, max);
  }

  // ---- The cache object ------------------------------------------------------------------------

  class LogCache {
    const cfg: Config
    var blocks: seq<Block>
    var size: nat
    var last: Option<nat>
    var nextId: nat

    function State(): Cache
      reads this
    {
      Cache(blocks, size, last, nextId)
    }

    ghost predicate Valid()
      reads this
    {
      Inv(State())
    }

    constructor (capacity: nat, blockMaxSize: nat, blockMaxStreams: nat)
      ensures Valid() && State() == Init(Config(capacity, blockMaxSize, blockMaxStreams))
    {
      cfg := Config(capacity, blockMaxSize, blockMaxStreams);
      blocks := [NewBlock(0, blockMaxSize, blockMaxStreams)];
      size, last, nextId := 0, None, 1;
      new;
      InitInv(cfg);
    }

    method TryRealFree()
      requires Valid()
      modifies this`blocks, this`size
      ensures Valid() && State() == FreePrefix(cfg, old(State()))
    {
      hide SumSizes, Inv;
      assert size == SumSizes(blocks) && blocks != [] by { InvSize(State()); InvNonempty(State()); }
      var _ := FreeKeeps(cfg, State());
      if !Over(cfg, size, |blocks|) {
        return;
      }
      var current, freed := size, 0;
      while blocks != []
        invariant freed <= current && current - freed == SumSizes(blocks)
        invariant size == current
        invariant FreePrefix(cfg, old(State())) == FreePrefix(cfg, State().(size := current - freed))
        decreases |blocks|
      {
        SumFirst(blocks);
        if !Over(cfg, current - freed, |blocks|) {
          break;
        }
        if !blocks[0].free {
          break;
        }
        freed := freed + blocks[0].size;
        blocks := blocks[1..];
      }
      size := size - freed;
    }

    /** A put first releases freed blocks if the cache is over its limits. */
    method Put(record: Record) returns (added: bool)
      requires Valid() && CanPut(State(), record)
      modifies this`blocks, this`size
      ensures Valid() && FreePrefix(cfg, old(State())).blocks != []
      ensures added == Accepts(Active(FreePrefix(cfg, old(State()))), record)
      ensures State() == PutActive(FreePrefix(cfg, old(State())), record)
    {
      hide SumSizes, FreePrefix, Accepts, Ordered, ListOf;
      FreeKeepsCanPut(cfg, State(), record);
      TryRealFree();
      PutKeeps(State(), record);
      var n := |blocks|;
      added := Accepts(blocks[n - 1], record);
      blocks := blocks[n - 1 := PutBlock(blocks[n - 1], record)];
      if added {
        size := size + record.OccupiedSize();
      }
    }

    /** A read answers from the plain list, whatever the block boundaries and the hints are. */
    method Get(s: nat, start: nat, end: nat, max: nat) returns (r: seq<Record>)
      requires Valid()
      modifies this`blocks
      ensures Valid() && SameBlocks(old(blocks), blocks)
      ensures r == PlainGet(ListOf(old(blocks), s), start, end, max)
      decreases TailGap(ListOf(blocks, s), start)
    {
      hide Inv, Serve, TailIndex, PlainGet, SameBlocks, TailGap;
      ghost var list := ListOf(blocks, s);
      var fulfilled;
      InvList(State(), s);
      InvBlocks(State());
      blocks, fulfilled, r := ScanBlocks(blocks, s, start, end, max);
      ReadKeeps(old(State()), blocks);
      SameLists(old(blocks), blocks, s);
      if fulfilled {
        PlainServed(list, start, end, max);
        return;
      }
      var tail := TailStart(s);
      PlainTail(list, start, end, max);
      if tail.None? || tail.value >= end || tail.value <= start {
        r := [];
      } else {
        ghost var mid := blocks;
        TailGapShrinks(list, start);
        r := Get(s, tail.value, end, max);
        SameTrans(old(blocks), mid, blocks);
      }
    }

    /** Second pass: walks the blocks backwards to the start of the longest gap-free tail. */
    method TailStart(s: nat) returns (tail: Option<nat>)
      requires Valid()
      ensures var list := ListOf(blocks, s);
              tail == if list == [] then None else Some(list[TailIndex(list)].baseOffset)
    {
      hide Inv, TailIndex, ListOf, Contiguous;
      InvBlocks(State());
      tail := None;
      var k := |blocks|;
      assert blocks[k..] == [] && ListOf(blocks[k..], s) == [] by { ListNone(s); }
      ghost var run: seq<Record> := [];
      assert Contiguous(run) by { ContiguousNone(); }
      while k > 0
        invariant 0 <= k <= |blocks|
        invariant run == ListOf(blocks[k..], s) && Contiguous(run)
        invariant tail == if run == [] then None else Some(run[0].baseOffset)
      {
        k := k - 1;
        var c := blocks[k].Cached(s);
        BlockContiguous(blocks[k], s);
        TailSplit(blocks, k, s);
        if c.start.None? || c.end.None? {
          assert blocks[k].Of(s) == [];
          assert blocks[k].Of(s) + run == run;
          run := ListOf(blocks[k..], s);
          continue;
        }
        if tail.None? || tail.value == c.end.value {
          tail := c.start;
          JoinContiguous(blocks[k].Of(s), run);
          run := ListOf(blocks[k..], s);
        } else {
          TailBroken(blocks, k, s, run);
          return;
        }
      }
      assert blocks[0..] == blocks;
      if run != [] {
        assert run[0..] == run;
        TailIndexIs(run, 0);
      }
    }

    method ArchiveCurrentBlock() returns (id: nat)
      requires Valid()
      modifies this`blocks, this`nextId
      ensures Valid() && State() == Archive(cfg, old(State())) && id == Active(old(State())).id
    {
      ArchiveKeeps(cfg, State());
      var n := |blocks|;
      id := blocks[n - 1].id;
      var sealed := blocks[n - 1];
      if last.Some? {
        sealed := sealed.(last := last);
      }
      blocks := blocks[n - 1 := sealed] + [NewBlock(nextId, cfg.blockMaxSize, cfg.blockMaxStreams)];
      nextId := nextId + 1;
    }

    /** Marks a sealed block reclaimable, then frees and merges; every stream's remaining list is a
        suffix of what it was. */
    method MarkFree(id: nat)
      requires Valid() && id != Active(State()).id
      modifies this`blocks, this`size, this`nextId
      ensures forall s :: IsSuffix(ListOf(blocks, s), ListOf(old(blocks), s))
      ensures Valid() && Mark(old(State()), id).size == SumSizes(Mark(old(State()), id).blocks)
      ensures State() == MergeFrom(cfg, FreePrefix(cfg, Mark(old(State()), id)), 0)
    {
      hide FreePrefix, MergeFrom, Mark, SumSizes, Lists, Ids, ListOf, IsSuffix;
      MarkSuffix(cfg, State(), id);
      MarkKeeps(State(), id);
      blocks := Mark(State(), id).blocks;
      MarkBlocksOnly(old(State()), id);
      InvSize(State());
      TryRealFree();
      TryMerge();
    }

    method TryMerge()
      requires Valid()
      modifies this`blocks, this`nextId
      ensures Valid() && State() == MergeFrom(cfg, old(State()), 0)
    {
      hide Inv, Merged, Discontinuous, MergeAt;
      var i := 0;
      while true
        invariant Valid() && size == old(size) && last == old(last)
        invariant MergeFrom(cfg, old(State()), 0) == MergeFrom(cfg, State(), i)
        decreases |blocks| - i
      {
        if |blocks| <= MERGE_BLOCK_THRESHOLD || i + 1 >= |blocks| {
          return;
        }
        var left, right := blocks[i], blocks[i + 1];
        if !left.free || !right.free {
          return;
        }
        if left.size + right.size >= cfg.blockMaxSize {
          i := i + 1;
          continue;
        }
        var broken := IsDiscontinuous(left, right);
        if broken {
          i := i + 1;
          continue;
        }
        MergeKeeps(cfg, State(), i);
        MergeAtFields(State(), i);
        var merged := MergeBlock(NewBlock(nextId, U64_MAX, DEFAULT_MAX_BLOCK_STREAM_COUNT), left);
        merged := MergeBlock(merged, right);
        merged := merged.(free := true);
        assert merged == Merged(left, right, nextId) by { MergedIs(left, right, nextId); }
        blocks := blocks[..i] + [merged] + blocks[i + 2..];
        nextId := nextId + 1;
      }
    }
  }

  // ---- Facts the object's methods use ----------------------------------------------------------

  lemma InvNonempty(c: Cache)
    requires Inv(c)
    ensures c.blocks != []
  {
  }

  lemma SumFirst(blocks: seq<Block>)
    requires blocks != []
    ensures SumSizes(blocks) == blocks[0].size + SumSizes(blocks[1..])
  {
  }

  lemma InvList(c: Cache, s: nat)
    requires Inv(c)
    ensures Ordered(ListOf(c.blocks, s))
  {
  }

  lemma BlockContiguous(b: Block, s: nat)
    requires BlockOk(b)
    ensures CacheOk(b.Cached(s)) && Contiguous(b.Of(s))
  {
  }

  lemma ScanBegins(list: seq<Record>, start: nat, end: nat, max: nat)
    ensures Scan(list, 0, start, end, max, [], start, max, 0, 0)
  {
  }

  lemma SameRefl(blocks: seq<Block>)
    ensures SameBlocks(blocks, blocks)
  {
  }

  lemma SameTrans(a: seq<Block>, b: seq<Block>, c: seq<Block>)
    requires SameBlocks(a, b) && SameBlocks(b, c)
    ensures SameBlocks(a, c)
  {
    forall i | 0 <= i < |a| ensures SameBlock(a[i], c[i]) {
      assert SameBlock(a[i], b[i]) && SameBlock(b[i], c[i]);
    }
  }

  lemma SameUpdate(a: seq<Block>, b: seq<Block>, k: nat, x: Block)
    requires SameBlocks(a, b) && k < |a| && SameBlock(a[k], x)
    ensures SameBlocks(a, b[k := x])
  {
  }

  lemma PieceEmpty(own: seq<Record>, next: nat, end: nat, rem: nat)
    ensures BlockRead(own, next, end, rem) == [] <==> Cover(own, next).None?
  {
  }

  /** How far the longest tail lies beyond the start: what the second attempt uses up. */
  ghost function TailGap(list: seq<Record>, start: nat): nat {
    if list == [] then 0
    else if list[TailIndex(list)].baseOffset > start then list[TailIndex(list)].baseOffset - start else 0
  }

  lemma TailGapShrinks(list: seq<Record>, start: nat)
    requires list != [] && list[TailIndex(list)].baseOffset > start
    ensures TailGap(list, list[TailIndex(list)].baseOffset) < TailGap(list, start)
  {
  }

  lemma PlainServed(list: seq<Record>, start: nat, end: nat, max: nat)
    requires Serve(list, start, end, max).Some?
    ensures PlainGet(list, start, end, max) == Serve(list, start, end, max).value
  {
  }

  /** An unfulfilled read is the read of the longest tail, when that begins inside the range. */
  lemma PlainTail(list: seq<Record>, start: nat, end: nat, max: nat)
    requires Serve(list, start, end, max).None?
    ensures PlainGet(list, start, end, max)
         == if list == [] then []
            else
              var tail := list[TailIndex(list)].baseOffset;
              if tail >= end || tail <= start then [] else PlainGet(list, tail, end, max)
  {
  }

  lemma TailSplit(blocks: seq<Block>, k: nat, s: nat)
    requires k < |blocks|
    ensures ListOf(blocks[k..], s) == blocks[k].Of(s) + ListOf(blocks[k + 1..], s)
  {
    hide ListOf;
    assert blocks[k..] == [blocks[k]] + blocks[k + 1..];
    ListConcat([blocks[k]], blocks[k + 1..], s);
    ListOne(blocks[k], s);
  }

  lemma TailBroken(blocks: seq<Block>, k: nat, s: nat, run: seq<Record>)
    requires k < |blocks| && run == ListOf(blocks[k + 1..], s) && run != [] && Contiguous(run)
    requires blocks[k].Of(s) != []
    requires run[0].baseOffset != blocks[k].Of(s)[|blocks[k].Of(s)| - 1].LastOffset()
    ensures ListOf(blocks, s) != []
    ensures ListOf(blocks, s)[TailIndex(ListOf(blocks, s))] == run[0]
  {
    hide ListOf, Contiguous, TailIndex;
    ListSplit(blocks, k, s);
    var head := ListOf(blocks[..k], s) + blocks[k].Of(s);
    var list := ListOf(blocks, s);
    assert list == head + run && list[|head|..] == run;
    assert list[|head| - 1] == blocks[k].Of(s)[|blocks[k].Of(s)| - 1];
    TailIndexIs(list, |head|);
  }

  predicate IsSuffix(a: seq<Record>, b: seq<Record>) {
    |a| <= |b| && b[|b| - |a|..] == a
  }

  /** Freeing drops whole blocks from the front, and merging changes no list. */
  lemma MarkSuffix(cfg: Config, c: Cache, id: nat)
    requires Inv(c) && id != Active(c).id
    ensures Mark(c, id).size == SumSizes(Mark(c, id).blocks)
    ensures forall s :: IsSuffix(ListOf(MergeFrom(cfg, FreePrefix(cfg, Mark(c, id)), 0).blocks, s), ListOf(c.blocks, s))
  {
    hide Inv, FreePrefix, MergeFrom, Mark, ListOf;
    var marked := Mark(c, id);
    MarkKeeps(c, id);
    InvSize(marked);
    var k := FreeKeeps(cfg, marked);
    forall s ensures IsSuffix(ListOf(MergeFrom(cfg, FreePrefix(cfg, marked), 0).blocks, s), ListOf(c.blocks, s)) {
      MarkList(c, id, s);
      MergePass(cfg, FreePrefix(cfg, marked), 0, s);
    }
  }

  lemma MarkBlocksOnly(c: Cache, id: nat)
    ensures Mark(c, id) == c.(blocks := Mark(c, id).blocks)
  {
  }

  lemma MergedIs(left: Block, right: Block, id: nat)
    ensures Merged(left, right, id)
         == Absorb(Absorb(NewBlock(id, U64_MAX, DEFAULT_MAX_BLOCK_STREAM_COUNT), left), right).(free := true)
  {
  }

  lemma MergeAtFields(c: Cache, i: nat)
    requires i + 1 < |c.blocks|
    ensures MergeAt(c, i)
         == c.(blocks := c.blocks[..i] + [Merged(c.blocks[i], c.blocks[i + 1], c.nextId)] + c.blocks[i + 2..],
               nextId := c.nextId + 1)
  {
  }

  /** First pass of a read: the covering run, block by block. Reading leaves new hints. */
  method ScanBlocks(entry: seq<Block>, s: nat, start: nat, end: nat, max: nat)
    returns (blocks: seq<Block>, fulfilled: bool, r: seq<Record>)
    requires BlocksOk(entry) && Ordered(ListOf(entry, s))
    ensures BlocksOk(blocks) && SameBlocks(entry, blocks)
    ensures Serve(ListOf(entry, s), start, end, max) == if fulfilled then Some(r) else None
  {
    hide Serve, Ordered, Contiguous, Scan, SameBlocks, ListOf, BlockRead, SameBlock, BlockOk, Bytes;
    ghost var list := ListOf(entry, s);
    SameRefl(entry);
    blocks, r := entry, [];
    var next: nat, rem: nat := start, max;
    ghost var i: nat, j: nat := 0, 0;
    ScanBegins(list, start, end, max);
    var k := 0;
    assert ListOf(entry[..0], s) == [] by { ListNone(s); }
    while k < |blocks|
      invariant 0 <= k <= |blocks| == |entry|
      invariant BlocksOk(blocks) && SameBlocks(entry, blocks)
      invariant forall m :: k <= m < |entry| ==> blocks[m] == entry[m]
      invariant Scan(list, |ListOf(entry[..k], s)|, start, end, max, r, next, rem, i, j)
    {
      ListSplit(entry, k, s);
      ghost var a, own, rest := ListOf(entry[..k], s), entry[k].Of(s), ListOf(entry[k + 1..], s);
      BlockContiguous(entry[k], s);
      var b, piece := BlockGet(blocks[k], s, next, end, rem);
      SameUpdate(entry, blocks, k, b);
      blocks := blocks[k := b];
      k := k + 1;
      PieceEmpty(own, next, end, rem);
      if piece == [] {
        ScanSkip(a, own, rest, start, end, max, r, next, rem, i, j);
        continue;
      }
      i, j := ScanTake(a, own, rest, start, end, max, r, next, rem, i, j);
      next := piece[|piece| - 1].LastOffset();
      rem := Remaining(rem, Bytes(piece));
      r := r + piece;
      if next >= end || rem == 0 {
        return blocks, true, r;
      }
    }
    assert entry[..k] == entry;
    ScanDone(list, start, end, max, r, next, rem, i, j);
    return blocks, false, [];
  }

  /** Looks for a stream whose two parts do not meet. */
  method IsDiscontinuous(left: Block, right: Block) returns (broken: bool)
    ensures broken == Discontinuous(left, right)
  {
    var todo := left.streams.Keys;
    while todo != {}
      invariant todo <= left.streams.Keys
      invariant forall s :: s in left.streams && s !in todo && s in right.streams ==>
                  left.streams[s].end == right.streams[s].start
      decreases |todo|
    {
      var s :| s in todo;
      todo := todo - {s};
      if s in right.streams && left.streams[s].end != right.streams[s].start {
        return true;
      }
    }
    return false;
  }

  lemma ContiguousNone()
    ensures Contiguous([])
  {
  }

  lemma AbsorbIs(merged: Block, source: Block, streams: map<nat, StreamCache>)
    requires Absorbing(merged, source, streams, {})
    ensures Absorb(merged, source)
         == merged.(size := merged.size + source.size, streams := streams,
                    last := if source.last.Some? then source.last else merged.last)
  {
    hide AbsorbCache;
    assert streams == map s | s in merged.streams.Keys + source.streams.Keys :: AbsorbCache(merged, source, s);
  }

  /** The streams of `todo` are still to be appended. */
  ghost predicate Absorbing(merged: Block, source: Block, streams: map<nat, StreamCache>, todo: set<nat>) {
    && todo <= source.streams.Keys
    && streams.Keys == merged.streams.Keys + (source.streams.Keys - todo)
    && forall s :: s in streams ==>
         streams[s] == if s in todo then merged.streams[s] else AbsorbCache(merged, source, s)
  }

  function AppendStream(streams: map<nat, StreamCache>, s: nat, from: StreamCache): map<nat, StreamCache> {
    if s in streams
    then streams[s := StreamCache(streams[s].records + from.records, streams[s].start, from.end, map[])]
    else streams[s := from.(hints := map[])]
  }

  lemma AbsorbOne(merged: Block, source: Block, streams: map<nat, StreamCache>, todo: set<nat>, s: nat)
    requires Absorbing(merged, source, streams, todo) && s in todo
    ensures Absorbing(merged, source, AppendStream(streams, s, source.streams[s]), todo - {s})
  {
    var streams' := AppendStream(streams, s, source.streams[s]);
    assert streams'[s] == AbsorbCache(merged, source, s);
    assert forall t :: t in streams' && t != s ==> t in streams && streams'[t] == streams[t];
  }

  /** Appends a block's streams one by one. */
  method MergeBlock(merged: Block, source: Block) returns (m: Block)
    ensures m == Absorb(merged, source)
  {
    hide Absorb, AppendStream, AbsorbCache, Absorbing;
    var streams, todo := merged.streams, source.streams.Keys;
    AbsorbStart(merged, source);
    while todo != {}
      invariant Absorbing(merged, source, streams, todo)
      decreases |todo|
    {
      var s :| s in todo;
      AbsorbOne(merged, source, streams, todo, s);
      assert s in source.streams by { AbsorbingIn(merged, source, streams, todo, s); }
      streams := AppendStream(streams, s, source.streams[s]);
      todo := todo - {s};
    }
    AbsorbIs(merged, source, streams);
    m := merged.(size := merged.size + source.size, streams := streams,
                 last := if source.last.Some? then source.last else merged.last);
  }

  lemma AbsorbStart(merged: Block, source: Block)
    ensures Absorbing(merged, source, merged.streams, source.streams.Keys)
  {
  }

  lemma AbsorbingIn(merged: Block, source: Block, streams: map<nat, StreamCache>, todo: set<nat>, s: nat)
    requires Absorbing(merged, source, streams, todo) && s in todo
    ensures s in source.streams
  {
  }
}
