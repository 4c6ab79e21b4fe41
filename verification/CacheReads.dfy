/** Reading one stream inside a block, and scanning blocks; each agrees with the plain list. */
module CacheReads {
  import opened Records
  import opened CacheBlocks

  lemma {:induction false} ContiguousSpan(list: seq<Record>, i: nat, j: nat)
    requires Contiguous(list) && Positive(list) && i < j < |list|
    ensures list[i].LastOffset() <= list[j].baseOffset
    decreases j - i
  {
    if i + 1 < j {
      ContiguousSpan(list, i, j - 1);
    }
  }

  lemma ContiguousOrdered(list: seq<Record>)
    requires Contiguous(list) && Positive(list)
    ensures Ordered(list)
  {
    forall i: nat, j: nat | i < j < |list| ensures list[i].LastOffset() <= list[j].baseOffset {
      ContiguousSpan(list, i, j);
    }
  }

  /** Used hints are consumed; a hint is found before any search. */
  method SearchStartIndex(c: StreamCache, start: nat) returns (c': StreamCache, i: Option<nat>)
    requires CacheOk(c)
    ensures CacheOk(c') && c'.(hints := c.hints) == c
    ensures i == if start in c.hints then Some(c.hints[start].index) else Cover(c.records, start)
  {
    hide CacheOk;
    if start in c.hints {
      var h := c.hints[start];
      HintTaken(c, start);
      if h.uses <= 1 {
        c' := c.(hints := c.hints - {start});
      } else {
        c' := c.(hints := c.hints[start := Hint(h.index, h.uses - 1)]);
      }
      return c', Some(h.index);
    }
    CacheOrdered(c);
    c' := c;
    var lo, hi := 0, |c.records|;
    while lo < hi
      invariant 0 <= lo <= hi <= |c.records|
      invariant forall k :: 0 <= k < lo ==> c.records[k].LastOffset() <= start
      invariant forall k :: hi <= k < |c.records| ==> start < c.records[k].baseOffset
    {
      var mid := (lo + hi) / 2;
      var record := c.records[mid];
      if start < record.baseOffset {
        hi := mid;
      } else if start >= record.LastOffset() {
        lo := mid + 1;
      } else {
        CoverUnique(c.records, start, mid);
        return c', Some(mid);
      }
    }
    return c', None;
  }

  /** Using up a hint, or one of its uses, leaves the others valid. */
  lemma HintTaken(c: StreamCache, start: nat)
    requires CacheOk(c) && start in c.hints
    ensures CacheOk(c.(hints := c.hints - {start}))
    ensures c.hints[start].uses > 1 ==>
              CacheOk(c.(hints := c.hints[start := Hint(c.hints[start].index, c.hints[start].uses - 1)]))
  {
    hide Contiguous, Positive;
  }

  lemma CacheOrdered(c: StreamCache)
    requires CacheOk(c)
    ensures Ordered(c.records)
  {
    hide Contiguous, Positive, HintsOk;
    ContiguousOrdered(c.records);
  }

  /** What one block serves: the run from the covering record. */
  function BlockRead(records: seq<Record>, start: nat, end: nat, max: nat): seq<Record> {
    var i := Cover(records, start);
    if i.None? then [] else records[i.value..TakeRun(records, i.value, end, max).stop]
  }

  /** Inside the cached range a hint names the covering record. */
  lemma HintCovers(c: StreamCache, start: nat)
    requires CacheOk(c) && start in c.hints && c.end.Some? && start < c.end.value
    ensures c.hints[start].index < |c.records|
    ensures Cover(c.records, start) == Some(c.hints[start].index)
  {
    var k := c.hints[start].index;
    assert HintOk(c.records, start, c.hints[start]);
    ContiguousOrdered(c.records);
    BaseIsCovered(c.records, k);
  }

  lemma RangeCovers(c: StreamCache, start: nat)
    requires CacheOk(c)
    ensures Cover(c.records, start).Some? <==> c.start.Some? && c.end.Some? && c.start.value <= start < c.end.value
  {
    ContiguousOrdered(c.records);
    if c.records != [] && c.start.value <= start < c.end.value {
      SomeCovers(c.records, start, |c.records| - 1);
    }
  }

  lemma {:induction false} SomeCovers(list: seq<Record>, start: nat, k: nat)
    requires Contiguous(list) && k < |list| && list[0].baseOffset <= start < list[k].LastOffset()
    ensures Cover(list, start).Some?
  {
    if start < list[k].baseOffset {
      SomeCovers(list, start, k - 1);
    } else {
      assert Covers(list[k], start);
    }
  }

  /** Walks the records from `i` until the end offset or the budget is reached. */
  method TakeFrom(records: seq<Record>, i: nat, end: nat, max: nat) returns (stop: nat)
    requires Contiguous(records) && i < |records|
    ensures stop == TakeRun(records, i, end, max).stop
  {
    stop := i;
    var rem := max;
    while stop < |records|
      invariant i <= stop <= |records|
      invariant stop == i ==> rem == max
      invariant stop < |records| ==> TakeRun(records, i, end, max) == TakeRun(records, stop, end, rem)
      invariant stop == |records| ==> TakeRun(records, i, end, max).stop == stop
    {
      var record := records[stop];
      stop := stop + 1;
      rem := Remaining(rem, record.Size());
      if record.LastOffset() >= end || rem == 0 {
        break;
      }
    }
  }

  /** Counts one more use of the hint behind record `stop - 1`. */
  function AddHint(c: StreamCache, stop: nat): StreamCache
    requires 1 <= stop <= |c.records|
  {
    var o := c.records[stop - 1].LastOffset();
    c.(hints := c.hints[o := Hint(stop, if o in c.hints then c.hints[o].uses + 1 else 1)])
  }

  lemma AddHintOk(c: StreamCache, stop: nat)
    requires CacheOk(c) && 1 <= stop <= |c.records|
    ensures CacheOk(AddHint(c, stop))
  {
  }

  /** The result does not depend on the hints that earlier reads left behind. */
  method StreamGet(c: StreamCache, start: nat, end: nat, max: nat) returns (c': StreamCache, r: seq<Record>)
    requires CacheOk(c)
    ensures CacheOk(c') && c'.(hints := c.hints) == c
    ensures r == BlockRead(c.records, start, end, max)
  {
    hide TakeRun, HintsOk, Positive, Contiguous;
    RangeCovers(c, start);
    if c.start.None? || c.end.None? {
      return c, [];
    }
    if c.start.value > start || c.end.value <= start {
      return c, [];
    }
    if start in c.hints {
      HintCovers(c, start);
    }
    var found: Option<nat>;
    c', found := SearchStartIndex(c, start);
    var i := found.value;
    var stop := TakeFrom(c.records, i, end, max);
    AddHintOk(c', stop);
    c' := AddHint(c', stop);
    r := c.records[i..stop];
  }

  /** Reads change hints and nothing else. */
  predicate SameBlock(a: Block, b: Block) {
    && a.(streams := b.streams) == b && a.streams.Keys == b.streams.Keys
    && forall s :: s in a.streams ==> SameCache(a.streams[s], b.streams[s])
  }

  predicate SameCache(a: StreamCache, b: StreamCache) {
    a.(hints := b.hints) == b
  }

  predicate SameBlocks(a: seq<Block>, b: seq<Block>) {
    |a| == |b| && forall i :: 0 <= i < |a| ==> SameBlock(a[i], b[i])
  }

  lemma SameLists(a: seq<Block>, b: seq<Block>, s: nat)
    requires SameBlocks(a, b)
    ensures ListOf(a, s) == ListOf(b, s)
  {
    forall i | 0 <= i < |a| ensures a[i].Of(s) == b[i].Of(s) {
      assert SameBlock(a[i], b[i]);
    }
    ListSame(a, b, s);
  }

  method BlockGet(b: Block, s: nat, start: nat, end: nat, max: nat) returns (b': Block, r: seq<Record>)
    requires BlockOk(b)
    ensures BlockOk(b') && SameBlock(b, b')
    ensures r == BlockRead(b.Of(s), start, end, max)
  {
    if s in b.streams {
      var c;
      c, r := StreamGet(b.streams[s], start, end, max);
      b' := b.(streams := b.streams[s := c]);
    } else {
      b', r := b, [];
    }
  }

  // ---- Scanning the blocks of one stream -----------------------------------------------------

  /** A run from `i` has taken everything up to `j` unfulfilled, with `rem` bytes of budget left. */
  ghost predicate Partial(list: seq<Record>, i: nat, end: nat, max: nat, j: nat, rem: nat) {
    && i < j <= |list|
    && TakeRun(list, i, end, max)
       == if j < |list| && list[j].baseOffset == list[j - 1].LastOffset()
          then TakeRun(list, j, end, rem) else Run(j, false)
  }

  /** A block's own run is the list's run as far as the block goes. */
  lemma {:induction false} Embed(a: seq<Record>, r: seq<Record>, rest: seq<Record>, i: nat, end: nat, max: nat)
    requires Contiguous(r) && i < |r|
    ensures var list, own := a + r + rest, TakeRun(r, i, end, max);
            && (own.fulfilled ==> TakeRun(list, |a| + i, end, max) == Run(|a| + own.stop, true))
            && (!own.fulfilled ==>
                  && own.stop == |r|
                  && Partial(list, |a| + i, end, max, |a| + |r|, Remaining(max, Bytes(r[i..]))))
    decreases |r| - i
  {
    var list := a + r + rest;
    var rem := Remaining(max, r[i].Size());
    assert list[|a| + i] == r[i];
    assert r[i..][1..] == r[i + 1..];
    if r[i].LastOffset() >= end || rem == 0 {
    } else if i + 1 == |r| {
      assert Bytes(r[i + 1..]) == 0;
    } else {
      assert list[|a| + i + 1] == r[i + 1];
      Embed(a, r, rest, i + 1, end, rem);
    }
  }

  /** The run's bytes account for the budget left. */
  lemma {:induction false} RunBudget(r: seq<Record>, i: nat, end: nat, max: nat)
    requires i < |r| && Contiguous(r)
    ensures var own := TakeRun(r, i, end, max);
            own.fulfilled <==> r[own.stop - 1].LastOffset() >= end || Remaining(max, Bytes(r[i..own.stop])) == 0
    decreases |r| - i
  {
    var own := TakeRun(r, i, end, max);
    var rem := Remaining(max, r[i].Size());
    assert r[i..own.stop][1..] == r[i + 1..own.stop];
    if r[i].LastOffset() >= end || rem == 0 || i + 1 == |r| {
      assert Bytes(r[i + 1..i + 1]) == 0;
    } else {
      RunBudget(r, i + 1, end, rem);
    }
  }

  /** Progress of the scan after the first `seen` records of the list. */
  ghost predicate Scan(list: seq<Record>, seen: nat, start: nat, end: nat, max: nat,
                       got: seq<Record>, next: nat, rem: nat, i: nat, j: nat)
  {
    && seen <= |list|
    && (got == [] ==>
          next == start && rem == max && forall k :: 0 <= k < seen ==> !Covers(list[k], start))
    && (got != [] ==>
          && i < j <= seen && Covers(list[i], start) && got == list[i..j]
          && next == list[j - 1].LastOffset() && next < end && rem > 0
          && Partial(list, i, end, max, j, rem)
          && (j < seen ==> list[j].baseOffset != list[j - 1].LastOffset()))
  }

  lemma ScanDone(list: seq<Record>, start: nat, end: nat, max: nat,
                 got: seq<Record>, next: nat, rem: nat, i: nat, j: nat)
    requires Ordered(list) && Scan(list, |list|, start, end, max, got, next, rem, i, j)
    ensures Serve(list, start, end, max) == None
  {
    hide TakeRun, Ordered;
    if got != [] {
      CoverUnique(list, start, i);
    }
  }

  /** A block that serves nothing leaves the scan where it was. */
  lemma ScanSkip(a: seq<Record>, r: seq<Record>, rest: seq<Record>, start: nat, end: nat, max: nat,
                 got: seq<Record>, next: nat, rem: nat, i: nat, j: nat)
    requires Ordered(a + r + rest) && Scan(a + r + rest, |a|, start, end, max, got, next, rem, i, j)
    requires Cover(r, next).None?
    ensures Scan(a + r + rest, |a| + |r|, start, end, max, got, next, rem, i, j)
  {
    hide TakeRun, Partial, Ordered;
    var list := a + r + rest;
    if got == [] {
      forall k | 0 <= k < |a| + |r| ensures !Covers(list[k], start) {
        if k >= |a| {
          assert list[k] == r[k - |a|];
        }
      }
    } else if j == |a| && r != [] {
      assert list[j] == r[0] && !Covers(r[0], next);
      OrderedAt(list, j);
    }
  }

  lemma OrderedAt(list: seq<Record>, i: nat)
    requires Ordered(list) && i < |list|
    ensures list[i].baseOffset < list[i].LastOffset()
  {
    assert list[i].count > 0;
  }

  /** A block that serves something while the scan is running continues exactly where it stood. */
  lemma ScanAbuts(a: seq<Record>, r: seq<Record>, rest: seq<Record>, start: nat, end: nat, max: nat,
                  got: seq<Record>, next: nat, rem: nat, i: nat, j: nat)
    requires Ordered(a + r + rest) && Scan(a + r + rest, |a|, start, end, max, got, next, rem, i, j)
    requires got != [] && Cover(r, next).Some?
    ensures j == |a| && Cover(r, next) == Some(0) && r[0].baseOffset == next
  {
    hide TakeRun, Partial;
    var list, c := a + r + rest, Cover(r, next).value;
    assert list[|a| + c] == r[c];
    OrderedAt(list, j);
    assert list[j - 1].LastOffset() <= list[j].baseOffset;
  }

  lemma PartialJoin(list: seq<Record>, i: nat, end: nat, max: nat, j: nat, rem: nat)
    requires Partial(list, i, end, max, j, rem)
    requires j < |list| && list[j].baseOffset == list[j - 1].LastOffset()
    ensures TakeRun(list, i, end, max) == TakeRun(list, j, end, rem)
  {
  }

  lemma PartialExtend(list: seq<Record>, i: nat, end: nat, max: nat, j: nat, rem: nat, j': nat, rem': nat)
    requires i <= j < |list| && TakeRun(list, i, end, max) == TakeRun(list, j, end, rem)
    requires Partial(list, j, end, rem, j', rem')
    ensures Partial(list, i, end, max, j', rem')
  {
    hide TakeRun;
  }

  /** Where the run stands after a block has contributed from its position `c`. */
  lemma RunThroughBlock(a: seq<Record>, r: seq<Record>, rest: seq<Record>, end: nat, max: nat,
                        i: nat, c: nat, rem: nat)
    requires Contiguous(r) && c < |r| && i <= |a| + c
    requires TakeRun(a + r + rest, i, end, max) == TakeRun(a + r + rest, |a| + c, end, rem)
    ensures var list, own := a + r + rest, TakeRun(r, c, end, rem);
            var rem' := Remaining(rem, Bytes(r[c..own.stop]));
            if r[own.stop - 1].LastOffset() >= end || rem' == 0
            then TakeRun(list, i, end, max) == Run(|a| + own.stop, true)
            else own.stop == |r| && Partial(list, i, end, max, |a| + |r|, rem')
  {
    hide TakeRun, Partial, Contiguous, Bytes;
    var list, own := a + r + rest, TakeRun(r, c, end, rem);
    RunBudget(r, c, end, rem);
    Embed(a, r, rest, c, end, rem);
    if !own.fulfilled {
      assert r[c..own.stop] == r[c..];
      PartialExtend(list, i, end, max, |a| + c, rem, |a| + |r|, Remaining(rem, Bytes(r[c..own.stop])));
    }
  }

  /** A block that serves something extends the scan or fulfils the read. */
  lemma ScanTake(a: seq<Record>, r: seq<Record>, rest: seq<Record>, start: nat, end: nat, max: nat,
                 got: seq<Record>, next: nat, rem: nat, i: nat, j: nat)
    returns (i': nat, j': nat)
    requires Ordered(a + r + rest) && Contiguous(r)
    requires Scan(a + r + rest, |a|, start, end, max, got, next, rem, i, j)
    requires Cover(r, next).Some?
    ensures var piece := BlockRead(r, next, end, rem);
            var next', rem' := piece[|piece| - 1].LastOffset(), Remaining(rem, Bytes(piece));
            if next' >= end || rem' == 0
            then Serve(a + r + rest, start, end, max) == Some(got + piece)
            else Scan(a + r + rest, |a| + |r|, start, end, max, got + piece, next', rem', i', j')
  {
    hide Ordered, Contiguous, TakeRun, Partial, Bytes, Covers, Serve;
    var list, c := a + r + rest, Cover(r, next).value;
    assert list[|a| + c] == r[c];
    if got != [] {
      ScanAbuts(a, r, rest, start, end, max, got, next, rem, i, j);
      PartialJoin(list, i, end, max, j, rem);
    }
    hide Scan;
    i' := if got != [] then i else |a| + c;
    j' := |a| + TakeRun(r, c, end, rem).stop;
    ScanGoesOn(a, r, rest, start, end, max, got, rem, i', c);
  }

  /** The run from record `i` has come to position `c` of the block with `got` and budget `rem`. */
  lemma ScanGoesOn(a: seq<Record>, r: seq<Record>, rest: seq<Record>, start: nat, end: nat, max: nat,
                   got: seq<Record>, rem: nat, i: nat, c: nat)
    requires Ordered(a + r + rest) && Contiguous(r) && c < |r| && i <= |a| + c
    requires if got == [] then i == |a| + c else c == 0 && i <= |a| && got == (a + r + rest)[i..|a|]
    requires Covers((a + r + rest)[i], start)
    requires TakeRun(a + r + rest, i, end, max) == TakeRun(a + r + rest, |a| + c, end, rem)
    ensures var list, stop := a + r + rest, TakeRun(r, c, end, rem).stop;
            var piece := r[c..stop];
            var next', rem' := piece[|piece| - 1].LastOffset(), Remaining(rem, Bytes(piece));
            if next' >= end || rem' == 0
            then Serve(list, start, end, max) == Some(got + piece)
            else Scan(list, |a| + |r|, start, end, max, got + piece, next', rem', i, |a| + stop)
  {
    hide Ordered, Contiguous, TakeRun, Partial, Bytes, Covers;
    var list, stop := a + r + rest, TakeRun(r, c, end, rem).stop;
    TookSlice(a, r, rest, got, i, c, stop);
    CoverUnique(list, start, i);
    RunThroughBlock(a, r, rest, end, max, i, c, rem);
    LastTaken(r, c, stop);
  }

  lemma TookSlice(a: seq<Record>, r: seq<Record>, rest: seq<Record>, got: seq<Record>, i: nat, c: nat, stop: nat)
    requires c < stop <= |r|
    requires if got == [] then i == |a| + c else c == 0 && i <= |a| && got == (a + r + rest)[i..|a|]
    ensures got + r[c..stop] == (a + r + rest)[i..|a| + stop]
    ensures (a + r + rest)[|a| + stop - 1] == r[stop - 1]
  {
    var list := a + r + rest;
    assert r[c..stop] == list[|a| + c..|a| + stop];
  }

  lemma LastTaken(r: seq<Record>, c: nat, stop: nat)
    requires c < stop <= |r|
    ensures r[c..stop] != [] && r[c..stop][stop - c - 1] == r[stop - 1]
  {
  }

  lemma {:induction false} TailIndexIs(list: seq<Record>, t: nat)
    requires t < |list| && Contiguous(list[t..])
    requires t > 0 ==> list[t].baseOffset != list[t - 1].LastOffset()
    ensures TailIndex(list) == t
  {
    var n := |list|;
    if t < n - 1 {
      assert list[t..][n - 1 - t].baseOffset == list[t..][n - 2 - t].LastOffset();
      assert list[..n - 1][t..] == list[t..][..n - 1 - t];
      TailIndexIs(list[..n - 1], t);
    }
  }
}
