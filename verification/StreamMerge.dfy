/** Merging the objects of one stream: how they are grouped, and the merged object. */
module StreamMerge {
  import opened Sequences
  import opened Records
  import opened DataBlocks
  import opened Codec
  import opened ObjectFormat
  import opened Grouping
  import opened BlockReader
  import opened Rewrite
  import opened RewriteServes
  import opened ObjectIndex

  const MAX_PART_COUNT: nat := 10_000
  const MAX_PART_SIZE: nat := 5 * 1024 * 1024 * 1024
  const MAX_OBJECT_GROUP_COUNT: nat := 5000

  // ---- Which objects are merged together -----------------------------------------------------------------

  datatype Level = Minor | Major | MinorV1 | MajorV1

  datatype Meta = Meta(id: nat, size: nat, start: nat, end: nat, composite: bool) {
    function Parts(): nat { (size + MAX_PART_SIZE - 1) / MAX_PART_SIZE }
  }

  predicate ObjectFilter(level: Level, minSize: nat, o: Meta) {
    && (level != MajorV1 ==> !o.composite)
    && (level == MajorV1 && !o.composite ==> o.size >= minSize)
  }

  predicate Mergeable(level: Level, minSize: nat, o: Meta) {
    ObjectFilter(level, minSize, o) && o.Parts() < MAX_PART_COUNT
  }

  function Candidates(objects: seq<Meta>, level: Level, minSize: nat): seq<Meta> {
    if objects == [] then []
    else
      var rest, o := Candidates(objects[..|objects| - 1], level, minSize), objects[|objects| - 1];
      if Mergeable(level, minSize, o) then rest + [o] else rest
  }

  function SumSize(group: seq<Meta>): nat {
    if group == [] then 0 else SumSize(group[..|group| - 1]) + group[|group| - 1].size
  }

  function SumParts(group: seq<Meta>): nat {
    if group == [] then 0 else SumParts(group[..|group| - 1]) + group[|group| - 1].Parts()
  }

  lemma SumsNext(group: seq<Meta>, o: Meta)
    ensures SumSize(group + [o]) == SumSize(group) + o.size && SumParts(group + [o]) == SumParts(group) + o.Parts()
  {
    assert (group + [o])[..|group|] == group;
  }

  predicate Contiguous(group: seq<Meta>) {
    forall i :: 0 < i < |group| ==> group[i].start == group[i - 1].end
  }

  /** A group of several objects is contiguous and within every limit. */
  predicate GroupOk(group: seq<Meta>, maxSize: nat) {
    && group != []
    && (|group| > 1 ==>
          && Contiguous(group) && SumSize(group) <= maxSize && |group| <= MAX_OBJECT_GROUP_COUNT
          && SumParts(group) <= MAX_PART_COUNT && group[|group| - 1].end - group[0].start <= I32_MAX)
  }

  /** Why the next object may not join. */
  predicate MustStop(group: seq<Meta>, o: Meta, maxSize: nat)
    requires group != []
  {
    || group[|group| - 1].end != o.start
    || SumSize(group) + o.size > maxSize
    || |group| >= MAX_OBJECT_GROUP_COUNT
    || SumParts(group) + o.Parts() > MAX_PART_COUNT
    || o.end - group[0].start > I32_MAX
  }

  predicate StopBetween(a: seq<Meta>, b: seq<Meta>, maxSize: nat) {
    a != [] && b != [] && MustStop(a, b[0], maxSize)
  }

  predicate GroupsOk(groups: seq<seq<Meta>>, maxSize: nat) {
    && (forall i :: 0 <= i < |groups| ==> GroupOk(groups[i], maxSize))
    && (forall i :: 0 < i < |groups| ==> StopBetween(groups[i - 1], groups[i], maxSize))
  }

  lemma GroupGrows(group: seq<Meta>, o: Meta, maxSize: nat)
    requires group == [] || (GroupOk(group, maxSize) && !MustStop(group, o, maxSize))
    ensures GroupOk(group + [o], maxSize)
  {
    hide SumSize, SumParts;
    SumsNext(group, o);
  }

  lemma GroupDone(groups: seq<seq<Meta>>, group: seq<Meta>, maxSize: nat)
    requires GroupsOk(groups, maxSize) && GroupOk(group, maxSize)
    requires groups != [] ==> StopBetween(groups[|groups| - 1], group, maxSize)
    ensures GroupsOk(groups + [group], maxSize)
  {
    hide GroupOk, StopBetween;
  }

  lemma StopKept(a: seq<Meta>, b: seq<Meta>, o: Meta, maxSize: nat)
    requires StopBetween(a, b, maxSize)
    ensures StopBetween(a, b + [o], maxSize)
  {
    assert (b + [o])[0] == b[0];
  }

  /** Group counters agree with the group. */
  predicate Counted(group: seq<Meta>, size: nat, start: nat, next: Option<nat>, parts: nat) {
    group != [] ==>
      && size == SumSize(group) && parts == SumParts(group)
      && start == group[0].start && next == Some(group[|group| - 1].end)
  }

  /** The grouping loop has handled `taken`: closed groups and an open one within the limits. */
  ghost predicate Progress(groups: seq<seq<Meta>>, group: seq<Meta>, size: nat, start: nat, next: Option<nat>,
                           parts: nat, taken: seq<Meta>, maxSize: nat)
  {
    && Concat(groups) + group == taken && Counted(group, size, start, next, parts)
    && (group != [] ==> GroupOk(group, maxSize) && start <= group[|group| - 1].end)
    && (group == [] ==> groups == [] && next.None? && size == 0 && parts == 0)
    && GroupsOk(groups, maxSize)
    && (groups != [] ==> StopBetween(groups[|groups| - 1], group, maxSize))
  }

  /** The next object joins the open group, or closes it and opens its own. */
  lemma ProgressNext(groups: seq<seq<Meta>>, group: seq<Meta>, size: nat, start: nat, next: Option<nat>, parts: nat,
                     taken: seq<Meta>, maxSize: nat, o: Meta)
    requires Progress(groups, group, size, start, next, parts, taken, maxSize) && o.start <= o.end
    ensures group == [] ==>
              Progress(groups, [o], o.size, o.start, Some(o.end), o.Parts(), taken + [o], maxSize)
    ensures group != [] && MustStop(group, o, maxSize) ==>
              Progress(groups + [group], [o], o.size, o.start, Some(o.end), o.Parts(), taken + [o], maxSize)
    ensures group != [] && !MustStop(group, o, maxSize) ==>
              Progress(groups, group + [o], size + o.size, start, Some(o.end), parts + o.Parts(), taken + [o], maxSize)
  {
    hide Concat, GroupOk, GroupsOk, StopBetween, SumSize, SumParts, Meta.Parts;
    SumsNext([], o);
    NoSums();
    assert [] + [o] == [o];
    if group == [] {
      GroupGrows([], o, maxSize);
      assert Concat(groups) + [o] == Concat(groups) + group + [o];
    } else if MustStop(group, o, maxSize) {
      ConcatPush(groups, group);
      GroupDone(groups, group, maxSize);
      StopIs(group, o, maxSize);
      GroupGrows([], o, maxSize);
    } else {
      SumsNext(group, o);
      GroupGrows(group, o, maxSize);
      if groups != [] {
        StopKept(groups[|groups| - 1], group, o, maxSize);
      }
      assert Concat(groups) + (group + [o]) == Concat(groups) + group + [o];
    }
  }

  lemma StopIff(groups: seq<seq<Meta>>, group: seq<Meta>, size: nat, start: nat, next: Option<nat>, parts: nat,
                taken: seq<Meta>, maxSize: nat, o: Meta)
    requires Progress(groups, group, size, start, next, parts, taken, maxSize) && group != []
    ensures MustStop(group, o, maxSize) <==>
              || next != Some(o.start) || size + o.size > maxSize || |group| >= MAX_OBJECT_GROUP_COUNT
              || parts + o.Parts() > MAX_PART_COUNT || o.end - start > I32_MAX
  {
    hide Concat, GroupOk, GroupsOk, StopBetween, SumSize, SumParts, Meta.Parts;
  }

  lemma ProgressDone(groups: seq<seq<Meta>>, group: seq<Meta>, size: nat, start: nat, next: Option<nat>, parts: nat,
                     taken: seq<Meta>, maxSize: nat)
    requires Progress(groups, group, size, start, next, parts, taken, maxSize)
    ensures var all := if group == [] then groups else groups + [group];
            Concat(all) == taken && GroupsOk(all, maxSize)
  {
    hide Concat, GroupOk, GroupsOk, StopBetween, SumSize, SumParts;
    ConcatPush(groups, group);
    if group != [] {
      GroupDone(groups, group, maxSize);
    } else {
      assert Concat(groups) + [] == Concat(groups);
    }
  }

  /**
   * Groups the mergeable objects in order. Nothing is lost or reordered, a group of several is
   * contiguous and within the size, count, part and span limits, and a group ends only when the
   * next object would break one of them.
   */
  method Group0(objects: seq<Meta>, maxSize: nat, level: Level, minSize: nat) returns (groups: seq<seq<Meta>>)
    requires forall i :: 0 <= i < |objects| ==> objects[i].start <= objects[i].end
    ensures Concat(groups) == Candidates(objects, level, minSize) && GroupsOk(groups, maxSize)
  {
    hide Progress, MustStop, Concat, GroupsOk, Meta.Parts, ObjectFilter, Candidates;
    groups := [];
    var group: seq<Meta> := [];
    var size: nat, start: nat, parts: nat := 0, 0, 0;
    var next: Option<nat> := None;
    var i := 0;
    ProgressStart(objects, level, minSize, maxSize);
    while i < |objects|
      invariant 0 <= i <= |objects|
      invariant Progress(groups, group, size, start, next, parts, Candidates(objects[..i], level, minSize), maxSize)
      invariant group == [] ==> next.None? && size == 0 && parts == 0
      invariant group != [] ==> next.Some?
    {
      var o := objects[i];
      ghost var taken := Candidates(objects[..i], level, minSize);
      NextCandidate(objects, i, level, minSize);
      assert taken + [] == taken;
      i := i + 1;
      if !ObjectFilter(level, minSize, o) {
        continue;
      }
      var own := o.Parts();
      if own >= MAX_PART_COUNT {
        continue;
      }
      ProgressNext(groups, group, size, start, next, parts, taken, maxSize, o);
      if |group| != 0 {
        StopIff(groups, group, size, start, next, parts, taken, maxSize, o);
      }
      if next.None? {
        start, next := o.start, Some(o.start);
      }
      if next != Some(o.start)
         || (size + o.size > maxSize && |group| != 0)
         || |group| >= MAX_OBJECT_GROUP_COUNT
         || parts + own > MAX_PART_COUNT
         || o.end - start > I32_MAX
      {
        if |group| != 0 {
          groups := groups + [group];
          group := [];
        }
        size, start, parts := 0, o.start, 0;
      }
      assert [] + [o] == [o];
      group := group + [o];
      size := size + o.size;
      next := Some(o.end);
      parts := parts + own;
    }
    assert objects[..i] == objects;
    ProgressDone(groups, group, size, start, next, parts, Candidates(objects, level, minSize), maxSize);
    if |group| != 0 {
      groups := groups + [group];
    }
  }

  lemma ProgressStart(objects: seq<Meta>, level: Level, minSize: nat, maxSize: nat)
    ensures Progress([], [], 0, 0, None, 0, Candidates(objects[..0], level, minSize), maxSize)
  {
    NoGroupsYet(maxSize);
    assert objects[..0] == [];
  }

  lemma NoGroupsYet(maxSize: nat)
    ensures GroupsOk([], maxSize) && Concat<Meta>([]) == []
  {
  }

  lemma NextCandidate(objects: seq<Meta>, i: nat, level: Level, minSize: nat)
    requires i < |objects|
    ensures Candidates(objects[..i + 1], level, minSize)
         == Candidates(objects[..i], level, minSize)
            + if Mergeable(level, minSize, objects[i]) then [objects[i]] else []
  {
    hide ObjectFilter, Meta.Parts;
    assert objects[..i + 1][..i] == objects[..i];
  }

  lemma NoSums()
    ensures SumSize([]) == 0 && SumParts([]) == 0
  {
  }

  lemma StopIs(group: seq<Meta>, o: Meta, maxSize: nat)
    requires group != [] && MustStop(group, o, maxSize)
    ensures StopBetween(group, [o], maxSize)
  {
  }

  // ---- The merged object -----------------------------------------------------------------------------------

  /** A source object: its index entries and its data section. */
  datatype Source = Source(index: seq<DataBlockIndex>, data: Bytes) {
    function EndAt(n: nat): nat
      requires n <= |index|
    {
      if n == 0 then 0 else index[n - 1].EndPosition()
    }
  }

  predicate EntryOk(src: Source, s: nat, k: nat)
    requires k < |src.index|
  {
    var e := src.index[k];
    && e.streamId == s && e.size > 0 && e.delta > 0
    && e.position == src.EndAt(k) && e.EndPosition() <= |src.data|
    && Decode(src.data[e.position..e.EndPosition()]).Ok?
    && (k > 0 ==> e.start == src.index[k - 1].End())
  }

  /** Stream objects as the writers make them: entries tile the data and meet without gaps. */
  predicate SourceOk(src: Source, s: nat) {
    && src.index != [] && src.EndAt(|src.index|) == |src.data|
    && forall k: nat :: k < |src.index| ==> EntryOk(src, s, k)
  }

  predicate SourcesOk(sources: seq<Source>, s: nat) {
    && (forall i :: 0 <= i < |sources| ==> SourceOk(sources[i], s))
    && (forall i :: 0 < i < |sources| ==> SourcesMeet(sources[i - 1], sources[i]))
  }

  predicate SourcesMeet(a: Source, b: Source) {
    a.index != [] && b.index != [] && a.index[|a.index| - 1].End() == b.index[0].start
  }

  function Fetch1(src: Source, e: DataBlockIndex): Fetched
    requires e.EndPosition() <= |src.data|
  {
    Fetched(StreamDataBlock(0, e), src.data[e.position..e.EndPosition()])
  }

  /** The blocks among the first `n` that reach past the stream start, with their bytes. */
  function Live(src: Source, start: nat, n: nat): seq<Fetched>
    requires n <= |src.index| && forall k: nat :: k < |src.index| ==> src.index[k].EndPosition() <= |src.data|
  {
    if n == 0 then []
    else
      var e := src.index[n - 1];
      Live(src, start, n - 1) + if e.End() > start then [Fetch1(src, e)] else []
  }

  lemma InData(src: Source, s: nat)
    requires SourceOk(src, s)
    ensures forall k: nat :: k < |src.index| ==> src.index[k].EndPosition() <= |src.data|
  {
    hide Decode;
    forall k: nat | k < |src.index| ensures src.index[k].EndPosition() <= |src.data| {
      assert EntryOk(src, s, k);
    }
  }

  lemma {:induction false} EndsAscend(src: Source, s: nat, i: nat, j: nat)
    requires SourceOk(src, s) && i <= j < |src.index|
    ensures src.index[i].End() <= src.index[j].End() && src.EndAt(i) <= src.EndAt(j)
    decreases j - i
  {
    hide Decode;
    assert EntryOk(src, s, j);
    if i < j {
      assert EntryOk(src, s, j - 1);
      EndsAscend(src, s, i, j - 1);
    }
  }

  /** Trimmed blocks come first, so once a block is dropped nothing before it was live. */
  lemma {:induction false} DroppedPrefix(src: Source, s: nat, start: nat, n: nat)
    requires SourceOk(src, s) && 0 < n <= |src.index| && src.index[n - 1].End() <= start
    requires forall k: nat :: k < |src.index| ==> src.index[k].EndPosition() <= |src.data|
    ensures Live(src, start, n) == []
  {
    hide SourceOk;
    if n > 1 {
      EndsAscend(src, s, n - 2, n - 1);
      DroppedPrefix(src, s, start, n - 1);
    }
  }

  /** The copied bytes begin behind the last dropped block. */
  function ValidStart(src: Source, start: nat, n: nat): nat
    requires n <= |src.index|
  {
    if n == 0 then 0
    else if src.index[n - 1].End() <= start then src.index[n - 1].EndPosition()
    else ValidStart(src, start, n - 1)
  }

  lemma {:induction false} CopyIsLive(src: Source, s: nat, start: nat, n: nat)
    requires SourceOk(src, s) && n <= |src.index|
    requires forall k: nat :: k < |src.index| ==> src.index[k].EndPosition() <= |src.data|
    ensures ValidStart(src, start, n) <= src.EndAt(n) <= |src.data|
    ensures BytesOf(Live(src, start, n)) == src.data[ValidStart(src, start, n)..src.EndAt(n)]
    ensures Sound(Live(src, start, n))
  {
    hide Decode, SourceOk, BytesOf, Sound, Live;
    NoLive(src, start);
    NoBytes();
    if n > 0 {
      CopyIsLive(src, s, start, n - 1);
      var e := src.index[n - 1];
      EntryFacts(src, s, n - 1);
      LiveNext(src, start, n - 1);
      var init, f := Live(src, start, n - 1), Fetch1(src, e);
      if e.End() <= start {
        DroppedPrefix(src, s, start, n);
      } else {
        BytesConcat(init, [f]);
        BytesOne(f);
        SoundNext(init, f);
        JoinSlices(src.data, ValidStart(src, start, n - 1), e.position, e.EndPosition());
      }
    }
  }

  lemma JoinSlices(data: Bytes, a: nat, b: nat, c: nat)
    requires a <= b <= c <= |data|
    ensures data[a..c] == data[a..b] + data[b..c]
  {
  }

  function AllLive(sources: seq<Source>, s: nat, start: nat): seq<Fetched>
    requires SourcesOk(sources, s)
  {
    if sources == [] then []
    else
      var n := |sources| - 1;
      InData(sources[n], s);
      AllLive(sources[..n], s, start) + Live(sources[n], start, |sources[n].index|)
  }

  // ---- Regrouping while copying ----------------------------------------------------------------------------

  /** The loop's state: finished entries, the open group, and the position in the new object. */
  datatype Regroup = Regroup(
    entries: seq<DataBlockIndex>,
    start: nat, position: nat, size: nat, count: nat,    // of the open group
    last: Option<DataBlockIndex>,
    next: nat)

  function Flush(m: Regroup, s: nat): Regroup
    requires m.last.Some? && m.start <= m.last.value.End()
  {
    m.(entries := m.entries + [DataBlockIndex(s, m.start, m.last.value.End() - m.start, m.count, m.position, m.size)])
  }

  predicate StartsGroup(m: Regroup, e: DataBlockIndex, threshold: nat) {
    || m.size == 0
    || m.size + e.size > threshold
    || m.count + e.count > I32_MAX
    || SpanTooWide(m.start, e.End())
  }

  function Take(m: Regroup, s: nat, e: DataBlockIndex, threshold: nat): Regroup
    requires m.size != 0 ==> m.last.Some? && m.start <= m.last.value.End()
  {
    var m1 :=
      if StartsGroup(m, e, threshold)
      then (if m.size != 0 then Flush(m, s) else m).(start := e.start, position := m.next, size := 0, count := 0)
      else m;
    m1.(size := m1.size + e.size, count := m1.count + e.count, next := m1.next + e.size, last := Some(e))
  }

  /** The state stands for finished groups and an open one. */
  ghost predicate Tracks(m: Regroup, groups: seq<seq<StreamDataBlock>>, curr: seq<StreamDataBlock>, s: nat) {
    && GroupsForward(groups) && m.entries == IndexOfGroups(groups)
    && m.next == TotalSize(Concat(groups)) + TotalSize(curr)
    && m.size == TotalSize(curr) && PositiveSizes(curr)
    && (curr != [] ==>
          && m.start == curr[0].Start() && m.position == TotalSize(Concat(groups)) && m.count == TotalCount(curr)
          && m.last == Some(curr[|curr| - 1].index) && curr[0].Stream() == s
          && curr[0].Start() < curr[|curr| - 1].End())
  }

  lemma FlushTracks(m: Regroup, groups: seq<seq<StreamDataBlock>>, curr: seq<StreamDataBlock>, s: nat)
    requires Tracks(m, groups, curr, s) && curr != []
    ensures GroupsForward(groups + [curr]) && Flush(m, s).entries == IndexOfGroups(groups + [curr])
    ensures TotalSize(Concat(groups + [curr])) == m.next
  {
    hide TotalSize, TotalCount, Concat, PositiveSizes, GroupsForward, IndexOfGroups;
    ConcatPush(groups, curr);
    TotalSizeConcat(Concat(groups), curr);
    IndexPush(groups, curr);
  }

  /** Taking the next block extends the open group or starts a new one. */
  lemma TakeTracks(m: Regroup, groups: seq<seq<StreamDataBlock>>, curr: seq<StreamDataBlock>, s: nat,
                   x: StreamDataBlock, threshold: nat)
    requires Tracks(m, groups, curr, s) && x.Stream() == s && x.Size() > 0 && x.Start() < x.End()
    requires curr != [] ==> x.Start() == curr[|curr| - 1].End()
    ensures m.size != 0 ==> m.last.Some? && m.start <= m.last.value.End()
    ensures m.size == 0 <==> curr == []
    ensures var m' := Take(m, s, x.index, threshold);
            if curr == [] then Tracks(m', groups, [x], s)
            else if StartsGroup(m, x.index, threshold) then Tracks(m', groups + [curr], [x], s)
            else Tracks(m', groups, curr + [x], s)
  {
    hide TotalSize, TotalCount, Concat, IndexOfGroups, GroupsForward;
    TotalSizeZero(curr);
    TotalsNext(curr, x);
    TotalsNext([], x);
    Rewrite.NoTotals();
    assert [] + [x] == [x];
    if curr != [] {
      FlushTracks(m, groups, curr, s);
    }
  }

  /** For a run of one stream the loop's cut rule is the limit rule. */
  lemma CutsAgree(m: Regroup, groups: seq<seq<StreamDataBlock>>, curr: seq<StreamDataBlock>, s: nat,
                  x: StreamDataBlock, threshold: nat)
    requires Tracks(m, groups, curr, s) && curr != [] && x.Stream() == s && x.Start() == curr[|curr| - 1].End()
    ensures StartsGroup(m, x.index, threshold) <==> MustCut(curr, x, threshold + 1)
  {
    hide TotalSize, TotalCount, Concat, IndexOfGroups, GroupsForward;
    TotalSizeZero(curr);
  }

  /** The groups so far are within the limits and hold exactly the copied blocks. */
  ghost predicate Merging(m: Regroup, groups: seq<seq<StreamDataBlock>>, curr: seq<StreamDataBlock>,
                          fs: seq<Fetched>, s: nat, threshold: nat)
  {
    && Tracks(m, groups, curr, s)
    && Concat(groups) + curr == BlocksOf(fs) && (fs != [] ==> curr != [])
    && LimitGroups(groups, threshold + 1)
    && (curr != [] ==> LimitOk(curr, threshold + 1))
    && (curr == [] ==> groups == [])
    && (groups != [] ==> CutNeeded(groups[|groups| - 1], curr, threshold + 1))
  }

  lemma MergeNext(m: Regroup, groups: seq<seq<StreamDataBlock>>, curr: seq<StreamDataBlock>,
                  fs: seq<Fetched>, s: nat, threshold: nat, f: Fetched)
    returns (groups': seq<seq<StreamDataBlock>>, curr': seq<StreamDataBlock>)
    requires Merging(m, groups, curr, fs, s, threshold)
    requires f.block.Stream() == s && f.block.Size() > 0 && f.block.Start() < f.block.End()
    requires fs != [] ==> f.block.Start() == fs[|fs| - 1].block.End()
    ensures m.size != 0 ==> m.last.Some? && m.start <= m.last.value.End()
    ensures Merging(Take(m, s, f.block.index, threshold), groups', curr', fs + [f], s, threshold)
  {
    hide Tracks, LimitGroups, LimitOk, CutNeeded, MustCut, Take, StartsGroup, Concat;
    var x := f.block;
    if curr != [] {
      assert curr[|curr| - 1] == (Concat(groups) + curr)[|Concat(groups) + curr| - 1] == fs[|fs| - 1].block;
    }
    TakeTracks(m, groups, curr, s, x, threshold);
    assert BlocksOf(fs + [f]) == BlocksOf(fs) + [x];
    LimitGrows([], x, threshold + 1);
    assert [] + [x] == [x];
    if curr == [] {
      groups', curr' := groups, [x];
      assert Concat(groups) + [x] == Concat(groups) + curr + [x];
    } else {
      CutsAgree(m, groups, curr, s, x, threshold);
      if StartsGroup(m, x.index, threshold) {
        groups', curr' := groups + [curr], [x];
        ConcatPush(groups, curr);
        LimitEnds(groups, curr, threshold + 1);
        CutIs(curr, x, threshold + 1);
      } else {
        groups', curr' := groups, curr + [x];
        LimitGrows(curr, x, threshold + 1);
        if groups != [] {
          CutKept(groups[|groups| - 1], curr, x, threshold + 1);
        }
        assert Concat(groups) + (curr + [x]) == Concat(groups) + curr + [x];
      }
    }
  }

  // ---- The merge loop ----------------------------------------------------------------------------------------

  datatype Merged = Merged(bytes: Bytes, index: seq<DataBlockIndex>, start: nat, end: nat, size: nat)

  /** Everything copied so far, and where the stream continues. */
  ghost predicate Copied(fs: seq<Fetched>, start: nat, compactedStart: nat, at: nat) {
    && Sound(fs)
    && (fs != [] ==> fs[|fs| - 1].block.End() == at && fs[0].block.Start() == compactedStart && at > start)
    && (fs == [] ==> compactedStart == at)
  }

  /**
   * One source: trimmed blocks are skipped, live ones are regrouped, and the bytes from the first
   * live block on are copied.
   */
  method MergeSource(src: Source, s: nat, start: nat, threshold: nat, m0: Regroup, start0: nat,
                     ghost groups0: seq<seq<StreamDataBlock>>, ghost curr0: seq<StreamDataBlock>,
                     ghost fs0: seq<Fetched>)
    returns (m: Regroup, copied: Bytes, compactedStart: nat,
             ghost groups: seq<seq<StreamDataBlock>>, ghost curr: seq<StreamDataBlock>, ghost fs: seq<Fetched>)
    requires SourceOk(src, s) && Merging(m0, groups0, curr0, fs0, s, threshold)
    requires Copied(fs0, start, start0, src.index[0].start)
    ensures forall k: nat :: k < |src.index| ==> src.index[k].EndPosition() <= |src.data|
    ensures fs == fs0 + Live(src, start, |src.index|) && copied == BytesOf(Live(src, start, |src.index|))
    ensures Merging(m, groups, curr, fs, s, threshold)
    ensures Copied(fs, start, compactedStart, src.index[|src.index| - 1].End())
  {
    hide Merging, Take, SourceOk, Live, BytesOf, Decode, Sound;
    InData(src, s);
    SourceNonempty(src, s);
    m, compactedStart, groups, curr, fs := m0, start0, groups0, curr0, fs0;
    var validStart, k := 0, 0;
    assert Live(src, start, 0) == [] by { NoLive(src, start); }
    while k < |src.index|
      invariant 0 <= k <= |src.index| && validStart == ValidStart(src, start, k)
      invariant fs == fs0 + Live(src, start, k) && Merging(m, groups, curr, fs, s, threshold)
      invariant Copied(fs, start, compactedStart, if k == 0 then src.index[0].start else src.index[k - 1].End())
    {
      var e := src.index[k];
      EntryFacts(src, s, k);
      LiveNext(src, start, k);
      if e.End() <= start {
        validStart := e.EndPosition();
        compactedStart := e.End();
        assert fs == [];
      } else {
        var f := Fetch1(src, e);
        groups, curr := MergeNext(m, groups, curr, fs, s, threshold, f);
        SoundNext(fs, f);
        m := Take(m, s, e, threshold);
        assert fs + [f] == fs0 + (Live(src, start, k) + [f]);
        fs := fs + [f];
      }
      k := k + 1;
    }
    CopyIsLive(src, s, start, |src.index|);
    EndIsAll(src, s);
    copied := src.data[validStart..];
  }

  lemma SourceNonempty(src: Source, s: nat)
    requires SourceOk(src, s)
    ensures src.index != []
  {
  }

  lemma NoLive(src: Source, start: nat)
    requires forall k: nat :: k < |src.index| ==> src.index[k].EndPosition() <= |src.data|
    ensures Live(src, start, 0) == []
  {
  }

  lemma EntryFacts(src: Source, s: nat, k: nat)
    requires SourceOk(src, s) && k < |src.index|
    ensures var e := src.index[k];
            && e.streamId == s && e.size > 0 && e.start < e.End() && e.EndPosition() <= |src.data|
            && e.position == src.EndAt(k)
            && Decode(src.data[e.position..e.EndPosition()]).Ok?
            && (k > 0 ==> e.start == src.index[k - 1].End())
  {
    hide Decode;
    assert EntryOk(src, s, k);
  }

  lemma LiveNext(src: Source, start: nat, k: nat)
    requires k < |src.index| && forall k: nat :: k < |src.index| ==> src.index[k].EndPosition() <= |src.data|
    ensures Live(src, start, k + 1)
         == Live(src, start, k) + if src.index[k].End() > start then [Fetch1(src, src.index[k])] else []
  {
  }

  lemma SoundNext(fs: seq<Fetched>, f: Fetched)
    requires Sound(fs) && |f.data| == f.block.Size() && Decode(f.data).Ok?
    ensures Sound(fs + [f])
  {
    hide Decode;
  }

  lemma EndIsAll(src: Source, s: nat)
    requires SourceOk(src, s)
    ensures src.EndAt(|src.index|) == |src.data|
    ensures forall v: nat :: v <= |src.data| ==> src.data[v..src.EndAt(|src.index|)] == src.data[v..]
  {
  }

  /** All sources in turn, then the last group, the index and the footer. */
  method PhysicalMerge(sources: seq<Source>, s: nat, start: nat, threshold: nat)
    returns (r: Merged, ghost groups: seq<seq<StreamDataBlock>>)
    requires sources != [] && SourcesOk(sources, s)
    ensures var fs := AllLive(sources, s, start);
            && Sound(fs) && Concat(groups) == BlocksOf(fs)
            && LimitGroups(groups, threshold + 1) && GroupsForward(groups)
            && r.index == IndexOfGroups(groups) && r.bytes == RewrittenBytes(fs, groups) && r.size == |r.bytes|
            && (fs != [] ==> r.start == fs[0].block.Start() && r.end == fs[|fs| - 1].block.End())
            && (RewriteFits(fs, groups) && threshold < U32 ==> WellFormed(r.bytes) && StoredIndex(r.bytes) == r.index)
    ensures var last := sources[|sources| - 1].index; last != [] && r.end == last[|last| - 1].End()
  {
    hide Merging, SourceOk, Live, BytesOf, Decode, Sound, LimitGroups, GroupsForward, IndexOfGroups, Concat;
    hide RewrittenBytes, WellFormed, StoredIndex, RewriteFits;
    var m := Regroup([], 0, 0, 0, 0, None, 0);
    ghost var curr: seq<StreamDataBlock> := [];
    ghost var fs: seq<Fetched> := [];
    groups := [];
    MergingStart(s, threshold);
    SourceNonempty(sources[0], s);
    var compactedStart := sources[0].index[0].start;
    var data: Bytes := [];
    NoBytes();
    var i := 0;
    while i < |sources|
      invariant 0 <= i <= |sources| && SourcesOk(sources[..i], s)
      invariant fs == AllLive(sources[..i], s, start) && data == BytesOf(fs)
      invariant Merging(m, groups, curr, fs, s, threshold)
      invariant i == 0 ==> fs == [] && compactedStart == sources[0].index[0].start
      invariant i > 0 ==> sources[i - 1].index != []
      invariant i > 0 ==> Copied(fs, start, compactedStart, sources[i - 1].index[|sources[i - 1].index| - 1].End())
    {
      var src := sources[i];
      SourceNonempty(src, s);
      assert i > 0 ==> SourcesMeet(sources[i - 1], sources[i]);
      var copied;
      ghost var fs0 := fs;
      m, copied, compactedStart, groups, curr, fs :=
        MergeSource(src, s, start, threshold, m, compactedStart, groups, curr, fs);
      assert sources[..i + 1][..i] == sources[..i];
      BytesConcat(fs0, Live(src, start, |src.index|));
      data := data + copied;
      i := i + 1;
    }
    assert sources[..i] == sources;
    var last := sources[|sources| - 1];
    var end := last.index[|last.index| - 1].End();
    r, groups := FinishMerge(m, data, s, threshold, compactedStart, end, groups, curr, fs);
  }

  /** The last group, the index and the footer behind the copied data. */
  method FinishMerge(m: Regroup, data: Bytes, s: nat, threshold: nat, start: nat, end: nat,
                     ghost groups0: seq<seq<StreamDataBlock>>, ghost curr: seq<StreamDataBlock>, ghost fs: seq<Fetched>)
    returns (r: Merged, ghost groups: seq<seq<StreamDataBlock>>)
    requires Merging(m, groups0, curr, fs, s, threshold) && Sound(fs) && data == BytesOf(fs)
    ensures Concat(groups) == BlocksOf(fs) && LimitGroups(groups, threshold + 1) && GroupsForward(groups)
    ensures r.index == IndexOfGroups(groups) && r.bytes == RewrittenBytes(fs, groups) && r.size == |r.bytes|
    ensures r.start == start && r.end == end
    ensures RewriteFits(fs, groups) && threshold < U32 ==> WellFormed(r.bytes) && StoredIndex(r.bytes) == r.index
  {
    hide Merging, BytesOf, Sound, LimitGroups, GroupsForward, IndexOfGroups, Concat;
    hide EncodeIndexes, Footer, WellFormed, StoredIndex, StoredDataSize, RewriteFits;
    MergingEnd(m, groups0, curr, fs, s, threshold);
    var m' := if m.last.Some? && m.size != 0 then Flush(m, s) else m;
    groups := if curr == [] then groups0 else groups0 + [curr];
    var index := EncodeIndexes(m'.entries);
    SoundSizes(fs);
    BytesSize(fs);
    r := Merged(data + index + Footer(m.next, |index|), m'.entries, start, end, |data| + |index| + FOOTER_SIZE);
    if RewriteFits(fs, groups) && threshold < U32 {
      RewriteReadsBack(fs, groups, threshold + 1);
    }
  }

  lemma NoBytes()
    ensures BytesOf([]) == [] && Sound([])
  {
  }

  lemma MergingStart(s: nat, threshold: nat)
    ensures Merging(Regroup([], 0, 0, 0, 0, None, 0), [], [], [], s, threshold)
  {
    assert BlocksOf([]) == [];
  }

  lemma MergingEnd(m: Regroup, groups: seq<seq<StreamDataBlock>>, curr: seq<StreamDataBlock>,
                   fs: seq<Fetched>, s: nat, threshold: nat)
    requires Merging(m, groups, curr, fs, s, threshold)
    ensures m.size != 0 ==> m.last.Some? && m.start <= m.last.value.End()
    ensures m.size != 0 <==> curr != []
    ensures var all := if curr == [] then groups else groups + [curr];
            && GroupsForward(all) && LimitGroups(all, threshold + 1) && Concat(all) == BlocksOf(fs)
            && (if m.last.Some? && m.size != 0 then Flush(m, s) else m).entries == IndexOfGroups(all)
    ensures m.next == TotalSize(BlocksOf(fs))
  {
    hide LimitGroups, LimitOk, CutNeeded, TotalSize, TotalCount, Concat, IndexOfGroups, GroupsForward;
    TotalSizeZero(curr);
    TotalSizeConcat(Concat(groups), curr);
    ConcatPush(groups, curr);
    if curr != [] {
      FlushTracks(m, groups, curr, s);
      LimitEnds(groups, curr, threshold + 1);
    } else {
      assert Concat(groups) + [] == Concat(groups);
    }
  }

  // ---- What the merged object promises ---------------------------------------------------------------------

  predicate BlockRun(fs: seq<Fetched>) {
    forall i :: 0 < i < |fs| ==> RunAt(fs, i)
  }

  predicate RunAt(fs: seq<Fetched>, i: int) {
    0 < i < |fs| && fs[i].block.Stream() == fs[i - 1].block.Stream() && fs[i].block.Start() == fs[i - 1].block.End()
  }

  /** The live blocks among the first `n` of a source end with the `n`-th and are one run. */
  lemma {:induction false} LiveRun(src: Source, s: nat, start: nat, n: nat)
    requires SourceOk(src, s) && n <= |src.index|
    requires forall k: nat :: k < |src.index| ==> src.index[k].EndPosition() <= |src.data|
    ensures var fs := Live(src, start, n);
            && BlockRun(fs) && (forall i :: 0 <= i < |fs| ==> LiveOk(fs[i].block, s, start))
            && (fs != [] ==> fs[|fs| - 1].block.index == src.index[n - 1])
  {
    hide SourceOk, Decode, Live;
    NoLive(src, start);
    if n > 0 {
      LiveRun(src, s, start, n - 1);
      LiveNext(src, start, n - 1);
      EntryFacts(src, s, n - 1);
      if src.index[n - 1].End() <= start {
        DroppedPrefix(src, s, start, n);
      } else {
        RunPush(Live(src, start, n - 1), Fetch1(src, src.index[n - 1]));
      }
    }
  }

  predicate LiveOk(x: StreamDataBlock, s: nat, start: nat) {
    x.Stream() == s && x.Start() < x.End() && x.End() > start && x.Size() > 0
  }

  lemma RunPush(fs: seq<Fetched>, f: Fetched)
    requires BlockRun(fs)
    requires fs != [] ==> f.block.Stream() == fs[|fs| - 1].block.Stream() && f.block.Start() == fs[|fs| - 1].block.End()
    ensures BlockRun(fs + [f])
  {
    forall i | 0 < i < |fs + [f]| ensures RunAt(fs + [f], i) {
      if i < |fs| {
        assert RunAt(fs, i);
      }
    }
  }

  lemma RunJoin(a: seq<Fetched>, b: seq<Fetched>)
    requires BlockRun(a) && BlockRun(b)
    requires a != [] && b != [] ==>
               b[0].block.Stream() == a[|a| - 1].block.Stream() && b[0].block.Start() == a[|a| - 1].block.End()
    ensures BlockRun(a + b)
  {
    forall i | 0 < i < |a + b| ensures RunAt(a + b, i) {
      if i < |a| {
        assert RunAt(a, i);
      } else if i > |a| {
        assert RunAt(b, i - |a|);
      }
    }
  }

  /** A live block before keeps everything after it live. */
  lemma {:induction false} LiveAll(src: Source, s: nat, start: nat, n: nat)
    requires SourceOk(src, s) && n <= |src.index| && src.index[0].start >= start
    requires forall k: nat :: k < |src.index| ==> src.index[k].EndPosition() <= |src.data|
    ensures |Live(src, start, n)| == n && (n > 0 ==> Live(src, start, n)[0].block.index == src.index[0])
  {
    hide SourceOk, Decode, Live;
    NoLive(src, start);
    if n > 0 {
      LiveAll(src, s, start, n - 1);
      LiveNext(src, start, n - 1);
      EntryFacts(src, s, n - 1);
      if n > 1 {
        EntryFacts(src, s, 0);
        EndsAscend(src, s, 0, n - 2);
      }
    }
  }

  /** Over all sources the live blocks are one gap-free run of the stream. */
  lemma {:induction false} AllLiveRun(sources: seq<Source>, s: nat, start: nat)
    requires SourcesOk(sources, s)
    ensures var fs := AllLive(sources, s, start);
            && BlockRun(fs) && (forall i :: 0 <= i < |fs| ==> LiveOk(fs[i].block, s, start))
            && (fs != [] ==> sources != [] && EndsWith(sources[|sources| - 1], fs[|fs| - 1].block))
  {
    hide SourceOk, Decode, Live, BlockRun, LiveOk;
    if sources == [] {
      assert BlockRun([]) by { NoRun(); }
    } else {
      var n := |sources| - 1;
      var src := sources[n];
      AllLiveRun(sources[..n], s, start);
      InData(src, s);
      SourceNonempty(src, s);
      LiveRun(src, s, start, |src.index|);
      var a, b := AllLive(sources[..n], s, start), Live(src, start, |src.index|);
      if a != [] {
        assert SourcesMeet(sources[n - 1], src);
        LastLive(a[|a| - 1].block, s, start);
        LiveAll(src, s, start, |src.index|);
        EntryFacts(src, s, 0);
      }
      RunJoin(a, b);
    }
  }

  predicate EndsWith(src: Source, x: StreamDataBlock) {
    src.index != [] && x.index == src.index[|src.index| - 1]
  }

  lemma NoRun()
    ensures BlockRun([])
  {
  }

  lemma LastLive(x: StreamDataBlock, s: nat, start: nat)
    requires LiveOk(x, s, start)
    ensures x.End() > start && x.Stream() == s
  {
  }

  lemma RunIsRuns(fs: seq<Fetched>, s: nat, start: nat)
    requires BlockRun(fs) && forall i :: 0 <= i < |fs| ==> LiveOk(fs[i].block, s, start)
    ensures Runs(BlocksOf(fs)) && Nonempty(BlocksOf(fs)) && (fs != [] ==> OneRun(BlocksOf(fs)))
  {
    var bs := BlocksOf(fs);
    forall i | 0 < i < |bs|
      ensures Follows(bs[i - 1], bs[i]) && bs[i - 1].Stream() == bs[i].Stream() && bs[i - 1].End() == bs[i].Start()
    {
      assert RunAt(fs, i);
    }
  }

  /**
   * The merged object: its index is sorted, its entries tile the copied bytes and meet without
   * gaps, every entry decodes to the records of the live blocks it covers, and the reader's
   * geometry check accepts it.
   */
  lemma MergedObject(sources: seq<Source>, s: nat, start: nat, threshold: nat,
                     groups: seq<seq<StreamDataBlock>>, k: nat) returns (a: nat, b: nat)
    requires SourcesOk(sources, s) && Sound(AllLive(sources, s, start))
    requires Concat(groups) == BlocksOf(AllLive(sources, s, start))
    requires LimitGroups(groups, threshold + 1) && k < |groups|
    ensures GroupsForward(groups) && SortedIndex(IndexOfGroups(groups))
    ensures var fs, es := AllLive(sources, s, start), IndexOfGroups(groups);
            && a <= b <= |fs| && Sound(fs[a..b]) && BlocksOf(fs[a..b]) == groups[k]
            && es[k].position == (if k == 0 then 0 else es[k - 1].EndPosition())
            && (k > 0 ==> es[k].start == es[k - 1].End())
            && (k == 0 ==> es[k].start == fs[0].block.Start())
            && (k == |groups| - 1 ==> es[k].End() == fs[|fs| - 1].block.End() && es[k].EndPosition() == |BytesOf(fs)|)
            && es[k].position <= es[k].EndPosition() <= |BytesOf(fs)|
            && Decode(BytesOf(fs)[es[k].position..es[k].EndPosition()]) == Ok(SourceRecords(fs[a..b]))
  {
    hide SourcesOk, Decode, BytesOf, AllLive, Concat, IndexOfGroups, TotalSize, TotalCount, LimitGroups;
    hide BlockRun, LiveOk, SortedIndex, SourceRecords, Runs;
    var fs := AllLive(sources, s, start);
    AllLiveRun(sources, s, start);
    RunIsRuns(fs, s, start);
    RegroupedSorted(groups, threshold + 1);
    a, b := RewritePreserves(fs, groups, k);
    IndexTiles(groups, k);
    SoundSizes(fs);
    BytesSize(fs);
    EntriesMeet(fs, groups, k);
  }

  /** The sources' entries were read from their index blocks. */
  predicate SourcesEncoded(sources: seq<Source>) {
    forall i :: 0 <= i < |sources| ==> AllIndexEncodable(sources[i].index)
  }

  lemma {:induction false} LiveEncoded(src: Source, start: nat, n: nat)
    requires AllIndexEncodable(src.index) && n <= |src.index|
    requires forall k: nat :: k < |src.index| ==> src.index[k].EndPosition() <= |src.data|
    ensures FromIndexes(BlocksOf(Live(src, start, n)))
  {
    hide IndexEncodable, Live;
    NoLive(src, start);
    if n > 0 {
      LiveEncoded(src, start, n - 1);
      LiveNext(src, start, n - 1);
      var f := Fetch1(src, src.index[n - 1]);
      assert BlocksOf([f]) == [f.block];
      FromBoth(Live(src, start, n - 1), [f]);
      assert Live(src, start, n - 1) + [] == Live(src, start, n - 1);
    } else {
      assert BlocksOf([]) == [];
    }
  }

  lemma {:induction false} AllLiveEncoded(sources: seq<Source>, s: nat, start: nat)
    requires SourcesOk(sources, s) && SourcesEncoded(sources)
    ensures FromIndexes(BlocksOf(AllLive(sources, s, start)))
  {
    hide SourceOk, SourcesMeet, Live, IndexEncodable, AllIndexEncodable;
    if sources != [] {
      var n := |sources| - 1;
      InData(sources[n], s);
      AllLiveEncoded(sources[..n], s, start);
      LiveEncoded(sources[n], start, |sources[n].index|);
      FromBoth(AllLive(sources[..n], s, start), Live(sources[n], start, |sources[n].index|));
    }
  }

  lemma FromBoth(a: seq<Fetched>, b: seq<Fetched>)
    requires FromIndexes(BlocksOf(a)) && FromIndexes(BlocksOf(b))
    ensures FromIndexes(BlocksOf(a + b))
  {
    hide IndexEncodable;
    forall i | 0 <= i < |a + b| ensures IndexEncodable(BlocksOf(a + b)[i].index) {
      if i < |a| {
        assert IndexEncodable(BlocksOf(a)[i].index);
      } else {
        assert IndexEncodable(BlocksOf(b)[i - |a|].index);
      }
    }
  }

  /**
   * Reading the merged object: a lookup on its stored index finds something exactly when a live
   * source block serves the offset, and the found region decodes to the records of consecutive
   * live blocks, in order, all remaining ones unless the end offset or the budget stops it.
   */
  lemma MergedServes(sources: seq<Source>, s: nat, start: nat, threshold: nat, groups: seq<seq<StreamDataBlock>>,
                     from: nat, end: nat, max: nat) returns (a: nat, b: nat)
    requires SourcesOk(sources, s) && SourcesEncoded(sources) && threshold < U32
    requires var fs := AllLive(sources, s, start);
             && Sound(fs) && Concat(groups) == BlocksOf(fs) && LimitGroups(groups, threshold + 1)
             && |BytesOf(fs)| < U64 && |groups| * BLOCK_INDEX_SIZE < U32
    ensures var fs := AllLive(sources, s, start);
            && GroupsForward(groups) && WellFormed(RewrittenBytes(fs, groups))
            && var obj := RewrittenBytes(fs, groups);
               var r := Lookup(StoredIndex(obj), s, from, end, max);
               && (r.blocks == [] <==> forall k :: 0 <= k < |fs| ==> !Serves(fs[k].block, s, from))
               && (r.blocks != [] ==>
                     var x, y := r.blocks[0].position, r.blocks[|r.blocks| - 1].EndPosition();
                     && Answer(fs, a, b, s, from, end, r) && Sound(fs[a..b]) && x <= y <= |obj|
                     && Decode(obj[x..y]) == Ok(SourceRecords(fs[a..b])))
  {
    hide SourcesOk, SourcesEncoded, Decode, BytesOf, AllLive, Concat, IndexOfGroups, LimitGroups, BlockRun, LiveOk;
    hide SourceRecords, Runs, Sound, FromIndexes, RewrittenBytes, WellFormed, StoredIndex, Answer, Lookup, Nonempty;
    var fs := AllLive(sources, s, start);
    AllLiveRun(sources, s, start);
    RunIsRuns(fs, s, start);
    AllLiveEncoded(sources, s, start);
    a, b := RewriteServesSources(fs, groups, threshold + 1, s, from, end, max);
  }

  /** A source block that reaches past the stream's start is live. */
  lemma {:induction false} LiveHolds(src: Source, start: nat, n: nat, j: nat)
    requires n <= |src.index| && forall k: nat :: k < |src.index| ==> src.index[k].EndPosition() <= |src.data|
    requires j < n && src.index[j].End() > start
    ensures Fetch1(src, src.index[j]) in Live(src, start, n)
  {
    if j < n - 1 {
      LiveHolds(src, start, n - 1, j);
    }
  }

  lemma {:induction false} AllLiveHolds(sources: seq<Source>, s: nat, start: nat, k: nat, j: nat)
    requires SourcesOk(sources, s) && k < |sources| && j < |sources[k].index|
    ensures sources[k].index[j].EndPosition() <= |sources[k].data|
    ensures sources[k].index[j].End() > start ==> Fetch1(sources[k], sources[k].index[j]) in AllLive(sources, s, start)
  {
    var n := |sources| - 1;
    InData(sources[k], s);
    if k < n {
      AllLiveHolds(sources[..n], s, start, k, j);
    } else if sources[k].index[j].End() > start {
      LiveHolds(sources[n], start, |sources[n].index|, j);
    }
  }

  /** Every offset from the stream's start on that a source's entry contained is found in the merged
      object. */
  lemma MergedServesSource(sources: seq<Source>, s: nat, start: nat, threshold: nat,
                           groups: seq<seq<StreamDataBlock>>, k: nat, j: nat, o: nat, end: nat, max: nat)
    requires SourcesOk(sources, s) && SourcesEncoded(sources) && threshold < U32
    requires var fs := AllLive(sources, s, start);
             && Sound(fs) && Concat(groups) == BlocksOf(fs) && LimitGroups(groups, threshold + 1)
             && |BytesOf(fs)| < U64 && |groups| * BLOCK_INDEX_SIZE < U32
    requires k < |sources| && j < |sources[k].index| && Contains(sources[k].index[j], s, o) && start <= o
    ensures var fs := AllLive(sources, s, start);
            && GroupsForward(groups) && WellFormed(RewrittenBytes(fs, groups))
            && Lookup(StoredIndex(RewrittenBytes(fs, groups)), s, o, end, max).blocks != []
  {
    hide SourcesOk, SourcesEncoded, Decode, BytesOf, AllLive, Concat, LimitGroups, Sound, RewrittenBytes, WellFormed;
    hide StoredIndex, Lookup, Answer;
    var fs := AllLive(sources, s, start);
    AllLiveHolds(sources, s, start, k, j);
    var i :| 0 <= i < |fs| && fs[i] == Fetch1(sources[k], sources[k].index[j]);
    assert Serves(fs[i].block, s, o);
    var _, _ := MergedServes(sources, s, start, threshold, groups, o, end, max);
  }

  /** An entry spans its group. */
  lemma EntryEnds(groups: seq<seq<StreamDataBlock>>, k: nat)
    requires GroupsForward(groups) && k < |groups|
    ensures var es := IndexOfGroups(groups);
            groups[k] != [] && es[k].start == groups[k][0].Start() && es[k].End() == groups[k][|groups[k]| - 1].End()
  {
    hide Concat, IndexOfGroups, TotalSize, TotalCount;
    EntryPlace(groups, k);
  }

  lemma EntriesMeet(fs: seq<Fetched>, groups: seq<seq<StreamDataBlock>>, k: nat)
    requires Concat(groups) == BlocksOf(fs) && GroupsForward(groups) && k < |groups| && OneRun(BlocksOf(fs))
    ensures var es := IndexOfGroups(groups);
            && (k > 0 ==> es[k].start == es[k - 1].End())
            && (k == 0 ==> es[k].start == fs[0].block.Start())
            && (k == |groups| - 1 ==> es[k].End() == fs[|fs| - 1].block.End())
  {
    hide Concat, IndexOfGroups, GroupsForward, OneRun;
    OuterEnds(BlocksOf(fs), groups);
    if k > 0 {
      NeighboursMeet(BlocksOf(fs), groups, k);
    }
  }

  lemma OuterEnds(all: seq<StreamDataBlock>, groups: seq<seq<StreamDataBlock>>)
    requires Concat(groups) == all && GroupsForward(groups) && groups != []
    ensures all != [] && IndexOfGroups(groups)[0].start == all[0].Start()
    ensures IndexOfGroups(groups)[|groups| - 1].End() == all[|all| - 1].End()
  {
    hide Concat, IndexOfGroups, GroupsForward;
    var n := |groups| - 1;
    EntryEnds(groups, 0);
    EntryEnds(groups, n);
    GroupAt(groups, 0);
    GroupAt(groups, n);
    ConcatNone();
    assert groups[..0] == [] && groups[..n + 1] == groups;
  }

  lemma NeighboursMeet(all: seq<StreamDataBlock>, groups: seq<seq<StreamDataBlock>>, k: nat)
    requires Concat(groups) == all && GroupsForward(groups) && 0 < k < |groups| && OneRun(all)
    ensures IndexOfGroups(groups)[k].start == IndexOfGroups(groups)[k - 1].End()
  {
    hide Concat, IndexOfGroups, GroupsForward, OneRun;
    EntryEnds(groups, k);
    EntryEnds(groups, k - 1);
    GroupAt(groups, k);
    GroupAt(groups, k - 1);
    MeetInRun(all, |Concat(groups[..k])|);
  }

  lemma MeetInRun(blocks: seq<StreamDataBlock>, i: nat)
    requires OneRun(blocks) && 0 < i < |blocks|
    ensures blocks[i].Start() == blocks[i - 1].End()
  {
  }

  /** The reader's size and geometry checks hold for any data section, index and footer. */
  lemma GeometryHolds(data: Bytes, es: seq<DataBlockIndex>)
    requires |data| < U64 && |es| * BLOCK_INDEX_SIZE < U32
    ensures WellFormed(data + EncodeIndexes(es) + Footer(|data|, |EncodeIndexes(es)|))
  {
    hide Get, EncodeIndexes, Footer;
    var index := EncodeIndexes(es);
    var footer := Footer(|data|, |index|);
    var obj := data + index + footer;
    assert obj[|obj| - FOOTER_SIZE..] == footer;
    FooterFields(|data|, |index|);
  }
}
