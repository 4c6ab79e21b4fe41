/** The log protocol gives the layer above exactly the replay that crash recovery relies on. */
module WalBridge {
  import opened Records
  import opened WalLayout
  import opened WalProtocol
  import opened WalInvariant
  import opened WalSafety
  import opened WalReplay
  import opened WalTakeover
  import opened WalEpochs
  import C = CrashRecovery

  /** The log holds submitted user records and the sentinels that trims append, nothing else. */
  predicate Clean(records: seq<Record>) {
    forall i :: 0 <= i < |records| ==> records[i].IsUser() || records[i].IsSentinel()
  }

  predicate CleanUploads(u: Uploads) {
    && (forall i :: 0 <= i < |u.log| ==> Clean(u.log[i].records))
    && (u.active.Some? ==> Clean(u.active.value.records))
  }

  lemma PlaceClean(u: Uploads, r: Record, sealAfter: bool)
    requires CleanUploads(u) && (r.IsUser() || r.IsSentinel())
    ensures CleanUploads(Place(u, r, sealAfter))
  {
    hide FramedSum;
  }

  lemma StepClean(s: State, a: Action)
    requires CleanUploads(s.up) && Enabled(s, a)
    ensures CleanUploads(Apply(s, a).up)
  {
    hide CountOk, Place;
    if a.Submit? {
      PlaceClean(s.up, a.record, a.sealAfter);
    } else if a.AppendSentinel? {
      PlaceClean(s.up, SENTINEL, a.sealAfter);
    }
  }

  lemma {:induction false} RunClean(run: seq<State>, n: nat)
    requires IsRun(run) && n < |run|
    ensures CleanUploads(run[n].up)
  {
    hide Enabled, Apply;
    if n > 0 {
      RunClean(run, n - 1);
      assert Step(run[n - 1], run[n]);
      var a :| Enabled(run[n - 1], a) && Apply(run[n - 1], a) == run[n];
      StepClean(run[n - 1], a);
    }
  }

  lemma BulkClean(b: Bulk, e: Entry)
    requires Clean(b.records) && e in b.Entries()
    ensures e.record.IsUser() || e.record.IsSentinel()
  {
    hide SortRecords, Layout;
    var sorted := SortRecords(b.records);
    SortKeeps(b.records);
    var i :| 0 <= i < |b.Entries()| && b.Entries()[i] == e;
    LayoutLength(b.base, sorted);
    LayoutAt(b.base, sorted, i);
    assert sorted[i] in multiset(sorted);
    assert sorted[i] in b.records;
  }

  lemma {:induction false} LayoutLength(base: nat, records: seq<Record>)
    ensures |Layout(base, records)| == |records|
  {
    if records != [] {
      LayoutLength(base, records[..|records| - 1]);
    }
  }

  lemma {:induction false} LogClean(bulks: seq<Bulk>, e: Entry)
    requires forall i :: 0 <= i < |bulks| ==> Clean(bulks[i].records)
    requires e in EntriesOf(bulks)
    ensures e.record.IsUser() || e.record.IsSentinel()
  {
    hide Bulk.Entries, Clean;
    var n := |bulks|;
    if n > 0 {
      if e in bulks[n - 1].Entries() {
        BulkClean(bulks[n - 1], e);
      } else {
        LogClean(bulks[..n - 1], e);
      }
    }
  }

  lemma AboveUser(bulks: seq<Bulk>, t: int)
    requires forall i :: 0 <= i < |bulks| ==> Clean(bulks[i].records)
    ensures C.AllUser(Above(EntriesOf(bulks), t))
  {
    hide Clean, Above, EntriesOf;
    var es := EntriesOf(bulks);
    forall i | 0 <= i < |Above(es, t)| ensures Above(es, t)[i].record.IsUser() {
      AboveMembers(es, t, Above(es, t)[i]);
      LogClean(bulks, Above(es, t)[i]);
    }
  }

  /** Filtering twice is filtering by the higher point. */
  lemma {:induction false} AboveTwice(entries: seq<Entry>, t: int)
    requires -1 <= t
    ensures Above(Above(entries, -1), t) == Above(entries, t)
  {
    if entries != [] {
      var init, e := entries[..|entries| - 1], entries[|entries| - 1];
      AboveTwice(init, t);
      if Delivered(e, -1) {
        AboveConcat(Above(init, -1), [e], t);
        assert [e][..0] == [];
      }
    }
  }

  /** A prefix of the confirmed user records: what the in-order completions have delivered. */
  ghost predicate Seen(s: State, seen: seq<Entry>) {
    var ok := CountOk(s.done.outcome);
    ok <= |s.up.log| && seen <= Above(EntriesOf(s.up.log[..ok]), -1)
  }

  /** Objects of earlier epochs that the writer found: they end at or before its first offset and
      hold user records and sentinels. */
  predicate OldsFound(olds: seq<WalObject>, epoch: nat, start: nat) {
    && WellFormed(olds)
    && forall o :: o in olds ==> o.epoch < epoch && o.end <= start && CleanObject(o)
  }

  predicate CleanObject(o: WalObject) {
    forall e :: e in o.entries ==> e.offset < o.end && (e.record.IsUser() || e.record.IsSentinel())
  }

  /** The trims that were asked for behind the reset at startup are at most `requested`. */
  ghost predicate RequestedUpTo(s: State, requested: int) {
    -1 <= requested
    && forall c :: 0 <= c < |s.tr.calls| && s.tr.calls[c].offset >= s.up.start ==> s.tr.calls[c].offset <= requested
  }

  /**
   * Let the layer above have seen any prefix of the confirmed user records, and let the listing
   * also hold objects of earlier epochs. Then whatever the interleaving was, and whether or not
   * anything has reached the store, the log replays those records above a trim point that was
   * really requested, in order, followed only by further user records, with ascending offsets.
   * Once something is confirmed, the older objects must abut; `OrderedAbut` says when they do.
   */
  lemma ReplayServesRecovery(run: seq<State>, n: nat, epoch: nat, olds: seq<WalObject>, seen: seq<Entry>,
                             requested: int)
    requires IsRun(run) && n < |run| && Seen(run[n], seen) && RequestedUpTo(run[n], requested)
    requires OldsFound(olds, epoch, run[n].up.start)
    requires var own := Listing(run[n], epoch, 0);
             CountOk(run[n].done.outcome) > 0 ==>
               own != [] && Abuts(KeptOlds(olds, own), TrimOffset(own), own[0].start)
    ensures C.ReplayOf(seen, requested, Replay(SkipOverlap(olds + Listing(run[n], epoch, 0))))
    ensures CountOk(run[n].done.outcome) > 0 || (forall o :: o in olds ==> Laid(o)) ==>
              Ascending(Replay(SkipOverlap(olds + Listing(run[n], epoch, 0))))
  {
    hide Inv, IsRun, Above, EntriesOf, Replay, Listing, CountOk, SkipOverlap, KeptOlds, Abuts, Seen;
    hide Laid, Ascending, Faithful, OldsFound, C.ReplayOf;
    var s := run[n];
    var own := Listing(s, epoch, 0);
    RunInv(run, n);
    RunClean(run, n);
    InvFaithful(s);
    ListingLaid(s, epoch, 0);
    if CountOk(s.done.outcome) == 0 {
      if forall o :: o in olds ==> Laid(o) {
        SkippedListed(olds + own);
        ReplayAscends(SkipOverlap(olds + own));
      }
      NothingSeen(s, seen);
      ListingClean(s, epoch, 0);
      AnyReplayClean(SkipOverlap(olds + own), olds, own, epoch, s.up.start);
      OnlyExtra(requested, Replay(SkipOverlap(olds + own)));
    } else {
      OldsDropOut(s, epoch, olds);
      ReplayAscends(own);
      OwnReplayServes(s, epoch, seen, requested);
    }
  }

  lemma SkippedListed(objects: seq<WalObject>)
    ensures forall o :: o in SkipOverlap(objects) ==> o in objects
  {
  }

  lemma NothingSeen(s: State, seen: seq<Entry>)
    requires Seen(s, seen) && CountOk(s.done.outcome) == 0
    ensures seen == []
  {
    assert s.up.log[..0] == [];
  }

  lemma OnlyExtra(requested: int, replay: seq<Entry>)
    requires -1 <= requested && C.AllUser(replay)
    ensures C.ReplayOf([], requested, replay)
  {
    assert replay == Above([], -1) + replay;
    ReplayIs([], requested, -1, replay);
  }

  lemma {:induction false} ListingClean(s: State, epoch: nat, i: nat)
    requires Inv(s) && CleanUploads(s.up)
    ensures forall o :: o in Listing(s, epoch, i) ==> CleanObject(o)
    decreases |s.up.log| - i
  {
    hide Inv, Bulk.Entries, CleanUploads;
    if i < |s.up.log| {
      ListingClean(s, epoch, i + 1);
      if s.st.Holds(i) {
        ListedClean(s, epoch, i);
      }
    }
  }

  lemma ListedClean(s: State, epoch: nat, i: nat)
    requires Inv(s) && CleanUploads(s.up) && i < |s.up.log| && s.st.Holds(i)
    ensures CleanObject(Listed(s, epoch, i))
  {
    hide Inv, Bulk.Entries, Clean;
    InvFaithful(s);
    BulkEntries(s.up.log[i]);
    forall e | e in s.up.log[i].Entries() ensures e.record.IsUser() || e.record.IsSentinel() {
      BulkClean(s.up.log[i], e);
    }
  }

  /** Whatever is delivered from clean objects is a user record. */
  lemma AnyReplayClean(all: seq<WalObject>, olds: seq<WalObject>, own: seq<WalObject>, epoch: nat, start: nat)
    requires OldsFound(olds, epoch, start) && (forall o :: o in own ==> CleanObject(o))
    requires all == SkipOverlap(olds + own)
    ensures C.AllUser(Replay(all))
  {
    hide Above, Continuous, FirstOverlapped, EntriesIn;
    var t := TrimOffset(all);
    var entries := EntriesIn(Continuous(all, t));
    forall i | 0 <= i < |Replay(all)| ensures Replay(all)[i].record.IsUser() {
      var e := Above(entries, t)[i];
      AboveMembers(entries, t, e);
      var o := EntryHome(Continuous(all, t), e);
      ContinuousListed(all, t);
      assert o in olds + own;
    }
  }

  lemma OldsDropOut(s: State, epoch: nat, olds: seq<WalObject>)
    requires Inv(s) && OldsFound(olds, epoch, s.up.start)
    requires var own := Listing(s, epoch, 0);
             own != [] && Abuts(KeptOlds(olds, own), TrimOffset(own), own[0].start)
    ensures Replay(SkipOverlap(olds + Listing(s, epoch, 0))) == Replay(Listing(s, epoch, 0))
  {
    hide Inv, Replay, Listing, SkipOverlap, FirstOverlapped, Abuts;
    var own := Listing(s, epoch, 0);
    InvFaithful(s);
    ListingFacts(s, epoch, 0);
    SkipOverlapKeepsNew(olds, own, epoch);
    var newest := NewestExists(s, epoch);
    NewestInLog(s, newest);
    ListingLast(s, epoch, 0, newest);
    PutsRequested(s);
    var kept := KeptOlds(olds, own);
    assert forall o :: o in kept ==> o in olds;
    OldsAddNothing(kept, own, s.up.start);
  }

  lemma NewestExists(s: State, epoch: nat) returns (newest: nat)
    requires Faithful(s) && Listing(s, epoch, 0) != []
    ensures IsNewest(s, newest)
  {
    hide Faithful, Listing;
    var k := |s.up.log|;
    HoldsInLog(s);
    newest := LastHeld(s, epoch, k);
  }

  lemma HoldsInLog(s: State)
    requires Faithful(s)
    ensures forall i: nat :: s.st.Holds(i) ==> i < |s.up.log|
  {
  }

  lemma {:induction false} LastHeld(s: State, epoch: nat, k: nat) returns (newest: nat)
    requires Listing(s, epoch, 0) != [] && forall i: nat :: s.st.Holds(i) ==> i < k
    ensures IsNewest(s, newest)
    decreases k
  {
    if k == 0 {
      ListingEmpty(s, epoch, 0);
      assert false;
    } else if s.st.Holds(k - 1) {
      newest := k - 1;
    } else {
      newest := LastHeld(s, epoch, k - 1);
    }
  }

  /** The writer's own objects replay what was seen above the persisted trim, then user records. */
  lemma OwnReplayIs(s: State, epoch: nat, seen: seq<Entry>, newest: nat) returns (extra: seq<Entry>)
    requires Inv(s) && CleanUploads(s.up) && Seen(s, seen) && IsNewest(s, newest)
    ensures Replay(Listing(s, epoch, 0)) == Above(seen, s.st.puts[newest].trim) + extra && C.AllUser(extra)
  {
    hide Inv, Above, EntriesOf, Replay, Listing, CountOk, Clean;
    var t, ok := s.st.puts[newest].trim, CountOk(s.done.outcome);
    var p, r := ReplayExactInv(s, epoch, newest);
    PutsRequested(s);
    var log := EntriesOf(s.up.log[..ok]);
    var more := Above(log, -1)[|seen|..];
    assert Above(log, -1) == seen + more;
    AboveTwice(log, t);
    AboveConcat(seen, more, t);
    SliceUser(s.up, 0, ok, t);
    SliceUser(s.up, p, r, t);
    assert s.up.log[0..ok] == s.up.log[..ok];
    SuffixUser(Above(seen, t), Above(more, t));
    extra := Above(more, t) + Above(EntriesOf(s.up.log[p..r]), t);
  }

  lemma SliceUser(u: Uploads, p: nat, r: nat, t: int)
    requires CleanUploads(u) && p <= r <= |u.log|
    ensures C.AllUser(Above(EntriesOf(u.log[p..r]), t))
  {
    hide Clean, Above, EntriesOf;
    AboveUser(u.log[p..r], t);
  }

  lemma OwnReplayServes(s: State, epoch: nat, seen: seq<Entry>, requested: int)
    requires Inv(s) && CleanUploads(s.up) && Seen(s, seen) && RequestedUpTo(s, requested)
    requires Listing(s, epoch, 0) != []
    ensures C.ReplayOf(seen, requested, Replay(Listing(s, epoch, 0)))
  {
    hide Inv, Above, EntriesOf, Replay, Listing, CountOk, Seen, CleanUploads, C.ReplayOf, C.AllUser;
    hide Faithful, RequestedUpTo;
    InvFaithful(s);
    var newest := NewestExists(s, epoch);
    var extra := OwnReplayIs(s, epoch, seen, newest);
    var t := NewestTrim(s, newest, requested);
    if t == s.up.start - 1 {
      SeenAboveReset(s, seen);
      ReplayIs(seen, requested, -1, extra);
    } else {
      ReplayIs(seen, requested, t, extra);
    }
  }

  lemma NewestTrim(s: State, newest: nat, requested: int) returns (t: int)
    requires Inv(s) && IsNewest(s, newest) && RequestedUpTo(s, requested)
    ensures t == s.st.puts[newest].trim && t >= s.up.start - 1 && (t == s.up.start - 1 || t <= requested)
    ensures -1 <= requested
  {
    hide Inv;
    PutsRequested(s);
    t := s.st.puts[newest].trim;
  }

  lemma ReplayIs(log: seq<Entry>, requested: int, t: int, extra: seq<Entry>)
    requires t <= requested && C.AllUser(extra)
    ensures C.ReplayOf(log, requested, Above(log, t) + extra)
  {
  }

  /** The reset at startup trims nothing that was confirmed after it. */
  lemma SeenAboveReset(s: State, seen: seq<Entry>)
    requires Inv(s) && Seen(s, seen)
    ensures Above(seen, s.up.start - 1) == seen && Above(seen, -1) == seen
  {
    hide Inv, Above, EntriesOf, CountOk, Bulk.Entries;
    var ok := CountOk(s.done.outcome);
    var log := EntriesOf(s.up.log[..ok]);
    InvFaithful(s);
    forall e | e in seen ensures e.offset >= s.up.start && Delivered(e, -1) {
      AboveMembers(log, -1, e);
      LogFrom(s.up.log[..ok], s.up.start, e);
    }
    AboveAll(seen, s.up.start - 1);
    AboveAll(seen, -1);
  }

  lemma {:induction false} AboveAll(entries: seq<Entry>, t: int)
    requires forall e :: e in entries ==> Delivered(e, t)
    ensures Above(entries, t) == entries
  {
    if entries != [] {
      AboveAll(entries[..|entries| - 1], t);
    }
  }

  lemma {:induction false} LogFrom(bulks: seq<Bulk>, start: nat, e: Entry)
    requires (forall i :: 0 <= i < |bulks| ==> bulks[i].Ok() && bulks[i].base >= start) && e in EntriesOf(bulks)
    ensures e.offset >= start
  {
    hide Bulk.Entries;
    var n := |bulks| - 1;
    if e in bulks[n].Entries() {
      BulkEntries(bulks[n]);
    } else {
      LogFrom(bulks[..n], start, e);
    }
  }

  /** Older objects that ascend in the address space abut as soon as something is confirmed. */
  lemma OrderedAbut(run: seq<State>, n: nat, epoch: nat, olds: seq<WalObject>)
    requires IsRun(run) && n < |run| && CountOk(run[n].done.outcome) > 0
    requires OldsFound(olds, epoch, run[n].up.start) && ByStart(olds)
    requires olds != [] ==> olds[|olds| - 1].end == run[n].up.start
    ensures var own := Listing(run[n], epoch, 0);
            own != [] && Abuts(KeptOlds(olds, own), TrimOffset(own), own[0].start)
  {
    hide Inv, IsRun, Listing, Abuts, OldsFound, ByStart, KeptOlds;
    var s := run[n];
    var own := Listing(s, epoch, 0);
    RunInv(run, n);
    OwnFirst(s, epoch);
    OldsFacts(olds, epoch, s.up.start);
    NoOverlap(olds, own, s.up.start);
    OrderedLinks(olds, s.up.start, TrimOffset(own), own[0].start);
  }

  lemma OldsFacts(olds: seq<WalObject>, epoch: nat, start: nat)
    requires OldsFound(olds, epoch, start)
    ensures WellFormed(olds) && forall o :: o in olds ==> o.end <= start
  {
  }

  /** Until a trim behind the reset is persisted, the writer's first object starts at its start. */
  lemma OwnFirst(s: State, epoch: nat)
    requires Inv(s) && CountOk(s.done.outcome) > 0
    ensures var own := Listing(s, epoch, 0);
            && own != [] && (forall o :: o in own ==> o.start >= s.up.start)
            && TrimOffset(own) >= s.up.start - 1
            && (TrimOffset(own) == s.up.start - 1 ==> own[0].start == s.up.start)
  {
    hide Inv, Listing, Faithful, Bulk.Entries, CountOk;
    InvFaithful(s);
    LastAckedStays(s);
    var newest := NewestOf(s, CountOk(s.done.outcome) - 1);
    NewestInLog(s, newest);
    ListingLast(s, epoch, 0, newest);
    TrimFromStart(s, newest);
    ListingStarts(s, epoch, 0);
    if s.st.puts[newest].trim == s.up.start - 1 {
      FirstStays(s, epoch, newest);
    }
  }

  lemma TrimFromStart(s: State, newest: nat)
    requires Inv(s) && IsNewest(s, newest)
    ensures s.st.puts[newest].trim >= s.up.start - 1
  {
    hide Inv;
    PutsRequested(s);
  }

  lemma OrderedLinks(olds: seq<WalObject>, start: nat, t: int, next: nat)
    requires ByStart(olds) && WellFormed(olds) && forall o :: o in olds ==> o.end <= start
    requires olds != [] ==> olds[|olds| - 1].end == start
    requires t >= start - 1 && (t == start - 1 ==> next == start)
    ensures Abuts(olds, t, next)
  {
    forall i: nat | i < |olds| ensures LinkedAt(olds, t, next, i) {
      assert olds[i] in olds;
      if i + 1 < |olds| {
        assert olds[i + 1] in olds;
      }
    }
  }

  lemma {:induction false} NewestOf(s: State, i: nat) returns (newest: nat)
    requires Faithful(s) && s.st.Holds(i)
    ensures IsNewest(s, newest)
    decreases |s.up.log| - i
  {
    if j: nat :| i < j && s.st.Holds(j) {
      HoldsInLog(s);
      newest := NewestOf(s, j);
    } else {
      newest := i;
    }
  }

  lemma NoOverlap(olds: seq<WalObject>, own: seq<WalObject>, start: nat)
    requires ByStart(olds) && (forall o :: o in olds ==> o.end <= start) && (forall o :: o in own ==> o.start >= start)
    ensures KeptOlds(olds, own) == olds
  {
    if olds != [] {
      var all := olds + own;
      forall j | 0 < j < |all| ensures all[0].end <= all[j].start {
        if j >= |olds| {
          assert all[j] in own && all[0] in olds;
        }
      }
    }
  }

  /** As long as only the reset is persisted, the first confirmed object is in the store. */
  lemma FirstStays(s: State, epoch: nat, newest: nat)
    requires Inv(s) && IsNewest(s, newest) && CountOk(s.done.outcome) > 0 && s.st.puts[newest].trim == s.up.start - 1
    ensures Listing(s, epoch, 0) != [] && Listing(s, epoch, 0)[0].start == s.up.start
  {
    hide Inv, FirstPast;
    InvFaithful(s);
    AckedRunStored(s, newest);
    AckedPrefix(s);
    AckedStored(s, 0);
    if !s.st.Holds(0) {
      DeletedBelowTrimInv(s, 0, newest);
      BulkEntries(s.up.log[0]);
      assert false;
    }
  }

  lemma SuffixUser(a: seq<Entry>, b: seq<Entry>)
    requires C.AllUser(a + b)
    ensures C.AllUser(b)
  {
    forall i | 0 <= i < |b| ensures b[i].record.IsUser() {
      assert (a + b)[|a| + i] == b[i];
    }
  }
}
