/** What every step of the node keeps, across crashes, recoveries and reruns. */
module CrashSafety {
  import opened Records
  import opened WalLayout
  import P = Pipeline
  import opened RecoveryFilter
  import opened CrashRecovery

  // ---- Invariant ---------------------------------------------------------------------------------

  /** Uncommitted log records of an open stream continue its committed end; a closed one has none. */
  ghost predicate StreamOk(log: seq<Entry>, frontier: nat, ends: map<nat, nat>, open: set<nat>, s: nat)
    requires frontier <= |log|
  {
    && (s in open ==> s in ends && ContiguousFrom(Pending(log, frontier, s), ends[s]))
    && (s !in open ==> Pending(log, frontier, s) == [])
  }

  /** So it is for every stream that was not closed with uncommitted records. */
  ghost predicate Streams(log: seq<Entry>, frontier: nat, ends: map<nat, nat>, open: set<nat>, broken: set<nat>) {
    && frontier <= |log|
    && (forall s :: s in open ==> s in ends)
    && (forall s :: s !in broken ==> StreamOk(log, frontier, ends, open, s))
  }

  /** Committed records of a stream are one gap-free run from offset zero to its end offset. */
  ghost predicate Stored(committed: seq<Record>, ends: map<nat, nat>) {
    && Positive(committed)
    && (forall s :: s in ends ==>
          ContiguousFrom(OfStream(committed, s), 0) && EndOf(OfStream(committed, s), 0) == ends[s])
    && (forall s :: s !in ends ==> OfStream(committed, s) == [])
  }

  /** Handled log records end at or before their stream's end offset. */
  ghost predicate Below(log: seq<Entry>, frontier: nat, ends: map<nat, nat>, broken: set<nat>) {
    && frontier <= |log|
    && forall i :: 0 <= i < frontier && log[i].record.streamId !in broken ==>
         log[i].record.streamId in ends && log[i].record.LastOffset() <= ends[log[i].record.streamId]
  }

  /** Everything acknowledged is committed, still in the log's uncommitted part, or exposed. */
  ghost predicate Safe(acked: seq<Record>, committed: seq<Record>, log: seq<Entry>, frontier: nat,
                       exposed: set<Record>)
  {
    && frontier <= |log|
    && forall x :: x in acked ==> x in committed || x in RecordsOf(log[frontier..]) || x in exposed
  }

  /** What the exposed records are. */
  ghost predicate Exposure(sys: Sys) {
    && sys.frontier <= |sys.log| && sys.reopened <= sys.broken
    && (sys.log == [] ==> sys.broken == {})
    && (forall s :: s in sys.broken && s in sys.open ==> s in sys.reopened)
    && (forall x :: x in RecordsOf(sys.log) || x in sys.exposed ==> x in sys.acked)
    && (forall x :: x in RecordsOf(sys.log[sys.frontier..]) && x.streamId in sys.broken ==> x in sys.exposed)
    && (forall x :: x in sys.exposed && x in RecordsOf(sys.log) ==> x.streamId in sys.broken)
    && (forall x :: x in sys.exposed && x in RecordsOf(sys.log) && x.streamId !in sys.reopened ==> x !in sys.committed)
  }

  /** No trim request reaches an uncommitted record. */
  predicate Trimmed(log: seq<Entry>, frontier: nat, requested: int, live: bool) {
    && Ascending(log) && AllUser(log) && frontier <= |log|
    && (frontier < |log| ==> requested < log[frontier].offset)
    && (live ==> requested <= if frontier == 0 then -1 else log[frontier - 1].offset)
  }

  /** Positions in the log where archived blocks end. */
  function BlockEnd(p: P.Pipe, i: nat): nat
    requires i <= |p.blocks|
  {
    |P.EntriesOfBlocks(p.blocks[..i])|
  }

  ghost predicate Frontier(p: P.Pipe, frontier: nat) {
    && (forall i :: 0 <= i < |p.blocks| ==> !p.blocks[i].status.Skipped?)
    && (forall i :: 0 <= i < |p.blocks| && p.blocks[i].status.Committed? ==> BlockEnd(p, i + 1) <= frontier)
    && p.com <= |p.blocks|
    && (!p.poisoned ==> frontier == BlockEnd(p, p.com))
  }

  /** The replay still to be handled starts in the handled part and runs through the rest of the log. */
  ghost predicate Replaying(rest: seq<Record>, at: nat, log: seq<Entry>, frontier: nat) {
    && Positive(rest)
    && (at <= frontier || frontier == |log|)
    && (at <= |log| ==> RecordsOf(log[at..]) <= rest)
  }

  /** The next append of a stream continues what it has in the log. */
  ghost predicate NextOk(sys: Sys)
    requires sys.frontier <= |sys.log|
  {
    forall s :: s in sys.open && s !in sys.broken && s in sys.ends ==>
      s in sys.next && sys.next[s] == EndOf(Pending(sys.log, sys.frontier, s), sys.ends[s])
  }

  ghost predicate Live(sys: Sys) {
    && P.Inv(sys.pipe) && sys.log == P.Confirmed(sys.pipe) && Frontier(sys.pipe, sys.frontier)
    && (sys.broken != {} ==> sys.pipe.poisoned)
    && Below(sys.log, sys.frontier, sys.ends, {}) && NextOk(sys)
  }

  ghost predicate ModeOk(sys: Sys) {
    match sys.mode
    case Running => Live(sys)
    case Down => true
    case Recovering(rest, at) => Replaying(rest, at, sys.log, sys.frontier)
    case Closing => sys.frontier == |sys.log|
  }

  ghost predicate Inv(sys: Sys) {
    && Streams(sys.log, sys.frontier, sys.ends, sys.open, sys.broken)
    && Stored(sys.committed, sys.ends)
    && Below(sys.log, sys.frontier, sys.ends, sys.broken)
    && Safe(sys.acked, sys.committed, sys.log, sys.frontier, sys.exposed)
    && Exposure(sys)
    && Trimmed(sys.log, sys.frontier, sys.requested, sys.mode.Running?)
    && ModeOk(sys)
  }

  lemma InitPipeOk()
    ensures P.Inv(P.InitPipe()) && P.Confirmed(P.InitPipe()) == [] && Frontier(P.InitPipe(), 0)
  {
    hide P.Inv;
    P.InitInv();
    assert P.InitPipe().blocks[..0] == [];
  }

  lemma InitInv()
    ensures Inv(Init())
  {
    hide P.Inv, P.Confirmed, Frontier;
    InitPipeOk();
  }

  // ---- Records of log slices -----------------------------------------------------------------------

  lemma RecordsConcat(a: seq<Entry>, b: seq<Entry>)
    ensures RecordsOf(a + b) == RecordsOf(a) + RecordsOf(b)
  {
  }

  lemma RecordsSplit(log: seq<Entry>, i: nat, j: nat)
    requires i <= j <= |log|
    ensures RecordsOf(log[i..]) == RecordsOf(log[i..j]) + RecordsOf(log[j..])
  {
    assert log[i..] == log[i..j] + log[j..];
    RecordsConcat(log[i..j], log[j..]);
  }

  lemma PendingSplit(log: seq<Entry>, i: nat, j: nat, s: nat)
    requires i <= j <= |log|
    ensures Pending(log, i, s) == OfStream(RecordsOf(log[i..j]), s) + Pending(log, j, s)
  {
    RecordsSplit(log, i, j);
    OfStreamConcat(RecordsOf(log[i..j]), RecordsOf(log[j..]), s);
  }

  lemma ContiguousParts(a: seq<Record>, b: seq<Record>, from: nat)
    requires ContiguousFrom(a + b, from)
    ensures ContiguousFrom(a, from) && ContiguousFrom(b, EndOf(a, from))
  {
    var c := a + b;
    forall i | 0 < i < |a| ensures a[i].baseOffset == a[i - 1].LastOffset() {
      assert c[i] == a[i] && c[i - 1] == a[i - 1];
    }
    forall i | 0 < i < |b| ensures b[i].baseOffset == b[i - 1].LastOffset() {
      assert c[|a| + i] == b[i] && c[|a| + i - 1] == b[i - 1];
    }
    if a == [] {
      assert c == b;
    } else if b != [] {
      assert c[|a|] == b[0] && c[|a| - 1] == a[|a| - 1];
    }
    assert a != [] ==> c[0] == a[0];
  }

  /** A gap-free run of positive records never moves backwards. */
  lemma {:induction false} RunForward(rs: seq<Record>, from: nat)
    requires ContiguousFrom(rs, from) && Positive(rs)
    ensures from <= EndOf(rs, from)
    ensures forall i :: 0 <= i < |rs| ==> rs[i].LastOffset() <= EndOf(rs, from)
  {
    hide Contiguous;
    if rs != [] {
      var n := |rs|;
      assert rs == rs[..n - 1] + [rs[n - 1]];
      ContiguousParts(rs[..n - 1], [rs[n - 1]], from);
      RunForward(rs[..n - 1], from);
      OneFrom(rs[n - 1], EndOf(rs[..n - 1], from));
    }
  }

  lemma OneFrom(x: Record, from: nat)
    requires ContiguousFrom([x], from)
    ensures x.baseOffset == from
  {
  }

  lemma {:induction false} OfStreamMembers(rs: seq<Record>, s: nat)
    ensures forall x :: x in OfStream(rs, s) <==> x in rs && x.streamId == s
  {
    if rs != [] {
      var init := rs[..|rs| - 1];
      OfStreamMembers(init, s);
      assert rs == init + [rs[|rs| - 1]];
    }
  }

  lemma OfStreamPositive(rs: seq<Record>, s: nat)
    requires Positive(rs)
    ensures Positive(OfStream(rs, s))
  {
    hide OfStream;
    OfStreamMembers(rs, s);
    forall i | 0 <= i < |OfStream(rs, s)| ensures OfStream(rs, s)[i].count > 0 {
      assert OfStream(rs, s)[i] in rs;
    }
  }

  // ---- Commits -------------------------------------------------------------------------------------

  /** A batch that continues every stream it touches. */
  ghost predicate Fits(rs: seq<Record>, ends: map<nat, nat>) {
    && Positive(rs)
    && (forall s :: s in ends ==> ContiguousFrom(OfStream(rs, s), ends[s]))
    && (forall s :: s !in ends ==> OfStream(rs, s) == [])
  }

  lemma AdvanceIs(rs: seq<Record>, ends: map<nat, nat>, s: nat)
    requires Fits(rs, ends) && s in ends
    ensures Advance(ends, rs)[s] == EndOf(OfStream(rs, s), ends[s]) >= ends[s]
  {
    hide OfStream;
    OfStreamPositive(rs, s);
    RunForward(OfStream(rs, s), ends[s]);
  }

  /** A fitting commit extends each stream's committed run without a gap or an overlap. */
  lemma CommitStored(committed: seq<Record>, rs: seq<Record>, ends: map<nat, nat>)
    requires Stored(committed, ends) && Fits(rs, ends)
    ensures Stored(committed + rs, Advance(ends, rs))
  {
    hide OfStream, Contiguous, EndOf;
    var ends' := Advance(ends, rs);
    forall s ensures OfStream(committed + rs, s) == OfStream(committed, s) + OfStream(rs, s) {
      OfStreamConcat(committed, rs, s);
    }
    forall s | s in ends'
      ensures ContiguousFrom(OfStream(committed + rs, s), 0) && EndOf(OfStream(committed + rs, s), 0) == ends'[s]
    {
      AdvanceIs(rs, ends, s);
      ContiguousConcat(OfStream(committed, s), OfStream(rs, s), 0);
    }
  }

  lemma AdvanceGrows(rs: seq<Record>, ends: map<nat, nat>)
    requires Fits(rs, ends)
    ensures Advance(ends, rs).Keys == ends.Keys
    ensures forall s :: s in ends ==> ends[s] <= Advance(ends, rs)[s]
  {
    hide OfStream, Fits, EndOf;
    forall s | s in ends ensures ends[s] <= Advance(ends, rs)[s] {
      AdvanceIs(rs, ends, s);
    }
  }

  /** After the commit the batch's own records are below the new ends. */
  lemma CommittedBelow(rs: seq<Record>, ends: map<nat, nat>, x: Record)
    requires Fits(rs, ends) && x in rs
    ensures x.streamId in ends && x.LastOffset() <= Advance(ends, rs)[x.streamId]
  {
    hide OfStream;
    var s := x.streamId;
    OfStreamMembers(rs, s);
    assert x in OfStream(rs, s);
    OfStreamPositive(rs, s);
    RunForward(OfStream(rs, s), ends[s]);
    AdvanceIs(rs, ends, s);
  }

  /** The batch begins, stream by stream, with the log from the frontier to `g`, and goes beyond it
      only when that is the end of the log. */
  ghost predicate Takes(rs: seq<Record>, log: seq<Entry>, frontier: nat, g: nat, broken: set<nat>) {
    && frontier <= g <= |log|
    && forall s :: s !in broken ==>
         && OfStream(RecordsOf(log[frontier..g]), s) <= OfStream(rs, s)
         && (g < |log| ==> OfStream(rs, s) == OfStream(RecordsOf(log[frontier..g]), s))
  }

  lemma TakenIn(rs: seq<Record>, log: seq<Entry>, frontier: nat, g: nat, broken: set<nat>, x: Record)
    requires Takes(rs, log, frontier, g, broken) && x in RecordsOf(log[frontier..g]) && x.streamId !in broken
    ensures x in rs
  {
    hide OfStream;
    var s := x.streamId;
    OfStreamMembers(RecordsOf(log[frontier..g]), s);
    OfStreamMembers(rs, s);
    assert x in OfStream(RecordsOf(log[frontier..g]), s);
    assert x in OfStream(rs, s);
  }

  lemma CommitBelow(rs: seq<Record>, log: seq<Entry>, frontier: nat, g: nat, ends: map<nat, nat>, broken: set<nat>)
    requires Below(log, frontier, ends, broken) && Takes(rs, log, frontier, g, broken) && Fits(rs, ends)
    ensures Below(log, g, Advance(ends, rs), broken)
  {
    hide OfStream, Fits, Takes, Advance;
    AdvanceGrows(rs, ends);
    assert frontier <= g <= |log| by { TakesBound(rs, log, frontier, g, broken); }
    forall i | frontier <= i < g && log[i].record.streamId !in broken
      ensures log[i].record.streamId in ends && log[i].record.LastOffset() <= Advance(ends, rs)[log[i].record.streamId]
    {
      assert RecordsOf(log[frontier..g])[i - frontier] == log[i].record;
      TakenIn(rs, log, frontier, g, broken, log[i].record);
      CommittedBelow(rs, ends, log[i].record);
    }
  }

  lemma TakesBound(rs: seq<Record>, log: seq<Entry>, frontier: nat, g: nat, broken: set<nat>)
    requires Takes(rs, log, frontier, g, broken)
    ensures frontier <= g <= |log|
  {
  }

  lemma EmptyRun(ends: map<nat, nat>, s: nat)
    ensures s in ends ==> ContiguousFrom([], ends[s]) && EndOf([], ends[s]) == ends[s]
  {
  }

  lemma NothingPending(log: seq<Entry>, s: nat)
    ensures Pending(log, |log|, s) == []
  {
    assert log[|log|..] == [];
  }

  /** One stream: what the batch took of it is committed, the rest stays pending. */
  lemma CommitStream(rs: seq<Record>, log: seq<Entry>, frontier: nat, g: nat, ends: map<nat, nat>, open: set<nat>,
                     broken: set<nat>, s: nat)
    requires Takes(rs, log, frontier, g, broken) && Fits(rs, ends) && s !in broken
    requires StreamOk(log, frontier, ends, open, s)
    ensures StreamOk(log, g, Advance(ends, rs), open, s)
    ensures g < |log| && s in open ==>
              EndOf(Pending(log, g, s), Advance(ends, rs)[s]) == EndOf(Pending(log, frontier, s), ends[s])
  {
    hide OfStream, Contiguous, Fits, Pending, Advance;
    var ends' := Advance(ends, rs);
    AdvanceGrows(rs, ends);
    PendingSplit(log, frontier, g, s);
    if g == |log| {
      NothingPending(log, s);
      EmptyRun(ends', s);
    } else if s in open {
      ContiguousParts(OfStream(rs, s), Pending(log, g, s), ends[s]);
      AdvanceIs(rs, ends, s);
    }
  }

  lemma CommitSafe(sys: Sys, rs: seq<Record>, g: nat)
    requires Safe(sys.acked, sys.committed, sys.log, sys.frontier, sys.exposed) && Exposure(sys)
    requires Takes(rs, sys.log, sys.frontier, g, sys.broken)
    ensures Safe(sys.acked, sys.committed + rs, sys.log, g, sys.exposed)
  {
    hide Takes;
    TakesBound(rs, sys.log, sys.frontier, g, sys.broken);
    RecordsSplit(sys.log, sys.frontier, g);
    forall x | x in RecordsOf(sys.log[sys.frontier..g])
      ensures x in sys.committed + rs || x in RecordsOf(sys.log[g..]) || x in sys.exposed
    {
      if x.streamId !in sys.broken {
        TakenIn(rs, sys.log, sys.frontier, g, sys.broken, x);
      } else {
        assert x in RecordsOf(sys.log[sys.frontier..]);
      }
    }
  }

  lemma CommitExposure(sys: Sys, rs: seq<Record>, g: nat, ends: map<nat, nat>)
    requires Exposure(sys) && sys.frontier <= g <= |sys.log|
    requires forall x :: x in rs && x.streamId in sys.broken ==> x.streamId in sys.open
    ensures Exposure(sys.(committed := sys.committed + rs, ends := ends, frontier := g))
  {
    RecordsSplit(sys.log, sys.frontier, g);
  }

  lemma CommitTrimmed(log: seq<Entry>, frontier: nat, g: nat, requested: int, live: bool)
    requires Trimmed(log, frontier, requested, live) && frontier <= g <= |log|
    ensures Trimmed(log, g, requested, live)
  {
  }

  /** Committing a batch that takes the log up to `g` keeps everything but the mode's own bookkeeping. */
  lemma CommitCore(sys: Sys, rs: seq<Record>, g: nat)
    requires Inv(sys) && Takes(rs, sys.log, sys.frontier, g, sys.broken) && Fits(rs, sys.ends)
    requires forall x :: x in rs && x.streamId in sys.broken ==> x.streamId in sys.open
    ensures var sys' := CommitRecords(sys, rs).(frontier := g);
            && Streams(sys'.log, g, sys'.ends, sys'.open, sys'.broken) && Stored(sys'.committed, sys'.ends)
            && Below(sys'.log, g, sys'.ends, sys'.broken)
            && Safe(sys'.acked, sys'.committed, sys'.log, g, sys'.exposed) && Exposure(sys')
            && Trimmed(sys'.log, g, sys'.requested, sys'.mode.Running?)
  {
    hide Fits, Stored, Below, Safe, ModeOk, Advance, Takes, Exposure, StreamOk, Trimmed;
    TakesBound(rs, sys.log, sys.frontier, g, sys.broken);
    AdvanceGrows(rs, sys.ends);
    forall s | s !in sys.broken ensures StreamOk(sys.log, g, Advance(sys.ends, rs), sys.open, s) {
      CommitStream(rs, sys.log, sys.frontier, g, sys.ends, sys.open, sys.broken, s);
    }
    CommitStored(sys.committed, rs, sys.ends);
    CommitBelow(rs, sys.log, sys.frontier, g, sys.ends, sys.broken);
    CommitSafe(sys, rs, g);
    CommitExposure(sys, rs, g, Advance(sys.ends, rs));
    CommitTrimmed(sys.log, sys.frontier, g, sys.requested, sys.mode.Running?);
  }

  /** With no broken stream, the log from the frontier to `g` fits the metadata. */
  lemma LogFits(log: seq<Entry>, frontier: nat, g: nat, ends: map<nat, nat>, open: set<nat>)
    requires Streams(log, frontier, ends, open, {}) && AllUser(log) && frontier <= g <= |log|
    ensures Fits(RecordsOf(log[frontier..g]), ends) && Takes(RecordsOf(log[frontier..g]), log, frontier, g, {})
  {
    hide OfStream, Contiguous, EndOf, Pending;
    var rs := RecordsOf(log[frontier..g]);
    forall s ensures s in ends ==> ContiguousFrom(OfStream(rs, s), ends[s])
             ensures s !in ends ==> OfStream(rs, s) == [] {
      assert StreamOk(log, frontier, ends, open, s);
      PendingSplit(log, frontier, g, s);
      if s in open {
        ContiguousParts(OfStream(rs, s), Pending(log, g, s), ends[s]);
      } else {
        EmptyRun(ends, s);
      }
    }
  }

  // ---- Running -------------------------------------------------------------------------------------

  lemma PendingPush(log: seq<Entry>, frontier: nat, e: Entry, s: nat)
    requires frontier <= |log|
    ensures Pending(log + [e], frontier, s)
         == Pending(log, frontier, s) + (if s == e.record.streamId then [e.record] else [])
  {
    hide OfStream;
    assert (log + [e])[frontier..] == log[frontier..] + [e];
    RecordsConcat(log[frontier..], [e]);
    assert RecordsOf([e]) == [e.record];
    OfStreamConcat(RecordsOf(log[frontier..]), [e.record], s);
    OfStreamOne(e.record, s);
  }

  lemma ConfirmStreams(sys: Sys, e: Entry, full: bool)
    requires Inv(sys) && Enabled(sys, Confirm(e, full))
    ensures Streams(sys.log + [e], sys.frontier, sys.ends, sys.open, sys.broken) && NextOk(DoConfirm(sys, e, full))
  {
    hide OfStream, Contiguous, P.Inv, P.Enabled, Stored, Below, Safe, Trimmed, Exposure, Pending;
    var log', x := sys.log + [e], e.record;
    forall s | s !in sys.broken
      ensures StreamOk(log', sys.frontier, sys.ends, sys.open, s)
      ensures s in sys.open ==>
                var next := DoConfirm(sys, e, full).next;
                s in next && next[s] == EndOf(Pending(log', sys.frontier, s), sys.ends[s])
    {
      assert StreamOk(sys.log, sys.frontier, sys.ends, sys.open, s);
      PendingPush(sys.log, sys.frontier, e, s);
      if s == x.streamId {
        OneRun(x);
        ContiguousConcat(Pending(sys.log, sys.frontier, s), [x], sys.ends[s]);
      } else {
        assert Pending(sys.log, sys.frontier, s) + [] == Pending(sys.log, sys.frontier, s);
      }
    }
  }

  lemma OneRun(x: Record)
    ensures ContiguousFrom([x], x.baseOffset)
  {
  }

  lemma ConfirmedGrows(p: P.Pipe, e: Entry, full: bool)
    ensures P.Confirmed(P.DoConfirm(p, e, full)) == P.Confirmed(p) + [e]
  {
    hide P.EntriesOfBlocks, P.Confirmed;
    P.ArchiveConfirmed(p);
    P.ConfirmedPush(if full then P.Archive(p) else p, e, Some(e.offset));
  }

  lemma BlockEndKept(p: P.Pipe, p': P.Pipe, i: nat)
    requires i <= |p.blocks| <= |p'.blocks|
    requires forall k :: 0 <= k < i ==> p'.blocks[k].entries == p.blocks[k].entries
    ensures BlockEnd(p', i) == BlockEnd(p, i)
  {
    P.BlocksSameEntries(p.blocks[..i], p'.blocks[..i]);
  }

  /** A step that neither commits nor fails a block leaves the frontier where it was. */
  lemma FrontierKept(p: P.Pipe, p': P.Pipe, frontier: nat)
    requires Frontier(p, frontier) && |p.blocks| <= |p'.blocks| && p'.com == p.com && p'.poisoned == p.poisoned
    requires forall k :: 0 <= k < |p.blocks| ==> p'.blocks[k].entries == p.blocks[k].entries
    requires forall k :: 0 <= k < |p'.blocks| ==> !p'.blocks[k].status.Skipped?
    requires forall k :: 0 <= k < |p'.blocks| && p'.blocks[k].status.Committed? ==>
               k < |p.blocks| && p.blocks[k].status.Committed?
    ensures Frontier(p', frontier)
  {
    hide P.EntriesOfBlocks;
    forall i: nat | i <= |p.blocks| ensures BlockEnd(p', i) == BlockEnd(p, i) {
      BlockEndKept(p, p', i);
    }
  }

  lemma ConfirmKeeps(sys: Sys, e: Entry, full: bool)
    requires Inv(sys) && Enabled(sys, Confirm(e, full))
    ensures Inv(DoConfirm(sys, e, full))
  {
    hide P.Inv, P.Enabled, Stored, Below, Safe, Streams, P.EntriesOfBlocks, Frontier, Exposure, NextOk, Trimmed;
    P.StepKeepsInv(sys.pipe, P.Confirm(e, full));
    ConfirmStreams(sys, e, full);
    ConfirmedGrows(sys.pipe, e, full);
    ConfirmFrontier(sys.pipe, e, full, sys.frontier);
    ConfirmBelow(sys.log, sys.frontier, sys.ends, sys.broken, e);
    ConfirmBelow(sys.log, sys.frontier, sys.ends, {}, e);
    ConfirmSafe(sys, e, full);
    ConfirmExposure(sys, e, full);
    ConfirmTrimmed(sys, e, full);
  }

  lemma ConfirmFrontier(p: P.Pipe, e: Entry, full: bool, frontier: nat)
    requires Frontier(p, frontier)
    ensures Frontier(P.DoConfirm(p, e, full), frontier)
  {
    FrontierKept(p, P.DoConfirm(p, e, full), frontier);
  }

  lemma ConfirmBelow(log: seq<Entry>, frontier: nat, ends: map<nat, nat>, broken: set<nat>, e: Entry)
    requires Below(log, frontier, ends, broken)
    ensures Below(log + [e], frontier, ends, broken)
  {
  }

  lemma ConfirmSafe(sys: Sys, e: Entry, full: bool)
    requires Safe(sys.acked, sys.committed, sys.log, sys.frontier, sys.exposed)
    requires P.Enabled(sys.pipe, P.Confirm(e, full))
    ensures var sys' := DoConfirm(sys, e, full);
            Safe(sys'.acked, sys'.committed, sys'.log, sys'.frontier, sys'.exposed)
  {
    hide P.Enabled;
    assert (sys.log + [e])[sys.frontier..] == sys.log[sys.frontier..] + [e];
    RecordsConcat(sys.log[sys.frontier..], [e]);
    assert RecordsOf([e]) == [e.record];
  }

  lemma ConfirmExposure(sys: Sys, e: Entry, full: bool)
    requires Exposure(sys) && Enabled(sys, Confirm(e, full))
    ensures Exposure(DoConfirm(sys, e, full))
  {
    hide P.Enabled;
    assert (sys.log + [e])[sys.frontier..] == sys.log[sys.frontier..] + [e];
    RecordsConcat(sys.log[sys.frontier..], [e]);
    RecordsConcat(sys.log, [e]);
    assert RecordsOf([e]) == [e.record];
  }

  lemma ConfirmTrimmed(sys: Sys, e: Entry, full: bool)
    requires sys.mode.Running? && sys.log == P.Confirmed(sys.pipe) && P.Enabled(sys.pipe, P.Confirm(e, full))
    requires Trimmed(sys.log, sys.frontier, sys.requested, true) && e.record.IsUser()
    ensures Trimmed(sys.log + [e], sys.frontier, sys.requested, true)
  {
    hide P.Enabled, P.Confirmed, Ascending;
    ConfirmsAbove(sys.pipe, e, full);
    AscendingAppend(sys.log, e);
  }

  lemma ConfirmsAbove(p: P.Pipe, e: Entry, full: bool)
    requires P.Enabled(p, P.Confirm(e, full))
    ensures P.Confirmed(p) != [] ==> P.Confirmed(p)[|P.Confirmed(p)| - 1].offset < e.offset
  {
    hide P.Confirmed;
  }

  lemma AscendingAppend(log: seq<Entry>, e: Entry)
    requires Ascending(log) && (log != [] ==> log[|log| - 1].offset < e.offset)
    ensures Ascending(log + [e])
  {
    if log != [] {
      var l := log + [e];
      forall i, j | 0 <= i < j < |l| ensures l[i].offset < l[j].offset {
        if j == |log| && i < |log| - 1 {
          assert log[i].offset < log[|log| - 1].offset;
        }
      }
    }
  }

  /** Archiving, preparing, uploading and forced uploads move no record and commit nothing. */
  lemma QuietFrame(p: P.Pipe, b: P.Action)
    requires Quiet(b) && P.Enabled(p, b)
    ensures var p' := P.Apply(p, b);
            && P.Confirmed(p') == P.Confirmed(p)
            && |p.blocks| <= |p'.blocks| && p'.com == p.com && p'.poisoned == p.poisoned
            && (forall k :: 0 <= k < |p.blocks| ==> p'.blocks[k].entries == p.blocks[k].entries)
            && (forall k :: |p.blocks| <= k < |p'.blocks| ==> p'.blocks[k].status.Queued?)
            && (forall k :: 0 <= k < |p.blocks| ==>
                  p'.blocks[k].status == p.blocks[k].status
                  || p'.blocks[k].status in {P.Prepared, P.Uploaded, P.UploadFailed})
  {
    hide P.EntriesOfBlocks, P.HasStream, P.Inflight;
    P.ArchiveConfirmed(p);
    var p' := P.Apply(p, b);
    if b.Prepare? || b.UploadDone? {
      P.BlocksSameEntries(p.blocks, p'.blocks);
    }
  }

  lemma QuietKeeps(sys: Sys, b: P.Action)
    requires Inv(sys) && Enabled(sys, Pipe(b))
    ensures Inv(sys.(pipe := P.Apply(sys.pipe, b)))
  {
    hide P.Inv, P.Enabled, Stored, Below, Safe, Streams, Trimmed, P.EntriesOfBlocks, P.Apply, BlockEnd, Quiet;
    hide Exposure, NextOk;
    FrontierBound(sys);
    P.StepKeepsInv(sys.pipe, b);
    QuietFrame(sys.pipe, b);
    FrontierKept(sys.pipe, P.Apply(sys.pipe, b), sys.frontier);
    PipeOnly(sys, P.Apply(sys.pipe, b));
  }

  /** Exposure and the next offsets do not look at the pipeline. */
  lemma PipeOnly(sys: Sys, p: P.Pipe)
    ensures Exposure(sys) ==> Exposure(sys.(pipe := p))
    ensures sys.frontier <= |sys.log| && NextOk(sys) ==> NextOk(sys.(pipe := p))
  {
    hide Pending, EndOf;
  }

  // ---- The commit worker ---------------------------------------------------------------------------

  /** While nothing has failed, the block to commit next is the log right behind the frontier. */
  lemma NextBlockAtFrontier(p: P.Pipe, frontier: nat)
    requires Frontier(p, frontier) && !p.poisoned && p.com < |p.blocks|
    ensures var b := p.blocks[p.com];
            && frontier + |b.entries| <= |P.Confirmed(p)|
            && P.Confirmed(p)[frontier..frontier + |b.entries|] == b.entries
            && BlockEnd(p, p.com + 1) == frontier + |b.entries|
  {
    hide P.EntriesOfBlocks;
    P.SplitAt(p.blocks, p.com);
    P.BlocksPrefix(p.blocks, p.com);
  }

  lemma CommitFrontier(p: P.Pipe, ok: bool, applied: bool, frontier: nat)
    requires Frontier(p, frontier) && P.Enabled(p, P.Commit(ok)) && (ok ==> applied)
    ensures var b := p.blocks[p.com];
            Frontier(P.DoCommit(p, ok),
                     if applied && b.status.Uploaded? && !p.poisoned then frontier + |b.entries| else frontier)
  {
    hide P.EntriesOfBlocks;
    var p' := P.DoCommit(p, ok);
    if !p.poisoned {
      NextBlockAtFrontier(p, frontier);
    }
    forall i: nat | i <= |p.blocks| ensures BlockEnd(p', i) == BlockEnd(p, i) {
      BlockEndKept(p, p', i);
    }
  }

  lemma CommitConfirmed(p: P.Pipe, ok: bool)
    requires P.Enabled(p, P.Commit(ok))
    ensures P.Confirmed(P.DoCommit(p, ok)) == P.Confirmed(p)
  {
    P.BlocksSameEntries(p.blocks, P.DoCommit(p, ok).blocks);
  }

  lemma CommitNext(sys: Sys, rs: seq<Record>, g: nat)
    requires Inv(sys) && sys.mode.Running? && Takes(rs, sys.log, sys.frontier, g, sys.broken) && Fits(rs, sys.ends)
    requires rs == RecordsOf(sys.log[sys.frontier..g])
    ensures NextOk(CommitRecords(sys, rs).(frontier := g))
  {
    hide Fits, Stored, Below, Safe, Advance, Takes, Exposure, StreamOk, Trimmed, Pending, P.Inv, Frontier, EndOf;
    TakesBound(rs, sys.log, sys.frontier, g, sys.broken);
    AdvanceGrows(rs, sys.ends);
    forall s | s in sys.open && s !in sys.broken && s in sys.ends
      ensures s in sys.next && sys.next[s] == EndOf(Pending(sys.log, g, s), Advance(sys.ends, rs)[s])
    {
      NextKept(sys, rs, g, s);
    }
  }

  lemma NextKept(sys: Sys, rs: seq<Record>, g: nat, s: nat)
    requires Takes(rs, sys.log, sys.frontier, g, sys.broken) && Fits(rs, sys.ends)
    requires s in sys.open && s !in sys.broken && s in sys.ends && sys.frontier <= |sys.log|
    requires StreamOk(sys.log, sys.frontier, sys.ends, sys.open, s) && rs == RecordsOf(sys.log[sys.frontier..g])
    ensures EndOf(Pending(sys.log, g, s), Advance(sys.ends, rs)[s])
         == EndOf(Pending(sys.log, sys.frontier, s), sys.ends[s])
  {
    hide OfStream, Contiguous, Fits, Pending, Advance, Takes;
    TakesBound(rs, sys.log, sys.frontier, g, sys.broken);
    PendingSplit(sys.log, sys.frontier, g, s);
    AdvanceIs(rs, sys.ends, s);
  }

  lemma CommitKeeps(sys: Sys, applied: bool, ok: bool)
    requires Inv(sys) && Enabled(sys, Commit(applied, ok))
    ensures Inv(DoCommit(sys, applied, ok))
  {
    hide P.Inv, Stored, Below, Safe, Streams, Trimmed, P.EntriesOfBlocks, Frontier, Fits, Advance, Exposure, NextOk;
    var p := sys.pipe;
    FrontierBound(sys);
    P.StepKeepsInv(p, P.Commit(ok));
    CommitFrontier(p, ok, applied, sys.frontier);
    CommitConfirmed(p, ok);
    var b := p.blocks[p.com];
    PipeOnly(sys, P.DoCommit(p, ok));
    if applied && b.status.Uploaded? && !p.poisoned {
      NextBlockAtFrontier(p, sys.frontier);
      var g := sys.frontier + |b.entries|;
      assert AllUser(sys.log) by { TrimmedUser(sys); }
      LogFits(sys.log, sys.frontier, g, sys.ends, sys.open);
      var rs := RecordsOf(sys.log[sys.frontier..g]);
      CommitCore(sys, rs, g);
      CommitNext(sys, rs, g);
      PipeOnly(CommitRecords(sys, rs).(frontier := g), P.DoCommit(p, ok));
    }
  }

  lemma TrimmedUser(sys: Sys)
    requires Trimmed(sys.log, sys.frontier, sys.requested, sys.mode.Running?)
    ensures AllUser(sys.log) && Ascending(sys.log)
  {
  }

  lemma TrimKeeps(sys: Sys, i: nat)
    requires Inv(sys) && Enabled(sys, Trim(i))
    ensures Inv(Apply(sys, Trim(i)))
  {
    hide P.Inv, Stored, Below, Safe, Streams, P.EntriesOfBlocks, Exposure, NextOk;
    var p, p' := sys.pipe, P.Apply(sys.pipe, P.RequestTrim(i));
    P.StepKeepsInv(p, P.RequestTrim(i));
    FrontierKept(p, p', sys.frontier);
    TrimOnly(sys, DoTrim(sys, i));
    BlockLast(p, i);
    assert BlockEnd(p, i + 1) <= sys.frontier;
    var k := BlockEnd(p, i + 1) - 1;
    assert k < sys.frontier - 1 ==> sys.log[k].offset < sys.log[sys.frontier - 1].offset;
    assert sys.frontier < |sys.log| ==> sys.log[k].offset < sys.log[sys.frontier].offset;
  }

  lemma TrimOnly(sys: Sys, sys': Sys)
    requires sys' == sys.(pipe := sys'.pipe, requested := sys'.requested)
    ensures Exposure(sys) ==> Exposure(sys')
    ensures sys.frontier <= |sys.log| && NextOk(sys) ==> NextOk(sys')
  {
    hide Pending, EndOf;
  }

  /** A block's trim offset is that of its last record in the log. */
  lemma BlockLast(p: P.Pipe, i: nat)
    requires P.Inv(p) && i < |p.blocks|
    ensures 0 < BlockEnd(p, i + 1) <= |P.Confirmed(p)|
    ensures p.blocks[i].last == Some(P.Confirmed(p)[BlockEnd(p, i + 1) - 1].offset)
  {
    hide P.EntriesOfBlocks, P.Fifo, P.Forces;
    P.SplitAt(p.blocks, i);
    P.BlocksPrefix(p.blocks, i);
    assert P.BlockOk(p.blocks[i]);
  }

  // ---- Streams coming and going ----------------------------------------------------------------------

  lemma OpenKeeps(sys: Sys, s: nat)
    requires Inv(sys) && s !in sys.open && sys.mode.Running?
    ensures Inv(DoOpen(sys, s))
  {
    hide OfStream, Safe, Trimmed, Contiguous, P.Inv, Frontier, Pending, Exposure, Stored, StreamOk;
    var sys' := DoOpen(sys, s);
    OpenStored(sys, s);
    OpenExposure(sys, s);
    forall t | t !in sys.broken
      ensures StreamOk(sys.log, sys.frontier, sys'.ends, sys'.open, t)
      ensures t in sys'.open ==>
                t in sys'.next && sys'.next[t] == EndOf(Pending(sys.log, sys.frontier, t), sys'.ends[t])
    {
      OpenStreamOk(sys, s, t);
    }
  }

  lemma OpenStreamOk(sys: Sys, s: nat, t: nat)
    requires sys.frontier <= |sys.log| && s !in sys.open && t !in sys.broken
    requires StreamOk(sys.log, sys.frontier, sys.ends, sys.open, t) && NextOk(sys)
    ensures var sys' := DoOpen(sys, s);
            && StreamOk(sys.log, sys.frontier, sys'.ends, sys'.open, t)
            && (t in sys'.open ==>
                  t in sys'.next && sys'.next[t] == EndOf(Pending(sys.log, sys.frontier, t), sys'.ends[t]))
  {
    hide Pending, Contiguous;
    EmptyRun(DoOpen(sys, s).ends, s);
  }

  lemma OpenStored(sys: Sys, s: nat)
    requires Stored(sys.committed, sys.ends)
    ensures Stored(sys.committed, DoOpen(sys, s).ends)
  {
    hide OfStream, Contiguous;
    var ends' := DoOpen(sys, s).ends;
    assert ContiguousFrom([], 0) && EndOf([], 0) == 0 by { EmptyRun(map[0 := 0], 0); }
    forall t | t in ends'
      ensures ContiguousFrom(OfStream(sys.committed, t), 0) && EndOf(OfStream(sys.committed, t), 0) == ends'[t]
    {
      if t == s && s !in sys.ends {
        assert OfStream(sys.committed, s) == [];
      }
    }
  }

  lemma OpenExposure(sys: Sys, s: nat)
    requires Exposure(sys)
    ensures Exposure(DoOpen(sys, s))
  {
  }

  // ---- Closing a stream ------------------------------------------------------------------------------

  /** The block that holds log position `k`. */
  lemma {:induction false} BlockOfPosition(p: P.Pipe, b: nat, k: nat) returns (i: nat)
    requires b <= |p.blocks| && k < BlockEnd(p, b)
    ensures i < b && BlockEnd(p, i) <= k < BlockEnd(p, i + 1)
    decreases b
  {
    if b == 0 {
      assert false;
    } else if BlockEnd(p, b - 1) <= k {
      i := b - 1;
    } else {
      i := BlockOfPosition(p, b - 1, k);
    }
  }

  lemma PositionInBlock(p: P.Pipe, i: nat, k: nat)
    requires i < |p.blocks| && BlockEnd(p, i) <= k < BlockEnd(p, i + 1)
    ensures k < |P.Confirmed(p)| && P.Confirmed(p)[k] in p.blocks[i].entries
  {
    hide P.EntriesOfBlocks;
    P.SplitAt(p.blocks, i);
    P.BlocksPrefix(p.blocks, i);
    var pre := P.EntriesOfBlocks(p.blocks[..i]);
    assert P.Confirmed(p)[k] == p.blocks[i].entries[k - |pre|];
  }

  /** A covering forced upload accounts for every record of the stream: its block is finished. */
  lemma CoveredBlock(p: P.Pipe, f: nat, s: nat, k: nat) returns (i: nat)
    requires P.Inv(p) && Covering(p, f, s) && k < |P.Confirmed(p)| && P.Confirmed(p)[k].record.streamId == s
    ensures i < |p.blocks| && BlockEnd(p, i) <= k < BlockEnd(p, i + 1) && p.blocks[i].status.Finished()
    ensures i < p.forces[f].boundary
  {
    hide P.EntriesOfBlocks, P.Partition, P.Fifo, P.Confirmed;
    assert P.ForceOk(p, p.forces[f]);
    i := BlockOfPosition(p, p.forces[f].boundary, k);
    PositionInBlock(p, i, k);
    assert P.HasStream(p.blocks[i].entries, s);
  }

  lemma {:induction false} OfStreamNone(rs: seq<Record>, s: nat)
    requires forall i :: 0 <= i < |rs| ==> rs[i].streamId != s
    ensures OfStream(rs, s) == []
  {
    if rs != [] {
      OfStreamNone(rs[..|rs| - 1], s);
    }
  }

  /** Pending is empty exactly when no log record from the frontier on is of the stream. */
  lemma PendingNone(log: seq<Entry>, frontier: nat, s: nat)
    requires frontier <= |log|
    ensures Pending(log, frontier, s) == [] <==>
              forall k :: frontier <= k < |log| ==> log[k].record.streamId != s
  {
    hide OfStream;
    var rs := RecordsOf(log[frontier..]);
    OfStreamMembers(rs, s);
    if forall k :: frontier <= k < |log| ==> log[k].record.streamId != s {
      OfStreamNone(rs, s);
    } else {
      var k :| frontier <= k < |log| && log[k].record.streamId == s;
      assert rs[k - frontier] == log[k].record;
      assert log[k].record in OfStream(rs, s);
    }
  }

  /** While no commit has failed, a covered stream has nothing uncommitted. */
  lemma CoveredCommitted(sys: Sys, f: nat, s: nat)
    requires Live(sys) && sys.frontier <= |sys.log| && Covering(sys.pipe, f, s) && !sys.pipe.poisoned
    ensures Pending(sys.log, sys.frontier, s) == []
  {
    hide Covering, P.EntriesOfBlocks, P.Partition, P.Forces, Below, NextOk, Pending;
    var p := sys.pipe;
    forall k: nat | sys.frontier <= k < |sys.log| ensures sys.log[k].record.streamId != s {
      if sys.log[k].record.streamId == s {
        var i := CoveredBlock(p, f, s, k);
      }
    }
    PendingNone(sys.log, sys.frontier, s);
  }

  /** Uncommitted records of a sound stream lie behind everything that is committed of it. */
  lemma PendingNotCommitted(sys: Sys, s: nat, x: Record)
    requires Stored(sys.committed, sys.ends) && sys.frontier <= |sys.log| && AllUser(sys.log)
    requires s in sys.open && StreamOk(sys.log, sys.frontier, sys.ends, sys.open, s)
    requires x in Pending(sys.log, sys.frontier, s)
    ensures x !in sys.committed
  {
    hide OfStream, Contiguous;
    var rs := RecordsOf(sys.log[sys.frontier..]);
    OfStreamMembers(rs, s);
    OfStreamMembers(sys.committed, s);
    OfStreamPositive(rs, s);
    OfStreamPositive(sys.committed, s);
    RunBehind(Pending(sys.log, sys.frontier, s), sys.ends[s], x);
    if x in sys.committed {
      RunForward(OfStream(sys.committed, s), 0);
    }
  }

  lemma {:induction false} RunBehind(rs: seq<Record>, from: nat, x: Record)
    requires ContiguousFrom(rs, from) && Positive(rs) && x in rs
    ensures x.LastOffset() > from
  {
    hide Contiguous;
    var n := |rs| - 1;
    assert rs == rs[..n] + [rs[n]];
    ContiguousParts(rs[..n], [rs[n]], from);
    RunForward(rs[..n], from);
    OneFrom(rs[n], EndOf(rs[..n], from));
    if x in rs[..n] {
      RunBehind(rs[..n], from, x);
    }
  }

  lemma CloseExposure(sys: Sys, s: nat)
    requires Exposure(sys) && s in sys.open && AllUser(sys.log)
    requires Stored(sys.committed, sys.ends)
    requires s !in sys.broken ==> StreamOk(sys.log, sys.frontier, sys.ends, sys.open, s)
    ensures Exposure(DoClose(sys, s))
  {
    hide OfStream, Stored, StreamOk, AllUser;
    var left := Pending(sys.log, sys.frontier, s);
    OfStreamMembers(RecordsOf(sys.log[sys.frontier..]), s);
    RecordsSplit(sys.log, 0, sys.frontier);
    assert sys.log[0..] == sys.log;
    if s !in sys.broken {
      forall x | x in left ensures x !in sys.committed {
        PendingNotCommitted(sys, s, x);
      }
    }
    NoneWhenEmpty(sys.log, sys.frontier, s);
  }

  lemma NoneWhenEmpty(log: seq<Entry>, frontier: nat, s: nat)
    requires frontier <= |log|
    ensures Pending(log, frontier, s) != [] ==> log != []
  {
    if log == [] {
      NothingPending([], s);
    }
  }

  lemma CloseKeeps(sys: Sys, s: nat, f: nat)
    requires Inv(sys) && Enabled(sys, CloseStream(s, f))
    ensures Inv(DoClose(sys, s))
  {
    hide OfStream, Safe, Contiguous, Stored, P.Inv, Frontier, Pending, Exposure, Covering;
    TrimmedUser(sys);
    CloseExposure(sys, s);
    if !sys.pipe.poisoned {
      CoveredCommitted(sys, f, s);
    }
    SafeGrows(sys, DoClose(sys, s).exposed);
    CloseBelow(sys, s);
  }

  lemma SafeGrows(sys: Sys, exposed: set<Record>)
    requires Safe(sys.acked, sys.committed, sys.log, sys.frontier, sys.exposed) && sys.exposed <= exposed
    ensures Safe(sys.acked, sys.committed, sys.log, sys.frontier, exposed)
  {
  }

  lemma CloseBelow(sys: Sys, s: nat)
    requires Below(sys.log, sys.frontier, sys.ends, sys.broken)
    ensures Below(sys.log, sys.frontier, sys.ends, DoClose(sys, s).broken)
  {
    hide Pending;
  }

  lemma RecoveryCloseKeeps(sys: Sys, s: nat)
    requires Inv(sys) && sys.mode.Closing?
    ensures Inv(sys.(open := sys.open - {s}))
  {
    hide OfStream, Safe, Trimmed, Contiguous, Stored, Below, Pending;
    NothingPending(sys.log, s);
  }

  // ---- Other owners ------------------------------------------------------------------------------------

  lemma {:induction false} OneStream(rs: seq<Record>, s: nat, t: nat)
    requires forall i :: 0 <= i < |rs| ==> rs[i].streamId == s
    ensures OfStream(rs, t) == if t == s then rs else []
  {
    if rs != [] {
      OneStream(rs[..|rs| - 1], s, t);
    }
  }

  lemma ForeignKeeps(sys: Sys, s: nat, rs: seq<Record>)
    requires Inv(sys) && Enabled(sys, Foreign(s, rs))
    ensures Inv(CommitRecords(sys, rs))
  {
    hide OfStream, Safe, Trimmed, Contiguous, Stored, Below, Pending, Advance, Exposure, P.Inv, Frontier, Fits, EndOf;
    ForeignFits(sys, s, rs);
    CommitStored(sys.committed, rs, sys.ends);
    AdvanceGrows(rs, sys.ends);
    BelowGrows(sys.log, sys.frontier, sys.ends, Advance(sys.ends, rs), sys.broken);
    if sys.mode.Running? {
      BelowGrows(sys.log, sys.frontier, sys.ends, Advance(sys.ends, rs), {});
    }
    ForeignSafe(sys, rs);
    ForeignExposure(sys, rs);
  }

  lemma ForeignFits(sys: Sys, s: nat, rs: seq<Record>)
    requires Enabled(sys, Foreign(s, rs))
    ensures Fits(rs, sys.ends)
    ensures forall t :: t in sys.open && t in sys.ends ==> Advance(sys.ends, rs)[t] == sys.ends[t]
  {
    hide OfStream, Contiguous;
    forall t ensures OfStream(rs, t) == if t == s then rs else [] {
      OneStream(rs, s, t);
    }
    forall t | t in sys.ends ensures ContiguousFrom(OfStream(rs, t), sys.ends[t]) {
      EmptyRun(sys.ends, t);
    }
  }

  lemma BelowGrows(log: seq<Entry>, frontier: nat, ends: map<nat, nat>, ends': map<nat, nat>, broken: set<nat>)
    requires Below(log, frontier, ends, broken) && ends'.Keys == ends.Keys
    requires forall s :: s in ends ==> ends[s] <= ends'[s]
    ensures Below(log, frontier, ends', broken)
  {
  }

  lemma ForeignSafe(sys: Sys, rs: seq<Record>)
    requires Safe(sys.acked, sys.committed, sys.log, sys.frontier, sys.exposed)
    ensures Safe(sys.acked, sys.committed + rs, sys.log, sys.frontier, sys.exposed)
  {
  }

  lemma ForeignExposure(sys: Sys, rs: seq<Record>)
    requires Exposure(sys) && forall i :: 0 <= i < |rs| ==> rs[i] !in sys.acked
    ensures Exposure(CommitRecords(sys, rs))
  {
    hide Advance;
  }

  // ---- Recovery ----------------------------------------------------------------------------------------

  /** Above a trim point the log is a suffix of itself. */
  lemma {:induction false} AboveIsSuffix(log: seq<Entry>, t: int) returns (j: nat)
    requires Ascending(log) && AllUser(log)
    ensures j <= |log| && Above(log, t) == log[j..]
    ensures forall i :: 0 <= i < j ==> log[i].offset <= t
  {
    if log == [] {
      j := 0;
    } else {
      hide Above, Ascending, AllUser;
      var n := |log|;
      var init, last := log[..n - 1], log[n - 1];
      LastEntry(log, t);
      if last.offset > t {
        j := AboveIsSuffix(init, t);
        SuffixSplit(log, j);
        assert forall i :: 0 <= i < j ==> log[i] == init[i];
      } else {
        j := n;
        AllBelow(log, t);
      }
    }
  }

  lemma SuffixSplit(log: seq<Entry>, j: nat)
    requires j < |log|
    ensures log[j..] == log[..|log| - 1][j..] + [log[|log| - 1]]
  {
  }

  lemma AllBelow(log: seq<Entry>, t: int)
    requires Ascending(log) && log != [] && log[|log| - 1].offset <= t
    ensures log[|log|..] == [] && Above(log[..|log| - 1], t) == [] && forall i :: 0 <= i < |log| ==> log[i].offset <= t
  {
    hide Above;
    AboveNone(log[..|log| - 1], t);
  }

  lemma LastEntry(log: seq<Entry>, t: int)
    requires Ascending(log) && AllUser(log) && log != []
    ensures var init, last := log[..|log| - 1], log[|log| - 1];
            && Ascending(init) && AllUser(init)
            && Above(log, t) == if last.offset > t then Above(init, t) + [last] else Above(init, t)
  {
    hide Above;
    var init, last := log[..|log| - 1], log[|log| - 1];
    assert last.record.IsUser();
    assert log == init + [last];
    AboveConcat(init, [last], t);
    AboveOne(last, t);
  }

  lemma BeginKeeps(sys: Sys, at: nat, extra: seq<Entry>)
    requires Inv(sys) && Enabled(sys, BeginRecovery(at, extra))
    ensures Inv(Apply(sys, BeginRecovery(at, extra)))
  {
    hide Stored, Below, Safe, Streams, Above, Ascending;
    var t: int :| t <= sys.requested && Above(sys.log, t) == sys.log[at..];
    var j := AboveIsSuffix(sys.log, t);
    assert |sys.log[j..]| == |sys.log[at..]|;
    RecordsConcat(sys.log[at..], extra);
    ReplayPositive(sys.log[at..], extra);
    ModeExposure(sys, Recovering(RecordsOf(sys.log[at..] + extra), at));
  }

  lemma ModeExposure(sys: Sys, mode: Mode)
    ensures Exposure(sys) ==> Exposure(sys.(mode := mode))
  {
  }

  lemma ReplayPositive(a: seq<Entry>, b: seq<Entry>)
    requires AllUser(a) && AllUser(b)
    ensures Positive(RecordsOf(a + b))
  {
  }

  lemma {:induction false} FoldConcat(a: seq<Record>, b: seq<Record>, ends: map<nat, nat>)
    ensures var fa := Fold(a, ends); var fb := Fold(b, fa.ends);
            Fold(a + b, ends) == Folded(fa.kept + fb.kept, fb.ends)
  {
    if b == [] {
      assert a + b == a;
    } else {
      var init := b[..|b| - 1];
      assert (a + b)[..|a + b| - 1] == a + init;
      FoldConcat(a, init, ends);
    }
  }

  lemma {:induction false} GreedyConcat(a: seq<Record>, b: seq<Record>, from: nat)
    ensures Greedy(a + b, from) == Greedy(a, from) + Greedy(b, EndOf(Greedy(a, from), from))
  {
    if b == [] {
      assert a + b == a;
    } else {
      assert (a + b)[..|a + b| - 1] == a + b[..|b| - 1];
      GreedyConcat(a, b[..|b| - 1], from);
    }
  }

  /** Records below the end are dropped. */
  lemma {:induction false} GreedyDrop(rs: seq<Record>, from: nat)
    requires forall i :: 0 <= i < |rs| ==> rs[i].baseOffset < from
    ensures Greedy(rs, from) == []
  {
    if rs != [] {
      GreedyDrop(rs[..|rs| - 1], from);
    }
  }

  /** Records that continue it are all kept. */
  lemma {:induction false} GreedyTake(rs: seq<Record>, from: nat)
    requires ContiguousFrom(rs, from)
    ensures Greedy(rs, from) == rs
  {
    hide Contiguous;
    if rs != [] {
      var n := |rs| - 1;
      assert rs == rs[..n] + [rs[n]];
      ContiguousParts(rs[..n], [rs[n]], from);
      OneFrom(rs[n], EndOf(rs[..n], from));
      GreedyTake(rs[..n], from);
    }
  }

  /** Committed records first, then a run that continues the end, then anything: the run is kept. */
  lemma GreedyShape(drop: seq<Record>, run: seq<Record>, extra: seq<Record>, from: nat)
    requires forall i :: 0 <= i < |drop| ==> drop[i].baseOffset < from
    requires ContiguousFrom(run, from)
    ensures run <= Greedy(drop + run + extra, from)
    ensures extra == [] ==> Greedy(drop + run + extra, from) == run
  {
    hide Greedy, ContiguousFrom;
    GreedyConcat(drop + run, extra, from);
    GreedyConcat(drop, run, from);
    GreedyDrop(drop, from);
    GreedyTake(run, from);
    assert [] + run == run && EndOf([], from) == from;
    GreedyNothing(EndOf(run, from));
  }

  lemma GreedyNothing(from: nat)
    ensures Greedy([], from) == []
  {
  }

  lemma {:induction false} FoldKeepsInput(rs: seq<Record>, ends: map<nat, nat>)
    requires Positive(rs)
    ensures Positive(Fold(rs, ends).kept)
  {
    if rs != [] {
      FoldKeepsInput(rs[..|rs| - 1], ends);
    }
  }

  /** Whatever is replayed, the kept records fit the metadata: no gap, nothing twice. */
  lemma KeptFits(sys: Sys, rs: seq<Record>)
    requires Positive(rs)
    ensures Fits(Fold(rs, OpenEnds(sys)).kept, sys.ends)
  {
    hide OfStream, Contiguous, Fold, Greedy;
    var e := OpenEnds(sys);
    var kept := Fold(rs, e).kept;
    FoldKeepsInput(rs, e);
    forall s ensures s in sys.ends ==> ContiguousFrom(OfStream(kept, s), sys.ends[s])
             ensures s !in sys.ends ==> OfStream(kept, s) == [] {
      FoldPerStream(rs, e, s);
      if s in e {
        GreedyContiguous(OfStream(rs, s), e[s]);
      } else {
        EmptyRun(sys.ends, s);
      }
    }
  }

  /** What is kept belongs to open streams. */
  lemma KeptOpen(sys: Sys, rs: seq<Record>, x: Record)
    requires x in Fold(rs, OpenEnds(sys)).kept
    ensures x.streamId in sys.open
  {
    hide OfStream, Fold, Greedy;
    var kept := Fold(rs, OpenEnds(sys)).kept;
    FoldPerStream(rs, OpenEnds(sys), x.streamId);
    OfStreamMembers(kept, x.streamId);
    assert x in OfStream(kept, x.streamId);
  }

  /** Handled records of a stream that are below its end are dropped when replayed again. */
  lemma HandledBelow(log: seq<Entry>, frontier: nat, ends: map<nat, nat>, broken: set<nat>, i: nat, j: nat, s: nat)
    requires Below(log, frontier, ends, broken) && AllUser(log) && i <= j <= frontier && s !in broken && s in ends
    ensures var own := OfStream(RecordsOf(log[i..j]), s);
            forall k :: 0 <= k < |own| ==> own[k].baseOffset < ends[s]
  {
    hide OfStream;
    var rs := RecordsOf(log[i..j]);
    OfStreamMembers(rs, s);
    forall k | 0 <= k < |OfStream(rs, s)| ensures OfStream(rs, s)[k].baseOffset < ends[s] {
      var x := OfStream(rs, s)[k];
      assert x in rs && x.streamId == s;
      var m :| 0 <= m < |rs| && rs[m] == x;
      assert log[i + m].record == x && x.IsUser();
    }
  }

  /** The next `m` replayed records, cut at the frontier and at the end of the log. */
  lemma RestSplit(sys: Sys, rest: seq<Record>, m: nat, j: nat) returns (a: nat, g: nat, extra: seq<Record>)
    requires j <= sys.frontier <= |sys.log| && RecordsOf(sys.log[j..]) <= rest && m <= |rest|
    ensures j <= a <= sys.frontier <= g <= |sys.log| && g == Handled(sys.frontier, j + m, |sys.log|)
    ensures rest[..m] == RecordsOf(sys.log[j..a]) + RecordsOf(sys.log[sys.frontier..g]) + extra
    ensures g < |sys.log| ==> extra == [] && j + m <= g && RecordsOf(sys.log[j + m..]) <= rest[m..]
  {
    hide RecordsOf;
    var log, f := sys.log, sys.frontier;
    var all := RecordsOf(log);
    LogSlice(log, j, |log|);
    assert log[j..|log|] == log[j..] && all[j..|log|] == all[j..];
    a, g, extra := CutRest(all, rest, m, j, f);
    LogSlice(log, j, a);
    LogSlice(log, f, g);
    if g < |log| {
      LogSlice(log, j + m, |log|);
      assert log[j + m..|log|] == log[j + m..] && all[j + m..|log|] == all[j + m..];
    }
  }

  lemma LogSlice(log: seq<Entry>, i: nat, j: nat)
    requires i <= j <= |log|
    ensures |RecordsOf(log)| == |log| && RecordsOf(log[i..j]) == RecordsOf(log)[i..j]
  {
  }

  lemma CutRest(all: seq<Record>, rest: seq<Record>, m: nat, j: nat, f: nat)
    returns (a: nat, g: nat, extra: seq<Record>)
    requires j <= f <= |all| && all[j..] <= rest && m <= |rest|
    ensures j <= a <= f <= g <= |all| && rest[..m] == all[j..a] + all[f..g] + extra && g == Handled(f, j + m, |all|)
    ensures g < |all| ==> extra == [] && j + m <= g && all[j + m..] <= rest[m..]
  {
    var n := |all| - j;
    assert rest[..n] == all[j..];
    if j + m < f {
      a, g, extra := j + m, f, [];
      assert rest[..m] == rest[..n][..m] == all[j..][..m] == all[j..a];
    } else if j + m < |all| {
      a, g, extra := f, j + m, [];
      assert rest[..m] == rest[..n][..m] == all[j..][..m] == all[j..j + m];
    } else {
      a, g, extra := f, |all|, rest[n..m];
      assert rest[..m] == rest[..n] + rest[n..m];
      assert all[j..] == all[j..f] + all[f..];
    }
    if g < |all| {
      assert rest[m..][..n - m] == rest[..n][m..] == all[j..][m..] == all[j + m..];
    }
  }

  /** What a recovered block commits of a sound stream: its log records from the frontier on, and more
      only beyond the end of the log. */
  lemma KeptShape(sys: Sys, m: nat, s: nat)
    requires Inv(sys) && sys.mode.Recovering? && m <= |sys.mode.rest| && s !in sys.broken
    ensures var g := Handled(sys.frontier, sys.mode.at + m, |sys.log|);
            var kept := Fold(sys.mode.rest[..m], OpenEnds(sys)).kept;
            && sys.frontier <= g <= |sys.log|
            && OfStream(RecordsOf(sys.log[sys.frontier..g]), s) <= OfStream(kept, s)
            && (g < |sys.log| ==> OfStream(kept, s) == OfStream(RecordsOf(sys.log[sys.frontier..g]), s))
  {
    hide Stored, Safe, Below, Trimmed, Fold, Exposure, StreamOk, OfStream;
    var rest, at, f := sys.mode.rest, sys.mode.at, sys.frontier;
    FoldPerStream(rest[..m], OpenEnds(sys), s);
    if f == |sys.log| {
      assert sys.log[f..f] == [];
      NoneOfStream(s);
    } else {
      var a, g, extra := RestSplit(sys, rest, m, at);
      KeptOfStream(sys, rest[..m], at, a, g, extra, s);
    }
  }

  lemma NoneOfStream(s: nat)
    ensures RecordsOf([]) == [] && OfStream([], s) == []
  {
  }

  lemma KeptOfStream(sys: Sys, rs: seq<Record>, at: nat, a: nat, g: nat, extra: seq<Record>, s: nat)
    requires Inv(sys) && s !in sys.broken && at <= a <= sys.frontier <= g <= |sys.log|
    requires rs == RecordsOf(sys.log[at..a]) + RecordsOf(sys.log[sys.frontier..g]) + extra
    ensures var own := OfStream(RecordsOf(sys.log[sys.frontier..g]), s);
            var kept := OfStream(Fold(rs, OpenEnds(sys)).kept, s);
            own <= kept && (extra == [] ==> kept == own)
  {
    hide Stored, Safe, Below, Exposure, OfStream, Fold, Greedy, Contiguous, ModeOk, Pending, Ascending;
    var pre, mid := RecordsOf(sys.log[at..a]), RecordsOf(sys.log[sys.frontier..g]);
    FoldPerStream(rs, OpenEnds(sys), s);
    PendingSplit(sys.log, sys.frontier, g, s);
    assert StreamOk(sys.log, sys.frontier, sys.ends, sys.open, s);
    if s in sys.open {
      OfStreamConcat(pre + mid, extra, s);
      OfStreamConcat(pre, mid, s);
      HandledBelow(sys.log, sys.frontier, sys.ends, sys.broken, at, a, s);
      ContiguousParts(OfStream(mid, s), Pending(sys.log, g, s), sys.ends[s]);
      GreedyShape(OfStream(pre, s), OfStream(mid, s), OfStream(extra, s), sys.ends[s]);
      NoneOfStream(s);
    }
  }

  lemma FrontierBound(sys: Sys)
    requires Inv(sys)
    ensures sys.frontier <= |sys.log|
  {
  }

  lemma PositiveSlices(rest: seq<Record>, m: nat)
    requires Positive(rest) && m <= |rest|
    ensures Positive(rest[..m]) && Positive(rest[m..])
  {
  }

  lemma RecoverKeeps(sys: Sys, m: nat)
    requires Inv(sys) && sys.mode.Recovering? && m <= |sys.mode.rest|
    ensures Inv(DoRecover(sys, m))
  {
    hide Streams, Stored, Safe, Below, Trimmed, Fold, Fits, Replaying, Advance, Exposure, OpenEnds, Handled, OfStream;
    var rest, at := sys.mode.rest, sys.mode.at;
    var kept, g := Fold(rest[..m], OpenEnds(sys)).kept, Handled(sys.frontier, at + m, |sys.log|);
    RestPositive(sys, m);
    HandledBound(sys, at + m);
    KeptFits(sys, rest[..m]);
    forall s | s !in sys.broken
      ensures OfStream(RecordsOf(sys.log[sys.frontier..g]), s) <= OfStream(kept, s)
      ensures g < |sys.log| ==> OfStream(kept, s) == OfStream(RecordsOf(sys.log[sys.frontier..g]), s)
    {
      KeptShape(sys, m, s);
    }
    forall x | x in kept ensures x.streamId in sys.open {
      KeptOpen(sys, rest[..m], x);
    }
    CommitCore(sys, kept, g);
    ReplayingNext(rest, at, sys.log, sys.frontier, m);
    ModeExposure(CommitRecords(sys, kept).(frontier := g), Recovering(rest[m..], at + m));
  }

  lemma HandledBound(sys: Sys, at: nat)
    requires Inv(sys)
    ensures sys.frontier <= Handled(sys.frontier, at, |sys.log|) <= |sys.log|
  {
  }

  lemma RestPositive(sys: Sys, m: nat)
    requires Inv(sys) && sys.mode.Recovering? && m <= |sys.mode.rest|
    ensures Positive(sys.mode.rest[..m])
  {
    hide Streams, Stored, Safe, Below, Trimmed, Exposure;
    PositiveSlices(sys.mode.rest, m);
  }

  lemma ReplayingNext(rest: seq<Record>, at: nat, log: seq<Entry>, frontier: nat, m: nat)
    requires Replaying(rest, at, log, frontier) && m <= |rest| && frontier <= |log|
    ensures Replaying(rest[m..], at + m, log, Handled(frontier, at + m, |log|))
  {
    PositiveSlices(rest, m);
    if at + m <= |log| {
      var all := RecordsOf(log);
      LogSlice(log, at, |log|);
      LogSlice(log, at + m, |log|);
      assert log[at..|log|] == log[at..] && log[at + m..|log|] == log[at + m..];
      assert all[at + m..|log|] == all[at..|log|][m..];
      assert rest[..|log| - at] == all[at..|log|];
      assert rest[m..][..|log| - at - m] == rest[..|log| - at][m..];
    }
  }

  lemma FinishKeeps(sys: Sys)
    requires Inv(sys) && Enabled(sys, FinishRecovery)
    ensures Inv(sys.(mode := Closing)) && sys.frontier == |sys.log|
  {
    hide Streams, Stored, Safe, Below, Replaying, Exposure;
    ReplayEnds(sys.mode.at, sys.log, sys.frontier);
    ModeExposure(sys, Closing);
  }

  /** When nothing is left to replay, the whole log is handled. */
  lemma ReplayEnds(at: nat, log: seq<Entry>, frontier: nat)
    requires Replaying([], at, log, frontier) && frontier <= |log|
    ensures frontier == |log|
  {
    if at <= |log| {
      assert |RecordsOf(log[at..])| == 0;
    }
  }

  lemma ResetKeeps(sys: Sys, offset: int)
    requires Inv(sys) && sys.mode.Closing?
    ensures Inv(sys.(requested := offset))
    ensures Inv(sys.(log := [], frontier := 0, requested := -1, broken := {}, reopened := {}))
  {
    hide Stored, OfStream, Contiguous, Pending, StreamOk;
    assert sys.log[|sys.log|..] == [];
    assert RecordsOf([]) == [];
    forall s | s in sys.open ==> s in sys.ends ensures StreamOk([], 0, sys.ends, sys.open, s) {
      FreshStream(sys.ends, sys.open, s);
    }
  }

  lemma FreshStream(ends: map<nat, nat>, open: set<nat>, s: nat)
    requires s in open ==> s in ends
    ensures StreamOk([], 0, ends, open, s)
  {
    hide Pending;
    NothingPending([], s);
    EmptyRun(ends, s);
  }

  lemma RestartKeeps(sys: Sys)
    requires Inv(sys) && Enabled(sys, Restart)
    ensures Inv(sys.(mode := Running, pipe := P.InitPipe(), requested := -1))
  {
    hide Stored, StreamOk, Safe, P.Inv, P.Confirmed, Frontier;
    InitPipeOk();
  }

  lemma CrashKeeps(sys: Sys)
    requires Inv(sys)
    ensures Inv(sys.(mode := Down, pipe := P.InitPipe()))
  {
    hide Stored, Streams, Below, Safe, Live;
  }

  lemma StepKeepsInv(sys: Sys, a: Action)
    requires Inv(sys) && Enabled(sys, a)
    ensures Inv(Apply(sys, a))
  {
    hide Inv;
    match a
    case OpenStream(s) => OpenKeeps(sys, s);
    case CloseStream(s, f) => CloseKeeps(sys, s, f);
    case RecoveryClose(s) => RecoveryCloseKeeps(sys, s);
    case Foreign(s, rs) => ForeignKeeps(sys, s, rs);
    case Confirm(e, full) => ConfirmKeeps(sys, e, full);
    case Pipe(b) => QuietKeeps(sys, b);
    case Commit(applied, ok) => CommitKeeps(sys, applied, ok);
    case Trim(i) => TrimKeeps(sys, i);
    case Crash => CrashKeeps(sys);
    case BeginRecovery(at, extra) => BeginKeeps(sys, at, extra);
    case RecoverBlock(m) => RecoverKeeps(sys, m);
    case FinishRecovery => FinishKeeps(sys);
    case ResetTrim(o) => ResetKeeps(sys, o);
    case ResetDone => ResetKeeps(sys, -1);
    case Restart => RestartKeeps(sys);
  }

  lemma {:induction false} RunInv(run: seq<Sys>, n: nat)
    requires IsRun(run) && n < |run|
    ensures Inv(run[n])
  {
    hide Inv, Enabled, Apply;
    if n == 0 {
      InitInv();
    } else {
      RunInv(run, n - 1);
      assert Step(run[n - 1], run[n]);
      var a :| Enabled(run[n - 1], a) && Apply(run[n - 1], a) == run[n];
      StepKeepsInv(run[n - 1], a);
    }
  }

  // ---- Committed once ----------------------------------------------------------------------------------

  /** In every reachable state a stream's committed records are one gap-free run, none twice. */
  lemma CommittedOnce(run: seq<Sys>, n: nat, s: nat)
    requires IsRun(run) && n < |run| && s in run[n].ends
    ensures var own := OfStream(run[n].committed, s);
            && ContiguousFrom(own, 0) && EndOf(own, 0) == run[n].ends[s]
            && forall i, j :: 0 <= i < j < |own| ==> own[i].LastOffset() <= own[j].baseOffset < own[j].LastOffset()
  {
    hide IsRun, Inv, OfStream;
    RunInv(run, n);
    var own := OfStream(run[n].committed, s);
    assert Stored(run[n].committed, run[n].ends) by { InvStored(run[n]); }
    OfStreamPositive(run[n].committed, s);
    forall i: nat, j: nat | i < j < |own| ensures own[i].LastOffset() <= own[j].baseOffset < own[j].LastOffset() {
      RunOrder(own, i, j);
    }
  }

  lemma InvStored(sys: Sys)
    requires Inv(sys)
    ensures Stored(sys.committed, sys.ends)
  {
  }

  lemma {:induction false} RunOrder(own: seq<Record>, i: nat, j: nat)
    requires Contiguous(own) && Positive(own) && i < j < |own|
    ensures own[i].LastOffset() <= own[j].baseOffset < own[j].LastOffset()
    decreases j - i
  {
    if i + 1 < j {
      RunOrder(own, i, j - 1);
    }
  }
}
