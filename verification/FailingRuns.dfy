/** Concrete runs that end in states in which a promise of the engine does not hold. */
module FailingRuns {
  import opened Records
  import opened WalLayout
  import P = Pipeline
  import B = Backpressure
  import C = CrashRecovery
  import F = RecoveryFilter

  // ---- The upload pipeline -----------------------------------------------------------------------

  /** Some run of the pipeline ends in this state. */
  ghost predicate PipeReaches(p: P.Pipe) {
    exists run :: P.IsRun(run) && run[|run| - 1] == p
  }

  lemma PipeStart()
    ensures PipeReaches(P.InitPipe())
  {
    var run := [P.InitPipe()];
    assert P.IsRun(run) && run[|run| - 1] == P.InitPipe();
  }

  lemma PipeStep(p: P.Pipe, a: P.Action) returns (p': P.Pipe)
    requires PipeReaches(p) && P.Enabled(p, a)
    ensures PipeReaches(p') && p' == P.Apply(p, a)
  {
    hide P.Enabled, P.Apply;
    p' := P.Apply(p, a);
    var run :| P.IsRun(run) && run[|run| - 1] == p;
    var run' := run + [p'];
    forall i | 0 < i < |run'| ensures P.Step(run'[i - 1], run'[i]) {
      if i < |run| {
        assert P.Step(run[i - 1], run[i]);
      } else {
        assert P.Enabled(run'[i - 1], a) && P.Apply(run'[i - 1], a) == run'[i];
      }
    }
    assert P.IsRun(run') && run'[|run'| - 1] == p';
  }

  lemma PipeInv(p: P.Pipe)
    requires PipeReaches(p)
    ensures P.Inv(p)
  {
    hide P.Inv;
    var run :| P.IsRun(run) && run[|run| - 1] == p;
    P.RunInv(run, |run| - 1);
  }

  lemma BlockEntries(b: P.Block)
    ensures P.EntriesOfBlocks([]) == [] && P.EntriesOfBlocks([b]) == b.entries
  {
    assert [b][..0] == [];
  }

  /** Two records confirmed, each in a block of its own. */
  lemma TwoBlocks(e0: Entry, e1: Entry) returns (p: P.Pipe)
    requires e0.offset < e1.offset
    ensures PipeReaches(p)
    ensures p == P.Pipe([P.Block([e0], Some(e0.offset), P.Queued), P.Block([e1], Some(e1.offset), P.Queued)],
                        [], Some(e1.offset), 0, 0, false, {}, [])
  {
    hide P.EntriesOfBlocks, PipeReaches;
    BlockEntries(P.Block([e0], Some(e0.offset), P.Queued));
    PipeStart();
    p := PipeStep(P.InitPipe(), P.Confirm(e0, false));
    assert p == P.Pipe([], [e0], Some(e0.offset), 0, 0, false, {}, []);
    p := PipeStep(p, P.Confirm(e1, true));
    assert p == P.Pipe([P.Block([e0], Some(e0.offset), P.Queued)], [e1], Some(e1.offset), 0, 0, false, {}, []);
    p := PipeStep(p, P.ArchiveAll);
  }

  lemma Overtake(p0: P.Pipe, b0: P.Block, b1: P.Block) returns (p: P.Pipe)
    requires PipeReaches(p0) && b0.status.Queued? && b1.status.Queued?
    requires p0 == P.Pipe([b0, b1], [], b1.last, 0, 0, false, {}, [])
    ensures PipeReaches(p)
    ensures p == P.Pipe([b0.(status := P.Skipped), b1.(status := P.Committed)], [], b1.last, 2, 2, false, {1}, [])
  {
    hide PipeReaches;
    p := PipeStep(p0, P.Prepare(false));
    p := PipeStep(p, P.Prepare(true));
    p := PipeStep(p, P.UploadDone(1, true));
    assert p == P.Pipe([b0.(status := P.Skipped), b1.(status := P.Uploaded)], [], b1.last, 2, 0, false, {}, []);
    p := PipeStep(p, P.Commit(true));
    p := PipeStep(p, P.Commit(true));
    p := PipeStep(p, P.RequestTrim(1));
  }

  /** Two records in two blocks; the first block's preparation fails, the second is committed and
      trimmed: the first record is trimmed and not committed. */
  lemma OvertakenReached(e0: Entry, e1: Entry) returns (p: P.Pipe)
    requires e0.offset < e1.offset
    ensures PipeReaches(p) && P.Overtaken(p, 0, 1)
    ensures e0 in P.Confirmed(p) && P.TrimRequested(p, e0) && !P.InCommitted(p, e0)
  {
    hide P.EntriesOfBlocks, PipeReaches, P.Inv;
    p := TwoBlocks(e0, e1);
    p := Overtake(p, p.blocks[0], p.blocks[1]);
    PipeInv(p);
    assert e0 in p.blocks[0].entries;
    P.InConfirmed(p, 0, e0);
    P.LostNotCommitted(p, 0, e0);
  }

  /** One record in a block whose preparation fails. */
  lemma SkippedBlock(e: Entry) returns (p: P.Pipe)
    ensures PipeReaches(p)
    ensures p == P.Pipe([P.Block([e], Some(e.offset), P.Skipped)], [], Some(e.offset), 1, 0, false, {}, [])
  {
    hide P.EntriesOfBlocks, PipeReaches;
    BlockEntries(P.Block([e], Some(e.offset), P.Queued));
    PipeStart();
    p := PipeStep(P.InitPipe(), P.Confirm(e, false));
    assert p == P.Pipe([], [e], Some(e.offset), 0, 0, false, {}, []);
    p := PipeStep(p, P.ArchiveAll);
    p := PipeStep(p, P.Prepare(false));
  }

  /** One record in a block whose commit fails. */
  lemma FailedBlock(e: Entry) returns (p: P.Pipe)
    ensures PipeReaches(p)
    ensures p == P.Pipe([P.Block([e], Some(e.offset), P.Failed)], [], Some(e.offset), 1, 1, true, {}, [])
  {
    hide P.EntriesOfBlocks, PipeReaches;
    BlockEntries(P.Block([e], Some(e.offset), P.Queued));
    PipeStart();
    p := PipeStep(P.InitPipe(), P.Confirm(e, false));
    assert p == P.Pipe([], [e], Some(e.offset), 0, 0, false, {}, []);
    p := PipeStep(p, P.ArchiveAll);
    p := PipeStep(p, P.Prepare(true));
    p := PipeStep(p, P.UploadDone(0, true));
    p := PipeStep(p, P.Commit(false));
  }

  /** A forced upload of a stream whose only block is finished finds nothing to wait for. */
  lemma ForceFindsNothing(p0: P.Pipe, e: Entry, b: P.Block) returns (p: P.Pipe)
    requires PipeReaches(p0) && p0.blocks == [b] && p0.active == [] && p0.forces == []
    requires b.entries == [e] && b.status.Finished()
    ensures PipeReaches(p) && p == p0.(forces := [P.Force(e.record.streamId, 1, 1, P.ReturnedOk)])
  {
    hide P.EntriesOfBlocks, PipeReaches;
    var s := e.record.streamId;
    BlockEntries(b);
    p := PipeStep(p0, P.ForceBegin(s));
    assert p == p0.(forces := [P.Force(s, 1, 0, P.Begun)]);
    p := PipeStep(p, P.ForceArchive(0));
    assert p == p0.(forces := [P.Force(s, 1, 1, P.Archived)]);
    assert P.Inflight(p, s) == {};
    p := PipeStep(p, P.ForceCollect(0));
    assert p == p0.(forces := [P.Force(s, 1, 1, P.Waiting({}))]);
    p := PipeStep(p, P.ForceReturn(0));
  }

  /** A forced upload of a stream whose block was skipped, or whose commit failed, before the call
      returns Ok with its record not committed. */
  lemma ForcedLossReached(e: Entry, failed: bool) returns (p: P.Pipe)
    ensures PipeReaches(p) && |p.forces| == 1 && p.forces[0].phase.ReturnedOk?
    ensures |p.blocks| == 1 && p.blocks[0].status == (if failed then P.Failed else P.Skipped)
    ensures P.CoveredByForce(p, p.forces[0], 0) && P.Confirmed(p)[0] == e && !P.InCommitted(p, e)
  {
    hide P.EntriesOfBlocks, PipeReaches;
    if failed {
      p := FailedBlock(e);
    } else {
      p := SkippedBlock(e);
    }
    BlockEntries(p.blocks[0]);
    p := ForceFindsNothing(p, e, p.blocks[0]);
  }

  // ---- The whole node ----------------------------------------------------------------------------

  /** Some run of the node ends in this state. */
  ghost predicate NodeReaches(sys: C.Sys) {
    exists run :: C.IsRun(run) && run[|run| - 1] == sys
  }

  lemma NodeStart()
    ensures NodeReaches(C.Init())
  {
    var run := [C.Init()];
    assert C.IsRun(run) && run[|run| - 1] == C.Init();
  }

  lemma NodeStep(sys: C.Sys, a: C.Action) returns (sys': C.Sys)
    requires NodeReaches(sys) && C.Enabled(sys, a)
    ensures NodeReaches(sys') && sys' == C.Apply(sys, a)
  {
    hide C.Enabled, C.Apply;
    sys' := C.Apply(sys, a);
    var run :| C.IsRun(run) && run[|run| - 1] == sys;
    var run' := run + [sys'];
    forall i | 0 < i < |run'| ensures C.Step(run'[i - 1], run'[i]) {
      if i < |run| {
        assert C.Step(run[i - 1], run[i]);
      } else {
        assert C.Enabled(run'[i - 1], a) && C.Apply(run'[i - 1], a) == run'[i];
      }
    }
    assert C.IsRun(run') && run'[|run'| - 1] == sys';
  }

  /** The node with one acknowledged record whose commit failed without being applied. */
  function FailedNode(e: Entry, forces: seq<P.Force>): C.Sys {
    var x := e.record;
    C.Sys(C.Running, P.Pipe([P.Block([e], Some(e.offset), P.Failed)], [], Some(e.offset), 1, 1, true, {}, forces),
          [e], -1, 0, [], map[x.streamId := 0], {x.streamId}, map[x.streamId := x.LastOffset()], [x], {}, {}, {})
  }

  lemma FailedNodeReached(e: Entry) returns (sys: C.Sys)
    requires e.record.IsUser() && e.record.baseOffset == 0
    ensures NodeReaches(sys) && sys == FailedNode(e, [])
  {
    hide P.EntriesOfBlocks, NodeReaches, C.Pending;
    var x, s := e.record, e.record.streamId;
    BlockEntries(P.Block([e], Some(e.offset), P.Queued));
    NodeStart();
    sys := NodeStep(C.Init(), C.OpenStream(s));
    assert sys == C.Init().(open := {s}, ends := map[s := 0], next := map[s := 0]);
    sys := NodeStep(sys, C.Confirm(e, false));
    assert sys == C.Init().(open := {s}, ends := map[s := 0], next := map[s := x.LastOffset()], log := [e],
                            acked := [x], pipe := P.Pipe([], [e], Some(e.offset), 0, 0, false, {}, []));
    sys := NodeStep(sys, C.Pipe(P.ArchiveAll));
    sys := NodeStep(sys, C.Pipe(P.Prepare(true)));
    sys := NodeStep(sys, C.Pipe(P.UploadDone(0, true)));
    sys := NodeStep(sys, C.Commit(false, false));
  }

  lemma ForcedNodeReached(e: Entry) returns (sys: C.Sys)
    requires e.record.IsUser() && e.record.baseOffset == 0
    ensures NodeReaches(sys) && sys == FailedNode(e, [P.Force(e.record.streamId, 1, 1, P.ReturnedOk)])
  {
    hide P.EntriesOfBlocks, NodeReaches;
    var s := e.record.streamId;
    BlockEntries(P.Block([e], Some(e.offset), P.Failed));
    sys := FailedNodeReached(e);
    sys := NodeStep(sys, C.Pipe(P.ForceBegin(s)));
    assert sys == FailedNode(e, [P.Force(s, 1, 0, P.Begun)]);
    sys := NodeStep(sys, C.Pipe(P.ForceArchive(0)));
    assert sys == FailedNode(e, [P.Force(s, 1, 1, P.Archived)]);
    assert P.Inflight(sys.pipe, s) == {};
    sys := NodeStep(sys, C.Pipe(P.ForceCollect(0)));
    assert sys == FailedNode(e, [P.Force(s, 1, 1, P.Waiting({}))]);
    sys := NodeStep(sys, C.Pipe(P.ForceReturn(0)));
  }

  /** The forced upload covers the record, which is still pending. */
  lemma ForcedCovers(e: Entry, sys: C.Sys)
    requires e.record.IsUser() && sys == FailedNode(e, [P.Force(e.record.streamId, 1, 1, P.ReturnedOk)])
    ensures C.Covering(sys.pipe, 0, e.record.streamId)
    ensures sys.frontier <= |sys.log| && C.Pending(sys.log, sys.frontier, e.record.streamId) == [e.record]
  {
    hide P.EntriesOfBlocks;
    BlockEntries(sys.pipe.blocks[0]);
    assert [e][0..] == [e] && F.RecordsOf([e]) == [e.record];
    OneOfStream(e.record);
  }

  /** The stream is closed with the record uncommitted. */
  lemma ClosedNodeReached(e: Entry) returns (sys: C.Sys)
    requires e.record.IsUser() && e.record.baseOffset == 0
    ensures NodeReaches(sys)
    ensures var x := e.record;
            sys == FailedNode(e, [P.Force(x.streamId, 1, 1, P.ReturnedOk)])
                   .(open := {}, broken := {x.streamId}, exposed := {x})
  {
    hide P.EntriesOfBlocks, P.Confirmed, NodeReaches, C.Covering, C.Pending;
    var x := e.record;
    sys := ForcedNodeReached(e);
    ForcedCovers(e, sys);
    sys := NodeStep(sys, C.CloseStream(x.streamId, 0));
    assert (set y | y in [x]) == {x};
  }

  lemma {:induction false} NothingTrimmed(log: seq<Entry>)
    requires forall i :: 0 <= i < |log| ==> log[i].record.IsUser()
    ensures Above(log, -1) == log[0..]
  {
    if log != [] {
      NothingTrimmed(log[..|log| - 1]);
    }
  }

  /** A recovery of the whole log commits what the filter keeps of it. */
  lemma RecoverAll(sys: C.Sys, kept: seq<Record>) returns (sys': C.Sys)
    requires NodeReaches(sys) && sys.mode.Down? && sys.requested == -1
    requires forall i :: 0 <= i < |sys.log| ==> sys.log[i].record.IsUser()
    requires F.Fold(F.RecordsOf(sys.log), C.OpenEnds(sys)).kept == kept
    ensures NodeReaches(sys') && sys'.mode.Closing?
    ensures sys'.acked == sys.acked && sys'.log == sys.log && sys'.committed == sys.committed + kept
  {
    hide NodeReaches, Above, F.Fold, F.RecordsOf;
    NothingTrimmed(sys.log);
    var rest := F.RecordsOf(sys.log);
    assert sys.log[0..] + [] == sys.log && rest[..|rest|] == rest && rest[|rest|..] == [];
    sys' := NodeStep(sys, C.BeginRecovery(0, []));
    assert C.OpenEnds(sys') == C.OpenEnds(sys);
    sys' := NodeStep(sys', C.RecoverBlock(|rest|));
    sys' := NodeStep(sys', C.FinishRecovery);
  }

  /** Continued through a crash, a recovery and the reset of the log, the record is nowhere. */
  lemma ClosedLossReached(e: Entry) returns (sys: C.Sys)
    requires e.record.IsUser() && e.record.baseOffset == 0
    ensures NodeReaches(sys) && sys.mode.Closing?
    ensures sys.acked == [e.record] && sys.committed == [] && sys.log == []
  {
    hide NodeReaches;
    sys := ClosedNodeReached(e);
    sys := NodeStep(sys, C.Crash);
    assert C.OpenEnds(sys) == map[] && F.RecordsOf([e]) == [e.record] && [e.record][..0] == [];
    assert F.Fold([e.record], map[]).kept == [];
    sys := RecoverAll(sys, []);
    sys := NodeStep(sys, C.ResetDone);
  }

  /** The stream reopened, with a second record at the offset of the first. */
  lemma ReopenedNodeReached(e0: Entry, e1: Entry) returns (sys: C.Sys)
    requires e0.record.IsUser() && e1.record.IsUser() && e0.record.streamId == e1.record.streamId
    requires e0.record.baseOffset == 0 && e1.record.baseOffset == 0 && e0.record != e1.record && e0.offset < e1.offset
    ensures NodeReaches(sys) && sys.mode.Down? && sys.requested == -1 && sys.log == [e0, e1]
    ensures sys.acked == [e0.record, e1.record] && sys.committed == []
    ensures C.OpenEnds(sys) == map[e0.record.streamId := 0]
  {
    hide NodeReaches, P.EntriesOfBlocks;
    var s := e0.record.streamId;
    sys := ClosedNodeReached(e0);
    BlockEntries(sys.pipe.blocks[0]);
    sys := NodeStep(sys, C.OpenStream(s));
    assert sys.next[s] == 0 && P.Confirmed(sys.pipe) == [e0];
    sys := NodeStep(sys, C.Confirm(e1, false));
    sys := NodeStep(sys, C.Crash);
  }

  /** Recovery then commits the first record and drops the second. */
  lemma ReopenedLossReached(e0: Entry, e1: Entry) returns (sys: C.Sys)
    requires e0.record.IsUser() && e1.record.IsUser() && e0.record.streamId == e1.record.streamId
    requires e0.record.baseOffset == 0 && e1.record.baseOffset == 0 && e0.record != e1.record && e0.offset < e1.offset
    ensures NodeReaches(sys) && sys.mode.Closing?
    ensures sys.acked == [e0.record, e1.record] && sys.committed == [e0.record]
  {
    hide NodeReaches;
    sys := ReopenedNodeReached(e0, e1);
    assert F.RecordsOf([e0, e1]) == [e0.record, e1.record];
    TwoFolded(e0.record, e1.record);
    sys := RecoverAll(sys, [e0.record]);
  }

  lemma TwoFolded(x: Record, y: Record)
    requires x.streamId == y.streamId && x.baseOffset == 0 && y.baseOffset == 0 && x.count > 0
    ensures F.Fold([x, y], map[x.streamId := 0]).kept == [x]
  {
    assert [x, y][..1] == [x] && [x][..0] == [];
    assert F.Fold([x], map[x.streamId := 0]) == F.Folded([x], map[x.streamId := x.LastOffset()]);
  }

  // ---- Appends under backpressure ----------------------------------------------------------------

  /** Some run of the append path ends in this state. */
  ghost predicate AppendReaches(st: B.State) {
    exists run :: B.IsRun(run) && run[|run| - 1] == st
  }

  lemma AppendStart(starts: map<nat, nat>)
    ensures AppendReaches(B.Init(starts))
  {
    var run := [B.Init(starts)];
    assert B.IsRun(run) && run[|run| - 1] == B.Init(starts);
  }

  lemma AppendStep(st: B.State, a: B.Action) returns (st': B.State)
    requires AppendReaches(st) && B.Enabled(st, a)
    ensures AppendReaches(st') && st' == B.Apply(st, a)
  {
    hide B.Enabled, B.Apply;
    st' := B.Apply(st, a);
    var run :| B.IsRun(run) && run[|run| - 1] == st;
    var run' := run + [st'];
    forall i | 0 < i < |run'| ensures B.Step(run'[i - 1], run'[i]) {
      if i < |run| {
        assert B.Step(run[i - 1], run[i]);
      } else {
        assert B.Enabled(run'[i - 1], a) && B.Apply(run'[i - 1], a) == run'[i];
      }
    }
    assert B.IsRun(run') && run'[|run'| - 1] == st';
  }

  /** One uncontended append with the given answer of the log. */
  lemma AppendOne(st: B.State, s: nat, r: Record, outcome: B.Outcome) returns (st': B.State)
    requires AppendReaches(st) && st.queue == [] && !outcome.OverCapacity? && B.Enabled(st, B.Reserve(s, r))
    ensures AppendReaches(st')
    ensures st' == if outcome.Accepted?
                   then st.(admitted := st.admitted + [r], wal := st.wal + [r])
                   else st.(admitted := st.admitted + [r], dropped := st.dropped + {r})
  {
    hide AppendReaches, B.Next;
    st' := AppendStep(st, B.Reserve(s, r));
    st' := AppendStep(st', B.LookAtQueue(s));
    st' := AppendStep(st', B.AskPermit(s, true));
    st' := AppendStep(st', B.Submit(s, outcome));
    assert st'.pc == st.pc;
  }

  /** A record that meets a hard error, then one that does not: the log has a hole at the start. */
  lemma HoleReached(r0: Record, r1: Record) returns (st: B.State)
    requires r0.IsUser() && r1.IsUser() && r0.streamId == r1.streamId
    requires r0.baseOffset == 0 && r1.baseOffset == r0.LastOffset()
    ensures AppendReaches(st)
    ensures var s := r0.streamId;
            s in st.starts && OfStream(st.wal, s) == [r1] && !ContiguousFrom(OfStream(st.wal, s), st.starts[s])
  {
    hide AppendReaches, OfStream;
    var s := r0.streamId;
    OneOfStream(r0);
    OneOfStream(r1);
    AppendStart(map[s := 0]);
    st := AppendOne(B.Init(map[s := 0]), s, r0, B.HardError);
    assert [] + [r0] == [r0];
    st := AppendOne(st, s, r1, B.Accepted);
    assert [] + [r1] == [r1];
  }

  lemma OneOfStream(r: Record)
    ensures OfStream([], r.streamId) == [] && OfStream([r], r.streamId) == [r]
  {
    assert [r][..0] == [];
  }
}
