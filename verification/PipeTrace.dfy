/**
 * Runs of the upload pipeline together with their steps: why a block fails or is skipped, and that
 * the pipeline can always finish every block and answer every forced upload.
 */
module PipeTrace {
  import opened Records
  import opened WalLayout
  import opened Pipeline

  predicate StepAt(run: seq<Pipe>, acts: seq<Action>, i: nat) {
    i < |acts| && i + 1 < |run| && Enabled(run[i], acts[i]) && run[i + 1] == Apply(run[i], acts[i])
  }

  /** A run and the action of each of its steps. */
  ghost predicate Trace(run: seq<Pipe>, acts: seq<Action>) {
    && |run| == |acts| + 1 && run[0] == InitPipe()
    && forall i: nat :: i < |acts| ==> StepAt(run, acts, i)
  }

  lemma TraceRun(run: seq<Pipe>, acts: seq<Action>)
    requires Trace(run, acts)
    ensures IsRun(run)
  {
    hide Enabled, Apply;
    forall i | 0 < i < |run| ensures Step(run[i - 1], run[i]) {
      assert StepAt(run, acts, i - 1);
    }
  }

  /** Every run has its steps. */
  lemma {:induction false} RunTrace(run: seq<Pipe>) returns (acts: seq<Action>)
    requires IsRun(run)
    ensures Trace(run, acts)
  {
    hide Enabled, Apply;
    acts := [];
    if |run| > 1 {
      var n := |run| - 1;
      assert Step(run[n - 1], run[n]);
      var a :| Enabled(run[n - 1], a) && Apply(run[n - 1], a) == run[n];
      var init := RunTrace(run[..n]);
      acts := init + [a];
      forall i: nat | i < |acts| ensures StepAt(run, acts, i) {
        if i < |init| {
          assert StepAt(run[..n], init, i);
        }
      }
    }
  }

  // ---- What is in the blocks ---------------------------------------------------------------------------

  /** The confirmed records, in step order. */
  function ConfirmedBy(acts: seq<Action>): seq<Entry> {
    if acts == [] then []
    else
      var a := acts[|acts| - 1];
      ConfirmedBy(acts[..|acts| - 1]) + if a.Confirm? then [a.entry] else []
  }

  lemma StepConfirmed(p: Pipe, a: Action)
    requires Enabled(p, a)
    ensures Confirmed(Apply(p, a)) == Confirmed(p) + if a.Confirm? then [a.entry] else []
  {
    hide EntriesOfBlocks, HasStream, Inflight;
    ArchiveConfirmed(p);
    match a
    case Confirm(e, full) =>
      var p1 := if full then Archive(p) else p;
      ConfirmedPush(p1, e, Some(e.offset));
    case Prepare(ok) => SetStatusConfirmed(p, p.prep, if ok then Prepared else Skipped);
    case UploadDone(i, ok) => SetStatusConfirmed(p, i, if ok then Uploaded else UploadFailed);
    case Commit(ok) =>
      SetStatusConfirmed(p, p.com, Committed);
      SetStatusConfirmed(p, p.com, Failed);
    case _ =>
  }

  /** Blocks and the block being filled hold exactly the confirmed records, in confirm order. */
  lemma {:induction false} BlocksHoldConfirmed(run: seq<Pipe>, acts: seq<Action>, n: nat)
    requires Trace(run, acts) && n <= |acts|
    ensures Confirmed(run[n]) == ConfirmedBy(acts[..n])
  {
    hide Enabled, Apply, Confirmed;
    if n == 0 {
      assert Confirmed(run[0]) == [] by { NothingConfirmed(); }
    } else {
      BlocksHoldConfirmed(run, acts, n - 1);
      assert StepAt(run, acts, n - 1) && acts[..n][..n - 1] == acts[..n - 1];
      StepConfirmed(run[n - 1], acts[n - 1]);
    }
  }

  lemma NothingConfirmed()
    ensures Confirmed(InitPipe()) == []
  {
  }

  /** A block is sealed when it is full, on a timer or limit, or by a forced upload of a stream it
      holds; it takes over the records being filled and the latest confirmed offset. */
  lemma SealedOnly(p: Pipe, a: Action)
    requires Enabled(p, a)
    ensures |p.blocks| <= |Apply(p, a).blocks|
    ensures |p.blocks| < |Apply(p, a).blocks| ==>
              && (a.ArchiveAll? || (a.Confirm? && a.full)
                  || (a.ForceArchive? && HasStream(p.active, p.forces[a.f].stream)))
              && Apply(p, a).blocks == p.blocks + [Block(p.active, p.lastOffset, Queued)]
  {
    hide Confirmed, HasStream, Inflight;
  }

  // ---- Why a block is not committed -----------------------------------------------------------------------

  /** The preparation of block `i` failed in this step. */
  predicate SkipsAt(p: Pipe, a: Action, i: nat) { a == Prepare(false) && p.prep == i }

  /** The upload of block `i` failed in this step. */
  predicate UploadFails(a: Action, i: nat) { a == UploadDone(i, false) }

  /** The commit worker takes a block whose upload failed, or the commit of it is answered with an
      error. */
  predicate CommitFails(p: Pipe, a: Action) {
    && a.Commit? && p.com < |p.blocks| && !p.blocks[p.com].status.Skipped?
    && (p.blocks[p.com].status.UploadFailed? || !a.ok)
  }

  ghost predicate SkippedBefore(run: seq<Pipe>, acts: seq<Action>, n: nat, i: nat) {
    exists k: nat :: k < n && k < |run| && k < |acts| && SkipsAt(run[k], acts[k], i)
  }

  ghost predicate UploadFailedBefore(acts: seq<Action>, n: nat, i: nat) {
    exists k: nat :: k < n && k < |acts| && UploadFails(acts[k], i)
  }

  ghost predicate CommitFailedBefore(run: seq<Pipe>, acts: seq<Action>, n: nat) {
    exists k: nat :: k < n && k < |run| && k < |acts| && CommitFails(run[k], acts[k])
  }

  lemma StepSkips(p: Pipe, a: Action, i: nat)
    requires Fifo(p) && Enabled(p, a)
    ensures var p' := Apply(p, a);
            (i < |p'.blocks| && p'.blocks[i].status.Skipped?)
            <==> (i < |p.blocks| && p.blocks[i].status.Skipped?) || SkipsAt(p, a, i)
  {
    hide Confirmed, HasStream, Inflight;
  }

  /** A block is skipped if and only if its preparation failed. */
  lemma {:induction false} SkippedIff(run: seq<Pipe>, acts: seq<Action>, n: nat, i: nat)
    requires Trace(run, acts) && n <= |acts|
    ensures (i < |run[n].blocks| && run[n].blocks[i].status.Skipped?) <==> SkippedBefore(run, acts, n, i)
  {
    hide Enabled, Apply, SkipsAt, Fifo, Partition, Forces;
    if n > 0 {
      SkippedIff(run, acts, n - 1, i);
      TraceRun(run, acts);
      RunInv(run, n - 1);
      assert StepAt(run, acts, n - 1);
      StepSkips(run[n - 1], acts[n - 1], i);
      if SkippedBefore(run, acts, n, i) {
        var k: nat :| k < n && k < |run| && k < |acts| && SkipsAt(run[k], acts[k], i);
        assert k < n - 1 ==> SkippedBefore(run, acts, n - 1, i);
      }
    }
  }

  lemma StepUploads(p: Pipe, a: Action, i: nat)
    requires Fifo(p) && Enabled(p, a)
    ensures var p' := Apply(p, a);
            i < |p'.blocks| && p'.blocks[i].status.UploadFailed? ==>
              (i < |p.blocks| && p.blocks[i].status.UploadFailed?) || UploadFails(a, i)
  {
    hide Confirmed, HasStream, Inflight;
  }

  /** A block's upload counts as failed only if it did. */
  lemma {:induction false} UploadFailedOnly(run: seq<Pipe>, acts: seq<Action>, n: nat, i: nat)
    requires Trace(run, acts) && n <= |acts| && i < |run[n].blocks| && run[n].blocks[i].status.UploadFailed?
    ensures UploadFailedBefore(acts, n, i)
  {
    hide Enabled, Apply, UploadFails, Fifo, Partition, Forces;
    if n > 0 {
      TraceRun(run, acts);
      RunInv(run, n - 1);
      assert StepAt(run, acts, n - 1);
      StepUploads(run[n - 1], acts[n - 1], i);
      if i < |run[n - 1].blocks| && run[n - 1].blocks[i].status.UploadFailed? {
        UploadFailedOnly(run, acts, n - 1, i);
      }
    }
  }

  lemma StepPoisons(p: Pipe, a: Action)
    requires Fifo(p) && Enabled(p, a)
    ensures Apply(p, a).poisoned <==> p.poisoned || CommitFails(p, a)
  {
    hide Confirmed, HasStream, Inflight;
  }

  /** The pipeline stops committing exactly after a commit failed. */
  lemma {:induction false} PoisonedIff(run: seq<Pipe>, acts: seq<Action>, n: nat)
    requires Trace(run, acts) && n <= |acts|
    ensures run[n].poisoned <==> CommitFailedBefore(run, acts, n)
  {
    hide Enabled, Apply, CommitFails, Fifo, Partition, Forces;
    if n > 0 {
      PoisonedIff(run, acts, n - 1);
      TraceRun(run, acts);
      RunInv(run, n - 1);
      assert StepAt(run, acts, n - 1);
      StepPoisons(run[n - 1], acts[n - 1]);
      if CommitFailedBefore(run, acts, n) {
        var k: nat :| k < n && k < |run| && k < |acts| && CommitFails(run[k], acts[k]);
        assert k < n - 1 ==> CommitFailedBefore(run, acts, n - 1);
      }
    }
  }

  /** Step `m` is the commit worker's pass over block `i`. */
  predicate Passes(run: seq<Pipe>, acts: seq<Action>, m: nat, i: nat) {
    m < |run| && m < |acts| && acts[m].Commit? && run[m].com == i
  }

  lemma StepCommits(p: Pipe, a: Action, i: nat)
    requires Fifo(p) && Enabled(p, a) && i < Apply(p, a).com
    ensures i < |Apply(p, a).blocks|
    ensures i < p.com ==> i < |p.blocks| && Apply(p, a).blocks[i].status == p.blocks[i].status
    ensures i >= p.com ==> a.Commit? && p.com == i && i < |p.blocks|
    ensures i >= p.com && !p.blocks[i].status.Skipped? ==>
              (Apply(p, a).blocks[i].status.Committed? <==> !p.poisoned && !CommitFails(p, a))
    ensures i >= p.com && p.blocks[i].status.Skipped? ==> Apply(p, a).blocks[i].status.Skipped?
  {
    hide Confirmed, HasStream, Inflight;
  }

  /**
   * What becomes of a block the commit worker has passed: it was skipped, or it is committed if and
   * only if no commit up to and including its own has failed.
   */
  lemma {:induction false} CommittedIff(run: seq<Pipe>, acts: seq<Action>, n: nat, i: nat) returns (m: nat)
    requires Trace(run, acts) && n <= |acts| && i < run[n].com
    ensures i < |run[n].blocks| && m < n && Passes(run, acts, m, i)
    ensures !run[n].blocks[i].status.Skipped? ==>
              (run[n].blocks[i].status.Committed? <==> !CommitFailedBefore(run, acts, m + 1))
  {
    hide Enabled, Apply, CommitFails, Fifo, Partition, Forces, CommitFailedBefore;
    if n == 0 {
      assert false;
    } else {
      TraceRun(run, acts);
      RunInv(run, n - 1);
      assert StepAt(run, acts, n - 1);
      StepCommits(run[n - 1], acts[n - 1], i);
      if i < run[n - 1].com {
        m := CommittedIff(run, acts, n - 1, i);
      } else {
        m := n - 1;
        PoisonedIff(run, acts, n - 1);
        PoisonedIff(run, acts, n);
        StepPoisons(run[n - 1], acts[n - 1]);
      }
    }
  }

  // ---- The pipeline never gets stuck -------------------------------------------------------------------------

  ghost function Last(run: seq<Pipe>): Pipe
    requires run != []
  {
    run[|run| - 1]
  }

  /** Nothing has failed after it was prepared. */
  predicate Sound(p: Pipe) {
    !p.poisoned && forall i :: 0 <= i < |p.blocks| ==> !p.blocks[i].status.UploadFailed?
  }

  ghost predicate Reached(run: seq<Pipe>) {
    run != [] && IsRun(run) && Inv(Last(run))
  }

  /** Steps that fail nothing and confirm nothing new. */
  predicate Good(a: Action) {
    && !a.Confirm? && !a.ForceBegin? && a != Prepare(false) && a != Commit(false)
    && (a.UploadDone? ==> a.ok)
  }

  /** A continuation that confirms nothing new, skips no further block and fails nothing by itself. */
  ghost predicate Onward(run: seq<Pipe>, run': seq<Pipe>) {
    && Reached(run) && Reached(run') && run <= run' && Confirmed(Last(run')) == Confirmed(Last(run))
    && (Sound(Last(run)) ==> Sound(Last(run')))
    && |Last(run).blocks| <= |Last(run').blocks| && SkipsSame(Last(run), Last(run'))
    && |Last(run').forces| == |Last(run).forces|
  }

  predicate SkipsSame(p: Pipe, p': Pipe) {
    forall i :: 0 <= i < |p'.blocks| ==>
      (p'.blocks[i].status.Skipped? <==> i < |p.blocks| && p.blocks[i].status.Skipped?)
  }

  lemma GoodSound(p: Pipe, a: Action)
    requires Inv(p) && Enabled(p, a) && Good(a)
    ensures (Sound(p) ==> Sound(Apply(p, a))) && |p.blocks| <= |Apply(p, a).blocks| && SkipsSame(p, Apply(p, a))
    ensures |Apply(p, a).forces| == |p.forces|
  {
    hide Confirmed, HasStream, Inflight, Partition, Forces, Fifo;
    if a.Commit? {
      GoodCommit(p);
    } else {
      FifoOf(p);
    }
  }

  lemma GoodCommit(p: Pipe)
    requires Inv(p) && Enabled(p, Commit(true))
    ensures (Sound(p) ==> Sound(Apply(p, Commit(true)))) && SkipsSame(p, Apply(p, Commit(true)))
    ensures |Apply(p, Commit(true)).blocks| == |p.blocks|
  {
    hide Confirmed, Partition, Forces;
  }

  lemma Extend(run: seq<Pipe>, a: Action) returns (run': seq<Pipe>)
    requires Reached(run) && Enabled(Last(run), a) && Good(a)
    ensures Onward(run, run') && Last(run') == Apply(Last(run), a)
  {
    hide Enabled, Apply, Inv, Confirmed;
    run' := run + [Apply(Last(run), a)];
    forall i | 0 < i < |run'| ensures Step(run'[i - 1], run'[i]) {
      if i < |run| {
        assert Step(run[i - 1], run[i]);
      } else {
        assert Enabled(run'[i - 1], a) && Apply(run'[i - 1], a) == run'[i];
      }
    }
    RunInv(run', |run|);
    GoodSound(Last(run), a);
    StepConfirmed(Last(run), a);
  }

  lemma FifoOf(p: Pipe)
    requires Inv(p)
    ensures p.com <= p.prep <= |p.blocks|
    ensures forall i :: p.prep <= i < |p.blocks| ==> p.blocks[i].status.Queued?
    ensures forall i :: 0 <= i < p.prep ==> !p.blocks[i].status.Queued?
    ensures forall i :: 0 <= i < p.com ==> p.blocks[i].status.Finished()
    ensures forall i :: 0 <= i < |p.blocks| && p.blocks[i].status.Failed? ==> p.poisoned
  {
    hide Partition, Forces;
  }

  /** Forced uploads that have begun can get to where they wait. */
  lemma {:induction false} ForceWaits(run: seq<Pipe>, f: nat) returns (run': seq<Pipe>)
    requires Reached(run) && f < |Last(run).forces|
    ensures Onward(run, run') && !Last(run').forces[f].phase.Begun? && !Last(run').forces[f].phase.Archived?
    ensures forall g :: 0 <= g < |Last(run).forces| && g != f ==> Last(run').forces[g] == Last(run).forces[g]
    decreases match Last(run).forces[f].phase case Begun => 2 case Archived => 1 case _ => 0
  {
    hide IsRun, Inv, Confirmed, Inflight, HasStream, EntriesOfBlocks;
    run' := run;
    if Last(run).forces[f].phase.Begun? {
      run' := Extend(run, ForceArchive(f));
      run' := ForceWaits(run', f);
    } else if Last(run).forces[f].phase.Archived? {
      run' := Extend(run, ForceCollect(f));
    }
  }

  predicate AllWait(p: Pipe, f: nat) {
    forall g :: 0 <= g < f && g < |p.forces| ==> p.forces[g].phase.Collected()
  }

  lemma {:induction false} ForcesWait(run: seq<Pipe>, f: nat) returns (run': seq<Pipe>)
    requires Reached(run) && f <= |Last(run).forces| && AllWait(Last(run), f)
    ensures Onward(run, run') && AllWait(Last(run'), |Last(run').forces|)
    decreases |Last(run).forces| - f
  {
    hide IsRun, Inv, Confirmed;
    run' := run;
    if f < |Last(run).forces| {
      run' := ForceWaits(run, f);
      run' := ForcesWait(run', f + 1);
    }
  }

  lemma {:induction false} PrepareAll(run: seq<Pipe>) returns (run': seq<Pipe>)
    requires Reached(run)
    ensures Onward(run, run') && Last(run').prep == |Last(run').blocks| == |Last(run).blocks|
    ensures Last(run').forces == Last(run).forces && Last(run').active == Last(run).active
    decreases |Last(run).blocks| - Last(run).prep
  {
    hide IsRun, Inv, Confirmed;
    run' := run;
    FifoOf(Last(run));
    if Last(run).prep < |Last(run).blocks| {
      run' := Extend(run, Prepare(true));
      run' := PrepareAll(run');
    }
  }

  /** Only statuses have changed. */
  predicate OnlyStatus(p: Pipe, p': Pipe) {
    p' == p.(blocks := p'.blocks, com := p'.com, poisoned := p'.poisoned) && |p'.blocks| == |p.blocks|
  }

  lemma {:induction false} UploadAll(run: seq<Pipe>, k: nat) returns (run': seq<Pipe>)
    requires Reached(run) && k <= |Last(run).blocks|
    requires forall i :: 0 <= i < k ==> !Last(run).blocks[i].status.Prepared?
    ensures Onward(run, run') && OnlyStatus(Last(run), Last(run')) && Last(run').com == Last(run).com
    ensures forall i :: 0 <= i < |Last(run').blocks| ==> !Last(run').blocks[i].status.Prepared?
    decreases |Last(run).blocks| - k
  {
    hide IsRun, Inv, Confirmed;
    run' := run;
    if k < |Last(run).blocks| {
      if Last(run).blocks[k].status.Prepared? {
        run' := Extend(run, UploadDone(k, true));
      }
      run' := UploadAll(run', k + 1);
    }
  }

  lemma {:induction false} CommitAll(run: seq<Pipe>) returns (run': seq<Pipe>)
    requires Reached(run) && Last(run).prep == |Last(run).blocks|
    requires forall i :: 0 <= i < |Last(run).blocks| ==> !Last(run).blocks[i].status.Prepared?
    ensures Onward(run, run') && OnlyStatus(Last(run), Last(run')) && Last(run').com == |Last(run').blocks|
    decreases |Last(run).blocks| - Last(run).com
  {
    hide IsRun, Inv, Confirmed;
    run' := run;
    FifoOf(Last(run));
    if Last(run).com < |Last(run).blocks| {
      run' := Extend(run, Commit(true));
      run' := CommitAll(run');
    }
  }

  /** Everything confirmed is in a finished block; unless something has failed, in one that is
      committed or was skipped. */
  predicate Drained(p: Pipe) {
    && p.active == []
    && (forall i :: 0 <= i < |p.blocks| ==> p.blocks[i].status.Finished())
    && (Sound(p) ==> forall i :: 0 <= i < |p.blocks| ==> !p.blocks[i].status.Failed?)
  }

  lemma CommitsAll(run: seq<Pipe>) returns (run': seq<Pipe>)
    requires Reached(run)
    ensures Onward(run, run') && Drained(Last(run')) && Last(run').forces == Last(run).forces
  {
    hide IsRun, Inv, Confirmed;
    run' := Extend(run, ArchiveAll);
    run' := PrepareAll(run');
    run' := UploadAll(run', 0);
    run' := CommitAll(run');
    FifoOf(Last(run'));
  }

  lemma {:induction false} TrimAll(run: seq<Pipe>, k: nat) returns (run': seq<Pipe>)
    requires Reached(run) && Drained(Last(run)) && k <= |Last(run).blocks|
    requires forall i :: 0 <= i < k && Last(run).blocks[i].status.Committed? ==> i in Last(run).trimmed
    ensures Onward(run, run') && Last(run') == Last(run).(trimmed := Last(run').trimmed)
    ensures forall i :: 0 <= i < |Last(run').blocks| && Last(run').blocks[i].status.Committed? ==>
              i in Last(run').trimmed
    decreases |Last(run).blocks| - k
  {
    hide IsRun, Inv, Confirmed;
    run' := run;
    if k < |Last(run).blocks| {
      if Last(run).blocks[k].status.Committed? {
        run' := Extend(run, RequestTrim(k));
      }
      run' := TrimAll(run', k + 1);
    }
  }

  // ---- Forced uploads ------------------------------------------------------------------------------------

  /** A forced upload waits only for blocks that hold a record of its stream. */
  ghost predicate WaitsOwn(p: Pipe) {
    forall f :: 0 <= f < |p.forces| && p.forces[f].phase.Waiting? ==>
      Holding(p.blocks, p.forces[f].phase.waits, p.forces[f].stream)
  }

  ghost predicate Holding(blocks: seq<Block>, waits: set<nat>, s: nat) {
    forall i :: i in waits ==> i < |blocks| && HasStream(blocks[i].entries, s)
  }

  lemma StepWaits(p: Pipe, a: Action)
    requires Enabled(p, a) && WaitsOwn(p)
    ensures WaitsOwn(Apply(p, a))
  {
    hide Confirmed, HasStream, WaitsOwn;
    var p' := Apply(p, a);
    if a.ForceCollect? {
      CollectWaits(p, a.f);
    } else {
      assert |p.blocks| <= |p'.blocks|;
      assert forall i :: 0 <= i < |p.blocks| ==> p'.blocks[i].entries == p.blocks[i].entries;
      WaitsFrame(p, p');
    }
  }

  lemma CollectWaits(p: Pipe, f: nat)
    requires WaitsOwn(p) && f < |p.forces|
    ensures WaitsOwn(SetForce(p, f, Waiting(Inflight(p, p.forces[f].stream))))
  {
    hide HasStream;
    assert Holding(p.blocks, Inflight(p, p.forces[f].stream), p.forces[f].stream);
  }

  lemma WaitsFrame(p: Pipe, p': Pipe)
    requires WaitsOwn(p) && |p.blocks| <= |p'.blocks|
    requires forall i :: 0 <= i < |p.blocks| ==> p'.blocks[i].entries == p.blocks[i].entries
    requires forall f :: 0 <= f < |p'.forces| && p'.forces[f].phase.Waiting? ==>
               f < |p.forces| && p.forces[f] == p'.forces[f]
    ensures WaitsOwn(p')
  {
    hide HasStream, Holding;
    forall f | 0 <= f < |p'.forces| && p'.forces[f].phase.Waiting?
      ensures Holding(p'.blocks, p'.forces[f].phase.waits, p'.forces[f].stream)
    {
      HoldingFrame(p.blocks, p'.blocks, p.forces[f].phase.waits, p.forces[f].stream);
    }
  }

  lemma HoldingFrame(a: seq<Block>, b: seq<Block>, waits: set<nat>, s: nat)
    requires Holding(a, waits, s) && |a| <= |b| && forall i :: 0 <= i < |a| ==> b[i].entries == a[i].entries
    ensures Holding(b, waits, s)
  {
    hide HasStream;
  }

  lemma {:induction false} RunWaits(run: seq<Pipe>, n: nat)
    requires IsRun(run) && n < |run|
    ensures WaitsOwn(run[n])
  {
    hide Enabled, Apply;
    if n > 0 {
      RunWaits(run, n - 1);
      assert Step(run[n - 1], run[n]);
      var a :| Enabled(run[n - 1], a) && Apply(run[n - 1], a) == run[n];
      StepWaits(run[n - 1], a);
    }
  }

  lemma {:induction false} ForcesReturn(run: seq<Pipe>, k: nat) returns (run': seq<Pipe>)
    requires Reached(run) && Drained(Last(run)) && AllWait(Last(run), |Last(run).forces|) && k <= |Last(run).forces|
    requires forall f :: 0 <= f < k ==> Last(run).forces[f].phase.Returned()
    ensures Onward(run, run') && Last(run') == Last(run).(forces := Last(run').forces)
    ensures forall f :: 0 <= f < |Last(run').forces| ==> Last(run').forces[f].phase.Returned()
    decreases |Last(run).forces| - k
  {
    hide IsRun, Inv, Confirmed;
    run' := run;
    if k < |Last(run).forces| {
      RunWaits(run, |run| - 1);
      if Last(run).forces[k].phase.Waiting? {
        run' := AnswerForce(run, k);
      }
      run' := ForcesReturn(run', k + 1);
    }
  }

  /** With all blocks finished, a waiting call gets its answer. */
  lemma AnswerForce(run: seq<Pipe>, k: nat) returns (run': seq<Pipe>)
    requires Reached(run) && Drained(Last(run)) && WaitsOwn(Last(run))
    requires k < |Last(run).forces| && Last(run).forces[k].phase.Waiting?
    ensures Onward(run, run') && Last(run') == SetForce(Last(run), k, Last(run').forces[k].phase)
    ensures Last(run').forces[k].phase.Returned()
  {
    hide IsRun, Inv, Confirmed, HasStream;
    var p := Last(run);
    assert Holding(p.blocks, p.forces[k].phase.waits, p.forces[k].stream);
    if i :| i in p.forces[k].phase.waits && p.blocks[i].status.Lost() {
      run' := Extend(run, ForceFail(k));
    } else {
      run' := Extend(run, ForceReturn(k));
    }
  }

  /**
   * From every reachable state steps exist that finish every block, trim the log behind each
   * committed one, and answer every forced upload. If no upload and no commit has failed so far, all
   * confirmed records except those of blocks already skipped are committed by them.
   */
  lemma PipelineFinishes(run: seq<Pipe>) returns (run': seq<Pipe>)
    requires run != [] && IsRun(run)
    ensures Onward(run, run') && Drained(Last(run'))
    ensures forall i :: 0 <= i < |Last(run').blocks| && Last(run').blocks[i].status.Committed? ==>
              i in Last(run').trimmed
    ensures forall f :: 0 <= f < |Last(run').forces| ==> Last(run').forces[f].phase.Returned()
  {
    hide IsRun, Inv, Confirmed;
    RunInv(run, |run| - 1);
    run' := ForcesWait(run, 0);
    run' := CommitsAll(run');
    run' := TrimAll(run', 0);
    run' := ForcesReturn(run', 0);
  }
}
