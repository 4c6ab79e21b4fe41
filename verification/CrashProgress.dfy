/**
 * The node never gets stuck: while nothing has failed it can commit all it has acknowledged, and from
 * every state a crash and a recovery lead back to a running node with an empty log.
 */
module CrashProgress {
  import opened Records
  import opened WalLayout
  import P = Pipeline
  import opened RecoveryFilter
  import opened CrashRecovery
  import opened CrashSafety
  import opened CrashLoss

  ghost function Last(run: seq<Sys>): Sys
    requires run != []
  {
    run[|run| - 1]
  }

  /** A continuation that acknowledges nothing new. */
  ghost predicate Onward(run: seq<Sys>, run': seq<Sys>) {
    run != [] && run <= run' && IsRun(run') && Last(run').acked == Last(run).acked
  }

  lemma Extend(run: seq<Sys>, a: Action) returns (run': seq<Sys>)
    requires run != [] && IsRun(run) && Enabled(Last(run), a) && !a.Confirm?
    ensures Onward(run, run') && Last(run') == Apply(Last(run), a)
  {
    hide Enabled, Apply;
    run' := run + [Apply(Last(run), a)];
    forall i | 0 < i < |run'| ensures Step(run'[i - 1], run'[i]) {
      if i < |run| {
        assert Step(run[i - 1], run[i]);
      } else {
        assert Enabled(run'[i - 1], a) && Apply(run'[i - 1], a) == run'[i];
      }
    }
    SameAcked(Last(run), a);
  }

  lemma SameAcked(sys: Sys, a: Action)
    requires Enabled(sys, a) && !a.Confirm?
    ensures Apply(sys, a).acked == sys.acked
  {
    hide Fold, Advance, OpenEnds, P.Enabled, P.Apply, Pending, Covering;
  }

  // ---- A running node ------------------------------------------------------------------------------------

  /** No upload and no commit has failed. */
  predicate Sound(sys: Sys) {
    && sys.mode.Running? && !sys.pipe.poisoned
    && forall i :: 0 <= i < |sys.pipe.blocks| ==> !sys.pipe.blocks[i].status.UploadFailed?
  }

  lemma PipeFacts(run: seq<Sys>)
    requires run != [] && IsRun(run) && Last(run).mode.Running?
    ensures var p := Last(run).pipe;
            && p.com <= p.prep <= |p.blocks| && Last(run).log == P.Confirmed(p)
            && (forall i :: p.prep <= i < |p.blocks| ==> p.blocks[i].status.Queued?)
            && (forall i :: 0 <= i < |p.blocks| ==> !p.blocks[i].status.Skipped?)
            && (forall i :: p.com <= i < p.prep ==> !p.blocks[i].status.Committed? && !p.blocks[i].status.Failed?)
            && (forall i :: 0 <= i < p.prep ==> !p.blocks[i].status.Queued?)
  {
    hide Stored, Streams, Below, Safe, Exposure, Trimmed, NextOk, P.Partition, P.Forces;
    RunInv(run, |run| - 1);
  }

  lemma {:induction false} PrepareAll(run: seq<Sys>) returns (run': seq<Sys>)
    requires run != [] && IsRun(run) && Sound(Last(run)) && Last(run).pipe.active == []
    ensures Onward(run, run') && Sound(Last(run')) && Last(run').pipe.active == []
    ensures Last(run').pipe.prep == |Last(run').pipe.blocks|
    decreases |Last(run).pipe.blocks| - Last(run).pipe.prep
  {
    hide IsRun, P.Confirmed;
    run' := run;
    PipeFacts(run);
    if Last(run).pipe.prep < |Last(run).pipe.blocks| {
      run' := Extend(run, Pipe(P.Prepare(true)));
      run' := PrepareAll(run');
    }
  }

  predicate Prepared(sys: Sys) {
    Sound(sys) && sys.pipe.active == [] && sys.pipe.prep == |sys.pipe.blocks|
  }

  lemma {:induction false} UploadAll(run: seq<Sys>, k: nat) returns (run': seq<Sys>)
    requires run != [] && IsRun(run) && Prepared(Last(run)) && k <= |Last(run).pipe.blocks|
    requires forall i :: 0 <= i < k ==> !Last(run).pipe.blocks[i].status.Prepared?
    ensures Onward(run, run') && Prepared(Last(run'))
    ensures forall i :: 0 <= i < |Last(run').pipe.blocks| ==> !Last(run').pipe.blocks[i].status.Prepared?
    decreases |Last(run).pipe.blocks| - k
  {
    hide IsRun, P.Confirmed;
    run' := run;
    if k < |Last(run).pipe.blocks| {
      if Last(run).pipe.blocks[k].status.Prepared? {
        run' := Extend(run, Pipe(P.UploadDone(k, true)));
      }
      run' := UploadAll(run', k + 1);
    }
  }

  lemma {:induction false} CommitAll(run: seq<Sys>) returns (run': seq<Sys>)
    requires run != [] && IsRun(run) && Prepared(Last(run))
    requires forall i :: 0 <= i < |Last(run).pipe.blocks| ==> !Last(run).pipe.blocks[i].status.Prepared?
    ensures Onward(run, run') && Prepared(Last(run')) && Last(run').pipe.com == |Last(run').pipe.blocks|
    decreases |Last(run).pipe.blocks| - Last(run).pipe.com
  {
    hide IsRun, P.Confirmed, Advance;
    run' := run;
    PipeFacts(run);
    if Last(run).pipe.com < |Last(run).pipe.blocks| {
      run' := Extend(run, Commit(true, true));
      run' := CommitAll(run');
    }
  }

  lemma AllCommitted(sys: Sys)
    requires Inv(sys) && Prepared(sys) && sys.pipe.com == |sys.pipe.blocks|
    ensures sys.frontier == |sys.log|
  {
    hide Stored, Streams, Below, Safe, Exposure, Trimmed, NextOk, P.Partition, P.Forces, P.Fifo;
    assert sys.pipe.blocks[..|sys.pipe.blocks|] == sys.pipe.blocks;
    var all := P.EntriesOfBlocks(sys.pipe.blocks);
    assert all + [] == all;
  }

  /** While nothing has failed, the node can commit all it has acknowledged, without a crash. */
  lemma NodeCommits(run: seq<Sys>) returns (run': seq<Sys>)
    requires run != [] && IsRun(run) && Sound(Last(run))
    ensures Onward(run, run') && Last(run').mode.Running? && Last(run').frontier == |Last(run').log|
    ensures forall x :: x in Last(run).acked ==> x in Last(run').committed || x in Last(run').exposed
  {
    hide IsRun, Inv, P.Confirmed;
    run' := Extend(run, Pipe(P.ArchiveAll));
    run' := PrepareAll(run');
    run' := UploadAll(run', 0);
    run' := CommitAll(run');
    RunInv(run', |run'| - 1);
    AllCommitted(Last(run'));
    forall x | x in Last(run).acked ensures x in Last(run').committed || x in Last(run').exposed {
      Settled(Last(run'), x);
    }
  }

  lemma Settled(sys: Sys, x: Record)
    requires Inv(sys) && sys.frontier == |sys.log| && x in sys.acked
    ensures x in sys.committed || x in sys.exposed
  {
    hide Inv;
    AckedSomewhere(sys, x);
    assert sys.log[sys.frontier..] == [];
  }

  // ---- The trim point of a running node ------------------------------------------------------------------

  /** The block's commit is followed by a trim to this offset. */
  predicate TrimsTo(p: P.Pipe, i: nat, o: int) {
    i in p.trimmed && i < |p.blocks| && p.blocks[i].last.Some? && p.blocks[i].last.value == o
  }

  /** The trim point is the greatest offset that was asked for, -1 before the first. */
  ghost predicate TrimPoint(sys: Sys) {
    && (forall i: nat, o: int :: TrimsTo(sys.pipe, i, o) ==> o <= sys.requested)
    && (sys.requested == -1 || exists i: nat :: TrimsTo(sys.pipe, i, sys.requested))
    && -1 <= sys.requested
  }

  lemma SameTrims(p: P.Pipe, a: P.Action)
    requires P.Enabled(p, a) && !a.RequestTrim? && P.Fifo(p)
    ensures forall i: nat, o: int :: TrimsTo(P.Apply(p, a), i, o) <==> TrimsTo(p, i, o)
  {
    hide P.Confirmed, P.HasStream, P.Inflight;
  }

  lemma StepTrimPoint(sys: Sys, a: Action)
    requires Inv(sys) && Enabled(sys, a) && Apply(sys, a).mode.Running? && (sys.mode.Running? ==> TrimPoint(sys))
    ensures TrimPoint(Apply(sys, a))
  {
    hide Fold, Advance, OpenEnds, Pending, Covering, P.Enabled, P.Apply, TrimPoint, TrimsTo, Inv, P.Fifo;
    var sys' := Apply(sys, a);
    if a.Restart? {
      FreshTrimPoint(sys');
    } else {
      assert P.Fifo(sys.pipe) by { LiveFifo(sys); }
      match a {
        case Confirm(e, full) => SameTrims(sys.pipe, P.Confirm(e, full));
        case Pipe(b) => SameTrims(sys.pipe, b);
        case Commit(applied, ok) => SameTrims(sys.pipe, P.Commit(ok));
        case Trim(i) => TrimAsks(sys, i);
        case _ =>
      }
      if !a.Trim? {
        TrimFrame(sys, sys');
      }
    }
  }

  lemma LiveFifo(sys: Sys)
    requires Inv(sys) && sys.mode.Running?
    ensures P.Fifo(sys.pipe)
  {
  }

  lemma FreshTrimPoint(sys: Sys)
    requires sys.pipe == P.InitPipe() && sys.requested == -1
    ensures TrimPoint(sys)
  {
  }

  lemma TrimAsks(sys: Sys, i: nat)
    requires TrimPoint(sys) && Enabled(sys, Trim(i))
    ensures TrimPoint(Apply(sys, Trim(i)))
  {
    hide P.Confirmed;
    var sys' := Apply(sys, Trim(i));
    assert TrimsTo(sys'.pipe, i, sys.pipe.blocks[i].last.value);
    forall k: nat, o: int | TrimsTo(sys'.pipe, k, o) ensures o <= sys'.requested {
      assert k == i || TrimsTo(sys.pipe, k, o);
    }
    if sys.requested != -1 {
      var k: nat :| TrimsTo(sys.pipe, k, sys.requested);
      assert TrimsTo(sys'.pipe, k, sys.requested);
    }
  }

  lemma TrimFrame(sys: Sys, sys': Sys)
    requires TrimPoint(sys) && sys'.requested == sys.requested
    requires forall i: nat, o: int :: TrimsTo(sys'.pipe, i, o) <==> TrimsTo(sys.pipe, i, o)
    ensures TrimPoint(sys')
  {
    hide TrimsTo;
  }

  /** In every reachable state of a running node the trim point is the greatest end of a committed
      block whose trim was requested. */
  lemma {:induction false} TrimPointIs(run: seq<Sys>, n: nat)
    requires IsRun(run) && n < |run| && run[n].mode.Running?
    ensures TrimPoint(run[n])
  {
    hide Enabled, Apply, Inv, TrimPoint;
    if n == 0 {
      FreshTrimPoint(run[0]);
    } else {
      assert Step(run[n - 1], run[n]);
      var a :| Enabled(run[n - 1], a) && Apply(run[n - 1], a) == run[n];
      RunInv(run, n - 1);
      if run[n - 1].mode.Running? {
        TrimPointIs(run, n - 1);
      }
      StepTrimPoint(run[n - 1], a);
    }
  }

  // ---- After a crash ---------------------------------------------------------------------------------------

  lemma {:induction false} NothingTrimmed(log: seq<Entry>, t: int)
    requires t <= -1 && AllUser(log)
    ensures Above(log, t) == log
  {
    if log != [] {
      NothingTrimmed(log[..|log| - 1], t);
    }
  }

  lemma LogUser(sys: Sys)
    requires Inv(sys)
    ensures AllUser(sys.log)
  {
  }

  lemma ReplayAll(sys: Sys)
    requires Inv(sys) && sys.mode.Down?
    ensures Enabled(sys, BeginRecovery(0, []))
  {
    hide Inv, Above;
    LogUser(sys);
    var t := if sys.requested < -1 then sys.requested else -1;
    NothingTrimmed(sys.log, t);
    assert sys.log[0..] == sys.log;
    assert t <= sys.requested || t == -1;
    if sys.requested < -1 {
      assert Above(sys.log, sys.requested) == sys.log[0..];
    } else {
      assert -1 <= sys.requested && Above(sys.log, -1) == sys.log[0..];
    }
  }

  /** A recovery can be brought to its end. */
  lemma RecoverAll(run: seq<Sys>) returns (run': seq<Sys>)
    requires run != [] && IsRun(run)
    ensures Onward(run, run') && Last(run').mode.Closing?
  {
    hide IsRun, Inv, Enabled, Fold, RecordsOf;
    assert Enabled(Last(run), Crash) && Apply(Last(run), Crash).mode.Down? by { CanCrash(Last(run)); }
    run' := Extend(run, Crash);
    RunInv(run', |run'| - 1);
    ReplayAll(Last(run'));
    run' := Extend(run', BeginRecovery(0, []));
    run' := RecoverRest(run');
  }

  lemma CanCrash(sys: Sys)
    ensures Enabled(sys, Crash) && Apply(sys, Crash).mode.Down?
  {
  }

  lemma RecoverRest(run: seq<Sys>) returns (run': seq<Sys>)
    requires run != [] && IsRun(run) && Last(run).mode.Recovering?
    ensures Onward(run, run') && Last(run').mode.Closing?
  {
    hide IsRun, Fold, Advance;
    run' := Extend(run, RecoverBlock(|Last(run).mode.rest|));
    run' := Extend(run', FinishRecovery);
  }

  lemma {:induction false} CloseAll(run: seq<Sys>) returns (run': seq<Sys>)
    requires run != [] && IsRun(run) && Last(run).mode.Closing?
    ensures Onward(run, run') && Last(run') == Last(run).(open := {})
    decreases Last(run).open
  {
    hide IsRun;
    run' := run;
    if s :| s in Last(run).open {
      run' := Extend(run, RecoveryClose(s));
      run' := CloseAll(run');
    }
  }

  /**
   * From every reachable state, also in the middle of a recovery, the node can crash, recover, close
   * its streams, reset the log and run again; every record ever acknowledged is then committed, except
   * those exposed by a close.
   */
  lemma NodeRestarts(run: seq<Sys>) returns (run': seq<Sys>)
    requires run != [] && IsRun(run)
    ensures Onward(run, run') && Last(run').mode.Running? && Last(run').log == [] && Last(run').open == {}
    ensures Last(run').pipe == P.InitPipe()
    ensures forall x :: x in Last(run).acked ==> x in Last(run').committed || x in Last(run').exposed
  {
    hide IsRun, Inv;
    run' := RecoverAll(run);
    run' := CloseAll(run');
    run' := Extend(run', ResetDone);
    run' := Extend(run', Restart);
    RunInv(run', |run'| - 1);
    FrontierBound(Last(run'));
    forall x | x in Last(run).acked ensures x in Last(run').committed || x in Last(run').exposed {
      Settled(Last(run'), x);
    }
  }
}
