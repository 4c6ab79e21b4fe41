/**
 * What a crash can lose. A stream may be closed with records that are acknowledged and not
 * committed; these results say exactly when, and what becomes of the records.
 */
module CrashLoss {
  import opened Records
  import opened WalLayout
  import P = Pipeline
  import opened RecoveryFilter
  import opened CrashRecovery
  import opened CrashSafety

  // ---- One crash -----------------------------------------------------------------------------------

  /** A replay of the log above a trim point that was asked for starts in the handled part. */
  lemma ReplaySplit(sys: Sys, replay: seq<Entry>) returns (at: nat, extra: seq<Entry>)
    requires Inv(sys) && ReplayOf(sys.log, sys.requested, replay)
    ensures at <= |sys.log| && (at <= sys.frontier || sys.frontier == |sys.log|)
    ensures replay == sys.log[at..] + extra && AllUser(extra)
    ensures Enabled(sys.(mode := Down), BeginRecovery(at, extra))
  {
    hide Stored, Below, Safe, Streams, Above, Ascending, Exposure, ModeOk;
    var t: int, more: seq<Entry> :| t <= sys.requested && replay == Above(sys.log, t) + more && AllUser(more);
    extra := more;
    at := AboveIsSuffix(sys.log, t);
  }

  /**
   * If the node crashed now, whatever unconfirmed records the log replays behind the confirmed ones,
   * recovery would keep all uncommitted records of a stream, in order, if and only if there are none
   * or the stream is open and they continue its committed end.
   */
  lemma CrashKeepsIff(run: seq<Sys>, n: nat, replay: seq<Entry>, s: nat)
    requires IsRun(run) && n < |run| && run[n].mode.Running?
    requires ReplayOf(run[n].log, run[n].requested, replay)
    ensures run[n].frontier <= |run[n].log|
    ensures var sys := run[n]; var left := Pending(sys.log, sys.frontier, s);
            left <= OfStream(Fold(RecordsOf(replay), OpenEnds(sys)).kept, s)
            <==> left == [] || (s in sys.open && s in sys.ends && ContiguousFrom(left, sys.ends[s]))
  {
    hide Inv, Fold, ReplayOf, OfStream, Greedy, Contiguous, Pending;
    RunInv(run, n);
    var sys := run[n];
    FrontierBound(sys);
    var left, kept := Pending(sys.log, sys.frontier, s), Fold(RecordsOf(replay), OpenEnds(sys)).kept;
    FoldPerStream(RecordsOf(replay), OpenEnds(sys), s);
    if left != [] && left <= OfStream(kept, s) {
      GreedyContiguous(OfStream(RecordsOf(replay), s), sys.ends[s]);
      PrefixContiguous(OfStream(kept, s), left, sys.ends[s]);
    }
    if left != [] && s in sys.open && s in sys.ends && ContiguousFrom(left, sys.ends[s]) {
      var at, extra := ReplaySplit(sys, replay);
      ReplayKeeps(sys, at, extra, s);
    }
  }

  lemma PrefixContiguous(all: seq<Record>, w: seq<Record>, from: nat)
    requires ContiguousFrom(all, from) && w <= all
    ensures ContiguousFrom(w, from)
  {
    assert forall i :: 0 <= i < |w| ==> w[i] == all[i];
  }

  lemma ReplayKeeps(sys: Sys, at: nat, extra: seq<Entry>, s: nat)
    requires Inv(sys) && sys.mode.Running? && s in sys.open && s in sys.ends && sys.frontier <= |sys.log|
    requires at <= |sys.log| && (at <= sys.frontier || sys.frontier == |sys.log|)
    requires ContiguousFrom(Pending(sys.log, sys.frontier, s), sys.ends[s])
    ensures Pending(sys.log, sys.frontier, s)
         <= OfStream(Fold(RecordsOf(sys.log[at..] + extra), OpenEnds(sys)).kept, s)
  {
    hide Stored, Safe, Streams, OfStream, Fold, Greedy, Contiguous, Exposure, Ascending, P.Inv, Frontier, NextOk, Below;
    FoldPerStream(RecordsOf(sys.log[at..] + extra), OpenEnds(sys), s);
    if sys.frontier == |sys.log| {
      NothingPending(sys.log, s);
    } else {
      RecordsConcat(sys.log[at..], extra);
      RecordsSplit(sys.log, at, sys.frontier);
      var pre, mid, more := RecordsOf(sys.log[at..sys.frontier]), RecordsOf(sys.log[sys.frontier..]), RecordsOf(extra);
      OfStreamConcat(pre + mid, more, s);
      OfStreamConcat(pre, mid, s);
      HandledBelow(sys.log, sys.frontier, sys.ends, {}, at, sys.frontier, s);
      GreedyShape(OfStream(pre, s), OfStream(mid, s), OfStream(more, s), sys.ends[s]);
    }
  }

  /**
   * After any crash, also one in the middle of a recovery, and whatever unconfirmed records the log
   * replays, every record ever acknowledged is committed or kept by recovery, or it is exposed.
   */
  lemma CrashLosesNothing(run: seq<Sys>, n: nat, replay: seq<Entry>, x: Record)
    requires IsRun(run) && n < |run| && x in run[n].acked
    requires run[n].mode.Down? && ReplayOf(run[n].log, run[n].requested, replay)
    ensures x in run[n].committed || x in Fold(RecordsOf(replay), OpenEnds(run[n])).kept || x in run[n].exposed
  {
    hide IsRun, Inv, Fold, ReplayOf, Enabled;
    RunInv(run, n);
    var at, extra := ReplaySplit(run[n], replay);
    assert run[n].(mode := Down) == run[n];
    BeginKeeps(run[n], at, extra);
    var sys := run[n].(mode := Recovering(RecordsOf(replay), at));
    WholeReplay(sys, x);
  }

  lemma WholeReplay(sys: Sys, x: Record)
    requires Inv(sys) && sys.mode.Recovering? && x in sys.acked
    ensures x in sys.committed || x in Fold(sys.mode.rest, OpenEnds(sys)).kept || x in sys.exposed
  {
    hide Inv, Fold, OpenEnds, OfStream;
    var rest, m := sys.mode.rest, |sys.mode.rest|;
    assert rest[..m] == rest && rest[m..] == [];
    AckedSomewhere(sys, x);
    FrontierBound(sys);
    if x in RecordsOf(sys.log[sys.frontier..]) && x.streamId !in sys.broken {
      AllHandled(sys);
      KeptShape(sys, m, x.streamId);
      assert sys.log[sys.frontier..|sys.log|] == sys.log[sys.frontier..];
      OfStreamMembers(RecordsOf(sys.log[sys.frontier..]), x.streamId);
      OfStreamMembers(Fold(rest, OpenEnds(sys)).kept, x.streamId);
      assert x in OfStream(RecordsOf(sys.log[sys.frontier..]), x.streamId);
    }
  }

  lemma AllHandled(sys: Sys)
    requires Inv(sys) && sys.mode.Recovering?
    ensures Handled(sys.frontier, sys.mode.at + |sys.mode.rest|, |sys.log|) == |sys.log|
  {
    hide Stored, Safe, Below, Streams, Exposure, Trimmed;
    var rest, at := sys.mode.rest, sys.mode.at;
    FrontierBound(sys);
    if at <= |sys.log| {
      assert |RecordsOf(sys.log[at..])| <= |rest|;
    }
  }

  lemma AckedSomewhere(sys: Sys, x: Record)
    requires Inv(sys) && x in sys.acked
    ensures sys.frontier <= |sys.log|
    ensures x in sys.committed || x in sys.exposed
            || (x in RecordsOf(sys.log[sys.frontier..]) && x.streamId !in sys.broken)
  {
  }

  /**
   * Streams are closed and the log is reset only after recovery has handled its whole replay. At that
   * point, even after crashed and repeated recoveries, every record ever acknowledged is in a
   * committed object, or it is exposed.
   */
  lemma RecoveredAll(run: seq<Sys>, n: nat, x: Record)
    requires IsRun(run) && n < |run| && x in run[n].acked && run[n].mode.Closing?
    ensures x in run[n].committed || x in run[n].exposed
  {
    hide IsRun;
    RunInv(run, n);
    var sys := run[n];
    assert sys.log[|sys.log|..] == [];
  }

  // ---- What a close leaves behind --------------------------------------------------------------------

  /** A block whose commit failed and was not applied holds log record `k`, a record of the stream. */
  predicate Stranded(sys: Sys, s: nat, i: nat, k: nat) {
    && i < |sys.pipe.blocks| && sys.pipe.blocks[i].status.Failed?
    && BlockEnd(sys.pipe, i) <= k < BlockEnd(sys.pipe, i + 1) && sys.frontier <= k
    && k < |P.Confirmed(sys.pipe)| && P.Confirmed(sys.pipe)[k].record.streamId == s
  }

  /** Forced upload `f` collected what it waits for in `a`; what has happened up to `b`. */
  ghost predicate SinceCollect(a: Sys, f: nat, b: Sys) {
    && P.Since(a.pipe, f, b.pipe) && a.frontier <= b.frontier
    && (a.pipe.poisoned ==> b.pipe.poisoned && b.frontier == a.frontier)
  }

  /** The pipeline made at most this step, and a failed pipeline commits nothing. */
  ghost predicate PipeStep(a: Sys, pa: Option<P.Action>, b: Sys) {
    && a.frontier <= b.frontier
    && (pa.None? ==> b.pipe == a.pipe)
    && (pa.Some? ==> P.Enabled(a.pipe, pa.value) && b.pipe == P.Apply(a.pipe, pa.value))
    && (a.pipe.poisoned ==> b.pipe.poisoned && b.frontier == a.frontier)
  }

  /** One step while the node runs: at most one step of its pipeline. */
  lemma RunningStep(sys: Sys, a: Action) returns (pa: Option<P.Action>)
    requires Enabled(sys, a) && Apply(sys, a).mode.Running? && Apply(sys, a).pipe.forces != []
    ensures sys.mode.Running? && PipeStep(sys, pa, Apply(sys, a))
    ensures pa.Some? && pa.value.ForceCollect? ==> a == Pipe(pa.value)
  {
    hide Fold, Advance, OpenEnds, Pending, Covering, P.Confirmed, P.Inflight;
    match a
    case Confirm(e, full) => pa := Some(P.Confirm(e, full));
    case Pipe(b) => pa := Some(b);
    case Commit(applied, ok) => pa := Some(P.Commit(ok));
    case Trim(i) => pa := Some(P.RequestTrim(i));
    case _ => pa := None;
  }

  lemma {:induction false} CollectedAt(run: seq<Sys>, n: nat, f: nat) returns (c: nat)
    requires IsRun(run) && n < |run| && run[n].mode.Running? && f < |run[n].pipe.forces|
    requires run[n].pipe.forces[f].phase.Collected()
    ensures c < n && run[c].mode.Running? && Enabled(run[c], Pipe(P.ForceCollect(f)))
    ensures run[c + 1] == Apply(run[c], Pipe(P.ForceCollect(f))) && SinceCollect(run[c], f, run[n])
  {
    hide Inv, Enabled, Apply, PipeStep, SinceCollect;
    if n == 0 {
      assert false;
    } else {
      assert Step(run[n - 1], run[n]);
      var a :| Enabled(run[n - 1], a) && Apply(run[n - 1], a) == run[n];
      RunInv(run, n - 1);
      var pa := RunningStep(run[n - 1], a);
      PipeInvOf(run[n - 1]);
      if pa == Some(P.ForceCollect(f)) {
        c := n - 1;
        CollectNow(run[c], f, run[n]);
      } else {
        WaitsBefore(run[n - 1], pa, run[n], f);
        c := CollectedAt(run, n - 1, f);
        SinceNext(run[c], f, run[n - 1], pa, run[n]);
      }
    }
  }

  lemma CollectNow(a: Sys, f: nat, b: Sys)
    requires PipeStep(a, Some(P.ForceCollect(f)), b)
    ensures SinceCollect(a, f, b)
  {
    hide P.Enabled, P.Apply, P.Since;
    P.SinceNow(a.pipe, f);
  }

  lemma WaitsBefore(a: Sys, pa: Option<P.Action>, b: Sys, f: nat)
    requires PipeStep(a, pa, b) && pa != Some(P.ForceCollect(f)) && f < |b.pipe.forces|
    requires b.pipe.forces[f].phase.Collected()
    ensures f < |a.pipe.forces| && a.pipe.forces[f].phase.Collected()
  {
    hide P.Enabled, P.Apply;
    if pa.Some? {
      P.WaitedBefore(a.pipe, pa.value, f);
    }
  }

  lemma SinceNext(a: Sys, f: nat, b: Sys, pa: Option<P.Action>, b': Sys)
    requires SinceCollect(a, f, b) && P.Inv(b.pipe) && PipeStep(b, pa, b')
    ensures SinceCollect(a, f, b')
  {
    hide P.Enabled, P.Apply, P.Since, P.Inv;
    if pa.Some? {
      P.StepSince(a.pipe, f, b.pipe, pa.value);
    }
  }

  lemma PipeInvOf(sys: Sys)
    requires Inv(sys) && sys.mode.Running?
    ensures P.Inv(sys.pipe) && sys.log == P.Confirmed(sys.pipe) && sys.frontier <= |sys.log|
    ensures Frontier(sys.pipe, sys.frontier)
  {
  }

  /**
   * A stream can be closed once a forced upload of it returned Ok. The close leaves no uncommitted
   * record behind if and only if, in the state `run[c0]` in which the forced upload collected what it
   * waits for, no block whose commit had failed without being applied held a record of the stream.
   */
  lemma CloseLeavesIff(run: seq<Sys>, c: nat, s: nat, f: nat) returns (c0: nat)
    requires IsRun(run) && c < |run| && Enabled(run[c], CloseStream(s, f))
    ensures c0 < c && run[c0].mode.Running? && Enabled(run[c0], Pipe(P.ForceCollect(f)))
    ensures run[c0 + 1] == Apply(run[c0], Pipe(P.ForceCollect(f)))
    ensures Pending(run[c].log, run[c].frontier, s) == [] <==> !(exists i: nat, k: nat :: Stranded(run[c0], s, i, k))
  {
    hide Inv, IsRun, Apply, P.Since, Stranded, P.Inv, Frontier, Pending, P.Enabled, SinceCollect, Covering;
    assert f < |run[c].pipe.forces| && run[c].pipe.forces[f].phase.ReturnedOk? by { CoveringForce(run[c].pipe, f, s); }
    c0 := CollectedAt(run, c, f);
    RunInv(run, c);
    RunInv(run, c0);
    PipeInvOf(run[c]);
    PipeInvOf(run[c0]);
    PendingNone(run[c].log, run[c].frontier, s);
    if exists i: nat, k: nat :: Stranded(run[c0], s, i, k) {
      var i: nat, k: nat :| Stranded(run[c0], s, i, k);
      StrandedStays(run[c0], f, run[c], s, i, k);
    }
    if k :| run[c].frontier <= k < |run[c].log| && run[c].log[k].record.streamId == s {
      assert run[c0].pipe.forces[f].phase.Archived? by { CollectsArchived(run[c0].pipe, f); }
      var i := LeftIsStranded(run[c0], f, run[c], s, k);
    }
  }

  lemma CoveringForce(p: P.Pipe, f: nat, s: nat)
    requires Covering(p, f, s)
    ensures f < |p.forces| && p.forces[f].stream == s && p.forces[f].phase.ReturnedOk?
  {
  }

  lemma CollectsArchived(p: P.Pipe, f: nat)
    requires P.Enabled(p, P.ForceCollect(f))
    ensures f < |p.forces| && p.forces[f].phase.Archived?
  {
  }

  lemma StrandedStays(a: Sys, f: nat, b: Sys, s: nat, i: nat, k: nat)
    requires P.Inv(a.pipe) && b.log == P.Confirmed(b.pipe) && SinceCollect(a, f, b) && Stranded(a, s, i, k)
    ensures b.frontier <= k < |b.log| && b.log[k].record.streamId == s
  {
    hide P.Partition, P.Forces, P.Confirmed, BlockEnd, P.Inflight;
    assert a.pipe.poisoned;
    assert P.Confirmed(a.pipe) <= P.Confirmed(b.pipe);
  }

  lemma LeftIsStranded(a: Sys, f: nat, b: Sys, s: nat, k: nat) returns (i: nat)
    requires P.Inv(a.pipe) && Frontier(a.pipe, a.frontier) && Frontier(b.pipe, b.frontier)
    requires b.log == P.Confirmed(b.pipe) && SinceCollect(a, f, b) && Covering(b.pipe, f, s)
    requires f < |a.pipe.forces| && a.pipe.forces[f].phase.Archived?
    requires b.frontier <= k < |b.log| && b.log[k].record.streamId == s
    ensures Stranded(a, s, i, k)
  {
    hide P.Partition, P.Fifo, P.Confirmed, BlockEnd;
    var p, force := a.pipe, a.pipe.forces[f];
    assert P.ForceOk(p, force);
    assert force.stream == s && k < force.count by { CoveringForce(b.pipe, f, s); }
    assert P.Confirmed(p)[k] == P.Confirmed(b.pipe)[k];
    i := BlockOfPositionIn(p, s, force.count, force.boundary, k);
    PositionInBlock(p, i, k);
    assert P.HasStream(p.blocks[i].entries, s);
    BlockEndKept(p, b.pipe, i + 1);
    assert p.blocks[i].status.Finished() || i in P.Inflight(p, s);
    assert !b.pipe.blocks[i].status.Committed?;
  }

  lemma BlockOfPositionIn(p: P.Pipe, s: nat, count: nat, boundary: nat, k: nat) returns (i: nat)
    requires P.InBlocks(p, s, count, boundary) && k < count && P.Confirmed(p)[k].record.streamId == s
    ensures i < boundary <= |p.blocks| && BlockEnd(p, i) <= k < BlockEnd(p, i + 1)
  {
    i := BlockOfPosition(p, boundary, k);
  }

  /** The corollary a caller can use: with no failed commit when the forced upload collected, the
      close leaves nothing behind. */
  lemma CloseLeavesNothing(run: seq<Sys>, c: nat, s: nat, f: nat) returns (c0: nat)
    requires IsRun(run) && c < |run| && Enabled(run[c], CloseStream(s, f))
    ensures c0 < c && Enabled(run[c0], Pipe(P.ForceCollect(f)))
    ensures run[c0 + 1] == Apply(run[c0], Pipe(P.ForceCollect(f)))
    ensures !run[c0].pipe.poisoned ==> Pending(run[c].log, run[c].frontier, s) == []
  {
    hide IsRun, Inv, Enabled, Apply, Pending;
    c0 := CloseLeavesIff(run, c, s, f);
    RunInv(run, c0);
    PipeInvOf(run[c0]);
    forall i: nat, k: nat | Stranded(run[c0], s, i, k) ensures run[c0].pipe.poisoned {
      StrandedPoisons(run[c0], s, i, k);
    }
  }

  lemma StrandedPoisons(sys: Sys, s: nat, i: nat, k: nat)
    requires P.Inv(sys.pipe) && Stranded(sys, s, i, k)
    ensures sys.pipe.poisoned
  {
    hide P.Partition, P.Forces, P.Confirmed, BlockEnd;
  }

  // ---- Exposed records ---------------------------------------------------------------------------------

  /** Step `c` closes the stream with uncommitted records. */
  ghost predicate ClosedOver(run: seq<Sys>, c: nat, s: nat) {
    && c + 1 < |run| && run[c].mode.Running? && run[c].frontier <= |run[c].log|
    && s in run[c].open && s !in run[c + 1].open && Pending(run[c].log, run[c].frontier, s) != []
  }

  lemma StepExposes(sys: Sys, a: Action, s: nat)
    requires Enabled(sys, a)
    ensures sys.exposed <= Apply(sys, a).exposed
    ensures s in Apply(sys, a).broken ==>
              s in sys.broken || (a.CloseStream? && a.s == s && Pending(sys.log, sys.frontier, s) != [])
    ensures forall x :: x in Apply(sys, a).exposed && x.streamId == s ==>
              x in sys.exposed || s in sys.broken
              || (a.CloseStream? && a.s == s && Pending(sys.log, sys.frontier, s) != [])
  {
    hide Fold, Advance, OpenEnds, P.Confirmed, OfStream, P.Enabled, P.Apply, Covering;
    if a.CloseStream? {
      OfStreamMembers(RecordsOf(sys.log[sys.frontier..]), a.s);
    }
  }

  /** Only a close over uncommitted records exposes anything. */
  lemma {:induction false} ExposedByClose(run: seq<Sys>, n: nat, s: nat) returns (c: nat)
    requires IsRun(run) && n < |run|
    requires s in run[n].broken || exists x :: x in run[n].exposed && x.streamId == s
    ensures c < n && ClosedOver(run, c, s)
  {
    hide Enabled, Apply, Pending;
    if n == 0 {
      assert false;
    } else {
      assert Step(run[n - 1], run[n]);
      var a :| Enabled(run[n - 1], a) && Apply(run[n - 1], a) == run[n];
      StepExposes(run[n - 1], a, s);
      if s in run[n - 1].broken || exists x :: x in run[n - 1].exposed && x.streamId == s {
        c := ExposedByClose(run, n - 1, s);
      } else {
        c := n - 1;
        CloseIs(run[c], a);
      }
    }
  }

  lemma CloseIs(sys: Sys, a: Action)
    requires Enabled(sys, a) && a.CloseStream?
    ensures sys.mode.Running? && sys.frontier <= |sys.log| && a.s in sys.open && a.s !in Apply(sys, a).open
  {
    hide Pending, Covering;
  }

  /** A record that is not committed when recovery has finished was exposed by a close of its stream,
      and a block whose commit had failed without being applied held a record of the stream when that
      close's forced upload collected. */
  lemma LossNeedsFailure(run: seq<Sys>, n: nat, x: Record) returns (c: nat, c0: nat, i: nat, k: nat)
    requires IsRun(run) && n < |run| && run[n].mode.Closing? && x in run[n].acked && x !in run[n].committed
    ensures c0 < c < n && ClosedOver(run, c, x.streamId) && Stranded(run[c0], x.streamId, i, k)
  {
    hide IsRun, Inv, Enabled, Apply, Pending, Stranded;
    RecoveredAll(run, n, x);
    c := ExposedByClose(run, n, x.streamId);
    var f := ClosingForce(run, c, x.streamId);
    c0 := CloseLeavesIff(run, c, x.streamId, f);
    var i', k' :| Stranded(run[c0], x.streamId, i', k');
    i, k := i', k';
  }

  lemma ClosingForce(run: seq<Sys>, c: nat, s: nat) returns (f: nat)
    requires IsRun(run) && ClosedOver(run, c, s)
    ensures Enabled(run[c], CloseStream(s, f))
  {
    hide P.Enabled, P.Apply, P.Confirmed, Pending, Covering, Fold, Advance, OpenEnds;
    assert Step(run[c], run[c + 1]);
    var a :| Enabled(run[c], a) && Apply(run[c], a) == run[c + 1];
    assert a.CloseStream? && a.s == s;
    f := a.f;
  }

  /** While no commit fails, nothing is ever exposed, so nothing is ever lost. */
  lemma {:induction false} NothingFailed(run: seq<Sys>, n: nat)
    requires IsRun(run) && n < |run|
    requires forall i :: 0 <= i <= n && run[i].mode.Running? ==> !run[i].pipe.poisoned
    ensures run[n].exposed == {}
  {
    hide IsRun, Inv, Enabled, Apply, Pending, Stranded;
    if x :| x in run[n].exposed {
      var c := ExposedByClose(run, n, x.streamId);
      var f := ClosingForce(run, c, x.streamId);
      var c0 := CloseLeavesNothing(run, c, x.streamId, f);
      CollectRuns(run[c0], f);
    }
  }

  lemma CollectRuns(sys: Sys, f: nat)
    requires Enabled(sys, Pipe(P.ForceCollect(f)))
    ensures sys.mode.Running?
  {
  }

  // ---- Lost for good -------------------------------------------------------------------------------------

  lemma StepKeepsLog(sys: Sys, a: Action, s: nat)
    requires Enabled(sys, a)
    ensures sys.log <= Apply(sys, a).log || (Apply(sys, a).log == [] && Apply(sys, a).committed == sys.committed)
    ensures s in Apply(sys, a).reopened ==> s in sys.reopened || s in Apply(sys, a).open
  {
    hide Fold, Advance, OpenEnds, P.Confirmed, OfStream, P.Enabled, P.Apply, Covering, Pending;
  }

  /** The stream is closed from state `m` to state `n`, and the log is not reset before `n`. */
  ghost predicate LeftAlone(run: seq<Sys>, m: nat, n: nat, s: nat) {
    && m <= n < |run| && (forall i :: m <= i <= n ==> s !in run[i].open)
    && (forall i :: m <= i < n ==> run[i].log != [])
  }

  lemma ExposedNotCommitted(sys: Sys, x: Record)
    requires Inv(sys) && x in sys.exposed && x in RecordsOf(sys.log) && x.streamId !in sys.reopened
    ensures x in sys.acked && x !in sys.committed
  {
  }

  lemma {:induction false} StaysLost(run: seq<Sys>, m: nat, n: nat, x: Record)
    requires IsRun(run) && LeftAlone(run, m, n, x.streamId)
    requires x in run[m].exposed && x in RecordsOf(run[m].log) && x.streamId !in run[m].reopened
    ensures x in run[n].exposed && x in run[n].acked && x !in run[n].committed
    ensures run[n].log == [] || (x in RecordsOf(run[n].log) && x.streamId !in run[n].reopened)
    decreases n
  {
    hide Enabled, Apply, Inv;
    RunInv(run, n);
    if m < n {
      StaysLost(run, m, n - 1, x);
      assert Step(run[n - 1], run[n]);
      var a :| Enabled(run[n - 1], a) && Apply(run[n - 1], a) == run[n];
      StepKeepsLog(run[n - 1], a, x.streamId);
      StepExposes(run[n - 1], a, x.streamId);
      if run[n].log != [] {
        LogKeeps(run[n - 1].log, run[n].log, x);
        ExposedNotCommitted(run[n], x);
      } else {
        ExposedAcked(run[n], x);
      }
    } else {
      ExposedNotCommitted(run[n], x);
    }
  }

  lemma ExposedAcked(sys: Sys, x: Record)
    requires Inv(sys) && x in sys.exposed
    ensures x in sys.acked
  {
  }

  lemma LogKeeps(a: seq<Entry>, b: seq<Entry>, x: Record)
    requires a <= b && x in RecordsOf(a)
    ensures x in RecordsOf(b)
  {
    var i :| 0 <= i < |a| && RecordsOf(a)[i] == x;
    assert RecordsOf(b)[i] == x;
  }

  /**
   * A record left behind by a close is lost when the stream stays closed until the log is reset: it is
   * not committed in any state up to and including the reset, and no crash in between recovers it.
   */
  lemma ClosedIsLost(run: seq<Sys>, c: nat, n: nat, s: nat, x: Record)
    requires IsRun(run) && ClosedOver(run, c, s) && s !in run[c].reopened && LeftAlone(run, c + 1, n, s)
    requires x in Pending(run[c].log, run[c].frontier, s)
    ensures x in run[n].acked && x !in run[n].committed
    ensures run[n].log == [] || x in RecordsOf(run[n].log)
    ensures forall replay: seq<Entry> :: x !in Fold(RecordsOf(replay), OpenEnds(run[n])).kept
  {
    hide IsRun, Inv, OfStream, Fold, Enabled, Apply, OpenEnds, ClosedOver, LeftAlone;
    CloseExposes(run, c, s, x);
    assert c + 1 <= n && s !in run[n].open by { AloneIs(run, c + 1, n, s); }
    StaysLost(run, c + 1, n, x);
    forall replay: seq<Entry> ensures x !in Fold(RecordsOf(replay), OpenEnds(run[n])).kept {
      if x in Fold(RecordsOf(replay), OpenEnds(run[n])).kept {
        KeptOpen(run[n], RecordsOf(replay), x);
      }
    }
  }

  lemma AloneIs(run: seq<Sys>, m: nat, n: nat, s: nat)
    requires LeftAlone(run, m, n, s)
    ensures m <= n < |run| && s !in run[n].open
  {
  }

  lemma CloseExposes(run: seq<Sys>, c: nat, s: nat, x: Record)
    requires IsRun(run) && ClosedOver(run, c, s) && x in Pending(run[c].log, run[c].frontier, s)
    ensures run[c + 1].log == run[c].log && run[c + 1].reopened == run[c].reopened
    ensures x.streamId == s && x in run[c + 1].exposed && x in RecordsOf(run[c + 1].log)
  {
    hide OfStream, P.Enabled, P.Apply, P.Confirmed, Covering, Fold, Advance, OpenEnds;
    var sys := run[c];
    assert Step(run[c], run[c + 1]);
    var a :| Enabled(run[c], a) && Apply(run[c], a) == run[c + 1];
    assert a.CloseStream? && a.s == s;
    OfStreamMembers(RecordsOf(sys.log[sys.frontier..]), s);
    RecordsSplit(sys.log, 0, sys.frontier);
    assert sys.log[0..] == sys.log;
  }

  // ---- Exactly what is lost --------------------------------------------------------------------------------

  /** Step `c` closes the record's stream with this record uncommitted. */
  ghost predicate LeftBehind(run: seq<Sys>, c: nat, x: Record) {
    ClosedOver(run, c, x.streamId) && x in Pending(run[c].log, run[c].frontier, x.streamId)
  }

  lemma StepLeaves(sys: Sys, a: Action, x: Record)
    requires Inv(sys) && Enabled(sys, a)
    requires x in Apply(sys, a).exposed && x in RecordsOf(Apply(sys, a).log) && x.streamId !in Apply(sys, a).reopened
    ensures || (x in sys.exposed && x in RecordsOf(sys.log) && x.streamId !in sys.reopened)
            || (a.CloseStream? && a.s == x.streamId && x in Pending(sys.log, sys.frontier, a.s))
  {
    hide Fold, Advance, OpenEnds, P.Confirmed, P.Enabled, P.Apply, Covering, OfStream;
    hide Stored, Streams, Below, Safe, ModeOk, Trimmed;
    if a.CloseStream? {
      OfStreamMembers(RecordsOf(sys.log[sys.frontier..]), a.s);
      RecordsSplit(sys.log, 0, sys.frontier);
      assert sys.log[0..] == sys.log;
    } else if a.Confirm? {
      RecordsConcat(sys.log, [a.e]);
    }
  }

  lemma {:induction false} ExposedAtClose(run: seq<Sys>, n: nat, x: Record) returns (c: nat)
    requires IsRun(run) && n < |run|
    requires x in run[n].exposed && x in RecordsOf(run[n].log) && x.streamId !in run[n].reopened
    ensures c < n && LeftBehind(run, c, x)
  {
    hide Enabled, Apply, Pending, Inv;
    if n == 0 {
      assert false;
    } else {
      assert Step(run[n - 1], run[n]);
      var a :| Enabled(run[n - 1], a) && Apply(run[n - 1], a) == run[n];
      RunInv(run, n - 1);
      StepLeaves(run[n - 1], a, x);
      if x in run[n - 1].exposed && x in RecordsOf(run[n - 1].log) && x.streamId !in run[n - 1].reopened {
        c := ExposedAtClose(run, n - 1, x);
      } else {
        c := n - 1;
        CloseIs(run[c], a);
      }
    }
  }

  lemma {:induction false} ExposedStays(run: seq<Sys>, m: nat, n: nat, x: Record)
    requires IsRun(run) && m <= n < |run| && x in run[m].exposed
    ensures x in run[n].exposed
    decreases n
  {
    hide Enabled, Apply;
    if m < n {
      ExposedStays(run, m, n - 1, x);
      assert Step(run[n - 1], run[n]);
      var a :| Enabled(run[n - 1], a) && Apply(run[n - 1], a) == run[n];
      StepExposes(run[n - 1], a, x.streamId);
    }
  }

  lemma NotCommittedIff(sys: Sys, x: Record)
    requires Inv(sys) && sys.mode.Closing? && x in RecordsOf(sys.log) && x.streamId !in sys.reopened
    ensures x in sys.acked && (x !in sys.committed <==> x in sys.exposed)
  {
    assert sys.log[|sys.log|..] == [];
  }

  /**
   * When recovery has finished and the log is about to be reset, a record of the log is lost, that is,
   * not committed, if and only if a close of its stream left it behind, for every stream that was not
   * reopened over such records.
   */
  lemma LostIff(run: seq<Sys>, n: nat, x: Record)
    requires IsRun(run) && n < |run| && run[n].mode.Closing?
    requires x in RecordsOf(run[n].log) && x.streamId !in run[n].reopened
    ensures x in run[n].acked
    ensures x !in run[n].committed <==> exists c: nat :: c < n && LeftBehind(run, c, x)
  {
    hide IsRun, Inv, LeftBehind, Enabled, Apply;
    RunInv(run, n);
    NotCommittedIff(run[n], x);
    if x in run[n].exposed {
      var c := ExposedAtClose(run, n, x);
    }
    if c: nat :| c < n && LeftBehind(run, c, x) {
      LeftIsExposed(run, c, x);
      ExposedStays(run, c + 1, n, x);
    }
  }

  lemma LeftIsExposed(run: seq<Sys>, c: nat, x: Record)
    requires IsRun(run) && LeftBehind(run, c, x)
    ensures c + 1 < |run| && x in run[c + 1].exposed
  {
    hide IsRun;
    CloseExposes(run, c, x.streamId, x);
  }
}
