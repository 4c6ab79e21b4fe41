/**
 * The whole node: the upload pipeline above the log, crashes at any point, and recovery, which may
 * itself crash and be rerun. Streams move between nodes while they are closed here.
 */
module CrashRecovery {
  import opened Records
  import opened WalLayout
  import P = Pipeline
  import opened RecoveryFilter

  datatype Mode =
    | Running                          // the pipeline is live
    | Down                             // crashed: only the log and the metadata survive
    | Recovering(rest: seq<Record>, at: nat)    // replayed records not yet handled; the first is log record `at`
    | Closing                          // every recovered block is committed

  datatype Sys = Sys(
    mode: Mode,
    pipe: P.Pipe,
    log: seq<Entry>,                   // confirmed log records since the last reset
    requested: int,                    // highest trim point asked for, -1 for none
    frontier: nat,                     // how many of them are committed, or handled by a recovery
    committed: seq<Record>,            // everything in committed objects, in commit order
    ends: map<nat, nat>,               // the metadata plane's end offsets
    open: set<nat>,                    // streams open on this node
    next: map<nat, nat>,               // where the next append of an open stream goes
    acked: seq<Record>,                // everything ever acknowledged here
    broken: set<nat>,                  // streams closed with uncommitted records in this log
    reopened: set<nat>,                // those of them that were opened again
    exposed: set<Record>)              // records that were uncommitted at such a close, or came after it

  function Init(): Sys {
    Sys(Running, P.InitPipe(), [], -1, 0, [], map[], {}, map[], [], {}, {}, {})
  }

  // ---- Metadata commit -------------------------------------------------------------------------

  function Max(a: nat, b: nat): nat { if a < b then b else a }

  /** The metadata plane advances each stream's end offset by maximum. */
  function Advance(ends: map<nat, nat>, rs: seq<Record>): map<nat, nat> {
    map s | s in ends :: Max(ends[s], EndOf(OfStream(rs, s), ends[s]))
  }

  function CommitRecords(sys: Sys, rs: seq<Record>): Sys {
    sys.(committed := sys.committed + rs, ends := Advance(sys.ends, rs))
  }

  function OpenEnds(sys: Sys): map<nat, nat> {
    map s | s in sys.ends && s in sys.open :: sys.ends[s]
  }

  /** Records of the stream that are logged but not committed. */
  function Pending(log: seq<Entry>, frontier: nat, s: nat): seq<Record>
    requires frontier <= |log|
  {
    OfStream(RecordsOf(log[frontier..]), s)
  }

  /** What the log may replay: the confirmed records above some trim point that was asked for,
      then any further records that were stored but never confirmed. */
  ghost predicate ReplayOf(log: seq<Entry>, requested: int, replay: seq<Entry>) {
    exists t: int, extra: seq<Entry> ::
      t <= requested && replay == Above(log, t) + extra && AllUser(extra)
  }

  predicate AllUser(entries: seq<Entry>) {
    forall i :: 0 <= i < |entries| ==> entries[i].record.IsUser()
  }

  predicate Positive(rs: seq<Record>) {
    forall i :: 0 <= i < |rs| ==> rs[i].count > 0
  }

  // ---- Steps -------------------------------------------------------------------------------------

  datatype Action =
    | OpenStream(s: nat)
    | CloseStream(s: nat, f: nat)                  // after forced upload `f` returned Ok
    | RecoveryClose(s: nat)                        // at the end of a recovery
    | Foreign(s: nat, rs: seq<Record>)             // another owner commits to a stream closed here
    | Confirm(e: Entry, full: bool)
    | Pipe(a: P.Action)                            // archive, prepare, upload, forced upload
    | Commit(applied: bool, ok: bool)
    | Trim(i: nat)
    | Crash
    | BeginRecovery(at: nat, extra: seq<Entry>)    // the log from `at` on is replayed, then `extra`
    | RecoverBlock(m: nat)                         // the next `m` replayed records, kept ones committed
    | FinishRecovery
    | ResetTrim(offset: int)
    | ResetDone
    | Restart

  predicate Quiet(a: P.Action) {
    a.ArchiveAll? || (a.Prepare? && a.ok) || a.UploadDone?
    || a.ForceBegin? || a.ForceArchive? || a.ForceCollect? || a.ForceReturn? || a.ForceFail?
  }

  /** A forced upload of the stream that returned Ok and began after its last confirmed record. */
  predicate Covering(p: P.Pipe, f: nat, s: nat) {
    && f < |p.forces| && p.forces[f].stream == s && p.forces[f].phase.ReturnedOk?
    && forall k :: p.forces[f].count <= k < |P.Confirmed(p)| ==> P.Confirmed(p)[k].record.streamId != s
  }

  ghost predicate Enabled(sys: Sys, a: Action) {
    match a
    case OpenStream(s) => sys.mode.Running? && s !in sys.open
    case CloseStream(s, f) =>
      sys.mode.Running? && sys.frontier <= |sys.log| && s in sys.open && Covering(sys.pipe, f, s)
    case RecoveryClose(s) => sys.mode.Closing?
    case Foreign(s, rs) =>
      && s !in sys.open && s in sys.ends && ContiguousFrom(rs, sys.ends[s]) && Positive(rs)
      && (forall i :: 0 <= i < |rs| ==> rs[i].streamId == s && rs[i] !in sys.acked)
    case Confirm(e, full) =>
      && sys.mode.Running? && e.record.IsUser() && e.record !in sys.acked
      && e.record.streamId in sys.open && e.record.streamId in sys.next
      && e.record.baseOffset == sys.next[e.record.streamId]
      && P.Enabled(sys.pipe, P.Confirm(e, full))
    case Pipe(b) => sys.mode.Running? && Quiet(b) && P.Enabled(sys.pipe, b)
    case Commit(applied, ok) =>
      && sys.mode.Running? && P.Enabled(sys.pipe, P.Commit(ok)) && (ok ==> applied)
    case Trim(i) => sys.mode.Running? && P.Enabled(sys.pipe, P.RequestTrim(i)) && sys.pipe.blocks[i].last.Some?
    case Crash => true
    case BeginRecovery(at, extra) =>
      && sys.mode.Down? && at <= |sys.log| && AllUser(extra)
      && exists t: int :: t <= sys.requested && Above(sys.log, t) == sys.log[at..]
    case RecoverBlock(m) => sys.mode.Recovering? && m <= |sys.mode.rest|
    case FinishRecovery => sys.mode.Recovering? && sys.mode.rest == []
    case ResetTrim(_) => sys.mode.Closing?
    case ResetDone => sys.mode.Closing?
    case Restart => sys.mode.Closing? && sys.log == [] && sys.open == {}
  }

  /** A commit worker pass: when the objects are stored, the metadata may change even if the
      reply is an error. */
  function DoCommit(sys: Sys, applied: bool, ok: bool): Sys
    requires P.Enabled(sys.pipe, P.Commit(ok))
  {
    var b := sys.pipe.blocks[sys.pipe.com];
    var sys1 := sys.(pipe := P.Apply(sys.pipe, P.Commit(ok)));
    if applied && b.status.Uploaded? && !sys.pipe.poisoned
    then CommitRecords(sys1, RecordsOf(b.entries)).(frontier := sys.frontier + |b.entries|)
    else sys1
  }

  function Handled(frontier: nat, at: nat, n: nat): nat {
    if at <= frontier then frontier else if at <= n then at else n
  }

  /** Recovery commits the kept ones of the next `m` replayed records; the frontier follows up to
      the end of the log. */
  function DoRecover(sys: Sys, m: nat): Sys
    requires sys.mode.Recovering? && m <= |sys.mode.rest|
  {
    var kept := Fold(sys.mode.rest[..m], OpenEnds(sys)).kept;
    var at := sys.mode.at + m;
    CommitRecords(sys, kept).(mode := Recovering(sys.mode.rest[m..], at),
                              frontier := Handled(sys.frontier, at, |sys.log|))
  }

  function DoConfirm(sys: Sys, e: Entry, full: bool): Sys
    requires P.Enabled(sys.pipe, P.Confirm(e, full))
  {
    var x := e.record;
    sys.(pipe := P.Apply(sys.pipe, P.Confirm(e, full)), log := sys.log + [e], acked := sys.acked + [x],
         next := sys.next[x.streamId := x.LastOffset()],
         exposed := if x.streamId in sys.broken then sys.exposed + {x} else sys.exposed)
  }

  function DoTrim(sys: Sys, i: nat): Sys
    requires P.Enabled(sys.pipe, P.RequestTrim(i)) && sys.pipe.blocks[i].last.Some?
  {
    var o := sys.pipe.blocks[i].last.value;
    sys.(pipe := P.Apply(sys.pipe, P.RequestTrim(i)), requested := if sys.requested < o then o else sys.requested)
  }

  /** A stream is opened at its committed end. */
  function DoOpen(sys: Sys, s: nat): Sys {
    var ends := if s in sys.ends then sys.ends else sys.ends[s := 0];
    sys.(open := sys.open + {s}, ends := ends, next := sys.next[s := ends[s]],
         reopened := if s in sys.broken then sys.reopened + {s} else sys.reopened)
  }

  /** Closing does not look at what is committed. */
  function DoClose(sys: Sys, s: nat): Sys
    requires sys.frontier <= |sys.log|
  {
    var left := Pending(sys.log, sys.frontier, s);
    sys.(open := sys.open - {s}, broken := if left == [] then sys.broken else sys.broken + {s},
         exposed := sys.exposed + set x | x in left)
  }

  ghost function Apply(sys: Sys, a: Action): Sys
    requires Enabled(sys, a)
  {
    match a
    case OpenStream(s) => DoOpen(sys, s)
    case CloseStream(s, f) => DoClose(sys, s)
    case RecoveryClose(s) => sys.(open := sys.open - {s})
    case Foreign(s, rs) => CommitRecords(sys, rs)
    case Confirm(e, full) => DoConfirm(sys, e, full)
    case Pipe(b) => sys.(pipe := P.Apply(sys.pipe, b))
    case Commit(applied, ok) => DoCommit(sys, applied, ok)
    case Trim(i) => DoTrim(sys, i)
    case Crash => sys.(mode := Down, pipe := P.InitPipe())
    case BeginRecovery(at, extra) => sys.(mode := Recovering(RecordsOf(sys.log[at..] + extra), at))
    case RecoverBlock(m) => DoRecover(sys, m)
    case FinishRecovery => sys.(mode := Closing)
    case ResetTrim(o) => sys.(requested := o)
    case ResetDone => sys.(log := [], frontier := 0, requested := -1, broken := {}, reopened := {})
    case Restart => sys.(mode := Running, pipe := P.InitPipe(), requested := -1)
  }

  ghost predicate Step(sys: Sys, sys': Sys) {
    exists a :: Enabled(sys, a) && Apply(sys, a) == sys'
  }

  ghost predicate IsRun(run: seq<Sys>) {
    && run != [] && run[0] == Init()
    && forall i :: 0 < i < |run| ==> Step(run[i - 1], run[i])
  }
}
