/**
 * The upload pipeline above the log: confirmed records fill cache blocks, blocks are archived,
 * prepared and committed in order, and only then is the log trimmed. Uploads finish in any order.
 */
module Pipeline {
  import opened Records
  import opened WalLayout

  datatype Status = Queued | Prepared | Uploaded | UploadFailed | Committed | Failed | Skipped {
    predicate Finished() { Committed? || Failed? || Skipped? }
    predicate Lost() { Failed? || Skipped? }
  }

  /** An archived cache block; `last` is the log offset its commit will trim to. */
  datatype Block = Block(entries: seq<Entry>, last: Option<nat>, status: Status)

  /** A `force_upload` call. `count` records were confirmed when it began. */
  datatype ForcePhase = Begun | Archived | Waiting(waits: set<nat>) | ReturnedOk | ReturnedErr {
    predicate Returned() { ReturnedOk? || ReturnedErr? }
    predicate Collected() { Waiting? || Returned() }
  }
  datatype Force = Force(stream: nat, count: nat, boundary: nat, phase: ForcePhase)

  datatype Pipe = Pipe(
    blocks: seq<Block>,
    active: seq<Entry>,          // records of the block being filled
    lastOffset: Option<nat>,     // log offset of the latest confirmed record
    prep: nat,                   // blocks the prepare worker has taken
    com: nat,                    // blocks the commit worker has passed
    poisoned: bool,
    trimmed: set<nat>,           // blocks whose log trim has been requested
    forces: seq<Force>)

  function InitPipe(): Pipe { Pipe([], [], None, 0, 0, false, {}, []) }

  function EntriesOfBlocks(blocks: seq<Block>): seq<Entry> {
    if blocks == [] then []
    else EntriesOfBlocks(blocks[..|blocks| - 1]) + blocks[|blocks| - 1].entries
  }

  /** Everything confirmed, in confirm order. */
  function Confirmed(p: Pipe): seq<Entry> { EntriesOfBlocks(p.blocks) + p.active }

  datatype Action =
    | Confirm(entry: Entry, full: bool)
    | ArchiveAll
    | Prepare(ok: bool)
    | UploadDone(i: nat, ok: bool)
    | Commit(ok: bool)
    | RequestTrim(i: nat)
    | ForceBegin(stream: nat)
    | ForceArchive(f: nat)
    | ForceCollect(f: nat)
    | ForceReturn(f: nat)
    | ForceFail(f: nat)

  function Archive(p: Pipe): Pipe {
    if p.active == [] then p
    else p.(blocks := p.blocks + [Block(p.active, p.lastOffset, Queued)], active := [])
  }

  /** The in-order confirm hook: a full block is archived before the record goes into a new one,
      and only then does the record's offset become the latest. */
  function DoConfirm(p: Pipe, e: Entry, full: bool): Pipe {
    var p1 := if full then Archive(p) else p;
    p1.(active := p1.active + [e], lastOffset := Some(e.offset))
  }

  function SetStatus(p: Pipe, i: nat, status: Status): Pipe
    requires i < |p.blocks|
  {
    p.(blocks := p.blocks[i := p.blocks[i].(status := status)])
  }

  predicate HasStream(entries: seq<Entry>, s: nat) {
    exists e :: e in entries && e.record.streamId == s
  }

  /** The unfinished blocks holding the stream: what a forced upload waits for. */
  function Inflight(p: Pipe, s: nat): set<nat> {
    set i | 0 <= i < |p.blocks| && !p.blocks[i].status.Finished() && HasStream(p.blocks[i].entries, s)
  }

  predicate Enabled(p: Pipe, a: Action) {
    match a
    case Confirm(e, _) => Confirmed(p) != [] ==> Confirmed(p)[|Confirmed(p)| - 1].offset < e.offset
    case ArchiveAll => true
    case Prepare(_) => p.prep < |p.blocks|
    case UploadDone(i, _) => i < |p.blocks| && p.blocks[i].status.Prepared?
    case Commit(ok) =>
      && p.com < p.prep && p.com < |p.blocks|
      && (p.poisoned || !p.blocks[p.com].status.Prepared?)
    case RequestTrim(i) => i < |p.blocks| && p.blocks[i].status.Committed?
    case ForceBegin(_) => true
    case ForceArchive(f) => f < |p.forces| && p.forces[f].phase.Begun?
    case ForceCollect(f) => f < |p.forces| && p.forces[f].phase.Archived?
    case ForceReturn(f) =>
      && f < |p.forces| && p.forces[f].phase.Waiting?
      && forall i :: i in p.forces[f].phase.waits ==> i < |p.blocks| && p.blocks[i].status.Committed?
    case ForceFail(f) =>
      && f < |p.forces| && p.forces[f].phase.Waiting?
      && exists i :: i in p.forces[f].phase.waits && i < |p.blocks| && p.blocks[i].status.Lost()
  }

  /** The commit worker takes the next block; blocks whose preparation failed never reach it. */
  function DoCommit(p: Pipe, ok: bool): Pipe
    requires p.com < |p.blocks|
  {
    var b := p.blocks[p.com];
    var p1 := p.(com := p.com + 1);
    if b.status.Skipped? then p1
    else if p.poisoned then SetStatus(p1, p.com, Failed)
    else if b.status.Uploaded? && ok then SetStatus(p1, p.com, Committed)
    else SetStatus(p1, p.com, Failed).(poisoned := true)
  }

  function DoForceArchive(p: Pipe, f: nat): Pipe
    requires f < |p.forces|
  {
    var p1 := if HasStream(p.active, p.forces[f].stream) then Archive(p) else p;
    p1.(forces := p.forces[f := p.forces[f].(phase := Archived, boundary := |p1.blocks|)])
  }

  function SetForce(p: Pipe, f: nat, phase: ForcePhase): Pipe
    requires f < |p.forces|
  {
    p.(forces := p.forces[f := p.forces[f].(phase := phase)])
  }

  function Apply(p: Pipe, a: Action): Pipe
    requires Enabled(p, a)
  {
    match a
    case Confirm(e, full) => DoConfirm(p, e, full)
    case ArchiveAll => Archive(p)
    case Prepare(ok) => SetStatus(p, p.prep, if ok then Prepared else Skipped).(prep := p.prep + 1)
    case UploadDone(i, ok) => SetStatus(p, i, if ok then Uploaded else UploadFailed)
    case Commit(ok) => DoCommit(p, ok)
    case RequestTrim(i) => p.(trimmed := p.trimmed + {i})
    case ForceBegin(s) => p.(forces := p.forces + [Force(s, |Confirmed(p)|, 0, Begun)])
    case ForceArchive(f) => DoForceArchive(p, f)
    case ForceCollect(f) => SetForce(p, f, Waiting(Inflight(p, p.forces[f].stream)))
    case ForceReturn(f) => SetForce(p, f, ReturnedOk)
    case ForceFail(f) => SetForce(p, f, ReturnedErr)
  }

  ghost predicate Step(p: Pipe, p': Pipe) {
    exists a :: Enabled(p, a) && Apply(p, a) == p'
  }

  ghost predicate IsRun(run: seq<Pipe>) {
    && run != [] && run[0] == InitPipe()
    && forall i :: 0 < i < |run| ==> Step(run[i - 1], run[i])
  }

  // ---- Invariant -----------------------------------------------------------------------------

  /** Blocks partition the confirmed records in order, and each ends at its trim offset. */
  ghost predicate Partition(p: Pipe) {
    && Ascending(Confirmed(p))
    && (Confirmed(p) == [] ==> p.lastOffset == None)
    && (Confirmed(p) != [] ==> p.lastOffset == Some(Confirmed(p)[|Confirmed(p)| - 1].offset))
    && (forall i :: 0 <= i < |p.blocks| ==> BlockOk(p.blocks[i]))
  }

  predicate BlockOk(b: Block) {
    b.entries != [] && b.last == Some(b.entries[|b.entries| - 1].offset)
  }

  /** Commits are first-in first-out and stop at the first failure. */
  ghost predicate Fifo(p: Pipe) {
    && p.com <= p.prep <= |p.blocks|
    && (forall i :: p.prep <= i < |p.blocks| ==> p.blocks[i].status.Queued?)
    && (forall i :: 0 <= i < p.prep ==> !p.blocks[i].status.Queued?)
    && (forall i :: 0 <= i < p.com ==> p.blocks[i].status.Finished())
    && (forall i :: p.com <= i < p.prep ==> !p.blocks[i].status.Committed? && !p.blocks[i].status.Failed?)
    && (forall i :: 0 <= i < |p.blocks| && p.blocks[i].status.Failed? ==> p.poisoned)
    && (forall i, j :: 0 <= i < j < |p.blocks| && p.blocks[i].status.Failed? ==> !p.blocks[j].status.Committed?)
    && (forall i :: i in p.trimmed ==> 0 <= i < |p.blocks| && p.blocks[i].status.Committed?)
  }

  /** A confirmed record of the stream within the first `count` sits in one of the first `b` blocks. */
  ghost predicate InBlocks(p: Pipe, stream: nat, count: nat, b: nat)
  {
    && b <= |p.blocks| && count <= |Confirmed(p)|
    && forall k :: 0 <= k < count && Confirmed(p)[k].record.streamId == stream ==>
         k < |EntriesOfBlocks(p.blocks[..b])|
  }

  ghost predicate ForceOk(p: Pipe, f: Force) {
    && f.count <= |Confirmed(p)|
    && (!f.phase.Begun? ==> InBlocks(p, f.stream, f.count, f.boundary))
    && (f.phase.Waiting? ==>
          forall i :: 0 <= i < f.boundary && i < |p.blocks| && HasStream(p.blocks[i].entries, f.stream) ==>
            i in f.phase.waits || p.blocks[i].status.Finished())
    && (f.phase.ReturnedOk? ==>
          forall i :: 0 <= i < f.boundary && i < |p.blocks| && HasStream(p.blocks[i].entries, f.stream) ==>
            p.blocks[i].status.Finished())
  }

  ghost predicate Forces(p: Pipe) {
    forall f :: 0 <= f < |p.forces| ==> ForceOk(p, p.forces[f])
  }

  ghost predicate Inv(p: Pipe) {
    Partition(p) && Fifo(p) && Forces(p)
  }

  // ---- Sequences of blocks -------------------------------------------------------------------

  lemma {:induction false} BlocksConcat(a: seq<Block>, b: seq<Block>)
    ensures EntriesOfBlocks(a + b) == EntriesOfBlocks(a) + EntriesOfBlocks(b)
  {
    if b == [] {
      assert a + b == a;
    } else {
      var init, last := b[..|b| - 1], b[|b| - 1];
      assert (a + b)[..|a + b| - 1] == a + init && (a + b)[|a + b| - 1] == last;
      BlocksConcat(a, init);
      assert EntriesOfBlocks(a) + (EntriesOfBlocks(init) + last.entries)
          == EntriesOfBlocks(a) + EntriesOfBlocks(init) + last.entries;
    }
  }

  lemma BlocksOne(b: Block)
    ensures EntriesOfBlocks([b]) == b.entries
  {
    assert [b][..0] == [];
  }

  lemma {:induction false} BlocksSameEntries(a: seq<Block>, b: seq<Block>)
    requires |a| == |b| && forall i :: 0 <= i < |a| ==> a[i].entries == b[i].entries
    ensures EntriesOfBlocks(a) == EntriesOfBlocks(b)
  {
    if a != [] {
      BlocksSameEntries(a[..|a| - 1], b[..|b| - 1]);
    }
  }

  /** Archiving moves records but changes neither their order nor their number. */
  lemma ArchiveConfirmed(p: Pipe)
    ensures Confirmed(Archive(p)) == Confirmed(p)
  {
    if p.active != [] {
      var b := Block(p.active, p.lastOffset, Queued);
      BlocksConcat(p.blocks, [b]);
      BlocksOne(b);
    }
  }

  lemma SetStatusConfirmed(p: Pipe, i: nat, status: Status)
    requires i < |p.blocks|
    ensures Confirmed(SetStatus(p, i, status)) == Confirmed(p)
  {
    BlocksSameEntries(p.blocks, SetStatus(p, i, status).blocks);
  }

  // ---- Preservation --------------------------------------------------------------------------

  lemma ArchivePartition(p: Pipe)
    requires Partition(p)
    ensures Partition(Archive(p))
  {
    ArchiveConfirmed(p);
    if p.active != [] {
      var c := Confirmed(p);
      assert c[|c| - 1] == p.active[|p.active| - 1];
    }
  }

  lemma ConfirmedPush(p: Pipe, e: Entry, last: Option<nat>)
    ensures Confirmed(p.(active := p.active + [e], lastOffset := last)) == Confirmed(p) + [e]
  {
  }

  lemma AscendingPush(c: seq<Entry>, e: Entry)
    requires Ascending(c) && (c != [] ==> c[|c| - 1].offset < e.offset)
    ensures Ascending(c + [e])
  {
    forall i | 0 <= i < |c| ensures c[i].offset < e.offset {
      if i < |c| - 1 { assert c[i].offset < c[|c| - 1].offset; }
    }
  }

  lemma ConfirmPartition(p: Pipe, e: Entry, full: bool)
    requires Partition(p) && Enabled(p, Confirm(e, full))
    ensures Partition(DoConfirm(p, e, full)) && Confirmed(DoConfirm(p, e, full)) == Confirmed(p) + [e]
  {
    hide Ascending, Confirmed;
    ArchivePartition(p);
    ArchiveConfirmed(p);
    var p1 := if full then Archive(p) else p;
    AscendingPush(Confirmed(p), e);
    ConfirmedPush(p1, e, Some(e.offset));
  }

  lemma StatusPartition(p: Pipe, i: nat, status: Status)
    requires Partition(p) && i < |p.blocks|
    ensures Partition(SetStatus(p, i, status))
  {
    SetStatusConfirmed(p, i, status);
  }

  /** Forces survive any change that keeps earlier blocks, only finishes statuses, and grows. */
  lemma ForcesFrame(p: Pipe, p': Pipe)
    requires Forces(p) && p'.forces == p.forces && |p.blocks| <= |p'.blocks|
    requires Confirmed(p) <= Confirmed(p')
    requires forall i :: 0 <= i < |p.blocks| ==>
               p'.blocks[i].entries == p.blocks[i].entries
               && (p.blocks[i].status.Finished() ==> p'.blocks[i].status.Finished())
    ensures Forces(p')
  {
    forall f | 0 <= f < |p.forces| ensures ForceOk(p', p'.forces[f]) {
      var force := p.forces[f];
      assert ForceOk(p, force);
      if !force.phase.Begun? {
        InBlocksFrame(p, p', force.stream, force.count, force.boundary);
      }
    }
  }

  lemma InBlocksFrame(p: Pipe, p': Pipe, stream: nat, count: nat, b: nat)
    requires InBlocks(p, stream, count, b) && |p.blocks| <= |p'.blocks| && Confirmed(p) <= Confirmed(p')
    requires forall i :: 0 <= i < |p.blocks| ==> p'.blocks[i].entries == p.blocks[i].entries
    ensures InBlocks(p', stream, count, b)
  {
    BlocksSameEntries(p.blocks[..b], p'.blocks[..b]);
  }

  lemma ArchiveFrame(p: Pipe)
    requires Fifo(p) && Forces(p)
    ensures Fifo(Archive(p)) && Forces(Archive(p))
  {
    ArchiveConfirmed(p);
    ForcesFrame(p, Archive(p));
  }

  lemma ConfirmKeeps(p: Pipe, e: Entry, full: bool)
    requires Inv(p) && Enabled(p, Confirm(e, full))
    ensures Inv(DoConfirm(p, e, full))
  {
    hide Partition, Forces, Fifo, Confirmed, EntriesOfBlocks;
    ConfirmPartition(p, e, full);
    ArchiveFrame(p);
    var p1 := if full then Archive(p) else p;
    ConfirmedPush(p1, e, Some(e.offset));
    ForcesFrame(p1, DoConfirm(p, e, full));
    FifoFrame(p1, DoConfirm(p, e, full));
  }

  lemma FifoFrame(p: Pipe, p': Pipe)
    requires Fifo(p) && p'.blocks == p.blocks && p'.prep == p.prep && p'.com == p.com
    requires p'.poisoned == p.poisoned && p'.trimmed == p.trimmed
    ensures Fifo(p')
  {
  }

  lemma StatusForces(p: Pipe, i: nat, status: Status)
    requires Forces(p) && i < |p.blocks| && (p.blocks[i].status.Finished() ==> status.Finished())
    ensures Forces(SetStatus(p, i, status))
  {
    SetStatusConfirmed(p, i, status);
    ForcesFrame(p, SetStatus(p, i, status));
  }

  lemma PrepareKeeps(p: Pipe, ok: bool)
    requires Inv(p) && p.prep < |p.blocks|
    ensures Inv(SetStatus(p, p.prep, if ok then Prepared else Skipped).(prep := p.prep + 1))
  {
    hide Partition, Forces;
    var status := if ok then Prepared else Skipped;
    StatusPartition(p, p.prep, status);
    StatusForces(p, p.prep, status);
    SamePipe(SetStatus(p, p.prep, status), SetStatus(p, p.prep, status).(prep := p.prep + 1));
  }

  /** Partition and Forces look only at the blocks, the active records and the calls. */
  lemma SamePipe(p: Pipe, p': Pipe)
    requires p'.blocks == p.blocks && p'.active == p.active && p'.lastOffset == p.lastOffset && p'.forces == p.forces
    ensures Partition(p) ==> Partition(p')
    ensures Forces(p) ==> Forces(p')
  {
    assert Confirmed(p') == Confirmed(p);
    if Forces(p) {
      ForcesFrame(p, p');
    }
  }

  lemma UploadDoneKeeps(p: Pipe, i: nat, ok: bool)
    requires Inv(p) && i < |p.blocks| && p.blocks[i].status.Prepared?
    ensures Inv(SetStatus(p, i, if ok then Uploaded else UploadFailed))
  {
    hide Partition, Forces;
    StatusPartition(p, i, if ok then Uploaded else UploadFailed);
    StatusForces(p, i, if ok then Uploaded else UploadFailed);
  }

  lemma CommitFifo(p: Pipe, ok: bool)
    requires Fifo(p) && Enabled(p, Commit(ok))
    ensures Fifo(DoCommit(p, ok))
  {
  }

  lemma CommitKeeps(p: Pipe, ok: bool)
    requires Inv(p) && Enabled(p, Commit(ok))
    ensures Inv(DoCommit(p, ok))
  {
    hide Partition, Forces, Fifo;
    CommitFifo(p, ok);
    StatusPartition(p, p.com, Failed);
    StatusForces(p, p.com, Failed);
    StatusPartition(p, p.com, Committed);
    StatusForces(p, p.com, Committed);
    var p' := DoCommit(p, ok);
    if p.blocks[p.com].status.Skipped? {
      SamePipe(p, p');
    } else if p'.blocks[p.com].status.Committed? {
      SamePipe(SetStatus(p, p.com, Committed), p');
    } else {
      SamePipe(SetStatus(p, p.com, Failed), p');
    }
  }

  lemma ForceBeginKeeps(p: Pipe, s: nat)
    requires Inv(p)
    ensures Inv(p.(forces := p.forces + [Force(s, |Confirmed(p)|, 0, Begun)]))
  {
    hide Partition, Fifo, Confirmed, InBlocks;
    var p' := p.(forces := p.forces + [Force(s, |Confirmed(p)|, 0, Begun)]);
    SameConfirmed(p, p');
    ForcePartition(p, p'.forces);
    FifoFrame(p, p');
    forall f | 0 <= f < |p'.forces| ensures ForceOk(p', p'.forces[f]) {
      if f < |p.forces| {
        assert ForceOk(p, p.forces[f]);
        ForceOkFrame(p, p', p.forces[f]);
      }
    }
  }

  lemma ForcePartition(p: Pipe, forces: seq<Force>)
    requires Partition(p)
    ensures Partition(p.(forces := forces))
  {
    assert Confirmed(p.(forces := forces)) == Confirmed(p);
  }

  lemma ForceOkFrame(p: Pipe, p': Pipe, f: Force)
    requires ForceOk(p, f) && p'.blocks == p.blocks && p'.active == p.active
    ensures ForceOk(p', f)
  {
    assert Confirmed(p') == Confirmed(p);
  }

  lemma SetForceKeeps(p: Pipe, f: nat, force: Force)
    requires Inv(p) && f < |p.forces| && ForceOk(p, force)
    ensures Inv(p.(forces := p.forces[f := force]))
  {
    hide Partition, ForceOk;
    var p' := p.(forces := p.forces[f := force]);
    ForcePartition(p, p'.forces);
    forall g | 0 <= g < |p'.forces| ensures ForceOk(p', p'.forces[g]) {
      if g != f {
        assert ForceOk(p, p.forces[g]);
        ForceOkFrame(p, p', p.forces[g]);
      } else {
        ForceOkFrame(p, p', force);
      }
    }
  }

  lemma InLeftOrRight(a: seq<Entry>, b: seq<Entry>, k: nat)
    requires k < |a + b|
    ensures k < |a| || (a + b)[k] in b
  {
  }

  /** When the filling block has no record of the stream, or has just been archived, all its
      confirmed records are in archived blocks. */
  lemma AllArchived(p: Pipe, stream: nat, count: nat)
    requires count <= |Confirmed(p)| && !HasStream(p.active, stream)
    ensures InBlocks(p, stream, count, |p.blocks|)
  {
    assert p.blocks[..|p.blocks|] == p.blocks;
    forall k | 0 <= k < count && Confirmed(p)[k].record.streamId == stream
      ensures k < |EntriesOfBlocks(p.blocks)|
    {
      InLeftOrRight(EntriesOfBlocks(p.blocks), p.active, k);
    }
  }

  lemma ForceArchiveKeeps(p: Pipe, f: nat)
    requires Inv(p) && f < |p.forces| && p.forces[f].phase.Begun?
    ensures Inv(DoForceArchive(p, f))
  {
    hide Partition, Fifo, ForceOk;
    var force := p.forces[f];
    var p1 := if HasStream(p.active, force.stream) then Archive(p) else p;
    ArchivePartition(p);
    ArchiveFrame(p);
    ArchiveConfirmed(p);
    ForceCount(p, f);
    AllArchived(p1, force.stream, force.count);
    ForceArchived(p1, force.(phase := Archived, boundary := |p1.blocks|));
    SetForceKeeps(p1, f, force.(phase := Archived, boundary := |p1.blocks|));
  }

  lemma ForceCount(p: Pipe, f: nat)
    requires Forces(p) && f < |p.forces|
    ensures p.forces[f].count <= |Confirmed(p)|
  {
    assert ForceOk(p, p.forces[f]);
  }

  lemma ForceArchived(p: Pipe, f: Force)
    requires f.phase.Archived? && InBlocks(p, f.stream, f.count, f.boundary)
    ensures ForceOk(p, f)
  {
  }

  lemma ForceCollectKeeps(p: Pipe, f: nat)
    requires Inv(p) && f < |p.forces| && p.forces[f].phase.Archived?
    ensures Inv(SetForce(p, f, Waiting(Inflight(p, p.forces[f].stream))))
  {
    assert ForceOk(p, p.forces[f]);
    SetForceKeeps(p, f, p.forces[f].(phase := Waiting(Inflight(p, p.forces[f].stream))));
  }

  lemma ForceReturnKeeps(p: Pipe, f: nat)
    requires Inv(p) && Enabled(p, ForceReturn(f))
    ensures Inv(SetForce(p, f, ReturnedOk))
  {
    assert ForceOk(p, p.forces[f]);
    SetForceKeeps(p, f, p.forces[f].(phase := ReturnedOk));
  }

  lemma ForceFailKeeps(p: Pipe, f: nat)
    requires Inv(p) && Enabled(p, ForceFail(f))
    ensures Inv(SetForce(p, f, ReturnedErr))
  {
    assert ForceOk(p, p.forces[f]);
    SetForceKeeps(p, f, p.forces[f].(phase := ReturnedErr));
  }

  lemma TrimKeeps(p: Pipe, i: nat)
    requires Inv(p) && i < |p.blocks| && p.blocks[i].status.Committed?
    ensures Inv(p.(trimmed := p.trimmed + {i}))
  {
    hide Partition, Forces;
    SamePipe(p, p.(trimmed := p.trimmed + {i}));
  }

  lemma ArchiveKeeps(p: Pipe)
    requires Inv(p)
    ensures Inv(Archive(p))
  {
    hide Partition, Fifo, Forces;
    ArchivePartition(p);
    ArchiveFrame(p);
  }

  lemma StepKeepsInv(p: Pipe, a: Action)
    requires Inv(p) && Enabled(p, a)
    ensures Inv(Apply(p, a))
  {
    hide Inv;
    match a
    case Confirm(e, full) => ConfirmKeeps(p, e, full);
    case ArchiveAll => ArchiveKeeps(p);
    case Prepare(ok) => PrepareKeeps(p, ok);
    case UploadDone(i, ok) => UploadDoneKeeps(p, i, ok);
    case Commit(ok) => CommitKeeps(p, ok);
    case RequestTrim(i) => TrimKeeps(p, i);
    case ForceBegin(s) => ForceBeginKeeps(p, s);
    case ForceArchive(f) => ForceArchiveKeeps(p, f);
    case ForceCollect(f) => ForceCollectKeeps(p, f);
    case ForceReturn(f) => ForceReturnKeeps(p, f);
    case ForceFail(f) => ForceFailKeeps(p, f);
  }

  lemma {:induction false} RunInv(run: seq<Pipe>, n: nat)
    requires IsRun(run) && n < |run|
    ensures Inv(run[n])
  {
    hide Inv;
    if n == 0 {
      InitInv();
    } else {
      RunInv(run, n - 1);
      assert Step(run[n - 1], run[n]);
      var a :| Enabled(run[n - 1], a) && Apply(run[n - 1], a) == run[n];
      StepKeepsInv(run[n - 1], a);
    }
  }

  lemma InitInv()
    ensures Inv(InitPipe())
  {
  }

  // ---- Trimmed implies committed, exactly when no preparation was skipped ------------------------

  /** The record is in a committed block. */
  predicate InCommitted(p: Pipe, e: Entry) {
    exists i :: 0 <= i < |p.blocks| && p.blocks[i].status.Committed? && e in p.blocks[i].entries
  }

  /** The log may have been told to drop this record. */
  predicate TrimRequested(p: Pipe, e: Entry) {
    exists j :: j in p.trimmed && j < |p.blocks| && p.blocks[j].last.Some? && e.offset <= p.blocks[j].last.value
  }

  /** A block whose preparation failed was overtaken by the trim of a later block. */
  predicate Overtaken(p: Pipe, k: nat, j: nat) {
    k < j && j in p.trimmed && j < |p.blocks| && p.blocks[k].status.Skipped?
  }

  lemma BlocksPrefix(blocks: seq<Block>, i: nat)
    requires i < |blocks|
    ensures EntriesOfBlocks(blocks[..i + 1]) == EntriesOfBlocks(blocks[..i]) + blocks[i].entries
  {
    assert blocks[..i + 1][..i] == blocks[..i];
  }

  lemma SplitAt(blocks: seq<Block>, i: nat)
    requires i < |blocks|
    ensures EntriesOfBlocks(blocks)
         == EntriesOfBlocks(blocks[..i]) + blocks[i].entries + EntriesOfBlocks(blocks[i + 1..])
  {
    hide EntriesOfBlocks;
    BlocksPrefix(blocks, i);
    assert blocks == blocks[..i + 1] + blocks[i + 1..];
    BlocksConcat(blocks[..i + 1], blocks[i + 1..]);
  }

  /** Later blocks hold later offsets. */
  lemma BlockOrder(p: Pipe, i: nat, j: nat)
    requires Partition(p) && i < j < |p.blocks|
    ensures forall e, e' :: e in p.blocks[i].entries && e' in p.blocks[j].entries ==> e.offset < e'.offset
  {
    hide EntriesOfBlocks, Ascending;
    SplitAt(p.blocks, j);
    SplitAt(p.blocks[..j], i);
    var a, b := EntriesOfBlocks(p.blocks[..j][..i]), EntriesOfBlocks(p.blocks[..j][i + 1..]);
    AscendingParts(a, p.blocks[i].entries, b, p.blocks[j].entries,
                   EntriesOfBlocks(p.blocks[j + 1..]) + p.active, Confirmed(p));
  }

  lemma AscendingParts(a: seq<Entry>, x: seq<Entry>, b: seq<Entry>, y: seq<Entry>, c: seq<Entry>, all: seq<Entry>)
    requires all == a + x + b + y + c && Ascending(all)
    ensures forall e, e' :: e in x && e' in y ==> e.offset < e'.offset
  {
    forall e, e' | e in x && e' in y ensures e.offset < e'.offset {
      var i :| 0 <= i < |x| && x[i] == e;
      var j :| 0 <= j < |y| && y[j] == e';
      assert all[|a| + i] == e;
      assert all[|a| + |x| + |b| + j] == e';
    }
  }

  /** Where a confirmed record is: in some archived block or in the one being filled. */
  lemma {:induction false} HomeBlock(blocks: seq<Block>, e: Entry) returns (i: nat)
    requires e in EntriesOfBlocks(blocks)
    ensures i < |blocks| && e in blocks[i].entries
  {
    var n := |blocks| - 1;
    if e in blocks[n].entries {
      i := n;
    } else {
      i := HomeBlock(blocks[..n], e);
    }
  }

  /** A confirmed record at or below a trimmed block's offset is in that block or an earlier one. */
  lemma TrimmedHome(p: Pipe, e: Entry, j: nat) returns (i: nat)
    requires Partition(p) && e in Confirmed(p) && j < |p.blocks|
    requires p.blocks[j].last.Some? && e.offset <= p.blocks[j].last.value
    ensures i <= j && e in p.blocks[i].entries
  {
    var last := p.blocks[j].entries[|p.blocks[j].entries| - 1];
    assert last in p.blocks[j].entries;
    if e in EntriesOfBlocks(p.blocks) {
      i := HomeBlock(p.blocks, e);
      if i > j {
        BlockOrder(p, j, i);
        assert false;
      }
    } else {
      ActiveAfterBlocks(p, j, last, e);
      assert false;
    }
  }

  lemma ActiveAfterBlocks(p: Pipe, j: nat, e: Entry, e': Entry)
    requires Partition(p) && j < |p.blocks| && e in p.blocks[j].entries && e' in p.active
    ensures e.offset < e'.offset
  {
    hide EntriesOfBlocks, Ascending;
    SplitAt(p.blocks, j);
    AscendingParts(EntriesOfBlocks(p.blocks[..j]), p.blocks[j].entries, EntriesOfBlocks(p.blocks[j + 1..]),
                   p.active, [], Confirmed(p));
  }

  /**
   * Pipeline safety, exactly. In every reachable state, every confirmed record that the log was
   * told to drop is in a committed block, if and only if no block whose preparation failed has
   * been overtaken by the trim of a later block.
   */
  lemma TrimmedIsCommittedIff(run: seq<Pipe>, n: nat)
    requires IsRun(run) && n < |run|
    ensures var p := run[n];
            (forall e :: e in Confirmed(p) && TrimRequested(p, e) ==> InCommitted(p, e))
            <==> !(exists k, j :: Overtaken(p, k, j))
  {
    hide Inv, IsRun;
    RunInv(run, n);
    var p := run[n];
    if exists k, j :: Overtaken(p, k, j) {
      var k, j :| Overtaken(p, k, j);
      var e := OvertakenLost(p, k, j);
    } else {
      forall e | e in Confirmed(p) && TrimRequested(p, e) ensures InCommitted(p, e) {
        NotOvertakenCommitted(p, e);
      }
    }
  }

  lemma OvertakenLost(p: Pipe, k: nat, j: nat) returns (e: Entry)
    requires Inv(p) && Overtaken(p, k, j)
    ensures e in Confirmed(p) && TrimRequested(p, e) && !InCommitted(p, e)
  {
    hide Forces;
    e := p.blocks[k].entries[0];
    assert e in p.blocks[k].entries;
    InConfirmed(p, k, e);
    BlockOrder(p, k, j);
    assert p.blocks[j].entries[|p.blocks[j].entries| - 1] in p.blocks[j].entries;
    if InCommitted(p, e) {
      var i :| 0 <= i < |p.blocks| && p.blocks[i].status.Committed? && e in p.blocks[i].entries;
      if i < k {
        BlockOrder(p, i, k);
      } else {
        BlockOrder(p, k, i);
      }
      assert false;
    }
  }

  lemma InConfirmed(p: Pipe, k: nat, e: Entry)
    requires k < |p.blocks| && e in p.blocks[k].entries
    ensures e in Confirmed(p)
  {
    SplitAt(p.blocks, k);
  }

  lemma NotOvertakenCommitted(p: Pipe, e: Entry)
    requires Inv(p) && e in Confirmed(p) && TrimRequested(p, e)
    requires !exists k, j :: Overtaken(p, k, j)
    ensures InCommitted(p, e)
  {
    hide Forces;
    var j :| j in p.trimmed && j < |p.blocks| && p.blocks[j].last.Some? && e.offset <= p.blocks[j].last.value;
    var i := TrimmedHome(p, e, j);
    assert p.blocks[j].status.Committed?;
    assert j < p.com;
    assert !Overtaken(p, i, j);
    assert p.blocks[i].status.Committed?;
  }

  // ---- Forced upload ---------------------------------------------------------------------------

  /** The confirmed records of a stream when the call began. */
  predicate CoveredByForce(p: Pipe, f: Force, k: nat) {
    k < f.count && k < |Confirmed(p)| && Confirmed(p)[k].record.streamId == f.stream
  }

  /** Block `i` has failed or been skipped, and holds the covered record at position `k`. */
  predicate LostBlock(p: Pipe, f: Force, k: nat, i: nat) {
    && CoveredByForce(p, f, k)
    && i < |p.blocks| && (p.blocks[i].status.Failed? || p.blocks[i].status.Skipped?)
    && Confirmed(p)[k] in p.blocks[i].entries
  }

  /** What no step undoes: blocks keep their records, and a finished block keeps its status. */
  ghost predicate Later(p: Pipe, p': Pipe) {
    && |p.blocks| <= |p'.blocks| && Confirmed(p) <= Confirmed(p')
    && forall i :: 0 <= i < |p.blocks| ==>
         p'.blocks[i].entries == p.blocks[i].entries
         && (p.blocks[i].status.Finished() ==> p'.blocks[i].status == p.blocks[i].status)
  }

  lemma StepLater(p: Pipe, a: Action)
    requires Inv(p) && Enabled(p, a)
    ensures Later(p, Apply(p, a))
  {
    hide Partition, Forces, Confirmed;
    var p' := Apply(p, a);
    match a
    case Confirm(e, full) => ConfirmPartition(p, e, full);
    case ArchiveAll => ArchiveConfirmed(p);
    case Prepare(ok) => SetLater(p, p.prep, if ok then Prepared else Skipped, p');
    case UploadDone(i, ok) => SetLater(p, i, if ok then Uploaded else UploadFailed, p');
    case Commit(ok) => CommitLater(p, ok);
    case ForceArchive(f) =>
      ArchiveConfirmed(p);
      SameConfirmed(if HasStream(p.active, p.forces[f].stream) then Archive(p) else p, p');
    case _ => SameConfirmed(p, p');
  }

  lemma SameConfirmed(p: Pipe, p': Pipe)
    requires p'.blocks == p.blocks && p'.active == p.active
    ensures Confirmed(p') == Confirmed(p)
  {
  }

  lemma SetLater(p: Pipe, i: nat, status: Status, p': Pipe)
    requires i < |p.blocks| && !p.blocks[i].status.Finished()
    requires p'.blocks == SetStatus(p, i, status).blocks && p'.active == p.active
    ensures Later(p, p')
  {
    hide Confirmed;
    SetStatusConfirmed(p, i, status);
    SameConfirmed(SetStatus(p, i, status), p');
  }

  lemma CommitLater(p: Pipe, ok: bool)
    requires Fifo(p) && Enabled(p, Commit(ok))
    ensures Later(p, DoCommit(p, ok))
  {
    hide Confirmed;
    if p.blocks[p.com].status.Skipped? {
      SameConfirmed(p, DoCommit(p, ok));
    } else {
      SetLater(p, p.com, DoCommit(p, ok).blocks[p.com].status, DoCommit(p, ok));
    }
  }

  lemma LaterTwice(p: Pipe, p1: Pipe, p2: Pipe)
    requires Later(p, p1) && Later(p1, p2)
    ensures Later(p, p2)
  {
    hide Confirmed;
  }

  /** The call collected its waiting set in `p0`; when it has returned Ok, all it waited for is
      committed, and when it has returned an error, some of it is not and never will be. */
  ghost predicate Since(p0: Pipe, f: nat, p: Pipe) {
    && f < |p0.forces| && f < |p.forces| && Later(p0, p)
    && var force := p0.forces[f];
       && p.forces[f].stream == force.stream && p.forces[f].count == force.count
       && (p.forces[f].phase == Waiting(Inflight(p0, force.stream))
           || (p.forces[f].phase.ReturnedOk?
               && forall i :: i in Inflight(p0, force.stream) ==> p.blocks[i].status.Committed?)
           || (p.forces[f].phase.ReturnedErr?
               && exists i :: i in Inflight(p0, force.stream) && p.blocks[i].status.Lost()))
  }

  lemma StepSince(p0: Pipe, f: nat, p: Pipe, a: Action)
    requires Since(p0, f, p) && Inv(p) && Enabled(p, a)
    ensures Since(p0, f, Apply(p, a))
  {
    hide Inv, Later, Inflight, Confirmed;
    var p', s := Apply(p, a), p0.forces[f].stream;
    StepLater(p, a);
    LaterTwice(p0, p, p');
    LaterBlocks(p0, p);
    LaterBlocks(p, p');
    if p.forces[f].phase.ReturnedErr? {
      var i :| i in Inflight(p0, s) && p.blocks[i].status.Lost();
      assert p'.blocks[i].status.Lost();
    }
  }

  lemma LaterBlocks(p: Pipe, p': Pipe)
    requires Later(p, p')
    ensures |p.blocks| <= |p'.blocks|
    ensures forall i :: 0 <= i < |p.blocks| && p.blocks[i].status.Committed? ==> p'.blocks[i].status.Committed?
    ensures forall i :: 0 <= i < |p.blocks| && p.blocks[i].status.Lost() ==> p'.blocks[i].status.Lost()
    ensures forall s, i :: i in Inflight(p, s) ==> i < |p.blocks|
  {
  }

  /** Every call that waits or has returned collected its waiting set in an earlier state. */
  lemma {:induction false} CollectedAt(run: seq<Pipe>, n: nat, f: nat) returns (c: nat)
    requires IsRun(run) && n < |run| && f < |run[n].forces|
    requires run[n].forces[f].phase.Collected()
    ensures c < n && Since(run[c], f, run[n])
    ensures Enabled(run[c], ForceCollect(f)) && run[c + 1] == Apply(run[c], ForceCollect(f))
  {
    hide Inv, Since, Enabled, Apply;
    if n > 0 {
      RunInv(run, n - 1);
      assert Step(run[n - 1], run[n]);
      var a :| Enabled(run[n - 1], a) && Apply(run[n - 1], a) == run[n];
      if a == ForceCollect(f) {
        c := n - 1;
        SinceNow(run[c], f);
      } else {
        WaitedBefore(run[n - 1], a, f);
        c := CollectedAt(run, n - 1, f);
        StepSince(run[c], f, run[n - 1], a);
      }
    }
  }

  /** Only collecting makes a call wait. */
  lemma WaitedBefore(p: Pipe, a: Action, f: nat)
    requires Enabled(p, a) && a != ForceCollect(f) && f < |Apply(p, a).forces|
    requires Apply(p, a).forces[f].phase.Collected()
    ensures f < |p.forces| && p.forces[f].phase.Collected()
  {
    hide Confirmed, Inflight, HasStream;
  }

  lemma SinceNow(p: Pipe, f: nat)
    requires Enabled(p, ForceCollect(f))
    ensures Since(p, f, Apply(p, ForceCollect(f)))
  {
    hide Confirmed;
    SameConfirmed(p, Apply(p, ForceCollect(f)));
  }

  /** What a forced upload answers: Ok if and only if every block it waited for is committed, and an
      error if and only if one of them has failed or been skipped. */
  lemma ForceAnswerIff(run: seq<Pipe>, n: nat, f: nat) returns (c: nat)
    requires IsRun(run) && n < |run| && f < |run[n].forces| && run[n].forces[f].phase.Returned()
    ensures c < n && Enabled(run[c], ForceCollect(f)) && run[c + 1] == Apply(run[c], ForceCollect(f))
    ensures |run[c].blocks| <= |run[n].blocks|
    ensures var waits := Inflight(run[c], run[c].forces[f].stream);
            && (run[n].forces[f].phase.ReturnedOk? <==> forall i :: i in waits ==> run[n].blocks[i].status.Committed?)
            && (run[n].forces[f].phase.ReturnedErr? <==> exists i :: i in waits && run[n].blocks[i].status.Lost())
  {
    hide Inv, Confirmed, HasStream, IsRun, Apply;
    c := CollectedAt(run, n, f);
  }

  /**
   * A forced upload that returned Ok has committed every record of its stream that was confirmed
   * before the call, if and only if no block holding such a record had already failed or been
   * skipped in the state `run[c]` in which the call collected what it waits for: such blocks are
   * no longer inflight, so nothing waits for them.
   */
  lemma ForceUploadIff(run: seq<Pipe>, n: nat, f: nat) returns (c: nat)
    requires IsRun(run) && n < |run| && f < |run[n].forces| && run[n].forces[f].phase.ReturnedOk?
    ensures c < n && Enabled(run[c], ForceCollect(f)) && run[c + 1] == Apply(run[c], ForceCollect(f))
    ensures var p := run[n];
            (forall k: nat :: CoveredByForce(p, p.forces[f], k) ==> InCommitted(p, Confirmed(p)[k]))
            <==> !(exists k: nat, i: nat :: LostBlock(run[c], run[c].forces[f], k, i))
  {
    hide Inv, IsRun, Since, Confirmed;
    c := CollectedAt(run, n, f);
    RunInv(run, n);
    RunInv(run, c);
    var p0, p := run[c], run[n];
    if exists k: nat, i: nat :: LostBlock(p0, p0.forces[f], k, i) {
      var k: nat, i: nat :| LostBlock(p0, p0.forces[f], k, i);
      StaysLost(p0, f, p, k, i);
    } else {
      forall k: nat | CoveredByForce(p, p.forces[f], k) ensures InCommitted(p, Confirmed(p)[k]) {
        ForcedCommitted(p0, f, p, k);
      }
    }
  }

  lemma StaysLost(p0: Pipe, f: nat, p: Pipe, k: nat, i: nat)
    requires Inv(p) && Since(p0, f, p) && LostBlock(p0, p0.forces[f], k, i)
    ensures CoveredByForce(p, p.forces[f], k) && !InCommitted(p, Confirmed(p)[k])
  {
    hide Inv, Confirmed, Inflight, InCommitted;
    LostNotCommitted(p, i, Confirmed(p)[k]);
  }

  /** The corollary a caller can use: with no failure and no skipped block at that point, Ok means
      that everything is committed. */
  lemma ForceUploadCommits(run: seq<Pipe>, n: nat, f: nat) returns (c: nat)
    requires IsRun(run) && n < |run| && f < |run[n].forces| && run[n].forces[f].phase.ReturnedOk?
    ensures c < n && Enabled(run[c], ForceCollect(f)) && run[c + 1] == Apply(run[c], ForceCollect(f))
    ensures !run[c].poisoned && (forall i :: 0 <= i < |run[c].blocks| ==> !run[c].blocks[i].status.Skipped?) ==>
              var p := run[n];
              forall k: nat :: CoveredByForce(p, p.forces[f], k) ==> InCommitted(p, Confirmed(p)[k])
  {
    hide Partition, Forces, IsRun, Confirmed, InCommitted;
    c := ForceUploadIff(run, n, f);
    RunInv(run, c);
  }

  /** A record is in one block only. */
  lemma LostNotCommitted(p: Pipe, i: nat, e: Entry)
    requires Inv(p) && i < |p.blocks| && !p.blocks[i].status.Committed? && e in p.blocks[i].entries
    ensures !InCommitted(p, e)
  {
    hide Forces, Fifo;
    if InCommitted(p, e) {
      var j :| 0 <= j < |p.blocks| && p.blocks[j].status.Committed? && e in p.blocks[j].entries;
      if i < j {
        BlockOrder(p, i, j);
      } else {
        BlockOrder(p, j, i);
      }
      assert false;
    }
  }

  lemma ForcedCommitted(p0: Pipe, f: nat, p: Pipe, k: nat)
    requires Inv(p0) && Inv(p) && Since(p0, f, p) && p0.forces[f].phase.Archived? && p.forces[f].phase.ReturnedOk?
    requires CoveredByForce(p, p.forces[f], k)
    requires !(exists k: nat, i: nat :: LostBlock(p0, p0.forces[f], k, i))
    ensures InCommitted(p, Confirmed(p)[k])
  {
    hide Partition, Fifo;
    var force := p0.forces[f];
    assert ForceOk(p0, force);
    var e := Confirmed(p0)[k];
    assert Confirmed(p)[k] == e;
    var early := p0.blocks[..force.boundary];
    PrefixEntries(p0.blocks, force.boundary);
    assert e == EntriesOfBlocks(early)[k];
    var i := HomeBlock(early, e);
    assert e in p0.blocks[i].entries && HasStream(p0.blocks[i].entries, force.stream);
    assert !LostBlock(p0, force, k, i);
    assert p0.blocks[i].status.Finished() || i in Inflight(p0, force.stream);
    assert p.blocks[i].status.Committed?;
  }

  lemma PrefixEntries(blocks: seq<Block>, b: nat)
    requires b <= |blocks|
    ensures EntriesOfBlocks(blocks[..b]) <= EntriesOfBlocks(blocks)
  {
    assert blocks == blocks[..b] + blocks[b..];
    BlocksConcat(blocks[..b], blocks[b..]);
  }
}
