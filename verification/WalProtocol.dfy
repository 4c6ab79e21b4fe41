/**
 * The object write-ahead log as a state machine at lock granularity.
 *
 * One writer seals batches, uploads them concurrently, completes them in order after a lease
 * check, and trims. Uploads, failures, timers, trims, deletions and the arrival of another owner
 * interleave arbitrarily. Batches are identified by their position in `log`.
 */
module WalProtocol {
  import opened Records
  import opened WalLayout

  /** An object as stored: its header's trim point and its entries. */
  datatype Obj = Obj(base: nat, trim: int, entries: seq<Entry>) {
    function End(): nat { base + ALIGN }
  }

  /** Life of one sealed batch. `Built` has read the trim point into its header,
      `Sent` has reached the object store, and the two `Done` phases are reported back. */
  datatype Phase = Waiting | Spawned | Built(trim: int) | Sent(trim: int) | DoneOk(trim: int) | DoneErr {
    predicate Done() { DoneOk? || DoneErr? }
    predicate HasTrim() { Built? || Sent? || DoneOk? }
  }

  /** Sealed batches, oldest first, and the one that accumulates. */
  datatype Uploads = Uploads(
    start: nat,              // first offset of this writer: end of the objects it found
    log: seq<Bulk>,
    phase: seq<Phase>,       // phase of each sealed batch
    active: Option<Bulk>,
    launched: nat,           // batches handed to an upload task
    popped: nat)             // batches taken by the completion loop
  {
    function NextOffset(): nat { start + ALIGN * |log| }
  }

  /** The single completion loop: popped batches, then the lease check, then the acks. */
  datatype Callback = Idle | Popped | Verified(ok: bool) | Checked(fenced: bool)

  datatype Completions = Completions(
    outcome: seq<bool>,      // per completed batch: acknowledged Ok?
    callback: Callback,
    fenced: bool)

  datatype Store = Store(
    live: set<nat>,          // uploaded batches not yet handed to deletion
    puts: map<nat, Obj>,     // every object that ever reached the store
    doomed: set<nat>,        // handed to deletion
    deleted: set<nat>)       // gone from the store
  {
    predicate Holds(i: nat) { i in puts && i !in deleted }
  }

  /** One `trim` call; `bulk` is the batch that carries its sentinel record. */
  datatype TrimPhase = Registered | Appended(bulk: nat) | Collected(bulk: nat) | Returned(bulk: nat)
                     | Following | Followed
  {
    predicate HasBulk() { Appended? || Collected? || Returned? }
    predicate Confirmed() { Collected? || Returned? }
    predicate Finished() { Returned? || Followed? }
  }
  datatype TrimCall = TrimCall(offset: int, phase: TrimPhase)

  datatype Trims = Trims(trim: int, calls: seq<TrimCall>, completed: int)

  /** The lease object. `displacedAt` is what was stored when another owner first acquired. */
  datatype Lease = Lease(me: nat, holder: nat, displacedAt: Option<set<nat>>)

  /** `passed` counts the calls that have passed the status check and not yet taken the lock; a
      fence may come in between. */
  datatype State = State(up: Uploads, done: Completions, st: Store, tr: Trims, ls: Lease, passed: nat)

  function Init(me: nat, start: nat): State {
    State(Uploads(start, [], [], None, 0, 0), Completions([], Idle, false), Store({}, map[], {}, {}),
          Trims(-1, [], -1), Lease(me, me, None), 0)
  }

  datatype Action =
    | PassCheck
    | Submit(record: Record, sealAfter: bool)
    | Seal
    | Launch(count: nat)
    | Build(i: nat)
    | Send(i: nat)
    | Finish(i: nat)
    | Fail(i: nat)
    | Pop(count: nat)
    | Verify(readFailed: bool)
    | LoadFenced
    | Complete
    | RegisterTrim(offset: int)
    | AppendSentinel(call: nat, sealAfter: bool)
    | Collect(call: nat)
    | ReturnTrim(call: nat)
    | ReturnFollower(call: nat)
    | Delete(i: nat)
    | Acquire(owner: nat)

  // ---- Batches -----------------------------------------------------------------------------

  function SealActive(u: Uploads): Uploads {
    if u.active.None? then u
    else u.(log := u.log + [u.active.value], phase := u.phase + [Waiting], active := None)
  }

  /** Room is made first when the record does not fit the accumulating batch. */
  function MakeRoom(u: Uploads, r: Record): Uploads {
    if u.active.Some? && FramedSum(u.active.value.records) + r.FramedSize() > ALIGN
    then SealActive(u) else u
  }

  function Push(u: Uploads, r: Record): Uploads {
    var b := if u.active.Some? then u.active.value else Bulk(u.NextOffset(), []);
    u.(active := Some(b.(records := b.records + [r])))
  }

  function Place(u: Uploads, r: Record, sealAfter: bool): Uploads {
    var u1 := Push(MakeRoom(u, r), r);
    if sealAfter then SealActive(u1) else u1
  }

  function LaunchPhases(u: Uploads, n: nat): seq<Phase> {
    seq(|u.phase|, i requires 0 <= i < |u.phase| =>
      if u.launched <= i < u.launched + n then Spawned else u.phase[i])
  }

  function SetPhase(u: Uploads, i: nat, p: Phase): Uploads
    requires i < |u.phase|
  {
    u.(phase := u.phase[i := p])
  }

  function StoredObj(b: Bulk, trim: int): Obj { Obj(b.base, trim, b.Entries()) }

  // ---- Confirmation and trimming -------------------------------------------------------------

  function CountOk(outcome: seq<bool>): nat {
    if outcome == [] then 0
    else CountOk(outcome[..|outcome| - 1]) + if outcome[|outcome| - 1] then 1 else 0
  }

  /** The published confirm point: the end of the confirmed batches. */
  function ConfirmOffset(s: State): nat { s.up.start + ALIGN * CountOk(s.done.outcome) }

  /** What a confirmed trim may delete: covered uploads, but never the newest one. */
  function Covered(u: Uploads, st: Store, offset: int): set<nat> {
    set i | i in st.live && i < |u.log| && u.log[i].LastEntryOffset() <= offset
            && exists j :: j in st.live && i < j
  }

  function SetCall(t: Trims, c: nat, phase: TrimPhase): Trims
    requires c < |t.calls|
  {
    t.(calls := t.calls[c := t.calls[c].(phase := phase)])
  }

  function Max(a: int, b: int): int { if a > b then a else b }

  // ---- Steps -------------------------------------------------------------------------------

  predicate Enabled(s: State, a: Action) {
    match a
    case PassCheck => !s.done.fenced
    case Submit(r, _) =>
      s.passed > 0 && s.tr.trim >= s.up.start - 1 && r.FramedSize() <= ALIGN && r.IsUser()
    case Seal => true
    case Launch(n) => s.up.launched + n <= |s.up.log|
    case Build(i) => i < |s.up.phase| && s.up.phase[i].Spawned?
    case Send(i) => i < |s.up.phase| && i < |s.up.log| && s.up.phase[i].Built?
    case Finish(i) => i < |s.up.phase| && s.up.phase[i].Sent?
    case Fail(i) => i < |s.up.phase| && (s.up.phase[i].Built? || s.up.phase[i].Sent?)
    case Pop(n) =>
      && s.done.callback.Idle? && n > 0 && s.up.popped + n <= |s.up.phase|
      && forall i :: s.up.popped <= i < s.up.popped + n ==> s.up.phase[i].Done()
    case Verify(_) => s.done.callback.Popped?
    case LoadFenced => s.done.callback.Verified?
    case Complete => s.done.callback.Checked? && |s.done.outcome| < s.up.popped
    case RegisterTrim(o) => s.passed > 0 && s.up.start - 1 <= o < ConfirmOffset(s)
    case AppendSentinel(c, _) => c < |s.tr.calls| && s.tr.calls[c].phase.Registered? && s.passed > 0
    case Collect(c) =>
      && c < |s.tr.calls| && s.tr.calls[c].phase.Appended?
      && s.tr.calls[c].phase.bulk < |s.done.outcome| && s.done.outcome[s.tr.calls[c].phase.bulk]
    case ReturnTrim(c) => c < |s.tr.calls| && s.tr.calls[c].phase.Collected?
    case ReturnFollower(c) =>
      c < |s.tr.calls| && s.tr.calls[c].phase.Following? && s.tr.calls[c].offset <= s.tr.completed
    case Delete(i) => i in s.st.doomed
    case Acquire(owner) => owner != s.ls.me
  }

  function DoSend(s: State, i: nat): State
    requires Enabled(s, Send(i))
  {
    var t := s.up.phase[i].trim;
    s.(up := SetPhase(s.up, i, Sent(t)), st := s.st.(puts := s.st.puts[i := StoredObj(s.up.log[i], t)]))
  }

  function DoFinish(s: State, i: nat): State
    requires Enabled(s, Finish(i))
  {
    s.(up := SetPhase(s.up, i, DoneOk(s.up.phase[i].trim)), st := s.st.(live := s.st.live + {i}))
  }

  function DoVerify(s: State, readFailed: bool): State {
    var ok := !readFailed && s.ls.holder == s.ls.me;
    s.(done := s.done.(callback := Verified(ok), fenced := s.done.fenced || !ok))
  }

  function DoComplete(s: State): State
    requires Enabled(s, Complete)
  {
    var outcome := s.done.outcome + [!s.done.callback.fenced];
    s.(done := s.done.(outcome := outcome,
                       callback := if |outcome| == s.up.popped then Idle else s.done.callback))
  }

  function DoRegisterTrim(s: State, o: int): State {
    if s.tr.trim >= o then s.(tr := s.tr.(calls := s.tr.calls + [TrimCall(o, Following)]))
    else s.(tr := s.tr.(trim := o, calls := s.tr.calls + [TrimCall(o, Registered)]))
  }

  function DoAppendSentinel(s: State, c: nat, sealAfter: bool): State
    requires Enabled(s, AppendSentinel(c, sealAfter))
  {
    s.(up := Place(s.up, SENTINEL, sealAfter),
       tr := SetCall(s.tr, c, Appended(|MakeRoom(s.up, SENTINEL).log|)))
  }

  function DoCollect(s: State, c: nat): State
    requires Enabled(s, Collect(c))
  {
    var gone := Covered(s.up, s.st, s.tr.calls[c].offset);
    s.(st := s.st.(live := s.st.live - gone, doomed := s.st.doomed + gone),
       tr := SetCall(s.tr, c, Collected(s.tr.calls[c].phase.bulk)))
  }

  function DoReturnTrim(s: State, c: nat): State
    requires Enabled(s, ReturnTrim(c))
  {
    s.(tr := SetCall(s.tr, c, Returned(s.tr.calls[c].phase.bulk))
             .(completed := Max(s.tr.completed, s.tr.calls[c].offset)))
  }

  function DoAcquire(s: State, owner: nat): State {
    s.(ls := s.ls.(holder := owner,
                   displacedAt := if s.ls.displacedAt.None? then Some(s.st.puts.Keys) else s.ls.displacedAt))
  }

  function Apply(s: State, a: Action): State
    requires Enabled(s, a)
  {
    match a
    case PassCheck => s.(passed := s.passed + 1)
    case Submit(r, sealAfter) => s.(up := Place(s.up, r, sealAfter), passed := s.passed - 1)
    case Seal => s.(up := SealActive(s.up))
    case Launch(n) => s.(up := s.up.(launched := s.up.launched + n, phase := LaunchPhases(s.up, n)))
    case Build(i) => s.(up := SetPhase(s.up, i, Built(s.tr.trim)))
    case Send(i) => DoSend(s, i)
    case Finish(i) => DoFinish(s, i)
    case Fail(i) => s.(up := SetPhase(s.up, i, DoneErr), done := s.done.(fenced := true))
    case Pop(n) => s.(up := s.up.(popped := s.up.popped + n), done := s.done.(callback := Popped))
    case Verify(readFailed) => DoVerify(s, readFailed)
    case LoadFenced => s.(done := s.done.(callback := Checked(s.done.fenced)))
    case Complete => DoComplete(s)
    case RegisterTrim(o) => DoRegisterTrim(s, o).(passed := s.passed - 1)
    case AppendSentinel(c, sealAfter) => DoAppendSentinel(s, c, sealAfter).(passed := s.passed - 1)
    case Collect(c) => DoCollect(s, c)
    case ReturnTrim(c) => DoReturnTrim(s, c)
    case ReturnFollower(c) => s.(tr := SetCall(s.tr, c, Followed))
    case Delete(i) => s.(st := s.st.(deleted := s.st.deleted + {i}))
    case Acquire(owner) => DoAcquire(s, owner)
  }

  // ---- Runs --------------------------------------------------------------------------------

  ghost predicate Step(s: State, s': State) {
    exists a :: Enabled(s, a) && Apply(s, a) == s'
  }

  /** A finite run of the log from a fresh writer. */
  ghost predicate IsRun(run: seq<State>) {
    && run != []
    && run[0].up.start % ALIGN == 0
    && run[0] == Init(run[0].ls.me, run[0].up.start)
    && forall i :: 0 < i < |run| ==> Step(run[i - 1], run[i])
  }
}
