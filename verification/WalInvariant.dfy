/** The inductive invariant of the log protocol and its preservation by every step. */
module WalInvariant {
  import opened Records
  import opened WalLayout
  import opened WalProtocol

  /** Queues are slices of the log: completed, popped, launched, sealed. */
  ghost predicate Shape(u: Uploads, d: Completions) {
    && |u.phase| == |u.log|
    && |d.outcome| <= u.popped <= u.launched <= |u.log|
    && (forall i :: 0 <= i < |u.log| ==> (u.phase[i].Waiting? <==> u.launched <= i))
    && (forall i :: 0 <= i < u.popped ==> u.phase[i].Done())
    && (d.callback.Idle? <==> |d.outcome| == u.popped)
  }

  /** Sealed batches are non-empty and tile the address space in aligned windows. */
  ghost predicate Tiled(u: Uploads) {
    && u.start % ALIGN == 0
    && (forall i :: 0 <= i < |u.log| ==> u.log[i].Ok() && u.log[i].base == u.start + ALIGN * i)
    && (u.active.Some? ==> u.active.value.Ok() && u.active.value.base == u.NextOffset())
  }

  /** A failure fences the writer, and an Ok acknowledgement comes after Ok uploads only. */
  ghost predicate Fencing(u: Uploads, d: Completions)
    requires Shape(u, d)
  {
    && (forall i :: 0 <= i < |u.log| && u.phase[i].DoneErr? ==> d.fenced)
    && (forall i :: 0 <= i < |d.outcome| && !d.outcome[i] ==> d.fenced)
    && (forall i :: 0 <= i < |d.outcome| && d.outcome[i] ==> u.phase[i].DoneOk?)
    && (forall i, j :: 0 <= j < i < |d.outcome| && d.outcome[i] ==> d.outcome[j])
    && (d.callback == Verified(false) || d.callback == Checked(true) ==> d.fenced)
    && (d.callback == Checked(false) ==>
          && (forall i :: 0 <= i < |d.outcome| ==> d.outcome[i])
          && (forall i :: 0 <= i < u.popped ==> u.phase[i].DoneOk?))
  }

  ghost predicate Storage(u: Uploads, st: Store) {
    && |u.phase| == |u.log|
    && (forall i :: i in st.puts ==> 0 <= i < |u.log| && st.puts[i] == StoredObj(u.log[i], st.puts[i].trim))
    && (forall i :: 0 <= i < |u.log| && (u.phase[i].Sent? || u.phase[i].DoneOk?) ==>
          i in st.puts && st.puts[i].trim == u.phase[i].trim)
    && (forall i :: 0 <= i < |u.log| && (u.phase[i].Waiting? || u.phase[i].Spawned? || u.phase[i].Built?) ==>
          i !in st.puts)
    && st.live !! st.doomed
    && st.deleted <= st.doomed
    && (forall i :: i in st.live ==> 0 <= i < |u.log| && u.phase[i].DoneOk?)
    && (forall i :: i in st.doomed ==> 0 <= i < |u.log| && u.phase[i].DoneOk?)
    && (forall i :: 0 <= i < |u.log| && u.phase[i].DoneOk? ==> i in st.live || i in st.doomed)
  }

  /** Whatever may be acknowledged was stored before another owner took the lease. */
  ghost predicate Leased(u: Uploads, d: Completions, st: Store, ls: Lease)
    requires Shape(u, d)
  {
    && (ls.displacedAt.None? <==> ls.holder == ls.me)
    && (ls.displacedAt.Some? ==>
          && ls.displacedAt.value <= st.puts.Keys
          && (forall i :: 0 <= i < |d.outcome| && d.outcome[i] ==> i in ls.displacedAt.value)
          && (d.callback == Verified(true) || d.callback == Checked(false) ==>
                forall i :: |d.outcome| <= i < u.popped && u.phase[i].DoneOk? ==> i in ls.displacedAt.value))
  }

  predicate Requested(t: Trims, o: int) {
    o == -1 || exists c :: 0 <= c < |t.calls| && t.calls[c].offset == o
  }

  predicate HeaderOk(u: Uploads, t: Trims, o: int) {
    u.start - 1 <= o <= t.trim && Requested(t, o)
  }

  /** Header trims lie between the writer's start and the current trim, and were requested. */
  ghost predicate Headers(u: Uploads, st: Store, t: Trims) {
    && (t.trim >= u.start - 1 || (u.log == [] && u.active.None?))
    && -1 <= t.trim
    && Requested(t, t.trim)
    && |u.phase| == |u.log|
    && (forall i :: 0 <= i < |u.log| && u.phase[i].HasTrim() ==> HeaderOk(u, t, u.phase[i].trim))
    && (forall i :: i in st.puts ==> HeaderOk(u, t, st.puts[i].trim))
  }

  /** Every batch from a trim call's sentinel on carries at least that trim. */
  ghost predicate Carried(u: Uploads, st: Store, offset: int, bulk: nat) {
    && |u.phase| == |u.log|
    && bulk <= |u.log|
    && (bulk == |u.log| ==> u.active.Some?)
    && offset < u.start + ALIGN * bulk
    && (forall i :: bulk <= i < |u.log| && u.phase[i].HasTrim() ==> offset <= u.phase[i].trim)
    && (forall i :: i in st.puts && bulk <= i ==> offset <= st.puts[i].trim)
  }

  ghost predicate CallOk(u: Uploads, d: Completions, st: Store, t: Trims, c: TrimCall) {
    && u.start - 1 <= c.offset <= t.trim
    && (c.phase.HasBulk() ==> Carried(u, st, c.offset, c.phase.bulk))
    && (c.phase.Confirmed() ==> c.phase.bulk < |d.outcome| && d.outcome[c.phase.bulk])
    && (c.phase.Finished() ==> c.offset <= t.completed)
  }

  ghost predicate Calls(u: Uploads, d: Completions, st: Store, t: Trims) {
    && t.trim < u.start + ALIGN * CountOk(d.outcome)
    && (forall c :: 0 <= c < |t.calls| ==> CallOk(u, d, st, t, t.calls[c]))
    && (t.completed == -1 ||
        exists c :: 0 <= c < |t.calls| && t.calls[c].phase.Returned? && t.calls[c].offset == t.completed)
  }

  /** Trim call `c` is confirmed and covers every record of batch `i`. */
  predicate CoveredBy(u: Uploads, t: Trims, i: nat, c: nat) {
    && i < |u.log| && c < |t.calls| && t.calls[c].phase.Confirmed()
    && u.log[i].LastEntryOffset() <= t.calls[c].offset
  }

  /** Deletion is always backed by a confirmed trim, and never takes the newest object. */
  ghost predicate Deletions(u: Uploads, st: Store, t: Trims) {
    && (forall i :: i in st.doomed ==> exists c :: CoveredBy(u, t, i, c))
    && (forall i :: i in st.doomed ==> exists j :: j in st.live && i < j)
  }

  ghost predicate Inv(s: State) {
    && Shape(s.up, s.done) && Tiled(s.up) && Fencing(s.up, s.done) && Storage(s.up, s.st)
    && Leased(s.up, s.done, s.st, s.ls) && Headers(s.up, s.st, s.tr)
    && Calls(s.up, s.done, s.st, s.tr) && Deletions(s.up, s.st, s.tr)
  }

  // ---- Counting ------------------------------------------------------------------------------

  lemma {:induction false} CountOkBound(outcome: seq<bool>)
    ensures CountOk(outcome) <= |outcome|
    ensures (forall i :: 0 <= i < |outcome| ==> outcome[i]) ==> CountOk(outcome) == |outcome|
  {
    if outcome != [] {
      CountOkBound(outcome[..|outcome| - 1]);
    }
  }

  /** Ok outcomes form a prefix, whose length is their count. */
  lemma {:induction false} CountOkPrefix(outcome: seq<bool>)
    requires forall i, j :: 0 <= j < i < |outcome| && outcome[i] ==> outcome[j]
    ensures forall i :: 0 <= i < |outcome| ==> (outcome[i] <==> i < CountOk(outcome))
  {
    CountOkBound(outcome);
    if outcome != [] {
      var init := outcome[..|outcome| - 1];
      CountOkPrefix(init);
      CountOkBound(init);
      if outcome[|outcome| - 1] {
        assert forall i :: 0 <= i < |init| ==> init[i];
      }
    }
  }

  // ---- How the batches may change ------------------------------------------------------------

  /** Sealed batches are never rewritten, finished ones never change phase, and a header trim
      is either the old one or the current trim point. */
  ghost predicate Evolves(u: Uploads, u': Uploads, trim: int) {
    && u'.start == u.start && |u.phase| == |u.log| && |u'.phase| == |u'.log| && |u.log| <= |u'.log|
    && (forall i :: 0 <= i < |u.log| ==> u'.log[i] == u.log[i])
    && (forall i :: 0 <= i < |u.log| && u.phase[i].Done() ==> u'.phase[i] == u.phase[i])
    && (forall i :: 0 <= i < |u.log| && u'.phase[i].HasTrim() ==>
          u'.phase[i].trim == if u.phase[i].HasTrim() then u.phase[i].trim else trim)
    && (forall i :: |u.log| <= i < |u'.log| ==> u'.phase[i].Waiting?)
    && (|u'.log| == |u.log| && u.active.Some? ==> u'.active.Some?)
  }

  lemma CarriedFrame(u: Uploads, u': Uploads, st: Store, t: Trims, c: TrimCall)
    requires Evolves(u, u', t.trim) && c.offset <= t.trim && c.phase.HasBulk()
    requires Carried(u, st, c.offset, c.phase.bulk)
    ensures Carried(u', st, c.offset, c.phase.bulk)
  {
  }

  lemma CallsFrame(u: Uploads, u': Uploads, d: Completions, st: Store, t: Trims)
    requires Evolves(u, u', t.trim) && Calls(u, d, st, t)
    ensures Calls(u', d, st, t)
  {
    forall c | 0 <= c < |t.calls| ensures CallOk(u', d, st, t, t.calls[c]) {
      assert CallOk(u, d, st, t, t.calls[c]);
      if t.calls[c].phase.HasBulk() {
        CarriedFrame(u, u', st, t, t.calls[c]);
      }
    }
  }

  lemma DeletionsFrame(u: Uploads, u': Uploads, st: Store, t: Trims)
    requires Evolves(u, u', t.trim) && Deletions(u, st, t)
    ensures Deletions(u', st, t)
  {
    forall i | i in st.doomed ensures exists c :: CoveredBy(u', t, i, c) {
      var c :| CoveredBy(u, t, i, c);
      assert CoveredBy(u', t, i, c);
    }
  }

  lemma HeadersFrame(u: Uploads, u': Uploads, st: Store, t: Trims)
    requires Evolves(u, u', t.trim) && Headers(u, st, t)
    requires t.trim >= u.start - 1 || (u'.log == [] && u'.active.None?)
    ensures Headers(u', st, t)
  {
    forall i | 0 <= i < |u'.log| && u'.phase[i].HasTrim() ensures HeaderOk(u', t, u'.phase[i].trim) {
      assert i < |u.log|;
      if u.phase[i].HasTrim() {
        assert HeaderOk(u, t, u.phase[i].trim);
      }
    }
    forall i | i in st.puts ensures HeaderOk(u', t, st.puts[i].trim) {
      assert HeaderOk(u, t, st.puts[i].trim);
    }
  }

  lemma LeasedFrame(u: Uploads, u': Uploads, d: Completions, st: Store, t: Trims, ls: Lease)
    requires Evolves(u, u', t.trim) && Shape(u, d) && Shape(u', d) && u'.popped == u.popped
    requires Leased(u, d, st, ls)
    ensures Leased(u', d, st, ls)
  {
  }

  lemma FencingFrame(u: Uploads, u': Uploads, d: Completions, t: Trims)
    requires Evolves(u, u', t.trim) && Shape(u, d) && Shape(u', d) && u'.popped == u.popped
    requires Fencing(u, d)
    requires d.fenced || forall i :: 0 <= i < |u'.log| ==> !u'.phase[i].DoneErr? || (i < |u.log| && u.phase[i].DoneErr?)
    ensures Fencing(u', d)
  {
  }

  /** A change of the batches alone, with no batch sent or finished by it. */
  lemma QuietStep(s: State, u': Uploads)
    requires Inv(s) && Evolves(s.up, u', s.tr.trim) && u'.popped == s.up.popped
    requires Shape(u', s.done) && Tiled(u')
    requires s.tr.trim >= s.up.start - 1 || (u'.log == [] && u'.active.None?)
    requires forall i :: 0 <= i < |u'.log| ==>
               (i < |s.up.log| && u'.phase[i] == s.up.phase[i])
               || u'.phase[i].Waiting? || u'.phase[i].Spawned? || u'.phase[i].Built?
    requires forall i :: 0 <= i < |s.up.log| && u'.phase[i] != s.up.phase[i] ==> i !in s.st.puts
    ensures Inv(s.(up := u'))
  {
    hide Shape, Tiled, Fencing, Storage, Leased, Headers, Calls, Deletions, Evolves;
    CallsFrame(s.up, u', s.done, s.st, s.tr);
    DeletionsFrame(s.up, u', s.st, s.tr);
    HeadersFrame(s.up, u', s.st, s.tr);
    LeasedFrame(s.up, u', s.done, s.st, s.tr, s.ls);
    FencingFrame(s.up, u', s.done, s.tr);
    QuietStorage(s.up, u', s.st, s.tr);
  }

  lemma QuietStorage(u: Uploads, u': Uploads, st: Store, t: Trims)
    requires Evolves(u, u', t.trim) && Storage(u, st)
    requires forall i :: 0 <= i < |u'.log| ==>
               (i < |u.log| && u'.phase[i] == u.phase[i])
               || u'.phase[i].Waiting? || u'.phase[i].Spawned? || u'.phase[i].Built?
    requires forall i :: 0 <= i < |u.log| && u'.phase[i] != u.phase[i] ==> i !in st.puts
    ensures Storage(u', st)
  {
  }

  // ---- Sealing and placing -------------------------------------------------------------------

  lemma FramedSumPush(records: seq<Record>, r: Record)
    ensures FramedSum(records + [r]) == FramedSum(records) + r.FramedSize()
  {
    assert (records + [r])[..|records|] == records;
  }

  lemma SealEvolves(u: Uploads, d: Completions, trim: int)
    requires Shape(u, d) && Tiled(u)
    ensures var u' := SealActive(u);
            && Evolves(u, u', trim) && Shape(u', d) && Tiled(u')
            && (forall i :: 0 <= i < |u'.log| ==> (i < |u.log| && u'.phase[i] == u.phase[i]) || u'.phase[i].Waiting?)
            && (u.active.None? ==> u' == u) && (u'.log == [] ==> u.log == [])
  {
  }

  lemma ActiveTrim(u: Uploads, st: Store, t: Trims)
    requires Headers(u, st, t)
    ensures t.trim >= u.start - 1 || (u.log == [] && u.active.None?)
  {
  }

  lemma SealKeeps(s: State)
    requires Inv(s)
    ensures Inv(s.(up := SealActive(s.up)))
  {
    hide Shape, Tiled, Fencing, Storage, Leased, Headers, Calls, Deletions, Evolves;
    SealEvolves(s.up, s.done, s.tr.trim);
    ActiveTrim(s.up, s.st, s.tr);
    QuietStep(s, SealActive(s.up));
  }

  lemma PushTiled(u: Uploads, r: Record)
    requires Tiled(u) && r.FramedSize() <= ALIGN
    requires u.active.Some? ==> FramedSum(u.active.value.records) + r.FramedSize() <= ALIGN
    ensures Tiled(Push(u, r))
  {
    FramedSumPush(if u.active.Some? then u.active.value.records else [], r);
  }

  /** Nothing but the accumulating batch differs. */
  lemma ActiveStep(s: State, active: Option<Bulk>)
    requires Inv(s) && s.tr.trim >= s.up.start - 1 && active.Some?
    requires Tiled(s.up.(active := active))
    ensures Inv(s.(up := s.up.(active := active)))
  {
    hide Fencing, Storage, Leased, Headers, Calls, Deletions;
    QuietStep(s, s.up.(active := active));
  }

  lemma PushKeeps(s: State, r: Record)
    requires Inv(s) && s.tr.trim >= s.up.start - 1 && r.FramedSize() <= ALIGN
    requires s.up.active.Some? ==> FramedSum(s.up.active.value.records) + r.FramedSize() <= ALIGN
    ensures Inv(s.(up := Push(s.up, r)))
  {
    hide Shape, Tiled, Fencing, Storage, Leased, Headers, Calls, Deletions;
    PushTiled(s.up, r);
    ActiveStep(s, Push(s.up, r).active);
  }

  lemma PlaceKeeps(s: State, r: Record, sealAfter: bool)
    requires Inv(s) && s.tr.trim >= s.up.start - 1 && r.FramedSize() <= ALIGN
    ensures Inv(s.(up := Place(s.up, r, sealAfter)))
  {
    hide Shape, Tiled, Fencing, Storage, Leased, Headers, Calls, Deletions;
    SealKeeps(s);
    var s1 := s.(up := MakeRoom(s.up, r));
    PushKeeps(s1, r);
    SealKeeps(s1.(up := Push(s1.up, r)));
  }

  // ---- Uploading -----------------------------------------------------------------------------

  lemma LaunchEvolves(u: Uploads, d: Completions, st: Store, n: nat, trim: int)
    requires Shape(u, d) && Storage(u, st) && u.launched + n <= |u.log|
    ensures var u' := u.(launched := u.launched + n, phase := LaunchPhases(u, n));
            && Evolves(u, u', trim) && Shape(u', d) && (Tiled(u) ==> Tiled(u'))
            && |u'.log| == |u.log| && (u.launched < u'.launched ==> u.log != [])
            && (forall i :: 0 <= i < |u.log| ==> u'.phase[i] == u.phase[i] || u'.phase[i].Spawned?)
            && (forall i :: 0 <= i < |u.log| && u'.phase[i] != u.phase[i] ==> i !in st.puts)
  {
    assert forall i :: u.launched <= i < |u.log| ==> u.phase[i].Waiting?;
  }

  lemma LaunchKeeps(s: State, n: nat)
    requires Inv(s) && s.up.launched + n <= |s.up.log|
    ensures Inv(s.(up := s.up.(launched := s.up.launched + n, phase := LaunchPhases(s.up, n))))
  {
    hide Shape, Tiled, Fencing, Storage, Leased, Headers, Calls, Deletions, Evolves;
    LaunchEvolves(s.up, s.done, s.st, n, s.tr.trim);
    ActiveTrim(s.up, s.st, s.tr);
    QuietStep(s, s.up.(launched := s.up.launched + n, phase := LaunchPhases(s.up, n)));
  }

  /** One unfinished, launched batch moves on. */
  lemma SetPhaseEvolves(u: Uploads, d: Completions, i: nat, p: Phase, trim: int)
    requires Shape(u, d) && i < |u.log| && !u.phase[i].Waiting? && !u.phase[i].Done() && !p.Waiting?
    requires p.HasTrim() ==> p.trim == if u.phase[i].HasTrim() then u.phase[i].trim else trim
    ensures Evolves(u, SetPhase(u, i, p), trim) && Shape(SetPhase(u, i, p), d)
  {
  }

  lemma SetPhaseTiled(u: Uploads, i: nat, p: Phase)
    requires Tiled(u) && i < |u.phase|
    ensures Tiled(SetPhase(u, i, p))
  {
  }

  lemma BuiltStorage(u: Uploads, st: Store, i: nat, trim: int)
    requires Storage(u, st) && i < |u.log| && u.phase[i].Spawned?
    ensures Storage(SetPhase(u, i, Built(trim)), st)
  {
  }

  /** The components that do not look at phases closely, for one batch moving on. */
  lemma SetPhaseCommon(s: State, i: nat, p: Phase)
    requires Inv(s) && i < |s.up.log| && !s.up.phase[i].Waiting? && !s.up.phase[i].Done() && !p.Waiting?
    requires p.HasTrim() ==> p.trim == if s.up.phase[i].HasTrim() then s.up.phase[i].trim else s.tr.trim
    ensures var u' := SetPhase(s.up, i, p);
            && Shape(u', s.done) && Tiled(u') && Leased(u', s.done, s.st, s.ls)
            && Headers(u', s.st, s.tr) && Calls(u', s.done, s.st, s.tr) && Deletions(u', s.st, s.tr)
  {
    hide Tiled, Fencing, Storage, Leased, Calls, Deletions, Evolves;
    var u' := SetPhase(s.up, i, p);
    SetPhaseEvolves(s.up, s.done, i, p, s.tr.trim);
    SetPhaseTiled(s.up, i, p);
    CallsFrame(s.up, u', s.done, s.st, s.tr);
    DeletionsFrame(s.up, u', s.st, s.tr);
    HeadersFrame(s.up, u', s.st, s.tr);
    LeasedFrame(s.up, u', s.done, s.st, s.tr, s.ls);
  }

  lemma SetPhaseFencing(u: Uploads, d: Completions, i: nat, p: Phase)
    requires Shape(u, d) && Fencing(u, d) && i < |u.log| && !u.phase[i].Waiting? && !u.phase[i].Done()
    requires !p.Waiting? && (p.DoneErr? ==> d.fenced)
    ensures Shape(SetPhase(u, i, p), d) && Fencing(SetPhase(u, i, p), d)
  {
  }

  lemma BuildKeeps(s: State, i: nat)
    requires Inv(s) && i < |s.up.log| && s.up.phase[i].Spawned?
    ensures Inv(s.(up := SetPhase(s.up, i, Built(s.tr.trim))))
  {
    hide Shape, Tiled, Fencing, Storage, Leased, Headers, Calls, Deletions;
    SetPhaseCommon(s, i, Built(s.tr.trim));
    SetPhaseFencing(s.up, s.done, i, Built(s.tr.trim));
    BuiltStorage(s.up, s.st, i, s.tr.trim);
  }

  /** Adding an object whose header trim is its batch's. */
  lemma PutTrims(u: Uploads, d: Completions, st: Store, t: Trims, i: nat, o: Obj)
    requires Headers(u, st, t) && Calls(u, d, st, t) && i < |u.log| && u.phase[i].HasTrim()
    requires o.trim == u.phase[i].trim
    ensures Headers(u, st.(puts := st.puts[i := o]), t) && Calls(u, d, st.(puts := st.puts[i := o]), t)
  {
    var st' := st.(puts := st.puts[i := o]);
    forall c | 0 <= c < |t.calls| ensures CallOk(u, d, st', t, t.calls[c]) {
      assert CallOk(u, d, st, t, t.calls[c]);
    }
  }

  lemma SentStorage(u: Uploads, st: Store, i: nat)
    requires Storage(u, st) && i < |u.log| && u.phase[i].Built?
    ensures var t := u.phase[i].trim;
            Storage(SetPhase(u, i, Sent(t)), st.(puts := st.puts[i := StoredObj(u.log[i], t)]))
  {
  }

  lemma PutLeased(u: Uploads, d: Completions, st: Store, ls: Lease, i: nat, o: Obj)
    requires Shape(u, d) && Leased(u, d, st, ls)
    ensures Leased(u, d, st.(puts := st.puts[i := o]), ls)
  {
  }

  lemma SendKeeps(s: State, i: nat)
    requires Inv(s) && i < |s.up.log| && s.up.phase[i].Built? && Enabled(s, Send(i))
    ensures Inv(DoSend(s, i))
  {
    hide Shape, Tiled, Fencing, Storage, Leased, Headers, Calls;
    var t := s.up.phase[i].trim;
    var o := StoredObj(s.up.log[i], t);
    SetPhaseCommon(s, i, Sent(t));
    SetPhaseFencing(s.up, s.done, i, Sent(t));
    SentStorage(s.up, s.st, i);
    PutTrims(SetPhase(s.up, i, Sent(t)), s.done, s.st, s.tr, i, o);
    PutLeased(SetPhase(s.up, i, Sent(t)), s.done, s.st, s.ls, i, o);
  }

  lemma FinishedStorage(u: Uploads, st: Store, i: nat)
    requires Storage(u, st) && i < |u.log| && u.phase[i].Sent?
    ensures Storage(SetPhase(u, i, DoneOk(u.phase[i].trim)), st.(live := st.live + {i}))
  {
    hide StoredObj;
  }

  lemma LiveDeletions(u: Uploads, st: Store, t: Trims, i: nat)
    requires Deletions(u, st, t)
    ensures Deletions(u, st.(live := st.live + {i}), t)
  {
    forall k | k in st.doomed ensures exists j :: j in st.live + {i} && k < j {
      var j :| j in st.live && k < j;
      assert j in st.live + {i};
    }
  }

  lemma FinishKeeps(s: State, i: nat)
    requires Inv(s) && i < |s.up.log| && s.up.phase[i].Sent? && Enabled(s, Finish(i))
    ensures Inv(DoFinish(s, i))
  {
    hide Shape, Tiled, Fencing, Storage, Calls, Deletions;
    var p := DoneOk(s.up.phase[i].trim);
    SetPhaseCommon(s, i, p);
    SetPhaseFencing(s.up, s.done, i, p);
    FinishedStorage(s.up, s.st, i);
    LiveDeletions(SetPhase(s.up, i, p), s.st, s.tr, i);
    var u', st' := SetPhase(s.up, i, p), s.st.(live := s.st.live + {i});
    assert Leased(u', s.done, st', s.ls) && Headers(u', st', s.tr);
    LiveCalls(u', s.done, s.st, s.tr, st');
  }

  lemma LiveCalls(u: Uploads, d: Completions, st: Store, t: Trims, st': Store)
    requires Calls(u, d, st, t) && st'.puts == st.puts
    ensures Calls(u, d, st', t)
  {
    forall c | 0 <= c < |t.calls| ensures CallOk(u, d, st', t, t.calls[c]) {
      assert CallOk(u, d, st, t, t.calls[c]);
    }
  }

  lemma FailedStorage(u: Uploads, st: Store, i: nat)
    requires Storage(u, st) && i < |u.log| && (u.phase[i].Built? || u.phase[i].Sent?)
    ensures Storage(SetPhase(u, i, DoneErr), st)
  {
  }

  lemma FenceFencing(u: Uploads, d: Completions)
    requires Shape(u, d) && Fencing(u, d)
    ensures Shape(u, d.(fenced := true)) && Fencing(u, d.(fenced := true))
  {
  }

  lemma FailKeeps(s: State, i: nat)
    requires Inv(s) && i < |s.up.log| && (s.up.phase[i].Built? || s.up.phase[i].Sent?)
    ensures Inv(s.(up := SetPhase(s.up, i, DoneErr), done := s.done.(fenced := true)))
  {
    hide Tiled, Fencing, Storage, Headers, Deletions;
    var u', d' := SetPhase(s.up, i, DoneErr), s.done.(fenced := true);
    SetPhaseCommon(s, i, DoneErr);
    FenceFencing(s.up, s.done);
    SetPhaseFencing(s.up, d', i, DoneErr);
    FailedStorage(s.up, s.st, i);
    assert Leased(u', d', s.st, s.ls);
    assert Calls(u', d', s.st, s.tr);
  }

  // ---- Completing ----------------------------------------------------------------------------

  lemma PopCore(u: Uploads, d: Completions, n: nat, trim: int)
    requires Shape(u, d) && Fencing(u, d) && d.callback.Idle? && n > 0 && u.popped + n <= |u.phase|
    requires forall i :: u.popped <= i < u.popped + n ==> u.phase[i].Done()
    ensures var u', d' := u.(popped := u.popped + n), d.(callback := Popped);
            Shape(u', d') && Fencing(u', d') && Evolves(u, u', trim) && u.log != []
  {
    assert u.phase[u.popped + n - 1].Done();
  }

  lemma PopLeased(u: Uploads, d: Completions, st: Store, ls: Lease, u': Uploads)
    requires Shape(u, d) && Leased(u, d, st, ls) && Shape(u', d.(callback := Popped))
    ensures Leased(u', d.(callback := Popped), st, ls)
  {
  }

  lemma StartedTrim(u: Uploads, st: Store, t: Trims)
    requires Headers(u, st, t) && u.log != []
    ensures t.trim >= u.start - 1
  {
  }

  lemma PopStorage(u: Uploads, st: Store, n: nat)
    requires Storage(u, st) && Tiled(u)
    ensures Storage(u.(popped := n), st) && Tiled(u.(popped := n))
  {
  }

  lemma PopKeeps(s: State, n: nat)
    requires Inv(s) && s.done.callback.Idle? && n > 0 && s.up.popped + n <= |s.up.phase|
    requires forall i :: s.up.popped <= i < s.up.popped + n ==> s.up.phase[i].Done()
    ensures Inv(s.(up := s.up.(popped := s.up.popped + n), done := s.done.(callback := Popped)))
  {
    hide Shape, Tiled, Fencing, Storage, Leased, Headers, Calls, Deletions, Evolves;
    var u', d' := s.up.(popped := s.up.popped + n), s.done.(callback := Popped);
    PopCore(s.up, s.done, n, s.tr.trim);
    PopLeased(s.up, s.done, s.st, s.ls, u');
    PopStorage(s.up, s.st, s.up.popped + n);
    StartedTrim(s.up, s.st, s.tr);
    CallsFrame(s.up, u', s.done, s.st, s.tr);
    DoneCalls(u', s.done, d', s.st, s.tr);
    DeletionsFrame(s.up, u', s.st, s.tr);
    HeadersFrame(s.up, u', s.st, s.tr);
  }

  lemma DoneCalls(u: Uploads, d: Completions, d': Completions, st: Store, t: Trims)
    requires Calls(u, d, st, t) && |d.outcome| <= |d'.outcome|
    requires forall i :: 0 <= i < |d.outcome| ==> d'.outcome[i] == d.outcome[i]
    requires CountOk(d.outcome) <= CountOk(d'.outcome)
    ensures Calls(u, d', st, t)
  {
    forall c | 0 <= c < |t.calls| ensures CallOk(u, d', st, t, t.calls[c]) {
      assert CallOk(u, d, st, t, t.calls[c]);
    }
  }

  lemma VerifyKeeps(s: State, readFailed: bool)
    requires Inv(s) && s.done.callback.Popped?
    ensures Inv(DoVerify(s, readFailed))
  {
    hide Tiled, Storage, Headers, Calls, Deletions;
    var d' := DoVerify(s, readFailed).done;
    assert Shape(s.up, d') && Fencing(s.up, d');
    DoneCalls(s.up, s.done, d', s.st, s.tr);
    assert Leased(s.up, d', s.st, s.ls);
  }

  lemma LoadFencedKeeps(s: State)
    requires Inv(s) && s.done.callback.Verified?
    ensures Inv(s.(done := s.done.(callback := Checked(s.done.fenced))))
  {
    hide Tiled, Storage, Headers, Calls, Deletions;
    var d' := s.done.(callback := Checked(s.done.fenced));
    assert Shape(s.up, d') && Fencing(s.up, d');
    DoneCalls(s.up, s.done, d', s.st, s.tr);
    assert Leased(s.up, d', s.st, s.ls);
  }

  lemma CompleteFencing(u: Uploads, d: Completions, d': Completions)
    requires Shape(u, d) && Fencing(u, d) && d.callback.Checked? && |d.outcome| < u.popped
    requires d'.outcome == d.outcome + [!d.callback.fenced] && d'.fenced == d.fenced
    requires d'.callback == if |d'.outcome| == u.popped then Idle else d.callback
    ensures Shape(u, d') && Fencing(u, d')
  {
  }

  lemma CompleteLeased(u: Uploads, d: Completions, d': Completions, st: Store, ls: Lease)
    requires Shape(u, d) && Fencing(u, d) && d.callback.Checked? && |d.outcome| < u.popped
    requires d'.outcome == d.outcome + [!d.callback.fenced]
    requires d'.callback == if |d'.outcome| == u.popped then Idle else d.callback
    requires Leased(u, d, st, ls) && Shape(u, d')
    ensures Leased(u, d', st, ls)
  {
  }

  lemma CompleteKeeps(s: State)
    requires Inv(s) && Enabled(s, Complete)
    ensures Inv(DoComplete(s))
  {
    hide Shape, Tiled, Fencing, Storage, Leased, Headers, Calls, Deletions;
    var d' := DoComplete(s).done;
    assert d'.outcome[..|d'.outcome| - 1] == s.done.outcome;
    CompleteFencing(s.up, s.done, d');
    CompleteLeased(s.up, s.done, d', s.st, s.ls);
    DoneCalls(s.up, s.done, d', s.st, s.tr);
  }

  // ---- Trimming ------------------------------------------------------------------------------

  /** Requests are only ever added and the trim point only rises. */
  lemma RequestedGrows(t: Trims, t': Trims, o: int)
    requires Requested(t, o) && |t.calls| <= |t'.calls|
    requires forall c :: 0 <= c < |t.calls| ==> t'.calls[c].offset == t.calls[c].offset
    ensures Requested(t', o)
  {
    if o != -1 {
      var c :| 0 <= c < |t.calls| && t.calls[c].offset == o;
      assert t'.calls[c].offset == o;
    }
  }

  lemma HeadersGrow(u: Uploads, st: Store, t: Trims, t': Trims)
    requires Headers(u, st, t) && |t.calls| <= |t'.calls| && t.trim <= t'.trim && Requested(t', t'.trim)
    requires forall c :: 0 <= c < |t.calls| ==> t'.calls[c].offset == t.calls[c].offset
    ensures Headers(u, st, t')
  {
    forall i | 0 <= i < |u.log| && u.phase[i].HasTrim() ensures HeaderOk(u, t', u.phase[i].trim) {
      assert HeaderOk(u, t, u.phase[i].trim);
      RequestedGrows(t, t', u.phase[i].trim);
    }
    forall i | i in st.puts ensures HeaderOk(u, t', st.puts[i].trim) {
      assert HeaderOk(u, t, st.puts[i].trim);
      RequestedGrows(t, t', st.puts[i].trim);
    }
  }

  lemma DeletionsGrow(u: Uploads, st: Store, t: Trims, t': Trims)
    requires Deletions(u, st, t) && |t.calls| <= |t'.calls|
    requires forall c :: 0 <= c < |t.calls| ==> t'.calls[c].offset == t.calls[c].offset
    requires forall c :: 0 <= c < |t.calls| && t.calls[c].phase.Confirmed() ==> t'.calls[c].phase.Confirmed()
    ensures Deletions(u, st, t')
  {
    forall i | i in st.doomed ensures exists c :: CoveredBy(u, t', i, c) {
      var c :| CoveredBy(u, t, i, c);
      assert CoveredBy(u, t', i, c);
    }
  }

  lemma RegisterTrimKeeps(s: State, o: int)
    requires Inv(s) && s.up.start - 1 <= o < ConfirmOffset(s)
    ensures Inv(DoRegisterTrim(s, o))
  {
    hide Shape, Tiled, Fencing, Storage, Leased, Deletions, Carried;
    var t' := DoRegisterTrim(s, o).tr;
    var n := |s.tr.calls|;
    assert t'.calls[n].offset == o;
    if s.tr.trim >= o {
      RequestedGrows(s.tr, t', s.tr.trim);
    }
    HeadersGrow(s.up, s.st, s.tr, t');
    DeletionsGrow(s.up, s.st, s.tr, t');
    forall c | 0 <= c < |t'.calls| ensures CallOk(s.up, s.done, s.st, t', t'.calls[c]) {
      if c < n {
        assert CallOk(s.up, s.done, s.st, s.tr, s.tr.calls[c]);
      }
    }
    CompletedGrows(s.tr, t');
  }

  ghost predicate CompletedBacked(t: Trims) {
    t.completed == -1 ||
    exists c :: 0 <= c < |t.calls| && t.calls[c].phase.Returned? && t.calls[c].offset == t.completed
  }

  lemma CompletedGrows(t: Trims, t': Trims)
    requires CompletedBacked(t) && t'.completed == t.completed && |t.calls| <= |t'.calls|
    requires forall c :: 0 <= c < |t.calls| ==> t'.calls[c].offset == t.calls[c].offset
    requires forall c :: 0 <= c < |t.calls| && t.calls[c].phase.Returned? ==> t'.calls[c].phase.Returned?
    ensures CompletedBacked(t')
  {
    if t.completed != -1 {
      var c :| 0 <= c < |t.calls| && t.calls[c].phase.Returned? && t.calls[c].offset == t.completed;
      assert t'.calls[c].phase.Returned?;
    }
  }

  /** One call moves on, in a state that otherwise keeps the invariant. */
  lemma CallStep(s: State, c: nat, p: TrimPhase)
    requires Inv(s) && c < |s.tr.calls|
    requires s.tr.calls[c].phase.Confirmed() ==> p.Confirmed()
    requires s.tr.calls[c].phase.Returned? ==> p.Returned?
    requires CallOk(s.up, s.done, s.st, s.tr, s.tr.calls[c].(phase := p))
    ensures Inv(s.(tr := SetCall(s.tr, c, p)))
  {
    hide Shape, Tiled, Fencing, Storage, Leased, Deletions, Carried;
    var t' := SetCall(s.tr, c, p);
    RequestedGrows(s.tr, t', s.tr.trim);
    HeadersGrow(s.up, s.st, s.tr, t');
    DeletionsGrow(s.up, s.st, s.tr, t');
    forall k | 0 <= k < |t'.calls| ensures CallOk(s.up, s.done, s.st, t', t'.calls[k]) {
      if k != c {
        assert CallOk(s.up, s.done, s.st, s.tr, s.tr.calls[k]);
      }
    }
    CompletedGrows(s.tr, t');
  }

  lemma PlaceLog(u: Uploads, r: Record, sealAfter: bool)
    requires |u.phase| == |u.log|
    ensures var u', k := Place(u, r, sealAfter), |MakeRoom(u, r).log|;
            && |u.log| <= k <= |u'.log| == |u'.phase| && (k == |u'.log| ==> u'.active.Some?)
            && u'.start == u.start
            && forall i :: k <= i < |u'.log| ==> u'.phase[i].Waiting?
  {
  }

  lemma SentinelCarried(u: Uploads, d: Completions, st: Store, offset: int, sealAfter: bool)
    requires Storage(u, st) && |d.outcome| <= |u.log|
    requires offset < u.start + ALIGN * CountOk(d.outcome)
    ensures Carried(Place(u, SENTINEL, sealAfter), st, offset, |MakeRoom(u, SENTINEL).log|)
  {
    PlaceLog(u, SENTINEL, sealAfter);
    CountOkBound(d.outcome);
  }

  lemma OutcomeWithinLog(u: Uploads, d: Completions)
    requires Shape(u, d)
    ensures |d.outcome| <= |u.log|
  {
  }

  lemma AppendSentinelKeeps(s: State, c: nat, sealAfter: bool)
    requires Inv(s) && Enabled(s, AppendSentinel(c, sealAfter))
    ensures Inv(DoAppendSentinel(s, c, sealAfter))
  {
    hide Shape, Tiled, Fencing, Storage, Leased, Headers, Deletions, Carried;
    assert CallOk(s.up, s.done, s.st, s.tr, s.tr.calls[c]);
    OutcomeWithinLog(s.up, s.done);
    SentinelCarried(s.up, s.done, s.st, s.tr.calls[c].offset, sealAfter);
    PlaceKeeps(s, SENTINEL, sealAfter);
    var s1 := s.(up := Place(s.up, SENTINEL, sealAfter));
    CallStep(s1, c, Appended(|MakeRoom(s.up, SENTINEL).log|));
  }

  lemma CollectDeletions(s: State, c: nat)
    requires Inv(s) && Enabled(s, Collect(c))
    ensures Deletions(s.up, DoCollect(s, c).st, DoCollect(s, c).tr)
  {
    hide Shape, Tiled, Fencing, Leased, Headers, Calls, Carried;
    var gone := Covered(s.up, s.st, s.tr.calls[c].offset);
    var st', t' := DoCollect(s, c).st, DoCollect(s, c).tr;
    DeletionsGrow(s.up, s.st, s.tr, t');
    forall i | i in st'.doomed ensures exists k :: CoveredBy(s.up, t', i, k) {
      if i in gone {
        assert CoveredBy(s.up, t', i, c);
      }
    }
    forall i | i in st'.doomed ensures exists j :: j in st'.live && i < j {
      var j :| j in s.st.live && i < j;
      var m := Newest(s.st.live);
      assert m !in gone;
      assert m in st'.live && i < m;
    }
  }

  /** The largest element of a non-empty finite set. */
  ghost function Newest(xs: set<nat>): (m: nat)
    requires xs != {}
    ensures m in xs && forall x :: x in xs ==> x <= m
  {
    var x :| x in xs;
    if xs == {x} then x
    else
      var rest := xs - {x};
      assert xs == rest + {x};
      var m := Newest(rest);
      if m > x then m else x
  }

  lemma CollectStorage(s: State, c: nat)
    requires Inv(s) && Enabled(s, Collect(c))
    ensures Storage(s.up, DoCollect(s, c).st)
  {
    hide Tiled, Fencing, Leased, Headers, Calls, Deletions, Carried, Bulk.LastEntryOffset, Bulk.Entries, CountOk;
    var gone := Covered(s.up, s.st, s.tr.calls[c].offset);
    assert gone <= s.st.live;
  }

  lemma CollectKeeps(s: State, c: nat)
    requires Inv(s) && Enabled(s, Collect(c))
    ensures Inv(DoCollect(s, c))
  {
    hide Shape, Tiled, Fencing, Storage, Leased, Headers, Deletions, Carried;
    var s1 := s.(tr := SetCall(s.tr, c, Collected(s.tr.calls[c].phase.bulk)));
    assert CallOk(s.up, s.done, s.st, s.tr, s.tr.calls[c]);
    CallStep(s, c, Collected(s.tr.calls[c].phase.bulk));
    CollectStorage(s, c);
    CollectDeletions(s, c);
    StoreStep(s1, DoCollect(s, c).st);
  }

  /** Nothing but the deletion bookkeeping differs. */
  lemma StoreStep(s: State, st': Store)
    requires Inv(s) && st'.puts == s.st.puts
    requires Storage(s.up, st') && Deletions(s.up, st', s.tr)
    ensures Inv(s.(st := st'))
  {
    hide Shape, Tiled, Fencing, Storage, Calls, Deletions;
    LiveCalls(s.up, s.done, s.st, s.tr, st');
  }

  lemma ReturnTrimKeeps(s: State, c: nat)
    requires Inv(s) && Enabled(s, ReturnTrim(c))
    ensures Inv(DoReturnTrim(s, c))
  {
    hide Shape, Tiled, Fencing, Storage, Leased, Deletions, Carried;
    var o := s.tr.calls[c].offset;
    var m := Max(s.tr.completed, o);
    assert CallOk(s.up, s.done, s.st, s.tr, s.tr.calls[c]);
    var t' := DoReturnTrim(s, c).tr;
    RequestedGrows(s.tr, t', s.tr.trim);
    HeadersGrow(s.up, s.st, s.tr, t');
    DeletionsGrow(s.up, s.st, s.tr, t');
    forall k | 0 <= k < |t'.calls| ensures CallOk(s.up, s.done, s.st, t', t'.calls[k]) {
      assert CallOk(s.up, s.done, s.st, s.tr, s.tr.calls[k]);
    }
    if m == o {
      assert t'.calls[c].phase.Returned? && t'.calls[c].offset == t'.completed;
    } else {
      CompletedGrows(s.tr, t');
    }
  }

  lemma ReturnFollowerKeeps(s: State, c: nat)
    requires Inv(s) && c < |s.tr.calls| && s.tr.calls[c].phase.Following? && s.tr.calls[c].offset <= s.tr.completed
    ensures Inv(s.(tr := SetCall(s.tr, c, Followed)))
  {
    hide Shape, Tiled, Fencing, Storage, Leased, Headers, Deletions, Carried;
    assert CallOk(s.up, s.done, s.st, s.tr, s.tr.calls[c]);
    CallStep(s, c, Followed);
  }

  lemma DeleteKeeps(s: State, i: nat)
    requires Inv(s) && i in s.st.doomed
    ensures Inv(s.(st := s.st.(deleted := s.st.deleted + {i})))
  {
    hide Shape, Tiled, Fencing, Leased, Headers, Calls, Carried, StoredObj, CoveredBy;
    StoreStep(s, s.st.(deleted := s.st.deleted + {i}));
  }

  lemma AcquireKeeps(s: State, owner: nat)
    requires Inv(s) && owner != s.ls.me
    ensures Inv(DoAcquire(s, owner))
  {
    hide Tiled, Headers, Calls, Deletions;
    forall i | 0 <= i < |s.done.outcome| && s.done.outcome[i] ensures i in s.st.puts {
      assert s.up.phase[i].DoneOk?;
    }
  }

  // ---- The invariant holds throughout --------------------------------------------------------

  lemma InitInv(me: nat, start: nat)
    requires start % ALIGN == 0
    ensures Inv(Init(me, start))
  {
  }

  lemma StepKeepsInv(s: State, a: Action)
    requires Inv(s) && Enabled(s, a)
    ensures Inv(Apply(s, a))
  {
    hide Tiled, Fencing, Storage, Leased, Headers, Calls, Deletions;
    match a
    case PassCheck =>
    case Submit(r, sealAfter) => PlaceKeeps(s, r, sealAfter);
    case Seal => SealKeeps(s);
    case Launch(n) => LaunchKeeps(s, n);
    case Build(i) => BuildKeeps(s, i);
    case Send(i) => SendKeeps(s, i);
    case Finish(i) => FinishKeeps(s, i);
    case Fail(i) => FailKeeps(s, i);
    case Pop(n) => PopKeeps(s, n);
    case Verify(readFailed) => VerifyKeeps(s, readFailed);
    case LoadFenced => LoadFencedKeeps(s);
    case Complete => CompleteKeeps(s);
    case RegisterTrim(o) => RegisterTrimKeeps(s, o);
    case AppendSentinel(c, sealAfter) => AppendSentinelKeeps(s, c, sealAfter);
    case Collect(c) => CollectKeeps(s, c);
    case ReturnTrim(c) => ReturnTrimKeeps(s, c);
    case ReturnFollower(c) => ReturnFollowerKeeps(s, c);
    case Delete(i) => DeleteKeeps(s, i);
    case Acquire(owner) => AcquireKeeps(s, owner);
  }

  /** Every state of every run satisfies the invariant. */
  lemma {:induction false} RunInv(run: seq<State>, i: nat)
    requires IsRun(run) && i < |run|
    ensures Inv(run[i])
  {
    if i == 0 {
      InitInv(run[0].ls.me, run[0].up.start);
    } else {
      RunInv(run, i - 1);
      assert Step(run[i - 1], run[i]);
      var a :| Enabled(run[i - 1], a) && Apply(run[i - 1], a) == run[i];
      StepKeepsInv(run[i - 1], a);
    }
  }
}
