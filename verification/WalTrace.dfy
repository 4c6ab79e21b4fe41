/**
 * Runs of the log together with their steps. What was submitted is what the batches hold, and a
 * batch is acknowledged Ok unless a failure, a failed read of the lease or another owner was seen.
 */
module WalTrace {
  import opened Sequences
  import opened Records
  import opened WalLayout
  import opened WalProtocol
  import opened WalInvariant
  import opened WalSafety

  predicate StepAt(run: seq<State>, acts: seq<Action>, i: nat) {
    i < |acts| && i + 1 < |run| && Enabled(run[i], acts[i]) && run[i + 1] == Apply(run[i], acts[i])
  }

  /** A run and the action of each of its steps. */
  ghost predicate Trace(run: seq<State>, acts: seq<Action>) {
    && |run| == |acts| + 1 && run[0].up.start % ALIGN == 0 && run[0] == Init(run[0].ls.me, run[0].up.start)
    && forall i: nat :: i < |acts| ==> StepAt(run, acts, i)
  }

  lemma TraceRun(run: seq<State>, acts: seq<Action>)
    requires Trace(run, acts)
    ensures IsRun(run)
  {
    hide Enabled, Apply;
    forall i | 0 < i < |run| ensures Step(run[i - 1], run[i]) {
      assert StepAt(run, acts, i - 1);
    }
  }

  /** Every run has its steps. */
  lemma {:induction false} RunTrace(run: seq<State>) returns (acts: seq<Action>)
    requires IsRun(run)
    ensures Trace(run, acts)
  {
    hide Enabled, Apply;
    acts := [];
    if |run| > 1 {
      var n := |run| - 1;
      assert Step(run[n - 1], run[n]);
      var a :| Enabled(run[n - 1], a) && Apply(run[n - 1], a) == run[n];
      var init := RunTrace(run[..n]);
      acts := init + [a];
      forall i: nat | i < |acts| ensures StepAt(run, acts, i) {
        if i < |init| {
          assert StepAt(run[..n], init, i);
        }
      }
    }
  }

  // ---- What was submitted ----------------------------------------------------------------------------

  predicate Gives(a: Action) { a.Submit? || a.AppendSentinel? }

  /** The record a step gives to the log. */
  function GivenBy(a: Action): Record
    requires Gives(a)
  {
    if a.Submit? then a.record else SENTINEL
  }

  /** The records of the submit and trim steps, in step order. */
  function Given(acts: seq<Action>): seq<Record> {
    if acts == [] then []
    else
      var a := acts[|acts| - 1];
      Given(acts[..|acts| - 1]) + if Gives(a) then [GivenBy(a)] else []
  }

  /** The records of each batch, sealed ones first, then the accumulating one. */
  function Batches(u: Uploads): seq<seq<Record>> {
    seq(|u.log|, i requires 0 <= i < |u.log| => u.log[i].records)
    + if u.active.Some? then [u.active.value.records] else []
  }

  lemma SealBatches(u: Uploads)
    ensures Batches(SealActive(u)) == Batches(u)
  {
  }

  /** The record goes behind all others: into the accumulating batch if it fits there, otherwise it
      begins the next one. */
  lemma PlaceBatches(u: Uploads, r: Record, sealAfter: bool)
    ensures var all, all' := Batches(u), Batches(Place(u, r, sealAfter));
            if u.active.Some? && FramedSum(u.active.value.records) + r.FramedSize() <= ALIGN
            then all' == all[..|u.log|] + [u.active.value.records + [r]]
            else all' == all + [[r]]
  {
    hide FramedSum;
    var none: seq<Record> := [];
    assert none + [r] == [r];
    SealBatches(u);
    SealBatches(Push(MakeRoom(u, r), r));
  }

  lemma StepBatches(s: State, a: Action)
    requires Enabled(s, a)
    ensures if Gives(a) then Apply(s, a).up == Place(s.up, GivenBy(a), a.sealAfter)
            else Batches(Apply(s, a).up) == Batches(s.up)
  {
    hide Place, CountOk;
    SealBatches(s.up);
  }

  lemma PlaceWritten(u: Uploads, r: Record, sealAfter: bool)
    ensures Concat(Batches(Place(u, r, sealAfter))) == Concat(Batches(u)) + [r]
  {
    hide Place, FramedSum;
    PlaceBatches(u, r, sealAfter);
    var all := Batches(u);
    if u.active.Some? && FramedSum(u.active.value.records) + r.FramedSize() <= ALIGN {
      var last := u.active.value.records;
      assert all == all[..|u.log|] + [last];
      ConcatPush(all[..|u.log|], last);
      ConcatPush(all[..|u.log|], last + [r]);
    } else {
      ConcatPush(all, [r]);
    }
  }

  /**
   * Nothing is dropped, added or reordered between submit and batch: over any run, the records of
   * the batches one after the other are exactly the records that were submitted, in step order.
   */
  lemma {:induction false} SubmittedIsWritten(run: seq<State>, acts: seq<Action>, n: nat)
    requires Trace(run, acts) && n <= |acts|
    ensures Concat(Batches(run[n].up)) == Given(acts[..n])
  {
    hide Enabled, Apply, Batches;
    if n == 0 {
      NoBatches(run[0]);
    } else {
      SubmittedIsWritten(run, acts, n - 1);
      assert StepAt(run, acts, n - 1) && acts[..n][..n - 1] == acts[..n - 1];
      StepBatches(run[n - 1], acts[n - 1]);
      if Gives(acts[n - 1]) {
        PlaceWritten(run[n - 1].up, GivenBy(acts[n - 1]), acts[n - 1].sealAfter);
      }
    }
  }

  lemma NoBatches(s: State)
    requires s.up.log == [] && s.up.active.None?
    ensures Batches(s.up) == [] && Concat(Batches(s.up)) == []
  {
  }

  /** Batches grow at the end and are never rewritten. */
  ghost predicate Extends(a: seq<seq<Record>>, b: seq<seq<Record>>) {
    |a| <= |b| && forall j :: 0 <= j < |a| ==> a[j] <= b[j]
  }

  lemma StepExtends(s: State, a: Action)
    requires Enabled(s, a)
    ensures Extends(Batches(s.up), Batches(Apply(s, a).up))
  {
    hide Enabled, Apply, Place, FramedSum;
    StepBatches(s, a);
    if Gives(a) {
      PlaceBatches(s.up, GivenBy(a), a.sealAfter);
    }
  }

  lemma {:induction false} RunExtends(run: seq<State>, acts: seq<Action>, m: nat, n: nat)
    requires Trace(run, acts) && m <= n <= |acts|
    ensures Extends(Batches(run[m].up), Batches(run[n].up))
    decreases n
  {
    hide Enabled, Apply, Batches;
    if m < n {
      RunExtends(run, acts, m, n - 1);
      assert StepAt(run, acts, n - 1);
      StepExtends(run[n - 1], acts[n - 1]);
    }
  }

  /** Batch `j` holds the record at its position `q`. */
  ghost predicate Sits(u: Uploads, j: nat, q: nat, r: Record) {
    j < |Batches(u)| && q < |Batches(u)[j]| && Batches(u)[j][q] == r
  }

  /** The batch that takes the record of a step, and its position there. */
  function Slot(u: Uploads, r: Record): (nat, nat) {
    if u.active.Some? && FramedSum(u.active.value.records) + r.FramedSize() <= ALIGN
    then (|u.log|, |u.active.value.records|) else (|Batches(u)|, 0)
  }

  lemma SlotTaken(u: Uploads, r: Record, sealAfter: bool)
    ensures Sits(Place(u, r, sealAfter), Slot(u, r).0, Slot(u, r).1, r)
  {
    hide Place, FramedSum;
    PlaceBatches(u, r, sealAfter);
  }

  /**
   * The acknowledgement a submitter waits for covers the record: in every later state the record is
   * in the batch it was given to, and once that batch is acknowledged Ok, the batch's object reached
   * the store with the record as one of its entries, and is there still unless trimmed.
   */
  lemma SubmittedIsStored(run: seq<State>, acts: seq<Action>, i: nat, n: nat) returns (j: nat)
    requires Trace(run, acts) && i < n <= |acts| && Gives(acts[i])
    ensures j == Slot(run[i].up, GivenBy(acts[i])).0
    ensures Sits(run[n].up, j, Slot(run[i].up, GivenBy(acts[i])).1, GivenBy(acts[i]))
    ensures j < |run[n].done.outcome| && run[n].done.outcome[j] ==>
              && j in run[n].st.puts && DurableOrTrimmed(run[n], j)
              && exists e :: e in run[n].st.puts[j].entries && e.record == GivenBy(acts[i])
  {
    hide Enabled, Apply, Batches, Inv, DurableOrTrimmed, Slot, Bulk.Entries;
    var r := GivenBy(acts[i]);
    var slot := Slot(run[i].up, r);
    j := slot.0;
    assert StepAt(run, acts, i);
    StepBatches(run[i], acts[i]);
    SlotTaken(run[i].up, r, acts[i].sealAfter);
    RunExtends(run, acts, i + 1, n);
    if j < |run[n].done.outcome| && run[n].done.outcome[j] {
      TraceRun(run, acts);
      AckedInOrder(run, n, j);
      SealedBatchesTile(run, n);
      EntryOfRecord(run[n].up, j, slot.1, r);
    }
  }

  lemma EntryOfRecord(u: Uploads, j: nat, q: nat, r: Record)
    requires Sits(u, j, q, r) && j < |u.log|
    ensures exists e :: e in u.log[j].Entries() && e.record == r
  {
    var records := u.log[j].records;
    assert records[q] == r;
    SortKeeps(records);
    var sorted := SortRecords(records);
    assert r in multiset(records);
    var k :| 0 <= k < |sorted| && sorted[k] == r;
    LayoutSize(u.log[j].base, sorted);
    LayoutAt(u.log[j].base, sorted, k);
    assert u.log[j].Entries()[k] in u.log[j].Entries();
  }

  lemma {:induction false} LayoutSize(base: nat, records: seq<Record>)
    ensures |Layout(base, records)| == |records|
  {
    if records != [] {
      LayoutSize(base, records[..|records| - 1]);
    }
  }

  lemma AppendBulk(s: State, c: nat, sealAfter: bool)
    requires Enabled(s, AppendSentinel(c, sealAfter))
    ensures c < |Apply(s, AppendSentinel(c, sealAfter)).tr.calls|
    ensures Apply(s, AppendSentinel(c, sealAfter)).tr.calls[c].phase == Appended(Slot(s.up, SENTINEL).0)
  {
    hide FramedSum, Place;
  }

  lemma StepBulk(s: State, a: Action, c: nat)
    requires Enabled(s, a) && c < |s.tr.calls| && s.tr.calls[c].phase.HasBulk()
    ensures c < |Apply(s, a).tr.calls| && Apply(s, a).tr.calls[c].phase.HasBulk()
    ensures Apply(s, a).tr.calls[c].phase.bulk == s.tr.calls[c].phase.bulk
  {
    hide Place, CountOk, Covered;
  }

  /** A trim waits for the batch that holds its own sentinel: the batch named by the call is the one
      the sentinel of step `i` was given to, in every later state. */
  lemma {:induction false} TrimWaitsForOwn(run: seq<State>, acts: seq<Action>, i: nat, n: nat)
    requires Trace(run, acts) && i < n <= |acts| && acts[i].AppendSentinel?
    ensures acts[i].call < |run[n].tr.calls| && run[n].tr.calls[acts[i].call].phase.HasBulk()
    ensures run[n].tr.calls[acts[i].call].phase.bulk == Slot(run[i].up, SENTINEL).0
    decreases n
  {
    hide Enabled, Apply, Slot;
    if n == i + 1 {
      assert StepAt(run, acts, i);
      assert acts[i] == AppendSentinel(acts[i].call, acts[i].sealAfter);
      AppendBulk(run[i], acts[i].call, acts[i].sealAfter);
    } else {
      TrimWaitsForOwn(run, acts, i, n - 1);
      assert StepAt(run, acts, n - 1);
      StepBulk(run[n - 1], acts[n - 1], acts[i].call);
    }
  }

  // ---- When a batch is acknowledged Ok -----------------------------------------------------------------

  /** The step saw a failed upload, could not read the lease, or found another owner in it. */
  predicate Cause(s: State, a: Action) {
    a.Fail? || (a.Verify? && (a.readFailed || s.ls.holder != s.ls.me))
  }

  ghost predicate CauseBefore(run: seq<State>, acts: seq<Action>, n: nat) {
    exists i: nat :: i < n && i < |run| && i < |acts| && Cause(run[i], acts[i])
  }

  lemma StepFences(s: State, a: Action)
    requires Enabled(s, a)
    ensures Apply(s, a).done.fenced <==> s.done.fenced || Cause(s, a)
  {
    hide Place, CountOk;
  }

  /** A writer is fenced exactly after one of these was seen. */
  lemma {:induction false} FencedIff(run: seq<State>, acts: seq<Action>, n: nat)
    requires Trace(run, acts) && n <= |acts|
    ensures run[n].done.fenced <==> CauseBefore(run, acts, n)
  {
    hide Enabled, Apply, Cause;
    if n > 0 {
      FencedIff(run, acts, n - 1);
      assert StepAt(run, acts, n - 1);
      StepFences(run[n - 1], acts[n - 1]);
      if CauseBefore(run, acts, n) {
        var i: nat :| i < n && i < |run| && i < |acts| && Cause(run[i], acts[i]);
        assert i < n - 1 ==> CauseBefore(run, acts, n - 1);
      }
    }
  }

  /** Step `m` is the read of the fence that a completion pass acts on. */
  predicate ReadsFence(acts: seq<Action>, m: nat, n: nat) { m < n && m < |acts| && acts[m].LoadFenced? }

  lemma StepCallback(s: State, a: Action)
    requires Enabled(s, a)
    ensures var d, d' := s.done, Apply(s, a).done;
            && (d'.callback.Checked? ==>
                  (a.LoadFenced? && d'.callback.fenced == d.fenced) || d'.callback == d.callback)
            && (d'.outcome == d.outcome
                || (d.callback.Checked? && d'.outcome == d.outcome + [!d.callback.fenced]))
  {
    hide Place, CountOk;
  }

  lemma {:induction false} CheckedAt(run: seq<State>, acts: seq<Action>, n: nat) returns (m: nat)
    requires Trace(run, acts) && n <= |acts| && run[n].done.callback.Checked?
    ensures ReadsFence(acts, m, n) && run[n].done.callback.fenced == run[m].done.fenced
  {
    hide Enabled, Apply;
    if n == 0 {
      assert false;
    } else {
      assert StepAt(run, acts, n - 1);
      StepCallback(run[n - 1], acts[n - 1]);
      if acts[n - 1].LoadFenced? && run[n].done.callback.fenced == run[n - 1].done.fenced {
        m := n - 1;
      } else {
        m := CheckedAt(run, acts, n - 1);
      }
    }
  }

  /**
   * The acknowledgement of a completed batch, both ways: it is Ok if and only if no cause was seen
   * before the completion pass read the fence at step `m`.
   */
  lemma {:induction false} AckedIff(run: seq<State>, acts: seq<Action>, n: nat, k: nat) returns (m: nat)
    requires Trace(run, acts) && n <= |acts| && k < |run[n].done.outcome|
    ensures ReadsFence(acts, m, n)
    ensures run[n].done.outcome[k] <==> !CauseBefore(run, acts, m)
  {
    hide Enabled, Apply, CauseBefore;
    if n == 0 {
      assert false;
    } else {
      assert StepAt(run, acts, n - 1);
      StepCallback(run[n - 1], acts[n - 1]);
      if k < |run[n - 1].done.outcome| {
        m := AckedIff(run, acts, n - 1, k);
      } else {
        m := CheckedAt(run, acts, n - 1);
        FencedIff(run, acts, m);
      }
    }
  }

  /** As long as none is seen, every completed batch is acknowledged Ok, and between two completion
      passes the confirm point is the end of the completed batches. */
  lemma AllAckedOk(run: seq<State>, acts: seq<Action>, n: nat)
    requires Trace(run, acts) && n <= |acts| && !CauseBefore(run, acts, n)
    ensures forall k :: 0 <= k < |run[n].done.outcome| ==> run[n].done.outcome[k]
    ensures run[n].done.callback.Idle? ==> ConfirmOffset(run[n]) == run[n].up.start + ALIGN * run[n].up.popped
  {
    hide StepAt, CauseBefore, Inv, IsRun, Init;
    forall k: nat | k < |run[n].done.outcome| ensures run[n].done.outcome[k] {
      var m := AckedIff(run, acts, n, k);
      CauseStays(run, acts, m, n);
    }
    TraceRun(run, acts);
    RunInv(run, n);
    CountOkBound(run[n].done.outcome);
    IdleAll(run[n]);
  }

  lemma CauseStays(run: seq<State>, acts: seq<Action>, m: nat, n: nat)
    requires m <= n
    ensures CauseBefore(run, acts, m) ==> CauseBefore(run, acts, n)
  {
    hide Cause;
  }

  lemma IdleAll(s: State)
    requires Inv(s)
    ensures s.done.callback.Idle? ==> |s.done.outcome| == s.up.popped
  {
  }

  // ---- What a trim deletes -------------------------------------------------------------------------------

  /** A newer batch has been uploaded too. */
  predicate Outlived(u: Uploads, i: nat, j: nat) {
    i < j < |u.phase| && u.phase[i].DoneOk? && u.phase[j].DoneOk?
  }

  /** The step is the collection of a confirmed trim that covers the whole uploaded batch, and the
      batch is not the newest uploaded one. */
  ghost predicate Dooms(s: State, a: Action, i: nat) {
    && a.Collect? && a.call < |s.tr.calls| && i < |s.up.log|
    && s.up.log[i].LastEntryOffset() <= s.tr.calls[a.call].offset && exists j: nat :: Outlived(s.up, i, j)
  }

  /** What a trim collects: the covered batches that are outlived. */
  lemma CoveredIff(u: Uploads, st: Store, t: Trims, offset: int, i: nat)
    requires Storage(u, st) && Deletions(u, st, t)
    ensures i in Covered(u, st, offset) || i in st.doomed <==>
              || i in st.doomed
              || (i < |u.log| && u.log[i].LastEntryOffset() <= offset && exists j: nat :: Outlived(u, i, j))
  {
    hide Bulk.LastEntryOffset;
    if i in Covered(u, st, offset) {
      var j: nat :| j in st.live && i < j;
      assert Outlived(u, i, j);
    }
    if i !in st.doomed && i < |u.log| && u.log[i].LastEntryOffset() <= offset {
      if j: nat :| Outlived(u, i, j) {
        assert i in st.live;
        if j !in st.live {
          var j' :| j' in st.live && j < j';
        }
      }
    }
  }

  lemma CollectDooms(s: State, c: nat, i: nat)
    requires Inv(s) && Enabled(s, Collect(c))
    ensures i in Apply(s, Collect(c)).st.doomed <==> i in s.st.doomed || Dooms(s, Collect(c), i)
  {
    hide Shape, Tiled, Fencing, Leased, Headers, Calls, Storage, Deletions, Covered, Outlived, Bulk.LastEntryOffset;
    CoveredIff(s.up, s.st, s.tr, s.tr.calls[c].offset, i);
  }

  lemma StepDooms(s: State, a: Action, i: nat)
    requires Inv(s) && Enabled(s, a)
    ensures i in Apply(s, a).st.doomed <==> i in s.st.doomed || Dooms(s, a, i)
  {
    hide Place, CountOk, Covered, Inv;
    if a.Collect? {
      CollectDooms(s, a.call, i);
    }
  }

  ghost predicate DoomedBefore(run: seq<State>, acts: seq<Action>, n: nat, i: nat) {
    exists m: nat :: m < n && m < |run| && m < |acts| && Dooms(run[m], acts[m], i)
  }

  /** An object of this writer is handed to deletion if and only if a confirmed trim was collected
      that covers all its records while a newer object had been uploaded. */
  lemma {:induction false} DoomedIff(run: seq<State>, acts: seq<Action>, n: nat, i: nat)
    requires Trace(run, acts) && n <= |acts|
    ensures i in run[n].st.doomed <==> DoomedBefore(run, acts, n, i)
  {
    hide Enabled, Apply, Dooms, Inv;
    if n > 0 {
      DoomedIff(run, acts, n - 1, i);
      TraceRun(run, acts);
      RunInv(run, n - 1);
      assert StepAt(run, acts, n - 1);
      StepDooms(run[n - 1], acts[n - 1], i);
      if DoomedBefore(run, acts, n, i) {
        var m: nat :| m < n && m < |run| && m < |acts| && Dooms(run[m], acts[m], i);
        assert m < n - 1 ==> DoomedBefore(run, acts, n - 1, i);
      }
    }
  }
}
