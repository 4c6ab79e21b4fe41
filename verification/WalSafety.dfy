/** What the log guarantees over all its runs: in-order confirmation, fencing, trimming. */
module WalSafety {
  import opened WalLayout
  import opened WalProtocol
  import opened WalInvariant

  /** Batch `i` is in the store, or a confirmed trim covers all its records. */
  ghost predicate DurableOrTrimmed(s: State, i: nat) {
    s.st.Holds(i) || exists c :: CoveredBy(s.up, s.tr, i, c)
  }

  /**
   * In-order confirmation with concurrent uploads: an acknowledged batch and every batch before
   * it reached the store with exactly its own records, and is there still unless trimmed.
   */
  lemma AckedInOrder(run: seq<State>, n: nat, k: nat)
    requires IsRun(run) && n < |run|
    requires k < |run[n].done.outcome| && run[n].done.outcome[k]
    ensures k < |run[n].up.log|
    ensures forall j :: 0 <= j <= k ==>
              && run[n].done.outcome[j]
              && j in run[n].st.puts
              && run[n].st.puts[j].entries == run[n].up.log[j].Entries()
              && DurableOrTrimmed(run[n], j)
  {
    hide Inv, DurableOrTrimmed, Bulk.Entries;
    RunInv(run, n);
    var s := run[n];
    AckedPrefix(s);
    forall j | 0 <= j <= k
      ensures s.done.outcome[j] && j in s.st.puts && s.st.puts[j].entries == s.up.log[j].Entries()
      ensures DurableOrTrimmed(s, j)
    {
      AckedStored(s, j);
    }
  }

  /** Whatever reached the store is there, or a confirmed trim covers it. */
  lemma PutDurable(s: State, j: nat)
    requires Inv(s) && j in s.st.puts
    ensures j < |s.up.log| && s.st.puts[j].entries == s.up.log[j].Entries()
    ensures DurableOrTrimmed(s, j)
  {
    hide Headers, Calls, Leased, Tiled, Fencing;
  }

  lemma AckedStored(s: State, j: nat)
    requires Inv(s) && j < |s.done.outcome| && s.done.outcome[j]
    ensures j < |s.up.log| && j in s.st.puts && s.st.puts[j].entries == s.up.log[j].Entries()
    ensures DurableOrTrimmed(s, j)
  {
    hide Headers, Calls, Leased, Tiled, Deletions;
    assert s.up.phase[j].DoneOk?;
    PutDurable(s, j);
  }

  /** Ok acknowledgements form a prefix of the log. */
  lemma AckedPrefix(s: State)
    requires Inv(s)
    ensures CountOk(s.done.outcome) <= |s.done.outcome| <= |s.up.log|
    ensures forall i :: 0 <= i < |s.done.outcome| ==> (s.done.outcome[i] <==> i < CountOk(s.done.outcome))
  {
    hide Storage, Leased, Headers, Calls, Deletions, Tiled;
    CountOkBound(s.done.outcome);
    CountOkPrefix(s.done.outcome);
  }

  /** Sealed batches are non-empty, start on an alignment boundary, fill one window each and tile. */
  lemma SealedBatchesTile(run: seq<State>, n: nat)
    requires IsRun(run) && n < |run|
    ensures forall i :: 0 <= i < |run[n].up.log| ==>
              var b := run[n].up.log[i];
              && b.records != [] && b.base % ALIGN == 0
              && CeilAlign(b.base + FramedSum(b.records)) == b.base + ALIGN
              && b.base == run[n].up.start + ALIGN * i
  {
    hide Shape, Fencing, Storage, Leased, Headers, Calls, Deletions, CeilAlign;
    RunInv(run, n);
    var s := run[n];
    forall i | 0 <= i < |s.up.log|
      ensures CeilAlign(s.up.log[i].base + FramedSum(s.up.log[i].records)) == s.up.log[i].base + ALIGN
    {
      assert s.up.log[i].Ok();
      BulkFillsOneWindow(s.up.log[i]);
    }
  }

  // ---- Monotonicity over runs ----------------------------------------------------------------

  /** What no step takes back. */
  lemma StepMonotone(s: State, s': State)
    requires Step(s, s')
    ensures s.done.outcome <= s'.done.outcome && s.up.log <= s'.up.log
    ensures s'.up.start == s.up.start && s'.ls.me == s.ls.me
    ensures s.ls.displacedAt.Some? ==> s'.ls.displacedAt == s.ls.displacedAt
    ensures LeaseLost(s) ==> LeaseLost(s')
    ensures LeaseLost(s) ==>
              forall i :: |s.done.outcome| <= i < |s'.done.outcome| ==> !s'.done.outcome[i]
  {
    var a :| Enabled(s, a) && Apply(s, a) == s';
    ActionMonotone(s, a);
  }

  lemma ActionMonotone(s: State, a: Action)
    requires Enabled(s, a)
    ensures var s' := Apply(s, a);
            && s.done.outcome <= s'.done.outcome && s.up.log <= s'.up.log
            && s'.up.start == s.up.start && s'.ls.me == s.ls.me
            && (s.ls.displacedAt.Some? ==> s'.ls.displacedAt == s.ls.displacedAt)
            && (LeaseLost(s) ==> LeaseLost(s'))
            && (LeaseLost(s) ==>
                  forall i :: |s.done.outcome| <= i < |s'.done.outcome| ==> !s'.done.outcome[i])
  {
  }

  /** The lease check has failed, or its failure has been taken up. */
  predicate LeaseLost(s: State) {
    s.done.fenced && s.done.callback != Checked(false)
  }

  lemma {:induction false} CountOkMonotone(a: seq<bool>, b: seq<bool>)
    requires a <= b
    ensures CountOk(a) <= CountOk(b)
  {
    if a != b {
      assert a <= b[..|b| - 1];
      CountOkMonotone(a, b[..|b| - 1]);
    }
  }

  /** Acknowledgements are never revoked, sealed batches never change, and the confirm point
      never moves back. */
  lemma {:induction false} ConfirmNeverDecreases(run: seq<State>, m: nat, n: nat)
    requires IsRun(run) && m <= n < |run|
    ensures run[m].done.outcome <= run[n].done.outcome && run[m].up.log <= run[n].up.log
    ensures run[m].up.start == run[n].up.start
    ensures ConfirmOffset(run[m]) <= ConfirmOffset(run[n])
    decreases n
  {
    hide Step;
    if m < n {
      ConfirmNeverDecreases(run, m, n - 1);
      StepMonotone(run[n - 1], run[n]);
    }
    CountOkMonotone(run[m].done.outcome, run[n].done.outcome);
  }

  // ---- Fencing -------------------------------------------------------------------------------

  /** Once a lease check has failed, nothing acknowledged later is Ok. */
  lemma {:induction false} NoAckAfterLostLease(run: seq<State>, m: nat, n: nat)
    requires IsRun(run) && m <= n < |run|
    requires run[m].done.callback == Verified(false)
    ensures |run[m].done.outcome| <= |run[n].done.outcome| && LeaseLost(run[n])
    ensures forall i :: |run[m].done.outcome| <= i < |run[n].done.outcome| ==> !run[n].done.outcome[i]
    decreases n
  {
    hide Step;
    if m == n {
      RunInv(run, m);
    } else {
      NoAckAfterLostLease(run, m, n - 1);
      StepMonotone(run[n - 1], run[n]);
    }
  }

  lemma {:induction false} DisplacedStays(run: seq<State>, m: nat, n: nat)
    requires IsRun(run) && m <= n < |run| && run[m].ls.displacedAt.Some?
    ensures run[n].ls.displacedAt == run[m].ls.displacedAt
    decreases n
  {
    if m < n {
      DisplacedStays(run, m, n - 1);
      StepMonotone(run[n - 1], run[n]);
    }
  }

  lemma AckedBeforeDisplacement(s: State, k: nat)
    requires Inv(s) && s.ls.displacedAt.Some? && k < |s.done.outcome| && s.done.outcome[k]
    ensures k in s.ls.displacedAt.value
  {
    hide Headers, Calls, Tiled, Deletions, Storage;
  }

  lemma DisplacedInv(s: State)
    requires Inv(s)
    ensures s.ls.holder != s.ls.me ==> s.ls.displacedAt.Some?
    ensures s.ls.displacedAt.Some? ==> s.ls.displacedAt.value <= s.st.puts.Keys
  {
    hide Headers, Calls, Tiled, Deletions, Storage;
  }

  /**
   * Failover loses no acknowledged record. Another owner has acquired the lease by state `m` and
   * lists the store in a later state `l`. Whatever this writer has acknowledged Ok by any state
   * `n`, before or after the listing, is in that listing with its own records, or is covered by
   * one of this writer's confirmed trims.
   */
  lemma FailoverListsAcked(run: seq<State>, m: nat, l: nat, n: nat, k: nat)
    requires IsRun(run) && m <= l < |run| && n < |run|
    requires run[m].ls.holder != run[m].ls.me
    requires k < |run[n].done.outcome| && run[n].done.outcome[k]
    ensures k < |run[l].up.log| && k < |run[n].up.log| && run[l].up.log[k] == run[n].up.log[k]
    ensures k in run[l].st.puts && run[l].st.puts[k].entries == run[n].up.log[k].Entries()
    ensures DurableOrTrimmed(run[l], k)
  {
    hide Inv, DurableOrTrimmed;
    RunInv(run, l);
    RunInv(run, n);
    AckedStored(run[n], k);
    if n <= l {
      ConfirmNeverDecreases(run, n, l);
      AckedStored(run[l], k);
    } else {
      ConfirmNeverDecreases(run, l, n);
      RunInv(run, m);
      DisplacedInv(run[m]);
      DisplacedStays(run, m, l);
      DisplacedStays(run, m, n);
      AckedBeforeDisplacement(run[n], k);
      DisplacedInv(run[l]);
      PutDurable(run[l], k);
    }
  }

  // ---- Trimming ------------------------------------------------------------------------------

  /** The newest object in the store. */
  ghost predicate IsNewest(s: State, n: nat) {
    s.st.Holds(n) && forall i: nat :: s.st.Holds(i) ==> i <= n
  }

  /** A deleted object leaves a newer one behind. */
  lemma NewerSurvives(s: State, i: nat) returns (j: nat)
    requires Inv(s) && i in s.st.puts
    ensures i <= j && s.st.Holds(j)
  {
    hide Headers, Calls, Tiled, Leased, Fencing;
    if s.st.Holds(i) {
      j := i;
    } else {
      var k :| k in s.st.live && i < k;
      j := k;
    }
  }

  /** The confirmed trim call behind a finished one. */
  lemma FinishedCall(s: State, c: nat) returns (k: nat)
    requires Inv(s) && c < |s.tr.calls| && s.tr.calls[c].phase.Finished() && s.tr.calls[c].offset >= 0
    ensures k < |s.tr.calls| && s.tr.calls[k].phase.Confirmed() && s.tr.calls[c].offset <= s.tr.calls[k].offset
  {
    hide Headers, Tiled, Leased, Fencing, Storage, Deletions, Carried;
    assert CallOk(s.up, s.done, s.st, s.tr, s.tr.calls[c]);
    k :| 0 <= k < |s.tr.calls| && s.tr.calls[k].phase.Returned? && s.tr.calls[k].offset == s.tr.completed;
  }

  lemma ConfirmedCall(s: State, k: nat)
    requires Inv(s) && k < |s.tr.calls| && s.tr.calls[k].phase.Confirmed()
    ensures s.tr.calls[k].phase.bulk in s.st.puts
    ensures s.tr.calls[k].phase.bulk < |s.done.outcome| && s.done.outcome[s.tr.calls[k].phase.bulk]
    ensures forall i :: i in s.st.puts && s.tr.calls[k].phase.bulk <= i ==> s.tr.calls[k].offset <= s.st.puts[i].trim
    ensures s.tr.calls[k].offset < s.up.start + ALIGN * s.tr.calls[k].phase.bulk
  {
    hide Headers, Tiled, Leased, Deletions;
    assert CallOk(s.up, s.done, s.st, s.tr, s.tr.calls[k]);
  }

  /**
   * Trim safety, first half: once a trim to `o` has returned, the newest stored object carries a
   * header trim of at least `o`, and so does any object stored later; and no stored header is
   * above what was requested.
   */
  lemma TrimIsPersisted(run: seq<State>, n: nat, c: nat, newest: nat)
    requires IsRun(run) && n < |run| && IsNewest(run[n], newest)
    requires c < |run[n].tr.calls| && run[n].tr.calls[c].phase.Finished() && run[n].tr.calls[c].offset >= 0
    ensures run[n].tr.calls[c].offset <= run[n].st.puts[newest].trim
    ensures forall i :: i in run[n].st.puts && newest <= i ==> run[n].tr.calls[c].offset <= run[n].st.puts[i].trim
    ensures forall i :: i in run[n].st.puts ==> Requested(run[n].tr, run[n].st.puts[i].trim)
  {
    hide Inv;
    var s := run[n];
    RunInv(run, n);
    var k := FinishedCall(s, c);
    ConfirmedCall(s, k);
    var j := NewerSurvives(s, s.tr.calls[k].phase.bulk);
    PutsRequested(s);
  }

  lemma PutsRequested(s: State)
    requires Inv(s)
    ensures forall i :: i in s.st.puts ==> Requested(s.tr, s.st.puts[i].trim) && s.st.puts[i].trim >= s.up.start - 1
  {
    hide Calls, Tiled, Leased, Deletions, Storage, Fencing;
    forall i | i in s.st.puts ensures Requested(s.tr, s.st.puts[i].trim) && s.st.puts[i].trim >= s.up.start - 1 {
      assert HeaderOk(s.up, s.tr, s.st.puts[i].trim);
    }
  }

  /**
   * Trim safety, second half: no deleted object held a record above the trim point that the
   * newest object persists, and deletion always leaves a newer object.
   */
  lemma DeletedBelowTrim(run: seq<State>, n: nat, i: nat, newest: nat)
    requires IsRun(run) && n < |run| && IsNewest(run[n], newest)
    requires i in run[n].st.puts && !run[n].st.Holds(i)
    ensures i < newest && i < |run[n].up.log|
    ensures forall e :: e in run[n].up.log[i].Entries() ==> e.offset <= run[n].st.puts[newest].trim
  {
    hide Inv;
    RunInv(run, n);
    DeletedBelowTrimInv(run[n], i, newest);
  }

  lemma CoveringCall(s: State, i: nat) returns (c: nat)
    requires Inv(s) && i in s.st.puts && !s.st.Holds(i)
    ensures CoveredBy(s.up, s.tr, i, c) && s.up.log[i].Ok()
  {
    hide Headers, Calls, Leased, Fencing;
    c :| CoveredBy(s.up, s.tr, i, c);
  }

  lemma DeletedBelowTrimInv(s: State, i: nat, newest: nat)
    requires Inv(s) && IsNewest(s, newest)
    requires i in s.st.puts && !s.st.Holds(i)
    ensures i < newest && i < |s.up.log|
    ensures s.up.log[i].LastEntryOffset() <= s.st.puts[newest].trim
    ensures forall e :: e in s.up.log[i].Entries() ==> e.offset <= s.st.puts[newest].trim
  {
    hide Inv, Bulk.Entries, Bulk.LastEntryOffset;
    var c := CoveringCall(s, i);
    ConfirmedCall(s, c);
    var j := NewerSurvives(s, s.tr.calls[c].phase.bulk);
    var j' := NewerSurvives(s, i);
    BulkEntries(s.up.log[i]);
  }
}
