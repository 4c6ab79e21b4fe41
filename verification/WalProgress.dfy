/**
 * The log never gets stuck: from every reachable state the writer's steps can complete every batch,
 * and for a writer that is not fenced and holds the lease they acknowledge all of them Ok, return
 * from every trim and finish every deletion.
 */
module WalProgress {
  import opened WalProtocol
  import opened WalInvariant
  import opened WalTrace

  ghost function Last(run: seq<State>): State
    requires run != []
  {
    run[|run| - 1]
  }

  ghost predicate Reached(run: seq<State>) {
    run != [] && IsRun(run) && Inv(Last(run))
  }

  /** The writer is not fenced and holds the lease. */
  predicate Good(s: State) {
    !s.done.fenced && s.ls.holder == s.ls.me
  }

  /** A run that ends with such a writer. */
  ghost predicate Healthy(run: seq<State>) {
    Reached(run) && Good(Last(run))
  }

  /** A continuation in which nothing fails by itself. */
  ghost predicate Onward(run: seq<State>, run': seq<State>) {
    run != [] && Reached(run') && run <= run' && (Good(Last(run)) ==> Good(Last(run')))
  }

  lemma Extend(run: seq<State>, a: Action) returns (run': seq<State>)
    requires Reached(run) && Enabled(Last(run), a) && !a.Acquire? && (Cause(Last(run), a) ==> !Good(Last(run)))
    ensures Onward(run, run') && Last(run') == Apply(Last(run), a)
  {
    hide Enabled, Apply, Inv, Cause;
    run' := run + [Apply(Last(run), a)];
    forall i | 0 < i < |run'| ensures Step(run'[i - 1], run'[i]) {
      if i < |run| {
        assert Step(run[i - 1], run[i]);
      } else {
        assert Enabled(run'[i - 1], a) && Apply(run'[i - 1], a) == run'[i];
      }
    }
    RunInv(run', |run|);
    StepFences(Last(run), a);
    SameLease(Last(run), a);
  }

  lemma SameLease(s: State, a: Action)
    requires Enabled(s, a) && !a.Acquire?
    ensures Apply(s, a).ls == s.ls
  {
    hide Place, CountOk, Covered;
  }

  // ---- Acknowledging -----------------------------------------------------------------------------------

  /** What the invariant says about the queues. */
  lemma QueueFacts(s: State)
    requires Inv(s)
    ensures |s.up.phase| == |s.up.log| && |s.done.outcome| <= s.up.popped <= s.up.launched <= |s.up.log|
    ensures s.done.callback.Idle? <==> |s.done.outcome| == s.up.popped
    ensures forall i :: 0 <= i < |s.up.log| ==> (s.up.phase[i].Waiting? <==> s.up.launched <= i)
    ensures !s.done.fenced ==> forall i :: 0 <= i < |s.done.outcome| ==> s.done.outcome[i]
  {
    hide Storage, Leased, Headers, Calls, Deletions, Tiled;
  }

  /** A completion pass that has begun can be brought to its end. */
  lemma {:induction false} FinishPass(run: seq<State>) returns (run': seq<State>)
    requires Reached(run)
    ensures Onward(run, run') && Last(run').done.callback.Idle?
    ensures Last(run').(done := Last(run).done) == Last(run)
    decreases match Last(run).done.callback
              case Idle => 0
              case Popped => 3 + Last(run).up.popped
              case Verified(_) => 2 + Last(run).up.popped
              case Checked(_) => if |Last(run).done.outcome| <= Last(run).up.popped
                                 then 1 + Last(run).up.popped - |Last(run).done.outcome| else 0
  {
    hide Inv, IsRun;
    var s := Last(run);
    QueueFacts(s);
    run' := run;
    if s.done.callback.Popped? {
      run' := Extend(run, Verify(false));
      run' := FinishPass(run');
    } else if s.done.callback.Verified? {
      run' := Extend(run, LoadFenced);
      run' := FinishPass(run');
    } else if s.done.callback.Checked? {
      run' := Extend(run, Complete);
      run' := FinishPass(run');
    }
  }

  lemma SealAll(run: seq<State>) returns (run': seq<State>)
    requires Reached(run)
    ensures Onward(run, run') && Last(run').up.active.None? && Last(run').up.launched == |Last(run').up.log|
    ensures Last(run').(up := Last(run).up) == Last(run)
    ensures Batches(Last(run').up) == Batches(Last(run).up)
  {
    hide Inv, IsRun, Batches;
    run' := Extend(run, Seal);
    SealBatches(Last(run).up);
    QueueFacts(Last(run'));
    var n := |Last(run').up.log| - Last(run').up.launched;
    SameBatches(Last(run').up, Last(run').up.(launched := Last(run').up.launched + n,
                                               phase := LaunchPhases(Last(run').up, n)));
    run' := Extend(run', Launch(n));
  }

  lemma SameBatches(u: Uploads, u': Uploads)
    requires u'.log == u.log && u'.active == u.active
    ensures Batches(u') == Batches(u)
  {
  }

  /** Everything is launched and nothing accumulates. */
  predicate Sealed(s: State) {
    s.up.active.None? && s.up.launched == |s.up.log|
  }

  /** Only phases of uploads and the store have changed. */
  predicate Uploading(s: State, s': State) {
    s' == s.(up := s.up.(phase := s'.up.phase), st := s'.st)
  }

  lemma {:induction false} UploadOne(run: seq<State>, i: nat) returns (run': seq<State>)
    requires Reached(run) && Sealed(Last(run)) && i < |Last(run).up.log| == |Last(run).up.phase|
    ensures Onward(run, run') && Uploading(Last(run), Last(run'))
    ensures Last(run').up.phase == Last(run).up.phase[i := Last(run').up.phase[i]]
    ensures |Last(run').up.phase| == |Last(run).up.phase| && Last(run').up.phase[i].Done()
    decreases match Last(run).up.phase[i]
              case Waiting => 4 case Spawned => 3 case Built(_) => 2 case Sent(_) => 1 case _ => 0
  {
    hide Inv, IsRun;
    var s := Last(run);
    QueueFacts(s);
    run' := run;
    if s.up.phase[i].Spawned? {
      run' := Extend(run, Build(i));
      run' := UploadOne(run', i);
    } else if s.up.phase[i].Built? {
      run' := Extend(run, Send(i));
      run' := UploadOne(run', i);
    } else if s.up.phase[i].Sent? {
      run' := Extend(run, Finish(i));
      run' := UploadOne(run', i);
    }
  }

  lemma {:induction false} UploadAll(run: seq<State>, k: nat) returns (run': seq<State>)
    requires Reached(run) && Sealed(Last(run)) && k <= |Last(run).up.log| == |Last(run).up.phase|
    requires forall i :: 0 <= i < k ==> Last(run).up.phase[i].Done()
    ensures Onward(run, run') && Uploading(Last(run), Last(run')) && |Last(run').up.phase| == |Last(run).up.phase|
    ensures forall i :: 0 <= i < |Last(run').up.phase| ==> Last(run').up.phase[i].Done()
    decreases |Last(run).up.log| - k
  {
    hide Inv, IsRun;
    run' := run;
    if k < |Last(run).up.log| {
      run' := UploadOne(run, k);
      run' := UploadAll(run', k + 1);
    }
  }

  /** Nothing accumulates, and every batch is completed; with nothing wrong, all are acknowledged Ok. */
  predicate Quiet(s: State) {
    && s.up.active.None? && s.done.callback.Idle? && |s.done.outcome| == |s.up.log|
    && (!s.done.fenced ==> forall i :: 0 <= i < |s.done.outcome| ==> s.done.outcome[i])
  }

  /** Whatever was submitted can be completed. */
  lemma Drain(run: seq<State>) returns (run': seq<State>)
    requires Reached(run)
    ensures Onward(run, run') && Quiet(Last(run')) && Last(run').tr == Last(run).tr
    ensures Batches(Last(run').up) == Batches(Last(run).up)
  {
    hide Inv, IsRun, Batches;
    run' := FinishPass(run);
    run' := SealAll(run');
    QueueFacts(Last(run'));
    var u := Last(run').up;
    run' := UploadAll(run', 0);
    SameBatches(u, Last(run').up);
    u := Last(run').up;
    if u.popped < |u.log| {
      SameBatches(u, u.(popped := |u.log|));
      run' := Extend(run', Pop(|u.log| - u.popped));
      run' := FinishPass(run');
    }
    QueueFacts(Last(run'));
  }

  // ---- Trims -------------------------------------------------------------------------------------------

  predicate Follower(c: TrimCall) { c.phase.Following? || c.phase.Followed? }

  /** The current trim point belongs to a call that carries it out. */
  predicate Owned(t: Trims) {
    t.trim == -1 || exists c :: 0 <= c < |t.calls| && !Follower(t.calls[c]) && t.calls[c].offset == t.trim
  }

  lemma StepOwned(s: State, a: Action)
    requires Owned(s.tr) && Enabled(s, a)
    ensures Owned(Apply(s, a).tr)
  {
    hide Place, CountOk, Covered;
    var t, t' := s.tr, Apply(s, a).tr;
    if t.trim != -1 {
      var c :| 0 <= c < |t.calls| && !Follower(t.calls[c]) && t.calls[c].offset == t.trim;
      assert !Follower(t'.calls[c]) && t'.calls[c].offset == t.trim;
    }
    if t'.trim != t.trim {
      assert !Follower(t'.calls[|t.calls|]) && t'.calls[|t.calls|].offset == t'.trim;
    }
  }

  lemma {:induction false} RunOwned(run: seq<State>, n: nat)
    requires IsRun(run) && n < |run|
    ensures Owned(run[n].tr)
  {
    hide Enabled, Apply, Owned;
    if n == 0 {
      assert Owned(run[0].tr) by { InitOwned(run[0]); }
    } else {
      RunOwned(run, n - 1);
      assert Step(run[n - 1], run[n]);
      var a :| Enabled(run[n - 1], a) && Apply(run[n - 1], a) == run[n];
      StepOwned(run[n - 1], a);
    }
  }

  lemma InitOwned(s: State)
    requires s == Init(s.ls.me, s.up.start)
    ensures Owned(s.tr)
  {
  }

  /** The other trim calls are where they were. */
  predicate OthersSame(t: Trims, t': Trims, c: nat) {
    |t'.calls| == |t.calls| && forall k :: 0 <= k < |t.calls| && k != c ==> t'.calls[k] == t.calls[k]
  }

  lemma AppendedInLog(s: State, c: nat)
    requires Inv(s) && Quiet(s) && !s.done.fenced && c < |s.tr.calls| && s.tr.calls[c].phase.Appended?
    ensures Enabled(s, Collect(c))
  {
    hide Shape, Tiled, Fencing, Storage, Leased, Headers, Deletions;
    assert CallOk(s.up, s.done, s.st, s.tr, s.tr.calls[c]);
  }

  lemma AppendCarrier(run: seq<State>, c: nat) returns (run': seq<State>)
    requires Healthy(run) && Quiet(Last(run)) && c < |Last(run).tr.calls| && !Follower(Last(run).tr.calls[c])
    ensures Onward(run, run') && Quiet(Last(run')) && OthersSame(Last(run).tr, Last(run').tr, c)
    ensures !Follower(Last(run').tr.calls[c]) && !Last(run').tr.calls[c].phase.Registered?
  {
    hide Inv, IsRun, Place, Quiet;
    run' := run;
    if Last(run').tr.calls[c].phase.Registered? {
      run' := Extend(run', PassCheck);
      run' := Extend(run', AppendSentinel(c, false));
      run' := Drain(run');
    }
  }

  lemma CollectQuiet(s: State, c: nat)
    requires Quiet(s) && Enabled(s, Collect(c))
    ensures Quiet(Apply(s, Collect(c))) && OthersSame(s.tr, Apply(s, Collect(c)).tr, c)
    ensures Apply(s, Collect(c)).tr.calls[c].phase.Collected?
  {
    hide Covered;
  }

  lemma ReturnQuiet(s: State, c: nat)
    requires Quiet(s) && Enabled(s, ReturnTrim(c))
    ensures Quiet(Apply(s, ReturnTrim(c))) && OthersSame(s.tr, Apply(s, ReturnTrim(c)).tr, c)
    ensures Apply(s, ReturnTrim(c)).tr.calls[c].phase.Returned?
  {
  }

  /** A trim call that carries its own trim can return. */
  lemma ReturnCarrier(run: seq<State>, c: nat) returns (run': seq<State>)
    requires Healthy(run) && Quiet(Last(run)) && c < |Last(run).tr.calls| && !Follower(Last(run).tr.calls[c])
    ensures Onward(run, run') && Quiet(Last(run')) && OthersSame(Last(run).tr, Last(run').tr, c)
    ensures Last(run').tr.calls[c].phase.Returned?
  {
    hide Inv, IsRun, Covered, Quiet;
    run' := AppendCarrier(run, c);
    if Last(run').tr.calls[c].phase.Appended? {
      AppendedInLog(Last(run'), c);
      CollectQuiet(Last(run'), c);
      run' := Extend(run', Collect(c));
    }
    if Last(run').tr.calls[c].phase.Collected? {
      ReturnQuiet(Last(run'), c);
      run' := Extend(run', ReturnTrim(c));
    }
  }

  lemma {:induction false} ReturnCarriers(run: seq<State>, k: nat) returns (run': seq<State>)
    requires Healthy(run) && Quiet(Last(run)) && k <= |Last(run).tr.calls|
    requires forall c :: 0 <= c < k ==> Follower(Last(run).tr.calls[c]) || Last(run).tr.calls[c].phase.Returned?
    ensures Onward(run, run') && Quiet(Last(run')) && |Last(run').tr.calls| == |Last(run).tr.calls|
    ensures forall c :: 0 <= c < |Last(run').tr.calls| ==>
              Follower(Last(run').tr.calls[c]) || Last(run').tr.calls[c].phase.Returned?
    decreases |Last(run).tr.calls| - k
  {
    hide Inv, IsRun, Quiet;
    run' := run;
    if k < |Last(run).tr.calls| {
      if !Follower(Last(run).tr.calls[k]) {
        run' := ReturnCarrier(run, k);
      }
      run' := ReturnCarriers(run', k + 1);
    }
  }

  /** When all carriers have returned, the completed trim point is the requested one. */
  lemma CompletedAll(run: seq<State>)
    requires Healthy(run)
    requires forall c :: 0 <= c < |Last(run).tr.calls| ==>
               Follower(Last(run).tr.calls[c]) || Last(run).tr.calls[c].phase.Returned?
    ensures forall c :: 0 <= c < |Last(run).tr.calls| ==> Last(run).tr.calls[c].offset <= Last(run).tr.completed
  {
    hide IsRun, Shape, Tiled, Fencing, Storage, Leased, Headers, Deletions, CountOk, Carried;
    RunOwned(run, |run| - 1);
    var s := Last(run);
    forall c | 0 <= c < |s.tr.calls| ensures s.tr.calls[c].offset <= s.tr.completed {
      assert CallOk(s.up, s.done, s.st, s.tr, s.tr.calls[c]);
      if s.tr.trim != -1 {
        var o :| 0 <= o < |s.tr.calls| && !Follower(s.tr.calls[o]) && s.tr.calls[o].offset == s.tr.trim;
        assert CallOk(s.up, s.done, s.st, s.tr, s.tr.calls[o]);
      }
    }
  }

  lemma {:induction false} ReturnFollowers(run: seq<State>, k: nat) returns (run': seq<State>)
    requires Healthy(run) && Quiet(Last(run)) && k <= |Last(run).tr.calls|
    requires forall c :: 0 <= c < |Last(run).tr.calls| ==>
               && Last(run).tr.calls[c].offset <= Last(run).tr.completed
               && (Follower(Last(run).tr.calls[c]) || Last(run).tr.calls[c].phase.Returned?)
    requires forall c :: 0 <= c < k ==> Last(run).tr.calls[c].phase.Finished()
    ensures Onward(run, run') && Quiet(Last(run')) && |Last(run').tr.calls| == |Last(run).tr.calls|
    ensures forall c :: 0 <= c < |Last(run').tr.calls| ==> Last(run').tr.calls[c].phase.Finished()
    decreases |Last(run).tr.calls| - k
  {
    hide Inv, IsRun;
    run' := run;
    if k < |Last(run).tr.calls| {
      if Last(run).tr.calls[k].phase.Following? {
        run' := Extend(run, ReturnFollower(k));
      }
      run' := ReturnFollowers(run', k + 1);
    }
  }

  // ---- Deletion ------------------------------------------------------------------------------------------

  lemma DeletedDoomed(s: State)
    requires Inv(s)
    ensures s.st.deleted <= s.st.doomed
  {
  }

  lemma {:induction false} DeleteAll(run: seq<State>) returns (run': seq<State>)
    requires Healthy(run)
    ensures Onward(run, run') && Last(run').st.deleted == Last(run').st.doomed
    ensures Last(run').(st := Last(run).st) == Last(run)
    decreases Last(run).st.doomed - Last(run).st.deleted
  {
    hide Inv, IsRun;
    run' := run;
    DeletedDoomed(Last(run));
    if i :| i in Last(run).st.doomed && i !in Last(run).st.deleted {
      run' := Extend(run, Delete(i));
      assert i !in Last(run').st.doomed - Last(run').st.deleted;
      run' := DeleteAll(run');
    }
  }

  /** Nothing is left to do. */
  ghost predicate Settled(s: State) {
    && Quiet(s) && s.st.deleted == s.st.doomed
    && forall c :: 0 <= c < |s.tr.calls| ==> s.tr.calls[c].phase.Finished()
  }

  /** From any reachable state, fenced or not, the writer can complete every batch: no submitter has
      to wait forever. */
  lemma BatchesComplete(run: seq<State>) returns (run': seq<State>)
    requires run != [] && IsRun(run)
    ensures IsRun(run') && run <= run' && Quiet(Last(run'))
    ensures Batches(Last(run').up) == Batches(Last(run).up)
  {
    hide IsRun, Inv, Quiet, Batches;
    RunInv(run, |run| - 1);
    run' := Drain(run);
  }

  /**
   * From any reachable state in which the writer is not fenced and holds the lease, steps of the
   * writer alone lead to a state in which every submitted record is acknowledged Ok, every trim call
   * has returned and every object handed to deletion is gone.
   */
  lemma WriterFinishes(run: seq<State>) returns (run': seq<State>)
    requires run != [] && IsRun(run) && Good(Last(run))
    ensures IsRun(run') && run <= run' && Settled(Last(run')) && Good(Last(run'))
    ensures forall i :: 0 <= i < |Last(run').done.outcome| ==> Last(run').done.outcome[i]
    ensures |Last(run').tr.calls| == |Last(run).tr.calls|
  {
    hide IsRun, Inv, Quiet;
    RunInv(run, |run| - 1);
    run' := Drain(run);
    run' := ReturnCarriers(run', 0);
    CompletedAll(run');
    run' := ReturnFollowers(run', 0);
    var s := Last(run');
    run' := DeleteAll(run');
    SameQuiet(s, Last(run'));
    QueueFacts(Last(run'));
  }

  lemma SameQuiet(s: State, s': State)
    requires Quiet(s) && s'.(st := s.st) == s
    ensures Quiet(s')
  {
  }
}
