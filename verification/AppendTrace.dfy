/**
 * Runs of the append path together with their steps: the value of the confirm offset, why a record
 * was queued or dropped, and that every append can complete.
 */
module AppendTrace {
  import opened Records
  import opened Backpressure

  predicate StepAt(run: seq<State>, acts: seq<Action>, i: nat) {
    i < |acts| && i + 1 < |run| && Enabled(run[i], acts[i]) && run[i + 1] == Apply(run[i], acts[i])
  }

  /** A run and the action of each of its steps. */
  ghost predicate Trace(run: seq<State>, acts: seq<Action>) {
    && |run| == |acts| + 1 && run[0] == Init(run[0].starts)
    && forall i: nat :: i < |acts| ==> StepAt(run, acts, i)
  }

  /** Every run has its steps. */
  lemma {:induction false} RunTrace(run: seq<State>) returns (acts: seq<Action>)
    requires IsRun(run)
    ensures Trace(run, acts)
  {
    hide Enabled, Apply;
    acts := [];
    if |run| > 1 {
      var n := |run| - 1;
      assert Step(run[n - 1], run[n]);
      var a :| Enabled(run[n - 1], a) && Apply(run[n - 1], a) == run[n];
      var init := RunTrace(run[..n]);
      acts := init + [a];
      forall i: nat | i < |acts| ensures StepAt(run, acts, i) {
        if i < |init| {
          assert StepAt(run[..n], init, i);
        }
      }
    }
  }

  // ---- The confirm offset ------------------------------------------------------------------------------

  /** The step completes a record of the stream that ends at offset `o`. */
  predicate Completes(st: State, a: Action, s: nat, o: nat) {
    a.Complete? && a.i < |st.wal| && st.wal[a.i].streamId == s && st.wal[a.i].LastOffset() == o
  }

  ghost predicate CompletedBefore(run: seq<State>, acts: seq<Action>, n: nat, s: nat, o: nat) {
    exists k: nat :: k < n && k < |run| && k < |acts| && Completes(run[k], acts[k], s, o)
  }

  lemma StepConfirm(st: State, a: Action, s: nat)
    requires Enabled(st, a) && s in st.confirm
    ensures var st' := Apply(st, a);
            && st'.starts == st.starts && s in st'.confirm && st.confirm[s] <= st'.confirm[s]
            && (forall o: nat :: Completes(st, a, s, o) ==> o <= st'.confirm[s])
            && (st'.confirm[s] == st.confirm[s] || Completes(st, a, s, st'.confirm[s]))
  {
    hide Next;
  }

  /** The confirm offset never moves back. */
  lemma {:induction false} ConfirmNeverDecreases(run: seq<State>, acts: seq<Action>, m: nat, n: nat, s: nat)
    requires Trace(run, acts) && m <= n <= |acts| && s in run[m].confirm
    ensures s in run[n].confirm && run[m].confirm[s] <= run[n].confirm[s]
    decreases n
  {
    hide Enabled, Apply, Completes;
    if m < n {
      ConfirmNeverDecreases(run, acts, m, n - 1, s);
      assert StepAt(run, acts, n - 1);
      StepConfirm(run[n - 1], acts[n - 1], s);
    }
  }

  /**
   * The value of the confirm offset: in every reachable state it is the greatest of the offset at
   * which the stream was opened and the ends of its completed records.
   */
  lemma {:induction false} ConfirmIsGreatest(run: seq<State>, acts: seq<Action>, n: nat, s: nat)
    requires Trace(run, acts) && n <= |acts| && s in run[0].starts
    ensures s in run[n].starts && s in run[n].confirm && run[n].starts == run[0].starts
    ensures run[n].starts[s] <= run[n].confirm[s]
    ensures forall o: nat :: CompletedBefore(run, acts, n, s, o) ==> o <= run[n].confirm[s]
    ensures run[n].confirm[s] == run[n].starts[s] || CompletedBefore(run, acts, n, s, run[n].confirm[s])
  {
    hide Enabled, Apply, Completes;
    if n > 0 {
      ConfirmIsGreatest(run, acts, n - 1, s);
      assert StepAt(run, acts, n - 1);
      StepConfirm(run[n - 1], acts[n - 1], s);
      forall o: nat | CompletedBefore(run, acts, n, s, o) ensures o <= run[n].confirm[s] {
        var k: nat :| k < n && k < |run| && k < |acts| && Completes(run[k], acts[k], s, o);
        assert k < n - 1 ==> CompletedBefore(run, acts, n - 1, s, o);
      }
    }
  }

  // ---- Why a record is queued or dropped ------------------------------------------------------------------

  /** The step that brought an append of the stream to where it stands. */
  predicate Brought(st: State, a: Action, s: nat, pc: Pc)
    requires s in st.pc
  {
    match pc
    case Idle => false
    case Reserved(r) => a == Reserve(s, r)
    case Free(r) => a == LookAtQueue(s) && st.queue == [] && st.pc[s] == Reserved(r)
    case Permitted(r) => a == AskPermit(s, true) && st.pc[s] == Free(r)
    case Parking(r) =>
      || (a == LookAtQueue(s) && st.queue != [] && st.pc[s] == Reserved(r))
      || (a == AskPermit(s, false) && st.pc[s] == Free(r))
      || (a == Submit(s, OverCapacity) && st.pc[s] == Permitted(r))
  }

  /** Where the append stood from state `m` on. */
  predicate Stood(run: seq<State>, m: nat, n: nat, s: nat) {
    m <= n < |run| && s in run[n].pc && forall i :: m <= i <= n ==> s in run[i].pc && run[i].pc[s] == run[n].pc[s]
  }

  lemma StepPath(st: State, a: Action, s: nat)
    requires Enabled(st, a) && s in Apply(st, a).pc
    ensures s in st.pc
    ensures Apply(st, a).pc[s] == st.pc[s] || Apply(st, a).pc[s].Idle? || Brought(st, a, s, Apply(st, a).pc[s])
  {
    hide Next;
  }

  /**
   * An append goes straight to the log only after it saw an empty queue and got a permit, and it is
   * queued only because the queue was not empty, the permit was refused or the log was full. Step
   * `m` is the one that decided it.
   */
  lemma {:induction false} PathTaken(run: seq<State>, acts: seq<Action>, n: nat, s: nat) returns (m: nat)
    requires Trace(run, acts) && n <= |acts| && s in run[n].pc && !run[n].pc[s].Idle?
    ensures m < n && s in run[m].pc && Brought(run[m], acts[m], s, run[n].pc[s]) && Stood(run, m + 1, n, s)
  {
    hide Enabled, Apply, Brought;
    if n == 0 {
      assert false;
    } else {
      assert StepAt(run, acts, n - 1);
      StepPath(run[n - 1], acts[n - 1], s);
      if Brought(run[n - 1], acts[n - 1], s, run[n].pc[s]) {
        m := n - 1;
      } else {
        m := PathTaken(run, acts, n - 1, s);
      }
    }
  }

  /** The step that brought the drain task to where it stands. */
  predicate DrainBrought(st: State, a: Action, d: Drain) {
    match d
    case Resting => a == DrainPermit(false) || a == DrainSubmit(OverCapacity) || a == PopHead
    case Peeked => a == Peek && st.queue != []
    case Cleared => a == DrainPermit(true)
    case Answered => a == DrainSubmit(Accepted) || a == DrainSubmit(HardError)
  }

  /** The drain task asks the log only with a permit, and removes the head only when the log has
      answered with something other than full. */
  lemma DrainStep(st: State, a: Action)
    requires Enabled(st, a)
    ensures Apply(st, a).drain == st.drain || DrainBrought(st, a, Apply(st, a).drain)
    ensures Apply(st, a).queue == st.queue
            || (a == PopHead && st.drain.Answered? && Apply(st, a).queue == st.queue[1..])
            || (exists s :: a == Park(s) && st.pc[s].Parking? && Apply(st, a).queue == st.queue + [st.pc[s].r])
  {
    hide Next;
  }

  /** The log answered this record with a hard error. */
  predicate HardErrorOn(st: State, a: Action, x: Record) {
    || (a.Submit? && a.outcome.HardError? && a.s in st.pc && st.pc[a.s] == Permitted(x))
    || (a.DrainSubmit? && a.outcome.HardError? && st.queue != [] && st.queue[0] == x)
  }

  ghost predicate HardErrorBefore(run: seq<State>, acts: seq<Action>, n: nat, x: Record) {
    exists k: nat :: k < n && k < |run| && k < |acts| && HardErrorOn(run[k], acts[k], x)
  }

  lemma StepDrops(st: State, a: Action, x: Record)
    requires Enabled(st, a)
    ensures x in Apply(st, a).dropped <==> x in st.dropped || HardErrorOn(st, a, x)
  {
    hide Next;
  }

  /** A record is dropped if and only if the log answered it with a hard error. */
  lemma {:induction false} DroppedIff(run: seq<State>, acts: seq<Action>, n: nat, x: Record)
    requires Trace(run, acts) && n <= |acts|
    ensures x in run[n].dropped <==> HardErrorBefore(run, acts, n, x)
  {
    hide Enabled, Apply, HardErrorOn;
    if n > 0 {
      DroppedIff(run, acts, n - 1, x);
      assert StepAt(run, acts, n - 1);
      StepDrops(run[n - 1], acts[n - 1], x);
      if HardErrorBefore(run, acts, n, x) {
        var k: nat :| k < n && k < |run| && k < |acts| && HardErrorOn(run[k], acts[k], x);
        assert k < n - 1 ==> HardErrorBefore(run, acts, n - 1, x);
      }
    }
  }

  // ---- Every append can complete ---------------------------------------------------------------------------

  ghost function Last(run: seq<State>): State
    requires run != []
  {
    run[|run| - 1]
  }

  /** A continuation that admits nothing new and meets no hard error. */
  ghost predicate Onward(run: seq<State>, run': seq<State>) {
    && run != [] && run <= run' && IsRun(run') && Last(run').starts == Last(run).starts
    && Last(run').admitted == Last(run).admitted && Last(run').dropped == Last(run).dropped
  }

  lemma Extend(run: seq<State>, a: Action) returns (run': seq<State>)
    requires run != [] && IsRun(run) && Enabled(Last(run), a) && !a.Reserve?
    requires (a.Submit? || a.DrainSubmit?) ==> a.outcome.Accepted?
    ensures Onward(run, run') && Last(run') == Apply(Last(run), a)
  {
    hide Enabled, Apply;
    run' := run + [Apply(Last(run), a)];
    forall i | 0 < i < |run'| ensures Step(run'[i - 1], run'[i]) {
      if i < |run| {
        assert Step(run[i - 1], run[i]);
      } else {
        assert Enabled(run'[i - 1], a) && Apply(run'[i - 1], a) == run'[i];
      }
    }
    NothingNew(Last(run), a);
  }

  lemma NothingNew(st: State, a: Action)
    requires Enabled(st, a) && !a.Reserve? && ((a.Submit? || a.DrainSubmit?) ==> a.outcome.Accepted?)
    ensures Apply(st, a).admitted == st.admitted && Apply(st, a).dropped == st.dropped
    ensures Apply(st, a).starts == st.starts
  {
    hide Next;
  }

  /** Steps an append of the stream still has to take. */
  function Rank(pc: Pc): nat {
    match pc case Idle => 0 case Parking(_) => 1 case Permitted(_) => 1 case Free(_) => 2 case Reserved(_) => 3
  }

  lemma {:induction false} FinishAppend(run: seq<State>, s: nat) returns (run': seq<State>)
    requires run != [] && IsRun(run) && s in Last(run).pc
    ensures Onward(run, run') && Last(run').pc == Last(run).pc[s := Idle]
    decreases Rank(Last(run).pc[s])
  {
    hide IsRun;
    run' := run;
    var pc := Last(run).pc[s];
    if pc.Reserved? {
      run' := Extend(run, LookAtQueue(s));
      run' := FinishAppend(run', s);
    } else if pc.Free? {
      run' := Extend(run, AskPermit(s, true));
      run' := FinishAppend(run', s);
    } else if pc.Permitted? {
      run' := Extend(run, Submit(s, Accepted));
    } else if pc.Parking? {
      run' := Extend(run, Park(s));
    } else {
      assert Last(run).pc == Last(run).pc[s := Idle];
    }
  }

  lemma {:induction false} FinishAppends(run: seq<State>, todo: set<nat>) returns (run': seq<State>)
    requires run != [] && IsRun(run) && todo <= Last(run).pc.Keys
    requires forall s :: s in Last(run).pc && s !in todo ==> Last(run).pc[s].Idle?
    ensures Onward(run, run') && forall s :: s in Last(run').pc ==> Last(run').pc[s].Idle?
    decreases todo
  {
    hide IsRun;
    run' := run;
    if todo != {} {
      var s :| s in todo;
      run' := FinishAppend(run, s);
      run' := FinishAppends(run', todo - {s});
    }
  }

  predicate AllIdle(st: State) {
    forall s :: s in st.pc ==> st.pc[s].Idle?
  }

  /** The drain task can empty the queue. */
  lemma {:induction false} EmptyQueue(run: seq<State>) returns (run': seq<State>)
    requires run != [] && IsRun(run) && AllIdle(Last(run)) && DrainOk(Last(run))
    ensures Onward(run, run') && AllIdle(Last(run')) && Last(run').queue == [] && Last(run').drain.Resting?
    decreases |Last(run).queue|,
              match Last(run).drain case Resting => 3 case Peeked => 2 case Cleared => 1 case Answered => 0
  {
    hide IsRun;
    var st := Last(run);
    run' := run;
    if st.drain.Answered? {
      run' := Extend(run, PopHead);
      run' := EmptyQueue(run');
    } else if st.drain.Cleared? {
      run' := Extend(run, DrainSubmit(Accepted));
      run' := EmptyQueue(run');
    } else if st.drain.Peeked? {
      run' := Extend(run, DrainPermit(true));
      run' := EmptyQueue(run');
    } else if st.queue != [] {
      run' := Extend(run, Peek);
      run' := EmptyQueue(run');
    }
  }

  /** Only confirm offsets differ. */
  predicate OnlyConfirms(st: State, st': State) {
    st' == st.(confirm := st'.confirm) && st'.confirm.Keys == st.confirm.Keys
    && forall s :: s in st.confirm ==> st.confirm[s] <= st'.confirm[s]
  }

  lemma {:induction false} CompleteAll(run: seq<State>, n: nat) returns (run': seq<State>)
    requires run != [] && IsRun(run) && n <= Last(run).durable <= |Last(run).wal|
    requires forall i :: 0 <= i < |Last(run).wal| ==> Last(run).wal[i].streamId in Last(run).confirm
    ensures Onward(run, run') && OnlyConfirms(Last(run), Last(run'))
    ensures forall i :: n <= i < Last(run).durable ==>
              Last(run').confirm[Last(run).wal[i].streamId] >= Last(run).wal[i].LastOffset()
    decreases Last(run).durable - n
  {
    hide IsRun;
    run' := run;
    if n < Last(run).durable {
      run' := Extend(run, Complete(n));
      run' := CompleteAll(run', n + 1);
    }
  }

  lemma InvFacts(st: State)
    requires Inv(st)
    ensures DrainOk(st) && st.durable <= |st.wal| && st.confirm.Keys == st.starts.Keys
  {
  }

  lemma LogStreams(st: State)
    requires Inv(st)
    ensures forall i :: 0 <= i < |st.wal| ==> st.wal[i].streamId in st.starts
  {
    hide Kept, DrainOk, Confirmed, Contiguous;
    forall i | 0 <= i < |st.wal| ensures st.wal[i].streamId in st.starts {
      var s := st.wal[i].streamId;
      OfStreamMembers(st.wal, s, st.wal[i]);
      assert StreamOk(st, s);
      if s !in st.starts {
        KeptNone(st.dropped);
      }
    }
  }

  lemma KeptNone(dropped: set<Record>)
    ensures Kept([], dropped) == []
  {
  }

  lemma {:induction false} EndCovered(list: seq<Record>, from: nat, c: nat)
    requires from <= c && forall x :: x in list ==> x.LastOffset() <= c
    ensures EndOf(list, from) <= c
  {
  }

  /**
   * From every reachable state steps exist that bring each admitted record that met no hard error
   * into the log, in order, without dropping another, and raise each confirm offset to the end of
   * its stream's log.
   */
  lemma AppendsFinish(run: seq<State>) returns (run': seq<State>)
    requires run != [] && IsRun(run)
    ensures Onward(run, run') && AllIdle(Last(run')) && Last(run').queue == []
    ensures forall s :: s in Last(run).starts ==>
              var st := Last(run'); var own := OfStream(st.wal, s);
              && own == Kept(OfStream(Last(run).admitted, s), Last(run).dropped)
              && s in st.confirm && st.confirm[s] == EndOf(own, st.starts[s])
  {
    hide IsRun, Inv, OfStream, Kept, InOrder;
    run' := FinishAppends(run, Last(run).pc.Keys);
    RunInv(run', |run'| - 1);
    InvFacts(Last(run'));
    run' := EmptyQueue(run');
    RunInv(run', |run'| - 1);
    InvFacts(Last(run'));
    run' := Extend(run', Durable(|Last(run').wal|));
    RunInv(run', |run'| - 1);
    LogStreams(Last(run'));
    InvFacts(Last(run'));
    ghost var before := Last(run');
    run' := CompleteAll(run', 0);
    RunInv(run', |run'| - 1);
    InvFacts(Last(run'));
    forall s | s in Last(run).starts
      ensures var st := Last(run'); var own := OfStream(st.wal, s);
              && own == Kept(OfStream(Last(run).admitted, s), Last(run).dropped)
              && s in st.confirm && st.confirm[s] == EndOf(own, st.starts[s])
    {
      Finished(run', s);
      OpenedBelow(run', |run'| - 1, s);
      ConfirmedAll(Last(run'), s);
    }
  }

  lemma {:induction false} OpenedBelow(run: seq<State>, n: nat, s: nat)
    requires IsRun(run) && n < |run| && s in run[n].starts
    ensures s in run[n].confirm && run[n].starts[s] <= run[n].confirm[s]
  {
    hide Enabled, Apply, Completes;
    if n > 0 {
      assert Step(run[n - 1], run[n]);
      var a :| Enabled(run[n - 1], a) && Apply(run[n - 1], a) == run[n];
      SameStarts(run[n - 1], a);
      OpenedBelow(run, n - 1, s);
      StepConfirm(run[n - 1], a, s);
    }
  }

  lemma SameStarts(st: State, a: Action)
    requires Enabled(st, a)
    ensures Apply(st, a).starts == st.starts
  {
    hide Next;
  }

  lemma Finished(run: seq<State>, s: nat)
    requires run != [] && IsRun(run) && s in Last(run).starts
    requires AllIdle(Last(run)) && Last(run).queue == []
    ensures OfStream(Last(run).wal, s) == Kept(OfStream(Last(run).admitted, s), Last(run).dropped)
  {
    hide IsRun, Kept, InOrder;
    StreamOrderKept(run, |run| - 1, s);
    var own := OfStream(Last(run).wal, s);
    assert own + [] + [] == own;
  }

  lemma ConfirmedAll(st: State, s: nat)
    requires Inv(st) && s in st.starts && st.durable == |st.wal|
    requires forall i :: 0 <= i < |st.wal| ==>
               st.wal[i].streamId in st.confirm && st.confirm[st.wal[i].streamId] >= st.wal[i].LastOffset()
    requires s in st.confirm && st.starts[s] <= st.confirm[s]
    ensures st.confirm[s] == EndOf(OfStream(st.wal, s), st.starts[s])
  {
    hide Kept, DrainOk, Contiguous, StreamOk, Admission;
    assert st.wal[..st.durable] == st.wal;
    var own := OfStream(st.wal, s);
    forall x | x in own ensures x.LastOffset() <= st.confirm[s] {
      OfStreamMembers(st.wal, s, x);
    }
    EndCovered(own, st.starts[s], st.confirm[s]);
  }
}
