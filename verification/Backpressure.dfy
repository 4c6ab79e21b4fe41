/**
 * Appends under backpressure: per-stream admission, the backoff queue, its drain task, and the
 * confirm offset. Appends of different streams and the drain task interleave between any two of
 * their steps; appends of one stream are serialized by the stream's append lock.
 */
module Backpressure {
  import opened Records

  /** Where the stream's current append stands. */
  datatype Pc =
    | Idle
    | Reserved(r: Record)      // offset taken, queue not yet looked at
    | Free(r: Record)          // the queue was empty
    | Permitted(r: Record)     // the cache had room
    | Parking(r: Record)       // about to be queued

  /** Where the drain task stands; it removes the head only after the log has answered. */
  datatype Drain = Resting | Peeked | Cleared | Answered

  datatype State = State(
    starts: map<nat, nat>,     // offset at which each stream was opened
    pc: map<nat, Pc>,
    queue: seq<Record>,
    drain: Drain,
    wal: seq<Record>,
    admitted: seq<Record>,     // everything that was given an offset
    dropped: set<Record>,      // answered by the log with a hard error
    durable: nat,              // how much of the log has been confirmed, in order
    confirm: map<nat, nat>)

  function Init(starts: map<nat, nat>): State {
    State(starts, map s | s in starts :: Idle, [], Resting, [], [], {}, 0, starts)
  }

  datatype Outcome = Accepted | OverCapacity | HardError

  datatype Action =
    | Reserve(s: nat, r: Record)
    | LookAtQueue(s: nat)
    | AskPermit(s: nat, ok: bool)
    | Submit(s: nat, outcome: Outcome)
    | Park(s: nat)
    | Peek
    | DrainPermit(ok: bool)
    | DrainSubmit(outcome: Outcome)
    | PopHead
    | Durable(n: nat)
    | Complete(i: nat)

  /** The next offset of a stream: where its admitted records end. */
  function Next(st: State, s: nat): nat
    requires s in st.starts
  {
    EndOf(OfStream(st.admitted, s), st.starts[s])
  }

  predicate Enabled(st: State, a: Action) {
    match a
    case Reserve(s, r) =>
      s in st.starts && s in st.pc && st.pc[s].Idle? && r.streamId == s && r.IsUser() && r.baseOffset == Next(st, s)
    case LookAtQueue(s) => s in st.pc && st.pc[s].Reserved?
    case AskPermit(s, _) => s in st.pc && st.pc[s].Free?
    case Submit(s, _) => s in st.pc && st.pc[s].Permitted?
    case Park(s) => s in st.pc && st.pc[s].Parking?
    case Peek => st.drain.Resting? && st.queue != []
    case DrainPermit(_) => st.drain.Peeked?
    case DrainSubmit(_) => st.drain.Cleared? && st.queue != []
    case PopHead => st.drain.Answered? && st.queue != []
    case Durable(n) => st.durable <= n <= |st.wal|
    case Complete(i) => i < st.durable && i < |st.wal| && st.wal[i].streamId in st.confirm
  }

  function DoSubmit(st: State, s: nat, outcome: Outcome): State
    requires Enabled(st, Submit(s, outcome))
  {
    var r := st.pc[s].r;
    match outcome
    case Accepted => st.(wal := st.wal + [r], pc := st.pc[s := Idle])
    case OverCapacity => st.(pc := st.pc[s := Parking(r)])
    case HardError => st.(dropped := st.dropped + {r}, pc := st.pc[s := Idle])
  }

  function DoDrainSubmit(st: State, outcome: Outcome): State
    requires Enabled(st, DrainSubmit(outcome))
  {
    match outcome
    case Accepted => st.(wal := st.wal + [st.queue[0]], drain := Answered)
    case OverCapacity => st.(drain := Resting)
    case HardError => st.(dropped := st.dropped + {st.queue[0]}, drain := Answered)
  }

  function DoComplete(st: State, i: nat): State
    requires Enabled(st, Complete(i))
  {
    var r := st.wal[i];
    if st.confirm[r.streamId] < r.LastOffset() then st.(confirm := st.confirm[r.streamId := r.LastOffset()]) else st
  }

  function Apply(st: State, a: Action): State
    requires Enabled(st, a)
  {
    match a
    case Reserve(s, r) => st.(admitted := st.admitted + [r], pc := st.pc[s := Reserved(r)])
    case LookAtQueue(s) => st.(pc := st.pc[s := if st.queue == [] then Free(st.pc[s].r) else Parking(st.pc[s].r)])
    case AskPermit(s, ok) => st.(pc := st.pc[s := if ok then Permitted(st.pc[s].r) else Parking(st.pc[s].r)])
    case Submit(s, outcome) => DoSubmit(st, s, outcome)
    case Park(s) => st.(queue := st.queue + [st.pc[s].r], pc := st.pc[s := Idle])
    case Peek => st.(drain := Peeked)
    case DrainPermit(ok) => st.(drain := if ok then Cleared else Resting)
    case DrainSubmit(outcome) => DoDrainSubmit(st, outcome)
    case PopHead => st.(queue := st.queue[1..], drain := Resting)
    case Durable(n) => st.(durable := n)
    case Complete(i) => DoComplete(st, i)
  }

  ghost predicate Step(st: State, st': State) {
    exists a :: Enabled(st, a) && Apply(st, a) == st'
  }

  ghost predicate IsRun(run: seq<State>) {
    && run != [] && run[0] == Init(run[0].starts)
    && forall i :: 0 < i < |run| ==> Step(run[i - 1], run[i])
  }

  // ---- Invariant ---------------------------------------------------------------------------------------

  /** The record an append still has in its hands. */
  function Hand(pc: map<nat, Pc>, s: nat): seq<Record> {
    if s in pc && !pc[s].Idle? then [pc[s].r] else []
  }

  /** Queued records the log has not answered yet. */
  function Waiting(queue: seq<Record>, drain: Drain): seq<Record> {
    if drain.Answered? && queue != [] then queue[1..] else queue
  }

  /** Admitted records that met no hard error. */
  function Kept(rs: seq<Record>, dropped: set<Record>): seq<Record> {
    if rs == [] then []
    else
      var rest, x := Kept(rs[..|rs| - 1], dropped), rs[|rs| - 1];
      if x in dropped then rest else rest + [x]
  }

  /** A stream's kept records are those in the log, then those waiting, then the one in hand. */
  ghost predicate StreamOk(st: State, s: nat) {
    && Kept(OfStream(st.admitted, s), st.dropped)
       == OfStream(st.wal, s) + OfStream(Waiting(st.queue, st.drain), s) + Hand(st.pc, s)
    && (s in st.pc && (st.pc[s].Free? || st.pc[s].Permitted?) ==> OfStream(Waiting(st.queue, st.drain), s) == [])
    && (s in st.pc && !st.pc[s].Idle? ==> st.pc[s].r.streamId == s)
  }

  /** Offsets are handed out without gaps. */
  ghost predicate Admission(st: State) {
    && (forall s :: s in st.starts ==> ContiguousFrom(OfStream(st.admitted, s), st.starts[s]))
    && (forall s :: s !in st.starts ==> OfStream(st.admitted, s) == [])
    && (forall i :: 0 <= i < |st.admitted| ==> st.admitted[i].IsUser())
    && st.pc.Keys == st.starts.Keys && st.confirm.Keys == st.starts.Keys
  }

  ghost predicate DrainOk(st: State) {
    && (!st.drain.Resting? ==> st.queue != [])
    && (forall x :: x in st.dropped ==> x in st.admitted)
  }

  /** The confirm offset never passes what is durable. */
  ghost predicate Confirmed(st: State) {
    && st.durable <= |st.wal|
    && forall s :: s in st.starts && s in st.confirm ==>
         st.confirm[s] <= EndOf(OfStream(st.wal[..st.durable], s), st.starts[s])
  }

  ghost predicate Inv(st: State) {
    && Admission(st) && DrainOk(st) && Confirmed(st)
    && forall s :: StreamOk(st, s)
  }

  // ---- Ordered lists -----------------------------------------------------------------------------------

  /** Non-empty records from `from` on that do not overlap. */
  predicate InOrder(list: seq<Record>, from: nat) {
    && (forall i :: 0 <= i < |list| ==> list[i].count > 0 && from <= list[i].baseOffset)
    && (forall i, j :: 0 <= i < j < |list| ==> list[i].LastOffset() <= list[j].baseOffset)
  }

  lemma InOrderAppend(list: seq<Record>, x: Record, from: nat)
    requires InOrder(list, from) && x.count > 0 && EndOf(list, from) <= x.baseOffset && from <= x.baseOffset
    ensures InOrder(list + [x], from)
  {
    var n := |list|;
    var l := list + [x];
    forall i, j | 0 <= i < j < |l| ensures l[i].LastOffset() <= l[j].baseOffset {
      if j == n && i < n - 1 {
        assert list[i].LastOffset() <= list[n - 1].baseOffset;
        assert list[n - 1].count > 0;
      }
    }
  }

  lemma InOrderPart(a: seq<Record>, b: seq<Record>, from: nat)
    requires InOrder(a + b, from)
    ensures InOrder(a, from) && InOrder(b, from)
    ensures EndOf(a, from) <= EndOf(a + b, from)
    ensures forall x :: x in a ==> x !in b
  {
    var c := a + b;
    forall i | 0 <= i < |a| ensures a[i] == c[i] {
    }
    forall i | 0 <= i < |b| ensures b[i] == c[|a| + i] {
    }
    forall i, j | 0 <= i < |a| && 0 <= j < |b| ensures a[i] != b[j] {
      assert c[i].LastOffset() <= c[|a| + j].baseOffset && c[i].count > 0;
    }
  }

  lemma InOrderEnd(list: seq<Record>, from: nat, x: Record)
    requires InOrder(list, from) && x in list
    ensures from <= x.baseOffset < x.LastOffset() <= EndOf(list, from)
  {
    var i :| 0 <= i < |list| && list[i] == x;
    var n := |list| - 1;
    assert list[n].count > 0;
    if i < n {
      assert list[i].LastOffset() <= list[n].baseOffset;
    }
  }

  lemma {:induction false} RunInOrder(rs: seq<Record>, from: nat)
    requires ContiguousFrom(rs, from) && forall i :: 0 <= i < |rs| ==> rs[i].count > 0
    ensures InOrder(rs, from) && from <= EndOf(rs, from)
  {
    if rs != [] {
      hide InOrder, ContiguousFrom;
      var n := |rs| - 1;
      LastStep(rs, from);
      assert rs == rs[..n] + [rs[n]];
      RunInOrder(rs[..n], from);
      InOrderAppend(rs[..n], rs[n], from);
    }
  }

  lemma {:induction false} KeptInOrder(rs: seq<Record>, dropped: set<Record>, from: nat)
    requires InOrder(rs, from)
    ensures InOrder(Kept(rs, dropped), from) && EndOf(Kept(rs, dropped), from) <= EndOf(rs, from)
  {
    if rs != [] {
      var n := |rs| - 1;
      assert rs == rs[..n] + [rs[n]];
      InOrderPart(rs[..n], [rs[n]], from);
      KeptInOrder(rs[..n], dropped, from);
      var rest := Kept(rs[..n], dropped);
      BeforeLast(rs, from);
      InOrderAppend(rest, rs[n], from);
    }
  }

  lemma BeforeLast(rs: seq<Record>, from: nat)
    requires InOrder(rs, from) && rs != []
    ensures EndOf(rs[..|rs| - 1], from) <= rs[|rs| - 1].baseOffset < EndOf(rs, from)
  {
  }

  lemma {:induction false} KeptConcat(a: seq<Record>, b: seq<Record>, dropped: set<Record>)
    ensures Kept(a + b, dropped) == Kept(a, dropped) + Kept(b, dropped)
  {
    if b == [] {
      assert a + b == a;
    } else {
      assert (a + b)[..|a + b| - 1] == a + b[..|b| - 1];
      KeptConcat(a, b[..|b| - 1], dropped);
    }
  }

  lemma {:induction false} KeptAll(rs: seq<Record>, dropped: set<Record>)
    requires forall x :: x in rs ==> x !in dropped
    ensures Kept(rs, dropped) == rs
  {
    if rs != [] {
      KeptAll(rs[..|rs| - 1], dropped);
    }
  }

  lemma {:induction false} KeptTwice(rs: seq<Record>, d1: set<Record>, d2: set<Record>)
    ensures Kept(rs, d1 + d2) == Kept(Kept(rs, d1), d2)
  {
    if rs != [] {
      var n := |rs| - 1;
      KeptTwice(rs[..n], d1, d2);
      KeptConcat(Kept(rs[..n], d1), [rs[n]], d2);
      assert [rs[n]][..0] == [];
    }
  }

  lemma {:induction false} KeptMembers(rs: seq<Record>, dropped: set<Record>, x: Record)
    ensures x in Kept(rs, dropped) <==> x in rs && x !in dropped
  {
    if rs != [] {
      KeptMembers(rs[..|rs| - 1], dropped, x);
      assert rs == rs[..|rs| - 1] + [rs[|rs| - 1]];
    }
  }

  /** Dropping one more record takes exactly it out of the kept list. */
  lemma KeptDrop(rs: seq<Record>, dropped: set<Record>, a: seq<Record>, r: Record, b: seq<Record>, from: nat)
    requires InOrder(rs, from) && Kept(rs, dropped) == a + [r] + b
    ensures Kept(rs, dropped + {r}) == a + b
  {
    hide Kept, InOrder;
    KeptInOrder(rs, dropped, from);
    InOrderPart(a + [r], b, from);
    InOrderPart(a, [r], from);
    assert r in [r] && r in a + [r];
    KeptTwice(rs, dropped, {r});
    KeptConcat(a + [r], b, {r});
    KeptConcat(a, [r], {r});
    KeptAll(a, {r});
    KeptAll(b, {r});
    KeptOne(r);
    assert a + [] == a;
  }

  lemma KeptOne(r: Record)
    ensures Kept([r], {r}) == []
  {
    assert [r][..0] == [];
  }

  lemma {:induction false} OfStreamMembers(rs: seq<Record>, s: nat, x: Record)
    ensures x in OfStream(rs, s) <==> x in rs && x.streamId == s
  {
    if rs != [] {
      OfStreamMembers(rs[..|rs| - 1], s, x);
      assert rs == rs[..|rs| - 1] + [rs[|rs| - 1]];
    }
  }

  lemma OfStreamPush(rs: seq<Record>, x: Record, s: nat)
    ensures OfStream(rs + [x], s) == if x.streamId == s then OfStream(rs, s) + [x] else OfStream(rs, s)
  {
    assert (rs + [x])[..|rs|] == rs;
  }

  /** A stream's admitted records are in order, and so is what the log holds of it. */
  lemma StreamInOrder(st: State, s: nat)
    requires Admission(st) && StreamOk(st, s) && s in st.starts
    ensures InOrder(OfStream(st.admitted, s), st.starts[s])
    ensures InOrder(OfStream(st.wal, s), st.starts[s])
    ensures OfStream(st.wal, s) <= Kept(OfStream(st.admitted, s), st.dropped)
  {
    hide OfStream, Kept, InOrder;
    var own := OfStream(st.admitted, s);
    forall i | 0 <= i < |own| ensures own[i].count > 0 {
      OfStreamMembers(st.admitted, s, own[i]);
    }
    RunInOrder(own, st.starts[s]);
    KeptInOrder(own, st.dropped, st.starts[s]);
    var w, q, h := OfStream(st.wal, s), OfStream(Waiting(st.queue, st.drain), s), Hand(st.pc, s);
    assert w + q + h == w + (q + h);
    InOrderPart(w, q + h, st.starts[s]);
  }

  // ---- Steps keep the invariant ----------------------------------------------------------------------------

  lemma InitInv(starts: map<nat, nat>)
    ensures Inv(Init(starts))
  {
  }

  lemma NewRecord(st: State, s: nat, r: Record)
    requires Inv(st) && Enabled(st, Reserve(s, r))
    ensures r !in st.admitted && r !in st.dropped
  {
    hide OfStream, Kept, InOrder;
    assert StreamOk(st, s);
    StreamInOrder(st, s);
    OfStreamMembers(st.admitted, s, r);
    if r in st.admitted {
      InOrderEnd(OfStream(st.admitted, s), st.starts[s], r);
    }
  }

  lemma ReserveKeeps(st: State, s: nat, r: Record)
    requires Inv(st) && Enabled(st, Reserve(s, r))
    ensures Inv(Apply(st, Reserve(s, r)))
  {
    hide OfStream, Kept, Contiguous, EndOf;
    var st' := Apply(st, Reserve(s, r));
    NewRecord(st, s, r);
    forall t ensures StreamOk(st', t) {
      assert StreamOk(st, t);
      OfStreamPush(st.admitted, r, t);
      if t == s {
        KeptConcat(OfStream(st.admitted, s), [r], st.dropped);
        KeptFresh(r, st.dropped);
        assert OfStream(st.wal, s) + OfStream(Waiting(st.queue, st.drain), s) + []
            == OfStream(st.wal, s) + OfStream(Waiting(st.queue, st.drain), s);
      }
    }
    forall t | t in st.starts ensures ContiguousFrom(OfStream(st'.admitted, t), st.starts[t]) {
      OfStreamPush(st.admitted, r, t);
      if t == s {
        OneRun(r);
        ContiguousConcat(OfStream(st.admitted, s), [r], st.starts[s]);
      }
    }
    forall t | t !in st.starts ensures OfStream(st'.admitted, t) == [] {
      OfStreamPush(st.admitted, r, t);
    }
  }

  lemma OneRun(r: Record)
    ensures ContiguousFrom([r], r.baseOffset)
  {
  }

  lemma KeptFresh(r: Record, dropped: set<Record>)
    requires r !in dropped
    ensures Kept([r], dropped) == [r]
  {
    assert [r][..0] == [];
  }

  /** Steps that only move an append along. */
  lemma HandKeeps(st: State, s: nat, pc: Pc)
    requires Inv(st) && s in st.pc && !st.pc[s].Idle? && !pc.Idle? && pc.r == st.pc[s].r
    requires pc.Free? || pc.Permitted? ==> OfStream(Waiting(st.queue, st.drain), s) == []
    ensures Inv(st.(pc := st.pc[s := pc]))
  {
    hide OfStream, Kept, Contiguous, EndOf;
    var st' := st.(pc := st.pc[s := pc]);
    forall t ensures StreamOk(st', t) {
      assert StreamOk(st, t);
    }
  }

  lemma LookKeeps(st: State, s: nat)
    requires Inv(st) && Enabled(st, LookAtQueue(s))
    ensures Inv(Apply(st, LookAtQueue(s)))
  {
    HandKeeps(st, s, if st.queue == [] then Free(st.pc[s].r) else Parking(st.pc[s].r));
  }

  lemma PermitKeeps(st: State, s: nat, ok: bool)
    requires Inv(st) && Enabled(st, AskPermit(s, ok))
    ensures Inv(Apply(st, AskPermit(s, ok)))
  {
    assert StreamOk(st, s);
    HandKeeps(st, s, if ok then Permitted(st.pc[s].r) else Parking(st.pc[s].r));
  }

  /** Appending to the log moves the confirmed part of no stream. */
  lemma ConfirmedPush(st: State, r: Record)
    requires Confirmed(st)
    ensures st.durable <= |st.wal + [r]| && (st.wal + [r])[..st.durable] == st.wal[..st.durable]
  {
  }

  lemma AcceptKeeps(st: State, s: nat)
    requires Inv(st) && Enabled(st, Submit(s, Accepted))
    ensures Inv(DoSubmit(st, s, Accepted))
  {
    hide OfStream, Kept, Contiguous, EndOf;
    var r, st' := st.pc[s].r, DoSubmit(st, s, Accepted);
    ConfirmedPush(st, r);
    forall t ensures StreamOk(st', t) {
      assert StreamOk(st, t) && StreamOk(st, s);
      OfStreamPush(st.wal, r, t);
      if t == s {
        assert OfStream(st.wal, s) + [] + [r] == OfStream(st.wal, s) + [r] + [] + [];
      }
    }
  }

  lemma HardErrorKeeps(st: State, s: nat)
    requires Inv(st) && Enabled(st, Submit(s, HardError))
    ensures Inv(DoSubmit(st, s, HardError))
  {
    hide OfStream, Kept, Contiguous, EndOf, InOrder;
    var r, st' := st.pc[s].r, DoSubmit(st, s, HardError);
    InHand(st, s);
    forall t ensures StreamOk(st', t) {
      assert StreamOk(st, t) && StreamOk(st, s);
      if t == s {
        StreamInOrder(st, s);
        assert OfStream(st.wal, s) + [] + [r] == OfStream(st.wal, s) + [r] + [];
        KeptDrop(OfStream(st.admitted, s), st.dropped, OfStream(st.wal, s), r, [], st.starts[s]);
        assert OfStream(st.wal, s) + [] + [] == OfStream(st.wal, s) + [];
      } else {
        OtherStream(st, s, r, t);
      }
    }
  }

  lemma InHand(st: State, s: nat)
    requires Inv(st) && s in st.pc && !st.pc[s].Idle?
    ensures st.pc[s].r in st.admitted && st.pc[s].r.streamId == s
  {
    hide OfStream, Kept;
    assert StreamOk(st, s);
    var r := st.pc[s].r;
    assert r in Kept(OfStream(st.admitted, s), st.dropped);
    KeptMembers(OfStream(st.admitted, s), st.dropped, r);
    OfStreamMembers(st.admitted, s, r);
  }

  /** Dropping a record of one stream does not touch another's kept list. */
  lemma OtherStream(st: State, s: nat, r: Record, t: nat)
    requires r.streamId == s && t != s
    ensures Kept(OfStream(st.admitted, t), st.dropped + {r}) == Kept(OfStream(st.admitted, t), st.dropped)
  {
    hide OfStream, Kept;
    var own := OfStream(st.admitted, t);
    KeptTwice(own, st.dropped, {r});
    forall x | x in Kept(own, st.dropped) ensures x !in {r} {
      KeptMembers(own, st.dropped, x);
      OfStreamMembers(st.admitted, t, x);
    }
    KeptAll(Kept(own, st.dropped), {r});
  }

  lemma ParkKeeps(st: State, s: nat)
    requires Inv(st) && Enabled(st, Park(s))
    ensures Inv(Apply(st, Park(s)))
  {
    hide OfStream, Kept, Contiguous, EndOf;
    var r, st' := st.pc[s].r, Apply(st, Park(s));
    assert Waiting(st'.queue, st'.drain) == Waiting(st.queue, st.drain) + [r];
    forall t ensures StreamOk(st', t) {
      assert StreamOk(st, t) && StreamOk(st, s);
      OfStreamPush(Waiting(st.queue, st.drain), r, t);
      if t == s {
        var w, q := OfStream(st.wal, s), OfStream(Waiting(st.queue, st.drain), s);
        assert w + q + [r] == w + (q + [r]) + [];
      }
    }
  }

  lemma {:induction false} OfStreamHead(rs: seq<Record>, s: nat)
    requires rs != []
    ensures OfStream(rs, s) == (if rs[0].streamId == s then [rs[0]] else []) + OfStream(rs[1..], s)
  {
    assert rs == [rs[0]] + rs[1..];
    OfStreamConcat([rs[0]], rs[1..], s);
    assert [rs[0]][..0] == [];
  }

  lemma DrainAcceptKeeps(st: State)
    requires Inv(st) && Enabled(st, DrainSubmit(Accepted))
    ensures Inv(DoDrainSubmit(st, Accepted))
  {
    hide OfStream, Kept, Contiguous, EndOf;
    var r, st' := st.queue[0], DoDrainSubmit(st, Accepted);
    ConfirmedPush(st, r);
    forall t ensures StreamOk(st', t) {
      assert StreamOk(st, t);
      OfStreamPush(st.wal, r, t);
      OfStreamHead(st.queue, t);
      if t == r.streamId {
        var w, q, h := OfStream(st.wal, t), OfStream(st.queue[1..], t), Hand(st.pc, t);
        assert w + ([r] + q) + h == (w + [r]) + q + h;
      } else {
        assert [] + OfStream(st.queue[1..], t) == OfStream(st.queue[1..], t);
      }
    }
  }

  lemma HeadAdmitted(st: State)
    requires Inv(st) && st.queue != [] && !st.drain.Answered?
    ensures st.queue[0] in st.admitted && st.queue[0].streamId in st.starts
  {
    hide OfStream, Kept;
    var r := st.queue[0];
    var t := r.streamId;
    assert StreamOk(st, t);
    OfStreamMembers(st.queue, t, r);
    assert r in Kept(OfStream(st.admitted, t), st.dropped);
    KeptMembers(OfStream(st.admitted, t), st.dropped, r);
    OfStreamMembers(st.admitted, t, r);
  }

  lemma DrainErrorKeeps(st: State)
    requires Inv(st) && Enabled(st, DrainSubmit(HardError))
    ensures Inv(DoDrainSubmit(st, HardError))
  {
    hide OfStream, Kept, Contiguous, EndOf, InOrder;
    var r, st' := st.queue[0], DoDrainSubmit(st, HardError);
    HeadAdmitted(st);
    forall t ensures StreamOk(st', t) {
      assert StreamOk(st, t);
      OfStreamHead(st.queue, t);
      if t == r.streamId {
        StreamInOrder(st, t);
        var w, q, h := OfStream(st.wal, t), OfStream(st.queue[1..], t), Hand(st.pc, t);
        assert w + ([r] + q) + h == w + [r] + (q + h);
        KeptDrop(OfStream(st.admitted, t), st.dropped, w, r, q + h, st.starts[t]);
        assert w + (q + h) == w + q + h;
      } else {
        OtherStream(st, r.streamId, r, t);
        assert [] + OfStream(st.queue[1..], t) == OfStream(st.queue[1..], t);
      }
    }
  }

  /** Drain steps that neither submit nor change what is waiting. */
  lemma DrainMoves(st: State, drain: Drain, queue: seq<Record>)
    requires Inv(st) && Waiting(queue, drain) == Waiting(st.queue, st.drain) && (!drain.Resting? ==> queue != [])
    ensures Inv(st.(drain := drain, queue := queue))
  {
    hide OfStream, Kept, Contiguous, EndOf;
    var st' := st.(drain := drain, queue := queue);
    forall t ensures StreamOk(st', t) {
      assert StreamOk(st, t);
    }
  }

  lemma DurableKeeps(st: State, n: nat)
    requires Inv(st) && Enabled(st, Durable(n))
    ensures Inv(Apply(st, Durable(n)))
  {
    hide OfStream, Kept, Contiguous, InOrder;
    var st' := Apply(st, Durable(n));
    forall s | s in st.starts && s in st.confirm
      ensures st.confirm[s] <= EndOf(OfStream(st.wal[..n], s), st.starts[s])
    {
      DurableEnds(st, st.durable, n, s);
    }
    forall t ensures StreamOk(st', t) {
      assert StreamOk(st, t);
    }
  }

  lemma DurableEnds(st: State, d: nat, n: nat, s: nat)
    requires Inv(st) && d <= n <= |st.wal| && s in st.starts
    ensures InOrder(OfStream(st.wal[..n], s), st.starts[s])
    ensures EndOf(OfStream(st.wal[..d], s), st.starts[s]) <= EndOf(OfStream(st.wal[..n], s), st.starts[s])
  {
    hide OfStream, Kept, Contiguous, InOrder;
    assert StreamOk(st, s);
    StreamInOrder(st, s);
    assert st.wal == st.wal[..n] + st.wal[n..];
    OfStreamConcat(st.wal[..n], st.wal[n..], s);
    InOrderPart(OfStream(st.wal[..n], s), OfStream(st.wal[n..], s), st.starts[s]);
    assert st.wal[..n] == st.wal[..d] + st.wal[d..n];
    OfStreamConcat(st.wal[..d], st.wal[d..n], s);
    InOrderPart(OfStream(st.wal[..d], s), OfStream(st.wal[d..n], s), st.starts[s]);
  }

  lemma CompleteKeeps(st: State, i: nat)
    requires Inv(st) && Enabled(st, Complete(i))
    ensures Inv(DoComplete(st, i))
  {
    hide OfStream, Kept, Contiguous, InOrder, EndOf;
    var r, st' := st.wal[i], DoComplete(st, i);
    var s := r.streamId;
    var done := st.wal[..st.durable];
    assert done[i] == r;
    OfStreamMembers(done, s, r);
    DurableEnds(st, st.durable, st.durable, s);
    InOrderEnd(OfStream(done, s), st.starts[s], r);
    forall t ensures StreamOk(st', t) {
      assert StreamOk(st, t);
    }
  }

  lemma StepKeepsInv(st: State, a: Action)
    requires Inv(st) && Enabled(st, a)
    ensures Inv(Apply(st, a))
  {
    hide Inv;
    match a
    case Reserve(s, r) => ReserveKeeps(st, s, r);
    case LookAtQueue(s) => LookKeeps(st, s);
    case AskPermit(s, ok) => PermitKeeps(st, s, ok);
    case Submit(s, outcome) =>
      match outcome {
        case Accepted => AcceptKeeps(st, s);
        case OverCapacity => HandKeeps(st, s, Parking(st.pc[s].r));
        case HardError => HardErrorKeeps(st, s);
      }
    case Park(s) => ParkKeeps(st, s);
    case Peek => DrainMoves(st, Peeked, st.queue);
    case DrainPermit(ok) => PeekedNonempty(st); DrainMoves(st, if ok then Cleared else Resting, st.queue);
    case DrainSubmit(outcome) =>
      match outcome {
        case Accepted => DrainAcceptKeeps(st);
        case OverCapacity => DrainMoves(st, Resting, st.queue);
        case HardError => DrainErrorKeeps(st);
      }
    case PopHead => DrainMoves(st, Resting, st.queue[1..]);
    case Durable(n) => DurableKeeps(st, n);
    case Complete(i) => CompleteKeeps(st, i);
  }

  lemma PeekedNonempty(st: State)
    requires Inv(st) && !st.drain.Resting?
    ensures st.queue != []
  {
  }

  lemma {:induction false} RunInv(run: seq<State>, n: nat)
    requires IsRun(run) && n < |run|
    ensures Inv(run[n])
  {
    hide Inv, Enabled, Apply;
    if n == 0 {
      InitInv(run[0].starts);
    } else {
      RunInv(run, n - 1);
      assert Step(run[n - 1], run[n]);
      var a :| Enabled(run[n - 1], a) && Apply(run[n - 1], a) == run[n];
      StepKeepsInv(run[n - 1], a);
    }
  }

  // ---- Main results ----------------------------------------------------------------------------------------

  /**
   * However appends, rejections and drain steps interleave, the records of a stream reach the log
   * in offset order, and every admitted record that met no hard error is in the log, waiting in
   * the queue or still in its append's hands.
   */
  lemma StreamOrderKept(run: seq<State>, n: nat, s: nat)
    requires IsRun(run) && n < |run| && s in run[n].starts
    ensures InOrder(OfStream(run[n].wal, s), run[n].starts[s])
    ensures Kept(OfStream(run[n].admitted, s), run[n].dropped)
         == OfStream(run[n].wal, s) + OfStream(Waiting(run[n].queue, run[n].drain), s) + Hand(run[n].pc, s)
  {
    hide IsRun, OfStream, Kept, InOrder;
    RunInv(run, n);
    assert StreamOk(run[n], s);
    StreamInOrder(run[n], s);
  }

  /** A gap-free prefix of the kept records is a prefix of the admitted ones. */
  lemma {:induction false} GapFreePrefix(all: seq<Record>, dropped: set<Record>, w: seq<Record>, from: nat)
    requires ContiguousFrom(all, from) && InOrder(all, from) && w <= Kept(all, dropped) && ContiguousFrom(w, from)
    ensures w <= all
  {
    hide Kept, InOrder, EndOf, ContiguousFrom;
    if w != [] {
      var n := |w| - 1;
      LastStep(w, from);
      GapFreePrefix(all, dropped, w[..n], from);
      var x := w[n];
      assert Kept(all, dropped)[n] == x;
      KeptMembers(all, dropped, x);
      var i :| 0 <= i < |all| && all[i] == x;
      PrefixGoesOn(all, w[..n], x, from, i);
      assert w[..n] == all[..n];
      SameStart(all, from, i, n);
    }
  }

  lemma LastStep(w: seq<Record>, from: nat)
    requires ContiguousFrom(w, from) && w != []
    ensures var n := |w| - 1; ContiguousFrom(w[..n], from) && w[n].baseOffset == EndOf(w[..n], from)
  {
  }

  lemma PrefixGoesOn(all: seq<Record>, w: seq<Record>, x: Record, from: nat, i: nat)
    requires InOrder(all, from) && w <= all && i < |all| && all[i] == x && x.baseOffset == EndOf(w, from)
    ensures |w| <= i
  {
    assert all == w + all[|w|..];
    InOrderPart(w, all[|w|..], from);
    forall j | 0 <= j < |w| ensures all[j].baseOffset < EndOf(w, from) {
      InOrderEnd(w, from, w[j]);
    }
  }

  lemma SameStart(all: seq<Record>, from: nat, i: nat, n: nat)
    requires ContiguousFrom(all, from) && InOrder(all, from) && i < |all| && n < |all|
    requires all[i].baseOffset == EndOf(all[..n], from)
    ensures all[i] == all[n]
  {
    assert all[n].baseOffset == EndOf(all[..n], from);
    assert all[i].count > 0 && all[n].count > 0;
  }

  /** Position of the first dropped record. */
  function FirstDropped(all: seq<Record>, dropped: set<Record>, i: nat): (p: nat)
    requires i <= |all|
    ensures i <= p <= |all| && (forall k :: i <= k < p ==> all[k] !in dropped) && (p < |all| ==> all[p] in dropped)
    decreases |all| - i
  {
    if i == |all| || all[i] in dropped then i else FirstDropped(all, dropped, i + 1)
  }

  /** Kept records behind a dropped one lie beyond it. */
  lemma KeptBeyond(all: seq<Record>, dropped: set<Record>, from: nat, p: nat, x: Record)
    requires InOrder(all, from) && p < |all| && all[p] in dropped && x in Kept(all[p..], dropped)
    ensures all[p].LastOffset() <= x.baseOffset
  {
    hide Kept;
    KeptMembers(all[p..], dropped, x);
    var i :| 0 <= i < |all[p..]| && all[p..][i] == x;
    assert all[p + i] == x;
  }

  /** A prefix of the kept records that reaches past a dropped one ends beyond it. */
  lemma ReachesBeyond(all: seq<Record>, dropped: set<Record>, w: seq<Record>, from: nat, p: nat)
    requires InOrder(all, from) && p < |all| && all[p] in dropped && p < |w|
    requires w <= all[..p] + Kept(all[p..], dropped) && InOrder(w, from)
    ensures all[p].baseOffset < EndOf(w, from)
  {
    hide Kept;
    assert w[p] == Kept(all[p..], dropped)[0];
    KeptBeyond(all, dropped, from, p, w[p]);
    InOrderEnd(w, from, w[p]);
    assert all[p].count > 0;
  }

  lemma KeptSplit(all: seq<Record>, dropped: set<Record>, p: nat)
    requires p <= |all| && forall k :: 0 <= k < p ==> all[k] !in dropped
    ensures Kept(all, dropped) == all[..p] + Kept(all[p..], dropped)
    ensures p == |all| ==> Kept(all, dropped) == all
  {
    hide Kept;
    assert all == all[..p] + all[p..];
    KeptConcat(all[..p], all[p..], dropped);
    KeptAll(all[..p], dropped);
    NoTail(all, dropped, p);
  }

  /** When no dropped record lies below its end, a prefix of the kept records skips nothing. */
  lemma NoDropBelow(all: seq<Record>, dropped: set<Record>, w: seq<Record>, from: nat)
    requires InOrder(all, from) && w <= Kept(all, dropped)
    requires forall d :: d in dropped && d in all ==> d.baseOffset >= EndOf(w, from)
    ensures w <= all
  {
    hide Kept, InOrder, EndOf;
    var p := FirstDropped(all, dropped, 0);
    KeptSplit(all, dropped, p);
    KeptInOrder(all, dropped, from);
    assert Kept(all, dropped) == w + Kept(all, dropped)[|w|..];
    InOrderPart(w, Kept(all, dropped)[|w|..], from);
    if p < |all| {
      assert all[p] in all;
      if p < |w| {
        ReachesBeyond(all, dropped, w, from, p);
        assert false;
      }
      assert w == (all[..p] + Kept(all[p..], dropped))[..|w|];
    }
  }

  lemma NoTail(all: seq<Record>, dropped: set<Record>, p: nat)
    requires p <= |all|
    ensures p == |all| ==> Kept(all[p..], dropped) == []
  {
  }

  /** The records of a stream below the end of `own` met no hard error. */
  ghost predicate NoHardErrorBelow(st: State, s: nat, own: seq<Record>)
    requires s in st.starts
  {
    forall d :: d in st.dropped && d.streamId == s ==> d.baseOffset >= EndOf(own, st.starts[s])
  }

  /** Exactly when the first `m` log records leave no hole in a stream. */
  lemma PrefixHoleIff(st: State, s: nat, m: nat)
    requires Inv(st) && s in st.starts && m <= |st.wal|
    ensures var own := OfStream(st.wal[..m], s);
            ContiguousFrom(own, st.starts[s]) <==> NoHardErrorBelow(st, s, own)
  {
    hide OfStream, Kept, InOrder, Contiguous;
    assert StreamOk(st, s);
    StreamInOrder(st, s);
    assert st.wal == st.wal[..m] + st.wal[m..];
    OfStreamConcat(st.wal[..m], st.wal[m..], s);
    var all, own, from := OfStream(st.admitted, s), OfStream(st.wal[..m], s), st.starts[s];
    if ContiguousFrom(own, from) {
      GapFreePrefix(all, st.dropped, own, from);
      forall d | d in st.dropped && d.streamId == s ensures d.baseOffset >= EndOf(own, from) {
        OfStreamMembers(st.admitted, s, d);
        DroppedLater(all, st.dropped, own, from, d);
      }
    } else if NoHardErrorBelow(st, s, own) {
      forall d | d in st.dropped && d in all ensures d.baseOffset >= EndOf(own, from) {
        OfStreamMembers(st.admitted, s, d);
      }
      NoDropBelow(all, st.dropped, own, from);
      PrefixContiguous(all, own, from);
    }
  }

  /**
   * The log's part of a stream is gap-free from the stream's start exactly when no record of the
   * stream below its end was answered with a hard error.
   */
  lemma HoleIffHardError(run: seq<State>, n: nat, s: nat)
    requires IsRun(run) && n < |run| && s in run[n].starts
    ensures var st := run[n]; var own := OfStream(st.wal, s);
            ContiguousFrom(own, st.starts[s]) <==> NoHardErrorBelow(st, s, own)
  {
    hide Inv, OfStream, ContiguousFrom, NoHardErrorBelow;
    RunInv(run, n);
    assert run[n].wal[..|run[n].wal|] == run[n].wal;
    PrefixHoleIff(run[n], s, |run[n].wal|);
  }

  lemma PrefixContiguous(all: seq<Record>, w: seq<Record>, from: nat)
    requires ContiguousFrom(all, from) && w <= all
    ensures ContiguousFrom(w, from)
  {
    assert forall i :: 0 <= i < |w| ==> w[i] == all[i];
  }

  lemma DroppedLater(all: seq<Record>, dropped: set<Record>, w: seq<Record>, from: nat, d: Record)
    requires InOrder(all, from) && w <= all && w <= Kept(all, dropped) && d in all && d in dropped
    ensures d.baseOffset >= EndOf(w, from)
  {
    hide Kept;
    var i: nat :| i < |all| && all[i] == d;
    forall k | 0 <= k < |w| ensures w[k] !in dropped {
      assert Kept(all, dropped)[k] == w[k];
      KeptMembers(all, dropped, w[k]);
    }
    assert forall k :: 0 <= k < |w| ==> w[k] == all[k];
    if |w| > 0 {
      assert w[|w| - 1] == all[|w| - 1];
    }
    assert all[i].count > 0;
  }

  /** The confirm offset of a stream, raised by completions in any order, stays within what is
      durable, and that is a gap-free prefix exactly when no hard error lies below its end. */
  lemma ConfirmWithinDurable(run: seq<State>, n: nat, s: nat)
    requires IsRun(run) && n < |run| && s in run[n].starts
    ensures var st := run[n];
            && s in st.confirm && st.durable <= |st.wal|
            && var own := OfStream(st.wal[..st.durable], s);
               && st.confirm[s] <= EndOf(own, st.starts[s])
               && (ContiguousFrom(own, st.starts[s]) <==> NoHardErrorBelow(st, s, own))
  {
    hide IsRun, OfStream, Kept, InOrder, Contiguous, NoHardErrorBelow;
    RunInv(run, n);
    PrefixHoleIff(run[n], s, run[n].durable);
  }
}
