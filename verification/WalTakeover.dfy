/**
 * Replay after a takeover, when objects of earlier epochs are still listed, including ones a
 * displaced writer stored late.
 */
module WalTakeover {
  import opened Records
  import opened WalLayout
  import opened WalProtocol
  import opened WalInvariant
  import opened WalSafety
  import opened WalReplay

  predicate WellFormed(objects: seq<WalObject>) {
    forall o :: o in objects ==> o.start < o.end
  }

  /** Every older object that ends past the trim is directly followed by an object that starts at
      its end; `next` is where the newest epoch's first object starts. */
  predicate Abuts(olds: seq<WalObject>, trim: int, next: nat) {
    forall i :: 0 <= i < |olds| ==> LinkedAt(olds, trim, next, i)
  }

  predicate LinkedAt(olds: seq<WalObject>, trim: int, next: nat, i: nat)
    requires i < |olds|
  {
    olds[i].end > trim ==> olds[i].end == if i + 1 < |olds| then olds[i + 1].start else next
  }

  lemma {:induction false} DropOlds(olds: seq<WalObject>, own: seq<WalObject>, trim: int)
    ensures DropTrimmed(olds, trim) != [] ==> DropTrimmed(olds + own, trim) == DropTrimmed(olds, trim) + own
    ensures DropTrimmed(olds, trim) == [] ==> DropTrimmed(olds + own, trim) == DropTrimmed(own, trim)
  {
    if olds == [] {
      assert olds + own == own;
    } else if olds[0].end <= trim {
      assert (olds + own)[1..] == olds[1..] + own;
      DropOlds(olds[1..], own, trim);
    }
  }

  lemma {:induction false} DropKeepsSuffix(olds: seq<WalObject>, trim: int) returns (k: nat)
    ensures k <= |olds| && DropTrimmed(olds, trim) == olds[k..]
    ensures forall i :: 0 <= i < k ==> olds[i].end <= trim
    ensures k < |olds| ==> olds[k].end > trim
  {
    if olds == [] || olds[0].end > trim {
      k := 0;
    } else {
      var k' := DropKeepsSuffix(olds[1..], trim);
      k := k' + 1;
      assert olds[1..][k'..] == olds[k..];
      forall i | 0 <= i < k ensures olds[i].end <= trim {
        if i > 0 { assert olds[1..][i - 1].end <= trim; }
      }
    }
  }

  predicate Linked(xs: seq<WalObject>, ys: seq<WalObject>) {
    && (forall i :: 0 < i < |xs| ==> xs[i].start == xs[i - 1].end)
    && (xs != [] && ys != [] ==> xs[|xs| - 1].end == ys[0].start)
  }

  /** A run of abutting objects is taken whole, and the chain goes on behind it. */
  lemma {:induction false} ChainThrough(xs: seq<WalObject>, ys: seq<WalObject>, from: nat)
    requires xs != [] && ys != [] && xs[0].start == from && Linked(xs, ys)
    ensures Chain(xs + ys, from) == xs + Chain(ys, ys[0].start)
  {
    hide Chain;
    var x, rest := xs[0], xs[1..];
    assert xs == [x] + rest;
    assert xs + ys == [x] + (rest + ys);
    ChainCons(x, rest + ys);
    if rest == [] {
      assert rest + ys == ys;
    } else {
      assert forall i :: 0 < i < |rest| ==> rest[i] == xs[i + 1];
      ChainThrough(rest, ys, x.end);
    }
  }

  /** A broken link stops the chain at or before it. */
  lemma {:induction false} ChainStops(xs: seq<WalObject>, ys: seq<WalObject>, from: nat, j: nat)
    requires j < |xs| && ys != [] && xs[j].end != (xs + ys)[j + 1].start
    ensures forall o :: o in Chain(xs + ys, from) ==> o in xs
  {
    assert (xs + ys)[1..] == xs[1..] + ys;
    if xs[0].start == from {
      if j == 0 {
        assert Chain(xs[1..] + ys, xs[0].end) == [];
      } else {
        ChainStops(xs[1..], ys, xs[0].end, j - 1);
      }
    }
  }

  /** Past the trim, abutting objects increase, so the condition carries through to the end. */
  lemma OldsClean(olds: seq<WalObject>, own: seq<WalObject>, trim: int)
    requires WellFormed(olds) && WellFormed(own) && own != []
    requires Abuts(olds, trim, own[0].start)
    ensures Continuous(olds + own, trim) == DropTrimmed(olds, trim) + Continuous(own, trim)
  {
    hide DropTrimmed, Chain;
    DropOlds(olds, own, trim);
    var k := DropKeepsSuffix(olds, trim);
    var past := olds[k..];
    if past != [] {
      AllPast(olds, trim, k, own[0].start);
      assert own[0].end > trim;
      DropTrimmedPrefix(own, trim, 0);
      assert own[0..] == own;
      assert LinkedAt(olds, trim, own[0].start, |olds| - 1);
      forall i | 0 < i < |past| ensures past[i].start == past[i - 1].end {
        assert LinkedAt(olds, trim, own[0].start, k + i - 1);
      }
      ChainThrough(past, own, past[0].start);
    }
  }

  lemma {:induction false} AllPast(olds: seq<WalObject>, trim: int, k: nat, next: nat)
    requires WellFormed(olds) && Abuts(olds, trim, next) && k < |olds| && olds[k].end > trim
    ensures forall i :: k <= i < |olds| ==> olds[i].end > trim
    ensures next > trim
    decreases |olds| - k
  {
    assert LinkedAt(olds, trim, next, k);
    if k + 1 < |olds| {
      AllPast(olds, trim, k + 1, next);
    }
  }

  lemma OldsDirty(olds: seq<WalObject>, own: seq<WalObject>, trim: int)
    requires own != [] && !Abuts(olds, trim, own[0].start)
    ensures forall o :: o in Continuous(olds + own, trim) ==> o in olds
  {
    hide DropTrimmed, Chain;
    DropOlds(olds, own, trim);
    var k := DropKeepsSuffix(olds, trim);
    var i :| 0 <= i < |olds| && !LinkedAt(olds, trim, own[0].start, i);
    var past := olds[k..];
    assert past[i - k] == olds[i];
    assert (past + own)[i - k + 1] == if i + 1 < |olds| then olds[i + 1] else own[0];
    ChainStops(past, own, past[0].start, i - k);
  }

  /** The objects that remain of the older epochs once the overlap rule has been applied. */
  function KeptOlds(olds: seq<WalObject>, own: seq<WalObject>): seq<WalObject> {
    if olds != [] && FirstOverlapped(olds + own) then olds[1..] else olds
  }

  lemma SkipOverlapKeepsNew(olds: seq<WalObject>, own: seq<WalObject>, epoch: nat)
    requires forall o :: o in own ==> o.epoch == epoch
    ensures SkipOverlap(olds + own) == KeptOlds(olds, own) + own
  {
    if olds == [] {
      assert olds + own == own;
    } else {
      assert (olds + own)[1..] == olds[1..] + own;
    }
  }

  lemma {:induction false} ListingFacts(s: State, epoch: nat, i: nat)
    requires Faithful(s)
    ensures WellFormed(Listing(s, epoch, i))
    ensures forall o :: o in Listing(s, epoch, i) ==> o.epoch == epoch
    decreases |s.up.log| - i
  {
    hide Bulk.Entries;
    if i < |s.up.log| {
      ListingFacts(s, epoch, i + 1);
    }
  }

  lemma {:induction false} ChainHas(s: State, epoch: nat, i: nat, k: nat)
    requires Faithful(s) && i <= k < Reach(s, i) && i <= |s.up.log|
    ensures s.st.Holds(k) && Listed(s, epoch, k) in Chain(Listing(s, epoch, i), Base(s, i))
    decreases k - i
  {
    hide Chain, Bulk.Entries;
    ReachBounds(s, i);
    var o, rest := Listed(s, epoch, i), Listing(s, epoch, i + 1);
    ChainCons(o, rest);
    if i < k {
      ChainHas(s, epoch, i + 1, k);
    }
  }

  /** The confirmed batches that still hold records above the trim are all read by a pass over
      the new epoch's objects alone. */
  lemma AckedContinuous(s: State, epoch: nat, newest: nat, k: nat)
    requires Inv(s) && IsNewest(s, newest)
    requires FirstPast(s, 0, s.st.puts[newest].trim) <= k < CountOk(s.done.outcome)
    ensures s.st.Holds(k)
    ensures Listed(s, epoch, k) in Continuous(Listing(s, epoch, 0), s.st.puts[newest].trim)
  {
    hide Inv, FirstPast, Reach, Listing, Chain, DropTrimmed;
    var t := s.st.puts[newest].trim;
    var a := FirstPast(s, 0, t);
    AckedRunStored(s, newest);
    InvFaithful(s);
    ReachAtLeast(s, a, CountOk(s.done.outcome));
    ChainHas(s, epoch, a, k);
    DropListing(s, epoch, 0, t);
    FirstOfListing(s, epoch, a);
  }

  /**
   * Replay after a takeover keeps everything the new owner has confirmed, or nothing of it.
   * `olds` are the objects of earlier epochs in the listing, whoever stored them and whenever.
   * Recovery reads every confirmed object past the trim point if and only if each older object
   * that ends past that point is directly followed by one that starts at its end.
   */
  lemma TakeoverReplayIff(run: seq<State>, n: nat, epoch: nat, newest: nat, olds: seq<WalObject>)
    requires IsRun(run) && n < |run| && IsNewest(run[n], newest) && CountOk(run[n].done.outcome) > 0
    requires WellFormed(olds) && forall o :: o in olds ==> o.epoch < epoch
    ensures var s := run[n]; var t := s.st.puts[newest].trim;
            var own := Listing(s, epoch, 0); var kept := KeptOlds(olds, own);
            && own != []
            && (Abuts(kept, t, own[0].start) <==>
                forall k :: FirstPast(s, 0, t) <= k < CountOk(s.done.outcome) && s.st.Holds(k) ==>
                  Listed(s, epoch, k) in Continuous(SkipOverlap(olds + own), t))
  {
    hide Inv, FirstPast, Listing, Continuous, SkipOverlap;
    var s := run[n];
    var t, ok := s.st.puts[newest].trim, CountOk(s.done.outcome);
    var own := Listing(s, epoch, 0);
    var kept := KeptOlds(olds, own);
    RunInv(run, n);
    InvFaithful(s);
    NewestInLog(s, newest);
    ListingLast(s, epoch, 0, newest);
    ListingFacts(s, epoch, 0);
    SkipOverlapKeepsNew(olds, own, epoch);
    if Abuts(kept, t, own[0].start) {
      OldsClean(kept, own, t);
      forall k | FirstPast(s, 0, t) <= k < ok && s.st.Holds(k)
        ensures Listed(s, epoch, k) in Continuous(SkipOverlap(olds + own), t)
      {
        AckedContinuous(s, epoch, newest, k);
      }
    } else {
      OldsDirty(kept, own, t);
      var a := FirstPast(s, 0, t);
      AckedRunStored(s, newest);
      assert s.st.Holds(a) && Listed(s, epoch, a).epoch == epoch;
      assert Listed(s, epoch, a) !in kept;
    }
  }

  lemma NewestInLog(s: State, newest: nat)
    requires Faithful(s) && IsNewest(s, newest)
    ensures newest < |s.up.log|
  {
  }

  /** When the older objects end before this writer's first offset, they add nothing to replay. */
  lemma OldsAddNothing(olds: seq<WalObject>, own: seq<WalObject>, start: nat)
    requires WellFormed(olds) && WellFormed(own) && own != [] && TrimOffset(own) >= start - 1
    requires Abuts(olds, TrimOffset(own), own[0].start)
    requires forall o :: o in olds ==> o.end <= start && forall e :: e in o.entries ==> e.offset < o.end
    ensures Replay(olds + own) == Replay(own)
  {
    hide Continuous, Above;
    var t := TrimOffset(own);
    assert TrimOffset(olds + own) == t;
    OldsClean(olds, own, t);
    var past := DropTrimmed(olds, t);
    var k := DropKeepsSuffix(olds, t);
    EntriesInConcat(past, Continuous(own, t));
    forall e | e in EntriesIn(past) ensures e.offset <= t {
      var o := EntryHome(past, e);
      assert o in olds;
    }
    AboveNone(EntriesIn(past), t);
    AboveConcat(EntriesIn(past), EntriesIn(Continuous(own, t)), t);
  }

  /**
   * A confirmed trim also deletes objects of earlier epochs, oldest first, as long as they end at
   * or before the trim point. The last of them stays when the same trim deletes nothing else.
   */
  method CollectPrevious(previous: seq<WalObject>, trim: int, othersGone: bool)
    returns (gone: seq<WalObject>, kept: seq<WalObject>)
    ensures gone + kept == previous && forall o :: o in gone ==> o.end <= trim
    ensures kept == [] || kept[0].end > trim || (!othersGone && |kept| == 1)
    ensures previous != [] && !othersGone ==> kept != []
  {
    if |previous| == 0 {
      return [], [];
    }
    var bound := if othersGone then |previous| else |previous| - 1;
    var count := 0;
    while count < bound && previous[count].end <= trim
      invariant 0 <= count <= bound && forall i :: 0 <= i < count ==> previous[i].end <= trim
    {
      count := count + 1;
    }
    return previous[..count], previous[count..];
  }

  /** Deleting them changes no later replay: they end at or before the persisted trim. */
  lemma PreviousDeletionKeepsReplay(gone: seq<WalObject>, rest: seq<WalObject>)
    requires rest != [] && forall o :: o in gone ==> o.end <= TrimOffset(rest)
    ensures Replay(gone + rest) == Replay(rest)
  {
    hide DropTrimmed, Chain, Above, EntriesIn;
    var t := TrimOffset(rest);
    assert TrimOffset(gone + rest) == t;
    DropTrimmedPrefix(gone, t, |gone|);
    DropOlds(gone, rest, t);
  }

  lemma {:induction false} EntriesInConcat(a: seq<WalObject>, b: seq<WalObject>)
    ensures EntriesIn(a + b) == EntriesIn(a) + EntriesIn(b)
  {
    if a == [] {
      assert a + b == b;
    } else {
      assert (a + b)[1..] == a[1..] + b;
      EntriesInConcat(a[1..], b);
    }
  }

  lemma {:induction false} EntryHome(objects: seq<WalObject>, e: Entry) returns (o: WalObject)
    requires e in EntriesIn(objects)
    ensures o in objects && e in o.entries
  {
    if e in objects[0].entries {
      o := objects[0];
    } else {
      o := EntryHome(objects[1..], e);
    }
  }

  /** A replay of `k` abutting objects that all end past the trim. */
  lemma ReplayAbutting(objects: seq<WalObject>, k: nat)
    requires 0 < k <= |objects| && objects[0].end > TrimOffset(objects) && !FirstOverlapped(objects)
    requires forall i :: 0 < i < k ==> objects[i].start == objects[i - 1].end
    requires k < |objects| ==> objects[k].start != objects[k - 1].end
    ensures Replay(SkipOverlap(objects)) == Above(EntriesIn(objects[..k]), TrimOffset(objects))
  {
    hide Chain, Above, EntriesIn;
    ChainPrefix(objects, k);
  }

  lemma EntriesInOne(o: WalObject, rest: seq<WalObject>)
    ensures EntriesIn([o] + rest) == o.entries + EntriesIn(rest)
  {
    assert ([o] + rest)[1..] == rest;
  }

  // Epoch 1 stored `First`, and epoch 2 reset the log behind it and confirmed a record. `Late` is an
  // upload of epoch 1 that reached the store after the takeover.
  function First(a: Record): WalObject { WalObject(1, 0, ALIGN, -1, [Entry(0, a)]) }
  function Late(z: Record): WalObject { WalObject(1, ALIGN, 2 * ALIGN, -1, [Entry(ALIGN, z)]) }
  function Reset(): WalObject { WalObject(2, ALIGN, 2 * ALIGN, ALIGN - 1, [Entry(ALIGN, SENTINEL)]) }
  function Confirmed(r: Record): WalObject { WalObject(2, 2 * ALIGN, 3 * ALIGN, ALIGN - 1, [Entry(2 * ALIGN, r)]) }

  /** A late object of a displaced writer hides the new owner's confirmed record from the next
      recovery: the listing is sorted by epoch, and the two objects claim the same window. */
  lemma LateObjectHidesConfirmed(a: Record, z: Record, r: Record)
    requires a.IsUser() && z.IsUser() && r.IsUser() && r != z
    ensures Replay(SkipOverlap([First(a), Reset(), Confirmed(r)])) == [Entry(2 * ALIGN, r)]
    ensures Replay(SkipOverlap([First(a), Late(z), Reset(), Confirmed(r)])) == [Entry(ALIGN, z)]
  {
    hide Replay, SkipOverlap, Above, EntriesIn;
    var clean, dirty := [First(a), Reset(), Confirmed(r)], [First(a), Late(z), Reset(), Confirmed(r)];
    ReplayAbutting(clean, 3);
    ReplayAbutting(dirty, 2);
    assert clean[..3] == [First(a)] + ([Reset()] + ([Confirmed(r)] + []));
    assert dirty[..2] == [First(a)] + ([Late(z)] + []);
    EntriesInOne(First(a), [Reset()] + ([Confirmed(r)] + []));
    EntriesInOne(Reset(), [Confirmed(r)] + []);
    EntriesInOne(Confirmed(r), []);
    EntriesInOne(First(a), [Late(z)] + []);
    EntriesInOne(Late(z), []);
    ChainGap([], 0);
    var d, e, f, g := Entry(0, a), Entry(ALIGN, SENTINEL), Entry(2 * ALIGN, r), Entry(ALIGN, z);
    assert EntriesIn(clean[..3]) == [d] + ([e] + [f]) && EntriesIn(dirty[..2]) == [d] + [g];
    AboveConcat([d], [e] + [f], ALIGN - 1);
    AboveConcat([e], [f], ALIGN - 1);
    AboveConcat([d], [g], ALIGN - 1);
    AboveOne(d, ALIGN - 1);
    AboveOne(e, ALIGN - 1);
    AboveOne(f, ALIGN - 1);
    AboveOne(g, ALIGN - 1);
  }
}
