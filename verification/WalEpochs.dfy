/**
 * The epoch recovery reports with each record. It comes from an index over the whole listing that
 * only remembers where each epoch's first object starts, so it can differ from the epoch of the
 * object that holds the record.
 */
module WalEpochs {
  import opened Records
  import opened WalLayout
  import opened WalProtocol
  import opened WalInvariant
  import opened WalReplay
  import opened WalTakeover

  // ---- The index -----------------------------------------------------------------------------

  /** The first listed object of its epoch, as the scan that builds the index sees it. */
  predicate Head(all: seq<WalObject>, j: int) {
    0 <= j < |all| && (j == 0 || all[j].epoch != all[j - 1].epoch)
  }

  /** Start offset to epoch; a later epoch that starts at the same offset takes the place. */
  function EpochIndex(all: seq<WalObject>): map<nat, nat> {
    if all == [] then map[]
    else
      var n := |all| - 1;
      var rest := EpochIndex(all[..n]);
      if Head(all, n) then rest[all[n].start := all[n].epoch] else rest
  }

  /** The entry with the greatest start at or below the offset. */
  function EpochAt(index: map<nat, nat>, offset: nat): Option<nat> {
    if offset in index then Some(index[offset])
    else if offset == 0 then None
    else EpochAt(index, offset - 1)
  }

  method BuildEpochs(all: seq<WalObject>) returns (index: map<nat, nat>)
    ensures index == EpochIndex(all)
  {
    index := map[];
    var last: Option<nat> := None;
    var n := 0;
    while n < |all|
      invariant 0 <= n <= |all| && index == EpochIndex(all[..n])
      invariant last == if n == 0 then None else Some(all[n - 1].epoch)
    {
      assert all[..n + 1][..n] == all[..n];
      if last != Some(all[n].epoch) {
        index := index[all[n].start := all[n].epoch];
        last := Some(all[n].epoch);
      }
      n := n + 1;
    }
    assert all[..n] == all;
  }

  /** Listings are sorted by epoch, then start offset. */
  predicate ByEpoch(all: seq<WalObject>) {
    forall i, j :: 0 <= i < j < |all| ==> Before(all[i], all[j])
  }

  predicate Before(a: WalObject, b: WalObject) {
    a.epoch < b.epoch || (a.epoch == b.epoch && a.start <= b.start)
  }

  /** The last of the heads that start at this offset. */
  ghost predicate LastHead(all: seq<WalObject>, start: nat, j: int) {
    Head(all, j) && all[j].start == start && forall j' :: j < j' && Head(all, j') ==> all[j'].start != start
  }

  lemma HeadPrefix(all: seq<WalObject>, j: int)
    requires all != []
    ensures Head(all[..|all| - 1], j) <==> Head(all, j) && j < |all| - 1
  {
  }

  lemma LastHeadPrefix(all: seq<WalObject>, start: nat, j: int)
    requires all != [] && LastHead(all[..|all| - 1], start, j)
    requires Head(all, |all| - 1) ==> all[|all| - 1].start != start
    ensures LastHead(all, start, j)
  {
    HeadPrefix(all, j);
    forall j' | j < j' && Head(all, j') ensures all[j'].start != start {
      HeadPrefix(all, j');
    }
  }

  /** The index holds exactly the starts of heads, each with the last such head's epoch. */
  lemma {:induction false} IndexHolds(all: seq<WalObject>, start: nat) returns (j: int)
    ensures start in EpochIndex(all) ==> LastHead(all, start, j) && all[j].epoch == EpochIndex(all)[start]
    ensures start !in EpochIndex(all) ==> forall h :: Head(all, h) ==> all[h].start != start
  {
    j := -1;
    if all != [] {
      var n := |all| - 1;
      j := IndexHolds(all[..n], start);
      if Head(all, n) && all[n].start == start {
        j := n;
      } else if start in EpochIndex(all) {
        LastHeadPrefix(all, start, j);
      } else {
        forall h | Head(all, h) ensures all[h].start != start {
          HeadPrefix(all, h);
        }
      }
    }
  }

  lemma {:induction false} EpochAtGreatest(index: map<nat, nat>, offset: nat) returns (k: nat)
    ensures EpochAt(index, offset).None? ==> forall k' :: k' in index ==> k' > offset
    ensures EpochAt(index, offset).Some? ==>
              && k in index && k <= offset && EpochAt(index, offset) == Some(index[k])
              && forall k' :: k' in index && k' <= offset ==> k' <= k
  {
    if offset in index || offset == 0 {
      k := offset;
    } else {
      k := EpochAtGreatest(index, offset - 1);
    }
  }

  /** The head whose epoch a lookup reports: no head at or below the offset starts later, and none
      of those that start with it comes after it. */
  ghost predicate Reports(all: seq<WalObject>, offset: nat, j: int) {
    && Head(all, j) && all[j].start <= offset
    && forall j' :: Head(all, j') && all[j'].start <= offset ==>
         all[j'].start < all[j].start || (all[j'].start == all[j].start && j' <= j)
  }

  lemma LookupReports(all: seq<WalObject>, offset: nat) returns (j: int)
    requires exists h :: Head(all, h) && all[h].start <= offset
    ensures Reports(all, offset, j) && EpochAt(EpochIndex(all), offset) == Some(all[j].epoch)
  {
    hide EpochIndex, EpochAt;
    var index := EpochIndex(all);
    var k := EpochAtGreatest(index, offset);
    var h :| Head(all, h) && all[h].start <= offset;
    var _ := IndexHolds(all, all[h].start);
    j := IndexHolds(all, k);
    forall j' | Head(all, j') && all[j'].start <= offset
      ensures all[j'].start < all[j].start || (all[j'].start == all[j].start && j' <= j)
    {
      var _ := IndexHolds(all, all[j'].start);
    }
  }

  // ---- When the lookup is right ----------------------------------------------------------------

  lemma {:induction false} HeadOf(all: seq<WalObject>, i: nat) returns (h: nat)
    requires ByEpoch(all) && i < |all|
    ensures h <= i && Head(all, h) && all[h].epoch == all[i].epoch && all[h].start <= all[i].start
  {
    if Head(all, i) {
      h := i;
    } else {
      h := HeadOf(all, i - 1);
    }
  }

  lemma OneHead(all: seq<WalObject>, h: int, j: int)
    requires ByEpoch(all) && Head(all, h) && Head(all, j) && all[h].epoch == all[j].epoch
    ensures h == j
  {
  }

  /** The first object of another epoch starts at or below the offset, and behind the start of
      the first object of this epoch, or with it but listed later. */
  predicate Hides(all: seq<WalObject>, h: int, j: int, offset: nat) {
    && Head(all, h) && Head(all, j) && all[j].epoch != all[h].epoch && all[j].start <= offset
    && (all[h].start < all[j].start || (all[h].start == all[j].start && h < j))
  }

  ghost predicate Shadowed(all: seq<WalObject>, epoch: nat, offset: nat) {
    exists h, j :: Hides(all, h, j, offset) && all[h].epoch == epoch
  }

  /** An offset at or behind the start of a listed object is reported with that object's epoch if
      and only if no other epoch's first object shadows it. */
  lemma LookupRightIff(all: seq<WalObject>, i: nat, offset: nat)
    requires ByEpoch(all) && i < |all| && all[i].start <= offset
    ensures EpochAt(EpochIndex(all), offset).Some?
    ensures EpochAt(EpochIndex(all), offset) == Some(all[i].epoch) <==> !Shadowed(all, all[i].epoch, offset)
  {
    hide EpochIndex, EpochAt, ByEpoch;
    var h := HeadOf(all, i);
    var j := LookupReports(all, offset);
    if all[j].epoch == all[i].epoch {
      OneHead(all, h, j);
      forall h', j' | Hides(all, h', j', offset) ensures all[h'].epoch != all[i].epoch {
        if all[h'].epoch == all[i].epoch {
          OneHead(all, h', h);
        }
      }
    } else {
      assert Hides(all, h, j, offset);
    }
  }

  // ---- A whole pass ------------------------------------------------------------------------------

  /** A record as recovery hands it over. */
  datatype Delivery = Delivery(entry: Entry, epoch: nat)

  function EntriesAre(out: seq<Delivery>): seq<Entry> {
    if out == [] then [] else EntriesAre(out[..|out| - 1]) + [out[|out| - 1].entry]
  }

  lemma {:induction false} EntriesAreAt(out: seq<Delivery>, k: nat)
    ensures |EntriesAre(out)| == |out|
    ensures k < |out| ==> EntriesAre(out)[k] == out[k].entry
  {
    if out != [] {
      EntriesAreAt(out[..|out| - 1], k);
    }
  }

  lemma {:induction false} EntriesAreConcat(a: seq<Delivery>, b: seq<Delivery>)
    ensures EntriesAre(a + b) == EntriesAre(a) + EntriesAre(b)
  {
    if b == [] {
      assert a + b == a;
    } else {
      assert (a + b)[..|a + b| - 1] == a + b[..|b| - 1];
      EntriesAreConcat(a, b[..|b| - 1]);
    }
  }

  function Tag(entries: seq<Entry>, epoch: nat): seq<Delivery> {
    if entries == [] then [] else Tag(entries[..|entries| - 1], epoch) + [Delivery(entries[|entries| - 1], epoch)]
  }

  lemma {:induction false} TagHolds(entries: seq<Entry>, epoch: nat, x: Delivery)
    ensures EntriesAre(Tag(entries, epoch)) == entries
    ensures x in Tag(entries, epoch) <==> x.entry in entries && x.epoch == epoch
  {
    if entries != [] {
      var n := |entries| - 1;
      TagHolds(entries[..n], epoch, x);
      assert Tag(entries, epoch)[..n] == Tag(entries[..n], epoch) by { TagLength(entries[..n], epoch); }
      assert entries == entries[..n] + [entries[n]];
    }
  }

  lemma {:induction false} TagLength(entries: seq<Entry>, epoch: nat)
    ensures |Tag(entries, epoch)| == |entries|
  {
    if entries != [] {
      TagLength(entries[..|entries| - 1], epoch);
    }
  }

  /** What a pass should hand over: each record above the trim with the epoch of the object that
      holds it. */
  function Owned(objects: seq<WalObject>, trim: int): seq<Delivery> {
    if objects == [] then []
    else Tag(Above(objects[0].entries, trim), objects[0].epoch) + Owned(objects[1..], trim)
  }

  lemma {:induction false} OwnedEntries(objects: seq<WalObject>, trim: int)
    ensures EntriesAre(Owned(objects, trim)) == Above(EntriesIn(objects), trim)
  {
    hide Above, Tag;
    if objects == [] {
      AboveNone([], trim);
    } else {
      var o, rest := objects[0], objects[1..];
      OwnedEntries(rest, trim);
      TagHolds(Above(o.entries, trim), o.epoch, Delivery(Entry(0, SENTINEL), 0));
      EntriesAreConcat(Tag(Above(o.entries, trim), o.epoch), Owned(rest, trim));
      AboveConcat(o.entries, EntriesIn(rest), trim);
    }
  }

  predicate Holds(o: WalObject, trim: int, x: Delivery) {
    x.entry in o.entries && Delivered(x.entry, trim) && x.epoch == o.epoch
  }

  lemma {:induction false} OwnedHolds(objects: seq<WalObject>, trim: int, x: Delivery)
    ensures x in Owned(objects, trim) <==> exists o :: o in objects && Holds(o, trim, x)
  {
    hide Above, Tag, Holds;
    if objects != [] {
      var o, rest := objects[0], objects[1..];
      OwnedHolds(rest, trim, x);
      TagHolds(Above(o.entries, trim), o.epoch, x);
      AboveMembers(o.entries, trim, x.entry);
      assert x in Tag(Above(o.entries, trim), o.epoch) <==> Holds(o, trim, x) by { ByHolds(o, trim, x); }
      assert objects == [o] + rest;
    }
  }

  lemma ByHolds(o: WalObject, trim: int, x: Delivery)
    ensures Holds(o, trim, x) <==> x.entry in o.entries && Delivered(x.entry, trim) && x.epoch == o.epoch
  {
  }

  /** Every record lies at or behind the start of its object. */
  predicate Placed(all: seq<WalObject>) {
    forall i, e :: 0 <= i < |all| && e in all[i].entries ==> all[i].start <= e.offset
  }

  predicate LookedUp(all: seq<WalObject>, out: seq<Delivery>) {
    forall k :: 0 <= k < |out| ==> EpochAt(EpochIndex(all), out[k].entry.offset) == Some(out[k].epoch)
  }

  /** No record that the pass over `run` delivers is shadowed. */
  ghost predicate Unshadowed(all: seq<WalObject>, run: seq<WalObject>, trim: int) {
    forall o, e :: o in run && e in o.entries && Delivered(e, trim) ==> !Shadowed(all, o.epoch, e.offset)
  }

  /**
   * A pass over a run of listed objects reports every record with the epoch of the object that
   * holds it if and only if no delivered record is shadowed by another epoch's first object.
   */
  lemma EpochsRightIff(all: seq<WalObject>, run: seq<WalObject>, trim: int, out: seq<Delivery>)
    requires ByEpoch(all) && Placed(all) && forall o :: o in run ==> o in all
    requires EntriesAre(out) == Above(EntriesIn(run), trim) && LookedUp(all, out)
    ensures out == Owned(run, trim) <==> Unshadowed(all, run, trim)
  {
    hide EpochIndex, EpochAt, ByEpoch, Shadowed, Above, EntriesIn, Owned, EntriesAre, Placed;
    var want := Owned(run, trim);
    OwnedEntries(run, trim);
    EntriesAreAt(out, 0);
    EntriesAreAt(want, 0);
    if out == want {
      forall o, e | o in run && e in o.entries && Delivered(e, trim) ensures !Shadowed(all, o.epoch, e.offset) {
        OwnedHolds(run, trim, Delivery(e, o.epoch));
        assert Holds(o, trim, Delivery(e, o.epoch));
        RightHere(all, o, e);
      }
    }
    if Unshadowed(all, run, trim) {
      forall k | 0 <= k < |out| ensures out[k] == want[k] {
        EntriesAreAt(out, k);
        EntriesAreAt(want, k);
        OwnedHolds(run, trim, want[k]);
        var o :| o in run && Holds(o, trim, want[k]);
        RightHere(all, o, want[k].entry);
      }
    }
  }

  lemma RightHere(all: seq<WalObject>, o: WalObject, e: Entry)
    requires ByEpoch(all) && Placed(all) && o in all && e in o.entries
    ensures EpochAt(EpochIndex(all), e.offset).Some?
    ensures EpochAt(EpochIndex(all), e.offset) == Some(o.epoch) <==> !Shadowed(all, o.epoch, e.offset)
  {
    hide EpochIndex, EpochAt, ByEpoch, Shadowed;
    var i :| 0 <= i < |all| && all[i] == o;
    LookupRightIff(all, i, e.offset);
  }

  // ---- Listings in address order, and one that is not ----------------------------------------------

  /** Objects also ascend in the address space, none reaching into the next. */
  predicate ByStart(all: seq<WalObject>) {
    forall i, j :: 0 <= i < j < |all| ==> all[i].end <= all[j].start
  }

  lemma NotHidden(all: seq<WalObject>, i: nat, h: int, j: int, offset: nat)
    requires ByEpoch(all) && ByStart(all) && WellFormed(all) && i < |all| && offset < all[i].end
    requires 0 <= h < |all| && all[h].epoch == all[i].epoch
    ensures !Hides(all, h, j, offset)
  {
    if 0 <= j < |all| {
      assert all[j] in all;
    }
  }

  /** Epochs are right for every pass over such a listing. */
  lemma ByStartRight(all: seq<WalObject>, run: seq<WalObject>, trim: int)
    requires ByEpoch(all) && ByStart(all) && WellFormed(all) && forall o :: o in run ==> o in all
    requires forall o, e :: o in all && e in o.entries ==> e.offset < o.end
    ensures Unshadowed(all, run, trim)
  {
    hide ByEpoch, ByStart, WellFormed;
    forall o, e | o in run && e in o.entries && Delivered(e, trim) ensures !Shadowed(all, o.epoch, e.offset) {
      var i: nat :| i < |all| && all[i] == o;
      forall h, j | Hides(all, h, j, e.offset) ensures all[h].epoch != o.epoch {
        if all[h].epoch == o.epoch {
          NotHidden(all, i, h, j, e.offset);
        }
      }
    }
  }

  lemma OrderCons(o: WalObject, rest: seq<WalObject>)
    requires ByStart(rest) && forall x :: x in rest ==> x.start >= o.end
    ensures ByStart([o] + rest)
  {
    assert forall j :: 0 <= j < |rest| ==> rest[j] in rest;
  }

  lemma {:induction false} ListingOrder(s: State, epoch: nat, i: nat)
    requires Faithful(s)
    ensures ByStart(Listing(s, epoch, i))
    decreases |s.up.log| - i
  {
    hide Bulk.Entries, Laid, Faithful, Listed;
    if i < |s.up.log| {
      hide ByStart;
      ListingOrder(s, epoch, i + 1);
      if s.st.Holds(i) {
        ListedLaid(s, epoch, i);
        ListingStarts(s, epoch, i + 1);
        OrderCons(Listed(s, epoch, i), Listing(s, epoch, i + 1));
      } else {
        assert Listing(s, epoch, i) == Listing(s, epoch, i + 1);
      }
    }
  }

  /** Over the objects of one writer, whatever the interleaving was, every record is reported with
      the writer's epoch. */
  lemma OwnEpochRight(run: seq<State>, n: nat, epoch: nat, trim: int)
    requires IsRun(run) && n < |run|
    ensures var all := Listing(run[n], epoch, 0);
            ByEpoch(all) && Placed(all) && Unshadowed(all, Continuous(all, trim), trim)
  {
    hide Inv, Listing, Unshadowed;
    var s := run[n];
    var all := Listing(s, epoch, 0);
    RunInv(run, n);
    InvFaithful(s);
    ListingFacts(s, epoch, 0);
    ListingOrder(s, epoch, 0);
    ListingLaid(s, epoch, 0);
    assert forall i :: 0 <= i < |all| ==> all[i] in all;
    ContinuousListed(all, trim);
    ByStartRight(all, Continuous(all, trim), trim);
  }

  lemma ContinuousListed(all: seq<WalObject>, trim: int)
    ensures forall o :: o in Continuous(all, trim) ==> o in all
  {
    hide DropTrimmed, Chain;
    var k := DropKeepsSuffix(all, trim);
    if k < |all| {
      ChainListed(all[k..], all[k].start);
    }
  }

  lemma {:induction false} ChainListed(all: seq<WalObject>, from: nat)
    ensures forall o :: o in Chain(all, from) ==> o in all
  {
    if !(all == [] || all[0].start != from) {
      ChainListed(all[1..], all[0].end);
    }
  }

  /** The late object of a displaced writer is replayed, and its record reported with the epoch of
      the new owner. */
  lemma LateObjectWrongEpoch(a: Record, z: Record, r: Record)
    requires a.IsUser() && z.IsUser() && r.IsUser() && r != z
    ensures var all := [First(a), Late(z), Reset(), Confirmed(r)];
            && SkipOverlap(all) == all && ByEpoch(all) && Placed(all)
            && Replay(all) == [Entry(ALIGN, z)] && Late(z).entries == [Entry(ALIGN, z)] && Late(z).epoch == 1
            && EpochAt(EpochIndex(all), ALIGN) == Some(2)
  {
    hide Replay, EpochAt, EpochIndex;
    LateObjectHidesConfirmed(a, z, r);
    LateLookup([First(a), Late(z), Reset(), Confirmed(r)]);
  }

  lemma LateLookup(all: seq<WalObject>)
    requires |all| == 4 && all[0].start == 0 && all[1].start == all[2].start == ALIGN && all[3].start == 2 * ALIGN
    requires all[0].epoch == all[1].epoch == 1 && all[2].epoch == all[3].epoch == 2
    ensures EpochAt(EpochIndex(all), ALIGN) == Some(2)
  {
    hide EpochAt, EpochIndex;
    assert Head(all, 2);
    var j := LookupReports(all, ALIGN);
  }
}
