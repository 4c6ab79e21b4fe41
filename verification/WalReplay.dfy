/** Recovery's view of the log: which listed objects are replayed, and what that yields. */
module WalReplay {
  import opened WalLayout
  import opened WalProtocol
  import opened WalInvariant
  import opened WalSafety

  /** An object in a listing, with what its header and body hold. */
  datatype WalObject = WalObject(epoch: nat, start: nat, end: nat, trim: int, entries: seq<Entry>)

  /** The trim point is the newest object's. */
  function TrimOffset(objects: seq<WalObject>): int {
    if objects == [] then -1 else objects[|objects| - 1].trim
  }

  function DropTrimmed(objects: seq<WalObject>, trim: int): seq<WalObject> {
    if objects == [] || objects[0].end > trim then objects
    else DropTrimmed(objects[1..], trim)
  }

  /** The gap-free run that starts at offset `from`. */
  function Chain(objects: seq<WalObject>, from: nat): seq<WalObject> {
    if objects == [] || objects[0].start != from then []
    else [objects[0]] + Chain(objects[1..], objects[0].end)
  }

  /** The objects recovery reads: past the trim point, up to the first gap. */
  function Continuous(objects: seq<WalObject>, trim: int): seq<WalObject> {
    var kept := DropTrimmed(objects, trim);
    if kept == [] then [] else Chain(kept, kept[0].start)
  }

  function EntriesIn(objects: seq<WalObject>): seq<Entry> {
    if objects == [] then [] else objects[0].entries + EntriesIn(objects[1..])
  }

  /** Everything one recovery pass delivers for a listing. */
  function Replay(objects: seq<WalObject>): seq<Entry> {
    var trim := TrimOffset(objects);
    Above(EntriesIn(Continuous(objects, trim)), trim)
  }

  /** An object's entries ascend inside its own window. */
  predicate Laid(o: WalObject) {
    o.start <= o.end && Ascending(o.entries) && forall e :: e in o.entries ==> o.start <= e.offset < o.end
  }

  /** Is the first listed object overlapped by a later object of another epoch? */
  predicate FirstOverlapped(objects: seq<WalObject>) {
    objects != [] &&
    exists j :: 0 < j < |objects| && objects[j].epoch != objects[0].epoch && objects[0].end > objects[j].start
  }

  /** Only the first object is ever dropped for overlapping a newer epoch. */
  function SkipOverlap(objects: seq<WalObject>): seq<WalObject> {
    if FirstOverlapped(objects) then objects[1..] else objects
  }

  // ---- The order of a replay -------------------------------------------------------------------

  lemma {:induction false} ChainAscends(objects: seq<WalObject>, from: nat)
    requires forall o :: o in objects ==> Laid(o)
    ensures Ascending(EntriesIn(Chain(objects, from)))
    ensures forall e :: e in EntriesIn(Chain(objects, from)) ==> from <= e.offset
  {
    if objects != [] && objects[0].start == from {
      var rest := EntriesIn(Chain(objects[1..], objects[0].end));
      ChainAscends(objects[1..], objects[0].end);
      assert objects[0] in objects && Laid(objects[0]);
      AscendingJoin(objects[0].entries, rest, objects[0].end);
      assert Chain(objects, from)[1..] == Chain(objects[1..], objects[0].end);
      assert EntriesIn(Chain(objects, from)) == objects[0].entries + rest;
    }
  }

  lemma AscendingJoin(a: seq<Entry>, b: seq<Entry>, cut: nat)
    requires Ascending(a) && Ascending(b)
    requires (forall e :: e in a ==> e.offset < cut) && forall e :: e in b ==> cut <= e.offset
    ensures Ascending(a + b)
  {
  }

  lemma {:induction false} DropTrimmedListed(objects: seq<WalObject>, trim: int)
    ensures forall o :: o in DropTrimmed(objects, trim) ==> o in objects
  {
    if objects != [] && objects[0].end <= trim {
      DropTrimmedListed(objects[1..], trim);
    }
  }

  /** Whatever the listing, replay delivers log offsets in strictly ascending order. */
  lemma ReplayAscends(objects: seq<WalObject>)
    requires forall o :: o in objects ==> Laid(o)
    ensures Ascending(Replay(objects))
  {
    hide Laid, Above, DropTrimmed, Chain;
    var trim := TrimOffset(objects);
    var kept := DropTrimmed(objects, trim);
    DropTrimmedListed(objects, trim);
    if kept != [] {
      ChainAscends(kept, kept[0].start);
    }
    AboveAscending(EntriesIn(Continuous(objects, trim)), trim);
  }

  // ---- The two scans of recovery as loops ------------------------------------------------------

  lemma {:induction false} DropTrimmedPrefix(objects: seq<WalObject>, trim: int, k: nat)
    requires k <= |objects| && forall i :: 0 <= i < k ==> objects[i].end <= trim
    requires k < |objects| ==> objects[k].end > trim
    ensures DropTrimmed(objects, trim) == objects[k..]
  {
    if k > 0 {
      DropTrimmedPrefix(objects[1..], trim, k - 1);
      assert objects[1..][k - 1..] == objects[k..];
    }
  }

  lemma {:induction false} ChainPrefix(objects: seq<WalObject>, k: nat)
    requires 0 < k <= |objects|
    requires forall i :: 0 < i < k ==> objects[i].start == objects[i - 1].end
    requires k < |objects| ==> objects[k].start != objects[k - 1].end
    ensures Chain(objects, objects[0].start) == objects[..k]
  {
    if k == 1 {
      assert objects[..1] == [objects[0]];
    } else {
      ChainPrefix(objects[1..], k - 1);
      assert objects[1..][..k - 1] == objects[1..k];
    }
  }

  method GetContinuousFromTrimOffset(objects: seq<WalObject>, trim: int) returns (r: seq<WalObject>)
    ensures r == Continuous(objects, trim)
  {
    hide DropTrimmed, Chain;
    if |objects| == 0 {
      DropTrimmedPrefix(objects, trim, 0);
      return [];
    }
    var startIndex := |objects|;
    var i := 0;
    while i < |objects|
      invariant 0 <= i <= |objects|
      invariant startIndex == |objects|
      invariant forall k :: 0 <= k < i ==> objects[k].end <= trim
    {
      if objects[i].end > trim {
        startIndex := i;
        break;
      }
      i := i + 1;
    }
    DropTrimmedPrefix(objects, trim, startIndex);
    if startIndex >= |objects| {
      return [];
    }
    var endIndex := startIndex + 1;
    i := startIndex + 1;
    while i < |objects|
      invariant startIndex < i <= |objects|
      invariant endIndex == i
      invariant forall k :: startIndex < k < endIndex ==> objects[k].start == objects[k - 1].end
    {
      if objects[i].start != objects[i - 1].end {
        break;
      }
      endIndex := i + 1;
      i := i + 1;
    }
    ghost var kept := objects[startIndex..];
    ChainPrefix(kept, endIndex - startIndex);
    assert kept[..endIndex - startIndex] == objects[startIndex..endIndex];
    return objects[startIndex..endIndex];
  }

  method SkipOverlapObjects(objects: seq<WalObject>) returns (kept: seq<WalObject>, dropped: seq<WalObject>)
    requires forall i, j :: 0 <= i < j < |objects| ==> objects[i] != objects[j]
    ensures kept == SkipOverlap(objects)
    ensures forall d :: d in dropped ==> objects != [] && d == objects[0]
    ensures dropped != [] <==> FirstOverlapped(objects)
  {
    dropped := [];
    var i := 1;
    while i < |objects|
      invariant 1 <= i
      invariant forall d :: d in dropped ==> objects != [] && d == objects[0]
      invariant dropped != [] <==>
                exists j :: 0 < j < i && j < |objects|
                            && objects[j].epoch != objects[0].epoch && objects[0].end > objects[j].start
    {
      if objects[0].epoch != objects[i].epoch && objects[0].end > objects[i].start {
        dropped := dropped + [objects[0]];
      }
      i := i + 1;
    }
    kept := objects;
    var d := 0;
    while d < |dropped|
      invariant 0 <= d <= |dropped|
      invariant dropped != [] ==> objects != []
      invariant kept == if d == 0 then objects else objects[1..]
    {
      assert dropped[d] in dropped;
      assert forall k :: 0 < k < |objects| ==> objects[k] != objects[0];
      kept := RemoveFirst(kept, dropped[d]);
      d := d + 1;
    }
  }

  /** Remove the first occurrence, if any. */
  method RemoveFirst(objects: seq<WalObject>, x: WalObject) returns (r: seq<WalObject>)
    ensures x !in objects ==> r == objects
    ensures objects != [] && objects[0] == x ==> r == objects[1..]
    ensures x in objects ==> exists k :: 0 <= k < |objects| && objects[k] == x && x !in objects[..k]
                                        && r == objects[..k] + objects[k + 1..]
  {
    var i := 0;
    while i < |objects| && objects[i] != x
      invariant 0 <= i <= |objects| && x !in objects[..i]
    {
      i := i + 1;
    }
    if i < |objects| {
      r := objects[..i] + objects[i + 1..];
    } else {
      r := objects;
    }
  }

  // ---- What a crash of the writer leaves to replay ---------------------------------------------

  /** Stored objects hold exactly their batch, at its place in the address space. */
  ghost predicate Faithful(s: State) {
    && (forall i :: 0 <= i < |s.up.log| ==> s.up.log[i].Ok() && s.up.log[i].base == s.up.start + ALIGN * i)
    && (forall i :: i in s.st.puts ==> 0 <= i < |s.up.log| && s.st.puts[i] == StoredObj(s.up.log[i], s.st.puts[i].trim))
  }

  lemma InvFaithful(s: State)
    requires Inv(s)
    ensures Faithful(s)
  {
    hide Fencing, Leased, Headers, Calls, Deletions;
  }

  function Listed(s: State, epoch: nat, i: nat): WalObject
    requires s.st.Holds(i)
  {
    var o := s.st.puts[i];
    WalObject(epoch, o.base, o.End(), o.trim, o.entries)
  }

  /** This writer's stored objects from batch `i` on, as a listing sorted by start offset. */
  function Listing(s: State, epoch: nat, i: nat): seq<WalObject>
    decreases |s.up.log| - i
  {
    if i >= |s.up.log| then []
    else (if s.st.Holds(i) then [Listed(s, epoch, i)] else []) + Listing(s, epoch, i + 1)
  }

  function Base(s: State, i: nat): nat { s.up.start + ALIGN * i }

  lemma ListedLaid(s: State, epoch: nat, i: nat)
    requires Faithful(s) && i < |s.up.log| && s.st.Holds(i)
    ensures Laid(Listed(s, epoch, i)) && Listed(s, epoch, i).end == Base(s, i + 1)
  {
    hide Bulk.Entries, Ascending;
    BulkEntries(s.up.log[i]);
  }

  lemma {:induction false} ListingLaid(s: State, epoch: nat, i: nat)
    requires Faithful(s)
    ensures forall o :: o in Listing(s, epoch, i) ==> Laid(o)
    decreases |s.up.log| - i
  {
    hide Bulk.Entries, Laid, Faithful, Listed;
    if i < |s.up.log| {
      ListingLaid(s, epoch, i + 1);
      if s.st.Holds(i) {
        ListedLaid(s, epoch, i);
      }
    }
  }

  lemma {:induction false} ListingStarts(s: State, epoch: nat, i: nat)
    requires Faithful(s)
    ensures forall o :: o in Listing(s, epoch, i) ==> o.start >= Base(s, i)
    decreases |s.up.log| - i
  {
    if i < |s.up.log| {
      ListingStarts(s, epoch, i + 1);
    }
  }

  /** First batch at or after `i` that is not in the store. */
  function Reach(s: State, i: nat): nat
    decreases |s.up.log| - i
  {
    if i < |s.up.log| && s.st.Holds(i) then Reach(s, i + 1) else i
  }

  lemma {:induction false} ReachBounds(s: State, i: nat)
    requires i <= |s.up.log|
    ensures i <= Reach(s, i) <= |s.up.log|
    ensures forall k :: i <= k < Reach(s, i) ==> s.st.Holds(k)
    ensures Reach(s, i) < |s.up.log| ==> !s.st.Holds(Reach(s, i))
    decreases |s.up.log| - i
  {
    if i < |s.up.log| && s.st.Holds(i) {
      ReachBounds(s, i + 1);
    }
  }

  lemma {:induction false} ReachAtLeast(s: State, i: nat, k: nat)
    requires i <= k <= |s.up.log| && forall j :: i <= j < k ==> s.st.Holds(j)
    ensures k <= Reach(s, i)
    decreases k - i
  {
    if i < k {
      assert s.st.Holds(i);
      ReachAtLeast(s, i + 1, k);
    } else {
      ReachBounds(s, i);
    }
  }

  lemma ChainCons(o: WalObject, rest: seq<WalObject>)
    ensures Chain([o] + rest, o.start) == [o] + Chain(rest, o.end)
    ensures EntriesIn([o] + rest) == o.entries + EntriesIn(rest)
  {
    assert ([o] + rest)[1..] == rest;
  }

  lemma EntriesOfCons(log: seq<Bulk>, i: nat, r: nat)
    requires i < r <= |log|
    ensures EntriesOf(log[i..r]) == log[i].Entries() + EntriesOf(log[i + 1..r])
  {
    hide Bulk.Entries;
    assert log[i..r] == [log[i]] + log[i + 1..r];
    EntriesOfConcat([log[i]], log[i + 1..r]);
    EntriesOfOne(log[i]);
  }

  /** The gap-free run from batch `i` yields the batches up to the first one missing. */
  lemma {:induction false} ChainListing(s: State, epoch: nat, i: nat)
    requires Faithful(s) && i <= |s.up.log|
    ensures i <= Reach(s, i) <= |s.up.log|
    ensures EntriesIn(Chain(Listing(s, epoch, i), Base(s, i))) == EntriesOf(s.up.log[i..Reach(s, i)])
    decreases |s.up.log| - i
  {
    hide Bulk.Entries, Chain, EntriesOf, EntriesIn;
    ReachBounds(s, i);
    if i < |s.up.log| && s.st.Holds(i) {
      ChainListing(s, epoch, i + 1);
      var o, rest := Listed(s, epoch, i), Listing(s, epoch, i + 1);
      ReachBounds(s, i + 1);
      ChainCons(o, rest);
      ChainCons(o, Chain(rest, o.end));
      EntriesOfCons(s.up.log, i, Reach(s, i));
    } else {
      ListingStarts(s, epoch, i + 1);
      ChainGap(Listing(s, epoch, i), Base(s, i));
      assert s.up.log[i..i] == [];
      EntriesOfNone();
    }
  }

  lemma ChainGap(objects: seq<WalObject>, from: nat)
    requires forall o :: o in objects ==> o.start > from
    ensures Chain(objects, from) == [] && EntriesIn([]) == []
  {
  }

  lemma EntriesOfNone()
    ensures EntriesOf([]) == []
  {
  }

  lemma EntriesOfOne(b: Bulk)
    ensures EntriesOf([b]) == b.Entries()
  {
    hide Bulk.Entries;
    assert [b][..0] == [];
  }

  /** First stored batch at or after `i` whose object ends past the trim point. */
  function FirstPast(s: State, i: nat, trim: int): nat
    decreases |s.up.log| - i
  {
    if i >= |s.up.log| || (s.st.Holds(i) && Base(s, i + 1) > trim) then i
    else FirstPast(s, i + 1, trim)
  }

  lemma {:induction false} FirstPastBounds(s: State, i: nat, trim: int)
    requires i <= |s.up.log|
    ensures i <= FirstPast(s, i, trim) <= |s.up.log|
    ensures forall k :: i <= k < FirstPast(s, i, trim) ==> !s.st.Holds(k) || Base(s, k + 1) <= trim
    ensures FirstPast(s, i, trim) < |s.up.log| ==>
              s.st.Holds(FirstPast(s, i, trim)) && Base(s, FirstPast(s, i, trim) + 1) > trim
    decreases |s.up.log| - i
  {
    if !(i >= |s.up.log| || (s.st.Holds(i) && Base(s, i + 1) > trim)) {
      FirstPastBounds(s, i + 1, trim);
    }
  }

  lemma {:induction false} DropListing(s: State, epoch: nat, i: nat, trim: int)
    requires Faithful(s) && i <= |s.up.log|
    ensures DropTrimmed(Listing(s, epoch, i), trim) == Listing(s, epoch, FirstPast(s, i, trim))
    decreases |s.up.log| - i
  {
    hide Bulk.Entries;
    if i < |s.up.log| {
      DropListing(s, epoch, i + 1, trim);
      var all := Listing(s, epoch, i);
      if s.st.Holds(i) {
        assert all[0] == Listed(s, epoch, i) && all[1..] == Listing(s, epoch, i + 1);
      } else {
        assert all == Listing(s, epoch, i + 1);
      }
    }
  }

  lemma {:induction false} ListingLast(s: State, epoch: nat, i: nat, newest: nat)
    requires newest < |s.up.log| && IsNewest(s, newest) && i <= newest
    ensures Listing(s, epoch, i) != []
    ensures TrimOffset(Listing(s, epoch, i)) == s.st.puts[newest].trim
    decreases |s.up.log| - i
  {
    if i < newest {
      ListingLast(s, epoch, i + 1, newest);
    } else {
      ListingEmpty(s, epoch, i + 1);
      assert Listing(s, epoch, i) == [Listed(s, epoch, i)];
    }
  }

  lemma {:induction false} ListingEmpty(s: State, epoch: nat, i: nat)
    requires forall k: nat :: i <= k ==> !s.st.Holds(k)
    ensures Listing(s, epoch, i) == []
    decreases |s.up.log| - i
  {
    if i < |s.up.log| {
      ListingEmpty(s, epoch, i + 1);
    }
  }

  /** Replay of this writer's own objects is the stored run past the trim point. */
  lemma ReplayListing(s: State, epoch: nat, newest: nat)
    requires Faithful(s) && IsNewest(s, newest)
    ensures var t := s.st.puts[newest].trim; var a := FirstPast(s, 0, t);
            && a <= Reach(s, a) <= |s.up.log|
            && Replay(Listing(s, epoch, 0)) == Above(EntriesOf(s.up.log[a..Reach(s, a)]), t)
  {
    hide Above, EntriesOf, EntriesIn, Continuous, Reach, FirstPast, Listing;
    assert newest < |s.up.log|;
    hide Faithful;
    var t := s.st.puts[newest].trim;
    ListingLast(s, epoch, 0, newest);
    ContinuousListing(s, epoch, t);
  }

  /** The entries of the run that recovery reads are those of the stored run past the trim. */
  lemma ContinuousListing(s: State, epoch: nat, t: int)
    requires Faithful(s)
    ensures var a := FirstPast(s, 0, t);
            && a <= Reach(s, a) <= |s.up.log|
            && EntriesIn(Continuous(Listing(s, epoch, 0), t)) == EntriesOf(s.up.log[a..Reach(s, a)])
  {
    hide EntriesOf, EntriesIn, DropTrimmed, Reach, FirstPast, Listing, Chain, Faithful;
    var a := FirstPast(s, 0, t);
    FirstPastBounds(s, 0, t);
    ReachBounds(s, a);
    DropListing(s, epoch, 0, t);
    FirstOfListing(s, epoch, a);
    if a < |s.up.log| {
      ChainListing(s, epoch, a);
    } else {
      assert s.up.log[a..Reach(s, a)] == [];
      EntriesOfNone();
      ChainGap([], 0);
    }
  }

  lemma FirstOfListing(s: State, epoch: nat, a: nat)
    requires Faithful(s)
    ensures a < |s.up.log| && s.st.Holds(a) ==>
              Listing(s, epoch, a) != [] && Listing(s, epoch, a)[0].start == Base(s, a)
    ensures a >= |s.up.log| ==> Listing(s, epoch, a) == []
  {
  }

  // ---- Exactly what replay delivers ------------------------------------------------------------

  lemma {:induction false} AboveBulksNone(bulks: seq<Bulk>, trim: int)
    requires forall i, e :: 0 <= i < |bulks| && e in bulks[i].Entries() ==> e.offset <= trim
    ensures Above(EntriesOf(bulks), trim) == []
  {
    hide Bulk.Entries;
    if bulks != [] {
      var init, last := bulks[..|bulks| - 1], bulks[|bulks| - 1];
      AboveBulksNone(init, trim);
      AboveNone(last.Entries(), trim);
      AboveConcat(EntriesOf(init), last.Entries(), trim);
    }
  }

  lemma AboveSplit(bulks: seq<Bulk>, k: nat, trim: int)
    requires k <= |bulks|
    ensures Above(EntriesOf(bulks), trim)
         == Above(EntriesOf(bulks[..k]), trim) + Above(EntriesOf(bulks[k..]), trim)
  {
    hide Bulk.Entries, EntriesOf, Above;
    assert bulks == bulks[..k] + bulks[k..];
    EntriesOfConcat(bulks[..k], bulks[k..]);
    AboveConcat(EntriesOf(bulks[..k]), EntriesOf(bulks[k..]), trim);
  }

  /** The last confirmed batch is never deleted: a trim always refers to an earlier one. */
  lemma LastAckedStays(s: State)
    requires Inv(s) && CountOk(s.done.outcome) > 0
    ensures CountOk(s.done.outcome) <= |s.done.outcome| <= |s.up.log|
    ensures s.st.Holds(CountOk(s.done.outcome) - 1)
  {
    hide Inv;
    AckedPrefix(s);
    var k := CountOk(s.done.outcome) - 1;
    AckedStored(s, k);
    if !s.st.Holds(k) {
      var c := CoveringCall(s, k);
      ConfirmedCall(s, c);
      BulkEntries(s.up.log[k]);
      InvFaithful(s);
      assert false;
    }
  }

  /** The persisted trim never reaches past the confirmed batches. */
  lemma PersistedTrimBelowConfirm(s: State, i: nat)
    requires Inv(s) && i in s.st.puts
    ensures s.up.start - 1 <= s.st.puts[i].trim < s.up.start + ALIGN * CountOk(s.done.outcome)
  {
    hide Storage, Leased, Deletions, Tiled, Fencing, Shape, CallOk;
    assert HeaderOk(s.up, s.tr, s.st.puts[i].trim);
  }

  /** Confirmed batches before the first one past the trim hold nothing above it. */
  lemma BelowFirstPast(s: State, newest: nat, i: nat)
    requires Inv(s) && IsNewest(s, newest) && i < CountOk(s.done.outcome)
    requires i < FirstPast(s, 0, s.st.puts[newest].trim)
    ensures i < |s.up.log|
    ensures forall e :: e in s.up.log[i].Entries() ==> e.offset <= s.st.puts[newest].trim
  {
    hide Inv, FirstPast, Bulk.Entries;
    AckedPrefix(s);
    InvFaithful(s);
    FirstPastBounds(s, 0, s.st.puts[newest].trim);
    AckedStored(s, i);
    if s.st.Holds(i) {
      BulkEntries(s.up.log[i]);
    } else {
      DeletedBelowTrimInv(s, i, newest);
    }
  }

  /** From the first object past the trim on, every confirmed batch is still stored. */
  lemma AckedRunStored(s: State, newest: nat)
    requires Inv(s) && IsNewest(s, newest) && CountOk(s.done.outcome) > 0
    ensures var a, ok := FirstPast(s, 0, s.st.puts[newest].trim), CountOk(s.done.outcome);
            a < ok <= |s.up.log| && forall i :: a <= i < ok ==> s.st.Holds(i)
  {
    hide Inv, FirstPast, Bulk.Entries, Bulk.LastEntryOffset;
    var t, ok := s.st.puts[newest].trim, CountOk(s.done.outcome);
    var a := FirstPast(s, 0, t);
    LastAckedStays(s);
    PersistedTrimBelowConfirm(s, newest);
    FirstPastBounds(s, 0, t);
    assert !(Base(s, ok - 1 + 1) <= t);
    AckedPrefix(s);
    InvFaithful(s);
    forall i | a <= i < ok ensures s.st.Holds(i) {
      AckedStored(s, i);
      if !s.st.Holds(i) {
        DeletedBelowTrimInv(s, i, newest);
        BulkEntries(s.up.log[i]);
      }
    }
  }

  /**
   * Replay over any reachable crash state. With `ok` confirmed batches and `t` the newest object's
   * trim point, replay yields exactly the confirmed user records above `t`, in log order, followed
   * by those of a stored run of submitted but unconfirmed batches. The run starts right after the
   * confirmed batches as soon as there are any, and ends at the first batch missing from the store.
   * The log offsets of the whole replay ascend.
   */
  lemma ReplayExact(run: seq<State>, n: nat, epoch: nat, newest: nat) returns (p: nat, r: nat)
    requires IsRun(run) && n < |run| && IsNewest(run[n], newest)
    ensures var s := run[n]; var t, ok := s.st.puts[newest].trim, CountOk(s.done.outcome);
            && ok <= p <= r <= |s.up.log| && (ok > 0 ==> p == ok)
            && (forall i :: p <= i < r ==> s.st.Holds(i)) && (r < |s.up.log| ==> !s.st.Holds(r))
            && Replay(Listing(s, epoch, 0))
            == Above(EntriesOf(s.up.log[..ok]), t) + Above(EntriesOf(s.up.log[p..r]), t)
            && Ascending(Replay(Listing(s, epoch, 0)))
  {
    hide Inv;
    RunInv(run, n);
    p, r := ReplayExactInv(run[n], epoch, newest);
  }

  lemma ReplayExactInv(s: State, epoch: nat, newest: nat) returns (p: nat, r: nat)
    requires Inv(s) && IsNewest(s, newest)
    ensures var t, ok := s.st.puts[newest].trim, CountOk(s.done.outcome);
            && ok <= p <= r <= |s.up.log| && (ok > 0 ==> p == ok)
            && (forall i :: p <= i < r ==> s.st.Holds(i)) && (r < |s.up.log| ==> !s.st.Holds(r))
            && Replay(Listing(s, epoch, 0))
            == Above(EntriesOf(s.up.log[..ok]), t) + Above(EntriesOf(s.up.log[p..r]), t)
            && Ascending(Replay(Listing(s, epoch, 0)))
  {
    hide Inv, FirstPast, Reach, Bulk.Entries, EntriesOf, Above, Replay, Listing, Ascending, Laid;
    var t, ok := s.st.puts[newest].trim, CountOk(s.done.outcome);
    var a := FirstPast(s, 0, t);
    InvFaithful(s);
    ListingLaid(s, epoch, 0);
    ReplayAscends(Listing(s, epoch, 0));
    ReplayListing(s, epoch, newest);
    FirstPastBounds(s, 0, t);
    ReachBounds(s, a);
    r := Reach(s, a);
    if ok == 0 {
      p := a;
      assert s.up.log[..0] == [];
      AboveBulksNone([], t);
    } else {
      AckedRunStored(s, newest);
      ReachAtLeast(s, a, ok);
      p := ok;
      forall i, e | 0 <= i < a && e in s.up.log[i].Entries() ensures e.offset <= t {
        BelowFirstPast(s, newest, i);
      }
      SplitRun(s.up.log, a, ok, r, t);
    }
  }

  /** A run that starts behind what is trimmed, cut at the confirmed batches. */
  lemma SplitRun(log: seq<Bulk>, a: nat, ok: nat, r: nat, t: int)
    requires a <= ok <= r <= |log|
    requires forall i, e :: 0 <= i < a && e in log[i].Entries() ==> e.offset <= t
    ensures Above(EntriesOf(log[a..r]), t) == Above(EntriesOf(log[..ok]), t) + Above(EntriesOf(log[ok..r]), t)
  {
    hide Bulk.Entries, EntriesOf, Above;
    AboveBulksNone(log[..a], t);
    AboveSplit(log[..ok], a, t);
    assert log[..ok][..a] == log[..a] && log[..ok][a..] == log[a..ok];
    AboveSplit(log[a..r], ok - a, t);
    assert log[a..r][..ok - a] == log[a..ok] && log[a..r][ok - a..] == log[ok..r];
  }
}
