/** How a batch of records is laid out in one write-ahead-log object. */
module WalLayout {
  import opened Records

  /** Log objects start on 64 MiB boundaries of the logical address space. */
  const ALIGN: nat := 67_108_864

  /** A record at its logical log offset. */
  datatype Entry = Entry(offset: nat, record: Record)

  predicate Ascending(entries: seq<Entry>) {
    forall i, j :: 0 <= i < j < |entries| ==> entries[i].offset < entries[j].offset
  }

  function FloorAlign(offset: nat): nat { offset / ALIGN * ALIGN }

  function CeilAlign(offset: nat): nat { (offset + (ALIGN - 1)) / ALIGN * ALIGN }

  /** Rounding up lands on the only boundary in the half-open window after `offset`. */
  lemma CeilAlignIsNextBoundary(offset: nat)
    ensures CeilAlign(offset) % ALIGN == 0
    ensures offset <= CeilAlign(offset) < offset + ALIGN
    ensures FloorAlign(offset) % ALIGN == 0
    ensures offset - ALIGN < FloorAlign(offset) <= offset
  {
  }

  function FramedSum(records: seq<Record>): nat {
    if records == [] then 0
    else FramedSum(records[..|records| - 1]) + records[|records| - 1].FramedSize()
  }

  /** The order inside one object: by stream, then by base offset. */
  predicate Leq(a: Record, b: Record) {
    a.streamId < b.streamId || (a.streamId == b.streamId && a.baseOffset <= b.baseOffset)
  }

  predicate Ordered(records: seq<Record>) {
    forall i, j :: 0 <= i < j < |records| ==> Leq(records[i], records[j])
  }

  function Insert(records: seq<Record>, x: Record): seq<Record> {
    if records == [] || Leq(records[|records| - 1], x) then records + [x]
    else Insert(records[..|records| - 1], x) + [records[|records| - 1]]
  }

  /** The stable sort applied when an object's payload is built. */
  function SortRecords(records: seq<Record>): seq<Record> {
    if records == [] then []
    else Insert(SortRecords(records[..|records| - 1]), records[|records| - 1])
  }

  lemma {:induction false} InsertKeeps(records: seq<Record>, x: Record)
    ensures |Insert(records, x)| == |records| + 1
    ensures multiset(Insert(records, x)) == multiset(records) + multiset{x}
    ensures FramedSum(Insert(records, x)) == FramedSum(records) + x.FramedSize()
  {
    if records == [] || Leq(records[|records| - 1], x) {
      assert (records + [x])[..|records|] == records;
    } else {
      var init, last := records[..|records| - 1], records[|records| - 1];
      assert records == init + [last];
      InsertKeeps(init, x);
      var r := Insert(init, x) + [last];
      assert r[..|r| - 1] == Insert(init, x);
    }
  }

  /** Sorting permutes the records and so keeps their total framed size. */
  lemma {:induction false} SortKeeps(records: seq<Record>)
    ensures |SortRecords(records)| == |records|
    ensures multiset(SortRecords(records)) == multiset(records)
    ensures FramedSum(SortRecords(records)) == FramedSum(records)
  {
    if records != [] {
      var init, last := records[..|records| - 1], records[|records| - 1];
      assert records == init + [last];
      SortKeeps(init);
      InsertKeeps(SortRecords(init), last);
    }
  }

  lemma {:induction false} InsertOrdered(records: seq<Record>, x: Record)
    requires Ordered(records)
    ensures Ordered(Insert(records, x))
  {
    hide FramedSum;
    if records == [] {
    } else if Leq(records[|records| - 1], x) {
      forall i, j | 0 <= i < j < |records + [x]| ensures Leq((records + [x])[i], (records + [x])[j]) {
        if j == |records| && i < |records| - 1 {
          assert Leq(records[i], records[|records| - 1]);
        }
      }
    } else {
      var init, last := records[..|records| - 1], records[|records| - 1];
      InsertOrdered(init, x);
      InsertKeeps(init, x);
      var r := Insert(init, x);
      forall i | 0 <= i < |r| ensures Leq(r[i], last) {
        assert r[i] in multiset(r);
        assert r[i] in init || r[i] == x;
      }
    }
  }

  lemma {:induction false} SortOrdered(records: seq<Record>)
    ensures Ordered(SortRecords(records))
  {
    if records != [] {
      SortOrdered(records[..|records| - 1]);
      InsertOrdered(SortRecords(records[..|records| - 1]), records[|records| - 1]);
    }
  }

  /** Records of one stream keep their relative order when they were submitted in offset order. */
  predicate AscendingBases(records: seq<Record>) {
    forall i, j :: 0 <= i < j < |records| ==> records[i].baseOffset <= records[j].baseOffset
  }

  lemma OfStreamOne(x: Record, streamId: nat)
    ensures OfStream([x], streamId) == if x.streamId == streamId then [x] else []
  {
    assert [x][..0] == [];
  }

  lemma {:induction false} InsertOfStream(records: seq<Record>, x: Record, streamId: nat)
    requires x.streamId == streamId ==>
               forall y :: y in OfStream(records, streamId) ==> y.baseOffset <= x.baseOffset
    ensures OfStream(Insert(records, x), streamId)
         == OfStream(records, streamId) + OfStream([x], streamId)
  {
    if records == [] || Leq(records[|records| - 1], x) {
      OfStreamConcat(records, [x], streamId);
    } else {
      var init, last := records[..|records| - 1], records[|records| - 1];
      var part := OfStream(init, streamId);
      assert OfStream(records, streamId) == if last.streamId == streamId then part + [last] else part;
      InsertOfStream(init, x, streamId);
      OfStreamConcat(Insert(init, x), [last], streamId);
      OfStreamOne(x, streamId);
      OfStreamOne(last, streamId);
      assert x.streamId == streamId ==> last.streamId != streamId by {
        if last.streamId == streamId {
          assert OfStream(records, streamId)[|part|] == last;
        }
      }
    }
  }

  lemma {:induction false} SortKeepsStreamOrder(records: seq<Record>, streamId: nat)
    requires AscendingBases(OfStream(records, streamId))
    ensures OfStream(SortRecords(records), streamId) == OfStream(records, streamId)
  {
    if records != [] {
      var init, last := records[..|records| - 1], records[|records| - 1];
      assert records == init + [last];
      var whole := OfStream(records, streamId);
      var part := OfStream(init, streamId);
      assert part == whole[..|part|];
      SortKeepsStreamOrder(init, streamId);
      if last.streamId == streamId {
        forall y | y in OfStream(SortRecords(init), streamId) ensures y.baseOffset <= last.baseOffset {
          var i :| 0 <= i < |part| && part[i] == y;
          assert whole[i] == y && whole[|whole| - 1] == last;
        }
      }
      InsertOfStream(SortRecords(init), last, streamId);
      assert OfStream([last], streamId) == if last.streamId == streamId then [last] else [];
    }
  }

  /** Offsets are assigned back to back from `base`, in payload order. */
  function Layout(base: nat, records: seq<Record>): (r: seq<Entry>)
    ensures |r| == |records|
  {
    if records == [] then []
    else
      var init := records[..|records| - 1];
      Layout(base, init) + [Entry(base + FramedSum(init), records[|records| - 1])]
  }

  lemma {:induction false} LayoutAt(base: nat, records: seq<Record>, i: nat)
    requires i < |records|
    ensures Layout(base, records)[i] == Entry(base + FramedSum(records[..i]), records[i])
    ensures FramedSum(records[..i]) + records[i].FramedSize() <= FramedSum(records)
  {
    var n := |records| - 1;
    if i < n {
      LayoutAt(base, records[..n], i);
      assert records[..n][..i] == records[..i];
    }
  }

  lemma {:induction false} LayoutAscending(base: nat, records: seq<Record>)
    ensures Ascending(Layout(base, records))
    ensures forall e :: e in Layout(base, records) ==> base <= e.offset < base + FramedSum(records)
  {
    if records != [] {
      LayoutAscending(base, records[..|records| - 1]);
    }
  }

  /** A batch that becomes one object; `base` is its first logical offset. */
  datatype Bulk = Bulk(base: nat, records: seq<Record>) {

    /** A batch that may be sealed: non-empty, aligned, within one window. */
    predicate Ok() {
      records != [] && base % ALIGN == 0 && FramedSum(records) <= ALIGN
    }

    function Entries(): seq<Entry> {
      Layout(base, SortRecords(records))
    }

    /** Log offset of the last record in the object. */
    function LastEntryOffset(): nat {
      if Entries() == [] then base else Entries()[|Entries()| - 1].offset
    }
  }

  /** The entries of a batch are its records, each once, inside its own window. */
  lemma BulkEntries(b: Bulk)
    requires b.Ok()
    ensures |b.Entries()| == |b.records|
    ensures Ascending(b.Entries())
    ensures forall e :: e in b.Entries() ==> b.base <= e.offset < b.base + ALIGN
    ensures forall e :: e in b.Entries() ==> e.offset <= b.LastEntryOffset() && e.record in b.records
    ensures b.base <= b.LastEntryOffset() < b.base + ALIGN
  {
    var sorted := SortRecords(b.records);
    SortKeeps(b.records);
    LayoutAscending(b.base, sorted);
    forall e | e in b.Entries() ensures e.offset <= b.LastEntryOffset() && e.record in b.records {
      var i :| 0 <= i < |sorted| && b.Entries()[i] == e;
      LayoutAt(b.base, sorted, i);
      assert e.record in multiset(sorted);
    }
    assert b.Entries()[|sorted| - 1] in b.Entries();
  }

  lemma FramedSumPositive(records: seq<Record>)
    ensures records != [] ==> FramedSum(records) > 0
  {
  }

  /** A sealed batch always fills exactly one alignment window. */
  lemma BulkFillsOneWindow(b: Bulk)
    requires b.Ok()
    ensures CeilAlign(b.base + FramedSum(b.records)) == b.base + ALIGN
  {
    FramedSumPositive(b.records);
    CeilAlignIsNextBoundary(b.base + FramedSum(b.records));
  }

  /** All entries of a run of batches. */
  function EntriesOf(bulks: seq<Bulk>): seq<Entry> {
    if bulks == [] then []
    else EntriesOf(bulks[..|bulks| - 1]) + bulks[|bulks| - 1].Entries()
  }

  lemma {:induction false} EntriesOfConcat(a: seq<Bulk>, b: seq<Bulk>)
    ensures EntriesOf(a + b) == EntriesOf(a) + EntriesOf(b)
  {
    hide Bulk.Entries;
    if b == [] {
      assert a + b == a;
    } else {
      var init := b[..|b| - 1];
      assert (a + b)[..|a + b| - 1] == a + init;
      EntriesOfConcat(a, init);
    }
  }

  /** What replay delivers: user entries past the trim point. */
  predicate Delivered(e: Entry, trim: int) {
    e.offset > trim && !e.record.IsSentinel()
  }

  function Above(entries: seq<Entry>, trim: int): seq<Entry> {
    if entries == [] then []
    else
      var rest := Above(entries[..|entries| - 1], trim);
      var e := entries[|entries| - 1];
      if Delivered(e, trim) then rest + [e] else rest
  }

  lemma {:induction false} AboveConcat(a: seq<Entry>, b: seq<Entry>, trim: int)
    ensures Above(a + b, trim) == Above(a, trim) + Above(b, trim)
  {
    if b == [] {
      assert a + b == a;
    } else {
      var init := b[..|b| - 1];
      assert (a + b)[..|a + b| - 1] == a + init;
      AboveConcat(a, init, trim);
    }
  }

  lemma AboveOne(e: Entry, trim: int)
    ensures Above([e], trim) == if Delivered(e, trim) then [e] else []
  {
    assert [e][..0] == [];
  }

  lemma {:induction false} AboveNone(entries: seq<Entry>, trim: int)
    requires forall e :: e in entries ==> e.offset <= trim
    ensures Above(entries, trim) == []
  {
    if entries != [] {
      AboveNone(entries[..|entries| - 1], trim);
    }
  }

  /** `Above` keeps exactly the delivered entries. */
  lemma {:induction false} AboveMembers(entries: seq<Entry>, trim: int, e: Entry)
    ensures e in Above(entries, trim) <==> e in entries && Delivered(e, trim)
  {
    if entries != [] {
      var init, last := entries[..|entries| - 1], entries[|entries| - 1];
      assert entries == init + [last];
      AboveMembers(init, trim, e);
    }
  }

  lemma {:induction false} AboveAscending(entries: seq<Entry>, trim: int)
    requires Ascending(entries)
    ensures Ascending(Above(entries, trim))
  {
    if entries != [] {
      var init, last := entries[..|entries| - 1], entries[|entries| - 1];
      AboveAscending(init, trim);
      forall i | 0 <= i < |Above(init, trim)| ensures Above(init, trim)[i].offset < last.offset {
        AboveMembers(init, trim, Above(init, trim)[i]);
      }
    }
  }
}
