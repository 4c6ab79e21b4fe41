/** Stream record batches, the unit that is appended, logged, cached and committed. */
module Records {

  type byte = n: int | 0 <= n < 256

  datatype Option<+T> = None | Some(value: T)

  /** Stream id and epoch of the internal record that `trim` appends. */
  const TRIM_RECORD_SENTINEL: nat := 0xFFFF_FFFF_FFFF_FFFF

  const I32_MAX: nat := 0x7FFF_FFFF
  const U32: nat := 0x1_0000_0000

  const RECORD_HEADER_SIZE: nat := 33
  const WAL_RECORD_HEADER_SIZE: nat := 24
  const OBJECT_OVERHEAD: nat := 48

  datatype Record = Record(streamId: nat, epoch: nat, baseOffset: nat, count: int, payload: seq<byte>) {

    /** Exclusive end offset; a non-positive count marks a link record. */
    function LastOffset(): nat {
      if count > 0 then baseOffset + count else baseOffset - count
    }

    function Size(): nat { |payload| }

    function FramedSize(): nat { WAL_RECORD_HEADER_SIZE + RECORD_HEADER_SIZE + |payload| }

    function OccupiedSize(): nat { |payload| + OBJECT_OVERHEAD }

    /** What every user append satisfies: a positive 32-bit count and a real stream. */
    predicate IsUser() {
      1 <= count <= I32_MAX && streamId != TRIM_RECORD_SENTINEL
    }

    predicate IsSentinel() {
      streamId == TRIM_RECORD_SENTINEL && epoch == TRIM_RECORD_SENTINEL
    }
  }

  const SENTINEL: Record := Record(TRIM_RECORD_SENTINEL, TRIM_RECORD_SENTINEL, 0, 0, [])

  /** The records of one stream, in order. */
  function OfStream(records: seq<Record>, streamId: nat): seq<Record> {
    if records == [] then []
    else
      var rest := OfStream(records[..|records| - 1], streamId);
      var x := records[|records| - 1];
      if x.streamId == streamId then rest + [x] else rest
  }

  lemma {:induction false} OfStreamConcat(a: seq<Record>, b: seq<Record>, streamId: nat)
    ensures OfStream(a + b, streamId) == OfStream(a, streamId) + OfStream(b, streamId)
  {
    if b == [] {
      assert a + b == a;
    } else {
      var init := b[..|b| - 1];
      assert (a + b)[..|a + b| - 1] == a + init;
      OfStreamConcat(a, init, streamId);
    }
  }

  /** Consecutive records meet: each starts where the one before it ends. */
  predicate Contiguous(records: seq<Record>) {
    forall i :: 0 < i < |records| ==> records[i].baseOffset == records[i - 1].LastOffset()
  }

  /** `records` is a gap-free run that starts at offset `from`. */
  predicate ContiguousFrom(records: seq<Record>, from: nat) {
    Contiguous(records) && (records != [] ==> records[0].baseOffset == from)
  }

  /** Where a gap-free run from `from` ends. */
  function EndOf(records: seq<Record>, from: nat): nat {
    if records == [] then from else records[|records| - 1].LastOffset()
  }

  lemma ContiguousConcat(a: seq<Record>, b: seq<Record>, from: nat)
    requires ContiguousFrom(a, from)
    requires ContiguousFrom(b, EndOf(a, from))
    ensures ContiguousFrom(a + b, from)
    ensures EndOf(a + b, from) == EndOf(b, EndOf(a, from))
  {
    if b == [] {
      assert a + b == a;
    }
  }
}
