/** The lease object in storage: the last acquire wins, and a check compares bytes. */
module Reservation {
  import opened Records
  import opened Codec

  const RESERVATION_MAGIC: nat := 0x1234_5678
  const RESERVATION_LENGTH: nat := 21

  datatype Owner = Owner(node: nat, epoch: nat, failover: bool)

  predicate OwnerOk(o: Owner) { o.node < U32 && o.epoch < U64 }

  function TargetBytes(o: Owner): (b: Bytes)
    ensures |b| == RESERVATION_LENGTH
  {
    Put(4, RESERVATION_MAGIC) + Put(8, o.node) + Put(8, o.epoch) + [if o.failover then 1 else 0]
  }

  /** Different owners never look alike. */
  lemma TargetBytesInjective(a: Owner, b: Owner)
    requires OwnerOk(a) && OwnerOk(b) && TargetBytes(a) == TargetBytes(b)
    ensures a == b
  {
    hide Put, Get;
    TargetFields(a);
    TargetFields(b);
    Long(a.node);
    Long(b.node);
    Long(a.epoch);
    Long(b.epoch);
  }

  lemma TargetFields(o: Owner)
    ensures var t := TargetBytes(o);
            t[4..12] == Put(8, o.node) && t[12..20] == Put(8, o.epoch) && t[20] == if o.failover then 1 else 0
  {
    hide Put;
    var m, n, e := Put(4, RESERVATION_MAGIC), Put(8, o.node), Put(8, o.epoch);
    var f: Bytes := [if o.failover then 1 else 0];
    assert TargetBytes(o) == m + n + (e + f) && TargetBytes(o) == (m + n) + e + f;
    Field(m, n, e + f);
    Field(m + n, e, f);
  }

  class ReservationObject {
    var stored: Option<Bytes>
    ghost var holder: Option<Owner>

    ghost predicate Valid()
      reads this
    {
      && (holder.None? <==> stored.None?)
      && (holder.Some? ==> OwnerOk(holder.value) && stored.value == TargetBytes(holder.value))
    }

    constructor ()
      ensures Valid() && holder.None?
    {
      stored, holder := None, None;
    }

    /** Overwrites whatever is there. */
    method Acquire(o: Owner)
      requires Valid() && OwnerOk(o)
      modifies this
      ensures Valid() && holder == Some(o)
    {
      stored, holder := Some(TargetBytes(o)), Some(o);
    }

    /** True exactly when the read succeeds and the caller was the last to acquire. */
    method Verify(o: Owner, readFailed: bool) returns (ok: bool)
      requires Valid() && OwnerOk(o)
      ensures ok <==> !readFailed && holder == Some(o)
    {
      if readFailed || stored.None? {
        return false;
      }
      if |stored.value| != RESERVATION_LENGTH {
        return false;
      }
      ok := stored.value == TargetBytes(o);
      if ok {
        TargetBytesInjective(holder.value, o);
      }
    }
  }
}
