/** The writer's queues as they are kept under its lock, refining the log protocol's steps. */
module WalWriter {
  import opened Records
  import opened WalLayout
  import opened WalProtocol

  /** A batch handed to an upload task; `done` is the task's report. */
  datatype Uploading = Uploading(bulk: Bulk, done: Option<bool>)

  /** The queue of uploads is the launched, not yet popped part of the log. */
  ghost predicate QueueOk(u: Uploads, uploading: seq<Uploading>, waiting: seq<Bulk>) {
    && |u.phase| == |u.log| && u.popped <= u.launched <= |u.log|
    && waiting == u.log[u.launched..]
    && |uploading| == u.launched - u.popped
    && (forall k :: 0 <= k < |uploading| ==> SlotOk(u, uploading, k))
    && (forall i :: 0 <= i < |u.log| ==> (u.phase[i].Waiting? <==> u.launched <= i))
  }

  predicate AllDone(phase: seq<Phase>, from: nat, to: nat) {
    to <= |phase| && forall i :: from <= i < to ==> phase[i].Done()
  }

  ghost predicate SlotOk(u: Uploads, uploading: seq<Uploading>, k: int)
    requires |u.phase| == |u.log|
  {
    && 0 <= k < |uploading| && u.popped + k < |u.log|
    && uploading[k].bulk == u.log[u.popped + k]
    && (uploading[k].done == Some(true) <==> u.phase[u.popped + k].DoneOk?)
    && (uploading[k].done == Some(false) <==> u.phase[u.popped + k].DoneErr?)
  }

  ghost predicate ActiveOk(u: Uploads, active: Option<Bulk>, size: nat, next: nat) {
    && u.start % ALIGN == 0 && next == u.NextOffset() && active == u.active
    && (active.Some? ==>
          && active.value.Ok() && active.value.base == next && size == FramedSum(active.value.records))
    && (active.None? ==> size == 0)
  }

  lemma SumPush(records: seq<Record>, r: Record)
    ensures FramedSum(records + [r]) == FramedSum(records) + r.FramedSize()
  {
    assert (records + [r])[..|records|] == records;
  }

  /** Sealing rounds the next offset up to the next window. */
  lemma SealNext(u: Uploads, active: Option<Bulk>, size: nat, next: nat)
    requires ActiveOk(u, active, size, next) && active.Some?
    ensures CeilAlign(next + size) == SealActive(u).NextOffset()
  {
    BulkFillsOneWindow(active.value);
  }

  class WriterState {
    const maxInflight: nat
    const maxBytesInBatch: nat
    const recoveryMode: bool
    var nextOffset: nat
    var active: Option<Bulk>
    var activeSize: nat
    var waiting: seq<Bulk>
    var uploading: seq<Uploading>
    ghost var up: Uploads

    ghost predicate Valid()
      reads this
    {
      ActiveOk(up, active, activeSize, nextOffset) && QueueOk(up, uploading, waiting)
    }

    constructor (start: nat, maxInflight: nat, maxBytesInBatch: nat, recoveryMode: bool)
      requires start % ALIGN == 0
      ensures Valid() && up == Uploads(start, [], [], None, 0, 0)
    {
      this.maxInflight, this.maxBytesInBatch, this.recoveryMode := maxInflight, maxBytesInBatch, recoveryMode;
      nextOffset, active, activeSize, waiting, uploading := start, None, 0, [], [];
      up := Uploads(start, [], [], None, 0, 0);
    }

    method Seal()
      requires Valid()
      modifies this
      ensures Valid() && up == SealActive(old(up))
    {
      hide FramedSum, CeilAlign;
      if active.None? {
        return;
      }
      SealNext(up, active, activeSize, nextOffset);
      nextOffset := CeilAlign(nextOffset + activeSize);
      SealQueue(up, uploading, waiting);
      waiting := waiting + [active.value];
      active, activeSize := None, 0;
      up := SealActive(up);
    }

    /** The placement part of a submit: room is made, the record goes in, and a full batch is
        sealed. A rejected record changes nothing. */
    method Submit(r: Record, fenced: bool) returns (ok: bool)
      requires Valid()
      modifies this
      ensures Valid() && ok == (!fenced && r.FramedSize() <= ALIGN)
      ensures !ok ==> up == old(up)
      ensures ok ==>
                var full :=
                  recoveryMode || FramedSum(Push(MakeRoom(old(up), r), r).active.value.records) > maxBytesInBatch;
                up == Place(old(up), r, full)
    {
      hide FramedSum, QueueOk;
      if fenced || r.FramedSize() > ALIGN {
        return false;
      }
      if active.Some? && r.FramedSize() + activeSize > ALIGN {
        Seal();
      }
      assert up == MakeRoom(old(up), r);
      var b := if active.Some? then active.value else Bulk(nextOffset, []);
      SumPush(b.records, r);
      NoRecords();
      PushQueue(up, r, uploading, waiting);
      active := Some(b.(records := b.records + [r]));
      activeSize := activeSize + r.FramedSize();
      up := Push(up, r);
      if activeSize > maxBytesInBatch || recoveryMode {
        Seal();
      }
      ok := true;
    }

    /** Hands waiting batches to upload tasks, oldest first, up to the inflight limit. */
    method TryUploadWaiting() returns (jobs: seq<Bulk>)
      requires Valid()
      modifies this`waiting, this`uploading, this`up
      ensures Valid() && |jobs| <= |old(waiting)| && jobs == old(waiting)[..|jobs|]
      ensures up == Launched(old(up), |jobs|)
      ensures |uploading| >= maxInflight || waiting == []
      ensures |jobs| > 0 ==> |uploading| <= maxInflight
    {
      hide ActiveOk, QueueOk, Launched;
      jobs := [];
      LaunchNone(up);
      while |uploading| < maxInflight && waiting != []
        invariant Valid() && |jobs| <= |old(waiting)| && jobs == old(waiting)[..|jobs|]
        invariant waiting == old(waiting)[|jobs|..] && up == Launched(old(up), |jobs|)
        invariant |jobs| > 0 ==> |uploading| <= maxInflight
        decreases |waiting|
      {
        LaunchOne(up, uploading, waiting);
        LaunchTwice(old(up), |jobs|);
        SameActive(old(up), |jobs|, active, activeSize, nextOffset);
        var bulk := waiting[0];
        uploading := uploading + [Uploading(bulk, None)];
        jobs := jobs + [bulk];
        waiting := waiting[1..];
        up := Launched(up, 1);
      }
    }

    /** The completion loop takes the finished prefix of the queue, however long the rest has been
        finished for. */
    method PopCompleted() returns (completed: seq<Uploading>)
      requires Valid()
      modifies this`uploading, this`up
      ensures Valid() && |completed| <= |old(uploading)| && completed == old(uploading)[..|completed|]
      ensures forall k :: 0 <= k < |completed| ==> completed[k].done.Some?
      ensures |completed| < |old(uploading)| ==> old(uploading)[|completed|].done.None?
      ensures up == old(up).(popped := old(up).popped + |completed|)
      ensures AllDone(up.phase, old(up).popped, up.popped)
    {
      hide ActiveOk, QueueOk;
      completed := [];
      QueueBounds(up, uploading, waiting);
      while |uploading| > 0 && uploading[0].done.Some?
        invariant Valid() && |completed| <= |old(uploading)| && completed == old(uploading)[..|completed|]
        invariant uploading == old(uploading)[|completed|..]
        invariant forall k :: 0 <= k < |completed| ==> completed[k].done.Some?
        invariant up == old(up).(popped := old(up).popped + |completed|)
        invariant AllDone(up.phase, old(up).popped, up.popped)
        decreases |uploading|
      {
        PopOne(up, uploading, waiting);
        PoppedActive(up, active, activeSize, nextOffset);
        completed := completed + [uploading[0]];
        uploading := uploading[1..];
        up := up.(popped := up.popped + 1);
      }
    }
  }

  lemma QueueBounds(u: Uploads, uploading: seq<Uploading>, waiting: seq<Bulk>)
    requires QueueOk(u, uploading, waiting)
    ensures u.popped <= |u.phase|
  {
  }

  lemma NoRecords()
    ensures FramedSum([]) == 0
  {
  }

  lemma SealQueue(u: Uploads, uploading: seq<Uploading>, waiting: seq<Bulk>)
    requires QueueOk(u, uploading, waiting) && u.active.Some?
    ensures QueueOk(SealActive(u), uploading, waiting + [u.active.value])
  {
    var u' := SealActive(u);
    forall k | 0 <= k < |uploading| ensures SlotOk(u', uploading, k) {
      assert SlotOk(u, uploading, k);
    }
  }

  lemma PushQueue(u: Uploads, r: Record, uploading: seq<Uploading>, waiting: seq<Bulk>)
    requires QueueOk(u, uploading, waiting)
    ensures QueueOk(Push(u, r), uploading, waiting)
  {
    forall k | 0 <= k < |uploading| ensures SlotOk(Push(u, r), uploading, k) {
      assert SlotOk(u, uploading, k);
    }
  }

  /** The launch step of the protocol. */
  ghost function Launched(u: Uploads, n: nat): Uploads {
    u.(launched := u.launched + n, phase := LaunchPhases(u, n))
  }

  lemma LaunchNone(u: Uploads)
    ensures Launched(u, 0) == u
  {
    assert LaunchPhases(u, 0) == u.phase;
  }

  lemma LaunchTwice(u: Uploads, n: nat)
    ensures Launched(Launched(u, n), 1) == Launched(u, n + 1)
  {
    assert LaunchPhases(Launched(u, n), 1) == LaunchPhases(u, n + 1);
  }

  lemma LaunchOne(u: Uploads, uploading: seq<Uploading>, waiting: seq<Bulk>)
    requires QueueOk(u, uploading, waiting) && waiting != []
    ensures QueueOk(Launched(u, 1), uploading + [Uploading(waiting[0], None)], waiting[1..])
  {
    var u', uploading' := Launched(u, 1), uploading + [Uploading(waiting[0], None)];
    forall k | 0 <= k < |uploading'| ensures SlotOk(u', uploading', k) {
      if k < |uploading| {
        assert SlotOk(u, uploading, k);
      }
    }
  }

  lemma SameActive(u: Uploads, n: nat, active: Option<Bulk>, size: nat, next: nat)
    requires ActiveOk(Launched(u, n), active, size, next)
    ensures ActiveOk(Launched(u, n + 1), active, size, next)
  {
  }

  lemma PopOne(u: Uploads, uploading: seq<Uploading>, waiting: seq<Bulk>)
    requires QueueOk(u, uploading, waiting) && uploading != [] && uploading[0].done.Some?
    ensures QueueOk(u.(popped := u.popped + 1), uploading[1..], waiting)
    ensures u.popped < |u.phase| && u.phase[u.popped].Done()
  {
    assert SlotOk(u, uploading, 0);
    var ok := uploading[0].done.value;
    assert uploading[0].done == Some(ok);
    var u', uploading' := u.(popped := u.popped + 1), uploading[1..];
    forall k | 0 <= k < |uploading'| ensures SlotOk(u', uploading', k) {
      assert SlotOk(u, uploading, k + 1);
    }
  }

  lemma PoppedActive(u: Uploads, active: Option<Bulk>, size: nat, next: nat)
    requires ActiveOk(u, active, size, next)
    ensures ActiveOk(u.(popped := u.popped + 1), active, size, next)
  {
  }

  // ---- Deleting covered objects ------------------------------------------------------------------------------

  /** Uploaded objects by the offset of their last record. */
  ghost predicate Filed(u: Uploads, live: set<nat>, objects: map<nat, nat>) {
    && (forall i :: i in live ==>
          && i < |u.log| && u.log[i].LastEntryOffset() in objects && objects[u.log[i].LastEntryOffset()] == i)
    && (forall key :: key in objects ==>
          && objects[key] in live && objects[key] < |u.log| && u.log[objects[key]].LastEntryOffset() == key)
  }

  /** Batches sit in consecutive windows, so last offsets ascend with the position. */
  ghost predicate Windows(u: Uploads) {
    forall i :: 0 <= i < |u.log| ==> u.log[i].Ok() && u.log[i].base == u.start + ALIGN * i
  }

  lemma LastAscends(u: Uploads, i: nat, j: nat)
    requires Windows(u) && i < j < |u.log|
    ensures u.log[i].LastEntryOffset() < u.log[j].LastEntryOffset()
  {
    hide Bulk.Entries, Bulk.LastEntryOffset;
    BulkEntries(u.log[i]);
    BulkEntries(u.log[j]);
    assert ALIGN * j >= ALIGN * (i + 1);
  }

  function MaxKey(objects: map<nat, nat>): (k: nat)
    requires objects != map[]
    ensures k in objects && forall j :: j in objects ==> j <= k
  {
    SetMax(objects.Keys);
    var top :| top in objects && forall j :: j in objects ==> j <= top;
    top
  }

  lemma {:induction false} SetMax(s: set<nat>)
    requires s != {}
    ensures exists m :: m in s && forall j :: j in s ==> j <= m
    decreases |s|
  {
    var x :| x in s;
    var rest := s - {x};
    if rest == {} {
      assert s == {x};
    } else {
      SetMax(rest);
      var m :| m in rest && forall j :: j in rest ==> j <= m;
      var top := if m < x then x else m;
      forall j | j in s ensures j <= top {
        assert j == x || j in rest;
      }
      assert top in s;
    }
  }

  /** Walks the covered keys and removes their objects; the newest object stays. */
  method CollectCovered(objects: map<nat, nat>, trim: nat, ghost u: Uploads, ghost st: Store)
    returns (objects': map<nat, nat>, gone: set<nat>)
    requires Windows(u) && Filed(u, st.live, objects)
    ensures gone == Covered(u, st, trim) && Filed(u, st.live - gone, objects')
  {
    hide Bulk.LastEntryOffset, Bulk.Entries, Filed, Windows, Covered;
    objects', gone := objects, {};
    if objects == map[] {
      NothingLive(u, st, objects, trim);
      return;
    }
    var lastFlushed := MaxKey(objects);
    var todo := set key | key in objects && key <= trim;
    ghost var all := todo;
    while todo != {}
      invariant todo <= all
      invariant objects' == map key | key in objects && (key !in all || key in todo || key == lastFlushed)
                              :: objects[key]
      invariant gone == set key | key in all && key !in todo && key != lastFlushed :: objects[key]
      decreases |todo|
    {
      var key :| key in todo;
      todo := todo - {key};
      if key != lastFlushed {
        objects' := objects' - {key};
        gone := gone + {objects[key]};
      }
    }
    CoveredIs(u, st, objects, trim, lastFlushed, gone);
    LeftFiled(u, st.live, objects, objects', trim, lastFlushed, gone);
  }

  lemma NothingLive(u: Uploads, st: Store, objects: map<nat, nat>, trim: nat)
    requires Filed(u, st.live, objects) && objects == map[]
    ensures Covered(u, st, trim) == {} && st.live - {} == st.live
  {
    hide Bulk.LastEntryOffset;
  }

  /** Deleting by key, except the greatest, is deleting what the protocol calls covered. */
  lemma CoveredIs(u: Uploads, st: Store, objects: map<nat, nat>, trim: nat, last: nat, gone: set<nat>)
    requires Windows(u) && Filed(u, st.live, objects) && last in objects && forall j :: j in objects ==> j <= last
    requires gone == set key | key in objects && key <= trim && key != last :: objects[key]
    ensures gone == Covered(u, st, trim)
  {
    hide Bulk.LastEntryOffset, Bulk.Entries, Windows;
    forall i ensures i in gone <==> i in Covered(u, st, trim) {
      if i in gone {
        var key :| key in objects && key <= trim && key != last && objects[key] == i;
        NewestIs(u, st.live, objects, last, i);
      }
      if i in Covered(u, st, trim) {
        var j: nat :| j in st.live && i < j;
        LastAscends(u, i, j);
        assert objects[u.log[i].LastEntryOffset()] == i;
      }
    }
  }

  lemma NewestIs(u: Uploads, live: set<nat>, objects: map<nat, nat>, last: nat, i: nat)
    requires Windows(u) && Filed(u, live, objects) && last in objects && forall j :: j in objects ==> j <= last
    requires i in live && u.log[i].LastEntryOffset() != last
    ensures objects[last] in live && i < objects[last]
  {
    hide Bulk.LastEntryOffset, Bulk.Entries, Windows;
    var n := objects[last];
    if n < i {
      LastAscends(u, n, i);
    }
  }

  lemma LeftFiled(u: Uploads, live: set<nat>, objects: map<nat, nat>, objects': map<nat, nat>, trim: nat, last: nat,
                  gone: set<nat>)
    requires Filed(u, live, objects)
    requires objects' == map key | key in objects && (!(key <= trim) || key == last) :: objects[key]
    requires gone == set key | key in objects && key <= trim && key != last :: objects[key]
    ensures Filed(u, live - gone, objects')
  {
    hide Bulk.LastEntryOffset, Bulk.Entries;
  }
}
