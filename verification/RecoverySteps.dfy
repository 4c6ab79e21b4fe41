/** The blocks that the recovery loop hands over are the recovery steps of the node. */
module RecoverySteps {
  import opened Records
  import opened CacheBlocks
  import opened RecoveryFilter
  import C = CrashRecovery
  import opened CrashSafety

  /** A node in the middle of a recovery. */
  predicate AtWork(sys: C.Sys) {
    sys.mode.Recovering? && sys.frontier <= |sys.log| && C.Positive(sys.mode.rest)
  }

  lemma PositiveSlice(rs: seq<Record>, m: nat)
    requires C.Positive(rs) && m <= |rs|
    ensures C.Positive(rs[..m]) && C.Positive(rs[m..])
  {
  }

  /** Committing what the fold keeps leaves the metadata where the fold's map ends. */
  lemma OpenEndsFollow(sys: C.Sys, m: nat)
    requires AtWork(sys) && m <= |sys.mode.rest|
    ensures C.OpenEnds(C.DoRecover(sys, m)) == Fold(sys.mode.rest[..m], C.OpenEnds(sys)).ends
  {
    hide Fold, Fits, OfStream, Greedy, EndOf, C.Advance;
    var rs, e := sys.mode.rest[..m], C.OpenEnds(sys);
    var f := Fold(rs, e);
    PositiveSlice(sys.mode.rest, m);
    KeptFits(sys, rs);
    FoldPerStream(rs, e, 0);
    AdvanceKeys(sys.ends, f.kept);
    forall s | s in e ensures C.Advance(sys.ends, f.kept)[s] == f.ends[s] {
      FoldPerStream(rs, e, s);
      AdvanceIs(f.kept, sys.ends, s);
    }
  }

  lemma AdvanceKeys(ends: map<nat, nat>, rs: seq<Record>)
    ensures C.Advance(ends, rs).Keys == ends.Keys
  {
  }

  lemma AdvanceTwice(ends: map<nat, nat>, a: seq<Record>, b: seq<Record>)
    requires Fits(a, ends) && Fits(b, C.Advance(ends, a)) && Fits(a + b, ends)
    ensures C.Advance(C.Advance(ends, a), b) == C.Advance(ends, a + b)
  {
    hide Fits, OfStream, C.Advance;
    var once := C.Advance(ends, a);
    AdvanceKeys(ends, a);
    AdvanceKeys(once, b);
    AdvanceKeys(ends, a + b);
    forall s | s in ends ensures C.Advance(once, b)[s] == C.Advance(ends, a + b)[s] {
      AdvanceIs(a, ends, s);
      AdvanceIs(b, once, s);
      AdvanceIs(a + b, ends, s);
      OfStreamConcat(a, b, s);
    }
  }

  /** Recovering `m` records and then `k` more is recovering `m + k`. */
  lemma StepsCompose(sys: C.Sys, m: nat, k: nat)
    requires AtWork(sys) && m + k <= |sys.mode.rest|
    ensures AtWork(C.DoRecover(sys, m))
    ensures C.DoRecover(C.DoRecover(sys, m), k) == C.DoRecover(sys, m + k)
  {
    hide Fold, Fits, C.Advance, C.OpenEnds;
    var rest, mid := sys.mode.rest, C.DoRecover(sys, m);
    PositiveSlice(rest, m);
    PositiveSlice(rest[m..], k);
    PositiveSlice(rest, m + k);
    assert rest[..m + k] == rest[..m] + rest[m..][..k];
    assert rest[m..][k..] == rest[m + k..];
    OpenEndsFollow(sys, m);
    FoldConcat(rest[..m], rest[m..][..k], C.OpenEnds(sys));
    var a, b := Fold(rest[..m], C.OpenEnds(sys)).kept, Fold(rest[m..][..k], C.OpenEnds(mid)).kept;
    KeptFits(sys, rest[..m]);
    KeptFits(mid, rest[m..][..k]);
    KeptFits(sys, rest[..m + k]);
    AdvanceTwice(sys.ends, a, b);
    assert sys.committed + a + b == sys.committed + (a + b);
  }

  /** How much of the replay the first `k` blocks settle. */
  function Before(cuts: seq<nat>, k: nat): nat
    requires k <= |cuts|
  {
    if k == 0 then 0 else cuts[k - 1]
  }

  /**
   * Handing over block `k` of the recovery loop is one recovery step: it takes the node from the
   * state behind the earlier blocks to the state behind this one, and what it commits to each
   * stream is exactly the block's records.
   */
  lemma BlocksAreSteps(sys: C.Sys, blocks: seq<Block>, cuts: seq<nat>, k: nat)
    requires AtWork(sys) && k < |blocks| && Handed(sys.mode.rest, C.OpenEnds(sys), blocks, cuts)
    ensures Before(cuts, k) <= cuts[k] <= |sys.mode.rest|
    ensures var was := C.DoRecover(sys, Before(cuts, k)); var m := cuts[k] - Before(cuts, k);
            && C.Enabled(was, C.RecoverBlock(m)) && C.Apply(was, C.RecoverBlock(m)) == C.DoRecover(sys, cuts[k])
            && forall s :: OfStream(C.DoRecover(sys, cuts[k]).committed, s)
                        == OfStream(was.committed, s) + blocks[k].Of(s)
  {
    hide Fold, OfStream, ListOf, C.OpenEnds, C.Advance;
    var rest, ends := sys.mode.rest, C.OpenEnds(sys);
    assert HandedAt(rest, ends, blocks, cuts, k);
    if k > 0 {
      assert HandedAt(rest, ends, blocks, cuts, k - 1);
    }
    var c := Before(cuts, k);
    StepsCompose(sys, c, cuts[k] - c);
    forall s ensures OfStream(C.DoRecover(sys, cuts[k]).committed, s)
                  == OfStream(C.DoRecover(sys, c).committed, s) + blocks[k].Of(s) {
      OfStreamConcat(sys.committed, Fold(rest[..cuts[k]], ends).kept, s);
      OfStreamConcat(sys.committed, Fold(rest[..c], ends).kept, s);
      ListSplit(blocks, k, s);
      if k == 0 {
        NothingYet(rest, ends, blocks, s);
      }
    }
  }

  lemma NothingYet(rest: seq<Record>, ends: map<nat, nat>, blocks: seq<Block>, s: nat)
    ensures OfStream(Fold(rest[..0], ends).kept, s) == ListOf(blocks[..0], s) == []
  {
  }
}
