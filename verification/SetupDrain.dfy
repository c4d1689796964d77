/**
  * `drain_ring_setup_sends` of transport_common.rs: before data flows, exactly the
  * setup completions are reaped, so none can be mistaken for a data completion.
  */
module SetupDrain {
  import opened TransportCommon

  datatype SetupWc = SetupWc(wrId: nat, ok: bool)

  datatype SetupResult = Done | Timeout | UnexpectedId | DuplicateId | FailedWc

  predicate Distinct(ids: seq<nat>) {
    forall i, j :: 0 <= i < j < |ids| ==> ids[i] != ids[j]
  }

  /** The first `n` of some ids. */
  function FirstIds(ids: seq<nat>, n: nat): set<nat>
    requires n <= |ids|
  {
    if n == 0 then {} else FirstIds(ids, n - 1) + {ids[n - 1]}
  }

  /** The ids of the first `n` completions. */
  function Ids(wcs: seq<SetupWc>, n: nat): set<nat>
    requires n <= |wcs|
  {
    if n == 0 then {} else Ids(wcs, n - 1) + {wcs[n - 1].wrId}
  }

  /** Why the drain stops at completion `n`, if it does. */
  function Fault(expected: seq<nat>, wcs: seq<SetupWc>, n: nat): SetupResult
    requires n < |wcs|
  {
    if wcs[n].wrId !in expected then UnexpectedId
    else if wcs[n].wrId in Ids(wcs, n) then DuplicateId
    else if !wcs[n].ok then FailedWc
    else Done
  }

  /** The first `n` completions succeeded, were expected, and none came twice. */
  ghost predicate Clean(expected: seq<nat>, wcs: seq<SetupWc>, n: nat)
    requires n <= |wcs|
  {
    n == 0 || (Clean(expected, wcs, n - 1) && Fault(expected, wcs, n - 1) == Done)
  }

  lemma {:induction false} InFirst(ids: seq<nat>, n: nat, i: nat)
    requires i < n <= |ids|
    ensures ids[i] in FirstIds(ids, n)
  {
    if i < n - 1 {
      InFirst(ids, n - 1, i);
    }
  }

  lemma {:induction false} FirstFrom(ids: seq<nat>, n: nat, e: nat)
    requires n <= |ids| && e in FirstIds(ids, n)
    ensures exists i :: 0 <= i < n && ids[i] == e
  {
    if ids[n - 1] != e {
      FirstFrom(ids, n - 1, e);
    }
  }

  /** Clean completions are as many different expected ids. */
  lemma {:induction false} CleanCount(expected: seq<nat>, wcs: seq<SetupWc>, n: nat)
    requires n <= |wcs| && Clean(expected, wcs, n)
    ensures |Ids(wcs, n)| == n && Ids(wcs, n) <= FirstIds(expected, |expected|)
  {
    if n > 0 {
      CleanCount(expected, wcs, n - 1);
      var i :| 0 <= i < |expected| && expected[i] == wcs[n - 1].wrId;
      InFirst(expected, |expected|, i);
    }
  }

  lemma {:induction false} DistinctCount(ids: seq<nat>, n: nat)
    requires Distinct(ids) && n <= |ids|
    ensures |FirstIds(ids, n)| == n
  {
    if n > 0 {
      DistinctCount(ids, n - 1);
      if ids[n - 1] in FirstIds(ids, n - 1) {
        FirstFrom(ids, n - 1, ids[n - 1]);
      }
    }
  }

  /** As many different expected completions as were expected are all of them. */
  lemma CleanIsAll(expected: seq<nat>, wcs: seq<SetupWc>, n: nat)
    requires n <= |wcs| && Clean(expected, wcs, n) && Distinct(expected) && n == |expected|
    ensures Ids(wcs, n) == FirstIds(expected, n)
  {
    CleanCount(expected, wcs, n);
    DistinctCount(expected, n);
    SubsetSame(Ids(wcs, n), FirstIds(expected, n));
  }

  lemma SubsetSame(a: set<nat>, b: set<nat>)
    requires a <= b
    ensures |a| <= |b| && (|a| == |b| ==> a == b)
  {
    assert b == a + (b - a);
  }

  /** Validate one batch; `seen` and `remaining` carry over between batches. */
  method CheckBatch(expected: seq<nat>, batch: seq<SetupWc>, seen: set<nat>, ghost all: seq<SetupWc>, ghost done: nat)
    returns (res: SetupResult, seen': set<nat>, n: nat)
    requires Continues(all, done, batch) && Clean(expected, all, done) && seen == Ids(all, done)
    ensures n <= |batch| && Clean(expected, all, done + n) && seen' == Ids(all, done + n)
    ensures res.Done? ==> n == |batch|
    ensures !res.Done? ==> done + n < |all| && res == Fault(expected, all, done + n)
  {
    n, seen', res := 0, seen, Done;
    while n < |batch|
      invariant n <= |batch| && Clean(expected, all, done + n) && seen' == Ids(all, done + n)
    {
      var w := batch[n];
      if w.wrId !in expected {
        return UnexpectedId, seen', n;
      }
      if w.wrId in seen' {
        return DuplicateId, seen', n;
      }
      if !w.ok {
        return FailedWc, seen', n;
      }
      seen' := seen' + {w.wrId};
      n := n + 1;
    }
  }

  /**
    * The drain over the batches that arrive before the deadline: success means
    * exactly the expected completions, each once and successful, and nothing else
    * was reaped; a failure names the first completion that breaks this.
    */
  method DrainSetupSends(expected: seq<nat>, batches: seq<seq<SetupWc>>) returns (res: SetupResult, consumed: nat)
    requires Distinct(expected)
    ensures consumed <= |Concat(batches)| && Clean(expected, Concat(batches), consumed)
    ensures res.Done? ==> consumed == |expected| && Ids(Concat(batches), consumed) == FirstIds(expected, |expected|)
    ensures res.Timeout? ==> consumed == |Concat(batches)| < |expected|
    ensures !res.Done? && !res.Timeout? ==>
      consumed < |Concat(batches)| && res == Fault(expected, Concat(batches), consumed)
  {
    ghost var all := Concat(batches);
    AllParts(batches);
    assert Before(batches, 0) == 0 && Clean(expected, all, 0) && Ids(all, 0) == {};
    hide Concat, Before, Clean, Ids, Fault, FirstIds, Distinct, Continues;
    consumed := 0;
    var seen: set<nat> := {};
    var b := 0;
    while consumed < |expected|
      invariant b <= |batches| && consumed == Before(batches, b) <= |all|
      invariant Clean(expected, all, consumed) && seen == Ids(all, consumed) && consumed <= |expected|
      decreases |batches| - b
    {
      if b == |batches| {
        return Timeout, consumed;
      }
      PartContinues(batches, b);
      var n;
      res, seen, n := CheckBatch(expected, batches[b], seen, all, consumed);
      CleanWithin(expected, all, consumed + n);
      consumed := consumed + n;
      if !res.Done? {
        return;
      }
      b := b + 1;
    }
    CleanIsAll(expected, all, consumed);
    return Done, consumed;
  }

  /** No more clean completions than expected ids. */
  lemma CleanWithin(expected: seq<nat>, wcs: seq<SetupWc>, n: nat)
    requires n <= |wcs| && Clean(expected, wcs, n) && Distinct(expected)
    ensures n <= |expected|
  {
    CleanCount(expected, wcs, n);
    DistinctCount(expected, |expected|);
    SubsetSame(Ids(wcs, n), FirstIds(expected, |expected|));
  }
}
