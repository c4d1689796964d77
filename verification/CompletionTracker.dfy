/**
  * `CompletionTracker` of transport_common.rs: receive slots are released in any
  * order and handed back only as the longest contiguous released prefix.
  */
module CompletionTrackers {
  import opened Modular

  /** One flag per slot, and the slot the chase starts from. */
  datatype Tracker = Tracker(released: seq<bool>, headSlot: nat) {

    predicate Valid() {
      headSlot < |released|
    }

    /** `release`: flag the slot (when in range), then chase the head forward. */
    function Release(slot: nat): (r: (Tracker, nat))
      requires Valid()
      ensures r.0.Valid() && |r.0.released| == |released|
    {
      Chase(Mark(slot))
    }

    function Mark(slot: nat): (r: Tracker)
      requires Valid()
      ensures r.Valid() && |r.released| == |released|
    {
      if slot < |released| then this.(released := released[slot := true]) else this
    }

    /**
      * The flags describe the arrival numbers of one window: `done` are the
      * numbers released so far, `base` the length of its contiguous prefix.
      */
    ghost predicate Tracks(base: nat, done: set<nat>) {
      && Valid()
      && headSlot == base % |released|
      && (forall q {:trigger q in done} :: 0 <= q < base ==> q in done)
      && base !in done
      && (forall q :: base <= q < base + |released| ==> released[q % |released|] == (q in done))
    }

    /** As `Tracks`, before the chase: `base` itself may have been released. */
    ghost predicate Marked(base: nat, done: set<nat>) {
      && Valid()
      && headSlot == base % |released|
      && (forall q {:trigger q in done} :: 0 <= q < base ==> q in done)
      && (forall q :: base <= q < base + |released| ==> released[q % |released|] == (q in done))
    }
  }

  function Flags(released: seq<bool>): (n: nat)
  {
    if released == [] then 0 else Flags(released[1..]) + if released[0] then 1 else 0
  }

  lemma {:induction false} ClearingDrops(released: seq<bool>, i: nat)
    requires i < |released| && released[i]
    ensures Flags(released[i := false]) == Flags(released) - 1
  {
    if i > 0 {
      assert released[i := false][1..] == released[1..][i - 1 := false];
      ClearingDrops(released[1..], i - 1);
    } else {
      assert released[0 := false][1..] == released[1..];
    }
  }

  /** The chase: clear flags from the head on, counting how far it got. */
  function Chase(t: Tracker): (r: (Tracker, nat))
    requires t.Valid()
    ensures r.0.Valid() && |r.0.released| == |t.released|
    ensures !r.0.released[r.0.headSlot]
    decreases Flags(t.released)
  {
    if !t.released[t.headSlot] then (t, 0)
    else
      ClearingDrops(t.released, t.headSlot);
      var (t', n) := Chase(Tracker(t.released[t.headSlot := false], (t.headSlot + 1) % |t.released|));
      (t', n + 1)
  }

  /** Every number released so far lies in the window or in its prefix. */
  ghost predicate Within(done: set<nat>, limit: nat) {
    forall q :: q in done ==> q < limit
  }

  /** One turn of the chase moves the window forward by one number. */
  lemma ChaseStep(t: Tracker, base: nat, done: set<nat>)
    requires t.Marked(base, done) && base in done && Within(done, base + |t.released|)
    ensures Tracker(t.released[t.headSlot := false], (t.headSlot + 1) % |t.released|).Marked(base + 1, done)
  {
    var k := |t.released|;
    var t' := Tracker(t.released[t.headSlot := false], (t.headSlot + 1) % k);
    AddMod(base, 1, k);
    forall q | base + 1 <= q < base + 1 + k
      ensures t'.released[q % k] == (q in done)
    {
      if q == base + k {
        AddMod(k, base, k);
        assert q % k == base % k;
      } else {
        Distinct(base, q, k);
      }
    }
  }

  lemma {:induction false} ChaseRefines(t: Tracker, base: nat, done: set<nat>)
    requires t.Marked(base, done) && Within(done, base + |t.released|)
    ensures Chase(t).0.Tracks(base + Chase(t).1, done)
    decreases Flags(t.released)
  {
    if t.released[t.headSlot] {
      ChaseStep(t, base, done);
      ClearingDrops(t.released, t.headSlot);
      ChaseRefines(Tracker(t.released[t.headSlot := false], (t.headSlot + 1) % |t.released|), base + 1, done);
    }
  }

  /**
    * Refinement: releasing any number of the window advances the count to the
    * length of the longest released prefix, whatever the release order. The
    * prefix only grows, so no number is counted twice.
    */
  lemma ReleaseRefines(t: Tracker, base: nat, done: set<nat>, q: nat)
    requires t.Tracks(base, done) && Within(done, base + |t.released|)
    requires base <= q < base + |t.released|
    ensures var (t', n) := t.Release(q % |t.released|);
            t'.Tracks(base + n, done + {q}) && Within(done + {q}, base + n + |t.released|)
  {
    var k := |t.released|;
    var m := t.Mark(q % k);
    forall p | base <= p < base + k
      ensures m.released[p % k] == (p in done + {q})
    {
      if p < q {
        Distinct(p, q, k);
      } else if q < p {
        Distinct(q, p, k);
      }
    }
    ChaseRefines(m, base, done + {q});
  }

  /**
    * Outside the window the refinement fails: number `base + capacity` shares
    * the head's slot, so releasing it frees the unreleased head instead.
    */
  lemma ReleaseBeyondWindow(t: Tracker, base: nat, done: set<nat>)
    requires t.Tracks(base, done)
    ensures t.Release((base + |t.released|) % |t.released|).1 > 0
    ensures base !in done + {base + |t.released|}
  {
    var k := |t.released|;
    AddMod(k, base, k);
    var m := t.Mark((base + k) % k);
    assert m.released[m.headSlot];
  }

  /** The first release from a fresh tracker frees one arrival. */
  lemma ReleaseFirst(k: nat)
    requires k >= 2
    ensures Tracker(seq(k, _ => false), 0).Release(0).1 == 1
  {
    var t := Tracker(seq(k, _ => false), 0);
    SmallMod(1, k);
    var m := t.Mark(0);
    var t1 := Tracker(m.released[0 := false], 1);
    ClearingDrops(m.released, 0);
    assert Chase(t1) == (t1, 0);
    assert Chase(m) == (t1, 1);
  }

  /** One turn of the chase. */
  lemma ChaseOne(t: Tracker)
    requires t.Valid() && t.released[t.headSlot]
    ensures var t' := Tracker(t.released[t.headSlot := false], (t.headSlot + 1) % |t.released|);
            && t'.Valid() && Flags(t'.released) < Flags(t.released)
            && Chase(t) == (Chase(t').0, Chase(t').1 + 1)
  {
    ClearingDrops(t.released, t.headSlot);
  }

  lemma ChaseEnds(t: Tracker)
    requires t.Valid() && !t.released[t.headSlot]
    ensures Chase(t) == (t, 0)
  {
  }

  class CompletionTracker {
    const released: array<bool>
    var headSlot: nat

    ghost predicate Valid()
      reads this
    {
      headSlot < released.Length
    }

    function Abs(): Tracker
      reads this, released
    {
      Tracker(released[..], headSlot)
    }

    constructor (capacity: nat)
      requires capacity > 0
      ensures Valid() && fresh(released) && released.Length == capacity
      ensures Abs() == Tracker(seq(capacity, _ => false), 0) && Abs().Tracks(0, {})
    {
      released := new bool[capacity](_ => false);
      headSlot := 0;
    }

    method Release(slot: nat) returns (advanced: nat)
      requires Valid()
      modifies this, released
      ensures Valid()
      ensures (Abs(), advanced) == old(Abs()).Release(slot)
    {
      hide Chase, Flags;
      if slot < released.Length {
        released[slot] := true;
        assert released[..] == old(released[..])[slot := true];
      }
      ghost var marked := Abs();
      advanced := 0;
      while released[headSlot]
        invariant Valid() && marked.Valid()
        invariant Chase(marked) == (Chase(Abs()).0, advanced + Chase(Abs()).1)
        decreases Flags(released[..])
      {
        ghost var t := Abs();
        ChaseOne(t);
        released[headSlot] := false;
        assert released[..] == t.released[t.headSlot := false];
        headSlot := (headSlot + 1) % released.Length;
        advanced := advanced + 1;
      }
      ChaseEnds(Abs());
    }
  }
}
