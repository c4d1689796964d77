/**
  * Admission in rdma-io-busy/src/lib.rs: a round-robin scan over per-core
  * counters, and the counter as several threads use it at once.
  */
module BusyPools {
  import opened Modular
  import opened RingBuffers
  import opened TransportCommon

  // ---------------------------------------------------------------------
  // The counter of one core under concurrent admission
  // ---------------------------------------------------------------------

  /** Who holds an admission guard, and who has over-incremented and not yet undone it. */
  datatype Gate = Gate(count: nat, holders: set<nat>, overs: set<nat>)

  /** One atomic operation of thread `t`. */
  datatype Op = Add(t: nat) | Undo(t: nat) | Drop(t: nat)

  ghost predicate GateNext(cap: nat, g: Gate, op: Op, g': Gate) {
    match op
    case Add(t) =>
      && t !in g.holders && t !in g.overs
      && g' == if g.count < cap then Gate(g.count + 1, g.holders + {t}, g.overs)
               else Gate(g.count + 1, g.holders, g.overs + {t})
    case Undo(t) =>
      t in g.overs && g.count > 0 && g' == Gate(g.count - 1, g.holders, g.overs - {t})
    case Drop(t) =>
      t in g.holders && g.count > 0 && g' == Gate(g.count - 1, g.holders - {t}, g.overs)
  }

  /** The counter counts guards and transient increments; guards alone stay within the cap. */
  ghost predicate GateInv(cap: nat, g: Gate) {
    g.holders !! g.overs && g.count == |g.holders| + |g.overs| && |g.holders| <= cap
  }

  ghost predicate GateRun(cap: nat, gates: seq<Gate>, ops: seq<Op>) {
    && |gates| == |ops| + 1 && gates[0] == Gate(0, {}, {})
    && forall i :: 0 <= i < |ops| ==> GateNext(cap, gates[i], ops[i], gates[i + 1])
  }

  lemma GateKeeps(cap: nat, g: Gate, op: Op, g': Gate)
    requires GateInv(cap, g) && GateNext(cap, g, op, g')
    ensures GateInv(cap, g')
  {
  }

  /** Never more than `cap` guards are live, whatever the transient over-increments. */
  lemma {:induction false} GuardsWithinCap(cap: nat, gates: seq<Gate>, ops: seq<Op>, i: nat)
    requires GateRun(cap, gates, ops) && i < |gates|
    ensures GateInv(cap, gates[i])
  {
    if i > 0 {
      GuardsWithinCap(cap, gates, ops, i - 1);
      GateKeeps(cap, gates[i - 1], ops[i - 1], gates[i]);
    }
  }

  // ---------------------------------------------------------------------
  // The scan
  // ---------------------------------------------------------------------

  /** The first core with headroom among the next `tries`, and the probes it took. */
  function FirstFree(caps: seq<nat>, admitted: seq<nat>, next: nat, tries: nat): (r: Option<(nat, nat)>)
    requires 0 < |caps| == |admitted|
    ensures r.Some? ==> r.value.0 < |caps| && admitted[r.value.0] < caps[r.value.0]
    decreases tries
  {
    if tries == 0 then None
    else
      var i := next % |caps|;
      if admitted[i] < caps[i] then Some((i, 1))
      else match FirstFree(caps, admitted, next + 1, tries - 1)
        case None => None
        case Some(r) => Some((r.0, r.1 + 1))
  }

  /** A full lap misses no core with headroom. */
  lemma {:induction false} ScanComplete(caps: seq<nat>, admitted: seq<nat>, next: nat, tries: nat, d: nat)
    requires 0 < |caps| == |admitted| && d < tries
    requires admitted[(next + d) % |caps|] < caps[(next + d) % |caps|]
    ensures FirstFree(caps, admitted, next, tries).Some?
    decreases tries
  {
    if d > 0 && admitted[next % |caps|] >= caps[next % |caps|] {
      ScanComplete(caps, admitted, next + 1, tries - 1, d - 1);
    }
  }

  /** The scan fails exactly when every core is at its cap. */
  lemma ScanIff(caps: seq<nat>, admitted: seq<nat>, next: nat)
    requires 0 < |caps| == |admitted|
    ensures FirstFree(caps, admitted, next, |caps|).None? <==>
            forall i :: 0 <= i < |caps| ==> admitted[i] >= caps[i]
  {
    forall i | 0 <= i < |caps| && admitted[i] < caps[i]
      ensures FirstFree(caps, admitted, next, |caps|).Some?
    {
      var d := ProbesTo(next % |caps|, i, |caps|);
      AddMod(next, d, |caps|);
      ScanComplete(caps, admitted, next, |caps|, d);
    }
  }

  class BusyPool {
    const caps: seq<nat>
    const admitted: array<nat>
    var next: nat

    ghost predicate Valid()
      reads this
    {
      |caps| == admitted.Length
    }

    constructor (coreCaps: seq<nat>)
      ensures Valid() && fresh(admitted) && caps == coreCaps && next == 0
      ensures forall i :: 0 <= i < admitted.Length ==> admitted[i] == 0
    {
      caps, next := coreCaps, 0;
      admitted := new nat[|coreCaps|](_ => 0);
    }

    /** `try_admit`: the next core with headroom, or none when all are full. */
    method TryAdmit() returns (core: Option<nat>)
      requires Valid()
      modifies this`next, admitted
      ensures Valid()
      ensures core.None? <==> forall i :: 0 <= i < |caps| ==> old(admitted[..])[i] >= caps[i]
      ensures core.None? ==> admitted[..] == old(admitted[..])
      ensures core.Some? ==>
        && core.value < |caps|
        && FirstFree(caps, old(admitted[..]), old(next), |caps|) == Some((core.value, next - old(next)))
        && admitted[..] == old(admitted[..])[core.value := old(admitted[..])[core.value] + 1]
        && admitted[core.value] <= caps[core.value]
    {
      var n := |caps|;
      if n > 0 {
        ScanIff(caps, admitted[..], next);
      }
      for k := 0 to n
        invariant Valid() && admitted[..] == old(admitted[..]) && next == old(next) + k
        invariant n > 0 ==> match FirstFree(caps, admitted[..], next, n - k)
          case None => FirstFree(caps, admitted[..], old(next), n).None?
          case Some(r) => FirstFree(caps, admitted[..], old(next), n) == Some((r.0, r.1 + k))
      {
        var i := next % n;
        next := next + 1;
        var was := admitted[i];
        admitted[i] := admitted[i] + 1;
        if was < caps[i] {
          return Some(i);
        }
        admitted[i] := admitted[i] - 1;
        assert admitted[..] == old(admitted[..]);
      }
      return None;
    }

    /** Dropping an admission guard. */
    method Release(i: nat)
      requires Valid() && i < admitted.Length && admitted[i] > 0
      modifies admitted
      ensures Valid() && admitted[..] == old(admitted[..])[i := old(admitted[i]) - 1]
    {
      admitted[i] := admitted[i] - 1;
    }
  }

  // ---------------------------------------------------------------------
  // Queue sizing
  // ---------------------------------------------------------------------

  const SQ_HEADROOM: nat := 3

  /** `wr_budget`: per-connection send and receive work requests. */
  function SendWrs(maxOutstanding: nat): nat { maxOutstanding + SQ_HEADROOM }
  function RecvWrs(maxOutstanding: nat): nat { maxOutstanding + 2 }

  /** `with_config`: the shared queue depth, or a refusal by the device. */
  function CqDepth(connsPerCore: nat, perConn: nat, maxCqe: nat): Option<nat> {
    var depth := (connsPerCore + 1) * perConn;
    if depth > maxCqe then None else Some(depth)
  }

  /** Enough for every admitted connection at its budget, with a connection's worth to spare. */
  lemma DepthCovers(connsPerCore: nat, perConn: nat, maxCqe: nat, live: nat)
    requires CqDepth(connsPerCore, perConn, maxCqe).Some? && live <= connsPerCore
    ensures live * perConn + perConn <= CqDepth(connsPerCore, perConn, maxCqe).value <= maxCqe
  {
    MulMono(live + 1, connsPerCore + 1, perConn, perConn);
    assert (live + 1) * perConn == live * perConn + perConn;
  }
}
