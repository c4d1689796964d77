/**
  * core_driver.rs: the one reaper of a core's shared completion queues. It routes
  * each completion by queue-pair number, tears handed-off connections down, and
  * lets a number be reused only behind the drain barrier.
  *
  * Shared slots are kept in a store under a connection number; the routing map
  * and the reclaim queue refer to them by that number.
  */
module CoreDrivers {
  import opened RingBuffers
  import opened TransportCommon
  import opened ConnSlots

  /** A handed-off connection, the reclaim turns spent on it, and whether it holds a lease. */
  datatype Entry = Entry(conn: nat, turns: nat, lease: bool)

  /**
    * `freed` and `dropped` record every time a connection's resources are freed
    * and its lease is dropped. `panicked` is the underflow assertion of the
    * outstanding-work counter.
    */
  datatype Core = Core(slots: map<nat, nat>, store: map<nat, Slot>, reclaim: seq<Entry>, unknown: nat,
                       panicked: bool, freed: multiset<nat>, dropped: multiset<nat>)

  /** Whatever is registered or queued is in the store. */
  ghost predicate Stored(core: Core) {
    && (forall q :: q in core.slots ==> core.slots[q] in core.store)
    && (forall i :: 0 <= i < |core.reclaim| ==> core.reclaim[i].conn in core.store)
  }

  /** The slot after one of its completions has been reaped in direction `dir`. */
  function Reaped(slot: Slot, dir: Dir, wc: Cqe): Slot {
    var lane := slot.Of(dir);
    var counted := slot.With(dir, lane.(posted := SatSub(lane.posted, 1)));
    if slot.state.Closing? || slot.state.Drained? then counted else counted.Deliver(dir, wc)
  }

  /** One completion of `route_into`. */
  function RouteOne(core: Core, dir: Dir, wc: Cqe): (r: Core)
    requires Stored(core)
    ensures Stored(r)
  {
    if wc.qp !in core.slots then core.(unknown := core.unknown + 1)
    else
      var conn := core.slots[wc.qp];
      core.(store := core.store[conn := Reaped(core.store[conn], dir, wc)],
            panicked := core.panicked || core.store[conn].Of(dir).posted == 0)
  }

  /** The first `n` completions routed one after the other. */
  function RouteAll(core: Core, dir: Dir, wcs: seq<Cqe>, n: nat): (r: Core)
    requires Stored(core) && n <= |wcs|
    ensures Stored(r)
  {
    if n == 0 then core else RouteOne(RouteAll(core, dir, wcs, n - 1), dir, wcs[n - 1])
  }

  /** The completion goes into an inbox: its number is taken, its slot is not being torn down and has room. */
  ghost predicate Delivered(core: Core, dir: Dir, wc: Cqe)
    requires Stored(core)
  {
    && wc.qp in core.slots
    && var slot := core.store[core.slots[wc.qp]];
       && !slot.state.Closing? && !slot.state.Drained?
       && |slot.Of(dir).inbox| < slot.Of(dir).capacity
  }

  /** One of the first `n` completions goes into an inbox under the number `q`. */
  ghost predicate Reaches(core: Core, dir: Dir, wcs: seq<Cqe>, n: nat, q: nat)
    requires Stored(core) && n <= |wcs|
  {
    exists i: nat {:trigger RouteAll(core, dir, wcs, i)} ::
      i < n && wcs[i].qp == q && Delivered(RouteAll(core, dir, wcs, i), dir, wcs[i])
  }

  lemma ReachesNext(core: Core, dir: Dir, wcs: seq<Cqe>, n: nat, q: nat)
    requires Stored(core) && n < |wcs|
    ensures Reaches(core, dir, wcs, n + 1, q) <==>
      Reaches(core, dir, wcs, n, q) || (wcs[n].qp == q && Delivered(RouteAll(core, dir, wcs, n), dir, wcs[n]))
  {
    hide RouteAll, Delivered;
    if wcs[n].qp == q && Delivered(RouteAll(core, dir, wcs, n), dir, wcs[n]) {
      assert Reaches(core, dir, wcs, n + 1, q);
    }
  }

  lemma ReachesNone(core: Core, dir: Dir, wcs: seq<Cqe>)
    requires Stored(core)
    ensures forall q :: !Reaches(core, dir, wcs, 0, q)
  {
  }

  /** `register`: an occupied number is refused. */
  function Registered(core: Core, conn: nat, slot: Slot): Option<Core> {
    if slot.qp in core.slots then None
    else Some(core.(slots := core.slots[slot.qp := conn], store := core.store[conn := slot]))
  }

  /** `reclaim`, after the transport has marked its slot closing. */
  function HandOff(core: Core, conn: nat, lease: bool): Core
    requires conn in core.store
  {
    core.(store := core.store[conn := core.store[conn].(state := Closing)],
          reclaim := core.reclaim + [Entry(conn, 0, lease)])
  }

  /** `fail_all_slots` */
  function FailAll(core: Core, fault: Fault): Core {
    core.(store := map c | c in core.store ::
            if core.store[c].qp in core.slots && core.slots[core.store[c].qp] == c
            then core.store[c].MarkFatal(fault) else core.store[c])
  }

  /** The entry leaves the queue: drained, or out of turns. */
  predicate Leaves(core: Core, e: Entry, budget: nat)
    requires e.conn in core.store
  {
    core.store[e.conn].Discarded().DrainComplete() || e.turns + 1 >= budget
  }

  /** One entry of `process_reclaim`. */
  function ReclaimOne(core: Core, e: Entry, budget: nat): (r: Core)
    requires e.conn in core.store
  {
    var slot := core.store[e.conn].Discarded();
    if !Leaves(core, e, budget) then core.(store := core.store[e.conn := slot])
    else
      core.(store := core.store[e.conn := slot.(state := Drained, generation := slot.generation + 1)],
            slots := if slot.DrainComplete() then core.slots - {slot.qp} else core.slots,
            freed := core.freed + multiset{e.conn},
            dropped := core.dropped + if e.lease then multiset{e.conn} else multiset{})
  }

  /** The state after the first `n` queue entries, and the entries kept so far. */
  function ReclaimUpTo(core: Core, budget: nat, n: nat): (r: (Core, seq<Entry>))
    requires Stored(core) && n <= |core.reclaim|
    ensures Stored(r.0) && r.0.store.Keys == core.store.Keys && r.0.reclaim == core.reclaim
  {
    if n == 0 then (core, [])
    else
      var (c, kept) := ReclaimUpTo(core, budget, n - 1);
      var e := core.reclaim[n - 1];
      (ReclaimOne(c, e, budget),
       if Leaves(c, e, budget) then kept else kept + [e.(turns := e.turns + 1)])
  }

  /** `process_reclaim` */
  function ReclaimPass(core: Core, budget: nat): Core
    requires Stored(core)
  {
    var (c, kept) := ReclaimUpTo(core, budget, |core.reclaim|);
    c.(reclaim := kept)
  }

  class CoreDriver {
    var slots: map<nat, nat>
    var store: map<nat, Slot>
    var reclaim: seq<Entry>
    var unknownQp: nat
    var panicked: bool
    var freed: multiset<nat>
    var dropped: multiset<nat>

    ghost function Abs(): Core
      reads this
    {
      Core(slots, store, reclaim, unknownQp, panicked, freed, dropped)
    }

    ghost predicate Valid()
      reads this
    {
      Stored(Abs())
    }

    constructor ()
      ensures Valid() && Abs() == Core(map[], map[], [], 0, false, multiset{}, multiset{})
    {
      slots, store, reclaim := map[], map[], [];
      unknownQp, panicked := 0, false;
      freed, dropped := multiset{}, multiset{};
    }

    /** One completion of `route_into`: counted, then delivered unless the slot is closing. */
    method RouteCompletion(dir: Dir, wc: Cqe) returns (delivered: bool)
      requires Valid()
      modifies this`store, this`unknownQp, this`panicked
      ensures Valid() && Abs() == RouteOne(old(Abs()), dir, wc)
      ensures delivered <==> Delivered(old(Abs()), dir, wc)
    {
      if wc.qp !in slots {
        unknownQp := unknownQp + 1;
        return false;
      }
      var conn := slots[wc.qp];
      var slot := store[conn];
      var lane := slot.Of(dir);
      if lane.posted == 0 {
        panicked := true;
      }
      var counted := slot.With(dir, lane.(posted := SatSub(lane.posted, 1)));
      if slot.state.Closing? || slot.state.Drained? {
        store := store[conn := counted];
        return false;
      }
      store := store[conn := counted.Deliver(dir, wc)];
      return |lane.inbox| < lane.capacity;
    }

    /** `route_into`: route a batch and wake each connection it delivered to once. */
    method RouteInto(dir: Dir, wcs: seq<Cqe>) returns (woken: seq<nat>)
      requires Valid()
      modifies this`store, this`unknownQp, this`panicked
      ensures Valid() && Abs() == RouteAll(old(Abs()), dir, wcs, |wcs|)
      ensures forall i, j :: 0 <= i < j < |woken| ==> woken[i] != woken[j]
      ensures forall q :: q in woken <==> Reaches(old(Abs()), dir, wcs, |wcs|, q)
    {
      hide RouteOne, Stored, Delivered, Reaches;
      ghost var start := Abs();
      woken := [];
      ReachesNone(start, dir, wcs);
      for i := 0 to |wcs|
        invariant Valid() && Abs() == RouteAll(old(Abs()), dir, wcs, i)
        invariant forall i, j :: 0 <= i < j < |woken| ==> woken[i] != woken[j]
        invariant forall q :: q in woken <==> Reaches(start, dir, wcs, i, q)
      {
        forall q
          ensures Reaches(start, dir, wcs, i + 1, q) <==>
            Reaches(start, dir, wcs, i, q) || (wcs[i].qp == q && Delivered(RouteAll(start, dir, wcs, i), dir, wcs[i]))
        {
          ReachesNext(start, dir, wcs, i, q);
        }
        var delivered := RouteCompletion(dir, wcs[i]);
        if delivered && wcs[i].qp !in woken {
          woken := woken + [wcs[i].qp];
        }
      }
    }

    method Register(conn: nat, slot: Slot) returns (ok: bool)
      requires Valid()
      modifies this`slots, this`store
      ensures Valid()
      ensures match Registered(old(Abs()), conn, slot)
        case None => !ok && Abs() == old(Abs())
        case Some(c) => ok && Abs() == c
    {
      if slot.qp in slots {
        return false;
      }
      slots, store := slots[slot.qp := conn], store[conn := slot];
      return true;
    }

    method Reclaim(conn: nat, lease: bool)
      requires Valid() && conn in store
      modifies this`store, this`reclaim
      ensures Valid() && Abs() == HandOff(old(Abs()), conn, lease)
    {
      store := store[conn := store[conn].(state := Closing)];
      reclaim := reclaim + [Entry(conn, 0, lease)];
    }

    /** One entry of `process_reclaim`; it is kept while its flush is still draining. */
    method ReclaimEntry(e: Entry, budget: nat) returns (keep: bool)
      requires Valid() && e.conn in store
      modifies this`store, this`slots, this`freed, this`dropped
      ensures Valid() && Abs() == ReclaimOne(old(Abs()), e, budget)
      ensures keep <==> !Leaves(old(Abs()), e, budget)
    {
      var slot := store[e.conn].Discarded();
      var done := slot.DrainComplete();
      if !done && e.turns + 1 < budget {
        store := store[e.conn := slot];
        return true;
      }
      store := store[e.conn := slot.(state := Drained, generation := slot.generation + 1)];
      freed := freed + multiset{e.conn};
      if done {
        slots := slots - {slot.qp};
      }
      dropped := dropped + if e.lease then multiset{e.conn} else multiset{};
      return false;
    }

    /** `process_reclaim`: one bounded pass over the queue. */
    method ProcessReclaim(budget: nat)
      requires Valid()
      modifies this
      ensures Valid() && Abs() == ReclaimPass(old(Abs()), budget)
    {
      hide ReclaimOne, Leaves;
      var kept: seq<Entry> := [];
      var queue := reclaim;
      for i := 0 to |queue|
        invariant Valid() && reclaim == queue == old(reclaim)
        invariant (Abs(), kept) == ReclaimUpTo(old(Abs()), budget, i)
      {
        var keep := ReclaimEntry(queue[i], budget);
        if keep {
          kept := kept + [queue[i].(turns := queue[i].turns + 1)];
        }
      }
      KeptStored(old(Abs()), budget, |queue|);
      reclaim := kept;
    }
  }

  lemma EntryStored(core: Core, e: Entry, budget: nat)
    requires e.conn in core.store
    ensures var r := ReclaimOne(core, e, budget);
            && r.store.Keys == core.store.Keys
            && forall q :: q in r.slots ==> q in core.slots && r.slots[q] == core.slots[q]
  {
    hide Leaves;
  }

  lemma {:induction false} KeptStored(core: Core, budget: nat, n: nat)
    requires Stored(core) && n <= |core.reclaim|
    ensures var (c, kept) := ReclaimUpTo(core, budget, n); Stored(c.(reclaim := kept))
  {
    hide ReclaimOne, Leaves;
    if n > 0 {
      KeptStored(core, budget, n - 1);
      var (c, kept) := ReclaimUpTo(core, budget, n - 1);
      EntryStored(c, core.reclaim[n - 1], budget);
    }
  }
}
