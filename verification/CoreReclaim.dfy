/**
  * What one reclaim pass and one poll failure do to every connection of a core:
  * exactly the drained and the out-of-turns leave, and a fault reaches everyone.
  */
module CoreReclaim {
  import opened ConnSlots
  import opened CoreDrivers
  import opened CoreProtocol

  /** The device still owes the connection a completion. */
  predicate Owes(slot: Slot) { slot.send.posted > 0 || slot.recv.posted > 0 }

  /** No entry number `m` up to `n` is of the connection. */
  ghost predicate NotWithin(q: seq<Entry>, m: nat, n: nat, conn: nat)
    requires n <= |q|
  {
    forall i :: m <= i < n ==> q[i].conn != conn
  }

  lemma PassOne(core: Core, budget: nat, i: nat)
    requires Stored(core) && i < |core.reclaim|
    ensures core.reclaim[i].conn in ReclaimUpTo(core, budget, i).0.store
    ensures var (c, kept) := ReclaimUpTo(core, budget, i);
            var e := core.reclaim[i];
            ReclaimUpTo(core, budget, i + 1) ==
              (ReclaimOne(c, e, budget), if Leaves(c, e, budget) then kept else kept + [e.(turns := e.turns + 1)])
  {
    hide ReclaimOne, Leaves;
  }

  lemma PassNone(core: Core, budget: nat)
    requires Stored(core)
    ensures ReclaimUpTo(core, budget, 0) == (core, [])
  {
  }

  /** Entries of others leave a slot alone; numbers only leave the map; what is kept stays kept. */
  lemma {:induction false} PassRange(core: Core, budget: nat, m: nat, n: nat, conn: nat)
    requires Stored(core) && m <= n <= |core.reclaim| && conn in core.store && NotWithin(core.reclaim, m, n, conn)
    ensures var a, b := ReclaimUpTo(core, budget, m), ReclaimUpTo(core, budget, n);
            && b.0.store[conn] == a.0.store[conn]
            && b.0.slots.Keys <= a.0.slots.Keys
            && a.1 <= b.1
            && forall j :: |a.1| <= j < |b.1| ==> b.1[j].conn != conn
    decreases n - m
  {
    hide ReclaimUpTo, ReclaimOne, Leaves, Stored;
    if m < n {
      PassRange(core, budget, m, n - 1, conn);
      PassOne(core, budget, n - 1);
      EntryElsewhere(ReclaimUpTo(core, budget, n - 1).0, core.reclaim[n - 1], budget, conn);
    }
  }

  lemma EntryElsewhere(core: Core, e: Entry, budget: nat, conn: nat)
    requires e.conn in core.store && conn in core.store && e.conn != conn
    ensures var r := ReclaimOne(core, e, budget);
            conn in r.store && r.store[conn] == core.store[conn] && r.slots.Keys <= core.slots.Keys
  {
    hide Leaves;
  }

  lemma {:induction false} QueuedTwice(q: seq<Entry>, i: nat, j: nat)
    requires i < j < |q| && q[i].conn == q[j].conn
    ensures Queued(q)[q[i].conn] >= 2
  {
    if i == 0 {
      QueuedAt(q[1..], j - 1);
    } else {
      QueuedTwice(q[1..], i - 1, j - 1);
    }
  }

  /** Every connection is queued at most once. */
  lemma QueuedOnce(s: Sys, i: nat)
    requires Inv(s) && i < |s.core.reclaim|
    ensures var e := s.core.reclaim[i];
            && e.conn in s.core.store && s.core.store[e.conn].state.Closing?
            && NotWithin(s.core.reclaim, 0, i, e.conn) && NotWithin(s.core.reclaim, i + 1, |s.core.reclaim|, e.conn)
  {
    hide Ledger, Leases, ConnOk, Owned, MapOk, Queued;
    var q := s.core.reclaim;
    QueuedClosing(s.core, i);
    assert QueuedOk(s.core, q[i].conn);
    forall j | 0 <= j < |q| && j != i
      ensures q[j].conn != q[i].conn
    {
      if q[j].conn == q[i].conn {
        if i < j {
          QueuedTwice(q, i, j);
        } else {
          QueuedTwice(q, j, i);
        }
      }
    }
  }

  /** One entry on its own. */
  lemma EntrySettles(core: Core, e: Entry, budget: nat)
    requires e.conn in core.store && core.store[e.conn].state.Closing?
    ensures var slot, r := core.store[e.conn], ReclaimOne(core, e, budget);
            && (Leaves(core, e, budget) <==> !Owes(slot) || e.turns + 1 >= budget)
            && e.conn in r.store && (r.store[e.conn].state.Drained? <==> Leaves(core, e, budget))
            && r.store[e.conn].send.posted == slot.send.posted && r.store[e.conn].recv.posted == slot.recv.posted
            && r.store[e.conn].qp == slot.qp && (!Owes(slot) ==> slot.qp !in r.slots)
  {
  }

  /** What the pass makes of entry number `i`, the only one of its connection. */
  lemma PassSettles(core: Core, budget: nat, i: nat)
    requires Stored(core) && i < |core.reclaim|
    requires core.reclaim[i].conn in core.store && core.store[core.reclaim[i].conn].state.Closing?
    requires NotWithin(core.reclaim, 0, i, core.reclaim[i].conn)
    requires NotWithin(core.reclaim, i + 1, |core.reclaim|, core.reclaim[i].conn)
    ensures var e, (c, kept) := core.reclaim[i], ReclaimUpTo(core, budget, |core.reclaim|);
            var owes, over := Owes(core.store[e.conn]), e.turns + 1 >= budget;
            && e.conn in c.store && (c.store[e.conn].state.Drained? <==> !owes || over)
            && Owes(c.store[e.conn]) == owes && (!owes ==> c.store[e.conn].qp !in c.slots)
            && (e.(turns := e.turns + 1) in kept <==> owes && !over)
  {
    hide ReclaimOne, Leaves, ReclaimUpTo, Stored, NotWithin;
    var e := core.reclaim[i];
    PassRange(core, budget, 0, i, e.conn);
    PassNone(core, budget);
    PassRange(core, budget, i + 1, |core.reclaim|, e.conn);
    PassOne(core, budget, i);
    EntrySettles(ReclaimUpTo(core, budget, i).0, e, budget);
    KeptIs(ReclaimUpTo(core, budget, i).1, e, ReclaimUpTo(core, budget, i + 1).1, ReclaimUpTo(core, budget, |core.reclaim|).1);
  }

  /** Only entry number `i` can have left its aged form in the queue. */
  lemma KeptIs(a: seq<Entry>, e: Entry, b: seq<Entry>, c: seq<Entry>)
    requires forall j :: 0 <= j < |a| ==> a[j].conn != e.conn
    requires b == a || b == a + [e.(turns := e.turns + 1)]
    requires b <= c && forall j :: |b| <= j < |c| ==> c[j].conn != e.conn
    ensures e.(turns := e.turns + 1) in c <==> b != a
  {
    var e' := e.(turns := e.turns + 1);
    if b != a {
      assert c[|a|] == e';
    } else {
      forall j | 0 <= j < |c|
        ensures c[j].conn != e.conn
      {
        if j < |a| {
          assert c[j] == a[j];
        }
      }
    }
  }

  /**
    * One pass: a handed-off connection is freed now if the device owes it nothing
    * more, or if its turns are used up; its number is free again if and only if
    * nothing is owed; and otherwise it is kept, one turn older.
    */
  lemma TurnSettles(s: Sys, budget: nat, s': Sys, i: nat)
    requires Inv(s) && SysNext(s, Turn(budget), s') && i < |s.core.reclaim|
    ensures var e := s.core.reclaim[i];
            && e.conn in s.core.store && e.conn in s'.core.store
            && var owes, over := Owes(s.core.store[e.conn]), e.turns + 1 >= budget;
               && (s'.core.store[e.conn].state.Drained? <==> !owes || over)
               && (IsRegistered(s'.core, e.conn) <==> owes)
               && (e.(turns := e.turns + 1) in s'.core.reclaim <==> owes && !over)
  {
    hide *;
    TurnIs(s, budget, s');
    QueuedOnce(s, i);
    PassSettles(s.core, budget, i);
    TurnInv(s, budget, s');
    Settled(s', s.core.reclaim[i].conn, Owes(s.core.store[s.core.reclaim[i].conn]));
  }

  lemma TurnInv(s: Sys, budget: nat, s': Sys)
    requires Inv(s) && SysNext(s, Turn(budget), s')
    ensures Inv(s')
  {
    hide Inv, Next;
    NextKeeps(s, Turn(budget), s');
  }

  lemma TurnIs(s: Sys, budget: nat, s': Sys)
    requires SysNext(s, Turn(budget), s')
    ensures Stored(s.core)
    ensures var (c, kept) := ReclaimUpTo(s.core, budget, |s.core.reclaim|); s'.core == c.(reclaim := kept)
  {
    hide ReclaimUpTo;
  }

  /** A connection that is still owed something keeps its number. */
  lemma Settled(s: Sys, conn: nat, owes: bool)
    requires Inv(s) && conn in s.core.store && owes == Owes(s.core.store[conn])
    ensures owes ==> IsRegistered(s.core, conn)
    ensures s.core.store[conn].qp !in s.core.slots ==> !IsRegistered(s.core, conn)
  {
    hide Ledger, Leases, Owned, QueueOk, Proj, Numbers;
    assert ConnOk(s, conn);
  }

  /** A failure of the shared queue reaches every connection that is not drained. */
  lemma FailureReachesAll(s: Sys, s': Sys, conn: nat)
    requires Inv(s) && SysNext(s, PollFailure, s') && conn in s.core.store && !s.core.store[conn].state.Drained?
    ensures conn in s'.core.store && !s'.core.store[conn].fault.NoFault?
  {
    hide Ledger, Leases, Owned, QueueOk, Proj, Numbers;
    assert ConnOk(s, conn);
  }
}
