/**
  * Abandoned setups of a busy-poll core. A setup given up after its handshake hands
  * its queue pair to the driver without a lease, so its admission guard is free again
  * while its requests are still being flushed; how many such setups the depth of the
  * shared receive queue absorbs.
  */
module BusyOverrun {
  import opened RingBuffers
  import opened TransportCommon
  import opened ConnSlots
  import opened CoreDrivers
  import opened BusyPools
  import opened BusyRing
  import CP = CoreProtocol
  import RR = ReadRing
  import RP = ReadProtocol
  import RecvSide

  // ---------------------------------------------------------------------
  // Runs with few abandoned setups at a time
  // ---------------------------------------------------------------------

  /** In no state do more than `k` connections without a guard still have requests under way. */
  ghost predicate Few(k: nat, states: seq<Joint>) {
    forall i :: 0 <= i < |states| ==> |Loose(states[i])| <= k
  }

  ghost predicate Reached(c: RR.Config, cap: nat, k: nat, j: Joint) {
    exists states, acts :: IsRun(c, cap, states, acts) && Few(k, states) && states[|acts|] == j
  }

  lemma ReachedStart(c: RR.Config, cap: nat, k: nat)
    ensures Reached(c, cap, k, Start()) && Loose(Start()) == {}
  {
    assert Loose(Start()) == {};
    hide Start, Loose;
    assert IsRun(c, cap, [Start()], []) && Few(k, [Start()]);
  }

  lemma ReachedStep(c: RR.Config, cap: nat, k: nat, j: Joint, act: Step, j': Joint)
    requires Reached(c, cap, k, j) && Next(c, cap, j, act, j') && |Loose(j')| <= k
    ensures Reached(c, cap, k, j')
  {
    hide Next, Start, Loose;
    var states, acts :| IsRun(c, cap, states, acts) && Few(k, states) && states[|acts|] == j;
    var states', acts' := states + [j'], acts + [act];
    forall i | 0 <= i < |acts'|
      ensures Next(c, cap, states'[i], acts'[i], states'[i + 1])
    {
      if i < |acts| {
        assert Next(c, cap, states[i], acts[i], states[i + 1]);
      }
    }
    assert IsRun(c, cap, states', acts') && Few(k, states');
  }

  lemma ReachedInv(c: RR.Config, cap: nat, k: nat, j: Joint)
    requires c.Valid() && Reached(c, cap, k, j)
    ensures Inv(c, cap, j) && |Loose(j)| <= k
  {
    hide Inv, Next, Start, Loose;
    var states, acts :| IsRun(c, cap, states, acts) && Few(k, states) && states[|acts|] == j;
    RunInv(c, cap, states, acts, |acts|);
  }

  ghost predicate NoneDrained(j: Joint) {
    forall conn :: conn in j.core.core.store ==> !j.core.core.store[conn].state.Drained?
  }

  /** A run has come to `j`, with at most `o` abandoned setups there, and nothing retired yet. */
  ghost predicate At(c: RR.Config, cap: nat, k: nat, j: Joint, o: nat) {
    c.Valid() && Reached(c, cap, k, j) && |Orphans(j)| <= o <= k && NoneDrained(j)
  }

  lemma OnlyOrphans(j: Joint)
    requires NoneDrained(j)
    ensures Loose(j) == Orphans(j)
  {
    hide Orphan;
    assert CP.Wedged(j.core) == {};
  }

  lemma StayUndrained(c: RR.Config, cap: nat, k: nat, j: Joint, act: Step, j': Joint)
    requires c.Valid() && Reached(c, cap, k, j) && NoneDrained(j) && Next(c, cap, j, act, j') && !(act.Driver? && act.a.Turn?)
    ensures NoneDrained(j')
  {
    hide Reached, Next, Inv;
    ReachedInv(c, cap, k, j);
    forall conn | conn in j'.core.core.store
      ensures !j'.core.core.store[conn].state.Drained?
    {
      if j'.core.core.store[conn].state.Drained? {
        NoneRetired(c, cap, j, act, j', conn);
      }
    }
  }

  /** A step that abandons nothing and retires nothing. */
  lemma Onward(c: RR.Config, cap: nat, k: nat, j: Joint, o: nat, act: Step, j': Joint)
    requires At(c, cap, k, j, o) && Next(c, cap, j, act, j') && !Abandons(j, act) && !(act.Driver? && act.a.Turn?)
    ensures At(c, cap, k, j', o)
  {
    hide Reached, Next, Inv, Orphans, Abandons, Loose, NoneDrained;
    ReachedInv(c, cap, k, j);
    OrphansShrink(c, cap, j, act, j');
    SubsetSize(Orphans(j'), Orphans(j));
    StayUndrained(c, cap, k, j, act, j');
    OnlyOrphans(j');
    ReachedStep(c, cap, k, j, act, j');
  }

  lemma SubsetSize(a: set<nat>, b: set<nat>)
    requires a <= b
    ensures |a| <= |b|
  {
    assert |b| == |a| + |b - a| by {
      assert b == a + (b - a);
    }
  }

  lemma CloseOrphans(c: RR.Config, cap: nat, j: Joint, conn: nat, j': Joint)
    requires Next(c, cap, j, Driver(CP.Close(conn)), j')
    ensures Orphans(j') <= Orphans(j) + {conn}
  {
    hide Stored;
    forall d | d in Orphans(j') && d != conn
      ensures d in Orphans(j)
    {
      assert j'.core.core.store[d] == j.core.core.store[d];
    }
  }

  /** The hand-off of a setup makes one orphan more. */
  lemma OnwardClose(c: RR.Config, cap: nat, k: nat, j: Joint, o: nat, conn: nat, j': Joint)
    requires At(c, cap, k, j, o) && o < k && Next(c, cap, j, Driver(CP.Close(conn)), j')
    ensures At(c, cap, k, j', o + 1)
  {
    hide Reached, Next, Orphans, Loose, NoneDrained;
    CloseOrphans(c, cap, j, conn, j');
    SubsetSize(Orphans(j'), Orphans(j) + {conn});
    StayUndrained(c, cap, k, j, Driver(CP.Close(conn)), j');
    OnlyOrphans(j');
    ReachedStep(c, cap, k, j, Driver(CP.Close(conn)), j');
  }

  // ---------------------------------------------------------------------
  // A connection with its token come and all its doorbells posted
  // ---------------------------------------------------------------------

  /** Connection `n`, under number `n` and guard `g`, beside those of `j`. */
  ghost function Put(c: RR.Config, j: Joint, n: nat, g: nat, slot: Slot, t: CP.Tracks): Joint
    requires c.cap > 0
  {
    var core := j.core.core;
    Joint(j.core.(core := core.(slots := core.slots[n := n], store := core.store[n := slot]), track := j.core.track[n := t]),
          j.links[n := Link(RP.Start(c), g, 0)], j.gate)
  }

  /** `n` is new and the receive queue is empty. */
  ghost predicate Fresh(j: Joint, n: nat) {
    && Stored(j.core.core) && j.links.Keys == j.core.core.store.Keys == j.core.track.Keys
    && n !in j.links && n !in j.core.core.slots && j.core.recvCq == []
  }

  function SlotWith(c: RR.Config, n: nat, inbox: seq<Cqe>, posted: nat): Slot {
    var slot := CP.FreshSlot(n, Budget(c, Dir.Send), Budget(c, Dir.Recv));
    slot.(recv := slot.recv.(inbox := inbox, posted := posted))
  }

  function TracksWith(recv: CP.Track): CP.Tracks { CP.FreshTracks().(recv := recv) }

  lemma PutShape(c: RR.Config, j: Joint, n: nat, g: nat, slot: Slot, t: CP.Tracks)
    requires c.cap > 0 && Fresh(j, n)
    ensures var p := Put(c, j, n, g, slot, t);
            && Stored(p.core.core) && p.links.Keys == p.core.core.store.Keys == p.core.track.Keys
            && n in p.links && p.core.recvCq == []
  {
  }

  lemma PutGate(c: RR.Config, j: Joint, n: nat, g: nat, slot: Slot, t: CP.Tracks)
    requires c.cap > 0
    ensures var p := Put(c, j, n, g, slot, t);
            && p.gate == j.gate && n in p.links && p.links[n].guard == g && p.links.Keys == j.links.Keys + {n}
            && n in p.core.core.store && p.core.core.store[n] == slot && n in p.core.track && p.core.track[n] == t
  {
  }

  /** Replacing the new connection's slot and history again. */
  lemma PutAgain(c: RR.Config, j: Joint, n: nat, g: nat, slot: Slot, t: CP.Tracks, slot': Slot, t': CP.Tracks)
    requires c.cap > 0
    ensures var p := Put(c, j, n, g, slot, t);
            p.(core := CP.Update(p.core, n, slot', t')) == Put(c, j, n, g, slot', t')
  {
    var core := j.core.core;
    assert core.store[n := slot][n := slot'] == core.store[n := slot'];
    assert j.core.track[n := t][n := t'] == j.core.track[n := t'];
  }

  lemma OpenOne(c: RR.Config, cap: nat, k: nat, j: Joint, o: nat, n: nat, g: nat)
    requires At(c, cap, k, j, o) && Fresh(j, n) && g in j.gate.holders && Spare(j, g)
    ensures At(c, cap, k, Put(c, j, n, g, SlotWith(c, n, [], 0), CP.FreshTracks()), o)
  {
    hide At, Spare, RP.Start;
    AtValid(c, cap, k, j, o);
    var j' := Put(c, j, n, g, SlotWith(c, n, [], 0), CP.FreshTracks());
    assert CP.Next(j.core, CP.Open(n, n, Budget(c, Dir.Send), Budget(c, Dir.Recv)), j'.core);
    hide CP.Next;
    Onward(c, cap, k, j, o, Open(n, n, g), j');
  }

  lemma AtValid(c: RR.Config, cap: nat, k: nat, j: Joint, o: nat)
    requires At(c, cap, k, j, o)
    ensures c.Valid()
  {
  }

  /** One more receive posted during setup: the token's, or a doorbell. */
  lemma PostOne(c: RR.Config, cap: nat, k: nat, j: Joint, o: nat, n: nat, g: nat, posted: nat, h: CP.Track)
    requires c.cap > 0 && Fresh(j, n) && At(c, cap, k, Put(c, j, n, g, SlotWith(c, n, [], posted), TracksWith(h)), o)
    requires h.issued == 0 || (h.got > 0 && h.issued < 1 + c.maxOut)
    ensures At(c, cap, k, Put(c, j, n, g, SlotWith(c, n, [], posted + 1), TracksWith(h.(issued := h.issued + 1))), o)
  {
    hide At, Put, Fresh;
    var slot, t := SlotWith(c, n, [], posted), TracksWith(h);
    var slot', t' := SlotWith(c, n, [], posted + 1), TracksWith(h.(issued := h.issued + 1));
    PutShape(c, j, n, g, slot, t);
    PutGate(c, j, n, g, slot, t);
    PutAgain(c, j, n, g, slot, t, slot', t');
    RecvPosted(c, cap, k, Put(c, j, n, g, slot, t), o, n);
  }

  lemma RecvPosted(c: RR.Config, cap: nat, k: nat, p: Joint, o: nat, n: nat)
    requires At(c, cap, k, p, o) && n in p.links && n in p.core.core.store && n in p.core.track
    requires p.core.core.store[n].state.Connecting?
    requires var h := p.core.track[n].recv; h.issued == 0 || (h.got > 0 && h.issued < 1 + c.maxOut)
    ensures At(c, cap, k, p.(core := CP.Posted(p.core, n, Dir.Recv)), o)
  {
    hide At, Posts, CP.Posted;
    OnePost(p.core, n);
    assert p.links[n := p.links[n].(setupSends := p.links[n].setupSends + 0)] == p.links;
    Onward(c, cap, k, p, o, if p.core.track[n].recv.issued == 0 then TokenRecv(n) else Doorbell(n),
           p.(core := CP.Posted(p.core, n, Dir.Recv)));
  }

  lemma OnePost(s: CP.Sys, n: nat)
    requires n in s.core.store && n in s.track
    ensures Posts(s, n, Dir.Recv, 1) == CP.Posted(s, n, Dir.Recv)
  {
    NoPosts(s, n, Dir.Recv);
  }

  /** The token's completion is made, */
  lemma TokenMade(c: RR.Config, cap: nat, k: nat, j: Joint, o: nat, n: nat, g: nat)
    requires c.cap > 0 && Fresh(j, n) && At(c, cap, k, Put(c, j, n, g, SlotWith(c, n, [], 1), TracksWith(CP.Track(1, 0, 0, 0, []))), o)
    ensures At(c, cap, k, Swelled(Put(c, j, n, g, SlotWith(c, n, [], 1), TracksWith(CP.Track(1, 1, 0, 0, []))), n), o)
  {
    hide At, RP.Start;
    var slot, t, t' := SlotWith(c, n, [], 1), TracksWith(CP.Track(1, 0, 0, 0, [])), TracksWith(CP.Track(1, 1, 0, 0, []));
    PutShape(c, j, n, g, slot, t);
    PutAgain(c, j, n, g, slot, t, slot, t');
    assert [] + [Cqe(n, n, 0)] == [Cqe(n, n, 0)];
    assert j.core.core.store[n := slot][n := slot] == j.core.core.store[n := slot];
    Onward(c, cap, k, Put(c, j, n, g, slot, t), o, Driver(CP.Complete(n, Dir.Recv)), Swelled(Put(c, j, n, g, slot, t'), n));
  }

  /** The completion of the token waits in the receive queue. */
  ghost function Swelled(j: Joint, n: nat): Joint { j.(core := j.core.(recvCq := [Cqe(n, n, 0)])) }

  /** swept, */
  lemma TokenSwept(c: RR.Config, cap: nat, k: nat, j: Joint, o: nat, n: nat, g: nat)
    requires c.cap > 0 && Fresh(j, n)
    requires At(c, cap, k, Swelled(Put(c, j, n, g, SlotWith(c, n, [], 1), TracksWith(CP.Track(1, 1, 0, 0, []))), n), o)
    ensures At(c, cap, k, Put(c, j, n, g, SlotWith(c, n, [Cqe(n, n, 0)], 0), TracksWith(CP.Track(1, 1, 1, 0, []))), o)
  {
    hide At, RP.Start;
    var wc := Cqe(n, n, 0);
    var slot, t := SlotWith(c, n, [], 1), TracksWith(CP.Track(1, 1, 0, 0, []));
    var slot', t' := SlotWith(c, n, [wc], 0), TracksWith(CP.Track(1, 1, 1, 0, []));
    PutShape(c, j, n, g, slot, t);
    PutAgain(c, j, n, g, slot, t, slot', t');
    assert [] + [wc] == [wc] && [wc][1..] == [];
    assert Reaped(slot, Dir.Recv, wc) == slot';
    hide Reaped, SlotWith;
    Onward(c, cap, k, Swelled(Put(c, j, n, g, slot, t), n), o, Driver(CP.Sweep(Dir.Recv)), Put(c, j, n, g, slot', t'));
  }

  /** and polled. */
  lemma TokenPolled(c: RR.Config, cap: nat, k: nat, j: Joint, o: nat, n: nat, g: nat)
    requires c.cap > 0 && Fresh(j, n)
    requires At(c, cap, k, Put(c, j, n, g, SlotWith(c, n, [Cqe(n, n, 0)], 0), TracksWith(CP.Track(1, 1, 1, 0, []))), o)
    ensures At(c, cap, k, Put(c, j, n, g, SlotWith(c, n, [], 0), TracksWith(CP.Track(1, 1, 1, 1, [Cqe(n, n, 0)]))), o)
  {
    hide At, RP.Start;
    var wc := Cqe(n, n, 0);
    var slot, t := SlotWith(c, n, [wc], 0), TracksWith(CP.Track(1, 1, 1, 0, []));
    var slot', t' := SlotWith(c, n, [], 0), TracksWith(CP.Track(1, 1, 1, 1, [wc]));
    PutShape(c, j, n, g, slot, t);
    PutAgain(c, j, n, g, slot, t, slot', t');
    assert [] + [wc] == [wc] && [wc][1..] == [] && [wc][..1] == [wc];
    Onward(c, cap, k, Put(c, j, n, g, slot, t), o, Driver(CP.Poll(n, Dir.Recv, 1)), Put(c, j, n, g, slot', t'));
  }

  /** The history of a connection with its token come and `m` doorbells posted. */
  function Ready(n: nat, m: nat): CP.Tracks { TracksWith(CP.Track(1 + m, 1, 1, 1, [Cqe(n, n, 0)])) }

  lemma {:induction false} Doorbells(c: RR.Config, cap: nat, k: nat, j: Joint, o: nat, n: nat, g: nat, m: nat)
    requires c.cap > 0 && Fresh(j, n) && At(c, cap, k, Put(c, j, n, g, SlotWith(c, n, [], 0), Ready(n, 0)), o) && m <= c.maxOut
    ensures At(c, cap, k, Put(c, j, n, g, SlotWith(c, n, [], m), Ready(n, m)), o)
  {
    hide At, Put, Fresh, SlotWith;
    if m > 0 {
      Doorbells(c, cap, k, j, o, n, g, m - 1);
      PostOne(c, cap, k, j, o, n, g, m - 1, Ready(n, m - 1).recv);
    }
  }

  lemma Prepare(c: RR.Config, cap: nat, k: nat, j: Joint, o: nat, n: nat, g: nat) returns (j': Joint)
    requires At(c, cap, k, j, o) && Fresh(j, n) && g in j.gate.holders && Spare(j, g)
    ensures c.Valid() && j' == Put(c, j, n, g, SlotWith(c, n, [], c.maxOut), Ready(n, c.maxOut)) && At(c, cap, k, j', o)
  {
    hide At, Put, Fresh, SlotWith, Spare;
    AtValid(c, cap, k, j, o);
    OpenOne(c, cap, k, j, o, n, g);
    PostOne(c, cap, k, j, o, n, g, 0, CP.FreshTracks().recv);
    TokenMade(c, cap, k, j, o, n, g);
    TokenSwept(c, cap, k, j, o, n, g);
    TokenPolled(c, cap, k, j, o, n, g);
    Doorbells(c, cap, k, j, o, n, g, c.maxOut);
    j' := Put(c, j, n, g, SlotWith(c, n, [], c.maxOut), Ready(n, c.maxOut));
  }

  // ---------------------------------------------------------------------
  // `o` abandoned setups and a full house of others
  // ---------------------------------------------------------------------

  ghost function Below(n: nat): set<nat> { RecvSide.Range(0, n) }

  /** Connection `m` of a stock in which the first `o` were abandoned. */
  ghost predicate Stocked(c: RR.Config, j: Joint, m: nat, o: nat)
    requires m in j.core.core.store && m in j.core.track && m in j.links
  {
    var slot, t := j.core.core.store[m], j.core.track[m];
    && slot.qp == m && !t.leased && t.recv.issued == 1 + c.maxOut && t.recv.made == 1
    && (if m < o then slot.state.Closing? else slot.state.Connecting? && j.links[m].guard == m - o)
  }

  /** The first `n` connections are stocked, and nothing waits in the receive queue. */
  ghost predicate Shelf(c: RR.Config, j: Joint, n: nat, o: nat) {
    && Stored(j.core.core) && j.links.Keys == j.core.core.store.Keys == j.core.track.Keys == Below(n)
    && (forall q :: q in j.core.core.slots ==> q < n) && j.core.recvCq == []
    && (forall m :: m in j.links ==> Stocked(c, j, m, o))
  }

  /** Those from `o` on each have a guard. */
  ghost predicate Stock(c: RR.Config, cap: nat, k: nat, j: Joint, n: nat, o: nat) {
    At(c, cap, k, j, o) && o <= n && j.gate == Gate(n - o, Below(n - o), {}) && Shelf(c, j, n, o)
  }

  lemma ShelfRoom(c: RR.Config, j: Joint, n: nat, o: nat)
    requires Shelf(c, j, n, o) && o <= n
    ensures Fresh(j, n) && Spare(j, n - o)
  {
    assert n !in Below(n);
    forall conn | conn in j.links && Charged(j.core, conn)
      ensures j.links[conn].guard != n - o
    {
      assert Stocked(c, j, conn, o);
    }
  }

  /** The other connections are as they were. */
  lemma PutOther(c: RR.Config, j: Joint, n: nat, g: nat, slot: Slot, t: CP.Tracks, m: nat)
    requires c.cap > 0 && m != n
    ensures var p := Put(c, j, n, g, slot, t);
            && (m in p.links <==> m in j.links) && (m in p.core.core.slots ==> m in j.core.core.slots)
            && (m in j.links ==> p.links[m] == j.links[m])
            && (m in j.core.core.store ==> m in p.core.core.store && p.core.core.store[m] == j.core.core.store[m])
            && (m in j.core.track ==> m in p.core.track && p.core.track[m] == j.core.track[m])
  {
  }

  lemma BelowNext(n: nat)
    ensures Below(n) + {n} == Below(n + 1)
    ensures forall m :: m in Below(n) ==> m < n
  {
  }

  lemma PutStocked(c: RR.Config, j: Joint, n: nat, o: nat, m: nat)
    requires c.cap > 0 && o <= n && j.links.Keys == j.core.core.store.Keys == j.core.track.Keys
    requires m != n ==> m in j.links && Stocked(c, j, m, o)
    ensures var p := Put(c, j, n, n - o, SlotWith(c, n, [], c.maxOut), Ready(n, c.maxOut));
            m in p.core.core.store && m in p.core.track && m in p.links && Stocked(c, p, m, o)
  {
    var slot, t := SlotWith(c, n, [], c.maxOut), Ready(n, c.maxOut);
    hide Put;
    PutGate(c, j, n, n - o, slot, t);
    if m != n {
      PutOther(c, j, n, n - o, slot, t, m);
    }
  }

  lemma ShelfPut(c: RR.Config, j: Joint, n: nat, o: nat)
    requires Shelf(c, j, n, o) && o <= n && c.cap > 0
    ensures Shelf(c, Put(c, j, n, n - o, SlotWith(c, n, [], c.maxOut), Ready(n, c.maxOut)), n + 1, o)
  {
    hide Put, Fresh, Spare, Stocked, SlotWith, Ready, Stored, Below;
    var slot, t := SlotWith(c, n, [], c.maxOut), Ready(n, c.maxOut);
    var j' := Put(c, j, n, n - o, slot, t);
    ShelfRoom(c, j, n, o);
    PutShape(c, j, n, n - o, slot, t);
    PutGate(c, j, n, n - o, slot, t);
    BelowNext(n);
    forall m | m in j'.links
      ensures Stocked(c, j', m, o)
    {
      PutStocked(c, j, n, o, m);
    }
    forall q | q in j'.core.core.slots
      ensures q < n + 1
    {
      if q != n {
        PutOther(c, j, n, n - o, slot, t, q);
      }
    }
  }

  lemma ShelfClose(c: RR.Config, j: Joint, n: nat)
    requires Shelf(c, j, n + 1, n) && n in j.core.core.store
    ensures Shelf(c, j.(core := j.core.(core := HandOff(j.core.core, n, false))), n + 1, n + 1)
  {
    var j' := j.(core := j.core.(core := HandOff(j.core.core, n, false)));
    assert j'.core.core.store.Keys == j.core.core.store.Keys;
    forall m | m in j'.links
      ensures Stocked(c, j', m, n + 1)
    {
      assert Stocked(c, j, m, n);
    }
  }

  /** A guard that is not taken is one more connection's. */
  lemma Admit(c: RR.Config, cap: nat, k: nat, j: Joint, o: nat, g: nat) returns (j': Joint)
    requires At(c, cap, k, j, o) && j.gate == Gate(g, Below(g), {}) && g < cap
    ensures At(c, cap, k, j', o) && j' == j.(gate := Gate(g + 1, Below(g + 1), {}))
  {
    hide At;
    assert Below(g) + {g} == Below(g + 1);
    j' := j.(gate := Gate(g + 1, Below(g + 1), {}));
    Onward(c, cap, k, j, o, Admission(Add(g)), j');
  }

  lemma StockOne(c: RR.Config, cap: nat, k: nat, j: Joint, n: nat, o: nat) returns (j': Joint)
    requires Stock(c, cap, k, j, n, o) && n - o < cap
    ensures Stock(c, cap, k, j', n + 1, o)
  {
    hide At, Put, Shelf, Fresh, Spare;
    var j1 := Admit(c, cap, k, j, o, n - o);
    SameShelf(c, j, j1, n, o);
    ShelfRoom(c, j1, n, o);
    j' := Prepare(c, cap, k, j1, o, n, n - o);
    ShelfPut(c, j1, n, o);
    PutGate(c, j1, n, n - o, SlotWith(c, n, [], c.maxOut), Ready(n, c.maxOut));
  }

  lemma SameShelf(c: RR.Config, j: Joint, j': Joint, n: nat, o: nat)
    requires Shelf(c, j, n, o) && j' == j.(gate := j'.gate)
    ensures Shelf(c, j', n, o)
  {
    forall m | m in j'.links
      ensures Stocked(c, j', m, o)
    {
      assert Stocked(c, j, m, o);
    }
  }

  /** An abandoned setup still has its guard. */
  ghost predicate Handed(c: RR.Config, cap: nat, k: nat, j: Joint, n: nat) {
    At(c, cap, k, j, n + 1) && j.gate == Gate(1, Below(1), {}) && Shelf(c, j, n + 1, n + 1)
  }

  /** The same, but the setup is abandoned, */
  lemma HandOne(c: RR.Config, cap: nat, k: nat, j: Joint, n: nat) returns (j': Joint)
    requires Stock(c, cap, k, j, n, n) && 0 < cap && n < k
    ensures Handed(c, cap, k, j', n)
  {
    hide At, Put, Shelf, Fresh, Spare;
    var j1 := Admit(c, cap, k, j, n, 0);
    SameShelf(c, j, j1, n, n);
    ShelfRoom(c, j1, n, n);
    var j2 := Prepare(c, cap, k, j1, n, n, 0);
    ShelfPut(c, j1, n, n);
    PutGate(c, j1, n, 0, SlotWith(c, n, [], c.maxOut), Ready(n, c.maxOut));
    j' := j2.(core := j2.core.(core := HandOff(j2.core.core, n, false)));
    ShelfClose(c, j2, n);
    ShelfStored(c, j2, n + 1, n);
    OnwardClose(c, cap, k, j2, n, n, j');
  }

  lemma ShelfStored(c: RR.Config, j: Joint, n: nat, o: nat)
    requires Shelf(c, j, n, o)
    ensures Stored(j.core.core) && j.core.track.Keys == j.core.core.store.Keys
  {
  }

  /** and its guard given back. */
  lemma LitterOne(c: RR.Config, cap: nat, k: nat, j: Joint, n: nat) returns (j': Joint)
    requires Handed(c, cap, k, j, n)
    ensures Stock(c, cap, k, j', n + 1, n + 1)
  {
    hide At;
    assert Below(1) - {0} == Below(0);
    j' := j.(gate := Gate(0, Below(0), {}));
    SameShelf(c, j, j', n + 1, n + 1);
    forall m | m in j.links
      ensures !Charged(j.core, m)
    {
      assert Stocked(c, j, m, n + 1);
    }
    hide Stocked, Charged;
    Onward(c, cap, k, j, n + 1, Admission(Drop(0)), j');
  }

  lemma StockStart(c: RR.Config, cap: nat, k: nat)
    requires c.Valid()
    ensures Stock(c, cap, k, Start(), 0, 0)
  {
    hide Reached;
    ReachedStart(c, cap, k);
    assert Orphans(Start()) == {} && Below(0) == {};
  }

  lemma {:induction false} StockAll(c: RR.Config, cap: nat, k: nat, n: nat, o: nat) returns (j: Joint)
    requires c.Valid() && 0 < cap && o <= k && o <= n <= o + cap
    ensures Stock(c, cap, k, j, n, o)
  {
    hide Stock, Handed;
    if n == 0 {
      j := Start();
      StockStart(c, cap, k);
    } else {
      if n > o {
        var j0 := StockAll(c, cap, k, n - 1, o);
        j := StockOne(c, cap, k, j0, n - 1, o);
      } else {
        var j0 := StockAll(c, cap, k, n - 1, o - 1);
        var j1 := HandOne(c, cap, k, j0, n - 1);
        j := LitterOne(c, cap, k, j1, n - 1);
      }
    }
  }

  // ---------------------------------------------------------------------
  // All doorbells completed and none swept
  // ---------------------------------------------------------------------

  /** Connections below `m` have all their doorbells completed, connection `m` has `x`. */
  ghost predicate Flushed(c: RR.Config, cap: nat, k: nat, j: Joint, n: nat, m: nat, x: nat) {
    && At(c, cap, k, j, k) && m <= n && x <= c.maxOut && (m == n ==> x == 0)
    && Stored(j.core.core) && j.core.core.store.Keys == j.core.track.Keys == Below(n)
    && |j.core.recvCq| == m * c.maxOut + x
    && forall i :: i in j.core.track ==>
         && !j.core.core.store[i].state.Drained? && j.core.track[i].recv.issued == 1 + c.maxOut
         && j.core.track[i].recv.made == 1 + if i < m then c.maxOut else if i == m then x else 0
  }

  lemma FlushOne(c: RR.Config, cap: nat, k: nat, j: Joint, n: nat, m: nat, x: nat) returns (j': Joint)
    requires Flushed(c, cap, k, j, n, m, x) && m < n && x < c.maxOut
    ensures Flushed(c, cap, k, j', n, m, x + 1)
  {
    hide At, Stored, Completed;
    j' := j.(core := Completed(j.core, m));
    CompletedStep(c, cap, k, j, m);
    CompletedRest(j.core, m);
  }

  lemma CompletedStep(c: RR.Config, cap: nat, k: nat, j: Joint, m: nat)
    requires At(c, cap, k, j, k) && Stored(j.core.core) && j.core.track.Keys == j.core.core.store.Keys
    requires m in j.core.track && j.core.track[m].recv.made < j.core.track[m].recv.issued
    ensures At(c, cap, k, j.(core := Completed(j.core, m)), k)
  {
    hide At, Stored, Completed, CP.SysNext;
    CompletedIs(j.core, m);
    Onward(c, cap, k, j, k, Driver(CP.Complete(m, Dir.Recv)), j.(core := Completed(j.core, m)));
  }

  lemma CompletedRest(s: CP.Sys, m: nat)
    requires m in s.core.store && m in s.track
    ensures var s' := Completed(s, m);
            && s'.core == s.core && s'.track.Keys == s.track.Keys && |s'.recvCq| == |s.recvCq| + 1
            && s'.track[m].recv == s.track[m].recv.(made := s.track[m].recv.made + 1)
            && forall i :: i in s.track && i != m ==> s'.track[i] == s.track[i]
  {
  }

  /** The device completes the next receive of connection `m`. */
  ghost function Completed(s: CP.Sys, m: nat): CP.Sys
    requires m in s.core.store && m in s.track
  {
    var t := s.track[m];
    s.(recvCq := s.recvCq + [Cqe(s.core.store[m].qp, m, t.recv.made)],
       track := s.track[m := t.(recv := t.recv.(made := t.recv.made + 1))])
  }

  lemma CompletedIs(s: CP.Sys, m: nat)
    requires Stored(s.core) && s.track.Keys == s.core.store.Keys && m in s.track && s.track[m].recv.made < s.track[m].recv.issued
    ensures CP.SysNext(s, CP.Complete(m, Dir.Recv), Completed(s, m))
  {
    hide Stored;
  }

  lemma {:induction false} FlushAll(c: RR.Config, cap: nat, k: nat, j: Joint, n: nat, m: nat, x: nat) returns (j': Joint)
    requires Flushed(c, cap, k, j, n, m, x)
    ensures Flushed(c, cap, k, j', n, n, 0)
    decreases n - m, c.maxOut - x
  {
    hide Flushed;
    j' := j;
    FlushedBound(c, cap, k, j, n, m, x);
    if m < n {
      if x < c.maxOut {
        var j1 := FlushOne(c, cap, k, j, n, m, x);
        j' := FlushAll(c, cap, k, j1, n, m, x + 1);
      } else {
        FlushedNext(c, cap, k, j, n, m);
        j' := FlushAll(c, cap, k, j, n, m + 1, 0);
      }
    }
  }

  lemma FlushedBound(c: RR.Config, cap: nat, k: nat, j: Joint, n: nat, m: nat, x: nat)
    requires Flushed(c, cap, k, j, n, m, x)
    ensures m <= n && x <= c.maxOut && (m == n ==> x == 0)
  {
  }

  lemma FlushedNext(c: RR.Config, cap: nat, k: nat, j: Joint, n: nat, m: nat)
    requires Flushed(c, cap, k, j, n, m, c.maxOut) && m < n
    ensures Flushed(c, cap, k, j, n, m + 1, 0)
  {
    hide At;
    NextOne(m, c.maxOut);
  }

  lemma NextOne(m: nat, x: nat)
    ensures m * x + x == (m + 1) * x
  {
  }

  /** As many completions as `cap` connections and `k` abandoned setups have doorbells. */
  lemma CrowdedRun(c: RR.Config, cap: nat, k: nat) returns (j: Joint)
    requires c.Valid() && 0 < cap
    ensures Reached(c, cap, k, j) && |j.core.recvCq| == (cap + k) * c.maxOut
  {
    hide Stock, Flushed;
    var j0 := StockAll(c, cap, k, cap + k, k);
    StockUnflushed(c, cap, k, j0, cap + k);
    j := FlushAll(c, cap, k, j0, cap + k, 0, 0);
    FlushedAll(c, cap, k, j, cap + k);
  }

  lemma StockUnflushed(c: RR.Config, cap: nat, k: nat, j: Joint, n: nat)
    requires Stock(c, cap, k, j, n, k)
    ensures Flushed(c, cap, k, j, n, 0, 0)
  {
    hide At;
    forall m | m in j.core.track
      ensures m in j.links && Stocked(c, j, m, k)
    {
    }
  }

  lemma FlushedAll(c: RR.Config, cap: nat, k: nat, j: Joint, n: nat)
    requires Flushed(c, cap, k, j, n, n, 0)
    ensures Reached(c, cap, k, j) && |j.core.recvCq| == n * c.maxOut
  {
    hide Reached, Orphans;
  }

  /**
    * The exact number of connections without a guard that the depth absorbs: the
    * depth chosen for a core that admits `cap` connections is never overrun by the
    * receive queue in any run with at most `k` of them at a time, if and only if their
    * doorbells fit what the depth has to spare.
    */
  lemma SafeIffOrphansFit(c: RR.Config, cap: nat, maxCqe: nat, k: nat)
    requires c.Valid() && cap > 0 && CqDepth(cap, Budget(c, Dir.Recv), maxCqe).Some?
    ensures var depth := CqDepth(cap, Budget(c, Dir.Recv), maxCqe).value;
            k * c.maxOut <= c.maxOut + 2 * (cap + 1) <==>
              forall j :: Reached(c, cap, k, j) ==> |j.core.recvCq| <= depth
  {
    hide Reached, Loose, Inv;
    SpareDepth(cap, k, c.maxOut);
    var depth := CqDepth(cap, Budget(c, Dir.Recv), maxCqe).value;
    assert depth == (cap + 1) * (c.maxOut + 2);
    hide CqDepth;
    if k * c.maxOut <= c.maxOut + 2 * (cap + 1) {
      forall j | Reached(c, cap, k, j)
        ensures |j.core.recvCq| <= depth
      {
        ReachedInv(c, cap, k, j);
        RecvWithinAdmission(c, cap, j);
        MulMono(cap + |Loose(j)|, cap + k, c.maxOut, c.maxOut);
      }
    } else {
      var j := CrowdedRun(c, cap, k);
    }
  }

  lemma SpareDepth(cap: nat, k: nat, x: nat)
    ensures (cap + k) * x <= (cap + 1) * (x + 2) <==> k * x <= x + 2 * (cap + 1)
  {
    assert (cap + k) * x == cap * x + k * x;
    assert (cap + 1) * (x + 2) == cap * x + x + 2 * (cap + 1);
  }
}
