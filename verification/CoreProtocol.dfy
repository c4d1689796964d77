/**
  * One core of the busy-poll engine over whole runs: connections come and go,
  * queue-pair numbers are reused, the device completes posted work in order, and
  * the driver sweeps, routes and reclaims.
  */
module CoreProtocol {
  import opened ConnSlots
  import opened CoreDrivers

  /**
    * The history of one direction of one connection: work requests posted,
    * completed by the device, reaped by the driver, and polled by the transport,
    * with the completions it was handed.
    */
  datatype Track = Track(issued: nat, made: nat, reaped: nat, got: nat, polled: seq<Cqe>)

  /** Both directions, and whether an admission lease has been attached. */
  datatype Tracks = Tracks(send: Track, recv: Track, leased: bool) {
    function Of(dir: Dir): Track { if dir.Send? then send else recv }

    function With(dir: Dir, t: Track): (r: Tracks)
      ensures r.Of(dir) == t && r.leased == leased && forall d :: d != dir ==> r.Of(d) == Of(d)
    {
      if dir.Send? then this.(send := t) else this.(recv := t)
    }
  }

  /** The driver, the two shared completion queues, and the histories. */
  datatype Sys = Sys(core: Core, sendCq: seq<Cqe>, recvCq: seq<Cqe>, track: map<nat, Tracks>) {
    function Cq(dir: Dir): seq<Cqe> { if dir.Send? then sendCq else recvCq }

    function WithCq(dir: Dir, cq: seq<Cqe>): (s: Sys)
      ensures s.Cq(dir) == cq && forall d :: d != dir ==> s.Cq(d) == Cq(d)
      ensures s.core == core && s.track == track
    {
      if dir.Send? then this.(sendCq := cq) else this.(recvCq := cq)
    }
  }

  datatype Step =
    | Open(conn: nat, qp: nat, sendCap: nat, recvCap: nat)
    | Post(conn: nat, dir: Dir)
    | Complete(conn: nat, dir: Dir)
    | Sweep(dir: Dir)
    | Poll(conn: nat, dir: Dir, n: nat)
    | Establish(conn: nat)
    | Close(conn: nat)
    | Turn(budget: nat)
    | PollFailure

  predicate Live(slot: Slot) { slot.state.Connecting? || slot.state.Established? }

  function FreshSlot(qp: nat, sendCap: nat, recvCap: nat): Slot {
    Slot(qp, Lane([], sendCap, 0), Lane([], recvCap, 0), Connecting, NoFault, 0)
  }

  function FreshTracks(): Tracks { Tracks(Track(0, 0, 0, 0, []), Track(0, 0, 0, 0, []), false) }

  /** Replace one connection's slot and history. */
  function Update(s: Sys, conn: nat, slot: Slot, t: Tracks): Sys {
    s.(core := s.core.(store := s.core.store[conn := slot]), track := s.track[conn := t])
  }

  /** One more work request handed to the device. */
  function Posted(s: Sys, conn: nat, dir: Dir): Sys
    requires conn in s.core.store && conn in s.track
  {
    var slot, t := s.core.store[conn], s.track[conn];
    var lane, h := slot.Of(dir), t.Of(dir);
    Update(s, conn, slot.With(dir, lane.(posted := lane.posted + 1)), t.With(dir, h.(issued := h.issued + 1)))
  }

  /** What the core relies on a transport for: it posts no more than its inbox can take. */
  ghost predicate Fits(s: Sys, a: Step) {
    a.Post? && a.conn in s.core.store && a.conn in s.track ==>
      var h := s.track[a.conn].Of(a.dir); h.issued < h.got + s.core.store[a.conn].Of(a.dir).capacity
  }

  ghost predicate Next(s: Sys, a: Step, s': Sys)
    requires Stored(s.core) && s.track.Keys == s.core.store.Keys
  {
    match a
    case Open(conn, qp, sendCap, recvCap) =>
      && conn !in s.core.store && sendCap > 0 && recvCap > 0
      && (match Registered(s.core, conn, FreshSlot(qp, sendCap, recvCap))
          case None => s' == s
          case Some(core) => s' == s.(core := core, track := s.track[conn := FreshTracks()]))
    case Post(conn, dir) =>
      conn in s.core.store && Live(s.core.store[conn]) && s' == Posted(s, conn, dir)
    case Complete(conn, dir) =>
      && conn in s.core.store
      && var t := s.track[conn]; var h := t.Of(dir);
         && h.made < h.issued
         && s' == s.WithCq(dir, s.Cq(dir) + [Cqe(s.core.store[conn].qp, conn, h.made)])
                   .(track := s.track[conn := t.With(dir, h.(made := h.made + 1))])
    case Sweep(dir) =>
      && s.Cq(dir) != []
      && var wc := s.Cq(dir)[0];
         && wc.conn in s.track
         && var t := s.track[wc.conn]; var h := t.Of(dir);
            s' == s.WithCq(dir, s.Cq(dir)[1..])
                   .(core := RouteOne(s.core, dir, wc),
                     track := s.track[wc.conn := t.With(dir, h.(reaped := h.reaped + 1))])
    case Poll(conn, dir, n) =>
      && conn in s.core.store && Live(s.core.store[conn])
      && var slot, t := s.core.store[conn], s.track[conn];
         var lane, h := slot.Of(dir), t.Of(dir);
         && n <= |lane.inbox|
         && s' == Update(s, conn, slot.With(dir, lane.(inbox := lane.inbox[n..])),
                         t.With(dir, h.(got := h.got + n, polled := h.polled + lane.inbox[..n])))
    case Establish(conn) =>
      && conn in s.core.store && s.core.store[conn].state.Connecting?
      // the lease is attached to a committed transport
      && s' == Update(s, conn, s.core.store[conn].(state := Established), s.track[conn].(leased := true))
    case Close(conn) =>
      && conn in s.core.store && Live(s.core.store[conn])
      // a setup that is abandoned has no lease yet
      && s' == s.(core := HandOff(s.core, conn, s.track[conn].leased))
    case Turn(budget) =>
      s' == s.(core := ReclaimPass(s.core, budget))
    case PollFailure =>
      s' == s.(core := FailAll(s.core, SharedCqPollFailed))
  }

  // ---------------------------------------------------------------------
  // One connection's completions in a shared queue
  // ---------------------------------------------------------------------

  /** The completions of one connection, in queue order. */
  function Proj(cq: seq<Cqe>, conn: nat): seq<Cqe> {
    if cq == [] then [] else (if cq[0].conn == conn then [cq[0]] else []) + Proj(cq[1..], conn)
  }

  /** Completions number `lo` up to `hi` of a connection. */
  function Numbers(qp: nat, conn: nat, lo: nat, hi: nat): (r: seq<Cqe>)
    requires lo <= hi
    ensures |r| == hi - lo
    decreases hi - lo
  {
    if lo == hi then [] else [Cqe(qp, conn, lo)] + Numbers(qp, conn, lo + 1, hi)
  }

  lemma ProjHead(cq: seq<Cqe>, conn: nat)
    requires cq != []
    ensures Proj(cq, conn) == (if cq[0].conn == conn then [cq[0]] else []) + Proj(cq[1..], conn)
  {
  }

  lemma {:induction false} ProjAppend(cq: seq<Cqe>, e: Cqe, conn: nat)
    ensures Proj(cq + [e], conn) == Proj(cq, conn) + if e.conn == conn then [e] else []
  {
    var t := if e.conn == conn then [e] else [];
    if cq == [] {
      assert [] + [e] == [e] && [e][1..] == [];
    } else {
      var h := if cq[0].conn == conn then [cq[0]] else [];
      var rest := Proj(cq[1..], conn);
      ProjAppend(cq[1..], e, conn);
      ProjHead(cq, conn);
      ProjHead(cq + [e], conn);
      hide Proj;
      assert (cq + [e])[1..] == cq[1..] + [e];
      assert h + (rest + t) == (h + rest) + t;
    }
  }

  lemma {:induction false} NumbersSnoc(qp: nat, conn: nat, lo: nat, hi: nat)
    requires lo <= hi
    ensures Numbers(qp, conn, lo, hi + 1) == Numbers(qp, conn, lo, hi) + [Cqe(qp, conn, hi)]
    decreases hi - lo
  {
    if lo < hi {
      NumbersSnoc(qp, conn, lo + 1, hi);
    }
  }

  lemma {:induction false} NumbersDrop(qp: nat, conn: nat, lo: nat, hi: nat, n: nat)
    requires lo + n <= hi
    ensures Numbers(qp, conn, lo, hi)[n..] == Numbers(qp, conn, lo + n, hi)
    ensures Numbers(qp, conn, lo, hi)[..n] == Numbers(qp, conn, lo, lo + n)
    decreases n
  {
    if n > 0 {
      NumbersDrop(qp, conn, lo + 1, hi, n - 1);
      assert Numbers(qp, conn, lo, hi)[n..] == Numbers(qp, conn, lo + 1, hi)[n - 1..];
      assert Numbers(qp, conn, lo, hi)[..n] == [Cqe(qp, conn, lo)] + Numbers(qp, conn, lo + 1, hi)[..n - 1];
    }
  }

  lemma {:induction false} NumbersJoin(qp: nat, conn: nat, lo: nat, mid: nat, hi: nat)
    requires lo <= mid <= hi
    ensures Numbers(qp, conn, lo, mid) + Numbers(qp, conn, mid, hi) == Numbers(qp, conn, lo, hi)
    decreases mid - lo
  {
    if lo < mid {
      NumbersJoin(qp, conn, lo + 1, mid, hi);
      assert Numbers(qp, conn, lo, mid) + Numbers(qp, conn, mid, hi)
          == [Cqe(qp, conn, lo)] + (Numbers(qp, conn, lo + 1, mid) + Numbers(qp, conn, mid, hi));
    }
  }

  // ---------------------------------------------------------------------
  // Invariant
  // ---------------------------------------------------------------------

  ghost predicate IsRegistered(core: Core, conn: nat)
    requires conn in core.store
  {
    core.store[conn].qp in core.slots && core.slots[core.store[conn].qp] == conn
  }

  /** One direction of one connection. */
  ghost predicate LaneOk(core: Core, cq: seq<Cqe>, conn: nat, lane: Lane, h: Track)
    requires conn in core.store
  {
    var slot := core.store[conn];
    && h.got <= h.reaped <= h.made <= h.issued
    && lane.posted + h.reaped == h.issued
    && h.polled == Numbers(slot.qp, conn, 0, h.got)
    && Proj(cq, conn) == Numbers(slot.qp, conn, h.reaped, h.made)
    && lane.posted <= lane.capacity
    && (lane.posted > 0 || !slot.state.Drained? ==> IsRegistered(core, conn))
    && !slot.fault.InboxOverflow?
    && (Live(slot) ==>
          && lane.inbox == Numbers(slot.qp, conn, h.got, h.reaped)
          && h.issued <= h.got + lane.capacity)
  }

  ghost predicate ConnOk(s: Sys, conn: nat)
    requires conn in s.core.store && conn in s.track
  {
    && LaneOk(s.core, s.sendCq, conn, s.core.store[conn].send, s.track[conn].send)
    && LaneOk(s.core, s.recvCq, conn, s.core.store[conn].recv, s.track[conn].recv)
  }

  ghost predicate Owned(s: Sys, cq: seq<Cqe>) {
    forall i :: 0 <= i < |cq| ==> cq[i].conn in s.core.store
  }

  /** The connections in a reclaim queue. */
  function Queued(q: seq<Entry>): multiset<nat> {
    if q == [] then multiset{} else multiset{q[0].conn} + Queued(q[1..])
  }

  lemma {:induction false} QueuedConcat(p: seq<Entry>, q: seq<Entry>)
    ensures Queued(p + q) == Queued(p) + Queued(q)
  {
    if p == [] {
      assert p + q == q;
    } else {
      assert (p + q)[1..] == p[1..] + q;
      QueuedConcat(p[1..], q);
    }
  }

  lemma {:induction false} QueuedAt(q: seq<Entry>, i: nat)
    requires i < |q|
    ensures Queued(q)[q[i].conn] > 0
  {
    if i > 0 {
      QueuedAt(q[1..], i - 1);
    }
  }

  /** A closing connection is queued once, any other not at all. */
  ghost predicate QueuedOk(core: Core, conn: nat) {
    Queued(core.reclaim)[conn] == if conn in core.store && core.store[conn].state.Closing? then 1 else 0
  }

  /** The queue holds exactly the closing connections, each once. */
  ghost predicate QueueOk(core: Core) {
    forall conn {:trigger QueuedOk(core, conn)} :: QueuedOk(core, conn)
  }

  /** Resources freed and generation bumped once, when drained, and never before. */
  ghost predicate LedgerOk(core: Core, conn: nat)
    requires conn in core.store
  {
    var times := if core.store[conn].state.Drained? then 1 else 0;
    core.freed[conn] == times && core.store[conn].generation == times
  }

  ghost predicate Ledger(core: Core) {
    && (forall conn :: conn in core.store ==> LedgerOk(core, conn))
    && (forall conn :: conn !in core.store ==> core.freed[conn] == 0)
  }

  /** A lease is attached on commit and dropped once, when the connection is drained, and never before. */
  ghost predicate LeaseOk(core: Core, conn: nat, leased: bool)
    requires conn in core.store
  {
    var slot := core.store[conn];
    && core.dropped[conn] == (if slot.state.Drained? && leased then 1 else 0)
    && (slot.state.Established? ==> leased) && (slot.state.Connecting? ==> !leased)
  }

  /** A queued entry carries the connection's lease. */
  ghost predicate CarriesLease(s: Sys, e: Entry) {
    e.conn in s.track ==> e.lease == s.track[e.conn].leased
  }

  ghost predicate Leases(s: Sys) {
    && (forall conn :: conn in s.core.store && conn in s.track ==> LeaseOk(s.core, conn, s.track[conn].leased))
    && (forall conn :: conn !in s.core.store ==> s.core.dropped[conn] == 0)
    && (forall i :: 0 <= i < |s.core.reclaim| ==> CarriesLease(s, s.core.reclaim[i]))
  }

  /** The routing map names each registered connection under its own number. */
  ghost predicate MapOk(core: Core)
    requires Stored(core)
  {
    forall q :: q in core.slots ==> core.store[core.slots[q]].qp == q
  }

  ghost predicate Inv(s: Sys) {
    && Stored(s.core) && s.track.Keys == s.core.store.Keys
    && MapOk(s.core)
    && (forall conn :: conn in s.core.store ==> ConnOk(s, conn))
    && Owned(s, s.sendCq) && Owned(s, s.recvCq)
    && s.core.unknown == 0 && !s.core.panicked
    && QueueOk(s.core) && Ledger(s.core) && Leases(s)
  }

  /**
    * Routing isolation: the completion at the head of a shared queue is always
    * routed to the connection it belongs to, whatever numbers have been reused,
    * and it is that connection's next one.
    */
  lemma RoutedToOwn(s: Sys, dir: Dir)
    requires Inv(s) && s.Cq(dir) != []
    ensures var wc := s.Cq(dir)[0];
            && wc.conn in s.core.store && wc.qp in s.core.slots && s.core.slots[wc.qp] == wc.conn
            && wc == Cqe(s.core.store[wc.conn].qp, wc.conn, s.track[wc.conn].Of(dir).reaped)
            && s.core.store[wc.conn].Of(dir).posted > 0
            && s.track[wc.conn].Of(dir).reaped < s.track[wc.conn].Of(dir).made
  {
    var cq := s.Cq(dir);
    var wc := cq[0];
    assert Owned(s, cq) && ConnOk(s, wc.conn);
    assert Proj(cq, wc.conn)[0] == wc;
  }

  // ---------------------------------------------------------------------
  // Steps
  // ---------------------------------------------------------------------

  /** A step that changes one connection and nothing the others see. */
  ghost predicate Local(s: Sys, s': Sys, conn: nat) {
    && conn in s.core.store
    && s'.core.slots == s.core.slots && s'.core.store.Keys == s.core.store.Keys == s.track.Keys == s'.track.Keys
    && s'.core.unknown == s.core.unknown && s'.core.panicked == s.core.panicked
    && s'.core.freed == s.core.freed && s'.core.dropped == s.core.dropped
    && s'.core.store[conn].qp == s.core.store[conn].qp
    && s'.core.store[conn].generation == s.core.store[conn].generation
    && (forall c :: c in s.core.store && c != conn ==>
          && s'.core.store[c] == s.core.store[c] && s'.track[c] == s.track[c]
          && Proj(s'.sendCq, c) == Proj(s.sendCq, c) && Proj(s'.recvCq, c) == Proj(s.recvCq, c))
  }

  /** A connection whose slot, history, registration and completions are as before. */
  lemma OtherKeeps(s: Sys, s': Sys, c: nat)
    requires c in s.core.store && c in s.track && c in s'.core.store && c in s'.track && ConnOk(s, c)
    requires s'.core.store[c] == s.core.store[c] && s'.track[c] == s.track[c]
    requires IsRegistered(s.core, c) ==> IsRegistered(s'.core, c)
    requires Proj(s'.sendCq, c) == Proj(s.sendCq, c) && Proj(s'.recvCq, c) == Proj(s.recvCq, c)
    ensures ConnOk(s', c)
  {
    hide Proj, Numbers;
  }

  lemma LocalOthers(s: Sys, s': Sys, conn: nat)
    requires Inv(s) && Local(s, s', conn) && ConnOk(s', conn)
    ensures forall c :: c in s'.core.store ==> ConnOk(s', c)
  {
    hide QueueOk, Ledger, Proj, Numbers, ConnOk, Owned, MapOk, Stored;
    forall c | c in s'.core.store
      ensures ConnOk(s', c)
    {
      if c != conn {
        OtherKeeps(s, s', c);
      }
    }
  }

  lemma LocalMap(s: Sys, s': Sys, conn: nat)
    requires Inv(s) && Local(s, s', conn) && Stored(s'.core)
    ensures MapOk(s'.core)
  {
    hide QueueOk, Ledger, Proj, Numbers, ConnOk, Owned;
  }

  lemma QueueSame(core: Core, core': Core)
    requires QueueOk(core) && core'.reclaim == core.reclaim
    requires forall c :: (c in core'.store && core'.store[c].state.Closing?) <==> (c in core.store && core.store[c].state.Closing?)
    ensures QueueOk(core')
  {
    hide Queued;
    forall c
      ensures QueuedOk(core', c)
    {
      assert QueuedOk(core, c);
    }
  }

  lemma LocalQueue(s: Sys, s': Sys, conn: nat)
    requires Inv(s) && Local(s, s', conn)
    requires s'.core.reclaim == s.core.reclaim
    requires s'.core.store[conn].state.Closing? == s.core.store[conn].state.Closing?
    ensures Stored(s'.core) && QueueOk(s'.core)
  {
    hide MapOk, Ledger, Proj, Numbers, ConnOk, Owned, QueueOk;
    QueueSame(s.core, s'.core);
  }

  lemma LocalLedger(s: Sys, s': Sys, conn: nat)
    requires Inv(s) && Local(s, s', conn)
    requires s'.core.store[conn].state.Drained? == s.core.store[conn].state.Drained?
    ensures Ledger(s'.core)
  {
    hide ConnOk, QueueOk, Owned, MapOk, Proj;
    forall c | c in s'.core.store
      ensures LedgerOk(s'.core, c)
    {
      assert LedgerOk(s.core, c);
    }
  }

  /** Only the connection's own lease can have changed, and not while it is queued. */
  lemma LocalLeases(s: Sys, s': Sys, conn: nat)
    requires Inv(s) && Local(s, s', conn) && s'.core.reclaim == s.core.reclaim
    requires LeaseOk(s'.core, conn, s'.track[conn].leased)
    requires s'.track[conn].leased == s.track[conn].leased || !s.core.store[conn].state.Closing?
    ensures Leases(s')
  {
    hide ConnOk, QueueOk, Ledger, Owned, MapOk, Proj, Queued;
    forall c | c in s'.core.store && c in s'.track
      ensures LeaseOk(s'.core, c, s'.track[c].leased)
    {
      assert LeaseOk(s.core, c, s.track[c].leased);
    }
    forall i | 0 <= i < |s.core.reclaim|
      ensures CarriesLease(s', s.core.reclaim[i])
    {
      assert CarriesLease(s, s.core.reclaim[i]);
      QueuedClosing(s.core, i);
    }
  }

  /** A step that leaves a connection's state and lease alone. */
  lemma StillLeased(s: Sys, s': Sys, conn: nat)
    requires Inv(s) && conn in s.core.store && conn in s'.core.store && conn in s'.track
    requires s'.core.store[conn].state == s.core.store[conn].state && s'.track[conn].leased == s.track[conn].leased
    requires s'.core.dropped == s.core.dropped
    ensures LeaseOk(s'.core, conn, s'.track[conn].leased)
  {
    hide ConnOk, QueueOk, Ledger, Owned, MapOk, Stored;
    assert LeaseOk(s.core, conn, s.track[conn].leased);
  }

  lemma QueuedClosing(core: Core, i: nat)
    requires QueueOk(core) && i < |core.reclaim|
    ensures core.reclaim[i].conn in core.store && core.store[core.reclaim[i].conn].state.Closing?
  {
    QueuedAt(core.reclaim, i);
    assert QueuedOk(core, core.reclaim[i].conn);
  }

  lemma LocalKeeps(s: Sys, s': Sys, conn: nat)
    requires Inv(s) && Local(s, s', conn)
    requires LeaseOk(s'.core, conn, s'.track[conn].leased)
    requires s'.track[conn].leased == s.track[conn].leased || !s.core.store[conn].state.Closing?
    requires s'.core.reclaim == s.core.reclaim
    requires s'.core.store[conn].state.Drained? == s.core.store[conn].state.Drained?
    requires s'.core.store[conn].state.Closing? == s.core.store[conn].state.Closing?
    requires ConnOk(s', conn) && Owned(s', s'.sendCq) && Owned(s', s'.recvCq)
    ensures Inv(s')
  {
    hide ConnOk, Ledger, QueueOk, Owned, MapOk, Stored, Proj, Leases;
    LocalOthers(s, s', conn);
    LocalLedger(s, s', conn);
    LocalLeases(s, s', conn);
    LocalQueue(s, s', conn);
    LocalMap(s, s', conn);
  }

  lemma OwnedKeys(s: Sys, s': Sys, cq: seq<Cqe>)
    requires Owned(s, cq) && s'.core.store.Keys == s.core.store.Keys
    ensures Owned(s', cq)
  {
  }

  /** What a step of one connection's own does to the rest, when the queues stay as they are. */
  lemma QuietStep(s: Sys, s': Sys, conn: nat)
    requires Inv(s) && conn in s.core.store && conn in s'.core.store && conn in s'.track
    requires s' == Update(s, conn, s'.core.store[conn], s'.track[conn])
    requires var was, now := s.core.store[conn], s'.core.store[conn];
             && now.qp == was.qp && now.generation == was.generation
             && now.state.Drained? == was.state.Drained? && now.state.Closing? == was.state.Closing?
    requires ConnOk(s', conn) && LeaseOk(s'.core, conn, s'.track[conn].leased)
    requires s'.track[conn].leased == s.track[conn].leased || !s.core.store[conn].state.Closing?
    ensures Inv(s')
  {
    hide ConnOk, QueueOk, Ledger, MapOk, Proj, Owned, Stored, Leases;
    OwnedKeys(s, s', s.sendCq);
    OwnedKeys(s, s', s.recvCq);
    LocalKeeps(s, s', conn);
  }

  lemma PostConn(s: Sys, conn: nat, dir: Dir, s': Sys)
    requires conn in s.core.store && conn in s.track && ConnOk(s, conn)
    requires Stored(s.core) && s.track.Keys == s.core.store.Keys
    requires Next(s, Post(conn, dir), s') && Fits(s, Post(conn, dir))
    ensures ConnOk(s', conn)
  {
    hide Proj, Numbers, Stored;
  }

  lemma PostKeeps(s: Sys, conn: nat, dir: Dir, s': Sys)
    requires Inv(s) && Next(s, Post(conn, dir), s') && Fits(s, Post(conn, dir))
    ensures Inv(s')
  {
    hide ConnOk, QueueOk, Ledger, MapOk, Proj, Owned, Stored;
    PostConn(s, conn, dir, s');
    StillLeased(s, s', conn);
    QuietStep(s, s', conn);
  }

  lemma PollConn(s: Sys, conn: nat, dir: Dir, n: nat, s': Sys)
    requires conn in s.core.store && conn in s.track && ConnOk(s, conn)
    requires Stored(s.core) && s.track.Keys == s.core.store.Keys && Next(s, Poll(conn, dir, n), s')
    ensures ConnOk(s', conn)
  {
    var slot, h := s.core.store[conn], s.track[conn].Of(dir);
    hide Proj, Stored;
    NumbersDrop(slot.qp, conn, h.got, h.reaped, n);
    NumbersJoin(slot.qp, conn, 0, h.got, h.got + n);
    hide Numbers;
  }

  lemma PollKeeps(s: Sys, conn: nat, dir: Dir, n: nat, s': Sys)
    requires Inv(s) && Next(s, Poll(conn, dir, n), s')
    ensures Inv(s')
  {
    hide ConnOk, QueueOk, Ledger, MapOk, Proj, Owned, Stored;
    PollConn(s, conn, dir, n, s');
    StillLeased(s, s', conn);
    QuietStep(s, s', conn);
  }

  lemma EstablishKeeps(s: Sys, conn: nat, s': Sys)
    requires Inv(s) && Next(s, Establish(conn), s')
    ensures Inv(s')
  {
    hide QueueOk, Ledger, MapOk, Proj, Owned, Stored, Numbers;
    assert ConnOk(s, conn) && LeaseOk(s.core, conn, s.track[conn].leased);
    QuietStep(s, s', conn);
  }

  /** The device completes the next work request of a connection. */
  lemma CompleteConn(s: Sys, conn: nat, dir: Dir, s': Sys)
    requires conn in s.core.store && conn in s.track && ConnOk(s, conn)
    requires Stored(s.core) && s.track.Keys == s.core.store.Keys && Next(s, Complete(conn, dir), s')
    ensures ConnOk(s', conn)
  {
    var slot, h := s.core.store[conn], s.track[conn].Of(dir);
    ProjAppend(s.Cq(dir), Cqe(slot.qp, conn, h.made), conn);
    NumbersSnoc(slot.qp, conn, h.reaped, h.made);
    hide Proj, Stored, Numbers;
  }

  lemma CompleteKeeps(s: Sys, conn: nat, dir: Dir, s': Sys)
    requires Inv(s) && Next(s, Complete(conn, dir), s')
    ensures Inv(s')
  {
    hide ConnOk, QueueOk, Ledger, MapOk, Proj, Stored;
    CompleteConn(s, conn, dir, s');
    var e := Cqe(s.core.store[conn].qp, conn, s.track[conn].Of(dir).made);
    forall c | c in s.core.store && c != conn
      ensures Proj(s'.sendCq, c) == Proj(s.sendCq, c) && Proj(s'.recvCq, c) == Proj(s.recvCq, c)
    {
      ProjAppend(s.Cq(dir), e, c);
    }
    StillLeased(s, s', conn);
    LocalKeeps(s, s', conn);
  }

  /** The lane after its next completion has been reaped. */
  lemma SweptLane(core: Core, cq: seq<Cqe>, conn: nat, dir: Dir, h: Track)
    requires Stored(core) && conn in core.store && cq != [] && cq[0] == Cqe(core.store[conn].qp, conn, h.reaped)
    requires IsRegistered(core, conn) && h.reaped < h.made
    requires LaneOk(core, cq, conn, core.store[conn].Of(dir), h)
    ensures var core' := RouteOne(core, dir, cq[0]);
            LaneOk(core', cq[1..], conn, core'.store[conn].Of(dir), h.(reaped := h.reaped + 1))
  {
    ProjHead(cq, conn);
    assert Numbers(core.store[conn].qp, conn, h.reaped, h.made)[1..]
        == Numbers(core.store[conn].qp, conn, h.reaped + 1, h.made);
    NumbersSnoc(core.store[conn].qp, conn, h.got, h.reaped);
    hide Proj, Numbers;
  }

  /** The lane of the other direction. */
  lemma UnsweptLane(core: Core, cq: seq<Cqe>, wc: Cqe, conn: nat, dir: Dir, other: Dir, h: Track)
    requires Stored(core) && conn in core.store && other != dir && LaneOk(core, cq, conn, core.store[conn].Of(other), h)
    requires wc.qp == core.store[conn].qp && IsRegistered(core, conn)
    requires !RouteOne(core, dir, wc).store[conn].fault.InboxOverflow?
    ensures var core' := RouteOne(core, dir, wc); LaneOk(core', cq, conn, core'.store[conn].Of(other), h)
  {
    hide Proj, Numbers;
  }

  /** The driver reaps the completion at the head of a queue. */
  lemma SweepConn(s: Sys, dir: Dir, s': Sys)
    requires Inv(s) && Next(s, Sweep(dir), s')
    ensures var conn := s.Cq(dir)[0].conn; conn in s'.core.store && conn in s'.track && ConnOk(s', conn)
    ensures s'.core.unknown == 0 && !s'.core.panicked
  {
    hide Proj, Numbers, QueueOk, Ledger, MapOk, Owned, Stored, LaneOk;
    RoutedToOwn(s, dir);
    var wc := s.Cq(dir)[0];
    assert ConnOk(s, wc.conn);
    var other := if dir.Send? then Recv else Send;
    SweptLane(s.core, s.Cq(dir), wc.conn, dir, s.track[wc.conn].Of(dir));
    NotOverflowed(s.core, s.Cq(dir), wc.conn, dir, s.track[wc.conn].Of(dir));
    UnsweptLane(s.core, s.Cq(other), wc, wc.conn, dir, other, s.track[wc.conn].Of(other));
  }

  lemma NotOverflowed(core: Core, cq: seq<Cqe>, conn: nat, dir: Dir, h: Track)
    requires Stored(core) && conn in core.store && cq != []
    requires conn in RouteOne(core, dir, cq[0]).store
    requires LaneOk(RouteOne(core, dir, cq[0]), cq[1..], conn, RouteOne(core, dir, cq[0]).store[conn].Of(dir), h.(reaped := h.reaped + 1))
    ensures !RouteOne(core, dir, cq[0]).store[conn].fault.InboxOverflow?
  {
  }

  /** Routing changes the slot of one connection, and neither its state nor its lease. */
  lemma SweptLocal(s: Sys, dir: Dir, s': Sys)
    requires Inv(s) && Next(s, Sweep(dir), s')
    ensures s.Cq(dir) != []
    ensures var conn := s.Cq(dir)[0].conn;
            && Local(s, s', conn) && Owned(s', s'.sendCq) && Owned(s', s'.recvCq)
            && s'.core.reclaim == s.core.reclaim && s'.core.store[conn].state == s.core.store[conn].state
            && s'.track[conn].leased == s.track[conn].leased
  {
    hide ConnOk, QueueOk, Ledger, MapOk, Stored, Leases;
    RoutedToOwn(s, dir);
    SweepConn(s, dir, s');
    var wc := s.Cq(dir)[0];
    forall c | c in s.core.store && c != wc.conn
      ensures Proj(s'.sendCq, c) == Proj(s.sendCq, c) && Proj(s'.recvCq, c) == Proj(s.recvCq, c)
    {
      ProjHead(s.Cq(dir), c);
    }
    hide Proj;
  }

  lemma SweepKeeps(s: Sys, dir: Dir, s': Sys)
    requires Inv(s) && Next(s, Sweep(dir), s')
    ensures Inv(s')
  {
    hide Inv, Next, ConnOk, Local, Owned, LeaseOk;
    SweptLocal(s, dir, s');
    SweepConn(s, dir, s');
    var conn := s.Cq(dir)[0].conn;
    LocalIn(s, s', conn);
    StillLeased(s, s', conn);
    LocalKeeps(s, s', conn);
  }

  lemma LocalIn(s: Sys, s': Sys, conn: nat)
    requires Local(s, s', conn)
    ensures conn in s.core.store && conn in s'.core.store && conn in s.track && conn in s'.track
    ensures s'.core.dropped == s.core.dropped
  {
  }

  lemma CloseConn(s: Sys, conn: nat, s': Sys)
    requires conn in s.core.store && conn in s.track && ConnOk(s, conn)
    requires Stored(s.core) && s.track.Keys == s.core.store.Keys && Next(s, Close(conn), s')
    ensures ConnOk(s', conn)
  {
    hide Proj, Numbers, Stored;
  }

  lemma CloseQueue(core: Core, conn: nat, lease: bool)
    requires Stored(core) && QueueOk(core) && conn in core.store && Live(core.store[conn])
    ensures Stored(HandOff(core, conn, lease)) && QueueOk(HandOff(core, conn, lease))
  {
    hide Queued;
    var core' := HandOff(core, conn, lease);
    QueuedConcat(core.reclaim, [Entry(conn, 0, lease)]);
    QueuedFew(Entry(conn, 0, lease));
    forall c
      ensures QueuedOk(core', c)
    {
      assert QueuedOk(core, c);
    }
  }

  lemma CloseLeases(s: Sys, conn: nat, s': Sys)
    requires Inv(s) && Next(s, Close(conn), s')
    ensures Leases(s')
  {
    hide ConnOk, QueueOk, Ledger, Owned, MapOk, Proj;
    forall c | c in s'.core.store && c in s'.track
      ensures LeaseOk(s'.core, c, s'.track[c].leased)
    {
      assert LeaseOk(s.core, c, s.track[c].leased);
    }
    forall i | 0 <= i < |s'.core.reclaim|
      ensures CarriesLease(s', s'.core.reclaim[i])
    {
      assert i < |s.core.reclaim| ==> CarriesLease(s, s.core.reclaim[i]);
    }
  }

  lemma CloseKeeps(s: Sys, conn: nat, s': Sys)
    requires Inv(s) && Next(s, Close(conn), s')
    ensures Inv(s')
  {
    hide ConnOk, QueueOk, Ledger, Proj, Owned, Leases;
    CloseConn(s, conn, s');
    CloseLeases(s, conn, s');
    CloseQueue(s.core, conn, s.track[conn].leased);
    OwnedKeys(s, s', s.sendCq);
    OwnedKeys(s, s', s.recvCq);
    LocalOthers(s, s', conn);
    LocalLedger(s, s', conn);
    LocalMap(s, s', conn);
  }

  lemma FailConn(s: Sys, c: nat)
    requires Stored(s.core) && c in s.core.store && c in s.track && ConnOk(s, c)
    ensures ConnOk(s.(core := FailAll(s.core, SharedCqPollFailed)), c)
  {
    hide Proj, Numbers;
  }

  lemma FailLeases(s: Sys, s': Sys)
    requires Inv(s) && Next(s, PollFailure, s')
    ensures Leases(s')
  {
    hide ConnOk, Proj, Owned, QueueOk, Ledger, MapOk;
    forall c | c in s'.core.store && c in s'.track
      ensures LeaseOk(s'.core, c, s'.track[c].leased)
    {
      assert LeaseOk(s.core, c, s.track[c].leased);
    }
    forall i | 0 <= i < |s'.core.reclaim|
      ensures CarriesLease(s', s'.core.reclaim[i])
    {
      SameCarries(s, s', s.core.reclaim[i]);
    }
  }

  lemma FailKeeps(s: Sys, s': Sys)
    requires Inv(s) && Next(s, PollFailure, s')
    ensures Inv(s')
  {
    hide ConnOk, Proj, Owned, QueueOk, Leases;
    OwnedKeys(s, s', s.sendCq);
    OwnedKeys(s, s', s.recvCq);
    QueueSame(s.core, s'.core);
    forall c | c in s'.core.store
      ensures ConnOk(s', c) && LedgerOk(s'.core, c)
    {
      FailConn(s, c);
      assert LedgerOk(s.core, c);
    }
    FailLeases(s, s');
  }

  lemma {:induction false} ProjNone(s: Sys, cq: seq<Cqe>, conn: nat)
    requires Owned(s, cq) && conn !in s.core.store
    ensures Proj(cq, conn) == []
  {
    if cq != [] {
      assert cq[0].conn in s.core.store;
      ProjNone(s, cq[1..], conn);
    }
  }

  lemma OpenConn(s: Sys, conn: nat, slot: Slot, s': Sys)
    requires Inv(s) && conn !in s.core.store && slot.qp !in s.core.slots
    requires slot == FreshSlot(slot.qp, slot.send.capacity, slot.recv.capacity)
    requires s' == s.(core := Registered(s.core, conn, slot).value, track := s.track[conn := FreshTracks()])
    ensures ConnOk(s', conn)
  {
    hide ConnOk, QueueOk, Ledger, MapOk;
    ProjNone(s, s.sendCq, conn);
    ProjNone(s, s.recvCq, conn);
    hide Proj, Owned;
    assert LaneOk(s'.core, s'.sendCq, conn, s'.core.store[conn].send, s'.track[conn].send);
    assert LaneOk(s'.core, s'.recvCq, conn, s'.core.store[conn].recv, s'.track[conn].recv);
    assert ConnOk(s', conn) by { OpenedOk(s', conn); }
  }

  lemma OpenedOk(s: Sys, conn: nat)
    requires conn in s.core.store && conn in s.track
    requires LaneOk(s.core, s.sendCq, conn, s.core.store[conn].send, s.track[conn].send)
    requires LaneOk(s.core, s.recvCq, conn, s.core.store[conn].recv, s.track[conn].recv)
    ensures ConnOk(s, conn)
  {
  }

  lemma OpenOthers(s: Sys, conn: nat, slot: Slot, s': Sys)
    requires Inv(s) && conn !in s.core.store && slot.qp !in s.core.slots
    requires s' == s.(core := Registered(s.core, conn, slot).value, track := s.track[conn := FreshTracks()])
    requires ConnOk(s', conn)
    ensures forall c :: c in s'.core.store ==> ConnOk(s', c)
  {
    hide ConnOk, QueueOk, Ledger, Proj, Owned;
    forall c | c in s'.core.store
      ensures ConnOk(s', c)
    {
      if c != conn {
        OtherKeeps(s, s', c);
      }
    }
  }

  lemma OpenQueue(core: Core, conn: nat, slot: Slot)
    requires Stored(core) && MapOk(core) && QueueOk(core) && Ledger(core)
    requires conn !in core.store && slot.qp !in core.slots && slot.state.Connecting? && slot.generation == 0
    ensures var core' := Registered(core, conn, slot).value;
            Stored(core') && MapOk(core') && QueueOk(core') && Ledger(core')
  {
    var core' := Registered(core, conn, slot).value;
    hide QueueOk;
    QueueSame(core, core');
    forall c | c in core'.store
      ensures LedgerOk(core', c)
    {
      if c != conn {
        assert LedgerOk(core, c);
      }
    }
  }

  lemma OpenLeases(s: Sys, conn: nat, slot: Slot, s': Sys)
    requires Inv(s) && conn !in s.core.store && slot.qp !in s.core.slots && slot.state.Connecting?
    requires s' == s.(core := Registered(s.core, conn, slot).value, track := s.track[conn := FreshTracks()])
    ensures Leases(s')
  {
    hide ConnOk, QueueOk, Ledger, Owned, MapOk, Proj;
    forall c | c in s'.core.store && c in s'.track
      ensures LeaseOk(s'.core, c, s'.track[c].leased)
    {
      assert c != conn ==> LeaseOk(s.core, c, s.track[c].leased);
    }
    forall i | 0 <= i < |s'.core.reclaim|
      ensures CarriesLease(s', s'.core.reclaim[i])
    {
      assert CarriesLease(s, s.core.reclaim[i]) && s.core.reclaim[i].conn in s.core.store;
    }
  }

  lemma OpenKeeps(s: Sys, conn: nat, qp: nat, sendCap: nat, recvCap: nat, s': Sys)
    requires Inv(s) && Next(s, Open(conn, qp, sendCap, recvCap), s')
    ensures Inv(s')
  {
    hide ConnOk, QueueOk, Ledger, Proj, MapOk, Leases;
    if qp !in s.core.slots {
      var slot := FreshSlot(qp, sendCap, recvCap);
      OpenConn(s, conn, slot, s');
      OpenOthers(s, conn, slot, s');
      OpenLeases(s, conn, slot, s');
      OpenQueue(s.core, conn, slot);
    }
  }

  /** Part-way through a reclaim pass: `n` entries handled, the kept ones put back in front. */
  ghost function PassState(s: Sys, budget: nat, n: nat): Sys
    requires Stored(s.core) && n <= |s.core.reclaim|
  {
    var (core, kept) := ReclaimUpTo(s.core, budget, n);
    s.(core := core.(reclaim := kept + s.core.reclaim[n..]))
  }

  /** The state after one entry, with the queue around it. */
  ghost function AfterEntry(s: Sys, e: Entry, budget: nat, front: seq<Entry>, back: seq<Entry>): Sys
    requires e.conn in s.core.store
  {
    var keep := if Leaves(s.core, e, budget) then [] else [e.(turns := e.turns + 1)];
    s.(core := ReclaimOne(s.core, e, budget).(reclaim := front + keep + back))
  }

  /** The entry's own connection. */
  lemma EntryConn(s: Sys, e: Entry, budget: nat, front: seq<Entry>, back: seq<Entry>)
    requires e.conn in s.core.store && e.conn in s.track && ConnOk(s, e.conn)
    requires s.core.store[e.conn].state.Closing?
    ensures ConnOk(AfterEntry(s, e, budget, front, back), e.conn)
  {
    hide Proj, Numbers;
  }

  lemma EntryOthers(s: Sys, e: Entry, budget: nat, front: seq<Entry>, back: seq<Entry>)
    requires Inv(s) && e.conn in s.core.store && s.core.store[e.conn].state.Closing?
    ensures forall c :: c in s.core.store ==> ConnOk(AfterEntry(s, e, budget, front, back), c)
  {
    hide Proj, Numbers, QueueOk, Ledger, Owned, LaneOk;
    var s' := AfterEntry(s, e, budget, front, back);
    forall c | c in s.core.store
      ensures ConnOk(s', c)
    {
      assert ConnOk(s, c) && ConnOk(s, e.conn);
      if c == e.conn {
        EntryConn(s, e, budget, front, back);
      } else {
        ClosingRegistered(s, e.conn);
        hide ConnOk;
        OtherKeeps(s, s', c);
      }
    }
  }

  lemma ClosingRegistered(s: Sys, conn: nat)
    requires conn in s.core.store && conn in s.track && ConnOk(s, conn) && !s.core.store[conn].state.Drained?
    ensures IsRegistered(s.core, conn)
  {
  }

  /** Where the entry being handled sits in the queue. */
  ghost predicate Splits(core: Core, e: Entry, front: seq<Entry>, back: seq<Entry>) {
    core.reclaim == front + [e] + back
  }

  lemma EntryQueue(core: Core, e: Entry, budget: nat, front: seq<Entry>, back: seq<Entry>)
    requires QueueOk(core) && Splits(core, e, front, back) && e.conn in core.store
    ensures core.store[e.conn].state.Closing?
    ensures var keep := if Leaves(core, e, budget) then [] else [e.(turns := e.turns + 1)];
            QueueOk(ReclaimOne(core, e, budget).(reclaim := front + keep + back))
  {
    hide Queued;
    var keep := if Leaves(core, e, budget) then [] else [e.(turns := e.turns + 1)];
    var core' := ReclaimOne(core, e, budget).(reclaim := front + keep + back);
    assert core.reclaim[|front|] == e;
    QueuedAt(core.reclaim, |front|);
    assert QueuedOk(core, e.conn);
    QueuedSwap(front, [e], back);
    QueuedSwap(front, keep, back);
    QueuedFew(e);
    QueuedFew(e.(turns := e.turns + 1));
    forall c
      ensures QueuedOk(core', c)
    {
      assert QueuedOk(core, c);
    }
  }

  lemma QueuedFew(e: Entry)
    ensures Queued([]) == multiset{} && Queued([e]) == multiset{e.conn}
  {
    assert [e][1..] == [];
  }

  /** Every entry of the queue after one has been handled was there before, perhaps younger. */
  lemma SplitEntries(s: Sys, q: seq<Entry>, e: Entry, front: seq<Entry>, keep: seq<Entry>, back: seq<Entry>)
    requires q == front + [e] + back && forall i :: 0 <= i < |q| ==> CarriesLease(s, q[i])
    requires keep == [] || keep == [e.(turns := e.turns + 1)]
    ensures CarriesLease(s, e)
    ensures forall i :: 0 <= i < |front + keep + back| ==> CarriesLease(s, (front + keep + back)[i])
  {
    assert q[|front|] == e;
    forall i | 0 <= i < |front + keep + back|
      ensures CarriesLease(s, (front + keep + back)[i])
    {
      if i < |front| {
        assert q[i] == front[i];
      } else if i >= |front| + |keep| {
        assert q[i - |keep| + 1] == back[i - |front| - |keep|];
      }
    }
  }

  lemma EntryLeases(s: Sys, e: Entry, budget: nat, front: seq<Entry>, back: seq<Entry>)
    requires Inv(s) && e.conn in s.core.store && s.core.store[e.conn].state.Closing? && Splits(s.core, e, front, back)
    ensures Leases(AfterEntry(s, e, budget, front, back))
  {
    hide ConnOk, QueueOk, Ledger, Owned, MapOk, Proj, Leaves, CarriesLease;
    var s' := AfterEntry(s, e, budget, front, back);
    var keep := if Leaves(s.core, e, budget) then [] else [e.(turns := e.turns + 1)];
    SplitEntries(s, s.core.reclaim, e, front, keep, back);
    assert e.lease == s.track[e.conn].leased by { CarriesIs(s, e); }
    forall c | c in s'.core.store && c in s'.track
      ensures LeaseOk(s'.core, c, s'.track[c].leased)
    {
      assert LeaseOk(s.core, c, s.track[c].leased);
    }
    forall i | 0 <= i < |s'.core.reclaim|
      ensures CarriesLease(s', s'.core.reclaim[i])
    {
      SameCarries(s, s', s'.core.reclaim[i]);
    }
  }

  lemma CarriesIs(s: Sys, e: Entry)
    requires CarriesLease(s, e) && e.conn in s.track
    ensures e.lease == s.track[e.conn].leased
  {
  }

  lemma SameCarries(s: Sys, s': Sys, e: Entry)
    requires CarriesLease(s, e) && s'.track == s.track
    ensures CarriesLease(s', e)
  {
  }

  lemma QueuedSwap(front: seq<Entry>, mid: seq<Entry>, back: seq<Entry>)
    ensures Queued(front + mid + back) == Queued(front) + Queued(mid) + Queued(back)
  {
    QueuedConcat(front + mid, back);
    QueuedConcat(front, mid);
  }

  lemma EntryLedger(core: Core, e: Entry, budget: nat)
    requires Ledger(core) && e.conn in core.store && core.store[e.conn].state.Closing?
    ensures Ledger(ReclaimOne(core, e, budget))
  {
    var core' := ReclaimOne(core, e, budget);
    forall c | c in core'.store
      ensures LedgerOk(core', c)
    {
      assert LedgerOk(core, c);
    }
  }

  lemma EntryMap(core: Core, e: Entry, budget: nat, front: seq<Entry>, back: seq<Entry>)
    requires Stored(core) && MapOk(core) && e.conn in core.store && Splits(core, e, front, back)
    ensures var r := ReclaimOne(core, e, budget);
            var keep := if Leaves(core, e, budget) then [] else [e.(turns := e.turns + 1)];
            var core' := r.(reclaim := front + keep + back);
            && r.store.Keys == core.store.Keys && r.unknown == core.unknown && r.panicked == core.panicked
            && Stored(core') && MapOk(core')
  {
    var keep := if Leaves(core, e, budget) then [] else [e.(turns := e.turns + 1)];
    forall i | 0 <= i < |front + keep + back|
      ensures (front + keep + back)[i].conn in core.store
    {
      if i < |front| {
        assert core.reclaim[i] == front[i];
      } else if i >= |front| + |keep| {
        assert core.reclaim[i - |keep| + 1] == back[i - |front| - |keep|];
      }
    }
  }

  lemma EntryKeeps(s: Sys, e: Entry, budget: nat, front: seq<Entry>, back: seq<Entry>)
    requires Inv(s) && Splits(s.core, e, front, back)
    ensures e.conn in s.core.store && Inv(AfterEntry(s, e, budget, front, back))
  {
    hide ConnOk, QueueOk, Owned, Proj, Ledger, MapOk, ReclaimOne, Leaves, Leases;
    assert s.core.reclaim[|front|] == e;
    EntryQueue(s.core, e, budget, front, back);
    EntryLeases(s, e, budget, front, back);
    EntryOthers(s, e, budget, front, back);
    EntryLedger(s.core, e, budget);
    EntryMap(s.core, e, budget, front, back);
    var s' := AfterEntry(s, e, budget, front, back);
    OwnedKeys(s, s', s.sendCq);
    OwnedKeys(s, s', s.recvCq);
    EntryAssembled(s, s', ReclaimOne(s.core, e, budget));
  }

  lemma EntryAssembled(s: Sys, s': Sys, core: Core)
    requires Inv(s) && s' == s.(core := core.(reclaim := s'.core.reclaim)) && core.store.Keys == s.core.store.Keys
    requires core.unknown == s.core.unknown && core.panicked == s.core.panicked
    requires Stored(s'.core) && MapOk(s'.core) && Ledger(core) && QueueOk(s'.core)
    requires forall c :: c in s.core.store ==> ConnOk(s', c)
    requires Owned(s', s.sendCq) && Owned(s', s.recvCq) && Leases(s')
    ensures Inv(s')
  {
    hide ConnOk, QueueOk, Owned, Proj, Leases;
    forall c | c in s'.core.store
      ensures LedgerOk(s'.core, c)
    {
      assert LedgerOk(core, c);
    }
  }

  lemma {:induction false} PassKeeps(s: Sys, budget: nat, n: nat)
    requires Inv(s) && n <= |s.core.reclaim|
    ensures Inv(PassState(s, budget, n))
  {
    hide Inv, ReclaimOne, Leaves;
    PassStart(s, budget);
    if n > 0 {
      PassKeeps(s, budget, n - 1);
      PassStep(s, budget, n);
    }
  }

  lemma PassStart(s: Sys, budget: nat)
    requires Inv(s)
    ensures Stored(s.core) && PassState(s, budget, 0) == s
  {
    hide ConnOk, QueueOk, Ledger, Owned, MapOk;
    assert [] + s.core.reclaim[0..] == s.core.reclaim;
  }

  lemma PassStep(s: Sys, budget: nat, n: nat)
    requires Stored(s.core) && 0 < n <= |s.core.reclaim| && Inv(PassState(s, budget, n - 1))
    ensures Inv(PassState(s, budget, n))
  {
    hide Inv, ReclaimOne, Leaves;
    var (core, kept) := ReclaimUpTo(s.core, budget, n - 1);
    var q := s.core.reclaim;
    var e := q[n - 1];
    assert kept + q[n - 1..] == kept + [e] + q[n..];
    var mid := PassState(s, budget, n - 1);
    EntryKeeps(mid, e, budget, kept, q[n..]);
    SameEntry(core, mid.core, e, budget);
    assert kept + [] + q[n..] == kept + q[n..];
  }

  /** What happens to an entry does not depend on the rest of the queue. */
  lemma SameEntry(core: Core, core': Core, e: Entry, budget: nat)
    requires e.conn in core.store && core' == core.(reclaim := core'.reclaim)
    ensures Leaves(core', e, budget) == Leaves(core, e, budget)
    ensures ReclaimOne(core', e, budget) == ReclaimOne(core, e, budget).(reclaim := core'.reclaim)
  {
  }

  lemma TurnKeeps(s: Sys, budget: nat, s': Sys)
    requires Inv(s) && Next(s, Turn(budget), s')
    ensures Inv(s')
  {
    PassKeeps(s, budget, |s.core.reclaim|);
    var kept := ReclaimUpTo(s.core, budget, |s.core.reclaim|).1;
    assert kept + s.core.reclaim[|s.core.reclaim|..] == kept;
    hide Inv;
  }

  /** Every step within the transports' budgets keeps the invariant. */
  lemma NextKeeps(s: Sys, a: Step, s': Sys)
    requires Inv(s) && Next(s, a, s') && Fits(s, a)
    ensures Inv(s')
  {
    hide Inv, Next, Fits;
    match a {
      case Open(conn, qp, sendCap, recvCap) => OpenKeeps(s, conn, qp, sendCap, recvCap, s');
      case Post(conn, dir) => PostKeeps(s, conn, dir, s');
      case Complete(conn, dir) => CompleteKeeps(s, conn, dir, s');
      case Sweep(dir) => SweepKeeps(s, dir, s');
      case Poll(conn, dir, n) => PollKeeps(s, conn, dir, n, s');
      case Establish(conn) => EstablishKeeps(s, conn, s');
      case Close(conn) => CloseKeeps(s, conn, s');
      case Turn(budget) => TurnKeeps(s, budget, s');
      case PollFailure => FailKeeps(s, s');
    }
  }

  // ---------------------------------------------------------------------
  // Runs
  // ---------------------------------------------------------------------

  function Start(): Sys {
    Sys(Core(map[], map[], [], 0, false, multiset{}, multiset{}), [], [], map[])
  }

  ghost predicate SysNext(s: Sys, a: Step, s': Sys) {
    Stored(s.core) && s.track.Keys == s.core.store.Keys && Next(s, a, s')
  }

  /** A run whose transports keep within their budgets. */
  ghost predicate IsRun(states: seq<Sys>, acts: seq<Step>) {
    && |states| == |acts| + 1
    && states[0] == Start()
    && forall i :: 0 <= i < |acts| ==> SysNext(states[i], acts[i], states[i + 1]) && Fits(states[i], acts[i])
  }

  lemma StartInv()
    ensures Inv(Start())
  {
  }

  lemma {:induction false} RunInv(states: seq<Sys>, acts: seq<Step>, i: nat)
    requires IsRun(states, acts) && i < |states|
    ensures Inv(states[i])
  {
    hide Inv, Next, Start, Fits;
    if i == 0 {
      StartInv();
    } else {
      RunInv(states, acts, i - 1);
      assert SysNext(states[i - 1], acts[i - 1], states[i]);
      NextKeeps(states[i - 1], acts[i - 1], states[i]);
    }
  }

  /** A connection whose number has left the map has nothing left to complete. */
  lemma UnregisteredIsSilent(s: Sys, conn: nat, dir: Dir)
    requires Inv(s) && conn in s.core.store && !IsRegistered(s.core, conn)
    ensures s.core.store[conn].Of(dir).posted == 0 && Proj(s.Cq(dir), conn) == []
    ensures s.track[conn].Of(dir).reaped == s.track[conn].Of(dir).issued
    ensures s.core.store[conn].state.Drained?
  {
    assert ConnOk(s, conn);
  }

  /** What a connection is guaranteed in one direction. */
  ghost predicate Served(s: Sys, conn: nat, dir: Dir)
    requires conn in s.core.store && conn in s.track
  {
    var slot, h := s.core.store[conn], s.track[conn].Of(dir);
    var lane := slot.Of(dir);
    && h.got <= h.reaped <= h.issued
    // it has been handed its own completions, in order, each once
    && h.polled == Numbers(slot.qp, conn, 0, h.got)
    // while it is open nothing reaped is lost: the rest waits in its inbox
    && (Live(slot) ==> h.polled + lane.inbox == Numbers(slot.qp, conn, 0, h.reaped))
    // the counter is what the device still owes
    && lane.posted + h.reaped == h.issued
    // as long as the device owes something the number stays taken
    && (lane.posted > 0 ==> IsRegistered(s.core, conn))
    // no inbox ever overflows
    && !slot.fault.InboxOverflow?
  }

  /** What a core guarantees. */
  ghost predicate Dependable(s: Sys) {
    && s.track.Keys == s.core.store.Keys
    && (forall conn, dir :: conn in s.core.store ==> Served(s, conn, dir))
    // routing: no unknown number, no underflow, and every completion reaches its own connection
    && s.core.unknown == 0 && !s.core.panicked
    && (forall dir :: s.Cq(dir) != [] ==>
          var wc := s.Cq(dir)[0]; wc.qp in s.core.slots && s.core.slots[wc.qp] == wc.conn)
    // resources are freed, leases dropped and generations bumped exactly once, on reclaim
    && Ledger(s.core) && Leases(s)
  }

  lemma InvServed(s: Sys, conn: nat, dir: Dir)
    requires Inv(s) && conn in s.core.store
    ensures Served(s, conn, dir)
  {
    hide Proj, Numbers, QueueOk, Ledger, MapOk, Owned, Stored;
    assert ConnOk(s, conn);
    var slot, h := s.core.store[conn], s.track[conn].Of(dir);
    assert LaneOk(s.core, s.Cq(dir), conn, slot.Of(dir), h);
    if Live(slot) {
      NumbersJoin(slot.qp, conn, 0, h.got, h.reaped);
    }
  }

  lemma InvDependable(s: Sys)
    requires Inv(s)
    ensures Dependable(s)
  {
    hide Proj, QueueOk, Ledger, Leases, MapOk, Owned, ConnOk, Served;
    forall dir | s.Cq(dir) != []
      ensures var wc := s.Cq(dir)[0]; wc.qp in s.core.slots && s.core.slots[wc.qp] == wc.conn
    {
      RoutedToOwn(s, dir);
    }
    forall conn, dir | conn in s.core.store
      ensures Served(s, conn, dir)
    {
      InvServed(s, conn, dir);
    }
  }

  /**
    * Every run of a core, over any reuse of queue-pair numbers, any interleaving of
    * teardown and traffic, and any completions that never arrive.
    */
  lemma CoreSafe(states: seq<Sys>, acts: seq<Step>, i: nat)
    requires IsRun(states, acts) && i < |states|
    ensures Dependable(states[i])
  {
    hide IsRun, Inv, Dependable;
    RunInv(states, acts, i);
    InvDependable(states[i]);
  }

  /** A transport that polls gets its own completions, in order, without a gap. */
  lemma PollsOwnNext(s: Sys, conn: nat, dir: Dir, n: nat, s': Sys)
    requires Inv(s) && Next(s, Poll(conn, dir, n), s')
    ensures var slot, h := s.core.store[conn], s.track[conn].Of(dir);
            && n <= |slot.Of(dir).inbox| && h.got + n <= h.reaped
            && slot.Of(dir).inbox[..n] == Numbers(slot.qp, conn, h.got, h.got + n)
            && s'.track[conn].Of(dir).got == h.got + n
  {
    hide QueueOk, Ledger, MapOk, Owned, Proj, Stored, Numbers;
    assert ConnOk(s, conn);
    var slot, h := s.core.store[conn], s.track[conn].Of(dir);
    NumbersDrop(slot.qp, conn, h.got, h.reaped, n);
  }

  // ---------------------------------------------------------------------
  // Nothing is freed too early
  // ---------------------------------------------------------------------

  /** The device owes the connection nothing, or the entry is out of turns. */
  ghost predicate MayLeave(core: Core, e: Entry, budget: nat)
    requires e.conn in core.store
  {
    (core.store[e.conn].send.posted == 0 && core.store[e.conn].recv.posted == 0) || e.turns + 1 >= budget
  }

  /** One entry: no counter changes, and only what may leave is freed. */
  lemma EntryFrees(core: Core, e: Entry, budget: nat, conn: nat)
    requires e.conn in core.store && conn in core.store
    ensures var r := ReclaimOne(core, e, budget);
            && r.store.Keys == core.store.Keys
            && r.store[conn].send.posted == core.store[conn].send.posted
            && r.store[conn].recv.posted == core.store[conn].recv.posted
            && (r.freed[conn] > core.freed[conn] ==> e.conn == conn && MayLeave(core, e, budget))
  {
  }

  /** A pass changes no counter. */
  lemma {:induction false} PassCounts(core: Core, budget: nat, n: nat, conn: nat)
    requires Stored(core) && n <= |core.reclaim| && conn in core.store
    ensures var r := ReclaimUpTo(core, budget, n).0;
            && r.store[conn].send.posted == core.store[conn].send.posted
            && r.store[conn].recv.posted == core.store[conn].recv.posted
  {
    hide ReclaimOne, Leaves;
    if n > 0 {
      PassCounts(core, budget, n - 1, conn);
      EntryFrees(ReclaimUpTo(core, budget, n - 1).0, core.reclaim[n - 1], budget, conn);
    }
  }

  /** A pass frees what may leave. */
  lemma {:induction false} PassFrees(core: Core, budget: nat, n: nat, conn: nat)
    requires Stored(core) && n <= |core.reclaim| && conn in core.store
    requires ReclaimUpTo(core, budget, n).0.freed[conn] > core.freed[conn]
    ensures exists i :: 0 <= i < n && core.reclaim[i].conn == conn && MayLeave(core, core.reclaim[i], budget)
  {
    hide ReclaimOne, Leaves;
    if n > 0 {
      var c, e := ReclaimUpTo(core, budget, n - 1).0, core.reclaim[n - 1];
      if c.freed[conn] > core.freed[conn] {
        PassFrees(core, budget, n - 1, conn);
      } else {
        EntryFrees(c, e, budget, conn);
        PassCounts(core, budget, n - 1, conn);
      }
    }
  }

  /** Resources are freed by a reclaim turn alone, behind the drain barrier or out of turns. */
  lemma FreedBehindBarrier(s: Sys, a: Step, s': Sys, conn: nat)
    requires Inv(s) && Next(s, a, s') && s'.core.freed[conn] > s.core.freed[conn]
    ensures a.Turn? && conn in s.core.store && s.core.store[conn].state.Closing?
    ensures exists i :: 0 <= i < |s.core.reclaim| && s.core.reclaim[i].conn == conn
                        && MayLeave(s.core, s.core.reclaim[i], a.budget)
  {
    hide ConnOk, Ledger, MapOk, Owned, Proj;
    if conn in s.core.store && a.Turn? {
      PassFrees(s.core, a.budget, |s.core.reclaim|, conn);
      var i :| 0 <= i < |s.core.reclaim| && s.core.reclaim[i].conn == conn && MayLeave(s.core, s.core.reclaim[i], a.budget);
      QueuedAt(s.core.reclaim, i);
      assert QueuedOk(s.core, conn);
    } else if a.Turn? {
      PassKeys(s.core, a.budget, |s.core.reclaim|, conn);
    }
  }

  lemma {:induction false} PassKeys(core: Core, budget: nat, n: nat, conn: nat)
    requires Stored(core) && n <= |core.reclaim| && conn !in core.store
    ensures ReclaimUpTo(core, budget, n).0.freed[conn] == core.freed[conn]
  {
    if n > 0 {
      PassKeys(core, budget, n - 1, conn);
      assert core.reclaim[n - 1].conn in core.store;
    }
  }

  // ---------------------------------------------------------------------
  // Reclaim ends
  // ---------------------------------------------------------------------

  /** Every queued entry has spent at least `k` turns and fewer than `budget`. */
  ghost predicate Aged(q: seq<Entry>, k: nat) {
    forall i :: 0 <= i < |q| ==> q[i].turns >= k
  }

  ghost predicate Bounded(q: seq<Entry>, budget: nat) {
    forall i :: 0 <= i < |q| ==> q[i].turns < budget
  }

  lemma {:induction false} PassAges(core: Core, budget: nat, n: nat, k: nat)
    requires Stored(core) && n <= |core.reclaim| && Aged(core.reclaim, k)
    ensures Aged(ReclaimUpTo(core, budget, n).1, k + 1) && Bounded(ReclaimUpTo(core, budget, n).1, budget)
  {
    hide ReclaimOne, Stored;
    if n > 0 {
      PassAges(core, budget, n - 1, k);
    }
  }

  /** How many reclaim turns a stretch of a run takes. */
  function TurnsIn(acts: seq<Step>, i: nat, j: nat): nat
    requires i <= j <= |acts|
  {
    if i == j then 0 else TurnsIn(acts, i, j - 1) + if acts[j - 1].Turn? then 1 else 0
  }

  /** No hand-off in the stretch, and every turn runs with the same budget. */
  ghost predicate Settling(acts: seq<Step>, i: nat, j: nat, budget: nat) {
    forall l :: i <= l < j && l < |acts| ==> !acts[l].Close? && (acts[l].Turn? ==> acts[l].budget == budget)
  }

  lemma StepAges(s: Sys, a: Step, s': Sys, budget: nat, k: nat)
    requires SysNext(s, a, s') && !a.Close? && (a.Turn? ==> a.budget == budget) && Aged(s.core.reclaim, k)
    ensures Aged(s'.core.reclaim, k + if a.Turn? then 1 else 0)
    ensures a.Turn? ==> Bounded(s'.core.reclaim, budget)
    ensures !a.Turn? ==> s'.core.reclaim == s.core.reclaim
  {
    if a.Turn? {
      PassAges(s.core, budget, |s.core.reclaim|, k);
    }
  }

  lemma {:induction false} StretchAges(states: seq<Sys>, acts: seq<Step>, i: nat, j: nat, budget: nat)
    requires IsRun(states, acts) && i <= j < |states| && Settling(acts, i, j, budget)
    ensures Aged(states[j].core.reclaim, TurnsIn(acts, i, j))
    ensures TurnsIn(acts, i, j) > 0 ==> Bounded(states[j].core.reclaim, budget)
  {
    hide SysNext;
    if i < j {
      StretchAges(states, acts, i, j - 1, budget);
      assert SysNext(states[j - 1], acts[j - 1], states[j]);
      StepAges(states[j - 1], acts[j - 1], states[j], budget, TurnsIn(acts, i, j - 1));
    }
  }

  /** Without new hand-offs the reclaim queue is empty within the turn budget, even if the device is wedged. */
  lemma ReclaimEnds(states: seq<Sys>, acts: seq<Step>, i: nat, j: nat, budget: nat)
    requires IsRun(states, acts) && i <= j < |states| && Settling(acts, i, j, budget)
    requires TurnsIn(acts, i, j) >= budget > 0
    ensures states[j].core.reclaim == []
  {
    hide Settling, SysNext, Aged, Bounded;
    StretchAges(states, acts, i, j, budget);
    if states[j].core.reclaim != [] {
      StillYoung(states[j].core.reclaim, TurnsIn(acts, i, j), budget);
    }
  }

  lemma StillYoung(q: seq<Entry>, k: nat, budget: nat)
    requires q != [] && Aged(q, k) && Bounded(q, budget)
    ensures k < budget
  {
    assert k <= q[0].turns < budget;
  }

  /** When the run loop may stop and every connection was closed, all of them are drained. */
  lemma AllDrained(s: Sys)
    requires Inv(s) && s.core.reclaim == [] && forall conn :: conn in s.core.store ==> !Live(s.core.store[conn])
    ensures forall conn :: conn in s.core.store ==> s.core.store[conn].state.Drained?
  {
    forall conn | conn in s.core.store
      ensures s.core.store[conn].state.Drained?
    {
      assert QueuedOk(s.core, conn);
    }
  }

  // ---------------------------------------------------------------------
  // The shared queue never overruns
  // ---------------------------------------------------------------------

  /** The connections that have not been retired. */
  ghost function Active(s: Sys): set<nat> {
    set conn | conn in s.core.store && !s.core.store[conn].state.Drained?
  }

  /** The connections given up with work outstanding. */
  ghost function Wedged(s: Sys): set<nat> {
    set conn | conn in s.core.store && s.core.store[conn].state.Drained?
               && (s.core.store[conn].send.posted > 0 || s.core.store[conn].recv.posted > 0)
  }

  /** The connections the device may still have completions for. */
  ghost function Unsettled(s: Sys): set<nat> { Active(s) + Wedged(s) }

  /** Each connection's inbox is sized to its work-request budget. */
  ghost predicate Budgeted(s: Sys, dir: Dir, budget: nat) {
    forall conn :: conn in s.core.store ==> s.core.store[conn].Of(dir).capacity <= budget
  }

  function Without(cq: seq<Cqe>, conn: nat): seq<Cqe> {
    if cq == [] then [] else (if cq[0].conn == conn then [] else [cq[0]]) + Without(cq[1..], conn)
  }

  lemma {:induction false} WithoutCounts(cq: seq<Cqe>, conn: nat)
    ensures |cq| == |Proj(cq, conn)| + |Without(cq, conn)|
    ensures forall e :: e in Without(cq, conn) ==> e in cq && e.conn != conn
  {
    if cq != [] {
      WithoutCounts(cq[1..], conn);
    }
  }

  lemma {:induction false} WithoutOther(cq: seq<Cqe>, conn: nat, c: nat)
    requires c != conn
    ensures Proj(Without(cq, conn), c) == Proj(cq, c)
  {
    if cq != [] {
      WithoutOther(cq[1..], conn, c);
      var rest := Without(cq[1..], conn);
      if cq[0].conn != conn {
        ProjHead([cq[0]] + rest, c);
        assert ([cq[0]] + rest)[1..] == rest;
      } else {
        assert [] + rest == rest;
      }
    }
  }

  /** A queue holding at most `bound` completions of each of a few connections. */
  lemma {:induction false} QueueBound(cq: seq<Cqe>, conns: set<nat>, bound: nat)
    requires forall e :: e in cq ==> e.conn in conns
    requires forall c :: c in conns ==> |Proj(cq, c)| <= bound
    ensures |cq| <= |conns| * bound
    decreases |conns|
  {
    hide Proj, Without;
    if cq != [] {
      assert cq[0].conn in conns;
      var c :| c in conns;
      var rest := Without(cq, c);
      WithoutCounts(cq, c);
      forall d | d in conns - {c}
        ensures |Proj(rest, d)| <= bound
      {
        WithoutOther(cq, c, d);
      }
      QueueBound(rest, conns - {c}, bound);
      OneMore(|conns - {c}|, bound);
    }
  }

  lemma OneMore(n: nat, bound: nat)
    ensures (n + 1) * bound == n * bound + bound
  {
  }

  /** A shared queue holds completions of unsettled connections alone. */
  lemma CqEntry(s: Sys, dir: Dir, i: nat)
    requires Inv(s) && i < |s.Cq(dir)|
    ensures s.Cq(dir)[i].conn in Unsettled(s)
  {
    hide QueueOk, Ledger, Leases, MapOk, Proj, IsRegistered;
    var cq := s.Cq(dir);
    assert Owned(s, cq) && ConnOk(s, cq[i].conn);
    ProjHas(cq, i);
  }

  lemma CqOfUnsettled(s: Sys, dir: Dir, bound: nat)
    requires Inv(s) && forall c :: c in s.core.store ==> |Proj(s.Cq(dir), c)| <= bound
    ensures |s.Cq(dir)| <= |Unsettled(s)| * bound
  {
    hide Inv, Proj;
    var cq := s.Cq(dir);
    assert Unsettled(s) <= s.core.store.Keys;
    hide *;
    forall e | e in cq
      ensures e.conn in Unsettled(s)
    {
      var i :| 0 <= i < |cq| && cq[i] == e;
      CqEntry(s, dir, i);
    }
    QueueBound(cq, Unsettled(s), bound);
  }

  /**
    * A shared queue never holds more than the budgets of the connections that have not
    * been retired, and of those given up with work outstanding.
    */
  lemma CqWithinBudget(s: Sys, dir: Dir, budget: nat)
    requires Inv(s) && Budgeted(s, dir, budget)
    ensures |s.Cq(dir)| <= |Unsettled(s)| * budget
  {
    forall c | c in s.core.store
      ensures |Proj(s.Cq(dir), c)| <= budget
    {
      assert ConnOk(s, c);
    }
    hide *;
    CqOfUnsettled(s, dir, budget);
  }

  /** Nor more than those connections have issued and not polled. */
  lemma CqWithinOutstanding(s: Sys, dir: Dir, bound: nat)
    requires Inv(s)
    requires forall c :: c in s.core.store ==> s.track[c].Of(dir).issued <= s.track[c].Of(dir).got + bound
    ensures |s.Cq(dir)| <= |Unsettled(s)| * bound
  {
    forall c | c in s.core.store
      ensures |Proj(s.Cq(dir), c)| <= bound
    {
      assert ConnOk(s, c);
    }
    hide *;
    CqOfUnsettled(s, dir, bound);
  }

  lemma {:induction false} ProjHas(cq: seq<Cqe>, i: nat)
    requires i < |cq|
    ensures Proj(cq, cq[i].conn) != []
  {
    if i > 0 {
      ProjHas(cq[1..], i - 1);
    }
  }
}
