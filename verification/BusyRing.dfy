/**
  * Read-ring connections driven by one busy-poll core, with admission: every work
  * request a ring posts is counted by the core, every completion a ring handles was
  * polled from its inbox, every connection is opened under an admission guard, and
  * the guard is given back when the driver has retired the connection.
  */
module BusyRing {
  import opened TransportCommon
  import opened WorkLog
  import opened ConnSlots
  import opened CoreDrivers
  import opened BusyPools
  import CP = CoreProtocol
  import RR = ReadRing
  import RP = ReadProtocol
  import RS = ReadSender

  /** Memory-window binds and the token. */
  const MAX_SETUP_SENDS: nat := 3

  /** A connection: both ends of its ring, ours first, its guard, and its setup sends. */
  datatype Link = Link(ring: RP.Sys, guard: nat, setupSends: nat)

  datatype Joint = Joint(core: CP.Sys, links: map<nat, Link>, gate: Gate)

  datatype Step =
    | Admission(op: Op)
    | Open(conn: nat, qp: nat, guard: nat)
    | SetupSend(conn: nat)
    | TokenRecv(conn: nat)
    | Doorbell(conn: nat)
    | Commit(conn: nat)
    | Ours(conn: nat, step: RP.Step)
    | Peers(conn: nat, step: RP.Step)
    | Driver(a: CP.Step)

  /** Work-request budget of a direction; the inbox has that size. */
  function Budget(c: RR.Config, dir: Dir): nat {
    if dir.Send? then SendWrs(c.maxOut) else RecvWrs(c.maxOut)
  }

  // ---------------------------------------------------------------------
  // Posting
  // ---------------------------------------------------------------------

  /** `m` work requests posted one after the other. */
  function Posts(s: CP.Sys, conn: nat, dir: Dir, m: nat): (r: CP.Sys)
    requires conn in s.core.store && conn in s.track
    ensures conn in r.core.store && conn in r.track
  {
    if m == 0 then s else CP.Posted(Posts(s, conn, dir, m - 1), conn, dir)
  }

  /** What posting amounts to. */
  ghost predicate PostsAre(s: CP.Sys, conn: nat, dir: Dir, m: nat, s': CP.Sys)
    requires conn in s.core.store && conn in s.track
  {
    var slot, t := s.core.store[conn], s.track[conn];
    s' == CP.Update(s, conn, slot.With(dir, slot.Of(dir).(posted := slot.Of(dir).posted + m)),
                    t.With(dir, t.Of(dir).(issued := t.Of(dir).issued + m)))
  }

  lemma {:induction false} PostsIs(s: CP.Sys, conn: nat, dir: Dir, m: nat)
    requires conn in s.core.store && conn in s.track
    ensures PostsAre(s, conn, dir, m, Posts(s, conn, dir, m))
  {
    var slot, t := s.core.store[conn], s.track[conn];
    if m == 0 {
      assert s.core.store[conn := slot] == s.core.store;
      assert s.track[conn := t] == s.track;
    } else {
      PostsIs(s, conn, dir, m - 1);
      var s1 := Posts(s, conn, dir, m - 1);
      PostedAfter(s, conn, dir, m - 1, s1);
    }
  }

  lemma PostedAfter(s: CP.Sys, conn: nat, dir: Dir, m: nat, s1: CP.Sys)
    requires conn in s.core.store && conn in s.track && PostsAre(s, conn, dir, m, s1)
    ensures conn in s1.core.store && conn in s1.track && PostsAre(s, conn, dir, m + 1, CP.Posted(s1, conn, dir))
  {
    var slot, t := s.core.store[conn], s.track[conn];
    var lane, h := slot.Of(dir), t.Of(dir);
    var slot1, t1 := slot.With(dir, lane.(posted := lane.posted + m)), t.With(dir, h.(issued := h.issued + m));
    var slot2, t2 := slot.With(dir, lane.(posted := lane.posted + m + 1)), t.With(dir, h.(issued := h.issued + m + 1));
    assert slot1.With(dir, lane.(posted := lane.posted + m + 1)) == slot2;
    assert t1.With(dir, h.(issued := h.issued + m + 1)) == t2;
    assert s1.core.store[conn := slot2] == s.core.store[conn := slot2];
    assert s1.track[conn := t2] == s.track[conn := t2];
  }

  /** Posts within the inbox keep the core's invariant. */
  lemma {:induction false} PostsKeep(s: CP.Sys, conn: nat, dir: Dir, m: nat)
    requires CP.Inv(s) && conn in s.core.store && conn in s.track && CP.Live(s.core.store[conn])
    requires s.track[conn].Of(dir).issued + m <= s.track[conn].Of(dir).got + s.core.store[conn].Of(dir).capacity
    ensures CP.Inv(Posts(s, conn, dir, m))
  {
    hide CP.Inv;
    if m > 0 {
      PostsKeep(s, conn, dir, m - 1);
      PostsIs(s, conn, dir, m - 1);
      var s1 := Posts(s, conn, dir, m - 1);
      InvStored(s1);
      CP.NextKeeps(s1, CP.Post(conn, dir), CP.Posted(s1, conn, dir));
    }
  }

  lemma InvStored(s: CP.Sys)
    requires CP.Inv(s)
    ensures Stored(s.core) && s.track.Keys == s.core.store.Keys
  {
  }

  /** How many requests a step of our end posts, and in which direction. */
  function Posting(step: RP.Step, x: RP.Node, x': RP.Node): (Dir, nat) {
    match step
    case Send(_) => (Dir.Send, SatSub(|x'.ep.tx.log|, |x.ep.tx.log|))
    case RecvDone => (Dir.Recv, SatSub(x'.ep.rx.arrivals, x.ep.rx.arrivals))
    case _ => (Dir.Send, 0)
  }

  // ---------------------------------------------------------------------
  // Steps
  // ---------------------------------------------------------------------

  /** A connection that still has its guard: open, or handed off with the lease. */
  predicate Charged(core: CP.Sys, conn: nat) {
    && conn in core.core.store && conn in core.track
    && var slot := core.core.store[conn];
       CP.Live(slot) || (slot.state.Closing? && core.track[conn].leased)
  }

  /** Handed off without a lease: a setup that was abandoned. */
  predicate Orphan(core: CP.Sys, conn: nat) {
    conn in core.core.store && conn in core.track && core.core.store[conn].state.Closing? && !core.track[conn].leased
  }

  /** No connection still charged uses guard `t`. */
  ghost predicate Spare(j: Joint, t: nat) {
    forall conn :: conn in j.links && Charged(j.core, conn) ==> j.links[conn].guard != t
  }

  /** A setup step of an opened connection posts one request. */
  ghost predicate SetsUp(j: Joint, conn: nat, dir: Dir, more: nat, j': Joint) {
    && conn in j.links && conn in j.core.core.store && conn in j.core.track && j.core.core.store[conn].state.Connecting?
    && j' == j.(core := Posts(j.core, conn, dir, 1),
                links := j.links[conn := j.links[conn].(setupSends := j.links[conn].setupSends + more)])
  }

  /** The token has come, the setup sends are drained, and all doorbells are posted. */
  predicate SetupDone(c: RR.Config, t: CP.Tracks) {
    t.send.got == t.send.issued && t.recv.got > 0 && t.recv.issued == 1 + c.maxOut
  }

  /** The completion a step of our end handles has been polled. */
  ghost predicate WasPolled(link: Link, t: CP.Tracks, step: RP.Step) {
    var x, y := link.ring.a, link.ring.b;
    && (step.SendDone? ==> link.setupSends + x.sdone < t.send.got)
    && (step.RecvDone? && x.past.rdone < |y.ep.tx.log| && Is(Item, y.ep.tx.log[x.past.rdone]) ==>
          1 + Rank(Item, y.ep.tx.log, x.past.rdone) < t.recv.got)
  }

  /** The steps of the core that are its own, and the transport's use of its inbox. */
  predicate CoreStep(a: CP.Step) { !a.Open? && !a.Post? && !a.Establish? }

  ghost predicate Next(c: RR.Config, cap: nat, j: Joint, act: Step, j': Joint) {
    match act
    case Admission(op) =>
      // a guard is dropped by a failed setup or with the lease of a retired connection
      && GateNext(cap, j.gate, op, j'.gate) && (op.Drop? ==> Spare(j, op.t))
      && j' == j.(gate := j'.gate)
    case Open(conn, qp, guard) =>
      && guard in j.gate.holders && Spare(j, guard) && conn !in j.links
      && CP.SysNext(j.core, CP.Open(conn, qp, Budget(c, Dir.Send), Budget(c, Dir.Recv)), j'.core)
      && j' == j.(core := j'.core,
                  links := if conn in j'.core.core.store && c.cap > 0
                           then j.links[conn := Link(RP.Start(c), guard, 0)] else j.links)
    case SetupSend(conn) =>
      conn in j.links && j.links[conn].setupSends < MAX_SETUP_SENDS && SetsUp(j, conn, Dir.Send, 1, j')
    case TokenRecv(conn) =>
      SetsUp(j, conn, Dir.Recv, 0, j') && j.core.track[conn].recv.issued == 0
    case Doorbell(conn) =>
      // after the token has come
      && SetsUp(j, conn, Dir.Recv, 0, j')
      && j.core.track[conn].recv.got > 0 && j.core.track[conn].recv.issued < 1 + c.maxOut
    case Commit(conn) =>
      && CP.SysNext(j.core, CP.Establish(conn), j'.core) && conn in j.core.track && conn in j.links
      && SetupDone(c, j.core.track[conn])
      && j' == j.(core := j'.core)
    case Ours(conn, step) =>
      && conn in j.links && conn in j'.links && conn in j.core.core.store && conn in j.core.track
      && var link, ring' := j.links[conn], j'.links[conn].ring;
         && RP.SysNext(c, link.ring, RP.Act(true, step), ring')
         && (j.core.core.store[conn].state.Established? || step.Execute?)
         && WasPolled(link, j.core.track[conn], step)
         && var (dir, m) := Posting(step, link.ring.a, ring'.a);
            j' == j.(core := Posts(j.core, conn, dir, m), links := j.links[conn := link.(ring := ring')])
    case Peers(conn, step) =>
      && conn in j.links && conn in j'.links
      && RP.SysNext(c, j.links[conn].ring, RP.Act(false, step), j'.links[conn].ring)
      && j' == j.(links := j.links[conn := j.links[conn].(ring := j'.links[conn].ring)])
    case Driver(a) =>
      CoreStep(a) && CP.SysNext(j.core, a, j'.core) && j' == j.(core := j'.core)
  }

  // ---------------------------------------------------------------------
  // Invariant
  // ---------------------------------------------------------------------

  /** While a connection is being set up. */
  ghost predicate SettingUp(c: RR.Config, t: CP.Tracks, link: Link) {
    && t.send.issued == link.setupSends <= MAX_SETUP_SENDS
    && t.recv.issued <= t.recv.got + c.maxOut
    && var x := link.ring.a; x.ep.tx.log == [] && x.sdone == 0 && x.past.rdone == 0 && x.ep.rx.arrivals == 0
  }

  /**
    * Once it is established: every request in the log has been issued, every one
    * reaped was polled, and every doorbell replaces one whose message was handled.
    */
  ghost predicate Running(c: RR.Config, t: CP.Tracks, link: Link) {
    var x, y := link.ring.a, link.ring.b;
    && t.send.issued == link.setupSends + |x.ep.tx.log|
    && link.setupSends + x.sdone <= t.send.got
    && x.past.rdone <= |y.ep.tx.log|
    && t.recv.issued <= 1 + c.maxOut + x.ep.rx.arrivals
    && x.ep.rx.arrivals <= Rank(Item, y.ep.tx.log, x.past.rdone)
    && 1 + Rank(Item, y.ep.tx.log, x.past.rdone) <= t.recv.got
  }

  ghost predicate LinkOk(c: RR.Config, slot: Slot, t: CP.Tracks, link: Link) {
    && RS.Sound(c, link.ring.a) && RS.Sound(c, link.ring.b)
    && slot.send.capacity == Budget(c, Dir.Send) && slot.recv.capacity == Budget(c, Dir.Recv)
    && t.recv.issued <= t.recv.got + c.maxOut
    && (slot.state.Connecting? ==> SettingUp(c, t, link))
    && (slot.state.Established? ==> Running(c, t, link))
  }

  ghost predicate LinksOk(c: RR.Config, j: Joint) {
    && j.links.Keys == j.core.core.store.Keys == j.core.track.Keys
    && forall conn :: conn in j.links ==> LinkOk(c, j.core.core.store[conn], j.core.track[conn], j.links[conn])
  }

  /** Each charged connection has a guard of its own. */
  ghost predicate GuardsOk(j: Joint) {
    && (forall conn :: conn in j.links && Charged(j.core, conn) ==> j.links[conn].guard in j.gate.holders)
    && (forall d, e :: d in j.links && e in j.links && d != e && Charged(j.core, d) && Charged(j.core, e) ==>
          j.links[d].guard != j.links[e].guard)
  }

  ghost predicate Inv(c: RR.Config, cap: nat, j: Joint) {
    c.Valid() && CP.Inv(j.core) && GateInv(cap, j.gate) && LinksOk(c, j) && GuardsOk(j)
  }

  // ---------------------------------------------------------------------
  // Steps of one connection
  // ---------------------------------------------------------------------

  /** Only `conn` is touched, and neither its state nor its lease nor its guard changes. */
  ghost predicate Touches(j: Joint, j': Joint, conn: nat) {
    && j'.gate == j.gate && j'.links.Keys == j.links.Keys
    && j'.core.core.store.Keys == j.core.core.store.Keys == j.links.Keys
    && j'.core.track.Keys == j.core.track.Keys == j.links.Keys
    && conn in j.links
    && j'.core.core.store[conn].state == j.core.core.store[conn].state
    && j'.core.track[conn].leased == j.core.track[conn].leased
    && j'.links[conn].guard == j.links[conn].guard
    && forall d :: d in j.links && d != conn ==>
         && j'.core.core.store[d] == j.core.core.store[d] && j'.core.track[d] == j.core.track[d]
         && j'.links[d] == j.links[d]
  }

  lemma TouchKeeps(c: RR.Config, cap: nat, j: Joint, j': Joint, conn: nat)
    requires Inv(c, cap, j) && Touches(j, j', conn) && CP.Inv(j'.core)
    requires LinkOk(c, j'.core.core.store[conn], j'.core.track[conn], j'.links[conn])
    ensures Inv(c, cap, j')
  {
    hide CP.Inv, LinkOk, GateInv;
    forall d | d in j'.links
      ensures LinkOk(c, j'.core.core.store[d], j'.core.track[d], j'.links[d])
    {
      assert LinkOk(c, j.core.core.store[d], j.core.track[d], j.links[d]);
    }
    forall d | d in j'.links
      ensures Charged(j'.core, d) == Charged(j.core, d) && j'.links[d].guard == j.links[d].guard
    {
    }
    hide Charged, LinksOk;
  }

  lemma PostsTouch(j: Joint, conn: nat, dir: Dir, m: nat, link: Link)
    requires conn in j.links && j.links.Keys == j.core.core.store.Keys == j.core.track.Keys
    requires link.guard == j.links[conn].guard
    ensures Touches(j, j.(core := Posts(j.core, conn, dir, m), links := j.links[conn := link]), conn)
  {
    PostsIs(j.core, conn, dir, m);
  }

  /** A setup post keeps the connection's own account, and fits its inbox. */
  lemma SetupLink(c: RR.Config, slot: Slot, t: CP.Tracks, link: Link, dir: Dir, more: nat)
    requires c.Valid() && LinkOk(c, slot, t, link) && slot.state.Connecting?
    requires if dir.Send? then more == 1 && link.setupSends < MAX_SETUP_SENDS
             else more == 0 && t.recv.issued < t.recv.got + c.maxOut
    ensures t.Of(dir).issued + 1 <= t.Of(dir).got + slot.Of(dir).capacity
    ensures LinkOk(c, slot.With(dir, slot.Of(dir).(posted := slot.Of(dir).posted + 1)),
                   t.With(dir, t.Of(dir).(issued := t.Of(dir).issued + 1)),
                   link.(setupSends := link.setupSends + more))
  {
    hide RS.Sound;
  }

  lemma SetupKeeps(c: RR.Config, cap: nat, j: Joint, conn: nat, dir: Dir, more: nat, j': Joint)
    requires Inv(c, cap, j) && SetsUp(j, conn, dir, more, j')
    requires var t := j.core.track[conn];
             if dir.Send? then more == 1 && j.links[conn].setupSends < MAX_SETUP_SENDS
             else more == 0 && t.recv.issued < t.recv.got + c.maxOut
    ensures Inv(c, cap, j')
  {
    hide CP.Inv, LinkOk, GateInv, GuardsOk, Posts, Touches;
    var link' := j.links[conn].(setupSends := j.links[conn].setupSends + more);
    SetupLink(c, j.core.core.store[conn], j.core.track[conn], j.links[conn], dir, more);
    PostsTouch(j, conn, dir, 1, link');
    PostsKeep(j.core, conn, dir, 1);
    PostedLink(c, j.core, conn, dir, 1, link');
    hide LinksOk;
    TouchKeeps(c, cap, j, j', conn);
  }

  /** Our end's own step, as the counters see it. */
  lemma OursCounts(c: RR.Config, slot: Slot, t: CP.Tracks, link: Link, step: RP.Step, ring': RP.Sys)
    requires c.Valid() && LinkOk(c, slot, t, link)
    requires RP.SysNext(c, link.ring, RP.Act(true, step), ring') && WasPolled(link, t, step)
    requires slot.state.Established? || step.Execute?
    ensures RS.Sound(c, ring'.a) && RS.Sound(c, ring'.b)
    ensures var (dir, m) := Posting(step, link.ring.a, ring'.a);
            var t' := t.With(dir, t.Of(dir).(issued := t.Of(dir).issued + m));
            && (m > 0 ==> slot.state.Established? && t'.Of(dir).issued < t.Of(dir).got + Budget(c, dir))
            && (slot.state.Established? ==> Running(c, t', link.(ring := ring')))
            && (slot.state.Connecting? ==> SettingUp(c, t', link.(ring := ring')))
            && t'.recv.issued <= t'.recv.got + c.maxOut
  {
    hide RP.Next, RS.Sound, Rank;
    RS.SoundStep(c, link.ring, RP.Act(true, step), ring');
    RS.StepCounts(c, link.ring.a, link.ring.b, step, ring'.a, ring'.b);
    RS.QueueWithinBudget(c, link.ring.a);
    RS.QueueWithinBudget(c, ring'.a);
    if step.RecvDone? {
      NextRank(link.ring.b.ep.tx.log, link.ring.a.past.rdone);
    }
  }

  lemma NextRank(log: seq<Wr>, i: nat)
    requires i < |log|
    ensures Rank(Item, log, i + 1) == Rank(Item, log, i) + if Is(Item, log[i]) then 1 else 0
  {
  }

  /** A connection whose posts changed the counters as `OursCounts` says. */
  lemma LinkAfter(c: RR.Config, slot: Slot, t: CP.Tracks, link: Link, dir: Dir, m: nat, ring': RP.Sys)
    requires LinkOk(c, slot, t, link) && RS.Sound(c, ring'.a) && RS.Sound(c, ring'.b)
    requires var t' := t.With(dir, t.Of(dir).(issued := t.Of(dir).issued + m));
             && (slot.state.Established? ==> Running(c, t', link.(ring := ring')))
             && (slot.state.Connecting? ==> SettingUp(c, t', link.(ring := ring')))
             && t'.recv.issued <= t'.recv.got + c.maxOut
    ensures LinkOk(c, slot.With(dir, slot.Of(dir).(posted := slot.Of(dir).posted + m)),
                   t.With(dir, t.Of(dir).(issued := t.Of(dir).issued + m)), link.(ring := ring'))
  {
    hide RS.Sound, Running, SettingUp;
  }

  lemma PostedLink(c: RR.Config, s: CP.Sys, conn: nat, dir: Dir, m: nat, link: Link)
    requires conn in s.core.store && conn in s.track
    requires var slot, t := s.core.store[conn], s.track[conn];
             LinkOk(c, slot.With(dir, slot.Of(dir).(posted := slot.Of(dir).posted + m)),
                    t.With(dir, t.Of(dir).(issued := t.Of(dir).issued + m)), link)
    ensures var r := Posts(s, conn, dir, m); LinkOk(c, r.core.store[conn], r.track[conn], link)
  {
    hide LinkOk;
    PostsIs(s, conn, dir, m);
  }

  /** What a step of our end posts fits the inbox, and keeps the connection's account. */
  lemma OursAfter(c: RR.Config, slot: Slot, t: CP.Tracks, link: Link, step: RP.Step, ring': RP.Sys)
    requires c.Valid() && LinkOk(c, slot, t, link)
    requires RP.SysNext(c, link.ring, RP.Act(true, step), ring') && WasPolled(link, t, step)
    requires slot.state.Established? || step.Execute?
    ensures var (dir, m) := Posting(step, link.ring.a, ring'.a);
            && (m > 0 ==> CP.Live(slot) && t.Of(dir).issued + m <= t.Of(dir).got + slot.Of(dir).capacity)
            && LinkOk(c, slot.With(dir, slot.Of(dir).(posted := slot.Of(dir).posted + m)),
                      t.With(dir, t.Of(dir).(issued := t.Of(dir).issued + m)), link.(ring := ring'))
  {
    hide RS.Sound, RP.SysNext, Running, SettingUp, WasPolled, Posting;
    OursCounts(c, slot, t, link, step, ring');
    var (dir, m) := Posting(step, link.ring.a, ring'.a);
    LinkAfter(c, slot, t, link, dir, m, ring');
  }

  /** Posts that fit the inbox keep the core's invariant and the connection's account. */
  lemma PostsBoth(c: RR.Config, s: CP.Sys, conn: nat, dir: Dir, m: nat, link: Link)
    requires CP.Inv(s) && conn in s.core.store && conn in s.track
    requires var slot, t := s.core.store[conn], s.track[conn];
             && (m > 0 ==> CP.Live(slot) && t.Of(dir).issued + m <= t.Of(dir).got + slot.Of(dir).capacity)
             && LinkOk(c, slot.With(dir, slot.Of(dir).(posted := slot.Of(dir).posted + m)),
                       t.With(dir, t.Of(dir).(issued := t.Of(dir).issued + m)), link)
    ensures var r := Posts(s, conn, dir, m);
            CP.Inv(r) && LinkOk(c, r.core.store[conn], r.track[conn], link)
  {
    hide CP.Inv, LinkOk, Posts;
    PostedLink(c, s, conn, dir, m, link);
    if m > 0 {
      PostsKeep(s, conn, dir, m);
    } else {
      NoPosts(s, conn, dir);
    }
  }

  lemma OursLink(c: RR.Config, s: CP.Sys, conn: nat, link: Link, step: RP.Step, ring': RP.Sys)
    requires c.Valid() && CP.Inv(s) && conn in s.core.store && conn in s.track
    requires LinkOk(c, s.core.store[conn], s.track[conn], link)
    requires RP.SysNext(c, link.ring, RP.Act(true, step), ring') && WasPolled(link, s.track[conn], step)
    requires s.core.store[conn].state.Established? || step.Execute?
    ensures var (dir, m) := Posting(step, link.ring.a, ring'.a);
            var r := Posts(s, conn, dir, m);
            CP.Inv(r) && LinkOk(c, r.core.store[conn], r.track[conn], link.(ring := ring'))
  {
    hide *;
    OursAfter(c, s.core.store[conn], s.track[conn], link, step, ring');
    var (dir, m) := Posting(step, link.ring.a, ring'.a);
    PostsBoth(c, s, conn, dir, m, link.(ring := ring'));
  }

  lemma NoPosts(s: CP.Sys, conn: nat, dir: Dir)
    requires conn in s.core.store && conn in s.track
    ensures Posts(s, conn, dir, 0) == s
  {
  }

  lemma OursKeeps(c: RR.Config, cap: nat, j: Joint, conn: nat, step: RP.Step, j': Joint)
    requires Inv(c, cap, j) && Next(c, cap, j, Ours(conn, step), j')
    ensures Inv(c, cap, j')
  {
    hide CP.Inv, LinkOk, GateInv, GuardsOk, RP.SysNext, WasPolled, Posts, Posting, Touches;
    var link, ring' := j.links[conn], j'.links[conn].ring;
    assert LinkOk(c, j.core.core.store[conn], j.core.track[conn], link);
    OursLink(c, j.core, conn, link, step, ring');
    var (dir, m) := Posting(step, link.ring.a, ring'.a);
    PostsTouch(j, conn, dir, m, link.(ring := ring'));
    hide LinksOk;
    TouchKeeps(c, cap, j, j', conn);
  }

  lemma PeersCounts(c: RR.Config, slot: Slot, t: CP.Tracks, link: Link, step: RP.Step, ring': RP.Sys)
    requires c.Valid() && LinkOk(c, slot, t, link) && RP.SysNext(c, link.ring, RP.Act(false, step), ring')
    ensures LinkOk(c, slot, t, link.(ring := ring'))
  {
    hide RP.Next, RS.Sound, Rank;
    RS.SoundStep(c, link.ring, RP.Act(false, step), ring');
    RS.StepCounts(c, link.ring.b, link.ring.a, step, ring'.b, ring'.a);
    var log, log' := link.ring.b.ep.tx.log, ring'.b.ep.tx.log;
    if link.ring.a.past.rdone <= |log| {
      assert log' == log + log'[|log|..];
      RankAppend(Item, log, log'[|log|..], link.ring.a.past.rdone);
    }
  }

  lemma PeersKeeps(c: RR.Config, cap: nat, j: Joint, conn: nat, step: RP.Step, j': Joint)
    requires Inv(c, cap, j) && Next(c, cap, j, Peers(conn, step), j')
    ensures Inv(c, cap, j')
  {
    hide CP.Inv, LinkOk, GateInv, GuardsOk, RP.SysNext;
    PeersCounts(c, j.core.core.store[conn], j.core.track[conn], j.links[conn], step, j'.links[conn].ring);
    TouchKeeps(c, cap, j, j', conn);
  }

  // ---------------------------------------------------------------------
  // Steps of the driver
  // ---------------------------------------------------------------------

  /** A connection after a step of the driver: as open as before with perhaps more polled, or less open. */
  ghost predicate Calmer(s: CP.Sys, s': CP.Sys, conn: nat)
    requires conn in s.core.store && conn in s.track && conn in s'.core.store && conn in s'.track
  {
    var slot, slot', t, t' := s.core.store[conn], s'.core.store[conn], s.track[conn], s'.track[conn];
    && slot'.send.capacity == slot.send.capacity && slot'.recv.capacity == slot.recv.capacity
    && t'.leased == t.leased
    && t'.send.issued == t.send.issued && t'.recv.issued == t.recv.issued
    && t'.send.got >= t.send.got && t'.recv.got >= t.recv.got
    && (slot'.state == slot.state || slot'.state.Drained? || (CP.Live(slot) && slot'.state.Closing?))
  }

  ghost predicate AllCalmer(s: CP.Sys, s': CP.Sys) {
    && s'.core.store.Keys == s.core.store.Keys == s.track.Keys == s'.track.Keys
    && forall conn :: conn in s.core.store ==> Calmer(s, s', conn)
  }

  lemma {:induction false} PassCalm(core: Core, budget: nat, n: nat, conn: nat)
    requires Stored(core) && n <= |core.reclaim| && conn in core.store
    ensures var slot, slot' := core.store[conn], ReclaimUpTo(core, budget, n).0.store[conn];
            && slot'.send.capacity == slot.send.capacity && slot'.recv.capacity == slot.recv.capacity
            && (slot'.state == slot.state || slot'.state.Drained?)
  {
    hide Leaves, ReclaimOne;
    if n > 0 {
      PassCalm(core, budget, n - 1, conn);
      EntryCalm(ReclaimUpTo(core, budget, n - 1).0, core.reclaim[n - 1], budget, conn);
    }
  }

  lemma EntryCalm(core: Core, e: Entry, budget: nat, conn: nat)
    requires e.conn in core.store && conn in core.store
    ensures var r := ReclaimOne(core, e, budget);
            && conn in r.store
            && var slot, slot' := core.store[conn], r.store[conn];
               && slot'.send.capacity == slot.send.capacity && slot'.recv.capacity == slot.recv.capacity
               && (slot'.state == slot.state || slot'.state.Drained?)
  {
    hide Leaves;
  }

  lemma RoutedCalm(core: Core, dir: Dir, wc: Cqe, conn: nat)
    requires Stored(core) && conn in core.store
    ensures var r := RouteOne(core, dir, wc);
            && r.store.Keys == core.store.Keys
            && var slot, slot' := core.store[conn], r.store[conn];
               && slot'.send.capacity == slot.send.capacity && slot'.recv.capacity == slot.recv.capacity
               && slot'.state == slot.state
  {
  }

  lemma DriverCalm(s: CP.Sys, a: CP.Step, s': CP.Sys)
    requires CoreStep(a) && CP.SysNext(s, a, s')
    ensures AllCalmer(s, s')
  {
    hide RouteOne, ReclaimUpTo, Stored;
    forall conn | conn in s.core.store
      ensures conn in s'.core.store && conn in s'.track && Calmer(s, s', conn)
    {
      match a {
        case Turn(budget) => PassCalm(s.core, budget, |s.core.reclaim|, conn);
        case Sweep(dir) => RoutedCalm(s.core, dir, s.Cq(dir)[0], conn);
        case _ =>
      }
    }
    if a.Sweep? {
      RoutedKeys(s.core, a.dir, s.Cq(a.dir)[0]);
    }
  }

  lemma RoutedKeys(core: Core, dir: Dir, wc: Cqe)
    requires Stored(core)
    ensures RouteOne(core, dir, wc).store.Keys == core.store.Keys
  {
  }

  lemma CalmLink(c: RR.Config, s: CP.Sys, s': CP.Sys, conn: nat, link: Link)
    requires conn in s.core.store && conn in s.track && conn in s'.core.store && conn in s'.track && Calmer(s, s', conn)
    requires LinkOk(c, s.core.store[conn], s.track[conn], link)
    ensures LinkOk(c, s'.core.store[conn], s'.track[conn], link)
    ensures Charged(s', conn) ==> Charged(s, conn)
  {
    hide RS.Sound, Rank;
  }

  lemma CalmKeeps(c: RR.Config, cap: nat, j: Joint, j': Joint)
    requires Inv(c, cap, j) && j' == j.(core := j'.core) && CP.Inv(j'.core) && AllCalmer(j.core, j'.core)
    ensures Inv(c, cap, j')
  {
    hide CP.Inv, LinkOk, GateInv, Calmer, Charged;
    forall conn | conn in j'.links
      ensures LinkOk(c, j'.core.core.store[conn], j'.core.track[conn], j'.links[conn])
      ensures Charged(j'.core, conn) ==> Charged(j.core, conn)
    {
      CalmLink(c, j.core, j'.core, conn, j.links[conn]);
    }
  }

  lemma DriverKeeps(c: RR.Config, cap: nat, j: Joint, a: CP.Step, j': Joint)
    requires Inv(c, cap, j) && Next(c, cap, j, Driver(a), j')
    ensures Inv(c, cap, j')
  {
    hide CP.Inv, LinksOk, GuardsOk, GateInv, CP.Next, AllCalmer;
    DriverCalm(j.core, a, j'.core);
    CP.NextKeeps(j.core, a, j'.core);
    CalmKeeps(c, cap, j, j');
  }

  // ---------------------------------------------------------------------
  // Opening, committing and admission
  // ---------------------------------------------------------------------

  /** A new connection beside the others. */
  ghost predicate Opened(j: Joint, conn: nat, link: Link, j': Joint) {
    && conn !in j.links && j'.gate == j.gate && j'.links == j.links[conn := link]
    && j.links.Keys == j.core.core.store.Keys == j.core.track.Keys
    && j'.core.core.store.Keys == j'.core.track.Keys == j.links.Keys + {conn}
    && forall d :: d in j.links ==>
         j'.core.core.store[d] == j.core.core.store[d] && j'.core.track[d] == j.core.track[d]
  }

  lemma OpenedLinks(c: RR.Config, j: Joint, conn: nat, link: Link, j': Joint)
    requires LinksOk(c, j) && Opened(j, conn, link, j')
    requires LinkOk(c, j'.core.core.store[conn], j'.core.track[conn], link)
    ensures LinksOk(c, j')
  {
    hide LinkOk;
    assert j'.links.Keys == j.links.Keys + {conn};
    forall d | d in j'.links
      ensures LinkOk(c, j'.core.core.store[d], j'.core.track[d], j'.links[d])
    {
      if d != conn {
        assert LinkOk(c, j.core.core.store[d], j.core.track[d], j.links[d]);
      }
    }
  }

  lemma OpenedCharged(j: Joint, conn: nat, link: Link, j': Joint, d: nat)
    requires Opened(j, conn, link, j') && d in j'.links && d != conn
    ensures d in j.links && Charged(j'.core, d) == Charged(j.core, d) && j'.links[d] == j.links[d]
  {
  }

  lemma OpenedGuards(j: Joint, conn: nat, link: Link, j': Joint)
    requires GuardsOk(j) && Opened(j, conn, link, j')
    requires link.guard in j.gate.holders && Spare(j, link.guard)
    ensures GuardsOk(j')
  {
    hide Charged;
    forall d | d in j'.links && d != conn
      ensures d in j.links && Charged(j'.core, d) == Charged(j.core, d) && j'.links[d] == j.links[d]
    {
      OpenedCharged(j, conn, link, j', d);
    }
    assert j'.gate == j.gate && conn in j'.links && j'.links[conn] == link;
    hide Opened;
    forall d | d in j'.links && Charged(j'.core, d)
      ensures j'.links[d].guard in j'.gate.holders && (d != conn ==> j'.links[d].guard != link.guard)
    {
      if d != conn {
        assert d in j.links && Charged(j.core, d);
      }
    }
    forall d, e | d in j'.links && e in j'.links && d != e && Charged(j'.core, d) && Charged(j'.core, e)
      ensures j'.links[d].guard != j'.links[e].guard
    {
      if d != conn && e != conn {
        assert d in j.links && e in j.links && Charged(j.core, d) && Charged(j.core, e);
      }
    }
  }

  lemma OpenedKeeps(c: RR.Config, cap: nat, j: Joint, conn: nat, link: Link, j': Joint)
    requires Inv(c, cap, j) && Opened(j, conn, link, j') && CP.Inv(j'.core)
    requires link.guard in j.gate.holders && Spare(j, link.guard)
    requires LinkOk(c, j'.core.core.store[conn], j'.core.track[conn], link)
    ensures Inv(c, cap, j')
  {
    hide CP.Inv, LinksOk, GuardsOk, Spare, LinkOk;
    OpenedLinks(c, j, conn, link, j');
    OpenedGuards(j, conn, link, j');
  }

  lemma OpenKeeps(c: RR.Config, cap: nat, j: Joint, conn: nat, qp: nat, guard: nat, j': Joint)
    requires Inv(c, cap, j) && Next(c, cap, j, Open(conn, qp, guard), j')
    ensures Inv(c, cap, j')
  {
    hide CP.Inv, LinkOk, GateInv, GuardsOk, Spare, CP.IsRegistered, Stored;
    CP.NextKeeps(j.core, CP.Open(conn, qp, Budget(c, Dir.Send), Budget(c, Dir.Recv)), j'.core);
    if conn in j'.core.core.store {
      OpenedLink(c, j'.core, conn, qp, guard);
      OpenedKeeps(c, cap, j, conn, Link(RP.Start(c), guard, 0), j');
    } else {
      assert j' == j;
    }
  }

  lemma OpenedLink(c: RR.Config, s: CP.Sys, conn: nat, qp: nat, guard: nat)
    requires c.Valid() && conn in s.core.store && conn in s.track
    requires s.core.store[conn] == CP.FreshSlot(qp, Budget(c, Dir.Send), Budget(c, Dir.Recv))
    requires s.track[conn] == CP.FreshTracks()
    ensures LinkOk(c, s.core.store[conn], s.track[conn], Link(RP.Start(c), guard, 0))
  {
    RS.SoundStart(c);
    hide RS.Sound;
  }

  lemma CommitKeeps(c: RR.Config, cap: nat, j: Joint, conn: nat, j': Joint)
    requires Inv(c, cap, j) && Next(c, cap, j, Commit(conn), j')
    ensures Inv(c, cap, j')
  {
    hide CP.Inv, GateInv, LinkOk, SetupDone;
    CP.NextKeeps(j.core, CP.Establish(conn), j'.core);
    CommitLink(c, j.core.core.store[conn], j.core.track[conn], j.links[conn]);
    forall d | d in j'.links
      ensures LinkOk(c, j'.core.core.store[d], j'.core.track[d], j'.links[d])
      ensures Charged(j'.core, d) ==> Charged(j.core, d)
    {
      assert d != conn ==> LinkOk(c, j.core.core.store[d], j.core.track[d], j.links[d]);
    }
    hide Charged;
  }

  lemma CommitLink(c: RR.Config, slot: Slot, t: CP.Tracks, link: Link)
    requires c.Valid() && LinkOk(c, slot, t, link) && slot.state.Connecting? && SetupDone(c, t)
    ensures LinkOk(c, slot.(state := Established), t.(leased := true), link)
  {
    hide RS.Sound;
    assert Rank(Item, link.ring.b.ep.tx.log, 0) == 0;
  }

  lemma AdmissionKeeps(c: RR.Config, cap: nat, j: Joint, op: Op, j': Joint)
    requires Inv(c, cap, j) && Next(c, cap, j, Admission(op), j')
    ensures Inv(c, cap, j')
  {
    hide CP.Inv, LinkOk, Charged;
    GateKeeps(cap, j.gate, op, j'.gate);
  }

  lemma SetupStepKeeps(c: RR.Config, cap: nat, j: Joint, act: Step, j': Joint)
    requires Inv(c, cap, j) && Next(c, cap, j, act, j') && (act.SetupSend? || act.TokenRecv? || act.Doorbell?)
    ensures Inv(c, cap, j')
  {
    assert c.Valid();
    hide Inv, SetsUp;
    var conn := act.conn;
    SetsUpIn(j, conn, if act.SetupSend? then Dir.Send else Dir.Recv, if act.SetupSend? then 1 else 0, j');
    if act.SetupSend? {
      SetupKeeps(c, cap, j, conn, Dir.Send, 1, j');
    } else {
      SetupKeeps(c, cap, j, conn, Dir.Recv, 0, j');
    }
  }

  lemma SetsUpIn(j: Joint, conn: nat, dir: Dir, more: nat, j': Joint)
    requires SetsUp(j, conn, dir, more, j')
    ensures conn in j.links && conn in j.core.core.store && conn in j.core.track
  {
  }

  lemma NextKeeps(c: RR.Config, cap: nat, j: Joint, act: Step, j': Joint)
    requires Inv(c, cap, j) && Next(c, cap, j, act, j')
    ensures Inv(c, cap, j')
  {
    hide Inv, Next;
    if act.SetupSend? || act.TokenRecv? || act.Doorbell? {
      SetupStepKeeps(c, cap, j, act, j');
    } else {
      OtherKeeps(c, cap, j, act, j');
    }
  }

  lemma OtherKeeps(c: RR.Config, cap: nat, j: Joint, act: Step, j': Joint)
    requires Inv(c, cap, j) && Next(c, cap, j, act, j') && !act.SetupSend? && !act.TokenRecv? && !act.Doorbell?
    ensures Inv(c, cap, j')
  {
    hide Inv, Next;
    match act {
      case Admission(op) => AdmissionKeeps(c, cap, j, op, j');
      case Open(conn, qp, guard) => OpenKeeps(c, cap, j, conn, qp, guard, j');
      case Commit(conn) => CommitKeeps(c, cap, j, conn, j');
      case Ours(conn, step) => OursKeeps(c, cap, j, conn, step, j');
      case Peers(conn, step) => PeersKeeps(c, cap, j, conn, step, j');
      case Driver(a) => DriverKeeps(c, cap, j, a, j');
    }
  }

  // ---------------------------------------------------------------------
  // Runs
  // ---------------------------------------------------------------------

  /** The hand-off of a connection whose setup is abandoned. */
  predicate Abandons(j: Joint, act: Step) {
    && act.Driver? && act.a.Close?
    && act.a.conn in j.core.core.store && j.core.core.store[act.a.conn].state.Connecting?
  }

  function Start(): Joint { Joint(CP.Start(), map[], Gate(0, {}, {})) }

  /** A run of a core that admits `cap` connections. */
  ghost predicate IsRun(c: RR.Config, cap: nat, states: seq<Joint>, acts: seq<Step>) {
    && |states| == |acts| + 1
    && states[0] == Start()
    && forall i :: 0 <= i < |acts| ==> Next(c, cap, states[i], acts[i], states[i + 1])
  }

  lemma StartInv(c: RR.Config, cap: nat)
    requires c.Valid()
    ensures Inv(c, cap, Start())
  {
    CP.StartInv();
    hide CP.Inv;
  }

  lemma {:induction false} RunInv(c: RR.Config, cap: nat, states: seq<Joint>, acts: seq<Step>, i: nat)
    requires c.Valid() && IsRun(c, cap, states, acts) && i < |states|
    ensures Inv(c, cap, states[i])
  {
    hide Inv, Next, Start;
    if i == 0 {
      StartInv(c, cap);
    } else {
      RunInv(c, cap, states, acts, i - 1);
      assert Next(c, cap, states[i - 1], acts[i - 1], states[i]);
      NextKeeps(c, cap, states[i - 1], acts[i - 1], states[i]);
    }
  }

  // ---------------------------------------------------------------------
  // Inboxes
  // ---------------------------------------------------------------------

  /** What is posted or waits in an inbox is less than the inbox holds. */
  ghost predicate InboxFits(s: CP.Sys, conn: nat, dir: Dir)
    requires conn in s.core.store
  {
    var slot := s.core.store[conn];
    CP.Live(slot) ==> slot.Of(dir).posted + |slot.Of(dir).inbox| < slot.Of(dir).capacity
  }

  /** Requests issued and not yet polled, in a connection's own terms. */
  lemma Outstanding(c: RR.Config, slot: Slot, t: CP.Tracks, link: Link, dir: Dir)
    requires c.Valid() && LinkOk(c, slot, t, link) && CP.Live(slot)
    ensures t.Of(dir).issued < t.Of(dir).got + slot.Of(dir).capacity
  {
    hide RS.Sound, Rank;
    RS.QueueWithinBudget(c, link.ring.a);
  }

  /**
    * No inbox ever fills up, in any run of read-ring connections on a core: with
    * that the core serves every connection as promised.
    */
  lemma InboxNeverFull(c: RR.Config, cap: nat, states: seq<Joint>, acts: seq<Step>, i: nat)
    requires c.Valid() && IsRun(c, cap, states, acts) && i < |states|
    ensures CP.Dependable(states[i].core)
    ensures forall conn, dir :: conn in states[i].core.core.store ==> InboxFits(states[i].core, conn, dir)
  {
    hide CP.Inv, IsRun, LinkOk, GuardsOk, GateInv, CP.Dependable, InboxFits;
    RunInv(c, cap, states, acts, i);
    var j := states[i];
    CP.InvDependable(j.core);
    forall conn, dir | conn in j.core.core.store
      ensures InboxFits(j.core, conn, dir)
    {
      assert LinkOk(c, j.core.core.store[conn], j.core.track[conn], j.links[conn]);
      FitsOne(c, j, conn, dir);
    }
  }

  lemma FitsOne(c: RR.Config, j: Joint, conn: nat, dir: Dir)
    requires c.Valid() && CP.Inv(j.core) && conn in j.core.core.store && conn in j.links
    requires conn in j.core.track && LinkOk(c, j.core.core.store[conn], j.core.track[conn], j.links[conn])
    ensures InboxFits(j.core, conn, dir)
  {
    hide LinkOk, CP.QueueOk, CP.Ledger, CP.Leases, CP.MapOk, CP.Owned, CP.Proj;
    var slot, t := j.core.core.store[conn], j.core.track[conn];
    if CP.Live(slot) {
      Outstanding(c, slot, t, j.links[conn], dir);
      assert CP.ConnOk(j.core, conn);
      assert CP.LaneOk(j.core.core, j.core.Cq(dir), conn, slot.Of(dir), t.Of(dir));
    }
  }

  // ---------------------------------------------------------------------
  // The shared queues
  // ---------------------------------------------------------------------

  ghost function ChargedOf(j: Joint): set<nat> {
    set conn | conn in j.links && Charged(j.core, conn)
  }

  ghost function Orphans(j: Joint): set<nat> {
    set conn | conn in j.links && Orphan(j.core, conn)
  }

  /** As many guards as connections that hold one each. */
  lemma {:induction false} OneEach(links: map<nat, Link>, conns: set<nat>, guards: set<nat>)
    requires forall d :: d in conns ==> d in links && links[d].guard in guards
    requires forall d, e :: d in conns && e in conns && d != e ==> links[d].guard != links[e].guard
    ensures |conns| <= |guards|
    decreases |conns|
  {
    if conns != {} {
      var d :| d in conns;
      OneEach(links, conns - {d}, guards - {links[d].guard});
    }
  }

  /**
    * Connections that have no guard and whose requests may still complete: abandoned
    * setups, and those the driver has given up waiting for.
    */
  ghost function Loose(j: Joint): set<nat> { Orphans(j) + CP.Wedged(j.core) }

  lemma UnsettledSplit(j: Joint)
    requires j.links.Keys == j.core.core.store.Keys == j.core.track.Keys
    ensures CP.Unsettled(j.core) == ChargedOf(j) + Loose(j)
  {
    assert CP.Active(j.core) == ChargedOf(j) + Orphans(j);
  }

  lemma ChargedWithinCap(cap: nat, j: Joint)
    requires GateInv(cap, j.gate) && GuardsOk(j)
    ensures |ChargedOf(j)| <= cap
  {
    hide Charged;
    OneEach(j.links, ChargedOf(j), j.gate.holders);
  }

  lemma UnionSize(a: set<nat>, b: set<nat>)
    ensures |a + b| <= |a| + |b|
  {
    assert a + b == a + (b - a);
  }

  lemma UnsettledParts(c: RR.Config, cap: nat, j: Joint)
    requires Inv(c, cap, j)
    ensures |CP.Unsettled(j.core)| <= cap + |Loose(j)|
  {
    hide CP.Inv, LinkOk, GuardsOk, GateInv, ChargedOf, Loose, CP.Unsettled;
    UnsettledSplit(j);
    ChargedWithinCap(cap, j);
    UnionSize(ChargedOf(j), Loose(j));
  }

  lemma AllBudgeted(c: RR.Config, j: Joint, dir: Dir)
    requires LinksOk(c, j)
    ensures CP.Budgeted(j.core, dir, Budget(c, dir))
  {
    hide RS.Sound, Running, SettingUp;
    forall conn | conn in j.core.core.store
      ensures j.core.core.store[conn].Of(dir).capacity <= Budget(c, dir)
    {
      assert LinkOk(c, j.core.core.store[conn], j.core.track[conn], j.links[conn]);
    }
  }

  /**
    * Admission bounds a shared queue: it holds no more than the budgets of `cap`
    * connections and of those without a guard.
    */
  lemma CqWithinAdmission(c: RR.Config, cap: nat, j: Joint, dir: Dir)
    requires Inv(c, cap, j)
    ensures |j.core.Cq(dir)| <= (cap + |Loose(j)|) * Budget(c, dir)
  {
    hide CP.Inv, GuardsOk, GateInv, LinksOk, Loose, CP.Unsettled, CP.Budgeted;
    UnsettledParts(c, cap, j);
    AllBudgeted(c, j, dir);
    CP.CqWithinBudget(j.core, dir, Budget(c, dir));
    MulMono(|CP.Unsettled(j.core)|, cap + |Loose(j)|, Budget(c, dir), Budget(c, dir));
  }

  /** The receive queue holds no more than the doorbells of those connections. */
  lemma RecvWithinAdmission(c: RR.Config, cap: nat, j: Joint)
    requires Inv(c, cap, j)
    ensures |j.core.recvCq| <= (cap + |Loose(j)|) * c.maxOut
  {
    hide CP.Inv, GuardsOk, GateInv, LinksOk, Loose, CP.Unsettled;
    UnsettledParts(c, cap, j);
    AllOutstanding(c, j);
    CP.CqWithinOutstanding(j.core, Dir.Recv, c.maxOut);
    MulMono(|CP.Unsettled(j.core)|, cap + |Loose(j)|, c.maxOut, c.maxOut);
  }

  lemma AllOutstanding(c: RR.Config, j: Joint)
    requires LinksOk(c, j)
    ensures j.core.track.Keys == j.core.core.store.Keys
    ensures forall conn :: conn in j.core.core.store ==>
      j.core.track[conn].Of(Dir.Recv).issued <= j.core.track[conn].Of(Dir.Recv).got + c.maxOut
  {
    hide RS.Sound, Running, SettingUp;
    forall conn | conn in j.core.core.store
      ensures j.core.track[conn].Of(Dir.Recv).issued <= j.core.track[conn].Of(Dir.Recv).got + c.maxOut
    {
      assert LinkOk(c, j.core.core.store[conn], j.core.track[conn], j.links[conn]);
    }
  }

  /**
    * The chosen depth is never overrun in any run while at most one connection
    * without a guard still has requests under way.
    */
  lemma SharedCqNeverOverruns(c: RR.Config, cap: nat, states: seq<Joint>, acts: seq<Step>, i: nat, dir: Dir, maxCqe: nat)
    requires c.Valid() && IsRun(c, cap, states, acts) && i < |states|
    requires CqDepth(cap, Budget(c, dir), maxCqe).Some? && |Loose(states[i])| <= 1
    ensures |states[i].core.Cq(dir)| <= CqDepth(cap, Budget(c, dir), maxCqe).value
  {
    hide Inv, IsRun, Loose;
    RunInv(c, cap, states, acts, i);
    CqWithinAdmission(c, cap, states[i], dir);
    MulMono(cap + |Loose(states[i])|, cap + 1, Budget(c, dir), Budget(c, dir));
  }

  // ---------------------------------------------------------------------
  // Abandoned setups
  // ---------------------------------------------------------------------

  lemma PostsOrphan(s: CP.Sys, d: nat, dir: Dir, m: nat, conn: nat)
    requires d in s.core.store && d in s.track
    ensures Orphan(Posts(s, d, dir, m), conn) == Orphan(s, conn)
  {
    PostsIs(s, d, dir, m);
  }

  /** Steps of the driver. */
  lemma DriverOrphan(s: CP.Sys, a: CP.Step, s': CP.Sys, conn: nat)
    requires CP.Inv(s) && CoreStep(a) && CP.SysNext(s, a, s') && Orphan(s', conn)
    requires a.Close? ==> a.conn in s.core.store && !s.core.store[a.conn].state.Connecting?
    ensures Orphan(s, conn)
  {
    InvLeases(s);
    hide CP.Inv, CP.Next;
    DriverCalm(s, a, s');
    assert Calmer(s, s', conn);
    assert CP.LeaseOk(s.core, conn, s.track[conn].leased);
    if CP.Live(s.core.store[conn]) {
      ClosedBy(s, a, s', conn);
    }
  }

  /** A step that abandons no setup makes no orphan. */
  lemma NoNewOrphan(c: RR.Config, cap: nat, j: Joint, act: Step, j': Joint, conn: nat)
    requires Inv(c, cap, j) && Next(c, cap, j, act, j') && !Abandons(j, act)
    requires Orphan(j'.core, conn)
    ensures Orphan(j.core, conn)
  {
    hide CP.Inv, LinksOk, GuardsOk, GateInv, Posts, Posting;
    match act {
      case Ours(d, step) =>
        var (dir, m) := Posting(step, j.links[d].ring.a, j'.links[d].ring.a);
        PostsOrphan(j.core, d, dir, m, conn);
      case SetupSend(d) => PostsOrphan(j.core, d, Dir.Send, 1, conn);
      case TokenRecv(d) => PostsOrphan(j.core, d, Dir.Recv, 1, conn);
      case Doorbell(d) => PostsOrphan(j.core, d, Dir.Recv, 1, conn);
      case Driver(a) =>
        if a.Close? {
          ClosesOpen(j.core, a, j'.core);
        }
        hide CP.Next;
        DriverOrphan(j.core, a, j'.core, conn);
      case _ =>
    }
  }

  lemma ClosesOpen(s: CP.Sys, a: CP.Step, s': CP.Sys)
    requires a.Close? && CP.SysNext(s, a, s')
    ensures a.conn in s.core.store
  {
  }

  lemma InvLeases(s: CP.Sys)
    requires CP.Inv(s)
    ensures s.track.Keys == s.core.store.Keys && CP.Leases(s)
  {
  }

  /** Only a hand-off closes an open connection. */
  lemma ClosedBy(s: CP.Sys, a: CP.Step, s': CP.Sys, conn: nat)
    requires CoreStep(a) && CP.SysNext(s, a, s') && conn in s.core.store && conn in s'.core.store
    requires CP.Live(s.core.store[conn]) && s'.core.store[conn].state.Closing?
    ensures a == CP.Close(conn)
  {
    hide RouteOne, ReclaimUpTo, Stored;
    match a {
      case Turn(budget) => PassCalm(s.core, budget, |s.core.reclaim|, conn);
      case Sweep(dir) => RoutedCalm(s.core, dir, s.Cq(dir)[0], conn);
      case _ =>
    }
  }

  lemma OrphansShrink(c: RR.Config, cap: nat, j: Joint, act: Step, j': Joint)
    requires Inv(c, cap, j) && Next(c, cap, j, act, j') && !Abandons(j, act)
    ensures Orphans(j') <= Orphans(j)
  {
    InvLeases(j.core);
    hide CP.Inv, LinkOk, GuardsOk, GateInv, Next, Abandons;
    forall conn | conn in Orphans(j')
      ensures conn in Orphans(j)
    {
      NoNewOrphan(c, cap, j, act, j', conn);
    }
  }

  lemma PostsState(s: CP.Sys, d: nat, dir: Dir, m: nat, conn: nat)
    requires d in s.core.store && d in s.track
    ensures var r := Posts(s, d, dir, m);
            conn in r.core.store ==> conn in s.core.store && r.core.store[conn].state == s.core.store[conn].state
  {
    PostsIs(s, d, dir, m);
  }

  ghost predicate Retired(s: CP.Sys, conn: nat) { conn in s.core.store && s.core.store[conn].state.Drained? }

  /** No step but a reclaim turn retires a connection. */
  lemma NoneRetired(c: RR.Config, cap: nat, j: Joint, act: Step, j': Joint, conn: nat)
    requires Next(c, cap, j, act, j') && !(act.Driver? && act.a.Turn?) && Retired(j'.core, conn)
    ensures Retired(j.core, conn)
  {
    hide Posts, Posting, RP.SysNext, WasPolled, SetupDone, Spare, GateNext;
    match act {
      case Ours(d, step) =>
        var (dir, m) := Posting(step, j.links[d].ring.a, j'.links[d].ring.a);
        PostsState(j.core, d, dir, m, conn);
      case SetupSend(d) => PostsState(j.core, d, Dir.Send, 1, conn);
      case TokenRecv(d) => PostsState(j.core, d, Dir.Recv, 1, conn);
      case Doorbell(d) => PostsState(j.core, d, Dir.Recv, 1, conn);
      case Driver(a) =>
        hide CP.SysNext;
        DriverRetires(j.core, a, j'.core, conn);
      case _ =>
    }
  }

  lemma DriverRetires(s: CP.Sys, a: CP.Step, s': CP.Sys, conn: nat)
    requires CoreStep(a) && !a.Turn? && CP.SysNext(s, a, s') && Retired(s', conn)
    ensures Retired(s, conn)
  {
    hide RouteOne, Stored;
    if a.Sweep? {
      RoutedKeys(s.core, a.dir, s.Cq(a.dir)[0]);
      RoutedCalm(s.core, a.dir, s.Cq(a.dir)[0], conn);
    }
  }

  /** A run that abandons no setup leaves no orphans. */
  lemma {:induction false} NoOrphans(c: RR.Config, cap: nat, states: seq<Joint>, acts: seq<Step>, i: nat)
    requires c.Valid() && IsRun(c, cap, states, acts) && i < |states|
    requires forall j :: 0 <= j < |acts| ==> !Abandons(states[j], acts[j])
    ensures Orphans(states[i]) == {}
  {
    hide Inv, Next, Abandons, Orphan;
    if i > 0 {
      NoOrphans(c, cap, states, acts, i - 1);
      RunInv(c, cap, states, acts, i - 1);
      hide Orphans;
      OrphansShrink(c, cap, states[i - 1], acts[i - 1], states[i]);
    }
  }
}
