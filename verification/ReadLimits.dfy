/**
  * A limit of the read ring: when a refused send leaves the sender without
  * anything to wait for.
  */
module ReadLimits {
  import opened Modular
  import opened RingBuffers
  import opened TransportCommon
  import opened WorkLog
  import opened SendSide
  import opened RecvSide
  import opened ReadRing
  import opened ReadProtocol
  import opened ReadSender

  // ---------------------------------------------------------------------
  // Silent parking
  // ---------------------------------------------------------------------

  /** The send is refused and no work request is left whose completion could wake the caller. */
  predicate Silent(c: Config, ep: Ep, data: seq<u8>)
    requires ep.Ok(c)
  {
    var r := SendGather(c, ep, data);
    r.1 == Accepted(0) && r.0.SqUsed() == 0
  }

  /** With nothing outstanding the staging ring is empty. */
  lemma IdleRing(c: Config, x: Node)
    requires Sound(c, x) && x.ep.SqUsed() == 0
    ensures var p := Pos(c.cap, x.ep.tx.log, |x.ep.tx.log|);
            x.ep.tx.ring.Spans(p, p) && x.ep.tx.ring.head == p % c.cap
  {
    hide Staged, Pos;
    FreedIsPos(c.cap, c.Bound(), x.ep.tx.log, |x.ep.tx.log|);
    NoTrailingGap(c.cap, c.Bound(), x.ep.tx.log);
  }

  /**
    * Exactly when a send parks silently: the endpoint is alive, nothing is
    * outstanding, the budget would admit it, the peer has room, and the empty
    * staging ring refuses because the message fits neither before nor after the
    * current offset.
    */
  lemma SilentIff(c: Config, x: Node, data: seq<u8>)
    requires Sound(c, x) && |data| > 0
    ensures var len := c.SendLen(|data|);
            x.ep.Ok(c) &&
            (Silent(c, x.ep, data) <==>
              && !x.ep.dead && x.ep.SqUsed() == 0 && SEND_COPY_MAX_WRS <= c.maxOut
              && len + c.threshold <= x.ep.RemoteFree(c.cap)
              && (len == 0 || c.cap - len < x.ep.tx.ring.head <= len))
  {
    hide Ep.RemoteFree, Post;
    assert x.ep.Ok(c);
    var len := c.SendLen(|data|);
    if x.ep.SqUsed() == 0 {
      IdleRing(c, x);
      if len > 0 {
        SoundFree(c, x);
        EmptyRingReserve(x.ep.tx.ring, Pos(c.cap, x.ep.tx.log, |x.ep.tx.log|), len);
      }
    }
    hide Sound, Ring.Reserve;
    if !x.ep.dead {
      SilentCases(c, x.ep, data);
    }
  }

  lemma SoundFree(c: Config, x: Node)
    requires Sound(c, x)
    ensures x.ep.RemoteFree(c.cap) < c.cap
  {
    FreeBelow(c, x.ep);
  }

  /** A refused send either posted a Read or changed nothing. */
  lemma SilentCases(c: Config, ep: Ep, data: seq<u8>)
    requires ep.Ok(c) && !ep.dead && |data| > 0
    ensures var len := c.SendLen(|data|);
            Silent(c, ep, data) <==>
              && ep.SqUsed() == 0 && SEND_COPY_MAX_WRS <= c.maxOut
              && len + c.threshold <= ep.RemoteFree(c.cap)
              && ep.tx.ring.Reserve(len).None?
  {
    hide Post, Ep.RemoteFree, Ring.Rollback;
    var len := c.SendLen(|data|);
    if ep.tx.ring.Reserve(len).Some? {
      GrantInBounds(ep.tx.ring, len);
      hide Ring.Reserve;
    }
  }

  /** With messages of at most half the ring every refusal leaves something outstanding. */
  lemma NeverSilent(c: Config, x: Node, data: seq<u8>)
    requires Sound(c, x) && |data| > 0 && 0 < c.maxMsg && 2 * c.maxMsg <= c.cap
    ensures x.ep.Ok(c) && !Silent(c, x.ep, data)
  {
    SilentIff(c, x, data);
  }

  /** The shortest message longer than half the ring. */
  function HalfPlus(c: Config): nat { c.cap / 2 + 1 }

  /** The configurations under which some run parks silently. */
  predicate CanPark(c: Config) {
    && SEND_COPY_MAX_WRS <= c.maxOut
    && var len := if c.maxMsg == 0 then 0 else HalfPlus(c);
       len <= c.maxMsg && len <= IMM_MAX && len + c.threshold <= c.cap - 1
  }

  /** A silent park needs such a configuration. */
  lemma ParkNeeds(c: Config, x: Node, data: seq<u8>)
    requires Sound(c, x) && |data| > 0 && x.ep.Ok(c) && Silent(c, x.ep, data)
    ensures CanPark(c)
  {
    SilentIff(c, x, data);
    SoundFree(c, x);
  }

  lemma FirstGrant(cap: nat, l: nat)
    requires 0 < l < cap
    ensures Ring(cap, 0, 0).Reserve(l) == Some(Grant(Ring(cap, 0, l), 0, 0))
  {
    SmallMod(l, cap);
  }

  lemma FirstPost(c: Config, data: seq<u8>)
    requires c.Valid() && 0 < |data| < c.cap < 2 * |data|
    ensures var ep := ReadRing.Init(c); var l := |data|; var w := Data(0, 0, EncodeImm(0, l), l, data);
            PostMessage(c, ep, Grant(Ring(c.cap, 0, l), 0, 0), data) ==
              ep.(tx := Tx(Store(ep.tx.mem, 0, data), Ring(c.cap, 0, l), l, [w, HeadRead]),
                  readInFlight := true, inFlight := 1)
  {
    hide EncodeImm, Store;
    SmallMod(|data|, c.cap);
  }

  /** What the first send of a long message leaves behind. */
  lemma FirstSend(c: Config, data: seq<u8>)
    requires c.Valid() && CanPark(c) && c.maxMsg > 0 && |data| == HalfPlus(c)
    ensures var ep := ReadRing.Init(c); var l := |data|; var w := Data(0, 0, EncodeImm(0, l), l, data);
            && ep.Ok(c)
            && SendGather(c, ep, data).0 ==
                 ep.(tx := Tx(Store(ep.tx.mem, 0, data), Ring(c.cap, 0, l), l, [w, HeadRead]),
                     readInFlight := true, inFlight := 1)
  {
    var l := |data|;
    assert c.SendLen(l) == l && data[..l] == data;
    FirstGrant(c.cap, l);
    hide PostMessage, Ring.Reserve;
    FirstPost(c, data);
  }

  /** Some run within the window reaches `s`. */
  ghost predicate Reachable(c: Config, s: Sys)
    requires c.cap > 0
  {
    exists states, acts :: IsRun(c, states, acts) && states[|states| - 1] == s
  }

  lemma ReachableStart(c: Config)
    requires c.Valid()
    ensures Reachable(c, Start(c))
  {
    hide Start;
    assert IsRun(c, [Start(c)], []);
  }

  lemma ReachableStep(c: Config, s: Sys, act: Act, s': Sys)
    requires c.Valid() && Reachable(c, s) && SysNext(c, s, act, s') && ActWindowed(c, s, act)
    ensures Reachable(c, s') && Inv(c, s'.a, s'.b)
  {
    hide SysNext, ActWindowed, Start, Inv;
    var states, acts :| IsRun(c, states, acts) && states[|states| - 1] == s;
    var states', acts' := states + [s'], acts + [act];
    forall i | 0 <= i < |acts'|
      ensures SysNext(c, states'[i], acts'[i], states'[i + 1]) && ActWindowed(c, states'[i], acts'[i])
    {
      if i < |acts| {
        assert SysNext(c, states[i], acts[i], states[i + 1]);
      }
    }
    assert IsRun(c, states', acts');
    RunInv(c, states', acts', |states'| - 1);
  }

  lemma ReachableInv(c: Config, s: Sys)
    requires c.Valid() && Reachable(c, s)
    ensures Inv(c, s.a, s.b)
  {
    hide Inv, SysNext, ActWindowed, Start;
    var states, acts :| IsRun(c, states, acts) && states[|states| - 1] == s;
    RunInv(c, states, acts, |states| - 1);
  }

  /** The sender has posted one long message and a Read behind it. */
  ghost predicate SentOne(c: Config, s: Sys, data: seq<u8>) {
    && c.Valid() && Reachable(c, s)
    && s.a.ep.tx.log == [Data(0, 0, EncodeImm(0, |data|), |data|, data), HeadRead]
  }

  lemma SendOne(c: Config, data: seq<u8>) returns (s: Sys)
    requires c.Valid() && CanPark(c) && c.maxMsg > 0 && |data| == HalfPlus(c)
    ensures SentOne(c, s, data) && s.a.sdone == 0 && s.a.exec == 0 && s.b == Start(c).b
  {
    hide EncodeImm, Store, Inv;
    var s0 := Start(c);
    FirstSend(c, data);
    s := s0.(a := s0.a.(ep := SendGather(c, s0.a.ep, data).0));
    ReachableStart(c);
    hide SendGather, ReadRing.Init;
    ReachableStep(c, s0, Act(true, Send(data)), s);
  }

  lemma CarryOne(c: Config, s0: Sys, data: seq<u8>) returns (s: Sys)
    requires SentOne(c, s0, data) && s0.a.sdone == 0 && s0.a.exec == 0 && s0.b == Start(c).b
    ensures SentOne(c, s, data) && s.a == s0.a.(exec := 1)
    ensures s.b == s0.b.(ep := s0.b.ep.(rx := FreshRx(c.maxOut, s.b.ep.rx.mem)))
  {
    ReachableInv(c, s0);
    InvShaped(c, s0.a, s0.b);
    assert Placed(c.cap, c.Bound(), s0.a.ep.tx.log, 0);
    hide EncodeImm, Store, Inv, Reachable;
    var a, w := s0.a, s0.a.ep.tx.log[0];
    var mem := Land(s0.b.ep.rx.mem, w, a.ep.tx.mem[w.lo..w.lo + |w.msg|]);
    s := Sys(a.(exec := 1), s0.b.(ep := s0.b.ep.(rx := s0.b.ep.rx.(mem := mem))));
    ReachableStep(c, s0, Act(true, Execute), s);
  }

  /** The receiver reaps the message, hands it out and releases it. */
  lemma ReleaseOne(c: Config, s0: Sys, data: seq<u8>) returns (s: Sys)
    requires SentOne(c, s0, data) && s0.a.exec == 1 && c.maxOut >= 2 && |data| > 0
    requires s0.b == Start(c).b.(ep := ReadRing.Init(c).(rx := FreshRx(c.maxOut, s0.b.ep.rx.mem)))
    ensures SentOne(c, s, data) && s.a == s0.a && s.b.past.freed == 1
  {
    ReachableInv(c, s0);
    var w := s0.a.ep.tx.log[0];
    ReceiveOne(c.maxOut, s0.b.ep.rx.mem, |data|);
    ReapsPlacement(c, s0.b, s0.a);
    hide EncodeImm, Inv, Half, Reachable, ArriveData, HandedOut;
    var b1 := DataReaped(c, s0.b, w);
    var s1 := s0.(b := b1);
    ReachableStep(c, s0, Act(false, Step.RecvDone), s1);
    InvShaped(c, s1.a, s1.b);
    var s2 := s0.(b := Took(b1, 1));
    ReachableStep(c, s1, Act(false, Take(1)), s2);
    InvShaped(c, s2.a, s2.b);
    s := s0.(b := Reposted(c, s2.b, 0));
    ReachableStep(c, s2, Act(false, Step.Repost(0)), s);
  }

  lemma CarryRead(c: Config, s0: Sys, data: seq<u8>) returns (s: Sys)
    requires SentOne(c, s0, data) && s0.a.exec == 1 && s0.b.past.freed == 1
    ensures SentOne(c, s, data) && s.a.exec == 2 && s.a.sdone == s0.a.sdone
    ensures s.a.landed == HeadPos(c.cap, s.a.ep.tx.log, 1)
  {
    ReachableInv(c, s0);
    InvShaped(c, s0.a, s0.b);
    hide EncodeImm, Inv, Reachable, HeadPos;
    s := s0.(a := s0.a.(ep := s0.a.ep.(readBuf := s0.b.ep.published), exec := 2,
                        landed := HeadPos(c.cap, s0.a.ep.tx.log, 1)));
    ReachableStep(c, s0, Act(true, Execute), s);
  }

  /** Both completions reaped: nothing is outstanding and the cached head is fresh. */
  lemma ReapBoth(c: Config, s0: Sys, data: seq<u8>) returns (s: Sys)
    requires SentOne(c, s0, data) && s0.a.exec == 2 && s0.a.sdone == 0
    ensures SentOne(c, s, data) && s.a.sdone == s.a.exec == 2 && s.a.seen == s0.a.landed
  {
    ReachableInv(c, s0);
    InvShaped(c, s0.a, s0.b);
    hide EncodeImm, Inv, Reachable, HeadPos;
    var s1 := s0.(a := SentReaped(c, s0.a));
    ReachableStep(c, s0, Act(true, SendDone), s1);
    InvShaped(c, s1.a, s1.b);
    s := s0.(a := SentReaped(c, s1.a));
    ReachableStep(c, s1, Act(true, SendDone), s);
  }

  /** After one long message came and went, the next one parks its sender. */
  lemma ParksNext(c: Config, s: Sys, data: seq<u8>)
    requires SentOne(c, s, data) && CanPark(c) && c.maxMsg > 0 && |data| == HalfPlus(c)
    requires s.a.sdone == s.a.exec == 2 && s.a.seen == HeadPos(c.cap, s.a.ep.tx.log, 1)
    ensures s.a.ep.Ok(c) && Silent(c, s.a.ep, data)
  {
    ReachableInv(c, s);
    ReachableReached(c, s);
    ReachedSound(c, s);
    SilentIff(c, s.a, data);
    var log, l := s.a.ep.tx.log, |data|;
    FreedReach(c, s.a, s.b);
    FreeIs(c, s.a, s.b.past.freed);
    IdleFacts(c, s.a);
    IdleRing(c, s.a);
    hide EncodeImm, Inv, Reachable, Silent, Sound;
    HeadPosAt(c.cap, log, 1);
    assert Rank(Item, log, 1) == 1 && Pos(c.cap, log, 1) == l && Pos(c.cap, log, 2) == l;
    SmallMod(l, c.cap);
  }

  lemma IdleFacts(c: Config, x: Node)
    requires Sound(c, x) && x.sdone == |x.ep.tx.log|
    ensures x.ep.SqUsed() == 0 && Accounts(c.cap, x.ep.tx, x.sdone)
  {
  }

  /** A run within the window is a run. */
  lemma ReachableReached(c: Config, s: Sys)
    requires c.Valid() && Reachable(c, s)
    ensures Reached(c, s)
  {
    hide SysNext, ActWindowed, Start;
    var states, acts :| IsRun(c, states, acts) && states[|states| - 1] == s;
    assert AnyRun(c, states, acts);
  }

  lemma ParkRun(c: Config) returns (s: Sys, data: seq<u8>)
    requires c.Valid() && CanPark(c)
    ensures Reachable(c, s) && |data| > 0 && s.a.ep.Ok(c) && Silent(c, s.a.ep, data)
  {
    if c.maxMsg == 0 {
      s, data := Start(c), [0];
      ReachableStart(c);
    } else {
      data := seq(HalfPlus(c), _ => 0);
      hide Start, Reachable, Silent;
      var s1 := SendOne(c, data);
      var s2 := CarryOne(c, s1, data);
      var s3 := ReleaseOne(c, s2, data);
      var s4 := CarryRead(c, s3, data);
      s := ReapBoth(c, s4, data);
      ParksNext(c, s, data);
    }
  }

  /**
    * Silent parking by configuration: some run, whatever is reaped and whenever,
    * parks a sender silently if and only if the budget admits a send at all and a
    * message longer than half the ring can be sent; and then a run within the
    * window does. Limiting messages to half the ring rules it out.
    */
  lemma ParksIff(c: Config)
    requires c.Valid()
    ensures CanPark(c) <==>
            exists s, data :: Reached(c, s) && |data| > 0 && s.a.ep.Ok(c) && Silent(c, s.a.ep, data)
    ensures CanPark(c) <==>
            exists s, data :: Reachable(c, s) && |data| > 0 && s.a.ep.Ok(c) && Silent(c, s.a.ep, data)
    ensures 0 < c.maxMsg && 2 * c.maxMsg <= c.cap ==> !CanPark(c)
  {
    if CanPark(c) {
      var s, data := ParkRun(c);
      ReachableReached(c, s);
    }
    forall s, data | Reached(c, s) && |data| > 0 && s.a.ep.Ok(c) && Silent(c, s.a.ep, data)
      ensures CanPark(c)
    {
      hide *;
      ReachedSound(c, s);
      ParkNeeds(c, s.a, data);
    }
    forall s | Reachable(c, s)
      ensures Reached(c, s)
    {
      hide *;
      ReachableReached(c, s);
    }
  }
}
