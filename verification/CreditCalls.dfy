/**
  * Whole calls of `CreditRingTransport` as runs of protocol steps: what the
  * methods do to an endpoint keeps the two-endpoint invariant.
  */
module CreditCalls {
  import opened RingBuffers
  import opened CreditRing
  import opened CreditProtocol
  import opened CreditTransport
  import opened RecvSide
  import opened SendSide
  import opened TransportCommon

  /** `wcs` are the next completions of the connection for `x`. */
  ghost predicate ReadyFor(x: Node, y: Node, wcs: seq<Wc>) {
    && x.past.rdone + |wcs| <= y.exec <= |y.ep.tx.log|
    && forall i :: 0 <= i < |wcs| ==> wcs[i] == Arrives(y.ep.tx.log[x.past.rdone + i])
  }

  /** `sent` are the next send completions of `x`. */
  ghost predicate SentBy(x: Node, sent: seq<SendWc>) {
    && x.sdone + |sent| <= x.exec <= |x.ep.tx.log|
    && forall i :: 0 <= i < |sent| ==> sent[i] == SendOk(WrId(x.ep.tx.log[x.sdone + i]))
  }

  /** Reaping any number of completions, by the reader or by the inline drain. */
  lemma {:induction false} ReapAllKeeps(c: Config, x: Node, y: Node, wcs: seq<Wc>, n: nat) returns (x': Node)
    requires Inv(c, x, y) && ReadyFor(x, y, wcs) && n <= |wcs|
    ensures x.ep.Ok(c) && DrainAll(c, x.ep, wcs, n) == ReapAll(c, x.ep, wcs, n)
    ensures x' == x.(ep := ReapAll(c, x.ep, wcs, n), past := x'.past)
    ensures x'.past.rdone == x.past.rdone + n && Inv(c, x', y)
  {
    hide Inv, ReapRecv, DrainRecv;
    InvShaped(c, x, y);
    if n == 0 {
      x' := x;
    } else {
      var x1 := ReapAllKeeps(c, x, y, wcs, n - 1);
      var w := y.ep.tx.log[x1.past.rdone];
      InvShaped(c, x1, y);
      RecvKeeps(c, x1, y);
      x' := x1.(ep := ReapRecv(c, x1.ep, Arrives(w)), past := PastReap(x1, w));
    }
  }

  lemma {:induction false} ReapSendsKeeps(c: Config, x: Node, y: Node, sent: seq<SendWc>, n: nat)
    requires Inv(c, x, y) && SentBy(x, sent) && n <= |sent|
    ensures x.ep.Ok(c) && Inv(c, x.(ep := ReapSends(c, x.ep, sent, n), sdone := x.sdone + n), y)
    ensures ReapSends(c, x.ep, sent, n).tx.log == x.ep.tx.log
  {
    hide Inv, WrId;
    InvShaped(c, x, y);
    if n > 0 {
      ReapSendsKeeps(c, x, y, sent, n - 1);
      var x1 := x.(ep := ReapSends(c, x.ep, sent, n - 1), sdone := x.sdone + n - 1);
      SendDoneKeeps(c, x1, y);
    }
  }

  /** `send_gather`, with the inline drain it makes when out of credits. */
  lemma SendCallKeeps(c: Config, x: Node, y: Node, data: seq<u8>, wcs: seq<Wc>, n: nat) returns (x': Node)
    requires Inv(c, x, y) && ReadyFor(x, y, wcs) && n <= |wcs|
    ensures x.ep.Ok(c) && x' == x.(ep := SendCall(c, x.ep, data, wcs, n).0, past := x'.past)
    ensures Inv(c, x', y)
  {
    InvShaped(c, x, y);
    if x.ep.dead || |data| == 0 || x.ep.credits > 0 {
      SendKeeps(c, x, y, data);
      x' := x.(ep := CreditRing.SendGather(c, x.ep, data).0);
    } else {
      var x1 := ReapAllKeeps(c, x, y, wcs, n);
      AdmitIsSend(c, x1, y, data);
      SendKeeps(c, x1, y, data);
      x' := x1.(ep := CreditRing.SendGather(c, x1.ep, data).0);
    }
  }

  lemma AdmitIsSend(c: Config, x: Node, y: Node, data: seq<u8>)
    requires Inv(c, x, y) && |data| > 0
    ensures Admit(c, x.ep, data) == CreditRing.SendGather(c, x.ep, data)
  {
    assert !x.ep.dead;
  }

  /** `poll_recv` up to the completions it returns, which are then taken off the queue. */
  lemma PollCallKeeps(c: Config, x: Node, y: Node, room: nat, sent: seq<SendWc>, s: nat, wcs: seq<Wc>, n: nat)
    returns (x': Node)
    requires Inv(c, x, y) && SentBy(x, sent) && s <= |sent| && ReadyFor(x, y, wcs) && n <= |wcs|
    ensures x.ep.Ok(c)
    ensures x' == x.(ep := PollCall(c, x.ep, room, sent, s, wcs, n), sdone := x'.sdone, past := x'.past)
    ensures Inv(c, x', y)
  {
    hide Inv, SentBy, ReapAll, ReapSends, ReadyFor, FailedAt, CreditRing.FlushCredits;
    InvShaped(c, x, y);
    if room <= |x.ep.rx.stash| {
      x' := x;
    } else {
      NoneFailed(x, sent, s);
      ReapSendsKeeps(c, x, y, sent, s);
      var x1 := x.(ep := ReapSends(c, x.ep, sent, s), sdone := x.sdone + s);
      FlushKeeps(c, x1, y);
      var x2 := x1.(ep := CreditRing.FlushCredits(c, x1.ep));
      StillReady(x, x2, y, wcs);
      x' := ReapAllKeeps(c, x2, y, wcs, n);
    }
  }

  lemma NoneFailed(x: Node, sent: seq<SendWc>, s: nat)
    requires SentBy(x, sent) && s <= |sent|
    ensures !FailedAt(sent, s)
  {
  }

  lemma StillReady(x: Node, x': Node, y: Node, wcs: seq<Wc>)
    requires ReadyFor(x, y, wcs) && x'.past == x.past
    ensures ReadyFor(x', y, wcs)
  {
  }

  // ---------------------------------------------------------------------
  // Credits are announced as soon as they can be
  // ---------------------------------------------------------------------

  /** Every freed credit has been announced, or the send queue has no room for the update. */
  predicate Announced(c: Config, ep: Ep) {
    ep.localFreed <= ep.creditsSent || ep.inFlight >= c.SqCapacity()
  }

  lemma FlushAnnounces(c: Config, ep: Ep)
    ensures Announced(c, CreditRing.FlushCredits(c, ep))
  {
  }

  lemma ReapAnnounces(c: Config, ep: Ep, wc: Wc)
    requires ep.Ok(c) && Announced(c, ep)
    ensures Announced(c, ReapRecv(c, ep, wc)) && Announced(c, DrainRecv(c, ep, wc))
  {
    hide ArriveData, ArrivePad, CreditRing.FlushCredits;
    if wc.WriteImm? && DecodeImm(wc.imm).1 == 0 {
      var (rx, n) := ArrivePad(ep.rx);
      FlushAnnounces(c, ep.(rx := rx).(localFreed := ep.localFreed + n));
    }
  }

  lemma {:induction false} ReapAllAnnounces(c: Config, ep: Ep, wcs: seq<Wc>, n: nat)
    requires ep.Ok(c) && Announced(c, ep) && n <= |wcs|
    ensures Announced(c, ReapAll(c, ep, wcs, n)) && Announced(c, DrainAll(c, ep, wcs, n))
  {
    hide ReapRecv, DrainRecv, Announced;
    if n > 0 {
      ReapAllAnnounces(c, ep, wcs, n - 1);
      ReapAnnounces(c, ReapAll(c, ep, wcs, n - 1), wcs[n - 1]);
      ReapAnnounces(c, DrainAll(c, ep, wcs, n - 1), wcs[n - 1]);
    }
  }

  lemma SendAnnounces(c: Config, ep: Ep, data: seq<u8>)
    requires ep.Ok(c) && Announced(c, ep)
    ensures Announced(c, CreditRing.SendGather(c, ep, data).0) && Announced(c, Admit(c, ep, data).0)
  {
    hide Ring.Reserve, Post;
  }

  /**
    * Every call leaves the credits announced: those that reap send completions, and
    * so make room, flush before they return, unless a completion failed.
    */
  lemma CallsAnnounce(c: Config, ep: Ep, data: seq<u8>, wcs: seq<Wc>, n: nat, idx: nat)
    requires ep.Ok(c) && Announced(c, ep) && n <= |wcs|
    ensures Announced(c, SendCall(c, ep, data, wcs, n).0)
    ensures idx < |ep.rx.vmap| && ep.rx.vmap[idx].Some? ==> Announced(c, CreditRing.RepostRecv(c, ep, idx))
  {
    hide ReapRecv, DrainRecv, DrainAll, ReapAll, CreditRing.SendGather, Admit, CreditRing.FlushCredits;
    SendAnnounces(c, ep, data);
    ReapAllAnnounces(c, ep, wcs, n);
    SendAnnounces(c, DrainAll(c, ep, wcs, n), data);
    if idx < |ep.rx.vmap| && ep.rx.vmap[idx].Some? {
      var (rx, k) := RecvSide.Repost(ep.rx, idx);
      FlushAnnounces(c, ep.(rx := rx).(localFreed := ep.localFreed + k));
    }
  }

  lemma PollsAnnounce(c: Config, ep: Ep, room: nat, sent: seq<SendWc>, s: nat, wcs: seq<Wc>, n: nat)
    requires ep.Ok(c) && s <= |sent| && n <= |wcs| && !FailedAt(sent, s)
    ensures Announced(c, CreditRing.FlushCredits(c, ReapSends(c, ep, sent, s)))
    ensures room > |ep.rx.stash| || Announced(c, ep) ==> Announced(c, PollCall(c, ep, room, sent, s, wcs, n))
  {
    hide ReapAll, ReapSends, FailedAt, Announced;
    FlushAnnounces(c, ReapSends(c, ep, sent, s));
    ReapAllAnnounces(c, CreditRing.FlushCredits(c, ReapSends(c, ep, sent, s)), wcs, n);
  }
}
