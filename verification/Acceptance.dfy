/**
  * When `send_gather` of either ring accepts, and what it then posts, in absolute
  * positions: the staged bytes lie between `lo` and `hi`, a message goes directly
  * behind them or after a gap up to the end of the ring.
  */
module Acceptance {
  import opened RingBuffers
  import opened TransportCommon
  import opened WorkLog
  import opened SendSide
  import CR = CreditRing
  import CP = CreditProtocol
  import CT = CreditTransport
  import CC = CreditCalls
  import RR = ReadRing
  import RP = ReadProtocol
  import RS = ReadSender
  import RecvSide
  import opened Modular

  /** How much of what is presented one message takes. */
  function MessageLen(total: nat, maxMsg: nat, cap: nat): nat { Min(Min(Min(total, maxMsg), cap), IMM_MAX) }

  /** The gap before a message of `len` bytes: none if it fits directly, or up to the end of the ring. */
  ghost function GapFor(cap: nat, lo: nat, hi: nat, len: nat): nat
    requires cap > 0
  {
    if Fits(cap, lo, hi, len, 0) then 0 else cap - hi % cap
  }

  /** The requests that place `msg` at `hi + gap`, the gap announced first. */
  ghost function Requests(cap: nat, hi: nat, gap: nat, msg: seq<u8>): seq<Wr>
    requires cap > 0
  {
    var at := (hi + gap) % cap;
    (if gap > 0 then [Pad(hi % cap, EncodeImm(hi % cap, 0))] else [])
    + [Data(at, at, EncodeImm(at, |msg|), gap + |msg|, msg)]
  }

  ghost function Lo(tx: Tx, sdone: nat): nat
    requires sdone <= |tx.log|
  {
    Freed(tx.log, sdone)
  }

  ghost function Hi(cap: nat, tx: Tx): nat { Pos(cap, tx.log, |tx.log|) }

  /** A reservation is a placement behind what is staged. */
  lemma ReserveIs(cap: nat, tx: Tx, sdone: nat, len: nat)
    requires cap > 0 && Accounts(cap, tx, sdone)
    ensures var lo, hi := Lo(tx, sdone), Hi(cap, tx);
            && (tx.ring.Reserve(len).Some? <==>
                  0 < len && (Fits(cap, lo, hi, len, 0) || Fits(cap, lo, hi, len, cap - hi % cap)))
            && (tx.ring.Reserve(len).Some? ==>
                  var g := tx.ring.Reserve(len).value;
                  && g.padding == GapFor(cap, lo, hi, len) && g.offset == (hi + g.padding) % cap && g.offset + len <= cap
                  && g.ring.Valid() && g.ring.capacity == cap && (g.padding > 0 ==> g.offset == 0))
  {
    hide Freed, Pos;
    RingBuffers.ReserveRefines(tx.ring, Freed(tx.log, sdone), Pos(cap, tx.log, |tx.log|), len);
  }

  /** What a granted message appends. */
  lemma PostIs(cap: nat, tx: Tx, hi: nat, g: Grant, msg: seq<u8>)
    requires cap > 0 && g.offset + |msg| <= |tx.mem| && tx.remoteTail == hi % cap
    requires g.offset == (hi + g.padding) % cap && (g.padding > 0 ==> g.offset == 0)
    ensures Post(cap, tx, g, msg).log == tx.log + Requests(cap, hi, g.padding, msg)
  {
    hide EncodeImm, Store;
  }

  lemma PostTail(cap: nat, tx: Tx, g: Grant, msg: seq<u8>)
    requires cap > 0 && g.offset + |msg| <= |tx.mem|
    requires g.offset == if g.padding > 0 then 0 else tx.remoteTail
    ensures Post(cap, tx, g, msg).remoteTail == (g.offset + |msg|) % cap
  {
    hide EncodeImm, Store;
  }

  // ---------------------------------------------------------------------
  // The credit ring
  // ---------------------------------------------------------------------

  /**
    * A credit and room in the send queue for padding and message; and the message
    * fits directly, or after a gap with a second credit to pay for the padding.
    */
  ghost predicate CreditAdmits(c: CR.Config, ep: CR.Ep, lo: nat, hi: nat, len: nat)
    requires c.cap > 0
  {
    && 0 < len && ep.credits >= 1 && ep.inFlight + 2 <= c.SqCapacity()
    && (Fits(c.cap, lo, hi, len, 0) || (Fits(c.cap, lo, hi, len, c.cap - hi % c.cap) && ep.credits >= 2))
  }

  /** The answer to presenting `data`, and the endpoint afterwards. */
  ghost predicate CreditAnswer(c: CR.Config, x: CP.Node, data: seq<u8>, ep: CR.Ep, r: CR.SendResult)
    requires c.cap > 0 && x.sdone <= |x.ep.tx.log|
  {
    var lo, hi, len := Lo(x.ep.tx, x.sdone), Hi(c.cap, x.ep.tx), MessageLen(|data|, c.maxMsg, c.cap);
    if x.ep.dead then r.Broken? && ep == x.ep
    else if !CreditAdmits(c, x.ep, lo, hi, len) then r == CR.Accepted(0) && ep == x.ep
    else
      var gap := GapFor(c.cap, lo, hi, len);
      var wrs := if gap > 0 then 2 else 1;
      && r == CR.Accepted(len)
      && ep == x.ep.(tx := ep.tx, credits := x.ep.credits - wrs, inFlight := x.ep.inFlight + wrs)
      && ep.tx.log == x.ep.tx.log + Requests(c.cap, hi, gap, data[..len])
  }

  /** Exactly when the credit ring accepts, how much, and what it posts. */
  lemma CreditSendIff(c: CR.Config, x: CP.Node, data: seq<u8>)
    requires c.Valid() && x.ep.Ok(c) && Accounts(c.cap, x.ep.tx, x.sdone)
    ensures var (ep, r) := CR.SendGather(c, x.ep, data); CreditAnswer(c, x, data, ep, r)
  {
    hide Fits, Pos, Freed, Ring.Rollback, Post, Requests;
    var len := MessageLen(|data|, c.maxMsg, c.cap);
    ReserveIs(c.cap, x.ep.tx, x.sdone, len);
    GrantInBounds(x.ep.tx.ring, len);
    hide Ring.Reserve;
    if x.ep.tx.ring.Reserve(len).Some? {
      PostIs(c.cap, x.ep.tx, Hi(c.cap, x.ep.tx), x.ep.tx.ring.Reserve(len).value, data[..len]);
    }
  }

  /** The whole call: out of credits it first drains the updates that have arrived, then answers the same way. */
  lemma CreditCallIff(c: CR.Config, x: CP.Node, y: CP.Node, data: seq<u8>, wcs: seq<CR.Wc>, n: nat) returns (x1: CP.Node)
    requires CP.Inv(c, x, y) && CC.ReadyFor(x, y, wcs) && n <= |wcs| && data != []
    ensures x.ep.Ok(c) && c.cap > 0 && CP.Inv(c, x1, y) && x1.sdone <= |x1.ep.tx.log|
    ensures x1 == x.(ep := if x.ep.credits > 0 then x.ep else CT.DrainAll(c, x.ep, wcs, n), past := x1.past)
    ensures var (ep, r) := CT.SendCall(c, x.ep, data, wcs, n); CreditAnswer(c, x1, data, ep, r)
  {
    CP.InvShaped(c, x, y);
    CreditAlive(c, x, y);
    hide CP.Inv, CreditAnswer, CR.SendGather, CR.Admit, CC.ReadyFor, CT.DrainAll, CT.ReapAll;
    x1 := x;
    if x.ep.credits == 0 {
      x1 := CC.ReapAllKeeps(c, x, y, wcs, n);
      CC.AdmitIsSend(c, x1, y, data);
    }
    CP.InvShaped(c, x1, y);
    CreditAlive(c, x1, y);
    CreditSendIff(c, x1, data);
  }

  lemma CreditAlive(c: CR.Config, x: CP.Node, y: CP.Node)
    requires CP.Inv(c, x, y)
    ensures c.Valid() && !x.ep.dead && Accounts(c.cap, x.ep.tx, x.sdone)
  {
  }

  // ---------------------------------------------------------------------
  // The read ring
  // ---------------------------------------------------------------------

  /** How far the sender's tail is ahead of the cached head, around the ring. */
  ghost function Ahead(cap: nat, ep: RR.Ep): (n: nat)
    requires ep.cachedHead < cap && ep.tx.remoteTail < cap
    ensures n < cap
  {
    if ep.cachedHead <= ep.tx.remoteTail then ep.tx.remoteTail - ep.cachedHead
    else ep.tx.remoteTail + cap - ep.cachedHead
  }

  /** What the sender takes to be free in the peer's ring: all but that, and one byte. */
  ghost function FreeAt(cap: nat, ep: RR.Ep): nat
    requires ep.cachedHead < cap && ep.tx.remoteTail < cap
  {
    cap - 1 - Ahead(cap, ep)
  }

  /** The message budget and the peer's ring have room. */
  ghost predicate HasRoom(c: RR.Config, ep: RR.Ep, free: nat, len: nat) {
    ep.SqUsed() + RR.SEND_COPY_MAX_WRS <= c.maxOut && len + c.threshold <= free
  }

  /** And the message fits directly, or after a gap that leaves the threshold free as well. */
  ghost predicate ReadAdmits(c: RR.Config, ep: RR.Ep, free: nat, lo: nat, hi: nat, len: nat)
    requires c.cap > 0
  {
    var gap := c.cap - hi % c.cap;
    && 0 < len && HasRoom(c, ep, free, len)
    && (Fits(c.cap, lo, hi, len, 0) || (Fits(c.cap, lo, hi, len, gap) && gap + len + c.threshold <= free))
  }

  /** A refusal asks for the peer's head again, unless the staging ring alone is in the way. */
  ghost predicate Asks(c: RR.Config, ep: RR.Ep, free: nat, lo: nat, hi: nat, len: nat)
    requires c.cap > 0
  {
    !HasRoom(c, ep, free, len) || (0 < len && Fits(c.cap, lo, hi, len, c.cap - hi % c.cap))
  }

  /** One Read more, unless one is outstanding. */
  ghost function WithRead(log: seq<Wr>, outstanding: bool, wanted: bool): seq<Wr> {
    log + if wanted && !outstanding then [HeadRead] else []
  }

  ghost predicate ReadAnswer(c: RR.Config, x: RP.Node, data: seq<u8>, ep: RR.Ep, r: RR.SendResult)
    requires x.ep.cachedHead < c.cap && x.ep.tx.remoteTail < c.cap && x.sdone <= |x.ep.tx.log|
  {
    var lo, hi, len := Lo(x.ep.tx, x.sdone), Hi(c.cap, x.ep.tx), MessageLen(|data|, c.maxMsg, c.cap);
    var free := FreeAt(c.cap, x.ep);
    if x.ep.dead then r.Broken? && ep == x.ep
    else if !ReadAdmits(c, x.ep, free, lo, hi, len) then
      var asks := Asks(c, x.ep, free, lo, hi, len);
      && r == RR.Accepted(0)
      && ep == x.ep.(tx := x.ep.tx.(log := WithRead(x.ep.tx.log, x.ep.readInFlight, asks)),
                     readInFlight := x.ep.readInFlight || asks)
    else
      var gap := GapFor(c.cap, lo, hi, len);
      // space running low
      var low := free < gap + len + 2 * len + c.threshold;
      && r == RR.Accepted(len)
      && ep == x.ep.(tx := ep.tx, inFlight := x.ep.inFlight + (if gap > 0 then 2 else 1),
                     readInFlight := x.ep.readInFlight || low)
      && ep.tx.log == WithRead(x.ep.tx.log + Requests(c.cap, hi, gap, data[..len]), x.ep.readInFlight, low)
  }

  /** Exactly when the read ring accepts, how much, what it posts, and when it asks for the head. */
  lemma ReadSendIff(c: RR.Config, x: RP.Node, data: seq<u8>)
    requires RS.Sound(c, x) && data != []
    ensures x.ep.Ok(c) && x.sdone <= |x.ep.tx.log| && x.ep.cachedHead < c.cap && x.ep.tx.remoteTail < c.cap
    ensures var (ep, r) := RR.SendGather(c, x.ep, data); ReadAnswer(c, x, data, ep, r)
  {
    SoundParts(c, x);
    hide RS.Sound, Fits, Pos, Freed, Requests, RR.Ep.RemoteFree, RR.Place, GapFor, Ahead;
    FreeIs(c, x.ep);
    Same(x.ep.tx.log);
    if !x.ep.dead && HasRoom(c, x.ep, FreeAt(c.cap, x.ep), MessageLen(|data|, c.maxMsg, c.cap)) {
      ReadPlaceIff(c, x, data);
    }
  }

  /** The same once the budget and the peer's ring have room: what remains is the place in the staging ring. */
  lemma ReadPlaceIff(c: RR.Config, x: RP.Node, data: seq<u8>)
    requires RS.Sound(c, x) && data != [] && !x.ep.dead && x.ep.cachedHead < c.cap && x.ep.tx.remoteTail < c.cap
    requires HasRoom(c, x.ep, FreeAt(c.cap, x.ep), MessageLen(|data|, c.maxMsg, c.cap))
    ensures x.ep.Ok(c) && x.sdone <= |x.ep.tx.log|
    ensures var (ep, r) := RR.Place(c, x.ep, data, MessageLen(|data|, c.maxMsg, c.cap), FreeAt(c.cap, x.ep));
            ReadAnswer(c, x, data, ep, r)
  {
    hide *;
    SoundParts(c, x);
    if ReadAdmits(c, x.ep, FreeAt(c.cap, x.ep), Lo(x.ep.tx, x.sdone), Hi(c.cap, x.ep.tx), MessageLen(|data|, c.maxMsg, c.cap)) {
      ReadPlaces(c, x, data);
    } else {
      ReadRefuses(c, x, data);
    }
  }

  /** The message has a place. */
  lemma ReadPlaces(c: RR.Config, x: RP.Node, data: seq<u8>)
    requires RS.Sound(c, x) && data != [] && !x.ep.dead && x.ep.cachedHead < c.cap && x.ep.tx.remoteTail < c.cap
    requires HasRoom(c, x.ep, FreeAt(c.cap, x.ep), MessageLen(|data|, c.maxMsg, c.cap))
    requires x.sdone <= |x.ep.tx.log|
    requires ReadAdmits(c, x.ep, FreeAt(c.cap, x.ep), Lo(x.ep.tx, x.sdone), Hi(c.cap, x.ep.tx),
                        MessageLen(|data|, c.maxMsg, c.cap))
    ensures x.ep.Ok(c) && x.sdone <= |x.ep.tx.log|
    ensures var (ep, r) := RR.Place(c, x.ep, data, MessageLen(|data|, c.maxMsg, c.cap), FreeAt(c.cap, x.ep));
            ReadAnswer(c, x, data, ep, r)
  {
    SoundParts(c, x);
    hide RS.Sound, Fits, Pos, Freed, Ring.Rollback, Requests, RR.Ep.RemoteFree, RR.PostMessage, FreeAt;
    var len, hi := MessageLen(|data|, c.maxMsg, c.cap), Hi(c.cap, x.ep.tx);
    ReserveIs(c.cap, x.ep.tx, x.sdone, len);
    GrantInBounds(x.ep.tx.ring, len);
    hide Ring.Reserve;
    MessageIs(c, x, x.ep.tx.ring.Reserve(len).value, data[..len]);
  }

  /** It has none. */
  lemma ReadRefuses(c: RR.Config, x: RP.Node, data: seq<u8>)
    requires RS.Sound(c, x) && data != [] && !x.ep.dead && x.ep.cachedHead < c.cap && x.ep.tx.remoteTail < c.cap
    requires HasRoom(c, x.ep, FreeAt(c.cap, x.ep), MessageLen(|data|, c.maxMsg, c.cap))
    requires x.sdone <= |x.ep.tx.log|
    requires !ReadAdmits(c, x.ep, FreeAt(c.cap, x.ep), Lo(x.ep.tx, x.sdone), Hi(c.cap, x.ep.tx),
                        MessageLen(|data|, c.maxMsg, c.cap))
    ensures x.ep.Ok(c) && x.sdone <= |x.ep.tx.log|
    ensures var (ep, r) := RR.Place(c, x.ep, data, MessageLen(|data|, c.maxMsg, c.cap), FreeAt(c.cap, x.ep));
            ReadAnswer(c, x, data, ep, r)
  {
    SoundParts(c, x);
    hide RS.Sound, Fits, Pos, Freed, Ring.Rollback, Requests, RR.Ep.RemoteFree, RR.PostMessage, FreeAt;
    var len, hi := MessageLen(|data|, c.maxMsg, c.cap), Hi(c.cap, x.ep.tx);
    ReserveIs(c.cap, x.ep.tx, x.sdone, len);
    GrantInBounds(x.ep.tx.ring, len);
    hide Ring.Reserve;
    Same(x.ep.tx.log);
  }

  /** The computation in wrapping arithmetic comes to that. */
  lemma FreeIs(c: RR.Config, ep: RR.Ep)
    requires c.Valid() && ep.cachedHead < c.cap && ep.tx.remoteTail < c.cap
    ensures ep.RemoteFree(c.cap) == FreeAt(c.cap, ep)
    ensures ep.tx.remoteTail == (ep.cachedHead + Ahead(c.cap, ep)) % c.cap
  {
    var head, tail := ep.cachedHead, ep.tx.remoteTail;
    SmallMod(head, c.cap);
    SmallMod(tail, c.cap);
    AddMod(c.cap, tail, c.cap);
    hide RR.Ep.RemoteFree;
    RR.FreeFrom(c, ep, head, head + Ahead(c.cap, ep));
  }

  lemma Same(log: seq<Wr>)
    ensures log + [] == log
  {
  }

  lemma SoundParts(c: RR.Config, x: RP.Node)
    requires RS.Sound(c, x)
    ensures c.Valid() && x.ep.Ok(c) && Accounts(c.cap, x.ep.tx, x.sdone) && x.sdone <= |x.ep.tx.log|
    ensures x.ep.cachedHead < c.cap && x.ep.tx.remoteTail < c.cap
  {
  }

  /** A granted message and the Read behind it. */
  lemma MessageIs(c: RR.Config, x: RP.Node, g: Grant, msg: seq<u8>)
    requires c.Valid() && x.ep.Ok(c) && x.ep.cachedHead < c.cap && x.ep.tx.remoteTail < c.cap
    requires x.ep.tx.remoteTail == Hi(c.cap, x.ep.tx) % c.cap
    requires g.offset == (Hi(c.cap, x.ep.tx) + g.padding) % c.cap && g.offset + |msg| <= c.cap
    requires g.padding > 0 ==> g.offset == 0
    requires g.padding + |msg| <= FreeAt(c.cap, x.ep)
    ensures var hi, ep := Hi(c.cap, x.ep.tx), RR.PostMessage(c, x.ep, g, msg);
            var low := FreeAt(c.cap, x.ep) < g.padding + |msg| + 2 * |msg| + c.threshold;
            && ep == x.ep.(tx := ep.tx, inFlight := x.ep.inFlight + (if g.padding > 0 then 2 else 1),
                           readInFlight := x.ep.readInFlight || low)
            && ep.tx.log == WithRead(x.ep.tx.log + Requests(c.cap, hi, g.padding, msg), x.ep.readInFlight, low)
  {
    hide *;
    OkSizes(c, x.ep);
    var hi, gone := Hi(c.cap, x.ep.tx), g.padding + |msg|;
    FreeIs(c, x.ep);
    AheadFree(c.cap, x.ep);
    TailAt(hi, g.padding, g.offset, |msg|, x.ep.cachedHead, Ahead(c.cap, x.ep), c.cap);
    PostIs(c.cap, x.ep.tx, hi, g, msg);
    PostTail(c.cap, x.ep.tx, g, msg);
    var ep' := x.ep.(tx := Post(c.cap, x.ep.tx, g, msg), inFlight := x.ep.inFlight + if g.padding > 0 then 2 else 1);
    SmallMod(x.ep.cachedHead, c.cap);
    RR.FreeFrom(c, ep', x.ep.cachedHead, x.ep.cachedHead + Ahead(c.cap, x.ep) + gone);
    PostMessageIs(c, x.ep, g, msg);
  }

  lemma AheadFree(cap: nat, ep: RR.Ep)
    requires ep.cachedHead < cap && ep.tx.remoteTail < cap
    ensures FreeAt(cap, ep) == cap - 1 - Ahead(cap, ep)
  {
  }

  lemma OkSizes(c: RR.Config, ep: RR.Ep)
    requires c.Valid() && ep.Ok(c)
    ensures c.cap > 0 && |ep.tx.mem| == c.cap
  {
  }

  /** Where the tail stands behind a message at `offset`, seen from the cached head. */
  lemma TailAt(hi: nat, padding: nat, offset: nat, len: nat, head: nat, ahead: nat, cap: nat)
    requires cap > 0 && offset == (hi + padding) % cap && (padding > 0 ==> offset == 0)
    requires hi % cap == (head + ahead) % cap
    ensures (offset + len) % cap == (head + ahead + (padding + len)) % cap
    ensures offset == if padding > 0 then 0 else hi % cap
  {
    OnFrom(hi + padding, offset, len, cap, hi + (padding + len));
    SameRemainder(hi, head + ahead, padding + len, cap);
  }

  lemma OnFrom(a: nat, offset: nat, len: nat, cap: nat, b: nat)
    requires cap > 0 && offset == a % cap && b == a + len
    ensures (offset + len) % cap == b % cap
  {
    AddMod(a, len, cap);
  }

  lemma SameRemainder(a: nat, b: nat, d: nat, cap: nat)
    requires cap > 0 && a % cap == b % cap
    ensures (a + d) % cap == (b + d) % cap
  {
    AddMod(a, d, cap);
    AddMod(b, d, cap);
  }

  lemma PostMessageIs(c: RR.Config, ep: RR.Ep, g: Grant, msg: seq<u8>)
    requires ep.Ok(c) && c.cap > 0 && |ep.tx.mem| == c.cap && g.offset + |msg| <= c.cap
    ensures var ep' := ep.(tx := Post(c.cap, ep.tx, g, msg), inFlight := ep.inFlight + if g.padding > 0 then 2 else 1);
            var low := ep'.RemoteFree(c.cap) < |msg| * 2 + c.threshold;
            var r := RR.PostMessage(c, ep, g, msg);
            && r == ep'.(tx := r.tx, readInFlight := ep.readInFlight || low)
            && r.tx.log == WithRead(ep'.tx.log, ep.readInFlight, low)
  {
    hide Post, RR.Ep.RemoteFree, RR.Ep.Ok;
    Same(Post(c.cap, ep.tx, g, msg).log);
  }

  /**
    * In absolute positions, in every state of the two-endpoint invariant: the free
    * space is what lies between the tail and the head the sender has seen, a lap on.
    */
  lemma FreeFromSeen(c: RR.Config, x: RP.Node, y: RP.Node)
    requires RP.Inv(c, x, y)
    ensures x.ep.cachedHead < c.cap && x.ep.tx.remoteTail < c.cap
    ensures x.seen <= Hi(c.cap, x.ep.tx) < x.seen + c.cap
    ensures FreeAt(c.cap, x.ep) == c.cap - 1 - (Hi(c.cap, x.ep.tx) - x.seen)
  {
    RP.FreedReach(c, x, y);
    hide RecvSide.RxInv, RP.Lengths, RP.HeadTrue, HeadPos, Pos, FreeAt, RR.Ep.RemoteFree;
    FreeIs(c, x.ep);
    RR.FreeFrom(c, x.ep, x.seen, Hi(c.cap, x.ep.tx));
  }
}
