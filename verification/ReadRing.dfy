/**
  * The operations of read_ring_transport.rs on the state of one endpoint. Posts
  * are taken to succeed: a failed post ends the connection.
  */
module ReadRing {
  import opened Modular
  import opened RingBuffers
  import opened TransportCommon
  import opened WorkLog
  import opened SendSide
  import opened RecvSide

  const SQ_HEADROOM: nat := 3
  const SEND_COPY_MAX_WRS: nat := 3
  const PADDING_WR_ID: nat := 0xFFFF_FFFF_FFFF_FFFF - 20
  const READ_WR_ID: nat := 0xFFFF_FFFF_FFFF_FFFF - 30

  /** What both peers agree on; `threshold` is `min_free_threshold`. */
  datatype Config = Config(cap: nat, maxMsg: nat, maxOut: nat, threshold: nat) {
    predicate Valid() {
      0 < cap <= 65536 && 0 < maxOut
    }

    function SqCapacity(): nat { maxOut + SQ_HEADROOM }

    function Bound(): nat
      requires cap > 0
    {
      MessageBound(cap, maxMsg)
    }

    function SendLen(total: nat): nat {
      Min(Min(Min(total, maxMsg), cap), IMM_MAX)
    }
  }

  /** The head of the receive ring as lengths are released in arrival order. */
  datatype Head = Head(lens: seq<nat>, slot: nat, offset: nat) {
    predicate Valid() { slot < |lens| }

    /** The loop of `advance_recv_head`. */
    function Advance(cap: nat, n: nat): (r: Head)
      requires cap > 0 && Valid()
      ensures r.Valid() && r.lens == lens
      decreases n
    {
      if n == 0 then this
      else Head(lens, (slot + 1) % |lens|, (offset + lens[slot]) % cap).Advance(cap, n - 1)
    }
  }

  datatype Ep = Ep(dead: bool, tx: Tx, rx: Rx, head: Head, published: nat,
                   cachedHead: nat, readBuf: nat, readInFlight: bool, inFlight: nat) {
    predicate Ok(c: Config) {
      && c.cap > 0 && |tx.mem| == tx.ring.capacity == c.cap && tx.ring.Valid()
      && ShapeOk(rx) && |rx.vmap| == c.maxOut && |rx.mem| == c.cap
      && head.Valid() && |head.lens| == c.maxOut
      && tx.remoteTail < c.cap
    }

    /** `sq_used`: data, padding and the offset Read. */
    function SqUsed(): nat { inFlight + if readInFlight then 1 else 0 }

    /** `remote_free_space`, in the wrapping arithmetic of a 64-bit release build. */
    function RemoteFree(cap: nat): nat {
      var used := if tx.remoteTail >= cachedHead then tx.remoteTail - cachedHead
                  else Wrap(Wrap(cap - cachedHead) + tx.remoteTail);
      SatSub(cap, Wrap(used + 1))
    }
  }

  lemma WrapSmall(n: nat)
    requires n < U64
    ensures Wrap(n) == n
  {
  }

  /** The free space a sender at absolute position `pos` computes from the head `seen`. */
  lemma FreeFrom(c: Config, ep: Ep, seen: nat, pos: nat)
    requires c.Valid() && ep.cachedHead == seen % c.cap && ep.tx.remoteTail == pos % c.cap && seen <= pos < seen + c.cap
    ensures ep.RemoteFree(c.cap) == c.cap - 1 - (pos - seen)
  {
    hide Wrap;
    Distance(seen, pos, c.cap);
    var head, tail := seen % c.cap, pos % c.cap;
    WrapSmall(pos - seen + 1);
    WrapSmall(c.cap - head);
    WrapSmall(c.cap - head + tail);
  }

  /** One byte of the peer's ring is never counted as free. */
  lemma FreeBelow(c: Config, ep: Ep)
    requires c.Valid() && ep.cachedHead < c.cap && ep.tx.remoteTail < c.cap
    ensures ep.RemoteFree(c.cap) < c.cap
  {
    var head, tail := ep.cachedHead, ep.tx.remoteTail;
    var pos := if tail >= head then tail else tail + c.cap;
    SmallMod(head, c.cap);
    SmallMod(tail, c.cap);
    AddMod(c.cap, tail, c.cap);
    hide Ep.RemoteFree;
    FreeFrom(c, ep, head, pos);
  }

  datatype SendResult = Accepted(n: nat) | Broken

  datatype Wc = Failed | WriteImm(imm: nat) | Unexpected

  function Init(c: Config): Ep
    requires c.cap > 0
  {
    Ep(false,
       Tx(seq(c.cap, _ => 0), Ring(c.cap, 0, 0), 0, []),
       Rx(seq(c.cap, _ => 0), seq(c.maxOut, _ => None), 0, 0, [],
          CompletionTrackers.Tracker(seq(c.maxOut, _ => false), 0)),
       Head(seq(c.maxOut, _ => 0), 0, 0), 0, 0, 0, false, 0)
  }

  /** Post the offset Read unless one is outstanding. */
  function PostRead(ep: Ep): Ep {
    if ep.readInFlight then ep
    else ep.(tx := ep.tx.(log := ep.tx.log + [HeadRead]), readInFlight := true)
  }

  /** Post a granted reservation, then the proactive Read when space runs low. */
  function PostMessage(c: Config, ep: Ep, g: Grant, msg: seq<u8>): Ep
    requires ep.Ok(c) && g.offset + |msg| <= c.cap
  {
    var ep' := ep.(tx := Post(c.cap, ep.tx, g, msg),
                   inFlight := ep.inFlight + if g.padding > 0 then 2 else 1);
    if ep'.RemoteFree(c.cap) < |msg| * 2 + c.threshold then PostRead(ep') else ep'
  }

  /** `send_gather` once the queue and the peer have room for `len` bytes. */
  function Place(c: Config, ep: Ep, data: seq<u8>, len: nat, free: nat): (Ep, SendResult)
    requires ep.Ok(c) && len <= |data|
  {
    match ep.tx.ring.Reserve(len)
    case None => (ep, Accepted(0))
    case Some(g) =>
      if g.padding > 0 && free < g.padding + len + c.threshold then
        (PostRead(ep.(tx := ep.tx.(ring := g.ring.Rollback(g.offset, g.padding)))), Accepted(0))
      else (PostMessage(c, ep, g, data[..len]), Accepted(len))
  }

  /** `send_gather` */
  function SendGather(c: Config, ep: Ep, data: seq<u8>): (r: (Ep, SendResult))
    requires ep.Ok(c)
    ensures r.1.Accepted? ==> r.1.n <= |data|
  {
    if ep.dead then (ep, Broken)
    else if |data| == 0 then (ep, Accepted(0))
    else if ep.SqUsed() + SEND_COPY_MAX_WRS > c.maxOut then (PostRead(ep), Accepted(0))
    else
      var free := ep.RemoteFree(c.cap);
      var len := c.SendLen(|data|);
      if free < len + c.threshold then (PostRead(ep), Accepted(0)) else Place(c, ep, data, len, free)
  }

  /** The work-request id under which an entry completes. */
  function WrId(w: Wr): nat {
    match w
    case Data(_, _, _, rel, _) => rel
    case Pad(_, _) => PADDING_WR_ID
    case HeadRead => READ_WR_ID
    case Credit(_, _) => PADDING_WR_ID
  }

  /** One successful completion of `poll_send_completion`. */
  function ReapSend(c: Config, ep: Ep, wrId: nat): Ep
    requires ep.Ok(c)
  {
    var left := if ep.inFlight > 0 then ep.inFlight - 1 else 0;
    if wrId == READ_WR_ID then ep.(cachedHead := ep.readBuf % U32, readInFlight := false)
    else if wrId == PADDING_WR_ID then ep.(inFlight := left)
    else if 0 < wrId <= c.cap then ep.(tx := ep.tx.(ring := ep.tx.ring.Release(wrId)), inFlight := left)
    else ep.(inFlight := left)
  }

  /** `advance_recv_head`, when something became contiguous. */
  function AdvanceHead(c: Config, ep: Ep, contiguous: nat): Ep
    requires ep.Ok(c)
  {
    if contiguous == 0 then ep
    else
      var h := ep.head.Advance(c.cap, contiguous);
      ep.(head := h, published := h.offset % U32)
  }

  /** Record the length of the message with the next arrival number. */
  function NoteLen(c: Config, ep: Ep, len: nat): Ep
    requires ep.Ok(c)
  {
    ep.(head := ep.head.(lens := ep.head.lens[ep.rx.arrivals % c.maxOut := len]))
  }

  function ReapPad(c: Config, ep: Ep, offset: nat): Ep
    requires ep.Ok(c) && offset < c.cap
  {
    var (rx, n) := ArrivePad(ep.rx);
    AdvanceHead(c, NoteLen(c, ep, c.cap - offset).(rx := rx), n)
  }

  function ReapData(c: Config, ep: Ep, offset: nat, length: nat): Ep
    requires ep.Ok(c)
  {
    match ArriveData(ep.rx, offset, length)
    case None => ep.(dead := true)
    case Some(rx) => NoteLen(c, ep, length).(rx := rx)
  }

  /** One completion of the `poll_recv` loop. */
  function ReapRecv(c: Config, ep: Ep, wc: Wc): Ep
    requires ep.Ok(c)
  {
    match wc
    case Failed => ep.(dead := true)
    case WriteImm(imm) =>
      var (offset, length) := DecodeImm(imm);
      if offset >= c.cap || (length > 0 && offset + length > c.cap) then ep.(dead := true)
      else if length == 0 then ReapPad(c, ep, offset)
      else ReapData(c, ep, offset, length)
    case Unexpected => ep
  }

  function RepostRecv(c: Config, ep: Ep, idx: nat): Ep
    requires ep.Ok(c) && idx < |ep.rx.vmap| && ep.rx.vmap[idx].Some?
  {
    var (rx, n) := Repost(ep.rx, idx);
    AdvanceHead(c, ep.(rx := rx), n)
  }
}
