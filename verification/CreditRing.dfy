/**
  * The operations of credit_ring_transport.rs on the state of one endpoint.
  * Posts are taken to succeed: a failed post ends the connection.
  */
module CreditRing {
  import opened RingBuffers
  import opened TransportCommon
  import opened WorkLog
  import opened SendSide
  import opened RecvSide

  const SQ_HEADROOM: nat := 2
  const CREDIT_FLAG: nat := 0x8000_0000_0000_0000
  const PADDING_WR_ID: nat := 0xFFFF_FFFF_FFFF_FFFF - 20

  /** What both peers agree on. */
  datatype Config = Config(cap: nat, maxMsg: nat, maxOut: nat) {
    predicate Valid() {
      0 < cap <= 65536 && 0 < maxOut < U32
    }

    function SqCapacity(): nat { maxOut + SQ_HEADROOM }

    function Bound(): nat
      requires cap > 0
    {
      MessageBound(cap, maxMsg)
    }

    /** That many messages of the largest size fit the ring together. */
    predicate RingFitsBudget()
      requires cap > 0
    {
      maxOut * Bound() <= cap
    }
  }

  datatype Ep = Ep(dead: bool, tx: Tx, rx: Rx, credits: nat, freedReceived: nat,
                   localFreed: nat, creditsSent: nat, inFlight: nat) {
    predicate Ok(c: Config) {
      && c.cap > 0 && |tx.mem| == tx.ring.capacity == c.cap && tx.ring.Valid()
      && ShapeOk(rx) && |rx.vmap| == c.maxOut && |rx.mem| == c.cap
    }
  }

  datatype SendResult = Accepted(n: nat) | Broken

  /** A receive-queue completion as the transport classifies it. */
  datatype Wc = Failed | WriteImm(imm: nat) | CreditImm(imm: nat) | PlainRecv | Unexpected

  function Init(c: Config): Ep
    requires c.cap > 0
  {
    Ep(false,
       Tx(seq(c.cap, _ => 0), Ring(c.cap, 0, 0), 0, []),
       Rx(seq(c.cap, _ => 0), seq(c.maxOut, _ => None), 0, 0, [],
          CompletionTrackers.Tracker(seq(c.maxOut, _ => false), 0)),
       c.maxOut, 0, 0, 0, 0)
  }

  /** An absolute count in the 32-bit wire format. */
  function Wire(n: nat): nat { n % U32 }

  function FlushCredits(c: Config, ep: Ep): Ep {
    if ep.localFreed > ep.creditsSent && ep.inFlight < c.SqCapacity() then
      ep.(tx := ep.tx.(log := ep.tx.log + [Credit(Wire(ep.localFreed), ep.localFreed)]),
          creditsSent := ep.localFreed,
          inFlight := ep.inFlight + 1)
    else ep
  }

  /** Contiguous releases become freed credits, and an update if one can be posted. */
  function AddFreed(c: Config, ep: Ep, contiguous: nat): Ep {
    if contiguous > 0 then FlushCredits(c, ep.(localFreed := ep.localFreed + contiguous)) else ep
  }

  function SendLen(c: Config, total: nat): nat {
    Min(Min(Min(total, c.maxMsg), c.cap), IMM_MAX)
  }

  /** The part of `send_gather` after the inline credit drain. */
  function Admit(c: Config, ep: Ep, data: seq<u8>): (r: (Ep, SendResult))
    requires ep.Ok(c)
    ensures r.1.Accepted? && r.1.n <= |data|
  {
    if ep.credits == 0 || ep.inFlight + 2 > c.SqCapacity() then (ep, Accepted(0))
    else
      var len := SendLen(c, |data|);
      match ep.tx.ring.Reserve(len)
      case None => (ep, Accepted(0))
      case Some(g) =>
        if g.padding > 0 && ep.credits < 2 then
          (ep.(tx := ep.tx.(ring := g.ring.Rollback(g.offset, g.padding))), Accepted(0))
        else
          var wrs := if g.padding > 0 then 2 else 1;
          (ep.(tx := Post(c.cap, ep.tx, g, data[..len]),
               credits := ep.credits - wrs,
               inFlight := ep.inFlight + wrs),
           Accepted(len))
  }

  /** `send_gather` when the inline drain finds nothing, or is not needed. */
  function SendGather(c: Config, ep: Ep, data: seq<u8>): (r: (Ep, SendResult))
    requires ep.Ok(c)
    ensures r.1.Accepted? ==> r.1.n <= |data|
  {
    if ep.dead then (ep, Broken)
    else if |data| == 0 then (ep, Accepted(0))
    else Admit(c, ep, data)
  }

  /** The work-request id under which an entry completes. */
  function WrId(w: Wr): nat {
    match w
    case Data(_, _, _, rel, _) => rel
    case Pad(_, _) => PADDING_WR_ID
    case Credit(_, total) => CREDIT_FLAG + total % CREDIT_FLAG
    case HeadRead => CREDIT_FLAG
  }

  /** One successful completion of `process_send_completions`. */
  function ReapSend(c: Config, ep: Ep, wrId: nat): Ep
    requires ep.Ok(c)
  {
    var ring :=
      if wrId / CREDIT_FLAG % 2 == 1 then ep.tx.ring
      else if wrId == PADDING_WR_ID then ep.tx.ring
      else if 0 < wrId <= c.cap then ep.tx.ring.Release(wrId)
      else ep.tx.ring;
    ep.(tx := ep.tx.(ring := ring), inFlight := if ep.inFlight > 0 then ep.inFlight - 1 else 0)
  }

  /** A credit update: 32-bit difference of absolute counts, accepted when plausible. */
  function ApplyCredit(c: Config, ep: Ep, imm: nat): Ep {
    var delta := (Wire(imm) + U32 - Wire(ep.freedReceived)) % U32;
    if 0 < delta <= c.maxOut then ep.(credits := ep.credits + delta, freedReceived := imm) else ep
  }

  function ReapPad(c: Config, ep: Ep): Ep
    requires ep.Ok(c)
  {
    var (rx, n) := ArrivePad(ep.rx);
    AddFreed(c, ep.(rx := rx), n)
  }

  /** One completion of the `poll_recv` loop. */
  function ReapRecv(c: Config, ep: Ep, wc: Wc): Ep
    requires ep.Ok(c)
  {
    match wc
    case Failed => ep.(dead := true)
    case WriteImm(imm) =>
      var (offset, length) := DecodeImm(imm);
      if offset >= c.cap || (length > 0 && offset + length > c.cap) then ep.(dead := true)
      else if length == 0 then ReapPad(c, ep)
      else (match ArriveData(ep.rx, offset, length)
            case None => ep.(dead := true)
            case Some(rx) => ep.(rx := rx))
    case CreditImm(imm) => ApplyCredit(c, ep, imm)
    case PlainRecv => ep
    case Unexpected => ep
  }

  /** One completion of `drain_recv_credits`: no bounds check, and no room drops the message. */
  function DrainRecv(c: Config, ep: Ep, wc: Wc): Ep
    requires ep.Ok(c)
  {
    match wc
    case Failed => ep.(dead := true)
    case WriteImm(imm) =>
      var (offset, length) := DecodeImm(imm);
      if length == 0 then ReapPad(c, ep)
      else (match ArriveData(ep.rx, offset, length)
            case None => ep
            case Some(rx) => ep.(rx := rx))
    case CreditImm(imm) => ApplyCredit(c, ep, imm)
    case PlainRecv => ep
    case Unexpected => ep
  }

  function RepostRecv(c: Config, ep: Ep, idx: nat): Ep
    requires ep.Ok(c) && idx < |ep.rx.vmap| && ep.rx.vmap[idx].Some?
  {
    var (rx, n) := Repost(ep.rx, idx);
    AddFreed(c, ep.(rx := rx), n)
  }
}
