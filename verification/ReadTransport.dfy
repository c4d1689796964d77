/**
  * `ReadRingInner` as it is written: an object whose methods update its cached
  * head, flags, slot lengths and queues in place. Every method is proved against
  * the operation of the same name in `ReadRing`.
  *
  * The completion queues are parameters: a call is given the completions that are
  * ready, and reports how many it consumed.
  */
module ReadTransport {
  import opened RingBuffers
  import opened CompletionTrackers
  import opened TransportCommon
  import opened WorkLog
  import opened SendSide
  import opened RecvSide
  import opened ReadRing
  import opened Halves

  /** A send-queue completion. */
  datatype SendWc = SendOk(wrId: nat) | SendFailed

  datatype PollResult = Pending | Ready | Failure

  lemma ReapRecvOk(c: Config, ep: Ep, wc: Wc)
    requires ep.Ok(c)
    ensures ReapRecv(c, ep, wc).Ok(c)
  {
    hide Head.Advance, Tracker.Release;
  }

  /** The first `n` completions of `poll_recv` reaped one after the other. */
  function ReapAll(c: Config, ep: Ep, wcs: seq<Wc>, n: nat): (r: Ep)
    requires ep.Ok(c) && n <= |wcs|
    ensures r.Ok(c)
  {
    if n == 0 then ep
    else
      ReapRecvOk(c, ReapAll(c, ep, wcs, n - 1), wcs[n - 1]);
      ReapRecv(c, ReapAll(c, ep, wcs, n - 1), wcs[n - 1])
  }

  function SendReaped(c: Config, ep: Ep, wc: SendWc): Ep
    requires ep.Ok(c)
  {
    if wc.SendFailed? then ep.(dead := true) else ReapSend(c, ep, wc.wrId)
  }

  function ReapSends(c: Config, ep: Ep, wcs: seq<SendWc>, n: nat): (r: Ep)
    requires ep.Ok(c) && n <= |wcs|
    ensures r.Ok(c)
  {
    if n == 0 then ep else SendReaped(c, ReapSends(c, ep, wcs, n - 1), wcs[n - 1])
  }

  /** Posting replaces the staging cursors: it does not matter whether they were moved before. */
  lemma Reserved(c: Config, ep: Ep, g: Grant, msg: seq<u8>)
    requires ep.Ok(c) && g.ring.Valid() && g.ring.capacity == c.cap && g.offset + |msg| <= c.cap
    ensures ReadRing.PostMessage(c, ep.(tx := ep.tx.(ring := g.ring)), g, msg) == ReadRing.PostMessage(c, ep, g, msg)
  {
    hide ShapeOk, EncodeImm, Store, Ep.RemoteFree;
  }

  /** An endpoint whose queue has `out` in front. */
  function Behind(ep: Ep, out: seq<RecvDone>): Ep {
    ep.(rx := ep.rx.(stash := out + ep.rx.stash))
  }

  /** Reaping only appends to the queue: what is in front of it does not matter. */
  lemma ReapBehind(c: Config, ep: Ep, out: seq<RecvDone>, wc: Wc)
    requires ep.Ok(c)
    ensures ReapRecv(c, Behind(ep, out), wc) == Behind(ReapRecv(c, ep, wc), out)
  {
    hide Head.Advance, Tracker.Release;
    if wc.WriteImm? && ArriveData(ep.rx, DecodeImm(wc.imm).0, DecodeImm(wc.imm).1).Some? {
      var a := ArriveData(ep.rx, DecodeImm(wc.imm).0, DecodeImm(wc.imm).1).value;
      assert out + a.stash == (out + ep.rx.stash) + a.stash[|ep.rx.stash|..];
    }
  }

  /** Batch by batch is the same as one after the other. */
  lemma {:induction false} ReapAllMore(c: Config, ep: Ep, wcs: seq<Wc>, done: nat, batch: seq<Wc>, n: nat)
    requires ep.Ok(c) && Continues(wcs, done, batch) && n <= |batch|
    ensures ReapAll(c, ep, wcs, done + n) == ReapAll(c, ReapAll(c, ep, wcs, done), batch, n)
  {
    hide ReapRecv;
    if n > 0 {
      ReapAllMore(c, ep, wcs, done, batch, n - 1);
    }
  }

  /**
    * `poll_recv`, queue and returned completions together: it reaps `n`
    * completions, unless the queue alone fills the caller's `room`.
    */
  function PollCall(c: Config, ep: Ep, room: nat, wcs: seq<Wc>, n: nat): Ep
    requires ep.Ok(c) && n <= |wcs|
  {
    if room <= |ep.rx.stash| then ep else ReapAll(c, ep, wcs, n)
  }

  /** The `n`th completion is a failed one. */
  predicate FailedAt(wcs: seq<SendWc>, n: nat)
    requires n <= |wcs|
  {
    n > 0 && wcs[n - 1].SendFailed?
  }

  /** No completion before the `n`th failed. */
  predicate NoneBefore(wcs: seq<SendWc>, n: nat)
    requires n <= |wcs|
  {
    forall i :: 0 <= i < n - 1 ==> wcs[i].SendOk?
  }

  /** The completion of a message. */
  predicate IsData(wc: Wc) { wc.WriteImm? && DecodeImm(wc.imm).1 > 0 }

  /** The batch holds data. */
  ghost predicate Brings(batch: seq<Wc>) {
    exists i :: 0 <= i < |batch| && IsData(batch[i])
  }

  /** A completion that ends the connection: failed, or of a message that cannot be taken. */
  predicate Faulty(c: Config, ep: Ep, wc: Wc) {
    wc.Failed? || (wc.WriteImm? && Rejects(c.cap, ep.rx, DecodeImm(wc.imm).0, DecodeImm(wc.imm).1))
  }

  /** A faulty completion ends the connection and does nothing else; any other queues what it brings, last. */
  lemma ReapTakes(c: Config, ep: Ep, wc: Wc)
    requires ep.Ok(c)
    ensures var r := ReapRecv(c, ep, wc);
            && (Faulty(c, ep, wc) ==> r == ep.(dead := true))
            && (!Faulty(c, ep, wc) ==>
                  && r.dead == ep.dead
                  && Lens(r.rx.stash) == Lens(ep.rx.stash) + if IsData(wc) then [DecodeImm(wc.imm).1] else [])
  {
    hide Tracker.Release, FindFree, Head.Advance;
    assert Lens(ep.rx.stash) + [] == Lens(ep.rx.stash);
    if wc.WriteImm? {
      ArriveIffFree(ep.rx, DecodeImm(wc.imm).0, DecodeImm(wc.imm).1);
    }
    hide ArriveData, Full, Lens;
  }

  /** None of the first `n` completions is faulty when its turn comes. */
  ghost predicate Clean(c: Config, ep: Ep, wcs: seq<Wc>, n: nat)
    requires ep.Ok(c) && n <= |wcs|
  {
    forall i: nat {:trigger ReapAll(c, ep, wcs, i)} :: i < n ==> !Faulty(c, ReapAll(c, ep, wcs, i), wcs[i])
  }

  /** What a batch has brought in its first `n` completions. */
  ghost predicate Seen(wcs: seq<Wc>, n: nat, gotData: bool)
    requires n <= |wcs|
  {
    && (gotData <==> exists i :: 0 <= i < n && IsData(wcs[i]))
  }

  lemma SeenNext(wcs: seq<Wc>, n: nat, gotData: bool)
    requires n < |wcs| && Seen(wcs, n, gotData)
    ensures Seen(wcs, n + 1, gotData || IsData(wcs[n]))
  {
    hide IsData;
  }

  lemma SeenAll(wcs: seq<Wc>, gotData: bool)
    requires Seen(wcs, |wcs|, gotData)
    ensures gotData <==> Brings(wcs)
  {
    hide IsData;
  }

  /** One more completion is reaped. */
  lemma VerdictNext(c: Config, ep: Ep, wcs: seq<Wc>, n: nat)
    requires ep.Ok(c) && n < |wcs| && Verdict(c, ep, wcs, n, true)
    ensures Verdict(c, ep, wcs, n + 1, !Faulty(c, ReapAll(c, ep, wcs, n), wcs[n]))
    ensures ReapAll(c, ep, wcs, n + 1) == ReapRecv(c, ReapAll(c, ep, wcs, n), wcs[n])
  {
    hide Faulty, ReapRecv;
  }

  /** Reaping was right to go on, and if it stopped, to stop there. */
  ghost predicate Verdict(c: Config, ep: Ep, wcs: seq<Wc>, n: nat, ok: bool)
    requires ep.Ok(c) && n <= |wcs|
  {
    if ok then Clean(c, ep, wcs, n)
    else n > 0 && Clean(c, ep, wcs, n - 1) && Faulty(c, ReapAll(c, ep, wcs, n - 1), wcs[n - 1])
  }

  /** The lengths of the messages among the first `n` completions. */
  function DataLens(wcs: seq<Wc>, n: nat): seq<nat>
    requires n <= |wcs|
  {
    if n == 0 then [] else DataLens(wcs, n - 1) + if IsData(wcs[n - 1]) then [DecodeImm(wcs[n - 1].imm).1] else []
  }

  /** Clean completions queue exactly their messages, in order, and leave the connection as it was. */
  lemma {:induction false} CleanQueues(c: Config, ep: Ep, wcs: seq<Wc>, n: nat)
    requires ep.Ok(c) && n <= |wcs| && Clean(c, ep, wcs, n)
    ensures var r := ReapAll(c, ep, wcs, n);
            r.dead == ep.dead && Lens(r.rx.stash) == Lens(ep.rx.stash) + DataLens(wcs, n)
  {
    hide Faulty, ReapRecv, Lens, IsData;
    if n > 0 {
      CleanQueues(c, ep, wcs, n - 1);
      var r := ReapAll(c, ep, wcs, n - 1);
      ReapTakes(c, r, wcs[n - 1]);
      assert !Faulty(c, r, wcs[n - 1]);
    }
  }

  lemma VerdictMore(c: Config, ep: Ep, wcs: seq<Wc>, done: nat, batch: seq<Wc>, n: nat, ok: bool)
    requires ep.Ok(c) && Continues(wcs, done, batch) && n <= |batch| && Clean(c, ep, wcs, done)
    requires Verdict(c, ReapAll(c, ep, wcs, done), batch, n, ok)
    ensures Verdict(c, ep, wcs, done + n, ok)
  {
    hide Faulty, ReapAll;
    forall i: nat | done <= i < done + n
      ensures wcs[i] == batch[i - done]
      ensures ReapAll(c, ep, wcs, i) == ReapAll(c, ReapAll(c, ep, wcs, done), batch, i - done)
    {
      ReapAllMore(c, ep, wcs, done, batch, i - done);
    }
  }

  /**
    * How many batches the receive loop polls: one if something was queued before,
    * otherwise up to the first that brings data, or all.
    */
  ghost predicate StopsAfter(batches: seq<seq<Wc>>, waiting: bool, b: nat) {
    && b <= |batches|
    && (b > 1 ==> !waiting) && (forall i :: 0 <= i < b - 1 ==> !Brings(batches[i]))
    && (b < |batches| ==> b > 0 && (waiting || Brings(batches[b - 1])))
  }

  /** Where the receive loop stands after `b` batches. */
  ghost predicate Stage(batches: seq<seq<Wc>>, waiting: bool, b: nat, consumed: nat, res: PollResult) {
    && b <= |batches|
    && (b > 1 ==> !waiting) && (forall i :: 0 <= i < b - 1 ==> !Brings(batches[i]))
    && match res
       case Pending => (b > 0 ==> !waiting && !Brings(batches[b - 1])) && consumed == Before(batches, b)
       case Ready => b > 0 && (waiting || Brings(batches[b - 1])) && consumed == Before(batches, b)
       case Failure => b > 0 && Before(batches, b - 1) < consumed <= Before(batches, b)
  }

  lemma StageNext(batches: seq<seq<Wc>>, waiting: bool, b: nat, consumed: nat, n: nat, res: PollResult)
    requires b < |batches| && Stage(batches, waiting, b, consumed, Pending) && n <= |batches[b]|
    requires if res.Failure? then n > 0 else n == |batches[b]| && (res.Ready? <==> waiting || Brings(batches[b]))
    ensures Stage(batches, waiting, b + 1, consumed + n, res)
  {
    hide Brings, Concat;
    PartContinues(batches, b);
  }

  lemma StageIs(batches: seq<seq<Wc>>, waiting: bool, b: nat, consumed: nat)
    requires Stage(batches, waiting, b, consumed, Pending)
    ensures consumed == Before(batches, b)
  {
  }

  /** It stops within the last of those batches when a completion in it is faulty. */
  ghost predicate FailsWithin(batches: seq<seq<Wc>>, waiting: bool, b: nat, consumed: nat) {
    && 0 < b <= |batches| && Before(batches, b - 1) < consumed <= Before(batches, b)
    && (b > 1 ==> !waiting) && (forall i :: 0 <= i < b - 1 ==> !Brings(batches[i]))
  }

  lemma StageEnds(batches: seq<seq<Wc>>, waiting: bool, b: nat, consumed: nat, res: PollResult)
    requires Stage(batches, waiting, b, consumed, res) && (res.Pending? ==> b == |batches|)
    ensures b <= |batches| && (res.Failure? ==> FailsWithin(batches, waiting, b, consumed))
    ensures !res.Failure? ==> StopsAfter(batches, waiting, b) && consumed == Before(batches, b)
    ensures res.Ready? ==> waiting || (b > 0 && Brings(batches[b - 1]))
    ensures res.Pending? ==> !(b > 0 && Brings(batches[b - 1]))
  {
    hide Before;
  }

  class ReadRingTransport {
    const cfg: Config
    const send: SendHalf
    const recv: RecvHalf
    const slotLengths: array<nat>
    var headSlotIdx: nat
    var recvHead: nat
    var offsetBuffer: nat
    var cachedRemoteHead: nat
    /** The landing buffer of the offset Read, written by the device. */
    var readBuf: nat
    var readInFlight: bool
    var sendInFlight: nat
    var peerDisconnected: bool

    ghost function Repr(): set<object> {
      {this, slotLengths, send, send.ring, send.ring.mem, recv, recv.mem, recv.virtualIdxMap, recv.tracker, recv.tracker.released}
    }

    ghost predicate Valid()
      reads Repr()
    {
      send.ring.mem != recv.mem && Abs().Ok(cfg)
    }

    ghost function Abs(): Ep
      reads Repr()
    {
      Ep(peerDisconnected, send.Abs(), recv.Abs(), Head(slotLengths[..], headSlotIdx, recvHead), offsetBuffer,
         cachedRemoteHead, readBuf, readInFlight, sendInFlight)
    }

    constructor (c: Config)
      requires c.Valid()
      ensures Valid() && fresh(Repr()) && cfg == c && Abs() == ReadRing.Init(c)
    {
      cfg := c;
      send := new SendHalf(c.cap);
      recv := new RecvHalf(c.cap, c.maxOut);
      slotLengths := new nat[c.maxOut](_ => 0);
      headSlotIdx, recvHead, offsetBuffer, cachedRemoteHead, readBuf := 0, 0, 0, 0, 0;
      readInFlight, sendInFlight, peerDisconnected := false, 0, false;
      new;
      assert slotLengths[..] == seq(c.maxOut, _ => 0);
    }

    /** `remote_free_space` */
    function RemoteFreeSpace(): (free: nat)
      reads Repr()
      requires Valid()
      ensures free == Abs().RemoteFree(cfg.cap)
    {
      var used := if send.remoteWriteTail >= cachedRemoteHead then send.remoteWriteTail - cachedRemoteHead
                  else Wrap(Wrap(cfg.cap - cachedRemoteHead) + send.remoteWriteTail);
      SatSub(cfg.cap, Wrap(used + 1))
    }

    /** `post_offset_read`, unless a Read is in flight. */
    method PostOffsetRead()
      requires Valid()
      modifies this`readInFlight, send`posted
      ensures Valid() && Abs() == PostRead(old(Abs()))
    {
      if !readInFlight {
        send.Append(HeadRead);
        readInFlight := true;
      }
    }

    /** `advance_recv_head` */
    method AdvanceRecvHead(contiguous: nat)
      requires Valid()
      modifies this`headSlotIdx, this`recvHead, this`offsetBuffer
      ensures Valid() && Abs() == AdvanceHead(cfg, old(Abs()), contiguous)
    {
      if contiguous == 0 {
        return;
      }
      headSlotIdx, recvHead := ReleaseLengths(contiguous);
      offsetBuffer := recvHead % U32;
    }

    /** Add up the next `n` slot lengths from the head slot on. */
    method ReleaseLengths(n: nat) returns (slot: nat, offset: nat)
      requires Valid()
      ensures Abs().head.Advance(cfg.cap, n) == Head(slotLengths[..], slot, offset)
    {
      slot, offset := headSlotIdx, recvHead;
      ghost var start := Abs().head;
      for i := 0 to n
        invariant slot < slotLengths.Length
        invariant start.Advance(cfg.cap, n) == Head(slotLengths[..], slot, offset).Advance(cfg.cap, n - i)
      {
        offset := (offset + slotLengths[slot]) % cfg.cap;
        slot := (slot + 1) % cfg.maxOut;
      }
    }

    /** `send_gather` */
    method SendGather(bufs: seq<seq<u8>>) returns (res: SendResult)
      requires Valid()
      modifies Repr()
      ensures Valid() && (Abs(), res) == ReadRing.SendGather(cfg, old(Abs()), Concat(bufs))
    {
      if peerDisconnected {
        return Broken;
      }
      var total := TotalLen(bufs);
      if total == 0 {
        return Accepted(0);
      }
      var sqUsed := sendInFlight + if readInFlight then 1 else 0;
      if sqUsed + SEND_COPY_MAX_WRS > cfg.maxOut {
        PostOffsetRead();
        return Accepted(0);
      }
      var free := RemoteFreeSpace();
      var len := Min(Min(Min(total, cfg.maxMsg), cfg.cap), IMM_MAX);
      if free < len + cfg.threshold {
        PostOffsetRead();
        return Accepted(0);
      }
      res := ReserveAndPost(bufs, len, free);
    }

    /** The rest of `send_gather`, once the queue and the peer have room. */
    method ReserveAndPost(bufs: seq<seq<u8>>, len: nat, free: nat) returns (res: SendResult)
      requires Valid() && len <= |Concat(bufs)|
      modifies Repr()
      ensures Valid() && (Abs(), res) == Place(cfg, old(Abs()), Concat(bufs), len, free)
    {
      hide Ring.Reserve, Ring.Rollback, Post, Concat, Ep.RemoteFree, ReadRing.PostMessage, ShapeOk;
      GrantInBounds(send.ring.Cursors(), len);
      var reservation := send.Reserve(len);
      if reservation.None? {
        return Accepted(0);
      }
      var (offset, padding) := reservation.value;
      if padding > 0 && free < padding + len + cfg.threshold {
        send.Rollback(offset, padding);
        PostOffsetRead();
        return Accepted(0);
      }
      Reserved(cfg, old(Abs()), Grant(send.ring.Cursors(), offset, padding), Concat(bufs)[..len]);
      PostMessage(offset, padding, len, bufs);
      return Accepted(len);
    }

    method PostMessage(offset: nat, padding: nat, len: nat, bufs: seq<seq<u8>>)
      requires Valid() && offset + len <= cfg.cap && len <= |Concat(bufs)|
      modifies Repr()
      ensures Valid()
      ensures Abs() == ReadRing.PostMessage(cfg, old(Abs()), Grant(old(Abs()).tx.ring, offset, padding),
                                            Concat(bufs)[..len])
    {
      hide Concat, EncodeImm, Store;
      send.Post(offset, padding, len, bufs);
      sendInFlight := sendInFlight + if padding > 0 then 2 else 1;
      var remaining := RemoteFreeSpace();
      if remaining < len * 2 + cfg.threshold {
        PostOffsetRead();
      }
    }

    /** `poll_send_completion` once the queue has yielded the batch `wcs`. */
    method PollSendCompletion(wcs: seq<SendWc>) returns (ok: bool, consumed: nat)
      requires Valid()
      modifies Repr()
      ensures Valid() && consumed <= |wcs| && (ok ==> consumed == |wcs|)
      ensures Abs() == ReapSends(cfg, old(Abs()), wcs, consumed)
      ensures NoneBefore(wcs, consumed) && (ok <==> !FailedAt(wcs, consumed))
    {
      consumed, ok := 0, true;
      while consumed < |wcs|
        invariant Valid() && ok && consumed <= |wcs| && NoneBefore(wcs, consumed) && !FailedAt(wcs, consumed)
        invariant Abs() == ReapSends(cfg, old(Abs()), wcs, consumed)
      {
        ReapSendOne(wcs[consumed]);
        consumed := consumed + 1;
        if wcs[consumed - 1].SendFailed? {
          return false, consumed;
        }
      }
    }

    method ReapSendOne(wc: SendWc)
      requires Valid()
      modifies Repr()
      ensures Valid() && Abs() == SendReaped(cfg, old(Abs()), wc)
    {
      if wc.SendFailed? {
        peerDisconnected := true;
        return;
      }
      if wc.wrId == READ_WR_ID {
        cachedRemoteHead := readBuf % U32;
        readInFlight := false;
        return;
      }
      if wc.wrId != PADDING_WR_ID && 0 < wc.wrId <= cfg.cap {
        send.ring.Release(wc.wrId);
      }
      sendInFlight := if sendInFlight > 0 then sendInFlight - 1 else 0;
    }

    /** The state in which `rc` has been queued. */
    ghost function Queueing(rc: Option<RecvDone>): Ep
      reads Repr()
    {
      Abs().(rx := recv.Queueing(rc))
    }

    /** The state in which the completions `out` come before those queued. */
    ghost function Holding(out: seq<RecvDone>): Ep
      reads Repr()
    {
      Behind(Abs(), out)
    }

    method ReapPad(offset: nat)
      requires Valid() && offset < cfg.cap
      modifies Repr()
      ensures Valid() && Abs() == ReadRing.ReapPad(cfg, old(Abs()), offset) && recv.stash == old(recv.stash)
    {
      hide Head.Advance, Tracker.Release;
      slotLengths[recv.arrivalSeq % cfg.maxOut] := cfg.cap - offset;
      var contiguous := recv.ReapPad();
      AdvanceRecvHead(contiguous);
    }

    method ReapData(offset: nat, length: nat) returns (ok: bool, rc: Option<RecvDone>)
      requires Valid()
      modifies Repr()
      ensures Valid() && Queueing(rc) == ReadRing.ReapData(cfg, old(Abs()), offset, length)
      ensures recv.stash == old(recv.stash) && (!ok ==> peerDisconnected && rc.None?)
      ensures (ok <==> rc.Some?) && (ok <==> !Full(old(recv.Abs()).vmap))
    {
      hide Head.Advance, Tracker.Release, Full, FindFree;
      ArriveIffFree(recv.Abs(), offset, length);
      var seqNo := recv.arrivalSeq;
      rc := recv.MapArrival(offset, length);
      ok := rc.Some?;
      if ok {
        slotLengths[seqNo % cfg.maxOut] := length;
      } else {
        peerDisconnected := true;
      }
    }

    /** One completion of the `poll_recv` loop; the caller places `rc`. */
    method ReapRecvOne(wc: Wc) returns (ok: bool, rc: Option<RecvDone>)
      requires Valid()
      modifies Repr()
      ensures Valid() && Queueing(rc) == ReapRecv(cfg, old(Abs()), wc)
      ensures recv.stash == old(recv.stash) && (!ok ==> peerDisconnected && rc.None?)
      ensures (ok <==> !Faulty(cfg, old(Abs()), wc)) && (rc.Some? <==> ok && IsData(wc))
    {
      hide Head.Advance, Tracker.Release, ReadRing.ReapData, ReadRing.ReapPad, Full, FindFree;
      rc, ok := None, true;
      match wc
      case Failed =>
        peerDisconnected, ok := true, false;
      case WriteImm(imm) =>
        var (offset, length) := DecodeImm(imm);
        if offset >= cfg.cap || (length > 0 && offset + length > cfg.cap) {
          peerDisconnected, ok := true, false;
        } else if length == 0 {
          ReapPad(offset);
        } else {
          ok, rc := ReapData(offset, length);
        }
      case Unexpected =>
    }

    /** Reap one completion and place the message it brings, if any. */
    method PlaceOne(wc: Wc, before: seq<RecvDone>, room: nat) returns (ok: bool, out: seq<RecvDone>, got: bool)
      requires Valid() && |before| <= room && (|before| < room ==> recv.stash == [])
      modifies Repr()
      ensures Valid() && |out| <= room && (|out| < room ==> recv.stash == [])
      ensures Holding(out) == ReapRecv(cfg, old(Holding(before)), wc)
      ensures ok <==> !Faulty(cfg, old(Holding(before)), wc)
      ensures !ok ==> peerDisconnected
      ensures got <==> ok && IsData(wc)
      ensures !got ==> out == before
    {
      hide ReapRecv;
      ReapBehind(cfg, Abs(), before, wc);
      var rc;
      ok, rc := ReapRecvOne(wc);
      out, got := before, rc.Some?;
      if rc.Some? {
        if |out| < room {
          out := out + [rc.value];
        } else {
          recv.stash := recv.stash + [rc.value];
        }
      }
    }

    /** `n` of the completions `all` have been reaped since `start`, `out` handed out. */
    ghost predicate Progress(start: Ep, all: seq<Wc>, n: nat, out: seq<RecvDone>, room: nat)
      reads Repr()
    {
      && Valid() && start.Ok(cfg) && n <= |all|
      && |out| <= room && (|out| < room ==> recv.stash == [])
      && Holding(out) == ReapAll(cfg, start, all, n)
    }

    lemma ProgressIs(start: Ep, all: seq<Wc>, n: nat, out: seq<RecvDone>, room: nat)
      ensures Progress(start, all, n, out, room) <==>
        && Valid() && start.Ok(cfg) && n <= |all|
        && |out| <= room && (|out| < room ==> recv.stash == [])
        && Holding(out) == ReapAll(cfg, start, all, n)
    {
    }

    /** One batch of the receive queue: data fills `out` up to `room`, then the stash. */
    method ReapBatch(wcs: seq<Wc>, before: seq<RecvDone>, room: nat)
      returns (ok: bool, out: seq<RecvDone>, gotData: bool, consumed: nat)
      requires Valid() && |before| <= room && (|before| < room ==> recv.stash == [])
      modifies Repr()
      ensures consumed <= |wcs| && (ok ==> consumed == |wcs|)
      ensures Progress(old(Holding(before)), wcs, consumed, out, room)
      ensures Verdict(cfg, old(Holding(before)), wcs, consumed, ok) && (!ok ==> peerDisconnected)
      ensures ok ==> (gotData <==> Brings(wcs)) && (!gotData ==> out == before)
    {
      hide *;
      ok, out, gotData, consumed := true, before, false, 0;
      ghost var start := Holding(before);
      BatchStart(wcs, before, room);
      while ok && consumed < |wcs|
        invariant consumed <= |wcs| && Progress(start, wcs, consumed, out, room) && start.Ok(cfg)
        invariant Verdict(cfg, start, wcs, consumed, ok) && (!ok ==> peerDisconnected)
        invariant ok ==> Seen(wcs, consumed, gotData) && (!gotData ==> out == before)
      {
        ProgressIs(start, wcs, consumed, out, room);
        SeenNext(wcs, consumed, gotData);
        VerdictNext(cfg, start, wcs, consumed);
        var got;
        ok, out, got := PlaceOne(wcs[consumed], out, room);
        gotData := gotData || got;
        consumed := consumed + 1;
        ProgressIs(start, wcs, consumed, out, room);
      }
      if ok {
        SeenAll(wcs, gotData);
      }
    }

    lemma BatchStart(wcs: seq<Wc>, before: seq<RecvDone>, room: nat)
      requires Valid() && |before| <= room && (|before| < room ==> recv.stash == [])
      ensures Holding(before).Ok(cfg) && Progress(Holding(before), wcs, 0, before, room)
      ensures Verdict(cfg, Holding(before), wcs, 0, true) && Seen(wcs, 0, false)
    {
    }

    /** One turn of the `poll_recv` loop. */
    method NextBatch(batch: seq<Wc>, before: seq<RecvDone>, room: nat, ghost start: Ep, ghost all: seq<Wc>, ghost done: nat)
      returns (res: PollResult, out: seq<RecvDone>, n: nat)
      requires Progress(start, all, done, before, room) && Continues(all, done, batch)
      requires start.Ok(cfg) && Verdict(cfg, start, all, done, true)
      modifies Repr()
      ensures n <= |batch| && Progress(start, all, done + n, out, room)
      ensures Verdict(cfg, start, all, done + n, !res.Failure?)
      ensures !res.Failure? ==> n == |batch| && (res.Ready? <==> before != [] || Brings(batch))
      ensures res.Pending? ==> out == []
      ensures res.Failure? ==> peerDisconnected && n > 0
    {
      hide ReapAll, Clean, Brings;
      var ok, gotData;
      ok, out, gotData, n := ReapBatch(batch, before, room);
      ReapAllMore(cfg, start, all, done, batch, n);
      VerdictMore(cfg, start, all, done, batch, n, ok);
      res := if !ok then Failure else if |out| > 0 || gotData then Ready else Pending;
    }

    lemma AtStart(batches: seq<seq<Wc>>, before: seq<RecvDone>, room: nat)
      requires Valid() && |before| < room && recv.stash == []
      ensures Holding(before).Ok(cfg) && Progress(Holding(before), Concat(batches), 0, before, room)
      ensures Verdict(cfg, Holding(before), Concat(batches), 0, true) && Stage(batches, before != [], 0, 0, Pending)
    {
      BatchStart(Concat(batches), before, room);
    }

    /** The loop of `poll_recv`: batches until one brings data. */
    method ReapBatches(batches: seq<seq<Wc>>, before: seq<RecvDone>, room: nat)
      returns (res: PollResult, out: seq<RecvDone>, consumed: nat, ghost polled: nat)
      requires Valid() && |before| < room && recv.stash == []
      modifies Repr()
      ensures consumed <= |Concat(batches)| && polled <= |batches|
      ensures Progress(old(Holding(before)), Concat(batches), consumed, out, room)
      ensures Verdict(cfg, old(Holding(before)), Concat(batches), consumed, !res.Failure?)
      ensures if res.Failure? then peerDisconnected && FailsWithin(batches, before != [], polled, consumed)
              else StopsAfter(batches, before != [], polled) && consumed == Before(batches, polled)
      ensures res.Ready? <==> !res.Failure? && (before != [] || (polled > 0 && Brings(batches[polled - 1])))
      ensures res.Pending? ==> out == [] && consumed == |Concat(batches)|
    {
      hide *;
      out, consumed, polled, res := before, 0, 0, Pending;
      ghost var start, all := Holding(before), Concat(batches);
      AllParts(batches);
      AtStart(batches, before, room);
      var b := 0;
      while b < |batches| && res.Pending?
        invariant polled == b && Stage(batches, before != [], b, consumed, res)
        invariant b <= |batches| && consumed <= |all| && start.Ok(cfg)
        invariant Progress(start, all, consumed, out, room)
        invariant Verdict(cfg, start, all, consumed, !res.Failure?)
        invariant res.Pending? ==> out == before
        invariant res.Failure? ==> peerDisconnected
      {
        PartContinues(batches, b);
        StageIs(batches, before != [], b, consumed);
        var n;
        res, out, n := NextBatch(batches[b], out, room, start, all, consumed);
        StageNext(batches, before != [], b, consumed, n, res);
        consumed, b, polled := consumed + n, b + 1, polled + 1;
      }
      StageEnds(batches, before != [], b, consumed, res);
      if res.Pending? && |out| > 0 {
        res := Ready;
      }
    }

    lemma FirstRoom(out: seq<RecvDone>, room: nat)
      requires |out| <= room && (|out| < room ==> recv.stash == [])
      ensures out == FirstOf(Holding(out).rx.stash, room)
    {
    }

    /** `poll_recv` with room for `room` completions; `batches` are ready. */
    method PollRecv(room: nat, batches: seq<seq<Wc>>)
      returns (res: PollResult, out: seq<RecvDone>, consumed: nat, ghost polled: nat)
      requires Valid()
      modifies Repr()
      ensures Valid() && |out| <= room && (|out| < room ==> recv.stash == [])
      ensures consumed <= |Concat(batches)| && polled <= |batches|
      ensures Holding(out) == PollCall(cfg, old(Abs()), room, Concat(batches), consumed)
      ensures out == FirstOf(PollCall(cfg, old(Abs()), room, Concat(batches), consumed).rx.stash, room)
      // a full buffer is served from the queue alone
      ensures var waiting := old(recv.stash) != [];
              if room <= |old(recv.stash)| then res.Ready? && consumed == 0
              else
                && Verdict(cfg, old(Abs()), Concat(batches), consumed, !res.Failure?)
                && (if res.Failure? then FailsWithin(batches, waiting, polled, consumed)
                    else StopsAfter(batches, waiting, polled) && consumed == Before(batches, polled))
                && (res.Ready? <==> !res.Failure? && (waiting || (polled > 0 && Brings(batches[polled - 1]))))
      ensures res.Pending? ==> out == [] && consumed == |Concat(batches)|
      ensures res.Failure? ==> peerDisconnected
    {
      consumed, polled := 0, 0;
      var filled := Min(room, |recv.stash|);
      out, recv.stash := recv.stash[..filled], recv.stash[filled..];
      assert Holding(out) == old(Abs());
      if filled >= room {
        FirstRoom(out, room);
        return Ready, out, 0, 0;
      }
      hide ReapAll, Verdict, StopsAfter, FailsWithin, Brings;
      res, out, consumed, polled := ReapBatches(batches, out, room);
      FirstRoom(out, room);
    }

    /** `repost_recv` */
    method RepostRecv(idx: nat)
      requires Valid() && idx < cfg.maxOut && recv.virtualIdxMap[idx].Some?
      modifies Repr()
      ensures Valid() && Abs() == ReadRing.RepostRecv(cfg, old(Abs()), idx)
    {
      hide Head.Advance, Tracker.Release;
      var contiguous := recv.Unmap(idx);
      AdvanceRecvHead(contiguous);
    }
  }
}
