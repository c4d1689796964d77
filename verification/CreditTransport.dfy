/**
  * `CreditRingTransport` as it is written: an object whose methods update its
  * credits, cursors, index map and queues in place. Every method is proved
  * against the operation of the same name in `CreditRing`.
  *
  * The completion queues are parameters: a call is given the completions that are
  * ready, and reports how many it consumed.
  */
module CreditTransport {
  import opened RingBuffers
  import opened CompletionTrackers
  import opened TransportCommon
  import opened WorkLog
  import opened SendSide
  import opened RecvSide
  import opened CreditRing
  import opened Halves

  /** A send-queue completion. */
  datatype SendWc = SendOk(wrId: nat) | SendFailed

  datatype PollResult = Pending | Ready | Failure

  /** The first `n` completions of `poll_recv` reaped one after the other. */
  function ReapAll(c: Config, ep: Ep, wcs: seq<Wc>, n: nat): (r: Ep)
    requires ep.Ok(c) && n <= |wcs|
    ensures r.Ok(c)
  {
    if n == 0 then ep
    else
      ReapRecvOk(c, ReapAll(c, ep, wcs, n - 1), wcs[n - 1]);
      ReapRecv(c, ReapAll(c, ep, wcs, n - 1), wcs[n - 1])
  }

  /** The first `n` completions of the inline drain reaped one after the other. */
  function DrainAll(c: Config, ep: Ep, wcs: seq<Wc>, n: nat): (r: Ep)
    requires ep.Ok(c) && n <= |wcs|
    ensures r.Ok(c)
  {
    if n == 0 then ep
    else
      DrainRecvOk(c, DrainAll(c, ep, wcs, n - 1), wcs[n - 1]);
      DrainRecv(c, DrainAll(c, ep, wcs, n - 1), wcs[n - 1])
  }

  function SendReaped(c: Config, ep: Ep, wc: SendWc): Ep
    requires ep.Ok(c)
  {
    if wc.SendFailed? then ep.(dead := true) else ReapSend(c, ep, wc.wrId)
  }

  function ReapSends(c: Config, ep: Ep, wcs: seq<SendWc>, n: nat): (r: Ep)
    requires ep.Ok(c) && n <= |wcs|
    ensures r.Ok(c)
  {
    if n == 0 then ep else SendReaped(c, ReapSends(c, ep, wcs, n - 1), wcs[n - 1])
  }

  /** An endpoint whose queue has `out` in front. */
  function Behind(ep: Ep, out: seq<RecvDone>): Ep {
    ep.(rx := ep.rx.(stash := out + ep.rx.stash))
  }

  /** Reaping only appends to the queue: what is in front of it does not matter. */
  lemma ReapBehind(c: Config, ep: Ep, out: seq<RecvDone>, wc: Wc)
    requires ep.Ok(c)
    ensures ReapRecv(c, Behind(ep, out), wc) == Behind(ReapRecv(c, ep, wc), out)
  {
    hide Tracker.Release;
    if wc.WriteImm? && ArriveData(ep.rx, DecodeImm(wc.imm).0, DecodeImm(wc.imm).1).Some? {
      var a := ArriveData(ep.rx, DecodeImm(wc.imm).0, DecodeImm(wc.imm).1).value;
      assert out + a.stash == (out + ep.rx.stash) + a.stash[|ep.rx.stash|..];
    }
  }

  lemma FlushBehind(c: Config, ep: Ep, out: seq<RecvDone>)
    ensures CreditRing.FlushCredits(c, Behind(ep, out)) == Behind(CreditRing.FlushCredits(c, ep), out)
  {
  }

  lemma {:induction false} SendsBehind(c: Config, ep: Ep, out: seq<RecvDone>, wcs: seq<SendWc>, n: nat)
    requires ep.Ok(c) && n <= |wcs|
    ensures ReapSends(c, Behind(ep, out), wcs, n) == Behind(ReapSends(c, ep, wcs, n), out)
  {
    if n > 0 {
      SendsBehind(c, ep, out, wcs, n - 1);
    }
  }

  /** The `n`th completion is a failed one. */
  predicate FailedAt(wcs: seq<SendWc>, n: nat)
    requires n <= |wcs|
  {
    n > 0 && wcs[n - 1].SendFailed?
  }

  /** No completion before the `n`th failed. */
  predicate NoneBefore(wcs: seq<SendWc>, n: nat)
    requires n <= |wcs|
  {
    forall i :: 0 <= i < n - 1 ==> wcs[i].SendOk?
  }

  /**
    * `poll_recv`, queue and returned completions together: it reaps `s`
    * completions of the send queue and `n` of the receive queue, unless the queue
    * alone fills the caller's `room`.
    */
  function PollCall(c: Config, ep: Ep, room: nat, sent: seq<SendWc>, s: nat, wcs: seq<Wc>, n: nat): Ep
    requires ep.Ok(c) && s <= |sent| && n <= |wcs|
  {
    if room <= |ep.rx.stash| then ep
    else if FailedAt(sent, s) then ReapSends(c, ep, sent, s)
    else ReapAll(c, CreditRing.FlushCredits(c, ReapSends(c, ep, sent, s)), wcs, n)
  }

  lemma NotFailedYet(wcs: seq<SendWc>)
    ensures !FailedAt(wcs, 0) && NoneBefore(wcs, 0)
  {
  }

  /** A batch fails where the whole does. */
  lemma FailedWithin(wcs: seq<SendWc>, done: nat, batch: seq<SendWc>, n: nat)
    requires done + |batch| <= |wcs| && batch == wcs[done..done + |batch|] && n <= |batch|
    requires !FailedAt(wcs, done) && NoneBefore(wcs, done) && NoneBefore(batch, n)
    ensures Continues(wcs, done, batch) && FailedAt(wcs, done + n) == FailedAt(batch, n)
    ensures NoneBefore(wcs, done + n)
  {
  }

  /** Batch by batch is the same as one after the other. */
  lemma {:induction false} ReapSendsMore(c: Config, ep: Ep, wcs: seq<SendWc>, done: nat, batch: seq<SendWc>, n: nat)
    requires ep.Ok(c) && Continues(wcs, done, batch) && n <= |batch|
    ensures ReapSends(c, ep, wcs, done + n) == ReapSends(c, ReapSends(c, ep, wcs, done), batch, n)
  {
    if n > 0 {
      ReapSendsMore(c, ep, wcs, done, batch, n - 1);
    }
  }

  lemma {:induction false} ReapAllMore(c: Config, ep: Ep, wcs: seq<Wc>, done: nat, batch: seq<Wc>, n: nat)
    requires ep.Ok(c) && Continues(wcs, done, batch) && n <= |batch|
    ensures ReapAll(c, ep, wcs, done + n) == ReapAll(c, ReapAll(c, ep, wcs, done), batch, n)
  {
    if n > 0 {
      ReapAllMore(c, ep, wcs, done, batch, n - 1);
    }
  }

  lemma {:induction false} DrainSame(c: Config, ep: Ep, wcs: seq<Wc>, batch: seq<Wc>, n: nat)
    requires ep.Ok(c) && batch <= wcs && n <= |batch|
    ensures DrainAll(c, ep, wcs, n) == DrainAll(c, ep, batch, n)
  {
    if n > 0 {
      DrainSame(c, ep, wcs, batch, n - 1);
    }
  }

  const DRAIN_BATCH: nat := 8

  /** All completions are consumed, or those up to and including the first failed one. */
  predicate StopsAtFailure(wcs: seq<Wc>, n: nat) {
    && n <= |wcs| && (forall i :: 0 <= i < n - 1 ==> !wcs[i].Failed?)
    && (n < |wcs| ==> n > 0 && wcs[n - 1].Failed?)
  }

  /** `send_gather`; its inline drain, if it ran, reaped `n` of the completions `wcs`. */
  function SendCall(c: Config, ep: Ep, data: seq<u8>, wcs: seq<Wc>, n: nat): (Ep, SendResult)
    requires ep.Ok(c) && n <= |wcs|
  {
    if ep.dead || |data| == 0 || ep.credits > 0 then CreditRing.SendGather(c, ep, data)
    else Admit(c, DrainAll(c, ep, wcs, n), data)
  }

  lemma ReapRecvOk(c: Config, ep: Ep, wc: Wc)
    requires ep.Ok(c)
    ensures ReapRecv(c, ep, wc).Ok(c)
  {
    if wc.WriteImm? {
      ArriveShape(ep.rx, DecodeImm(wc.imm).0, DecodeImm(wc.imm).1);
    }
  }

  lemma DrainRecvOk(c: Config, ep: Ep, wc: Wc)
    requires ep.Ok(c)
    ensures DrainRecv(c, ep, wc).Ok(c)
  {
    if wc.WriteImm? {
      ArriveShape(ep.rx, DecodeImm(wc.imm).0, DecodeImm(wc.imm).1);
    }
  }

  /** The completion of a message. */
  predicate IsData(wc: Wc) { wc.WriteImm? && DecodeImm(wc.imm).1 > 0 }

  /** The batch holds data or a credit update. */
  ghost predicate Brings(batch: seq<Wc>) {
    exists i :: 0 <= i < |batch| && (IsData(batch[i]) || batch[i].CreditImm?)
  }

  /** A completion that ends the connection: failed, or of a message that cannot be taken. */
  predicate Faulty(c: Config, ep: Ep, wc: Wc) {
    wc.Failed? || (wc.WriteImm? && Rejects(c.cap, ep.rx, DecodeImm(wc.imm).0, DecodeImm(wc.imm).1))
  }

  /** A faulty completion ends the connection and does nothing else; any other queues what it brings, last. */
  lemma ReapTakes(c: Config, ep: Ep, wc: Wc)
    requires ep.Ok(c)
    ensures var r := ReapRecv(c, ep, wc);
            && (Faulty(c, ep, wc) ==> r == ep.(dead := true))
            && (!Faulty(c, ep, wc) ==>
                  && r.dead == ep.dead
                  && Lens(r.rx.stash) == Lens(ep.rx.stash) + if IsData(wc) then [DecodeImm(wc.imm).1] else [])
  {
    hide Tracker.Release, FindFree;
    assert Lens(ep.rx.stash) + [] == Lens(ep.rx.stash);
    if wc.WriteImm? {
      ArriveIffFree(ep.rx, DecodeImm(wc.imm).0, DecodeImm(wc.imm).1);
    }
    hide ArriveData, Full, Lens;
  }

  /** None of the first `n` completions is faulty when its turn comes. */
  ghost predicate Clean(c: Config, ep: Ep, wcs: seq<Wc>, n: nat)
    requires ep.Ok(c) && n <= |wcs|
  {
    forall i: nat {:trigger ReapAll(c, ep, wcs, i)} :: i < n ==> !Faulty(c, ReapAll(c, ep, wcs, i), wcs[i])
  }

  /** What a batch has brought in its first `n` completions. */
  ghost predicate Seen(wcs: seq<Wc>, n: nat, gotData: bool, gotCredits: bool)
    requires n <= |wcs|
  {
    && (gotData <==> exists i :: 0 <= i < n && IsData(wcs[i]))
    && (gotCredits <==> exists i :: 0 <= i < n && wcs[i].CreditImm?)
  }

  lemma SeenNext(wcs: seq<Wc>, n: nat, gotData: bool, gotCredits: bool)
    requires n < |wcs| && Seen(wcs, n, gotData, gotCredits)
    ensures Seen(wcs, n + 1, gotData || IsData(wcs[n]), gotCredits || wcs[n].CreditImm?)
  {
    hide IsData;
  }

  lemma SeenAll(wcs: seq<Wc>, gotData: bool, gotCredits: bool)
    requires Seen(wcs, |wcs|, gotData, gotCredits)
    ensures gotData || gotCredits <==> Brings(wcs)
  {
    hide IsData;
  }

  /** One more completion is reaped. */
  lemma VerdictNext(c: Config, ep: Ep, wcs: seq<Wc>, n: nat)
    requires ep.Ok(c) && n < |wcs| && Verdict(c, ep, wcs, n, true)
    ensures Verdict(c, ep, wcs, n + 1, !Faulty(c, ReapAll(c, ep, wcs, n), wcs[n]))
    ensures ReapAll(c, ep, wcs, n + 1) == ReapRecv(c, ReapAll(c, ep, wcs, n), wcs[n])
  {
    hide Faulty, ReapRecv;
  }

  /** Reaping was right to go on, and if it stopped, to stop there. */
  ghost predicate Verdict(c: Config, ep: Ep, wcs: seq<Wc>, n: nat, ok: bool)
    requires ep.Ok(c) && n <= |wcs|
  {
    if ok then Clean(c, ep, wcs, n)
    else n > 0 && Clean(c, ep, wcs, n - 1) && Faulty(c, ReapAll(c, ep, wcs, n - 1), wcs[n - 1])
  }

  /** The lengths of the messages among the first `n` completions. */
  function DataLens(wcs: seq<Wc>, n: nat): seq<nat>
    requires n <= |wcs|
  {
    if n == 0 then [] else DataLens(wcs, n - 1) + if IsData(wcs[n - 1]) then [DecodeImm(wcs[n - 1].imm).1] else []
  }

  /** Clean completions queue exactly their messages, in order, and leave the connection as it was. */
  lemma {:induction false} CleanQueues(c: Config, ep: Ep, wcs: seq<Wc>, n: nat)
    requires ep.Ok(c) && n <= |wcs| && Clean(c, ep, wcs, n)
    ensures var r := ReapAll(c, ep, wcs, n);
            r.dead == ep.dead && Lens(r.rx.stash) == Lens(ep.rx.stash) + DataLens(wcs, n)
  {
    hide Faulty, ReapRecv, Lens, IsData;
    if n > 0 {
      CleanQueues(c, ep, wcs, n - 1);
      var r := ReapAll(c, ep, wcs, n - 1);
      ReapTakes(c, r, wcs[n - 1]);
      assert !Faulty(c, r, wcs[n - 1]);
    }
  }

  lemma VerdictMore(c: Config, ep: Ep, wcs: seq<Wc>, done: nat, batch: seq<Wc>, n: nat, ok: bool)
    requires ep.Ok(c) && Continues(wcs, done, batch) && n <= |batch| && Clean(c, ep, wcs, done)
    requires Verdict(c, ReapAll(c, ep, wcs, done), batch, n, ok)
    ensures Verdict(c, ep, wcs, done + n, ok)
  {
    hide Faulty, ReapAll;
    forall i: nat | done <= i < done + n
      ensures wcs[i] == batch[i - done]
      ensures ReapAll(c, ep, wcs, i) == ReapAll(c, ReapAll(c, ep, wcs, done), batch, i - done)
    {
      ReapAllMore(c, ep, wcs, done, batch, i - done);
    }
  }

  /**
    * How many batches the receive loop polls: one if something was queued before,
    * otherwise up to the first that brings data or a credit update, or all.
    */
  ghost predicate StopsAfter(batches: seq<seq<Wc>>, waiting: bool, b: nat) {
    && b <= |batches|
    && (b > 1 ==> !waiting) && (forall i :: 0 <= i < b - 1 ==> !Brings(batches[i]))
    && (b < |batches| ==> b > 0 && (waiting || Brings(batches[b - 1])))
  }

  /** Where the receive loop stands after `b` batches. */
  ghost predicate Stage(batches: seq<seq<Wc>>, waiting: bool, b: nat, consumed: nat, res: PollResult) {
    && b <= |batches|
    && (b > 1 ==> !waiting) && (forall i :: 0 <= i < b - 1 ==> !Brings(batches[i]))
    && match res
       case Pending => (b > 0 ==> !waiting && !Brings(batches[b - 1])) && consumed == Before(batches, b)
       case Ready => b > 0 && (waiting || Brings(batches[b - 1])) && consumed == Before(batches, b)
       case Failure => b > 0 && Before(batches, b - 1) < consumed <= Before(batches, b)
  }

  lemma StageNext(batches: seq<seq<Wc>>, waiting: bool, b: nat, consumed: nat, n: nat, res: PollResult)
    requires b < |batches| && Stage(batches, waiting, b, consumed, Pending) && n <= |batches[b]|
    requires if res.Failure? then n > 0 else n == |batches[b]| && (res.Ready? <==> waiting || Brings(batches[b]))
    ensures Stage(batches, waiting, b + 1, consumed + n, res)
  {
    hide Brings, Concat;
    PartContinues(batches, b);
  }

  lemma StageIs(batches: seq<seq<Wc>>, waiting: bool, b: nat, consumed: nat)
    requires Stage(batches, waiting, b, consumed, Pending)
    ensures consumed == Before(batches, b)
  {
  }

  /** It stops within the last of those batches when a completion in it is faulty. */
  ghost predicate FailsWithin(batches: seq<seq<Wc>>, waiting: bool, b: nat, consumed: nat) {
    && 0 < b <= |batches| && Before(batches, b - 1) < consumed <= Before(batches, b)
    && (b > 1 ==> !waiting) && (forall i :: 0 <= i < b - 1 ==> !Brings(batches[i]))
  }

  lemma StageEnds(batches: seq<seq<Wc>>, waiting: bool, b: nat, consumed: nat, res: PollResult)
    requires Stage(batches, waiting, b, consumed, res) && (res.Pending? ==> b == |batches|)
    ensures b <= |batches| && (res.Failure? ==> FailsWithin(batches, waiting, b, consumed))
    ensures !res.Failure? ==> StopsAfter(batches, waiting, b) && consumed == Before(batches, b)
    ensures res.Ready? ==> waiting || (b > 0 && Brings(batches[b - 1]))
    ensures res.Pending? ==> !(b > 0 && Brings(batches[b - 1]))
  {
    hide Before;
  }

  lemma {:induction false} SendsKeepQueue(c: Config, ep: Ep, wcs: seq<SendWc>, n: nat)
    requires ep.Ok(c) && n <= |wcs|
    ensures ReapSends(c, ep, wcs, n).rx == ep.rx
  {
    if n > 0 {
      SendsKeepQueue(c, ep, wcs, n - 1);
    }
  }

  /** Without a fault, `poll_recv` leaves and returns the queue it found and then exactly the messages reaped. */
  lemma PollQueues(c: Config, ep: Ep, room: nat, sent: seq<SendWc>, s: nat, wcs: seq<Wc>, n: nat)
    requires ep.Ok(c) && s <= |sent| && n <= |wcs| && |ep.rx.stash| < room && !FailedAt(sent, s)
    requires Clean(c, CreditRing.FlushCredits(c, ReapSends(c, ep, sent, s)), wcs, n)
    ensures Lens(PollCall(c, ep, room, sent, s, wcs, n).rx.stash) == Lens(ep.rx.stash) + DataLens(wcs, n)
  {
    hide Lens, DataLens, ReapAll, Clean, ReapSends;
    SendsKeepQueue(c, ep, sent, s);
    CleanQueues(c, CreditRing.FlushCredits(c, ReapSends(c, ep, sent, s)), wcs, n);
  }

  class CreditRingTransport {
    const cfg: Config
    const send: SendHalf
    const recv: RecvHalf
    var remoteCredits: nat
    var remoteFreedReceived: nat
    var localFreedCredits: nat
    var creditsSent: nat
    var sendInFlight: nat
    var peerDisconnected: bool

    ghost function Repr(): set<object> {
      {this, send, send.ring, send.ring.mem, recv, recv.mem, recv.virtualIdxMap, recv.tracker, recv.tracker.released}
    }

    ghost predicate Valid()
      reads Repr()
    {
      send.ring.mem != recv.mem && Abs().Ok(cfg)
    }

    ghost function Abs(): Ep
      reads Repr()
    {
      Ep(peerDisconnected, send.Abs(), recv.Abs(),
         remoteCredits, remoteFreedReceived, localFreedCredits, creditsSent, sendInFlight)
    }

    constructor (c: Config)
      requires c.Valid()
      ensures Valid() && fresh(Repr()) && cfg == c && Abs() == CreditRing.Init(c)
    {
      cfg := c;
      send := new SendHalf(c.cap);
      recv := new RecvHalf(c.cap, c.maxOut);
      remoteCredits, remoteFreedReceived, localFreedCredits, creditsSent := c.maxOut, 0, 0, 0;
      sendInFlight, peerDisconnected := 0, false;
    }

    method FlushCredits()
      requires Valid()
      modifies this`creditsSent, this`sendInFlight, send`posted
      ensures Valid() && Abs() == CreditRing.FlushCredits(cfg, old(Abs()))
    {
      if localFreedCredits > creditsSent && sendInFlight < cfg.SqCapacity() {
        send.Append(Credit(Wire(localFreedCredits), localFreedCredits));
        creditsSent := localFreedCredits;
        sendInFlight := sendInFlight + 1;
      }
    }

    /** Announce what became contiguous. */
    method AddFreed(contiguous: nat)
      requires Valid()
      modifies this`creditsSent, this`sendInFlight, this`localFreedCredits, send`posted
      ensures Valid() && Abs() == CreditRing.AddFreed(cfg, old(Abs()), contiguous)
    {
      if contiguous > 0 {
        localFreedCredits := localFreedCredits + contiguous;
        FlushCredits();
      }
    }

    method ApplyCredit(imm: nat)
      requires Valid()
      modifies this`remoteCredits, this`remoteFreedReceived
      ensures Valid() && Abs() == CreditRing.ApplyCredit(cfg, old(Abs()), imm)
    {
      var delta := (Wire(imm) + U32 - Wire(remoteFreedReceived)) % U32;
      if 0 < delta <= cfg.maxOut {
        remoteCredits := remoteCredits + delta;
        remoteFreedReceived := imm;
      }
    }

    method ReapPad()
      requires Valid()
      modifies Repr()
      ensures Valid() && Abs() == CreditRing.ReapPad(cfg, old(Abs())) && recv.stash == old(recv.stash)
    {
      var contiguous := recv.ReapPad();
      AddFreed(contiguous);
    }

    /** The state in which `rc` has been queued. */
    ghost function Queueing(rc: Option<RecvDone>): Ep
      reads Repr()
    {
      Abs().(rx := recv.Queueing(rc))
    }

    /** The state in which the completions `out` come before those queued. */
    ghost function Holding(out: seq<RecvDone>): Ep
      reads Repr()
    {
      Behind(Abs(), out)
    }

    /** One completion of the `poll_recv` loop; the caller places `rc`. */
    method ReapRecvOne(wc: Wc) returns (ok: bool, rc: Option<RecvDone>)
      requires Valid()
      modifies Repr()
      ensures Valid()
      ensures Queueing(rc) == ReapRecv(cfg, old(Abs()), wc)
      ensures recv.stash == old(recv.stash) && (!ok ==> peerDisconnected && rc.None?)
      ensures (ok <==> !Faulty(cfg, old(Abs()), wc)) && (rc.Some? <==> ok && IsData(wc))
    {
      if wc.WriteImm? {
        ArriveIffFree(recv.Abs(), DecodeImm(wc.imm).0, DecodeImm(wc.imm).1);
      }
      hide Full, FindFree;
      rc, ok := None, true;
      match wc
      case Failed =>
        peerDisconnected, ok := true, false;
      case WriteImm(imm) =>
        var (offset, length) := DecodeImm(imm);
        if offset >= cfg.cap || (length > 0 && offset + length > cfg.cap) {
          peerDisconnected, ok := true, false;
        } else if length == 0 {
          ReapPad();
        } else {
          rc := recv.MapArrival(offset, length);
          if rc.None? {
            peerDisconnected, ok := true, false;
          }
        }
      case CreditImm(imm) =>
        ApplyCredit(imm);
      case PlainRecv =>
      case Unexpected =>
    }

    method DrainRecvOne(wc: Wc)
      requires Valid()
      modifies Repr()
      ensures Valid() && Abs() == DrainRecv(cfg, old(Abs()), wc)
    {
      match wc
      case Failed =>
        peerDisconnected := true;
      case WriteImm(imm) =>
        var (_, length) := DecodeImm(imm);
        if length == 0 {
          ReapPad();
        } else {
          var rc := recv.MapArrival(DecodeImm(imm).0, length);
          if rc.Some? {
            recv.stash := recv.stash + [rc.value];
          }
        }
      case CreditImm(imm) =>
        ApplyCredit(imm);
      case PlainRecv =>
      case Unexpected =>
    }

    /** `drain_recv_credits`: one non-blocking batch, abandoned at a failed completion. */
    method DrainRecvCredits(wcs: seq<Wc>) returns (consumed: nat)
      requires Valid()
      modifies Repr()
      ensures Valid() && consumed <= |wcs|
      ensures Abs() == DrainAll(cfg, old(Abs()), wcs, consumed)
      ensures StopsAtFailure(wcs, consumed)
    {
      consumed := 0;
      while consumed < |wcs|
        invariant Valid() && consumed <= |wcs|
        invariant forall i :: 0 <= i < consumed ==> !wcs[i].Failed?
        invariant Abs() == DrainAll(cfg, old(Abs()), wcs, consumed)
      {
        DrainRecvOne(wcs[consumed]);
        consumed := consumed + 1;
        if wcs[consumed - 1].Failed? {
          return;
        }
      }
    }

    /** `process_send_completions`: stops at a failed completion. */
    method ProcessSendCompletions(wcs: seq<SendWc>) returns (ok: bool, consumed: nat)
      requires Valid()
      modifies this`sendInFlight, this`peerDisconnected, send.ring`head
      ensures Valid() && consumed <= |wcs|
      ensures Abs() == ReapSends(cfg, old(Abs()), wcs, consumed)
      ensures NoneBefore(wcs, consumed) && (ok <==> !FailedAt(wcs, consumed))
      ensures ok ==> consumed == |wcs|
    {
      consumed, ok := 0, true;
      while consumed < |wcs|
        invariant Valid() && ok && consumed <= |wcs| && !FailedAt(wcs, consumed) && NoneBefore(wcs, consumed)
        invariant Abs() == ReapSends(cfg, old(Abs()), wcs, consumed)
      {
        var wc := wcs[consumed];
        consumed := consumed + 1;
        if wc.SendFailed? {
          peerDisconnected := true;
          return false, consumed;
        }
        if wc.wrId / CREDIT_FLAG % 2 == 1 {
        } else if wc.wrId == PADDING_WR_ID {
        } else if 0 < wc.wrId <= cfg.cap {
          send.ring.Release(wc.wrId);
        }
        sendInFlight := if sendInFlight > 0 then sendInFlight - 1 else 0;
      }
    }

    /** `poll_send_completion` once the queue has yielded the batch `wcs`. */
    method PollSendCompletion(wcs: seq<SendWc>) returns (ok: bool, consumed: nat)
      requires Valid()
      modifies Repr()
      ensures Valid() && consumed <= |wcs| && (ok ==> consumed == |wcs|)
      ensures NoneBefore(wcs, consumed) && (ok <==> !FailedAt(wcs, consumed))
      ensures var reaped := ReapSends(cfg, old(Abs()), wcs, consumed);
              Abs() == if ok then CreditRing.FlushCredits(cfg, reaped) else reaped
    {
      ok, consumed := ProcessSendCompletions(wcs);
      if ok {
        FlushCredits();
      }
    }

    /** `send_gather` */
    method SendGather(bufs: seq<seq<u8>>, recvCq: seq<Wc>) returns (res: SendResult, consumed: nat)
      requires Valid()
      modifies Repr()
      ensures Valid() && consumed <= |recvCq|
      ensures (Abs(), res) == SendCall(cfg, old(Abs()), Concat(bufs), recvCq, consumed)
      // the inline drain takes one batch, and only without a credit
      ensures if old(peerDisconnected) || Concat(bufs) == [] || old(remoteCredits) > 0 then consumed == 0
              else consumed <= DRAIN_BATCH && StopsAtFailure(recvCq[..Min(|recvCq|, DRAIN_BATCH)], consumed)
    {
      consumed := 0;
      if peerDisconnected {
        return Broken, 0;
      }
      var total := TotalLen(bufs);
      if total == 0 {
        return Accepted(0), 0;
      }
      if remoteCredits == 0 {
        var batch := recvCq[..Min(|recvCq|, DRAIN_BATCH)];
        consumed := DrainRecvCredits(batch);
        DrainSame(cfg, old(Abs()), recvCq, batch, consumed);
        if remoteCredits == 0 {
          return Accepted(0), consumed;
        }
      }
      res := AdmitSend(bufs, total);
    }

    method AdmitSend(bufs: seq<seq<u8>>, total: nat) returns (res: SendResult)
      requires Valid() && total == |Concat(bufs)| && remoteCredits > 0
      modifies Repr()
      ensures Valid() && (Abs(), res) == Admit(cfg, old(Abs()), Concat(bufs))
    {
      hide ShapeOk, Ring.Rollback;
      if sendInFlight + 2 > cfg.SqCapacity() {
        return Accepted(0);
      }
      var len := Min(Min(Min(total, cfg.maxMsg), cfg.cap), IMM_MAX);
      GrantInBounds(send.ring.Cursors(), len);
      hide Ring.Reserve, Post, Concat;
      var reservation := send.Reserve(len);
      if reservation.None? {
        return Accepted(0);
      }
      var (offset, padding) := reservation.value;
      if padding > 0 && remoteCredits < 2 {
        send.Rollback(offset, padding);
        return Accepted(0);
      }
      PostGranted(offset, padding, len, bufs);
      return Accepted(len);
    }

    /** The requests of a granted reservation, and what they cost. */
    method PostGranted(offset: nat, padding: nat, len: nat, bufs: seq<seq<u8>>)
      requires Valid() && offset + len <= cfg.cap && len <= |Concat(bufs)|
      requires remoteCredits >= if padding > 0 then 2 else 1
      modifies Repr()
      ensures Valid()
      ensures var ep := old(Abs()); var wrs := if padding > 0 then 2 else 1;
              Abs() == ep.(tx := Post(cfg.cap, ep.tx, Grant(ep.tx.ring, offset, padding), Concat(bufs)[..len]),
                           credits := ep.credits - wrs, inFlight := ep.inFlight + wrs)
    {
      hide Post, Concat, ShapeOk;
      send.Post(offset, padding, len, bufs);
      var wrs := if padding > 0 then 2 else 1;
      remoteCredits, sendInFlight := remoteCredits - wrs, sendInFlight + wrs;
    }

    /** `n` send completions have been reaped since `start`. */
    ghost predicate Reaping(start: Ep, sendCq: seq<SendWc>, n: nat)
      reads Repr()
    {
      Valid() && start.Ok(cfg) && n <= |sendCq| && Abs() == ReapSends(cfg, start, sendCq, n)
    }

    /** One batch of `drain_send_cq`. */
    method ReapSendBatch(sendCq: seq<SendWc>, done: nat, ghost start: Ep) returns (ok: bool, n: nat)
      requires Reaping(start, sendCq, done) && done < |sendCq| && !FailedAt(sendCq, done) && NoneBefore(sendCq, done)
      modifies this`sendInFlight, this`peerDisconnected, send.ring`head
      ensures 0 < n <= |sendCq| - done && Reaping(start, sendCq, done + n)
      ensures NoneBefore(sendCq, done + n) && (ok <==> !FailedAt(sendCq, done + n))
    {
      hide ReapSends, Ep.Ok, Abs, FailedAt, NoneBefore, Continues;
      var batch := sendCq[done..Min(done + 8, |sendCq|)];
      ok, n := ProcessSendCompletions(batch);
      FailedWithin(sendCq, done, batch, n);
      if n == 0 {
        NotFailedYet(batch);
      }
      ReapSendsMore(cfg, start, sendCq, done, batch, n);
    }

    /** `drain_send_cq`: batches of eight until the queue is empty or one fails. */
    method DrainSendCq(sendCq: seq<SendWc>) returns (ok: bool, consumed: nat)
      requires Valid()
      modifies this`sendInFlight, this`peerDisconnected, send.ring`head
      ensures Valid() && consumed <= |sendCq|
      ensures Abs() == ReapSends(cfg, old(Abs()), sendCq, consumed)
      ensures NoneBefore(sendCq, consumed) && (ok <==> !FailedAt(sendCq, consumed))
      ensures ok ==> consumed == |sendCq|
    {
      consumed, ok := 0, true;
      ghost var start := Abs();
      assert Reaping(start, sendCq, 0) && !FailedAt(sendCq, 0) && NoneBefore(sendCq, 0);
      hide FailedAt, NoneBefore, Reaping;
      while ok && consumed < |sendCq|
        invariant consumed <= |sendCq| && Reaping(start, sendCq, consumed)
        invariant NoneBefore(sendCq, consumed) && (ok <==> !FailedAt(sendCq, consumed))
      {
        var n;
        ok, n := ReapSendBatch(sendCq, consumed, start);
        consumed := consumed + n;
      }
      ReapingIs(start, sendCq, consumed);
    }

    lemma ReapingIs(start: Ep, sendCq: seq<SendWc>, n: nat)
      requires Reaping(start, sendCq, n)
      ensures Valid() && start.Ok(cfg) && n <= |sendCq| && Abs() == ReapSends(cfg, start, sendCq, n)
    {
    }

    /** Reap one completion and place the message it brings, if any. */
    method PlaceOne(wc: Wc, before: seq<RecvDone>, room: nat) returns (ok: bool, out: seq<RecvDone>, got: bool)
      requires Valid() && |before| <= room && (|before| < room ==> recv.stash == [])
      modifies Repr()
      ensures Valid() && |out| <= room && (|out| < room ==> recv.stash == [])
      ensures Holding(out) == ReapRecv(cfg, old(Holding(before)), wc)
      ensures ok <==> !Faulty(cfg, old(Holding(before)), wc)
      ensures !ok ==> peerDisconnected
      ensures got <==> ok && IsData(wc)
      ensures !got ==> out == before
    {
      ReapBehind(cfg, Abs(), before, wc);
      var rc;
      ok, rc := ReapRecvOne(wc);
      out, got := before, rc.Some?;
      if rc.Some? {
        if |out| < room {
          out := out + [rc.value];
        } else {
          recv.stash := recv.stash + [rc.value];
        }
      }
    }

    /** `n` of the completions `all` have been reaped since `start`, `out` handed out. */
    ghost predicate Progress(start: Ep, all: seq<Wc>, n: nat, out: seq<RecvDone>, room: nat)
      reads Repr()
    {
      && Valid() && start.Ok(cfg) && n <= |all|
      && |out| <= room && (|out| < room ==> recv.stash == [])
      && Holding(out) == ReapAll(cfg, start, all, n)
    }

    lemma ProgressIs(start: Ep, all: seq<Wc>, n: nat, out: seq<RecvDone>, room: nat)
      ensures Progress(start, all, n, out, room) <==>
        && Valid() && start.Ok(cfg) && n <= |all|
        && |out| <= room && (|out| < room ==> recv.stash == [])
        && Holding(out) == ReapAll(cfg, start, all, n)
    {
    }

    /** One batch of the receive queue: data fills `out` up to `room`, then the stash. */
    method ReapBatch(wcs: seq<Wc>, before: seq<RecvDone>, room: nat)
      returns (ok: bool, out: seq<RecvDone>, gotData: bool, gotCredits: bool, consumed: nat)
      requires Valid() && |before| <= room && (|before| < room ==> recv.stash == [])
      modifies Repr()
      ensures consumed <= |wcs| && (ok ==> consumed == |wcs|)
      ensures Progress(old(Holding(before)), wcs, consumed, out, room)
      ensures Verdict(cfg, old(Holding(before)), wcs, consumed, ok) && (!ok ==> peerDisconnected)
      ensures ok ==> (gotData || gotCredits <==> Brings(wcs)) && (!gotData ==> out == before)
    {
      hide *;
      ok, out, gotData, gotCredits, consumed := true, before, false, false, 0;
      ghost var start := Holding(before);
      BatchStart(wcs, before, room);
      while ok && consumed < |wcs|
        invariant consumed <= |wcs| && Progress(start, wcs, consumed, out, room) && start.Ok(cfg)
        invariant Verdict(cfg, start, wcs, consumed, ok) && (!ok ==> peerDisconnected)
        invariant ok ==> Seen(wcs, consumed, gotData, gotCredits) && (!gotData ==> out == before)
      {
        ProgressIs(start, wcs, consumed, out, room);
        SeenNext(wcs, consumed, gotData, gotCredits);
        VerdictNext(cfg, start, wcs, consumed);
        var got;
        ok, out, got := PlaceOne(wcs[consumed], out, room);
        gotData := gotData || got;
        gotCredits := gotCredits || wcs[consumed].CreditImm?;
        consumed := consumed + 1;
        ProgressIs(start, wcs, consumed, out, room);
      }
      if ok {
        SeenAll(wcs, gotData, gotCredits);
      }
    }

    lemma BatchStart(wcs: seq<Wc>, before: seq<RecvDone>, room: nat)
      requires Valid() && |before| <= room && (|before| < room ==> recv.stash == [])
      ensures Holding(before).Ok(cfg) && Progress(Holding(before), wcs, 0, before, room)
      ensures Verdict(cfg, Holding(before), wcs, 0, true) && Seen(wcs, 0, false, false)
    {
    }

    /** One turn of the `poll_recv` loop. */
    method NextBatch(batch: seq<Wc>, before: seq<RecvDone>, room: nat, ghost start: Ep, ghost all: seq<Wc>, ghost done: nat)
      returns (res: PollResult, out: seq<RecvDone>, n: nat)
      requires Progress(start, all, done, before, room) && Continues(all, done, batch)
      requires start.Ok(cfg) && Verdict(cfg, start, all, done, true)
      modifies Repr()
      ensures n <= |batch| && Progress(start, all, done + n, out, room)
      ensures Verdict(cfg, start, all, done + n, !res.Failure?)
      ensures !res.Failure? ==> n == |batch| && (res.Ready? <==> before != [] || Brings(batch))
      ensures res.Pending? ==> out == []
      ensures res.Failure? ==> peerDisconnected && n > 0
    {
      hide ReapAll, Clean, Brings;
      var ok, gotData, gotCredits;
      ok, out, gotData, gotCredits, n := ReapBatch(batch, before, room);
      ReapAllMore(cfg, start, all, done, batch, n);
      VerdictMore(cfg, start, all, done, batch, n, ok);
      res := if !ok then Failure else if |out| > 0 || gotData || gotCredits then Ready else Pending;
    }

    lemma AtStart(batches: seq<seq<Wc>>, before: seq<RecvDone>, room: nat)
      requires Valid() && |before| < room && recv.stash == []
      ensures Holding(before).Ok(cfg) && Progress(Holding(before), Concat(batches), 0, before, room)
      ensures Verdict(cfg, Holding(before), Concat(batches), 0, true) && Stage(batches, before != [], 0, 0, Pending)
    {
      BatchStart(Concat(batches), before, room);
    }

    /** The loop of `poll_recv`: batches until one brings data or a credit update. */
    method ReapBatches(batches: seq<seq<Wc>>, before: seq<RecvDone>, room: nat)
      returns (res: PollResult, out: seq<RecvDone>, consumed: nat, ghost polled: nat)
      requires Valid() && |before| < room && recv.stash == []
      modifies Repr()
      ensures consumed <= |Concat(batches)| && polled <= |batches|
      ensures Progress(old(Holding(before)), Concat(batches), consumed, out, room)
      ensures Verdict(cfg, old(Holding(before)), Concat(batches), consumed, !res.Failure?)
      ensures if res.Failure? then peerDisconnected && FailsWithin(batches, before != [], polled, consumed)
              else StopsAfter(batches, before != [], polled) && consumed == Before(batches, polled)
      ensures res.Ready? <==> !res.Failure? && (before != [] || (polled > 0 && Brings(batches[polled - 1])))
      ensures res.Pending? ==> out == [] && consumed == |Concat(batches)|
    {
      hide *;
      out, consumed, polled, res := before, 0, 0, Pending;
      ghost var start, all := Holding(before), Concat(batches);
      AllParts(batches);
      AtStart(batches, before, room);
      var b := 0;
      while b < |batches| && res.Pending?
        invariant polled == b && Stage(batches, before != [], b, consumed, res)
        invariant b <= |batches| && consumed <= |all| && start.Ok(cfg)
        invariant Progress(start, all, consumed, out, room)
        invariant Verdict(cfg, start, all, consumed, !res.Failure?)
        invariant res.Pending? ==> out == before
        invariant res.Failure? ==> peerDisconnected
      {
        PartContinues(batches, b);
        StageIs(batches, before != [], b, consumed);
        var n;
        res, out, n := NextBatch(batches[b], out, room, start, all, consumed);
        StageNext(batches, before != [], b, consumed, n, res);
        consumed, b, polled := consumed + n, b + 1, polled + 1;
      }
      StageEnds(batches, before != [], b, consumed, res);
      if res.Pending? && |out| > 0 {
        res := Ready;
      }
    }

    lemma FirstRoom(out: seq<RecvDone>, room: nat)
      requires |out| <= room && (|out| < room ==> recv.stash == [])
      ensures out == FirstOf(Holding(out).rx.stash, room)
    {
    }

    /** `poll_recv` with room for `room` completions; `sendCq` and `batches` are ready. */
    method PollRecv(room: nat, sendCq: seq<SendWc>, batches: seq<seq<Wc>>)
      returns (res: PollResult, out: seq<RecvDone>, reaped: nat, consumed: nat, ghost polled: nat)
      requires Valid()
      modifies Repr()
      ensures Valid() && |out| <= room && (|out| < room ==> recv.stash == [])
      ensures reaped <= |sendCq| && consumed <= |Concat(batches)| && polled <= |batches|
      ensures Holding(out) == PollCall(cfg, old(Abs()), room, sendCq, reaped, Concat(batches), consumed)
      ensures out == FirstOf(PollCall(cfg, old(Abs()), room, sendCq, reaped, Concat(batches), consumed).rx.stash, room)
      ensures NoneBefore(sendCq, reaped)
      // a full buffer is served from the queue alone, a failed send completion ends the call
      ensures var waiting := old(recv.stash) != [];
              if room <= |old(recv.stash)| then res.Ready? && reaped == 0 && consumed == 0
              else if FailedAt(sendCq, reaped) then res.Failure? && consumed == 0
              else
                var ep := CreditRing.FlushCredits(cfg, ReapSends(cfg, old(Abs()), sendCq, reaped));
                && reaped == |sendCq|
                && ep.Ok(cfg) && Verdict(cfg, ep, Concat(batches), consumed, !res.Failure?)
                && (if res.Failure? then FailsWithin(batches, waiting, polled, consumed)
                    else StopsAfter(batches, waiting, polled) && consumed == Before(batches, polled))
                && (res.Ready? <==> !res.Failure? && (waiting || (polled > 0 && Brings(batches[polled - 1]))))
      ensures res.Pending? ==> out == [] && reaped == |sendCq| && consumed == |Concat(batches)|
      ensures res.Failure? ==> peerDisconnected
    {
      reaped, consumed, polled := 0, 0, 0;
      var filled := Min(room, |recv.stash|);
      out, recv.stash := recv.stash[..filled], recv.stash[filled..];
      assert Holding(out) == old(Abs());
      ghost var emptied := Abs();
      if filled >= room {
        FirstRoom(out, room);
        return Ready, out, 0, 0, 0;
      }
      var ok;
      ok, reaped := DrainSendCq(sendCq);
      SendsBehind(cfg, emptied, out, sendCq, reaped);
      hide ReapSends, ReapAll, Ep.Ok, CreditRing.FlushCredits, NoneBefore, Verdict, StopsAfter, FailsWithin, Brings;
      if !ok {
        FirstRoom(out, room);
        return Failure, out, reaped, 0, 0;
      }
      FlushBehind(cfg, Abs(), out);
      FlushCredits();
      res, out, consumed, polled := ReapBatches(batches, out, room);
      FirstRoom(out, room);
    }

    /** `repost_recv` */
    method RepostRecv(idx: nat)
      requires Valid() && idx < cfg.maxOut && recv.virtualIdxMap[idx].Some?
      modifies Repr()
      ensures Valid() && Abs() == CreditRing.RepostRecv(cfg, old(Abs()), idx)
    {
      var contiguous := recv.Unmap(idx);
      AddFreed(contiguous);
    }
  }
}
