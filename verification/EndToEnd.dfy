/**
  * Two streams over a pair of ring transports, credit or read: what the readers
  * of one side return against what the writers of the other side had accepted.
  */
module EndToEnd {
  import opened RingBuffers
  import opened TransportCommon
  import opened WorkLog
  import opened SendSide
  import opened CompletionTrackers
  import opened RecvSide
  import opened StreamSpec
  import CR = CreditRing
  import CP = CreditProtocol
  import RR = ReadRing
  import RP = ReadProtocol
  import RW = ReadWindow
  import SW = StreamWindow

  datatype Cfg = CreditCfg(cc: CR.Config) | ReadCfg(rc: RR.Config)

  /** One end of the connection, whichever ring it runs. */
  datatype End = CreditEnd(cn: CP.Node) | ReadEnd(rn: RP.Node) {
    function Log(): seq<Wr> { match this case CreditEnd(n) => n.ep.tx.log case ReadEnd(n) => n.ep.tx.log }
    function Exec(): nat { match this case CreditEnd(n) => n.exec case ReadEnd(n) => n.exec }
    function Rx(): Rx { match this case CreditEnd(n) => n.ep.rx case ReadEnd(n) => n.ep.rx }
    function Past(): Past { match this case CreditEnd(n) => n.past case ReadEnd(n) => n.past }
    function Dead(): bool { match this case CreditEnd(n) => n.ep.dead case ReadEnd(n) => n.ep.dead }
  }

  /**
    * An end, the stream over it, whether its last write was refused, the bytes its
    * writes had accepted and its reads returned.
    */
  datatype Side = Side(end: End, st: Stream, blocked: bool, accepted: seq<u8>, got: seq<u8>)

  /** What a ring and its connection do on their own. */
  datatype RingStep = CreditStep(cs: CP.Step) | ReadStep(rs: RP.Step)

  datatype Step =
    | Ring(step: RingStep)
    | Write(data: seq<u8>)
    | Read(room: nat)
    | Drain
    | Close

  /** Both ends run the same ring and have the shape its operations need. */
  ghost predicate Shaped(cfg: Cfg, e: End, f: End) {
    match cfg
    case CreditCfg(c) => e.CreditEnd? && f.CreditEnd? && CP.Shaped(c, e.cn, f.cn)
    case ReadCfg(c) => e.ReadEnd? && f.ReadEnd? && RP.Shaped(c, e.rn, f.rn)
  }

  /** The ring's invariant holds. */
  ghost predicate Safe(cfg: Cfg, e: End, f: End) {
    match cfg
    case CreditCfg(c) => e.CreditEnd? && f.CreditEnd? && CP.Inv(c, e.cn, f.cn)
    case ReadCfg(c) =>
      e.ReadEnd? && f.ReadEnd? && RP.Inv(c, e.rn, f.rn) && c.cap > 0 && RW.Roomy(c, e.rn) && RW.Roomy(c, f.rn)
  }

  function Slots(cfg: Cfg): nat { match cfg case CreditCfg(c) => c.maxOut case ReadCfg(c) => c.maxOut }
  function Capacity(cfg: Cfg): nat { match cfg case CreditCfg(c) => c.cap case ReadCfg(c) => c.cap }

  /** The rings' own steps: everything but sending, handing out and releasing. */
  predicate Internal(s: RingStep) {
    match s
    case CreditStep(cs) => !cs.Send? && !cs.Take? && !cs.Repost?
    case ReadStep(rs) => !rs.Send? && !rs.Take? && !rs.Repost?
  }

  ghost predicate RingNext(cfg: Cfg, e: End, f: End, s: RingStep, e': End, f': End)
    requires Shaped(cfg, e, f)
  {
    match cfg
    case CreditCfg(c) =>
      s.CreditStep? && e'.CreditEnd? && f'.CreditEnd? && CP.Next(c, e.cn, f.cn, s.cs, e'.cn, f'.cn)
    case ReadCfg(c) =>
      s.ReadStep? && e'.ReadEnd? && f'.ReadEnd? && RP.Next(c, e.rn, f.rn, s.rs, e'.rn, f'.rn)
  }

  /** The step neither writes over what the peer holds nor reaps beyond the window. */
  ghost predicate Within(cfg: Cfg, e: End, f: End, s: RingStep) {
    match cfg
    case CreditCfg(c) => e.CreditEnd? && f.CreditEnd? && s.CreditStep? ==> CP.Spaced(c, e.cn, f.cn, s.cs)
    case ReadCfg(c) => e.ReadEnd? && f.ReadEnd? && s.ReadStep? ==> RP.Windowed(c, e.rn, f.rn, s.rs)
  }

  function SendStep(cfg: Cfg, data: seq<u8>): RingStep {
    match cfg case CreditCfg(_) => CreditStep(CP.Send(data)) case ReadCfg(_) => ReadStep(RP.Send(data))
  }

  function TakeStep(cfg: Cfg, n: nat): RingStep {
    match cfg case CreditCfg(_) => CreditStep(CP.Take(n)) case ReadCfg(_) => ReadStep(RP.Take(n))
  }

  function RepostStep(cfg: Cfg, idx: nat): RingStep {
    match cfg case CreditCfg(_) => CreditStep(CP.Repost(idx)) case ReadCfg(_) => ReadStep(RP.Repost(idx))
  }

  /** The bytes a send accepts. */
  ghost function AcceptedBytes(cfg: Cfg, e: End, f: End, data: seq<u8>): seq<u8>
    requires Shaped(cfg, e, f)
  {
    match cfg
    case CreditCfg(c) =>
      (match CR.SendGather(c, e.cn.ep, data).1
       case Accepted(n) => data[..n]
       case Broken => [])
    case ReadCfg(c) =>
      (match RR.SendGather(c, e.rn.ep, data).1
       case Accepted(n) => data[..n]
       case Broken => [])
  }

  lemma SafeShaped(cfg: Cfg, e: End, f: End)
    requires Safe(cfg, e, f)
    ensures Shaped(cfg, e, f) && Shaped(cfg, f, e) && NoneEmpty(e.Log()) && NoneEmpty(f.Log())
  {
    hide RxInv, CP.Announced, RP.Lengths, RP.Cached, RP.HeadTrue, Staged, Pos, EncodeImm;
    match cfg
    case CreditCfg(c) => SentNonEmpty(c.cap, c.Bound(), e.Log()); SentNonEmpty(c.cap, c.Bound(), f.Log());
    case ReadCfg(c) => SentNonEmpty(c.cap, c.Bound(), e.Log()); SentNonEmpty(c.cap, c.Bound(), f.Log());
  }

  lemma SentNonEmpty(cap: nat, bound: nat, log: seq<Wr>)
    requires cap > 0 && WellPlaced(cap, bound, log)
    ensures NoneEmpty(log)
  {
    forall i | 0 <= i < |log| && log[i].Data?
      ensures |log[i].msg| > 0
    {
      assert Placed(cap, bound, log, i);
    }
  }

  lemma SafeRx(cfg: Cfg, e: End, f: End)
    requires Safe(cfg, e, f)
    ensures RxInv(Slots(cfg), Capacity(cfg), e.Log(), e.Exec(), f.Rx(), f.Past())
    ensures RxInv(Slots(cfg), Capacity(cfg), f.Log(), f.Exec(), e.Rx(), e.Past())
  {
    hide RxInv;
  }

  /** Every such step of either ring keeps the ring's invariant. */
  lemma RingKeeps(cfg: Cfg, e: End, f: End, s: RingStep, e': End, f': End)
    requires Safe(cfg, e, f) && Shaped(cfg, e, f) && RingNext(cfg, e, f, s, e', f') && Within(cfg, e, f, s)
    ensures Safe(cfg, e', f')
  {
    hide CP.Inv, RP.Inv, CP.Next, RP.Next, RP.Windowed, RW.Roomy, CP.Spaced;
    match cfg
    case CreditCfg(c) => CP.NextKeeps(c, e.cn, f.cn, s.cs, e'.cn, f'.cn);
    case ReadCfg(c) =>
      RW.RoomyNext(c, e.rn, f.rn, s.rs, e'.rn, f'.rn);
      RP.NextKeeps(c, e.rn, f.rn, s.rs, e'.rn, f'.rn);
  }

  /** Sending, handing out and releasing are always such steps. */
  lemma CallsWithin(cfg: Cfg, e: End, f: End, data: seq<u8>, n: nat)
    ensures Within(cfg, e, f, SendStep(cfg, data))
    ensures Within(cfg, e, f, TakeStep(cfg, n)) && Within(cfg, e, f, RepostStep(cfg, n))
  {
  }

  // ---------------------------------------------------------------------
  // What a step adds to a log, and what it leaves alone
  // ---------------------------------------------------------------------

  /** `log'` continues `log` with entries carrying `bytes`. */
  ghost predicate Adds(log: seq<Wr>, log': seq<Wr>, bytes: seq<u8>) {
    log <= log' && SentBytes(log', |log'|) == SentBytes(log, |log|) + bytes
  }

  lemma AddsNothing(log: seq<Wr>)
    ensures Adds(log, log, [])
  {
  }

  lemma AddsOne(log: seq<Wr>, w: Wr)
    ensures Adds(log, log + [w], if w.Data? then w.msg else [])
  {
    SentAppend(log, [w], |log|);
  }

  lemma AddsPost(cap: nat, tx: Tx, g: Grant, msg: seq<u8>)
    requires cap > 0 && g.offset + |msg| <= |tx.mem|
    ensures Adds(tx.log, Post(cap, tx, g, msg).log, msg)
  {
    var log' := Post(cap, tx, g, msg).log;
    var mid := log'[..|log'| - 1];
    assert log' == mid + [log'[|log'| - 1]];
    AddsOne(mid, log'[|log'| - 1]);
    if g.padding > 0 {
      assert mid == tx.log + [mid[|tx.log|]];
      AddsOne(tx.log, mid[|tx.log|]);
    } else {
      assert mid == tx.log;
    }
  }

  lemma CreditSendAdds(c: CR.Config, ep: CR.Ep, data: seq<u8>)
    requires ep.Ok(c)
    ensures var r := CR.SendGather(c, ep, data);
            && r.0.rx == ep.rx
            && Adds(ep.tx.log, r.0.tx.log, if r.1.Accepted? then data[..r.1.n] else [])
  {
    AddsNothing(ep.tx.log);
    var len := CR.SendLen(c, |data|);
    GrantInBounds(ep.tx.ring, len);
    if ep.tx.ring.Reserve(len).Some? {
      AddsPost(c.cap, ep.tx, ep.tx.ring.Reserve(len).value, data[..len]);
    }
    hide Ring.Reserve, Post, Adds;
  }

  lemma ReadSendAdds(c: RR.Config, ep: RR.Ep, data: seq<u8>)
    requires ep.Ok(c)
    ensures var r := RR.SendGather(c, ep, data);
            && r.0.rx == ep.rx
            && Adds(ep.tx.log, r.0.tx.log, if r.1.Accepted? then data[..r.1.n] else [])
  {
    AddsNothing(ep.tx.log);
    AddsOne(ep.tx.log, HeadRead);
    var len := c.SendLen(|data|);
    GrantInBounds(ep.tx.ring, len);
    if ep.tx.ring.Reserve(len).Some? {
      var g := ep.tx.ring.Reserve(len).value;
      AddsPost(c.cap, ep.tx, g, data[..len]);
      var log' := Post(c.cap, ep.tx, g, data[..len]).log;
      AddsOne(log', HeadRead);
      assert Adds(ep.tx.log, log' + [HeadRead], data[..len]);
    }
    hide Ring.Reserve, Post, Adds, RR.Ep.RemoteFree;
  }

  /** Reaping adds at most a completion for a free index. */
  ghost predicate Receives(rx: Rx, rx': Rx) {
    && (forall v: nat :: HandedOut(rx, v) <==> HandedOut(rx', v))
    && (forall v: nat :: HandedOut(rx, v) ==> rx'.vmap[v] == rx.vmap[v])
  }

  lemma ArriveReceives(rx: Rx, offset: nat, length: nat)
    requires ShapeOk(rx)
    ensures ArriveData(rx, offset, length).Some? ==> Receives(rx, ArriveData(rx, offset, length).value)
    ensures Receives(rx, ArrivePad(rx).0)
  {
    hide Tracker.Release, FindFree;
    if ArriveData(rx, offset, length).Some? {
      var rx' := ArriveData(rx, offset, length).value;
      assert rx'.stash[|rx.stash|].bufIdx == FindFree(rx.vmap, rx.nextVirt, |rx.vmap|).value;
      assert rx'.stash[..|rx.stash|] == rx.stash;
    }
  }

  lemma CreditReapAdds(c: CR.Config, ep: CR.Ep, wc: CR.Wc)
    requires ep.Ok(c)
    ensures Receives(ep.rx, CR.ReapRecv(c, ep, wc).rx) && Adds(ep.tx.log, CR.ReapRecv(c, ep, wc).tx.log, [])
    ensures Receives(ep.rx, CR.DrainRecv(c, ep, wc).rx) && Adds(ep.tx.log, CR.DrainRecv(c, ep, wc).tx.log, [])
  {
    assert Receives(ep.rx, ep.rx);
    AddsNothing(ep.tx.log);
    if wc.WriteImm? {
      ArriveReceives(ep.rx, DecodeImm(wc.imm).0, DecodeImm(wc.imm).1);
    }
    CreditPadAdds(c, ep);
    hide ArriveData, CR.ReapPad, Adds, Receives;
  }

  lemma CreditPadAdds(c: CR.Config, ep: CR.Ep)
    requires ep.Ok(c)
    ensures CR.ReapPad(c, ep).rx == ArrivePad(ep.rx).0 && Adds(ep.tx.log, CR.ReapPad(c, ep).tx.log, [])
  {
    AddsNothing(ep.tx.log);
    var n := ep.localFreed + ArrivePad(ep.rx).1;
    AddsOne(ep.tx.log, Credit(CR.Wire(n), n));
    hide Tracker.Release, Adds;
  }

  lemma ReadReapAdds(c: RR.Config, ep: RR.Ep, wc: RR.Wc)
    requires ep.Ok(c)
    ensures Receives(ep.rx, RR.ReapRecv(c, ep, wc).rx) && RR.ReapRecv(c, ep, wc).tx == ep.tx
  {
    assert Receives(ep.rx, ep.rx);
    if wc.WriteImm? {
      ArriveReceives(ep.rx, DecodeImm(wc.imm).0, DecodeImm(wc.imm).1);
    }
    hide ArriveData, Receives, RR.Head.Advance, Tracker.Release;
  }

  /** What a step other than hand-out and release does, as the two streams see it. */
  ghost predicate Undisturbed(e: End, f: End, e': End, f': End, bytes: seq<u8>) {
    && f'.Log() == f.Log() && Adds(e.Log(), e'.Log(), bytes)
    && Quiet(f.Log(), e.Rx(), e.Past(), f'.Log(), e'.Rx(), e'.Past())
    && Quiet(e.Log(), f.Rx(), f.Past(), e'.Log(), f'.Rx(), f'.Past())
  }

  lemma CreditUndisturbed(c: CR.Config, x: CP.Node, y: CP.Node, s: CP.Step, x': CP.Node, y': CP.Node)
    requires CP.Shaped(c, x, y) && CP.Next(c, x, y, s, x', y') && !s.Take? && !s.Repost?
    ensures Undisturbed(CreditEnd(x), CreditEnd(y), CreditEnd(x'), CreditEnd(y'),
                        if s.Send? && CR.SendGather(c, x.ep, s.data).1.Accepted?
                        then s.data[..CR.SendGather(c, x.ep, s.data).1.n] else [])
  {
    AddsNothing(x.ep.tx.log);
    match s {
      case Send(data) => CreditSendAdds(c, x.ep, data); hide CR.SendGather;
      case Execute =>
      case SendDone =>
      case RecvDone => CreditReapAdds(c, x.ep, CP.Arrives(y.ep.tx.log[x.past.rdone])); hide CR.ReapRecv, AfterPad;
      case DrainDone => CreditReapAdds(c, x.ep, CP.Arrives(y.ep.tx.log[x.past.rdone])); hide CR.DrainRecv, AfterPad;
      case Flush => AddsOne(x.ep.tx.log, Credit(CR.Wire(x.ep.localFreed), x.ep.localFreed));
    }
  }

  lemma ReadUndisturbed(c: RR.Config, x: RP.Node, y: RP.Node, s: RP.Step, x': RP.Node, y': RP.Node)
    requires RP.Shaped(c, x, y) && RP.Next(c, x, y, s, x', y') && !s.Take? && !s.Repost?
    ensures Undisturbed(ReadEnd(x), ReadEnd(y), ReadEnd(x'), ReadEnd(y'),
                        if s.Send? && RR.SendGather(c, x.ep, s.data).1.Accepted?
                        then s.data[..RR.SendGather(c, x.ep, s.data).1.n] else [])
  {
    AddsNothing(x.ep.tx.log);
    match s {
      case Send(data) => ReadSendAdds(c, x.ep, data); hide RR.SendGather;
      case Execute =>
      case SendDone =>
      case RecvDone => ReadReapAdds(c, x.ep, RP.Arrives(y.ep.tx.log[x.past.rdone])); hide RR.ReapRecv, AfterPad;
    }
  }

  // ---------------------------------------------------------------------
  // Streams over the rings
  // ---------------------------------------------------------------------

  /** The ring takes `n` completions off its queue. */
  ghost predicate Takes(cfg: Cfg, e: End, f: End, n: nat, e': End)
    requires Shaped(cfg, e, f)
  {
    RingNext(cfg, e, f, TakeStep(cfg, n), e', f)
  }

  /** The ring hands out `o.took` completions and takes back the one reposted. */
  ghost predicate Applies(cfg: Cfg, e: End, f: End, o: Outcome, e': End)
    requires Shaped(cfg, e, f)
  {
    exists e1 ::
      && Takes(cfg, e, f, o.took, e1)
      && Shaped(cfg, e1, f)
      && if o.repost.Some? then RingNext(cfg, e1, f, RepostStep(cfg, o.repost.value), e', f) else e' == e1
  }

  /** Side `x` (with peer `y`) takes step `s`, reaching `x'` and `y'`. */
  ghost predicate Next(cfg: Cfg, x: Side, y: Side, s: Step, x': Side, y': Side)
    requires Shaped(cfg, x.end, y.end)
  {
    match s
    case Ring(step) =>
      && Internal(step) && RingNext(cfg, x.end, y.end, step, x'.end, y'.end)
      && x' == x.(end := x'.end) && y' == y.(end := y'.end)
    case Write(data) =>
      && !x.st.eof && RingNext(cfg, x.end, y.end, SendStep(cfg, data), x'.end, y'.end)
      && y' == y.(end := y'.end)
      && var bytes := AcceptedBytes(cfg, x.end, y.end, data);
         x' == x.(end := x'.end, accepted := x.accepted + bytes, blocked := if data == [] then x.blocked else bytes == [])
    case Read(room) =>
      && Ready(x.end.Rx(), x.st) && StreamSpec.Read(x.end.Rx(), x.st, room).Some?
      && var o := StreamSpec.Read(x.end.Rx(), x.st, room).value;
         && Applies(cfg, x.end, y.end, o, x'.end)
         && x' == x.(end := x'.end, st := o.st, got := x.got + o.bytes) && y' == y
    case Drain =>
      && x.blocked && !x.st.eof && Ready(x.end.Rx(), x.st) && x.end.Rx().stash != []
      && var o := DrainOne(x.end.Rx(), x.st);
         Applies(cfg, x.end, y.end, o, x'.end) && x' == x.(end := x'.end, st := o.st) && y' == y
    case Close =>
      x' == x.(st := x.st.(eof := true)) && y' == y
  }

  /** What `x` had accepted reaches the reader of `y` in order. */
  ghost predicate Flows(x: Side, y: Side) {
    && x.accepted == SentBytes(x.end.Log(), |x.end.Log()|)
    && Fifo(x.end.Log(), y.end.Rx(), y.end.Past(), y.st, y.got)
  }

  ghost predicate Linked(cfg: Cfg, x: Side, y: Side) {
    Safe(cfg, x.end, y.end) && Flows(x, y) && Flows(y, x)
  }

  /** The stream's invariants under a step of the rings. */
  lemma UndisturbedKeeps(cfg: Cfg, x: Side, y: Side, e': End, f': End, bytes: seq<u8>, blocked: bool)
    requires Linked(cfg, x, y) && Safe(cfg, e', f') && Undisturbed(x.end, y.end, e', f', bytes)
    ensures Linked(cfg, x.(end := e', accepted := x.accepted + bytes, blocked := blocked), y.(end := f'))
  {
    hide RxInv, Fifo, Safe, SentBytes, Quiet, End.Log, End.Rx, End.Past, End.Exec;
    SafeRx(cfg, x.end, y.end);
    SafeRx(cfg, e', f');
    QuietKeeps(Slots(cfg), Capacity(cfg), x.end.Log(), x.end.Exec(), y.end.Rx(), y.end.Past(),
               e'.Log(), e'.Exec(), f'.Rx(), f'.Past(), y.st, y.got);
    QuietKeeps(Slots(cfg), Capacity(cfg), y.end.Log(), y.end.Exec(), x.end.Rx(), x.end.Past(),
               f'.Log(), f'.Exec(), e'.Rx(), e'.Past(), x.st, x.got);
  }

  /** Every step of a ring other than hand-out and release leaves the streams undisturbed. */
  lemma RingUndisturbed(cfg: Cfg, e: End, f: End, s: RingStep, e': End, f': End)
    requires Shaped(cfg, e, f) && RingNext(cfg, e, f, s, e', f') && Internal(s)
    ensures Undisturbed(e, f, e', f', [])
  {
    hide CP.Next, RP.Next;
    match cfg
    case CreditCfg(c) => CreditUndisturbed(c, e.cn, f.cn, s.cs, e'.cn, f'.cn);
    case ReadCfg(c) => ReadUndisturbed(c, e.rn, f.rn, s.rs, e'.rn, f'.rn);
  }

  lemma SendUndisturbed(cfg: Cfg, e: End, f: End, data: seq<u8>, e': End, f': End)
    requires Shaped(cfg, e, f) && RingNext(cfg, e, f, SendStep(cfg, data), e', f')
    ensures Undisturbed(e, f, e', f', AcceptedBytes(cfg, e, f, data))
  {
    hide CP.Next, RP.Next;
    match cfg
    case CreditCfg(c) => CreditUndisturbed(c, e.cn, f.cn, CP.Send(data), e'.cn, f'.cn);
    case ReadCfg(c) => ReadUndisturbed(c, e.rn, f.rn, RP.Send(data), e'.rn, f'.rn);
  }

  /** Handing out and releasing, on whichever ring. */
  lemma AppliesAfter(cfg: Cfg, e: End, f: End, o: Outcome, e': End)
    requires Shaped(cfg, e, f) && Applies(cfg, e, f, o, e')
    ensures Safe(cfg, e, f) ==> Safe(cfg, e', f)
    ensures Adds(e.Log(), e'.Log(), []) && ShapeOk(e.Rx()) && o.took <= |e.Rx().stash|
    ensures o.repost.Some? ==> HandedOut(e.Rx().(stash := e.Rx().stash[o.took..]), o.repost.value)
    ensures e'.Rx() == After(e.Rx(), o) && e'.Past() == PastAfter(e.Rx(), e.Past(), o) && e'.Dead() == e.Dead()
  {
    hide Safe, RingNext, Takes, Tracker.Release, Adds, End.Log, End.Rx, End.Past, End.Dead, Shaped, Within, HandedOut;
    var e1 :|
      && Takes(cfg, e, f, o.took, e1)
      && Shaped(cfg, e1, f)
      && if o.repost.Some? then RingNext(cfg, e1, f, RepostStep(cfg, o.repost.value), e', f) else e' == e1;
    AddsNothing(e.Log());
    TakeIs(cfg, e, f, o.took, e1);
    CallsWithin(cfg, e, f, [], o.took);
    if Safe(cfg, e, f) {
      RingKeeps(cfg, e, f, TakeStep(cfg, o.took), e1, f);
    }
    if o.repost.Some? {
      CallsWithin(cfg, e1, f, [], o.repost.value);
      RepostIs(cfg, e1, f, o.repost.value, e');
      HandedIn(e1.Rx(), o.repost.value);
      if Safe(cfg, e, f) {
        RingKeeps(cfg, e1, f, RepostStep(cfg, o.repost.value), e', f);
      }
    }
  }

  lemma TakeIs(cfg: Cfg, e: End, f: End, n: nat, e1: End)
    requires Shaped(cfg, e, f) && Takes(cfg, e, f, n, e1)
    ensures n <= |e.Rx().stash| && e1.Log() == e.Log() && ShapeOk(e.Rx()) && e1.Dead() == e.Dead()
    ensures RingNext(cfg, e, f, TakeStep(cfg, n), e1, f)
    ensures e1.Rx() == e.Rx().(stash := e.Rx().stash[n..]) && e1.Past() == e.Past().(taken := e.Past().taken + n)
  {
  }

  lemma CreditRepostIs(c: CR.Config, ep: CR.Ep, idx: nat)
    requires ep.Ok(c) && idx < |ep.rx.vmap| && ep.rx.vmap[idx].Some?
    ensures CR.RepostRecv(c, ep, idx).rx == Repost(ep.rx, idx).0 && Adds(ep.tx.log, CR.RepostRecv(c, ep, idx).tx.log, [])
    ensures CR.RepostRecv(c, ep, idx).dead == ep.dead
  {
    hide Tracker.Release, Adds;
    AddsNothing(ep.tx.log);
    var n := ep.localFreed + Repost(ep.rx, idx).1;
    AddsOne(ep.tx.log, Credit(CR.Wire(n), n));
  }

  lemma ReadRepostIs(c: RR.Config, ep: RR.Ep, idx: nat)
    requires ep.Ok(c) && idx < |ep.rx.vmap| && ep.rx.vmap[idx].Some?
    ensures RR.RepostRecv(c, ep, idx).rx == Repost(ep.rx, idx).0 && RR.RepostRecv(c, ep, idx).tx == ep.tx
    ensures RR.RepostRecv(c, ep, idx).dead == ep.dead
  {
    hide Tracker.Release, RR.Head.Advance;
  }

  lemma RepostIs(cfg: Cfg, e1: End, f: End, idx: nat, e': End)
    requires Shaped(cfg, e1, f) && RingNext(cfg, e1, f, RepostStep(cfg, idx), e', f)
    ensures ShapeOk(e1.Rx()) && HandedOut(e1.Rx(), idx)
    ensures e'.Rx() == Repost(e1.Rx(), idx).0 && e'.Past() == AfterRepost(e1.Rx(), e1.Past(), idx)
    ensures Adds(e1.Log(), e'.Log(), []) && e'.Dead() == e1.Dead()
  {
    hide Adds, CR.RepostRecv, RR.RepostRecv, Repost, AfterRepost;
    match cfg
    case CreditCfg(c) => CreditRepostIs(c, e1.cn.ep, idx);
    case ReadCfg(c) => ReadRepostIs(c, e1.rn.ep, idx); AddsNothing(e1.Log());
  }

  /** A stream call on `x` that keeps its queue in order keeps everything. */
  lemma OutcomeKeeps(cfg: Cfg, x: Side, y: Side, o: Outcome, e': End)
    requires Linked(cfg, x, y) && Shaped(cfg, x.end, y.end) && Applies(cfg, x.end, y.end, o, e')
    requires InOrder(y.end.Log(), x.end.Rx(), x.end.Past(), o, x.got)
    ensures Linked(cfg, x.(end := e', st := o.st, got := x.got + o.bytes), y)
  {
    hide RxInv, Fifo, Safe, SentBytes, Applies, After, PastAfter, End.Log, End.Rx, End.Past, HandedOut, ShapeOk;
    AppliesAfter(cfg, x.end, y.end, o, e');
    SafeRx(cfg, x.end, y.end);
    SafeRx(cfg, e', y.end);
    GrownLog(cfg, x.end, y.end, e', y.st, y.got);
    Empty(x.accepted);
  }

  /** A reader is not disturbed by what its peer adds to the log. */
  lemma GrownLog(cfg: Cfg, e: End, f: End, e': End, st: Stream, got: seq<u8>)
    requires RxInv(Slots(cfg), Capacity(cfg), e.Log(), e.Exec(), f.Rx(), f.Past()) && e.Log() <= e'.Log()
    requires RxInv(Slots(cfg), Capacity(cfg), e'.Log(), e'.Exec(), f.Rx(), f.Past())
    requires Fifo(e.Log(), f.Rx(), f.Past(), st, got)
    ensures Fifo(e'.Log(), f.Rx(), f.Past(), st, got)
  {
    QuietSame(e.Log(), f.Rx(), f.Past(), e'.Log());
    hide *;
    QuietKeeps(Slots(cfg), Capacity(cfg), e.Log(), e.Exec(), f.Rx(), f.Past(),
               e'.Log(), e'.Exec(), f.Rx(), f.Past(), st, got);
  }

  lemma ReadStepKeeps(cfg: Cfg, x: Side, y: Side, room: nat, x': Side)
    requires Linked(cfg, x, y) && Shaped(cfg, x.end, y.end) && Next(cfg, x, y, Read(room), x', y)
    ensures Linked(cfg, x', y)
  {
    hide RxInv, Safe, Fifo, Applies, InOrder, SentBytes, StreamSpec.Read, End.Log, End.Rx, End.Past, RingNext, AcceptedBytes;
    SafeRx(cfg, x.end, y.end);
    SafeShaped(cfg, x.end, y.end);
    var o := StreamSpec.Read(x.end.Rx(), x.st, room).value;
    ReadKeeps(Slots(cfg), Capacity(cfg), y.end.Log(), y.end.Exec(), x.end.Rx(), x.end.Past(), x.st, x.got, room);
    OutcomeKeeps(cfg, x, y, o, x'.end);
  }

  lemma DrainStepKeeps(cfg: Cfg, x: Side, y: Side, x': Side)
    requires Linked(cfg, x, y) && Shaped(cfg, x.end, y.end) && Next(cfg, x, y, Drain, x', y)
    ensures Linked(cfg, x', y)
  {
    hide RxInv, Safe, Fifo, Applies, InOrder, SentBytes, End.Log, End.Rx, End.Past, Ready, RecvBuf, RingNext, AcceptedBytes;
    SafeRx(cfg, x.end, y.end);
    var o := DrainOne(x.end.Rx(), x.st);
    Empty(x.got);
    DrainKeeps(Slots(cfg), Capacity(cfg), y.end.Log(), y.end.Exec(), x.end.Rx(), x.end.Past(), x.st, x.got);
    OutcomeKeeps(cfg, x, y, o, x'.end);
  }

  lemma CloseKeeps(cfg: Cfg, x: Side, y: Side)
    requires Linked(cfg, x, y)
    ensures Linked(cfg, x.(st := x.st.(eof := true)), y)
  {
    hide Safe, SentBytes, BytesOf;
    var st' := x.st.(eof := true);
    assert Unread(x.end.Rx(), st') == Unread(x.end.Rx(), x.st);
  }

  /** Every such step of either side keeps both byte streams in order. */
  lemma NextKeeps(cfg: Cfg, x: Side, y: Side, s: Step, x': Side, y': Side)
    requires Linked(cfg, x, y) && Shaped(cfg, x.end, y.end) && Next(cfg, x, y, s, x', y')
    requires s.Ring? ==> Within(cfg, x.end, y.end, s.step)
    ensures Linked(cfg, x', y')
  {
    match s {
      case Ring(step) =>
        hide Safe, RingNext, Flows, Shaped, Within, Undisturbed;
        RingUndisturbed(cfg, x.end, y.end, step, x'.end, y'.end);
        RingKeeps(cfg, x.end, y.end, step, x'.end, y'.end);
        UndisturbedKeeps(cfg, x, y, x'.end, y'.end, [], x.blocked);
        assert x.accepted + [] == x.accepted;
      case Write(data) =>
        hide Safe, RingNext, Flows, AcceptedBytes, Shaped, Within, Undisturbed;
        SendUndisturbed(cfg, x.end, y.end, data, x'.end, y'.end);
        CallsWithin(cfg, x.end, y.end, data, 0);
        RingKeeps(cfg, x.end, y.end, SendStep(cfg, data), x'.end, y'.end);
        UndisturbedKeeps(cfg, x, y, x'.end, y'.end, AcceptedBytes(cfg, x.end, y.end, data), x'.blocked);
      case Read(room) => ReadStepKeeps(cfg, x, y, room, x');
      case Drain => DrainStepKeeps(cfg, x, y, x');
      case Close => CloseKeeps(cfg, x, y);
    }
  }

  // ---------------------------------------------------------------------
  // Configurations in which every step is such a step
  // ---------------------------------------------------------------------

  /** The budget of a credit ring fits it; a read ring leaves no room to pass the window under a stream. */
  predicate Orderly(cfg: Cfg) {
    match cfg
    case CreditCfg(c) => c.cap > 0 && c.RingFitsBudget()
    case ReadCfg(c) => SW.StreamFits(c)
  }

  /** A receiver has run out of indices and given the connection up; nothing was read or accepted. */
  ghost predicate GivenUp(x: Side, y: Side, x': Side, y': Side) {
    && x'.end.Dead() && x' == x.(end := x'.end) && y' == y
  }

  lemma ReadStepWithin(c: RR.Config, x: RP.Node, y: RP.Node, st: Stream, s: RP.Step, x': RP.Node, y': RP.Node)
    requires RP.Inv(c, x, y) && RP.Next(c, x, y, s, x', y') && c.cap > 0 && RW.Roomy(c, y)
    requires SW.StreamFits(c) && SW.Streamed(x, st)
    ensures RP.Windowed(c, x, y, s) || (x'.ep.dead && y' == y)
  {
    hide RP.Inv, SW.StreamFits, SW.Streamed, RW.Roomy, RR.ReapRecv, RP.PastReap;
    RP.InvShaped(c, x, y);
    if !RP.Windowed(c, x, y, s) {
      SW.OpenOrGivesUp(c, x, y, st);
    }
  }

  lemma StepWithin(cfg: Cfg, x: Side, y: Side, s: RingStep, x': Side, y': Side)
    requires Linked(cfg, x, y) && Shaped(cfg, x.end, y.end) && Next(cfg, x, y, Step.Ring(s), x', y') && Orderly(cfg)
    ensures Within(cfg, x.end, y.end, s) || GivenUp(x, y, x', y')
  {
    hide CP.Inv, RP.Inv, CP.Next, RP.Next, RP.Windowed, RW.Roomy, CP.Spaced, SW.StreamFits, BytesOf;
    match cfg
    case CreditCfg(c) => CP.BudgetSpaces(c, x.end.cn, y.end.cn, s.cs);
    case ReadCfg(c) => ReadStepWithin(c, x.end.rn, y.end.rn, x.st, s.rs, x'.end.rn, y'.end.rn);
  }

  // ---------------------------------------------------------------------
  // Runs
  // ---------------------------------------------------------------------

  datatype Sys = Sys(a: Side, b: Side)

  datatype Act = Act(byA: bool, step: Step)

  predicate ValidCfg(cfg: Cfg) {
    match cfg
    case CreditCfg(c) => c.Valid()
    case ReadCfg(c) => c.Valid()
  }

  function Start(cfg: Cfg): Sys
    requires ValidCfg(cfg)
  {
    var e := match cfg case CreditCfg(c) => CreditEnd(CP.Start(c).a) case ReadCfg(c) => ReadEnd(RP.Start(c).a);
    var side := Side(e, Stream(None, [], 0, false), false, [], []);
    Sys(side, side)
  }

  /** Both endpoints are still in use, and one of them takes a step. */
  ghost predicate SysNext(cfg: Cfg, s: Sys, act: Act, s': Sys) {
    && !s.a.end.Dead() && !s.b.end.Dead()
    && if act.byA then Shaped(cfg, s.a.end, s.b.end) && Next(cfg, s.a, s.b, act.step, s'.a, s'.b)
       else Shaped(cfg, s.b.end, s.a.end) && Next(cfg, s.b, s.a, act.step, s'.b, s'.a)
  }

  ghost predicate IsRun(cfg: Cfg, states: seq<Sys>, acts: seq<Act>)
    requires ValidCfg(cfg)
  {
    && |states| == |acts| + 1
    && states[0] == Start(cfg)
    && forall i :: 0 <= i < |acts| ==> SysNext(cfg, states[i], acts[i], states[i + 1])
  }

  ghost predicate ActWithin(cfg: Cfg, s: Sys, act: Act) {
    act.step.Ring? ==>
      if act.byA then Within(cfg, s.a.end, s.b.end, act.step.step) else Within(cfg, s.b.end, s.a.end, act.step.step)
  }

  /** Each reads back only what the other had accepted, from the first byte on. */
  ghost predicate Prefixes(s: Sys) {
    s.b.got <= s.a.accepted && s.a.got <= s.b.accepted
  }

  lemma LinkedSymmetric(cfg: Cfg, x: Side, y: Side)
    requires Linked(cfg, x, y)
    ensures Linked(cfg, y, x)
  {
    hide Flows, CP.Inv, RP.Inv;
    match cfg
    case CreditCfg(c) => CP.InvSymmetric(c, x.end.cn, y.end.cn);
    case ReadCfg(c) => RP.InvSymmetric(c, x.end.rn, y.end.rn);
  }

  lemma StartLinked(cfg: Cfg)
    requires ValidCfg(cfg)
    ensures Linked(cfg, Start(cfg).a, Start(cfg).b)
  {
    var s := Start(cfg);
    assert BytesOf([], 0, []) by {
      assert SentBytes([], 0) == [];
    }
    match cfg
    case CreditCfg(c) => CP.StartInv(c); hide CP.Inv;
    case ReadCfg(c) => RP.StartInv(c); hide RP.Inv;
  }

  lemma LinkedPrefixes(cfg: Cfg, s: Sys)
    requires Linked(cfg, s.a, s.b)
    ensures Prefixes(s)
  {
    var a, b := s.a, s.b;
    hide Safe, Fifo;
    FifoPrefix(a.end.Log(), b.end.Rx(), b.end.Past(), b.st, b.got);
    FifoPrefix(b.end.Log(), a.end.Rx(), a.end.Past(), a.st, a.got);
  }

  /** Linked, or given up with the prefixes as they were. */
  ghost predicate Fine(cfg: Cfg, s: Sys) {
    Linked(cfg, s.a, s.b) || ((s.a.end.Dead() || s.b.end.Dead()) && Prefixes(s))
  }

  lemma SideFine(cfg: Cfg, x: Side, y: Side, s: Step, x': Side, y': Side)
    requires Linked(cfg, x, y) && Shaped(cfg, x.end, y.end) && Next(cfg, x, y, s, x', y')
    requires Orderly(cfg) || (s.Ring? ==> Within(cfg, x.end, y.end, s.step))
    ensures Linked(cfg, x', y') || GivenUp(x, y, x', y')
  {
    hide Linked, Next, Within, Orderly, GivenUp, Shaped;
    if s.Ring? && Orderly(cfg) {
      StepWithin(cfg, x, y, s.step, x', y');
    }
    if !GivenUp(x, y, x', y') {
      NextKeeps(cfg, x, y, s, x', y');
    }
  }

  lemma StepFine(cfg: Cfg, s: Sys, act: Act, s': Sys)
    requires Linked(cfg, s.a, s.b) && SysNext(cfg, s, act, s') && (Orderly(cfg) || ActWithin(cfg, s, act))
    ensures Fine(cfg, s')
  {
    hide Linked, Next, Within, Orderly, Shaped;
    LinkedPrefixes(cfg, s);
    if act.byA {
      SideFine(cfg, s.a, s.b, act.step, s'.a, s'.b);
    } else {
      LinkedSymmetric(cfg, s.a, s.b);
      SideFine(cfg, s.b, s.a, act.step, s'.b, s'.a);
      if Linked(cfg, s'.b, s'.a) {
        LinkedSymmetric(cfg, s'.b, s'.a);
      }
    }
  }

  lemma {:induction false} RunFine(cfg: Cfg, states: seq<Sys>, acts: seq<Act>, i: nat)
    requires ValidCfg(cfg) && IsRun(cfg, states, acts) && i < |states|
    requires Orderly(cfg) || forall j :: 0 <= j < |acts| ==> ActWithin(cfg, states[j], acts[j])
    ensures Fine(cfg, states[i])
  {
    hide Linked, Next, Start, Orderly, ActWithin, Prefixes, Shaped;
    if i == 0 {
      StartLinked(cfg);
    } else {
      RunFine(cfg, states, acts, i - 1);
      assert SysNext(cfg, states[i - 1], acts[i - 1], states[i]);
      hide Fine;
      StepFine(cfg, states[i - 1], acts[i - 1], states[i]);
    }
  }

  /**
    * End to end: in every run of an orderly configuration, whatever the interleaving
    * of writes, reads, write-blocked drains and ring activity, the bytes returned by
    * the reads of one side are a prefix of the bytes accepted by the writes of the
    * other. In any configuration it holds of the runs whose steps are all within
    * bounds.
    */
  lemma ReadsArePrefixOfWrites(cfg: Cfg, states: seq<Sys>, acts: seq<Act>, i: nat)
    requires ValidCfg(cfg) && IsRun(cfg, states, acts) && i < |states|
    requires Orderly(cfg) || forall j :: 0 <= j < |acts| ==> ActWithin(cfg, states[j], acts[j])
    ensures states[i].b.got <= states[i].a.accepted
    ensures states[i].a.got <= states[i].b.accepted
  {
    hide Linked, IsRun, Orderly, ActWithin;
    RunFine(cfg, states, acts, i);
    if Linked(cfg, states[i].a, states[i].b) {
      LinkedPrefixes(cfg, states[i]);
    }
  }
}
