/**
  * The calls of a stream as steps of the end-to-end system: a read is one read
  * step, the drain of a blocked write is as many drain steps as it takes, and what
  * a write reports is what the ring accepted.
  */
module StreamCalls {
  import opened RingBuffers
  import opened TransportCommon
  import opened CompletionTrackers
  import opened RecvSide
  import StreamSpec
  import AsyncStream
  import CR = CreditRing
  import CP = CreditProtocol
  import RR = ReadRing
  import RP = ReadProtocol
  import opened EndToEnd

  // ---------------------------------------------------------------------
  // Hand-out and release are always possible
  // ---------------------------------------------------------------------

  /** A stream over a ring in order is one the calls accept. */
  lemma LinkedStream(cfg: Cfg, x: Side, y: Side)
    requires Linked(cfg, x, y)
    ensures AsyncStream.StreamOk(x.end.Rx(), x.st)
    ensures Shaped(cfg, x.end, y.end) && StreamSpec.NoneEmpty(y.end.Log())
  {
    hide Safe, RxInv, Shaped;
    SafeRx(cfg, x.end, y.end);
    SafeShaped(cfg, x.end, y.end);
    AsyncStream.RingQueueOk(Slots(cfg), Capacity(cfg), y.end.Log(), y.end.Exec(), x.end.Rx(), x.end.Past());
    RxShape(Slots(cfg), Capacity(cfg), y.end.Log(), y.end.Exec(), x.end.Rx(), x.end.Past());
  }

  lemma RxShape(k: nat, cap: nat, log: seq<WorkLog.Wr>, exec: nat, rx: Rx, h: Past)
    requires RxInv(k, cap, log, exec, rx, h)
    ensures ShapeOk(rx)
  {
  }

  /** The ring can hand out the front of its queue. */
  lemma TakeEnd(cfg: Cfg, e: End, f: End, n: nat) returns (e1: End)
    requires Shaped(cfg, e, f) && n <= |e.Rx().stash|
    ensures RingNext(cfg, e, f, TakeStep(cfg, n), e1, f) && Shaped(cfg, e1, f)
    ensures e1.Rx() == e.Rx().(stash := e.Rx().stash[n..])
  {
    match cfg {
      case CreditCfg(c) =>
        var x := e.cn;
        e1 := CreditEnd(x.(ep := x.ep.(rx := x.ep.rx.(stash := x.ep.rx.stash[n..])),
                           past := x.past.(taken := x.past.taken + n)));
      case ReadCfg(c) =>
        var x := e.rn;
        e1 := ReadEnd(x.(ep := x.ep.(rx := x.ep.rx.(stash := x.ep.rx.stash[n..])),
                         past := x.past.(taken := x.past.taken + n)));
    }
  }

  /** The ring takes back a message that was handed out. */
  lemma RepostEnd(cfg: Cfg, e: End, f: End, idx: nat) returns (e': End)
    requires Shaped(cfg, e, f) && HandedOut(e.Rx(), idx)
    ensures RingNext(cfg, e, f, RepostStep(cfg, idx), e', f)
  {
    hide HandedOut, CR.RepostRecv, RR.RepostRecv, Repost, AfterRepost;
    match cfg {
      case CreditCfg(c) =>
        var x := e.cn;
        StreamSpec.HandedIn(x.ep.rx, idx);
        e' := CreditEnd(x.(ep := CR.RepostRecv(c, x.ep, idx), past := AfterRepost(x.ep.rx, x.past, idx)));
      case ReadCfg(c) =>
        var x := e.rn;
        StreamSpec.HandedIn(x.ep.rx, idx);
        e' := ReadEnd(x.(ep := RR.RepostRecv(c, x.ep, idx), past := AfterRepost(x.ep.rx, x.past, idx)));
    }
  }

  /** Every outcome of a stream call can be carried out on the ring. */
  lemma Applied(cfg: Cfg, e: End, f: End, o: StreamSpec.Outcome) returns (e': End)
    requires Shaped(cfg, e, f) && ShapeOk(e.Rx()) && o.took <= |e.Rx().stash|
    requires o.repost.Some? ==> HandedOut(e.Rx().(stash := e.Rx().stash[o.took..]), o.repost.value)
    ensures Applies(cfg, e, f, o, e') && e'.Rx() == StreamSpec.After(e.Rx(), o)
  {
    hide Shaped, RingNext, HandedOut, StreamSpec.After;
    var e1 := TakeEnd(cfg, e, f, o.took);
    e' := e1;
    if o.repost.Some? {
      e' := RepostEnd(cfg, e1, f, o.repost.value);
    }
    assert Applies(cfg, e, f, o, e');
    hide Applies;
    AppliesAfter(cfg, e, f, o, e');
  }

  // ---------------------------------------------------------------------
  // Reading and draining
  // ---------------------------------------------------------------------

  /** A read that returns is a step of the system. */
  lemma ReadIsStep(cfg: Cfg, x: Side, y: Side, room: nat) returns (x': Side)
    requires Linked(cfg, x, y) && StreamSpec.Ready(x.end.Rx(), x.st) && StreamSpec.Read(x.end.Rx(), x.st, room).Some?
    ensures Shaped(cfg, x.end, y.end) && Next(cfg, x, y, Read(room), x', y) && Linked(cfg, x', y)
    ensures var o := StreamSpec.Read(x.end.Rx(), x.st, room).value;
            && ShapeOk(x.end.Rx()) && o.took <= |x.end.Rx().stash|
            && (o.repost.Some? ==> HandedOut(x.end.Rx().(stash := x.end.Rx().stash[o.took..]), o.repost.value))
            && x'.end.Rx() == StreamSpec.After(x.end.Rx(), o)
            && x' == x.(end := x'.end, st := o.st, got := x.got + o.bytes)
  {
    hide Safe, RxInv, StreamSpec.Fifo, StreamSpec.Read, Applies, StreamSpec.After, HandedOut, Shaped;
    SafeRx(cfg, x.end, y.end);
    LinkedStream(cfg, x, y);
    var rx := x.end.Rx();
    var o := StreamSpec.Read(rx, x.st, room).value;
    StreamSpec.ReadKeeps(Slots(cfg), Capacity(cfg), y.end.Log(), y.end.Exec(), rx, x.end.Past(), x.st, x.got, room);
    var e' := Applied(cfg, x.end, y.end, o);
    x' := x.(end := e', st := o.st, got := x.got + o.bytes);
    hide Linked;
    ReadStepKeeps(cfg, x, y, room, x');
  }

  /** Stashing the front completion is a step of the system. */
  lemma DrainIsStep(cfg: Cfg, x: Side, y: Side) returns (x': Side)
    requires Linked(cfg, x, y) && x.blocked && !x.st.eof && x.end.Rx().stash != []
    ensures Shaped(cfg, x.end, y.end) && Next(cfg, x, y, Drain, x', y) && Linked(cfg, x', y)
    ensures AsyncStream.StreamOk(x.end.Rx(), x.st) && AsyncStream.DrainMany(x.end.Rx(), x.st, 1) == (x'.end.Rx(), x'.st)
    ensures x' == x.(end := x'.end, st := x'.st) && !x'.st.eof
  {
    hide Safe, RxInv, StreamSpec.Fifo, Applies, Tracker.Release, Shaped;
    SafeRx(cfg, x.end, y.end);
    LinkedStream(cfg, x, y);
    var rx := x.end.Rx();
    var o := StreamSpec.DrainOne(rx, x.st);
    StreamSpec.FrontHandedOut(Slots(cfg), Capacity(cfg), y.end.Log(), y.end.Exec(), rx, x.end.Past());
    var e' := Applied(cfg, x.end, y.end, o);
    x' := x.(end := e', st := o.st);
    assert AsyncStream.DrainMany(rx, x.st, 0) == (rx, x.st);
    hide Linked, HandedOut;
    DrainStepKeeps(cfg, x, y, x');
  }

  /** What a blocked write drains is that many drain steps, and changes nothing that was read or accepted. */
  lemma {:induction false} DrainsAreSteps(cfg: Cfg, x: Side, y: Side, n: nat) returns (path: seq<Side>)
    requires Linked(cfg, x, y) && x.blocked && !x.st.eof && n <= |x.end.Rx().stash|
    ensures |path| == n + 1 && path[0] == x
    ensures forall i :: 0 <= i < n ==>
              Linked(cfg, path[i], y) && Shaped(cfg, path[i].end, y.end) && Next(cfg, path[i], y, Drain, path[i + 1], y)
    ensures Linked(cfg, path[n], y) && !path[n].st.eof
    ensures AsyncStream.StreamOk(x.end.Rx(), x.st) && AsyncStream.DrainMany(x.end.Rx(), x.st, n) == (path[n].end.Rx(), path[n].st)
    ensures path[n] == x.(end := path[n].end, st := path[n].st)
  {
    hide Next, Linked, AsyncStream.StreamOk, Shaped;
    LinkedStream(cfg, x, y);
    if n == 0 {
      path := [x];
    } else {
      var front := DrainsAreSteps(cfg, x, y, n - 1);
      var last := DrainIsStep(cfg, front[n - 1], y);
      AsyncStream.DrainManyMore(x.end.Rx(), x.st, n - 1, 1);
      path := front + [last];
    }
  }

  // ---------------------------------------------------------------------
  // Writing
  // ---------------------------------------------------------------------

  /** A stretch of a run in which side `a` presents no bytes. */
  ghost predicate Unwritten(cfg: Cfg, states: seq<Sys>, acts: seq<Act>) {
    && |states| == |acts| + 1
    && forall i :: 0 <= i < |acts| ==>
         SysNext(cfg, states[i], acts[i], states[i + 1]) && !(acts[i].byA && acts[i].step.Write?)
  }

  ghost predicate Meanwhile(cfg: Cfg, s: Sys, s': Sys) {
    exists states, acts :: Unwritten(cfg, states, acts) && states[0] == s && states[|acts|] == s'
  }

  /** One `send_gather` of the write: the answer is the number of bytes the ring accepted. */
  ghost predicate Attempt(cfg: Cfg, data: seq<u8>, s: Sys, res: AsyncStream.SendRes, s': Sys) {
    SysNext(cfg, s, Act(true, Write(data)), s') && res == AsyncStream.Sent(SatSub(|s'.a.accepted|, |s.a.accepted|))
  }

  /** The turns of a write from turn `i` on, with whatever happens in between. */
  ghost predicate TurnsRun(cfg: Cfg, data: seq<u8>, turns: seq<AsyncStream.Turn>, i: nat, s: Sys, s': Sys)
    requires i < |turns|
    decreases |turns| - i
  {
    exists s1 ::
      && Attempt(cfg, data, s, turns[i].first, s1)
      && if turns[i].first != AsyncStream.Sent(0) then s' == s1 else RestRuns(cfg, data, turns, i, s1, s')
  }

  /** The rest of a turn whose first attempt was refused: drain, try again, reap, go round. */
  ghost predicate RestRuns(cfg: Cfg, data: seq<u8>, turns: seq<AsyncStream.Turn>, i: nat, s1: Sys, s': Sys)
    requires i < |turns|
    decreases |turns| - i, 0
  {
    exists s2, s3 ::
      && Meanwhile(cfg, s1, s2) && Attempt(cfg, data, s2, turns[i].second, s3)
      && if turns[i].second != AsyncStream.Sent(0) then s' == s3
         else exists s4 ::
                && Meanwhile(cfg, s3, s4)
                && if turns[i].reap.Reaped? && i + 1 < |turns| then TurnsRun(cfg, data, turns, i + 1, s4, s') else s' == s4
  }

  lemma StepAccepts(cfg: Cfg, s: Sys, act: Act, s': Sys)
    requires SysNext(cfg, s, act, s')
    ensures !(act.byA && act.step.Write?) ==> s'.a.accepted == s.a.accepted
    ensures act.byA && act.step.Write? ==>
      exists n :: 0 <= n <= |act.step.data| && s'.a.accepted == s.a.accepted + act.step.data[..n]
  {
    hide RingNext, Applies, StreamSpec.Read, CR.SendGather, RR.SendGather;
    if act.byA && act.step.Write? {
      AcceptsPrefix(cfg, s.a.end, s.b.end, act.step.data);
    }
  }

  lemma AcceptsPrefix(cfg: Cfg, e: End, f: End, data: seq<u8>)
    requires Shaped(cfg, e, f)
    ensures exists n :: 0 <= n <= |data| && AcceptedBytes(cfg, e, f, data) == data[..n]
  {
    hide CR.SendGather, RR.SendGather;
    assert data[..0] == [];
  }

  lemma {:induction false} MeanwhileKeeps(cfg: Cfg, states: seq<Sys>, acts: seq<Act>, i: nat)
    requires Unwritten(cfg, states, acts) && i < |states|
    ensures states[i].a.accepted == states[0].a.accepted
  {
    hide SysNext;
    if i > 0 {
      MeanwhileKeeps(cfg, states, acts, i - 1);
      assert SysNext(cfg, states[i - 1], acts[i - 1], states[i]);
      StepAccepts(cfg, states[i - 1], acts[i - 1], states[i]);
    }
  }

  lemma MeanwhileIs(cfg: Cfg, s: Sys, s': Sys)
    requires Meanwhile(cfg, s, s')
    ensures s'.a.accepted == s.a.accepted
  {
    hide SysNext;
    var states, acts :| Unwritten(cfg, states, acts) && states[0] == s && states[|acts|] == s';
    MeanwhileKeeps(cfg, states, acts, |acts|);
  }

  lemma AttemptIs(cfg: Cfg, data: seq<u8>, s: Sys, res: AsyncStream.SendRes, s': Sys)
    requires Attempt(cfg, data, s, res, s')
    ensures res.Sent? && res.n <= |data| && s'.a.accepted == s.a.accepted + data[..res.n]
  {
    hide SysNext;
    StepAccepts(cfg, s, Act(true, Write(data)), s');
    var n :| 0 <= n <= |data| && s'.a.accepted == s.a.accepted + data[..n];
    assert res.n == n;
  }

  /** What a write reports. */
  function Reported(r: AsyncStream.WriteResult): nat { if r.Wrote? then r.n else 0 }

  /**
    * A write call, whatever the rings and the peer do meanwhile: it reports exactly
    * the bytes the ring accepted, they are the first of those presented, and they are
    * accepted once.
    */
  lemma {:induction false} WriteReports(cfg: Cfg, data: seq<u8>, turns: seq<AsyncStream.Turn>, i: nat, gone: bool, s: Sys, s': Sys)
    requires i < |turns| && AsyncStream.Ends(turns[|turns| - 1])
    requires TurnsRun(cfg, data, turns, i, s, s')
    ensures var n := Reported(AsyncStream.WriteLoop(turns, i, gone).0);
            n <= |data| && s'.a.accepted == s.a.accepted + data[..n]
    decreases |turns| - i
  {
    hide Attempt, Meanwhile;
    var s1 :|
      && Attempt(cfg, data, s, turns[i].first, s1)
      && if turns[i].first != AsyncStream.Sent(0) then s' == s1 else RestRuns(cfg, data, turns, i, s1, s');
    AttemptIs(cfg, data, s, turns[i].first, s1);
    if turns[i].first == AsyncStream.Sent(0) {
      Same(s.a.accepted, data);
      RestReports(cfg, data, turns, i, gone, s1, s');
    }
  }

  lemma Same(bytes: seq<u8>, data: seq<u8>)
    ensures bytes + data[..0] == bytes
  {
  }

  lemma {:induction false} RestReports(cfg: Cfg, data: seq<u8>, turns: seq<AsyncStream.Turn>, i: nat, gone: bool, s1: Sys, s': Sys)
    requires i < |turns| && AsyncStream.Ends(turns[|turns| - 1]) && turns[i].first == AsyncStream.Sent(0)
    requires RestRuns(cfg, data, turns, i, s1, s')
    ensures var n := Reported(AsyncStream.WriteLoop(turns, i, gone).0);
            n <= |data| && s'.a.accepted == s1.a.accepted + data[..n]
    decreases |turns| - i, 0
  {
    hide Attempt, Meanwhile;
    var s2, s3 :|
      && Meanwhile(cfg, s1, s2) && Attempt(cfg, data, s2, turns[i].second, s3)
      && if turns[i].second != AsyncStream.Sent(0) then s' == s3
         else exists s4 ::
                && Meanwhile(cfg, s3, s4)
                && if turns[i].reap.Reaped? && i + 1 < |turns| then TurnsRun(cfg, data, turns, i + 1, s4, s') else s' == s4;
    MeanwhileIs(cfg, s1, s2);
    AttemptIs(cfg, data, s2, turns[i].second, s3);
    if turns[i].second == AsyncStream.Sent(0) {
      Same(s1.a.accepted, data);
      var s4 :|
        && Meanwhile(cfg, s3, s4)
        && if turns[i].reap.Reaped? && i + 1 < |turns| then TurnsRun(cfg, data, turns, i + 1, s4, s') else s' == s4;
      MeanwhileIs(cfg, s3, s4);
      if turns[i].reap.Reaped? && i + 1 < |turns| {
        WriteReports(cfg, data, turns, i + 1, gone, s4, s');
      }
    }
  }
}
