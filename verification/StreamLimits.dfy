/**
  * Outside the orderly configurations a reader gets bytes that were never sent at
  * that place: for each such configuration a run of two streams, from the start, with
  * both endpoints in use, in which a read returns an overwritten byte.
  */
module StreamLimits {
  import opened RingBuffers
  import opened WorkLog
  import opened RecvSide
  import opened StreamSpec
  import opened EndToEnd
  import CR = CreditRing
  import CP = CreditProtocol
  import CL = CreditLimits
  import RR = ReadRing
  import RP = ReadProtocol
  import RS = ReadSender
  import RO = ReadOverrun
  import SW = StreamWindow
  import StreamCalls

  // ---------------------------------------------------------------------
  // Runs in which a blocked write drains into a bounded stash
  // ---------------------------------------------------------------------

  ghost predicate DrainsBelow(states: seq<Sys>, acts: seq<Act>, limit: nat)
    requires |states| == |acts| + 1
  {
    forall i :: 0 <= i < |acts| && acts[i].step.Drain? ==>
      |(if acts[i].byA then states[i].a else states[i].b).st.stash| < limit
  }

  ghost predicate Reached(cfg: Cfg, limit: nat, s: Sys)
    requires ValidCfg(cfg)
  {
    exists states, acts :: IsRun(cfg, states, acts) && DrainsBelow(states, acts, limit) && states[|acts|] == s
  }

  lemma ReachedStart(cfg: Cfg, limit: nat)
    requires ValidCfg(cfg)
    ensures Reached(cfg, limit, Start(cfg))
  {
    hide Start;
    assert IsRun(cfg, [Start(cfg)], []) && DrainsBelow([Start(cfg)], [], limit);
  }

  lemma ReachedStep(cfg: Cfg, limit: nat, s: Sys, act: Act, s': Sys)
    requires ValidCfg(cfg) && Reached(cfg, limit, s) && SysNext(cfg, s, act, s')
    requires act.step.Drain? ==> |(if act.byA then s.a else s.b).st.stash| < limit
    ensures Reached(cfg, limit, s')
  {
    hide SysNext, Start;
    var states, acts :| IsRun(cfg, states, acts) && DrainsBelow(states, acts, limit) && states[|acts|] == s;
    var states', acts' := states + [s'], acts + [act];
    forall i | 0 <= i < |acts'|
      ensures SysNext(cfg, states'[i], acts'[i], states'[i + 1])
    {
      if i < |acts| {
        assert SysNext(cfg, states[i], acts[i], states[i + 1]);
      }
    }
    assert IsRun(cfg, states', acts') && DrainsBelow(states', acts', limit);
  }

  lemma ReachedMore(cfg: Cfg, limit: nat, limit': nat, s: Sys)
    requires ValidCfg(cfg) && Reached(cfg, limit, s) && limit <= limit'
    ensures Reached(cfg, limit', s)
  {
    hide SysNext, Start;
    var states, acts :| IsRun(cfg, states, acts) && DrainsBelow(states, acts, limit) && states[|acts|] == s;
    assert DrainsBelow(states, acts, limit');
  }

  // ---------------------------------------------------------------------
  // What was accepted is what the log carries
  // ---------------------------------------------------------------------

  ghost predicate Carries(x: Side) { x.accepted == SentBytes(x.end.Log(), |x.end.Log()|) }

  lemma CarriesNext(cfg: Cfg, x: Side, y: Side, s: Step, x': Side, y': Side)
    requires Shaped(cfg, x.end, y.end) && Next(cfg, x, y, s, x', y') && Carries(x) && Carries(y)
    ensures Carries(x') && Carries(y')
  {
    hide Shaped, RingNext, Applies, AcceptedBytes, SentBytes, Quiet, End.Log, StreamSpec.Read;
    Empty(x.accepted);
    match s {
      case Ring(step) => RingUndisturbed(cfg, x.end, y.end, step, x'.end, y'.end);
      case Write(data) => SendUndisturbed(cfg, x.end, y.end, data, x'.end, y'.end);
      case Read(room) => AppliesAfter(cfg, x.end, y.end, StreamSpec.Read(x.end.Rx(), x.st, room).value, x'.end);
      case Drain => AppliesAfter(cfg, x.end, y.end, DrainOne(x.end.Rx(), x.st), x'.end);
      case Close =>
    }
  }

  lemma {:induction false} RunCarries(cfg: Cfg, states: seq<Sys>, acts: seq<Act>, i: nat)
    requires ValidCfg(cfg) && IsRun(cfg, states, acts) && i < |states|
    ensures Carries(states[i].a) && Carries(states[i].b)
  {
    if i == 0 {
    } else {
      hide Next, Start, Carries, Shaped;
      RunCarries(cfg, states, acts, i - 1);
      var s, s', act := states[i - 1], states[i], acts[i - 1];
      assert SysNext(cfg, s, act, s');
      if act.byA {
        CarriesNext(cfg, s.a, s.b, act.step, s'.a, s'.b);
      } else {
        CarriesNext(cfg, s.b, s.a, act.step, s'.b, s'.a);
      }
    }
  }

  lemma ReachedCarries(cfg: Cfg, limit: nat, s: Sys)
    requires ValidCfg(cfg) && Reached(cfg, limit, s)
    ensures Carries(s.a) && Carries(s.b)
  {
    hide SysNext, Carries, Start;
    var states, acts :| IsRun(cfg, states, acts) && DrainsBelow(states, acts, limit) && states[|acts|] == s;
    RunCarries(cfg, states, acts, |acts|);
  }

  // ---------------------------------------------------------------------
  // Stretches of the rings as stretches of the streams
  // ---------------------------------------------------------------------

  /** The two streams run over the rings of `s`. */
  predicate Over(t: Sys, s: RP.Sys) { t.a.end == ReadEnd(s.a) && t.b.end == ReadEnd(s.b) }

  /** Side `a` may have written and `b` drained; nothing was read. */
  ghost predicate Stretch(t: Sys, t': Sys) {
    && t'.a.st == t.a.st && t'.b.got == t.b.got && t'.b.blocked == t.b.blocked
    && t'.b.st == t.b.st.(stash := t'.b.st.stash) && (NonEmpty(t.b.st.stash) ==> NonEmpty(t'.b.st.stash))
  }

  lemma LiftOne(c: RR.Config, limit: nat, t: Sys, s: RP.Sys, act: RP.Act, s': RP.Sys) returns (t': Sys)
    requires c.Valid() && Reached(ReadCfg(c), limit, t) && Over(t, s) && !t.a.st.eof
    requires RO.Alive(s) && RO.Plain(act) && RP.SysNext(c, s, act, s')
    ensures Reached(ReadCfg(c), limit, t') && Over(t', s') && Stretch(t, t') && t'.b.st == t.b.st
  {
    hide Reached, RP.Next, RR.SendGather;
    var cfg := ReadCfg(c);
    t' := Sys(t.a.(end := ReadEnd(s'.a)), t.b.(end := ReadEnd(s'.b)));
    if act.step.Send? {
      var bytes := AcceptedBytes(cfg, t.a.end, t.b.end, act.step.data);
      t' := t'.(a := t'.a.(accepted := t.a.accepted + bytes,
                           blocked := if act.step.data == [] then t.a.blocked else bytes == []));
      ReachedStep(cfg, limit, t, Act(true, Write(act.step.data)), t');
    } else {
      ReachedStep(cfg, limit, t, Act(act.byA, Step.Ring(ReadStep(act.step))), t');
    }
  }

  /** A reader that has left a message of `f` bytes at index 0 after its first byte, beside a blocked write. */
  ghost predicate Begins(t: Sys, f: nat) {
    && t.b.blocked && !t.b.st.eof && t.b.st.pending == Some(Partial(0, 1, f)) && 1 < f
    && t.b.st.stashOffset == 0 && NonEmpty(t.b.st.stash)
  }

  /** Handing out and releasing leave the peer alone. */
  lemma PeerStays(c: RR.Config, s: RP.Sys, act: RP.Act, s': RP.Sys)
    requires RP.SysNext(c, s, act, s') && !act.byA && (act.step.Take? || act.step.Repost?)
    ensures s'.a == s.a
  {
    hide RR.RepostRecv, AfterRepost;
  }

  lemma LiftDrain(c: RR.Config, limit: nat, f: nat, t: Sys, s: RP.Sys, m: RP.Sys, s': RP.Sys) returns (t': Sys)
    requires c.Valid() && Reached(ReadCfg(c), limit, t) && Over(t, s) && Begins(t, f) && |t.b.st.stash| < limit
    requires RO.Alive(s) && RO.Drains(c, f, s, m, s')
    ensures Reached(ReadCfg(c), limit, t') && Over(t', s') && Stretch(t, t')
    ensures |t'.b.st.stash| == |t.b.st.stash| + 1
  {
    PeerStays(c, s, RP.Act(false, RP.Take(1)), m);
    PeerStays(c, m, RP.Act(false, RP.Repost(s.b.ep.rx.stash[0].bufIdx)), s');
    hide Reached, RP.Next;
    var cfg, rx := ReadCfg(c), s.b.ep.rx;
    RecvBufLength(rx, rx.stash[0].bufIdx, rx.stash[0].byteLen);
    hide RecvBuf;
    var o := DrainOne(rx, t.b.st);
    t' := t.(b := t.b.(end := ReadEnd(s'.b), st := o.st));
    assert Applies(cfg, t.b.end, t.a.end, o, t'.b.end) by {
      assert Takes(cfg, t.b.end, t.a.end, 1, ReadEnd(m.b));
    }
    hide Applies;
    ReachedStep(cfg, limit, t, Act(false, Drain), t');
  }

  lemma {:induction false} CountMono(moves: seq<RO.Move>, i: nat, j: nat)
    requires i <= j <= |moves|
    ensures RO.DrainCount(moves, i) <= RO.DrainCount(moves, j)
  {
    if i < j {
      CountMono(moves, i, j - 1);
    }
  }

  lemma {:induction false} LiftPath(c: RR.Config, limit: nat, f: nat, t: Sys, states: seq<RP.Sys>, moves: seq<RO.Move>, i: nat)
    returns (t': Sys)
    requires c.Valid() && Reached(ReadCfg(c), limit, t) && RO.Path(c, f, states, moves) && Over(t, states[0]) && !t.a.st.eof
    requires RO.DrainCount(moves, |moves|) > 0 ==> Begins(t, f)
    requires |t.b.st.stash| + RO.DrainCount(moves, |moves|) <= limit && i <= |moves|
    ensures Reached(ReadCfg(c), limit, t') && Over(t', states[i]) && Stretch(t, t')
    ensures |t'.b.st.stash| == |t.b.st.stash| + RO.DrainCount(moves, i)
  {
    hide Reached, RP.SysNext, Over, NonEmpty, RO.Alive, RO.Plain;
    if i == 0 {
      t' := t;
    } else {
      var t1 := LiftPath(c, limit, f, t, states, moves, i - 1);
      CountMono(moves, i, |moves|);
      assert RO.Moved(c, f, states[i - 1], moves[i - 1], states[i]);
      match moves[i - 1] {
        case One(act) => t' := LiftOne(c, limit, t1, states[i - 1], act, states[i]);
        case DrainB =>
          var m :| RO.Drains(c, f, states[i - 1], m, states[i]);
          hide RO.Drains;
          t' := LiftDrain(c, limit, f, t1, states[i - 1], m, states[i]);
      }
    }
  }

  lemma Lift(c: RR.Config, limit: nat, f: nat, t: Sys, s: RP.Sys, s': RP.Sys, d: nat) returns (t': Sys)
    requires c.Valid() && Reached(ReadCfg(c), limit, t) && Over(t, s) && !t.a.st.eof && RO.From(c, f, s, s', d)
    requires d > 0 ==> Begins(t, f)
    requires |t.b.st.stash| + d <= limit
    ensures Reached(ReadCfg(c), limit, t') && Over(t', s') && Stretch(t, t') && |t'.b.st.stash| == |t.b.st.stash| + d
  {
    hide Reached, RO.Moved, RO.Up, Over, RO.DrainCount, Begins, Stretch;
    var states, moves :|
      && RO.Path(c, f, states, moves) && states[0] == s && states[|moves|] == s'
      && RO.DrainCount(moves, |moves|) == d;
    hide RO.Path;
    t' := LiftPath(c, limit, f, t, states, moves, |moves|);
  }

  // ---------------------------------------------------------------------
  // A write of `b` that stays blocked
  // ---------------------------------------------------------------------

  /** A send leaves the receiving side alone; what it accepts is in flight. */
  lemma SendCounts(c: RR.Config, x: RP.Node, data: seq<u8>)
    requires RS.Sound(c, x) && !x.ep.dead
    ensures x.ep.Ok(c)
    ensures var (ep, r) := RR.SendGather(c, x.ep, data);
            && ep.rx == x.ep.rx && ep.head == x.ep.head && ep.published == x.ep.published && !ep.dead
            && r.Accepted? && x.ep.inFlight <= ep.inFlight && (r.n > 0 ==> x.ep.inFlight < ep.inFlight)
  {
    hide RS.Sound, SendSide.Post, RR.Ep.RemoteFree;
    RO.SoundOk(c, x);
    if |data| > 0 {
      RP.SendIs(c, x, data);
      hide RR.SendGather;
    }
  }

  /** The streams as they were at the start, but for what `b` has written. */
  ghost predicate Unread(t: Sys) {
    && t.a.st == Stream(None, [], 0, false) && t.b.st == t.a.st && t.b.got == []
  }

  /** Side `b` writes until it is refused: each write it gets accepted is one more request in flight. */
  lemma {:induction false} Refused(c: RR.Config, limit: nat, t0: Sys, s0: RP.Sys) returns (t: Sys, s: RP.Sys)
    requires c.Valid() && Reached(ReadCfg(c), limit, t0) && Over(t0, s0) && RO.Fresh(c, s0) && Unread(t0)
    ensures Reached(ReadCfg(c), limit, t) && Over(t, s) && RO.Fresh(c, s) && Unread(t) && t.b.blocked
    decreases c.maxOut - s0.b.ep.inFlight
  {
    hide Reached, RR.SendGather, RS.Sound, RP.Start;
    var cfg := ReadCfg(c);
    SendCounts(c, s0.b, [0]);
    RO.SoundOk(c, s0.a);
    var bytes := AcceptedBytes(cfg, t0.b.end, t0.a.end, [0]);
    s := s0.(b := s0.b.(ep := RR.SendGather(c, s0.b.ep, [0]).0));
    t := t0.(b := t0.b.(end := ReadEnd(s.b), accepted := t0.b.accepted + bytes, blocked := bytes == []));
    ReachedStep(cfg, limit, t0, Act(false, Write([0])), t);
    RS.SoundStep(c, s0, RP.Act(false, RP.Send([0])), s);
    if bytes != [] {
      InFlightBound(c, s.b);
      t, s := Refused(c, limit, t, s);
    }
  }

  lemma InFlightBound(c: RR.Config, x: RP.Node)
    requires RS.Sound(c, x)
    ensures x.ep.inFlight <= c.maxOut
  {
  }

  lemma BlockedStart(c: RR.Config, limit: nat) returns (t: Sys, s: RP.Sys)
    requires c.Valid()
    ensures Reached(ReadCfg(c), limit, t) && Over(t, s) && RO.Fresh(c, s) && Unread(t) && t.b.blocked
  {
    ReachedStart(ReadCfg(c), limit);
    RO.StartUp(c);
    hide Reached, RO.Up;
    t, s := Refused(c, limit, Start(ReadCfg(c)), RP.Start(c));
  }

  // ---------------------------------------------------------------------
  // The run that breaks the order
  // ---------------------------------------------------------------------

  /** The reader takes the first byte of the first message and leaves the second. */
  lemma FirstByte(c: RR.Config, limit: nat, s0: RP.Sys, t: Sys, s: RP.Sys) returns (t': Sys)
    requires c.Valid() && Reached(ReadCfg(c), limit, t) && Over(t, s) && RO.From(c, 2, s0, s, 0) && RO.Arrived(c, 2, s0, s)
    requires Unread(t) && t.b.blocked
    ensures Reached(ReadCfg(c), limit, t') && s.b.ep.rx.stash != [] && Over(t', RO.Taken(s))
    ensures Begins(t', 2) && t'.b.st.stash == [] && !t'.a.st.eof && t'.b.got == [0]
  {
    hide Reached, RO.From, RO.InAir, RP.Next, RP.Start;
    var cfg, rx := ReadCfg(c), s.b.ep.rx;
    RO.TakenStep(c, 2, s0, s);
    RO.Shapes(c, 2, s0, s, 0);
    PeerStays(c, s, RP.Act(false, RP.Take(1)), RO.Taken(s));
    assert Readable(rx, 0, 2) && RecvBuf(rx, 0)[..1] == [0];
    var o := StreamSpec.Read(rx, t.b.st, 1).value;
    assert o == Outcome(t.b.st.(pending := Some(Partial(0, 1, 2))), [0], 1, None);
    t' := t.(b := t.b.(end := ReadEnd(RO.Taken(s).b), st := o.st, got := t.b.got + o.bytes));
    RO.Shapes(c, 2, RO.Taken(s), RO.Taken(s), 0);
    assert Takes(cfg, t.b.end, t.a.end, 1, t'.b.end);
    assert Applies(cfg, t.b.end, t.a.end, o, t'.b.end);
    hide Applies;
    ReachedStep(cfg, limit, t, Act(false, Read(1)), t');
  }

  /** And later the second, which has been overwritten. */
  lemma SecondByte(c: RR.Config, limit: nat, t: Sys, s0: RP.Sys, s: RP.Sys, d: nat) returns (t': Sys)
    requires c.Valid() && Reached(ReadCfg(c), limit, t) && Over(t, s) && RO.From(c, 2, s0, s, d) && RO.Overwritten(c, 2, s)
    requires Begins(t, 2) && t.b.got == [0]
    ensures Reached(ReadCfg(c), limit, t') && t'.b.got == [0, 1] && t'.a == t.a
    ensures !t'.a.end.Dead() && !t'.b.end.Dead()
  {
    hide Reached, RO.From, RP.Shaped;
    var cfg, rx := ReadCfg(c), s.b.ep.rx;
    RO.Shapes(c, 2, s0, s, d);
    assert RecvBuf(rx, 0)[1..2] == [1];
    var o := StreamSpec.Read(rx, t.b.st, 1).value;
    assert o == Outcome(t.b.st.(pending := None), [1], 0, Some(0));
    assert rx.stash[0..] == rx.stash;
    ShapeOfSound(c, s.b);
    hide HandedOut;
    var e' := StreamCalls.Applied(cfg, t.b.end, t.a.end, o);
    AppliesAfter(cfg, t.b.end, t.a.end, o, e');
    t' := t.(b := t.b.(end := e', st := o.st, got := t.b.got + o.bytes));
    hide Applies;
    ReachedStep(cfg, limit, t, Act(false, Read(1)), t');
  }

  lemma ShapeOfSound(c: RR.Config, x: RP.Node)
    requires RS.Sound(c, x)
    ensures ShapeOk(x.ep.rx)
  {
  }

  /** The bytes `a` had accepted begin with the first message of its log. */
  lemma FirstAccepted(cfg: Cfg, limit: nat, t: Sys, f: nat)
    requires ValidCfg(cfg) && Reached(cfg, limit, t)
    requires |t.a.end.Log()| > 0 && t.a.end.Log()[0].Data? && t.a.end.Log()[0].msg == RO.Zeros(f)
    ensures RO.Zeros(f) <= t.a.accepted
  {
    hide Reached;
    ReachedCarries(cfg, limit, t);
    var log := t.a.end.Log();
    assert SentBytes(log, 1) == [] + log[0].msg;
    SentPrefix(log, 1, |log|);
  }

  /** A single message can take up the threshold, and the ring has room for it twice. */
  predicate WithinDrainCap(c: RR.Config) { RO.OneLap(c, 2) }

  /**
    * A stream over a read ring that leaves room to pass the window: the reader of `b`
    * leaves a two-byte message after its first byte, a blocked write of `b` releases
    * the messages behind it, and the second byte is read after it was overwritten.
    * Both endpoints are in use throughout. When one longer message brings the ring
    * round, the drained messages stay below the bound the stream sets itself.
    */
  lemma BreakingRun(c: RR.Config) returns (t: Sys, limit: nat)
    requires c.Valid() && !SW.StreamFits(c)
    ensures Reached(ReadCfg(c), limit, t) && !t.a.end.Dead() && !t.b.end.Dead()
    ensures !(t.b.got <= t.a.accepted)
    ensures WithinDrainCap(c) ==> limit < StashDrainCap(c.maxOut)
  {
    hide Reached, RO.From, RO.Overwritten, Over, RO.Arrived, RP.Start;
    var t0, s0 := BlockedStart(c, 0);
    var s1 := RO.FirstArrives(c, 2, s0);
    var s, d := RO.Overrun(c, 2, s0, s1);
    limit := d;
    ReachedMore(ReadCfg(c), 0, limit, t0);
    t := Breaks(c, limit, t0, s0, s1, s);
  }

  /** A stretch before anything was read, and one beside the message begun. */
  lemma LiftUnread(c: RR.Config, limit: nat, t: Sys, s: RP.Sys, s': RP.Sys) returns (t': Sys)
    requires c.Valid() && Reached(ReadCfg(c), limit, t) && Over(t, s) && RO.From(c, 2, s, s', 0) && Unread(t) && t.b.blocked
    ensures Reached(ReadCfg(c), limit, t') && Over(t', s') && Unread(t') && t'.b.blocked
  {
    hide Reached, RO.From, Over;
    t' := Lift(c, limit, 2, t, s, s', 0);
  }

  lemma LiftBegun(c: RR.Config, limit: nat, t: Sys, s: RP.Sys, s': RP.Sys, d: nat) returns (t': Sys)
    requires c.Valid() && Reached(ReadCfg(c), limit, t) && Over(t, s) && RO.From(c, 2, s, s', d) && !t.a.st.eof
    requires Begins(t, 2) && t.b.st.stash == [] && d <= limit
    ensures Reached(ReadCfg(c), limit, t') && Over(t', s') && Begins(t', 2) && t'.b.got == t.b.got
  {
    hide Reached, RO.From, Over;
    t' := Lift(c, limit, 2, t, s, s', d);
  }

  lemma Breaks(c: RR.Config, limit: nat, t0: Sys, s0: RP.Sys, s1: RP.Sys, s: RP.Sys) returns (t: Sys)
    requires c.Valid() && Reached(ReadCfg(c), limit, t0) && Over(t0, s0) && Unread(t0) && t0.b.blocked
    requires RO.From(c, 2, s0, s1, 0) && RO.Arrived(c, 2, s0, s1) && s1.b.ep.rx.stash != []
    requires RO.From(c, 2, RO.Taken(s1), s, limit) && RO.Overwritten(c, 2, s) && s1.a.ep.tx.log <= s.a.ep.tx.log
    ensures Reached(ReadCfg(c), limit, t) && !t.a.end.Dead() && !t.b.end.Dead()
    ensures !(t.b.got <= t.a.accepted)
  {
    hide Reached, RO.From, RO.Overwritten, Over, RO.Arrived, Unread, Begins, RO.Taken, End.Log, End.Dead;
    var t1 := LiftUnread(c, limit, t0, s0, s1);
    var t2 := FirstByte(c, limit, s0, t1, s1);
    var t3 := LiftBegun(c, limit, t2, RO.Taken(s1), s, limit);
    t := SecondByte(c, limit, t3, RO.Taken(s1), s, limit);
    OverA(t3, s);
    FirstLogged(c, s0, s1, s, t);
    FirstAccepted(ReadCfg(c), limit, t, 2);
    assert t.a.accepted[1] == RO.Zeros(2)[1] == 0 && t.b.got[1] == 1;
  }

  lemma OverA(t: Sys, s: RP.Sys)
    requires Over(t, s)
    ensures t.a.end == ReadEnd(s.a)
  {
  }

  lemma FirstLogged(c: RR.Config, s0: RP.Sys, s1: RP.Sys, s: RP.Sys, t: Sys)
    requires c.Valid() && RO.Arrived(c, 2, s0, s1) && s1.a.ep.tx.log <= s.a.ep.tx.log && t.a.end == ReadEnd(s.a)
    ensures |t.a.end.Log()| > 0 && t.a.end.Log()[0].Data? && t.a.end.Log()[0].msg == RO.Zeros(2)
  {
  }

  // ---------------------------------------------------------------------
  // The credit ring with a budget that does not fit
  // ---------------------------------------------------------------------

  /** Two streams in order over the credit rings of `s`, with nothing held back in either. */
  ghost predicate InStep(c: CR.Config, t: Sys, s: CP.Sys) {
    && c.Valid() && Reached(CreditCfg(c), 0, t) && Linked(CreditCfg(c), t.a, t.b)
    && t.a.end == CreditEnd(s.a) && t.b.end == CreditEnd(s.b)
    && t.a.st == Stream(None, [], 0, false) && t.b.st == t.a.st
  }

  lemma CreditAlive(c: CR.Config, t: Sys, s: CP.Sys)
    requires InStep(c, t, s)
    ensures !t.a.end.Dead() && !t.b.end.Dead() && CP.Shaped(c, s.a, s.b)
    ensures Linked(CreditCfg(c), t.b, t.a) && NoneEmpty(s.a.ep.tx.log)
  {
    hide Reached, RxInv, SendSide.TxInv, Flows;
    LinkedSymmetric(CreditCfg(c), t.a, t.b);
    SafeShaped(CreditCfg(c), t.a.end, t.b.end);
  }

  lemma CreditOne(c: CR.Config, t: Sys, s: CP.Sys, act: CP.Act, s': CP.Sys) returns (t': Sys)
    requires InStep(c, t, s) && CL.Plain(act) && CP.SysNext(c, s, act, s') && CP.ActSpaced(c, s, act)
    ensures InStep(c, t', s')
  {
    hide Reached, Linked, CP.Next, CP.Spaced, CR.SendGather;
    var cfg := CreditCfg(c);
    CreditAlive(c, t, s);
    t' := Sys(t.a.(end := CreditEnd(s'.a)), t.b.(end := CreditEnd(s'.b)));
    if act.step.Send? {
      var bytes := AcceptedBytes(cfg, t.a.end, t.b.end, act.step.data);
      t' := t'.(a := t'.a.(accepted := t.a.accepted + bytes,
                           blocked := if act.step.data == [] then t.a.blocked else bytes == []));
      ReachedStep(cfg, 0, t, Act(true, Write(act.step.data)), t');
      NextKeeps(cfg, t.a, t.b, Write(act.step.data), t'.a, t'.b);
    } else {
      var step := Step.Ring(CreditStep(act.step));
      ReachedStep(cfg, 0, t, Act(act.byA, step), t');
      if act.byA {
        NextKeeps(cfg, t.a, t.b, step, t'.a, t'.b);
      } else {
        NextKeeps(cfg, t.b, t.a, step, t'.b, t'.a);
        LinkedSymmetric(cfg, t'.b, t'.a);
      }
    }
  }

  /** Reading the whole front message is handing it out and taking it back. */
  lemma CreditRead(c: CR.Config, t: Sys, s: CP.Sys, m: CP.Sys, s': CP.Sys) returns (t': Sys)
    requires InStep(c, t, s) && CL.Reads(c, s, m, s')
    ensures InStep(c, t', s')
  {
    hide Reached, Linked, CP.Next;
    var cfg, rx := CreditCfg(c), s.b.ep.rx;
    CreditAlive(c, t, s);
    CreditFront(c, t, s);
    CreditPeerStays(c, s, CP.Act(false, CP.Take(1)), m);
    CreditPeerStays(c, m, CP.Act(false, CP.Repost(rx.stash[0].bufIdx)), s');
    var room := rx.stash[0].byteLen;
    var o := StreamSpec.Read(rx, t.b.st, room).value;
    assert o.took == 1 && o.repost == Some(rx.stash[0].bufIdx) && o.st == t.b.st;
    hide StreamSpec.Read;
    t' := t.(b := t.b.(end := CreditEnd(s'.b), got := t.b.got + o.bytes));
    assert Takes(cfg, t.b.end, t.a.end, 1, CreditEnd(m.b));
    assert Applies(cfg, t.b.end, t.a.end, o, t'.b.end);
    hide Applies;
    ReachedStep(cfg, 0, t, Act(false, Read(room)), t');
    ReadStepKeeps(cfg, t.b, t.a, room, t'.b);
    LinkedSymmetric(cfg, t'.b, t'.a);
  }

  lemma CreditPeerStays(c: CR.Config, s: CP.Sys, act: CP.Act, s': CP.Sys)
    requires CP.SysNext(c, s, act, s') && !act.byA && (act.step.Take? || act.step.Repost?)
    ensures s'.a == s.a
  {
    hide CR.RepostRecv, AfterRepost;
  }

  /** The front of the queue can be read and is not empty. */
  lemma CreditFront(c: CR.Config, t: Sys, s: CP.Sys)
    requires InStep(c, t, s) && s.b.ep.rx.stash != []
    ensures StreamSpec.Ready(s.b.ep.rx, t.b.st) && s.b.ep.rx.stash[0].byteLen > 0
  {
    CreditAlive(c, t, s);
    SafeRx(CreditCfg(c), t.a.end, t.b.end);
    hide Reached, RxInv, Safe;
    var i := FrontMessage(c.maxOut, c.cap, s.a.ep.tx.log, s.a.exec, s.b.ep.rx, s.b.past);
  }

  lemma CreditStart(c: CR.Config)
    requires c.Valid()
    ensures InStep(c, Start(CreditCfg(c)), CP.Start(c))
  {
    hide Reached, Linked;
    ReachedStart(CreditCfg(c), 0);
    StartLinked(CreditCfg(c));
  }

  lemma {:induction false} CreditPath(c: CR.Config, states: seq<CP.Sys>, moves: seq<CL.Move>, i: nat) returns (t: Sys)
    requires c.Valid() && CL.Path(c, states, moves) && i < |states| && states[0] == CP.Start(c)
    ensures InStep(c, t, states[i])
  {
    hide InStep, CP.SysNext, CP.Start, CL.Plain, CP.ActSpaced;
    if i == 0 {
      t := Start(CreditCfg(c));
      CreditStart(c);
    } else {
      var t0 := CreditPath(c, states, moves, i - 1);
      assert CL.Moved(c, states[i - 1], moves[i - 1], states[i]);
      match moves[i - 1] {
        case One(act) => t := CreditOne(c, t0, states[i - 1], act, states[i]);
        case ReadB =>
          var m :| CL.Reads(c, states[i - 1], m, states[i]);
          t := CreditRead(c, t0, states[i - 1], m, states[i]);
      }
    }
  }

  /** The next byte to be read was accepted as a zero. */
  lemma NextIsZero(c: CR.Config, t: Sys, s: CP.Sys, p0: nat, f0: nat, v: nat)
    requires InStep(c, t, s) && CL.Held(c, s, p0, f0, v) && 0 < c.Bound()
    ensures |t.b.got| < |t.a.accepted| && t.a.accepted[|t.b.got|] == 0
  {
    hide Reached, RxInv, Safe, SentBytes, Rank, BytesOf, RecvBuf;
    SafeRx(CreditCfg(c), t.a.end, t.b.end);
    var log, rx, h := s.a.ep.tx.log, s.b.ep.rx, s.b.past;
    var i := FrontMessage(c.maxOut, c.cap, log, s.a.exec, rx, h);
    ReadsBack(c.maxOut, c.cap, log, s.a.exec, rx, h, v, f0);
    UnreadPending(rx, t.b.st);
    Empty(t.b.got);
    NextMessage(log, h.taken, t.b.got, i);
    SentThrough(log, h.taken + 1, t.b.got, log[i].msg);
  }

  lemma SentThrough(log: seq<Wr>, n: nat, got: seq<u8>, msg: seq<u8>)
    requires BytesOf(log, n, got + msg) && msg != []
    ensures var all := SentBytes(log, |log|); |got| < |all| && all[|got|] == msg[0]
  {
    hide Rank;
    var j :| 0 <= j <= |log| && Rank(Payload, log, j) == n && SentBytes(log, j) == got + msg;
    SentPrefix(log, j, |log|);
    assert (got + msg)[|got|] == msg[0];
  }

  /** The rings are as far as that; the write lands, and the message is read. */
  lemma CreditBreaks(c: CR.Config, t: Sys, s: CP.Sys, p0: nat, f0: nat, v: nat, s': CP.Sys) returns (t': Sys)
    requires InStep(c, t, s) && CL.Poised(c, s, p0, f0, v, s')
    ensures Reached(CreditCfg(c), 0, t') && !t'.a.end.Dead() && !t'.b.end.Dead()
    ensures !(t'.b.got <= t'.a.accepted)
  {
    hide Reached, Linked, CP.Next, CL.Reachable, Rank;
    NextIsZero(c, t, s, p0, f0, v);
    CreditAlive(c, t, s);
    var cfg, rx := CreditCfg(c), s'.b.ep.rx;
    var t1 := Sys(t.a.(end := CreditEnd(s'.a)), t.b.(end := CreditEnd(s'.b)));
    ReachedStep(cfg, 0, t, Act(true, Step.Ring(CreditStep(CP.Execute))), t1);
    assert RecvBuf(rx, v)[0] == 1;
    var o := StreamSpec.Read(rx, t1.b.st, c.Bound()).value;
    assert o.took == 1 && o.repost == Some(v) && o.bytes == RecvBuf(rx, v);
    assert rx.stash[1..] == [];
    hide RecvBuf, StreamSpec.Read;
    var e' := StreamCalls.Applied(cfg, t1.b.end, t1.a.end, o);
    AppliesAfter(cfg, t1.b.end, t1.a.end, o, e');
    t' := t1.(b := t1.b.(end := e', st := o.st, got := t1.b.got + o.bytes));
    hide Applies;
    ReachedStep(cfg, 0, t1, Act(false, Read(c.Bound())), t');
    assert t'.b.got[|t.b.got|] == 1;
  }

  /** A credit ring whose budget does not fit it: a message is overwritten while it waits to be read. */
  lemma CreditBreakingRun(c: CR.Config) returns (t: Sys)
    requires c.Valid() && !c.RingFitsBudget()
    ensures Reached(CreditCfg(c), 0, t) && !t.a.end.Dead() && !t.b.end.Dead()
    ensures !(t.b.got <= t.a.accepted)
  {
    hide Reached, InStep, CP.SysNext, CL.Held, CL.Moved, CP.Start;
    var s, p0, f0, v, s' := CL.OneTooMany(c);
    var states, moves :| CL.Path(c, states, moves) && states[0] == CP.Start(c) && states[|moves|] == s;
    var t0 := CreditPath(c, states, moves, |moves|);
    t := CreditBreaks(c, t0, s, p0, f0, v, s');
  }

  // ---------------------------------------------------------------------
  // The exact condition
  // ---------------------------------------------------------------------

  /**
    * Over either ring: in every run of two streams the bytes read are a prefix of the
    * bytes written, in both directions, if and only if the configuration is orderly.
    */
  lemma PrefixIffOrderly(cfg: Cfg)
    requires ValidCfg(cfg)
    ensures Orderly(cfg) <==> forall states, acts :: IsRun(cfg, states, acts) ==> Prefixes(states[|acts|])
  {
    hide Reached, SysNext, Start;
    if Orderly(cfg) {
      forall states, acts | IsRun(cfg, states, acts)
        ensures Prefixes(states[|acts|])
      {
        hide Orderly;
        ReadsArePrefixOfWrites(cfg, states, acts, |acts|);
      }
    } else {
      var t, limit := DisorderlyRun(cfg);
      var states, acts := RunOf(cfg, limit, t);
    }
  }

  lemma DisorderlyRun(cfg: Cfg) returns (t: Sys, limit: nat)
    requires ValidCfg(cfg) && !Orderly(cfg)
    ensures Reached(cfg, limit, t) && !Prefixes(t)
  {
    hide Reached;
    match cfg {
      case CreditCfg(c) =>
        limit := 0;
        t := CreditBreakingRun(c);
      case ReadCfg(c) => t, limit := BreakingRun(c);
    }
  }

  lemma RunOf(cfg: Cfg, limit: nat, t: Sys) returns (states: seq<Sys>, acts: seq<Act>)
    requires ValidCfg(cfg) && Reached(cfg, limit, t)
    ensures IsRun(cfg, states, acts) && states[|acts|] == t
  {
    hide SysNext, Start;
    states, acts :| IsRun(cfg, states, acts) && DrainsBelow(states, acts, limit) && states[|acts|] == t;
  }
}
