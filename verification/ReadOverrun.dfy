/**
  * Beyond the receiver's window of the read ring. When more than `maxOut` messages
  * can occupy the ring, a receiver that holds one message while it releases later
  * ones publishes a head beyond the held one, and its peer overwrites it; one that
  * holds them all runs out of indices.
  */
module ReadOverrun {
  import opened Modular
  import opened RingBuffers
  import opened TransportCommon
  import opened WorkLog
  import opened SendSide
  import opened CompletionTrackers
  import opened RecvSide
  import opened ReadRing
  import opened ReadProtocol
  import opened ReadSender
  import opened ReadWindow
  import StreamSpec

  /** A message of `f` bytes and a full window of one-byte messages leave room for one more. */
  predicate Overruns(c: Config, f: nat) {
    && SEND_COPY_MAX_WRS <= c.maxOut && 0 < f <= c.maxMsg
    && c.maxOut + f + 1 + c.threshold <= c.cap
  }

  // ---------------------------------------------------------------------
  // Stretches of a run in which `b` holds the message at index 0
  // ---------------------------------------------------------------------

  /** A step that hands nothing out and gives nothing back, or `b` handing out its front and taking it back. */
  datatype Move = One(act: Act) | DrainB

  /** Of the two sides only `a` sends. */
  predicate Plain(act: Act) {
    !act.step.Take? && !act.step.Repost? && (act.step.Send? ==> act.byA)
  }

  ghost predicate Drains(c: Config, f: nat, s: Sys, m: Sys, s': Sys) {
    var rx := s.b.ep.rx;
    && rx.stash != [] && rx.stash[0].byteLen > 0
    && StreamSpec.Readable(rx, 0, f) && StreamSpec.Readable(rx, rx.stash[0].bufIdx, rx.stash[0].byteLen)
    && SysNext(c, s, Act(false, Take(1)), m)
    && SysNext(c, m, Act(false, Step.Repost(rx.stash[0].bufIdx)), s')
  }

  ghost predicate Alive(s: Sys) { !s.a.ep.dead && !s.b.ep.dead }

  ghost predicate Moved(c: Config, f: nat, s: Sys, move: Move, s': Sys) {
    && Alive(s)
    && match move
       case One(act) => Plain(act) && SysNext(c, s, act, s')
       case DrainB => exists m :: Drains(c, f, s, m, s')
  }

  ghost predicate Path(c: Config, f: nat, states: seq<Sys>, moves: seq<Move>) {
    && |states| == |moves| + 1
    && forall i :: 0 <= i < |moves| ==> Moved(c, f, states[i], moves[i], states[i + 1])
  }

  /** How many of the first `n` moves are drains. */
  function DrainCount(moves: seq<Move>, n: nat): nat
    requires n <= |moves|
  {
    if n == 0 then 0 else DrainCount(moves, n - 1) + if moves[n - 1].DrainB? then 1 else 0
  }

  lemma {:induction false} CountAppend(moves: seq<Move>, move: Move, n: nat)
    requires n <= |moves|
    ensures DrainCount(moves + [move], n) == DrainCount(moves, n)
  {
    if n > 0 {
      CountAppend(moves, move, n - 1);
    }
  }

  /** Both endpoints are sound and in use. */
  ghost predicate Up(c: Config, s: Sys) {
    Sound(c, s.a) && Sound(c, s.b) && Alive(s)
  }

  /** A stretch with `d` drains leads from `s0` to `s`. */
  ghost predicate From(c: Config, f: nat, s0: Sys, s: Sys, d: nat) {
    && Up(c, s)
    && exists states, moves ::
         && Path(c, f, states, moves) && states[0] == s0 && states[|moves|] == s
         && DrainCount(moves, |moves|) == d
  }

  lemma FromHere(c: Config, f: nat, s: Sys)
    requires Up(c, s)
    ensures From(c, f, s, s, 0)
  {
    hide Up;
    assert Path(c, f, [s], []) && DrainCount([], 0) == 0;
  }

  lemma Extended(c: Config, f: nat, s0: Sys, s: Sys, d: nat, move: Move, s': Sys)
    requires From(c, f, s0, s, d) && Moved(c, f, s, move, s') && Up(c, s')
    ensures From(c, f, s0, s', d + if move.DrainB? then 1 else 0)
  {
    hide Up, Moved;
    var states, moves :|
      && Path(c, f, states, moves) && states[0] == s0 && states[|moves|] == s
      && DrainCount(moves, |moves|) == d;
    var states', moves' := states + [s'], moves + [move];
    CountAppend(moves, move, |moves|);
    forall i | 0 <= i < |moves'|
      ensures Moved(c, f, states'[i], moves'[i], states'[i + 1])
    {
      if i < |moves| {
        assert Moved(c, f, states[i], moves[i], states[i + 1]);
      }
    }
    assert Path(c, f, states', moves');
  }

  lemma Onward(c: Config, f: nat, s0: Sys, s: Sys, d: nat, act: Act, s': Sys)
    requires From(c, f, s0, s, d) && Plain(act) && SysNext(c, s, act, s') && Alive(s')
    ensures From(c, f, s0, s', d)
  {
    assert Up(c, s);
    hide From, Sound, SysNext;
    SoundStep(c, s, act, s');
    Extended(c, f, s0, s, d, One(act), s');
  }

  lemma OnwardDrain(c: Config, f: nat, s0: Sys, s: Sys, d: nat, m: Sys, s': Sys)
    requires From(c, f, s0, s, d) && Drains(c, f, s, m, s') && Alive(s')
    ensures From(c, f, s0, s', d + 1)
  {
    assert Up(c, s);
    hide From, Sound, SysNext, StreamSpec.Readable;
    SoundStep(c, s, Act(false, Take(1)), m);
    SoundStep(c, m, Act(false, Step.Repost(s.b.ep.rx.stash[0].bufIdx)), s');
    assert Moved(c, f, s, DrainB, s');
    Extended(c, f, s0, s, d, DrainB, s');
  }

  /** Such a stretch is part of a run of the rings. */
  lemma {:induction false} ReachedAlong(c: Config, f: nat, states: seq<Sys>, moves: seq<Move>, i: nat)
    requires c.Valid() && Path(c, f, states, moves) && i < |states| && Reached(c, states[0])
    ensures Reached(c, states[i])
  {
    hide Reached, SysNext, StreamSpec.Readable;
    if i > 0 {
      ReachedAlong(c, f, states, moves, i - 1);
      var s, s' := states[i - 1], states[i];
      assert Moved(c, f, s, moves[i - 1], s');
      match moves[i - 1] {
        case One(act) => ReachedStep(c, s, act, s');
        case DrainB =>
          var m :| Drains(c, f, s, m, s');
          ReachedStep(c, s, Act(false, Take(1)), m);
          ReachedStep(c, m, Act(false, Step.Repost(s.b.ep.rx.stash[0].bufIdx)), s');
      }
    }
  }

  lemma ReachedFrom(c: Config, f: nat, s0: Sys, s: Sys, d: nat)
    requires c.Valid() && Reached(c, s0) && From(c, f, s0, s, d)
    ensures Reached(c, s)
  {
    hide Reached, Moved, Up, DrainCount;
    var states, moves :|
      && Path(c, f, states, moves) && states[0] == s0 && states[|moves|] == s
      && DrainCount(moves, |moves|) == d;
    ReachedAlong(c, f, states, moves, |moves|);
  }

  /** Both endpoints have the shape the steps need. */
  lemma Shapes(c: Config, f: nat, s0: Sys, s: Sys, d: nat)
    requires From(c, f, s0, s, d)
    ensures c.Valid() && Sound(c, s.a) && Sound(c, s.b) && Alive(s) && Shaped(c, s.a, s.b) && Shaped(c, s.b, s.a)
  {
    hide Path;
    SoundOk(c, s.a);
    SoundOk(c, s.b);
  }

  lemma SoundOk(c: Config, x: Node)
    requires Sound(c, x)
    ensures c.Valid() && x.ep.Ok(c)
  {
  }

  // ---------------------------------------------------------------------
  // A message sent by an idle endpoint
  // ---------------------------------------------------------------------

  /** A sender at `pos` that knows the head `h` has room for a byte beyond the threshold. */
  ghost predicate Room(c: Config, ep: Ep, pos: nat, h: nat)
    requires c.cap > 0
  {
    ep.cachedHead == h % c.cap && h <= pos && pos + 2 + c.threshold <= h + c.cap
  }

  /** Nothing is outstanding, the next byte goes to `pos`, and there is room for it. */
  ghost predicate Idle(c: Config, x: Node, pos: nat, h: nat) {
    && Sound(c, x) && !x.ep.dead
    && x.sdone == x.exec == |x.ep.tx.log|
    && Pos(c.cap, x.ep.tx.log, |x.ep.tx.log|) == pos
    && Room(c, x.ep, pos, h)
  }

  /** The same, knowing some head up to `head`. */
  ghost predicate IdleAt(c: Config, x: Node, pos: nat, head: nat) {
    exists h: nat :: h <= head && Idle(c, x, pos, h)
  }

  /** A message that can be sent from there in one piece. */
  ghost predicate Sendable(c: Config, pos: nat, h: nat, msg: seq<u8>)
    requires c.cap > 0
  {
    && SEND_COPY_MAX_WRS <= c.maxOut && 0 < |msg| <= c.maxMsg
    && pos % c.cap + |msg| <= c.cap && pos + |msg| + 1 + c.threshold <= h + c.cap
  }

  ghost function Entry0(c: Config, pos: nat, msg: seq<u8>): Wr
    requires c.cap > 0
  {
    Data(pos % c.cap, pos % c.cap, EncodeImm(pos % c.cap, |msg|), |msg|, msg)
  }

  /** What the send leaves: the message, and a Read if space has run low. */
  ghost predicate Sent(c: Config, x: Node, x': Node, pos: nat, h: nat, msg: seq<u8>)
    requires c.cap > 0
  {
    var log, w := x.ep.tx.log, Entry0(c, pos, msg);
    && x' == x.(ep := x'.ep) && x'.ep.cachedHead == x.ep.cachedHead && !x'.ep.dead
    && (|| (x'.ep.tx.log == log + [w] && Room(c, x.ep, pos + |msg|, h))
        || x'.ep.tx.log == log + [w, HeadRead])
  }

  lemma IdleSpan(c: Config, x: Node, pos: nat, h: nat)
    requires Idle(c, x, pos, h)
    ensures c.Valid() && x.ep.Ok(c) && x.ep.tx.ring.Spans(pos, pos) && x.ep.tx.ring.capacity == c.cap
    ensures x.ep.tx.remoteTail == pos % c.cap && x.ep.SqUsed() == 0
  {
    hide Staged, Pos;
    FreedIsPos(c.cap, c.Bound(), x.ep.tx.log, |x.ep.tx.log|);
    NoTrailingGap(c.cap, c.Bound(), x.ep.tx.log);
  }

  /** The message alone, before the decision to read the head again. */
  lemma MessagePosted(c: Config, x: Node, pos: nat, h: nat, msg: seq<u8>, g: Grant)
    requires Idle(c, x, pos, h) && Sendable(c, pos, h, msg) && x.ep.Ok(c)
    requires x.ep.tx.remoteTail == pos % c.cap && !x.ep.readInFlight
    requires g.offset == pos % c.cap && g.padding == 0 && g.ring.Valid() && g.ring.capacity == c.cap
    ensures Sent(c, x, x.(ep := PostMessage(c, x.ep, g, msg)), pos, h, msg)
  {
    hide Sound, Pos, EncodeImm, Store, Ep.RemoteFree;
    SoundOk(c, x);
    PostedShape(c, x, msg, g);
    var x1 := Posted(c, x, g, msg);
    AddMod(pos, |msg|, c.cap);
    FreeFrom(c, x1.ep, h, pos + |msg|);
    var w := Entry0(c, pos, msg);
    assert x1.ep.tx.log == x.ep.tx.log + [w];
    assert x.ep.tx.log + [w] + [HeadRead] == x.ep.tx.log + [w, HeadRead];
  }

  lemma MessageSent(c: Config, x: Node, pos: nat, h: nat, msg: seq<u8>)
    requires Idle(c, x, pos, h) && Sendable(c, pos, h, msg)
    ensures x.ep.Ok(c) && Sent(c, x, x.(ep := SendGather(c, x.ep, msg).0), pos, h, msg)
  {
    hide Sound, Pos, EncodeImm, Store, Sent, PostMessage, Ep.RemoteFree;
    IdleSpan(c, x, pos, h);
    FreeFrom(c, x.ep, h, pos);
    IdleGrant(x.ep.tx.ring, pos, |msg|);
    GrantInBounds(x.ep.tx.ring, |msg|);
    hide Ring.Reserve;
    assert msg[..|msg|] == msg && c.SendLen(|msg|) == |msg|;
    MessagePosted(c, x, pos, h, msg, x.ep.tx.ring.Reserve(|msg|).value);
  }

  // ---------------------------------------------------------------------
  // The steps that deliver and settle it
  // ---------------------------------------------------------------------

  lemma SendStep(c: Config, f: nat, s0: Sys, s: Sys, d: nat, pos: nat, h: nat, msg: seq<u8>) returns (s': Sys)
    requires From(c, f, s0, s, d) && Idle(c, s.a, pos, h) && Sendable(c, pos, h, msg)
    ensures From(c, f, s0, s', d) && s'.b == s.b && Sent(c, s.a, s'.a, pos, h, msg)
  {
    hide From, Idle, Sound, SendGather, Sendable, Entry0, Room;
    Shapes(c, f, s0, s, d);
    MessageSent(c, s.a, pos, h, msg);
    s' := s.(a := s.a.(ep := SendGather(c, s.a.ep, msg).0));
    Onward(c, f, s0, s, d, Act(true, Send(msg)), s');
  }

  /** The connection carries out the next entry: a message, or a Read of the published head. */
  lemma CarryStep(c: Config, f: nat, s0: Sys, s: Sys, d: nat) returns (s': Sys)
    requires From(c, f, s0, s, d) && s.a.sdone <= s.a.exec < |s.a.ep.tx.log|
    requires s.a.ep.tx.log[s.a.exec].Data? || s.a.ep.tx.log[s.a.exec].HeadRead?
    ensures From(c, f, s0, s', d) && c.Valid()
    ensures var w := s.a.ep.tx.log[s.a.exec];
            && s'.a == (if w.HeadRead? then s.a.(ep := s.a.ep.(readBuf := s.b.ep.published), exec := s.a.exec + 1,
                                                  landed := HeadPos(c.cap, s.a.ep.tx.log, s.b.past.freed))
                        else s.a.(exec := s.a.exec + 1))
            && s'.b == s.b.(ep := s.b.ep.(rx := s.b.ep.rx.(mem := s'.b.ep.rx.mem)))
            && |s'.b.ep.rx.mem| == c.cap
            && (w.Data? ==> w.ro + |w.msg| <= |s.b.ep.rx.mem| && s'.b.ep.rx.mem == Store(s.b.ep.rx.mem, w.ro, w.msg))
            && (w.HeadRead? ==> s'.b == s.b)
  {
    hide From, EncodeImm, HeadPos, Store;
    Shapes(c, f, s0, s, d);
    var a, b, w := s.a, s.b, s.a.ep.tx.log[s.a.exec];
    assert Placed(c.cap, c.Bound(), a.ep.tx.log, a.exec);
    assert Staged(a.ep.tx, a.sdone);
    hide Sound;
    if w.Data? {
      s' := Sys(a.(exec := a.exec + 1), b.(ep := b.ep.(rx := b.ep.rx.(mem := Store(b.ep.rx.mem, w.ro, w.msg)))));
    } else {
      s' := s.(a := a.(ep := a.ep.(readBuf := b.ep.published), exec := a.exec + 1,
                       landed := HeadPos(c.cap, a.ep.tx.log, b.past.freed)));
    }
    StoreLength(b.ep.rx.mem, w);
    Onward(c, f, s0, s, d, Act(true, Execute), s');
  }

  lemma StoreLength(mem: seq<u8>, w: Wr)
    ensures w.Data? && w.ro + |w.msg| <= |mem| ==> |Store(mem, w.ro, w.msg)| == |mem|
  {
  }

  lemma DoneStep(c: Config, f: nat, s0: Sys, s: Sys, d: nat) returns (s': Sys)
    requires From(c, f, s0, s, d) && s.a.sdone < s.a.exec
    ensures From(c, f, s0, s', d) && s'.b == s.b
    ensures s.a.exec <= |s.a.ep.tx.log|
    ensures var w := s.a.ep.tx.log[s.a.sdone];
            && s'.a == s.a.(ep := s'.a.ep, sdone := s.a.sdone + 1, seen := if w.HeadRead? then s.a.landed else s.a.seen)
            && s'.a.ep.tx.log == s.a.ep.tx.log && s'.a.ep.dead == s.a.ep.dead && s'.a.ep.readBuf == s.a.ep.readBuf
            && s'.a.ep.cachedHead == if w.HeadRead? then s.a.ep.readBuf else s.a.ep.cachedHead
  {
    hide From, Sound, Ring.Release;
    Shapes(c, f, s0, s, d);
    QueueWithinBudget(c, s.a);
    ReapedIs(c, s.a);
    s' := s.(a := SentReaped(c, s.a));
    Onward(c, f, s0, s, d, Act(true, SendDone), s');
  }

  /** The message at `pos` has been sent and carried out. */
  ghost predicate InAir(c: Config, x0: Node, x: Node, pos: nat, h: nat, msg: seq<u8>)
    requires c.cap > 0
  {
    exists x1 :: Sent(c, x0, x1, pos, h, msg) && x == x1.(exec := |x0.ep.tx.log| + 1)
  }

  lemma SentLog(c: Config, x0: Node, x1: Node, pos: nat, h: nat, msg: seq<u8>)
    requires Idle(c, x0, pos, h) && Sent(c, x0, x1, pos, h, msg)
    ensures var log, n := x1.ep.tx.log, |x0.ep.tx.log|;
            && n + 1 <= |log| <= n + 2 && x0.ep.tx.log <= log && log[n] == Entry0(c, pos, msg) && log[n].Data?
            && (|log| == n + 1 ==> Room(c, x0.ep, pos + |msg|, h)) && (|log| == n + 2 ==> log[n + 1].HeadRead?)
            && Pos(c.cap, log, |log|) == pos + |msg|
  {
    hide Sound, EncodeImm;
    var log, n := x1.ep.tx.log, |x0.ep.tx.log|;
    var more := log[n..];
    assert log == x0.ep.tx.log + more;
    PosAppend(c.cap, x0.ep.tx.log, more, n);
    assert Pos(c.cap, log, n + 1) == Pos(c.cap, log, n) + |msg|;
    assert |log| == n + 2 ==> Pos(c.cap, log, n + 2) == Pos(c.cap, log, n + 1) + 0;
  }

  /** The message sent and carried out. */
  lemma Delivered(c: Config, f: nat, s0: Sys, s: Sys, d: nat, pos: nat, h: nat, msg: seq<u8>) returns (s': Sys)
    requires From(c, f, s0, s, d) && Idle(c, s.a, pos, h) && Sendable(c, pos, h, msg)
    ensures From(c, f, s0, s', d) && InAir(c, s.a, s'.a, pos, h, msg)
    ensures var n := |s.a.ep.tx.log|;
            && s'.a.exec == n + 1 && s.a.ep.tx.log <= s'.a.ep.tx.log && n < |s'.a.ep.tx.log|
            && s'.a.ep.tx.log[n] == Entry0(c, pos, msg) && pos % c.cap + |msg| <= |s.b.ep.rx.mem|
    ensures s'.b == s.b.(ep := s.b.ep.(rx := s.b.ep.rx.(mem := Store(s.b.ep.rx.mem, pos % c.cap, msg))))
    ensures |s'.b.ep.rx.mem| == c.cap
  {
    hide From, Sound, EncodeImm, Pos, Room, Store;
    var s1 := SendStep(c, f, s0, s, d, pos, h, msg);
    SentLog(c, s.a, s1.a, pos, h, msg);
    s' := CarryStep(c, f, s0, s1, d);
  }

  /**
    * Its completion is reaped, and a Read fetches the head the receiver has
    * published by then.
    */
  lemma Settle(c: Config, f: nat, s0: Sys, x0: Node, s: Sys, d: nat, pos: nat, h: nat, msg: seq<u8>, head: nat)
    returns (s': Sys, h': nat)
    requires From(c, f, s0, s, d) && Idle(c, x0, pos, h) && InAir(c, x0, s.a, pos, h, msg)
    requires s.b.ep.published == head % c.cap && h <= head <= pos + |msg| && pos + |msg| + 2 + c.threshold <= head + c.cap
    ensures From(c, f, s0, s', d) && Idle(c, s'.a, pos + |msg|, h') && h' <= head
    ensures s'.a.ep.tx.log == s.a.ep.tx.log && s'.b == s.b
  {
    hide From, Sound, HeadPos, Pos, Entry0;
    Shapes(c, f, s0, s, d);
    var n := |x0.ep.tx.log|;
    var x1 :| Sent(c, x0, x1, pos, h, msg) && s.a == x1.(exec := n + 1);
    SentLog(c, x0, x1, pos, h, msg);
    h' := h;
    s' := DoneStep(c, f, s0, s, d);
    if |x1.ep.tx.log| == n + 2 {
      s' := CarryStep(c, f, s0, s', d);
      s' := DoneStep(c, f, s0, s', d);
      h' := head;
    }
    Shapes(c, f, s0, s', d);
  }

  /** The receiver passes over a Read, if one follows the message it has reaped. */
  lemma CaughtUp(c: Config, f: nat, s0: Sys, s: Sys, d: nat, n: nat) returns (s': Sys)
    requires From(c, f, s0, s, d) && s.b.past.rdone == n + 1 && s.a.exec == |s.a.ep.tx.log|
    requires n + 1 <= |s.a.ep.tx.log| <= n + 2 && (|s.a.ep.tx.log| == n + 2 ==> s.a.ep.tx.log[n + 1].HeadRead?)
    ensures From(c, f, s0, s', d) && s' == s.(b := s.b.(past := s.b.past.(rdone := |s.a.ep.tx.log|)))
  {
    hide From, Sound;
    s' := s.(b := s.b.(past := s.b.past.(rdone := |s.a.ep.tx.log|)));
    if |s.a.ep.tx.log| == n + 2 {
      Shapes(c, f, s0, s, d);
      Onward(c, f, s0, s, d, Act(false, Step.RecvDone), s');
    }
  }

  /** Settled, and the receiver up to date. */
  lemma Quiesce(c: Config, f: nat, s0: Sys, x0: Node, s: Sys, d: nat, pos: nat, h: nat, msg: seq<u8>, head: nat)
    returns (s': Sys, h': nat)
    requires From(c, f, s0, s, d) && Idle(c, x0, pos, h) && InAir(c, x0, s.a, pos, h, msg)
    requires s.b.ep.published == head % c.cap && h <= head <= pos + |msg| && pos + |msg| + 2 + c.threshold <= head + c.cap
    requires s.b.past.rdone == |x0.ep.tx.log| + 1
    ensures From(c, f, s0, s', d) && Idle(c, s'.a, pos + |msg|, h') && h' <= head
    ensures s'.a.ep.tx.log == s.a.ep.tx.log
    ensures s'.b == s.b.(past := s.b.past.(rdone := |s'.a.ep.tx.log|))
  {
    hide From, Sound, HeadPos, Pos, Entry0, Room;
    var x1 :| Sent(c, x0, x1, pos, h, msg) && s.a == x1.(exec := |x0.ep.tx.log| + 1);
    SentLog(c, x0, x1, pos, h, msg);
    s', h' := Settle(c, f, s0, x0, s, d, pos, h, msg, head);
    s' := CaughtUp(c, f, s0, s', d, |x0.ep.tx.log|);
  }

  /** The receiver finds the message where its sender put it. */
  lemma MessageReaped(c: Config, ep: Ep, pos: nat, msg: seq<u8>)
    requires c.Valid() && ep.Ok(c) && 0 < |msg| && pos % c.cap + |msg| <= c.cap && |msg| <= IMM_MAX
    ensures ReapRecv(c, ep, Arrives(Entry0(c, pos, msg))) == ReapData(c, ep, pos % c.cap, |msg|)
  {
    hide EncodeImm, DecodeImm, ReapData, ReapPad;
    ImmRoundTrip(pos % c.cap, |msg|);
  }

  // ---------------------------------------------------------------------
  // Holding everything: the index map runs out
  // ---------------------------------------------------------------------

  /** The first `j` of `k` indices are mapped, none was ever released. */
  ghost predicate FirstHeld(rx: Rx, k: nat, j: nat) {
    && 0 < k == |rx.vmap| && rx.nextVirt == j % k && rx.arrivals == j
    && forall v :: 0 <= v < k ==> (rx.vmap[v].Some? <==> v < j)
  }

  lemma HoldNext(rx: Rx, k: nat, j: nat, offset: nat, length: nat)
    requires ShapeOk(rx) && FirstHeld(rx, k, j) && j < k
    ensures ArriveData(rx, offset, length).Some?
    ensures FirstHeld(ArriveData(rx, offset, length).value, k, j + 1)
  {
    SmallMod(j, k);
  }

  /** A state in which `j` one-byte messages were sent and reaped and none released. */
  ghost predicate Holding(c: Config, s: Sys, j: nat) {
    && Idle(c, s.a, j, 0) && c.cap > 0 && From(c, 1, Start(c), s, 0) && s.b.past.rdone == |s.a.ep.tx.log|
    && s.b.ep.published == 0 && FirstHeld(s.b.ep.rx, c.maxOut, j)
  }

  /** The receiver reaps the byte and keeps it. */
  lemma KeepStep(c: Config, s0: Sys, s: Sys, pos: nat, j: nat) returns (s': Sys)
    requires From(c, 1, s0, s, 0) && c.cap > 0 && s.b.past.rdone < s.a.exec <= |s.a.ep.tx.log|
    requires s.a.ep.tx.log[s.b.past.rdone] == Entry0(c, pos, [0])
    requires FirstHeld(s.b.ep.rx, c.maxOut, j) && j < c.maxOut
    ensures From(c, 1, s0, s', 0) && s'.a == s.a
    ensures s'.b.past == s.b.past.(rdone := s.b.past.rdone + 1) && s'.b.ep.published == s.b.ep.published
    ensures FirstHeld(s'.b.ep.rx, c.maxOut, j + 1)
  {
    hide From, Sound, EncodeImm, ReapRecv;
    Shapes(c, 1, s0, s, 0);
    MessageReaped(c, s.b.ep, pos, [0]);
    HoldNext(s.b.ep.rx, c.maxOut, j, pos % c.cap, 1);
    hide ArriveData, FirstHeld;
    s' := s.(b := s.b.(ep := ReapRecv(c, s.b.ep, Arrives(s.a.ep.tx.log[s.b.past.rdone])),
                       past := s.b.past.(rdone := s.b.past.rdone + 1)));
    Onward(c, 1, s0, s, 0, Act(false, Step.RecvDone), s');
  }

  lemma SameHeld(rx: Rx, rx': Rx, k: nat, j: nat)
    requires FirstHeld(rx, k, j) && rx' == rx.(mem := rx'.mem)
    ensures FirstHeld(rx', k, j)
  {
  }

  lemma HoldOne(c: Config, s: Sys, j: nat) returns (s': Sys)
    requires Holding(c, s, j) && Overruns(c, 1) && j < c.maxOut
    ensures Holding(c, s', j + 1)
  {
    hide From, FirstHeld, Sound, Pos, EncodeImm, Store, InAir, Start;
    var s1 := Delivered(c, 1, Start(c), s, 0, j, 0, [0]);
    SameHeld(s.b.ep.rx, s1.b.ep.rx, c.maxOut, j);
    var s2 := KeepStep(c, Start(c), s1, j, j);
    SmallMod(0, c.cap);
    var h;
    s', h := Quiesce(c, 1, Start(c), s.a, s2, 0, j, 0, [0], 0);
  }

  lemma StartUp(c: Config)
    requires c.Valid()
    ensures Up(c, Start(c))
  {
    hide Sound;
    SoundStart(c);
  }

  lemma IdleStart(c: Config)
    requires c.Valid() && c.threshold + 2 <= c.cap
    ensures Idle(c, Start(c).a, 0, 0)
  {
    SoundStart(c);
    SmallMod(0, c.cap);
  }

  lemma {:induction false} HoldAll(c: Config, j: nat) returns (s: Sys)
    requires c.Valid() && Overruns(c, 1) && j <= c.maxOut
    ensures Holding(c, s, j)
  {
    if j == 0 {
      s := Start(c);
      StartUp(c);
      FromHere(c, 1, s);
      IdleStart(c);
      SmallMod(0, c.maxOut);
      hide Idle, From;
    } else {
      hide Holding, Overruns;
      var s0 := HoldAll(c, j - 1);
      s := HoldOne(c, s0, j - 1);
    }
  }

  /** One message more than the window, all held: its receiver gives the connection up. */
  lemma ExhaustingRun(c: Config) returns (s: Sys)
    requires c.Valid() && !WindowFits(c)
    ensures Reached(c, s) && s.b.ep.dead
  {
    hide Reached, From, Sound, Pos, EncodeImm, Store, InAir, Start;
    var k := c.maxOut;
    var s0 := HoldAll(c, k);
    var s1 := Delivered(c, 1, Start(c), s0, 0, k, 0, [0]);
    ReachedStart(c);
    ReachedFrom(c, 1, Start(c), s1, 0);
    Shapes(c, 1, Start(c), s1, 0);
    var w := s1.a.ep.tx.log[s1.b.past.rdone];
    MessageReaped(c, s1.b.ep, k, [0]);
    assert ArriveData(s1.b.ep.rx, k % c.cap, 1).None?;
    hide ReapRecv;
    s := s1.(b := s1.b.(ep := ReapRecv(c, s1.b.ep, Arrives(w)), past := PastReap(s1.b, w)));
    ReachedStep(c, s1, Act(false, Step.RecvDone), s);
  }

  // ---------------------------------------------------------------------
  // Holding one message while later ones are released
  // ---------------------------------------------------------------------

  /** What the tracker believes released: all below `n` but `base`, which really is arrival 0. */
  ghost function AllBut(base: nat, n: nat): (done: set<nat>)
    requires base < n
    ensures forall q: nat :: q in done <==> q < n && q != base
  {
    Range(0, base) + Range(base + 1, n)
  }

  /**
    * The receiver after `n` messages: it holds the first, of `f` bytes, and has
    * released the others, its tracker takes the slot of the first for that of `base`,
    * and it has published the head `head`. All but every `maxOut`-th message were of
    * one byte.
    */
  ghost predicate Lagging(c: Config, f: nat, y: Node, n: nat, base: nat, head: nat)
    requires c.cap > 0
  {
    && base < n <= base + c.maxOut && base % c.maxOut == 0
    && y.ep.rx.arrivals == n && y.ep.rx.stash == []
    && OnlyFirst(y.ep.rx.vmap, c.maxOut, f)
    && |y.ep.rx.tracker.released| == c.maxOut && y.ep.rx.tracker.Tracks(base, AllBut(base, n))
    && |y.ep.head.lens| == c.maxOut && Ones(y.ep.head.lens, n)
    && y.ep.head.slot == 0 && y.ep.head.offset == y.ep.published == head % c.cap
  }

  ghost predicate OnlyFirst(vmap: seq<Option<Entry>>, k: nat, f: nat) {
    && 0 < k == |vmap| && vmap[0] == Some(Entry(0, f, 0))
    && forall v :: 0 < v < k ==> vmap[v].None?
  }

  ghost predicate Ones(lens: seq<nat>, n: nat) { forall j :: 0 < j < |lens| && j < n ==> lens[j] == 1 }

  /** The tracker stops at the first number that has not been released. */
  lemma StopsAt(t: Tracker, at: nat, done: set<nat>, end: nat)
    requires t.Tracks(at, done) && end !in done && forall q: nat :: q < end ==> q in done
    ensures at == end
  {
  }

  /** In the middle of a lap a release moves nothing. */
  lemma ReleaseWithin(t: Tracker, k: nat, base: nat, n: nat)
    requires t.Valid() && 0 < k == |t.released| && base < n < base + k && t.Tracks(base, AllBut(base, n))
    ensures t.Release(n % k).1 == 0 && t.Release(n % k).0.Tracks(base, AllBut(base, n + 1))
  {
    hide Tracker.Release, Tracker.Tracks, AllBut;
    var done := AllBut(base, n);
    CompletionTrackers.ReleaseRefines(t, base, done, n);
    assert done + {n} == AllBut(base, n + 1);
    var (t', cnt) := t.Release(n % k);
    StopsAt(t', base + cnt, done + {n}, base);
  }

  /** At the end of a lap the tracker passes over the held message and the whole lap behind it. */
  lemma ReleaseLap(t: Tracker, k: nat, base: nat)
    requires t.Valid() && 0 < k == |t.released| && t.Tracks(base, AllBut(base, base + k))
    ensures var r := t.Release(base % k);
            r.1 == k && r.0.Tracks(base + k, AllBut(base + k, base + k + 1))
  {
    hide Tracker.Release, Tracker.Tracks, AllBut;
    var done := AllBut(base, base + k);
    CompletionTrackers.ReleaseRefines(t, base, done, base);
    var done' := AllBut(base + k, base + k + 1);
    assert done + {base} == done';
    var (t', cnt) := t.Release(base % k);
    StopsAt(t', base + cnt, done', base + k);
  }

  lemma SameSlot(base: nat, k: nat)
    requires k > 0
    ensures (base + k) % k == base % k
  {
    AddMod(k, base, k);
  }

  lemma AdvanceOne(h: Head, cap: nat, n: nat)
    requires cap > 0 && h.Valid()
    ensures h.Advance(cap, 0) == h
    ensures h.Advance(cap, n + 1) == Head(h.lens, (h.slot + 1) % |h.lens|, (h.offset + h.lens[h.slot]) % cap).Advance(cap, n)
  {
  }

  lemma NextSlot(slot: nat, k: nat)
    requires slot < k
    ensures (slot + 1) % k == if slot + 1 == k then 0 else slot + 1
  {
    if slot + 1 < k {
      SmallMod(slot + 1, k);
    }
  }

  /** Advancing from the position `p` over slots of one byte, up to the end. */
  lemma {:induction false} AdvanceOnes(lens: seq<nat>, slot: nat, cap: nat, p: nat)
    requires cap > 0 && 0 < slot <= |lens| && Ones(lens, |lens|)
    ensures var h := Head(lens, if slot == |lens| then 0 else slot, p % cap);
            h.Advance(cap, |lens| - slot) == Head(lens, 0, (p + (|lens| - slot)) % cap)
    decreases |lens| - slot
  {
    hide Head.Advance;
    var n := |lens| - slot;
    if n == 0 {
      AdvanceOne(Head(lens, 0, p % cap), cap, 0);
    } else {
      AdvanceOne(Head(lens, slot, p % cap), cap, n - 1);
      NextSlot(slot, |lens|);
      AddMod(p, 1, cap);
      AdvanceOnes(lens, slot + 1, cap, p + 1);
    }
  }

  /** A lap of messages moves the head by as many bytes as they have. */
  lemma AdvanceLap(c: Config, lens: seq<nat>, head: nat, cnt: nat)
    requires c.Valid() && |lens| == c.maxOut && 2 <= c.maxOut
    requires cnt == 0 || (cnt == c.maxOut && Ones(lens, cnt))
    ensures var h := Head(lens, 0, head % c.cap).Advance(c.cap, cnt);
            h.slot == 0 && h.offset == (head + if cnt == 0 then 0 else lens[0] + cnt - 1) % c.cap && h.lens == lens
  {
    hide Head.Advance;
    AdvanceOne(Head(lens, 0, head % c.cap), c.cap, if cnt > 0 then cnt - 1 else 0);
    if cnt > 0 {
      SmallMod(1, c.maxOut);
      AddMod(head, lens[0], c.cap);
      AdvanceOnes(lens, 1, c.cap, head + lens[0]);
    }
  }

  lemma NextLap(base: nat, cnt: nat, k: nat)
    requires k > 0 && base % k == 0 && (cnt == 0 || cnt == k)
    ensures (base + cnt) % k == 0
  {
    AddMod(base, cnt, k);
  }

  lemma WithinLap(base: nat, n: nat, k: nat)
    requires k > 0 && base % k == 0 && base <= n < base + k
    ensures n % k == n - base
  {
    AddMod(base, n - base, k);
    SmallMod(n - base, k);
  }

  /** Mapping and unmapping an arrival leaves the map as it was. */
  lemma PassesThrough(rx: Rx, k: nat, f: nat, offset: nat, l: nat, n: nat)
    requires ShapeOk(rx) && OnlyFirst(rx.vmap, k, f) && k >= 2 && rx.arrivals == n && rx.stash == []
    ensures ArriveData(rx, offset, l).Some?
    ensures var rx1 := ArriveData(rx, offset, l).value;
            && ShapeOk(rx1) && |rx1.stash| == 1 && rx1.stash[0].byteLen == l
            && var v := rx1.stash[0].bufIdx;
               && HandedOut(rx1.(stash := []), v) && rx1.vmap[0] == rx.vmap[0]
               && rx1.vmap[v] == Some(Entry(offset, l, n))
               && rx1.(stash := [], vmap := rx1.vmap[v := None]) == rx.(nextVirt := rx1.nextVirt, arrivals := n + 1)
  {
    FindFreeComplete(rx.vmap, rx.nextVirt, 1);
    var rx1 := ArriveData(rx, offset, l).value;
    var v := rx1.stash[0].bufIdx;
    assert rx1.vmap[v := None] == rx.vmap;
    assert rx1.stash == rx.stash + [rx1.stash[0]];
  }

  /** The receiver reaps a message, hands it out and releases it. */
  ghost function Released(c: Config, y: Node, offset: nat, l: nat, v: nat): Node
    requires c.Valid() && y.ep.Ok(c) && ArriveData(y.ep.rx, offset, l).Some?
    requires var rx := ArriveData(y.ep.rx, offset, l).value; v < |rx.vmap| && rx.vmap[v].Some? && ShapeOk(rx)
  {
    var ep1 := NoteLen(c, y.ep, l).(rx := ArriveData(y.ep.rx, offset, l).value.(stash := []));
    y.(ep := RepostRecv(c, ep1, v),
       past := AfterRepost(ep1.rx, y.past.(rdone := y.past.rdone + 1, taken := y.past.taken + 1), v))
  }

  /** How far the tracker takes a release for one of the held message's slot. */
  function LapOf(c: Config, n: nat, base: nat): nat { if n == base + c.maxOut then c.maxOut else 0 }

  /** The head after message `n`, of `l` bytes, has been released. */
  function HeadAfter(c: Config, n: nat, base: nat, head: nat, l: nat): nat {
    if n == base + c.maxOut && c.maxOut > 0 then head + c.maxOut - 1 + l else head
  }

  lemma LensNoted(c: Config, lens: seq<nat>, n: nat, base: nat, l: nat)
    requires |lens| == c.maxOut && Ones(lens, n) && base < n <= base + c.maxOut && base % c.maxOut == 0
    requires n < base + c.maxOut ==> l == 1
    ensures var k := c.maxOut; var lens' := lens[n % k := l];
            Ones(lens', n + 1) && (n == base + k ==> n % k == 0 && lens'[0] == l && Ones(lens', k))
  {
    var k := c.maxOut;
    if n == base + k {
      NextLap(base, k, k);
    } else {
      WithinLap(base, n, k);
    }
    if n < k {
      SmallMod(n, k);
    }
  }

  /** The tracker and the head after arrival `n` has been released. */
  lemma LapMoves(c: Config, f: nat, y: Node, n: nat, base: nat, head: nat, l: nat)
    requires c.Valid() && y.ep.Ok(c) && Lagging(c, f, y, n, base, head) && 2 <= c.maxOut
    requires n < base + c.maxOut ==> l == 1
    ensures var k := c.maxOut;
            var cnt := LapOf(c, n, base);
            var (t', moved) := y.ep.rx.tracker.Release(n % k);
            var lens := y.ep.head.lens[n % k := l];
            && moved == cnt && t'.Tracks(base + cnt, AllBut(base + cnt, n + 1)) && Ones(lens, n + 1)
            && (base + cnt) % k == 0 && base + cnt < n + 1 <= base + cnt + k
            && var h := Head(lens, 0, head % c.cap).Advance(c.cap, cnt);
               h.slot == 0 && h.offset == HeadAfter(c, n, base, head, l) % c.cap && h.lens == lens
  {
    hide Tracker.Release, Tracker.Tracks, AllBut, Head.Advance, Ones;
    var k := c.maxOut;
    LensNoted(c, y.ep.head.lens, n, base, l);
    NextLap(base, LapOf(c, n, base), k);
    if n == base + k {
      ReleaseLap(y.ep.rx.tracker, k, base);
      SameSlot(base, k);
    } else {
      ReleaseWithin(y.ep.rx.tracker, k, base, n);
    }
    AdvanceLap(c, y.ep.head.lens[n % k := l], head, LapOf(c, n, base));
  }

  /** What `Released` comes to when the arrival passes through. */
  lemma ReleasedIs(c: Config, y: Node, n: nat, offset: nat, l: nat, v: nat)
    requires c.Valid() && y.ep.Ok(c) && y.ep.rx.arrivals == n && ArriveData(y.ep.rx, offset, l).Some?
    requires var rx := ArriveData(y.ep.rx, offset, l).value;
             && ShapeOk(rx) && v < |rx.vmap| && rx.vmap[v].Some? && rx.vmap[v].value.arrival == n
             && rx.(stash := [], vmap := rx.vmap[v := None]) == y.ep.rx.(nextVirt := rx.nextVirt, arrivals := n + 1)
    ensures var rx := ArriveData(y.ep.rx, offset, l).value;
            var (t, cnt) := y.ep.rx.tracker.Release(n % c.maxOut);
            var rx' := y.ep.rx.(nextVirt := rx.nextVirt, arrivals := n + 1, tracker := t);
            var r := Released(c, y, offset, l, v);
            && r.ep == AdvanceHead(c, NoteLen(c, y.ep, l).(rx := rx'), cnt)
            && r.past.rdone == y.past.rdone + 1
  {
    hide ArriveData, Tracker.Release, AdvanceHead;
  }

  lemma StillLagging(c: Config, f: nat, y: Node, n: nat, base: nat, head: nat, offset: nat, l: nat, v: nat)
    requires Sound(c, y) && Lagging(c, f, y, n, base, head) && 2 <= c.maxOut && (n < base + c.maxOut ==> l == 1)
    requires ArriveData(y.ep.rx, offset, l).Some?
    requires var rx := ArriveData(y.ep.rx, offset, l).value;
             && ShapeOk(rx) && v < |rx.vmap| && rx.vmap[v].Some? && rx.vmap[v].value.arrival == n
             && rx.(stash := [], vmap := rx.vmap[v := None]) == y.ep.rx.(nextVirt := rx.nextVirt, arrivals := n + 1)
    ensures Lagging(c, f, Released(c, y, offset, l, v), n + 1, base + LapOf(c, n, base), HeadAfter(c, n, base, head, l))
    ensures Released(c, y, offset, l, v).past.rdone == y.past.rdone + 1
    ensures Released(c, y, offset, l, v).ep.dead == y.ep.dead
  {
    hide Sound, Tracker.Release, Tracker.Tracks, AllBut, Head.Advance, ArriveData, Released, Ones, AdvanceHead, OnlyFirst;
    SoundOk(c, y);
    LapMoves(c, f, y, n, base, head, l);
    ReleasedIs(c, y, n, offset, l, v);
    AdvancedTo(c, NoteLen(c, y.ep, l), head, HeadAfter(c, n, base, head, l), LapOf(c, n, base),
               y.ep.rx.(nextVirt := ArriveData(y.ep.rx, offset, l).value.nextVirt, arrivals := n + 1,
                        tracker := y.ep.rx.tracker.Release(n % c.maxOut).0));
  }

  /** Publishing the head that a lap, or nothing, leads to. */
  lemma AdvancedTo(c: Config, ep: Ep, head: nat, head': nat, cnt: nat, rx: Rx)
    requires c.Valid() && ep.Ok(c) && ep.(rx := rx).Ok(c)
    requires ep.head.slot == 0 && ep.head.offset == ep.published == head % c.cap
    requires var h := ep.head.Advance(c.cap, cnt); h.slot == 0 && h.offset == head' % c.cap && (cnt == 0 ==> head' == head)
    ensures var r := AdvanceHead(c, ep.(rx := rx), cnt);
            && r == ep.(rx := rx, head := r.head, published := r.published)
            && r.head.slot == 0 && r.head.offset == r.published == head' % c.cap && r.head.lens == ep.head.lens
  {
    hide Head.Advance, ShapeOk;
    SmallMod(head' % c.cap, U32);
  }

  lemma LaggingSame(c: Config, f: nat, y: Node, y': Node, n: nat, base: nat, head: nat)
    requires c.cap > 0 && Lagging(c, f, y, n, base, head)
    requires y'.ep == y.ep.(rx := y.ep.rx.(mem := y'.ep.rx.mem))
    ensures Lagging(c, f, y', n, base, head)
  {
    hide Tracker.Tracks, AllBut, OnlyFirst, Ones;
  }

  /** The arrival the receiver is about to reap, and what mapping it leads to. */
  ghost predicate Passing(c: Config, f: nat, s: Sys, offset: nat, l: nat, v: nat) {
    && Shaped(c, s.b, s.a) && s.b.past.rdone < s.a.exec <= |s.a.ep.tx.log|
    && s.a.ep.tx.log[s.b.past.rdone].Data? && 0 < l && offset + l <= c.cap && f <= c.cap
    && ReapRecv(c, s.b.ep, Arrives(s.a.ep.tx.log[s.b.past.rdone])) == ReapData(c, s.b.ep, offset, l)
    && ArriveData(s.b.ep.rx, offset, l).Some?
    && var rx := ArriveData(s.b.ep.rx, offset, l).value;
       && ShapeOk(rx) && |rx.vmap| == c.maxOut && |rx.mem| == c.cap
       && rx.stash == [RecvDone.RecvDone(v, l)] && HandedOut(rx.(stash := []), v)
       && rx.vmap[0] == Some(Entry(0, f, 0)) && rx.vmap[v] == Some(Entry(offset, l, s.b.ep.rx.arrivals))
  }

  lemma PassingIndex(c: Config, f: nat, s: Sys, offset: nat, l: nat, v: nat)
    requires Passing(c, f, s, offset, l, v)
    ensures c.Valid() && s.b.ep.Ok(c) && ArriveData(s.b.ep.rx, offset, l).Some?
    ensures var rx := ArriveData(s.b.ep.rx, offset, l).value; ShapeOk(rx) && v < |rx.vmap| && rx.vmap[v].Some?
  {
  }

  /** Reap, then hand out and release. */
  lemma TwoMoves(c: Config, f: nat, s0: Sys, s: Sys, d: nat, offset: nat, l: nat, v: nat) returns (s': Sys)
    requires From(c, f, s0, s, d) && Alive(s) && Passing(c, f, s, offset, l, v) && PassingDone(c, f, s, offset, l, v)
    ensures s' == s.(b := Released(c, s.b, offset, l, v)) && From(c, f, s0, s', d + 1)
  {
    hide From, ReapRecv, RepostRecv, ArriveData, RecvSide.Repost, AfterRepost;
    var y := s.b;
    var rx := ArriveData(y.ep.rx, offset, l).value;
    var y1 := y.(ep := NoteLen(c, y.ep, l).(rx := rx), past := y.past.(rdone := y.past.rdone + 1));
    var s1 := s.(b := y1);
    Onward(c, f, s0, s, d, Act(false, Step.RecvDone), s1);
    assert rx.stash[1..] == [];
    var s2 := s.(b := y1.(ep := y1.ep.(rx := rx.(stash := [])), past := y1.past.(taken := y1.past.taken + 1)));
    s' := s.(b := Released(c, y, offset, l, v));
    assert Drains(c, f, s1, s2, s');
    OnwardDrain(c, f, s0, s1, d, s2, s');
  }

  /** The release leaves the receiver in use. */
  ghost predicate PassingDone(c: Config, f: nat, s: Sys, offset: nat, l: nat, v: nat)
    requires Passing(c, f, s, offset, l, v)
  {
    PassingIndex(c, f, s, offset, l, v);
    !Released(c, s.b, offset, l, v).ep.dead
  }

  lemma ReleaseSteps(c: Config, f: nat, s0: Sys, s: Sys, d: nat, n: nat, base: nat, head: nat, pos: nat, msg: seq<u8>)
    returns (s': Sys)
    requires From(c, f, s0, s, d) && c.cap > 0 && Lagging(c, f, s.b, n, base, head) && c.maxOut >= 2 && f <= c.cap
    requires s.b.past.rdone < s.a.exec <= |s.a.ep.tx.log| && s.a.ep.tx.log[s.b.past.rdone] == Entry0(c, pos, msg)
    requires 0 < |msg| <= IMM_MAX && pos % c.cap + |msg| <= c.cap && (n < base + c.maxOut ==> |msg| == 1)
    ensures From(c, f, s0, s', d + 1) && s'.a == s.a && s'.b.past.rdone == s.b.past.rdone + 1
    ensures Lagging(c, f, s'.b, n + 1, base + LapOf(c, n, base), HeadAfter(c, n, base, head, |msg|))
  {
    hide From, EncodeImm, ReapRecv, ReapData, ArriveData, Released, Tracker.Tracks, HandedOut, Sound;
    Shapes(c, f, s0, s, d);
    var y, offset, l := s.b, pos % c.cap, |msg|;
    MessageReaped(c, y.ep, pos, msg);
    PassesThrough(y.ep.rx, c.maxOut, f, offset, l, n);
    ArriveShape(y.ep.rx, offset, l);
    var v := ArriveData(y.ep.rx, offset, l).value.stash[0].bufIdx;
    assert Passing(c, f, s, offset, l, v);
    PassingIndex(c, f, s, offset, l, v);
    hide Lagging, Passing;
    StillLagging(c, f, y, n, base, head, offset, l, v);
    s' := TwoMoves(c, f, s0, s, d, offset, l, v);
  }

  /** The first message is held; the `n - 1` after it came and went. */
  ghost predicate Trailing(c: Config, f: nat, s0: Sys, s: Sys, n: nat, base: nat, head: nat) {
    && base < n && c.cap > 0 && 0 < f
    && IdleAt(c, s.a, head + (n - base) + f - 1, head)
    && From(c, f, s0, s, n - 1) && s.b.past.rdone == |s.a.ep.tx.log|
    && Lagging(c, f, s.b, n, base, head)
  }

  lemma LaggingBounds(c: Config, f: nat, y: Node, n: nat, base: nat, head: nat)
    requires c.cap > 0 && Lagging(c, f, y, n, base, head)
    ensures base < n <= base + c.maxOut && y.ep.published == head % c.cap
  {
  }

  /** One message more, released again; it may be longer than a byte only at the end of the first lap. */
  lemma TrailOne(c: Config, f: nat, s0: Sys, s: Sys, n: nat, base: nat, head: nat, msg: seq<u8>) returns (s': Sys)
    requires Trailing(c, f, s0, s, n, base, head) && Overruns(c, f) && 0 < |msg| <= c.maxMsg
    requires |msg| > 1 ==> head == 0 && n == base + c.maxOut && c.maxOut + f + |msg| + c.threshold <= c.cap
    ensures Trailing(c, f, s0, s', n + 1, base + LapOf(c, n, base), HeadAfter(c, n, base, head, |msg|))
    ensures s.a.ep.tx.log <= s'.a.ep.tx.log
  {
    hide From, Pos, EncodeImm, Lagging, InAir, Sound, Store;
    var h: nat :| h <= head && Idle(c, s.a, head + (n - base) + f - 1, h);
    var pos := head + (n - base) + f - 1;
    LaggingBounds(c, f, s.b, n, base, head);
    Shapes(c, f, s0, s, n - 1);
    if pos < c.cap {
      SmallMod(pos, c.cap);
    }
    var s1 := Delivered(c, f, s0, s, n - 1, pos, h, msg);
    LaggingSame(c, f, s.b, s1.b, n, base, head);
    var s2 := ReleaseSteps(c, f, s0, s1, n - 1, n, base, head, pos, msg);
    var base', head' := base + LapOf(c, n, base), HeadAfter(c, n, base, head, |msg|);
    LaggingBounds(c, f, s2.b, n + 1, base', head');
    var h';
    s', h' := Quiesce(c, f, s0, s.a, s2, n, pos, h, msg, head');
    LaggingSame(c, f, s2.b, s'.b, n + 1, base', head');
  }

  // ---------------------------------------------------------------------
  // The first message, and laps until the head has passed it
  // ---------------------------------------------------------------------

  /** The peer is idle at the start of its ring, and nothing has been received. */
  ghost predicate Fresh(c: Config, s: Sys) {
    && Up(c, s) && s.a == Start(c).a
    && s.b.ep.rx == FreshRx(c.maxOut, s.b.ep.rx.mem) && s.b.past == Past(0, 0, {}, 0)
    && s.b.ep.head == Head(seq(c.maxOut, _ => 0), 0, 0) && s.b.ep.published == 0
  }

  function Zeros(f: nat): seq<u8> { seq(f, _ => 0) }

  /** The first message has been sent, carried out and reaped. */
  ghost predicate Arrived(c: Config, f: nat, s0: Sys, s: Sys)
    requires c.Valid()
  {
    && s0.a == Start(c).a && InAir(c, s0.a, s.a, 0, 0, Zeros(f)) && s.a.exec == 1
    && s.b.past == Past(1, 0, {}, 0) && |s.b.ep.rx.mem| == c.cap && f <= c.cap && s.b.ep.rx.mem[..f] == Zeros(f)
    && s.b.ep.rx == FreshRx(c.maxOut, s.b.ep.rx.mem).(
                      vmap := seq(c.maxOut, _ => None)[0 := Some(Entry(0, f, 0))],
                      nextVirt := 1, arrivals := 1, stash := [RecvDone.RecvDone(0, f)])
    && s.b.ep.head == Head(seq(c.maxOut, _ => 0)[0 := f], 0, 0) && s.b.ep.published == 0
    && |s.a.ep.tx.log| > 0 && s.a.ep.tx.log[0].Data? && s.a.ep.tx.log[0].msg == Zeros(f)
  }

  lemma FirstArrives(c: Config, f: nat, s0: Sys) returns (s: Sys)
    requires Fresh(c, s0) && Overruns(c, f)
    ensures c.Valid() && From(c, f, s0, s, 0) && Arrived(c, f, s0, s)
  {
    hide From, Sound, Pos, EncodeImm, ReapRecv;
    SoundOk(c, s0.b);
    FromHere(c, f, s0);
    IdleStart(c);
    SmallMod(0, c.cap);
    SmallMod(0, c.maxOut);
    SmallMod(1, c.maxOut);
    var s1 := Delivered(c, f, s0, s0, 0, 0, 0, Zeros(f));
    Shapes(c, f, s0, s1, 0);
    MessageReaped(c, s1.b.ep, 0, Zeros(f));
    FirstMapped(c.maxOut, s1.b.ep.rx.mem, f);
    hide ArriveData;
    s := s1.(b := s1.b.(ep := ReapRecv(c, s1.b.ep, Arrives(s1.a.ep.tx.log[0])), past := Past(1, 0, {}, 0)));
    Onward(c, f, s0, s1, 0, Act(false, Step.RecvDone), s);
    assert [] + [RecvDone.RecvDone(0, f)] == [RecvDone.RecvDone(0, f)];
  }

  lemma FirstMapped(k: nat, mem: seq<u8>, f: nat)
    requires 2 <= k
    ensures ShapeOk(FreshRx(k, mem))
    ensures ArriveData(FreshRx(k, mem), 0, f) == Some(FreshRx(k, mem).(
              vmap := seq(k, _ => None)[0 := Some(Entry(0, f, 0))], nextVirt := 1, arrivals := 1, stash := [RecvDone.RecvDone(0, f)]))
  {
    SmallMod(1, k);
    assert [] + [RecvDone.RecvDone(0, f)] == [RecvDone.RecvDone(0, f)];
  }

  /** The first message handed out and held. */
  ghost function Taken(s: Sys): Sys
    requires s.b.ep.rx.stash != []
  {
    s.(b := s.b.(ep := s.b.ep.(rx := s.b.ep.rx.(stash := s.b.ep.rx.stash[1..])), past := s.b.past.(taken := s.b.past.taken + 1)))
  }

  lemma TakenStep(c: Config, f: nat, s0: Sys, s: Sys)
    requires From(c, f, s0, s, 0) && s.b.ep.rx.stash != []
    ensures SysNext(c, s, Act(false, Take(1)), Taken(s)) && Up(c, Taken(s)) && From(c, f, Taken(s), Taken(s), 0)
  {
    hide From, Sound;
    Shapes(c, f, s0, s, 0);
    SoundStep(c, s, Act(false, Take(1)), Taken(s));
    FromHere(c, f, Taken(s));
  }

  lemma FirstHeldOn(c: Config, f: nat, s0: Sys, s1: Sys) returns (s: Sys)
    requires Overruns(c, f) && c.Valid() && From(c, f, s0, s1, 0) && Arrived(c, f, s0, s1)
    ensures s1.b.ep.rx.stash != [] && Trailing(c, f, Taken(s1), s, 1, 0, 0) && s1.a.ep.tx.log <= s.a.ep.tx.log
  {
    hide From, Sound, Pos, EncodeImm, InAir;
    TakenStep(c, f, s0, s1);
    var s2 := Taken(s1);
    IdleStart(c);
    SmallMod(0, c.cap);
    FirstLagging(c, f, s2.b);
    hide Lagging;
    var h;
    s, h := Quiesce(c, f, s2, s0.a, s2, 0, 0, 0, Zeros(f), 0);
    LaggingSame(c, f, s2.b, s.b, 1, 0, 0);
  }

  lemma FirstLagging(c: Config, f: nat, y: Node)
    requires c.Valid() && c.maxOut >= 2
    requires y.ep.rx.arrivals == 1 && y.ep.rx.stash == []
    requires y.ep.rx.vmap == seq(c.maxOut, _ => None)[0 := Some(Entry(0, f, 0))]
    requires y.ep.rx.tracker == Tracker(seq(c.maxOut, _ => false), 0)
    requires y.ep.head == Head(seq(c.maxOut, _ => 0)[0 := f], 0, 0) && y.ep.published == 0
    ensures Lagging(c, f, y, 1, 0, 0)
  {
    SmallMod(0, c.maxOut);
    SmallMod(0, c.cap);
    assert AllBut(0, 1) == {};
    assert y.ep.rx.tracker.Tracks(0, {});
  }

  /** A head this far on lets the sender come round to the last byte of the first message. */
  function Goal(c: Config, f: nat): nat { f + 1 + c.threshold }

  /** One longer message at the end of the first lap is enough to get there. */
  predicate OneLap(c: Config, f: nat) {
    f + 2 + c.threshold <= c.maxOut + c.maxMsg && 2 * (f + 1 + c.threshold) <= c.cap
  }

  /** The length of the message that ends a lap. */
  function LapLength(c: Config, f: nat, head: nat): (l: nat)
    requires Overruns(c, f)
    ensures 0 < l <= c.maxMsg
    ensures l > 1 ==> head == 0 && c.maxOut + f + l + c.threshold <= c.cap
    ensures OneLap(c, f) && head == 0 ==> Goal(c, f) <= c.maxOut - 1 + l
    ensures head < Goal(c, f) ==> head + c.maxOut - 1 + l < c.cap
  {
    if OneLap(c, f) && head == 0 then Max(1, SatSub(f + 2 + c.threshold, c.maxOut)) else 1
  }

  /** The head has passed the first message far enough. */
  lemma {:induction false} Laps(c: Config, f: nat, s0: Sys, s: Sys, n: nat, base: nat, head: nat)
    returns (s': Sys, n': nat, base': nat, head': nat)
    requires Trailing(c, f, s0, s, n, base, head) && Overruns(c, f) && head < Goal(c, f) && base < n <= base + c.maxOut
    requires head == 0 ==> base == 0
    ensures Trailing(c, f, s0, s', n', base', head') && Goal(c, f) <= head' < c.cap && n' == base' + 1
    ensures OneLap(c, f) && head == 0 ==> n' == c.maxOut + 1
    ensures s.a.ep.tx.log <= s'.a.ep.tx.log
    decreases Goal(c, f) - head, base + c.maxOut - n
  {
    hide Trailing;
    var l := if n == base + c.maxOut then LapLength(c, f, head) else 1;
    var msg := seq(l, _ => 1);
    s' := TrailOne(c, f, s0, s, n, base, head, msg);
    n', base', head' := n + 1, base + LapOf(c, n, base), HeadAfter(c, n, base, head, l);
    if head' < Goal(c, f) {
      var s1 := s';
      s', n', base', head' := Laps(c, f, s0, s1, n', base', head');
    }
  }

  // ---------------------------------------------------------------------
  // Coming round
  // ---------------------------------------------------------------------

  /** The receiver stands still while its peer sends; only the bytes of its ring change. */
  ghost predicate Flooded(c: Config, f: nat, s0: Sys, t: Sys, s: Sys, d: nat, pos: nat, head: nat) {
    && IdleAt(c, s.a, pos, head)
    && From(c, f, s0, s, d) && c.cap > 0 && s.b.ep.published == head % c.cap
    && s.b == t.b.(ep := t.b.ep.(rx := t.b.ep.rx.(mem := s.b.ep.rx.mem)))
    && t.a.ep.tx.log <= s.a.ep.tx.log
  }

  lemma FloodOne(c: Config, f: nat, s0: Sys, t: Sys, s: Sys, d: nat, pos: nat, head: nat) returns (s': Sys)
    requires Flooded(c, f, s0, t, s, d, pos, head) && Overruns(c, f)
    requires head <= pos + 1 && pos + 3 + c.threshold <= head + c.cap
    ensures Flooded(c, f, s0, t, s', d, pos + 1, head)
  {
    hide From, Pos, EncodeImm, InAir, Sound, Store;
    var h: nat :| h <= head && Idle(c, s.a, pos, h);
    var s1 := Delivered(c, f, s0, s, d, pos, h, [1]);
    var h';
    s', h' := Settle(c, f, s0, s.a, s1, d, pos, h, [1], head);
  }

  lemma {:induction false} FloodTo(c: Config, f: nat, s0: Sys, t: Sys, s: Sys, d: nat, pos: nat, head: nat, end: nat)
    returns (s': Sys)
    requires Flooded(c, f, s0, t, s, d, pos, head) && Overruns(c, f)
    requires head <= pos <= end && end + 2 + c.threshold <= head + c.cap
    ensures Flooded(c, f, s0, t, s', d, end, head)
    decreases end - pos
  {
    hide Flooded;
    s' := s;
    if pos < end {
      var s1 := FloodOne(c, f, s0, t, s, d, pos, head);
      s' := FloodTo(c, f, s0, t, s1, d, pos + 1, head, end);
    }
  }

  /** The last byte of the held message is a one, although it was sent as a zero. */
  ghost predicate Overwritten(c: Config, f: nat, s: Sys) {
    && 0 < f <= |s.b.ep.rx.mem| && s.b.ep.rx.mem[f - 1] == 1 && StreamSpec.Readable(s.b.ep.rx, 0, f)
    && |s.b.ep.rx.vmap| > 0 && s.b.ep.rx.vmap[0] == Some(Entry(0, f, 0)) && s.b.ep.rx.stash == []
  }

  lemma ComesRound(c: Config, f: nat, s0: Sys, t: Sys, n: nat, base: nat, head: nat) returns (s: Sys)
    requires Trailing(c, f, s0, t, n, base, head) && Overruns(c, f) && n == base + 1 && Goal(c, f) <= head < c.cap
    ensures From(c, f, s0, s, n - 1) && Overwritten(c, f, s)
    ensures t.a.ep.tx.log <= s.a.ep.tx.log && s.b.past == t.b.past
  {
    hide From, Pos, EncodeImm, InAir, Sound, Store, Tracker.Tracks, Ones;
    Shapes(c, f, s0, t, n - 1);
    assert t.b == t.b.(ep := t.b.ep.(rx := t.b.ep.rx.(mem := t.b.ep.rx.mem)));
    var s1 := FloodTo(c, f, s0, t, t, n - 1, head + f, head, c.cap + f - 1);
    var h: nat :| h <= head && Idle(c, s1.a, c.cap + f - 1, h);
    AddMod(c.cap, f - 1, c.cap);
    SmallMod(f - 1, c.cap);
    s := Delivered(c, f, s0, s1, n - 1, c.cap + f - 1, h, [1]);
    StoreOne(s1.b.ep.rx.mem, f - 1);
  }

  lemma StoreOne(mem: seq<u8>, i: nat)
    requires i < |mem|
    ensures |Store(mem, i, [1])| == |mem| && Store(mem, i, [1])[i] == 1
  {
  }

  /** From the first message held to its last byte overwritten. */
  lemma Overrun(c: Config, f: nat, s0: Sys, s1: Sys) returns (s: Sys, d: nat)
    requires Overruns(c, f) && c.Valid() && From(c, f, s0, s1, 0) && Arrived(c, f, s0, s1)
    ensures s1.b.ep.rx.stash != [] && From(c, f, Taken(s1), s, d) && Overwritten(c, f, s)
    ensures s1.a.ep.tx.log <= s.a.ep.tx.log && 0 < s.b.past.rdone <= |s.a.ep.tx.log|
    ensures OneLap(c, f) ==> d <= c.maxOut
  {
    hide From, Overwritten, Arrived, Overruns;
    var t := FirstHeldOn(c, f, s0, s1);
    var t', n, base, head := Laps(c, f, Taken(s1), t, 1, 0, 0);
    d := n - 1;
    s := ComesRound(c, f, Taken(s1), t', n, base, head);
  }

  /**
    * A held message overwritten while both ends are alive: its receiver keeps the
    * first message and releases every later one, until the ring has come round.
    */
  lemma OverwritingRun(c: Config) returns (s: Sys)
    requires c.Valid() && !WindowFits(c)
    ensures Reached(c, s) && !s.a.ep.dead && !s.b.ep.dead
    ensures s.b.past.rdone <= |s.a.ep.tx.log| && !AllReadBack(s.a.ep.tx.log, s.b.past.rdone, s.b.ep.rx)
  {
    StartUp(c);
    hide Reached, From, Sound, AllReadBack, Path, InAir, EncodeImm;
    var s0 := Start(c);
    var s1 := FirstArrives(c, 1, s0);
    ReachedStart(c);
    ReachedFrom(c, 1, s0, s1, 0);
    TakenStep(c, 1, s0, s1);
    ReachedStep(c, s1, Act(false, Take(1)), Taken(s1));
    var d;
    s, d := Overrun(c, 1, s0, s1);
    ReachedFrom(c, 1, Taken(s1), s, d);
    Shapes(c, 1, Taken(s1), s, d);
    Clobbered(s.a.ep.tx.log, s.b.past.rdone, s.b.ep.rx);
  }

  lemma Clobbered(log: seq<Wr>, rdone: nat, rx: Rx)
    requires 0 < rdone <= |log| && log[0].Data? && log[0].msg == Zeros(1)
    requires |rx.vmap| > 0 && rx.vmap[0] == Some(Entry(0, 1, 0)) && |rx.mem| > 0 && rx.mem[0] == 1
    ensures !AllReadBack(log, rdone, rx)
  {
    assert Holds(log, rdone, rx, 0, 0);
    assert RecvBuf(rx, 0)[0] == 1;
  }

  // ---------------------------------------------------------------------
  // The exact condition
  // ---------------------------------------------------------------------

  ghost predicate HeldIntact(c: Config, s: Sys) {
    s.b.past.rdone <= |s.a.ep.tx.log| && AllReadBack(s.a.ep.tx.log, s.b.past.rdone, s.b.ep.rx)
  }

  /**
    * In every run, whatever is reaped and whenever: held messages are never
    * overwritten if and only if the window fits the ring, and the same condition
    * decides whether a receiver ever gives up and whether both directions stay
    * dependable.
    */
  lemma SafeIffWindowFits(c: Config)
    requires c.Valid()
    ensures WindowFits(c) <==> forall s :: Reached(c, s) ==> HeldIntact(c, s)
    ensures WindowFits(c) <==> forall s :: Reached(c, s) ==> !s.b.ep.dead
    ensures WindowFits(c) <==> forall s :: Reached(c, s) ==> Dependable(c, s.a, s.b) && Dependable(c, s.b, s.a)
  {
    if WindowFits(c) {
      forall s | Reached(c, s)
        ensures Dependable(c, s.a, s.b) && Dependable(c, s.b, s.a)
      {
        hide Dependable, SysNext, Start, WindowFits;
        var states, acts :| AnyRun(c, states, acts) && states[|states| - 1] == s;
        AlwaysWindowed(c, states, acts);
        ReadRingSafe(c, states, acts, |states| - 1);
      }
    } else {
      hide Reached, AllReadBack;
      var s := OverwritingRun(c);
      assert !HeldIntact(c, s) && !Dependable(c, s.a, s.b);
      var t := ExhaustingRun(c);
    }
  }
}
