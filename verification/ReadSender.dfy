/**
  * What a read-ring endpoint keeps by itself, whatever its peer does and however
  * much it reaps: the shape of its state, the accounting of its staging ring, and
  * the bound on its send queue.
  */
module ReadSender {
  import opened RingBuffers
  import opened TransportCommon
  import opened WorkLog
  import opened SendSide
  import opened CompletionTrackers
  import opened RecvSide
  import opened ReadRing
  import opened ReadProtocol

  ghost predicate Sound(c: Config, x: Node) {
    && c.Valid() && x.ep.Ok(c)
    && TxInv(c.cap, c.Bound(), x.ep.tx, x.sdone)
    && QueueBound(c, x)
    && x.ep.cachedHead < c.cap && x.ep.readBuf < c.cap && x.ep.published < c.cap && x.ep.head.offset < c.cap
  }

  /** The sending side, and all that the receiving side shows the peer, are as before. */
  ghost predicate SameSending(x: Node, x': Node) {
    && x'.ep.tx == x.ep.tx && x'.exec == x.exec && x'.sdone == x.sdone
    && x'.ep.inFlight == x.ep.inFlight && x'.ep.readInFlight == x.ep.readInFlight
    && x'.ep.cachedHead == x.ep.cachedHead && x'.ep.readBuf == x.ep.readBuf
    && x'.seen == x.seen && x'.landed == x.landed
  }

  lemma SoundSame(c: Config, x: Node, x': Node)
    requires Sound(c, x) && SameSending(x, x') && x'.ep.Ok(c)
    requires x'.ep.published < c.cap && x'.ep.head.offset < c.cap
    ensures Sound(c, x')
  {
    hide TxInv, Rank;
  }

  // ---------------------------------------------------------------------
  // Sending
  // ---------------------------------------------------------------------

  lemma SoundRead(c: Config, x: Node)
    requires Sound(c, x)
    ensures Sound(c, x.(ep := PostRead(x.ep)))
  {
    if !x.ep.readInFlight {
      var log := x.ep.tx.log;
      RankAppend(Item, log, [HeadRead], x.sdone);
      RankAppend(Item, log, [HeadRead], |log|);
      hide TxInv;
      AppendKeeps(c.cap, c.Bound(), x.ep.tx, x.sdone, HeadRead);
    }
  }

  lemma SoundPosted(c: Config, x: Node, msg: seq<u8>, g: Grant)
    requires Sound(c, x) && Admits(c, x, |msg|, g) && |msg| <= c.maxMsg && |msg| <= IMM_MAX
    ensures g.offset + |msg| <= c.cap && Sound(c, Posted(c, x, g, msg))
  {
    hide WellPlaced, Staged, Freed, Pos;
    GrantPlaced(c.cap, x.ep.tx, x.sdone, |msg|);
    hide TxInv, Rank, Ring.Reserve;
    PostKeeps(c.cap, c.Bound(), x.ep.tx, x.sdone, msg);
    PostedQueue(c, x, g, msg);
    PostedShape(c, x, msg, g);
  }

  lemma PostedShape(c: Config, x: Node, msg: seq<u8>, g: Grant)
    requires c.Valid() && x.ep.Ok(c) && g.offset + |msg| <= c.cap && g.ring.Valid() && g.ring.capacity == c.cap
    ensures Posted(c, x, g, msg).ep.Ok(c)
  {
  }

  lemma SoundMessage(c: Config, x: Node, msg: seq<u8>, g: Grant)
    requires Sound(c, x) && Admits(c, x, |msg|, g) && |msg| <= c.maxMsg && |msg| <= IMM_MAX && g.offset + |msg| <= c.cap
    ensures Sound(c, x.(ep := PostMessage(c, x.ep, g, msg)))
  {
    SoundPosted(c, x, msg, g);
    MessageIs(c, x, g, msg);
    hide Sound, PostMessage, Posted;
    SoundRead(c, Posted(c, x, g, msg));
  }

  lemma SoundSend(c: Config, x: Node, data: seq<u8>)
    requires Sound(c, x)
    ensures Sound(c, x.(ep := SendGather(c, x.ep, data).0))
  {
    if |data| > 0 && !x.ep.dead {
      SendIs(c, x, data);
      SoundRead(c, x);
      var len := c.SendLen(|data|);
      hide Sound, SendGather, PostMessage, PostRead, Admits;
      forall g | Admits(c, x, len, g) && g.offset + len <= c.cap
        ensures Sound(c, x.(ep := PostMessage(c, x.ep, g, data[..len])))
      {
        SoundMessage(c, x, data[..len], g);
      }
    }
  }

  // ---------------------------------------------------------------------
  // Completions of the endpoint's own requests
  // ---------------------------------------------------------------------

  /** What reaping a completion does, by the id alone. */
  lemma ReapedIs(c: Config, x: Node)
    requires Sound(c, x) && x.sdone < x.exec
    ensures var w := x.ep.tx.log[x.sdone];
            && (w.HeadRead? ==> x.ep.readInFlight) && (!w.HeadRead? ==> x.ep.inFlight > 0)
            && SentReaped(c, x).ep ==
               if w.HeadRead? then x.ep.(cachedHead := x.ep.readBuf, readInFlight := false)
               else x.ep.(tx := Complete(x.ep.tx, x.sdone), inFlight := x.ep.inFlight - 1)
  {
    hide Staged, Accounts;
    assert Placed(c.cap, c.Bound(), x.ep.tx.log, x.sdone);
    assert !x.ep.tx.log[x.sdone].Credit?;
    RankMono(Item, x.ep.tx.log, x.sdone + 1, |x.ep.tx.log|);
    RankGap(x.ep.tx.log, x.sdone + 1, |x.ep.tx.log|);
  }

  lemma SoundDone(c: Config, x: Node)
    requires Sound(c, x) && x.sdone < x.exec
    ensures Sound(c, SentReaped(c, x))
  {
    ReapedIs(c, x);
    hide TxInv, Ring.Release;
    CompleteKeeps(c.cap, c.Bound(), x.ep.tx, x.sdone);
    CompleteShape(c, x);
    assert Rank(Item, x.ep.tx.log, x.sdone + 1)
        == Rank(Item, x.ep.tx.log, x.sdone) + if Is(Item, x.ep.tx.log[x.sdone]) then 1 else 0;
  }

  lemma CompleteShape(c: Config, x: Node)
    requires x.ep.Ok(c) && x.sdone < |x.ep.tx.log|
    ensures x.ep.(tx := Complete(x.ep.tx, x.sdone)).Ok(c)
  {
  }

  // ---------------------------------------------------------------------
  // Receiving
  // ---------------------------------------------------------------------

  lemma {:induction false} AdvanceInside(h: Head, cap: nat, n: nat)
    requires cap > 0 && h.Valid() && h.offset < cap
    ensures h.Advance(cap, n).offset < cap
    decreases n
  {
    if n > 0 {
      AdvanceInside(Head(h.lens, (h.slot + 1) % |h.lens|, (h.offset + h.lens[h.slot]) % cap), cap, n - 1);
    }
  }

  lemma AdvancedSame(c: Config, x: Node, ep: Ep, n: nat)
    requires Sound(c, x) && SameSending(x, x.(ep := ep)) && ep.Ok(c)
    requires ep.published < c.cap && ep.head.offset < c.cap
    ensures var x' := x.(ep := AdvanceHead(c, ep, n)); Sound(c, x') && SameSending(x, x')
  {
    hide TxInv, QueueBound, Head.Advance;
    AdvanceInside(ep.head, c.cap, n);
    SoundSame(c, x, x.(ep := AdvanceHead(c, ep, n)));
  }

  lemma SoundReap(c: Config, x: Node, wc: Wc)
    requires Sound(c, x)
    ensures var x' := x.(ep := ReapRecv(c, x.ep, wc)); Sound(c, x') && SameSending(x, x')
  {
    var x' := x.(ep := ReapRecv(c, x.ep, wc));
    hide TxInv, QueueBound, Head.Advance, AdvanceHead, Tracker.Release, ArriveData, DecodeImm;
    if wc.WriteImm? {
      var (offset, length) := DecodeImm(wc.imm);
      if offset < c.cap && length == 0 {
        var (rx, n) := ArrivePad(x.ep.rx);
        AdvancedSame(c, x, NoteLen(c, x.ep, c.cap - offset).(rx := rx), n);
      } else {
        ArriveShape(x.ep.rx, offset, length);
        SoundSame(c, x, x');
      }
    } else {
      SoundSame(c, x, x');
    }
  }

  lemma SoundRepost(c: Config, x: Node, idx: nat)
    requires Sound(c, x) && idx < |x.ep.rx.vmap| && x.ep.rx.vmap[idx].Some?
    ensures var x' := x.(ep := RepostRecv(c, x.ep, idx)); Sound(c, x') && SameSending(x, x')
  {
    hide TxInv, QueueBound, AdvanceHead, Tracker.Release;
    var (rx, n) := RecvSide.Repost(x.ep.rx, idx);
    AdvancedSame(c, x, x.ep.(rx := rx), n);
  }

  // ---------------------------------------------------------------------
  // Every step
  // ---------------------------------------------------------------------

  lemma SoundCarried(c: Config, x: Node, y: Node, x': Node, y': Node)
    requires Sound(c, x) && Sound(c, y) && x.exec < |x.ep.tx.log| && Carried(c, x, y, x', y')
    ensures Sound(c, x') && Sound(c, y') && SameSending(y, y') && x'.ep.tx == x.ep.tx
    ensures x'.sdone == x.sdone && x'.exec == x.exec + 1 && x'.past == x.past && y'.past == y.past
    ensures x'.ep.inFlight == x.ep.inFlight && x'.ep.readInFlight == x.ep.readInFlight
  {
    hide TxInv, Rank, Store, HeadPos;
  }

  lemma SoundNext(c: Config, x: Node, y: Node, s: Step, x': Node, y': Node)
    requires Sound(c, x) && Sound(c, y) && Next(c, x, y, s, x', y')
    ensures Sound(c, x') && Sound(c, y')
  {
    hide SendGather, ReapRecv, PastReap, RepostRecv, AfterRepost, SentReaped, Carried;
    match s {
      case Send(data) => SoundSend(c, x, data);
      case Execute => SoundCarried(c, x, y, x', y');
      case SendDone => SoundDone(c, x);
      case RecvDone =>
        SoundReap(c, x, Arrives(y.ep.tx.log[x.past.rdone]));
        SoundPast(c, x.(ep := x'.ep), x'.past);
      case Repost(idx) =>
        SoundRepost(c, x, idx);
        SoundPast(c, x.(ep := x'.ep), x'.past);
      case Take(n) =>
        SoundSame(c, x, x');
    }
  }

  /** The history of what was received says nothing about sending. */
  lemma SoundPast(c: Config, x: Node, past: Past)
    requires Sound(c, x)
    ensures Sound(c, x.(past := past))
  {
    hide TxInv, Rank;
  }

  lemma SoundStart(c: Config)
    requires c.Valid()
    ensures Sound(c, Start(c).a) && Sound(c, Start(c).b)
  {
  }

  lemma SoundStep(c: Config, s: Sys, act: Act, s': Sys)
    requires Sound(c, s.a) && Sound(c, s.b) && SysNext(c, s, act, s')
    ensures Sound(c, s'.a) && Sound(c, s'.b)
  {
    hide Sound, Next;
    if act.byA {
      SoundNext(c, s.a, s.b, act.step, s'.a, s'.b);
    } else {
      SoundNext(c, s.b, s.a, act.step, s'.b, s'.a);
    }
  }

  /** The send queue never holds more than the message budget and one Read. */
  lemma QueueWithinBudget(c: Config, x: Node)
    requires Sound(c, x)
    ensures x.sdone <= x.exec <= |x.ep.tx.log|
    ensures x.ep.SqUsed() == |x.ep.tx.log| - x.sdone <= c.maxOut + 1
  {
  }

  // ---------------------------------------------------------------------
  // What a step counts
  // ---------------------------------------------------------------------

  lemma SendExtends(c: Config, x: Node, data: seq<u8>)
    requires Sound(c, x)
    ensures var ep := SendGather(c, x.ep, data).0; x.ep.tx.log <= ep.tx.log && ep.rx == x.ep.rx
  {
    if |data| > 0 && !x.ep.dead {
      SendIs(c, x, data);
      var len := c.SendLen(|data|);
      hide Sound, SendGather, EncodeImm, Store;
      forall g | Admits(c, x, len, g) && g.offset + len <= c.cap
        ensures var ep := PostMessage(c, x.ep, g, data[..len]); x.ep.tx.log <= ep.tx.log && ep.rx == x.ep.rx
      {
      }
    }
  }

  lemma ReapArrivals(c: Config, ep: Ep, wc: Wc)
    requires ep.Ok(c)
    ensures var ep' := ReapRecv(c, ep, wc);
            && ep'.tx == ep.tx && ep.rx.arrivals <= ep'.rx.arrivals <= ep.rx.arrivals + 1
            && (wc.Unexpected? ==> ep'.rx.arrivals == ep.rx.arrivals)
  {
    hide DecodeImm, Head.Advance, Tracker.Release, FindFree;
  }

  /** How the counts of both ends move in a step of `x`. */
  ghost predicate Counts(x: Node, y: Node, s: Step, x': Node, y': Node) {
    && x.ep.tx.log <= x'.ep.tx.log && (!s.Send? ==> x'.ep.tx.log == x.ep.tx.log)
    && x'.sdone == x.sdone + (if s.SendDone? then 1 else 0)
    && x'.past.rdone == x.past.rdone + (if s.RecvDone? then 1 else 0)
    && (if s.RecvDone? then
          && x.past.rdone < |y.ep.tx.log| && x.ep.rx.arrivals <= x'.ep.rx.arrivals
          && x'.ep.rx.arrivals <= x.ep.rx.arrivals + if Is(Item, y.ep.tx.log[x.past.rdone]) then 1 else 0
        else x'.ep.rx.arrivals == x.ep.rx.arrivals)
    && y'.ep.tx.log == y.ep.tx.log && y'.sdone == y.sdone && y'.past == y.past
    && y'.ep.rx.arrivals == y.ep.rx.arrivals
  }

  lemma StepCounts(c: Config, x: Node, y: Node, s: Step, x': Node, y': Node)
    requires Sound(c, x) && Sound(c, y) && Next(c, x, y, s, x', y')
    ensures Counts(x, y, s, x', y')
  {
    assert x.ep.Ok(c);
    hide Sound, SendGather, ReapRecv;
    match s {
      case Send(data) => SendExtends(c, x, data);
      case Execute =>
      case SendDone =>
      case RecvDone =>
        ReapArrivals(c, x.ep, Arrives(y.ep.tx.log[x.past.rdone]));
      case Repost(idx) =>
      case Take(n) =>
    }
  }

  // ---------------------------------------------------------------------
  // Runs without regard to the window
  // ---------------------------------------------------------------------

  /** A run in which completions are reaped whenever they are there. */
  ghost predicate AnyRun(c: Config, states: seq<Sys>, acts: seq<Act>)
    requires c.cap > 0
  {
    && |states| == |acts| + 1
    && states[0] == Start(c)
    && forall i :: 0 <= i < |acts| ==> SysNext(c, states[i], acts[i], states[i + 1])
  }

  ghost predicate Reached(c: Config, s: Sys)
    requires c.cap > 0
  {
    exists states, acts :: AnyRun(c, states, acts) && states[|states| - 1] == s
  }

  lemma {:induction false} AnyRunSound(c: Config, states: seq<Sys>, acts: seq<Act>, i: nat)
    requires c.Valid() && AnyRun(c, states, acts) && i < |states|
    ensures Sound(c, states[i].a) && Sound(c, states[i].b)
  {
    hide Sound, SysNext;
    if i == 0 {
      SoundStart(c);
    } else {
      AnyRunSound(c, states, acts, i - 1);
      SoundStep(c, states[i - 1], acts[i - 1], states[i]);
    }
  }

  lemma ReachedSound(c: Config, s: Sys)
    requires c.Valid() && Reached(c, s)
    ensures Sound(c, s.a) && Sound(c, s.b)
  {
    hide Sound, SysNext, Start;
    var states, acts :| AnyRun(c, states, acts) && states[|states| - 1] == s;
    AnyRunSound(c, states, acts, |states| - 1);
  }

  lemma ReachedStart(c: Config)
    requires c.Valid()
    ensures Reached(c, Start(c))
  {
    hide Start;
    assert AnyRun(c, [Start(c)], []);
  }

  lemma ReachedStep(c: Config, s: Sys, act: Act, s': Sys)
    requires c.Valid() && Reached(c, s) && SysNext(c, s, act, s')
    ensures Reached(c, s')
  {
    hide SysNext, Start;
    var states, acts :| AnyRun(c, states, acts) && states[|states| - 1] == s;
    var states', acts' := states + [s'], acts + [act];
    forall i | 0 <= i < |acts'|
      ensures SysNext(c, states'[i], acts'[i], states'[i + 1])
    {
      if i < |acts| {
        assert SysNext(c, states[i], acts[i], states[i + 1]);
      }
    }
    assert AnyRun(c, states', acts');
  }
}
