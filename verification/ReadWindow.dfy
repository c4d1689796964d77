/**
  * The receiver's window of the read ring. Bytes are flow-controlled, the number
  * of messages is not: arrival numbers share `maxOut` tracker slots, and nothing
  * stops a receiver from reaping a message whose slot still stands for an older,
  * unreleased one. With a window that fits the ring this never happens.
  */
module ReadWindow {
  import opened RingBuffers
  import opened TransportCommon
  import opened WorkLog
  import opened SendSide
  import opened RecvSide
  import opened CompletionTrackers
  import opened ReadRing
  import opened ReadProtocol
  import opened ReadSender

  /** Nothing can be sent, or one-byte messages run out of ring before the window is full. */
  predicate WindowFits(c: Config) {
    c.maxOut < SEND_COPY_MAX_WRS || c.maxMsg == 0 || c.cap <= c.maxOut + 1 + c.threshold
  }

  // ---------------------------------------------------------------------
  // A window that fits is never exceeded
  // ---------------------------------------------------------------------

  /** What a sender leaves free: `threshold` bytes beyond everything it has posted. */
  ghost predicate Roomy(c: Config, x: Node)
    requires c.cap > 0
  {
    || Rank(Item, x.ep.tx.log, |x.ep.tx.log|) == 0
    || (&& SEND_COPY_MAX_WRS <= c.maxOut && 0 < c.maxMsg
        && Pos(c.cap, x.ep.tx.log, |x.ep.tx.log|) + c.threshold < x.seen + c.cap)
  }

  lemma {:induction false} ItemsAndBytes(cap: nat, bound: nat, log: seq<Wr>, j: nat, i: nat)
    requires cap > 0 && WellPlaced(cap, bound, log) && j <= i <= |log|
    ensures Rank(Item, log, i) - Rank(Item, log, j) <= Pos(cap, log, i) - Pos(cap, log, j)
  {
    if j < i {
      ItemsAndBytes(cap, bound, log, j, i - 1);
      assert Placed(cap, bound, log, i - 1);
    }
  }

  /** Every message occupies a byte at least. */
  lemma ItemsWithinBytes(cap: nat, bound: nat, log: seq<Wr>, n: nat, i: nat)
    requires cap > 0 && WellPlaced(cap, bound, log) && i <= |log| && n <= Rank(Item, log, i)
    ensures HeadPos(cap, log, n) + (Rank(Item, log, i) - n) <= Pos(cap, log, i)
  {
    hide WellPlaced, HeadPos;
    var j := RankReach(Item, log, i, n);
    HeadPosAt(cap, log, j);
    ItemsAndBytes(cap, bound, log, j, i);
  }

  /** The next message to reap finds the window open. */
  lemma RoomyOpens(c: Config, x: Node, y: Node)
    requires Inv(c, x, y) && WindowFits(c) && Roomy(c, y)
    requires x.past.rdone < y.exec && Is(Item, y.ep.tx.log[x.past.rdone])
    ensures WindowOpen(c, x)
  {
    var log, i := y.ep.tx.log, x.past.rdone + 1;
    FreedReach(c, y, x);
    RankMono(Item, log, i, |log|);
    PosMono(c.cap, log, i, |log|);
    assert Rank(Item, log, i) == Rank(Item, log, i - 1) + 1;
    ItemsWithinBytes(c.cap, c.Bound(), log, x.past.freed, i);
    hide TxInv, Mapped, Queued, Intact, Tracked, Lengths, HeadTrue, HeadPos, Pos, Rank;
  }

  /** The free space a sender computes, by absolute positions. */
  lemma FreeAt(c: Config, x: Node, y: Node)
    requires Inv(c, x, y)
    ensures x.ep.Ok(c) && Accounts(c.cap, x.ep.tx, x.sdone)
    ensures Pos(c.cap, x.ep.tx.log, |x.ep.tx.log|) + x.ep.RemoteFree(c.cap) + 1 == x.seen + c.cap
  {
    FreedReach(c, x, y);
    hide RxInv, Staged, WellPlaced, Lengths, HeadTrue, HeadPos, Pos, Rank;
    FreeIs(c, x, y.past.freed);
  }

  lemma RoomyPosted(c: Config, x: Node, y: Node, data: seq<u8>, g: Grant)
    requires Inv(c, x, y) && Admits(c, x, c.SendLen(|data|), g) && g.offset + c.SendLen(|data|) <= c.cap
    ensures Roomy(c, x.(ep := PostMessage(c, x.ep, g, data[..c.SendLen(|data|)])))
  {
    hide Inv, Pos, Rank, Ring.Reserve, EncodeImm, Store;
    var msg := data[..c.SendLen(|data|)];
    FreeAt(c, x, y);
    GrantPlaced(c.cap, x.ep.tx, x.sdone, |msg|);
    PostedPositions(c.cap, x.ep.tx, g, msg);
    var x1 := Posted(c, x, g, msg);
    assert Roomy(c, x1);
    RoomyRead(c, x1);
    MessageIs(c, x, g, msg);
  }

  lemma RoomyRead(c: Config, x: Node)
    requires c.cap > 0 && Roomy(c, x)
    ensures Roomy(c, x.(ep := PostRead(x.ep)))
  {
    var log := x.ep.tx.log;
    PosAppend(c.cap, log, [HeadRead], |log|);
    RankAppend(Item, log, [HeadRead], |log|);
  }

  lemma RoomySend(c: Config, x: Node, y: Node, data: seq<u8>)
    requires Inv(c, x, y) && Roomy(c, x)
    ensures x.ep.Ok(c) && Roomy(c, x.(ep := SendGather(c, x.ep, data).0))
  {
    assert x.ep.Ok(c) && !x.ep.dead;
    if |data| > 0 {
      SendIs(c, x, data);
      RoomyRead(c, x);
      var len := c.SendLen(|data|);
      hide Inv, Roomy, SendGather, PostMessage, PostRead;
      forall g | Admits(c, x, len, g) && g.offset + len <= c.cap
        ensures Roomy(c, x.(ep := PostMessage(c, x.ep, g, data[..len])))
      {
        RoomyPosted(c, x, y, data, g);
      }
    }
  }

  lemma RoomyReaped(c: Config, x: Node, y: Node)
    requires Inv(c, x, y) && Roomy(c, x) && x.sdone < x.exec
    ensures x.ep.Ok(c) && Roomy(c, SentReaped(c, x))
  {
    hide TxInv, RxInv, Lengths, HeadTrue, HeadPos, Pos, Rank;
  }

  lemma RoomyNext(c: Config, x: Node, y: Node, s: Step, x': Node, y': Node)
    requires Inv(c, x, y) && Next(c, x, y, s, x', y') && Roomy(c, x) && Roomy(c, y)
    ensures Roomy(c, x') && Roomy(c, y')
  {
    InvShaped(c, x, y);
    hide Inv, SendGather, ReapRecv, PastReap, RepostRecv, AfterRepost, SentReaped;
    match s {
      case Send(data) =>
        hide Roomy;
        RoomySend(c, x, y, data);
      case SendDone =>
        hide Roomy;
        RoomyReaped(c, x, y);
      case RecvDone => SameSide(c, x, y);
      case Repost(idx) => RepostSameSide(c, x, idx);
      case _ =>
    }
  }

  /** Reaping an arrival leaves the sending side alone. */
  lemma SameSide(c: Config, x: Node, y: Node)
    requires Shaped(c, x, y) && x.past.rdone < |y.ep.tx.log|
    ensures ReapRecv(c, x.ep, Arrives(y.ep.tx.log[x.past.rdone])).tx == x.ep.tx
  {
    hide DecodeImm, ArriveData, ArrivePad, Head.Advance;
  }

  lemma RepostSameSide(c: Config, x: Node, idx: nat)
    requires x.ep.Ok(c) && HandedOut(x.ep.rx, idx)
    ensures RepostRecv(c, x.ep, idx).tx == x.ep.tx
  {
    hide Tracker.Release, Head.Advance;
  }

  /** With a window that fits, every step is within it. */
  lemma WindowedNext(c: Config, x: Node, y: Node, s: Step, x': Node, y': Node)
    requires Inv(c, x, y) && WindowFits(c) && Roomy(c, x) && Roomy(c, y) && Next(c, x, y, s, x', y')
    ensures Windowed(c, x, y, s) && Roomy(c, x') && Roomy(c, y')
  {
    RoomyNext(c, x, y, s, x', y');
    if s.RecvDone? && Is(Item, y.ep.tx.log[x.past.rdone]) {
      hide Inv, Roomy, WindowFits;
      RoomyOpens(c, x, y);
    }
  }

  lemma AnyStepRoomy(c: Config, s: Sys, act: Act, s': Sys)
    requires Inv(c, s.a, s.b) && WindowFits(c) && Roomy(c, s.a) && Roomy(c, s.b) && SysNext(c, s, act, s')
    ensures ActWindowed(c, s, act) && Roomy(c, s'.a) && Roomy(c, s'.b)
  {
    hide Inv, Roomy, Next, Windowed, WindowFits;
    if act.byA {
      WindowedNext(c, s.a, s.b, act.step, s'.a, s'.b);
    } else {
      InvSymmetric(c, s.a, s.b);
      WindowedNext(c, s.b, s.a, act.step, s'.b, s'.a);
    }
  }

  lemma {:induction false} AnyRunRoomy(c: Config, states: seq<Sys>, acts: seq<Act>, i: nat)
    requires c.Valid() && WindowFits(c) && AnyRun(c, states, acts) && i < |states|
    ensures Inv(c, states[i].a, states[i].b) && Roomy(c, states[i].a) && Roomy(c, states[i].b)
  {
    hide Inv, Next, ActWindowed, WindowFits;
    if i == 0 {
      StartInv(c);
    } else {
      AnyRunRoomy(c, states, acts, i - 1);
      assert SysNext(c, states[i - 1], acts[i - 1], states[i]);
      AnyStepRoomy(c, states[i - 1], acts[i - 1], states[i]);
      StepInv(c, states[i - 1], acts[i - 1], states[i]);
    }
  }

  /** With a window that fits, every run stays within it. */
  lemma AlwaysWindowed(c: Config, states: seq<Sys>, acts: seq<Act>)
    requires c.Valid() && WindowFits(c) && AnyRun(c, states, acts)
    ensures IsRun(c, states, acts)
  {
    hide Inv, Roomy, Next, ActWindowed, Start, WindowFits;
    forall i | 0 <= i < |acts|
      ensures SysNext(c, states[i], acts[i], states[i + 1]) && ActWindowed(c, states[i], acts[i])
    {
      AnyRunRoomy(c, states, acts, i);
      AnyStepRoomy(c, states[i], acts[i], states[i + 1]);
    }
  }
}
