/**
  * Two read-ring endpoints over a reliable connection, as a state machine over
  * their operations and the work the connection carries out.
  */
module ReadProtocol {
  import opened Modular
  import opened RingBuffers
  import opened TransportCommon
  import opened WorkLog
  import opened SendSide
  import opened CompletionTrackers
  import opened RecvSide
  import opened ReadRing

  /**
    * An endpoint; how much of its log the connection has carried out and it has
    * reaped; the history of its receiving side; and the absolute positions behind
    * its cached copy of the peer's head and behind the last value read.
    */
  datatype Node = Node(ep: Ep, exec: nat, sdone: nat, past: Past, seen: nat, landed: nat)

  datatype Step =
    | Send(data: seq<u8>)
    | Execute
    | SendDone
    | RecvDone
    | Repost(idx: nat)
    | Take(n: nat)

  /** The completion the receiver of an entry gets, if any. */
  function Arrives(w: Wr): Wc {
    match w
    case Data(_, _, imm, _, _) => WriteImm(imm)
    case Pad(_, imm) => WriteImm(imm)
    case Credit(_, _) => Unexpected
    case HeadRead => Unexpected
  }

  ghost function PastReap(x: Node, w: Wr): Past
    requires ShapeOk(x.ep.rx)
  {
    if w.Pad? then AfterPad(x.ep.rx, x.past) else x.past.(rdone := x.past.rdone + 1)
  }

  ghost predicate Shaped(c: Config, x: Node, y: Node) {
    c.Valid() && x.ep.Ok(c) && y.ep.Ok(c)
  }

  /**
    * The connection carries out one entry: a write copies the staged bytes, as
    * they are now, into the peer's ring; a Read fetches the published head.
    */
  ghost predicate Carried(c: Config, x: Node, y: Node, x': Node, y': Node)
    requires x.exec < |x.ep.tx.log|
  {
    var w := x.ep.tx.log[x.exec];
    if w.Data? then
      && w.lo + |w.msg| <= |x.ep.tx.mem| && w.ro + |w.msg| <= |y.ep.rx.mem|
      && x' == x.(exec := x.exec + 1)
      && y' == y.(ep := y.ep.(rx := y.ep.rx.(mem :=
                  Land(y.ep.rx.mem, w, x.ep.tx.mem[w.lo..w.lo + |w.msg|]))))
    else if w.HeadRead? then
      && x' == x.(ep := x.ep.(readBuf := y.ep.published), exec := x.exec + 1,
                  landed := HeadPos(c.cap, x.ep.tx.log, y.past.freed))
      && y' == y
    else x' == x.(exec := x.exec + 1) && y' == y
  }

  /** `x` (with peer `y`) takes step `s`, reaching `x'` and `y'`. */
  ghost predicate Next(c: Config, x: Node, y: Node, s: Step, x': Node, y': Node)
    requires Shaped(c, x, y)
  {
    match s
    case Send(data) =>
      y' == y && x' == x.(ep := SendGather(c, x.ep, data).0)
    case Execute =>
      x.exec < |x.ep.tx.log| && Carried(c, x, y, x', y')
    case SendDone =>
      && x.sdone < x.exec <= |x.ep.tx.log|
      && y' == y && x' == SentReaped(c, x)
    case RecvDone =>
      && x.past.rdone < y.exec <= |y.ep.tx.log|
      && y' == y
      && x' == x.(ep := ReapRecv(c, x.ep, Arrives(y.ep.tx.log[x.past.rdone])),
                  past := PastReap(x, y.ep.tx.log[x.past.rdone]))
    case Repost(idx) =>
      && HandedOut(x.ep.rx, idx)
      && y' == y
      && x' == x.(ep := RepostRecv(c, x.ep, idx), past := AfterRepost(x.ep.rx, x.past, idx))
    case Take(n) =>
      && n <= |x.ep.rx.stash|
      && y' == y
      && x' == x.(ep := x.ep.(rx := x.ep.rx.(stash := x.ep.rx.stash[n..])),
                  past := x.past.(taken := x.past.taken + n))
  }

  /** Reaping a send completion; the Read's makes the last value read the cached head. */
  ghost function SentReaped(c: Config, x: Node): Node
    requires x.ep.Ok(c) && x.sdone < |x.ep.tx.log|
  {
    var w := x.ep.tx.log[x.sdone];
    x.(ep := ReapSend(c, x.ep, WrId(w)), sdone := x.sdone + 1,
       seen := if w.HeadRead? then x.landed else x.seen)
  }

  // ---------------------------------------------------------------------
  // Invariant
  // ---------------------------------------------------------------------

  /** The length noted for entry `i`, while its slot is still its own. */
  ghost predicate Noted(cap: nat, log: seq<Wr>, lens: seq<nat>, freed: nat, i: nat)
    requires i < |log| && |lens| > 0
  {
    Is(Item, log[i]) && Rank(Item, log, i) >= freed ==>
      lens[Rank(Item, log, i) % |lens|] == Ext(cap, log[i])
  }

  ghost predicate Lengths(cap: nat, log: seq<Wr>, rdone: nat, lens: seq<nat>, freed: nat)
    requires rdone <= |log| && |lens| > 0
  {
    forall i: nat {:trigger Noted(cap, log, lens, freed, i)} :: i < rdone ==> Noted(cap, log, lens, freed, i)
  }

  /** The published head is the end of the released prefix, modulo the capacity. */
  ghost predicate HeadTrue(c: Config, log: seq<Wr>, y: Node)
    requires c.Valid()
  {
    && y.ep.head.slot == y.past.freed % c.maxOut
    && y.ep.published == y.ep.head.offset == HeadPos(c.cap, log, y.past.freed) % c.cap
  }

  /** A Read that has landed holds a head the receiver has published. */
  ghost predicate Landed(c: Config, x: Node, freed: nat)
    requires c.cap > 0 && x.exec <= |x.ep.tx.log|
  {
    forall r :: x.sdone <= r < x.exec && x.ep.tx.log[r].HeadRead? ==>
      && x.ep.readBuf == x.landed % c.cap
      && x.seen <= x.landed <= HeadPos(c.cap, x.ep.tx.log, freed)
  }

  /** The cached head is a head the receiver has published, perhaps an old one. */
  ghost predicate Cached(c: Config, x: Node, freed: nat)
    requires c.cap > 0 && x.exec <= |x.ep.tx.log|
  {
    && x.ep.cachedHead == x.seen % c.cap
    && x.seen <= HeadPos(c.cap, x.ep.tx.log, freed)
    && Pos(c.cap, x.ep.tx.log, |x.ep.tx.log|) < x.seen + c.cap
    && Landed(c, x, freed)
  }

  ghost predicate NoCredits(log: seq<Wr>) {
    forall i :: 0 <= i < |log| ==> !log[i].Credit?
  }

  /** The counters count what is outstanding; writes stay within the doorbells. */
  ghost predicate QueueBound(c: Config, x: Node) {
    && x.sdone <= x.exec <= |x.ep.tx.log|
    && NoCredits(x.ep.tx.log)
    && x.ep.inFlight + Rank(Item, x.ep.tx.log, x.sdone) == Rank(Item, x.ep.tx.log, |x.ep.tx.log|)
    && x.ep.SqUsed() == |x.ep.tx.log| - x.sdone
    && x.ep.inFlight <= c.maxOut
  }

  /** Everything about the direction from `x` to `y`. */
  ghost predicate Half(c: Config, x: Node, y: Node)
    requires c.Valid()
  {
    && x.ep.Ok(c) && !x.ep.dead
    && TxInv(c.cap, c.Bound(), x.ep.tx, x.sdone)
    && QueueBound(c, x)
    && RxInv(c.maxOut, c.cap, x.ep.tx.log, x.exec, y.ep.rx, y.past)
    && |y.ep.head.lens| == c.maxOut
    && Lengths(c.cap, x.ep.tx.log, y.past.rdone, y.ep.head.lens, y.past.freed)
    && HeadTrue(c, x.ep.tx.log, y)
    && Cached(c, x, y.past.freed)
  }

  ghost predicate Inv(c: Config, x: Node, y: Node) {
    c.Valid() && Half(c, x, y) && Half(c, y, x)
  }

  // ---------------------------------------------------------------------
  // What the invariant gives
  // ---------------------------------------------------------------------

  lemma FreedReach(c: Config, x: Node, y: Node)
    requires c.Valid() && Half(c, x, y)
    ensures y.past.freed <= Rank(Item, x.ep.tx.log, y.past.rdone) <= Rank(Item, x.ep.tx.log, |x.ep.tx.log|)
    ensures HeadPos(c.cap, x.ep.tx.log, y.past.freed) <= Pos(c.cap, x.ep.tx.log, |x.ep.tx.log|)
  {
    hide Mapped, Queued, Intact, Staged, WellPlaced, Tracked, Accounts, Lengths, Landed;
    RankMono(Item, x.ep.tx.log, y.past.rdone, |x.ep.tx.log|);
    HeadPosBelow(c.cap, x.ep.tx.log, y.past.freed, |x.ep.tx.log|);
  }

  /** The free space a sender computes, in absolute positions. */
  lemma FreeIs(c: Config, x: Node, freed: nat)
    requires c.Valid() && x.ep.Ok(c) && Accounts(c.cap, x.ep.tx, x.sdone) && x.exec <= |x.ep.tx.log|
    requires Cached(c, x, freed) && HeadPos(c.cap, x.ep.tx.log, freed) <= Pos(c.cap, x.ep.tx.log, |x.ep.tx.log|)
    ensures x.ep.RemoteFree(c.cap) == c.cap - 1 - (Pos(c.cap, x.ep.tx.log, |x.ep.tx.log|) - x.seen)
  {
    hide Landed, HeadPos, Pos, Ep.RemoteFree;
    FreeFrom(c, x.ep, x.seen, Pos(c.cap, x.ep.tx.log, |x.ep.tx.log|));
  }

  /** `remote_free_space` never exceeds the space that is really free. */
  lemma FreeIsSafe(c: Config, x: Node, y: Node)
    requires c.Valid() && Half(c, x, y)
    ensures x.ep.RemoteFree(c.cap)
            <= c.cap - 1 - (Pos(c.cap, x.ep.tx.log, |x.ep.tx.log|) - HeadPos(c.cap, x.ep.tx.log, y.past.freed))
  {
    hide Mapped, Queued, Intact, Staged, WellPlaced, Tracked, Lengths, Landed, HeadPos, Pos;
    FreedReach(c, x, y);
    FreeIs(c, x, y.past.freed);
  }

  /** The message about to be written is within one lap of everything unreleased. */
  lemma NextWriteFits(c: Config, x: Node, y: Node)
    requires c.Valid() && x.exec < |x.ep.tx.log| && Cached(c, x, y.past.freed)
    ensures InWindow(c.cap, x.ep.tx.log, x.exec, y.past.freed)
  {
    var log := x.ep.tx.log;
    PosMono(c.cap, log, x.exec + 1, |log|);
    forall i | 0 <= i < x.exec && log[i].Data? && Rank(Item, log, i) >= y.past.freed
      ensures Pos(c.cap, log, x.exec + 1) <= Pos(c.cap, log, i) + c.cap
    {
      HeadPosBelow(c.cap, log, y.past.freed, i);
    }
  }

  // ---------------------------------------------------------------------
  // Sending
  // ---------------------------------------------------------------------

  /** What the other direction needs of `x`: its receiving side. */
  ghost predicate SameReceiver(x: Node, x': Node) {
    x'.ep.rx == x.ep.rx && x'.ep.head == x.ep.head && x'.ep.published == x.ep.published && x'.past == x.past
  }

  lemma PeerUnaffected(c: Config, y: Node, x: Node, x': Node)
    requires c.Valid() && Half(c, y, x) && SameReceiver(x, x')
    ensures Half(c, y, x')
  {
    hide TxInv, RxInv, Lengths, Cached, QueueBound;
  }

  lemma LengthsGrow(cap: nat, log: seq<Wr>, more: seq<Wr>, rdone: nat, lens: seq<nat>, freed: nat)
    requires rdone <= |log| && |lens| > 0 && Lengths(cap, log, rdone, lens, freed)
    ensures Lengths(cap, log + more, rdone, lens, freed)
  {
    forall i: nat | i < rdone
      ensures Noted(cap, log + more, lens, freed, i)
    {
      assert Noted(cap, log, lens, freed, i);
      RankAppend(Item, log, more, i);
    }
  }

  /** The receiver's facts when the sender posts more. */
  lemma ReceiverGrows(c: Config, x: Node, y: Node, log': seq<Wr>, more: seq<Wr>)
    requires c.Valid() && Half(c, x, y) && log' == x.ep.tx.log + more
    ensures RxInv(c.maxOut, c.cap, log', x.exec, y.ep.rx, y.past)
    ensures Lengths(c.cap, log', y.past.rdone, y.ep.head.lens, y.past.freed)
    ensures HeadPos(c.cap, log', y.past.freed) == HeadPos(c.cap, x.ep.tx.log, y.past.freed)
    ensures HeadTrue(c, log', y)
  {
    FreedReach(c, x, y);
    hide Mapped, Queued, Intact, Staged, WellPlaced, Tracked, Lengths, Landed, HeadPos, Pos;
    LogGrows(c.maxOut, c.cap, x.ep.tx.log, more, x.exec, y.ep.rx, y.past);
    LengthsGrow(c.cap, x.ep.tx.log, more, y.past.rdone, y.ep.head.lens, y.past.freed);
    HeadPosGrows(c.cap, x.ep.tx.log, more, y.past.freed);
  }

  lemma ReadForward(c: Config, x: Node, y: Node)
    requires c.Valid() && Half(c, x, y) && !x.ep.readInFlight
    ensures Half(c, x.(ep := PostRead(x.ep)), y)
  {
    hide Mapped, Queued, Intact, Staged, WellPlaced, Tracked, Lengths, HeadPos;
    var log := x.ep.tx.log;
    var x' := x.(ep := PostRead(x.ep));
    AppendKeeps(c.cap, c.Bound(), x.ep.tx, x.sdone, HeadRead);
    ReceiverGrows(c, x, y, x'.ep.tx.log, [HeadRead]);
    RankAppend(Item, log, [HeadRead], |log|);
    RankAppend(Item, log, [HeadRead], x.sdone);
    PosAppend(c.cap, log, [HeadRead], |log|);
  }

  lemma PostReadKeeps(c: Config, x: Node, y: Node)
    requires Inv(c, x, y)
    ensures Inv(c, x.(ep := PostRead(x.ep)), y)
  {
    hide Half;
    if !x.ep.readInFlight {
      ReadForward(c, x, y);
      PeerUnaffected(c, y, x, x.(ep := PostRead(x.ep)));
    }
  }

  /** The sender's state after the writes of a message are posted. */
  ghost function Posted(c: Config, x: Node, g: Grant, msg: seq<u8>): Node
    requires x.ep.Ok(c) && g.offset + |msg| <= c.cap
  {
    x.(ep := x.ep.(tx := Post(c.cap, x.ep.tx, g, msg),
                   inFlight := x.ep.inFlight + if g.padding > 0 then 2 else 1))
  }

  /** The cached head still bounds the tail after a post that fits the free space. */
  lemma PostedCached(c: Config, x: Node, y: Node, g: Grant, msg: seq<u8>)
    requires c.Valid() && Half(c, x, y) && |msg| > 0
    requires x.ep.tx.ring.Reserve(|msg|) == Some(g) && g.offset + |msg| <= c.cap
    requires g.padding + |msg| <= x.ep.RemoteFree(c.cap)
    ensures Cached(c, Posted(c, x, g, msg), y.past.freed)
  {
    var log := x.ep.tx.log;
    var x' := Posted(c, x, g, msg);
    var more := PostAppends(c.cap, x.ep.tx, g, msg);
    ReceiverGrows(c, x, y, log + more, more);
    FreedReach(c, x, y);
    RingBuffers.ReserveRefines(x.ep.tx.ring, Freed(log, x.sdone), Pos(c.cap, log, |log|), |msg|);
    PostedPositions(c.cap, x.ep.tx, g, msg);
    hide Mapped, Queued, Intact, Staged, WellPlaced, Tracked, Lengths, HeadPos, Pos, Rank;
    FreeIs(c, x, y.past.freed);
  }

  lemma PostedQueue(c: Config, x: Node, g: Grant, msg: seq<u8>)
    requires c.Valid() && x.ep.Ok(c) && QueueBound(c, x) && g.offset + |msg| <= c.cap
    requires x.ep.SqUsed() + SEND_COPY_MAX_WRS <= c.maxOut
    ensures QueueBound(c, Posted(c, x, g, msg))
  {
    var more := PostAppends(c.cap, x.ep.tx, g, msg);
    RankAppend(Item, x.ep.tx.log, more, x.sdone);
  }

  lemma PostedForward(c: Config, x: Node, y: Node, g: Grant, msg: seq<u8>)
    requires c.Valid() && Half(c, x, y) && 0 < |msg| <= c.Bound()
    requires x.ep.SqUsed() + SEND_COPY_MAX_WRS <= c.maxOut
    requires x.ep.tx.ring.Reserve(|msg|) == Some(g) && g.offset + |msg| <= c.cap
    requires g.padding + |msg| <= x.ep.RemoteFree(c.cap)
    ensures Half(c, Posted(c, x, g, msg), y)
  {
    hide Mapped, Queued, Intact, Staged, WellPlaced, Tracked, Lengths, Cached, HeadPos;
    PostKeeps(c.cap, c.Bound(), x.ep.tx, x.sdone, msg);
    PostedQueue(c, x, g, msg);
    var more := PostAppends(c.cap, x.ep.tx, g, msg);
    ReceiverGrows(c, x, y, x.ep.tx.log + more, more);
    PostedCached(c, x, y, g, msg);
  }

  /** A send that gets as far as posting. */
  ghost predicate Admits(c: Config, x: Node, len: nat, g: Grant)
    requires x.ep.Ok(c)
  {
    && x.ep.SqUsed() + SEND_COPY_MAX_WRS <= c.maxOut
    && x.ep.tx.ring.Reserve(len) == Some(g)
    && len + c.threshold <= x.ep.RemoteFree(c.cap)
    && (g.padding > 0 ==> g.padding + len + c.threshold <= x.ep.RemoteFree(c.cap))
  }

  lemma PostedKeeps(c: Config, x: Node, y: Node, data: seq<u8>, g: Grant)
    requires Inv(c, x, y) && Admits(c, x, c.SendLen(|data|), g)
    ensures g.offset + c.SendLen(|data|) <= c.cap
    ensures Inv(c, Posted(c, x, g, data[..c.SendLen(|data|)]), y)
  {
    var len := c.SendLen(|data|);
    assert Accounts(c.cap, x.ep.tx, x.sdone);
    GrantPlaced(c.cap, x.ep.tx, x.sdone, len);
    hide Half;
    PostedForward(c, x, y, g, data[..len]);
    PeerUnaffected(c, y, x, Posted(c, x, g, data[..len]));
  }

  /** A reservation given back after a wrap leaves no trace. */
  lemma SendIs(c: Config, x: Node, data: seq<u8>)
    requires c.Valid() && x.ep.Ok(c) && !x.ep.dead && |data| > 0
    ensures var len := c.SendLen(|data|); var r := SendGather(c, x.ep, data);
            || r == (x.ep, Accepted(0))
            || r == (PostRead(x.ep), Accepted(0))
            || exists g :: && Admits(c, x, len, g) && g.offset + len <= c.cap
                           && r == (PostMessage(c, x.ep, g, data[..len]), Accepted(len))
  {
    var len := c.SendLen(|data|);
    if x.ep.tx.ring.Reserve(len).Some? {
      var g := x.ep.tx.ring.Reserve(len).value;
      if g.padding > 0 {
        RollbackRestores(x.ep.tx.ring, len);
      }
    }
  }

  lemma MessageIs(c: Config, x: Node, g: Grant, msg: seq<u8>)
    requires x.ep.Ok(c) && g.offset + |msg| <= c.cap
    ensures var p := Posted(c, x, g, msg); var q := x.(ep := PostMessage(c, x.ep, g, msg));
            q == p || q == p.(ep := PostRead(p.ep))
  {
  }

  lemma SendKeeps(c: Config, x: Node, y: Node, data: seq<u8>)
    requires Inv(c, x, y)
    ensures Inv(c, x.(ep := SendGather(c, x.ep, data).0), y)
  {
    assert x.ep.Ok(c) && !x.ep.dead;
    if |data| > 0 {
      SendIs(c, x, data);
      PostReadKeeps(c, x, y);
      var len := c.SendLen(|data|);
      forall g | Admits(c, x, len, g) && g.offset + len <= c.cap
        ensures Inv(c, x.(ep := PostMessage(c, x.ep, g, data[..len])), y)
      {
        hide *;
        PostedKeeps(c, x, y, data, g);
        MessageIs(c, x, g, data[..len]);
        PostReadKeeps(c, Posted(c, x, g, data[..len]), y);
      }
    }
  }

  // ---------------------------------------------------------------------
  // The connection at work, and send completions
  // ---------------------------------------------------------------------

  /** What a write copies is the message as gathered: staging has not changed. */
  lemma CarriesMessage(c: Config, x: Node, y: Node, x': Node, y': Node)
    requires x.sdone <= x.exec < |x.ep.tx.log| && Staged(x.ep.tx, x.sdone)
    requires Carried(c, x, y, x', y') && !x.ep.tx.log[x.exec].HeadRead?
    ensures var w := x.ep.tx.log[x.exec];
            && x' == x.(exec := x.exec + 1)
            && (w.Data? ==> w.ro + |w.msg| <= |y.ep.rx.mem|)
            && y' == y.(ep := y.ep.(rx := y.ep.rx.(mem :=
                         Land(y.ep.rx.mem, w, if w.Data? then w.msg else []))))
  {
  }

  lemma RxOfExecuted(c: Config, log: seq<Wr>, exec: nat, y: Node, y': Node)
    requires RxInv(c.maxOut, c.cap, log, exec, y.ep.rx, y.past) && exec < |log|
    requires |y'.ep.rx.mem| == |y.ep.rx.mem|
    requires y' == y.(ep := y.ep.(rx := y.ep.rx.(mem := y'.ep.rx.mem)))
    requires Intact(log, exec + 1, y'.ep.rx.mem, y.past.freed)
    ensures RxInv(c.maxOut, c.cap, log, exec + 1, y'.ep.rx, y'.past)
  {
  }

  lemma WriteLands(c: Config, x: Node, y: Node, x': Node, y': Node)
    requires c.Valid() && Half(c, x, y) && x.exec < |x.ep.tx.log| && Carried(c, x, y, x', y')
    requires !x.ep.tx.log[x.exec].HeadRead?
    ensures x' == x.(exec := x.exec + 1)
    ensures |y'.ep.rx.mem| == |y.ep.rx.mem| && y' == y.(ep := y.ep.(rx := y.ep.rx.(mem := y'.ep.rx.mem)))
    ensures RxInv(c.maxOut, c.cap, x.ep.tx.log, x.exec + 1, y'.ep.rx, y'.past)
  {
    NextWriteFits(c, x, y);
    CarriesMessage(c, x, y, x', y');
    hide Mapped, Queued, Intact, Staged, WellPlaced, Carried, InWindow, Tracked, Accounts, Lengths, HeadPos, Rank, Cached;
    LandKeeps(c.cap, c.Bound(), x.ep.tx.log, x.exec, y.ep.rx.mem, y.past.freed);
    RxOfExecuted(c, x.ep.tx.log, x.exec, y, y');
  }

  lemma WriteForward(c: Config, x: Node, y: Node, x': Node, y': Node)
    requires c.Valid() && Half(c, x, y) && x.exec < |x.ep.tx.log| && Carried(c, x, y, x', y')
    requires !x.ep.tx.log[x.exec].HeadRead?
    ensures Half(c, x', y')
    ensures x' == x.(exec := x.exec + 1)
    ensures |y'.ep.rx.mem| == |y.ep.rx.mem| && y' == y.(ep := y.ep.(rx := y.ep.rx.(mem := y'.ep.rx.mem)))
  {
    WriteLands(c, x, y, x', y');
    hide TxInv, RxInv, Lengths, HeadPos, Rank, Pos, Carried;
  }

  lemma ReadLands(c: Config, x: Node, y: Node, x': Node, y': Node)
    requires c.Valid() && Half(c, x, y) && x.exec < |x.ep.tx.log| && Carried(c, x, y, x', y')
    requires x.ep.tx.log[x.exec].HeadRead?
    ensures Half(c, x', y') && y' == y && SameReceiver(x, x') && x'.ep.Ok(c) && !x'.ep.dead
  {
    hide Mapped, Queued, Staged, WellPlaced, Tracked, Accounts, Lengths, HeadPos, Rank;
    assert Intact(x.ep.tx.log, x.exec + 1, y.ep.rx.mem, y.past.freed);
  }

  /** A peer whose ring changed only in its bytes sends as before. */
  lemma WrittenPeer(c: Config, x: Node, x': Node, y: Node, y': Node)
    requires c.Valid() && Half(c, y, x) && SameReceiver(x, x')
    requires |y'.ep.rx.mem| == |y.ep.rx.mem| && y' == y.(ep := y.ep.(rx := y.ep.rx.(mem := y'.ep.rx.mem)))
    ensures Half(c, y', x')
  {
    hide TxInv, RxInv, Lengths, HeadPos;
  }

  lemma ExecuteKeeps(c: Config, x: Node, y: Node, x': Node, y': Node)
    requires Inv(c, x, y) && x.exec < |x.ep.tx.log| && Carried(c, x, y, x', y')
    ensures Inv(c, x', y')
  {
    hide Half, Carried;
    if x.ep.tx.log[x.exec].HeadRead? {
      ReadLands(c, x, y, x', y');
      PeerUnaffected(c, y, x, x');
    } else {
      WriteForward(c, x, y, x', y');
      WrittenPeer(c, x, x', y, y');
    }
  }

  /** The completion id alone releases exactly what the entry had staged. */
  lemma ReapsEntry(c: Config, x: Node, y: Node)
    requires c.Valid() && Half(c, x, y) && x.sdone < x.exec
    ensures var w := x.ep.tx.log[x.sdone];
            && SentReaped(c, x).ep.tx == Complete(x.ep.tx, x.sdone)
            && (w.HeadRead? ==> x.ep.readInFlight)
            && SentReaped(c, x) ==
               if w.HeadRead? then
                 x.(ep := x.ep.(cachedHead := x.landed % c.cap, readInFlight := false),
                    sdone := x.sdone + 1, seen := x.landed)
               else
                 x.(ep := x.ep.(tx := Complete(x.ep.tx, x.sdone), inFlight := SatSub(x.ep.inFlight, 1)),
                    sdone := x.sdone + 1)
  {
    hide Mapped, Queued, Intact, Staged, Tracked, Lengths, HeadPos;
    assert Placed(c.cap, c.Bound(), x.ep.tx.log, x.sdone);
    RankMono(Item, x.ep.tx.log, x.sdone + 1, |x.ep.tx.log|);
    RankGap(x.ep.tx.log, x.sdone + 1, |x.ep.tx.log|);
  }

  /** There are no more ring messages than entries. */
  lemma {:induction false} RankGap(log: seq<Wr>, i: nat, j: nat)
    requires i <= j <= |log|
    ensures Rank(Item, log, j) - Rank(Item, log, i) <= j - i
  {
    if i < j {
      RankGap(log, i, j - 1);
    }
  }

  lemma ReapedQueue(c: Config, x: Node, y: Node)
    requires c.Valid() && Half(c, x, y) && x.sdone < x.exec
    ensures QueueBound(c, SentReaped(c, x)) && SentReaped(c, x).ep.Ok(c)
  {
    ReapsEntry(c, x, y);
    hide Mapped, Queued, Intact, Staged, Tracked, Lengths, HeadPos, SentReaped, WellPlaced, Accounts;
    RankMono(Item, x.ep.tx.log, x.sdone, |x.ep.tx.log|);
  }

  lemma SentForward(c: Config, x: Node, y: Node)
    requires c.Valid() && Half(c, x, y) && x.sdone < x.exec
    ensures Half(c, SentReaped(c, x), y) && SameReceiver(x, SentReaped(c, x))
  {
    ReapsEntry(c, x, y);
    ReapedQueue(c, x, y);
    hide Mapped, Queued, Intact, Staged, Tracked, Lengths, HeadPos, SentReaped, WellPlaced, QueueBound, RxInv, Rank;
    CompleteKeeps(c.cap, c.Bound(), x.ep.tx, x.sdone);
  }

  lemma SendDoneKeeps(c: Config, x: Node, y: Node)
    requires Inv(c, x, y) && x.sdone < x.exec
    ensures Shaped(c, x, y) && x.sdone < |x.ep.tx.log| && Inv(c, SentReaped(c, x), y)
  {
    SentForward(c, x, y);
    hide Half, SentReaped;
    PeerUnaffected(c, y, x, SentReaped(c, x));
  }

  // ---------------------------------------------------------------------
  // Receiving
  // ---------------------------------------------------------------------

  lemma LengthsMono(cap: nat, log: seq<Wr>, rdone: nat, lens: seq<nat>, freed: nat, freed': nat)
    requires rdone <= |log| && |lens| > 0 && Lengths(cap, log, rdone, lens, freed) && freed <= freed'
    ensures Lengths(cap, log, rdone, lens, freed')
  {
    forall i: nat | i < rdone
      ensures Noted(cap, log, lens, freed', i)
    {
      assert Noted(cap, log, lens, freed, i);
    }
  }

  /** Noting the length of a message within the window disturbs no other note. */
  lemma NoteKeeps(cap: nat, log: seq<Wr>, rdone: nat, lens: seq<nat>, freed: nat)
    requires rdone < |log| && |lens| > 0 && Lengths(cap, log, rdone, lens, freed)
    requires Is(Item, log[rdone]) && Rank(Item, log, rdone) < freed + |lens|
    ensures Lengths(cap, log, rdone + 1, lens[Rank(Item, log, rdone) % |lens| := Ext(cap, log[rdone])], freed)
  {
    var a := Rank(Item, log, rdone);
    var lens' := lens[a % |lens| := Ext(cap, log[rdone])];
    forall i: nat | i < rdone + 1
      ensures Noted(cap, log, lens', freed, i)
    {
      if i < rdone && Is(Item, log[i]) && Rank(Item, log, i) >= freed {
        assert Noted(cap, log, lens, freed, i);
        RankMono(Item, log, i, rdone);
        Distinct(Rank(Item, log, i), a, |lens|);
      }
    }
  }

  /** A reaped entry that is no ring message takes no note. */
  lemma SkipNote(cap: nat, log: seq<Wr>, rdone: nat, lens: seq<nat>, freed: nat)
    requires rdone < |log| && |lens| > 0 && Lengths(cap, log, rdone, lens, freed) && !Is(Item, log[rdone])
    ensures Lengths(cap, log, rdone + 1, lens, freed)
  {
    assert Noted(cap, log, lens, freed, rdone);
  }

  /** Message number `freed` ends the longer prefix by its own length. */
  lemma HeadStep(cap: nat, log: seq<Wr>, rdone: nat, lens: seq<nat>, freed: nat)
    requires rdone <= |log| && |lens| > 0 && Lengths(cap, log, rdone, lens, freed)
    requires freed < Rank(Item, log, rdone)
    ensures HeadPos(cap, log, freed + 1) == HeadPos(cap, log, freed) + lens[freed % |lens|]
  {
    var i := RankReach(Item, log, rdone, freed);
    assert Noted(cap, log, lens, freed, i);
    HeadPosAt(cap, log, i);
    HeadPosAt(cap, log, i + 1);
  }

  lemma AdvanceOne(cap: nat, log: seq<Wr>, rdone: nat, head: Head, freed: nat)
    requires cap > 0 && rdone <= |log| && head.Valid() && Lengths(cap, log, rdone, head.lens, freed)
    requires freed + 1 <= Rank(Item, log, rdone)
    requires head.slot == freed % |head.lens| && head.offset == HeadPos(cap, log, freed) % cap
    ensures (head.slot + 1) % |head.lens| == (freed + 1) % |head.lens|
    ensures (head.offset + head.lens[head.slot]) % cap == HeadPos(cap, log, freed + 1) % cap
    ensures Lengths(cap, log, rdone, head.lens, freed + 1)
  {
    HeadStep(cap, log, rdone, head.lens, freed);
    LengthsMono(cap, log, rdone, head.lens, freed, freed + 1);
    hide HeadPos, Rank, Lengths;
    AddMod(freed, 1, |head.lens|);
    AddMod(HeadPos(cap, log, freed), head.lens[head.slot], cap);
  }

  /** `advance_recv_head` adds up the lengths of the newly released prefix. */
  lemma {:induction false} AdvanceRefines(cap: nat, log: seq<Wr>, rdone: nat, head: Head, freed: nat, n: nat)
    requires cap > 0 && rdone <= |log| && head.Valid() && Lengths(cap, log, rdone, head.lens, freed)
    requires freed + n <= Rank(Item, log, rdone)
    requires head.slot == freed % |head.lens| && head.offset == HeadPos(cap, log, freed) % cap
    ensures head.Advance(cap, n).slot == (freed + n) % |head.lens|
    ensures head.Advance(cap, n).offset == HeadPos(cap, log, freed + n) % cap
    decreases n
  {
    hide HeadPos, Rank, Lengths;
    if n > 0 {
      AdvanceOne(cap, log, rdone, head, freed);
      var next := Head(head.lens, (head.slot + 1) % |head.lens|, (head.offset + head.lens[head.slot]) % cap);
      AdvanceRefines(cap, log, rdone, next, freed + 1, n - 1);
    }
  }

  /** `x'` differs from `x` in its receiving side alone. */
  ghost predicate SameSender(x: Node, x': Node) {
    && x' == x.(ep := x.ep.(rx := x'.ep.rx, head := x'.ep.head, published := x'.ep.published), past := x'.past)
  }

  lemma SenderUnaffected(c: Config, x: Node, y: Node, x': Node)
    requires c.Valid() && Half(c, x, y) && SameSender(x, x') && x'.ep.Ok(c)
    ensures Half(c, x', y)
  {
    hide TxInv, RxInv, Lengths, HeadPos, Rank, Pos;
  }

  /** The sender's cached head stays behind as the receiver releases more. */
  lemma CachedMono(c: Config, y: Node, freed: nat, freed': nat)
    requires c.Valid() && y.exec <= |y.ep.tx.log| && Cached(c, y, freed)
    requires freed <= freed' <= Rank(Item, y.ep.tx.log, |y.ep.tx.log|)
    ensures Cached(c, y, freed')
  {
    HeadPosMono(c.cap, y.ep.tx.log, freed, freed');
  }

  /** Everything the receiving side owes its peer, put together. */
  lemma ReceiverForward(c: Config, y: Node, x: Node, x': Node)
    requires c.Valid() && Half(c, y, x)
    requires RxInv(c.maxOut, c.cap, y.ep.tx.log, y.exec, x'.ep.rx, x'.past) && |x'.ep.head.lens| == c.maxOut
    requires Lengths(c.cap, y.ep.tx.log, x'.past.rdone, x'.ep.head.lens, x'.past.freed)
    requires HeadTrue(c, y.ep.tx.log, x') && x.past.freed <= x'.past.freed
    ensures Half(c, y, x')
  {
    hide TxInv, Mapped, Tracked, Intact, Queued, Lengths, Cached, HeadTrue;
    RankMono(Item, y.ep.tx.log, x'.past.rdone, |y.ep.tx.log|);
    CachedMono(c, y, x.past.freed, x'.past.freed);
  }

  /** The head after a release, from the head before it. */
  lemma HeadAdvanced(c: Config, log: seq<Wr>, x1: Node, freed: nat, n: nat)
    requires c.Valid() && x1.ep.Ok(c) && x1.past.rdone <= |log| && x1.past.freed == freed + n
    requires Lengths(c.cap, log, x1.past.rdone, x1.ep.head.lens, freed)
    requires freed + n <= Rank(Item, log, x1.past.rdone)
    requires HeadTrue(c, log, x1.(past := x1.past.(freed := freed)))
    ensures var x2 := x1.(ep := AdvanceHead(c, x1.ep, n));
            && x2.ep.Ok(c) && HeadTrue(c, log, x2)
            && Lengths(c.cap, log, x2.past.rdone, x2.ep.head.lens, x2.past.freed)
  {
    hide HeadPos, Rank, Lengths, Head.Advance;
    AdvanceRefines(c.cap, log, x1.past.rdone, x1.ep.head, freed, n);
    LengthsMono(c.cap, log, x1.past.rdone, x1.ep.head.lens, freed, freed + n);
    SmallMod(HeadPos(c.cap, log, freed + n) % c.cap, U32);
  }

  ghost function DataReaped(c: Config, x: Node, w: Wr): Node
    requires x.ep.Ok(c) && w.Data?
  {
    x.(ep := ReapData(c, x.ep, w.ro, |w.msg|), past := x.past.(rdone := x.past.rdone + 1))
  }

  /** The next arrival finds the receiver's window open. */
  predicate WindowOpen(c: Config, x: Node) {
    x.ep.rx.arrivals < x.past.freed + c.maxOut
  }

  lemma DataForward(c: Config, x: Node, y: Node)
    requires c.Valid() && Half(c, y, x) && x.ep.Ok(c) && x.past.rdone < y.exec && WindowOpen(c, x)
    requires y.ep.tx.log[x.past.rdone].Data?
    ensures var x' := DataReaped(c, x, y.ep.tx.log[x.past.rdone]);
            Half(c, y, x') && x'.ep.Ok(c) && SameSender(x, x')
  {
    hide Mapped, Queued, Intact, Tracked, TxInv, HeadPos, Lengths;
    var w := y.ep.tx.log[x.past.rdone];
    ArriveDataKeeps(c.maxOut, c.cap, y.ep.tx.log, y.exec, x.ep.rx, x.past);
    NoteKeeps(c.cap, y.ep.tx.log, x.past.rdone, x.ep.head.lens, x.past.freed);
    ArriveShape(x.ep.rx, w.ro, |w.msg|);
    ReceiverForward(c, y, x, DataReaped(c, x, w));
  }

  /** The receiver decodes exactly the placement the sender chose. */
  lemma DecodesPlacement(c: Config, x: Node, y: Node)
    requires c.Valid() && Half(c, x, y) && y.past.rdone < x.exec
    requires Is(Item, x.ep.tx.log[y.past.rdone])
    ensures var w := x.ep.tx.log[y.past.rdone];
            && DecodeImm(w.imm) == (w.ro, if w.Data? then |w.msg| else 0)
            && w.ro < c.cap && (w.Data? ==> 0 < |w.msg| && w.ro + |w.msg| <= c.cap)
  {
    hide RxInv, Lengths, Cached, Staged, Pos;
    var w := x.ep.tx.log[y.past.rdone];
    assert Placed(c.cap, c.Bound(), x.ep.tx.log, y.past.rdone);
    ImmRoundTrip(w.ro, if w.Data? then |w.msg| else 0);
  }

  /** Padding reaped, the head not yet advanced. */
  ghost function PadNoted(c: Config, x: Node, w: Wr): Node
    requires x.ep.Ok(c) && w.Pad? && w.ro < c.cap
  {
    x.(ep := NoteLen(c, x.ep, c.cap - w.ro).(rx := ArrivePad(x.ep.rx).0), past := AfterPad(x.ep.rx, x.past))
  }

  ghost function PadReaped(c: Config, x: Node, w: Wr): Node
    requires x.ep.Ok(c) && w.Pad? && w.ro < c.cap
  {
    x.(ep := ReapPad(c, x.ep, w.ro), past := AfterPad(x.ep.rx, x.past))
  }

  lemma PadNotedKeeps(c: Config, x: Node, y: Node)
    requires c.Valid() && Half(c, y, x) && x.ep.Ok(c) && x.past.rdone < y.exec && WindowOpen(c, x)
    requires y.ep.tx.log[x.past.rdone].Pad?
    ensures var w := y.ep.tx.log[x.past.rdone];
            && w.ro < c.cap
            && var x1 := PadNoted(c, x, w);
               && x1.ep.Ok(c) && x1.past.rdone <= y.exec
               && RxInv(c.maxOut, c.cap, y.ep.tx.log, y.exec, x1.ep.rx, x1.past)
               && x1.past.freed <= Rank(Item, y.ep.tx.log, x1.past.rdone)
               && Lengths(c.cap, y.ep.tx.log, x1.past.rdone, x1.ep.head.lens, x.past.freed)
  {
    DecodesPlacement(c, y, x);
    hide Mapped, Queued, Intact, Tracked, TxInv, HeadPos, Lengths, HeadTrue, Cached, QueueBound, Tracker.Release, Rank;
    ArrivePadKeeps(c.maxOut, c.cap, y.ep.tx.log, y.exec, x.ep.rx, x.past);
    NoteKeeps(c.cap, y.ep.tx.log, x.past.rdone, x.ep.head.lens, x.past.freed);
  }

  lemma PadReapedIs(c: Config, x: Node, w: Wr)
    requires c.Valid() && x.ep.Ok(c) && w.Pad? && w.ro < c.cap && PadNoted(c, x, w).ep.Ok(c)
    ensures var x1, n := PadNoted(c, x, w), ArrivePad(x.ep.rx).1;
            && PadReaped(c, x, w) == x1.(ep := AdvanceHead(c, x1.ep, n))
            && x1.past.freed == x.past.freed + n && SameSender(x, PadReaped(c, x, w))
            && PadReaped(c, x, w).past == x1.past && |PadReaped(c, x, w).ep.head.lens| == |x1.ep.head.lens|
            && PadReaped(c, x, w).ep.rx == x1.ep.rx && x1.ep.head == x.ep.head.(lens := x1.ep.head.lens)
            && x1.ep.published == x.ep.published
  {
    hide Head.Advance, Tracker.Release, HeadPos;
  }

  lemma PadForward(c: Config, x: Node, y: Node)
    requires c.Valid() && Half(c, y, x) && x.ep.Ok(c) && x.past.rdone < y.exec && WindowOpen(c, x)
    requires y.ep.tx.log[x.past.rdone].Pad?
    ensures var w := y.ep.tx.log[x.past.rdone];
            && w.ro < c.cap
            && var x' := PadReaped(c, x, w); Half(c, y, x') && x'.ep.Ok(c) && SameSender(x, x')
  {
    hide RxInv, TxInv, HeadPos, Lengths, Head.Advance, Tracker.Release, Cached, Rank, AdvanceHead, ReapPad;
    PadNotedKeeps(c, x, y);
    var w := y.ep.tx.log[x.past.rdone];
    PadReapedIs(c, x, w);
    HeadAdvanced(c, y.ep.tx.log, PadNoted(c, x, w), x.past.freed, ArrivePad(x.ep.rx).1);
    ReceiverForward(c, y, x, PadReaped(c, x, w));
  }

  lemma ReapsPlacement(c: Config, x: Node, y: Node)
    requires c.Valid() && Half(c, y, x) && x.ep.Ok(c) && x.past.rdone < y.exec
    requires Is(Item, y.ep.tx.log[x.past.rdone])
    ensures var w := y.ep.tx.log[x.past.rdone];
            && w.ro < c.cap
            && x.(ep := ReapRecv(c, x.ep, Arrives(w)), past := PastReap(x, w))
               == if w.Data? then DataReaped(c, x, w) else PadReaped(c, x, w)
  {
    DecodesPlacement(c, y, x);
    hide Half, ReapPad, ReapData, AfterPad;
  }

  /** A completed Read is the requester's business; its peer sees nothing. */
  lemma SkipForward(c: Config, x: Node, y: Node)
    requires c.Valid() && Half(c, y, x) && x.ep.Ok(c) && x.past.rdone < y.exec
    requires !Is(Item, y.ep.tx.log[x.past.rdone])
    ensures Half(c, y, x.(past := x.past.(rdone := x.past.rdone + 1)))
  {
    hide Mapped, Queued, Intact, TxInv, HeadPos, Lengths, Cached;
    SkipKeeps(y.ep.tx.log, x.ep.rx, x.past);
    SkipNote(c.cap, y.ep.tx.log, x.past.rdone, x.ep.head.lens, x.past.freed);
  }

  lemma RecvKeeps(c: Config, x: Node, y: Node)
    requires Inv(c, x, y) && x.past.rdone < y.exec
    requires Is(Item, y.ep.tx.log[x.past.rdone]) ==> WindowOpen(c, x)
    ensures var w := y.ep.tx.log[x.past.rdone];
            Inv(c, x.(ep := ReapRecv(c, x.ep, Arrives(w)), past := PastReap(x, w)), y)
  {
    InvShaped(c, x, y);
    var w := y.ep.tx.log[x.past.rdone];
    var x' := x.(ep := ReapRecv(c, x.ep, Arrives(w)), past := PastReap(x, w));
    if Is(Item, w) {
      hide Half, Lengths;
      ReapsPlacement(c, x, y);
      if w.Data? {
        DataForward(c, x, y);
      } else {
        PadForward(c, x, y);
      }
      SenderUnaffected(c, x, y, x');
    } else {
      SkipForward(c, x, y);
      hide Half;
      SenderUnaffected(c, x, y, x');
    }
  }

  lemma InvShaped(c: Config, x: Node, y: Node)
    requires Inv(c, x, y)
    ensures Shaped(c, x, y) && x.exec <= |x.ep.tx.log| && y.exec <= |y.ep.tx.log|
  {
  }

  ghost function Reposted(c: Config, x: Node, idx: nat): Node
    requires x.ep.Ok(c) && idx < |x.ep.rx.vmap| && x.ep.rx.vmap[idx].Some?
  {
    x.(ep := RepostRecv(c, x.ep, idx), past := AfterRepost(x.ep.rx, x.past, idx))
  }

  /** The message released, the head not yet advanced. */
  ghost function RepostNoted(c: Config, x: Node, idx: nat): Node
    requires x.ep.Ok(c) && idx < |x.ep.rx.vmap| && x.ep.rx.vmap[idx].Some?
  {
    x.(ep := x.ep.(rx := RecvSide.Repost(x.ep.rx, idx).0), past := AfterRepost(x.ep.rx, x.past, idx))
  }

  lemma RepostNotedKeeps(c: Config, x: Node, y: Node, idx: nat)
    requires c.Valid() && Half(c, y, x) && x.ep.Ok(c) && HandedOut(x.ep.rx, idx)
    ensures var x1 := RepostNoted(c, x, idx);
            && x1.ep.Ok(c) && x1.past.rdone <= y.exec
            && RxInv(c.maxOut, c.cap, y.ep.tx.log, y.exec, x1.ep.rx, x1.past)
            && x1.past.freed <= Rank(Item, y.ep.tx.log, x1.past.rdone)
  {
    hide Mapped, Queued, Intact, Tracked, TxInv, HeadPos, Lengths, HeadTrue, Cached, QueueBound, Tracker.Release, Rank;
    RecvSide.RepostKeeps(c.maxOut, c.cap, y.ep.tx.log, y.exec, x.ep.rx, x.past, idx);
  }

  lemma RepostForward(c: Config, x: Node, y: Node, idx: nat)
    requires c.Valid() && Half(c, y, x) && x.ep.Ok(c) && HandedOut(x.ep.rx, idx)
    ensures var x' := Reposted(c, x, idx); Half(c, y, x') && x'.ep.Ok(c) && SameSender(x, x')
  {
    RepostNotedKeeps(c, x, y, idx);
    hide RxInv, TxInv, HeadPos, Lengths, Head.Advance, Tracker.Release;
    HeadAdvanced(c, y.ep.tx.log, RepostNoted(c, x, idx), x.past.freed, RecvSide.Repost(x.ep.rx, idx).1);
    ReceiverForward(c, y, x, Reposted(c, x, idx));
  }

  lemma RepostStepKeeps(c: Config, x: Node, y: Node, idx: nat)
    requires Inv(c, x, y) && HandedOut(x.ep.rx, idx)
    ensures Shaped(c, x, y) && Inv(c, Reposted(c, x, idx), y)
  {
    InvShaped(c, x, y);
    hide Half, Reposted;
    RepostForward(c, x, y, idx);
    SenderUnaffected(c, x, y, Reposted(c, x, idx));
  }

  ghost function Took(x: Node, n: nat): Node
    requires n <= |x.ep.rx.stash|
  {
    x.(ep := x.ep.(rx := x.ep.rx.(stash := x.ep.rx.stash[n..])), past := x.past.(taken := x.past.taken + n))
  }

  lemma TakeStepKeeps(c: Config, x: Node, y: Node, n: nat)
    requires Inv(c, x, y) && n <= |x.ep.rx.stash|
    ensures Inv(c, Took(x, n), y)
  {
    InvShaped(c, x, y);
    TakeKeeps(c.maxOut, c.cap, y.ep.tx.log, y.exec, x.ep.rx, x.past, n);
    hide RxInv, TxInv, HeadPos, Lengths, Cached, QueueBound;
    SenderUnaffected(c, x, y, Took(x, n));
  }

  // ---------------------------------------------------------------------
  // Runs
  // ---------------------------------------------------------------------

  /** The step does not reap a ring message beyond the receiver's window. */
  ghost predicate Windowed(c: Config, x: Node, y: Node, s: Step) {
    s.RecvDone? && x.past.rdone < |y.ep.tx.log| && Is(Item, y.ep.tx.log[x.past.rdone]) ==> WindowOpen(c, x)
  }

  /** Every step within the window keeps the invariant. */
  lemma NextKeeps(c: Config, x: Node, y: Node, s: Step, x': Node, y': Node)
    requires Inv(c, x, y) && Next(c, x, y, s, x', y') && Windowed(c, x, y, s)
    ensures Inv(c, x', y')
  {
    hide Inv, SendGather, SentReaped, ReapRecv, RepostRecv, Carried, AfterRepost, PastReap;
    match s {
      case Send(data) => SendKeeps(c, x, y, data);
      case Execute => ExecuteKeeps(c, x, y, x', y');
      case SendDone => SendDoneKeeps(c, x, y);
      case RecvDone => RecvKeeps(c, x, y);
      case Repost(idx) => RepostStepKeeps(c, x, y, idx);
      case Take(n) => TakeStepKeeps(c, x, y, n);
    }
  }

  datatype Sys = Sys(a: Node, b: Node)

  datatype Act = Act(byA: bool, step: Step)

  function Start(c: Config): Sys
    requires c.cap > 0
  {
    var n := Node(ReadRing.Init(c), 0, 0, Past(0, 0, {}, 0), 0, 0);
    Sys(n, n)
  }

  ghost predicate SysNext(c: Config, s: Sys, act: Act, s': Sys) {
    && Shaped(c, s.a, s.b)
    && if act.byA then Next(c, s.a, s.b, act.step, s'.a, s'.b)
       else Next(c, s.b, s.a, act.step, s'.b, s'.a)
  }

  ghost predicate ActWindowed(c: Config, s: Sys, act: Act) {
    if act.byA then Windowed(c, s.a, s.b, act.step) else Windowed(c, s.b, s.a, act.step)
  }

  /** A run in which at most `maxOut` arrivals are ever unreleased. */
  ghost predicate IsRun(c: Config, states: seq<Sys>, acts: seq<Act>)
    requires c.cap > 0
  {
    && |states| == |acts| + 1
    && states[0] == Start(c)
    && forall i :: 0 <= i < |acts| ==>
         SysNext(c, states[i], acts[i], states[i + 1]) && ActWindowed(c, states[i], acts[i])
  }

  lemma StartInv(c: Config)
    requires c.Valid()
    ensures Inv(c, Start(c).a, Start(c).b)
  {
    var n := Start(c).a;
    assert n.ep.rx.tracker.Tracks(0, {});
    assert RxInv(c.maxOut, c.cap, [], 0, n.ep.rx, n.past);
  }

  lemma InvSymmetric(c: Config, x: Node, y: Node)
    requires Inv(c, x, y)
    ensures Inv(c, y, x)
  {
    hide Half;
  }

  lemma StepInv(c: Config, s: Sys, act: Act, s': Sys)
    requires Inv(c, s.a, s.b) && SysNext(c, s, act, s') && ActWindowed(c, s, act)
    ensures Inv(c, s'.a, s'.b)
  {
    hide Inv, Next, Shaped, Windowed;
    if act.byA {
      NextKeeps(c, s.a, s.b, act.step, s'.a, s'.b);
    } else {
      InvSymmetric(c, s.a, s.b);
      NextKeeps(c, s.b, s.a, act.step, s'.b, s'.a);
      InvSymmetric(c, s'.b, s'.a);
    }
  }

  lemma {:induction false} RunInv(c: Config, states: seq<Sys>, acts: seq<Act>, i: nat)
    requires c.Valid() && IsRun(c, states, acts) && i < |states|
    ensures Inv(c, states[i].a, states[i].b)
  {
    hide Inv, Next, Start, ActWindowed;
    if i == 0 {
      StartInv(c);
    } else {
      RunInv(c, states, acts, i - 1);
      assert SysNext(c, states[i - 1], acts[i - 1], states[i]);
      StepInv(c, states[i - 1], acts[i - 1], states[i]);
    }
  }

  /** What a user of the direction from `x` to `y` may rely on. */
  ghost predicate Dependable(c: Config, x: Node, y: Node) {
    && c.cap > 0 && !x.ep.dead && x.ep.Ok(c)
    && y.past.rdone <= |x.ep.tx.log| && x.sdone <= |x.ep.tx.log|
    // every held message reads back what was gathered
    && AllReadBack(x.ep.tx.log, y.past.rdone, y.ep.rx)
    // and exactly the reaped messages not yet reposted are held
    && HeldExactly(x.ep.tx.log, y.past, y.ep.rx)
    // the computed free space never exceeds the real one
    && x.ep.RemoteFree(c.cap) + (Pos(c.cap, x.ep.tx.log, |x.ep.tx.log|) - HeadPos(c.cap, x.ep.tx.log, y.past.freed))
       < c.cap
    // the published head is the end of the released prefix
    && y.ep.published == HeadPos(c.cap, x.ep.tx.log, y.past.freed) % c.cap
    // the send queue never overflows and the staging ring accounts for every byte
    && x.ep.SqUsed() == |x.ep.tx.log| - x.sdone <= c.SqCapacity()
    && x.ep.tx.ring.Used() == Freed(x.ep.tx.log, |x.ep.tx.log|) - Freed(x.ep.tx.log, x.sdone)
    && x.ep.tx.remoteTail == x.ep.tx.ring.tail
  }

  lemma InvDependable(c: Config, x: Node, y: Node)
    requires Inv(c, x, y)
    ensures Dependable(c, x, y)
  {
    FreeIsSafe(c, x, y);
    hide Mapped, Queued, Intact, Staged, WellPlaced, Tracked, AllReadBack, HeldExactly, Lengths, Cached, HeadPos, Pos, Rank;
    UsedIsOutstanding(c.cap, c.Bound(), x.ep.tx, x.sdone);
    AllReadsBack(c.maxOut, c.cap, x.ep.tx.log, x.exec, y.ep.rx, y.past);
    AllHeld(c.maxOut, c.cap, x.ep.tx.log, x.exec, y.ep.rx, y.past);
  }

  /**
    * Safety of every run within the window, for every release order and every
    * staleness of the cached head: no write lands on bytes the receiver has not
    * released, and the accounts balance, in both directions.
    */
  lemma ReadRingSafe(c: Config, states: seq<Sys>, acts: seq<Act>, i: nat)
    requires c.Valid() && IsRun(c, states, acts) && i < |states|
    ensures Dependable(c, states[i].a, states[i].b)
    ensures Dependable(c, states[i].b, states[i].a)
  {
    hide *;
    RunInv(c, states, acts, i);
    InvDependable(c, states[i].a, states[i].b);
    InvSymmetric(c, states[i].a, states[i].b);
    InvDependable(c, states[i].b, states[i].a);
  }
}
