/**
  * Two credit-ring endpoints over a reliable connection, as a state machine over
  * their operations and the work the connection carries out.
  */
module CreditProtocol {
  import opened RingBuffers
  import opened TransportCommon
  import opened WorkLog
  import opened SendSide
  import opened RecvSide
  import opened CreditRing

  /**
    * An endpoint, how much of its own log the connection has carried out and it
    * has reaped completions for, and the history of its receiving side.
    */
  datatype Node = Node(ep: Ep, exec: nat, sdone: nat, past: Past)

  datatype Step =
    | Send(data: seq<u8>)
    | Execute
    | SendDone
    | RecvDone
    | DrainDone
    | Flush
    | Repost(idx: nat)
    | Take(n: nat)

  /** The completion the receiver of an entry gets. */
  function Arrives(w: Wr): Wc {
    match w
    case Data(_, _, imm, _, _) => WriteImm(imm)
    case Pad(_, imm) => WriteImm(imm)
    case Credit(imm, _) => CreditImm(imm)
    case HeadRead => Unexpected
  }

  ghost function PastReap(x: Node, w: Wr): Past
    requires ShapeOk(x.ep.rx)
  {
    if w.Pad? then AfterPad(x.ep.rx, x.past) else x.past.(rdone := x.past.rdone + 1)
  }

  ghost predicate Shaped(c: Config, x: Node, y: Node) {
    c.Valid() && x.ep.Ok(c) && y.ep.Ok(c)
  }

  /** `x` (with peer `y`) takes step `s`, reaching `x'` and `y'`. */
  ghost predicate Next(c: Config, x: Node, y: Node, s: Step, x': Node, y': Node)
    requires Shaped(c, x, y)
  {
    match s
    case Send(data) =>
      y' == y && x' == x.(ep := SendGather(c, x.ep, data).0)
    case Execute =>
      && x.exec < |x.ep.tx.log|
      && x' == x.(exec := x.exec + 1)
      && Carried(x.ep.tx, x.ep.tx.log[x.exec], y, y')
    case SendDone =>
      && x.sdone < x.exec <= |x.ep.tx.log|
      && y' == y && x' == x.(ep := ReapSend(c, x.ep, WrId(x.ep.tx.log[x.sdone])), sdone := x.sdone + 1)
    case RecvDone =>
      && x.past.rdone < y.exec <= |y.ep.tx.log|
      && y' == y
      && x' == x.(ep := ReapRecv(c, x.ep, Arrives(y.ep.tx.log[x.past.rdone])),
                  past := PastReap(x, y.ep.tx.log[x.past.rdone]))
    case DrainDone =>
      && x.past.rdone < y.exec <= |y.ep.tx.log|
      && y' == y
      && x' == x.(ep := DrainRecv(c, x.ep, Arrives(y.ep.tx.log[x.past.rdone])),
                  past := PastReap(x, y.ep.tx.log[x.past.rdone]))
    case Flush =>
      y' == y && x' == x.(ep := FlushCredits(c, x.ep))
    case Repost(idx) =>
      && HandedOut(x.ep.rx, idx)
      && y' == y
      && x' == x.(ep := RepostRecv(c, x.ep, idx), past := AfterRepost(x.ep.rx, x.past, idx))
    case Take(n) =>
      && n <= |x.ep.rx.stash|
      && y' == y
      && x' == x.(ep := x.ep.(rx := x.ep.rx.(stash := x.ep.rx.stash[n..])),
                  past := x.past.(taken := x.past.taken + n))
  }

  /** The connection copies the staged bytes, as they are now, into the peer's ring. */
  ghost predicate Carried(tx: Tx, w: Wr, y: Node, y': Node) {
    if w.Data? then
      && w.lo + |w.msg| <= |tx.mem| && w.ro + |w.msg| <= |y.ep.rx.mem|
      && y' == y.(ep := y.ep.(rx := y.ep.rx.(mem :=
                  Land(y.ep.rx.mem, w, tx.mem[w.lo..w.lo + |w.msg|]))))
    else y' == y
  }

  // ---------------------------------------------------------------------
  // Invariant
  // ---------------------------------------------------------------------

  /** A credit update carries a larger absolute count than the one before, truncated to the wire format. */
  ghost predicate CreditAt(log: seq<Wr>, i: nat)
    requires i < |log|
  {
    log[i].Credit? ==> log[i].imm == Wire(log[i].total) && log[i].total > LastCredit(log, i)
  }

  ghost predicate CreditLog(log: seq<Wr>) {
    forall i: nat {:trigger CreditAt(log, i)} :: i < |log| ==> CreditAt(log, i)
  }

  /** What `y` has announced to `x`, and how much of it `x` has seen. */
  ghost predicate Announced(x: Node, y: Node) {
    && y.ep.localFreed == y.past.freed
    && y.ep.creditsSent == LastCredit(y.ep.tx.log, |y.ep.tx.log|) <= y.ep.localFreed
    && CreditLog(y.ep.tx.log)
    && x.past.rdone <= |y.ep.tx.log|
    && x.ep.freedReceived == Wire(LastCredit(y.ep.tx.log, x.past.rdone))
  }

  /**
    * Conservation: the credits at hand and the messages not covered by a
    * received count always add up to the budget.
    */
  ghost predicate Conserved(c: Config, x: Node, y: Node) {
    && x.past.rdone <= |y.ep.tx.log|
    && x.ep.credits + Rank(Item, x.ep.tx.log, |x.ep.tx.log|)
       == c.maxOut + LastCredit(y.ep.tx.log, x.past.rdone)
  }

  ghost predicate QueueBound(c: Config, x: Node) {
    && x.sdone <= x.exec <= |x.ep.tx.log|
    && x.ep.inFlight == |x.ep.tx.log| - x.sdone <= c.SqCapacity()
  }

  /** Everything about the direction from `x` to `y`. */
  ghost predicate Half(c: Config, x: Node, y: Node)
    requires c.Valid()
  {
    && x.ep.Ok(c) && !x.ep.dead
    && TxInv(c.cap, c.Bound(), x.ep.tx, x.sdone)
    && QueueBound(c, x)
    && RxInv(c.maxOut, c.cap, x.ep.tx.log, x.exec, y.ep.rx, y.past)
    && Announced(x, y)
    && Conserved(c, x, y)
  }

  ghost predicate Inv(c: Config, x: Node, y: Node) {
    c.Valid() && Half(c, x, y) && Half(c, y, x)
  }

  // ---------------------------------------------------------------------
  // What the invariant gives
  // ---------------------------------------------------------------------

  lemma {:induction false} CreditMono(log: seq<Wr>, i: nat, j: nat)
    requires i <= j <= |log| && CreditLog(log)
    ensures LastCredit(log, i) <= LastCredit(log, j)
    decreases j - i
  {
    if i < j {
      CreditMono(log, i, j - 1);
      assert CreditAt(log, j - 1);
    }
  }

  /** The sender never has more than a budget's worth of unfreed messages. */
  lemma WithinBudget(c: Config, x: Node, y: Node, i: nat)
    requires Announced(x, y) && Conserved(c, x, y) && i <= |x.ep.tx.log|
    ensures Rank(Item, x.ep.tx.log, i) <= y.past.freed + c.maxOut
    ensures LastCredit(y.ep.tx.log, x.past.rdone) <= y.past.freed
  {
    CreditMono(y.ep.tx.log, x.past.rdone, |y.ep.tx.log|);
    RankMono(Item, x.ep.tx.log, i, |x.ep.tx.log|);
  }

  /** The message about to be reaped is within the receiver's window. */
  lemma NextArrivalFits(c: Config, x: Node, y: Node)
    requires c.Valid() && Half(c, x, y) && y.past.rdone < x.exec
    requires Is(Item, x.ep.tx.log[y.past.rdone])
    ensures y.ep.rx.arrivals < y.past.freed + c.maxOut
  {
    hide Mapped, Queued, Intact, Staged, WellPlaced;
    WithinBudget(c, x, y, y.past.rdone + 1);
  }

  /** The message about to be written is within one lap of everything unreleased. */
  lemma NextWriteFits(c: Config, x: Node, y: Node)
    requires c.Valid() && c.RingFitsBudget() && WellPlaced(c.cap, c.Bound(), x.ep.tx.log)
    requires Announced(x, y) && Conserved(c, x, y) && x.exec < |x.ep.tx.log|
    ensures InWindow(c.cap, x.ep.tx.log, x.exec, y.past.freed)
  {
    var log := x.ep.tx.log;
    WithinBudget(c, x, y, x.exec + 1);
    ExtBound(c.cap, c.Bound(), log);
    forall i | 0 <= i < x.exec && log[i].Data? && Rank(Item, log, i) >= y.past.freed
      ensures Pos(c.cap, log, x.exec + 1) <= Pos(c.cap, log, i) + c.cap
    {
      hide *;
      PosBound(c.cap, c.Bound(), log, i, x.exec + 1);
      var n := Rank(Item, log, x.exec + 1) - Rank(Item, log, i);
      LapBound(n, c.maxOut, c.Bound(), c.cap);
    }
  }

  lemma LapBound(n: nat, budget: nat, bound: nat, cap: nat)
    requires n <= budget && budget * bound <= cap
    ensures n * bound <= cap
  {
    MulMono(n, budget, bound, bound);
  }

  /** A genuine update is never discarded, even across a wrap of the 32-bit count. */
  lemma CreditAccepted(c: Config, x: Node, y: Node)
    requires c.Valid() && Announced(x, y) && Conserved(c, x, y)
    requires y.past.freed <= Rank(Item, x.ep.tx.log, |x.ep.tx.log|)
    requires x.past.rdone < |y.ep.tx.log| && y.ep.tx.log[x.past.rdone].Credit?
    ensures var w := y.ep.tx.log[x.past.rdone];
            var got := LastCredit(y.ep.tx.log, x.past.rdone);
            && 0 < w.total - got <= c.maxOut && w.imm == Wire(w.total)
            && ApplyCredit(c, x.ep, w.imm)
               == x.ep.(credits := x.ep.credits + (w.total - got), freedReceived := w.imm)
  {
    CreditDelta(c, x, y);
    var w := y.ep.tx.log[x.past.rdone];
    var got := LastCredit(y.ep.tx.log, x.past.rdone);
    hide *;
    ApplyExact(c, x.ep, got, w.total - got);
  }

  /** An update announces something new, and no more than the budget. */
  lemma CreditDelta(c: Config, x: Node, y: Node)
    requires Announced(x, y) && Conserved(c, x, y)
    requires y.past.freed <= Rank(Item, x.ep.tx.log, |x.ep.tx.log|)
    requires x.past.rdone < |y.ep.tx.log| && y.ep.tx.log[x.past.rdone].Credit?
    ensures var w := y.ep.tx.log[x.past.rdone];
            var got := LastCredit(y.ep.tx.log, x.past.rdone);
            && 0 < w.total - got <= c.maxOut
            && w.imm == Wire(got + (w.total - got)) && x.ep.freedReceived == Wire(got)
  {
    hide Wire, Rank;
    assert CreditAt(y.ep.tx.log, x.past.rdone);
    CreditMono(y.ep.tx.log, x.past.rdone + 1, |y.ep.tx.log|);
  }

  lemma ApplyExact(c: Config, ep: Ep, got: nat, delta: nat)
    requires c.Valid() && 0 < delta <= c.maxOut && ep.freedReceived == Wire(got)
    ensures ApplyCredit(c, ep, Wire(got + delta))
            == ep.(credits := ep.credits + delta, freedReceived := Wire(got + delta))
  {
    WrappedDelta(got, delta);
  }

  /** Subtracting wrapped counts recovers a difference below the wrap. */
  lemma WrappedDelta(got: nat, delta: nat)
    requires delta < U32
    ensures (Wire(Wire(got + delta)) + U32 - Wire(Wire(got))) % U32 == delta
  {
  }

  // ---------------------------------------------------------------------
  // Appending to a log
  // ---------------------------------------------------------------------

  lemma {:induction false} LastCreditTail(log: seq<Wr>, more: seq<Wr>)
    requires forall j :: 0 <= j < |more| ==> !more[j].Credit?
    ensures LastCredit(log + more, |log + more|) == LastCredit(log, |log|)
  {
    if more == [] {
      assert log + more == log;
    } else {
      var init := more[..|more| - 1];
      assert log + more == log + init + [more[|more| - 1]];
      LastCreditAppend(log + init, [more[|more| - 1]], |log + init|);
      LastCreditTail(log, init);
    }
  }

  lemma CreditLogGrows(log: seq<Wr>, more: seq<Wr>)
    requires CreditLog(log) && forall j :: 0 <= j < |more| ==> !more[j].Credit?
    ensures CreditLog(log + more)
  {
    forall i: nat | i < |log + more|
      ensures CreditAt(log + more, i)
    {
      if i < |log| {
        LastCreditAppend(log, more, i);
        assert CreditAt(log, i);
      }
    }
  }

  /** The peer's view of `x` when `x` posts entries other than credit updates. */
  lemma PeerViewGrows(c: Config, y: Node, x: Node, x': Node, more: seq<Wr>)
    requires Announced(y, x) && Conserved(c, y, x)
    requires x'.ep.tx.log == x.ep.tx.log + more && forall j :: 0 <= j < |more| ==> !more[j].Credit?
    requires x'.past == x.past
    requires x'.ep.creditsSent == x.ep.creditsSent && x'.ep.localFreed == x.ep.localFreed
    ensures Announced(y, x') && Conserved(c, y, x')
  {
    LastCreditTail(x.ep.tx.log, more);
    CreditLogGrows(x.ep.tx.log, more);
    LastCreditAppend(x.ep.tx.log, more, y.past.rdone);
  }

  /** The peer's view when `x` posts a credit update. */
  lemma PeerViewCredit(c: Config, y: Node, x: Node, x': Node)
    requires Announced(y, x) && Conserved(c, y, x) && x.ep.localFreed > x.ep.creditsSent
    requires x'.ep.tx.log == x.ep.tx.log + [Credit(Wire(x.ep.localFreed), x.ep.localFreed)]
    requires x'.past == x.past
    requires x'.ep.creditsSent == x'.ep.localFreed == x.ep.localFreed
    ensures Announced(y, x') && Conserved(c, y, x')
  {
    var w := Credit(Wire(x.ep.localFreed), x.ep.localFreed);
    var log := x.ep.tx.log;
    LastCreditAppend(log, [w], y.past.rdone);
    LastCreditAppend(log, [w], |log|);
    forall i: nat | i < |log + [w]|
      ensures CreditAt(log + [w], i)
    {
      LastCreditAppend(log, [w], i);
      if i < |log| {
        assert CreditAt(log, i);
      }
    }
  }

  // ---------------------------------------------------------------------
  // Each step keeps the invariant
  // ---------------------------------------------------------------------

  /** A reservation that succeeds is for a message within the bound. */
  lemma GrantedWithinBound(c: Config, x: Node, total: nat)
    requires c.Valid() && x.ep.Ok(c) && TxInv(c.cap, c.Bound(), x.ep.tx, x.sdone)
    requires x.ep.tx.ring.Reserve(SendLen(c, total)).Some?
    ensures 0 < SendLen(c, total) <= c.Bound()
    ensures SendLen(c, total) <= total
  {
    GrantPlaced(c.cap, x.ep.tx, x.sdone, SendLen(c, total));
  }

  lemma PostStep(c: Config, x: Node, y: Node, data: seq<u8>)
    requires Inv(c, x, y)
    requires SendGather(c, x.ep, data).0.tx != x.ep.tx
    ensures Inv(c, x.(ep := SendGather(c, x.ep, data).0), y)
  {
    hide Mapped, Queued, Intact, Staged, WellPlaced;
    var len := SendLen(c, |data|);
    var g := x.ep.tx.ring.Reserve(len).value;
    if g.padding > 0 {
      RollbackRestores(x.ep.tx.ring, len);
    }
    var x' := x.(ep := SendGather(c, x.ep, data).0);
    GrantedWithinBound(c, x, |data|);
    PostKeeps(c.cap, c.Bound(), x.ep.tx, x.sdone, data[..len]);
    var more := PostAppends(c.cap, x.ep.tx, g, data[..len]);
    LogGrows(c.maxOut, c.cap, x.ep.tx.log, more, x.exec, y.ep.rx, y.past);
    PeerViewGrows(c, y, x, x', more);
  }

  /** Sending, including the refusal after a rolled-back reservation. */
  lemma SendKeeps(c: Config, x: Node, y: Node, data: seq<u8>)
    requires Inv(c, x, y)
    ensures Inv(c, x.(ep := SendGather(c, x.ep, data).0), y)
  {
    if SendGather(c, x.ep, data).0.tx != x.ep.tx {
      PostStep(c, x, y, data);
    } else {
      SendUnchanged(c, x, data);
    }
  }

  /** A send that posts nothing changes nothing. */
  lemma SendUnchanged(c: Config, x: Node, data: seq<u8>)
    requires c.Valid() && x.ep.Ok(c)
    requires SendGather(c, x.ep, data).0.tx == x.ep.tx
    ensures SendGather(c, x.ep, data).0 == x.ep
  {
    hide Ring.Reserve, Ring.Rollback, Post;
    var len := SendLen(c, |data|);
    GrantInBounds(x.ep.tx.ring, len);
    if x.ep.tx.ring.Reserve(len).Some? {
      var more := PostAppends(c.cap, x.ep.tx, x.ep.tx.ring.Reserve(len).value, data[..len]);
    }
  }

  /** What the connection copies is the message as gathered: staging has not changed. */
  lemma CarriesMessage(tx: Tx, sdone: nat, exec: nat, y: Node, y': Node)
    requires sdone <= exec < |tx.log| && Staged(tx, sdone)
    requires Carried(tx, tx.log[exec], y, y')
    ensures tx.log[exec].Data? ==> tx.log[exec].ro + |tx.log[exec].msg| <= |y.ep.rx.mem|
    ensures y' == y.(ep := y.ep.(rx := y.ep.rx.(mem :=
                  Land(y.ep.rx.mem, tx.log[exec], if tx.log[exec].Data? then tx.log[exec].msg else []))))
  {
  }

  lemma ExecuteForward(c: Config, x: Node, y: Node, y': Node)
    requires c.Valid() && Half(c, x, y) && x.exec < |x.ep.tx.log|
    requires InWindow(c.cap, x.ep.tx.log, x.exec, y.past.freed)
    requires Carried(x.ep.tx, x.ep.tx.log[x.exec], y, y')
    ensures Half(c, x.(exec := x.exec + 1), y')
    ensures |y'.ep.rx.mem| == |y.ep.rx.mem| && y' == y.(ep := y.ep.(rx := y.ep.rx.(mem := y'.ep.rx.mem)))
  {
    hide Mapped, Queued, Intact, Staged, WellPlaced, Carried, InWindow, Tracked;
    LandKeeps(c.cap, c.Bound(), x.ep.tx.log, x.exec, y.ep.rx.mem, y.past.freed);
    CarriesMessage(x.ep.tx, x.sdone, x.exec, y, y');
    RxOfExecuted(c, x, y, y');
  }

  lemma ExecuteKeeps(c: Config, x: Node, y: Node, y': Node)
    requires Inv(c, x, y) && x.exec < |x.ep.tx.log|
    requires InWindow(c.cap, x.ep.tx.log, x.exec, y.past.freed)
    requires Carried(x.ep.tx, x.ep.tx.log[x.exec], y, y')
    ensures Inv(c, x.(exec := x.exec + 1), y')
  {
    hide Mapped, Queued, Intact, Staged, WellPlaced, Carried, Tracked, Accounts, InWindow;
    ExecuteForward(c, x, y, y');
  }

  lemma RxOfExecuted(c: Config, x: Node, y: Node, y': Node)
    requires RxInv(c.maxOut, c.cap, x.ep.tx.log, x.exec, y.ep.rx, y.past) && x.exec < |x.ep.tx.log|
    requires |y'.ep.rx.mem| == |y.ep.rx.mem|
    requires y' == y.(ep := y.ep.(rx := y.ep.rx.(mem := y'.ep.rx.mem)))
    requires Intact(x.ep.tx.log, x.exec + 1, y'.ep.rx.mem, y.past.freed)
    ensures RxInv(c.maxOut, c.cap, x.ep.tx.log, x.exec + 1, y'.ep.rx, y'.past)
  {
  }

  /** The completion id alone releases exactly what the entry had staged. */
  lemma ReapsEntry(c: Config, x: Node)
    requires c.Valid() && x.ep.Ok(c) && x.sdone < |x.ep.tx.log| && x.ep.inFlight > 0
    requires Placed(c.cap, c.Bound(), x.ep.tx.log, x.sdone)
    ensures ReapSend(c, x.ep, WrId(x.ep.tx.log[x.sdone]))
            == x.ep.(tx := Complete(x.ep.tx, x.sdone), inFlight := x.ep.inFlight - 1)
  {
    hide Pos;
    var w := x.ep.tx.log[x.sdone];
    if w.Credit? {
      IdHasFlag(w.total % CREDIT_FLAG);
    }
  }

  lemma IdHasFlag(low: nat)
    requires low < CREDIT_FLAG
    ensures (CREDIT_FLAG + low) / CREDIT_FLAG % 2 == 1
  {
  }

  ghost function SentReaped(x: Node): Node
    requires x.sdone < |x.ep.tx.log| && x.ep.tx.ring.Valid() && x.ep.inFlight > 0
  {
    x.(ep := x.ep.(tx := Complete(x.ep.tx, x.sdone), inFlight := x.ep.inFlight - 1), sdone := x.sdone + 1)
  }

  lemma SentReapedKeeps(c: Config, x: Node, y: Node)
    requires Inv(c, x, y) && x.sdone < x.exec
    ensures Inv(c, SentReaped(x), y)
  {
    hide Mapped, Queued, Intact, Staged, WellPlaced, Tracked;
    CompleteKeeps(c.cap, c.Bound(), x.ep.tx, x.sdone);
  }

  lemma SendDoneReady(c: Config, x: Node, y: Node)
    requires Inv(c, x, y) && x.sdone < x.exec
    ensures Shaped(c, x, y) && x.sdone < |x.ep.tx.log| && x.ep.inFlight > 0
    ensures Placed(c.cap, c.Bound(), x.ep.tx.log, x.sdone)
  {
  }

  lemma SendDoneKeeps(c: Config, x: Node, y: Node)
    requires Inv(c, x, y) && x.sdone < x.exec
    ensures Inv(c, x.(ep := ReapSend(c, x.ep, WrId(x.ep.tx.log[x.sdone])), sdone := x.sdone + 1), y)
  {
    SendDoneReady(c, x, y);
    assert SentReaped(x).ep == x.ep.(tx := Complete(x.ep.tx, x.sdone), inFlight := x.ep.inFlight - 1);
    assert SentReaped(x) == x.(ep := SentReaped(x).ep, sdone := x.sdone + 1);
    hide *;
    ReapsEntry(c, x);
    SentReapedKeeps(c, x, y);
  }

  /** Both directions after a credit update is posted. */
  lemma FlushHalves(c: Config, x: Node, y: Node)
    requires c.Valid() && Half(c, x, y) && Half(c, y, x)
    requires x.ep.localFreed > x.ep.creditsSent && x.ep.inFlight < c.SqCapacity()
    ensures Half(c, x.(ep := FlushCredits(c, x.ep)), y)
    ensures Half(c, y, x.(ep := FlushCredits(c, x.ep)))
  {
    hide Mapped, Queued, Intact, Staged, WellPlaced, Tracked, Accounts, CreditLog;
    var x' := x.(ep := FlushCredits(c, x.ep));
    var w := Credit(Wire(x.ep.localFreed), x.ep.localFreed);
    AppendKeeps(c.cap, c.Bound(), x.ep.tx, x.sdone, w);
    LogGrows(c.maxOut, c.cap, x.ep.tx.log, [w], x.exec, y.ep.rx, y.past);
    RankAppend(Item, x.ep.tx.log, [w], |x.ep.tx.log|);
    PeerViewCredit(c, y, x, x');
  }

  lemma FlushKeeps(c: Config, x: Node, y: Node)
    requires Inv(c, x, y)
    ensures Inv(c, x.(ep := FlushCredits(c, x.ep)), y)
  {
    hide Half;
    if x.ep.localFreed > x.ep.creditsSent && x.ep.inFlight < c.SqCapacity() {
      FlushHalves(c, x, y);
    }
  }

  /** The receiver decodes exactly the placement the sender chose. */
  lemma DecodesPlacement(c: Config, x: Node, y: Node)
    requires c.Valid() && Half(c, x, y) && y.past.rdone < x.exec
    requires Is(Item, x.ep.tx.log[y.past.rdone])
    ensures var w := x.ep.tx.log[y.past.rdone];
            && DecodeImm(w.imm) == (w.ro, if w.Data? then |w.msg| else 0)
            && w.ro < c.cap && (w.Data? ==> 0 < |w.msg| && w.ro + |w.msg| <= c.cap)
  {
    var w := x.ep.tx.log[y.past.rdone];
    assert Placed(c.cap, c.Bound(), x.ep.tx.log, y.past.rdone);
    ImmRoundTrip(w.ro, if w.Data? then |w.msg| else 0);
  }

  lemma RecvDataKeeps(c: Config, x: Node, y: Node)
    requires Inv(c, x, y) && x.past.rdone < y.exec && y.ep.tx.log[x.past.rdone].Data?
    ensures var w := y.ep.tx.log[x.past.rdone];
            && ArriveData(x.ep.rx, w.ro, |w.msg|).Some?
            && Inv(c, x.(ep := x.ep.(rx := ArriveData(x.ep.rx, w.ro, |w.msg|).value),
                         past := x.past.(rdone := x.past.rdone + 1)), y)
  {
    hide Mapped, Queued, Intact, Staged, WellPlaced;
    NextArrivalFits(c, y, x);
    ArriveDataKeeps(c.maxOut, c.cap, y.ep.tx.log, y.exec, x.ep.rx, x.past);
  }

  /** The state after padding is reaped, before the freed count is announced. */
  ghost function PadReaped(x: Node): Node
    requires ShapeOk(x.ep.rx)
  {
    var (rx, n) := ArrivePad(x.ep.rx);
    x.(ep := x.ep.(rx := rx, localFreed := x.ep.localFreed + n), past := AfterPad(x.ep.rx, x.past))
  }

  /** Any change of the receiving half that its own invariant allows. */
  lemma ReceiverUpdate(c: Config, y: Node, x: Node, x': Node)
    requires c.Valid() && Half(c, y, x)
    requires RxInv(c.maxOut, c.cap, y.ep.tx.log, y.exec, x'.ep.rx, x'.past)
    requires x' == x.(ep := x.ep.(rx := x'.ep.rx, localFreed := x'.ep.localFreed), past := x'.past)
    requires x.ep.localFreed <= x'.ep.localFreed == x'.past.freed
    ensures Half(c, y, x')
  {
  }

  lemma PadReceived(c: Config, x: Node, y: Node)
    requires c.Valid() && Half(c, y, x) && x.past.rdone < y.exec && y.ep.tx.log[x.past.rdone].Pad?
    ensures Half(c, y, PadReaped(x))
  {
    hide Mapped, Queued, Intact, Staged, WellPlaced;
    NextArrivalFits(c, y, x);
    ArrivePadKeeps(c.maxOut, c.cap, y.ep.tx.log, y.exec, x.ep.rx, x.past);
    ReceiverUpdate(c, y, x, PadReaped(x));
  }

  lemma PadCoreKeeps(c: Config, x: Node, y: Node)
    requires Inv(c, x, y) && x.past.rdone < y.exec && y.ep.tx.log[x.past.rdone].Pad?
    ensures Inv(c, PadReaped(x), y)
  {
    hide Mapped, Queued, Intact, Staged, WellPlaced;
    PadReceived(c, x, y);
    assert Half(c, PadReaped(x), y);
  }

  lemma InvShaped(c: Config, x: Node, y: Node)
    requires Inv(c, x, y)
    ensures Shaped(c, x, y)
  {
  }

  /** Announcing after a release: posted now, or left for a later flush. */
  ghost function Announce(c: Config, x: Node, n: nat): Node {
    if n > 0 then x.(ep := FlushCredits(c, x.ep)) else x
  }

  lemma AnnounceKeeps(c: Config, x: Node, y: Node, n: nat)
    requires Inv(c, x, y)
    ensures Inv(c, Announce(c, x, n), y)
  {
    hide Inv, FlushCredits;
    FlushKeeps(c, x, y);
  }

  lemma RecvPadIs(c: Config, x: Node)
    requires x.ep.Ok(c)
    ensures x.(ep := ReapPad(c, x.ep), past := AfterPad(x.ep.rx, x.past))
            == Announce(c, PadReaped(x), ArrivePad(x.ep.rx).1)
  {
  }

  lemma RecvPadKeeps(c: Config, x: Node, y: Node)
    requires Inv(c, x, y) && x.past.rdone < y.exec && y.ep.tx.log[x.past.rdone].Pad?
    ensures Inv(c, x.(ep := ReapPad(c, x.ep), past := AfterPad(x.ep.rx, x.past)), y)
  {
    InvShaped(c, x, y);
    hide *;
    RecvPadIs(c, x);
    PadCoreKeeps(c, x, y);
    AnnounceKeeps(c, PadReaped(x), y, ArrivePad(x.ep.rx).1);
  }

  /** The freed prefix is made of messages the sender posted. */
  lemma FreedWerePosted(c: Config, x: Node, y: Node)
    requires c.Valid() && Half(c, x, y)
    ensures y.past.freed <= Rank(Item, x.ep.tx.log, |x.ep.tx.log|)
  {
    hide Mapped, Queued, Intact, Staged, WellPlaced, Tracked, Accounts;
    RankMono(Item, x.ep.tx.log, y.past.rdone, |x.ep.tx.log|);
  }

  lemma RecvCreditKeeps(c: Config, x: Node, y: Node)
    requires Inv(c, x, y) && x.past.rdone < y.exec && y.ep.tx.log[x.past.rdone].Credit?
    ensures Inv(c, x.(ep := ApplyCredit(c, x.ep, y.ep.tx.log[x.past.rdone].imm),
                      past := x.past.(rdone := x.past.rdone + 1)), y)
  {
    hide Mapped, Queued, Intact, Staged, WellPlaced, ApplyCredit, CreditLog;
    FreedWerePosted(c, x, y);
    CreditAccepted(c, x, y);
    SkipKeeps(y.ep.tx.log, x.ep.rx, x.past);
  }

  /** On an honest peer's entries the reader's loop and the inline drain agree. */
  lemma ReapIsDrain(c: Config, x: Node, y: Node)
    requires Inv(c, x, y) && x.past.rdone < y.exec
    ensures var w := y.ep.tx.log[x.past.rdone];
            && ReapRecv(c, x.ep, Arrives(w)) == DrainRecv(c, x.ep, Arrives(w))
            && ReapRecv(c, x.ep, Arrives(w)) ==
               match w
               case Data(_, ro, _, _, msg) =>
                 if ArriveData(x.ep.rx, ro, |msg|).Some?
                 then x.ep.(rx := ArriveData(x.ep.rx, ro, |msg|).value) else x.ep
               case Pad(_, _) => ReapPad(c, x.ep)
               case Credit(imm, _) => ApplyCredit(c, x.ep, imm)
               case HeadRead => x.ep
  {
    var w := y.ep.tx.log[x.past.rdone];
    if Is(Item, w) {
      DecodesPlacement(c, y, x);
      NextArrivalFits(c, y, x);
      if w.Data? {
        ArriveDataKeeps(c.maxOut, c.cap, y.ep.tx.log, y.exec, x.ep.rx, x.past);
      }
    }
  }

  /** Reaping, by the reader's loop or by the sender's inline drain. */
  lemma RecvKeeps(c: Config, x: Node, y: Node)
    requires Inv(c, x, y) && x.past.rdone < y.exec
    ensures var w := y.ep.tx.log[x.past.rdone];
            && ReapRecv(c, x.ep, Arrives(w)) == DrainRecv(c, x.ep, Arrives(w))
            && Inv(c, x.(ep := ReapRecv(c, x.ep, Arrives(w)), past := PastReap(x, w)), y)
  {
    InvShaped(c, x, y);
    InvLogs(c, x, y);
    var w := y.ep.tx.log[x.past.rdone];
    assert PastReap(x, w) == if w.Pad? then AfterPad(x.ep.rx, x.past) else x.past.(rdone := x.past.rdone + 1);
    hide *;
    ReapIsDrain(c, x, y);
    match w {
      case Data(_, _, _, _, _) => RecvDataKeeps(c, x, y);
      case Pad(_, _) => RecvPadKeeps(c, x, y);
      case Credit(_, _) => RecvCreditKeeps(c, x, y);
      case HeadRead => RecvOtherKeeps(c, x, y);
    }
  }

  lemma InvLogs(c: Config, x: Node, y: Node)
    requires Inv(c, x, y)
    ensures x.exec <= |x.ep.tx.log| && y.exec <= |y.ep.tx.log|
  {
  }

  lemma RecvOtherKeeps(c: Config, x: Node, y: Node)
    requires Inv(c, x, y) && x.past.rdone < y.exec && y.ep.tx.log[x.past.rdone].HeadRead?
    ensures Inv(c, x.(past := x.past.(rdone := x.past.rdone + 1)), y)
  {
    hide Mapped, Queued, Intact, Staged, WellPlaced;
    SkipKeeps(y.ep.tx.log, x.ep.rx, x.past);
  }

  /** The state after a repost, before the freed count is announced. */
  ghost function Reposted(x: Node, idx: nat): Node
    requires ShapeOk(x.ep.rx) && idx < |x.ep.rx.vmap| && x.ep.rx.vmap[idx].Some?
  {
    var (rx, n) := RecvSide.Repost(x.ep.rx, idx);
    x.(ep := x.ep.(rx := rx, localFreed := x.ep.localFreed + n), past := AfterRepost(x.ep.rx, x.past, idx))
  }

  lemma RepostCoreKeeps(c: Config, x: Node, y: Node, idx: nat)
    requires Inv(c, x, y) && HandedOut(x.ep.rx, idx)
    ensures Inv(c, Reposted(x, idx), y)
  {
    hide Mapped, Queued, Intact, Staged, WellPlaced;
    RecvSide.RepostKeeps(c.maxOut, c.cap, y.ep.tx.log, y.exec, x.ep.rx, x.past, idx);
    ReceiverUpdate(c, y, x, Reposted(x, idx));
    assert Half(c, Reposted(x, idx), y);
  }

  lemma RepostIs(c: Config, x: Node, idx: nat)
    requires x.ep.Ok(c) && HandedOut(x.ep.rx, idx)
    ensures x.(ep := RepostRecv(c, x.ep, idx), past := AfterRepost(x.ep.rx, x.past, idx))
            == Announce(c, Reposted(x, idx), RecvSide.Repost(x.ep.rx, idx).1)
  {
  }

  lemma RepostStepKeeps(c: Config, x: Node, y: Node, idx: nat)
    requires Inv(c, x, y) && HandedOut(x.ep.rx, idx)
    ensures Inv(c, x.(ep := RepostRecv(c, x.ep, idx), past := AfterRepost(x.ep.rx, x.past, idx)), y)
  {
    InvShaped(c, x, y);
    var n := RecvSide.Repost(x.ep.rx, idx).1;
    hide *;
    RepostIs(c, x, idx);
    RepostCoreKeeps(c, x, y, idx);
    AnnounceKeeps(c, Reposted(x, idx), y, n);
  }

  lemma TakeStepKeeps(c: Config, x: Node, y: Node, n: nat)
    requires Inv(c, x, y) && n <= |x.ep.rx.stash|
    ensures Inv(c, x.(ep := x.ep.(rx := x.ep.rx.(stash := x.ep.rx.stash[n..])),
                      past := x.past.(taken := x.past.taken + n)), y)
  {
    hide Mapped, Queued, Intact, Staged, WellPlaced;
    TakeKeeps(c.maxOut, c.cap, y.ep.tx.log, y.exec, x.ep.rx, x.past, n);
  }

  /** The step writes nothing more than a lap ahead of an unreleased message. */
  ghost predicate Spaced(c: Config, x: Node, y: Node, s: Step) {
    s.Execute? && x.exec < |x.ep.tx.log| ==> InWindow(c.cap, x.ep.tx.log, x.exec, y.past.freed)
  }

  /** When the budget fits the ring, no step ever does. */
  lemma BudgetSpaces(c: Config, x: Node, y: Node, s: Step)
    requires Inv(c, x, y) && c.RingFitsBudget()
    ensures Spaced(c, x, y, s)
  {
    hide Mapped, Queued, Intact, Staged, Tracked, Accounts, InWindow, WellPlaced;
    if s.Execute? && x.exec < |x.ep.tx.log| {
      NextWriteFits(c, x, y);
    }
  }

  /** Every such step of either endpoint keeps the invariant. */
  lemma NextKeeps(c: Config, x: Node, y: Node, s: Step, x': Node, y': Node)
    requires Inv(c, x, y) && Next(c, x, y, s, x', y') && Spaced(c, x, y, s)
    ensures Inv(c, x', y')
  {
    hide Inv, InWindow, SendGather, ReapSend, ReapRecv, DrainRecv, FlushCredits, RepostRecv;
    match s {
      case Send(data) => SendKeeps(c, x, y, data);
      case Execute => ExecuteKeeps(c, x, y, y');
      case SendDone => SendDoneKeeps(c, x, y);
      case RecvDone => RecvKeeps(c, x, y);
      case DrainDone => RecvKeeps(c, x, y);
      case Flush => FlushKeeps(c, x, y);
      case Repost(idx) => RepostStepKeeps(c, x, y, idx);
      case Take(n) => TakeStepKeeps(c, x, y, n);
    }
  }

  // ---------------------------------------------------------------------
  // Runs
  // ---------------------------------------------------------------------

  datatype Sys = Sys(a: Node, b: Node)

  /** A step and the endpoint taking it. */
  datatype Act = Act(byA: bool, step: Step)

  function Start(c: Config): Sys
    requires c.cap > 0
  {
    var n := Node(CreditRing.Init(c), 0, 0, Past(0, 0, {}, 0));
    Sys(n, n)
  }

  ghost predicate SysNext(c: Config, s: Sys, act: Act, s': Sys) {
    && Shaped(c, s.a, s.b)
    && if act.byA then Next(c, s.a, s.b, act.step, s'.a, s'.b)
       else Next(c, s.b, s.a, act.step, s'.b, s'.a)
  }

  ghost predicate IsRun(c: Config, states: seq<Sys>, acts: seq<Act>)
    requires c.cap > 0
  {
    && |states| == |acts| + 1
    && states[0] == Start(c)
    && forall i :: 0 <= i < |acts| ==> SysNext(c, states[i], acts[i], states[i + 1])
  }

  lemma StartInv(c: Config)
    requires c.Valid()
    ensures Inv(c, Start(c).a, Start(c).b)
  {
    var n := Start(c).a;
    assert n.ep.rx.tracker.Tracks(0, {});
    assert RxInv(c.maxOut, c.cap, [], 0, n.ep.rx, n.past);
  }

  lemma {:induction false} RunInv(c: Config, states: seq<Sys>, acts: seq<Act>, i: nat)
    requires c.Valid() && c.RingFitsBudget() && IsRun(c, states, acts) && i < |states|
    ensures Inv(c, states[i].a, states[i].b)
  {
    hide Inv, Next, Start, Spaced;
    if i == 0 {
      StartInv(c);
    } else {
      RunInv(c, states, acts, i - 1);
      assert SysNext(c, states[i - 1], acts[i - 1], states[i]);
      InvSymmetric(c, states[i - 1].a, states[i - 1].b);
      BudgetSpaces(c, states[i - 1].a, states[i - 1].b, acts[i - 1].step);
      BudgetSpaces(c, states[i - 1].b, states[i - 1].a, acts[i - 1].step);
      StepInv(c, states[i - 1], acts[i - 1], states[i]);
    }
  }

  lemma InvSymmetric(c: Config, x: Node, y: Node)
    requires Inv(c, x, y)
    ensures Inv(c, y, x)
  {
    hide Half;
  }

  ghost predicate ActSpaced(c: Config, s: Sys, act: Act) {
    if act.byA then Spaced(c, s.a, s.b, act.step) else Spaced(c, s.b, s.a, act.step)
  }

  lemma StepInv(c: Config, s: Sys, act: Act, s': Sys)
    requires Inv(c, s.a, s.b) && SysNext(c, s, act, s') && ActSpaced(c, s, act)
    ensures Inv(c, s'.a, s'.b)
  {
    hide Inv, Next, Shaped, Spaced;
    if act.byA {
      NextKeeps(c, s.a, s.b, act.step, s'.a, s'.b);
    } else {
      InvSymmetric(c, s.a, s.b);
      NextKeeps(c, s.b, s.a, act.step, s'.b, s'.a);
      InvSymmetric(c, s'.b, s'.a);
    }
  }

  /** What a user of the direction from `x` to `y` may rely on. */
  ghost predicate Dependable(c: Config, x: Node, y: Node) {
    && !x.ep.dead && x.ep.Ok(c)
    && y.past.rdone <= |x.ep.tx.log| && x.past.rdone <= |y.ep.tx.log|
    // every held message reads back what was gathered
    && AllReadBack(x.ep.tx.log, y.past.rdone, y.ep.rx)
    // and exactly the reaped messages not yet reposted are held
    && HeldExactly(x.ep.tx.log, y.past, y.ep.rx)
    // credits are conserved
    && x.ep.credits + (Rank(Item, x.ep.tx.log, |x.ep.tx.log|) - LastCredit(y.ep.tx.log, x.past.rdone)) == c.maxOut
    // the send queue never overflows and the staging ring accounts for every byte
    && x.sdone <= |x.ep.tx.log|
    && x.ep.inFlight == |x.ep.tx.log| - x.sdone <= c.SqCapacity()
    && x.ep.tx.ring.Used() == Freed(x.ep.tx.log, |x.ep.tx.log|) - Freed(x.ep.tx.log, x.sdone)
    && x.ep.tx.remoteTail == x.ep.tx.ring.tail
  }

  lemma InvDependable(c: Config, x: Node, y: Node)
    requires Inv(c, x, y)
    ensures Dependable(c, x, y)
  {
    hide Mapped, Queued, Intact, Staged, WellPlaced, Tracked, AllReadBack, HeldExactly, CreditLog;
    UsedIsOutstanding(c.cap, c.Bound(), x.ep.tx, x.sdone);
    AllReadsBack(c.maxOut, c.cap, x.ep.tx.log, x.exec, y.ep.rx, y.past);
    AllHeld(c.maxOut, c.cap, x.ep.tx.log, x.exec, y.ep.rx, y.past);
  }

  /**
    * Safety of every run, for every release order and every interleaving: as
    * long as the budget fits the ring, neither endpoint is ever marked dead, no
    * message is overwritten before it is reposted, and the credit, queue and
    * staging accounts balance, in both directions.
    */
  lemma CreditRingSafe(c: Config, states: seq<Sys>, acts: seq<Act>, i: nat)
    requires c.Valid() && c.RingFitsBudget() && IsRun(c, states, acts) && i < |states|
    ensures Dependable(c, states[i].a, states[i].b)
    ensures Dependable(c, states[i].b, states[i].a)
  {
    hide *;
    RunInv(c, states, acts, i);
    InvDependable(c, states[i].a, states[i].b);
    InvSymmetric(c, states[i].a, states[i].b);
    InvDependable(c, states[i].b, states[i].a);
  }

  /** The connection can always carry out the next entry. */
  lemma ExecuteEnabled(c: Config, x: Node, y: Node) returns (y': Node)
    requires Inv(c, x, y) && x.exec < |x.ep.tx.log|
    ensures Carried(x.ep.tx, x.ep.tx.log[x.exec], y, y')
  {
    var w := x.ep.tx.log[x.exec];
    assert Placed(c.cap, c.Bound(), x.ep.tx.log, x.exec);
    if w.Data? {
      y' := y.(ep := y.ep.(rx := y.ep.rx.(mem := Land(y.ep.rx.mem, w, x.ep.tx.mem[w.lo..w.lo + |w.msg|]))));
    } else {
      y' := y;
    }
  }
}
