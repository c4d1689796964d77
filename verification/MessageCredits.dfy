/**
  * Credit accounting of v2/message_transport.rs between two peers in the ready
  * state: commit, rollback, deferred submission receipts and credit returns.
  */
module MessageCredits {
  import opened RingBuffers
  import opened TransportCommon

  const U32_MAX: nat := 0xFFFF_FFFF

  /** A submission whose receipt is outstanding. `sent` once the provider has taken a control frame. */
  datatype Transition = RecvT(returnCredit: bool) | SendT | CtrlT(credits: nat, sent: bool)

  /**
    * One peer. As a sender: permits available, permits held by requests not yet
    * committed, credits in flight, and the negotiated capacity. As a receiver:
    * messages received, held by the application, queued for reposting, and credits
    * waiting to be returned. Both: submissions awaiting their receipt, in order.
    */
  datatype Side = Side(available: nat, held: nat, inFlight: nat, capacity: nat,
                       received: nat, appHeld: nat, repostQueued: nat, pendingReturns: nat,
                       pendingQ: seq<Transition>)

  datatype CreditCheck = Accepted | ZeroCredits | ExceedsInFlight | ExceedsCapacity

  /** `check_credit_return` */
  function CheckCreditReturn(credits: nat, inFlight: nat, available: nat, capacity: nat): CreditCheck {
    if credits == 0 then ZeroCredits
    else if credits > inFlight then ExceedsInFlight
    else if available + credits > capacity then ExceedsCapacity
    else Accepted
  }

  /** How a submission is answered. */
  datatype Disposition = AllAccepted | Deferred | Unaccepted

  /** `process_send_request`: the permit is spent and the credit is in flight. */
  function Commit(s: Side, d: Disposition): Side
    requires s.held > 0
  {
    var s1 := s.(held := s.held - 1, inFlight := s.inFlight + 1);
    if d.Deferred? then s1.(pendingQ := s1.pendingQ + [SendT]) else s1
  }

  /** `rollback_unaccepted_send` */
  function Rollback(s: Side): Side {
    if s.inFlight > 0 then s.(inFlight := s.inFlight - 1, available := s.available + 1) else s
  }

  /** `validate_and_add_credits` */
  function AddCredits(s: Side, credits: nat): Option<Side> {
    if CheckCreditReturn(credits, s.inFlight, s.available, s.capacity) == Accepted
    then Some(s.(inFlight := SatSub(s.inFlight, credits), available := s.available + credits)) else None
  }

  /** `process_repost`: the buffer is posted again; its credit is returned once that is accepted. */
  function ProcessRepost(s: Side, d: Disposition): Side
    requires s.repostQueued > 0
  {
    var s1 := s.(repostQueued := s.repostQueued - 1);
    match d
    case AllAccepted => s1.(pendingReturns := s1.pendingReturns + 1)
    case Deferred => s1.(pendingQ := s1.pendingQ + [RecvT(true)])
    case Unaccepted => s1
  }

  /** What a flush claims: all pending returns, up to what one frame can carry. */
  function Claimed(s: Side): nat { Min(s.pendingReturns, U32_MAX) }

  /** `flush_one_credit`, with a control buffer at hand. */
  function Flush(s: Side, d: Disposition): Side {
    var n := Claimed(s);
    if n == 0 then s
    else
      var s1 := s.(pendingReturns := s.pendingReturns - n);
      match d
      case AllAccepted => s1
      case Deferred => s1.(pendingQ := s1.pendingQ + [CtrlT(n, false)])
      case Unaccepted => s1.(pendingReturns := s1.pendingReturns + n)
  }

  /** `apply_protocol_disposition` for the oldest submission. */
  function Receipt(s: Side, accepted: bool): Side
    requires s.pendingQ != []
  {
    var t := s.pendingQ[0];
    var s1 := s.(pendingQ := s.pendingQ[1..]);
    match t
    case RecvT(returnCredit) =>
      if accepted && returnCredit then s1.(pendingReturns := s1.pendingReturns + 1) else s1
    case SendT => s1
    case CtrlT(n, _) => if accepted then s1 else s1.(pendingReturns := s1.pendingReturns + n)
  }

  /** Frames from one peer to the other: messages committed, credit frames the provider has taken. */
  datatype Wire = Wire(data: nat, credits: seq<nat>)

  datatype Step =
    | Acquire
    | Cancel
    | Send(d: Disposition)
    | RollBack
    | Deliver
    | Receive
    | DropMessage
    | Repost(d: Disposition)
    | FlushCredit(d: Disposition)
    | Transmit(i: nat)
    | GetReceipt(accepted: bool)
    | CreditArrives

  /**
    * `x` takes step `s`; `xy` carries its frames to `y` and `yx` brings `y`'s. A
    * receipt that refuses a receive buffer, or contradicts what was sent, ends the
    * connection and is not a step of this machine.
    */
  ghost predicate Next(x: Side, xy: Wire, yx: Wire, s: Step, x': Side, xy': Wire, yx': Wire) {
    match s
    case Acquire =>
      x.available > 0 && x' == x.(available := x.available - 1, held := x.held + 1) && xy' == xy && yx' == yx
    case Cancel =>
      x.held > 0 && x' == x.(held := x.held - 1, available := x.available + 1) && xy' == xy && yx' == yx
    case Send(d) =>
      x.held > 0 && x' == Commit(x, d) && xy' == xy.(data := xy.data + 1) && yx' == yx
    case RollBack =>
      // the provider proves that a committed message was never taken
      xy.data > 0 && x' == Rollback(x) && xy' == xy.(data := xy.data - 1) && yx' == yx
    case Deliver =>
      yx.data > 0 && x' == x.(received := x.received + 1) && xy' == xy && yx' == yx.(data := yx.data - 1)
    case Receive =>
      x.received > 0 && x' == x.(received := x.received - 1, appHeld := x.appHeld + 1) && xy' == xy && yx' == yx
    case DropMessage =>
      x.appHeld > 0 && x' == x.(appHeld := x.appHeld - 1, repostQueued := x.repostQueued + 1) && xy' == xy && yx' == yx
    case Repost(d) =>
      x.repostQueued > 0 && !d.Unaccepted? && x' == ProcessRepost(x, d) && xy' == xy && yx' == yx
    case FlushCredit(d) =>
      && x' == Flush(x, d) && yx' == yx
      && xy' == if d.AllAccepted? && Claimed(x) > 0 then xy.(credits := xy.credits + [Claimed(x)]) else xy
    case Transmit(i) =>
      // the provider takes a deferred control frame before its receipt is seen
      && i < |x.pendingQ| && x.pendingQ[i].CtrlT? && !x.pendingQ[i].sent
      && x' == x.(pendingQ := x.pendingQ[i := x.pendingQ[i].(sent := true)])
      && xy' == xy.(credits := xy.credits + [x.pendingQ[i].credits]) && yx' == yx
    case GetReceipt(accepted) =>
      && x.pendingQ != [] && yx' == yx
      && (x.pendingQ[0].RecvT? || (x.pendingQ[0].CtrlT? && x.pendingQ[0].sent) ==> accepted)
      && x' == Receipt(x, accepted)
      && xy' == if accepted && x.pendingQ[0].CtrlT? && !x.pendingQ[0].sent
                then xy.(credits := xy.credits + [x.pendingQ[0].credits]) else xy
    case CreditArrives =>
      && yx.credits != [] && AddCredits(x, yx.credits[0]).Some?
      && x' == AddCredits(x, yx.credits[0]).value && xy' == xy && yx' == yx.(credits := yx.credits[1..])
  }

  // ---------------------------------------------------------------------
  // Conservation
  // ---------------------------------------------------------------------

  function Sum(s: seq<nat>): nat { if s == [] then 0 else s[0] + Sum(s[1..]) }

  /** Credits a deferred submission still owes the peer. */
  function OwedBy(t: Transition): nat {
    match t
    case RecvT(returnCredit) => if returnCredit then 1 else 0
    case SendT => 0
    case CtrlT(n, sent) => if sent then 0 else n
  }

  function Owed(q: seq<Transition>): nat { if q == [] then 0 else OwedBy(q[0]) + Owed(q[1..]) }

  /** Credits on their way back from receiver `y`, wherever they are. */
  function Returning(y: Side, yx: Wire): nat {
    y.received + y.appHeld + y.repostQueued + Owed(y.pendingQ) + y.pendingReturns + Sum(yx.credits)
  }

  /** Every credit frame carries between one and a frame's worth of credits. */
  ghost predicate Whole(y: Side, yx: Wire) {
    && (forall i :: 0 <= i < |yx.credits| ==> 0 < yx.credits[i] <= U32_MAX)
    && (forall i :: 0 <= i < |y.pendingQ| && y.pendingQ[i].CtrlT? ==> 0 < y.pendingQ[i].credits <= U32_MAX)
  }

  /**
    * Conservation in the direction from `x` to `y`: the permits add up to the
    * capacity, and the credits in flight are the messages in transit and the
    * credits on their way back.
    */
  ghost predicate Balanced(x: Side, y: Side, xy: Wire, yx: Wire) {
    && x.available + x.held + x.inFlight == x.capacity
    && x.inFlight == xy.data + Returning(y, yx)
    && Whole(y, yx)
  }

  ghost predicate Inv(x: Side, y: Side, xy: Wire, yx: Wire) {
    Balanced(x, y, xy, yx) && Balanced(y, x, yx, xy)
  }

  lemma {:induction false} SumAppend(s: seq<nat>, n: nat)
    ensures Sum(s + [n]) == Sum(s) + n
  {
    if s == [] {
      assert [] + [n] == [n] && [n][1..] == [];
    } else {
      assert (s + [n])[1..] == s[1..] + [n];
      SumAppend(s[1..], n);
    }
  }

  lemma {:induction false} OwedAppend(q: seq<Transition>, t: Transition)
    ensures Owed(q + [t]) == Owed(q) + OwedBy(t)
  {
    if q == [] {
      assert [] + [t] == [t] && [t][1..] == [];
    } else {
      assert (q + [t])[1..] == q[1..] + [t];
      OwedAppend(q[1..], t);
    }
  }

  lemma {:induction false} OwedUpdate(q: seq<Transition>, i: nat, t: Transition)
    requires i < |q|
    ensures Owed(q[i := t]) + OwedBy(q[i]) == Owed(q) + OwedBy(t)
  {
    if i == 0 {
      assert q[0 := t][1..] == q[1..];
    } else {
      assert q[i := t][1..] == q[1..][i - 1 := t];
      OwedUpdate(q[1..], i - 1, t);
    }
  }

  /**
    * An honest credit frame is never rejected, and once it passes the in-flight
    * check the capacity check cannot fail.
    */
  lemma CreditAccepted(x: Side, y: Side, xy: Wire, yx: Wire)
    requires Inv(x, y, xy, yx) && yx.credits != []
    ensures CheckCreditReturn(yx.credits[0], x.inFlight, x.available, x.capacity) == Accepted
    ensures AddCredits(x, yx.credits[0]).Some?
    ensures forall n :: CheckCreditReturn(n, x.inFlight, x.available, x.capacity) != ExceedsCapacity
  {
  }

  /** The sums a step changes. */
  lemma StepSums(x: Side, xy: Wire, s: Step)
    ensures Sum(xy.credits + [Claimed(x)]) == Sum(xy.credits) + Claimed(x)
    ensures Owed(x.pendingQ + [SendT]) == Owed(x.pendingQ)
    ensures Owed(x.pendingQ + [RecvT(true)]) == Owed(x.pendingQ) + 1
    ensures Owed(x.pendingQ + [CtrlT(Claimed(x), false)]) == Owed(x.pendingQ) + Claimed(x)
    ensures s.Transmit? && s.i < |x.pendingQ| && x.pendingQ[s.i].CtrlT? ==>
      var t := x.pendingQ[s.i];
      && Owed(x.pendingQ[s.i := t.(sent := true)]) + OwedBy(t) == Owed(x.pendingQ)
      && Sum(xy.credits + [t.credits]) == Sum(xy.credits) + t.credits
    ensures s.GetReceipt? && x.pendingQ != [] && x.pendingQ[0].CtrlT? ==>
      Sum(xy.credits + [x.pendingQ[0].credits]) == Sum(xy.credits) + x.pendingQ[0].credits
  {
    SumAppend(xy.credits, Claimed(x));
    OwedAppend(x.pendingQ, SendT);
    OwedAppend(x.pendingQ, RecvT(true));
    OwedAppend(x.pendingQ, CtrlT(Claimed(x), false));
    if s.Transmit? && s.i < |x.pendingQ| && x.pendingQ[s.i].CtrlT? {
      OwedUpdate(x.pendingQ, s.i, x.pendingQ[s.i].(sent := true));
      SumAppend(xy.credits, x.pendingQ[s.i].credits);
    }
    if s.GetReceipt? && x.pendingQ != [] && x.pendingQ[0].CtrlT? {
      SumAppend(xy.credits, x.pendingQ[0].credits);
    }
  }

  /** As a receiver, `x` keeps what it owes `y` in balance. */
  lemma ReceiverKeeps(x: Side, y: Side, xy: Wire, yx: Wire, s: Step, x': Side, xy': Wire, yx': Wire)
    requires Inv(x, y, xy, yx) && Next(x, xy, yx, s, x', xy', yx')
    ensures Balanced(y, x', yx', xy')
  {
    StepSums(x, xy, s);
    hide Sum, Owed;
    assert x.pendingQ != [] ==> Owed(x.pendingQ) == OwedBy(x.pendingQ[0]) + Owed(x.pendingQ[1..]) by {
      OwedHead(x.pendingQ);
    }
  }

  lemma OwedHead(q: seq<Transition>)
    ensures q != [] ==> Owed(q) == OwedBy(q[0]) + Owed(q[1..])
  {
  }

  /** As a sender, `x` keeps its permits and credits in balance. */
  lemma SenderKeeps(x: Side, y: Side, xy: Wire, yx: Wire, s: Step, x': Side, xy': Wire, yx': Wire)
    requires Inv(x, y, xy, yx) && Next(x, xy, yx, s, x', xy', yx')
    ensures Balanced(x', y, xy', yx')
  {
    assert yx.credits != [] ==> Sum(yx.credits) == yx.credits[0] + Sum(yx.credits[1..]);
    hide Sum, Owed;
  }

  datatype Sys = Sys(a: Side, b: Side, ab: Wire, ba: Wire)

  datatype Act = Act(byA: bool, step: Step)

  /** Both peers ready: each holds the other's receive capacity as permits. */
  function Start(aCapacity: nat, bCapacity: nat): Sys {
    Sys(Side(bCapacity, 0, 0, bCapacity, 0, 0, 0, 0, []), Side(aCapacity, 0, 0, aCapacity, 0, 0, 0, 0, []),
        Wire(0, []), Wire(0, []))
  }

  ghost predicate SysNext(s: Sys, act: Act, s': Sys) {
    if act.byA then Next(s.a, s.ab, s.ba, act.step, s'.a, s'.ab, s'.ba) && s'.b == s.b
    else Next(s.b, s.ba, s.ab, act.step, s'.b, s'.ba, s'.ab) && s'.a == s.a
  }

  ghost predicate IsRun(aCapacity: nat, bCapacity: nat, states: seq<Sys>, acts: seq<Act>) {
    && |states| == |acts| + 1 && states[0] == Start(aCapacity, bCapacity)
    && forall i :: 0 <= i < |acts| ==> SysNext(states[i], acts[i], states[i + 1])
  }

  lemma StepInv(s: Sys, act: Act, s': Sys)
    requires Inv(s.a, s.b, s.ab, s.ba) && SysNext(s, act, s')
    ensures Inv(s'.a, s'.b, s'.ab, s'.ba)
  {
    hide Balanced, Next;
    if act.byA {
      SenderKeeps(s.a, s.b, s.ab, s.ba, act.step, s'.a, s'.ab, s'.ba);
      ReceiverKeeps(s.a, s.b, s.ab, s.ba, act.step, s'.a, s'.ab, s'.ba);
    } else {
      SenderKeeps(s.b, s.a, s.ba, s.ab, act.step, s'.b, s'.ba, s'.ab);
      ReceiverKeeps(s.b, s.a, s.ba, s.ab, act.step, s'.b, s'.ba, s'.ab);
    }
  }

  /**
    * Credits are conserved in every run, across cancellation, rollback, deferred
    * receipts, restored and coalesced returns, in both directions.
    */
  lemma {:induction false} CreditsConserved(aCapacity: nat, bCapacity: nat, states: seq<Sys>, acts: seq<Act>, i: nat)
    requires IsRun(aCapacity, bCapacity, states, acts) && i < |states|
    ensures Inv(states[i].a, states[i].b, states[i].ab, states[i].ba)
  {
    if i > 0 {
      CreditsConserved(aCapacity, bCapacity, states, acts, i - 1);
      hide Inv;
      StepInv(states[i - 1], acts[i - 1], states[i]);
    }
  }

  // ---------------------------------------------------------------------
  // The operations as they run
  // ---------------------------------------------------------------------

  /**
    * `claim_pending_credit_returns`: read, then compare and swap until no one
    * interferes. `values[k]` is what the counter holds at attempt `k`; the last
    * attempt is the first one that finds it unchanged.
    */
  method ClaimPendingCreditReturns(values: seq<nat>) returns (claimed: nat, left: nat, attempts: nat)
    requires |values| >= 2 && values[|values| - 1] == values[|values| - 2]
    ensures attempts < |values| && claimed + left == values[attempts]
    ensures claimed == Min(values[attempts], U32_MAX)
    ensures claimed > 0 ==> attempts > 0 && values[attempts - 1] == values[attempts]
  {
    attempts := 0;
    var observed := values[0];
    while true
      invariant attempts < |values| - 1 && observed == values[attempts]
      decreases |values| - attempts
    {
      if observed == 0 {
        return 0, 0, attempts;
      }
      claimed := Min(observed, U32_MAX);
      attempts := attempts + 1;
      if values[attempts] == observed {
        return claimed, observed - claimed, attempts;
      }
      observed := values[attempts];
    }
  }

  /** The credit fields of `EngineMessageState`. */
  class EngineMessageState {
    var remoteCredits: nat
    var creditsHeld: nat
    var creditsInFlight: nat
    var peerRecvCapacity: nat
    var received: nat
    var appHeld: nat
    var reposts: nat
    var pendingCreditReturns: nat
    var pendingTransitions: seq<Transition>

    ghost function Abs(): Side
      reads this
    {
      Side(remoteCredits, creditsHeld, creditsInFlight, peerRecvCapacity, received, appHeld, reposts,
           pendingCreditReturns, pendingTransitions)
    }

    constructor (peerCapacity: nat)
      ensures Abs() == Start(0, peerCapacity).a
    {
      remoteCredits, creditsHeld, creditsInFlight, peerRecvCapacity := peerCapacity, 0, 0, peerCapacity;
      received, appHeld, reposts, pendingCreditReturns, pendingTransitions := 0, 0, 0, 0, [];
    }

    /** `process_send_request` for a request that still owns its permit. */
    method CommitSend(d: Disposition)
      requires creditsHeld > 0
      modifies this
      ensures Abs() == Commit(old(Abs()), d)
    {
      creditsHeld := creditsHeld - 1;
      creditsInFlight := creditsInFlight + 1;
      if d.Deferred? {
        pendingTransitions := pendingTransitions + [SendT];
      }
    }

    /** `rollback_unaccepted_send`; `committed` is the request's own flag, cleared by the first rollback. */
    method RollbackUnacceptedSend(committed: bool) returns (committed': bool)
      modifies this
      ensures !committed' && Abs() == if committed then Rollback(old(Abs())) else old(Abs())
    {
      if committed && creditsInFlight > 0 {
        creditsInFlight := creditsInFlight - 1;
        remoteCredits := remoteCredits + 1;
      }
      return false;
    }

    /** `validate_and_add_credits` */
    method ValidateAndAddCredits(credits: nat) returns (check: CreditCheck)
      modifies this
      ensures check == CheckCreditReturn(credits, old(creditsInFlight), old(remoteCredits), old(peerRecvCapacity))
      ensures match AddCredits(old(Abs()), credits)
        case None => !check.Accepted? && Abs() == old(Abs())
        case Some(s) => check.Accepted? && Abs() == s
    {
      check := CheckCreditReturn(credits, creditsInFlight, remoteCredits, peerRecvCapacity);
      if check.Accepted? {
        creditsInFlight := creditsInFlight - credits;
        remoteCredits := remoteCredits + credits;
      }
    }

    /** `flush_one_credit` once a control buffer has been taken. */
    method FlushOneCredit(d: Disposition) returns (credits: nat)
      modifies this
      ensures credits == Claimed(old(Abs())) && Abs() == Flush(old(Abs()), d)
    {
      credits := Min(pendingCreditReturns, U32_MAX);
      if credits == 0 {
        return;
      }
      pendingCreditReturns := pendingCreditReturns - credits;
      match d
      case AllAccepted =>
      case Deferred => pendingTransitions := pendingTransitions + [CtrlT(credits, false)];
      case Unaccepted => pendingCreditReturns := pendingCreditReturns + credits;
    }

    /** `process_io_event` for a submission receipt: `None` when nothing was pending. */
    method ApplyReceipt(accepted: bool) returns (t: Option<Transition>)
      modifies this
      ensures t.None? <==> old(pendingTransitions) == []
      ensures Abs() == if t.None? then old(Abs()) else Receipt(old(Abs()), accepted)
    {
      if pendingTransitions == [] {
        return None;
      }
      t := Some(pendingTransitions[0]);
      pendingTransitions := pendingTransitions[1..];
      match t.value
      case RecvT(returnCredit) =>
        if accepted && returnCredit {
          pendingCreditReturns := pendingCreditReturns + 1;
        }
      case SendT =>
      case CtrlT(credits, _) =>
        if !accepted {
          pendingCreditReturns := pendingCreditReturns + credits;
        }
    }
  }
}
