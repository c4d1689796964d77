/**
  * The limit of the credit ring: its safety holds exactly when that many messages
  * of the largest size fit the ring together. With a larger budget a run exists in
  * which a message is overwritten while the application still holds it.
  */
module CreditLimits {
  import opened Modular
  import opened RingBuffers
  import opened TransportCommon
  import opened WorkLog
  import opened SendSide
  import opened RecvSide
  import opened CreditRing
  import opened CreditProtocol

  // ---------------------------------------------------------------------
  // Stretches of a run in which no write is more than a lap ahead
  // ---------------------------------------------------------------------

  /** A step that hands nothing out and gives nothing back, or `b` handing out its front and taking it back. */
  datatype Move = One(act: Act) | ReadB

  /** Of the two sides only `a` sends. */
  predicate Plain(act: Act) {
    !act.step.Take? && !act.step.Repost? && (act.step.Send? ==> act.byA)
  }

  ghost predicate Reads(c: Config, s: Sys, m: Sys, s': Sys) {
    && s.b.ep.rx.stash != []
    && SysNext(c, s, Act(false, Take(1)), m)
    && SysNext(c, m, Act(false, Step.Repost(s.b.ep.rx.stash[0].bufIdx)), s')
  }

  ghost predicate Moved(c: Config, s: Sys, move: Move, s': Sys) {
    match move
    case One(act) => Plain(act) && SysNext(c, s, act, s') && ActSpaced(c, s, act)
    case ReadB => exists m :: Reads(c, s, m, s')
  }

  ghost predicate Path(c: Config, states: seq<Sys>, moves: seq<Move>) {
    && |states| == |moves| + 1
    && forall i :: 0 <= i < |moves| ==> Moved(c, states[i], moves[i], states[i + 1])
  }

  ghost predicate Reachable(c: Config, s: Sys)
    requires c.cap > 0
  {
    exists states, moves :: Path(c, states, moves) && states[0] == Start(c) && states[|moves|] == s
  }

  lemma MovedInv(c: Config, s: Sys, move: Move, s': Sys)
    requires Inv(c, s.a, s.b) && Moved(c, s, move, s')
    ensures Inv(c, s'.a, s'.b)
  {
    hide Inv, SysNext;
    match move {
      case One(act) => hide ActSpaced; StepInv(c, s, act, s');
      case ReadB =>
        var m :| Reads(c, s, m, s');
        StepInv(c, s, Act(false, Take(1)), m);
        StepInv(c, m, Act(false, Step.Repost(s.b.ep.rx.stash[0].bufIdx)), s');
    }
  }

  lemma {:induction false} PathInv(c: Config, states: seq<Sys>, moves: seq<Move>, i: nat)
    requires c.Valid() && Path(c, states, moves) && i < |states| && states[0] == Start(c)
    ensures Inv(c, states[i].a, states[i].b)
  {
    hide Inv, Moved, Start;
    if i == 0 {
      StartInv(c);
    } else {
      PathInv(c, states, moves, i - 1);
      MovedInv(c, states[i - 1], moves[i - 1], states[i]);
    }
  }

  lemma ReachableStart(c: Config)
    requires c.Valid()
    ensures Reachable(c, Start(c))
  {
    hide Start;
    assert Path(c, [Start(c)], []);
  }

  lemma ReachableInv(c: Config, s: Sys)
    requires c.Valid() && Reachable(c, s)
    ensures Inv(c, s.a, s.b) && Shaped(c, s.a, s.b)
  {
    hide Inv, Moved, Start;
    var states, moves :| Path(c, states, moves) && states[0] == Start(c) && states[|moves|] == s;
    PathInv(c, states, moves, |moves|);
    InvShaped(c, s.a, s.b);
  }

  lemma ReachableMove(c: Config, s: Sys, move: Move, s': Sys)
    requires c.Valid() && Reachable(c, s) && Moved(c, s, move, s')
    ensures Reachable(c, s') && Inv(c, s'.a, s'.b) && Shaped(c, s'.a, s'.b)
  {
    hide Moved, Start, Inv;
    var states, moves :| Path(c, states, moves) && states[0] == Start(c) && states[|moves|] == s;
    var states', moves' := states + [s'], moves + [move];
    forall i | 0 <= i < |moves'|
      ensures Moved(c, states'[i], moves'[i], states'[i + 1])
    {
      if i < |moves| {
        assert Moved(c, states[i], moves[i], states[i + 1]);
      }
    }
    assert Path(c, states', moves');
    ReachableInv(c, s');
  }

  lemma ReachableStep(c: Config, s: Sys, act: Act, s': Sys)
    requires c.Valid() && Reachable(c, s) && Plain(act) && SysNext(c, s, act, s') && ActSpaced(c, s, act)
    ensures Reachable(c, s') && Inv(c, s'.a, s'.b) && Shaped(c, s'.a, s'.b)
  {
    hide Reachable, SysNext, ActSpaced, Inv;
    ReachableMove(c, s, One(act), s');
  }

  /** One step more. */
  lemma Prolonged(c: Config, states: seq<Sys>, acts: seq<Act>, act: Act, s': Sys)
    requires c.cap > 0 && IsRun(c, states, acts) && SysNext(c, states[|states| - 1], act, s')
    ensures IsRun(c, states + [s'], acts + [act])
  {
    hide SysNext, Start;
    var states', acts' := states + [s'], acts + [act];
    forall i | 0 <= i < |acts'|
      ensures SysNext(c, states'[i], acts'[i], states'[i + 1])
    {
      if i < |acts| {
        assert SysNext(c, states[i], acts[i], states[i + 1]);
      }
    }
  }

  /** Such a stretch is a run of the rings. */
  lemma {:induction false} RunAlong(c: Config, path: seq<Sys>, moves: seq<Move>, i: nat) returns (states: seq<Sys>, acts: seq<Act>)
    requires c.Valid() && Path(c, path, moves) && i < |path| && path[0] == Start(c)
    ensures IsRun(c, states, acts) && states[|states| - 1] == path[i]
  {
    hide SysNext, Start, ActSpaced, IsRun;
    if i == 0 {
      states, acts := [Start(c)], [];
      RunStart(c);
    } else {
      states, acts := RunAlong(c, path, moves, i - 1);
      assert Moved(c, path[i - 1], moves[i - 1], path[i]);
      match moves[i - 1] {
        case One(act) =>
          Prolonged(c, states, acts, act, path[i]);
          states, acts := states + [path[i]], acts + [act];
        case ReadB =>
          var m :| Reads(c, path[i - 1], m, path[i]);
          var take, repost := Act(false, Take(1)), Act(false, Step.Repost(path[i - 1].b.ep.rx.stash[0].bufIdx));
          Prolonged(c, states, acts, take, m);
          Prolonged(c, states + [m], acts + [take], repost, path[i]);
          states, acts := states + [m] + [path[i]], acts + [take] + [repost];
      }
    }
  }

  lemma RunStart(c: Config)
    requires c.Valid()
    ensures IsRun(c, [Start(c)], [])
  {
    hide Start;
  }

  function Filler(n: nat, b: u8): (r: seq<u8>)
    ensures |r| == n && forall i :: 0 <= i < n ==> r[i] == b
  {
    seq(n, _ => b)
  }

  // ---------------------------------------------------------------------
  // Filling the ring
  // ---------------------------------------------------------------------

  /**
    * `j` messages of the largest size have been sent after `f0` shorter ones that
    * were released again; all of them are completed, none of the `j` is released.
    */
  ghost predicate Filled(c: Config, s: Sys, p0: nat, f0: nat, j: nat) {
    && c.Valid() && Reachable(c, s)
    && var log := s.a.ep.tx.log;
       && s.a.sdone == s.a.exec == |log| == f0 + j
       && Rank(Item, log, |log|) == f0 + j
       && Pos(c.cap, log, |log|) == p0 + j * c.Bound()
       && s.b.past.rdone == s.b.past.freed == f0 && s.b.ep.rx.stash == []
       && s.a.past.rdone <= |s.b.ep.tx.log| && LastCredit(s.b.ep.tx.log, s.a.past.rdone) == f0
       && (j > 0 ==> log[f0].Data? && log[f0].ro == p0 && log[f0].msg == Filler(c.Bound(), 0))
  }

  /** With everything completed the staging ring is empty. */
  lemma IdleRing(c: Config, x: Node, y: Node)
    requires Inv(c, x, y) && x.sdone == |x.ep.tx.log|
    ensures var p := Pos(c.cap, x.ep.tx.log, |x.ep.tx.log|);
            && x.ep.tx.ring.Spans(p, p) && x.ep.tx.remoteTail == p % c.cap && x.ep.tx.ring.capacity == c.cap
            && x.ep.inFlight == 0 && !x.ep.dead && x.ep.Ok(c)
  {
    hide RxInv, Staged, Pos;
    FreedIsPos(c.cap, c.Bound(), x.ep.tx.log, |x.ep.tx.log|);
    NoTrailingGap(c.cap, c.Bound(), x.ep.tx.log);
  }

  /** The entry a send from an idle endpoint appends. */
  ghost function NextData(c: Config, p: nat, msg: seq<u8>): Wr
    requires c.cap > 0
  {
    Data(p % c.cap, p % c.cap, EncodeImm(p % c.cap, |msg|), |msg|, msg)
  }

  /** What a send of up to the largest size does from an idle endpoint with a credit. */
  lemma IdleSend(c: Config, x: Node, y: Node, msg: seq<u8>)
    requires Inv(c, x, y) && x.sdone == |x.ep.tx.log| && x.ep.credits > 0
    requires 0 < |msg| <= c.Bound()
    requires Pos(c.cap, x.ep.tx.log, |x.ep.tx.log|) % c.cap + |msg| <= c.cap
    ensures x.ep.Ok(c)
    ensures var p := Pos(c.cap, x.ep.tx.log, |x.ep.tx.log|); var ep' := SendGather(c, x.ep, msg).0;
            && ep'.tx.log == x.ep.tx.log + [NextData(c, p, msg)]
            && ep'.rx == x.ep.rx
  {
    IdleRing(c, x, y);
    var p := Pos(c.cap, x.ep.tx.log, |x.ep.tx.log|);
    IdleGrant(x.ep.tx.ring, p, |msg|);
    hide Inv, Ring.Reserve, EncodeImm, Pos;
    assert SendLen(c, |msg|) == |msg| && msg[..|msg|] == msg;
    assert x.ep.tx.log + [] + [NextData(c, p, msg)] == x.ep.tx.log + [NextData(c, p, msg)];
  }

  /** Credits at hand, from what has been sent and announced. */
  lemma CreditsAre(c: Config, x: Node, y: Node)
    requires Inv(c, x, y)
    ensures x.past.rdone <= |y.ep.tx.log|
    ensures x.ep.credits + Rank(Item, x.ep.tx.log, |x.ep.tx.log|) == c.maxOut + LastCredit(y.ep.tx.log, x.past.rdone)
  {
  }

  /** Where the appended message lies. */
  lemma AppendedPositions(c: Config, log: seq<Wr>, w: Wr)
    requires w.Data?
    ensures var log' := log + [w]; var n := |log|;
            && Pos(c.cap, log', n + 1) == Pos(c.cap, log, n) + |w.msg|
            && Rank(Item, log', n + 1) == Rank(Item, log, n) + 1
  {
    PosAppend(c.cap, log, [w], |log|);
    RankAppend(Item, log, [w], |log|);
  }

  /** Only the bytes of the receiver's ring differ. */
  ghost predicate Written(y: Node, y': Node) {
    y' == y.(ep := y.ep.(rx := y.ep.rx.(mem := y'.ep.rx.mem)))
  }

  lemma SendIdle(c: Config, s0: Sys, msg: seq<u8>) returns (s: Sys)
    requires c.Valid() && Reachable(c, s0) && s0.a.sdone == |s0.a.ep.tx.log| && s0.a.ep.credits > 0
    requires 0 < |msg| <= c.Bound() && Pos(c.cap, s0.a.ep.tx.log, |s0.a.ep.tx.log|) % c.cap + |msg| <= c.cap
    ensures Reachable(c, s) && s.b == s0.b
    ensures s.a == s0.a.(ep := s.a.ep)
    ensures s.a.ep.tx.log == s0.a.ep.tx.log + [NextData(c, Pos(c.cap, s0.a.ep.tx.log, |s0.a.ep.tx.log|), msg)]
  {
    ReachableInv(c, s0);
    IdleSend(c, s0.a, s0.b, msg);
    hide Inv, Reachable, SendGather, NextData, Pos;
    s := s0.(a := s0.a.(ep := SendGather(c, s0.a.ep, msg).0));
    ReachableStep(c, s0, Act(true, Send(msg)), s);
  }

  /** The connection carries out the only outstanding entry. */
  lemma CarryIdle(c: Config, s0: Sys) returns (s: Sys)
    requires c.Valid() && Reachable(c, s0) && s0.a.exec < |s0.a.ep.tx.log|
    requires InWindow(c.cap, s0.a.ep.tx.log, s0.a.exec, s0.b.past.freed)
    ensures Reachable(c, s) && s.a == s0.a.(exec := s0.a.exec + 1) && Written(s0.b, s.b)
  {
    ReachableInv(c, s0);
    var y' := ExecuteEnabled(c, s0.a, s0.b);
    hide Inv, Reachable, InWindow;
    s := Sys(s0.a.(exec := s0.a.exec + 1), y');
    ReachableStep(c, s0, Act(true, Execute), s);
  }

  lemma ReapIdle(c: Config, s0: Sys) returns (s: Sys)
    requires c.Valid() && Reachable(c, s0) && s0.a.sdone < s0.a.exec <= |s0.a.ep.tx.log|
    ensures Reachable(c, s) && s.b == s0.b && s.a.sdone == s0.a.sdone + 1
    ensures s.a.exec == s0.a.exec && s.a.past == s0.a.past && s.a.ep.tx.log == s0.a.ep.tx.log
    ensures s.a.ep.rx == s0.a.ep.rx
  {
    ReachableInv(c, s0);
    hide Inv, Reachable, WrId;
    s := s0.(a := s0.a.(ep := ReapSend(c, s0.a.ep, WrId(s0.a.ep.tx.log[s0.a.sdone])), sdone := s0.a.sdone + 1));
    ReachableStep(c, s0, Act(true, SendDone), s);
  }

  /** Nothing written so far reaches past the end of the first lap. */
  lemma FirstLap(c: Config, log: seq<Wr>, exec: nat, freed: nat)
    requires exec < |log| && Pos(c.cap, log, exec + 1) <= c.cap
    ensures InWindow(c.cap, log, exec, freed)
  {
  }

  /** Send, carry out and reap one message within the first lap. */
  lemma DeliverOne(c: Config, s0: Sys, msg: seq<u8>) returns (s: Sys)
    requires c.Valid() && Reachable(c, s0) && s0.a.ep.credits > 0 && 0 < |msg| <= c.Bound()
    requires s0.a.sdone == s0.a.exec == |s0.a.ep.tx.log|
    requires Pos(c.cap, s0.a.ep.tx.log, |s0.a.ep.tx.log|) + |msg| <= c.cap
    ensures Reachable(c, s) && Written(s0.b, s.b) && s.a.past == s0.a.past
    ensures s.a.ep.tx.log == s0.a.ep.tx.log + [NextData(c, Pos(c.cap, s0.a.ep.tx.log, |s0.a.ep.tx.log|), msg)]
    ensures s.a.sdone == s.a.exec == |s.a.ep.tx.log|
  {
    var p := Pos(c.cap, s0.a.ep.tx.log, |s0.a.ep.tx.log|);
    hide Reachable, Pos;
    SmallMod(p, c.cap);
    var s1 := SendIdle(c, s0, msg);
    AppendedPositions(c, s0.a.ep.tx.log, NextData(c, p, msg));
    FirstLap(c, s1.a.ep.tx.log, s1.a.exec, s1.b.past.freed);
    var s2 := CarryIdle(c, s1);
    s := ReapIdle(c, s2);
  }

  lemma NextBigger(j: nat, b: nat)
    ensures (j + 1) * b == j * b + b
  {
  }

  lemma FillOne(c: Config, s0: Sys, p0: nat, f0: nat, j: nat) returns (s: Sys)
    requires Filled(c, s0, p0, f0, j) && j < c.maxOut && 0 < c.Bound() && p0 + (j + 1) * c.Bound() <= c.cap
    ensures Filled(c, s, p0, f0, j + 1)
  {
    hide Inv, Reachable, Pos, Rank, LastCredit, EncodeImm;
    var b, log := c.Bound(), s0.a.ep.tx.log;
    NextBigger(j, b);
    ReachableInv(c, s0);
    CreditsAre(c, s0.a, s0.b);
    s := DeliverOne(c, s0, Filler(b, 0));
    var w := NextData(c, p0 + j * b, Filler(b, 0));
    AppendedPositions(c, log, w);
    SmallMod(p0 + j * b, c.cap);
    assert j == 0 ==> s.a.ep.tx.log[f0] == w && j * b == 0;
  }

  lemma {:induction false} FillAll(c: Config, s0: Sys, p0: nat, f0: nat, j: nat) returns (s: Sys)
    requires Filled(c, s0, p0, f0, 0) && j <= c.maxOut && 0 < c.Bound() && p0 + j * c.Bound() <= c.cap
    ensures Filled(c, s, p0, f0, j)
  {
    if j == 0 {
      s := s0;
    } else {
      NextBigger(j - 1, c.Bound());
      hide Filled;
      var s1 := FillAll(c, s0, p0, f0, j - 1);
      s := FillOne(c, s1, p0, f0, j - 1);
    }
  }

  // ---------------------------------------------------------------------
  // Moving the start of the ring: one short message, released again
  // ---------------------------------------------------------------------

  /** The receiver reaps the first message, hands it out, releases it and announces that. */
  lemma ReleaseShort(c: Config, s0: Sys, l: nat) returns (s: Sys)
    requires c.Valid() && Reachable(c, s0) && c.maxOut >= 2 && 0 < l <= c.cap
    requires |s0.a.ep.tx.log| == 1 == s0.a.exec && s0.a.ep.tx.log[0].Data? && s0.a.ep.tx.log[0].ro == 0
    requires |s0.a.ep.tx.log[0].msg| == l
    requires s0.b == Start(c).b.(ep := CreditRing.Init(c).(rx := FreshRx(c.maxOut, s0.b.ep.rx.mem)))
    ensures Reachable(c, s) && s.a == s0.a && s.b.ep.rx.stash == []
    ensures s.b.past.freed == s.b.past.rdone == 1 && s.b.ep.tx.log == [Credit(1, 1)] && s.b.exec == 0
  {
    ReachableInv(c, s0);
    var w := s0.a.ep.tx.log[0];
    ReceiveOne(c.maxOut, s0.b.ep.rx.mem, l);
    ReapIsDrain(c, s0.b, s0.a);
    hide Inv, Reachable, ArriveData, HandedOut, ReapRecv, RecvSide.Repost;
    var b1 := s0.b.(ep := s0.b.ep.(rx := ArriveData(s0.b.ep.rx, 0, l).value), past := s0.b.past.(rdone := 1));
    var s1 := s0.(b := b1);
    ReachableStep(c, s0, Act(false, Step.RecvDone), s1);
    var b2 := b1.(ep := b1.ep.(rx := b1.ep.rx.(stash := b1.ep.rx.stash[1..])), past := b1.past.(taken := 1));
    var s2 := s0.(b := b2);
    s := s0.(b := b2.(ep := RepostRecv(c, b2.ep, 0), past := AfterRepost(b2.ep.rx, b2.past, 0)));
    assert Reads(c, s1, s2, s);
    assert Moved(c, s1, ReadB, s);
    ReachableMove(c, s1, ReadB, s);
    assert [] + [Credit(1, 1)] == [Credit(1, 1)];
  }

  /** The sender learns that its credit is back. */
  lemma CreditBack(c: Config, s0: Sys) returns (s: Sys)
    requires c.Valid() && Reachable(c, s0) && s0.b.ep.tx.log == [Credit(1, 1)] && s0.b.exec == 0 && s0.a.past.rdone == 0
    ensures Reachable(c, s) && s.a.ep.tx.log == s0.a.ep.tx.log && s.a.exec == s0.a.exec && s.a.sdone == s0.a.sdone
    ensures s.b == s0.b.(exec := 1) && s.a.past.rdone == 1
  {
    ReachableInv(c, s0);
    hide Inv, Reachable;
    var s1 := s0.(b := s0.b.(exec := 1));
    ReachableStep(c, s0, Act(false, Execute), s1);
    s := s1.(a := s1.a.(ep := ReapRecv(c, s1.a.ep, CreditImm(1)), past := s1.a.past.(rdone := 1)));
    ReachableStep(c, s1, Act(true, Step.RecvDone), s);
  }

  /** An empty ring whose next offset is `p0`. */
  lemma ShiftTo(c: Config, p0: nat) returns (s: Sys, f0: nat)
    requires c.Valid() && c.maxOut >= 2 && p0 < c.Bound()
    ensures f0 <= 1 && Filled(c, s, p0, f0, 0)
  {
    ReachableStart(c);
    s, f0 := Start(c), 0;
    if p0 > 0 {
      f0 := 1;
      assert Pos(c.cap, [], 0) == 0 && Rank(Item, [], 0) == 0;
      hide Reachable;
      var s1 := DeliverOne(c, s, Filler(p0, 0));
      var w := NextData(c, 0, Filler(p0, 0));
      assert s1.a.ep.tx.log == [w];
      AppendedPositions(c, [], w);
      SmallMod(0, c.cap);
      var s2 := ReleaseShort(c, s1, p0);
      s := CreditBack(c, s2);
      assert LastCredit([Credit(1, 1)], 1) == 1;
    }
  }

  // ---------------------------------------------------------------------
  // One message too many
  // ---------------------------------------------------------------------

  /** The oldest of the large messages is mapped at `v` and still held. */
  ghost predicate Held(c: Config, s: Sys, p0: nat, f0: nat, v: nat) {
    && c.Valid() && f0 < |s.a.ep.tx.log| && s.b.past.rdone == f0 + 1
    && Holds(s.a.ep.tx.log, f0 + 1, s.b.ep.rx, v, f0) && s.b.ep.rx.stash == [RecvDone.RecvDone(v, c.Bound())]
    && s.b.ep.rx.vmap[v].value.offset == p0 && s.b.ep.rx.vmap[v].value.length == c.Bound()
    && s.a.ep.tx.log[f0].Data? && s.a.ep.tx.log[f0].msg == Filler(c.Bound(), 0)
  }

  /** The receiver reaps the oldest large message. */
  lemma HoldOldest(c: Config, s0: Sys, p0: nat, f0: nat, j: nat) returns (s: Sys, v: nat)
    requires Filled(c, s0, p0, f0, j) && 0 < j && 0 < c.Bound()
    ensures c.Valid() && Reachable(c, s) && s.a == s0.a && Held(c, s, p0, f0, v)
    ensures s.b.ep.tx.log == s0.b.ep.tx.log
  {
    var w := s0.a.ep.tx.log[f0];
    ReachableInv(c, s0);
    RecvDataKeeps(c, s0.b, s0.a);
    ReapIsDrain(c, s0.b, s0.a);
    ArrivesNext(c, s0.a, s0.b);
    hide Inv, Reachable, ReapRecv, LastCredit, Pos, Rank;
    v := FindFree(s0.b.ep.rx.vmap, s0.b.ep.rx.nextVirt, |s0.b.ep.rx.vmap|).value;
    s := s0.(b := s0.b.(ep := s0.b.ep.(rx := ArriveData(s0.b.ep.rx, w.ro, |w.msg|).value),
                        past := s0.b.past.(rdone := f0 + 1)));
    ReachableStep(c, s0, Act(false, Step.RecvDone), s);
  }

  lemma ArrivesNext(c: Config, x: Node, y: Node)
    requires Inv(c, x, y) && y.past.rdone < |x.ep.tx.log|
    ensures y.ep.rx.arrivals == Rank(Item, x.ep.tx.log, y.past.rdone) && ShapeOk(y.ep.rx)
  {
  }

  /** A held message of zeros whose first byte became a one no longer reads back. */
  lemma Differs(log: seq<Wr>, rdone: nat, rx: Rx, v: nat, i: nat, b: nat)
    requires rdone <= |log| && Holds(log, rdone, rx, v, i) && 0 < b
    requires log[i].Data? && log[i].msg == Filler(b, 0)
    requires var e := rx.vmap[v].value; e.length == b && e.offset < |rx.mem| && rx.mem[e.offset] == 1
    ensures !AllReadBack(log, rdone, rx)
  {
    hide Rank;
    var e := rx.vmap[v].value;
    if e.offset + e.length <= |rx.mem| {
      assert RecvBuf(rx, v)[0] == 1;
      assert log[i].msg[0] == 0;
    }
  }

  /** The next step of a run, spaced or not. */
  lemma RunOn(c: Config, s: Sys, act: Act, s': Sys) returns (states: seq<Sys>, acts: seq<Act>)
    requires c.Valid() && Reachable(c, s) && SysNext(c, s, act, s')
    ensures IsRun(c, states, acts) && states[|states| - 1] == s'
  {
    hide SysNext, Moved, Start, IsRun;
    var path, moves :| Path(c, path, moves) && path[0] == Start(c) && path[|moves|] == s;
    states, acts := RunAlong(c, path, moves, |moves|);
    Prolonged(c, states, acts, act, s');
    states, acts := states + [s'], acts + [act];
  }

  /** How many large messages fill the ring from the shifted start. */
  lemma Lap(c: Config) returns (q: nat, p0: nat)
    requires c.Valid() && !c.RingFitsBudget()
    ensures 0 < c.Bound() < c.cap && p0 < c.Bound() && p0 + q * c.Bound() == c.cap
    ensures 1 <= q < c.maxOut
  {
    var b := c.Bound();
    q, p0 := c.cap / b, c.cap % b;
    assert b * q == q * b;
    if c.maxOut <= q {
      MulMono(c.maxOut, q, b, b);
    }
  }

  /** A message about to be written over one that is held, all but the last step taken. */
  ghost predicate Poised(c: Config, s: Sys, p0: nat, f0: nat, v: nat, s': Sys) {
    && c.Valid() && Reachable(c, s) && Held(c, s, p0, f0, v) && SysNext(c, s, Act(true, Execute), s')
    && s'.a == s.a.(exec := s.a.exec + 1) && s'.b == s.b.(ep := s.b.ep.(rx := s.b.ep.rx.(mem := s'.b.ep.rx.mem)))
    && 0 < c.Bound() && p0 + c.Bound() <= c.cap == |s'.b.ep.rx.mem| && s'.b.ep.rx.mem[p0] == 1
  }

  /** A budget that does not fit the ring lets some run come that far. */
  lemma OneTooMany(c: Config) returns (s: Sys, p0: nat, f0: nat, v: nat, s': Sys)
    requires c.Valid() && !c.RingFitsBudget()
    ensures Poised(c, s, p0, f0, v, s')
  {
    hide Filled, Poised;
    var q;
    q, p0 := Lap(c);
    var s0;
    s0, f0 := ShiftTo(c, p0);
    var s1 := FillAll(c, s0, p0, f0, q);
    s, v, s' := LastMessage(c, s1, p0, f0, q);
  }

  lemma LastMessage(c: Config, s1: Sys, p0: nat, f0: nat, q: nat) returns (s: Sys, v: nat, s': Sys)
    requires Filled(c, s1, p0, f0, q) && 0 < c.Bound() < c.cap && p0 < c.Bound() && p0 + q * c.Bound() == c.cap
    requires 1 <= q < c.maxOut
    ensures Poised(c, s, p0, f0, v, s')
  {
    hide Inv, Pos, Rank, LastCredit, AllReadBack, Reachable, EncodeImm;
    var s2;
    s2, v := HoldOldest(c, s1, p0, f0, q);
    ReachableInv(c, s2);
    CreditsAre(c, s2.a, s2.b);
    var log := s2.a.ep.tx.log;
    assert c.cap % c.cap == 0;
    var ones := Filler(c.Bound(), 1);
    s := SendIdle(c, s2, ones);
    ReachableInv(c, s);
    assert s.a.ep.tx.log[|log|] == NextData(c, c.cap, ones);
    StillHeld(c, s2, s, p0, f0, v, NextData(c, c.cap, ones));
    StagedNow(c, s.a, s.b);
    hide Held;
    var y' := ExecuteEnabled(c, s.a, s.b);
    s' := Sys(s.a.(exec := s.a.exec + 1), y');
    CarriesMessage(s.a.ep.tx, s.a.sdone, s.a.exec, s.b, y');
    BoundFits(p0, q, c.Bound(), c.cap);
    Lands(s.b.ep.rx.mem, ones, p0);
  }

  lemma StagedNow(c: Config, x: Node, y: Node)
    requires Inv(c, x, y)
    ensures Staged(x.ep.tx, x.sdone) && |y.ep.rx.mem| == c.cap
  {
  }

  lemma BoundFits(p0: nat, q: nat, b: nat, cap: nat)
    requires p0 + q * b == cap && 1 <= q
    ensures p0 + b <= cap
  {
    MulMono(1, q, b, b);
  }

  lemma Lands(mem: seq<u8>, ones: seq<u8>, p0: nat)
    requires p0 < |ones| <= |mem| && ones == Filler(|ones|, 1)
    ensures |Store(mem, 0, ones)| == |mem| && Store(mem, 0, ones)[p0] == 1
  {
  }

  /** So some run overwrites a held message. */
  lemma OverwritingRun(c: Config) returns (states: seq<Sys>, acts: seq<Act>)
    requires c.Valid() && !c.RingFitsBudget()
    ensures IsRun(c, states, acts)
    ensures var s := states[|states| - 1];
            s.b.past.rdone <= |s.a.ep.tx.log| && !AllReadBack(s.a.ep.tx.log, s.b.past.rdone, s.b.ep.rx)
  {
    hide Reachable, SysNext, AllReadBack, Rank, IsRun;
    var s, p0, f0, v, s' := OneTooMany(c);
    Differs(s'.a.ep.tx.log, f0 + 1, s'.b.ep.rx, v, f0, c.Bound());
    states, acts := RunOn(c, s, Act(true, Execute), s');
  }

  lemma StillHeld(c: Config, s: Sys, s': Sys, p0: nat, f0: nat, v: nat, w: Wr)
    requires Held(c, s, p0, f0, v) && s'.b == s.b && s'.a.ep.tx.log == s.a.ep.tx.log + [w]
    ensures Held(c, s', p0, f0, v)
  {
    RankAppend(Item, s.a.ep.tx.log, [w], f0);
  }

  /**
    * The exact condition: every message the application holds reads back in every
    * state of every run, if and only if the budget fits the ring.
    */
  lemma SafeIffBudgetFits(c: Config)
    requires c.Valid()
    ensures c.RingFitsBudget() <==>
            forall states: seq<Sys>, acts: seq<Act> :: IsRun(c, states, acts) ==>
              var s := states[|states| - 1];
              s.b.past.rdone <= |s.a.ep.tx.log| && AllReadBack(s.a.ep.tx.log, s.b.past.rdone, s.b.ep.rx)
  {
    if c.RingFitsBudget() {
      forall states: seq<Sys>, acts: seq<Act> | IsRun(c, states, acts)
        ensures var s := states[|states| - 1];
                s.b.past.rdone <= |s.a.ep.tx.log| && AllReadBack(s.a.ep.tx.log, s.b.past.rdone, s.b.ep.rx)
      {
        CreditRingSafe(c, states, acts, |states| - 1);
      }
    } else {
      var states, acts := OverwritingRun(c);
    }
  }
}
