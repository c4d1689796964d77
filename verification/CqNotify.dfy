/**
  * Completion-queue notification: v2/completion.rs and async_cq.rs. A poller arms
  * the queue, polls it again, waits for the channel to become readable, and drains
  * the channel; the device completes work at any moment in between.
  */
module CqNotify {
  import opened TransportCommon

  const ACK_BATCH_SIZE: nat := 16

  /**
    * The queue and its channel: completions waiting, whether a notification is
    * armed, events not yet fetched, the reactor's edge-triggered readiness flag,
    * and the events fetched, acknowledged and held back for a batch.
    */
  datatype Chan = Chan(cq: nat, armed: bool, events: nat, ready: bool, fetched: nat, acked: nat, unacked: nat)

  /** The device completes one work request; an armed queue raises one event. */
  function Arrive(ch: Chan): Chan {
    if ch.armed then ch.(cq := ch.cq + 1, armed := false, events := ch.events + 1, ready := true)
    else ch.(cq := ch.cq + 1)
  }

  datatype Phase = PollBeforeArm | Arm | PollAfterArm | WaitingFd | DrainFd

  /** How one turn of the loop ends: go round, hand out completions, or return pending. */
  datatype Result = Again | Got(n: nat) | ParkOnFd | ParkAwake

  // ---------------------------------------------------------------------
  // Draining and acknowledging
  // ---------------------------------------------------------------------

  /** `drain_and_ack_events`: up to `budget` events, acknowledged together. */
  function DrainBudget(ch: Chan, budget: nat): Chan {
    var n := Min(budget, ch.events);
    ch.(events := ch.events - n, fetched := ch.fetched + n, acked := ch.acked + n)
  }

  /** `ack_event`: one more event held back; a full batch is acknowledged. */
  function AckEvent(ch: Chan): Chan {
    if ch.unacked + 1 >= ACK_BATCH_SIZE then ch.(acked := ch.acked + ch.unacked + 1, unacked := 0)
    else ch.(unacked := ch.unacked + 1)
  }

  /** `drain_channel_events`: every event, acknowledged in batches. */
  function DrainAll(ch: Chan): (r: Chan)
    ensures r.events == 0 && r.fetched == ch.fetched + ch.events
    ensures r == ch.(events := 0, fetched := r.fetched, acked := r.acked, unacked := r.unacked)
    decreases ch.events
  {
    if ch.events == 0 then ch
    else DrainAll(AckEvent(ch.(events := ch.events - 1, fetched := ch.fetched + 1)))
  }

  /** Every event fetched has been acknowledged once, or waits in an unfinished batch. */
  predicate Acked(ch: Chan) {
    ch.fetched == ch.acked + ch.unacked && ch.unacked < ACK_BATCH_SIZE
  }

  lemma {:induction false} DrainAllAcks(ch: Chan)
    requires Acked(ch)
    ensures Acked(DrainAll(ch))
    decreases ch.events
  {
    if ch.events > 0 {
      DrainAllAcks(AckEvent(ch.(events := ch.events - 1, fetched := ch.fetched + 1)));
    }
  }

  /** `Drop` of the poller: fetch what is left and acknowledge everything. */
  function Closed(ch: Chan): Chan {
    ch.(events := 0, fetched := ch.fetched + ch.events, acked := ch.acked + ch.unacked + ch.events, unacked := 0)
  }

  /** After the poller is gone every event ever fetched was acknowledged exactly once. */
  lemma ClosedAcksAll(ch: Chan)
    requires Acked(ch)
    ensures Closed(ch).acked == Closed(ch).fetched && Closed(ch).unacked == 0 && Closed(ch).events == 0
  {
  }

  // ---------------------------------------------------------------------
  // The two loops
  // ---------------------------------------------------------------------

  /** Poll the queue into `room` entries. */
  function PollCq(ch: Chan, room: nat): (Chan, nat) {
    var n := Min(room, ch.cq);
    (ch.(cq := ch.cq - n), n)
  }

  /** One turn of `CqReadiness::poll_with`. */
  function Turn(ph: Phase, ch: Chan, room: nat): (Phase, Chan, Result) {
    match ph
    case PollBeforeArm =>
      var (ch', n) := PollCq(ch, room);
      if n > 0 then (PollBeforeArm, ch', Got(n)) else (Arm, ch', Again)
    case PollAfterArm =>
      var (ch', n) := PollCq(ch, room);
      if n > 0 then (PollBeforeArm, ch', Got(n)) else (WaitingFd, ch', Again)
    case Arm => (PollAfterArm, ch.(armed := true), Again)
    case WaitingFd => if ch.ready then (DrainFd, ch.(ready := false), Again) else (WaitingFd, ch, ParkOnFd)
    case DrainFd =>
      var budget := Max(room, 1);
      if ch.events >= budget then (DrainFd, DrainBudget(ch, budget), ParkAwake)
      else (PollBeforeArm, DrainBudget(ch, budget), Again)
  }

  /**
    * One turn of `AsyncCq::poll_completions`: it arms before every poll, and drains
    * the channel completely. Its idle state is the one about to arm.
    */
  function LoopTurn(ph: Phase, ch: Chan, room: nat): (Phase, Chan, Result) {
    match ph
    case PollBeforeArm => (Arm, ch, Again)
    case Arm => (PollAfterArm, ch.(armed := true), Again)
    case PollAfterArm =>
      var (ch', n) := PollCq(ch, room);
      if n > 0 then (Arm, ch', Got(n)) else (WaitingFd, ch', Again)
    case WaitingFd => if ch.ready then (DrainFd, ch.(ready := false), Again) else (WaitingFd, ch, ParkOnFd)
    case DrainFd => (Arm, DrainAll(ch), Again)
  }

  // ---------------------------------------------------------------------
  // No lost wakeup
  // ---------------------------------------------------------------------

  /** The poller's task: running, or parked; and whether a wake-up is on its way. */
  datatype Sys = Sys(ph: Phase, ch: Chan, parked: bool, scheduled: bool)

  datatype Step = Device | Poller(room: nat) | Wake

  datatype Style = Readiness | Loop

  function TurnOf(style: Style, ph: Phase, ch: Chan, room: nat): (Phase, Chan, Result) {
    if style.Readiness? then Turn(ph, ch, room) else LoopTurn(ph, ch, room)
  }

  /** A step of the device, of the poller, or of the executor running a woken task. */
  ghost predicate Next(style: Style, s: Sys, a: Step, s': Sys) {
    match a
    case Device =>
      // readiness wakes the poller that registered for it
      var ch := Arrive(s.ch);
      s' == s.(ch := ch, scheduled := s.scheduled || (s.parked && s.ph.WaitingFd? && ch.ready))
    case Poller(room) =>
      && !s.parked
      && var (ph, ch, r) := TurnOf(style, s.ph, s.ch, room);
         s' == Ended(ph, ch, r, s.scheduled)
    case Wake =>
      s.parked && s.scheduled && s' == s.(parked := false, scheduled := false)
  }

  /** Where a turn leaves the poller: going on, or returned with or without a wake-up of its own. */
  function Ended(ph: Phase, ch: Chan, r: Result, scheduled: bool): Sys {
    Sys(ph, ch, !r.Again?, r.Got? || r.ParkAwake? || scheduled)
  }

  /** Completions are never left waiting without something that will wake the poller. */
  ghost predicate NoLostWakeup(s: Sys) {
    s.parked && s.ch.cq > 0 ==> s.scheduled && (s.ph.WaitingFd? ==> s.ch.ready)
  }

  /** Why: since the queue was armed, either nothing came, or readiness is set. */
  ghost predicate Inv(s: Sys) {
    && (s.ph.PollAfterArm? ==> s.ch.armed || s.ch.ready)
    && (s.ph.WaitingFd? ==> s.ch.ready || (s.ch.armed && s.ch.cq == 0))
    && (s.parked ==> s.scheduled || (s.ph.WaitingFd? && !s.ch.ready))
    && Acked(s.ch)
  }

  /** A stretch of a run, from any state. */
  ghost predicate Path(style: Style, states: seq<Sys>, acts: seq<Step>) {
    && |states| == |acts| + 1
    && forall i :: 0 <= i < |acts| ==> Next(style, states[i], acts[i], states[i + 1])
  }

  /** Every buffer the poller is given has at least `m` entries. */
  ghost predicate RoomsFrom(acts: seq<Step>, m: nat) {
    forall i :: 0 <= i < |acts| && acts[i].Poller? ==> acts[i].room >= m
  }

  const FRESH: Sys := Sys(PollBeforeArm, Chan(0, false, 0, false, 0, 0, 0), false, false)

  /** A run of a new poller whose buffers have at least `m` entries. */
  ghost predicate IsRun(style: Style, states: seq<Sys>, acts: seq<Step>, m: nat) {
    Path(style, states, acts) && states[0] == FRESH && RoomsFrom(acts, m)
  }

  lemma NextKeeps(style: Style, s: Sys, a: Step, s': Sys)
    requires Inv(s) && Next(style, s, a, s') && (a.Poller? ==> a.room > 0)
    ensures Inv(s')
  {
    if a.Poller? && style.Loop? {
      DrainAllAcks(s.ch);
    }
  }

  lemma {:induction false} PathInv(style: Style, states: seq<Sys>, acts: seq<Step>, i: nat)
    requires Path(style, states, acts) && RoomsFrom(acts, 1) && Inv(states[0]) && i < |states|
    ensures Inv(states[i])
  {
    hide Inv, Next;
    if i > 0 {
      PathInv(style, states, acts, i - 1);
      NextKeeps(style, states[i - 1], acts[i - 1], states[i]);
    }
  }

  lemma InvSafe(s: Sys)
    requires Inv(s)
    ensures NoLostWakeup(s) && Acked(s.ch)
  {
  }

  /**
    * For either loop and every interleaving of completions with it: a parked poller
    * with a non-empty queue has a wake-up on its way, and if it waits for the
    * channel then readiness is set; every fetched event is acknowledged once.
    */
  lemma WakeupsSafe(style: Style, states: seq<Sys>, acts: seq<Step>, i: nat)
    requires IsRun(style, states, acts, 1) && i < |states|
    ensures NoLostWakeup(states[i]) && Acked(states[i].ch)
  {
    hide Path, RoomsFrom;
    PathInv(style, states, acts, i);
    InvSafe(states[i]);
  }

  /** Turns with an empty buffer, for either loop. */
  lemma EmptyTurns(style: Style, ch: Chan)
    requires !ch.ready
    ensures ch.cq == 0 ==> TurnOf(style, PollBeforeArm, ch, 0) == (Arm, ch, Again)
    ensures TurnOf(style, Arm, ch, 0) == (PollAfterArm, ch.(armed := true), Again)
    ensures TurnOf(style, PollAfterArm, ch, 0) == (WaitingFd, ch, Again)
    ensures TurnOf(style, WaitingFd, ch, 0) == (WaitingFd, ch, ParkOnFd)
  {
  }

  /**
    * With empty buffers either loop can lose a wake-up: a completion that slips in
    * before the arming is left in the queue by the poll that follows it.
    */
  lemma EmptyBufferRun(style: Style) returns (states: seq<Sys>, acts: seq<Step>)
    ensures IsRun(style, states, acts, 0) && !NoLostWakeup(states[|states| - 1])
  {
    hide TurnOf;
    var ch := Chan(1, false, 0, false, 0, 0, 0);
    var armed := ch.(armed := true);
    EmptyTurns(style, FRESH.ch);
    EmptyTurns(style, ch);
    EmptyTurns(style, armed);
    var s1, s2 := Sys(Arm, FRESH.ch, false, false), Sys(Arm, ch, false, false);
    var s3, s4 := Sys(PollAfterArm, armed, false, false), Sys(WaitingFd, armed, false, false);
    var s5 := Sys(WaitingFd, armed, true, false);
    assert Next(style, FRESH, Poller(0), s1) && Next(style, s1, Device, s2) && Next(style, s2, Poller(0), s3);
    assert Next(style, s3, Poller(0), s4) && Next(style, s4, Poller(0), s5);
    hide Next;
    acts := [Poller(0), Device, Poller(0), Poller(0), Poller(0)];
    states := [FRESH, s1, s2, s3, s4, s5];
  }

  /** The exact condition, for either loop: no wake-up is lost if and only if no buffer is empty. */
  lemma SafeIffRoom(style: Style, m: nat)
    ensures m > 0 <==>
            forall states: seq<Sys>, acts: seq<Step> :: IsRun(style, states, acts, m) ==>
              NoLostWakeup(states[|states| - 1])
  {
    if m > 0 {
      forall states: seq<Sys>, acts: seq<Step> | IsRun(style, states, acts, m)
        ensures NoLostWakeup(states[|states| - 1])
      {
        hide Path, NoLostWakeup;
        assert RoomsFrom(acts, 1);
        WakeupsSafe(style, states, acts, |states| - 1);
      }
    } else {
      var states, acts := EmptyBufferRun(style);
    }
  }

  // ---------------------------------------------------------------------
  // A call: turns until there is something to return
  // ---------------------------------------------------------------------

  function ArriveMany(ch: Chan, n: nat): (r: Chan)
    ensures r.cq == ch.cq + n
    ensures (ch.ready ==> r.ready) && (n == 0 ==> r == ch)
  {
    if n == 0 then ch else Arrive(ArriveMany(ch, n - 1))
  }

  /** Completions the device adds before turn `k`. */
  function Arrivals(arrivals: seq<nat>, k: nat): nat { if k < |arrivals| then arrivals[k] else 0 }

  function Rank(ph: Phase): nat {
    match ph
    case DrainFd => 5
    case PollBeforeArm => 4
    case Arm => 3
    case PollAfterArm => 2
    case WaitingFd => 1
  }

  /** Turns until the call returns, the device adding completions before each. */
  function Call(style: Style, ph: Phase, ch: Chan, room: nat, arrivals: seq<nat>, k: nat): (Phase, Chan, Result)
    decreases SatSub(|arrivals|, k), if ch.ready then 1 else 0, Rank(ph)
  {
    var (ph', ch', r) := TurnOf(style, ph, ArriveMany(ch, Arrivals(arrivals, k)), room);
    if r.Again? then Call(style, ph', ch', room, arrivals, k + 1) else (ph', ch', r)
  }

  lemma {:induction false} Joined(style: Style, states: seq<Sys>, acts: seq<Step>, a: Step,
                                  states': seq<Sys>, acts': seq<Step>)
    requires Path(style, states, acts) && Path(style, states', acts')
    requires Next(style, states[|states| - 1], a, states'[0])
    ensures Path(style, states + states', acts + [a] + acts')
  {
    hide Next;
    var ss, aa, n := states + states', acts + [a] + acts', |acts|;
    forall i | 0 <= i < |aa|
      ensures Next(style, ss[i], aa[i], ss[i + 1])
    {
      if i < n {
        assert Next(style, states[i], acts[i], states[i + 1]);
      } else if i > n {
        assert Next(style, states'[i - n - 1], acts'[i - n - 1], states'[i - n]);
      }
    }
  }

  /** Completions arriving at a running task. */
  lemma {:induction false} DeviceSteps(style: Style, s: Sys, n: nat, room: nat)
    returns (states: seq<Sys>, acts: seq<Step>)
    requires !s.parked
    ensures Path(style, states, acts) && RoomsFrom(acts, room)
    ensures states[0] == s && states[|states| - 1] == s.(ch := ArriveMany(s.ch, n))
  {
    if n == 0 {
      states, acts := [s], [];
    } else {
      var states0, acts0 := DeviceSteps(style, s, n - 1, room);
      var last := s.(ch := ArriveMany(s.ch, n));
      Joined(style, states0, acts0, Device, [last], []);
      states, acts := states0 + [last], acts0 + [Device] + [];
    }
  }

  /** A call of either loop is a stretch of a run, from the running task to where it returned. */
  lemma {:induction false} CallIsPath(style: Style, s: Sys, room: nat, arrivals: seq<nat>, k: nat)
    returns (states: seq<Sys>, acts: seq<Step>)
    requires !s.parked
    ensures Path(style, states, acts) && RoomsFrom(acts, room) && states[0] == s
    ensures var (ph, ch, r) := Call(style, s.ph, s.ch, room, arrivals, k);
            !r.Again? && states[|states| - 1] == Ended(ph, ch, r, s.scheduled)
    decreases SatSub(|arrivals|, k), if s.ch.ready then 1 else 0, Rank(s.ph)
  {
    var states0, acts0 := DeviceSteps(style, s, Arrivals(arrivals, k), room);
    var (ph, ch, r) := TurnOf(style, s.ph, ArriveMany(s.ch, Arrivals(arrivals, k)), room);
    var t := Ended(ph, ch, r, s.scheduled);
    var states1, acts1 := [t], [];
    if r.Again? {
      states1, acts1 := CallIsPath(style, t, room, arrivals, k + 1);
    }
    hide Path;
    Joined(style, states0, acts0, Poller(room), states1, acts1);
    states, acts := states0 + states1, acts0 + [Poller(room)] + acts1;
  }

  /** What the caller may conclude from an answer. */
  predicate Answers(ch: Chan, r: Result, room: nat) {
    match r
    case Again => false
    case Got(n) => 0 < n <= room && (n == room || ch.cq == 0)
    case ParkOnFd => ch.cq == 0 && ch.armed
    case ParkAwake => true
  }

  /** A result hands out completions that fit the buffer. */
  lemma {:induction false} CallGot(style: Style, ph: Phase, ch: Chan, room: nat, arrivals: seq<nat>, k: nat)
    ensures var (_, ch', r) := Call(style, ph, ch, room, arrivals, k);
            r.Got? ==> 0 < r.n <= room && (r.n == room || ch'.cq == 0)
    ensures var (ph', ch', r) := Call(style, ph, ch, room, arrivals, k); r.ParkOnFd? ==> ph'.WaitingFd? && !ch'.ready
    decreases SatSub(|arrivals|, k), if ch.ready then 1 else 0, Rank(ph)
  {
    var (ph', ch', r) := TurnOf(style, ph, ArriveMany(ch, Arrivals(arrivals, k)), room);
    if r.Again? {
      CallGot(style, ph', ch', room, arrivals, k + 1);
    }
  }

  /**
    * A call keeps the invariant whatever arrives during it, and its answer can be
    * relied on: pending means the queue was seen empty after it was armed.
    */
  lemma CallKeeps(style: Style, ph: Phase, ch: Chan, room: nat, arrivals: seq<nat>)
    requires Inv(Sys(ph, ch, false, false)) && room > 0
    ensures var (ph', ch', r) := Call(style, ph, ch, room, arrivals, 0);
            Inv(Ended(ph', ch', r, false)) && Answers(ch', r, room)
  {
    var s := Sys(ph, ch, false, false);
    var states, acts := CallIsPath(style, s, room, arrivals, 0);
    CallGot(style, ph, ch, room, arrivals, 0);
    assert RoomsFrom(acts, 1);
    PathInv(style, states, acts, |states| - 1);
  }

  // ---------------------------------------------------------------------
  // Progress: a waiting completion is handed out
  // ---------------------------------------------------------------------

  /** Completions arriving in the first `t` turns from turn `k` on. */
  function Arrived(arrivals: seq<nat>, k: nat, t: nat): nat
    decreases t
  {
    if t == 0 then 0 else Arrivals(arrivals, k) + Arrived(arrivals, k + 1, t - 1)
  }

  function HandedOut(r: Result): nat { if r.Got? then r.n else 0 }

  /** A call loses no completion and makes none up. */
  lemma {:induction false} CallConserves(style: Style, ph: Phase, ch: Chan, room: nat, arrivals: seq<nat>, k: nat)
    returns (t: nat)
    ensures var (_, ch', r) := Call(style, ph, ch, room, arrivals, k);
            t > 0 && ch'.cq + HandedOut(r) == ch.cq + Arrived(arrivals, k, t)
    decreases SatSub(|arrivals|, k), if ch.ready then 1 else 0, Rank(ph)
  {
    var (ph', ch', r) := TurnOf(style, ph, ArriveMany(ch, Arrivals(arrivals, k)), room);
    t := 1;
    assert Arrived(arrivals, k + 1, 0) == 0;
    if r.Again? {
      t := CallConserves(style, ph', ch', room, arrivals, k + 1);
      t := t + 1;
    }
  }

  /** Events in the channel, and the one an armed queue may still raise. */
  function Events(ch: Chan): nat { ch.events + if ch.armed then 1 else 0 }

  /** Arrivals turn an armed queue into an event, and raise no more. */
  lemma {:induction false} ArrivalsRaiseNone(ch: Chan, n: nat)
    ensures Events(ArriveMany(ch, n)) == Events(ch) && ArriveMany(ch, n).fetched == ch.fetched
  {
    if n > 0 {
      ArrivalsRaiseNone(ch, n - 1);
    }
  }

  /**
    * The answer that asks to be called again at once: the last turn found a full
    * budget of events and fetched just those.
    */
  lemma {:induction false} AwakeMeansFull(style: Style, ph: Phase, ch: Chan, room: nat, arrivals: seq<nat>, k: nat)
    returns (before: Chan)
    requires Call(style, ph, ch, room, arrivals, k).2.ParkAwake?
    ensures style.Readiness? && before.events >= Max(room, 1)
    ensures var (ph', ch', _) := Call(style, ph, ch, room, arrivals, k);
            ph'.DrainFd? && ch' == DrainBudget(before, Max(room, 1))
    decreases SatSub(|arrivals|, k), if ch.ready then 1 else 0, Rank(ph)
  {
    before := ArriveMany(ch, Arrivals(arrivals, k));
    var (ph', ch', r) := TurnOf(style, ph, before, room);
    if r.Again? {
      before := AwakeMeansFull(style, ph', ch', room, arrivals, k + 1);
    }
  }

  /** With an empty channel budget and nothing arriving, a call past the wait hands out what is there. */
  lemma QuietCallGets(style: Style, ph: Phase, ch: Chan, room: nat)
    requires ph.DrainFd? || (ph.WaitingFd? && ch.ready)
    requires room > 0 && ch.cq > 0 && ch.events < Max(room, 1)
    ensures Call(style, ph, ch, room, [], 0).2 == Got(Min(room, ch.cq))
  {
    var drain := if ph.DrainFd? then 0 else 1;
    var c0 := ch.(ready := if ph.DrainFd? then ch.ready else false);
    if ph.WaitingFd? {
      assert Call(style, ph, ch, room, [], 0) == Call(style, DrainFd, c0, room, [], 1);
    }
    var c1 := if style.Readiness? then DrainBudget(c0, Max(room, 1)) else DrainAll(c0);
    hide DrainAll;
    var next := if style.Readiness? then PollBeforeArm else Arm;
    assert Call(style, DrainFd, c0, room, [], drain) == Call(style, next, c1, room, [], drain + 1);
    if style.Loop? {
      assert Call(style, Arm, c1, room, [], drain + 1) == Call(style, PollAfterArm, c1.(armed := true), room, [], drain + 2);
    }
  }

  /** The call got something, or it worked a full budget of events off and wants to be called again. */
  ghost predicate Progresses(style: Style, ch: Chan, room: nat, ph': Phase, ch': Chan, r: Result) {
    r.Got? || (style.Readiness? && r.ParkAwake? && ph'.DrainFd? && ch'.cq >= ch.cq && Events(ch') + Max(room, 1) <= Events(ch))
  }

  /** Whatever arrives meanwhile, a call made while completions wait makes progress. */
  lemma {:induction false} CallProgresses(style: Style, ph: Phase, ch: Chan, room: nat, arrivals: seq<nat>, k: nat)
    requires room > 0 && ch.cq > 0 && (ph.WaitingFd? ==> ch.ready)
    ensures var (ph', ch', r) := Call(style, ph, ch, room, arrivals, k); Progresses(style, ch, room, ph', ch', r)
    decreases SatSub(|arrivals|, k), if ch.ready then 1 else 0, Rank(ph)
  {
    hide DrainAll;
    var ch0 := ArriveMany(ch, Arrivals(arrivals, k));
    ArrivalsRaiseNone(ch, Arrivals(arrivals, k));
    var (ph', ch', r) := TurnOf(style, ph, ch0, room);
    if r.Again? {
      CallProgresses(style, ph', ch', room, arrivals, k + 1);
      if ph.Arm? {
        PolledAfterArm(style, ch', room, arrivals, k + 1);
      }
    }
  }

  lemma PolledAfterArm(style: Style, ch: Chan, room: nat, arrivals: seq<nat>, k: nat)
    requires room > 0 && ch.cq > 0
    ensures Call(style, PollAfterArm, ch, room, arrivals, k).2.Got?
  {
  }

  /**
    * What a caller with a buffer can rely on: the invariant is kept, the answer is
    * right, and a call made while completions wait makes progress.
    */
  ghost predicate Reliable(style: Style, ph: Phase, ch: Chan, room: nat, ph': Phase, ch': Chan, r: Result) {
    room > 0 && Inv(Sys(ph, ch, false, false)) ==>
      && Inv(Ended(ph', ch', r, false)) && Answers(ch', r, room)
      && (ch.cq > 0 ==> Progresses(style, ch, room, ph', ch', r))
  }

  lemma CallReliable(style: Style, ph: Phase, ch: Chan, room: nat, arrivals: seq<nat>)
    ensures var (ph', ch', r) := Call(style, ph, ch, room, arrivals, 0); Reliable(style, ph, ch, room, ph', ch', r)
  {
    hide Call, Answers, Progresses;
    if room > 0 && Inv(Sys(ph, ch, false, false)) {
      CallKeeps(style, ph, ch, room, arrivals);
      if ch.cq > 0 {
        CallProgresses(style, ph, ch, room, arrivals, 0);
      }
    }
  }

  /** The measure by which a call ends: arrivals still to come, then readiness, then the state. */
  predicate Lower(arrivals: seq<nat>, k: nat, ch: Chan, ph: Phase, k': nat, ch': Chan, ph': Phase) {
    || SatSub(|arrivals|, k') < SatSub(|arrivals|, k)
    || (SatSub(|arrivals|, k') == SatSub(|arrivals|, k) && !ch'.ready && ch.ready)
    || (SatSub(|arrivals|, k') == SatSub(|arrivals|, k) && ch'.ready == ch.ready && Rank(ph') < Rank(ph))
  }

  lemma CallStep(style: Style, ph: Phase, ch: Chan, room: nat, arrivals: seq<nat>, k: nat)
    ensures var (ph', ch', r) := TurnOf(style, ph, ArriveMany(ch, Arrivals(arrivals, k)), room);
            && Call(style, ph, ch, room, arrivals, k)
               == (if r.Again? then Call(style, ph', ch', room, arrivals, k + 1) else (ph', ch', r))
            && (r.Again? ==> Lower(arrivals, k, ch, ph, k + 1, ch', ph'))
  {
    hide DrainAll;
  }

  /** One call after the other, each answered by a request to be called again. */
  ghost predicate Spins(style: Style, phs: seq<Phase>, chs: seq<Chan>, rooms: seq<nat>, arrivals: seq<seq<nat>>) {
    && |phs| == |chs| == |rooms| + 1 && |arrivals| == |rooms|
    && forall i {:trigger rooms[i]} :: 0 <= i < |rooms| ==>
         Call(style, phs[i], chs[i], rooms[i], arrivals[i], 0) == (phs[i + 1], chs[i + 1], ParkAwake)
  }

  /**
    * From any reachable state in which completions wait, and whatever arrives, the
    * calls that hand out nothing are bounded by the events in the channel, `m` events
    * each for buffers of at least `m` entries; `AsyncCq` has none at all.
    */
  lemma {:induction false} SpinsBounded(style: Style, phs: seq<Phase>, chs: seq<Chan>, rooms: seq<nat>,
                                        arrivals: seq<seq<nat>>, m: nat, n: nat)
    requires Spins(style, phs, chs, rooms, arrivals) && n <= |rooms| && m > 0
    requires forall i :: 0 <= i < |rooms| ==> rooms[i] >= m
    requires Inv(Sys(phs[0], chs[0], false, false)) && chs[0].cq > 0
    ensures n * m + Events(chs[n]) <= Events(chs[0]) && (style.Loop? ==> n == 0)
    ensures chs[n].cq > 0 && (n > 0 ==> phs[n].DrainFd?)
  {
    hide Call;
    if n > 0 {
      SpinsBounded(style, phs, chs, rooms, arrivals, m, n - 1);
      var _ := rooms[n - 1];
      CallProgresses(style, phs[n - 1], chs[n - 1], rooms[n - 1], arrivals[n - 1], 0);
    }
  }

  class CqReadiness {
    var state: Phase
    var arms: nat

    constructor ()
      ensures state == PollBeforeArm && arms == 0
    {
      state, arms := PollBeforeArm, 0;
    }

    /** `drain_and_ack_events`: fetch up to `budget` events, then acknowledge them together. */
    method DrainAndAck(ch: Chan, budget: nat) returns (ch': Chan, full: bool)
      ensures ch' == DrainBudget(ch, budget)
      ensures full <==> ch.events >= budget
    {
      var count := 0;
      ch' := ch;
      while count < budget && ch'.events > 0
        invariant count <= budget && count + ch'.events == ch.events
        invariant ch' == ch.(events := ch'.events, fetched := ch.fetched + count)
        decreases budget - count
      {
        ch' := ch'.(events := ch'.events - 1, fetched := ch'.fetched + 1);
        count := count + 1;
      }
      ch' := ch'.(acked := ch'.acked + count);
      full := count == budget;
    }

    /** The body of the loop: what the current state calls for. */
    method OneTurn(ch: Chan, room: nat) returns (ch': Chan, r: Result)
      modifies this
      ensures (state, ch', r) == TurnOf(Readiness, old(state), ch, room)
    {
      ch', r := ch, Again;
      match state
      case PollBeforeArm =>
        var n := Min(room, ch'.cq);
        ch' := ch'.(cq := ch'.cq - n);
        if n > 0 {
          return ch', Got(n);
        }
        state := Arm;
      case PollAfterArm =>
        var n := Min(room, ch'.cq);
        ch' := ch'.(cq := ch'.cq - n);
        if n > 0 {
          state := PollBeforeArm;
          return ch', Got(n);
        }
        state := WaitingFd;
      case Arm =>
        ch' := ch'.(armed := true);
        arms := arms + 1;
        state := PollAfterArm;
      case WaitingFd =>
        if !ch'.ready {
          return ch', ParkOnFd;
        }
        ch' := ch'.(ready := false);
        state := DrainFd;
      case DrainFd =>
        var full;
        ch', full := DrainAndAck(ch', Max(room, 1));
        if full {
          return ch', ParkAwake;
        }
        state := PollBeforeArm;
    }

    /** `poll_with`: turn after turn until there is something to return. */
    method PollWith(ch: Chan, room: nat, arrivals: seq<nat>) returns (ch': Chan, r: Result)
      modifies this
      ensures (state, ch', r) == Call(Readiness, old(state), ch, room, arrivals, 0)
      ensures Reliable(Readiness, old(state), ch, room, state, ch', r)
    {
      hide Inv, Reliable, Call, ArriveMany, Arrivals, TurnOf;
      CallReliable(Readiness, state, ch, room, arrivals);
      var k := 0;
      ch', r := ch, Again;
      while r.Again?
        invariant r.Again? ==> Call(Readiness, state, ch', room, arrivals, k) == Call(Readiness, old(state), ch, room, arrivals, 0)
        invariant !r.Again? ==> (state, ch', r) == Call(Readiness, old(state), ch, room, arrivals, 0)
        decreases r.Again?, SatSub(|arrivals|, k), if ch'.ready then 1 else 0, Rank(state)
      {
        CallStep(Readiness, state, ch', room, arrivals, k);
        ch', r := OneTurn(ArriveMany(ch', Arrivals(arrivals, k)), room);
        k := k + 1;
      }
    }
  }

  /** A call about to arm: arm, then poll. */
  lemma ArmingCall(ch: Chan, room: nat, arrivals: seq<nat>, k: nat)
    ensures var armed := ArriveMany(ch, Arrivals(arrivals, k)).(armed := true);
            var ch' := ArriveMany(armed, Arrivals(arrivals, k + 1));
            var n := Min(room, ch'.cq);
            var left := ch'.(cq := ch'.cq - n);
            Call(Loop, Arm, ch, room, arrivals, k) ==
              if n > 0 then (Arm, left, Got(n)) else Call(Loop, WaitingFd, left, room, arrivals, k + 2)
  {
    hide DrainAll;
  }

  /** A call waiting for the channel: drain it once it is readable. */
  lemma WaitingCall(ch: Chan, room: nat, arrivals: seq<nat>, k: nat)
    ensures var ch' := ArriveMany(ch, Arrivals(arrivals, k));
            Call(Loop, WaitingFd, ch, room, arrivals, k) ==
              if !ch'.ready then (WaitingFd, ch', ParkOnFd)
              else Call(Loop, Arm, DrainAll(ArriveMany(ch'.(ready := false), Arrivals(arrivals, k + 1))),
                        room, arrivals, k + 2)
  {
    hide DrainAll;
  }

  /** `AsyncCq`: two states between calls, about to arm or waiting for the channel. */
  class AsyncCq {
    var waiting: bool

    ghost function State(): Phase
      reads this
    {
      if waiting then WaitingFd else Arm
    }

    constructor ()
      ensures State() == Arm
    {
      waiting := false;
    }

    /** `drain_channel_events`: fetch every event, acknowledging in batches. */
    method DrainChannelEvents(ch: Chan) returns (ch': Chan)
      ensures ch' == DrainAll(ch)
    {
      ch' := ch;
      while ch'.events > 0
        invariant DrainAll(ch') == DrainAll(ch)
        decreases ch'.events
      {
        ch' := ch'.(events := ch'.events - 1, fetched := ch'.fetched + 1);
        if ch'.unacked + 1 >= ACK_BATCH_SIZE {
          ch' := ch'.(acked := ch'.acked + ch'.unacked + 1, unacked := 0);
        } else {
          ch' := ch'.(unacked := ch'.unacked + 1);
        }
      }
    }

    /** `poll_completions` */
    method PollCompletions(ch: Chan, room: nat, arrivals: seq<nat>) returns (ch': Chan, r: Result)
      modifies this
      ensures (State(), ch', r) == Call(Loop, old(State()), ch, room, arrivals, 0)
      ensures Reliable(Loop, old(State()), ch, room, State(), ch', r)
    {
      hide Reliable, DrainAll, Call, ArriveMany;
      CallReliable(Loop, State(), ch, room, arrivals);
      var k := 0;
      ch' := ch;
      while true
        invariant Call(Loop, State(), ch', room, arrivals, k) == Call(Loop, old(State()), ch, room, arrivals, 0)
        decreases SatSub(|arrivals|, k), if ch'.ready then 1 else 0, Rank(State())
      {
        if waiting {
          WaitingCall(ch', room, arrivals, k);
          ch' := ArriveMany(ch', Arrivals(arrivals, k));
          if !ch'.ready {
            return ch', ParkOnFd;
          }
          ch' := ArriveMany(ch'.(ready := false), Arrivals(arrivals, k + 1));
          ch' := DrainChannelEvents(ch');
          waiting, k := false, k + 2;
        } else {
          ArmingCall(ch', room, arrivals, k);
          ch' := ArriveMany(ch', Arrivals(arrivals, k));
          ch' := ArriveMany(ch'.(armed := true), Arrivals(arrivals, k + 1));
          var n := Min(room, ch'.cq);
          ch' := ch'.(cq := ch'.cq - n);
          if n > 0 {
            return ch', Got(n);
          }
          waiting, k := true, k + 2;
        }
      }
    }

    /** `Drop`: fetch what is left, then acknowledge everything outstanding. */
    method Close(ch: Chan) returns (ch': Chan)
      ensures ch' == Closed(ch)
    {
      ch' := ch;
      while ch'.events > 0
        invariant ch' == ch.(events := ch'.events, fetched := ch'.fetched, unacked := ch'.unacked)
        invariant ch'.events <= ch.events
        invariant ch'.fetched + ch'.events == ch.fetched + ch.events
        invariant ch'.unacked + ch'.events == ch.unacked + ch.events
        decreases ch'.events
      {
        ch' := ch'.(events := ch'.events - 1, fetched := ch'.fetched + 1, unacked := ch'.unacked + 1);
      }
      ch' := ch'.(acked := ch'.acked + ch'.unacked, unacked := 0);
    }
  }
}
