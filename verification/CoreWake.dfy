/**
  * Waiting and waking between the core driver and one direction of one connection:
  * the driver routes a batch and then wakes each slot it delivered to once, while
  * the consumer looks, registers its waker and looks again. The steps of the two
  * sides interleave freely.
  */
module CoreWake {
  import opened TransportCommon
  import opened ConnSlots
  import opened CoreDrivers
  import opened CoreProtocol
  import opened CoreReclaim

  /** `route_into` at work: numbers to wake are collected first and woken afterwards. */
  datatype Batch = Idle | Routing(dir: Dir, woken: seq<nat>) | Waking(dir: Dir, woken: seq<nat>)

  /** Where the consumer is: outside `poll_inbox`, between two of its steps, or told to wait. */
  datatype Phase =
    | Away
    | Looking(room: nat)
    | Registering(room: nat)
    | Rechecking(room: nat)
    | Parked(room: nat)

  /**
    * The waiter of one direction: whether its waker is stored, whether it has been
    * woken since it last ran, and whether a fault came after the check of the poll
    * under way with no waker stored.
    */
  datatype Task = Task(phase: Phase, registered: bool, scheduled: bool, missed: bool)

  /** A core and the waiter of one direction of one of its connections. */
  datatype World = World(sys: Sys, batch: Batch, task: Task)

  datatype Move =
    | Other(a: Step)
    | BeginBatch(dir: Dir)
    | Route
    | BeginWaking
    | Wake
    | EndBatch
    | Begin(room: nat)
    | Look
    | Register
    | Recheck
    | Run

  /** `wake`: takes the stored waker, if there is one. */
  function Woke(t: Task): Task {
    t.(registered := false, scheduled := t.scheduled || t.registered)
  }

  /** `mark_fatal` wakes both directions; `first` says that no fault was recorded before. */
  function Faulted(t: Task, first: bool): Task {
    var midway := t.phase.Looking? || t.phase.Registering?;
    Woke(t).(missed := t.missed || (first && midway && !t.registered))
  }

  /** A drain of `poll_inbox`: it returns what is there, or goes on to `empty`. */
  ghost predicate Drains(conn: nat, dir: Dir, w: World, room: nat, empty: Phase, w': World) {
    && conn in w.sys.core.store && Live(w.sys.core.store[conn])
    && var n := Min(room, |w.sys.core.store[conn].Of(dir).inbox|);
       if n > 0 then
         && SysNext(w.sys, Poll(conn, dir, n), w'.sys)
         && w' == w.(sys := w'.sys, task := w.task.(phase := Away))
       else w' == w.(task := w.task.(phase := empty))
  }

  /** The steps in which the routing map is read under its lock do not mix with those that change it. */
  predicate MapFree(a: Step) { !a.Open? && !a.Turn? && !a.PollFailure? }

  /** A step of the core that is neither a sweep nor a drain of this direction. */
  ghost predicate Others(conn: nat, dir: Dir, w: World, a: Step, w': World) {
    && !a.Sweep? && !(a.Poll? && a.conn == conn && a.dir == dir)
    && (w.batch.Idle? || MapFree(a))
    && SysNext(w.sys, a, w'.sys) && CoreProtocol.Fits(w.sys, a)
    && w' == w.(sys := w'.sys, task :=
         if a.PollFailure? && conn in w.sys.core.store && IsRegistered(w.sys.core, conn)
         then Faulted(w.task, w.sys.core.store[conn].fault.NoFault?) else w.task)
  }

  /** One completion is routed; its number is noted once if it was delivered. */
  ghost predicate Routes(conn: nat, w: World, w': World) {
    && w.batch.Routing? && w.sys.Cq(w.batch.dir) != [] && Stored(w.sys.core)
    && SysNext(w.sys, Sweep(w.batch.dir), w'.sys)
    && var core, wc := w.sys.core, w.sys.Cq(w.batch.dir)[0];
       var noted := Delivered(core, w.batch.dir, wc) && wc.qp !in w.batch.woken;
       var overflows := conn in core.store && !w'.sys.core.store[conn].fault.NoFault? && core.store[conn].fault.NoFault?;
       w' == w.(sys := w'.sys,
                batch := if noted then Routing(w.batch.dir, w.batch.woken + [wc.qp]) else w.batch,
                task := if overflows then Faulted(w.task, true) else w.task)
  }

  ghost predicate Moves(conn: nat, dir: Dir, w: World, m: Move, w': World) {
    match m
    case Other(a) => Others(conn, dir, w, a, w')
    case BeginBatch(d) => w.batch.Idle? && w' == w.(batch := Routing(d, []))
    case Route => Routes(conn, w, w')
    case BeginWaking => w.batch.Routing? && w' == w.(batch := Waking(w.batch.dir, w.batch.woken))
    case Wake =>
      && w.batch.Waking? && w.batch.woken != []
      && var q := w.batch.woken[0];
         w' == w.(batch := Waking(w.batch.dir, w.batch.woken[1..]),
                  task := if w.batch.dir == dir && q in w.sys.core.slots && w.sys.core.slots[q] == conn
                          then Woke(w.task) else w.task)
    case EndBatch => w.batch.Waking? && w.batch.woken == [] && w' == w.(batch := Idle)
    case Begin(room) =>
      && w.task.phase.Away? && conn in w.sys.core.store && Live(w.sys.core.store[conn])
      // a recorded fault is returned at once
      && w' == w.(task := w.task.(missed := false,
                                  phase := if w.sys.core.store[conn].fault.NoFault? then Looking(room) else Away))
    case Look => w.task.phase.Looking? && Drains(conn, dir, w, w.task.phase.room, Registering(w.task.phase.room), w')
    case Register =>
      w.task.phase.Registering? && w' == w.(task := w.task.(phase := Rechecking(w.task.phase.room), registered := true))
    case Recheck => w.task.phase.Rechecking? && Drains(conn, dir, w, w.task.phase.room, Parked(w.task.phase.room), w')
    case Run =>
      (w.task.phase.Away? || w.task.phase.Parked?) && w' == w.(task := w.task.(phase := Away, scheduled := false))
  }

  /** The driver is about to wake the number `qp` in direction `dir`. */
  ghost predicate Coming(batch: Batch, dir: Dir, qp: nat) {
    !batch.Idle? && batch.dir == dir && qp in batch.woken
  }

  /** A waiting consumer is reachable, and on its way back if something awaits it. */
  ghost predicate TaskOk(conn: nat, dir: Dir, w: World) {
    var t := w.task;
    && (t.phase.Rechecking? || t.phase.Parked? ==> t.registered || t.scheduled)
    && (conn in w.sys.core.store && Live(w.sys.core.store[conn]) ==>
          var slot := w.sys.core.store[conn];
          && (t.phase.Parked? && t.phase.room > 0 && slot.Of(dir).inbox != [] ==>
                t.scheduled || (t.registered && Coming(w.batch, dir, slot.qp)))
          && (!t.phase.Away? && !slot.fault.NoFault? ==> t.scheduled || t.missed))
  }

  ghost predicate WorldInv(conn: nat, dir: Dir, w: World) { Inv(w.sys) && TaskOk(conn, dir, w) }

  // ---------------------------------------------------------------------
  // What a step of the core does to the slot
  // ---------------------------------------------------------------------

  /** A live connection keeps its slot, inbox in direction `dir` included. */
  ghost predicate Untouched(s: Sys, s': Sys, conn: nat, dir: Dir) {
    conn in s'.core.store && Live(s'.core.store[conn]) ==>
      var slot' := s'.core.store[conn];
      if conn in s.core.store then
        var slot := s.core.store[conn];
        Live(slot) && slot'.qp == slot.qp && slot'.Of(dir).inbox == slot.Of(dir).inbox && slot'.fault == slot.fault
      else slot'.Of(dir).inbox == [] && slot'.fault.NoFault?
  }

  /** A reclaim pass touches closing connections alone. */
  lemma TurnUntouched(s: Sys, budget: nat, s': Sys, conn: nat, dir: Dir)
    requires Inv(s) && Next(s, Turn(budget), s')
    ensures Untouched(s, s', conn, dir)
  {
    hide Ledger, Leases, ConnOk, Owned, MapOk, ReclaimOne, Queued, QueuedOk;
    if conn in s.core.store {
      forall i | 0 <= i < |s.core.reclaim| && s.core.reclaim[i].conn == conn
        ensures s.core.store[conn].state.Closing?
      {
        QueuedClosing(s.core, i);
      }
      if !s.core.store[conn].state.Closing? {
        PassNone(s.core, budget);
        PassRange(s.core, budget, 0, |s.core.reclaim|, conn);
      } else {
        TurnClosing(s.core, budget, |s.core.reclaim|, conn);
      }
    }
  }

  lemma EntryOpensNone(core: Core, e: Entry, budget: nat, conn: nat)
    requires e.conn in core.store && conn in core.store && !Live(core.store[conn])
    ensures conn in ReclaimOne(core, e, budget).store && !Live(ReclaimOne(core, e, budget).store[conn])
  {
    hide Leaves;
  }

  lemma {:induction false} TurnClosing(core: Core, budget: nat, n: nat, conn: nat)
    requires Stored(core) && n <= |core.reclaim| && conn in core.store && !Live(core.store[conn])
    ensures !Live(ReclaimUpTo(core, budget, n).0.store[conn])
  {
    hide *;
    if n == 0 {
      PassNone(core, budget);
    } else {
      TurnClosing(core, budget, n - 1, conn);
      PassOne(core, budget, n - 1);
      EntryOpensNone(ReclaimUpTo(core, budget, n - 1).0, core.reclaim[n - 1], budget, conn);
    }
  }

  /** Every other step but a poll failure leaves the slot of a live connection as it was. */
  lemma StepUntouched(s: Sys, a: Step, s': Sys, conn: nat, dir: Dir)
    requires Inv(s) && Next(s, a, s') && !a.Sweep? && !a.PollFailure?
    requires !(a.Poll? && a.conn == conn && a.dir == dir)
    ensures Untouched(s, s', conn, dir)
  {
    if a.Turn? {
      hide *;
      TurnUntouched(s, a.budget, s', conn, dir);
    } else {
      hide Inv, ReclaimPass, RouteOne, FailAll;
    }
  }

  /** A poll failure records a fault and changes nothing else. */
  lemma FailureTouches(s: Sys, s': Sys, conn: nat, dir: Dir)
    requires Stored(s.core) && s.track.Keys == s.core.store.Keys && Next(s, PollFailure, s') && conn in s.core.store
    ensures conn in s'.core.store
    ensures var slot, slot' := s.core.store[conn], s'.core.store[conn];
            && slot'.state == slot.state && slot'.qp == slot.qp && slot'.Of(dir).inbox == slot.Of(dir).inbox
            && (!IsRegistered(s.core, conn) ==> slot'.fault == slot.fault)
            && (!slot.fault.NoFault? ==> slot'.fault == slot.fault)
  {
  }

  /** Routing touches one slot; its inbox grows only if the completion was delivered, under its own number. */
  lemma RouteTouches(core: Core, d: Dir, wc: Cqe, conn: nat, dir: Dir)
    requires Stored(core) && MapOk(core) && conn in core.store
    ensures conn in RouteOne(core, d, wc).store
    ensures var slot, slot' := core.store[conn], RouteOne(core, d, wc).store[conn];
            && slot'.state == slot.state && slot'.qp == slot.qp
            && (slot'.fault == slot.fault || slot'.fault.InboxOverflow?)
            && (slot'.Of(dir).inbox == slot.Of(dir).inbox || (d == dir && wc.qp == slot.qp && Delivered(core, d, wc)))
  {
  }

  lemma SweepTouches(s: Sys, d: Dir, s': Sys, conn: nat, dir: Dir)
    requires Inv(s) && SysNext(s, Sweep(d), s') && conn in s.core.store && Inv(s')
    ensures conn in s'.core.store && s.Cq(d) != [] && Stored(s.core)
    ensures var slot, slot' := s.core.store[conn], s'.core.store[conn];
            && slot'.state == slot.state && slot'.qp == slot.qp
            && slot'.fault == slot.fault
            && (slot'.Of(dir).inbox == slot.Of(dir).inbox
                || (d == dir && s.Cq(d)[0].qp == slot.qp && Delivered(s.core, d, s.Cq(d)[0])))
  {
    InvMap(s);
    NeverOverflowed(s', conn);
    SweptCore(s, d, s');
    hide *;
    RouteTouches(s.core, d, s.Cq(d)[0], conn, dir);
  }

  lemma SweptCore(s: Sys, d: Dir, s': Sys)
    requires SysNext(s, Sweep(d), s')
    ensures Stored(s.core) && s.Cq(d) != [] && s'.core == RouteOne(s.core, d, s.Cq(d)[0])
  {
    hide RouteOne, Stored;
  }

  lemma InvMap(s: Sys)
    requires Inv(s)
    ensures Stored(s.core) && MapOk(s.core)
  {
  }

  lemma NeverOverflowed(s: Sys, conn: nat)
    requires Inv(s)
    ensures conn in s.core.store ==> !s.core.store[conn].fault.InboxOverflow?
  {
    hide Ledger, Leases, Owned, QueueOk, Proj, Numbers;
    assert conn in s.core.store ==> ConnOk(s, conn);
  }

  /** A live connection is registered under its number. */
  lemma LiveRegistered(s: Sys, conn: nat)
    requires Inv(s) && conn in s.core.store && Live(s.core.store[conn])
    ensures IsRegistered(s.core, conn)
  {
    hide Ledger, Leases, Owned, QueueOk, Proj, Numbers;
    assert ConnOk(s, conn);
  }

  // ---------------------------------------------------------------------
  // Every move keeps the invariant
  // ---------------------------------------------------------------------

  /** The slot and the batch as they were, or a batch with more numbers. */
  lemma QuietKeeps(conn: nat, dir: Dir, w: World, w': World)
    requires TaskOk(conn, dir, w) && Untouched(w.sys, w'.sys, conn, dir)
    requires w'.task == w.task && w'.batch == w.batch && (w.task.phase.Away? || conn in w.sys.core.store)
    ensures TaskOk(conn, dir, w')
  {
  }

  lemma OtherKeeps(conn: nat, dir: Dir, w: World, a: Step, w': World)
    requires Inv(w.sys) && TaskOk(conn, dir, w) && Others(conn, dir, w, a, w')
    requires w.task.phase.Away? || conn in w.sys.core.store
    ensures TaskOk(conn, dir, w')
  {
    hide Inv, Next, CoreProtocol.Fits, TaskOk;
    if !a.PollFailure? {
      StepUntouched(w.sys, a, w'.sys, conn, dir);
      QuietKeeps(conn, dir, w, w');
    } else {
      FailureKeeps(conn, dir, w, w');
    }
  }

  lemma FailureKeeps(conn: nat, dir: Dir, w: World, w': World)
    requires Inv(w.sys) && TaskOk(conn, dir, w) && Others(conn, dir, w, PollFailure, w')
    requires w.task.phase.Away? || conn in w.sys.core.store
    ensures TaskOk(conn, dir, w')
  {
    InvStored(w.sys);
    hide Inv, CoreProtocol.Fits, FailAll;
    if conn in w.sys.core.store {
      FailureTouches(w.sys, w'.sys, conn, dir);
      if Live(w.sys.core.store[conn]) {
        LiveRegistered(w.sys, conn);
      }
    }
    hide Next, IsRegistered;
  }

  lemma InvStored(s: Sys)
    requires Inv(s)
    ensures Stored(s.core) && s.track.Keys == s.core.store.Keys
  {
  }

  lemma RouteKeeps(conn: nat, dir: Dir, w: World, w': World)
    requires Inv(w.sys) && Inv(w'.sys) && TaskOk(conn, dir, w) && Routes(conn, w, w')
    requires w.task.phase.Away? || conn in w.sys.core.store
    ensures TaskOk(conn, dir, w')
  {
    hide Inv, Delivered, Stored, Next;
    if conn in w.sys.core.store {
      SweepTouches(w.sys, w.batch.dir, w'.sys, conn, dir);
    } else {
      RouteNoOther(w.sys, w.batch.dir, w'.sys, conn);
    }
  }

  lemma RouteNoOther(s: Sys, d: Dir, s': Sys, conn: nat)
    requires Inv(s) && SysNext(s, Sweep(d), s') && conn !in s.core.store
    ensures conn !in s'.core.store
  {
    InvMap(s);
    hide Inv;
  }

  lemma WakeKeeps(conn: nat, dir: Dir, w: World, w': World)
    requires Inv(w.sys) && TaskOk(conn, dir, w) && Moves(conn, dir, w, Wake, w')
    ensures TaskOk(conn, dir, w')
  {
    hide Inv;
    if conn in w.sys.core.store && Live(w.sys.core.store[conn]) {
      LiveRegistered(w.sys, conn);
    }
  }

  lemma DrainKeeps(conn: nat, dir: Dir, w: World, room: nat, empty: Phase, w': World)
    requires Inv(w.sys) && TaskOk(conn, dir, w) && Drains(conn, dir, w, room, empty, w')
    requires (w.task.phase == Looking(room) && empty == Registering(room))
          || (w.task.phase == Rechecking(room) && empty == Parked(room))
    ensures TaskOk(conn, dir, w')
  {
    hide Inv;
  }

  /** Only the steps of the core change it, as it may. */
  lemma CoreKeeps(conn: nat, dir: Dir, w: World, m: Move, w': World)
    requires Inv(w.sys) && Moves(conn, dir, w, m, w')
    ensures Inv(w'.sys) && (conn in w.sys.core.store ==> conn in w'.sys.core.store)
  {
    hide Inv, Next, Stored, Delivered, IsRegistered;
    if m.Other? {
      NextKeeps(w.sys, m.a, w'.sys);
      KeysStay(w.sys, m.a, w'.sys, conn);
    } else if m.Route? {
      NextKeeps(w.sys, Sweep(w.batch.dir), w'.sys);
      KeysStay(w.sys, Sweep(w.batch.dir), w'.sys, conn);
    } else if m.Look? || m.Recheck? {
      var n := Min(w.task.phase.room, |w.sys.core.store[conn].Of(dir).inbox|);
      if n > 0 {
        NextKeeps(w.sys, Poll(conn, dir, n), w'.sys);
        KeysStay(w.sys, Poll(conn, dir, n), w'.sys, conn);
      }
    }
  }

  lemma KeysStay(s: Sys, a: Step, s': Sys, conn: nat)
    requires Stored(s.core) && s.track.Keys == s.core.store.Keys && Next(s, a, s')
    ensures conn in s.core.store ==> conn in s'.core.store
  {
    hide ReclaimOne;
  }

  lemma MoveKeeps(conn: nat, dir: Dir, w: World, m: Move, w': World)
    requires WorldInv(conn, dir, w) && (w.task.phase.Away? || conn in w.sys.core.store) && Moves(conn, dir, w, m, w')
    ensures WorldInv(conn, dir, w') && (w'.task.phase.Away? || conn in w'.sys.core.store)
  {
    hide Inv, Next, Drains, Others, Routes, Delivered, Stored;
    CoreKeeps(conn, dir, w, m, w');
    match m {
      case Other(a) => OtherKeeps(conn, dir, w, a, w'); OthersPhase(conn, dir, w, a, w');
      case Route => RouteKeeps(conn, dir, w, w'); RoutesPhase(conn, w, w');
      case Wake => WakeKeeps(conn, dir, w, w');
      case Look => DrainKeeps(conn, dir, w, w.task.phase.room, Registering(w.task.phase.room), w');
      case Recheck => DrainKeeps(conn, dir, w, w.task.phase.room, Parked(w.task.phase.room), w');
      case BeginBatch(_) =>
      case BeginWaking =>
      case EndBatch =>
      case Begin(_) =>
      case Register =>
      case Run =>
    }
  }

  lemma OthersPhase(conn: nat, dir: Dir, w: World, a: Step, w': World)
    requires Others(conn, dir, w, a, w')
    ensures w'.task.phase == w.task.phase
  {
    hide Next, CoreProtocol.Fits;
  }

  lemma RoutesPhase(conn: nat, w: World, w': World)
    requires Routes(conn, w, w')
    ensures w'.task.phase == w.task.phase
  {
    hide Next, Delivered;
  }

  // ---------------------------------------------------------------------
  // Runs
  // ---------------------------------------------------------------------

  ghost predicate IsWatch(conn: nat, dir: Dir, worlds: seq<World>, moves: seq<Move>) {
    && |worlds| == |moves| + 1
    && worlds[0] == World(Start(), Idle, Task(Away, false, false, false))
    && forall i :: 0 <= i < |moves| ==> Moves(conn, dir, worlds[i], moves[i], worlds[i + 1])
  }

  lemma WatchStep(conn: nat, dir: Dir, worlds: seq<World>, moves: seq<Move>, i: nat)
    requires IsWatch(conn, dir, worlds, moves) && i + 1 < |worlds|
    ensures i < |moves| && Moves(conn, dir, worlds[i], moves[i], worlds[i + 1])
  {
    hide Moves;
  }

  lemma WatchStart(conn: nat, dir: Dir, worlds: seq<World>, moves: seq<Move>)
    requires IsWatch(conn, dir, worlds, moves)
    ensures worlds != [] && WorldInv(conn, dir, worlds[0]) && worlds[0].task == Task(Away, false, false, false)
  {
    StartInv();
    hide Inv, Moves;
  }

  lemma {:induction false} WatchInv(conn: nat, dir: Dir, worlds: seq<World>, moves: seq<Move>, i: nat)
    requires IsWatch(conn, dir, worlds, moves) && i < |worlds|
    ensures WorldInv(conn, dir, worlds[i]) && (worlds[i].task.phase.Away? || conn in worlds[i].sys.core.store)
  {
    hide *;
    WatchStart(conn, dir, worlds, moves);
    if i > 0 {
      WatchInv(conn, dir, worlds, moves, i - 1);
      WatchStep(conn, dir, worlds, moves, i - 1);
      MoveKeeps(conn, dir, worlds[i - 1], moves[i - 1], worlds[i]);
    }
  }

  /**
    * No lost wake-up: in every run of a core, a consumer that was told to wait and
    * has a completion in its inbox has been woken, or the batch under way is about
    * to wake it; between batches it has been woken.
    */
  lemma NoLostWakeup(conn: nat, dir: Dir, worlds: seq<World>, moves: seq<Move>, i: nat)
    requires IsWatch(conn, dir, worlds, moves) && i < |worlds|
    requires var w := worlds[i];
             && w.task.phase.Parked? && w.task.phase.room > 0
             && conn in w.sys.core.store && Live(w.sys.core.store[conn]) && w.sys.core.store[conn].Of(dir).inbox != []
    ensures var w := worlds[i];
            && (w.task.scheduled || (w.task.registered && Coming(w.batch, dir, w.sys.core.store[conn].qp)))
            && (w.batch.Idle? ==> w.task.scheduled)
  {
    hide Inv, IsWatch;
    WatchInv(conn, dir, worlds, moves, i);
  }

  /** A number that is coming is woken after those in front of it, and the consumer then runs. */
  lemma {:induction false} WakeArrives(conn: nat, dir: Dir, worlds: seq<World>, k: nat)
    requires |worlds| == k + 2 && worlds[0].batch.Waking? && k < |worlds[0].batch.woken| && worlds[0].batch.dir == dir
    requires forall i {:trigger worlds[i]} :: 0 <= i <= k ==> Moves(conn, dir, worlds[i], Wake, worlds[i + 1])
    requires var q := worlds[0].batch.woken[k];
             q in worlds[0].sys.core.slots && worlds[0].sys.core.slots[q] == conn
    requires worlds[0].task.registered || worlds[0].task.scheduled
    ensures worlds[k + 1].task.scheduled
  {
    assert Moves(conn, dir, worlds[0], Wake, worlds[1]);
    if k > 0 {
      assert worlds[1].batch.woken[k - 1] == worlds[0].batch.woken[k];
      forall i {:trigger worlds[1..][i]} | 0 <= i <= k - 1
        ensures Moves(conn, dir, worlds[1..][i], Wake, worlds[1..][i + 1])
      {
        assert worlds[1..][i] == worlds[i + 1] && worlds[1..][i + 1] == worlds[i + 2];
      }
      WakeArrives(conn, dir, worlds[1..], k - 1);
    }
  }

  /** The poll under way has checked for a fault and has no waker stored yet. */
  predicate Exposed(t: Task) { (t.phase.Looking? || t.phase.Registering?) && !t.registered }

  lemma MissedStep(conn: nat, dir: Dir, w: World, m: Move, w': World)
    requires Inv(w.sys) && Inv(w'.sys) && Moves(conn, dir, w, m, w') && w'.task.missed && !w.task.missed
    ensures m == Other(PollFailure) && Exposed(w.task)
  {
    hide Inv, Delivered, Next, CoreProtocol.Fits;
    if m.Route? {
      InvStored(w.sys);
      if conn in w.sys.core.store {
        SweepTouches(w.sys, w.batch.dir, w'.sys, conn, dir);
      }
    }
  }

  /** A fault is missed only if the driver raised it in the middle of a poll, before the waker was stored. */
  lemma {:induction false} MissedMidway(conn: nat, dir: Dir, worlds: seq<World>, moves: seq<Move>, i: nat) returns (j: nat)
    requires IsWatch(conn, dir, worlds, moves) && i < |worlds| && worlds[i].task.missed
    ensures j < i && j < |moves| && moves[j] == Other(PollFailure) && Exposed(worlds[j].task)
  {
    WatchStart(conn, dir, worlds, moves);
    hide Inv, Moves, TaskOk, Start, IsWatch;
    WatchStep(conn, dir, worlds, moves, i - 1);
    if worlds[i - 1].task.missed {
      j := MissedMidway(conn, dir, worlds, moves, i - 1);
    } else {
      j := i - 1;
      WatchInv(conn, dir, worlds, moves, i - 1);
      WatchInv(conn, dir, worlds, moves, i);
      MissedStep(conn, dir, worlds[i - 1], moves[i - 1], worlds[i]);
    }
  }

  /**
    * Faults are announced the same way, unless one is raised between the check of a
    * poll and its registration while no earlier waker is stored: `poll_inbox` looks at
    * the inbox again after registering, but not at the fault.
    */
  lemma FaultsAnnounced(conn: nat, dir: Dir, worlds: seq<World>, moves: seq<Move>, i: nat)
    requires IsWatch(conn, dir, worlds, moves) && i < |worlds|
    requires forall j :: 0 <= j < i && j < |moves| && moves[j] == Other(PollFailure) ==> !Exposed(worlds[j].task)
    requires var w := worlds[i];
             && w.task.phase.Parked? && conn in w.sys.core.store
             && Live(w.sys.core.store[conn]) && !w.sys.core.store[conn].fault.NoFault?
    ensures worlds[i].task.scheduled
  {
    hide Inv, IsWatch;
    WatchInv(conn, dir, worlds, moves, i);
    if worlds[i].task.missed {
      var j := MissedMidway(conn, dir, worlds, moves, i);
    }
  }

  lemma StillAsleep(conn: nat, dir: Dir, w: World, m: Move, w': World)
    requires Inv(w.sys) && Inv(w'.sys) && Moves(conn, dir, w, m, w') && !w.task.scheduled && !m.Wake?
    requires m == Other(PollFailure) ==> Exposed(w.task)
    ensures !w'.task.scheduled
  {
    hide Inv, Delivered, Next, CoreProtocol.Fits;
    if m.Route? {
      InvStored(w.sys);
      if conn in w.sys.core.store {
        SweepTouches(w.sys, w.batch.dir, w'.sys, conn, dir);
      }
    }
  }

  /** After such a fault the consumer sleeps on until the driver wakes it for something else. */
  lemma {:induction false} SleepsOn(conn: nat, dir: Dir, worlds: seq<World>, moves: seq<Move>, j: nat, i: nat)
    requires IsWatch(conn, dir, worlds, moves) && j < i < |worlds| && i <= |moves|
    requires moves[j] == Other(PollFailure) && Exposed(worlds[j].task) && !worlds[j].task.scheduled
    requires forall k :: j < k < i ==> !moves[k].Wake? && moves[k] != Other(PollFailure)
    ensures !worlds[i].task.scheduled
  {
    hide Moves, IsWatch, Inv, TaskOk;
    WatchStep(conn, dir, worlds, moves, i - 1);
    WatchInv(conn, dir, worlds, moves, i - 1);
    WatchInv(conn, dir, worlds, moves, i);
    if i > j + 1 {
      SleepsOn(conn, dir, worlds, moves, j, i - 1);
    }
    StillAsleep(conn, dir, worlds[i - 1], moves[i - 1], worlds[i]);
  }

  ghost function MissedCore(fault: Fault): Sys {
    var slot := FreshSlot(5, 1, 1).(fault := fault);
    Start().(core := Start().core.(slots := map[5 := 0], store := map[0 := slot]), track := map[0 := FreshTracks()])
  }

  /** The two steps of the core in that run. */
  lemma MissedSteps()
    ensures SysNext(Start(), Open(0, 5, 1, 1), MissedCore(NoFault))
    ensures SysNext(MissedCore(NoFault), PollFailure, MissedCore(SharedCqPollFailed))
    ensures IsRegistered(MissedCore(NoFault).core, 0)
  {
    var open, failed := MissedCore(NoFault), MissedCore(SharedCqPollFailed);
    assert FailAll(open.core, SharedCqPollFailed).store == failed.core.store;
  }

  /**
    * Such a fault is lost: the consumer waits, the fault is recorded, and no wake-up
    * is under way.
    */
  lemma FaultMissed() returns (worlds: seq<World>, moves: seq<Move>)
    ensures IsWatch(0, Recv, worlds, moves)
    ensures var w := worlds[|moves|];
            && w.task.phase == Parked(1) && !w.task.scheduled && w.batch.Idle?
            && 0 in w.sys.core.store && Live(w.sys.core.store[0]) && w.sys.core.store[0].fault.SharedCqPollFailed?
  {
    var open, failed := MissedCore(NoFault), MissedCore(SharedCqPollFailed);
    moves := [Other(Open(0, 5, 1, 1)), Begin(1), Look, Other(PollFailure), Register, Recheck];
    worlds := [World(Start(), Idle, Task(Away, false, false, false)),
               World(open, Idle, Task(Away, false, false, false)),
               World(open, Idle, Task(Looking(1), false, false, false)),
               World(open, Idle, Task(Registering(1), false, false, false)),
               World(failed, Idle, Task(Registering(1), false, false, true)),
               World(failed, Idle, Task(Rechecking(1), true, false, true)),
               World(failed, Idle, Task(Parked(1), true, false, true))];
    MissedSteps();
    hide SysNext, Start, IsRegistered;
  }
}
