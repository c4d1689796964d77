/**
  * The lifecycle of v2/message_transport.rs under concurrent close, failure,
  * enqueueing and completion. Each atomic operation, and each critical section of
  * a mutex, is one step.
  */
module MessageLifecycle {
  import opened RingBuffers

  datatype Life = Created | Ready | Closing | Stopped | Failed

  predicate Terminal(l: Life) { l.Stopped? || l.Failed? }

  /** Before closing: events are still accepted. */
  predicate Open(l: Life) { l.Created? || l.Ready? }

  datatype Event = StartEv | RepostEv | SendEv(req: nat)

  /** A queued send: whether it still owns its buffer and credit, and how often it was started. */
  datatype Request = Request(owns: bool, starts: nat)

  /** `EngineSendRequest::start`: the first caller takes buffer and credit, later ones find nothing. */
  function Started(r: Request): Request {
    if r.owns then Request(false, r.starts + 1) else r
  }

  /** Where a thread is in `enter_failed`, `begin_close` or `finish_close`. */
  datatype Pc =
    | FailStart(err: nat)
    | FailLocked(err: nat)
    | FailWon(err: nat)
    | CloseStart
    | FinishStart
    | Draining
    | Disposing(list: seq<Event>)
    | Done

  /**
    * `errOwner` is the thread holding the error mutex, `current` the event the
    * driver has popped, `queued` every send request ever put in the queue.
    */
  datatype State = State(life: Life, error: Option<nat>, errOwner: Option<nat>,
                         helloSent: bool, helloReceived: bool,
                         events: seq<Event>, drained: bool, current: Option<Event>,
                         threads: map<nat, Pc>, reqs: map<nat, Request>, queued: set<nat>)

  datatype Step =
    | NewRequest(req: nat)
    | Enqueue(ev: Event)
    | DriverPop
    | DriverRun
    | HelloSendDone
    | HelloReceiveDone
    | MarkReady
    | Begin(t: nat, pc: Pc)
    | FailLock(t: nat)
    | FailCas(t: nat)
    | FailStore(t: nat)
    | CloseCas(t: nat)
    | FinishCas(t: nat)
    | Take(t: nat)
    | Dispose(t: nat)

  /** Start the request of an event, if it has one. */
  function StartOf(s: State, ev: Event): (s': State)
    ensures s' == s.(reqs := s'.reqs) && s'.reqs.Keys == s.reqs.Keys
    ensures forall r :: r in s.reqs ==> s'.reqs[r] == s.reqs[r] || s'.reqs[r] == Started(s.reqs[r])
  {
    if ev.SendEv? && ev.req in s.reqs then s.(reqs := s.reqs[ev.req := Started(s.reqs[ev.req])]) else s
  }

  function Go(s: State, t: nat, pc: Pc): (s': State)
    ensures s'.reqs == s.reqs && s'.events == s.events && s'.queued == s.queued
  {
    s.(threads := s.threads[t := pc])
  }

  ghost predicate At(s: State, t: nat) { t in s.threads }

  /** The thread inside a terminal call that takes the step, if any. */
  function Actor(a: Step): Option<nat> {
    match a
    case FailLock(t) => Some(t)
    case FailCas(t) => Some(t)
    case FailStore(t) => Some(t)
    case CloseCas(t) => Some(t)
    case FinishCas(t) => Some(t)
    case Take(t) => Some(t)
    case Dispose(t) => Some(t)
    case _ => None
  }

  /** Steps inside the error mutex. */
  predicate Guarded(a: Step) { a.FailLock? || a.FailCas? || a.FailStore? }

  /** Steps outside the terminal calls. */
  ghost predicate QuietNext(s: State, a: Step, s': State) {
    match a
    case NewRequest(req) =>
      req !in s.reqs && s' == s.(reqs := s.reqs[req := Request(true, 0)])
    case Enqueue(ev) =>
      // under the events mutex: queued while open, disposed of otherwise
      && (ev.SendEv? ==> ev.req in s.reqs && ev.req !in s.queued)
      && s' == if Open(s.life)
               then s.(events := s.events + [ev], queued := if ev.SendEv? then s.queued + {ev.req} else s.queued)
               else StartOf(s, ev)
    case DriverPop =>
      s.current.None? && s.events != [] && s' == s.(current := Some(s.events[0]), events := s.events[1..])
    case DriverRun =>
      s.current.Some? && s' == StartOf(s, s.current.value).(current := None)
    case HelloSendDone => s' == s.(helloSent := true)
    case HelloReceiveDone => s' == s.(helloReceived := true)
    case MarkReady =>
      s.helloSent && s.helloReceived && s' == if s.life.Created? then s.(life := Ready) else s
    case Begin(t, pc) =>
      !At(s, t) && (pc.FailStart? || pc.CloseStart? || pc.FinishStart?) && s' == Go(s, t, pc)
    case _ => false
  }

  /** Steps inside the error mutex. */
  ghost predicate MutexNext(s: State, a: Step, s': State) {
    match a
    case FailLock(t) =>
      && At(s, t) && s.threads[t].FailStart? && s.errOwner.None?
      && s' == Go(s.(errOwner := Some(t)), t, FailLocked(s.threads[t].err))
    case FailCas(t) =>
      && At(s, t) && s.threads[t].FailLocked?
      && s' == if Terminal(s.life) then Go(s.(errOwner := None), t, Done)
               else Go(s.(life := Failed), t, FailWon(s.threads[t].err))
    case FailStore(t) =>
      && At(s, t) && s.threads[t].FailWon?
      && s' == Go(s.(error := if s.error.None? then Some(s.threads[t].err) else s.error, errOwner := None), t, Draining)
    case _ => false
  }

  /** The other steps of the terminal calls. */
  ghost predicate CallNext(s: State, a: Step, s': State) {
    match a
    case CloseCas(t) =>
      && At(s, t) && s.threads[t].CloseStart?
      && s' == Go(if Open(s.life) then s.(life := Closing) else s, t, Draining)
    case FinishCas(t) =>
      && At(s, t) && s.threads[t].FinishStart?
      && s' == Go(if Terminal(s.life) then s else s.(life := Stopped), t, Draining)
    case Take(t) =>
      && At(s, t) && s.threads[t].Draining?
      && s' == Go(s.(events := [], drained := true), t, Disposing(s.events))
    case Dispose(t) =>
      && At(s, t) && s.threads[t].Disposing?
      && var list := s.threads[t].list;
         s' == if list == [] then Go(s, t, Done) else Go(StartOf(s, list[0]), t, Disposing(list[1..]))
    case _ => false
  }

  ghost predicate Next(s: State, a: Step, s': State) {
    if Actor(a).None? then QuietNext(s, a, s') else if Guarded(a) then MutexNext(s, a, s') else CallNext(s, a, s')
  }

  // ---------------------------------------------------------------------
  // Invariant
  // ---------------------------------------------------------------------

  /** The error is stored exactly in the failed state, except while its mutex is held. */
  ghost predicate ErrorOk(s: State) {
    match s.errOwner
    case None => s.error.Some? <==> s.life.Failed?
    case Some(t) =>
      && t in s.threads
      && (s.threads[t].FailLocked? || s.threads[t].FailWon?)
      && (s.threads[t].FailLocked? ==> (s.error.Some? <==> s.life.Failed?))
      && (s.threads[t].FailWon? ==> s.life.Failed? && s.error.None?)
  }

  /** Only the owner is inside the error mutex; whoever drains or has returned left the transport closing. */
  ghost predicate ThreadOk(s: State, t: nat)
    requires t in s.threads
  {
    var pc := s.threads[t];
    && (pc.FailLocked? || pc.FailWon? ==> s.errOwner == Some(t))
    && (pc.Draining? || pc.Disposing? || pc.Done? ==> !Open(s.life))
  }

  /** A queued request is started, or still waits in the queue, with the driver, or with a closing thread. */
  ghost predicate Waits(s: State, r: nat) {
    || SendEv(r) in s.events
    || s.current == Some(SendEv(r))
    || (exists t :: t in s.threads && s.threads[t].Disposing? && SendEv(r) in s.threads[t].list)
  }

  ghost predicate RequestOk(s: State, r: nat)
    requires r in s.reqs
  {
    && s.reqs[r].starts <= 1 && (s.reqs[r].owns <==> s.reqs[r].starts == 0)
    && (r in s.queued && s.reqs[r].owns ==> Waits(s, r))
  }

  /** Readiness needs both HELLOs, a drained queue stays empty, and only known requests are queued. */
  ghost predicate FlagsOk(s: State) {
    && (s.life.Ready? ==> s.helloSent && s.helloReceived)
    && (s.drained ==> s.events == [] && !Open(s.life))
    && s.queued <= s.reqs.Keys
  }

  ghost predicate Inv(s: State) {
    && ErrorOk(s)
    && (forall t :: t in s.threads ==> ThreadOk(s, t))
    && FlagsOk(s)
    && (forall r :: r in s.reqs ==> RequestOk(s, r))
  }

  // ---------------------------------------------------------------------
  // What a step can change
  // ---------------------------------------------------------------------

  /** Stopped and failed are absorbing, closing never reopens, and readiness comes after both HELLOs. */
  ghost predicate LifeMoves(s: State, s': State) {
    && (Terminal(s.life) ==> s'.life == s.life)
    && (!Open(s.life) ==> !Open(s'.life))
    && (s'.life.Ready? && !s.life.Ready? ==> s.life.Created? && s.helloSent && s.helloReceived)
  }

  ghost predicate FlagsMove(s: State, a: Step, s': State) {
    FlagsOk(s) && (a.Take? && a.t in s.threads ==> ThreadOk(s, a.t)) ==> FlagsOk(s') && (s.drained ==> s'.drained)
  }

  /** A thread that disposes is disturbed by no step but its own. */
  ghost predicate ListStays(s: State, a: Step, s': State, t: nat) {
    t in s.threads && s.threads[t].Disposing? && !(a.Dispose? && a.t == t) ==>
      t in s'.threads && s'.threads[t] == s.threads[t]
  }

  /** A step starts a request or leaves it alone, and queues it only with its event. */
  ghost predicate RequestMoves(s: State, s': State, r: nat) {
    r in s'.reqs ==>
      && (r in s.reqs ==> s'.reqs[r] == s.reqs[r] || s'.reqs[r] == Started(s.reqs[r]))
      && (r !in s.reqs ==> s'.reqs[r] == Request(true, 0))
      && (r in s'.queued && r !in s.queued ==> SendEv(r) in s'.events)
  }

  /** The driver keeps the event it popped until it runs it. */
  ghost predicate CurrentStays(s: State, a: Step, s': State) {
    s.current.Some? && !a.DriverRun? ==> s'.current == s.current
  }

  ghost predicate Moves(s: State, a: Step, s': State, t: nat, r: nat) {
    && LifeMoves(s, s') && FlagsMove(s, a, s') && CurrentStays(s, a, s')
    && ListStays(s, a, s', t) && RequestMoves(s, s', r)
  }

  lemma QuietMoves(s: State, a: Step, s': State, t: nat, r: nat)
    requires QuietNext(s, a, s')
    ensures Moves(s, a, s', t, r)
  {
    hide QuietNext, LifeMoves, FlagsMove, CurrentStays, ListStays, RequestMoves;
    QuietFlags(s, a, s');
    QuietParts(s, a, s', t, r);
  }

  lemma QuietFlags(s: State, a: Step, s': State)
    requires QuietNext(s, a, s')
    ensures LifeMoves(s, s') && FlagsMove(s, a, s') && CurrentStays(s, a, s')
  {
    hide StartOf, ThreadOk;
  }

  lemma QuietParts(s: State, a: Step, s': State, t: nat, r: nat)
    requires QuietNext(s, a, s')
    ensures ListStays(s, a, s', t) && RequestMoves(s, s', r)
  {
    hide StartOf, Open;
  }

  lemma CallMoves(s: State, a: Step, s': State, t: nat, r: nat)
    requires CallNext(s, a, s')
    ensures Moves(s, a, s', t, r)
  {
    hide CallNext, LifeMoves, FlagsMove, CurrentStays, ListStays, RequestMoves;
    CallFlags(s, a, s');
    CallParts(s, a, s', t, r);
  }

  lemma CallFlags(s: State, a: Step, s': State)
    requires CallNext(s, a, s')
    ensures LifeMoves(s, s') && FlagsMove(s, a, s') && CurrentStays(s, a, s')
  {
    hide StartOf;
  }

  lemma CallParts(s: State, a: Step, s': State, t: nat, r: nat)
    requires CallNext(s, a, s')
    ensures ListStays(s, a, s', t) && RequestMoves(s, s', r)
  {
    hide StartOf, Open, Terminal;
  }

  lemma MutexMoves(s: State, a: Step, s': State, t: nat, r: nat)
    requires MutexNext(s, a, s')
    ensures Moves(s, a, s', t, r)
  {
  }

  lemma StepMoves(s: State, a: Step, s': State, t: nat, r: nat)
    requires Next(s, a, s')
    ensures Moves(s, a, s', t, r)
  {
    hide QuietNext, MutexNext, CallNext, Moves;
    if Actor(a).None? {
      QuietMoves(s, a, s', t, r);
    } else if Guarded(a) {
      MutexMoves(s, a, s', t, r);
    } else {
      CallMoves(s, a, s', t, r);
    }
  }

  /** Stopped and failed are absorbing, closing never reopens, and a drained queue stays empty. */
  lemma TerminalAbsorbs(s: State, a: Step, s': State)
    requires Inv(s) && Next(s, a, s')
    ensures Terminal(s.life) ==> s'.life == s.life
    ensures !Open(s.life) ==> !Open(s'.life)
    ensures s'.life.Ready? && !s.life.Ready? ==> s.life.Created? && s.helloSent && s.helloReceived
    ensures s.drained ==> s'.drained && s'.events == []
  {
    hide ErrorOk, ThreadOk, RequestOk, Next, Open, Terminal;
    StepMoves(s, a, s', 0, 0);
  }

  ghost predicate ActorOk(s: State, a: Step) {
    Actor(a).Some? && Actor(a).value in s.threads ==> ThreadOk(s, Actor(a).value)
  }

  lemma ErrorKeeps(s: State, a: Step, s': State)
    requires ErrorOk(s) && Next(s, a, s') && ActorOk(s, a)
    ensures ErrorOk(s')
  {
    hide Next, ThreadOk, ErrorOk, ActorOk;
    if Actor(a).None? {
      QuietKeepsError(s, a, s');
    } else {
      if Guarded(a) {
        GuardedKeepsError(s, a, s');
      } else {
        UnguardedKeepsError(s, a, s');
      }
    }
  }

  lemma QuietKeepsError(s: State, a: Step, s': State)
    requires ErrorOk(s) && Next(s, a, s') && Actor(a).None?
    ensures ErrorOk(s')
  {
    hide QuietNext, ErrorOk;
    QuietStep(s, a, s');
    SameError(s, s');
  }

  /** What a step outside the terminal calls leaves alone. */
  lemma QuietStep(s: State, a: Step, s': State)
    requires QuietNext(s, a, s')
    ensures s'.error == s.error && s'.errOwner == s.errOwner && s'.life.Failed? == s.life.Failed?
    ensures forall t :: t in s.threads ==> t in s'.threads && s'.threads[t] == s.threads[t]
  {
    hide StartOf;
  }

  lemma SameError(s: State, s': State)
    requires ErrorOk(s)
    requires s'.error == s.error && s'.errOwner == s.errOwner && s'.life.Failed? == s.life.Failed?
    requires forall t :: t in s.threads && (s.threads[t].FailLocked? || s.threads[t].FailWon?) ==>
      t in s'.threads && s'.threads[t] == s.threads[t]
    ensures ErrorOk(s')
  {
  }

  lemma GuardedKeepsError(s: State, a: Step, s': State)
    requires ErrorOk(s) && Next(s, a, s') && ActorOk(s, a) && Guarded(a)
    ensures ErrorOk(s')
  {
    hide Open;
  }

  lemma UnguardedKeepsError(s: State, a: Step, s': State)
    requires ErrorOk(s) && Next(s, a, s') && ActorOk(s, a) && Actor(a).Some? && !Guarded(a)
    ensures ErrorOk(s')
  {
    hide CallNext, ErrorOk;
    UnguardedStep(s, a, s');
    SameError(s, s');
  }

  /** What a step of a terminal call outside the error mutex leaves alone. */
  lemma UnguardedStep(s: State, a: Step, s': State)
    requires CallNext(s, a, s') && Actor(a).Some?
    ensures var t := Actor(a).value;
            && t in s.threads && !s.threads[t].FailLocked? && !s.threads[t].FailWon?
            && s'.life.Failed? == s.life.Failed? && s'.errOwner == s.errOwner && s'.error == s.error
            && (!Open(s.life) ==> !Open(s'.life))
            && s'.threads.Keys == s.threads.Keys
            && (forall u :: u in s.threads && u != t ==> s'.threads[u] == s.threads[u])
  {
    hide StartOf;
  }

  lemma QuietKeepsThread(s: State, a: Step, s': State, t: nat)
    requires Next(s, a, s') && t in s'.threads && (t in s.threads ==> ThreadOk(s, t)) && Actor(a).None?
    ensures ThreadOk(s', t)
  {
    hide StartOf;
    assert s'.errOwner == s.errOwner && (!Open(s.life) ==> s'.life == s.life);
    assert t in s.threads ==> s'.threads[t] == s.threads[t];
  }

  lemma GuardedKeepsThread(s: State, a: Step, s': State, t: nat)
    requires Next(s, a, s') && t in s'.threads && (t in s.threads ==> ThreadOk(s, t)) && ErrorOk(s)
    requires ActorOk(s, a) && Guarded(a)
    ensures ThreadOk(s', t)
  {
    hide Next, ErrorOk, ActorOk, ThreadOk;
    GuardedStep(s, a, s');
    if t == Actor(a).value {
      GuardedActor(s, a, s');
    } else {
      GuardedOther(s, a, s', t);
    }
  }

  lemma GuardedStep(s: State, a: Step, s': State)
    requires Next(s, a, s') && Guarded(a)
    ensures Actor(a).value in s.threads && s'.threads.Keys == s.threads.Keys
    ensures forall t :: t in s.threads && t != Actor(a).value ==> s'.threads[t] == s.threads[t]
    ensures !Open(s.life) ==> !Open(s'.life)
  {
  }

  /** The thread inside the mutex. */
  lemma GuardedActor(s: State, a: Step, s': State)
    requires Next(s, a, s') && Guarded(a) && Actor(a).value in s.threads && Actor(a).value in s'.threads
    requires ActorOk(s, a) && ErrorOk(s)
    ensures ThreadOk(s', Actor(a).value)
  {
  }

  /** Nobody else is inside it. */
  lemma GuardedOther(s: State, a: Step, s': State, t: nat)
    requires Next(s, a, s') && Guarded(a) && t in s.threads && t in s'.threads && t != Actor(a).value
    requires Actor(a).value in s.threads && ActorOk(s, a) && ThreadOk(s, t)
    requires s'.threads[t] == s.threads[t] && (!Open(s.life) ==> !Open(s'.life))
    ensures ThreadOk(s', t)
  {
  }

  lemma UnguardedKeepsThread(s: State, a: Step, s': State, t: nat)
    requires Next(s, a, s') && t in s'.threads && (t in s.threads ==> ThreadOk(s, t))
    requires ActorOk(s, a) && Actor(a).Some? && !Guarded(a)
    ensures ThreadOk(s', t)
  {
    UnguardedStep(s, a, s');
    if t != Actor(a).value {
      hide Next, ActorOk;
      assert s'.threads[t] == s.threads[t];
    } else {
      UnguardedActor(s, a, s', t);
    }
  }

  lemma UnguardedActor(s: State, a: Step, s': State, t: nat)
    requires Next(s, a, s') && Actor(a) == Some(t) && !Guarded(a) && t in s.threads && t in s'.threads && ThreadOk(s, t)
    ensures ThreadOk(s', t)
  {
    hide StartOf;
  }

  lemma ThreadKeeps(s: State, a: Step, s': State, t: nat)
    requires Next(s, a, s') && t in s'.threads && (t in s.threads ==> ThreadOk(s, t)) && ActorOk(s, a) && ErrorOk(s)
    ensures ThreadOk(s', t)
  {
    hide Next, ThreadOk, ErrorOk, ActorOk;
    if Actor(a).None? {
      QuietKeepsThread(s, a, s', t);
    } else {
      if Guarded(a) {
        GuardedKeepsThread(s, a, s', t);
      } else {
        UnguardedKeepsThread(s, a, s', t);
      }
    }
  }

  /** A request still waiting goes on waiting, unless this step starts it. */
  lemma WaitKeeps(s: State, a: Step, s': State, r: nat)
    requires Next(s, a, s') && r in s.reqs && r in s'.reqs && Waits(s, r)
    requires s.drained ==> s.events == []
    ensures s'.reqs[r].owns ==> Waits(s', r)
  {
    hide Next;
    if SendEv(r) in s.events {
      hide Waits;
      EventMoves(s, a, s', SendEv(r));
    } else if s.current == Some(SendEv(r)) {
      CurrentMoves(s, a, s', r);
    } else {
      var t :| t in s.threads && s.threads[t].Disposing? && SendEv(r) in s.threads[t].list;
      hide Waits;
      ListMoves(s, a, s', t, r);
    }
  }

  lemma CurrentMoves(s: State, a: Step, s': State, r: nat)
    requires Next(s, a, s') && s.current == Some(SendEv(r)) && r in s.reqs && r in s'.reqs
    ensures s'.current == s.current || !s'.reqs[r].owns
  {
    if a.DriverRun? {
      hide MutexNext, CallNext;
    } else {
      hide Next, LifeMoves, FlagsMove, ListStays, RequestMoves;
      StepMoves(s, a, s', 0, r);
    }
  }

  lemma EventMoves(s: State, a: Step, s': State, ev: Event)
    requires Next(s, a, s') && ev in s.events && ev.SendEv?
    ensures Waits(s', ev.req)
  {
    hide StartOf;
    if a.DriverPop? {
      assert s.events == [s.events[0]] + s.events[1..];
    } else if a.Take? {
      assert s'.threads[a.t].Disposing? && ev in s'.threads[a.t].list;
    }
  }

  lemma DisposeMoves(s: State, s': State, t: nat, r: nat)
    requires Next(s, Dispose(t), s') && t in s.threads && s.threads[t].Disposing? && SendEv(r) in s.threads[t].list
    requires r in s.reqs && r in s'.reqs
    ensures s'.reqs[r].owns ==> Waits(s', r)
  {
    var list := s.threads[t].list;
    assert list == [list[0]] + list[1..];
    if list[0] != SendEv(r) {
      assert s'.threads[t].Disposing? && SendEv(r) in s'.threads[t].list;
    }
  }

  lemma ListMoves(s: State, a: Step, s': State, t: nat, r: nat)
    requires Next(s, a, s') && t in s.threads && s.threads[t].Disposing? && SendEv(r) in s.threads[t].list
    requires r in s.reqs && r in s'.reqs
    ensures s'.reqs[r].owns ==> Waits(s', r)
  {
    if a.Dispose? && a.t == t {
      DisposeMoves(s, s', t, r);
    } else {
      hide Next, StartOf, LifeMoves, FlagsMove, RequestMoves;
      StepMoves(s, a, s', t, r);
    }
  }

  /** One request: started at most once, and accounted for until then. */
  lemma RequestKeeps(s: State, a: Step, s': State, r: nat)
    requires Next(s, a, s') && r in s'.reqs && (r in s.reqs ==> RequestOk(s, r)) && (s.drained ==> s.events == [])
    requires s.queued <= s.reqs.Keys
    ensures RequestOk(s', r)
  {
    RequestCounts(s, a, s', r);
    if r in s'.queued && s'.reqs[r].owns {
      if r in s.queued {
        hide Next, Waits;
        WaitKeeps(s, a, s', r);
      } else {
        assert SendEv(r) in s'.events;
      }
    }
  }

  lemma RequestCounts(s: State, a: Step, s': State, r: nat)
    requires Next(s, a, s') && r in s'.reqs && (r in s.reqs ==> RequestOk(s, r))
    ensures s'.reqs[r].starts <= 1 && (s'.reqs[r].owns <==> s'.reqs[r].starts == 0)
    ensures r in s.reqs && s'.reqs[r].owns ==> s.reqs[r].owns
    ensures r in s'.queued && r !in s.queued ==> SendEv(r) in s'.events
  {
    hide Waits, Next, LifeMoves, FlagsMove, ListStays;
    StepMoves(s, a, s', 0, r);
  }

  lemma FlagsDrained(s: State)
    requires FlagsOk(s)
    ensures (s.drained ==> s.events == []) && s.queued <= s.reqs.Keys
  {
  }

  lemma NextKeeps(s: State, a: Step, s': State)
    requires Inv(s) && Next(s, a, s')
    ensures Inv(s')
  {
    hide Next, ThreadOk, ErrorOk, RequestOk, FlagsOk, LifeMoves, ListStays, RequestMoves;
    StepMoves(s, a, s', 0, 0);
    FlagsDrained(s);
    ErrorKeeps(s, a, s');
    forall t | t in s'.threads
      ensures ThreadOk(s', t)
    {
      ThreadKeeps(s, a, s', t);
    }
    forall r | r in s'.reqs
      ensures RequestOk(s', r)
    {
      RequestKeeps(s, a, s', r);
    }
  }

  // ---------------------------------------------------------------------
  // Runs
  // ---------------------------------------------------------------------

  function Start(): State {
    State(Created, None, None, false, false, [], false, None, map[], map[], {})
  }

  ghost predicate IsRun(states: seq<State>, acts: seq<Step>) {
    && |states| == |acts| + 1 && states[0] == Start()
    && forall i :: 0 <= i < |acts| ==> Next(states[i], acts[i], states[i + 1])
  }

  lemma {:induction false} RunInv(states: seq<State>, acts: seq<Step>, i: nat)
    requires IsRun(states, acts) && i < |states|
    ensures Inv(states[i])
  {
    if i > 0 {
      hide Inv;
      RunInv(states, acts, i - 1);
      NextKeeps(states[i - 1], acts[i - 1], states[i]);
    }
  }

  /** Once a run has stopped or failed it stays so, and a drained queue stays empty. */
  lemma {:induction false} StaysTerminal(states: seq<State>, acts: seq<Step>, i: nat, j: nat)
    requires IsRun(states, acts) && i <= j < |states|
    ensures Terminal(states[i].life) ==> states[j].life == states[i].life
    ensures states[i].drained ==> states[j].events == [] && !Open(states[j].life)
  {
    hide Next, ErrorOk, ThreadOk, RequestOk, Open, Terminal;
    RunInv(states, acts, j);
    if i < j {
      StaysTerminal(states, acts, i, j - 1);
      RunInv(states, acts, j - 1);
      StaysDrained(states, acts, i, j);
      TerminalAbsorbs(states[j - 1], acts[j - 1], states[j]);
    }
  }

  lemma {:induction false} StaysDrained(states: seq<State>, acts: seq<Step>, i: nat, j: nat)
    requires IsRun(states, acts) && i <= j < |states|
    ensures states[i].drained ==> states[j].drained
  {
    hide Inv, Next;
    if i < j {
      StaysDrained(states, acts, i, j - 1);
      RunInv(states, acts, j - 1);
      TerminalAbsorbs(states[j - 1], acts[j - 1], states[j]);
    }
  }

  /** No event is on its way: the driver is idle and no closing thread still disposes. */
  ghost predicate Settled(s: State) {
    && s.drained && s.current.None?
    && forall t :: t in s.threads && s.threads[t].Disposing? ==> s.threads[t].list == []
  }

  /** What holds at every point of every run. */
  lemma LifecycleSafe(states: seq<State>, acts: seq<Step>, i: nat)
    requires IsRun(states, acts) && i < |states|
    ensures states[i].errOwner.None? ==> (states[i].error.Some? <==> states[i].life.Failed?)
    ensures states[i].life.Ready? ==> states[i].helloSent && states[i].helloReceived
    ensures forall r :: r in states[i].reqs ==>
      states[i].reqs[r].starts <= 1 && (states[i].reqs[r].owns <==> states[i].reqs[r].starts == 0)
    ensures Settled(states[i]) ==>
      forall r :: r in states[i].queued ==> r in states[i].reqs && states[i].reqs[r] == Request(false, 1)
    // whoever called close, finish or fail and has returned left the transport closed to new events
    ensures forall t :: t in states[i].threads && states[i].threads[t].Done? ==> !Open(states[i].life)
  {
    RunInv(states, acts, i);
    var s := states[i];
    assert forall t :: t in s.threads && s.threads[t].Done? ==> ThreadOk(s, t);
    hide IsRun, ThreadOk;
    forall r | r in s.reqs
      ensures s.reqs[r].starts <= 1 && (s.reqs[r].owns <==> s.reqs[r].starts == 0)
    {
      assert RequestOk(s, r);
    }
    if Settled(s) {
      forall r | r in s.queued
        ensures r in s.reqs && s.reqs[r] == Request(false, 1)
      {
        assert RequestOk(s, r);
      }
    }
  }

  // ---------------------------------------------------------------------
  // The operations as they run
  // ---------------------------------------------------------------------

  /**
    * `transition_terminal`: compare and swap until the state is terminal or the swap
    * succeeds. `values[k]` is the state at attempt `k`.
    */
  method TransitionTerminal(values: seq<Life>) returns (won: bool, attempts: nat)
    requires |values| >= 2 && values[|values| - 1] == values[|values| - 2]
    ensures attempts < |values|
    ensures won <==> !Terminal(values[attempts])
    ensures won ==> attempts > 0 && values[attempts - 1] == values[attempts]
  {
    attempts := 0;
    var current := values[0];
    while true
      invariant attempts < |values| - 1 && current == values[attempts]
      decreases |values| - attempts
    {
      if Terminal(current) {
        return false, attempts;
      }
      attempts := attempts + 1;
      if values[attempts] == current {
        return true, attempts;
      }
      current := values[attempts];
    }
  }
}
