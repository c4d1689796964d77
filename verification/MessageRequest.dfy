/**
  * One send request of v2/message_transport.rs and the future that waits for it:
  * the driver, a closing thread and completions race for the request while the
  * waiter polls, parks, is woken, or is dropped. Each critical section and each
  * atomic operation is one step.
  */
module MessageRequest {
  import opened RingBuffers

  /** Buffer and credit still inside, the cancellation flag, and a result not yet taken. */
  datatype Request = Request(owns: bool, cancelled: bool, output: Option<bool>)

  datatype Action = Post | Cancelled | AlreadyHandled

  /** `start`: the first caller gets buffer and credit, to post or to give back. */
  function Started(r: Request): (Request, Action) {
    if !r.owns then (r, AlreadyHandled)
    else (r.(owns := false), if r.cancelled then Cancelled else Post)
  }

  /** `complete`, up to the wake: a result that is there stays. */
  function Completed(r: Request, ok: bool): Request {
    if r.output.None? then r.(output := Some(ok)) else r
  }

  /** `take_output` */
  function Taken(r: Request): (Request, Option<bool>) {
    (r.(output := None), r.output)
  }

  // ---------------------------------------------------------------------
  // The request and its waiter
  // ---------------------------------------------------------------------

  /** The waiter: about to look, about to register, about to look again, parked, done, or dropped. */
  datatype Waiter = Looking | Registering | LookingAgain | Parked | Done | Dropped

  /**
    * `registered` is the waker slot, `waking` the completions between setting the
    * result and waking, `scheduled` a wake that has reached the executor. The rest
    * records what happened: results completed, results handed to the waiter, and how
    * often the buffer was handed out to be posted and to be given back.
    */
  datatype State = State(req: Request, waiter: Waiter, registered: bool, waking: nat, scheduled: bool,
                         completed: seq<bool>, delivered: seq<bool>, posts: nat, givenBack: nat)

  datatype Step = Start | Complete(ok: bool) | Wake | Look | Register | Resume | DropWaiter

  function Init(): State {
    State(Request(true, false, None), Looking, false, 0, false, [], [], 0, 0)
  }

  /** What looking for a result leads to. */
  function Looked(s: State, otherwise: Waiter): State {
    var (req, r) := Taken(s.req);
    match r
    case Some(ok) => s.(req := req, waiter := Done, delivered := s.delivered + [ok])
    case None => s.(req := req, waiter := otherwise)
  }

  ghost predicate Next(s: State, a: Step, s': State) {
    match a
    case Start =>
      var (req, action) := Started(s.req);
      s' == s.(req := req,
               posts := s.posts + if action.Post? then 1 else 0,
               givenBack := s.givenBack + if action.Cancelled? then 1 else 0)
    case Complete(ok) =>
      s' == s.(req := Completed(s.req, ok), waking := s.waking + 1, completed := s.completed + [ok])
    case Wake =>
      // an empty waker slot wakes nobody
      s.waking > 0 && s' == s.(waking := s.waking - 1, registered := false, scheduled := s.scheduled || s.registered)
    case Look =>
      || (s.waiter.Looking? && s' == Looked(s, Registering))
      || (s.waiter.LookingAgain? && s' == Looked(s, Parked))
    case Register =>
      s.waiter.Registering? && s' == s.(waiter := LookingAgain, registered := true)
    case Resume =>
      s.waiter.Parked? && s.scheduled && s' == s.(waiter := Looking, scheduled := false)
    case DropWaiter =>
      // a waiter that has its result cancels nothing
      && !s.waiter.Dropped?
      && s' == s.(waiter := Dropped, req := if s.waiter.Done? then s.req else s.req.(cancelled := true))
  }

  ghost predicate IsRun(states: seq<State>, acts: seq<Step>) {
    && |states| == |acts| + 1 && states[0] == Init()
    && forall i :: 0 <= i < |acts| ==> Next(states[i], acts[i], states[i + 1])
  }

  /** The waiter has not looked since it registered, or has and found nothing. */
  predicate Waiting(w: Waiter) { w.LookingAgain? || w.Parked? }

  ghost predicate Inv(s: State) {
    // the buffer leaves once, to be posted or to be given back
    && s.posts + s.givenBack == (if s.req.owns then 0 else 1)
    && (s.givenBack > 0 ==> s.req.cancelled)
    && (s.req.cancelled ==> s.waiter.Dropped?)
    // nothing is delivered but the first result, once
    && |s.delivered| <= 1
    && (s.delivered != [] ==> (s.waiter.Done? || s.waiter.Dropped?) && s.completed != [] && s.delivered[0] == s.completed[0])
    && (s.waiter.Done? ==> s.delivered != [])
    // until then the first result is there to be taken
    && (s.delivered == [] ==>
          s.req.output == if s.completed == [] then None else Some(s.completed[0]))
    // and whoever waits for it will be woken
    && (Waiting(s.waiter) ==> s.registered || s.scheduled)
    && (s.waiter.Parked? && s.req.output.Some? ==> s.scheduled || s.waking > 0)
  }

  lemma NextKeeps(s: State, a: Step, s': State)
    requires Inv(s) && Next(s, a, s')
    ensures Inv(s')
  {
  }

  lemma {:induction false} RunInv(states: seq<State>, acts: seq<Step>, i: nat)
    requires IsRun(states, acts) && i < |states|
    ensures Inv(states[i])
  {
    hide Inv, Next;
    if i == 0 {
      assert Inv(Init()) by { InitInv(); }
    } else {
      RunInv(states, acts, i - 1);
      NextKeeps(states[i - 1], acts[i - 1], states[i]);
    }
  }

  lemma InitInv()
    ensures Inv(Init())
  {
  }

  /**
    * For every interleaving of starts, completions, polls and a drop: the buffer is
    * handed out at most once, and never posted after a cancellation was seen; the
    * waiter gets the first result and no other; and a waiter parked beside a result
    * has a wake-up on its way.
    */
  lemma OneResult(states: seq<State>, acts: seq<Step>, i: nat)
    requires IsRun(states, acts) && i < |states|
    ensures var s := states[i];
            && s.posts + s.givenBack <= 1
            && (s.delivered == [] || (s.completed != [] && s.delivered == [s.completed[0]]))
            && (s.waiter.Done? <==> s.delivered != [] && !s.waiter.Dropped?)
            && (s.waiter.Parked? && s.completed != [] ==> s.scheduled || (s.waking > 0 && s.registered))
  {
    hide IsRun;
    RunInv(states, acts, i);
  }

  /** A result is never lost: the waiter that looks once more after a completion has it. */
  lemma LookFinds(states: seq<State>, acts: seq<Step>, i: nat, s': State)
    requires IsRun(states, acts) && i < |states| && Next(states[i], Look, s') && states[i].completed != []
    ensures s'.waiter.Done? && s'.delivered == [states[i].completed[0]]
  {
    hide IsRun;
    RunInv(states, acts, i);
  }

  /** Step `j` drops a waiter that has no result yet, which cancels the request. */
  ghost predicate Cancels(states: seq<State>, acts: seq<Step>, j: nat)
    requires j < |acts| < |states|
  {
    acts[j].DropWaiter? && !states[j].waiter.Done?
  }

  /** The request is cancelled exactly if such a step has been taken. */
  lemma {:induction false} CancelledIff(states: seq<State>, acts: seq<Step>, i: nat)
    requires IsRun(states, acts) && i < |states|
    ensures states[i].req.cancelled <==> exists j: nat :: j < i && Cancels(states, acts, j)
  {
    if i > 0 {
      CancelledIff(states, acts, i - 1);
      assert Next(states[i - 1], acts[i - 1], states[i]);
      if acts[i - 1].DropWaiter? && !states[i - 1].waiter.Done? {
        assert Cancels(states, acts, i - 1);
      }
    }
  }

  /** Until a start the buffer stays where it is. */
  lemma {:induction false} OwnsUntilStart(states: seq<State>, acts: seq<Step>, i: nat)
    requires IsRun(states, acts) && i < |states| && forall j :: 0 <= j < i ==> !acts[j].Start?
    ensures states[i].req.owns && states[i].posts == 0 && states[i].givenBack == 0
  {
    if i > 0 {
      OwnsUntilStart(states, acts, i - 1);
      assert Next(states[i - 1], acts[i - 1], states[i]);
    }
  }

  /** Once it has left nothing changes that. */
  lemma {:induction false} StartsOnce(states: seq<State>, acts: seq<Step>, f: nat, i: nat)
    requires IsRun(states, acts) && f <= i < |states| && !states[f].req.owns
    ensures !states[i].req.owns && states[i].posts == states[f].posts && states[i].givenBack == states[f].givenBack
  {
    if f < i {
      StartsOnce(states, acts, f, i - 1);
      assert Next(states[i - 1], acts[i - 1], states[i]);
    }
  }

  /**
    * The first start decides, in every run: from then on the buffer has left exactly
    * once, and it was posted if and only if no waiter had been dropped without its
    * result before that start; otherwise it was given back.
    */
  lemma FirstStartDecides(states: seq<State>, acts: seq<Step>, f: nat, i: nat)
    requires IsRun(states, acts) && f < i < |states| && acts[f].Start? && forall j :: 0 <= j < f ==> !acts[j].Start?
    ensures !states[i].req.owns && states[i].posts + states[i].givenBack == 1
    ensures states[i].posts == 1 <==> forall j: nat :: j < f ==> !Cancels(states, acts, j)
  {
    OwnsUntilStart(states, acts, f);
    CancelledIff(states, acts, f);
    assert Next(states[f], acts[f], states[f + 1]);
    hide IsRun, Cancels;
    StartsOnce(states, acts, f + 1, i);
  }

  /** A cancelled request is given back, not posted. */
  lemma CancelledIsReturned(s: State, s': State)
    requires Inv(s) && Next(s, Start, s') && s.req.cancelled
    ensures s'.posts == s.posts && (s.req.owns ==> s'.givenBack == s.givenBack + 1)
  {
  }

  // ---------------------------------------------------------------------
  // The operations as they run
  // ---------------------------------------------------------------------

  /** `EngineSendRequest` */
  class EngineSendRequest {
    var owns: bool
    var cancelled: bool
    var output: Option<bool>

    ghost function Abs(): Request
      reads this
    {
      Request(owns, cancelled, output)
    }

    constructor ()
      ensures Abs() == Init().req
    {
      owns, cancelled, output := true, false, None;
    }

    method Start() returns (action: Action)
      modifies this`owns
      ensures (Abs(), action) == Started(old(Abs()))
    {
      if !owns {
        return AlreadyHandled;
      }
      owns := false;
      return if cancelled then Cancelled else Post;
    }

    method Complete(ok: bool)
      modifies this`output
      ensures Abs() == Completed(old(Abs()), ok)
    {
      if output.None? {
        output := Some(ok);
      }
    }

    method TakeOutput() returns (r: Option<bool>)
      modifies this`output
      ensures (Abs(), r) == Taken(old(Abs()))
    {
      r := output;
      output := None;
    }

    method Cancel()
      modifies this`cancelled
      ensures Abs() == old(Abs()).(cancelled := true)
    {
      cancelled := true;
    }
  }

  /** `EngineSendWaiter`; `between` is what completes between registering and looking again. */
  class EngineSendWaiter {
    const request: EngineSendRequest
    var done: bool

    constructor (r: EngineSendRequest)
      ensures request == r && !done
    {
      request, done := r, false;
    }

    /** `poll`: ready exactly when a result is there or comes before the second look. */
    method Poll(between: Option<bool>) returns (result: Option<bool>, registered: bool)
      modifies this`done, request`output
      ensures var was := old(request.Abs());
              var seen := if between.Some? then Completed(was, between.value) else was;
              && result == (if was.output.Some? then was.output else seen.output)
              && registered == was.output.None?
              && done == (old(done) || result.Some?)
              && request.Abs() == was.(output := None)
    {
      result := request.TakeOutput();
      registered := false;
      if result.Some? {
        done := true;
        return;
      }
      registered := true;
      if between.Some? {
        request.Complete(between.value);
      }
      result := request.TakeOutput();
      if result.Some? {
        done := true;
      }
    }

    /** `Drop` */
    method Close()
      modifies request`cancelled
      ensures request.Abs() == if done then old(request.Abs()) else old(request.Abs()).(cancelled := true)
    {
      if !done {
        request.Cancel();
      }
    }
  }
}
