/**
  * conn_slot.rs: the hand-off between the core driver, which reaps a shared
  * completion queue, and one connection's transport.
  */
module ConnSlots {
  import opened Modular
  import opened TransportCommon

  datatype Dir = Send | Recv

  /**
    * A completion. Routing sees the queue-pair number alone; `conn` and `number`
    * name the connection it belongs to and its place among that connection's
    * completions in its direction.
    */
  datatype Cqe = Cqe(qp: nat, conn: nat, number: nat)

  datatype SlotState = Connecting | Established | Closing | Drained

  datatype Fault = NoFault | InboxOverflow | SharedCqPollFailed

  /** One direction: the inbox, its size, and the work requests the device can still complete. */
  datatype Lane = Lane(inbox: seq<Cqe>, capacity: nat, posted: nat)

  datatype Slot = Slot(qp: nat, send: Lane, recv: Lane, state: SlotState, fault: Fault, generation: nat) {
    function Of(dir: Dir): Lane { if dir.Send? then send else recv }

    function With(dir: Dir, lane: Lane): (s: Slot)
      ensures s.Of(dir) == lane && forall d :: d != dir ==> s.Of(d) == Of(d)
      ensures s.qp == qp && s.state == state && s.fault == fault && s.generation == generation
    {
      if dir.Send? then this.(send := lane) else this.(recv := lane)
    }

    /** `drain_complete` */
    predicate DrainComplete() {
      send.posted == 0 && recv.posted == 0 && send.inbox == [] && recv.inbox == []
    }

    /** `mark_fatal`: the first fault sticks. */
    function MarkFatal(f: Fault): Slot {
      if fault.NoFault? then this.(fault := f) else this
    }

    /** `deliver`, and what the driver does when the inbox is full. */
    function Deliver(dir: Dir, wc: Cqe): Slot {
      var lane := Of(dir);
      if |lane.inbox| < lane.capacity then With(dir, lane.(inbox := lane.inbox + [wc]))
      else MarkFatal(InboxOverflow)
    }

    /** Both inboxes emptied by the driver during teardown. */
    function Discarded(): Slot {
      this.(send := send.(inbox := []), recv := recv.(inbox := []))
    }
  }

  /** The cells of the positions `from..from + n`. */
  function Window(cells: seq<Cqe>, from: nat, n: nat): (r: seq<Cqe>)
    requires |cells| > 0
    ensures |r| == n
    decreases n
  {
    if n == 0 then [] else [cells[from % |cells|]] + Window(cells, from + 1, n - 1)
  }

  lemma {:induction false} WindowSplit(cells: seq<Cqe>, from: nat, k: nat, n: nat)
    requires |cells| > 0 && k <= n
    ensures Window(cells, from, n) == Window(cells, from, k) + Window(cells, from + k, n - k)
    decreases k
  {
    if k > 0 {
      WindowSplit(cells, from + 1, k - 1, n - 1);
    }
  }

  lemma WindowSnoc(cells: seq<Cqe>, from: nat, n: nat)
    requires |cells| > 0
    ensures Window(cells, from, n + 1) == Window(cells, from, n) + [cells[(from + n) % |cells|]]
  {
    WindowSplit(cells, from, n, n + 1);
  }

  /** Writing a cell outside the window leaves the window alone. */
  lemma {:induction false} WindowWrite(cells: seq<Cqe>, from: nat, n: nat, at: nat, wc: Cqe)
    requires |cells| > 0 && from + n <= at < from + |cells|
    ensures Window(cells[at % |cells| := wc], from, n) == Window(cells, from, n)
    decreases n
  {
    if n > 0 {
      Distinct(from, at, |cells|);
      WindowWrite(cells, from + 1, n - 1, at, wc);
    }
  }

  /**
    * A bounded single-producer single-consumer ring. Positions only grow; the
    * cell of a position is its remainder.
    */
  class Inbox {
    const cells: array<Cqe>
    var head: nat
    var tail: nat

    ghost predicate Valid()
      reads this
    {
      0 < cells.Length && head <= tail <= head + cells.Length
    }

    /** The completions pushed and not yet drained, oldest first. */
    ghost function Contents(): seq<Cqe>
      reads this, cells
      requires Valid()
    {
      Window(cells[..], head, tail - head)
    }

    constructor (capacity: nat)
      requires capacity > 0
      ensures Valid() && fresh(cells) && cells.Length == capacity && Contents() == []
    {
      cells := new Cqe[capacity](_ => Cqe(0, 0, 0));
      head, tail := 0, 0;
    }

    /** `push`: refuses exactly when the ring is full. */
    method Push(wc: Cqe) returns (ok: bool)
      requires Valid()
      modifies this`tail, cells
      ensures Valid()
      ensures ok <==> |old(Contents())| < cells.Length
      ensures Contents() == if ok then old(Contents()) + [wc] else old(Contents())
    {
      if tail - head >= cells.Length {
        return false;
      }
      WindowWrite(cells[..], head, tail - head, tail, wc);
      cells[tail % cells.Length] := wc;
      WindowSplit(cells[..], head, tail - head, tail + 1 - head);
      tail := tail + 1;
      return true;
    }

    /** `drain`: up to `room` completions in order. */
    method Drain(room: nat) returns (out: seq<Cqe>)
      requires Valid()
      modifies this`head
      ensures Valid()
      ensures |out| == Min(room, |old(Contents())|)
      ensures old(Contents()) == out + Contents()
    {
      var n := Min(room, tail - head);
      out := [];
      for i := 0 to n
        invariant head == old(head) && out == Window(cells[..], head, i)
      {
        WindowSnoc(cells[..], head, i);
        out := out + [cells[(head + i) % cells.Length]];
      }
      WindowSplit(cells[..], head, n, tail - head);
      head := head + n;
    }
  }

  datatype Polled = Fatal(fault: Fault) | Got(out: seq<Cqe>) | Waiting

  /** The slot as an object: inboxes, counters and flags updated in place. */
  class ConnSlot {
    const qpNum: nat
    const send: Inbox
    const recv: Inbox
    var sendPosted: nat
    var recvPosted: nat
    var state: SlotState
    var terminal: Fault
    var generation: nat

    ghost function Repr(): set<object> { {this, send, send.cells, recv, recv.cells} }

    ghost predicate Valid()
      reads Repr()
    {
      send.Valid() && recv.Valid() && send != recv && send.cells != recv.cells
    }

    ghost function Abs(): Slot
      reads Repr()
      requires Valid()
    {
      Slot(qpNum, Lane(send.Contents(), send.cells.Length, sendPosted),
           Lane(recv.Contents(), recv.cells.Length, recvPosted), state, terminal, generation)
    }

    constructor (qp: nat, sendCapacity: nat, recvCapacity: nat)
      requires sendCapacity > 0 && recvCapacity > 0
      ensures Valid() && fresh(Repr())
      ensures Abs() == Slot(qp, Lane([], sendCapacity, 0), Lane([], recvCapacity, 0), Connecting, NoFault, 0)
    {
      qpNum := qp;
      send := new Inbox(sendCapacity);
      recv := new Inbox(recvCapacity);
      sendPosted, recvPosted := 0, 0;
      state, terminal, generation := Connecting, NoFault, 0;
    }

    method IncPosted(dir: Dir)
      requires Valid()
      modifies this`sendPosted, this`recvPosted
      ensures Valid()
      ensures var lane := old(Abs()).Of(dir);
              Abs() == old(Abs()).With(dir, lane.(posted := lane.posted + 1))
    {
      if dir.Send? {
        sendPosted := sendPosted + 1;
      } else {
        recvPosted := recvPosted + 1;
      }
    }

    /** `dec_posted`; the source panics when nothing was posted. */
    method DecPosted(dir: Dir)
      requires Valid() && Abs().Of(dir).posted > 0
      modifies this`sendPosted, this`recvPosted
      ensures Valid()
      ensures var lane := old(Abs()).Of(dir);
              Abs() == old(Abs()).With(dir, lane.(posted := lane.posted - 1))
    {
      if dir.Send? {
        sendPosted := sendPosted - 1;
      } else {
        recvPosted := recvPosted - 1;
      }
    }

    method MarkFatal(fault: Fault)
      requires Valid()
      modifies this`terminal
      ensures Valid() && Abs() == old(Abs()).MarkFatal(fault)
    {
      if terminal.NoFault? {
        terminal := fault;
      }
    }

    /** `deliver`, followed by the driver's reaction to a full inbox. */
    method Deliver(dir: Dir, wc: Cqe)
      requires Valid()
      modifies Repr()
      ensures Valid() && Abs() == old(Abs()).Deliver(dir, wc)
    {
      var ok;
      if dir.Send? {
        ok := send.Push(wc);
      } else {
        ok := recv.Push(wc);
      }
      if !ok {
        MarkFatal(InboxOverflow);
      }
    }

    method DrainComplete() returns (done: bool)
      requires Valid()
      ensures done == Abs().DrainComplete()
    {
      done := sendPosted == 0 && recvPosted == 0 && send.tail == send.head && recv.tail == recv.head;
    }

    /** `poll_inbox`: a fault hides the inbox; otherwise completions come in order. */
    method PollInbox(dir: Dir, room: nat) returns (r: Polled)
      requires Valid()
      modifies send`head, recv`head
      ensures Valid()
      ensures r.Fatal? <==> !old(terminal).NoFault?
      ensures r.Fatal? ==> r.fault == old(terminal) && Abs() == old(Abs())
      ensures r.Waiting? ==> (room == 0 || old(Abs()).Of(dir).inbox == []) && Abs() == old(Abs())
      ensures r.Got? ==> var lane := old(Abs()).Of(dir);
        && 0 < |r.out| == Min(room, |lane.inbox|) && r.out <= lane.inbox
        && Abs() == old(Abs()).With(dir, lane.(inbox := lane.inbox[|r.out|..]))
    {
      if !terminal.NoFault? {
        return Fatal(terminal);
      }
      var out;
      if dir.Send? {
        out := send.Drain(room);
      } else {
        out := recv.Drain(room);
      }
      if |out| > 0 {
        return Got(out);
      }
      return Waiting;
    }

    /** The two drain loops of the reclaim pass. */
    method Discard()
      requires Valid()
      modifies send`head, recv`head
      ensures Valid() && Abs() == old(Abs()).Discarded()
    {
      while send.tail > send.head
        invariant Valid() && recv.Contents() == old(recv.Contents())
        decreases send.tail - send.head
      {
        var gone := send.Drain(64);
      }
      while recv.tail > recv.head
        invariant Valid() && send.Contents() == []
        decreases recv.tail - recv.head
      {
        var gone := recv.Drain(64);
      }
    }

    /** `retire` and `abandon` bump the generation; only `retire` demands a complete drain. */
    method Retire()
      requires Valid() && Abs().DrainComplete()
      modifies this`generation
      ensures Valid() && Abs() == old(Abs()).(generation := old(generation) + 1)
    {
      generation := generation + 1;
    }

    method Abandon()
      requires Valid()
      modifies this`generation
      ensures Valid() && Abs() == old(Abs()).(generation := old(generation) + 1)
    {
      generation := generation + 1;
    }
  }
}
