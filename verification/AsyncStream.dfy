/**
  * `AsyncRdmaStream` as it is written: an object whose calls update the partly
  * consumed buffer, the stash and the flags in place, over the receiving half of
  * a ring transport. What a release frees is the transport's business and is
  * returned to it.
  */
module AsyncStream {
  import opened RingBuffers
  import opened CompletionTrackers
  import opened TransportCommon
  import opened RecvSide
  import opened Halves
  import opened StreamSpec

  datatype ReadResult = Pending | Ready(n: nat)

  /** What the transports guarantee of their queue: readable buffers, each queued once. */
  ghost predicate QueueOk(rx: Rx) {
    && (forall j :: 0 <= j < |rx.stash| ==> Readable(rx, rx.stash[j].bufIdx, rx.stash[j].byteLen))
    && (forall j, m :: 0 <= j < m < |rx.stash| ==> rx.stash[j].bufIdx != rx.stash[m].bufIdx)
  }

  ghost predicate StreamOk(rx: Rx, st: Stream) {
    && ShapeOk(rx) && QueueOk(rx) && StreamSpec.Ready(rx, st)
    && (st.pending.Some? ==> HandedOut(rx, st.pending.value.idx))
  }

  /** The queue of a ring whose invariant holds is as the stream needs it. */
  lemma RingQueueOk(k: nat, cap: nat, log: seq<WorkLog.Wr>, exec: nat, rx: Rx, h: Past)
    requires RxInv(k, cap, log, exec, rx, h)
    ensures QueueOk(rx)
  {
    forall j | 0 <= j < |rx.stash|
      ensures Readable(rx, rx.stash[j].bufIdx, rx.stash[j].byteLen)
    {
      var i := HandsOutInOrder(k, cap, log, exec, rx, h, j);
      ReadsBack(k, cap, log, exec, rx, h, rx.stash[j].bufIdx, i);
    }
    forall j, m | 0 <= j < m < |rx.stash|
      ensures rx.stash[j].bufIdx != rx.stash[m].bufIdx
    {
      QueuedOnce(k, cap, log, exec, rx, h, j, m);
    }
  }

  /** A stream that has just taken the front completion. */
  lemma TakenOk(rx: Rx, st: Stream)
    requires StreamOk(rx, st) && rx.stash != []
    ensures var rx1 := rx.(stash := rx.stash[1..]);
            StreamOk(rx1, st) && HandedOut(rx1, rx.stash[0].bufIdx)
  {
    var rx1 := rx.(stash := rx.stash[1..]);
    forall j | 0 <= j < |rx1.stash|
      ensures rx1.stash[j] == rx.stash[j + 1]
    {
    }
  }

  /** Releasing a buffer that is neither queued nor partly consumed. */
  lemma ReleasedOk(rx: Rx, st: Stream, idx: nat)
    requires StreamOk(rx, st) && HandedOut(rx, idx) && (st.pending.Some? ==> st.pending.value.idx != idx)
    ensures StreamOk(Repost(rx, idx).0, st)
  {
    hide Tracker.Release;
  }

  /** When a read must wait, and when it has nothing to do. */
  lemma ReadIdle(rx: Rx, st: Stream, room: nat)
    requires StreamOk(rx, st)
    ensures var r := Read(rx, st, room);
            && (room == 0 || st.eof ==> r == Some(Outcome(st, [], 0, None)) && After(rx, r.value) == rx)
            && (room > 0 && !st.eof ==>
                  (r.None? <==> st.pending.None? && st.stash == [] && rx.stash == []))
  {
    assert rx.stash[0..] == rx.stash;
  }

  /** Draining the front completion keeps the stream in order. */
  lemma DrainOneOk(rx: Rx, st: Stream)
    requires StreamOk(rx, st) && rx.stash != []
    ensures var o := DrainOne(rx, st); var rx' := After(rx, o);
            && StreamOk(rx', o.st) && rx'.stash == rx.stash[1..]
            && o.st.pending == st.pending && o.st.stashOffset == st.stashOffset && o.st.eof == st.eof
            && |st.stash| <= |o.st.stash| <= |st.stash| + 1
  {
    TakenOk(rx, st);
    var rx1 := rx.(stash := rx.stash[1..]);
    var o := DrainOne(rx, st);
    hide Tracker.Release;
    assert StreamOk(rx1, o.st);
    ReleasedOk(rx1, o.st, rx.stash[0].bufIdx);
  }

  /** The first `n` completions drained one after the other. */
  ghost function DrainMany(rx: Rx, st: Stream, n: nat): (r: (Rx, Stream))
    requires StreamOk(rx, st) && n <= |rx.stash|
    ensures StreamOk(r.0, r.1) && r.0.stash == rx.stash[n..] && r.1.eof == st.eof
  {
    if n == 0 then (rx, st)
    else
      var (rx1, st1) := DrainMany(rx, st, n - 1);
      DrainOneOk(rx1, st1);
      var o := DrainOne(rx1, st1);
      (After(rx1, o), o.st)
  }

  /** The state part-way through a batch: `n` completions taken, `j` of them drained. */
  ghost predicate Draining(rx0: Rx, st0: Stream, n: nat, j: nat, rx: Rx, st: Stream) {
    && StreamOk(rx0, st0) && j <= n <= |rx0.stash|
    && st == DrainMany(rx0, st0, j).1
    && rx == DrainMany(rx0, st0, j).0.(stash := rx0.stash[n..])
  }

  lemma DropOk(rx: Rx, st: Stream, m: nat)
    requires StreamOk(rx, st) && m <= |rx.stash|
    ensures StreamOk(rx.(stash := rx.stash[m..]), st)
    ensures forall i :: 0 <= i < m ==> HandedOut(rx.(stash := rx.stash[m..]), rx.stash[i].bufIdx)
  {
    var rx1 := rx.(stash := rx.stash[m..]);
    forall j | 0 <= j < |rx1.stash|
      ensures rx1.stash[j] == rx.stash[j + m]
    {
    }
  }

  /** The next completion of the batch is handed out, readable and not the partly consumed one. */
  lemma DrainingNext(rx0: Rx, st0: Stream, n: nat, j: nat, rx: Rx, st: Stream)
    requires Draining(rx0, st0, n, j, rx, st) && j < n
    ensures var c := rx0.stash[j];
            && StreamOk(rx, st) && HandedOut(rx, c.bufIdx) && Readable(rx, c.bufIdx, c.byteLen)
            && (st.pending.Some? ==> st.pending.value.idx != c.bufIdx)
  {
    var rxj := DrainMany(rx0, st0, j).0;
    hide DrainMany;
    DropOk(rxj, st, n - j);
    assert rxj.stash[0] == rx0.stash[j] && rxj.stash[n - j..] == rx0.stash[n..];
  }

  lemma DrainingStep(rx0: Rx, st0: Stream, n: nat, j: nat, rx: Rx, st: Stream)
    requires Draining(rx0, st0, n, j, rx, st) && j < n
    ensures var c := rx0.stash[j];
            && c.bufIdx < |rx.vmap| && rx.vmap[c.bufIdx].Some? && ShapeOk(rx) && Readable(rx, c.bufIdx, c.byteLen)
            && Draining(rx0, st0, n, j + 1, Repost(rx, c.bufIdx).0,
                        st.(stash := st.stash + if c.byteLen > 0 then [RecvBuf(rx, c.bufIdx)] else []))
  {
    DrainingNext(rx0, st0, n, j, rx, st);
    var c := rx0.stash[j];
    var (rxj, stj) := DrainMany(rx0, st0, j);
    assert rxj.stash[0] == c;
    var o := DrainOne(rxj, stj);
    assert DrainMany(rx0, st0, j + 1) == (After(rxj, o), o.st);
    hide Tracker.Release, DrainMany, QueueOk, HandedOut;
    assert st.stash + [] == st.stash;
  }

  lemma DrainedAll(rx0: Rx, st0: Stream, n: nat, rx: Rx, st: Stream)
    requires Draining(rx0, st0, n, n, rx, st)
    ensures StreamOk(rx0, st0) && n <= |rx0.stash| && (rx, st) == DrainMany(rx0, st0, n)
  {
  }

  lemma EofOk(rx: Rx, st: Stream, eof: bool)
    requires StreamOk(rx, st)
    ensures StreamOk(rx, st.(eof := eof))
  {
  }

  lemma {:induction false} DrainManyMore(rx: Rx, st: Stream, a: nat, b: nat)
    requires StreamOk(rx, st) && a + b <= |rx.stash|
    ensures var (rx1, st1) := DrainMany(rx, st, a); DrainMany(rx, st, a + b) == DrainMany(rx1, st1, b)
  {
    hide StreamOk, After, DrainOne;
    if b > 0 {
      DrainManyMore(rx, st, a, b - 1);
    }
  }

  // ---------------------------------------------------------------------
  // Writing
  // ---------------------------------------------------------------------

  /** What the transport answers during one turn of the write loop. */
  datatype SendRes = Sent(n: nat) | SendErr
  datatype ReapRes = Reaped | ReapErr | NoneReady
  datatype Turn = Turn(first: SendRes, second: SendRes, reap: ReapRes)

  datatype WriteResult = WritePending | Wrote(n: nat) | WriteFailed | BrokenPipe

  /** The turn does not go round again. */
  predicate Ends(t: Turn) {
    t.first != Sent(0) || t.second != Sent(0) || !t.reap.Reaped?
  }

  /** The result of the write loop from turn `i` on, and whether it ends the stream. */
  function WriteLoop(turns: seq<Turn>, i: nat, gone: bool): (WriteResult, bool)
    requires i < |turns| && Ends(turns[|turns| - 1])
    decreases |turns| - i
  {
    var t := turns[i];
    if t.first.SendErr? then (WriteFailed, false)
    else if t.first.n > 0 then (Wrote(t.first.n), false)
    else if t.second.SendErr? then (WriteFailed, false)
    else if t.second.n > 0 then (Wrote(t.second.n), false)
    else match t.reap
      case Reaped => WriteLoop(turns, i + 1, gone)
      case ReapErr => (WriteFailed, true)
      case NoneReady => if gone then (BrokenPipe, true) else (WritePending, false)
  }

  /** Both attempts of the turn sent nothing. */
  predicate Blocked(t: Turn) { t.first == Sent(0) && t.second == Sent(0) }

  /** What the turn's attempts come to: an error, or the bytes of the first that sent any. */
  function Attempt(t: Turn): SendRes { if t.first == Sent(0) then t.second else t.first }

  /**
    * The write loop goes round exactly while nothing is sent and something is reaped,
    * and the turn that ends it decides: it is pending only if nothing was sent, nothing
    * is left to reap and the peer is there, and the stream ends only on a broken pipe or
    * a failed reap.
    */
  lemma {:induction false} WriteLoopDecides(turns: seq<Turn>, i: nat, gone: bool) returns (j: nat)
    requires i < |turns| && Ends(turns[|turns| - 1])
    ensures i <= j < |turns| && !(Blocked(turns[j]) && turns[j].reap.Reaped?)
    ensures forall k :: i <= k < j ==> Blocked(turns[k]) && turns[k].reap.Reaped?
    ensures var (res, ended) := WriteLoop(turns, i, gone);
            && (res.Wrote? <==> !Blocked(turns[j]) && Attempt(turns[j]).Sent?)
            && (res.Wrote? ==> res.n == Attempt(turns[j]).n > 0)
            && (res.WritePending? <==> Blocked(turns[j]) && turns[j].reap.NoneReady? && !gone)
            && (res.BrokenPipe? <==> Blocked(turns[j]) && turns[j].reap.NoneReady? && gone)
            && (ended <==> res.BrokenPipe? || (Blocked(turns[j]) && turns[j].reap.ReapErr?))
    decreases |turns| - i
  {
    j := i;
    if !Ends(turns[i]) {
      j := WriteLoopDecides(turns, i + 1, gone);
    }
  }

  /** The unfilled tail of a caller's buffer, filled from the front. */
  class ReadBuf {
    const data: array<u8>
    var filled: nat

    ghost predicate Valid()
      reads this
    {
      filled <= data.Length
    }

    constructor (buffer: array<u8>)
      ensures data == buffer && filled == 0 && Valid()
    {
      data, filled := buffer, 0;
    }

    method PutSlice(bytes: seq<u8>)
      requires Valid() && |bytes| <= data.Length - filled
      modifies this, data
      ensures Valid() && filled == old(filled) + |bytes|
      ensures data[..] == Store(old(data[..]), old(filled), bytes)
    {
      CopyInto(data, filled, bytes);
      filled := filled + |bytes|;
    }
  }

  class AsyncRdmaStream {
    const recv: RecvHalf
    var recvPending: Option<Partial>
    var recvStash: seq<seq<u8>>
    var stashOffset: nat
    var writeBlocked: bool
    var eof: bool

    ghost function Repr(): set<object> {
      {this, recv, recv.mem, recv.virtualIdxMap, recv.tracker, recv.tracker.released}
    }

    ghost function Abs(): Stream
      reads this
    {
      Stream(recvPending, recvStash, stashOffset, eof)
    }

    ghost predicate Valid()
      reads Repr()
    {
      StreamOk(recv.Abs(), Abs())
    }

    constructor (half: RecvHalf)
      requires half.Valid() && QueueOk(half.Abs())
      ensures Valid() && recv == half && Abs() == Stream(None, [], 0, false) && !writeBlocked
    {
      recv := half;
      recvPending, recvStash, stashOffset, writeBlocked, eof := None, [], 0, false, false;
    }

    /** Phase 1: the partly consumed buffer. */
    method ServePending(room: nat) returns (bytes: seq<u8>, freed: nat)
      requires Valid() && room > 0 && !eof && recvPending.Some?
      modifies Repr()
      ensures Valid() && |bytes| <= room && writeBlocked == old(writeBlocked)
      ensures var o := Read(old(recv.Abs()), old(Abs()), room).value;
              bytes == o.bytes && Abs() == o.st && recv.Abs() == After(old(recv.Abs()), o)
    {
      ghost var rx, st := recv.Abs(), Abs();
      assert rx.stash[0..] == rx.stash;
      var p := recvPending.value;
      var remaining := p.total - p.offset;
      var copyLen := Min(remaining, room);
      var buf := recv.RecvBuf(p.idx);
      bytes, freed := buf[p.offset..p.offset + copyLen], 0;
      if copyLen < remaining {
        recvPending := Some(p.(offset := p.offset + copyLen));
      } else {
        recvPending := None;
        ReleasedOk(rx, st.(pending := None), p.idx);
        hide Tracker.Release;
        freed := recv.Unmap(p.idx);
      }
    }

    /** Phase 1.5: bytes a blocked write drained. */
    method ServeStash(room: nat) returns (bytes: seq<u8>)
      requires Valid() && room > 0 && !eof && recvPending.None? && recvStash != []
      modifies this`recvStash, this`stashOffset
      ensures Valid() && |bytes| <= room
      ensures var o := Read(recv.Abs(), old(Abs()), room).value;
              bytes == o.bytes && Abs() == o.st && After(recv.Abs(), o) == recv.Abs()
    {
      assert recv.stash[0..] == recv.stash;
      var front := recvStash[0];
      var avail := |front| - stashOffset;
      var copyLen := Min(avail, room);
      bytes := front[stashOffset..stashOffset + copyLen];
      if copyLen < avail {
        stashOffset := stashOffset + copyLen;
      } else {
        recvStash, stashOffset := recvStash[1..], 0;
      }
    }

    /** Phase 2: the completion at the front of the transport's queue. */
    method ServeFresh(room: nat) returns (bytes: seq<u8>, freed: nat)
      requires Valid() && room > 0 && !eof && recvPending.None? && recvStash == [] && recv.stash != []
      modifies Repr()
      ensures Valid() && |bytes| <= room && writeBlocked == old(writeBlocked)
      ensures var o := Read(old(recv.Abs()), old(Abs()), room).value;
              bytes == o.bytes && Abs() == o.st && recv.Abs() == After(old(recv.Abs()), o)
    {
      ghost var rx, st := recv.Abs(), Abs();
      TakenOk(rx, st);
      var c := recv.stash[0];
      recv.stash := recv.stash[1..];
      freed := 0;
      if c.byteLen == 0 {
        return [], 0;
      }
      var copyLen := Min(c.byteLen, room);
      var buf := recv.RecvBuf(c.bufIdx);
      bytes := buf[..copyLen];
      if copyLen < c.byteLen {
        recvPending := Some(Partial(c.bufIdx, copyLen, c.byteLen));
      } else {
        ReleasedOk(recv.Abs(), st, c.bufIdx);
        hide Tracker.Release;
        freed := recv.Unmap(c.bufIdx);
      }
    }

    /** The phases both reads go through; `gone` is what `poll_disconnect` reports. */
    method NextBytes(room: nat, gone: bool) returns (res: ReadResult, bytes: seq<u8>, freed: nat)
      requires Valid()
      modifies Repr()
      ensures Valid() && writeBlocked == old(writeBlocked) && |bytes| <= room
      ensures match Read(old(recv.Abs()), old(Abs()), room)
        case Some(o) =>
          && res == Ready(|o.bytes|) && bytes == o.bytes
          && Abs() == o.st && recv.Abs() == After(old(recv.Abs()), o)
        case None =>
          && res == (if gone then Ready(0) else Pending) && bytes == []
          && Abs() == old(Abs()).(eof := gone) && recv.Abs() == old(recv.Abs())
    {
      ReadIdle(recv.Abs(), Abs(), room);
      res, bytes, freed := Ready(0), [], 0;
      if room == 0 || eof {
        return;
      }
      if recvPending.Some? {
        bytes, freed := ServePending(room);
      } else if recvStash != [] {
        bytes := ServeStash(room);
      } else if recv.stash != [] {
        bytes, freed := ServeFresh(room);
      } else if gone {
        eof := true;
      } else {
        res := Pending;
        return;
      }
      hide Read, After;
      res := Ready(|bytes|);
    }

    /** `poll_read` */
    method PollRead(buf: array<u8>, gone: bool) returns (res: ReadResult, freed: nat)
      requires Valid() && buf != recv.mem
      modifies Repr(), buf
      ensures Valid() && writeBlocked == old(writeBlocked)
      ensures match Read(old(recv.Abs()), old(Abs()), buf.Length)
        case Some(o) =>
          && res == Ready(|o.bytes|) && Abs() == o.st && recv.Abs() == After(old(recv.Abs()), o)
          && |o.bytes| <= buf.Length && buf[..] == Store(old(buf[..]), 0, o.bytes)
        case None =>
          && res == (if gone then Ready(0) else Pending) && buf[..] == old(buf[..])
          && Abs() == old(Abs()).(eof := gone) && recv.Abs() == old(recv.Abs())
    {
      hide Read, After, StreamOk;
      var bytes;
      res, bytes, freed := NextBytes(buf.Length, gone);
      CopyInto(buf, 0, bytes);
    }

    /** `poll_read_tokio`: the same bytes, appended to what the buffer already holds. */
    method PollReadTokio(buf: ReadBuf, gone: bool) returns (res: ReadResult, freed: nat)
      requires Valid() && buf.Valid() && buf.data != recv.mem
      modifies Repr(), buf, buf.data
      ensures Valid() && buf.Valid() && writeBlocked == old(writeBlocked)
      ensures match Read(old(recv.Abs()), old(Abs()), buf.data.Length - old(buf.filled))
        case Some(o) =>
          && res == Ready(|o.bytes|) && Abs() == o.st && recv.Abs() == After(old(recv.Abs()), o)
          && buf.filled == old(buf.filled) + |o.bytes|
          && buf.data[..] == Store(old(buf.data[..]), old(buf.filled), o.bytes)
        case None =>
          && res == (if gone then Ready(0) else Pending)
          && buf.filled == old(buf.filled) && buf.data[..] == old(buf.data[..])
          && Abs() == old(Abs()).(eof := gone) && recv.Abs() == old(recv.Abs())
    {
      hide Read, After, StreamOk;
      var bytes;
      res, bytes, freed := NextBytes(buf.data.Length - buf.filled, gone);
      buf.PutSlice(bytes);
    }

    /** Copy one handed-out completion into the stash and release its buffer. */
    method StashAndRepost(c: RecvDone) returns (freed: nat)
      requires Valid() && HandedOut(recv.Abs(), c.bufIdx) && Readable(recv.Abs(), c.bufIdx, c.byteLen)
      requires recvPending.Some? ==> recvPending.value.idx != c.bufIdx
      modifies Repr()
      ensures Valid() && eof == old(eof) && writeBlocked == old(writeBlocked)
      ensures Abs() == old(Abs()).(stash := old(recvStash)
                         + if c.byteLen > 0 then [RecvSide.RecvBuf(old(recv.Abs()), c.bufIdx)] else [])
      ensures recv.Abs() == Repost(old(recv.Abs()), c.bufIdx).0
    {
      if c.byteLen > 0 {
        var owned := recv.RecvBuf(c.bufIdx);
        recvStash := recvStash + [owned];
      }
      ReleasedOk(recv.Abs(), Abs(), c.bufIdx);
      hide Tracker.Release;
      freed := recv.Unmap(c.bufIdx);
    }

    /** One `poll_recv` of up to sixteen completions, each stashed and released. */
    method DrainBatch() returns (n: nat)
      requires Valid()
      modifies Repr()
      ensures Valid() && eof == old(eof) && writeBlocked == old(writeBlocked)
      ensures n == Min(DRAIN_BATCH, |old(recv.stash)|)
      ensures (recv.Abs(), Abs()) == DrainMany(old(recv.Abs()), old(Abs()), n)
    {
      n := Min(DRAIN_BATCH, |recv.stash|);
      ghost var rx0, st0 := recv.Abs(), Abs();
      var batch := recv.stash[..n];
      recv.stash := recv.stash[n..];
      assert Draining(rx0, st0, n, 0, recv.Abs(), Abs());
      hide Draining, StreamOk, HandedOut, Repost;
      DropOk(rx0, st0, n);
      for j := 0 to n
        invariant Valid() && Draining(rx0, st0, n, j, recv.Abs(), Abs())
        invariant eof == old(eof) && writeBlocked == old(writeBlocked)
      {
        DrainingNext(rx0, st0, n, j, recv.Abs(), Abs());
        DrainingStep(rx0, st0, n, j, recv.Abs(), Abs());
        var freed := StashAndRepost(batch[j]);
      }
      DrainedAll(rx0, st0, n, recv.Abs(), Abs());
    }

    /** `n` completions have been drained since the state `rx0`, `st0`. */
    ghost predicate Drained(rx0: Rx, st0: Stream, n: nat)
      reads Repr()
    {
      && Valid() && StreamOk(rx0, st0) && n + |recv.stash| == |rx0.stash|
      && (recv.Abs(), Abs()) == DrainMany(rx0, st0, n)
    }

    /** One more batch. */
    method DrainMore(ghost rx0: Rx, ghost st0: Stream, ghost done: nat) returns (n: nat)
      requires Drained(rx0, st0, done)
      modifies Repr()
      ensures Drained(rx0, st0, done + n) && writeBlocked == old(writeBlocked)
      ensures n <= |old(recv.stash)| && |recv.stash| == |old(recv.stash)| - n && (n == 0 <==> old(recv.stash) == [])
    {
      hide StreamOk;
      n := DrainBatch();
      DrainManyMore(rx0, st0, done, n);
    }

    /** The drain of a blocked write: until the queue is empty or the stash is full. */
    method DrainWhileBlocked(recvWindow: nat, ghost rx0: Rx, ghost st0: Stream, ghost done: nat)
      returns (n: nat)
      requires Drained(rx0, st0, done)
      modifies Repr()
      ensures Drained(rx0, st0, done + n) && writeBlocked == old(writeBlocked)
      ensures recv.stash == [] || |recvStash| >= StashDrainCap(recvWindow)
    {
      hide *;
      n := 0;
      while |recvStash| < StashDrainCap(recvWindow) && recv.stash != []
        invariant Drained(rx0, st0, done + n) && writeBlocked == old(writeBlocked)
        decreases |recv.stash|
      {
        var got := DrainMore(rx0, st0, done + n);
        n := n + got;
      }
    }

    /** `poll_write_bufs`; `turns` is what the transport answers, `goneNow` and `gone` the disconnect polls. */
    method PollWriteBufs(total: nat, recvWindow: nat, turns: seq<Turn>, goneNow: bool, gone: bool)
      returns (res: WriteResult, drained: nat)
      requires Valid() && turns != [] && Ends(turns[|turns| - 1])
      modifies Repr()
      ensures Valid() && drained <= |old(recv.stash)|
      ensures (recv.Abs(), Abs().(eof := old(eof))) == DrainMany(old(recv.Abs()), old(Abs()), drained)
      ensures if total == 0 then res == Wrote(0) && eof == old(eof) && writeBlocked == old(writeBlocked)
              else writeBlocked == res.WritePending?
      ensures total > 0 && (old(eof) || (!old(writeBlocked) && goneNow)) ==> res == BrokenPipe && eof
      ensures total > 0 && !(old(eof) || (!old(writeBlocked) && goneNow)) ==> (res, eof) == WriteLoop(turns, 0, gone)
    {
      hide StreamOk;
      drained := 0;
      EofOk(recv.Abs(), Abs(), true);
      assert DrainMany(recv.Abs(), Abs(), 0) == (recv.Abs(), Abs());
      if total == 0 {
        return Wrote(0), 0;
      }
      if eof {
        writeBlocked := false;
        return BrokenPipe, 0;
      }
      if !writeBlocked && goneNow {
        eof := true;
        return BrokenPipe, 0;
      }
      hide DrainMany;
      var ended;
      res, ended, drained := WriteTurns(recvWindow, turns, gone);
      EofOk(recv.Abs(), Abs(), ended);
      writeBlocked, eof := res.WritePending?, ended;
    }

    /** The loop: post, or drain, post again, reap and go round. */
    method WriteTurns(recvWindow: nat, turns: seq<Turn>, gone: bool)
      returns (res: WriteResult, ended: bool, drained: nat)
      requires Valid() && turns != [] && Ends(turns[|turns| - 1]) && !eof
      modifies Repr()
      ensures Drained(old(recv.Abs()), old(Abs()), drained)
      ensures (res, ended) == WriteLoop(turns, 0, gone)
    {
      hide StreamOk, Repr;
      ghost var rx0, st0 := recv.Abs(), Abs();
      assert Drained(rx0, st0, 0);
      hide Drained, DrainMany, Abs;
      var i := 0;
      drained := 0;
      while true
        invariant Drained(rx0, st0, drained) && i < |turns|
        invariant WriteLoop(turns, i, gone) == WriteLoop(turns, 0, gone)
        decreases |turns| - i
      {
        var t := turns[i];
        if t.first.SendErr? {
          return WriteFailed, false, drained;
        } else if t.first.n > 0 {
          return Wrote(t.first.n), false, drained;
        }
        var n := DrainWhileBlocked(recvWindow, rx0, st0, drained);
        drained := drained + n;
        if t.second.SendErr? {
          return WriteFailed, false, drained;
        } else if t.second.n > 0 {
          return Wrote(t.second.n), false, drained;
        }
        match t.reap
        case ReapErr => return WriteFailed, true, drained;
        case NoneReady => return if gone then BrokenPipe else WritePending, gone, drained;
        case Reaped => i := i + 1;
      }
    }
  }
}
