/**
  * The reading side of async_stream.rs on values: bytes come from a partly
  * consumed transport buffer, then from the bytes a blocked write drained, then
  * from the transport; together they are one first-in first-out byte queue.
  *
  * What the stream sees of a ring transport is its receiving half: `poll_recv`
  * takes completions off the front of the queue, `recv_buf` and `repost_recv`
  * read and release one of them.
  */
module StreamSpec {
  import opened RingBuffers
  import opened TransportCommon
  import opened WorkLog
  import opened RecvSide

  const STASH_POOL_CAP: nat := 64
  const STASH_HEADROOM: nat := 16
  const DRAIN_BATCH: nat := 16

  /** `stash_drain_cap` */
  function StashDrainCap(recvWindow: nat): nat { Max(recvWindow + STASH_HEADROOM, STASH_POOL_CAP) }

  /** A partly consumed receive: buffer index, bytes consumed, length. */
  datatype Partial = Partial(idx: nat, offset: nat, total: nat)

  datatype Stream = Stream(pending: Option<Partial>, stash: seq<seq<u8>>, stashOffset: nat, eof: bool)

  /** What a read does: the bytes it returns, and what it takes from and gives back to the transport. */
  datatype Outcome = Outcome(st: Stream, bytes: seq<u8>, took: nat, repost: Option<nat>)

  /** The buffer at `idx` holds `len` readable bytes. */
  predicate Readable(rx: Rx, idx: nat, len: nat) {
    && idx < |rx.vmap| && rx.vmap[idx].Some?
    && rx.vmap[idx].value.offset + rx.vmap[idx].value.length <= |rx.mem|
    && len == rx.vmap[idx].value.length
  }

  predicate NonEmpty(stash: seq<seq<u8>>) {
    forall i :: 0 <= i < |stash| ==> |stash[i]| > 0
  }

  /** What the stream relies on when it is called. */
  predicate Ready(rx: Rx, st: Stream) {
    && (st.pending.Some? ==>
          Readable(rx, st.pending.value.idx, st.pending.value.total) && st.pending.value.offset < st.pending.value.total)
    && (if st.stash == [] then st.stashOffset == 0 else st.stashOffset < |st.stash[0]|)
    && NonEmpty(st.stash)
    && (rx.stash != [] ==> Readable(rx, rx.stash[0].bufIdx, rx.stash[0].byteLen))
  }

  /** `poll_read` for `room` bytes; `None` when it must wait. */
  function Read(rx: Rx, st: Stream, room: nat): Option<Outcome>
    requires Ready(rx, st)
  {
    if room == 0 || st.eof then Some(Outcome(st, [], 0, None))
    else if st.pending.Some? then
      var p := st.pending.value;
      var n := Min(p.total - p.offset, room);
      var bytes := RecvBuf(rx, p.idx)[p.offset..p.offset + n];
      if n < p.total - p.offset then Some(Outcome(st.(pending := Some(p.(offset := p.offset + n))), bytes, 0, None))
      else Some(Outcome(st.(pending := None), bytes, 0, Some(p.idx)))
    else if st.stash != [] then
      var n := Min(|st.stash[0]| - st.stashOffset, room);
      var bytes := st.stash[0][st.stashOffset..st.stashOffset + n];
      if n < |st.stash[0]| - st.stashOffset then Some(Outcome(st.(stashOffset := st.stashOffset + n), bytes, 0, None))
      else Some(Outcome(st.(stash := st.stash[1..], stashOffset := 0), bytes, 0, None))
    else if rx.stash == [] then None
    else
      var c := rx.stash[0];
      var n := Min(c.byteLen, room);
      if c.byteLen == 0 then Some(Outcome(st, [], 1, None))
      else
        var bytes := RecvBuf(rx, c.bufIdx)[..n];
        if n < c.byteLen then Some(Outcome(st.(pending := Some(Partial(c.bufIdx, n, c.byteLen))), bytes, 1, None))
        else Some(Outcome(st, bytes, 1, Some(c.bufIdx)))
  }

  /** One completion drained by a blocked write: copied out and released at once. */
  function DrainOne(rx: Rx, st: Stream): Outcome
    requires Ready(rx, st) && rx.stash != []
  {
    var c := rx.stash[0];
    var st' := if c.byteLen > 0 then st.(stash := st.stash + [RecvBuf(rx, c.bufIdx)]) else st;
    Outcome(st', [], 1, Some(c.bufIdx))
  }

  /** The receiving half after an outcome. */
  function After(rx: Rx, o: Outcome): Rx
    requires ShapeOk(rx) && o.took <= |rx.stash|
    requires o.repost.Some? ==> o.repost.value < |rx.vmap| && rx.vmap[o.repost.value].Some?
  {
    var rx1 := rx.(stash := rx.stash[o.took..]);
    if o.repost.Some? then Repost(rx1, o.repost.value).0 else rx1
  }

  ghost function PastAfter(rx: Rx, h: Past, o: Outcome): Past
    requires ShapeOk(rx) && o.took <= |rx.stash|
    requires o.repost.Some? ==> o.repost.value < |rx.vmap| && rx.vmap[o.repost.value].Some?
  {
    var h1 := h.(taken := h.taken + o.took);
    if o.repost.Some? then AfterRepost(rx.(stash := rx.stash[o.took..]), h1, o.repost.value) else h1
  }

  // ---------------------------------------------------------------------
  // The bytes of the first `n` messages
  // ---------------------------------------------------------------------

  /** The bytes of all messages before index `i`. */
  function SentBytes(log: seq<Wr>, i: nat): seq<u8>
    requires i <= |log|
  {
    if i == 0 then [] else SentBytes(log, i - 1) + if log[i - 1].Data? then log[i - 1].msg else []
  }

  /** Handing out the first `n` messages hands out the bytes before any entry of rank `n`. */
  ghost predicate BytesOf(log: seq<Wr>, n: nat, bytes: seq<u8>) {
    exists i :: 0 <= i <= |log| && Rank(Payload, log, i) == n && SentBytes(log, i) == bytes
  }

  lemma {:induction false} SentAppend(log: seq<Wr>, more: seq<Wr>, i: nat)
    requires i <= |log|
    ensures SentBytes(log + more, i) == SentBytes(log, i)
  {
    if i > 0 {
      SentAppend(log, more, i - 1);
    }
  }

  lemma {:induction false} SentPrefix(log: seq<Wr>, i: nat, j: nat)
    requires i <= j <= |log|
    ensures SentBytes(log, i) <= SentBytes(log, j)
  {
    if i < j {
      SentPrefix(log, i, j - 1);
    }
  }

  /** Between two indexes of the same rank nothing is sent. */
  lemma {:induction false} SameRankSameBytes(log: seq<Wr>, i: nat, j: nat)
    requires i <= j <= |log| && Rank(Payload, log, i) == Rank(Payload, log, j)
    ensures SentBytes(log, i) == SentBytes(log, j)
  {
    if i < j {
      RankMono(Payload, log, i, j - 1);
      SameRankSameBytes(log, i, j - 1);
    }
  }

  lemma NextMessage(log: seq<Wr>, n: nat, bytes: seq<u8>, i: nat)
    requires BytesOf(log, n, bytes) && i < |log| && log[i].Data? && Rank(Payload, log, i) == n
    ensures BytesOf(log, n + 1, bytes + log[i].msg)
  {
    var j :| 0 <= j <= |log| && Rank(Payload, log, j) == n && SentBytes(log, j) == bytes;
    SameRankSameBytes(log, Min(i, j), Max(i, j));
    assert Rank(Payload, log, i + 1) == n + 1 && SentBytes(log, i + 1) == bytes + log[i].msg;
  }

  lemma BytesGrow(log: seq<Wr>, more: seq<Wr>, n: nat, bytes: seq<u8>)
    requires BytesOf(log, n, bytes)
    ensures BytesOf(log + more, n, bytes)
  {
    var i :| 0 <= i <= |log| && Rank(Payload, log, i) == n && SentBytes(log, i) == bytes;
    RankAppend(Payload, log, more, i);
    SentAppend(log, more, i);
  }

  // ---------------------------------------------------------------------
  // One first-in first-out queue
  // ---------------------------------------------------------------------

  /** What is left of the partly consumed buffer. */
  function PendingRest(rx: Rx, st: Stream): seq<u8>
    requires Ready(rx, st)
  {
    if st.pending.None? then []
    else RecvBuf(rx, st.pending.value.idx)[st.pending.value.offset..]
  }

  /** What is left of the drained bytes. */
  function StashRest(stash: seq<seq<u8>>, offset: nat): seq<u8>
    requires stash != [] ==> offset < |stash[0]|
  {
    if stash == [] then [] else stash[0][offset..] + Concat(stash[1..])
  }

  /** The bytes taken from the transport and not yet returned, oldest first. */
  function Unread(rx: Rx, st: Stream): seq<u8>
    requires Ready(rx, st)
  {
    PendingRest(rx, st) + StashRest(st.stash, st.stashOffset)
  }

  /** Nothing is handed out but the partly consumed message, and that one has been begun. */
  ghost predicate OnlyPending(rx: Rx, st: Stream) {
    && (forall v: nat :: HandedOut(rx, v) <==> st.pending.Some? && v == st.pending.value.idx)
    && (st.pending.Some? ==> 0 < st.pending.value.offset)
  }

  /** No message is empty. */
  ghost predicate NoneEmpty(log: seq<Wr>) {
    forall i :: 0 <= i < |log| && log[i].Data? ==> |log[i].msg| > 0
  }

  /** `got` has been returned so far: it and what is unread are the messages taken, in order. */
  ghost predicate Fifo(log: seq<Wr>, rx: Rx, h: Past, st: Stream, got: seq<u8>) {
    && Ready(rx, st)
    && OnlyPending(rx, st)
    && BytesOf(log, h.taken, got + Unread(rx, st))
  }

  /** What has been returned is a prefix of what has been sent. */
  lemma FifoPrefix(log: seq<Wr>, rx: Rx, h: Past, st: Stream, got: seq<u8>)
    requires Fifo(log, rx, h, st, got)
    ensures got <= SentBytes(log, |log|)
  {
    var i :| 0 <= i <= |log| && Rank(Payload, log, i) == h.taken && SentBytes(log, i) == got + Unread(rx, st);
    SentPrefix(log, i, |log|);
  }

  /** The message at the front of the queue is the next one sent, and reads back. */
  lemma FrontMessage(k: nat, cap: nat, log: seq<Wr>, exec: nat, rx: Rx, h: Past) returns (i: nat)
    requires RxInv(k, cap, log, exec, rx, h) && rx.stash != []
    ensures i < |log| && log[i].Data? && Rank(Payload, log, i) == h.taken
    ensures Readable(rx, rx.stash[0].bufIdx, rx.stash[0].byteLen)
    ensures RecvBuf(rx, rx.stash[0].bufIdx) == log[i].msg && rx.stash[0].byteLen == |log[i].msg|
  {
    i := HandsOutInOrder(k, cap, log, exec, rx, h, 0);
    ReadsBack(k, cap, log, exec, rx, h, rx.stash[0].bufIdx, i);
  }

  /** Taking and releasing keep the receiving half in order. */
  lemma AfterKeeps(k: nat, cap: nat, log: seq<Wr>, exec: nat, rx: Rx, h: Past, o: Outcome)
    requires RxInv(k, cap, log, exec, rx, h) && o.took <= |rx.stash|
    requires o.repost.Some? ==> HandedOut(rx.(stash := rx.stash[o.took..]), o.repost.value)
    ensures ShapeOk(rx) && RxInv(k, cap, log, exec, After(rx, o), PastAfter(rx, h, o))
  {
    TakeKeeps(k, cap, log, exec, rx, h, o.took);
    hide Mapped, Queued, Intact, CompletionTrackers.Tracker.Release;
    var rx1, h1 := rx.(stash := rx.stash[o.took..]), h.(taken := h.taken + o.took);
    if o.repost.Some? {
      RepostKeeps(k, cap, log, exec, rx1, h1, o.repost.value);
    }
  }

  /** The front completion, once taken, is handed out. */
  lemma FrontHandedOut(k: nat, cap: nat, log: seq<Wr>, exec: nat, rx: Rx, h: Past)
    requires RxInv(k, cap, log, exec, rx, h) && rx.stash != []
    ensures HandedOut(rx.(stash := rx.stash[1..]), rx.stash[0].bufIdx)
  {
    var i := FrontMessage(k, cap, log, exec, rx, h);
    forall j | 0 <= j < |rx.stash| - 1
      ensures rx.stash[1..][j].bufIdx != rx.stash[0].bufIdx
    {
      QueuedOnce(k, cap, log, exec, rx, h, 0, j + 1);
    }
  }

  /** The next front completion is readable. */
  lemma ReadyFront(k: nat, cap: nat, log: seq<Wr>, exec: nat, rx: Rx, h: Past)
    requires RxInv(k, cap, log, exec, rx, h)
    ensures rx.stash != [] ==> Readable(rx, rx.stash[0].bufIdx, rx.stash[0].byteLen)
  {
    if rx.stash != [] {
      var i := FrontMessage(k, cap, log, exec, rx, h);
    }
  }

  /** The same message is partly consumed, or still none. */
  predicate Begun(st: Stream, st': Stream) {
    if st.pending.None? then st'.pending.None?
    else st'.pending.Some? && st'.pending.value.idx == st.pending.value.idx && st.pending.value.offset <= st'.pending.value.offset
  }

  /** A read that needs nothing from the transport: bytes move from unread to returned. */
  ghost predicate Serves(rx: Rx, st: Stream, o: Outcome)
    requires Ready(rx, st)
  {
    && o.took == 0 && Ready(rx, o.st)
    && (o.repost.Some? ==> st.pending.Some? && o.repost.value == st.pending.value.idx && o.st.pending.None?)
    && (o.repost.None? ==> Begun(st, o.st))
    && Unread(rx, st) == o.bytes + Unread(rx, o.st)
  }

  lemma ReadHeldMoves(rx: Rx, st: Stream, room: nat)
    requires Ready(rx, st) && (room == 0 || st.eof || st.pending.Some? || st.stash != [])
    ensures Read(rx, st, room).Some? && Serves(rx, st, Read(rx, st, room).value)
  {
    if room == 0 || st.eof {
      assert Read(rx, st, room).value == Outcome(st, [], 0, None);
      hide Unread;
    } else {
      hide Serves;
      if st.pending.Some? {
        PendingMoves(rx, st, room);
      } else {
        StashedMoves(rx, st, room);
      }
    }
  }

  lemma PendingMoves(rx: Rx, st: Stream, room: nat)
    requires Ready(rx, st) && st.pending.Some? && room > 0 && !st.eof
    ensures Serves(rx, st, Read(rx, st, room).value)
  {
    hide Read, NonEmpty, RecvBuf, Unread, Readable;
    PendingReads(rx, st, room);
    PendingReady(rx, st, room);
    PendingUnread(rx, st, room);
  }

  /** The stream after `room` bytes of the partly consumed message were returned. */
  function Advanced(st: Stream, room: nat): Stream
    requires st.pending.Some? && st.pending.value.offset < st.pending.value.total
  {
    var p := st.pending.value;
    if room < p.total - p.offset then st.(pending := Some(p.(offset := p.offset + room))) else st.(pending := None)
  }

  lemma PendingReady(rx: Rx, st: Stream, room: nat)
    requires Ready(rx, st) && st.pending.Some? && room > 0
    ensures Ready(rx, Advanced(st, room))
  {
    hide NonEmpty, Readable;
  }

  lemma UnreadPending(rx: Rx, st: Stream)
    requires Ready(rx, st)
    ensures Unread(rx, st) == if st.pending.None? then StashRest(st.stash, st.stashOffset)
                              else RecvBuf(rx, st.pending.value.idx)[st.pending.value.offset..] + StashRest(st.stash, st.stashOffset)
  {
    hide NonEmpty, RecvBuf, StashRest;
    Empty(StashRest(st.stash, st.stashOffset));
  }

  lemma PendingUnread(rx: Rx, st: Stream, room: nat)
    requires Ready(rx, st) && st.pending.Some? && room > 0 && Ready(rx, Advanced(st, room))
    ensures var p := st.pending.value;
            && |RecvBuf(rx, p.idx)| == p.total
            && Unread(rx, st)
               == RecvBuf(rx, p.idx)[p.offset..p.offset + Min(p.total - p.offset, room)] + Unread(rx, Advanced(st, room))
  {
    hide NonEmpty, RecvBuf, StashRest, Unread;
    var p := st.pending.value;
    RecvBufLength(rx, p.idx, p.total);
    UnreadPending(rx, st);
    UnreadPending(rx, Advanced(st, room));
    var buf, tail := RecvBuf(rx, p.idx), StashRest(st.stash, st.stashOffset);
    if room < p.total - p.offset {
      SomeMoves(buf, p.offset, room, tail);
    } else {
      AllMoves(buf, p.offset, p.total);
    }
  }

  lemma SomeMoves(buf: seq<u8>, offset: nat, n: nat, tail: seq<u8>)
    requires offset + n <= |buf|
    ensures buf[offset..] + tail == buf[offset..offset + n] + (buf[offset + n..] + tail)
  {
    assert buf[offset..] == buf[offset..offset + n] + buf[offset + n..];
    Assoc(buf[offset..offset + n], buf[offset + n..], tail);
  }

  lemma AllMoves(buf: seq<u8>, offset: nat, end: nat)
    requires offset <= end == |buf|
    ensures buf[offset..] == buf[offset..end]
  {
  }

  lemma RecvBufLength(rx: Rx, idx: nat, len: nat)
    requires Readable(rx, idx, len)
    ensures |RecvBuf(rx, idx)| == len
  {
  }

  /** A read served from the partly consumed message. */
  lemma PendingReads(rx: Rx, st: Stream, room: nat)
    requires Ready(rx, st) && st.pending.Some? && room > 0 && !st.eof
    ensures Read(rx, st, room).Some?
    ensures var p, o := st.pending.value, Read(rx, st, room).value;
            var n := Min(p.total - p.offset, room);
            && |RecvBuf(rx, p.idx)| == p.total && o.took == 0
            && o.bytes == RecvBuf(rx, p.idx)[p.offset..p.offset + n]
            && o.st == Advanced(st, room)
            && o.repost == if n < p.total - p.offset then None else Some(p.idx)
  {
    hide NonEmpty;
  }

  lemma StashedMoves(rx: Rx, st: Stream, room: nat)
    requires Ready(rx, st) && st.pending.None? && st.stash != [] && room > 0 && !st.eof
    ensures Serves(rx, st, Read(rx, st, room).value)
  {
    hide Unread, StashRest, Ready, Read, NonEmpty, RecvBuf;
    StashedIs(rx, st, room);
    StashMoves(st.stash, st.stashOffset, room);
    UnreadStashed(rx, st);
    UnreadStashed(rx, Read(rx, st, room).value.st);
  }

  lemma UnreadStashed(rx: Rx, st: Stream)
    requires Ready(rx, st) && st.pending.None?
    ensures st.stash != [] ==> st.stashOffset < |st.stash[0]|
    ensures Unread(rx, st) == StashRest(st.stash, st.stashOffset)
  {
    Empty(StashRest(st.stash, st.stashOffset));
  }

  lemma StashedIs(rx: Rx, st: Stream, room: nat)
    requires Ready(rx, st) && st.pending.None? && st.stash != [] && room > 0 && !st.eof
    ensures st.stashOffset < |st.stash[0]| && NonEmpty(st.stash)
    ensures var n := Min(|st.stash[0]| - st.stashOffset, room);
            var st' := if n < |st.stash[0]| - st.stashOffset then st.(stashOffset := st.stashOffset + n)
                       else st.(stash := st.stash[1..], stashOffset := 0);
            && Read(rx, st, room) == Some(Outcome(st', st.stash[0][st.stashOffset..st.stashOffset + n], 0, None))
            && Ready(rx, st')
  {
    TailNonEmpty(st.stash);
    hide NonEmpty;
  }

  lemma Empty(a: seq<u8>)
    ensures [] + a == a && a + [] == a
  {
  }

  lemma Assoc(a: seq<u8>, b: seq<u8>, c: seq<u8>)
    ensures (a + b) + c == a + (b + c)
  {
  }

  lemma PartialMoves(buf: seq<u8>, offset: nat, room: nat)
    requires offset < |buf|
    ensures var n := Min(|buf| - offset, room); buf[offset..] == buf[offset..offset + n] + buf[offset + n..]
  {
  }

  lemma StashWhole(stash: seq<seq<u8>>)
    requires NonEmpty(stash)
    ensures StashRest(stash, 0) == Concat(stash)
  {
    if stash != [] {
      assert stash[0][0..] == stash[0];
    }
  }

  lemma TailNonEmpty(stash: seq<seq<u8>>)
    requires stash != [] && NonEmpty(stash)
    ensures NonEmpty(stash[1..]) && (|stash| > 1 ==> |stash[1..][0]| > 0)
  {
  }

  lemma StashMoves(stash: seq<seq<u8>>, offset: nat, room: nat)
    requires stash != [] && offset < |stash[0]| && NonEmpty(stash)
    ensures NonEmpty(stash[1..]) && (|stash| > 1 ==> |stash[1..][0]| > 0)
    ensures var n := Min(|stash[0]| - offset, room); var bytes := stash[0][offset..offset + n];
            StashRest(stash, offset) ==
              bytes + if n < |stash[0]| - offset then StashRest(stash, offset + n) else StashRest(stash[1..], 0)
  {
    TailNonEmpty(stash);
    hide Concat, NonEmpty;
    StashWhole(stash[1..]);
    BufMoves(stash[0], offset, room, Concat(stash[1..]));
  }

  /** The same on one buffer and whatever follows it. */
  lemma BufMoves(buf: seq<u8>, offset: nat, room: nat, tail: seq<u8>)
    requires offset < |buf|
    ensures var n := Min(|buf| - offset, room); var bytes := buf[offset..offset + n];
            && buf[offset..] + tail == bytes + (buf[offset + n..] + tail)
            && (n == |buf| - offset ==> buf[offset..] + tail == bytes + tail)
  {
    var n := Min(|buf| - offset, room);
    PartialMoves(buf, offset, room);
    Assoc(buf[offset..offset + n], buf[offset + n..], tail);
    Empty(tail);
  }

  /** An outcome that keeps the queue in order. */
  ghost predicate InOrder(log: seq<Wr>, rx: Rx, h: Past, o: Outcome, got: seq<u8>) {
    && ShapeOk(rx) && o.took <= |rx.stash|
    && (o.repost.Some? ==> HandedOut(rx.(stash := rx.stash[o.took..]), o.repost.value))
    && Fifo(log, After(rx, o), PastAfter(rx, h, o), o.st, got + o.bytes)
  }

  lemma {:induction false} ConcatAppend(bufs: seq<seq<u8>>, last: seq<u8>)
    ensures Concat(bufs + [last]) == Concat(bufs) + last
  {
    if bufs == [] {
      assert [] + [last] == [last];
    } else {
      assert (bufs + [last])[1..] == bufs[1..] + [last];
      ConcatAppend(bufs[1..], last);
    }
  }

  /** Taking the front of the queue hands that message out. */
  lemma TakeHands(rx: Rx, v: nat)
    requires rx.stash != [] && HandedOut(rx.(stash := rx.stash[1..]), rx.stash[0].bufIdx)
    ensures HandedOut(rx.(stash := rx.stash[1..]), v) <==> HandedOut(rx, v) || v == rx.stash[0].bufIdx
  {
    var rx1 := rx.(stash := rx.stash[1..]);
    forall j | 0 <= j < |rx1.stash|
      ensures rx1.stash[j] == rx.stash[j + 1]
    {
    }
    forall j | 0 < j < |rx.stash|
      ensures rx.stash[j] == rx1.stash[j - 1]
    {
    }
  }

  /** Releasing a message ends that. */
  lemma ReleaseEnds(rx: Rx, idx: nat, v: nat)
    requires ShapeOk(rx) && idx < |rx.vmap| && rx.vmap[idx].Some?
    ensures HandedOut(Repost(rx, idx).0, v) <==> HandedOut(rx, v) && v != idx
  {
    hide CompletionTrackers.Tracker.Release;
  }

  /** A read that serves what is held leaves at most the message begun handed out. */
  lemma ServedOnly(rx: Rx, st: Stream, o: Outcome)
    requires ShapeOk(rx) && Ready(rx, st) && OnlyPending(rx, st) && Serves(rx, st, o)
    ensures OnlyPending(After(rx, o), o.st)
  {
    hide Ready, Unread, Repost, HandedOut;
    assert rx.stash[0..] == rx.stash;
    if o.repost.Some? {
      assert HandedOut(rx, o.repost.value);
      HandedIn(rx, o.repost.value);
      forall v: nat
        ensures HandedOut(After(rx, o), v) <==> HandedOut(rx, v) && v != o.repost.value
      {
        ReleaseEnds(rx, o.repost.value, v);
      }
    }
  }

  lemma HandedIn(rx: Rx, idx: nat)
    requires HandedOut(rx, idx)
    ensures idx < |rx.vmap| && rx.vmap[idx].Some?
  {
  }

  /** Taking the front, and releasing it or beginning it. */
  lemma FrontOnly(rx: Rx, st: Stream, o: Outcome)
    requires ShapeOk(rx) && OnlyPending(rx, st) && rx.stash != []
    requires HandedOut(rx.(stash := rx.stash[1..]), rx.stash[0].bufIdx)
    requires o.took == 1 && if o.repost.Some? then o.repost.value == rx.stash[0].bufIdx && o.st.pending == st.pending
             else st.pending.None? && o.st.pending.Some? && o.st.pending.value.idx == rx.stash[0].bufIdx && 0 < o.st.pending.value.offset
    ensures HandedOut(rx.(stash := rx.stash[1..]), rx.stash[0].bufIdx) && OnlyPending(After(rx, o), o.st)
  {
    var rx1, front := rx.(stash := rx.stash[1..]), rx.stash[0].bufIdx;
    assert !HandedOut(rx, front);
    hide Repost, HandedOut;
    HandedIn(rx1, front);
    forall v: nat
      ensures HandedOut(After(rx, o), v) <==> if o.repost.Some? then HandedOut(rx, v) else HandedOut(rx, v) || v == front
    {
      TakeHands(rx, v);
      ReleaseEnds(rx1, front, v);
    }
  }

  lemma ReadHeldKeeps(k: nat, cap: nat, log: seq<Wr>, exec: nat, rx: Rx, h: Past, st: Stream, got: seq<u8>, room: nat)
    requires RxInv(k, cap, log, exec, rx, h) && Fifo(log, rx, h, st, got)
    requires room == 0 || st.eof || st.pending.Some? || st.stash != []
    ensures Read(rx, st, room).Some? && InOrder(log, rx, h, Read(rx, st, room).value, got)
  {
    hide Read, RxInv, CompletionTrackers.Tracker.Release, BytesOf, StashRest;
    ReadHeldMoves(rx, st, room);
    var o := Read(rx, st, room).value;
    AfterKeeps(k, cap, log, exec, rx, h, o);
    ServedOnly(rx, st, o);
    ReadyFront(k, cap, log, exec, After(rx, o), PastAfter(rx, h, o));
    Assoc(got, o.bytes, Unread(rx, o.st));
    assert rx.stash[0..] == rx.stash;
    assert got + Unread(rx, st) == got + o.bytes + Unread(rx, o.st);
  }

  /** Bytes fresh from the transport. */
  lemma ReadFreshKeeps(k: nat, cap: nat, log: seq<Wr>, exec: nat, rx: Rx, h: Past, st: Stream, got: seq<u8>, room: nat)
    requires RxInv(k, cap, log, exec, rx, h) && Fifo(log, rx, h, st, got) && NoneEmpty(log)
    requires room > 0 && !st.eof && st.pending.None? && st.stash == [] && rx.stash != []
    ensures Read(rx, st, room).Some? && InOrder(log, rx, h, Read(rx, st, room).value, got)
  {
    hide RxInv, BytesOf, Unread, NonEmpty, CompletionTrackers.Tracker.Release, RecvBuf;
    var o := Read(rx, st, room).value;
    var i := FrontMessage(k, cap, log, exec, rx, h);
    FrontHandedOut(k, cap, log, exec, rx, h);
    AfterKeeps(k, cap, log, exec, rx, h, o);
    ReadyFront(k, cap, log, exec, After(rx, o), PastAfter(rx, h, o));
    UnreadPending(rx, st);
    Empty(got);
    NextMessage(log, h.taken, got, i);
    FreshUnread(rx, st, got, room);
    PastTaken(rx, h, o);
    hide Read, After, PastAfter, Ready;
  }

  lemma PastTaken(rx: Rx, h: Past, o: Outcome)
    requires ShapeOk(rx) && o.took <= |rx.stash|
    requires o.repost.Some? ==> o.repost.value < |rx.vmap| && rx.vmap[o.repost.value].Some?
    ensures PastAfter(rx, h, o).taken == h.taken + o.took
  {
  }

  /** A fresh message, returned in part or in whole, leaves its rest unread. */
  lemma FreshUnread(rx: Rx, st: Stream, got: seq<u8>, room: nat)
    requires Ready(rx, st) && room > 0 && !st.eof && st.pending.None? && st.stash == [] && rx.stash != []
    requires HandedOut(rx.(stash := rx.stash[1..]), rx.stash[0].bufIdx) && ShapeOk(rx)
    requires OnlyPending(rx, st) && rx.stash[0].byteLen > 0
    requires var rx' := After(rx, Read(rx, st, room).value);
             rx'.stash != [] ==> Readable(rx', rx'.stash[0].bufIdx, rx'.stash[0].byteLen)
    ensures var o := Read(rx, st, room).value; var rx' := After(rx, o);
            && Ready(rx', o.st) && OnlyPending(rx', o.st)
            && o.took == 1 && (o.repost.Some? ==> o.repost.value == rx.stash[0].bufIdx)
            && got + o.bytes + Unread(rx', o.st) == got + RecvBuf(rx, rx.stash[0].bufIdx)
  {
    var o := Read(rx, st, room).value;
    var rx' := After(rx, o);
    FrontOnly(rx, st, o);
    hide OnlyPending;
    var c := rx.stash[0];
    var msg := RecvBuf(rx, c.bufIdx);
    var n := Min(c.byteLen, room);
    if n < c.byteLen {
      assert rx' == rx.(stash := rx.stash[1..]) && o.st == st.(pending := Some(Partial(c.bufIdx, n, c.byteLen)));
      assert Unread(rx', o.st) == msg[n..] + [];
      SplitAt(got, msg, n);
      Empty(msg[n..]);
    } else {
      assert o.st == st && o.bytes == msg;
      assert Unread(rx', o.st) == [];
      hide Read, RecvBuf, After;
      Empty(got + msg);
    }
  }

  lemma SplitAt(got: seq<u8>, msg: seq<u8>, n: nat)
    requires n <= |msg|
    ensures got + msg[..n] + msg[n..] == got + msg
  {
    assert msg == msg[..n] + msg[n..];
    Assoc(got, msg[..n], msg[n..]);
  }

  /** `poll_read` returns the next bytes of the one queue, whichever part they are in. */
  lemma ReadKeeps(k: nat, cap: nat, log: seq<Wr>, exec: nat, rx: Rx, h: Past, st: Stream, got: seq<u8>, room: nat)
    requires RxInv(k, cap, log, exec, rx, h) && Fifo(log, rx, h, st, got) && NoneEmpty(log)
    requires Read(rx, st, room).Some?
    ensures InOrder(log, rx, h, Read(rx, st, room).value, got)
  {
    if room == 0 || st.eof || st.pending.Some? || st.stash != [] {
      ReadHeldKeeps(k, cap, log, exec, rx, h, st, got, room);
    } else {
      ReadFreshKeeps(k, cap, log, exec, rx, h, st, got, room);
    }
  }

  /** The drained bytes queue behind everything already taken. */
  lemma DrainKeeps(k: nat, cap: nat, log: seq<Wr>, exec: nat, rx: Rx, h: Past, st: Stream, got: seq<u8>)
    requires RxInv(k, cap, log, exec, rx, h) && Fifo(log, rx, h, st, got) && rx.stash != []
    ensures InOrder(log, rx, h, DrainOne(rx, st), got)
  {
    var o := DrainOne(rx, st);
    var i := FrontMessage(k, cap, log, exec, rx, h);
    FrontHandedOut(k, cap, log, exec, rx, h);
    AfterKeeps(k, cap, log, exec, rx, h, o);
    ReadyFront(k, cap, log, exec, After(rx, o), PastAfter(rx, h, o));
    NextMessage(log, h.taken, got + Unread(rx, st), i);
    Assoc(got, Unread(rx, st), log[i].msg);
    hide RxInv, BytesOf, After, AfterRepost, InOrder, Unread, Ready;
    DrainedFifo(log, rx, h, st, got, log[i].msg);
  }

  /** A partly consumed buffer is not among those drained. */
  lemma PendingStays(rx: Rx, st: Stream)
    requires Ready(rx, st) && rx.stash != [] && ShapeOk(rx) && OnlyPending(rx, st)
    requires HandedOut(rx.(stash := rx.stash[1..]), rx.stash[0].bufIdx)
    ensures var o := DrainOne(rx, st); var rx' := After(rx, o);
            && OnlyPending(rx', o.st) && rx'.mem == rx.mem && rx'.stash == rx.stash[1..] && o.st.pending == st.pending
            && (st.pending.Some? ==>
                  && HandedOut(rx', st.pending.value.idx)
                  && rx'.vmap[st.pending.value.idx] == rx.vmap[st.pending.value.idx])
  {
    FrontOnly(rx, st, DrainOne(rx, st));
    hide CompletionTrackers.Tracker.Release;
    if st.pending.Some? {
      assert HandedOut(rx, st.pending.value.idx);
    }
  }

  lemma DrainedReady(rx: Rx, st: Stream)
    requires Ready(rx, st) && rx.stash != [] && ShapeOk(rx) && OnlyPending(rx, st)
    requires HandedOut(rx.(stash := rx.stash[1..]), rx.stash[0].bufIdx)
    requires var rx' := After(rx, DrainOne(rx, st));
             rx'.stash != [] ==> Readable(rx', rx'.stash[0].bufIdx, rx'.stash[0].byteLen)
    ensures var o := DrainOne(rx, st); var rx' := After(rx, o);
            Ready(rx', o.st) && PendingRest(rx', o.st) == PendingRest(rx, st)
            && o.took == 1 && o.repost == Some(rx.stash[0].bufIdx) && o.bytes == []
  {
    PendingStays(rx, st);
    hide After;
  }

  lemma DrainedFifo(log: seq<Wr>, rx: Rx, h: Past, st: Stream, got: seq<u8>, msg: seq<u8>)
    requires Ready(rx, st) && rx.stash != [] && ShapeOk(rx) && OnlyPending(rx, st)
    requires HandedOut(rx.(stash := rx.stash[1..]), rx.stash[0].bufIdx)
    requires RecvBuf(rx, rx.stash[0].bufIdx) == msg
    requires var rx' := After(rx, DrainOne(rx, st));
             rx'.stash != [] ==> Readable(rx', rx'.stash[0].bufIdx, rx'.stash[0].byteLen)
    requires BytesOf(log, h.taken + 1, got + (Unread(rx, st) + msg))
    ensures InOrder(log, rx, h, DrainOne(rx, st), got)
  {
    var o := DrainOne(rx, st);
    var rx' := After(rx, o);
    PendingStays(rx, st);
    DrainedUnread(rx, st);
    DrainedReady(rx, st);
    PastTaken(rx, h, o);
    Empty(got);
    hide After, BytesOf, StashRest, PendingRest, PastAfter, Ready, DrainOne, RecvBuf, NonEmpty;
  }

  lemma DrainedUnread(rx: Rx, st: Stream)
    requires Ready(rx, st) && rx.stash != []
    ensures var o := DrainOne(rx, st); var msg := RecvBuf(rx, rx.stash[0].bufIdx);
            && (o.st.stash != [] ==> o.st.stashOffset < |o.st.stash[0]|)
            && PendingRest(rx, st) + StashRest(o.st.stash, o.st.stashOffset) == Unread(rx, st) + msg
  {
    var msg := RecvBuf(rx, rx.stash[0].bufIdx);
    hide RecvBuf;
    if rx.stash[0].byteLen > 0 {
      StashAppend(st.stash, st.stashOffset, msg);
      Assoc(PendingRest(rx, st), StashRest(st.stash, st.stashOffset), msg);
    } else {
      assert msg == [];
    }
  }

  lemma StashAppend(stash: seq<seq<u8>>, offset: nat, msg: seq<u8>)
    requires |msg| > 0 && if stash == [] then offset == 0 else offset < |stash[0]|
    ensures StashRest(stash + [msg], offset) == StashRest(stash, offset) + msg
  {
    if stash == [] {
      assert [msg][1..] == [] && msg[0..] == msg;
    } else {
      assert (stash + [msg])[1..] == stash[1..] + [msg];
      ConcatAppend(stash[1..], msg);
    }
  }

  // ---------------------------------------------------------------------
  // What the transports do between stream calls
  // ---------------------------------------------------------------------

  /** The transports move on without touching what the stream was handed. */
  ghost predicate Quiet(log: seq<Wr>, rx: Rx, h: Past, log': seq<Wr>, rx': Rx, h': Past) {
    && log <= log' && h.rdone <= h'.rdone && h'.taken == h.taken
    && (forall v: nat :: HandedOut(rx, v) <==> HandedOut(rx', v))
    && (forall v: nat :: HandedOut(rx, v) ==> rx'.vmap[v] == rx.vmap[v])
  }

  /** The bytes handed out stay the same, although the ring behind them is being written. */
  lemma HeldStays(k: nat, cap: nat, log: seq<Wr>, exec: nat, rx: Rx, h: Past,
                  log': seq<Wr>, exec': nat, rx': Rx, h': Past, v: nat)
    requires RxInv(k, cap, log, exec, rx, h) && RxInv(k, cap, log', exec', rx', h')
    requires Quiet(log, rx, h, log', rx', h') && HandedOut(rx, v) && Readable(rx, v, rx.vmap[v].value.length)
    ensures Readable(rx', v, rx.vmap[v].value.length) && RecvBuf(rx', v) == RecvBuf(rx, v)
  {
    var i := RankReach(Item, log, h.rdone, rx.vmap[v].value.arrival);
    ReadsBack(k, cap, log, exec, rx, h, v, i);
    assert log' == log + log'[|log|..];
    RankAppend(Item, log, log'[|log|..], i);
    ReadsBack(k, cap, log', exec', rx', h', v, i);
  }

  lemma QuietKeeps(k: nat, cap: nat, log: seq<Wr>, exec: nat, rx: Rx, h: Past,
                   log': seq<Wr>, exec': nat, rx': Rx, h': Past, st: Stream, got: seq<u8>)
    requires RxInv(k, cap, log, exec, rx, h) && RxInv(k, cap, log', exec', rx', h')
    requires Quiet(log, rx, h, log', rx', h') && Fifo(log, rx, h, st, got)
    ensures Fifo(log', rx', h', st, got)
  {
    hide RxInv, RecvBuf, BytesOf, StashRest, HandedOut, NonEmpty;
    ReadyFront(k, cap, log', exec', rx', h');
    if st.pending.Some? {
      HeldStays(k, cap, log, exec, rx, h, log', exec', rx', h', st.pending.value.idx);
    }
    assert log' == log + log'[|log|..];
    BytesGrow(log, log'[|log|..], h.taken, got + Unread(rx, st));
  }

  lemma QuietSame(log: seq<Wr>, rx: Rx, h: Past, log': seq<Wr>)
    requires log <= log'
    ensures Quiet(log, rx, h, log', rx, h)
  {
  }
}
