/**
  * The buffers, maps and queues a ring transport updates in place, as two
  * objects shared by both transports: what it sends from and what it receives
  * into. Their methods are proved against `SendSide` and `RecvSide`.
  */
module Halves {
  import opened RingBuffers
  import opened CompletionTrackers
  import opened TransportCommon
  import opened WorkLog
  import opened SendSide
  import opened RecvSide

  /** Total length of the caller's slices. */
  method TotalLen(bufs: seq<seq<u8>>) returns (total: nat)
    ensures total == |Concat(bufs)|
  {
    total := 0;
    for i := 0 to |bufs|
      invariant total == Before(bufs, i)
    {
      total := total + |bufs[i]|;
    }
    AllParts(bufs);
  }

  /** The staging ring, the mirror of the peer's tail, and all posted work requests. */
  class SendHalf {
    const ring: RingBuffer
    var remoteWriteTail: nat
    var posted: seq<Wr>

    ghost function Repr(): set<object> { {this, ring, ring.mem} }

    ghost function Abs(): Tx
      reads Repr()
    {
      Tx(ring.mem[..], ring.Cursors(), remoteWriteTail, posted)
    }

    constructor (capacity: nat)
      requires capacity > 0
      ensures fresh(Repr())
      ensures Abs() == Tx(seq(capacity, _ => 0), Ring(capacity, 0, 0), 0, [])
    {
      var mem := new u8[capacity](_ => 0);
      ring := new RingBuffer(mem);
      remoteWriteTail, posted := 0, [];
      new;
      assert ring.mem[..] == seq(capacity, _ => 0);
    }

    /** Reserve a contiguous range of the staging ring. */
    method Reserve(len: nat) returns (res: Option<(nat, nat)>)
      requires ring.Valid()
      modifies ring`tail
      ensures ring.Valid()
      ensures match old(Abs()).ring.Reserve(len)
        case None => res == None && Abs() == old(Abs())
        case Some(g) =>
          && res == Some((g.offset, g.padding)) && Abs() == old(Abs()).(ring := g.ring)
          && g.offset + len <= ring.mem.Length && g.padding <= ring.mem.Length
    {
      GrantInBounds(ring.Cursors(), len);
      hide Ring.Reserve;
      res := ring.Reserve(len);
    }

    /** Give a reservation back. */
    method Rollback(offset: nat, padding: nat)
      requires padding <= ring.mem.Length
      modifies ring`tail
      ensures Abs() == old(Abs()).(ring := old(Abs()).ring.Rollback(offset, padding))
    {
      ring.tail := ring.Cursors().Rollback(offset, padding).tail;
    }

    method Append(w: Wr)
      modifies this`posted
      ensures Abs() == old(Abs()).(log := old(posted) + [w])
    {
      posted := posted + [w];
    }

    /** Post the padding (if any), gather the slices into the ring and post the data. */
    method Post(offset: nat, padding: nat, len: nat, bufs: seq<seq<u8>>)
      requires ring.mem.Length > 0 && offset + len <= ring.mem.Length && len <= |Concat(bufs)|
      modifies this, ring.mem
      ensures var tx := old(Abs());
              Abs() == SendSide.Post(ring.mem.Length, tx, Grant(tx.ring, offset, padding), Concat(bufs)[..len])
    {
      if padding > 0 {
        posted := posted + [Pad(remoteWriteTail, EncodeImm(remoteWriteTail, 0))];
        remoteWriteTail := 0;
      } else {
        assert posted + [] == posted;
      }
      PostData(offset, padding, len, bufs);
    }

    method PostData(offset: nat, padding: nat, len: nat, bufs: seq<seq<u8>>)
      requires ring.mem.Length > 0 && offset + len <= ring.mem.Length && len <= |Concat(bufs)|
      modifies this, ring.mem
      ensures var ro := old(remoteWriteTail); var msg := Concat(bufs)[..len];
              && posted == old(posted) + [Data(offset, ro, EncodeImm(ro, len), padding + len, msg)]
              && remoteWriteTail == (ro + len) % ring.mem.Length
              && ring.mem[..] == Store(old(ring.mem[..]), offset, msg)
    {
      var written := GatherInto(ring.mem, offset, len, bufs);
      var bytes := ring.mem[offset..offset + len];
      posted := posted + [Data(offset, remoteWriteTail, EncodeImm(remoteWriteTail, len), padding + len, bytes)];
      remoteWriteTail := (remoteWriteTail + len) % ring.mem.Length;
    }
  }

  /** The ring the peer writes, the index map, the release tracker and the stash. */
  class RecvHalf {
    const mem: array<u8>
    const virtualIdxMap: array<Option<Entry>>
    const tracker: CompletionTracker
    var nextVirtIdx: nat
    var arrivalSeq: nat
    var stash: seq<RecvDone>

    ghost function Repr(): set<object> { {this, mem, virtualIdxMap, tracker, tracker.released} }

    ghost function Abs(): Rx
      reads Repr()
    {
      Rx(mem[..], virtualIdxMap[..], nextVirtIdx, arrivalSeq, stash, tracker.Abs())
    }

    ghost predicate Valid()
      reads Repr()
    {
      ShapeOk(Abs())
    }

    constructor (capacity: nat, slots: nat)
      requires slots > 0
      ensures Valid() && fresh(Repr())
      ensures Abs() == Rx(seq(capacity, _ => 0), seq(slots, _ => None), 0, 0, [],
                          Tracker(seq(slots, _ => false), 0))
    {
      mem := new u8[capacity](_ => 0);
      virtualIdxMap := new Option<Entry>[slots](_ => None);
      tracker := new CompletionTracker(slots);
      nextVirtIdx, arrivalSeq, stash := 0, 0, [];
      new;
      assert mem[..] == seq(capacity, _ => 0);
      assert virtualIdxMap[..] == seq(slots, _ => None);
    }

    /** The scan for a free index. */
    method FindVirtIdx() returns (found: Option<nat>)
      requires Valid()
      ensures found == FindFree(virtualIdxMap[..], nextVirtIdx, virtualIdxMap.Length)
    {
      var virtIdx: nat := nextVirtIdx;
      var slots := virtualIdxMap.Length;
      var tries := 0;
      while tries < slots
        invariant tries <= slots && virtIdx < slots
        invariant FindFree(virtualIdxMap[..], nextVirtIdx, slots)
               == FindFree(virtualIdxMap[..], virtIdx, slots - tries)
      {
        if virtualIdxMap[virtIdx].None? {
          return Some(virtIdx);
        }
        virtIdx := (virtIdx + 1) % slots;
        tries := tries + 1;
      }
      return None;
    }

    /** The state in which `rc` has been queued. */
    ghost function Queueing(rc: Option<RecvDone>): Rx
      reads Repr()
    {
      Abs().(stash := stash + if rc.Some? then [rc.value] else [])
    }

    /** Map a data message; the caller queues or hands out the completion. */
    method MapArrival(offset: nat, length: nat) returns (rc: Option<RecvDone>)
      requires Valid()
      modifies this`nextVirtIdx, this`arrivalSeq, virtualIdxMap
      ensures Valid()
      ensures match ArriveData(old(Abs()), offset, length)
        case None => rc.None? && Abs() == old(Abs())
        case Some(rx) => rc.Some? && Queueing(rc) == rx
    {
      var found := FindVirtIdx();
      if found.None? {
        return None;
      }
      var v := found.value;
      var seqNo := arrivalSeq;
      arrivalSeq := seqNo + 1;
      virtualIdxMap[v] := Some(Entry(offset, length, seqNo));
      nextVirtIdx := (v + 1) % virtualIdxMap.Length;
      rc := Some(RecvDone(v, length));
    }

    /** Padding takes an arrival number and is released at once. */
    method ReapPad() returns (contiguous: nat)
      requires Valid()
      modifies this`arrivalSeq, tracker, tracker.released
      ensures Valid() && (Abs(), contiguous) == ArrivePad(old(Abs()))
    {
      var seqNo := arrivalSeq;
      arrivalSeq := seqNo + 1;
      contiguous := tracker.Release(seqNo % virtualIdxMap.Length);
    }

    /** Unmap a message and release its arrival number. */
    method Unmap(idx: nat) returns (contiguous: nat)
      requires Valid() && idx < virtualIdxMap.Length && virtualIdxMap[idx].Some?
      modifies virtualIdxMap, tracker, tracker.released
      ensures Valid() && (Abs(), contiguous) == Repost(old(Abs()), idx)
    {
      var entry := virtualIdxMap[idx].value;
      virtualIdxMap[idx] := None;
      contiguous := tracker.Release(entry.arrival % virtualIdxMap.Length);
    }

    /** `recv_buf` */
    method RecvBuf(idx: nat) returns (bytes: seq<u8>)
      requires idx < virtualIdxMap.Length && virtualIdxMap[idx].Some?
      requires virtualIdxMap[idx].value.offset + virtualIdxMap[idx].value.length <= mem.Length
      ensures bytes == RecvSide.RecvBuf(Abs(), idx)
    {
      var entry := virtualIdxMap[idx].value;
      bytes := mem[entry.offset..entry.offset + entry.length];
    }
  }
}
