/**
  * The receiving half both ring transports share: the ring the peer writes, the
  * index map handing messages to the application, the queue of reaped messages
  * not yet handed out, and the release tracker.
  */
module RecvSide {
  import opened Modular
  import opened RingBuffers
  import opened TransportCommon
  import opened WorkLog
  import opened CompletionTrackers

  /** Where a mapped message lies, and its arrival number. */
  datatype Entry = Entry(offset: nat, length: nat, arrival: nat)

  datatype RecvDone = RecvDone(bufIdx: nat, byteLen: nat)

  datatype Rx = Rx(mem: seq<u8>, vmap: seq<Option<Entry>>, nextVirt: nat, arrivals: nat,
                   stash: seq<RecvDone>, tracker: Tracker)

  /** The scan for a free index: round robin from `at`, at most `tries` probes. */
  function FindFree(vmap: seq<Option<Entry>>, at: nat, tries: nat): (r: Option<nat>)
    requires at < |vmap|
    ensures r.Some? ==> r.value < |vmap| && vmap[r.value].None?
    decreases tries
  {
    if tries == 0 then None
    else if vmap[at].None? then Some(at)
    else FindFree(vmap, (at + 1) % |vmap|, tries - 1)
  }

  predicate ShapeOk(rx: Rx) {
    rx.nextVirt < |rx.vmap| && rx.tracker.Valid() && |rx.tracker.released| == |rx.vmap|
  }

  /** Reap a data message: map it and queue it. `None` when the map is exhausted. */
  function ArriveData(rx: Rx, offset: nat, length: nat): Option<Rx>
    requires ShapeOk(rx)
  {
    match FindFree(rx.vmap, rx.nextVirt, |rx.vmap|)
    case None => None
    case Some(v) =>
      Some(rx.(vmap := rx.vmap[v := Some(Entry(offset, length, rx.arrivals))],
               nextVirt := (v + 1) % |rx.vmap|,
               arrivals := rx.arrivals + 1,
               stash := rx.stash + [RecvDone(v, length)]))
  }

  lemma ArriveShape(rx: Rx, offset: nat, length: nat)
    requires ShapeOk(rx)
    ensures ArriveData(rx, offset, length).Some? ==>
      var rx' := ArriveData(rx, offset, length).value;
      ShapeOk(rx') && |rx'.vmap| == |rx.vmap| && rx'.mem == rx.mem
  {
  }

  /** Every index stands for a message. */
  predicate Full(vmap: seq<Option<Entry>>) { forall v :: 0 <= v < |vmap| ==> vmap[v].Some? }

  /** A written message that cannot be taken: it lies outside the ring, or no index is free. */
  predicate Rejects(cap: nat, rx: Rx, offset: nat, length: nat) {
    offset >= cap || (length > 0 && (offset + length > cap || Full(rx.vmap)))
  }

  /** The lengths of the queued messages, in order. */
  function Lens(q: seq<RecvDone>): (r: seq<nat>)
    ensures |r| == |q|
  {
    seq(|q|, i requires 0 <= i < |q| => q[i].byteLen)
  }

  /** The first `room` of them, or all. */
  function FirstOf(q: seq<RecvDone>, room: nat): seq<RecvDone> { q[..Min(room, |q|)] }

  /** Mapping fails exactly when every index is taken; otherwise it queues the message last. */
  lemma ArriveIffFree(rx: Rx, offset: nat, length: nat)
    requires ShapeOk(rx)
    ensures ArriveData(rx, offset, length).None? <==> Full(rx.vmap)
    ensures ArriveData(rx, offset, length).Some? ==>
      Lens(ArriveData(rx, offset, length).value.stash) == Lens(rx.stash) + [length]
  {
    hide FindFree;
    if !Full(rx.vmap) {
      var v :| 0 <= v < |rx.vmap| && rx.vmap[v].None?;
      FindFreeComplete(rx.vmap, rx.nextVirt, v);
    }
  }

  /** Reap padding: it takes an arrival number and is released at once. */
  function ArrivePad(rx: Rx): (Rx, nat)
    requires ShapeOk(rx)
  {
    var (t, n) := rx.tracker.Release(rx.arrivals % |rx.vmap|);
    (rx.(tracker := t, arrivals := rx.arrivals + 1), n)
  }

  /** `repost_recv`: unmap the message and release its arrival number. */
  function Repost(rx: Rx, idx: nat): (Rx, nat)
    requires ShapeOk(rx) && idx < |rx.vmap| && rx.vmap[idx].Some?
  {
    var (t, n) := rx.tracker.Release(rx.vmap[idx].value.arrival % |rx.vmap|);
    (rx.(vmap := rx.vmap[idx := None], tracker := t), n)
  }

  /** `recv_buf` */
  function RecvBuf(rx: Rx, idx: nat): seq<u8>
    requires idx < |rx.vmap| && rx.vmap[idx].Some?
    requires rx.vmap[idx].value.offset + rx.vmap[idx].value.length <= |rx.mem|
  {
    var e := rx.vmap[idx].value;
    rx.mem[e.offset..e.offset + e.length]
  }

  /**
    * What has happened on the receiving side so far: entries of the peer's log
    * reaped, length of the released prefix, the arrival numbers released, and
    * the messages handed to the application.
    */
  datatype Past = Past(rdone: nat, freed: nat, done: set<nat>, taken: nat)

  // ---------------------------------------------------------------------
  // Invariants
  // ---------------------------------------------------------------------

  ghost predicate Counted(k: nat, log: seq<Wr>, rx: Rx, h: Past) {
    && 0 < k == |rx.vmap| && rx.nextVirt < k
    && h.rdone <= |log|
    && rx.arrivals == Rank(Item, log, h.rdone)
    && h.freed <= rx.arrivals <= h.freed + k
  }

  ghost predicate Tracked(k: nat, rx: Rx, h: Past) {
    && |rx.tracker.released| == k
    && rx.tracker.Tracks(h.freed, h.done)
    && Within(h.done, rx.arrivals)
  }

  /** An index-map entry describes the data message with its arrival number. */
  ghost predicate Describes(log: seq<Wr>, rdone: nat, e: Entry)
    requires rdone <= |log|
  {
    forall i :: 0 <= i < rdone && Is(Item, log[i]) && Rank(Item, log, i) == e.arrival ==>
      log[i].Data? && e.offset == log[i].ro && e.length == |log[i].msg|
  }

  /** Some index stands for arrival number `q`. */
  ghost predicate Indexed(vmap: seq<Option<Entry>>, q: nat) {
    exists v :: 0 <= v < |vmap| && vmap[v].Some? && vmap[v].value.arrival == q
  }

  /** A message that has not been released has its index. */
  ghost predicate KeepsIndex(log: seq<Wr>, vmap: seq<Option<Entry>>, done: set<nat>, i: nat)
    requires i < |log|
  {
    log[i].Data? && Rank(Item, log, i) !in done ==> Indexed(vmap, Rank(Item, log, i))
  }

  ghost predicate Mapped(log: seq<Wr>, rx: Rx, h: Past)
    requires h.rdone <= |log|
  {
    && (forall i: nat {:trigger KeepsIndex(log, rx.vmap, h.done, i)} :: i < h.rdone ==>
          KeepsIndex(log, rx.vmap, h.done, i))
    && (forall v :: 0 <= v < |rx.vmap| && rx.vmap[v].Some? ==>
          && rx.vmap[v].value.arrival < rx.arrivals
          && rx.vmap[v].value.arrival !in h.done
          && Describes(log, h.rdone, rx.vmap[v].value))
    && (forall v, w :: 0 <= v < w < |rx.vmap| && rx.vmap[v].Some? && rx.vmap[w].Some? ==>
          rx.vmap[v].value.arrival != rx.vmap[w].value.arrival)
  }

  /** Every message written and not yet part of the released prefix reads back as sent. */
  ghost predicate Intact(log: seq<Wr>, exec: nat, mem: seq<u8>, freed: nat)
    requires exec <= |log|
  {
    forall i :: 0 <= i < exec && log[i].Data? && Rank(Item, log, i) >= freed ==>
      log[i].ro + |log[i].msg| <= |mem|
      && mem[log[i].ro..log[i].ro + |log[i].msg|] == log[i].msg
  }

  /** Queue slot `j` is the data message number `number`. */
  ghost predicate IsMessage(log: seq<Wr>, rdone: nat, vmap: seq<Option<Entry>>, c: RecvDone, number: nat)
    requires rdone <= |log|
  {
    && c.bufIdx < |vmap| && vmap[c.bufIdx].Some?
    && c.byteLen == vmap[c.bufIdx].value.length
    && (forall i :: 0 <= i < rdone && log[i].Data? && Rank(Payload, log, i) == number ==>
          vmap[c.bufIdx].value.arrival == Rank(Item, log, i))
  }

  /** The queue holds the reaped messages not handed out, in arrival order. */
  ghost predicate Queued(log: seq<Wr>, rx: Rx, h: Past)
    requires h.rdone <= |log|
  {
    && h.taken + |rx.stash| == Rank(Payload, log, h.rdone)
    && (forall j :: 0 <= j < |rx.stash| ==> IsMessage(log, h.rdone, rx.vmap, rx.stash[j], h.taken + j))
  }

  ghost predicate RxInv(k: nat, cap: nat, log: seq<Wr>, exec: nat, rx: Rx, h: Past) {
    && h.rdone <= exec <= |log|
    && |rx.mem| == cap
    && Counted(k, log, rx, h)
    && Tracked(k, rx, h)
    && Mapped(log, rx, h)
    && Intact(log, exec, rx.mem, h.freed)
    && Queued(log, rx, h)
  }

  // ---------------------------------------------------------------------
  // Reading back
  // ---------------------------------------------------------------------

  /** Entry `i` of the peer's log is the message mapped at `v`. */
  ghost predicate Holds(log: seq<Wr>, rdone: nat, rx: Rx, v: nat, i: nat)
    requires rdone <= |log|
  {
    && v < |rx.vmap| && rx.vmap[v].Some?
    && i < rdone && Is(Item, log[i]) && Rank(Item, log, i) == rx.vmap[v].value.arrival
  }

  /** A mapped message reads back exactly what its sender gathered. */
  lemma ReadsBack(k: nat, cap: nat, log: seq<Wr>, exec: nat, rx: Rx, h: Past, v: nat, i: nat)
    requires RxInv(k, cap, log, exec, rx, h) && Holds(log, h.rdone, rx, v, i)
    ensures log[i].Data?
    ensures rx.vmap[v].value.offset + rx.vmap[v].value.length <= |rx.mem|
    ensures RecvBuf(rx, v) == log[i].msg
  {
    assert Describes(log, h.rdone, rx.vmap[v].value);
    NotFreed(rx, h, rx.vmap[v].value.arrival);
  }

  /** Every mapped message reads back exactly what its sender gathered. */
  ghost predicate AllReadBack(log: seq<Wr>, rdone: nat, rx: Rx)
    requires rdone <= |log|
  {
    forall v: nat, i: nat :: Holds(log, rdone, rx, v, i) ==>
      && log[i].Data?
      && rx.vmap[v].value.offset + rx.vmap[v].value.length <= |rx.mem|
      && RecvBuf(rx, v) == log[i].msg
  }

  /** Exactly the reaped messages that have not been released are held. */
  ghost predicate HeldExactly(log: seq<Wr>, h: Past, rx: Rx)
    requires h.rdone <= |log|
  {
    forall i: nat :: i < h.rdone && log[i].Data? ==>
      (Rank(Item, log, i) !in h.done <==> exists v: nat :: Holds(log, h.rdone, rx, v, i))
  }

  lemma AllHeld(k: nat, cap: nat, log: seq<Wr>, exec: nat, rx: Rx, h: Past)
    requires RxInv(k, cap, log, exec, rx, h)
    ensures HeldExactly(log, h, rx)
  {
    hide Intact, Queued, Tracked, Counted, Describes, Rank;
    forall i: nat | i < h.rdone && log[i].Data?
      ensures Rank(Item, log, i) !in h.done <==> exists v: nat :: Holds(log, h.rdone, rx, v, i)
    {
      if Rank(Item, log, i) !in h.done {
        assert KeepsIndex(log, rx.vmap, h.done, i);
        var v: nat :| v < |rx.vmap| && rx.vmap[v].Some? && rx.vmap[v].value.arrival == Rank(Item, log, i);
        assert Holds(log, h.rdone, rx, v, i);
      }
    }
  }

  lemma AllReadsBack(k: nat, cap: nat, log: seq<Wr>, exec: nat, rx: Rx, h: Past)
    requires RxInv(k, cap, log, exec, rx, h)
    ensures AllReadBack(log, h.rdone, rx)
  {
    forall v: nat, i: nat | Holds(log, h.rdone, rx, v, i)
      ensures log[i].Data?
      ensures rx.vmap[v].value.offset + rx.vmap[v].value.length <= |rx.mem|
      ensures RecvBuf(rx, v) == log[i].msg
    {
      ReadsBack(k, cap, log, exec, rx, h, v, i);
    }
  }

  /** An unreleased number is not below the released prefix. */
  lemma NotFreed(rx: Rx, h: Past, q: nat)
    requires rx.tracker.Tracks(h.freed, h.done) && q !in h.done
    ensures q >= h.freed
  {
  }

  // ---------------------------------------------------------------------
  // The index map is never exhausted within the window
  // ---------------------------------------------------------------------

  ghost function Range(lo: nat, hi: nat): (s: set<nat>)
    requires lo <= hi
    ensures forall q :: q in s <==> lo <= q < hi
    ensures |s| == hi - lo
    decreases hi
  {
    if lo == hi then {} else Range(lo, hi - 1) + {hi - 1}
  }

  /** The arrival numbers of the first `n` entries of a full map. */
  ghost function Arrivals(vmap: seq<Option<Entry>>, n: nat): (s: set<nat>)
    requires n <= |vmap|
  {
    set v | 0 <= v < n && vmap[v].Some? :: vmap[v].value.arrival
  }

  lemma {:induction false} ArrivalsSize(vmap: seq<Option<Entry>>, n: nat)
    requires n <= |vmap|
    requires forall v :: 0 <= v < |vmap| ==> vmap[v].Some?
    requires forall v, w :: 0 <= v < w < |vmap| ==> vmap[v].value.arrival != vmap[w].value.arrival
    ensures |Arrivals(vmap, n)| == n
  {
    if n > 0 {
      ArrivalsSize(vmap, n - 1);
      assert Arrivals(vmap, n) == Arrivals(vmap, n - 1) + {vmap[n - 1].value.arrival};
    } else {
      assert Arrivals(vmap, 0) == {};
    }
  }

  lemma SubsetSize(a: set<nat>, b: set<nat>)
    requires a <= b
    ensures |a| <= |b|
  {
    assert |b| == |a| + |b - a| by {
      assert b == a + (b - a);
    }
  }

  /** With fewer than `k` numbers in the window, some index is free. */
  lemma SomeFree(k: nat, log: seq<Wr>, rx: Rx, h: Past)
    requires Counted(k, log, rx, h) && Tracked(k, rx, h) && Mapped(log, rx, h)
    requires rx.arrivals < h.freed + k
    ensures exists v :: 0 <= v < k && rx.vmap[v].None?
  {
    if forall v :: 0 <= v < k ==> rx.vmap[v].Some? {
      var range := Range(h.freed, rx.arrivals);
      forall q | q in Arrivals(rx.vmap, k)
        ensures q in range
      {
        NotFreed(rx, h, q);
      }
      ArrivalsSize(rx.vmap, k);
      SubsetSize(Arrivals(rx.vmap, k), range);
    }
  }

  /** The scan misses no free index it passes. */
  lemma {:induction false} FindFreeHits(vmap: seq<Option<Entry>>, at: nat, tries: nat, d: nat)
    requires at < |vmap| && d < tries && vmap[(at + d) % |vmap|].None?
    ensures FindFree(vmap, at, tries).Some?
    decreases tries
  {
    if vmap[at].Some? {
      AddMod(at + 1, d - 1, |vmap|);
      FindFreeHits(vmap, (at + 1) % |vmap|, tries - 1, d - 1);
    }
  }

  lemma FindFreeComplete(vmap: seq<Option<Entry>>, at: nat, v: nat)
    requires at < |vmap| && v < |vmap| && vmap[v].None?
    ensures FindFree(vmap, at, |vmap|).Some?
  {
    var d := ProbesTo(at, v, |vmap|);
    FindFreeHits(vmap, at, |vmap|, d);
  }

  // ---------------------------------------------------------------------
  // Preservation
  // ---------------------------------------------------------------------

  lemma DescribesGrows(log: seq<Wr>, more: seq<Wr>, rdone: nat, e: Entry)
    requires rdone <= |log| && Describes(log, rdone, e)
    ensures Describes(log + more, rdone, e)
  {
    forall i | 0 <= i < rdone && Is(Item, (log + more)[i]) && Rank(Item, log + more, i) == e.arrival
      ensures (log + more)[i].Data? && e.offset == (log + more)[i].ro && e.length == |(log + more)[i].msg|
    {
      RankAppend(Item, log, more, i);
      assert (log + more)[i] == log[i];
    }
  }

  lemma QueuedGrows(log: seq<Wr>, more: seq<Wr>, rx: Rx, h: Past)
    requires h.rdone <= |log| && Queued(log, rx, h)
    ensures Queued(log + more, rx, h)
  {
    RankAppend(Payload, log, more, h.rdone);
    forall j | 0 <= j < |rx.stash|
      ensures IsMessage(log + more, h.rdone, rx.vmap, rx.stash[j], h.taken + j)
    {
      assert IsMessage(log, h.rdone, rx.vmap, rx.stash[j], h.taken + j);
      forall i | 0 <= i < h.rdone && (log + more)[i].Data? && Rank(Payload, log + more, i) == h.taken + j
        ensures rx.vmap[rx.stash[j].bufIdx].value.arrival == Rank(Item, log + more, i)
      {
        RankAppend(Payload, log, more, i);
        RankAppend(Item, log, more, i);
      }
    }
  }

  /** The sender posting more changes nothing here. */
  lemma LogGrows(k: nat, cap: nat, log: seq<Wr>, more: seq<Wr>, exec: nat, rx: Rx, h: Past)
    requires RxInv(k, cap, log, exec, rx, h)
    ensures RxInv(k, cap, log + more, exec, rx, h)
  {
    RankAppend(Item, log, more, h.rdone);
    forall v | 0 <= v < |rx.vmap| && rx.vmap[v].Some?
      ensures Describes(log + more, h.rdone, rx.vmap[v].value)
    {
      DescribesGrows(log, more, h.rdone, rx.vmap[v].value);
    }
    QueuedGrows(log, more, rx, h);
    forall i: nat | i < h.rdone
      ensures KeepsIndex(log + more, rx.vmap, h.done, i)
    {
      RankAppend(Item, log, more, i);
      assert KeepsIndex(log, rx.vmap, h.done, i);
    }
    forall i | 0 <= i < exec && (log + more)[i].Data? && Rank(Item, log + more, i) >= h.freed
      ensures (log + more)[i].ro + |(log + more)[i].msg| <= |rx.mem|
      ensures rx.mem[(log + more)[i].ro..(log + more)[i].ro + |(log + more)[i].msg|] == (log + more)[i].msg
    {
      RankAppend(Item, log, more, i);
    }
  }

  /** The write of entry `exec` stays within one lap of every message not yet freed. */
  ghost predicate InWindow(cap: nat, log: seq<Wr>, exec: nat, freed: nat)
    requires exec < |log|
  {
    forall i :: 0 <= i < exec && log[i].Data? && Rank(Item, log, i) >= freed ==>
      Pos(cap, log, exec + 1) <= Pos(cap, log, i) + cap
  }

  /** The receiver's ring after the connection carries out entry `exec`. */
  function Land(mem: seq<u8>, w: Wr, bytes: seq<u8>): seq<u8>
    requires w.Data? ==> w.ro + |bytes| <= |mem|
  {
    if w.Data? then Store(mem, w.ro, bytes) else mem
  }

  /** No overwrite: the next write leaves every unreleased message as it was. */
  lemma LandKeeps(cap: nat, bound: nat, log: seq<Wr>, exec: nat, mem: seq<u8>, freed: nat)
    requires cap > 0 && WellPlaced(cap, bound, log) && exec < |log| && |mem| == cap
    requires Intact(log, exec, mem, freed) && InWindow(cap, log, exec, freed)
    ensures log[exec].Data? ==> log[exec].ro + |log[exec].msg| <= cap
    ensures Intact(log, exec + 1, Land(mem, log[exec], if log[exec].Data? then log[exec].msg else []), freed)
  {
    assert Placed(cap, bound, log, exec);
    if log[exec].Data? {
      var w := log[exec];
      var mem' := Store(mem, w.ro, w.msg);
      forall i | 0 <= i < exec + 1 && log[i].Data? && Rank(Item, log, i) >= freed
        ensures log[i].ro + |log[i].msg| <= |mem'|
        ensures mem'[log[i].ro..log[i].ro + |log[i].msg|] == log[i].msg
      {
        StoreReads(mem, w.ro, w.msg, if i < exec then log[i].ro else 0, if i < exec then |log[i].msg| else 0);
        if i < exec {
          assert Placed(cap, bound, log, i);
          PosMono(cap, log, i, exec);
          RangesDisjoint(Pos(cap, log, i), |log[i].msg|, Pos(cap, log, exec), |w.msg|, cap);
        }
      }
    }
  }

  lemma IntactMono(log: seq<Wr>, exec: nat, mem: seq<u8>, freed: nat, freed': nat)
    requires exec <= |log| && Intact(log, exec, mem, freed) && freed <= freed'
    ensures Intact(log, exec, mem, freed')
  {
  }

  /** The message reaped now gets its own arrival number. */
  lemma DescribesNext(log: seq<Wr>, rdone: nat, e: Entry)
    requires rdone < |log| && Describes(log, rdone, e)
    requires Is(Item, log[rdone]) ==> e.arrival < Rank(Item, log, rdone)
    ensures Describes(log, rdone + 1, e)
  {
  }

  lemma DescribesSelf(log: seq<Wr>, rdone: nat)
    requires rdone < |log| && log[rdone].Data?
    ensures Describes(log, rdone + 1, Entry(log[rdone].ro, |log[rdone].msg|, Rank(Item, log, rdone)))
  {
    forall i | 0 <= i < rdone + 1 && Is(Item, log[i]) && Rank(Item, log, i) == Rank(Item, log, rdone)
      ensures i == rdone
    {
      RankInjective(Item, log, i, rdone);
    }
  }

  /** Reaping a data message maps it; its arrival number is fresh. */
  lemma ArriveMaps(log: seq<Wr>, rx: Rx, h: Past, v: nat)
    requires h.rdone < |log| && log[h.rdone].Data? && rx.arrivals == Rank(Item, log, h.rdone)
    requires Mapped(log, rx, h) && Within(h.done, rx.arrivals)
    requires v < |rx.vmap| && rx.vmap[v].None?
    ensures var w := log[h.rdone];
            var rx' := rx.(vmap := rx.vmap[v := Some(Entry(w.ro, |w.msg|, rx.arrivals))], arrivals := rx.arrivals + 1);
            Mapped(log, rx', h.(rdone := h.rdone + 1))
  {
    var w := log[h.rdone];
    var vmap' := rx.vmap[v := Some(Entry(w.ro, |w.msg|, rx.arrivals))];
    forall u | 0 <= u < |vmap'| && vmap'[u].Some?
      ensures vmap'[u].value.arrival < rx.arrivals + 1
      ensures vmap'[u].value.arrival !in h.done
      ensures Describes(log, h.rdone + 1, vmap'[u].value)
    {
      if u == v {
        DescribesSelf(log, h.rdone);
      } else {
        DescribesNext(log, h.rdone, rx.vmap[u].value);
      }
    }
    forall i: nat | i < h.rdone + 1
      ensures KeepsIndex(log, vmap', h.done, i)
    {
      if i < h.rdone {
        assert KeepsIndex(log, rx.vmap, h.done, i);
        if Indexed(rx.vmap, Rank(Item, log, i)) {
          IndexedMore(rx.vmap, v, vmap'[v], Rank(Item, log, i));
        }
      } else {
        assert vmap'[v].value.arrival == Rank(Item, log, i);
      }
    }
  }

  /** Filling a free index takes no other one away. */
  lemma IndexedMore(vmap: seq<Option<Entry>>, v: nat, e: Option<Entry>, q: nat)
    requires v < |vmap| && vmap[v].None? && Indexed(vmap, q)
    ensures Indexed(vmap[v := e], q)
  {
    var u :| 0 <= u < |vmap| && vmap[u].Some? && vmap[u].value.arrival == q;
    assert vmap[v := e][u] == vmap[u];
  }

  /** Nor does freeing one that stands for another number. */
  lemma IndexedLess(vmap: seq<Option<Entry>>, v: nat, q: nat)
    requires v < |vmap| && vmap[v].Some? && vmap[v].value.arrival != q && Indexed(vmap, q)
    ensures Indexed(vmap[v := None], q)
  {
    var u :| 0 <= u < |vmap| && vmap[u].Some? && vmap[u].value.arrival == q;
    assert vmap[v := None][u] == vmap[u];
  }

  /** The queue after one more reap; `fresh` is the free index it took. */
  lemma ArriveQueues(log: seq<Wr>, rx: Rx, h: Past, v: nat)
    requires h.rdone < |log| && log[h.rdone].Data? && rx.arrivals == Rank(Item, log, h.rdone)
    requires Queued(log, rx, h)
    requires v < |rx.vmap| && rx.vmap[v].None?
    ensures var w := log[h.rdone];
            var rx' := rx.(vmap := rx.vmap[v := Some(Entry(w.ro, |w.msg|, rx.arrivals))],
                           stash := rx.stash + [RecvDone(v, |w.msg|)]);
            Queued(log, rx', h.(rdone := h.rdone + 1))
  {
    var w := log[h.rdone];
    var vmap' := rx.vmap[v := Some(Entry(w.ro, |w.msg|, rx.arrivals))];
    var stash' := rx.stash + [RecvDone(v, |w.msg|)];
    forall j | 0 <= j < |stash'|
      ensures IsMessage(log, h.rdone + 1, vmap', stash'[j], h.taken + j)
    {
      if j < |rx.stash| {
        assert IsMessage(log, h.rdone, rx.vmap, rx.stash[j], h.taken + j);
        assert stash'[j] == rx.stash[j];
      } else {
        forall i | 0 <= i < h.rdone + 1 && log[i].Data? && Rank(Payload, log, i) == h.taken + j
          ensures i == h.rdone
        {
          RankInjective(Payload, log, i, h.rdone);
        }
      }
    }
  }

  lemma ArriveDataKeeps(k: nat, cap: nat, log: seq<Wr>, exec: nat, rx: Rx, h: Past)
    requires RxInv(k, cap, log, exec, rx, h)
    requires h.rdone < exec && log[h.rdone].Data? && rx.arrivals < h.freed + k
    ensures ShapeOk(rx)
    ensures var w := log[h.rdone];
            ArriveData(rx, w.ro, |w.msg|).Some?
            && RxInv(k, cap, log, exec, ArriveData(rx, w.ro, |w.msg|).value, h.(rdone := h.rdone + 1))
  {
    SomeFree(k, log, rx, h);
    var u :| 0 <= u < k && rx.vmap[u].None?;
    FindFreeComplete(rx.vmap, rx.nextVirt, u);
    var v := FindFree(rx.vmap, rx.nextVirt, |rx.vmap|).value;
    ArriveMaps(log, rx, h, v);
    ArriveQueues(log, rx, h, v);
  }

  /** Entries that are not data leave the index map and the queue alone. */
  lemma SkipKeeps(log: seq<Wr>, rx: Rx, h: Past)
    requires h.rdone < |log| && !log[h.rdone].Data?
    requires rx.arrivals == Rank(Item, log, h.rdone)
    requires Mapped(log, rx, h) && Queued(log, rx, h)
    ensures Mapped(log, rx, h.(rdone := h.rdone + 1)) && Queued(log, rx, h.(rdone := h.rdone + 1))
  {
    forall v | 0 <= v < |rx.vmap| && rx.vmap[v].Some?
      ensures Describes(log, h.rdone + 1, rx.vmap[v].value)
    {
      DescribesNext(log, h.rdone, rx.vmap[v].value);
    }
    forall i: nat | i < h.rdone + 1
      ensures KeepsIndex(log, rx.vmap, h.done, i)
    {
      assert i < h.rdone ==> KeepsIndex(log, rx.vmap, h.done, i);
    }
    forall j | 0 <= j < |rx.stash|
      ensures IsMessage(log, h.rdone + 1, rx.vmap, rx.stash[j], h.taken + j)
    {
      assert IsMessage(log, h.rdone, rx.vmap, rx.stash[j], h.taken + j);
    }
  }

  /** What padding does to the history: one more number, released at once. */
  ghost function AfterPad(rx: Rx, h: Past): Past
    requires ShapeOk(rx)
  {
    h.(rdone := h.rdone + 1, freed := h.freed + ArrivePad(rx).1, done := h.done + {rx.arrivals})
  }

  lemma ArrivePadKeeps(k: nat, cap: nat, log: seq<Wr>, exec: nat, rx: Rx, h: Past)
    requires RxInv(k, cap, log, exec, rx, h)
    requires h.rdone < exec && log[h.rdone].Pad? && rx.arrivals < h.freed + k
    ensures ShapeOk(rx) && RxInv(k, cap, log, exec, ArrivePad(rx).0, AfterPad(rx, h))
  {
    var h' := AfterPad(rx, h);
    var rx' := ArrivePad(rx).0;
    CompletionTrackers.ReleaseRefines(rx.tracker, h.freed, h.done, rx.arrivals);
    FreedBelow(rx', h');
    SkipKeeps(log, rx, h);
    IntactMono(log, exec, rx.mem, h.freed, h'.freed);
    forall i: nat | i < h'.rdone
      ensures KeepsIndex(log, rx.vmap, h'.done, i)
    {
      assert KeepsIndex(log, rx.vmap, h.done, i);
    }
  }

  /** The released prefix never passes the arrivals. */
  lemma FreedBelow(rx: Rx, h: Past)
    requires rx.tracker.Tracks(h.freed, h.done) && Within(h.done, rx.arrivals)
    ensures h.freed <= rx.arrivals
  {
    assert rx.arrivals !in h.done;
  }

  ghost function AfterRepost(rx: Rx, h: Past, idx: nat): Past
    requires ShapeOk(rx) && idx < |rx.vmap| && rx.vmap[idx].Some?
  {
    h.(freed := h.freed + Repost(rx, idx).1, done := h.done + {rx.vmap[idx].value.arrival})
  }

  /** The application has been handed `idx`: it is no longer queued. */
  predicate HandedOut(rx: Rx, idx: nat) {
    && idx < |rx.vmap| && rx.vmap[idx].Some?
    && forall j :: 0 <= j < |rx.stash| ==> rx.stash[j].bufIdx != idx
  }

  lemma RepostKeepsQueue(log: seq<Wr>, rx: Rx, h: Past, idx: nat)
    requires h.rdone <= |log| && Queued(log, rx, h) && HandedOut(rx, idx)
    ensures Queued(log, rx.(vmap := rx.vmap[idx := None]), h)
  {
    forall j | 0 <= j < |rx.stash|
      ensures IsMessage(log, h.rdone, rx.vmap[idx := None], rx.stash[j], h.taken + j)
    {
      assert IsMessage(log, h.rdone, rx.vmap, rx.stash[j], h.taken + j);
    }
  }

  /** Messages may be reposted in any order. */
  lemma RepostKeeps(k: nat, cap: nat, log: seq<Wr>, exec: nat, rx: Rx, h: Past, idx: nat)
    requires RxInv(k, cap, log, exec, rx, h) && HandedOut(rx, idx)
    ensures ShapeOk(rx) && RxInv(k, cap, log, exec, Repost(rx, idx).0, AfterRepost(rx, h, idx))
  {
    var q := rx.vmap[idx].value.arrival;
    var h' := AfterRepost(rx, h, idx);
    var rx' := Repost(rx, idx).0;
    NotFreed(rx, h, q);
    CompletionTrackers.ReleaseRefines(rx.tracker, h.freed, h.done, q);
    FreedBelow(rx', h');
    RepostKeepsQueue(log, rx, h, idx);
    IntactMono(log, exec, rx.mem, h.freed, h'.freed);
    forall v | 0 <= v < |rx'.vmap| && rx'.vmap[v].Some?
      ensures rx'.vmap[v].value.arrival !in h'.done
    {
      assert rx'.vmap[v] == rx.vmap[v];
    }
    forall i: nat | i < h.rdone
      ensures KeepsIndex(log, rx'.vmap, h'.done, i)
    {
      assert KeepsIndex(log, rx.vmap, h.done, i);
      if log[i].Data? && Rank(Item, log, i) !in h'.done {
        IndexedLess(rx.vmap, idx, Rank(Item, log, i));
      }
    }
  }

  /** Handing the first `n` queued messages to the application. */
  lemma TakeKeeps(k: nat, cap: nat, log: seq<Wr>, exec: nat, rx: Rx, h: Past, n: nat)
    requires RxInv(k, cap, log, exec, rx, h) && n <= |rx.stash|
    ensures RxInv(k, cap, log, exec, rx.(stash := rx.stash[n..]), h.(taken := h.taken + n))
  {
    forall j | 0 <= j < |rx.stash| - n
      ensures IsMessage(log, h.rdone, rx.vmap, rx.stash[n..][j], h.taken + n + j)
    {
      assert IsMessage(log, h.rdone, rx.vmap, rx.stash[j + n], h.taken + (j + n));
    }
  }

  /** Hand-out order is send order: queue slot `j` holds data message `taken + j`. */
  lemma HandsOutInOrder(k: nat, cap: nat, log: seq<Wr>, exec: nat, rx: Rx, h: Past, j: nat) returns (i: nat)
    requires RxInv(k, cap, log, exec, rx, h) && j < |rx.stash|
    ensures i < h.rdone && log[i].Data? && Rank(Payload, log, i) == h.taken + j
    ensures Holds(log, h.rdone, rx, rx.stash[j].bufIdx, i)
    ensures rx.stash[j].byteLen == |log[i].msg|
  {
    i := RankReach(Payload, log, h.rdone, h.taken + j);
    assert IsMessage(log, h.rdone, rx.vmap, rx.stash[j], h.taken + j);
    assert Describes(log, h.rdone, rx.vmap[rx.stash[j].bufIdx].value);
  }

  /** No index is queued twice. */
  lemma QueuedOnce(k: nat, cap: nat, log: seq<Wr>, exec: nat, rx: Rx, h: Past, j: nat, m: nat)
    requires RxInv(k, cap, log, exec, rx, h) && j < m < |rx.stash|
    ensures rx.stash[j].bufIdx != rx.stash[m].bufIdx
  {
    var i := HandsOutInOrder(k, cap, log, exec, rx, h, j);
    var l := HandsOutInOrder(k, cap, log, exec, rx, h, m);
    if rx.stash[j].bufIdx == rx.stash[m].bufIdx {
      RankInjective(Item, log, i, l);
    }
  }

  /** An endpoint that has received nothing, whatever its ring holds. */
  function FreshRx(k: nat, mem: seq<u8>): Rx {
    Rx(mem, seq(k, _ => None), 0, 0, [], Tracker(seq(k, _ => false), 0))
  }

  /** Arrival, hand-out and release of the first message. */
  lemma ReceiveOne(k: nat, mem: seq<u8>, l: nat)
    requires 2 <= k && 0 < l
    ensures var rx := FreshRx(k, mem);
            && ShapeOk(rx) && ArriveData(rx, 0, l).Some?
            && var rx1 := ArriveData(rx, 0, l).value;
               && |rx1.stash| == 1 && rx1.stash[0].bufIdx == 0 && ShapeOk(rx1)
               && var rx2 := rx1.(stash := rx1.stash[1..]);
                  HandedOut(rx2, 0) && Repost(rx2, 0).1 == 1
  {
    SmallMod(1, k);
    SmallMod(0, k);
    ReleaseFirst(k);
  }
}
