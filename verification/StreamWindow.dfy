/**
  * The receive window of the read ring under a byte stream. A stream hands messages
  * back in arrival order, except that a blocked write releases later messages while
  * a read has left one partly consumed, which therefore has at least two bytes. When
  * such a message and a window of others never fit the ring together, the window is
  * never passed: a receiver that would pass it has no index left and gives up.
  */
module StreamWindow {
  import opened RingBuffers
  import opened TransportCommon
  import opened WorkLog
  import opened SendSide
  import opened RecvSide
  import opened ReadRing
  import opened ReadProtocol
  import opened ReadWindow
  import opened StreamSpec

  /** Nothing can be sent, no message can be read in part, or one leaves no room to pass the window. */
  predicate StreamFits(c: Config) {
    c.maxOut < SEND_COPY_MAX_WRS || c.maxMsg <= 1 || c.cap <= c.maxOut + 2 + c.threshold
  }

  /** The next message finds the window closed: as many arrivals as indices are unreleased. */
  ghost predicate Closed(c: Config, x: Node, y: Node) {
    && Inv(c, x, y) && StreamFits(c) && Roomy(c, y)
    && x.past.rdone < y.exec && Is(Item, y.ep.tx.log[x.past.rdone])
    && x.ep.rx.arrivals == x.past.freed + c.maxOut
  }

  /** Entry `i` is one of the unreleased messages, or the next one. */
  ghost predicate Recent(x: Node, log: seq<Wr>, i: nat) {
    i <= x.past.rdone < |log| && Is(Item, log[i]) && Rank(Item, log, i) >= x.past.freed
  }

  // ---------------------------------------------------------------------
  // Before a closed window every message is a single byte
  // ---------------------------------------------------------------------

  /** What a closed window says about bytes. */
  lemma ClosedBytes(c: Config, x: Node, y: Node)
    requires Closed(c, x, y)
    ensures c.Valid() && y.exec <= |y.ep.tx.log| && WellPlaced(c.cap, c.Bound(), y.ep.tx.log)
    ensures var log, i := y.ep.tx.log, x.past.rdone;
            && x.past.freed <= Rank(Item, log, i) && Rank(Item, log, i + 1) == x.past.freed + c.maxOut + 1
            && (c.maxMsg > 1 ==> Pos(c.cap, log, |log|) <= HeadPos(c.cap, log, x.past.freed) + c.maxOut + 1)
  {
    var log, i := y.ep.tx.log, x.past.rdone;
    FreedReach(c, y, x);
    RankMono(Item, log, i + 1, |log|);
    hide Staged, Accounts, Mapped, Queued, Intact, Tracked, Lengths, HeadTrue, Landed, HeadPos, Pos, WellPlaced;
  }

  /** The bytes up to the next message, one of them singled out. */
  lemma Squeezed(c: Config, x: Node, y: Node, i: nat)
    requires Closed(c, x, y) && Recent(x, y.ep.tx.log, i)
    ensures var log := y.ep.tx.log;
            HeadPos(c.cap, log, x.past.freed) + c.maxOut + Ext(c.cap, log[i]) <= Pos(c.cap, log, x.past.rdone + 1)
  {
    ClosedBytes(c, x, y);
    var log := y.ep.tx.log;
    hide Closed, HeadPos, WellPlaced;
    ItemsWithinBytes(c.cap, c.Bound(), log, x.past.freed, i);
    ItemsAndBytes(c.cap, c.Bound(), log, i + 1, x.past.rdone + 1);
  }

  lemma SingleByte(c: Config, x: Node, y: Node, i: nat)
    requires Closed(c, x, y) && Recent(x, y.ep.tx.log, i)
    ensures y.ep.tx.log[i].Data? && |y.ep.tx.log[i].msg| == 1
  {
    hide Closed, HeadPos, Pos, Rank, EncodeImm;
    ClosedBytes(c, x, y);
    AtMostOne(c, x, y, i);
    NoPadding(c, x, y, i);
    assert Placed(c.cap, c.Bound(), y.ep.tx.log, i);
  }

  lemma AtMostOne(c: Config, x: Node, y: Node, i: nat)
    requires Closed(c, x, y) && Recent(x, y.ep.tx.log, i)
    ensures i < |y.ep.tx.log| && (c.maxMsg > 1 ==> Ext(c.cap, y.ep.tx.log[i]) <= 1)
  {
    hide Closed, HeadPos, Pos, Rank, EncodeImm;
    ClosedBytes(c, x, y);
    Squeezed(c, x, y, i);
    PosMono(c.cap, y.ep.tx.log, x.past.rdone + 1, |y.ep.tx.log|);
  }

  /** Padding would be followed by a message of two bytes or more. */
  lemma NoPadding(c: Config, x: Node, y: Node, i: nat)
    requires Closed(c, x, y) && Recent(x, y.ep.tx.log, i)
    ensures !y.ep.tx.log[i].Pad?
  {
    hide Closed, HeadPos, Pos, Rank, EncodeImm;
    ClosedBytes(c, x, y);
    Squeezed(c, x, y, i);
    var log := y.ep.tx.log;
    assert Placed(c.cap, c.Bound(), log, i);
    if log[i].Pad? {
      assert Placed(c.cap, c.Bound(), log, i + 1);
      if i < x.past.rdone {
        RankMono(Item, log, i, i + 1);
        AtMostOne(c, x, y, i + 1);
      } else {
        PosMono(c.cap, log, i + 1, |log|);
      }
    }
  }

  // ---------------------------------------------------------------------
  // ... so none is partly consumed, and each has an index
  // ---------------------------------------------------------------------

  /** What the stream holds of `x`. */
  ghost predicate Streamed(x: Node, st: Stream) {
    Ready(x.ep.rx, st) && OnlyPending(x.ep.rx, st)
  }

  lemma NonePending(c: Config, x: Node, y: Node, st: Stream)
    requires Closed(c, x, y) && Streamed(x, st)
    ensures st.pending.None?
  {
    if st.pending.Some? {
      var rx, log := x.ep.rx, y.ep.tx.log;
      var p := st.pending.value;
      assert HandedOut(rx, p.idx);
      var q := rx.vmap[p.idx].value.arrival;
      NotFreed(rx, x.past, q);
      var i := RankReach(Item, log, x.past.rdone, q);
      assert Describes(log, x.past.rdone, rx.vmap[p.idx].value);
      SingleByte(c, x, y, i);
      assert false;
    }
  }

  /** The first unreleased message has not been handed out. */
  lemma FirstQueued(k: nat, cap: nat, log: seq<Wr>, exec: nat, rx: Rx, h: Past, i: nat)
    requires RxInv(k, cap, log, exec, rx, h) && i < h.rdone && log[i].Data? && Rank(Item, log, i) == h.freed
    requires forall v: nat :: !HandedOut(rx, v)
    ensures h.taken <= Rank(Payload, log, i)
  {
    assert KeepsIndex(log, rx.vmap, h.done, i);
    var v: nat :| v < |rx.vmap| && rx.vmap[v].Some? && rx.vmap[v].value.arrival == h.freed;
    assert !HandedOut(rx, v);
    var j :| 0 <= j < |rx.stash| && rx.stash[j].bufIdx == v;
    var l := HandsOutInOrder(k, cap, log, exec, rx, h, j);
    RankInjective(Item, log, i, l);
  }

  /** Nor has any later one. */
  lemma LaterIndexed(k: nat, cap: nat, log: seq<Wr>, exec: nat, rx: Rx, h: Past, i: nat)
    requires RxInv(k, cap, log, exec, rx, h) && i < h.rdone && log[i].Data? && h.taken <= Rank(Payload, log, i)
    ensures Indexed(rx.vmap, Rank(Item, log, i))
  {
    RankMono(Payload, log, i, h.rdone);
    var l := HandsOutInOrder(k, cap, log, exec, rx, h, Rank(Payload, log, i) - h.taken);
    RankInjective(Payload, log, i, l);
  }

  lemma AllIndexed(c: Config, x: Node, y: Node, st: Stream, q: nat)
    requires Closed(c, x, y) && Streamed(x, st) && x.past.freed <= q < x.past.freed + c.maxOut
    ensures Indexed(x.ep.rx.vmap, q)
  {
    NonePending(c, x, y, st);
    ClosedBytes(c, x, y);
    var log, h := y.ep.tx.log, x.past;
    var first := RankReach(Item, log, h.rdone, h.freed);
    var i := RankReach(Item, log, h.rdone, q);
    SingleByte(c, x, y, first);
    SingleByte(c, x, y, i);
    if i < first {
      RankMono(Item, log, i, first);
    }
    hide Streamed, StreamFits, Roomy;
    assert RxInv(c.maxOut, c.cap, log, y.exec, x.ep.rx, h);
    hide *;
    RankMono(Payload, log, first, i);
    FirstQueued(c.maxOut, c.cap, log, y.exec, x.ep.rx, h, first);
    LaterIndexed(c.maxOut, c.cap, log, y.exec, x.ep.rx, h, i);
  }

  // ---------------------------------------------------------------------
  // ... and there is none left
  // ---------------------------------------------------------------------

  /** Fewer numbers than indices when one is free. */
  lemma {:induction false} ArrivalsBelow(vmap: seq<Option<Entry>>, n: nat, u: nat)
    requires u < n <= |vmap| && vmap[u].None?
    ensures |Arrivals(vmap, n)| < n
  {
    if u == n - 1 {
      assert Arrivals(vmap, n) == Arrivals(vmap, n - 1);
      ArrivalsAtMost(vmap, n - 1);
    } else {
      ArrivalsBelow(vmap, n - 1, u);
      ArrivalsNext(vmap, n - 1);
    }
  }

  lemma ArrivalsNext(vmap: seq<Option<Entry>>, n: nat)
    requires n < |vmap|
    ensures |Arrivals(vmap, n + 1)| <= |Arrivals(vmap, n)| + 1
  {
    var last: set<nat> := if vmap[n].Some? then {vmap[n].value.arrival} else {};
    assert Arrivals(vmap, n + 1) == Arrivals(vmap, n) + last;
  }

  lemma {:induction false} ArrivalsAtMost(vmap: seq<Option<Entry>>, n: nat)
    requires n <= |vmap|
    ensures |Arrivals(vmap, n)| <= n
  {
    if n > 0 {
      ArrivalsAtMost(vmap, n - 1);
      ArrivalsNext(vmap, n - 1);
    }
  }

  /** As many numbers as indices, each with its own: the map is full. */
  lemma FullMap(vmap: seq<Option<Entry>>, lo: nat, v: nat)
    requires forall q :: lo <= q < lo + |vmap| ==> Indexed(vmap, q)
    requires v < |vmap|
    ensures vmap[v].Some?
  {
    if vmap[v].None? {
      var range, n := Range(lo, lo + |vmap|), |vmap|;
      forall q | q in range
        ensures q in Arrivals(vmap, n)
      {
        assert Indexed(vmap, q);
      }
      SubsetSize(range, Arrivals(vmap, n));
      ArrivalsBelow(vmap, n, v);
    }
  }

  /**
    * Reaping under a stream whose ring leaves no room to pass the window: the window
    * is open, or the receiver finds no index and gives the connection up.
    */
  lemma OpenOrGivesUp(c: Config, x: Node, y: Node, st: Stream)
    requires Inv(c, x, y) && StreamFits(c) && Roomy(c, y) && Streamed(x, st)
    requires x.past.rdone < y.exec && Is(Item, y.ep.tx.log[x.past.rdone]) && !WindowOpen(c, x)
    ensures x.ep.Ok(c)
    ensures ReapRecv(c, x.ep, Arrives(y.ep.tx.log[x.past.rdone])) == x.ep.(dead := true)
  {
    ArrivalsBound(c, x, y);
    var vmap, w := x.ep.rx.vmap, y.ep.tx.log[x.past.rdone];
    SingleByte(c, x, y, x.past.rdone);
    ReapsPlacement(c, x, y);
    hide *;
    forall q | x.past.freed <= q < x.past.freed + c.maxOut
      ensures Indexed(vmap, q)
    {
      AllIndexed(c, x, y, st, q);
    }
    forall v | 0 <= v < |vmap|
      ensures vmap[v].Some?
    {
      FullMap(vmap, x.past.freed, v);
    }
    FullGivesUp(c, x, w);
  }

  /** Mapping an arrival when every index is taken. */
  lemma FullGivesUp(c: Config, x: Node, w: Wr)
    requires x.ep.Ok(c) && w.Data? && forall v :: 0 <= v < |x.ep.rx.vmap| ==> x.ep.rx.vmap[v].Some?
    ensures DataReaped(c, x, w).ep == x.ep.(dead := true)
  {
    hide FindFree;
  }

  lemma ArrivalsBound(c: Config, x: Node, y: Node)
    requires Inv(c, x, y) && StreamFits(c) && Roomy(c, y)
    requires x.past.rdone < y.exec && Is(Item, y.ep.tx.log[x.past.rdone]) && !WindowOpen(c, x)
    ensures Closed(c, x, y) && x.ep.Ok(c) && |x.ep.rx.vmap| == c.maxOut
    ensures Recent(x, y.ep.tx.log, x.past.rdone)
  {
  }
}
