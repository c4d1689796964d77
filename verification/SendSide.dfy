/**
  * The sending half both ring transports share: a staging ring, a mirror of the
  * peer's write position, and the log of posted work requests.
  */
module SendSide {
  import opened Modular
  import opened RingBuffers
  import opened TransportCommon
  import opened WorkLog

  datatype Tx = Tx(mem: seq<u8>, ring: Ring, remoteTail: nat, log: seq<Wr>)

  /** Stage `msg` at the granted offset and post padding (if any) and data. */
  function Post(cap: nat, tx: Tx, g: Grant, msg: seq<u8>): Tx
    requires cap > 0 && g.offset + |msg| <= |tx.mem|
  {
    var pads := if g.padding > 0 then [Pad(tx.remoteTail, EncodeImm(tx.remoteTail, 0))] else [];
    var ro := if g.padding > 0 then 0 else tx.remoteTail;
    var data := Data(g.offset, ro, EncodeImm(ro, |msg|), g.padding + |msg|, msg);
    Tx(Store(tx.mem, g.offset, msg), g.ring, (ro + |msg|) % cap, tx.log + pads + [data])
  }

  /** Reap the completion of the oldest outstanding entry. */
  function Complete(tx: Tx, sdone: nat): Tx
    requires sdone < |tx.log| && tx.ring.Valid()
  {
    if tx.log[sdone].Data? then tx.(ring := tx.ring.Release(tx.log[sdone].rel)) else tx
  }

  /** Every message whose completion has not been reaped is still staged intact. */
  ghost predicate Staged(tx: Tx, sdone: nat) {
    forall i :: sdone <= i < |tx.log| && tx.log[i].Data? ==>
      tx.log[i].lo + |tx.log[i].msg| <= |tx.mem|
      && tx.mem[tx.log[i].lo..tx.log[i].lo + |tx.log[i].msg|] == tx.log[i].msg
  }

  /**
    * The staging ring holds exactly the bytes of the uncompleted entries, and
    * the mirror of the peer's write position equals the ring's own tail.
    */
  ghost predicate Accounts(cap: nat, tx: Tx, sdone: nat)
    requires cap > 0
  {
    && sdone <= |tx.log|
    && |tx.mem| == tx.ring.capacity == cap
    && tx.ring.Spans(Freed(tx.log, sdone), Pos(cap, tx.log, |tx.log|))
    && tx.remoteTail == tx.ring.tail
  }

  ghost predicate TxInv(cap: nat, bound: nat, tx: Tx, sdone: nat)
    requires cap > 0
  {
    && WellPlaced(cap, bound, tx.log)
    && Accounts(cap, tx, sdone)
    && Staged(tx, sdone)
  }

  /** `used()` is the sum of the release lengths of the uncompleted entries. */
  lemma UsedIsOutstanding(cap: nat, bound: nat, tx: Tx, sdone: nat)
    requires cap > 0 && TxInv(cap, bound, tx, sdone)
    ensures tx.ring.Used() == Freed(tx.log, |tx.log|) - Freed(tx.log, sdone)
  {
    UsedIsSpan(tx.ring, Freed(tx.log, sdone), Pos(cap, tx.log, |tx.log|));
    FreedIsPos(cap, bound, tx.log, |tx.log|);
    NoTrailingGap(cap, bound, tx.log);
  }

  /** A reservation never overlaps bytes that an uncompleted entry still owns. */
  lemma ReservationDisjoint(cap: nat, bound: nat, tx: Tx, sdone: nat, len: nat, i: nat)
    requires cap > 0 && WellPlaced(cap, bound, tx.log) && Accounts(cap, tx, sdone)
    requires tx.ring.Reserve(len).Some?
    requires sdone <= i < |tx.log| && tx.log[i].Data?
    ensures var g := tx.ring.Reserve(len).value; var w := tx.log[i];
            g.offset + len <= w.lo || w.lo + |w.msg| <= g.offset
  {
    var n := |tx.log|;
    var lo, hi := Freed(tx.log, sdone), Pos(cap, tx.log, n);
    var g := tx.ring.Reserve(len).value;
    RingBuffers.ReserveRefines(tx.ring, lo, hi, len);
    assert Placed(cap, bound, tx.log, i);
    FreedIsPos(cap, bound, tx.log, sdone);
    PosMono(cap, tx.log, sdone, i);
    PosMono(cap, tx.log, i, n);
    RangesDisjoint(Pos(cap, tx.log, i), |tx.log[i].msg|, hi + g.padding, len, cap);
  }

  /** The positions of the entries a send appends. */
  lemma PostedPositions(cap: nat, tx: Tx, g: Grant, msg: seq<u8>)
    requires cap > 0 && g.offset + |msg| <= |tx.mem|
    requires g.padding > 0 ==> tx.remoteTail <= cap && g.padding == cap - tx.remoteTail
    ensures var log' := Post(cap, tx, g, msg).log; var n := |tx.log|;
            && Pos(cap, log', n) == Pos(cap, tx.log, n)
            && Pos(cap, log', |log'| - 1) == Pos(cap, tx.log, n) + g.padding
            && Pos(cap, log', |log'|) == Pos(cap, tx.log, n) + g.padding + |msg|
  {
    var log' := Post(cap, tx, g, msg).log;
    var n := |tx.log|;
    var pads := if g.padding > 0 then [Pad(tx.remoteTail, EncodeImm(tx.remoteTail, 0))] else [];
    assert log' == tx.log + (pads + log'[|log'| - 1..]);
    PosAppend(cap, tx.log, pads + log'[|log'| - 1..], n);
    if g.padding > 0 {
      assert log'[n] == pads[0];
      assert Pos(cap, log', n + 1) == Pos(cap, log', n) + Ext(cap, log'[n]);
    }
  }

  /** Where a reservation lies, in terms of the positions used so far. */
  lemma GrantPlaced(cap: nat, tx: Tx, sdone: nat, len: nat)
    requires cap > 0 && Accounts(cap, tx, sdone) && tx.ring.Reserve(len).Some?
    ensures var g := tx.ring.Reserve(len).value; var hi := Pos(cap, tx.log, |tx.log|);
            && g.offset == (hi + g.padding) % cap && g.offset + len <= cap
            && g.padding < len && 0 < g.padding + len < cap
            && tx.remoteTail == hi % cap < cap
            && (g.padding > 0 ==> g.offset == 0 && 0 < tx.remoteTail && g.padding == cap - tx.remoteTail)
            && g.ring.Spans(Freed(tx.log, sdone), hi + g.padding + len) && g.ring.capacity == cap
  {
    hide Freed, Pos;
    RingBuffers.ReserveRefines(tx.ring, Freed(tx.log, sdone), Pos(cap, tx.log, |tx.log|), len);
  }

  /** The appended entries are placed as the log requires. */
  lemma PostPlaces(cap: nat, bound: nat, tx: Tx, sdone: nat, msg: seq<u8>)
    requires cap > 0 && WellPlaced(cap, bound, tx.log) && Accounts(cap, tx, sdone)
    requires |msg| <= bound && tx.ring.Reserve(|msg|).Some?
    ensures var g := tx.ring.Reserve(|msg|).value;
            && g.offset + |msg| <= cap
            && WellPlaced(cap, bound, Post(cap, tx, g, msg).log)
  {
    assert |tx.mem| == cap;
    hide Ring.Reserve, Accounts, Freed, Pos, WellPlaced, EncodeImm, Ring.Spans, Placed, GapBefore;
    GrantPlaced(cap, tx, sdone, |msg|);
    NoTrailingGap(cap, bound, tx.log);
    var g := tx.ring.Reserve(|msg|).value;
    var log' := Post(cap, tx, g, msg).log;
    var more := log'[|tx.log|..];
    assert log' == tx.log + more;
    forall i | |tx.log| <= i < |log'|
      ensures Placed(cap, bound, log', i)
    {
      AppendedPlaced(cap, bound, tx, g, msg, i);
    }
    PlacedAppend(cap, bound, tx.log, more);
  }

  lemma AppendedPlaced(cap: nat, bound: nat, tx: Tx, g: Grant, msg: seq<u8>, i: nat)
    requires cap > 0 && |tx.mem| == cap && g.offset + |msg| <= cap && |msg| <= bound
    requires var hi := Pos(cap, tx.log, |tx.log|);
             && g.offset == (hi + g.padding) % cap && g.padding < |msg| && g.padding + |msg| < cap
             && tx.remoteTail == hi % cap
             && (g.padding > 0 ==> g.offset == 0 && 0 < tx.remoteTail && g.padding == cap - tx.remoteTail)
    requires GapBefore(cap, tx.log, |tx.log|) == 0
    requires |tx.log| <= i < |Post(cap, tx, g, msg).log|
    ensures Placed(cap, bound, Post(cap, tx, g, msg).log, i)
  {
    hide Pos, EncodeImm;
    PostedPositions(cap, tx, g, msg);
    var log', n := Post(cap, tx, g, msg).log, |tx.log|;
    if g.padding > 0 {
      assert log'[n] == Pad(tx.remoteTail, EncodeImm(tx.remoteTail, 0));
    } else {
      assert n > 0 ==> log'[n - 1] == tx.log[n - 1];
    }
  }

  lemma PostStages(cap: nat, bound: nat, tx: Tx, sdone: nat, msg: seq<u8>)
    requires cap > 0 && TxInv(cap, bound, tx, sdone)
    requires tx.ring.Reserve(|msg|).Some? && tx.ring.Reserve(|msg|).value.offset + |msg| <= cap
    ensures Staged(Post(cap, tx, tx.ring.Reserve(|msg|).value, msg), sdone)
  {
    var g := tx.ring.Reserve(|msg|).value;
    var tx' := Post(cap, tx, g, msg);
    forall i | sdone <= i < |tx'.log| && tx'.log[i].Data?
      ensures tx'.log[i].lo + |tx'.log[i].msg| <= |tx'.mem|
      ensures tx'.mem[tx'.log[i].lo..tx'.log[i].lo + |tx'.log[i].msg|] == tx'.log[i].msg
    {
      if i < |tx.log| {
        assert tx'.log[i] == tx.log[i];
        ReservationDisjoint(cap, bound, tx, sdone, |msg|, i);
        StoreReads(tx.mem, g.offset, msg, tx.log[i].lo, |tx.log[i].msg|);
      } else {
        assert i == |tx'.log| - 1;
        StoreReads(tx.mem, g.offset, msg, 0, 0);
      }
    }
  }

  lemma PostAccounts(cap: nat, tx: Tx, sdone: nat, msg: seq<u8>)
    requires cap > 0 && Accounts(cap, tx, sdone) && tx.ring.Reserve(|msg|).Some?
    ensures var g := tx.ring.Reserve(|msg|).value;
            g.offset + |msg| <= cap && Accounts(cap, Post(cap, tx, g, msg), sdone)
  {
    GrantPlaced(cap, tx, sdone, |msg|);
    var g := tx.ring.Reserve(|msg|).value;
    PostedPositions(cap, tx, g, msg);
    hide Ring.Reserve, Freed, Pos, EncodeImm;
    var tx' := Post(cap, tx, g, msg);
    assert tx'.log == tx.log + tx'.log[|tx.log|..];
    FreedAppend(tx.log, tx'.log[|tx.log|..], sdone);
    AddMod(Pos(cap, tx.log, |tx.log|) + g.padding, |msg|, cap);
  }

  /** Posting keeps every fact about the sending half. */
  lemma PostKeeps(cap: nat, bound: nat, tx: Tx, sdone: nat, msg: seq<u8>)
    requires cap > 0 && TxInv(cap, bound, tx, sdone)
    requires |msg| <= bound && tx.ring.Reserve(|msg|).Some?
    ensures var g := tx.ring.Reserve(|msg|).value;
            && g.offset + |msg| <= cap
            && TxInv(cap, bound, Post(cap, tx, g, msg), sdone)
  {
    GrantPlaced(cap, tx, sdone, |msg|);
    var g := tx.ring.Reserve(|msg|).value;
    PostPlaces(cap, bound, tx, sdone, msg);
    PostStages(cap, bound, tx, sdone, msg);
    PostAccounts(cap, tx, sdone, msg);
  }

  /** What a post appends. */
  lemma PostAppends(cap: nat, tx: Tx, g: Grant, msg: seq<u8>) returns (more: seq<Wr>)
    requires cap > 0 && g.offset + |msg| <= |tx.mem|
    ensures Post(cap, tx, g, msg).log == tx.log + more
    ensures |more| == if g.padding > 0 then 2 else 1
    ensures forall j :: 0 <= j < |more| ==> !more[j].Credit? && Is(Item, more[j])
    ensures Rank(Item, tx.log + more, |tx.log + more|) == Rank(Item, tx.log, |tx.log|) + |more|
  {
    var log' := Post(cap, tx, g, msg).log;
    var n := |tx.log|;
    more := log'[n..];
    assert log' == tx.log + more;
    RankAppend(Item, tx.log, more, n);
    assert Rank(Item, log', n + 1) == Rank(Item, log', n) + 1;
  }

  /** Entries that take no ring bytes leave the sending half as it was. */
  lemma AppendKeeps(cap: nat, bound: nat, tx: Tx, sdone: nat, w: Wr)
    requires cap > 0 && TxInv(cap, bound, tx, sdone) && (w.Credit? || w.HeadRead?)
    ensures TxInv(cap, bound, tx.(log := tx.log + [w]), sdone)
  {
    var tx' := tx.(log := tx.log + [w]);
    var n := |tx.log|;
    PlacedAppend(cap, bound, tx.log, [w]);
    FreedAppend(tx.log, [w], sdone);
    PosAppend(cap, tx.log, [w], n);
    assert Pos(cap, tx'.log, n + 1) == Pos(cap, tx'.log, n);
    forall i | sdone <= i < |tx'.log| && tx'.log[i].Data?
      ensures tx'.log[i].lo + |tx'.log[i].msg| <= |tx'.mem|
      ensures tx'.mem[tx'.log[i].lo..tx'.log[i].lo + |tx'.log[i].msg|] == tx'.log[i].msg
    {
      assert tx'.log[i] == tx.log[i];
    }
  }

  /** Reaping a completion gives its bytes back and keeps the rest. */
  lemma CompleteKeeps(cap: nat, bound: nat, tx: Tx, sdone: nat)
    requires cap > 0 && TxInv(cap, bound, tx, sdone) && sdone < |tx.log|
    ensures TxInv(cap, bound, Complete(tx, sdone), sdone + 1)
  {
    var n := |tx.log|;
    FreedIsPos(cap, bound, tx.log, sdone + 1);
    PosMono(cap, tx.log, sdone + 1, n);
    if tx.log[sdone].Data? {
      RingBuffers.ReleaseRefines(tx.ring, Freed(tx.log, sdone), Pos(cap, tx.log, n), tx.log[sdone].rel);
    }
  }
}
