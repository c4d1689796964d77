/**
  * The work requests one endpoint posts to its reliable connection, in posting
  * order, and the byte positions they give to the peer's ring.
  *
  * The connection executes the log in order. How far each party has got is a
  * cursor into the log: everything before `exec` has been carried out, so the
  * send queue is `log[exec..]`, and a completion queue is the part of the log
  * between its consumer's cursor and `exec`.
  */
module WorkLog {
  import opened RingBuffers
  import opened TransportCommon

  datatype Wr =
    /** RDMA Write+Imm of `msg`, staged at `lo`, placed at `ro`; frees `rel` staged bytes. */
    | Data(lo: nat, ro: nat, imm: nat, rel: nat, msg: seq<u8>)
    /** Zero-length Write+Imm: the rest of the ring from `ro` on is skipped. */
    | Pad(ro: nat, imm: nat)
    /** Send+Imm with the absolute freed count `total`, truncated to 32 bits. */
    | Credit(imm: nat, total: nat)
    /** RDMA Read of the peer's published head. */
    | HeadRead

  /** Ring messages (data or padding), and data alone. */
  datatype Kind = Item | Payload

  predicate Is(k: Kind, w: Wr) {
    match k
    case Item => w.Data? || w.Pad?
    case Payload => w.Data?
  }

  /** How many entries of kind `k` come before index `i`. */
  function Rank(k: Kind, log: seq<Wr>, i: nat): (n: nat)
    requires i <= |log|
  {
    if i == 0 then 0 else Rank(k, log, i - 1) + if Is(k, log[i - 1]) then 1 else 0
  }

  /** Ring bytes an entry occupies. */
  function Ext(cap: nat, w: Wr): (n: nat) {
    match w
    case Data(_, _, _, _, msg) => |msg|
    case Pad(ro, _) => if ro <= cap then cap - ro else 0
    case _ => 0
  }

  /** The absolute ring position at which entry `i` starts. */
  function Pos(cap: nat, log: seq<Wr>, i: nat): (n: nat)
    requires i <= |log|
  {
    if i == 0 then 0 else Pos(cap, log, i - 1) + Ext(cap, log[i - 1])
  }

  /** Staged bytes given back by the completions of the entries before `i`. */
  function Freed(log: seq<Wr>, i: nat): (n: nat)
    requires i <= |log|
  {
    if i == 0 then 0 else Freed(log, i - 1) + if log[i - 1].Data? then log[i - 1].rel else 0
  }

  /** The latest absolute count among the credit updates before `i`. */
  function LastCredit(log: seq<Wr>, i: nat): (n: nat)
    requires i <= |log|
  {
    if i == 0 then 0
    else if log[i - 1].Credit? then log[i - 1].total
    else LastCredit(log, i - 1)
  }

  // ---------------------------------------------------------------------
  // Appending leaves what is known about earlier entries in place
  // ---------------------------------------------------------------------

  lemma {:induction false} RankAppend(k: Kind, log: seq<Wr>, more: seq<Wr>, i: nat)
    requires i <= |log|
    ensures Rank(k, log + more, i) == Rank(k, log, i)
  {
    if i > 0 {
      RankAppend(k, log, more, i - 1);
    }
  }

  lemma {:induction false} PosAppend(cap: nat, log: seq<Wr>, more: seq<Wr>, i: nat)
    requires i <= |log|
    ensures Pos(cap, log + more, i) == Pos(cap, log, i)
  {
    if i > 0 {
      PosAppend(cap, log, more, i - 1);
    }
  }

  lemma {:induction false} FreedAppend(log: seq<Wr>, more: seq<Wr>, i: nat)
    requires i <= |log|
    ensures Freed(log + more, i) == Freed(log, i)
  {
    if i > 0 {
      FreedAppend(log, more, i - 1);
    }
  }

  lemma {:induction false} LastCreditAppend(log: seq<Wr>, more: seq<Wr>, i: nat)
    requires i <= |log|
    ensures LastCredit(log + more, i) == LastCredit(log, i)
  {
    if i > 0 {
      LastCreditAppend(log, more, i - 1);
    }
  }

  lemma LogAppend(cap: nat, log: seq<Wr>, more: seq<Wr>)
    ensures forall k, i :: 0 <= i <= |log| ==> Rank(k, log + more, i) == Rank(k, log, i)
    ensures forall i :: 0 <= i <= |log| ==> Pos(cap, log + more, i) == Pos(cap, log, i)
  {
    forall k, i | 0 <= i <= |log|
      ensures Rank(k, log + more, i) == Rank(k, log, i)
    {
      RankAppend(k, log, more, i);
    }
    forall i | 0 <= i <= |log|
      ensures Pos(cap, log + more, i) == Pos(cap, log, i)
    {
      PosAppend(cap, log, more, i);
    }
  }

  // ---------------------------------------------------------------------
  // Ranks number the entries; positions follow one another
  // ---------------------------------------------------------------------

  lemma {:induction false} RankMono(k: Kind, log: seq<Wr>, i: nat, j: nat)
    requires i <= j <= |log|
    ensures Rank(k, log, i) <= Rank(k, log, j)
    ensures i < j && Is(k, log[i]) ==> Rank(k, log, i) < Rank(k, log, j)
    decreases j - i
  {
    if i < j {
      RankMono(k, log, i + 1, j);
    }
  }

  lemma RankInjective(k: Kind, log: seq<Wr>, i: nat, j: nat)
    requires i < |log| && j < |log| && Is(k, log[i]) && Is(k, log[j])
    requires Rank(k, log, i) == Rank(k, log, j)
    ensures i == j
  {
    if i < j {
      RankMono(k, log, i, j);
    } else if j < i {
      RankMono(k, log, j, i);
    }
  }

  lemma {:induction false} PosMono(cap: nat, log: seq<Wr>, i: nat, j: nat)
    requires i <= j <= |log|
    ensures Pos(cap, log, i) <= Pos(cap, log, j)
    ensures i < j ==> Pos(cap, log, i) + Ext(cap, log[i]) <= Pos(cap, log, j)
    decreases j - i
  {
    if i < j {
      PosMono(cap, log, i + 1, j);
    }
  }

  /** When no entry is larger than `bound`, `n` ring messages take at most `n * bound` bytes. */
  lemma {:induction false} PosBound(cap: nat, bound: nat, log: seq<Wr>, i: nat, j: nat)
    requires i <= j <= |log|
    requires forall h :: 0 <= h < |log| ==> Ext(cap, log[h]) <= bound
    ensures Rank(Item, log, i) <= Rank(Item, log, j)
    ensures Pos(cap, log, j) - Pos(cap, log, i) <= (Rank(Item, log, j) - Rank(Item, log, i)) * bound
    decreases j - i
  {
    if i < j {
      PosBound(cap, bound, log, i, j - 1);
      var n := Rank(Item, log, j - 1) - Rank(Item, log, i);
      assert (n + 1) * bound == n * bound + bound;
    }
  }

  /** Some index at or before `i` has each rank up to `Rank(i)`. */
  lemma {:induction false} RankReach(k: Kind, log: seq<Wr>, i: nat, n: nat) returns (j: nat)
    requires i <= |log| && n <= Rank(k, log, i)
    ensures j <= i && Rank(k, log, j) == n
    ensures n < Rank(k, log, i) ==> j < i && Is(k, log[j])
  {
    if Rank(k, log, i) == n {
      j := i;
    } else if Rank(k, log, i - 1) == n {
      j := i - 1;
    } else {
      j := RankReach(k, log, i - 1, n);
    }
  }

  /** Only ring messages take bytes. */
  lemma {:induction false} NoItemsNoBytes(cap: nat, log: seq<Wr>, j: nat, i: nat)
    requires j <= i <= |log| && Rank(Item, log, i) <= Rank(Item, log, j)
    ensures Pos(cap, log, i) == Pos(cap, log, j) && Rank(Item, log, i) == Rank(Item, log, j)
  {
    if j < i {
      RankMono(Item, log, j, i - 1);
      NoItemsNoBytes(cap, log, j, i - 1);
    }
  }

  /** Ring bytes of the first `n` ring messages among the first `i` entries. */
  function ItemPos(cap: nat, log: seq<Wr>, i: nat, n: nat): (p: nat)
    requires i <= |log|
  {
    if i == 0 || Rank(Item, log, i) <= n then Pos(cap, log, i) else ItemPos(cap, log, i - 1, n)
  }

  /** Ring bytes of the first `n` ring messages. */
  function HeadPos(cap: nat, log: seq<Wr>, n: nat): nat {
    ItemPos(cap, log, |log|, n)
  }

  lemma {:induction false} ItemPosAt(cap: nat, log: seq<Wr>, i: nat, j: nat)
    requires j <= i <= |log|
    ensures ItemPos(cap, log, i, Rank(Item, log, j)) == Pos(cap, log, j)
  {
    if Rank(Item, log, i) <= Rank(Item, log, j) {
      NoItemsNoBytes(cap, log, j, i);
    } else {
      ItemPosAt(cap, log, i - 1, j);
    }
  }

  lemma HeadPosAt(cap: nat, log: seq<Wr>, j: nat)
    requires j <= |log|
    ensures HeadPos(cap, log, Rank(Item, log, j)) == Pos(cap, log, j)
  {
    ItemPosAt(cap, log, |log|, j);
  }

  lemma HeadPosGrows(cap: nat, log: seq<Wr>, more: seq<Wr>, n: nat)
    requires n <= Rank(Item, log, |log|)
    ensures HeadPos(cap, log + more, n) == HeadPos(cap, log, n)
  {
    var j := RankReach(Item, log, |log|, n);
    RankAppend(Item, log, more, j);
    PosAppend(cap, log, more, j);
    HeadPosAt(cap, log, j);
    HeadPosAt(cap, log + more, j);
  }

  /** The first `n` messages end where a later one starts. */
  lemma HeadPosBelow(cap: nat, log: seq<Wr>, n: nat, i: nat)
    requires i <= |log| && n <= Rank(Item, log, i)
    ensures HeadPos(cap, log, n) <= Pos(cap, log, i)
  {
    var j := RankReach(Item, log, i, n);
    HeadPosAt(cap, log, j);
    PosMono(cap, log, j, i);
  }

  lemma HeadPosMono(cap: nat, log: seq<Wr>, n: nat, m: nat)
    requires n <= m <= Rank(Item, log, |log|)
    ensures HeadPos(cap, log, n) <= HeadPos(cap, log, m)
  {
    var j := RankReach(Item, log, |log|, m);
    HeadPosAt(cap, log, j);
    HeadPosBelow(cap, log, n, j);
  }

  // ---------------------------------------------------------------------
  // The shape of a sender's log
  // ---------------------------------------------------------------------

  /** Bytes skipped immediately before entry `i`. */
  function GapBefore(cap: nat, log: seq<Wr>, i: nat): nat
    requires i <= |log|
  {
    if i > 0 && log[i - 1].Pad? then Ext(cap, log[i - 1]) else 0
  }

  /**
    * Entry `i` is placed where the bytes before it end, in one piece, and its
    * immediate says so; padding runs to the end of the ring and is followed by
    * the message that caused it, which is longer.
    */
  ghost predicate Placed(cap: nat, bound: nat, log: seq<Wr>, i: nat)
    requires cap > 0 && i < |log|
  {
    match log[i]
    case Data(lo, ro, imm, rel, msg) =>
      && lo == ro == Pos(cap, log, i) % cap
      && 0 < |msg| <= bound && ro + |msg| <= cap
      && imm == EncodeImm(ro, |msg|)
      && rel == GapBefore(cap, log, i) + |msg| < cap
    case Pad(ro, imm) =>
      && 0 < ro == Pos(cap, log, i) % cap
      && cap - ro <= bound
      && imm == EncodeImm(ro, 0)
      && i + 1 < |log| && log[i + 1].Data? && cap - ro < |log[i + 1].msg|
    case _ => true
  }

  ghost predicate WellPlaced(cap: nat, bound: nat, log: seq<Wr>)
    requires cap > 0
  {
    forall i :: 0 <= i < |log| ==> Placed(cap, bound, log, i)
  }

  /** Completions give back exactly the bytes placed, gaps included, once the message lands. */
  lemma {:induction false} FreedIsPos(cap: nat, bound: nat, log: seq<Wr>, i: nat)
    requires cap > 0 && WellPlaced(cap, bound, log) && i <= |log|
    ensures Freed(log, i) + GapBefore(cap, log, i) == Pos(cap, log, i)
  {
    if i > 0 {
      FreedIsPos(cap, bound, log, i - 1);
      assert Placed(cap, bound, log, i - 1);
      if i >= 2 && log[i - 2].Pad? {
        assert Placed(cap, bound, log, i - 2);
      }
    }
  }

  /** A complete log does not end in padding. */
  lemma NoTrailingGap(cap: nat, bound: nat, log: seq<Wr>)
    requires cap > 0 && WellPlaced(cap, bound, log)
    ensures GapBefore(cap, log, |log|) == 0
  {
    if |log| > 0 {
      assert Placed(cap, bound, log, |log| - 1);
    }
  }

  lemma PlacedAppend(cap: nat, bound: nat, log: seq<Wr>, more: seq<Wr>)
    requires cap > 0 && WellPlaced(cap, bound, log)
    requires forall i :: |log| <= i < |log + more| ==> Placed(cap, bound, log + more, i)
    ensures WellPlaced(cap, bound, log + more)
  {
    LogAppend(cap, log, more);
    forall i | 0 <= i < |log + more|
      ensures Placed(cap, bound, log + more, i)
    {
      if i < |log| {
        assert Placed(cap, bound, log, i);
        assert (log + more)[i] == log[i];
      }
    }
  }

  lemma ExtBound(cap: nat, bound: nat, log: seq<Wr>)
    requires cap > 0 && WellPlaced(cap, bound, log)
    ensures forall h :: 0 <= h < |log| ==> Ext(cap, log[h]) <= bound
  {
    forall h | 0 <= h < |log|
      ensures Ext(cap, log[h]) <= bound
    {
      assert Placed(cap, bound, log, h);
    }
  }
}
