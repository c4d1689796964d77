/**
  * `RingBuffer` of transport_common.rs: a wrap-around byte ring whose
  * reservations never straddle the end of the buffer.
  */
module RingBuffers {
  import opened Modular

  newtype u8 = x: int | 0 <= x < 256

  datatype Option<+T> = None | Some(value: T)

  /** The cursors of a ring; the bytes live beside them. */
  datatype Ring = Ring(capacity: nat, head: nat, tail: nat) {

    predicate Valid() {
      head < capacity && tail < capacity
    }

    function Used(): nat
      requires Valid()
    {
      if tail >= head then tail - head else capacity - head + tail
    }

    /** One byte stays unused so that full and empty differ. */
    function Available(): nat
      requires Valid()
    {
      capacity - Used() - 1
    }

    function ContiguousFree(): nat
      requires Valid()
    {
      if tail >= head then
        if head == 0 then capacity - tail - 1 else capacity - tail
      else
        head - tail - 1
    }

    function Reserve(len: nat): Option<Grant>
      requires Valid()
    {
      if len == 0 || len > Available() then None
      else if len <= ContiguousFree() then
        Some(Grant(this.(tail := (tail + len) % capacity), tail, 0))
      else
        var padding := capacity - tail;
        if padding + len > Available() + 1 || head <= len then None
        else Some(Grant(this.(tail := len), 0, padding))
    }

    function Release(len: nat): Ring
      requires Valid()
    {
      this.(head := (head + len) % capacity)
    }

    /** What the senders do to give a reservation back. */
    function Rollback(offset: nat, padding: nat): Ring
      requires padding <= capacity
    {
      this.(tail := if offset == 0 then capacity - padding else offset)
    }

    /**
      * The ring holds the absolute byte positions `lo..hi` of an unbounded
      * queue: at most `capacity - 1` of them at a time.
      */
    ghost predicate Spans(lo: nat, hi: nat) {
      && Valid()
      && lo <= hi < lo + capacity
      && head == lo % capacity
      && tail == hi % capacity
    }
  }

  /** A successful reservation: the ring after it, the data offset, the gap skipped. */
  datatype Grant = Grant(ring: Ring, offset: nat, padding: nat)

  /** `len` bytes fit after a gap of `padding`, contiguous and within one lap. */
  ghost predicate Fits(c: nat, lo: nat, hi: nat, len: nat, padding: nat)
    requires c > 0
  {
    (hi + padding) % c + len <= c && hi + padding + len < lo + c
  }

  lemma UsedIsSpan(r: Ring, lo: nat, hi: nat)
    requires r.Spans(lo, hi)
    ensures r.Used() == hi - lo
    ensures r.Available() == r.capacity - 1 - (hi - lo)
  {
    Distance(lo, hi, r.capacity);
  }

  /** Skipping to the end of the ring lands on offset 0. */
  lemma SkipToEnd(hi: nat, c: nat)
    requires c > 0
    ensures (hi + (c - hi % c)) % c == 0
  {
    assert c * (hi / c + 1) == c * (hi / c) + c;
    DivModUnique(hi + (c - hi % c), c, hi / c + 1, 0);
  }

  /**
    * `reserve` refines an append to the unbounded queue: it grants exactly when
    * a contiguous placement exists, directly at the tail or after skipping to
    * the start, prefers the former, and skips fewer bytes than it grants.
    */
  lemma ReserveRefines(r: Ring, lo: nat, hi: nat, len: nat)
    requires r.Spans(lo, hi)
    ensures var c := r.capacity;
      r.Reserve(len).Some? <==>
      len > 0 && (Fits(c, lo, hi, len, 0) || Fits(c, lo, hi, len, c - hi % c))
    ensures r.Reserve(len).Some? ==>
      var Grant(r', offset, padding) := r.Reserve(len).value;
      && r'.Spans(lo, hi + padding + len) && r'.capacity == r.capacity
      && offset == (hi + padding) % r.capacity
      && offset + len <= r.capacity
      && padding < len
      && (padding == 0 <==> Fits(r.capacity, lo, hi, len, 0))
      && (padding > 0 ==> offset == 0 && padding == r.capacity - hi % r.capacity)
  {
    var c := r.capacity;
    UsedIsSpan(r, lo, hi);
    Distance(lo, hi, c);
    SkipToEnd(hi, c);
    if len > 0 && Fits(c, lo, hi, len, 0) {
      StepMod(hi, len, c);
      AddMod(hi, len, c);
    } else if len > 0 && Fits(c, lo, hi, len, c - hi % c) {
      StepMod(hi + (c - hi % c), len, c);
    }
  }

  lemma ReleaseRefines(r: Ring, lo: nat, hi: nat, len: nat)
    requires r.Spans(lo, hi) && len <= hi - lo
    ensures r.Release(len).Spans(lo + len, hi) && r.Release(len).capacity == r.capacity
  {
    AddMod(lo, len, r.capacity);
  }

  /** Giving a wrapped reservation back restores the ring exactly. */
  lemma RollbackRestores(r: Ring, len: nat)
    requires r.Valid() && r.Reserve(len).Some? && r.Reserve(len).value.padding > 0
    ensures var g := r.Reserve(len).value; g.ring.Rollback(g.offset, g.padding) == r
  {
  }

  /** A granted range lies within the buffer, and can be given back. */
  lemma GrantInBounds(r: Ring, len: nat)
    requires r.Valid()
    ensures r.Reserve(len).Some? ==>
      var g := r.Reserve(len).value;
      && g.offset + len <= r.capacity == g.ring.capacity && g.ring.Valid() && g.padding <= r.capacity
      && (g.padding > 0 ==> g.ring.Rollback(g.offset, g.padding) == r)
  {
    if r.Reserve(len).Some? && r.Reserve(len).value.padding > 0 {
      RollbackRestores(r, len);
    }
  }

  /** When an empty ring refuses: exactly in the middle band of a large message. */
  lemma EmptyRingReserve(r: Ring, lo: nat, len: nat)
    requires r.Spans(lo, lo) && len > 0
    ensures r.Reserve(len).None? <==>
            len >= r.capacity || (r.capacity - len < lo % r.capacity <= len)
    ensures 2 * len <= r.capacity && r.capacity > 1 ==> r.Reserve(len).Some?
  {
  }

  /** An empty ring takes a message that fits before its end. */
  lemma IdleGrant(r: Ring, p: nat, len: nat)
    requires r.Spans(p, p) && 0 < len < r.capacity && p % r.capacity + len <= r.capacity
    ensures r.Reserve(len).Some?
    ensures var g := r.Reserve(len).value; g.offset == p % r.capacity && g.padding == 0 && g.offset + len <= r.capacity
  {
    ReserveRefines(r, p, p, len);
  }

  /** The mutable ring: a registered buffer and its two cursors. */
  class RingBuffer {
    const mem: array<u8>
    var head: nat
    var tail: nat

    ghost predicate Valid()
      reads this
    {
      head < mem.Length && tail < mem.Length
    }

    function Cursors(): Ring
      reads this
    {
      Ring(mem.Length, head, tail)
    }

    constructor (buffer: array<u8>)
      requires buffer.Length > 0
      ensures mem == buffer && Valid() && Cursors() == Ring(buffer.Length, 0, 0)
      ensures Cursors().Spans(0, 0)
    {
      mem := buffer;
      head, tail := 0, 0;
    }

    method Reserve(len: nat) returns (res: Option<(nat, nat)>)
      requires Valid()
      modifies this`tail
      ensures Valid()
      ensures match old(Cursors()).Reserve(len)
        case None => res == None && Cursors() == old(Cursors())
        case Some(g) => res == Some((g.offset, g.padding)) && Cursors() == g.ring
    {
      var available := mem.Length - Cursors().Used() - 1;
      if len == 0 || len > available {
        return None;
      }
      var contig := Cursors().ContiguousFree();
      if len <= contig {
        var offset := tail;
        tail := (tail + len) % mem.Length;
        return Some((offset, 0));
      }
      var padding := mem.Length - tail;
      if padding + len > available + 1 {
        return None;
      }
      if head <= len {
        return None;
      }
      tail := len;
      return Some((0, padding));
    }

    method Release(len: nat)
      requires Valid()
      modifies this`head
      ensures Valid() && Cursors() == old(Cursors()).Release(len)
    {
      head := (head + len) % mem.Length;
    }
  }
}
