/**
  * The remaining helpers of transport_common.rs: the immediate encoding, the slot
  * budget, the gather copy and the setup-completion drain.
  */
module TransportCommon {
  import opened RingBuffers

  const U32: nat := 0x1_0000_0000
  const U64: nat := 0x1_0000_0000_0000_0000
  const IMM_MAX: nat := 0xFFFF

  function Min(a: nat, b: nat): nat { if a <= b then a else b }
  function Max(a: nat, b: nat): nat { if a <= b then b else a }

  /** Saturating subtraction. */
  function SatSub(a: nat, b: nat): nat { if a >= b then a - b else 0 }

  /** Arithmetic of the 64-bit machine word. */
  function Wrap(n: int): nat { n % U64 }

  // ---------------------------------------------------------------------
  // Immediate data: offset in the high 16 bits, length in the low 16 bits
  // ---------------------------------------------------------------------

  /** Bitwise `|` on machine words. */
  function BitOr(a: nat, b: nat): (r: nat) {
    if a == 0 then b
    else if b == 0 then a
    else 2 * BitOr(a / 2, b / 2) + (if a % 2 == 1 || b % 2 == 1 then 1 else 0)
  }

  /** `((offset as u32) << 16) | (len as u32)`, with both truncations explicit. */
  function EncodeImm(offset: nat, len: nat): (imm: nat) {
    BitOr((offset % U32) * 65536 % U32, len % U32)
  }

  function DecodeImm(imm: nat): (r: (nat, nat)) {
    (imm % U32 / 65536, imm % 65536)
  }

  function Pow2(k: nat): (r: nat)
    ensures r > 0
  {
    if k == 0 then 1 else 2 * Pow2(k - 1)
  }

  lemma {:induction false} OrOfDisjoint(a: nat, b: nat, k: nat)
    requires b < Pow2(k)
    ensures BitOr(a * Pow2(k), b) == a * Pow2(k) + b
  {
    if k > 0 {
      var p := a * Pow2(k - 1);
      assert a * Pow2(k) == 2 * p;
      OrOfDisjoint(a, b / 2, k - 1);
      if a > 0 && b > 0 {
        assert p > 0 && 2 * p / 2 == p && 2 * p % 2 == 0;
      }
    }
  }

  lemma Pow2Sixteen()
    ensures Pow2(16) == 65536
  {
    assert Pow2(4) == 16;
    assert Pow2(8) == 256;
    assert Pow2(12) == 4096;
  }

  lemma OrOfHalves(offset: nat, len: nat)
    requires len <= IMM_MAX
    ensures BitOr(offset * 65536, len) == offset * 65536 + len
  {
    Pow2Sixteen();
    OrOfDisjoint(offset, len, 16);
  }

  lemma Truncations(offset: nat, len: nat)
    requires offset <= IMM_MAX && len <= IMM_MAX
    ensures (offset % U32) * 65536 % U32 == offset * 65536 && len % U32 == len
  {
  }

  lemma DecodeHalves(offset: nat, len: nat)
    requires offset <= IMM_MAX && len <= IMM_MAX
    ensures DecodeImm(offset * 65536 + len) == (offset, len)
  {
  }

  lemma DecodeRange(imm: nat)
    ensures DecodeImm(imm).0 <= IMM_MAX && DecodeImm(imm).1 <= IMM_MAX
  {
  }

  /** The immediate carries a placement faithfully exactly when both halves fit 16 bits. */
  lemma ImmRoundTrip(offset: nat, len: nat)
    ensures DecodeImm(EncodeImm(offset, len)) == (offset, len) <==> offset <= IMM_MAX && len <= IMM_MAX
  {
    DecodeRange(EncodeImm(offset, len));
    if offset <= IMM_MAX && len <= IMM_MAX {
      Truncations(offset, len);
      OrOfHalves(offset, len);
      DecodeHalves(offset, len);
    }
  }

  // ---------------------------------------------------------------------
  // Slot budget
  // ---------------------------------------------------------------------

  function ClampMaxOutstanding(ringCapacity: nat, maxMessageSize: nat, maxInFlight: Option<nat>,
                               headroom: nat, deviceLimit: nat): (slots: nat)
    ensures slots >= 1
  {
    var derived := Max(ringCapacity / Max(maxMessageSize, 1), 1);
    var requested := Max(match maxInFlight case Some(n) => n case None => derived, 1);
    var reserve := Max(headroom, 2);
    var deviceCap := Max(SatSub(deviceLimit, reserve), 1);
    Max(Min(requested, deviceCap), 1)
  }

  /** The largest message a sender can place in a ring of `capacity` bytes. */
  function MessageBound(capacity: nat, maxMessageSize: nat): nat
    requires capacity > 0
  {
    Min(Min(maxMessageSize, IMM_MAX), capacity - 1)
  }

  /**
    * Left to the default, the slot budget never oversubscribes the ring: that
    * many messages of the largest size fit in it together.
    */
  lemma DefaultBudgetFits(ringCapacity: nat, maxMessageSize: nat, headroom: nat, deviceLimit: nat)
    requires ringCapacity > 0
    ensures ClampMaxOutstanding(ringCapacity, maxMessageSize, None, headroom, deviceLimit)
            * MessageBound(ringCapacity, maxMessageSize) <= ringCapacity
  {
    var slots := ClampMaxOutstanding(ringCapacity, maxMessageSize, None, headroom, deviceLimit);
    var bound := MessageBound(ringCapacity, maxMessageSize);
    if maxMessageSize > 0 {
      var q := ringCapacity / maxMessageSize;
      assert q * maxMessageSize <= ringCapacity;
      if q >= 1 {
        assert slots <= q;
        MulMono(slots, q, bound, maxMessageSize);
      } else {
        assert slots == 1;
      }
    }
  }

  lemma MulMono(a: nat, b: nat, x: nat, y: nat)
    requires a <= b && x <= y
    ensures a * x <= b * y
  {
    assert a * x <= b * x <= b * y;
  }

  /** Both queues fit the device once the reserve is added back. */
  lemma BudgetFitsDevice(ringCapacity: nat, maxMessageSize: nat, maxInFlight: Option<nat>,
                         headroom: nat, deviceLimit: nat)
    requires deviceLimit > Max(headroom, 2)
    ensures var slots := ClampMaxOutstanding(ringCapacity, maxMessageSize, maxInFlight, headroom, deviceLimit);
            slots + headroom <= deviceLimit && slots + 2 <= deviceLimit
  {
  }

  /** What a slot budget must respect: the request, or the ring by default, and the device with its reserve. */
  ghost predicate BudgetAllows(ringCapacity: nat, maxMessageSize: nat, maxInFlight: Option<nat>,
                               headroom: nat, deviceLimit: nat, slots: nat) {
    && (maxInFlight.Some? ==> slots <= maxInFlight.value)
    && (maxInFlight.None? ==> slots * Max(maxMessageSize, 1) <= ringCapacity)
    && slots + Max(headroom, 2) <= deviceLimit
  }

  /** The budget is the largest that is allowed; only when not even one is, it is one all the same. */
  lemma BudgetLargest(ringCapacity: nat, maxMessageSize: nat, maxInFlight: Option<nat>,
                      headroom: nat, deviceLimit: nat, n: nat)
    requires n > 0
    ensures var slots := ClampMaxOutstanding(ringCapacity, maxMessageSize, maxInFlight, headroom, deviceLimit);
            && (BudgetAllows(ringCapacity, maxMessageSize, maxInFlight, headroom, deviceLimit, n) ==>
                  n <= slots && BudgetAllows(ringCapacity, maxMessageSize, maxInFlight, headroom, deviceLimit, slots))
            && (!BudgetAllows(ringCapacity, maxMessageSize, maxInFlight, headroom, deviceLimit, 1) ==> slots == 1)
  {
    var size := Max(maxMessageSize, 1);
    var slots := ClampMaxOutstanding(ringCapacity, maxMessageSize, maxInFlight, headroom, deviceLimit);
    var q := ringCapacity / size;
    if maxInFlight.None? {
      QuotientIs(ringCapacity, size, n);
      QuotientIs(ringCapacity, size, slots);
      QuotientIs(ringCapacity, size, 1);
    }
  }

  /** Multiples up to a bound are counted by the quotient. */
  lemma QuotientIs(a: nat, b: nat, n: nat)
    requires b > 0
    ensures n * b <= a <==> n <= a / b
  {
    var q, r := a / b, a % b;
    assert a == q * b + r;
    if n <= q {
      MulMono(n, q, b, b);
    } else {
      MulMono(q + 1, n, b, b);
      assert (q + 1) * b == q * b + b;
    }
  }

  // ---------------------------------------------------------------------
  // Gather copy
  // ---------------------------------------------------------------------

  function Concat<T>(bufs: seq<seq<T>>): (r: seq<T>) {
    if bufs == [] then [] else bufs[0] + Concat(bufs[1..])
  }

  lemma {:induction false} ConcatSplit<T>(bufs: seq<seq<T>>, i: nat)
    requires i < |bufs|
    ensures Concat(bufs[..i + 1]) == Concat(bufs[..i]) + bufs[i]
  {
    if i == 0 {
      assert bufs[..1] == [bufs[0]] && bufs[..0] == [];
      assert Concat([bufs[0]]) == bufs[0] + Concat([]);
    } else {
      assert bufs[..i + 1][1..] == bufs[1..][..i] && bufs[..i][1..] == bufs[1..][..i - 1];
      ConcatSplit(bufs[1..], i - 1);
    }
  }

  lemma {:induction false} ConcatPrefix<T>(bufs: seq<seq<T>>, i: nat)
    requires i <= |bufs|
    ensures Concat(bufs[..i]) <= Concat(bufs)
    decreases |bufs| - i
  {
    if i < |bufs| {
      ConcatSplit(bufs, i);
      ConcatPrefix(bufs, i + 1);
    } else {
      assert bufs[..i] == bufs;
    }
  }

  /** `part` continues `all` after its first `done` elements. */
  ghost predicate Continues<T>(all: seq<T>, done: nat, part: seq<T>) {
    && done + |part| <= |all|
    && forall i :: 0 <= i < |part| ==> part[i] == all[done + i]
  }

  /** How much the first `b` parts hold together. */
  function Before<T>(parts: seq<seq<T>>, b: nat): nat
    requires b <= |parts|
  {
    if b == 0 then 0 else Before(parts, b - 1) + |parts[b - 1]|
  }

  lemma {:induction false} BeforeIsConcat<T>(parts: seq<seq<T>>, b: nat)
    requires b <= |parts|
    ensures Before(parts, b) == |Concat(parts[..b])|
  {
    if b > 0 {
      ConcatSplit(parts, b - 1);
      BeforeIsConcat(parts, b - 1);
    }
  }

  lemma PartContinues<T>(parts: seq<seq<T>>, b: nat)
    requires b < |parts|
    ensures Continues(Concat(parts), Before(parts, b), parts[b])
    ensures Before(parts, b + 1) == Before(parts, b) + |parts[b]| <= |Concat(parts)|
  {
    BeforeIsConcat(parts, b);
    ConcatSplit(parts, b);
    ConcatPrefix(parts, b + 1);
  }

  lemma AllParts<T>(parts: seq<seq<T>>)
    ensures Before(parts, |parts|) == |Concat(parts)|
  {
    BeforeIsConcat(parts, |parts|);
    assert parts[..|parts|] == parts;
  }

  /** Overwrite the bytes of `mem` from `at` on. */
  function Store(mem: seq<u8>, at: nat, bytes: seq<u8>): (r: seq<u8>)
    requires at + |bytes| <= |mem|
    ensures |r| == |mem|
  {
    mem[..at] + bytes + mem[at + |bytes|..]
  }

  /** What one more slice adds to the bytes gathered so far. */
  lemma GatherStep(bufs: seq<seq<u8>>, i: nat, room: nat)
    requires i < |bufs| && Before(bufs, i) < room
    ensures var n := Before(bufs, i); var take := Min(|bufs[i]|, room - n);
            && n + take <= |Concat(bufs)|
            && Concat(bufs)[..n + take] == Concat(bufs)[..n] + bufs[i][..take]
            && n + take == Min(room, Before(bufs, i + 1))
  {
    PartContinues(bufs, i);
  }

  lemma NothingYet(bufs: seq<seq<u8>>, mem: seq<u8>, at: nat)
    requires at <= |mem|
    ensures Before(bufs, 0) == 0 && Store(mem, at, Concat(bufs)[..0]) == mem
  {
    hide Concat;
  }

  /**
    * `gather_into` on the window `dst[at..at + room]`: it fills it with the
    * concatenation of the slices, cut at the window, and touches nothing else.
    */
  method GatherInto(dst: array<u8>, at: nat, room: nat, bufs: seq<seq<u8>>) returns (written: nat)
    requires at + room <= dst.Length
    modifies dst
    ensures written == Min(room, |Concat(bufs)|)
    ensures dst[..] == Store(old(dst[..]), at, Concat(bufs)[..written])
  {
    hide Store, Concat, Before;
    written := 0;
    var i := 0;
    ghost var all := Concat(bufs);
    AllParts(bufs);
    NothingYet(bufs, dst[..], at);
    while i < |bufs| && written < room
      invariant i <= |bufs| && written <= room && written <= |all|
      invariant written == Min(room, Before(bufs, i))
      invariant dst[..] == Store(old(dst[..]), at, all[..written])
    {
      GatherStep(bufs, i, room);
      var take := Min(|bufs[i]|, room - written);
      CopyAfter(dst, at, at + written, old(dst[..]), all[..written], bufs[i][..take]);
      written := written + take;
      i := i + 1;
    }
    BeforeMono(bufs, i);
  }

  lemma {:induction false} BeforeMono<T>(parts: seq<seq<T>>, b: nat)
    requires b <= |parts|
    ensures Before(parts, b) <= Before(parts, |parts|)
    decreases |parts| - b
  {
    if b < |parts| {
      BeforeMono(parts, b + 1);
    }
  }

  /** Extend what has been gathered at `at` by one more chunk. */
  method CopyAfter(dst: array<u8>, at: nat, from: nat, ghost mem: seq<u8>, ghost done: seq<u8>, chunk: seq<u8>)
    requires from == at + |done| && from + |chunk| <= dst.Length == |mem|
    requires dst[..] == Store(mem, at, done)
    modifies dst
    ensures dst[..] == Store(mem, at, done + chunk)
  {
    StoreTwice(mem, at, done, chunk);
    CopyInto(dst, from, chunk);
  }

  /** `copy_from_slice` */
  method CopyInto(dst: array<u8>, at: nat, src: seq<u8>)
    requires at + |src| <= dst.Length
    modifies dst
    ensures dst[..] == Store(old(dst[..]), at, src)
  {
    forall k | 0 <= k < |src| {
      dst[at + k] := src[k];
    }
  }

  lemma StoreTwice(mem: seq<u8>, at: nat, first: seq<u8>, second: seq<u8>)
    requires at + |first| + |second| <= |mem|
    ensures Store(Store(mem, at, first), at + |first|, second) == Store(mem, at, first + second)
  {
  }

  /** Bytes outside the stored range survive; the stored range reads back. */
  lemma StoreReads(mem: seq<u8>, at: nat, bytes: seq<u8>, p: nat, n: nat)
    requires at + |bytes| <= |mem| && p + n <= |mem|
    ensures Store(mem, at, bytes)[at..at + |bytes|] == bytes
    ensures p + n <= at || at + |bytes| <= p ==> Store(mem, at, bytes)[p..p + n] == mem[p..p + n]
  {
    var r := Store(mem, at, bytes);
    forall i | 0 <= i < |mem|
      ensures r[i] == if at <= i < at + |bytes| then bytes[i - at] else mem[i]
    {
      StoreAt(mem, at, bytes, i);
    }
    hide Store;
    assert r[at..at + |bytes|] == bytes;
    if p + n <= at || at + |bytes| <= p {
      assert r[p..p + n] == mem[p..p + n];
    }
  }

  lemma StoreAt(mem: seq<u8>, at: nat, bytes: seq<u8>, i: nat)
    requires at + |bytes| <= |mem| && i < |mem|
    ensures Store(mem, at, bytes)[i] == if at <= i < at + |bytes| then bytes[i - at] else mem[i]
  {
  }
}
