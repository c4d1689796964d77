/** Facts about positions taken modulo a ring capacity. */
module Modular {

  /** Quotient and remainder are determined by the equation they solve. */
  lemma DivModUnique(x: nat, c: nat, q: nat, r: nat)
    requires c > 0 && r < c && x == c * q + r
    ensures x / c == q && x % c == r
  {
    var d := x / c - q;
    assert c * d == r - x % c by {
      assert x == c * (x / c) + x % c;
      assert c * d == c * (x / c) - c * q;
    }
    BoundedMultiple(c, d);
  }

  lemma BoundedMultiple(c: int, d: int)
    requires c > 0
    ensures d >= 1 ==> c * d >= c
    ensures d <= -1 ==> c * d <= -c
  {
  }

  /** Reducing one summand first does not change the reduced sum. */
  lemma AddMod(a: nat, b: nat, c: nat)
    requires c > 0
    ensures (a % c + b) % c == (a + b) % c
  {
    var s := a % c + b;
    assert s == c * (s / c) + s % c;
    assert c * (a / c + s / c) == c * (a / c) + c * (s / c);
    DivModUnique(a + b, c, a / c + s / c, s % c);
  }

  /** A step of `len` that ends at or before the end of the ring. */
  lemma StepMod(p: nat, len: nat, c: nat)
    requires c > 0 && p % c + len <= c
    ensures (p + len) % c == if p % c + len == c then 0 else p % c + len
  {
    if p % c + len == c {
      assert c * (p / c + 1) == c * (p / c) + c;
      DivModUnique(p + len, c, p / c + 1, 0);
    } else {
      DivModUnique(p + len, c, p / c, p % c + len);
    }
  }

  /** The distance between two positions less than one lap apart. */
  lemma Distance(lo: nat, hi: nat, c: nat)
    requires c > 0 && lo <= hi < lo + c
    ensures hi - lo == if hi % c >= lo % c then hi % c - lo % c else c - lo % c + hi % c
  {
    var d := hi - lo;
    var s := lo % c + d;
    if s < c {
      DivModUnique(hi, c, lo / c, s);
    } else {
      assert c * (lo / c + 1) == c * (lo / c) + c;
      DivModUnique(hi, c, lo / c + 1, s - c);
    }
  }

  /** Two unequal positions less than one lap apart have unequal remainders. */
  lemma Distinct(a: nat, b: nat, c: nat)
    requires c > 0 && a < b < a + c
    ensures a % c != b % c
  {
    Distance(a, b, c);
  }

  /**
    * Two ranges that follow one another within one lap, neither of which
    * straddles the end of the ring, share no offset.
    */
  lemma RangesDisjoint(p: nat, l: nat, q: nat, m: nat, c: nat)
    requires c > 0 && l > 0 && m > 0
    requires p % c + l <= c && q % c + m <= c
    requires p + l <= q && q + m <= p + c
    ensures p % c + l <= q % c || q % c + m <= p % c
  {
    Distance(p, q, c);
  }

  /** Every index is some number of probes away. */
  lemma ProbesTo(at: nat, v: nat, n: nat) returns (d: nat)
    requires at < n && v < n
    ensures d < n && (at + d) % n == v
  {
    d := if v >= at then v - at else v + n - at;
    AddMod(n, v, n);
  }

  lemma SmallMod(l: nat, cap: nat)
    requires l < cap
    ensures l % cap == l
  {
  }
}
