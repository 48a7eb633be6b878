/** Masks and machine words, written out over unbounded naturals. */
module Bits {
  import opened Framing

  function Pow2(k: nat): (p: nat)
    ensures p > 0
  {
    if k == 0 then 1 else 2 * Pow2(k - 1)
  }

  /** Bitwise and. */
  function And(a: nat, b: nat): nat
    decreases a
  {
    if a == 0 || b == 0 then 0
    else 2 * And(a / 2, b / 2) + if a % 2 == 1 && b % 2 == 1 then 1 else 0
  }

  lemma ModUnique(x: nat, n: nat, q: int, r: nat)
    requires n > 0 && x == n * q + r && r < n
    ensures x % n == r
  {
    DivUnique(x, n, q);
  }

  lemma {:induction false} HalveMod(x: nat, p: nat)
    requires p > 0
    ensures x % (2 * p) == 2 * ((x / 2) % p) + x % 2
  {
    var h := x / 2;
    var q, r := h / p, h % p;
    assert h == p * q + r;
    assert x == 2 * h + x % 2;
    assert (2 * p) * q == 2 * (p * q);
    ModUnique(x, 2 * p, q, 2 * r + x % 2);
  }

  /** Masking with 2^k - 1 is the remainder modulo 2^k. */
  lemma {:induction false} MaskIsMod(x: nat, k: nat)
    ensures And(x, Pow2(k) - 1) == x % Pow2(k)
    decreases k
  {
    if k == 0 {
    } else {
      var p := Pow2(k - 1);
      assert Pow2(k) == 2 * p;
      MaskIsMod(x / 2, k - 1);
      MaskStep(x, p);
    }
  }

  lemma MaskStep(x: nat, p: nat)
    requires p > 0 && And(x / 2, p - 1) == (x / 2) % p
    ensures And(x, 2 * p - 1) == x % (2 * p)
  {
    OddMask(x, p);
    HalveMod(x, p);
  }

  lemma OddMask(x: nat, p: nat)
    requires p > 0
    ensures And(x, 2 * p - 1) == 2 * And(x / 2, p - 1) + x % 2
  {
    var m := 2 * p - 1;
    assert m / 2 == p - 1 && m % 2 == 1;
  }

  lemma {:induction false} AndSelf(d: nat)
    ensures And(d, d) == d
    decreases d
  {
    if d == 0 {
    } else {
      AndSelf(d / 2);
    }
  }

  /** The compile-time check c > 0 && (c & (c - 1)) == 0 accepts exactly the powers of two. */
  lemma {:induction false} PowerOfTwoCheck(c: nat)
    requires c > 0
    ensures And(c, c - 1) == 0 <==> exists k: nat :: c == Pow2(k)
    decreases c
  {
    if c == 1 {
      assert c == Pow2(0);
    } else if c % 2 == 0 {
      PowerOfTwoCheck(c / 2);
      HalfIsPower(c / 2);
    } else {
      OddIsNoPower(c / 2);
    }
  }

  lemma HalfIsPower(d: nat)
    requires d > 0
    ensures And(2 * d, 2 * d - 1) == 2 * And(d, d - 1)
    ensures (exists k: nat :: 2 * d == Pow2(k)) <==> exists k: nat :: d == Pow2(k)
  {
    assert (2 * d - 1) / 2 == d - 1;
    if exists k: nat :: d == Pow2(k) {
      var k: nat :| d == Pow2(k);
      assert 2 * d == Pow2(k + 1);
    }
    if exists k: nat :: 2 * d == Pow2(k) {
      var k: nat :| 2 * d == Pow2(k);
      EvenPower(d, k);
      var j: nat := k - 1;
      assert d == Pow2(j);
    }
  }

  lemma EvenPower(d: nat, k: nat)
    requires 2 * d == Pow2(k)
    ensures k > 0 && d == Pow2(k - 1)
  {
  }

  lemma OddIsNoPower(d: nat)
    requires d > 0
    ensures And(2 * d + 1, 2 * d) == 2 * d
    ensures forall k: nat :: Pow2(k) != 2 * d + 1
  {
    assert (2 * d + 1) / 2 == d && (2 * d) / 2 == d;
    AndSelf(d);
    forall k: nat ensures Pow2(k) != 2 * d + 1 {
      if k > 0 {
        assert Pow2(k) == 2 * Pow2(k - 1);
      }
    }
  }

  const WORD_BITS: nat := 64

  /** Subtraction of two size_t values. */
  function WordSub(a: nat, b: nat): nat {
    var m := Pow2(WORD_BITS);
    (a - b) % m
  }

  lemma {:induction false} Pow2Split(j: nat, k: nat)
    ensures Pow2(j + k) == Pow2(j) * Pow2(k)
    decreases j
  {
    if j == 0 {
    } else {
      Pow2Split(j - 1, k);
      assert 2 * (Pow2(j - 1) * Pow2(k)) == (2 * Pow2(j - 1)) * Pow2(k);
    }
  }

  /** The distance from r forward to w on a circle of the given size. */
  function Ahead(w: nat, r: nat, size: nat): int {
    if w >= r then w - r else w - r + size
  }

  /** A remainder modulo t*c reduces modulo c like the number itself. */
  lemma {:induction false} NestedMod(x: int, t: nat, c: int)
    requires t > 0 && c > 0 && -c < x < 0
    ensures c <= t * c && (x + t * c) % c == x + c
  {
    MulAtLeast(t, c);
    Distribute(c, t - 1, 1);
    ModUnique(x + t * c, c, t - 1, x + c);
  }

  /** (w - r) & mask is the circular distance, through the wrap of unsigned subtraction. */
  lemma {:induction false} MaskedDifference(w: nat, r: nat, k: nat)
    requires k < WORD_BITS && w < Pow2(k) && r < Pow2(k)
    ensures And(WordSub(w, r), Pow2(k) - 1) == Ahead(w, r, Pow2(k))
  {
    var c := Pow2(k);
    var m := Pow2(WORD_BITS);
    var t := Pow2(WORD_BITS - k);
    Pow2Split(WORD_BITS - k, k);
    MulAtLeast(t, c);
    MaskIsMod(WordSub(w, r), k);
    if w >= r {
      SmallMod(w - r, m);
      SmallMod(w - r, c);
    } else {
      NegativeMod(w - r, m);
      NestedMod(w - r, t, c);
    }
  }

  lemma MulAtLeast(t: nat, c: nat)
    requires t >= 1
    ensures t * c >= c
  {
    Distribute(c, t - 1, 1);
  }

  lemma SmallMod(x: nat, n: nat)
    requires x < n
    ensures x % n == x
  {
  }

  lemma NegativeMod(x: int, n: int)
    requires -n < x < 0
    ensures x % n == x + n
  {
    ModShift(x, n);
    SmallMod(x + n, n);
  }

  lemma ModShift(x: int, n: nat)
    requires n > 0
    ensures (x + n) % n == x % n
  {
    var q, r := x / n, x % n;
    assert x == n * q + r;
    Distribute(n, q, 1);
    assert x + n == n * (q + 1) + r;
    var q', r' := (x + n) / n, (x + n) % n;
    assert x + n == n * q' + r';
    if q + 1 < q' {
      MulStrict(n, q + 1, q');
    } else if q' < q + 1 {
      MulStrict(n, q', q + 1);
    }
  }
}
