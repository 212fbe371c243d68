/**
 Rounding an address up by masking: the bits of `size_t` against arithmetic.
 */
module Align {

  function Pow2(k: nat): (p: nat)
    ensures p > 0
  {
    if k == 0 then 1 else 2 * Pow2(k - 1)
  }

  /** The number of bits of `size_t`. */
  const BITS: nat := 64

  /** Unsigned arithmetic wraps around. */
  function Wrap(x: int): nat {
    x % Pow2(BITS)
  }

  function And(x: nat, y: nat): nat
    decreases x
  {
    if x == 0 || y == 0 then 0
    else 2 * And(x / 2, y / 2) + if x % 2 == 1 && y % 2 == 1 then 1 else 0
  }

  function Not(x: int): int {
    Pow2(BITS) - 1 - x
  }

  /** `(addr + (align - 1)) & ~(align - 1)` */
  function AlignForward(addr: nat, align: nat): nat {
    var mask := Wrap(align - 1);
    And(Wrap(addr + mask), Wrap(Not(mask)))
  }

  /** Is bit `i` of `x` set? */
  predicate Bit(x: nat, i: nat)
    decreases i
  {
    if i == 0 then x % 2 == 1 else Bit(x / 2, i - 1)
  }

  lemma {:induction false} ZeroBits(i: nat)
    ensures !Bit(0, i)
  {
    if i > 0 {
      ZeroBits(i - 1);
    }
  }

  /** `And` is the conjunction of all bits. */
  lemma {:induction false} AndBits(x: nat, y: nat, i: nat)
    ensures Bit(And(x, y), i) <==> Bit(x, i) && Bit(y, i)
    decreases i
  {
    if x == 0 || y == 0 {
      ZeroBits(i);
    } else {
      var a := And(x, y);
      assert a / 2 == And(x / 2, y / 2);
      if i > 0 {
        AndBits(x / 2, y / 2, i - 1);
      }
    }
  }

  /** `Not` flips all bits of the width. */
  lemma {:induction false} NotBits(w: nat, x: nat, i: nat)
    requires x < Pow2(w) && i < w
    ensures Bit(Pow2(w) - 1 - x, i) <==> !Bit(x, i)
    decreases w
  {
    var p := Pow2(w - 1);
    assert (2 * p - 1 - x) / 2 == p - 1 - x / 2;
    if i > 0 {
      NotBits(w - 1, x / 2, i - 1);
    }
  }

  lemma {:induction false} AndAllOnes(x: nat, w: nat)
    requires x < Pow2(w)
    ensures And(x, Pow2(w) - 1) == x
  {
    if x > 0 {
      var p := Pow2(w - 1);
      assert (2 * p - 1) / 2 == p - 1;
      AndAllOnes(x / 2, w - 1);
    }
  }

  lemma HalfModulus(x: nat, m: nat)
    requires m > 0
    ensures x % (2 * m) == 2 * ((x / 2) % m) + x % 2
  {
    var h := x / 2;
    var q, r := h / m, h % m;
    assert h == q * m + r;
    assert x == q * (2 * m) + (2 * r + x % 2);
    ModulusOf(x, 2 * m, q, 2 * r + x % 2);
  }

  lemma ModulusOf(x: int, m: int, q: int, r: int)
    requires m > 0 && x == q * m + r && 0 <= r < m
    ensures x / m == q && x % m == r
  {
    var d := x / m - q;
    assert d * m == r - x % m;
    FarMultiple(d, m);
  }

  lemma {:induction false} FarMultiple(d: int, m: int)
    requires m > 0
    ensures d > 0 ==> d * m >= m
    ensures d < 0 ==> d * m <= -m
    decreases if d > 0 then d else -d
  {
    if d > 1 {
      FarMultiple(d - 1, m);
      assert d * m == (d - 1) * m + m;
    } else if d < -1 {
      FarMultiple(d + 1, m);
      assert d * m == (d + 1) * m - m;
    }
  }

  lemma WrapOnce(x: int)
    requires 0 <= x < 2 * Pow2(BITS)
    ensures Wrap(x) == if x < Pow2(BITS) then x else x - Pow2(BITS)
  {
    hide Pow2;
    var n := Pow2(BITS);
    if x < n {
      ModulusOf(x, n, 0, x);
    } else {
      ModulusOf(x, n, 1, x - n);
    }
  }

  lemma {:induction false} PowersGrow(k: nat, w: nat)
    requires k <= w
    ensures Pow2(k) <= Pow2(w)
  {
    if k < w {
      PowersGrow(k, w - 1);
    }
  }

  lemma AndEven(x: nat, y: nat)
    ensures And(x, 2 * y) == 2 * And(x / 2, y)
  {
    if x > 0 && y > 0 {
      assert (2 * y) / 2 == y && (2 * y) % 2 == 0;
    }
  }

  /** The number that the low `k` bits stand for. */
  function Low(x: nat, k: nat): nat {
    x % Pow2(k)
  }

  lemma LowStep(x: nat, k: nat)
    ensures Low(x, 0) == 0
    ensures k > 0 ==> Low(x, k) == 2 * Low(x / 2, k - 1) + x % 2
  {
    if k > 0 {
      HalfModulus(x, Pow2(k - 1));
    }
  }

  /** Masking off the low `k` bits subtracts the remainder. */
  lemma {:induction false} MaskLowBits(x: nat, w: nat, k: nat)
    requires x < Pow2(w) && k <= w
    ensures Pow2(k) <= Pow2(w) && And(x, Pow2(w) - Pow2(k)) == x - Low(x, k)
    decreases k
  {
    hide Low;
    LowStep(x, k);
    PowersGrow(k, w);
    if k == 0 {
      AndAllOnes(x, w);
    } else {
      var p, m := Pow2(w - 1), Pow2(k - 1);
      PowersGrow(k - 1, w - 1);
      MaskLowBits(x / 2, w - 1, k - 1);
      AndEven(x, p - m);
    }
  }

  /** The masks and sums of `AlignForward` in plain arithmetic. */
  lemma AlignPower(addr: nat, k: nat)
    requires addr < Pow2(BITS) && k < BITS
    ensures var s := Wrap(addr + Pow2(k) - 1);
            AlignForward(addr, Pow2(k)) == s - s % Pow2(k)
  {
    hide Pow2, And, Wrap;
    var a, n := Pow2(k), Pow2(BITS);
    PowersGrow(k, BITS);
    WrapOnce(a - 1);
    WrapOnce(n - a);
    WrapOnce(addr + a - 1);
    MaskLowBits(Wrap(addr + a - 1), BITS, k);
  }

  lemma {:induction false} PowerDivides(k: nat, w: nat)
    requires k <= w
    ensures Pow2(w) % Pow2(k) == 0
  {
    if k < w {
      PowerDivides(k, w - 1);
      var a, q := Pow2(k), Pow2(w - 1) / Pow2(k);
      assert Pow2(w) == (2 * q) * a;
      ModulusOf(Pow2(w), a, 2 * q, 0);
    } else {
      ModulusOf(Pow2(w), Pow2(w), 1, 0);
    }
  }

  lemma MultipleAbove(r: int, m: int, a: int)
    requires a > 0 && r % a == 0 && m % a == 0 && m < r
    ensures m <= r - a
  {
    var i, j := r / a, m / a;
    assert r == i * a && m == j * a;
    assert (i - j) * a == r - m;
    FarMultiple(i - j, a);
  }

  /** For a power of two the result is always a multiple; it is the least multiple
      not below the address, unless the sum wraps around: then it is zero. */
  lemma AlignsUp(addr: nat, k: nat)
    requires addr < Pow2(BITS) && k < BITS
    ensures var a, r := Pow2(k), AlignForward(addr, Pow2(k));
            && r % a == 0
            && (addr + a - 1 < Pow2(BITS) ==> addr <= r < addr + a && forall m :: addr <= m && m % a == 0 ==> r <= m)
            && (addr + a - 1 >= Pow2(BITS) ==> r == 0 < addr)
  {
    var a, n := Pow2(k), Pow2(BITS);
    var s := Wrap(addr + a - 1);
    var r := AlignForward(addr, a);
    hide Pow2, And, Wrap, AlignForward;
    AlignPower(addr, k);
    PowersGrow(k, BITS);
    WrapOnce(addr + a - 1);
    assert s == (s / a) * a + s % a;
    ModulusOf(r, a, s / a, 0);
    if addr + a - 1 < n {
      forall m | addr <= m && m % a == 0 ensures r <= m {
        if m < r {
          MultipleAbove(r, m, a);
        }
      }
    } else {
      ModulusOf(s, a, 0, s);
    }
  }

  /** The result is not below the address exactly if the sum does not wrap around. */
  lemma AlignsUpExactly(addr: nat, k: nat)
    requires addr < Pow2(BITS) && k < BITS
    ensures AlignForward(addr, Pow2(k)) >= addr <==> addr + Pow2(k) - 1 < Pow2(BITS)
  {
    AlignsUp(addr, k);
  }

  lemma AlignIdempotent(addr: nat, k: nat)
    requires addr < Pow2(BITS) && k < BITS
    ensures var r := AlignForward(addr, Pow2(k));
            r < Pow2(BITS) && AlignForward(r, Pow2(k)) == r
  {
    var a, n, r := Pow2(k), Pow2(BITS), AlignForward(addr, Pow2(k));
    AlignsUp(addr, k);
    AlignPower(addr, k);
    PowerDivides(k, BITS);
    MultipleAbove(n, r, a);
    AlignsUp(r, k);
    assert AlignForward(r, a) <= r;
  }

  lemma AlignMonotone(addr: nat, other: nat, k: nat)
    requires addr <= other && other + Pow2(k) - 1 < Pow2(BITS) && k < BITS
    ensures AlignForward(addr, Pow2(k)) <= AlignForward(other, Pow2(k))
  {
    AlignsUp(addr, k);
    AlignsUp(other, k);
  }

  // ----- Alignments that are no powers of two -----

  lemma {:induction false} AndComplement(x: nat, w: nat)
    requires x < Pow2(w)
    ensures And(x, Pow2(w) - 1 - x) == 0
    decreases w
  {
    if x > 0 {
      var p := Pow2(w - 1);
      assert (2 * p - 1 - x) / 2 == p - 1 - x / 2;
      AndComplement(x / 2, w - 1);
    }
  }

  /** `a & -a` is the greatest power of two that divides `a`. */
  lemma {:induction false} LowestBit(a: nat, w: nat) returns (k: nat)
    requires 0 < a < Pow2(w)
    ensures k < w && And(a, Pow2(w) - a) == Pow2(k) <= a
    decreases w
  {
    var p := Pow2(w - 1);
    if a % 2 == 1 {
      assert (2 * p - a) / 2 == p - 1 - a / 2;
      AndComplement(a / 2, w - 1);
      k := 0;
    } else {
      var j := LowestBit(a / 2, w - 1);
      assert (2 * p - a) / 2 == p - a / 2;
      k := j + 1;
    }
  }

  predicate IsMultiple(x: nat, a: nat)
    requires a > 0
  {
    x % a == 0
  }

  lemma AlignOne(align: nat) returns (k: nat)
    requires 0 < align < Pow2(BITS)
    ensures k < BITS && AlignForward(1, align) == Pow2(k) <= align
  {
    hide Pow2, And, Wrap;
    k := LowestBit(align, BITS);
    WrapOnce(align - 1);
    WrapOnce(align);
    WrapOnce(Pow2(BITS) - align);
  }

  predicate IsPower(a: nat, k: nat) {
    k < BITS && a == Pow2(k)
  }

  lemma PowersAlign(align: nat, k: nat)
    requires IsPower(align, k)
    ensures forall addr :: 0 <= addr < Pow2(BITS) ==> IsMultiple(AlignForward(addr, align), align)
  {
    forall addr | 0 <= addr < Pow2(BITS) ensures IsMultiple(AlignForward(addr, align), align) {
      AlignsUp(addr, k);
    }
  }

  lemma OthersFail(align: nat)
    requires 0 < align < Pow2(BITS) && forall k :: !IsPower(align, k)
    ensures 1 < Pow2(BITS) && !IsMultiple(AlignForward(1, align), align)
  {
    var k := AlignOne(align);
    assert !IsPower(align, k);
    hide AlignForward;
    PowersGrow(1, BITS);
    ModulusOf(Pow2(k), align, 0, Pow2(k));
  }

  /** `AlignForward` yields multiples of `align` for every address exactly if
      `align` is a power of two. */
  lemma AlignsExactlyToPowers(align: nat)
    requires 0 < align < Pow2(BITS)
    ensures (forall addr :: 0 <= addr < Pow2(BITS) ==> IsMultiple(AlignForward(addr, align), align))
       <==> exists k :: IsPower(align, k)
  {
    hide Pow2, IsMultiple, IsPower, AlignForward;
    if k :| IsPower(align, k) {
      PowersAlign(align, k);
    } else {
      OthersFail(align);
    }
  }
}
