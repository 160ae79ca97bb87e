/** The bit tricks of the arena in integer arithmetic (src/arena.c:9-24). */
module Bits {
  const SizeLimit: nat := 0x1_0000_0000_0000_0000

  /** Bitwise and. */
  function And(a: nat, b: nat): nat
    decreases a
  {
    if a == 0 || b == 0 then 0 else (if a % 2 == 1 && b % 2 == 1 then 1 else 0) + 2 * And(a / 2, b / 2)
  }

  predicate IsPower(x: nat) {
    x == 1 || (x > 1 && x % 2 == 0 && IsPower(x / 2))
  }

  lemma {:induction false} AndSelf(x: nat)
    ensures And(x, x) == x
  {
    if x > 0 { AndSelf(x / 2); }
  }

  /** `x != 0 && (x & (x - 1)) == 0` is the test for a power of two. */
  lemma {:induction false} PowerTest(x: nat)
    requires x > 0
    ensures And(x, x - 1) == 0 <==> IsPower(x)
  {
    if x > 1 {
      if x % 2 == 1 {
        assert (x - 1) / 2 == x / 2;
        AndSelf(x / 2);
      } else {
        assert (x - 1) / 2 == x / 2 - 1;
        PowerTest(x / 2);
      }
    }
  }

  lemma {:induction false} AndOnes(x: nat, w: nat)
    requires IsPower(w) && x < w
    ensures And(x, w - 1) == x
  {
    if x > 0 {
      assert (w - 1) % 2 == 1 && (w - 1) / 2 == w / 2 - 1;
      AndOnes(x / 2, w / 2);
    }
  }

  lemma HalfMod(x: nat, b: nat)
    requires b > 0
    ensures x % (2 * b) == 2 * ((x / 2) % b) + x % 2
  {
    var q, r := (x / 2) / b, (x / 2) % b;
    assert x / 2 == b * q + r;
    assert x == (2 * b) * q + (2 * r + x % 2);
    ModUnique(x, 2 * b, q, 2 * r + x % 2);
  }

  lemma Scale(m: int, d: int)
    requires m > 0
    ensures (d > 0 ==> m * d >= m) && (d < 0 ==> m * d <= -m) && (d == 0 ==> m * d == 0)
  {
    if d > 0 { assert m * (d - 1) >= 0; }
    if d < 0 { assert m * (-d - 1) >= 0; }
  }

  lemma ModUnique(x: int, m: int, q: int, r: int)
    requires 0 <= r < m && x == m * q + r
    ensures x % m == r && x / m == q
  {
    var d := q - x / m;
    assert x == m * (x / m) + x % m;
    assert m * d == x % m - r;
    Scale(m, d);
  }

  /** `x & ~(a - 1)`, in words of any width, clears the bits below `a`. */
  lemma {:induction false} MaskDown(x: nat, a: nat, w: nat)
    requires IsPower(a) && IsPower(w) && a <= w && x < w
    ensures And(x, w - a) == x - x % a
  {
    if a == 1 {
      AndOnes(x, w);
    } else {
      var b, v := a / 2, w / 2;
      assert w > 1;
      assert (w - a) % 2 == 0 && (w - a) / 2 == v - b;
      MaskDown(x / 2, b, v);
      HalfMod(x, b);
    }
  }

  /** The least multiple of `a` that is not below `v`. */
  function LeastMultiple(v: nat, a: nat): nat
    requires a > 0
  {
    (v + a - 1) - (v + a - 1) % a
  }

  lemma LeastMultipleIs(v: nat, a: nat)
    requires a > 0
    ensures var r := LeastMultiple(v, a); v <= r < v + a && r % a == 0 && forall m: nat :: v <= m && m % a == 0 ==> r <= m
  {
    var x := v + a - 1;
    var r := LeastMultiple(v, a);
    assert x == a * (x / a) + x % a;
    ModUnique(r, a, x / a, 0);
    forall m: nat | v <= m && m % a == 0 ensures r <= m {
      if m < r {
        assert m == a * (m / a) && r == a * (x / a);
        Apart(a, m / a, x / a);
      }
    }
  }

  lemma Apart(a: int, p: int, q: int)
    requires a > 0 && a * p < a * q
    ensures a * p + a <= a * q
  {
    assert a * (q - p) == a * q - a * p;
    Scale(a, q - p);
  }

  /** Rounding up with the mask is rounding up to a multiple, where the sum does not wrap. */
  lemma {:induction false} AlignUpIs(v: nat, a: nat)
    requires IsPower(a) && a <= SizeLimit && v + a - 1 < SizeLimit
    ensures And(v + a - 1, SizeLimit - a) == LeastMultiple(v, a)
  {
    LimitIsPower();
    MaskDown(v + a - 1, a, SizeLimit);
  }

  lemma LimitIsPower()
    ensures IsPower(SizeLimit)
  {
    assert IsPower(0x1_0000);
    PowerTimes(0x1_0000, 0x1_0000);
    PowerTimes(0x1_0000_0000, 0x1_0000_0000);
  }

  lemma {:induction false} PowerTimes(a: nat, b: nat)
    requires IsPower(a) && IsPower(b)
    ensures IsPower(a * b)
  {
    if a > 1 {
      PowerTimes(a / 2, b);
      assert a * b == 2 * ((a / 2) * b);
      assert (a * b) / 2 == (a / 2) * b;
    }
  }
}
