/** JavaScript's 32-bit bitwise operators (ECMAScript ToInt32, ToUint32, |, &, <<, >>)
    over integral numbers. The bitwise core works bit by bit on naturals, so that no
    bit-vector conversion is needed. */
module JsBits {

  const Two31: int := 0x8000_0000
  const Two32: int := 0x1_0000_0000

  function Pow2(n: nat): (r: nat)
    ensures r >= 1
  {
    if n == 0 then 1 else 2 * Pow2(n - 1)
  }

  /** ToUint32 of an integral number: its value modulo 2^32. */
  function ToUint32(x: int): (r: int)
    ensures 0 <= r < Two32
    ensures 0 <= x < Two32 ==> r == x
  {
    x % Two32
  }

  /** ToInt32 of an integral number: the 32-bit two's complement reading of it. */
  function ToInt32(x: int): (r: int)
    ensures -Two31 <= r < Two31
    ensures -Two31 <= x < Two31 ==> r == x
  {
    var u := x % Two32;
    if u < Two31 then u else u - Two32
  }

  /** Both conversions keep the number's value modulo 2^32. */
  lemma Congruent32(x: int)
    ensures (x - ToUint32(x)) % Two32 == 0
    ensures (x - ToInt32(x)) % Two32 == 0
  {
    var q := x / Two32;
    assert x - ToUint32(x) == Two32 * q;
    if x % Two32 >= Two31 {
      assert x - ToInt32(x) == Two32 * (q + 1);
    }
  }

  /** The bitwise OR of two naturals. */
  function BitOr(a: nat, b: nat): nat
    decreases a + b
  {
    if a == 0 then b
    else if b == 0 then a
    else 2 * BitOr(a / 2, b / 2) + (if a % 2 == 1 || b % 2 == 1 then 1 else 0)
  }

  /** The bitwise AND of two naturals. */
  function BitAnd(a: nat, b: nat): nat
    decreases a
  {
    if a == 0 || b == 0 then 0
    else 2 * BitAnd(a / 2, b / 2) + (if a % 2 == 1 && b % 2 == 1 then 1 else 0)
  }

  /** `a | b` */
  function Or(a: int, b: int): int
  {
    ToInt32(BitOr(ToUint32(a), ToUint32(b)))
  }

  /** `a & b` */
  function And(a: int, b: int): int
  {
    ToInt32(BitAnd(ToUint32(a), ToUint32(b)))
  }

  /** `a << n`; the shift count is taken modulo 32. */
  function Shl(a: int, n: nat): int
  {
    ToInt32(ToUint32(a) * Pow2(n % 32))
  }

  /** `a >> n`, the sign-propagating shift: floor division of the 32-bit value. */
  function Shr(a: int, n: nat): int
  {
    ToInt32(a) / Pow2(n % 32)
  }

  lemma {:induction false} BitOrCommutes(a: nat, b: nat)
    ensures BitOr(a, b) == BitOr(b, a)
    decreases a + b
  {
    if a != 0 && b != 0 {
      BitOrCommutes(a / 2, b / 2);
    }
  }

  /** `x * 2^k`, written as k doublings so that the bit lemmas stay linear. */
  function Scaled(x: nat, k: nat): nat
  {
    if k == 0 then x else 2 * Scaled(x, k - 1)
  }

  lemma {:induction false} ScaledIsProduct(x: nat, k: nat)
    ensures Scaled(x, k) == Pow2(k) * x
  {
    if k > 0 {
      ScaledIsProduct(x, k - 1);
      Pow2Twice(k, x);
    }
  }

  /** Doubling commutes with the power of two. */
  lemma Pow2Twice(k: nat, x: nat)
    requires k >= 1
    ensures Pow2(k) * x == 2 * (Pow2(k - 1) * x)
  {
  }

  /** OR-ing a multiple of 2^k into a number leaves its low k bits alone. */
  lemma BitOrHigh(x: nat, y: nat, r: nat, k: nat)
    requires r < Pow2(k)
    ensures BitOr(Pow2(k) * x + r, Pow2(k) * y) == Pow2(k) * BitOr(x, y) + r
  {
    ScaledOr(x, y, r, k);
    ScaledIsProduct(x, k);
    ScaledIsProduct(y, k);
    ScaledIsProduct(BitOr(x, y), k);
  }

  lemma {:induction false} ScaledOr(x: nat, y: nat, r: nat, k: nat)
    requires r < Pow2(k)
    ensures BitOr(Scaled(x, k) + r, Scaled(y, k)) == Scaled(BitOr(x, y), k) + r
    decreases k
  {
    if k == 0 {
      assert r == 0;
    } else {
      var sx, sy := Scaled(x, k - 1), Scaled(y, k - 1);
      assert r / 2 < Pow2(k - 1);
      ScaledOr(x, y, r / 2, k - 1);
      OrShift(sx + r / 2, sy, r % 2);
      assert Scaled(x, k) + r == 2 * (sx + r / 2) + r % 2;
    }
  }

  /** The lowest bit of `a | b` when `b` is even. */
  lemma OrShift(u: nat, g: nat, bit: nat)
    requires bit < 2
    ensures BitOr(2 * u + bit, 2 * g) == 2 * BitOr(u, g) + bit
  {
    var a := 2 * u + bit;
    if a != 0 && g != 0 {
      assert a / 2 == u && a % 2 == bit;
      assert (2 * g) / 2 == g && (2 * g) % 2 == 0;
    }
  }

  /** AND-ing with a multiple of 2^k clears the low k bits. */
  lemma BitAndHigh(x: nat, y: nat, r: nat, k: nat)
    requires r < Pow2(k)
    ensures BitAnd(Pow2(k) * x + r, Pow2(k) * y) == Pow2(k) * BitAnd(x, y)
  {
    ScaledAnd(x, y, r, k);
    ScaledIsProduct(x, k);
    ScaledIsProduct(y, k);
    ScaledIsProduct(BitAnd(x, y), k);
  }

  lemma {:induction false} ScaledAnd(x: nat, y: nat, r: nat, k: nat)
    requires r < Pow2(k)
    ensures BitAnd(Scaled(x, k) + r, Scaled(y, k)) == Scaled(BitAnd(x, y), k)
    decreases k
  {
    if k == 0 {
      assert r == 0;
    } else {
      var sx, sy := Scaled(x, k - 1), Scaled(y, k - 1);
      assert r / 2 < Pow2(k - 1);
      ScaledAnd(x, y, r / 2, k - 1);
      AndShift(sx + r / 2, sy, r % 2);
      assert Scaled(x, k) + r == 2 * (sx + r / 2) + r % 2;
    }
  }

  /** The lowest bit of `a & b` when `b` is even. */
  lemma AndShift(u: nat, g: nat, bit: nat)
    requires bit < 2
    ensures BitAnd(2 * u + bit, 2 * g) == 2 * BitAnd(u, g)
  {
    var a := 2 * u + bit;
    if a != 0 && g != 0 {
      assert a / 2 == u;
      assert (2 * g) / 2 == g && (2 * g) % 2 == 0;
    }
  }

  /** `b & 128` on a byte is 128 exactly when its top bit is set. */
  lemma AndTopBit(b: int)
    requires 0 <= b < 256
    ensures And(b, 128) == (if b < 128 then 0 else 128)
  {
    Pow2Small();
    SmallIsUnchanged(b);
    SmallIsUnchanged(128);
    var q, r := b / 128, b % 128;
    assert b == 128 * q + r && (q == 0 || q == 1);
    BitAndHigh(q, 1, r, 7);
    assert BitAnd(0, 1) == 0 && BitAnd(1, 1) == 1;
    SmallIsUnchanged(BitAnd(b, 128));
  }

  /** Masking with 2^k - 1 keeps exactly the low k bits. */
  lemma {:induction false} BitAndLow(x: nat, r: nat, k: nat)
    requires r < Pow2(k)
    ensures BitAnd(Pow2(k) * x + r, Pow2(k) - 1) == r
    decreases k
  {
    if k != 0 {
      var p := Pow2(k - 1);
      var hx := p * x;
      assert Pow2(k) * x == 2 * hx;
      var a := 2 * hx + r;
      if a != 0 {
        assert a / 2 == hx + r / 2 && a % 2 == r % 2;
        assert (Pow2(k) - 1) / 2 == p - 1 && (Pow2(k) - 1) % 2 == 1;
        BitAndLow(x, r / 2, k - 1);
      }
    }
  }

  /** `a & (2^k - 1)` is `a` modulo 2^k, for any integral `a`. */
  lemma AndMask(a: int, k: nat)
    requires 1 <= k <= 31
    ensures And(a, Pow2(k) - 1) == a % Pow2(k)
  {
    var p := Pow2(k);
    Pow2Factor(k);
    SmallIsUnchanged(p - 1);
    UintMod(a, k);
    MaskOfUint(ToUint32(a), k);
  }

  lemma UintMod(a: int, k: nat)
    requires 1 <= k <= 31
    ensures a % Pow2(k) == ToUint32(a) % Pow2(k)
  {
    var p, m, u := Pow2(k), Pow2(32 - k), ToUint32(a);
    assert Two32 == p * m by { Pow2Factor(k); }
    assert (a - u) % Two32 == 0 by { Congruent32(a); }
    ModOfMultiple(a, u, p, m);
  }

  lemma MaskOfUint(u: nat, k: nat)
    requires 1 <= k <= 31
    ensures ToInt32(BitAnd(u, Pow2(k) - 1)) == u % Pow2(k)
  {
    var p := Pow2(k);
    Pow2Factor(k);
    BitAndMod(u, k);
    SmallIsUnchanged(u % p);
  }

  /** The powers of two the MIDI codec shifts and masks by. */
  lemma Pow2Small()
    ensures Pow2(3) == 8 && Pow2(4) == 16 && Pow2(7) == 128
  {
    assert Pow2(2) == 4;
  }

  lemma SmallIsUnchanged(x: int)
    requires 0 <= x < Two31
    ensures ToUint32(x) == x && ToInt32(x) == x
  {
  }

  lemma Pow2Factor(k: nat)
    requires 1 <= k <= 31
    ensures Two32 == Pow2(k) * Pow2(32 - k)
    ensures Pow2(k) <= Two31
  {
    Pow2Split(k, 32 - k);
    Pow2Of32();
    var p, m := Pow2(k), Pow2(32 - k);
    assert m >= 2;
    MulAtLeast(p, m);
  }

  lemma BitAndMod(u: nat, k: nat)
    ensures BitAnd(u, Pow2(k) - 1) == u % Pow2(k)
  {
    var p := Pow2(k);
    var x := u / p;
    assert x >= 0 by {
      if x < 0 { MulAtLeast(p, -x); }
    }
    assert u == p * x + u % p;
    BitAndLow(x, u % p, k);
  }

  lemma {:induction false} Pow2Split(a: nat, b: nat)
    ensures Pow2(a + b) == Pow2(a) * Pow2(b)
    decreases a
  {
    if a > 0 {
      Pow2Split(a - 1, b);
      assert Pow2(a + b) == 2 * Pow2(a - 1 + b);
    }
  }

  lemma Pow2Of32()
    ensures Pow2(32) == Two32
  {
    assert Pow2(8) == 256;
    Pow2Split(8, 8);
    Pow2Split(16, 16);
  }

  /** Numbers that differ by a multiple of 2^32 agree modulo every divisor of 2^32. */
  lemma ModOfMultiple(a: int, u: int, p: nat, m: int)
    requires p >= 1 && Two32 == p * m
    requires (a - u) % Two32 == 0
    ensures a % p == u % p
  {
    var n := (a - u) / Two32;
    assert a - u == Two32 * n;
    assert a == p * (m * n) + u;
    ModUnique(a, p, m * n + u / p, u % p);
  }

  /** Euclidean division is unique. */
  lemma ModUnique(a: int, d: int, q: int, r: int)
    requires d > 0 && a == d * q + r && 0 <= r < d
    ensures a % d == r && a / d == q
  {
    var q', r' := a / d, a % d;
    assert d * (q - q') == r' - r;
    if q > q' {
      MulAtLeast(d, q - q');
    } else if q < q' {
      MulAtLeast(d, q' - q);
    }
  }

  lemma MulAtLeast(d: int, k: int)
    requires d > 0 && k >= 1
    ensures d * k >= d && (k >= 2 ==> d * k >= 2 * d)
  {
  }

  /** On non-negative 31-bit operands `|` is the bitwise OR of naturals. */
  lemma OrOfSmall(a: int, b: int)
    requires 0 <= a < Two31 && 0 <= b < Two31 && BitOr(a, b) < Two31
    ensures Or(a, b) == BitOr(a, b)
  {
    SmallIsUnchanged(a);
    SmallIsUnchanged(b);
    SmallIsUnchanged(BitOr(a, b));
  }

  /** A left shift that does not reach the sign bit multiplies by a power of two. */
  lemma ShlOfSmall(a: int, n: nat)
    requires n < 32 && 0 <= a && a * Pow2(n) < Two31
    ensures Shl(a, n) == a * Pow2(n)
  {
    var p := Pow2(n);
    var m := a * p;
    assert a <= m by { if a > 0 { MulAtLeast(a, p); } }
    assert ToUint32(a) == a;
    assert Shl(a, n) == ToInt32(m) by { assert n % 32 == n; }
    assert ToInt32(m) == m;
  }

  /** On a non-negative 31-bit operand `>>` is floor division by a power of two. */
  lemma ShrOfSmall(a: int, n: nat)
    requires n < 32 && 0 <= a < Two31
    ensures Shr(a, n) == a / Pow2(n)
  {
    assert n % 32 == n;
    SmallIsUnchanged(a);
    calc {
      Shr(a, n);
      ToInt32(a) / Pow2(n % 32);
      a / Pow2(n);
    }
  }
}
