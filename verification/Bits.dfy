/** Arithmetic the runtime takes from the machine: 64-bit wrap-around and the
    mask that turns a running index into a slot number. */
module Bits {

  const WORD: nat := 0x1_0000_0000_0000_0000
  const I64_MAX: int := 0x7FFF_FFFF_FFFF_FFFF
  const I64_MIN: int := -0x8000_0000_0000_0000
  const U64_MAX: int := 0xFFFF_FFFF_FFFF_FFFF
  const U32_MAX: int := 0xFFFF_FFFF

  function Pow2(k: nat): (p: nat)
    ensures p > 0
  {
    if k == 0 then 1 else 2 * Pow2(k - 1)
  }

  /** Bitwise conjunction of two naturals. */
  function And(x: nat, y: nat): nat
    decreases x
  {
    if x == 0 || y == 0 then 0 else (x % 2) * (y % 2) + 2 * And(x / 2, y / 2)
  }

  /** Subtraction of two 64-bit words. */
  function Sub64(a: nat, b: nat): (d: nat)
    ensures d < WORD
  {
    (a - b) % WORD
  }

  function Inc64(a: nat): (d: nat)
    ensures d < WORD
  {
    (a + 1) % WORD
  }

  lemma DivModUnique(x: int, d: int, q: int, r: int)
    requires 0 <= r < d
    requires x == q * d + r
    ensures x / d == q && x % d == r
  {
    if x / d < q {
      assert (x / d + 1) * d <= q * d by { MulMono(x / d + 1, q, d); }
      assert false;
    } else if x / d > q {
      assert (q + 1) * d <= x / d * d by { MulMono(q + 1, x / d, d); }
      assert false;
    }
  }

  lemma MulMono(a: int, b: int, d: int)
    requires a <= b && d > 0
    ensures a * d <= b * d
  {
  }

  /** Reducing modulo a multiple of the modulus first changes nothing. */
  lemma ModOfMultiple(x: nat, c: nat, m: nat)
    requires c > 0 && m > 0
    ensures c * m > 0
    ensures (x % (c * m)) % c == x % c
  {
    var w := c * m;
    var q, r := x / w, x % w;
    var q', r' := r / c, r % c;
    assert x == q * w + r;
    assert q * w == (q * m) * c;
    assert x == (q * m + q') * c + r';
    DivModUnique(x, c, q * m + q', r');
  }

  /** Two indices closer than the modulus fall on different residues. */
  lemma DistinctResidues(i: nat, j: nat, c: nat)
    requires i < j < i + c
    ensures i % c != j % c
  {
    if i % c == j % c {
      var d := j / c - i / c;
      assert j - i == d * c;
      MulOutside(d, c);
      assert false;
    }
  }

  lemma MulOutside(d: int, c: int)
    requires c > 0
    ensures d * c <= 0 || d * c >= c
  {
    if d >= 1 { MulMono(1, d, c); }
  }

  /** Word subtraction recovers the distance of two running indices. */
  lemma WordDistance(t: nat, h: nat)
    requires h <= t < h + WORD
    ensures Sub64(t % WORD, h % WORD) == t - h
  {
    var q := t / WORD - h / WORD;
    assert t % WORD - h % WORD == (t - h) - q * WORD;
    DivModUnique(t % WORD - h % WORD, WORD, -q, t - h);
  }

  lemma WordSuccessor(t: nat)
    ensures Inc64(t % WORD) == (t + 1) % WORD
  {
    var q, r := t / WORD, t % WORD;
    if r + 1 == WORD {
      DivModUnique(t + 1, WORD, q + 1, 0);
    } else {
      DivModUnique(t + 1, WORD, q, r + 1);
    }
  }

  /** One bit of the conjunction at a time. */
  lemma AndStep(x: nat, y: nat)
    ensures And(x, y) == (x % 2) * (y % 2) + 2 * And(x / 2, y / 2)
  {
  }

  lemma HalfOfRemainder(x: nat, p: nat)
    requires p > 0
    ensures x % (2 * p) == x % 2 + 2 * ((x / 2) % p)
  {
    var q, r := (x / 2) / p, (x / 2) % p;
    assert x / 2 == q * p + r;
    assert q * (2 * p) == 2 * (q * p);
    DivModUnique(x, 2 * p, q, 2 * r + x % 2);
  }

  /** Masking with one less than a power of two is reduction modulo that power. */
  lemma {:induction false} MaskIsRemainder(x: nat, k: nat)
    ensures And(x, Pow2(k) - 1) == x % Pow2(k)
  {
    if k > 0 {
      var p := Pow2(k - 1);
      AndStep(x, 2 * p - 1);
      assert (2 * p - 1) / 2 == p - 1 && (2 * p - 1) % 2 == 1;
      MaskIsRemainder(x / 2, k - 1);
      HalfOfRemainder(x, p);
    }
  }

  ghost predicate IsPow2(c: nat) {
    exists k: nat :: c == Pow2(k)
  }

  lemma Pow2Halves(c: nat)
    requires c > 1
    ensures IsPow2(c) <==> c % 2 == 0 && IsPow2(c / 2)
  {
    if k: nat :| c == Pow2(k) {
      assert c == 2 * Pow2(k - 1);
      assert c / 2 == Pow2(k - 1);
    }
    if c % 2 == 0 && IsPow2(c / 2) {
      var k: nat :| c / 2 == Pow2(k);
      assert c == Pow2(k + 1);
    }
  }

  /** The constructor's test accepts exactly the powers of two. */
  lemma {:induction false} PowerOfTwoTest(c: nat)
    requires c > 0
    ensures And(c, c - 1) == 0 <==> IsPow2(c)
  {
    if c == 1 {
      assert c == Pow2(0);
    } else {
      AndStep(c, c - 1);
      Pow2Halves(c);
      if c % 2 == 1 {
        assert (c - 1) / 2 == c / 2;
        AndSelf(c / 2);
      } else {
        assert (c - 1) / 2 == c / 2 - 1;
        PowerOfTwoTest(c / 2);
      }
    }
  }

  lemma {:induction false} AndSelf(x: nat)
    ensures And(x, x) == x
  {
    if x > 0 {
      AndSelf(x / 2);
      var bit := x % 2;
      assert bit * bit == bit by { assert bit == 0 || bit == 1; }
      assert And(x, x) == bit * bit + 2 * And(x / 2, x / 2);
    }
  }

  /** A power of two below the word size divides the word size. */
  lemma {:induction false} PowersDivide(j: nat, k: nat)
    requires j <= k
    ensures Pow2(k) == Pow2(j) * Pow2(k - j)
    decreases k
  {
    if j < k {
      PowersDivide(j, k - 1);
      assert Pow2(k) == 2 * (Pow2(j) * Pow2(k - 1 - j)) == Pow2(j) * (2 * Pow2(k - 1 - j));
    }
  }

  lemma {:induction false} PowersMonotone(j: nat, k: nat)
    requires Pow2(j) <= Pow2(k)
    ensures j <= k
  {
    if k < j {
      PowersDivide(k, j);
      assert Pow2(j - k) >= 2;
      MulMono(2, Pow2(j - k), Pow2(k));
      assert false;
    }
  }

  lemma WordIsPowerOfTwo()
    ensures WORD == Pow2(64)
  {
    assert Pow2(8) == 256;
    PowersDivide(8, 16);
    PowersDivide(16, 32);
    PowersDivide(32, 64);
  }
}
