/** Bitwise AND, powers of two, division and layout arithmetic, as far as the other modules need them. */
module Arithmetic {
  /** The number of values of a 64-bit size_t. */
  const WORD: nat := 0x1_0000_0000_0000_0000

  function Min(a: int, b: int): int {
    if a < b then a else b
  }

  function MinReal(a: real, b: real): real {
    if a < b then a else b
  }

  function Numbers(n: nat): seq<nat> {
    seq(n, i => i)
  }

  /** The bitwise AND of the binary representations. */
  function And(a: nat, b: nat): nat {
    if a == 0 || b == 0 then 0
    else (if a % 2 == 1 && b % 2 == 1 then 1 else 0) + 2 * And(a / 2, b / 2)
  }

  function Pow2(k: nat): (r: nat)
    ensures r > 0
  {
    if k == 0 then 1 else 2 * Pow2(k - 1)
  }

  ghost predicate IsPow2(n: nat) {
    exists k: nat :: n == Pow2(k)
  }

  lemma {:induction false} Pow2Monotone(j: nat, k: nat)
    requires j <= k
    ensures Pow2(j) <= Pow2(k)
    ensures Pow2(k) % Pow2(j) == 0
  {
    if j < k {
      Pow2Monotone(j, k - 1);
      var m, q := Pow2(j), Pow2(k - 1) / Pow2(j);
      assert Pow2(k) == (2 * q) * m by {
        assert Pow2(k - 1) == q * m;
      }
      MultipleMod(2 * q, m);
    } else {
      MultipleMod(1, Pow2(j));
    }
  }

  lemma MultipleMod(q: int, m: nat)
    requires m > 0
    ensures (q * m) % m == 0
  {
    ModUnique(q * m, m, q, 0);
  }

  lemma SmallMultiple(d: int, m: int, r: int)
    requires d * m == r && -m < r < m
    ensures d == 0
  {
    MulGrows(d, m);
  }

  lemma MulGrows(d: int, m: int)
    requires m > 0
    ensures d >= 1 ==> d * m >= m
    ensures d <= -1 ==> d * m <= -m
  {
    if d >= 1 {
      assert (d - 1) * m >= 0;
    }
    if d <= -1 {
      assert (d + 1) * m <= 0;
    }
  }

  /** Euclidean division has one answer. */
  lemma DivisionUnique(m: int, q: int, r: int, q': int, r': int)
    requires 0 <= r < m && 0 <= r' < m && q * m + r == q' * m + r'
    ensures q == q' && r == r'
  {
    SmallMultiple(q - q', m, r' - r);
  }

  lemma ModUnique(x: int, m: nat, q: int, r: nat)
    requires m > 0 && r < m && x == q * m + r
    ensures x % m == r && x / m == q
  {
    DivisionUnique(m, q, r, x / m, x % m);
  }

  /** Masking with 2^k - 1 is reduction modulo 2^k. */
  lemma {:induction false} MaskIsMod(x: nat, k: nat)
    ensures And(x, Pow2(k) - 1) == x % Pow2(k)
  {
    if x == 0 {
      ModUnique(x, Pow2(k), 0, 0);
    } else if k == 0 {
      ModUnique(x, 1, x, 0);
    } else {
      MaskIsMod(x / 2, k - 1);
      AndDoubleMask(x, Pow2(k - 1));
      DoubleMod(x, Pow2(k - 1));
    }
  }

  lemma AndDoubleMask(x: nat, m: nat)
    requires m > 0
    ensures And(x, 2 * m - 1) == x % 2 + 2 * And(x / 2, m - 1)
  {
    assert (2 * m - 1) / 2 == m - 1 && (2 * m - 1) % 2 == 1;
  }

  lemma DoubleMod(x: nat, m: nat)
    requires m > 0
    ensures x % (2 * m) == x % 2 + 2 * (x / 2 % m)
  {
    var q, r := x / 2 / m, x / 2 % m;
    assert x == q * (2 * m) + (2 * r + x % 2) by {
      assert x / 2 == q * m + r;
      assert q * (2 * m) == 2 * (q * m);
    }
    ModUnique(x, 2 * m, q, 2 * r + x % 2);
  }

  /** The test `c & (c - 1)` recognises exactly the powers of two among the positive numbers. */
  lemma {:induction false} PredMaskZero(c: nat)
    requires c > 0
    ensures And(c, c - 1) == 0 <==> IsPow2(c)
  {
    if c == 1 {
      assert c == Pow2(0);
    } else if c % 2 == 1 {
      assert And(c / 2, (c - 1) / 2) > 0 by {
        assert (c - 1) / 2 == c / 2;
        AndSelf(c / 2);
      }
      OddNotPow2(c);
    } else {
      assert (c - 1) / 2 == c / 2 - 1;
      PredMaskZero(c / 2);
      if IsPow2(c / 2) {
        var k: nat :| c / 2 == Pow2(k);
        assert c == Pow2(k + 1);
      }
      if IsPow2(c) {
        var k: nat :| c == Pow2(k);
        assert k > 0;
        assert c / 2 == Pow2(k - 1);
      }
    }
  }

  lemma OddNotPow2(c: nat)
    requires c > 1 && c % 2 == 1
    ensures !IsPow2(c)
  {
    forall k: nat
      ensures c != Pow2(k)
    {
      assert k == 0 || Pow2(k) == 2 * Pow2(k - 1);
    }
  }

  lemma {:induction false} AndSelf(a: nat)
    ensures And(a, a) == a
  {
    if a > 0 {
      AndSelf(a / 2);
    }
  }

  lemma ModOfMod(x: int, w: nat, m: nat)
    requires m > 0 && w > 0
    ensures (x % (w * m)) % m == x % m
  {
    var q, y := x / (w * m), x % (w * m);
    var q1, r1 := y / m, y % m;
    assert q * (w * m) == (q * w) * m;
    assert x == (q * w + q1) * m + r1;
    ModUnique(x, m, q * w + q1, r1);
  }

  /** Reducing modulo 2^64 first does not change the remainder modulo a smaller power of two. */
  lemma WrapThenMask(x: int, k: nat)
    requires k <= 64
    ensures And(x % WORD, Pow2(k) - 1) == x % Pow2(k)
  {
    WordIsPow2();
    Pow2Add(64 - k, k);
    MaskIsMod(x % WORD, k);
    ModOfMod(x, Pow2(64 - k), Pow2(k));
  }

  lemma WordIsPow2()
    ensures Pow2(63) == 0x8000_0000_0000_0000
    ensures Pow2(64) == WORD
  {
    Pow2Add(8, 8);
    assert Pow2(8) == 256;
    Pow2Add(16, 16);
    Pow2Add(32, 31);
    Pow2Add(16, 15);
    Pow2Add(8, 7);
    assert Pow2(7) == 128;
  }

  lemma {:induction false} Pow2Add(j: nat, k: nat)
    ensures Pow2(j + k) == Pow2(j) * Pow2(k)
  {
    if j > 0 {
      Pow2Add(j - 1, k);
    }
  }

  lemma MulMonotone(i: int, j: int, m: int)
    requires i <= j && m >= 0
    ensures i * m <= j * m
  {
    assert (j - i) * m >= 0;
  }

  /** Row k, column i of an m-by-n matrix stored row by row is one of its m * n cells. */
  lemma CellInRange(k: nat, m: nat, i: nat, n: nat)
    requires k < m && i < n
    ensures k * n + i < m * n
  {
    MulMonotone(k + 1, m, n);
    assert (k + 1) * n == k * n + n;
  }
}
