/** Powers of two, and masks of 64-bit words. */
module Powers {

  function Pow2(k: nat): (p: nat)
    ensures p > 0
  {
    if k == 0 then 1 else 2 * Pow2(k - 1)
  }

  predicate IsPow2(n: nat)
    ensures IsPow2(n) ==> n > 0
  {
    n > 0 && (n == 1 || (n % 2 == 0 && IsPow2(n / 2)))
  }

  /** The number shifted right by k places. */
  function Shifted(x: nat, k: nat): nat {
    if k == 0 then x else Shifted(x, k - 1) / 2
  }

  /** Bit k of a number. */
  predicate BitOf(w: nat, k: nat) {
    Shifted(w, k) % 2 == 1
  }

  lemma {:induction false} ShiftFirst(x: nat, k: nat)
    ensures Shifted(x / 2, k) == Shifted(x, k + 1)
  {
    if k > 0 {
      ShiftFirst(x, k - 1);
    }
  }

  /** A number below 2^k has no bits from k on. */
  lemma {:induction false} ShiftedOut(x: nat, k: nat)
    requires x < Pow2(k)
    ensures Shifted(x, k) == 0
  {
    if k > 0 {
      ShiftedOut(x / 2, k - 1);
      ShiftFirst(x, k - 1);
    }
  }

  /** Of two powers of two the larger is a multiple of the smaller. */
  lemma {:induction false} Divides(a: nat, b: nat)
    requires IsPow2(a) && IsPow2(b) && a <= b
    ensures b % a == 0
  {
    if a > 1 {
      Divides(a / 2, b / 2);
      var k := (b / 2) / (a / 2);
      assert b == 2 * (k * (a / 2)) == k * a;
      Multiple(k, a);
    }
  }

  lemma Multiple(k: nat, a: nat)
    requires a > 0
    ensures k * a % a == 0
  {
    DivMod(k * a, a, k, 0);
  }

  /** Quotient and remainder are the only ones. */
  lemma DivMod(x: int, a: int, q: int, r: int)
    requires a > 0 && x == q * a + r && 0 <= r < a
    ensures x / a == q && x % a == r
  {
    var d := x / a - q;
    assert x == a * (x / a) + x % a;
    assert d * a == r - x % a by {
      assert (x / a - q) * a == (x / a) * a - q * a;
    }
    Spread(d, a);
  }

  lemma Smaller(x: nat, a: nat)
    requires a > 0
    ensures x < a ==> x % a == x
  {
    if x < a {
      DivMod(x, a, 0, x);
    }
  }

  lemma Spread(d: int, a: int)
    requires a > 0
    ensures d >= 1 ==> d * a >= a
    ensures d <= -1 ==> d * a <= -a
  {
  }

  // ---- Masks of 64-bit words ----

  const WORDS: nat := 0x1_0000_0000_0000_0000

  /** The number that a word holds after an operation that may have left the range. */
  function Word(x: int): nat {
    x % WORDS
  }

  lemma WordsIsPow2()
    ensures IsPow2(WORDS)
  {
    assert IsPow2(0x1_0000);
    Product(0x1_0000, 0x1_0000);
    Product(0x1_0000_0000, 0x1_0000_0000);
  }

  lemma {:induction false} Product(a: nat, b: nat)
    requires IsPow2(a) && IsPow2(b)
    ensures IsPow2(a * b)
  {
    if a > 1 {
      Product(a / 2, b);
      assert a * b == 2 * (a / 2 * b);
    }
  }

  /** The bitwise and. */
  function And(x: nat, y: nat): nat {
    if x == 0 || y == 0 then 0 else 2 * And(x / 2, y / 2) + if x % 2 == 1 && y % 2 == 1 then 1 else 0
  }

  lemma AndOdd(u: nat, x: nat)
    ensures And(2 * u + 1, x) == 2 * And(u, x / 2) + x % 2
  {
    assert (2 * u + 1) / 2 == u && (2 * u + 1) % 2 == 1;
  }

  lemma AndEven(u: nat, v: nat)
    ensures And(2 * u, 2 * v) == 2 * And(u, v)
  {
    assert 2 * u / 2 == u && 2 * v / 2 == v;
  }

  /** The quotient by a power of two, halving both. */
  function Quotient(x: nat, a: nat): nat
    requires IsPow2(a)
  {
    if a == 1 then x else Quotient(x / 2, a / 2)
  }

  lemma {:induction false} MaskSplits(a: nat, x: nat)
    requires IsPow2(a)
    ensures x == Quotient(x, a) * a + And(a - 1, x) && And(a - 1, x) < a
  {
    if a > 1 {
      var h, q := a / 2, Quotient(x / 2, a / 2);
      MaskSplits(h, x / 2);
      AndOdd(h - 1, x);
      Doubled(q, h, a);
    }
  }

  lemma Doubled(q: nat, h: nat, a: nat)
    requires a == 2 * h
    ensures q * a == 2 * (q * h)
  {
  }

  /** The mask with a power of two less one is the remainder. */
  lemma {:induction false} MaskIsMod(a: nat, x: nat)
    requires IsPow2(a)
    ensures And(a - 1, x) == x % a
  {
    MaskSplits(a, x);
    DivMod(x, a, Quotient(x, a), And(a - 1, x));
  }

  lemma ModOfMod(x: int, m: nat, a: nat)
    requires a > 0 && m > 0 && m % a == 0
    ensures x % m % a == x % a
  {
    var q, r := x / m, x % m;
    var k := m / a;
    assert m == k * a && x == q * m + r;
    assert q * m == (q * k) * a;
    assert r == (r / a) * a + r % a;
    assert x == (q * k + r / a) * a + r % a;
    DivMod(x, a, q * k + r / a, r % a);
  }

  /** The same of a word, whatever has been subtracted in it. */
  lemma {:induction false} MaskOfWord(a: nat, x: int)
    requires IsPow2(a) && a <= WORDS
    ensures And(a - 1, Word(x)) == x % a
  {
    WordsIsPow2();
    Divides(a, WORDS);
    MaskIsMod(a, Word(x));
    ModOfMod(x, WORDS, a);
  }

  lemma {:induction false} AndSwaps(x: nat, y: nat)
    ensures And(x, y) == And(y, x)
  {
    if x > 0 && y > 0 {
      AndSwaps(x / 2, y / 2);
    }
  }

  lemma {:induction false} AndNegated(m: nat, a: nat, b: nat)
    requires IsPow2(m) && IsPow2(a) && IsPow2(b) && a <= b <= m
    ensures And(m - a, m - b) == m - b
  {
    if b < m {
      if a == 1 {
        MaskIsMod(m, m - b);
        Smaller(m - b, m);
      } else {
        AndNegated(m / 2, a / 2, b / 2);
        AndEven(m / 2 - a / 2, m / 2 - b / 2);
        assert m - a == 2 * (m / 2 - a / 2) && m - b == 2 * (m / 2 - b / 2);
      }
    }
  }

  lemma {:induction false} LargerMask(m: nat, a: nat, b: nat)
    requires IsPow2(m) && IsPow2(a) && IsPow2(b) && a <= m && b <= m
    ensures And(m - a, m - b) == m - if a <= b then b else a
  {
    if a <= b {
      AndNegated(m, a, b);
    } else {
      AndNegated(m, b, a);
      AndSwaps(m - a, m - b);
    }
  }

  function MaxP2(a: nat, b: nat): nat {
    Word(0 - And(Word(0 - a), Word(0 - b)))
  }

  lemma NegWord(a: nat)
    requires 0 < a < WORDS
    ensures Word(0 - a) == WORDS - a && Word(a - WORDS) == a
  {
    DivMod(0 - a, WORDS, -1, WORDS - a);
    DivMod(a - WORDS, WORDS, -1, a);
  }

  /** The negated mask of two negated powers of two is the larger of them. */
  lemma {:induction false} MaxByMasks(a: nat, b: nat)
    requires IsPow2(a) && IsPow2(b) && a < WORDS && b < WORDS
    ensures MaxP2(a, b) == if a <= b then b else a
  {
    WordsIsPow2();
    NegWord(a);
    NegWord(b);
    LargerMask(WORDS, a, b);
  }
}
