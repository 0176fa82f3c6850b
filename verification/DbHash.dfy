/** The hash of a key: which chain of the index file its record belongs on. */
module DbHash {
  const NHASH := 137

  /** A character as a signed char holds it. */
  function SignedChar(c: char): int {
    if c as int < 128 then c as int else c as int - 256
  }

  /** The characters times their 1-based positions, summed without wrapping. */
  function Weighted(key: string, n: nat): int
    requires n <= |key|
  {
    if n == 0 then 0 else Weighted(key, n - 1) + SignedChar(key[n - 1]) * n
  }

  const ULONG := 0x1_0000_0000_0000_0000

  function Hash(key: string): (h: nat)
    ensures h < NHASH
  {
    Weighted(key, |key|) % ULONG % NHASH
  }

  /** The number of the list a key belongs on; list 0 is the free list. */
  function ListOf(key: string): nat {
    Hash(key) + 1
  }

  /** The loop of _db_hash, wrapping at every step, computes the wrapped sum. */
  method HashKey(key: string) returns (h: nat)
    ensures h == Hash(key)
  {
    var hval: nat := 0;
    var i := 0;
    while i < |key|
      invariant 0 <= i <= |key|
      invariant hval == Weighted(key, i) % ULONG
    {
      WrapAdd(Weighted(key, i), SignedChar(key[i]) * (i + 1));
      hval := (hval + SignedChar(key[i]) * (i + 1)) % ULONG;
      i := i + 1;
    }
    h := hval % NHASH;
  }

  lemma WrapAdd(a: int, b: int)
    ensures (a % ULONG + b) % ULONG == (a + b) % ULONG
  {
    var q := a / ULONG;
    assert a == q * ULONG + a % ULONG;
    var x := a % ULONG + b;
    assert a + b == x + q * ULONG;
    assert x == (x / ULONG) * ULONG + x % ULONG;
  }
}
