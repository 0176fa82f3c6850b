/**
 The two symbol hash functions. A name is the bytes of a C string without its
 terminator, and a hash is a 32-bit word: of bits for the System V hash, a
 number below 2^32 for the GNU hash.
 */
module SymHash {

  type Name = seq<bv8>

  // ---- The System V hash ----

  function Top(x: bv32): bv32 {
    x & 0xf0000000
  }

  /** The top four bits folded into bits 4 to 7. */
  function Fold(x: bv32): bv32 {
    (x >> 24) & 0xf0
  }

  function Low28(x: bv32): bv32 {
    x & 0xfffffff
  }

  /** One step of the hash function of the System V gABI, chapter 5, section "Hash Table". */
  function GabiMix(x: bv32): bv32 {
    (if Top(x) != 0 then x ^ (Top(x) >> 24) else x) & !Top(x)
  }

  function GabiNext(h: bv32, c: bv32): bv32 {
    (h << 4) + c
  }

  function GabiHash(s: Name): bv32 {
    if s == [] then 0 else GabiMix(GabiNext(GabiHash(s[..|s| - 1]), s[|s| - 1] as bv32))
  }

  /** The step that leaves the top bits in place; they are masked off only at the end. */
  function LazyMix(x: bv32): bv32 {
    x ^ Fold(x)
  }

  function LazyNext(h: bv32, c: bv32): bv32 {
    16 * h + c
  }

  lemma TopFolds(x: bv32)
    ensures Top(x) >> 24 == Fold(x)
  {
  }

  lemma TopCleared(x: bv32)
    ensures Low28(x ^ Fold(x)) == (x ^ Fold(x)) & !Top(x)
  {
  }

  lemma NothingToFold(x: bv32)
    requires Top(x) == 0
    ensures x ^ Fold(x) == x
  {
  }

  lemma MixIsGabi(x: bv32)
    ensures Low28(LazyMix(x)) == GabiMix(x)
  {
    TopFolds(x);
    TopCleared(x);
    if Top(x) == 0 {
      NothingToFold(x);
    }
  }

  lemma NextIsGabi(h: bv32, c: bv32)
    ensures LazyNext(h, c) == GabiNext(Low28(h), c)
  {
  }

  method SysvHash(s: Name) returns (r: bv32)
    ensures r == GabiHash(s)
  {
    var h: bv32 := 0;
    for i := 0 to |s|
      invariant Low28(h) == GabiHash(s[..i])
    {
      NextIsGabi(h, s[i] as bv32);
      MixIsGabi(LazyNext(h, s[i] as bv32));
      assert s[..i + 1][..i] == s[..i];
      h := LazyNext(h, s[i] as bv32);
      h := LazyMix(h);
    }
    assert s[..|s|] == s;
    r := Low28(h);
  }

  // ---- The GNU hash ----

  const WORD := 0x1_0000_0000

  /** The GNU hash: 33 times the hash so far, plus the next byte, from 5381 on. */
  function GnuHashOf(s: Name): (h: nat)
    ensures h < WORD
  {
    if s == [] then 5381 else (33 * GnuHashOf(s[..|s| - 1]) + s[|s| - 1] as nat) % WORD
  }

  method GnuHash(s: Name) returns (h: nat)
    ensures h == GnuHashOf(s)
  {
    h := 5381;
    for i := 0 to |s|
      invariant h == GnuHashOf(s[..i])
    {
      assert s[..i + 1][..i] == s[..i];
      h := (h + (h * 32 + s[i] as nat)) % WORD;
    }
    assert s[..|s|] == s;
  }
}
