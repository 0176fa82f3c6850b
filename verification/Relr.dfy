/**
 Relative relocations in the packed form of the System V gABI, chapter 4, section
 "Relocation": an even entry is an address, an odd entry a bitmap for the words
 that follow. Memory is a map from addresses of 64-bit words to their values.
 */
module Relr {
  import opened Powers

  const BYTES := 8
  const BITS := 64

  type Memory = map<nat, nat>

  // ---- The list of addresses ----

  /** The addresses of a bitmap's bits 1 to n; bit k stands for word k - 1 after where. */
  function BitAddresses(bitmap: nat, where: nat, n: nat): seq<nat> {
    if n == 0 then []
    else BitAddresses(bitmap, where, n - 1) + if BitOf(bitmap, n) then [where + (n - 1) * BYTES] else []
  }

  function EntryAddresses(entry: nat, where: nat): seq<nat> {
    if entry % 2 == 0 then [entry] else BitAddresses(entry, where, BITS - 1)
  }

  function After(entry: nat, where: nat): nat {
    if entry % 2 == 0 then entry + BYTES else where + (BITS - 1) * BYTES
  }

  /** Where the word after the last one covered by the first n entries is. */
  function Where(entries: seq<nat>, n: nat): nat
    requires n <= |entries|
  {
    if n == 0 then 0 else After(entries[n - 1], Where(entries, n - 1))
  }

  /** All addresses of the first n entries, entry by entry. */
  function Addresses(entries: seq<nat>, n: nat): seq<nat>
    requires n <= |entries|
  {
    if n == 0 then []
    else Addresses(entries, n - 1) + EntryAddresses(entries[n - 1], Where(entries, n - 1))
  }

  /** The memory after the base has been added once for each address of the list. */
  function Relocated(m: Memory, base: nat, list: seq<nat>): Memory {
    if list == [] then m else Bumped(Relocated(m, base, list[..|list| - 1]), base, list[|list| - 1])
  }

  function Bumped(m: Memory, base: nat, a: nat): Memory {
    if base + a in m then m[base + a := (m[base + a] + base) % WORDS] else m
  }

  lemma {:induction false} RelocatedThen(m: Memory, base: nat, a: seq<nat>, b: seq<nat>)
    ensures Relocated(m, base, a + b) == Relocated(Relocated(m, base, a), base, b)
    decreases b
  {
    if b == [] {
      assert a + b == a;
    } else {
      var n := |b| - 1;
      RelocatedThen(m, base, a, b[..n]);
      assert (a + b)[..|a + b| - 1] == a + b[..n];
    }
  }

  lemma {:induction false} RelocatedKeys(m: Memory, base: nat, list: seq<nat>)
    ensures Relocated(m, base, list).Keys == m.Keys
  {
    if list != [] {
      RelocatedKeys(m, base, list[..|list| - 1]);
    }
  }

  /** How often the list names the word at w. */
  function Occurs(list: seq<nat>, base: nat, w: nat): nat {
    if list == [] then 0
    else Occurs(list[..|list| - 1], base, w) + if base + list[|list| - 1] == w then 1 else 0
  }

  /** What the list adds to the word at w: the base, once for each time it is named. */
  function Gain(list: seq<nat>, base: nat, w: nat): nat {
    if list == [] then 0
    else Gain(list[..|list| - 1], base, w) + if base + list[|list| - 1] == w then base else 0
  }

  lemma {:induction false} GainIs(list: seq<nat>, base: nat, w: nat)
    ensures Gain(list, base, w) == Occurs(list, base, w) * base
  {
    if list != [] {
      GainIs(list[..|list| - 1], base, w);
    }
  }

  lemma {:induction false} RelocatedGain(m: Memory, base: nat, list: seq<nat>, w: nat)
    requires w in m && m[w] < WORDS
    ensures w in Relocated(m, base, list)
    ensures Relocated(m, base, list)[w] == (m[w] + Gain(list, base, w)) % WORDS
  {
    if list != [] {
      var before := list[..|list| - 1];
      RelocatedGain(m, base, before, w);
      RelocatedKeys(m, base, before);
      ModSum(m[w] + Gain(before, base, w), base);
    }
  }

  ghost predicate WordMoved(m: Memory, m': Memory, base: nat, list: seq<nat>, w: nat) {
    w in m && m[w] < WORDS ==> w in m' && m'[w] == (m[w] + Occurs(list, base, w) * base) % WORDS
  }

  /** Word by word: the base is added as often as the list names the word, and other words stay as they are. */
  lemma RelocatedWord(m: Memory, base: nat, list: seq<nat>, w: nat)
    ensures WordMoved(m, Relocated(m, base, list), base, list, w)
    ensures w in m && Occurs(list, base, w) == 0 ==> w in Relocated(m, base, list) && Relocated(m, base, list)[w] == m[w]
  {
    if w in m && m[w] < WORDS {
      RelocatedGain(m, base, list, w);
      GainIs(list, base, w);
    }
    if Occurs(list, base, w) == 0 {
      NotNamed(m, base, list, w);
    }
  }

  lemma {:induction false} NotNamed(m: Memory, base: nat, list: seq<nat>, w: nat)
    requires Occurs(list, base, w) == 0
    ensures w in m ==> w in Relocated(m, base, list) && Relocated(m, base, list)[w] == m[w]
  {
    if list != [] {
      NotNamed(m, base, list[..|list| - 1], w);
    }
  }

  lemma ModSum(x: nat, y: nat)
    ensures (x % WORDS + y) % WORDS == (x + y) % WORDS
  {
    assert x == x / WORDS * WORDS + x % WORDS;
  }

  /** Beyond the highest bit set there are no addresses. */
  lemma {:induction false} NoMoreBits(bitmap: nat, where: nat, n: nat, k: nat)
    requires n <= k && Shifted(bitmap, n + 1) == 0
    ensures BitAddresses(bitmap, where, k) == BitAddresses(bitmap, where, n)
    decreases k
  {
    if n < k {
      NoMoreBits(bitmap, where, n, k - 1);
      StaysOut(bitmap, n + 1, k);
    }
  }

  lemma {:induction false} StaysOut(x: nat, i: nat, j: nat)
    requires i <= j && Shifted(x, i) == 0
    ensures Shifted(x, j) == 0
    decreases j
  {
    if i < j {
      StaysOut(x, i, j - 1);
    }
  }

  lemma OneBump(m: Memory, base: nat, a: nat)
    ensures Relocated(m, base, [a]) == Bumped(m, base, a)
  {
    assert [a][..0] == [];
  }

  lemma NextBit(m: Memory, base: nat, entry: nat, where: nat, i: nat)
    ensures var done := Relocated(m, base, BitAddresses(entry, where, i));
      Relocated(m, base, BitAddresses(entry, where, i + 1)) ==
        if BitOf(entry, i + 1) then Bumped(done, base, where + i * BYTES) else done
  {
    var done := BitAddresses(entry, where, i);
    if BitOf(entry, i + 1) {
      RelocatedThen(m, base, done, [where + i * BYTES]);
      OneBump(Relocated(m, base, done), base, where + i * BYTES);
    } else {
      assert BitAddresses(entry, where, i + 1) == done;
    }
  }

  // ---- The loops ----

  class Image {
    var mem: Memory

    /** Adds the base to the words of one bitmap, and stops when no bit is left. */
    method DoBitmap(base: nat, entry: nat, where: nat)
      requires entry < WORDS && BitsCovered(mem.Keys, base, entry, where)
      modifies this
      ensures mem == Relocated(old(mem), base, BitAddresses(entry, where, BITS - 1))
    {
      var i := 0;
      var bitmap := entry / 2;
      while bitmap != 0
        invariant 0 <= i <= BITS - 1 && bitmap == Shifted(entry, i + 1)
        invariant mem == Relocated(old(mem), base, BitAddresses(entry, where, i))
        decreases bitmap
      {
        RelocatedKeys(old(mem), base, BitAddresses(entry, where, i));
        TopBit(entry, i);
        NextBit(old(mem), base, entry, where, i);
        if bitmap % 2 == 1 {
          var a := base + where + i * BYTES;
          assert BitOf(entry, i + 1) && a in mem;
          mem := mem[a := (mem[a] + base) % WORDS];
        }
        bitmap := bitmap / 2;
        i := i + 1;
      }
      NoMoreBits(entry, where, i, BITS - 1);
    }

    method DoWord(base: nat, entry: nat)
      requires base + entry in mem
      modifies this
      ensures mem == Relocated(old(mem), base, [entry])
    {
      OneBump(mem, base, entry);
      mem := mem[base + entry := (mem[base + entry] + base) % WORDS];
    }

    /** All entries: the memory is relocated at every address of the expanded list. */
    method DoRelr(base: nat, entries: seq<nat>)
      requires entries != [] ==> entries[0] % 2 == 0
      requires forall i | 0 <= i < |entries| :: entries[i] < WORDS && Covered(mem.Keys, base, entries, i)
      modifies this
      ensures mem == Relocated(old(mem), base, Addresses(entries, |entries|)) && mem.Keys == old(mem).Keys
      ensures forall w: nat :: WordMoved(old(mem), mem, base, Addresses(entries, |entries|), w)
    {
      var where := 0;
      for n := 0 to |entries|
        invariant where == Where(entries, n)
        invariant mem == Relocated(old(mem), base, Addresses(entries, n))
      {
        ghost var done := Addresses(entries, n);
        RelocatedKeys(old(mem), base, done);
        RelocatedThen(old(mem), base, done, EntryAddresses(entries[n], where));
        assert Covered(old(mem).Keys, base, entries, n);
        if entries[n] % 2 == 0 {
          DoWord(base, entries[n]);
          where := entries[n] + BYTES;
        } else {
          DoBitmap(base, entries[n], where);
          where := where + (BITS - 1) * BYTES;
        }
      }
      RelocatedKeys(old(mem), base, Addresses(entries, |entries|));
      forall w: nat
        ensures WordMoved(old(mem), mem, base, Addresses(entries, |entries|), w)
      {
        RelocatedWord(old(mem), base, Addresses(entries, |entries|), w);
      }
    }
  }

  ghost predicate BitsCovered(words: set<nat>, base: nat, entry: nat, where: nat) {
    forall k: nat | 1 <= k < BITS && BitOf(entry, k) :: base + where + (k - 1) * BYTES in words
  }

  /** The words of an entry exist. */
  ghost predicate Covered(words: set<nat>, base: nat, entries: seq<nat>, n: nat)
    requires n < |entries|
  {
    if entries[n] % 2 == 0 then base + entries[n] in words
    else BitsCovered(words, base, entries[n], Where(entries, n))
  }

  /** An entry has no bits from 64 on. */
  lemma TopBit(entry: nat, i: nat)
    requires entry < WORDS && i <= BITS - 1 && Shifted(entry, i + 1) != 0
    ensures i < BITS - 1
  {
    Pow64();
    ShiftedOut(entry, BITS);
  }

  lemma Pow64()
    ensures Pow2(64) == WORDS
  {
    assert Pow2(8) == 256;
    assert Pow2(16) == 0x1_0000;
    assert Pow2(24) == 0x100_0000;
    assert Pow2(32) == 0x1_0000_0000;
    assert Pow2(40) == 0x100_0000_0000;
    assert Pow2(48) == 0x1_0000_0000_0000;
    assert Pow2(56) == 0x100_0000_0000_0000;
  }
}
