/**
 Files as tilings. A file is the concatenation of its tiles, so every byte
 belongs to exactly one of them; overwriting a tile in place leaves the others
 alone, and appending adds one.
 */
module Tiles {

  /** The first n tiles, laid end to end. */
  ghost function Flat<T>(ss: seq<seq<T>>, n: nat): seq<T>
    requires n <= |ss|
  {
    if n == 0 then [] else Flat(ss, n - 1) + ss[n - 1]
  }

  ghost function Flatten<T>(ss: seq<seq<T>>): seq<T> {
    Flat(ss, |ss|)
  }

  /** The offset at which tile i begins. */
  ghost function Start<T>(ss: seq<seq<T>>, i: nat): nat
    requires i <= |ss|
  {
    |Flat(ss, i)|
  }

  /** pwrite: overwrites from an offset on, growing the file when it runs over the end. */
  function WriteAt<T>(file: seq<T>, off: nat, b: seq<T>): seq<T>
    requires off <= |file|
  {
    file[..off] + b + if off + |b| <= |file| then file[off + |b|..] else []
  }

  lemma WriteFront<T>(a: seq<T>, z: seq<T>, off: nat, b: seq<T>)
    requires off + |b| <= |a|
    ensures WriteAt(a + z, off, b) == WriteAt(a, off, b) + z
  {
    assert (a + z)[..off] == a[..off];
    assert (a + z)[off + |b|..] == a[off + |b|..] + z;
  }

  lemma WriteBack<T>(a: seq<T>, z: seq<T>, off: nat, b: seq<T>)
    requires off <= |z|
    ensures WriteAt(a + z, |a| + off, b) == a + WriteAt(z, off, b)
  {
    assert (a + z)[..|a| + off] == a + z[..off];
    if off + |b| <= |z| {
      assert (a + z)[|a| + off + |b|..] == z[off + |b|..];
    }
  }

  lemma WriteEnd<T>(file: seq<T>, b: seq<T>)
    ensures WriteAt(file, |file|, b) == file + b
  {
    assert file[..|file|] == file;
  }

  lemma {:induction false} SameTiles<T>(ss: seq<seq<T>>, tt: seq<seq<T>>, n: nat)
    requires n <= |ss| && n <= |tt| && forall k | 0 <= k < n :: ss[k] == tt[k]
    ensures Flat(ss, n) == Flat(tt, n)
  {
    if n > 0 {
      SameTiles(ss, tt, n - 1);
    }
  }

  lemma {:induction false} TileIn<T>(ss: seq<seq<T>>, i: nat, n: nat)
    requires i < n <= |ss|
    ensures Start(ss, i) + |ss[i]| <= Start(ss, n)
    ensures Flat(ss, n)[Start(ss, i)..Start(ss, i) + |ss[i]|] == ss[i]
  {
    if i < n - 1 {
      TileIn(ss, i, n - 1);
      var f := Flat(ss, n - 1);
      assert (f + ss[n - 1])[Start(ss, i)..Start(ss, i) + |ss[i]|]
          == f[Start(ss, i)..Start(ss, i) + |ss[i]|];
    }
  }

  lemma TileAt<T>(ss: seq<seq<T>>, i: nat)
    requires i < |ss|
    ensures Start(ss, i) + |ss[i]| <= |Flatten(ss)|
    ensures Flatten(ss)[Start(ss, i)..Start(ss, i) + |ss[i]|] == ss[i]
  {
    TileIn(ss, i, |ss|);
  }

  /** Tiles of equal width begin at multiples of the width. */
  lemma {:induction false} EvenStarts<T>(ss: seq<seq<T>>, w: nat, i: nat)
    requires i <= |ss| && forall k | 0 <= k < i :: |ss[k]| == w
    ensures Start(ss, i) == w * i
  {
    if i > 0 {
      EvenStarts(ss, w, i - 1);
    }
  }

  /** Equally long tiles leave all offsets where they are. */
  lemma {:induction false} SameStarts<T>(ss: seq<seq<T>>, tt: seq<seq<T>>, i: nat)
    requires i <= |ss| && i <= |tt| && forall k | 0 <= k < i :: |ss[k]| == |tt[k]|
    ensures Start(ss, i) == Start(tt, i)
  {
    if i > 0 {
      SameStarts(ss, tt, i - 1);
    }
  }

  lemma {:induction false} WriteIn<T>(ss: seq<seq<T>>, i: nat, b: seq<T>, n: nat)
    requires i < n <= |ss| && |b| <= |ss[i]|
    ensures Start(ss, i) + |b| <= Start(ss, n)
    ensures WriteAt(Flat(ss, n), Start(ss, i), b) == Flat(ss[i := b + ss[i][|b|..]], n)
  {
    var tt := ss[i := b + ss[i][|b|..]];
    if i == n - 1 {
      SameTiles(ss, tt, i);
      WriteBack(Flat(ss, i), ss[i], 0, b);
    } else {
      WriteIn(ss, i, b, n - 1);
      WriteFront(Flat(ss, n - 1), ss[n - 1], Start(ss, i), b);
    }
  }

  /** Writing at the start of a tile, within it, replaces the front of that tile only. */
  lemma WriteTile<T>(ss: seq<seq<T>>, i: nat, b: seq<T>)
    requires i < |ss| && |b| <= |ss[i]|
    ensures Start(ss, i) + |b| <= |Flatten(ss)|
    ensures WriteAt(Flatten(ss), Start(ss, i), b) == Flatten(ss[i := b + ss[i][|b|..]])
  {
    WriteIn(ss, i, b, |ss|);
  }

  lemma AppendTile<T>(ss: seq<seq<T>>, b: seq<T>)
    ensures Flatten(ss + [b]) == Flatten(ss) + b
    ensures forall i | 0 <= i <= |ss| :: Start(ss + [b], i) == Start(ss, i)
  {
    forall i | 0 <= i <= |ss|
      ensures Flat(ss + [b], i) == Flat(ss, i)
    {
      SameTiles(ss + [b], ss, i);
    }
  }
}
