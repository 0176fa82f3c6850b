/**
 Thread-local storage: where the block of each loaded DSO goes, above the thread
 pointer or below it, and how the allocation of a DSO that is loaded later is cut
 into vectors and copies for the threads that already exist. Offsets are
 rounded with masks of 64-bit words.
 */
module Tls {
  import opened Powers

  /** One block: where its image lies, its size and alignment, and the offset it was given. */
  datatype Block = Block(image: int, size: nat, align: nat, offset: int)

  // ---- Static blocks ----

  /** The block's first address, relative to the thread pointer. */
  function Low(above: bool, b: Block): int {
    if above then b.offset else -b.offset
  }

  function High(above: bool, b: Block): int {
    Low(above, b) + b.size
  }

  ghost predicate Congruent(x: int, image: int, align: nat) {
    align > 0 && (x - image) % align == 0
  }

  /** Inside the space used so far, aligned like its image, its alignment dividing the common one. */
  ghost predicate Placed(above: bool, b: Block, offset: int, align: nat) {
    && (if above then 0 <= Low(above, b) && High(above, b) <= offset else -offset <= Low(above, b) && High(above, b) <= 0)
    && IsPow2(b.align) && Congruent(Low(above, b), b.image, b.align) && align % b.align == 0
  }

  ghost predicate Apart(above: bool, blocks: seq<Block>, i: int, j: int) {
    0 <= i < j < |blocks| ==>
      High(above, blocks[i]) <= Low(above, blocks[j]) || High(above, blocks[j]) <= Low(above, blocks[i])
  }

  ghost predicate PlacedAt(above: bool, blocks: seq<Block>, i: int, offset: int, align: nat) {
    0 <= i < |blocks| ==> Placed(above, blocks[i], offset, align)
  }

  /** What a mask adds to an offset to make it congruent to the image. */
  lemma RoundUp(offset: int, image: int, align: nat)
    requires IsPow2(align) && align < WORDS
    ensures var r := And(align - 1, Word(image - offset)); r < align && Congruent(offset + r, image, align)
  {
    MaskOfWord(align, image - offset);
    RoundedUp(offset, image, align);
  }

  lemma RoundedUp(offset: int, image: int, align: nat)
    requires align > 0
    ensures var r := (image - offset) % align; 0 <= r < align && Congruent(offset + r, image, align)
  {
    var r := (image - offset) % align;
    var q := (image - offset) / align;
    assert offset + r - image == -q * align + 0 by {
      assert image - offset == align * q + r;
    }
    DivMod(offset + r - image, align, -q, 0);
  }

  /** What a mask takes off an offset below the thread pointer. */
  lemma RoundDown(t: int, image: int, align: nat)
    requires IsPow2(align) && align < WORDS
    ensures var r := And(align - 1, Word(t + image)); r < align && Congruent(-(t - r), image, align)
  {
    RoundUp(-t, image, align);
    assert image - -t == t + image && -t + And(align - 1, Word(t + image)) == -(t - And(align - 1, Word(t + image)));
  }

  lemma StillDivides(a: nat, b: nat, c: nat)
    requires IsPow2(a) && IsPow2(b) && IsPow2(c) && b % a == 0 && b <= c
    ensures c % a == 0
  {
    Smaller(b, a);
    Divides(a, c);
  }

  /** The new block lies beyond all others; the offset and the common alignment grow. */
  lemma Extend(above: bool, blocks: seq<Block>, offset: int, align: nat, b: Block, newOffset: int, newAlign: nat)
    requires IsPow2(align) && offset <= newOffset && IsPow2(newAlign) && align <= newAlign
    requires forall i: int :: PlacedAt(above, blocks, i, offset, align)
    requires forall i: int, j: int :: Apart(above, blocks, i, j)
    requires Placed(above, b, newOffset, newAlign)
    requires if above then offset <= Low(above, b) else High(above, b) <= -offset
    ensures forall i: int :: PlacedAt(above, blocks + [b], i, newOffset, newAlign)
    ensures forall i: int, j: int :: Apart(above, blocks + [b], i, j)
  {
    var all := blocks + [b];
    forall i: int
      ensures PlacedAt(above, all, i, newOffset, newAlign)
    {
      assert PlacedAt(above, blocks, i, offset, align);
      if 0 <= i < |blocks| {
        StillDivides(blocks[i].align, align, newAlign);
      }
    }
    forall i: int, j: int
      ensures Apart(above, all, i, j)
    {
      assert Apart(above, blocks, i, j) && PlacedAt(above, blocks, i, offset, align);
    }
  }

  lemma Common(a: nat, b: nat)
    requires IsPow2(a) && IsPow2(b) && a < WORDS && b < WORDS
    ensures MaxP2(a, b) == (if a <= b then b else a) && MaxP2(a, b) % b == 0
  {
    MaxByMasks(a, b);
    Divides(b, if a <= b then b else a);
  }

  class Layout {
    /** Whether blocks lie above the thread pointer, and how far the first; fixed for an architecture. */
    const above: bool
    const gap: nat
    var offset: int
    var align: nat
    var blocks: seq<Block>

    ghost predicate Valid()
      reads this
    {
      && IsPow2(align) && align < WORDS && offset >= 0
      && (forall i: int :: PlacedAt(above, blocks, i, offset, align))
      && (forall i: int, j: int :: Apart(above, blocks, i, j))
    }

    constructor (above: bool, gap: nat, minAlign: nat)
      requires IsPow2(minAlign) && minAlign < WORDS
      ensures Valid() && blocks == [] && this.above == above && this.gap == gap && offset == 0
    {
      this.above, this.gap := above, gap;
      offset, align, blocks := 0, minAlign, [];
    }

    /** The block of the program itself, which is placed first. */
    method PlaceApp(image: int, size: nat, balign: nat)
      requires Valid() && blocks == [] && offset == 0 && IsPow2(balign) && balign < WORDS
      modifies this
      ensures Valid() && |blocks| == 1 && blocks[0] == Block(image, size, balign, blocks[0].offset)
      ensures above ==> blocks[0].offset >= gap
      ensures offset < (if above then gap else 0) + size + balign
    {
      var o, end: int;
      if above {
        RoundUp(gap, image, balign);
        o := gap + And(balign - 1, Word(image - gap));
        end := o + size;
      } else {
        AppBelow(image, size, balign);
        o := size + And(balign - 1, Word(-(image + size)));
        end := o;
      }
      Add(Block(image, size, balign, o), end);
    }

    /** The block of a DSO that is loaded, next to the space used so far. */
    method Place(image: int, size: nat, balign: nat)
      requires Valid() && IsPow2(balign) && balign < WORDS
      modifies this
      ensures Valid() && |blocks| == |old(blocks)| + 1 && old(blocks) <= blocks
      ensures blocks[|old(blocks)|] == Block(image, size, balign, blocks[|old(blocks)|].offset)
      ensures old(offset) + size <= offset < old(offset) + size + balign
    {
      var o, end: int;
      if above {
        RoundUp(offset, image, balign);
        o := offset + And(balign - 1, Word(image - offset));
        end := o + size;
      } else {
        var t := offset + (size + balign - 1);
        RoundDown(t, image, balign);
        o := t - And(balign - 1, Word(t + image));
        end := o;
      }
      Add(Block(image, size, balign, o), end);
    }

    /** The block is added behind the others, and the common alignment is the larger of the two. */
    method Add(b: Block, end: int)
      requires Valid() && IsPow2(b.align) && b.align < WORDS && offset <= end
      requires if above then offset <= Low(above, b) && High(above, b) <= end
               else High(above, b) <= -offset && -end <= Low(above, b)
      requires Congruent(Low(above, b), b.image, b.align)
      modifies this
      ensures Valid() && offset == end && blocks == old(blocks) + [b]
      ensures align == if old(align) <= b.align then b.align else old(align)
    {
      Common(align, b.align);
      var m := MaxP2(align, b.align);
      Extend(above, blocks, offset, align, b, end, m);
      offset := end;
      align := m;
      blocks := blocks + [b];
    }
  }

  lemma AppBelow(image: int, size: nat, align: nat)
    requires IsPow2(align) && align < WORDS
    ensures var r := And(align - 1, Word(-(image + size))); r < align && Congruent(-(size + r), image, align)
  {
    MaskOfWord(align, -(image + size));
    LessRemainder(-(image + size), align);
    var r := And(align - 1, Word(-(image + size)));
    assert -(image + size) - r == -(size + r) - image;
  }

  lemma LessRemainder(x: int, align: nat)
    requires align > 0
    ensures 0 <= x % align < align && (x - x % align) % align == 0
  {
    DivMod(x - x % align, align, x / align, 0);
  }

  /** With the thread pointer at a multiple of the common alignment every block is aligned like its image. */
  lemma AlignedAddress(above: bool, b: Block, offset: int, align: nat, tp: int)
    requires align > 0 && Placed(above, b, offset, align) && tp % align == 0
    ensures Congruent(tp + Low(above, b), b.image, b.align)
  {
    var x, a := Low(above, b) - b.image, b.align;
    assert tp == (tp / align) * align && align == (align / a) * a && x == (x / a) * a;
    assert (tp / align) * align == ((tp / align) * (align / a)) * a;
    DivMod(tp + x, a, (tp / align) * (align / a) + x / a, 0);
  }

  // ---- The allocation of a DSO that existing threads get copies from ----

  const WORD := 8

  /** The sizes that matter: record, name, threads, block, and the number of blocks before this one. */
  datatype Alloc = Alloc(base: nat, record: nat, name: nat, threads: nat, size: nat, align: nat, count: nat)

  function Bytes(a: Alloc): nat {
    a.record + a.name + 1 + a.threads * (a.size + a.align + WORD * (a.count + 3))
  }

  /** The vectors begin at the first word boundary after the name and its terminator. */
  function NewDtv(a: Alloc): nat {
    (a.base + a.record + a.name + WORD) / WORD * WORD
  }

  /** Row i of the vectors, which have one word more than there are blocks now. */
  function Row(a: Alloc, i: nat): nat {
    NewDtv(a) + i * (WORD * (a.count + 2))
  }

  function NewTls(a: Alloc): nat {
    Row(a, a.threads)
  }

  /** The space of copy j, and the copy inside it, which starts where it is aligned like the image. */
  function Space(a: Alloc, j: nat): nat {
    NewTls(a) + j * (a.size + a.align)
  }

  function Copy(a: Alloc, image: nat, j: nat): int
    requires a.align > 0
  {
    Space(a, j) + (image - Space(a, j)) % a.align
  }

  lemma Steps(i: nat, j: nat, k: nat)
    requires i < j
    ensures i * k + k <= j * k
  {
    assert (j - i - 1) * k >= 0;
  }

  /** The vectors are word-aligned, behind the name's terminator, one after another, before the copies. */
  lemma RowsApart(a: Alloc, i: nat, j: nat)
    requires i < j <= a.threads
    ensures a.base + a.record + a.name + 1 <= NewDtv(a) <= Row(a, i)
    ensures Row(a, i) % WORD == 0
    ensures Row(a, i) + WORD * (a.count + 2) <= Row(a, j) <= NewTls(a)
  {
    Steps(i, j, WORD * (a.count + 2));
    if j < a.threads {
      Steps(j, a.threads, WORD * (a.count + 2));
    }
    var w := (a.base + a.record + a.name + WORD) / WORD + i * (a.count + 2);
    assert Row(a, i) == w * WORD;
  }

  /** The copies are aligned like the image, one after another, and inside the allocation. */
  lemma CopiesApart(a: Alloc, image: nat, i: nat, j: nat)
    requires a.align > 0 && i < j <= a.threads
    ensures NewTls(a) <= Space(a, i) <= Copy(a, image, i) && Congruent(Copy(a, image, i), image, a.align)
    ensures Copy(a, image, i) + a.size <= Space(a, j) <= Space(a, a.threads) < a.base + Bytes(a)
  {
    RoundedUp(Space(a, i), image, a.align);
    Steps(i, j, a.size + a.align);
    if j < a.threads {
      Steps(j, a.threads, a.size + a.align);
    }
    Fits(a);
  }

  lemma Fits(a: Alloc)
    requires a.threads > 0
    ensures Space(a, a.threads) < a.base + Bytes(a)
  {
    var n, b, w := a.threads, a.size + a.align, a.count + 2;
    assert n * (b + WORD * (w + 1)) == n * b + n * (WORD * w) + n * WORD;
    assert NewDtv(a) <= a.base + a.record + a.name + WORD;
  }

  lemma CopyByMask(a: Alloc, image: nat, j: nat)
    requires IsPow2(a.align) && a.align < WORDS
    ensures Space(a, j) + And(a.align - 1, Word(image - Space(a, j))) == Copy(a, image, j)
    ensures Space(a, j + 1) == Space(a, j) + (a.size + a.align)
  {
    MaskOfWord(a.align, image - Space(a, j));
  }

  /** The loop over the threads that places the copies of one DSO's image. */
  method InstallCopies(a: Alloc, image: nat) returns (copies: seq<int>)
    requires IsPow2(a.align) && a.align < WORDS
    ensures |copies| == a.threads && forall j | 0 <= j < a.threads :: copies[j] == Copy(a, image, j)
  {
    copies := [];
    var mem := NewTls(a);
    for j := 0 to a.threads
      invariant mem == Space(a, j) && |copies| == j
      invariant forall k | 0 <= k < j :: copies[k] == Copy(a, image, k)
    {
      CopyByMask(a, image, j);
      copies := copies + [mem + And(a.align - 1, Word(image - mem))];
      mem := mem + (a.size + a.align);
    }
  }
}
