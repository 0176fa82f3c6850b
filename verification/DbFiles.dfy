/**
 The files of the database: the layout in the ASCII format of db.c. The lemmas
 say that the library's primitive reads find what the image says, and that its
 primitive writes turn the files into those of the changed image.
 */
module DbFiles {
  import opened Tiles
  import opened Codec
  import opened Layout

  /** What an index record says beside its chain pointer, with the data it refers to. */
  datatype Info = Info(key: string, datoff: nat, data: string)

  ghost function TailOf(i: Info): string {
    Tail(i.key, i.datoff, |i.data| + 1)
  }

  ghost function TailLength(i: Info): nat {
    |TailOf(i)|
  }

  ghost predicate AsciiPtr(f: Format<Info>, v: nat) {
    f.ptr(v) == Padded(PTR_SZ, v)
  }

  ghost predicate AsciiRecord(f: Format<Info>, i: Info) {
    && f.body(i) == Body(i.key, i.datoff, |i.data| + 1)
    && f.dat(i) == i.data + [NEWLINE]
    && f.datoff(i) == i.datoff
  }

  ghost predicate Ascii(f: Format<Info>) {
    (forall v: nat :: AsciiPtr(f, v)) && (forall i: Info :: AsciiRecord(f, i))
  }

  ghost predicate HoldsIn(f: Format<Info>, im: Image<Info>, idx: string, dat: string) {
    Ascii(f) && Placed(f, im) && idx == IdxFile(f, im) && dat == DatFile(f, im)
  }

  ghost predicate HoldsNow(u: int, im: Image<Info>, idx: string, dat: string) {
    exists f :: HoldsIn(f, im, idx, dat)
  }

  /**
   The two files hold exactly this image, in ASCII. (The bound variable has no
   meaning: it keeps the layout out of proofs that do not name HoldsNow.)
   */
  ghost predicate Holds(im: Image<Info>, idx: string, dat: string) {
    forall u: int :: HoldsNow(u, im, idx, dat)
  }

  lemma HoldsBy(f: Format<Info>, im: Image<Info>, idx: string, dat: string)
    requires HoldsIn(f, im, idx, dat)
    ensures Holds(im, idx, dat)
  {
    forall u: int
      ensures HoldsNow(u, im, idx, dat)
    {
    }
  }

  lemma AsciiFits(f: Format<Info>)
    requires Ascii(f)
    ensures Fits(f)
  {
    forall v: nat
      ensures FitsAt(f, v)
    {
      if v <= PTR_MAX {
        assert AsciiPtr(f, v);
        PtrFieldLength(v);
      }
    }
  }

  /** A key is a C string; one with a separator can be written, but not read back. */
  ghost predicate CString(key: string) { NUL !in key }

  ghost predicate Legal(i: Info) {
    && CString(i.key)
    && DATLEN_MIN <= |i.data| + 1 <= DATLEN_MAX
    && TailFits(i.key, i.datoff, |i.data| + 1)
  }

  ghost predicate LegalAt(im: Image<Info>, o: nat) {
    o in im.info ==> Legal(im.info[o])
  }

  /** Every record of the image could have been written by a store or a delete. */
  ghost predicate AllLegal(im: Image<Info>) {
    forall o: nat :: LegalAt(im, o)
  }

  // ---- Reading ----

  lemma Slices(idx: string, o: nat, p: string, b: string)
    requires |p| == PTR_SZ && |b| >= IDXLEN_SZ && o + |p| + |b| <= |idx|
    requires idx[o..o + |p + b|] == p + b
    ensures idx[o..o + PTR_SZ] == p
    ensures idx[o + PTR_SZ..o + PTR_SZ + IDXLEN_SZ] == b[..IDXLEN_SZ]
    ensures idx[o + PTR_SZ + IDXLEN_SZ..o + PTR_SZ + |b|] == b[IDXLEN_SZ..]
  {
    var r := idx[o..o + |p + b|];
    assert idx[o..o + PTR_SZ] == r[..PTR_SZ];
    assert idx[o + PTR_SZ..o + PTR_SZ + |b|] == r[PTR_SZ..] == b;
    assert idx[o + PTR_SZ..o + PTR_SZ + IDXLEN_SZ] == b[..IDXLEN_SZ];
    assert idx[o + PTR_SZ + IDXLEN_SZ..o + PTR_SZ + |b|] == b[IDXLEN_SZ..];
  }

  /** Where record o begins, the reader finds its pointer, its length and its variable part. */
  lemma RecordReads(im: Image<Info>, idx: string, dat: string, o: nat)
    requires Holds(im, idx, dat) && o in im.info && AllLegal(im)
    ensures o in im.ptr
    ensures var t, n := TailOf(im.info[o]), PTR_SZ + IDXLEN_SZ;
            && IDXLEN_MIN <= |t| <= IDXLEN_MAX && o + n + |t| <= |idx|
            && idx[o..o + PTR_SZ] == Padded(PTR_SZ, im.ptr[o])
            && Atol(idx[o + PTR_SZ..o + n]) == |t|
            && idx[o + n..o + n + |t|] == t
  {
    assert HoldsNow(0, im, idx, dat) && LegalAt(im, o);
    var f :| HoldsIn(f, im, idx, dat);
    AsciiFits(f);
    var i := im.info[o];
    RecordAt(f, im, o);
    assert AsciiPtr(f, im.ptr[o]) && AsciiRecord(f, i);
    BodyFields(i.key, i.datoff, |i.data| + 1);
    Slices(idx, o, f.ptr(im.ptr[o]), f.body(i));
  }

  lemma RecordParses(i: Info)
    requires Legal(i)
    ensures ParseTail(TailOf(i)) ==
      if SEP in i.key then Corrupt(TooManySeparators) else Fields(i.key, i.datoff, |i.data| + 1)
  {
    RecordRoundTrip(i.key, i.datoff, |i.data| + 1);
  }

  lemma PtrReads(im: Image<Info>, idx: string, dat: string, c: nat)
    requires Holds(im, idx, dat) && c in im.ptr
    ensures c + PTR_SZ <= |idx| && Atol(idx[c..c + PTR_SZ]) == im.ptr[c]
  {
    assert HoldsNow(0, im, idx, dat);
    var f :| HoldsIn(f, im, idx, dat);
    AsciiFits(f);
    var p := f.ptr(im.ptr[c]);
    assert AsciiPtr(f, im.ptr[c]) && CellOk(im, c) && FitsAt(f, im.ptr[c]);
    AtolPadded(PTR_SZ, im.ptr[c]);
    if IsHead(c) {
      HeadAt(f, im, c);
    } else {
      RecordAt(f, im, c);
      var b := p + f.body(im.info[c]);
      assert idx[c..c + PTR_SZ] == idx[c..c + |b|][..PTR_SZ] == p;
    }
  }

  lemma DataReads(im: Image<Info>, idx: string, dat: string, o: nat)
    requires Holds(im, idx, dat) && o in im.info
    ensures var i := im.info[o];
            i.datoff + |i.data| + 1 <= |dat| &&
            dat[i.datoff..i.datoff + |i.data| + 1] == i.data + [NEWLINE]
  {
    assert HoldsNow(0, im, idx, dat);
    var f :| HoldsIn(f, im, idx, dat);
    assert AsciiRecord(f, im.info[o]);
    DataAt(f, im, o);
  }

  /** The end of the index file is beyond all cells. */
  lemma EndReads(im: Image<Info>, idx: string, dat: string)
    requires Holds(im, idx, dat)
    ensures |idx| >= HEADER && |idx| !in im.info && |idx| !in im.ptr
  {
    assert HoldsNow(0, im, idx, dat);
    var f :| HoldsIn(f, im, idx, dat);
    AsciiFits(f);
    EndIsNew(f, im);
  }

  /** The cells of an image that the files hold. */
  lemma Cell(im: Image<Info>, idx: string, dat: string, c: nat)
    requires Holds(im, idx, dat)
    ensures CellOk(im, c)
  {
    assert HoldsNow(0, im, idx, dat);
    var f :| HoldsIn(f, im, idx, dat);
  }

  /** The offset of record i, or the end of the file. */
  ghost function Pos(im: Image<Info>, idx: string, i: nat): nat {
    if i < |im.order| then im.order[i] else |idx|
  }

  ghost function DatPos(im: Image<Info>, dat: string, i: nat): nat {
    if i < |im.order| && im.order[i] in im.info then im.info[im.order[i]].datoff else |dat|
  }

  /** Index and data records tile their files, from the header and from 0 to the ends. */
  lemma FilesTiled(im: Image<Info>, idx: string, dat: string, i: nat)
    requires Holds(im, idx, dat) && AllLegal(im)
    ensures Pos(im, idx, 0) == HEADER && DatPos(im, dat, 0) == 0
    ensures i < |im.order| ==>
              && im.order[i] in im.info
              && im.order[i] + PTR_SZ + IDXLEN_SZ + TailLength(im.info[im.order[i]]) == Pos(im, idx, i + 1)
              && im.info[im.order[i]].datoff + |im.info[im.order[i]].data| + 1 == DatPos(im, dat, i + 1)
  {
    assert HoldsNow(0, im, idx, dat);
    var f :| HoldsIn(f, im, idx, dat);
    AsciiFits(f);
    FirstAt(f, im);
    if im.order != [] {
      OrderCell(im, 0);
      assert AsciiRecord(f, InfoAt(im, 0));
    }
    if i < |im.order| {
      NoGaps(f, im, i);
      OrderCell(im, i);
      var n := InfoAt(im, i);
      assert AsciiRecord(f, n) && LegalAt(im, im.order[i]);
      BodyFields(n.key, n.datoff, |n.data| + 1);
      if i + 1 < |im.order| {
        OrderCell(im, i + 1);
        assert AsciiRecord(f, InfoAt(im, i + 1));
      }
    }
  }

  lemma RecordIsNoHead(im: Image<Info>, idx: string, dat: string, i: nat)
    requires Holds(im, idx, dat) && i < |im.order|
    ensures im.order[i] in im.info && im.order[i] in im.ptr && !IsHead(im.order[i])
  {
    assert HoldsNow(0, im, idx, dat);
    var f :| HoldsIn(f, im, idx, dat);
    AsciiFits(f);
    OrderApart(f, im);
    OrderCell(im, i);
  }

  /** No two places of the file hold the same record. */
  lemma OrderDistinct(im: Image<Info>, idx: string, dat: string, i: nat, j: nat)
    requires Holds(im, idx, dat) && i < |im.order| && j < |im.order| && im.order[i] == im.order[j]
    ensures i == j
  {
    assert HoldsNow(0, im, idx, dat);
    var f :| HoldsIn(f, im, idx, dat);
    AsciiFits(f);
    OrderApart(f, im);
  }

  // ---- Writing ----

  lemma Unchanged(file: string, off: nat, b: string)
    requires off + |b| <= |file| && file[off..off + |b|] == b
    ensures WriteAt(file, off, b) == file
  {
  }

  /** Writing a pointer field changes that pointer and nothing else. */
  lemma PtrWrites(im: Image<Info>, idx: string, dat: string, c: nat, v: nat)
    requires Holds(im, idx, dat) && c in im.ptr && v <= PTR_MAX
    ensures c <= |idx| && Holds(SetPtr(im, c, v), WriteAt(idx, c, Padded(PTR_SZ, v)), dat)
  {
    assert HoldsNow(0, im, idx, dat);
    var f :| HoldsIn(f, im, idx, dat);
    AsciiFits(f);
    assert AsciiPtr(f, v) && CellOk(im, c);
    if IsHead(c) {
      HeadWrites(f, im, c, v);
    } else {
      var i := im.info[c];
      RecordWrites(f, im, c, v, i, f.ptr(v));
      assert SetRecord(im, c, v, i) == SetPtr(im, c, v);
      DataAt(f, im, c);
      Unchanged(dat, f.datoff(i), f.dat(i));
    }
    HoldsBy(f, SetPtr(im, c, v), WriteAt(idx, c, f.ptr(v)), dat);
  }

  function Rekeyed(im: Image<Info>, o: nat, v: nat, key: string): Image<Info>
    requires o in im.info
  {
    SetRecord(im, o, v, im.info[o].(key := key))
  }

  /** Rewriting a record with another key of the same length leaves its neighbours alone. */
  lemma IndexWrites(im: Image<Info>, idx: string, dat: string, o: nat, v: nat, key: string)
    requires Holds(im, idx, dat) && o in im.info && v <= PTR_MAX
    requires |key| == |im.info[o].key|
    requires TailFits(im.info[o].key, im.info[o].datoff, |im.info[o].data| + 1)
    ensures o <= |idx| && TailFits(key, im.info[o].datoff, |im.info[o].data| + 1)
    ensures var idx' := WriteAt(idx, o, Padded(PTR_SZ, v) + Body(key, im.info[o].datoff, |im.info[o].data| + 1));
            |idx'| == |idx| && Holds(Rekeyed(im, o, v, key), idx', dat)
  {
    assert HoldsNow(0, im, idx, dat);
    var f :| HoldsIn(f, im, idx, dat);
    AsciiFits(f);
    var i := im.info[o];
    var i' := i.(key := key);
    assert AsciiPtr(f, v) && AsciiRecord(f, i) && AsciiRecord(f, i');
    RewriteKeepsLength(i.key, key, i.datoff, |i.data| + 1);
    RecordWrites(f, im, o, v, i', f.ptr(v) + f.body(i'));
    RecordAt(f, im, o);
    assert FitsAt(f, v);
    DataAt(f, im, o);
    Unchanged(dat, i.datoff, f.dat(i));
    HoldsBy(f, Rekeyed(im, o, v, key), WriteAt(idx, o, f.ptr(v) + f.body(i')), dat);
  }

  function Redone(im: Image<Info>, o: nat, data: string): Image<Info>
    requires o in im.info
  {
    im.(info := im.info[o := im.info[o].(data := data)])
  }

  /** Overwriting a data record with one of the same length leaves its neighbours alone. */
  lemma DataWrites(im: Image<Info>, idx: string, dat: string, o: nat, data: string)
    requires Holds(im, idx, dat) && o in im.info && |data| == |im.info[o].data|
    ensures im.info[o].datoff <= |dat|
    ensures Holds(Redone(im, o, data), idx, WriteAt(dat, im.info[o].datoff, data + [NEWLINE]))
  {
    assert HoldsNow(0, im, idx, dat);
    var f :| HoldsIn(f, im, idx, dat);
    AsciiFits(f);
    RecordAt(f, im, o);
    var i, v := im.info[o], im.ptr[o];
    var i' := i.(data := data);
    assert AsciiRecord(f, i) && AsciiRecord(f, i') && CellOk(im, o);
    RecordWrites(f, im, o, v, i', f.ptr(v) + f.body(i'));
    assert SetRecord(im, o, v, i') == Redone(im, o, data);
    Unchanged(idx, o, f.ptr(v) + f.body(i'));
    HoldsBy(f, Redone(im, o, data), idx, WriteAt(dat, i.datoff, f.dat(i')));
  }

  /** Appending to both files adds one record, at the old ends of the files. */
  lemma RecordAppends(im: Image<Info>, idx: string, dat: string, v: nat, key: string, data: string)
    requires Holds(im, idx, dat) && v <= PTR_MAX
    ensures Holds(AddRecord(im, |idx|, v, Info(key, |dat|, data)),
                  WriteAt(idx, |idx|, Padded(PTR_SZ, v) + Body(key, |dat|, |data| + 1)),
                  WriteAt(dat, |dat|, data + [NEWLINE]))
  {
    assert HoldsNow(0, im, idx, dat);
    var f :| HoldsIn(f, im, idx, dat);
    AsciiFits(f);
    var i := Info(key, |dat|, data);
    assert AsciiPtr(f, v) && AsciiRecord(f, i);
    Appends(f, im, v, i);
    WriteEnd(idx, f.ptr(v) + f.body(i));
    WriteEnd(dat, f.dat(i));
    HoldsBy(f, AddRecord(im, |idx|, v, i), idx + (f.ptr(v) + f.body(i)), dat + f.dat(i));
  }

  lemma RedoneLegal(im: Image<Info>, o: nat, data: string)
    requires AllLegal(im) && o in im.info && |data| == |im.info[o].data|
    ensures AllLegal(Redone(im, o, data))
  {
    forall c: nat
      ensures LegalAt(Redone(im, o, data), c)
    {
      assert LegalAt(im, c);
    }
  }

  lemma RekeyedLegal(im: Image<Info>, o: nat, v: nat, key: string)
    requires AllLegal(im) && o in im.info && |key| == |im.info[o].key| && CString(key)
    ensures AllLegal(Rekeyed(im, o, v, key))
  {
    forall c: nat
      ensures LegalAt(Rekeyed(im, o, v, key), c)
    {
      assert LegalAt(im, c);
      RewriteKeepsLength(im.info[o].key, key, im.info[o].datoff, |im.info[o].data| + 1);
    }
  }

  lemma PtrLegal(im: Image<Info>, c: nat, v: nat)
    requires AllLegal(im)
    ensures AllLegal(SetPtr(im, c, v))
  {
    forall o: nat
      ensures LegalAt(SetPtr(im, c, v), o)
    {
      assert LegalAt(im, o);
    }
  }

  lemma AddedLegal(im: Image<Info>, o: nat, v: nat, i: Info)
    requires AllLegal(im) && Legal(i)
    ensures AllLegal(AddRecord(im, o, v, i))
  {
    forall c: nat
      ensures LegalAt(AddRecord(im, o, v, i), c)
    {
      assert LegalAt(im, c);
    }
  }

  // ---- Creation ----

  ghost function EmptyImage(): Image<Info> {
    Image(map c: nat | 0 <= c < PTR_SZ * NPTR && c % PTR_SZ == 0 :: 0, map[], [])
  }

  function Zeros(n: nat): string {
    if n == 0 then "" else Zeros(n - 1) + Padded(PTR_SZ, 0)
  }

  lemma {:induction false} ZeroTiles(f: Format<Info>, n: nat)
    requires Ascii(f) && Shape(EmptyImage()) && n <= NPTR
    ensures Flat(PtrTiles(f, EmptyImage()), n) == Zeros(n)
  {
    if n > 0 {
      ZeroTiles(f, n - 1);
      var ss := PtrTiles(f, EmptyImage());
      assert AsciiPtr(f, 0) && ss[n - 1] == PtrTile(f, EmptyImage(), n - 1);
    }
  }

  lemma SomeAscii() returns (f: Format<Info>)
    ensures Ascii(f)
  {
    f := Format((v: nat) => Padded(PTR_SZ, v), (i: Info) => Body(i.key, i.datoff, |i.data| + 1),
                (i: Info) => i.data + [NEWLINE], (i: Info) => i.datoff);
  }

  /** The files of a created database hold the image without records. */
  lemma CreatedHolds()
    ensures Holds(EmptyImage(), Zeros(NPTR) + [NEWLINE], "")
  {
    var f := SomeAscii();
    var e := EmptyImage();
    forall c: nat
      ensures CellOk(e, c)
    {
    }
    ZeroTiles(f, NPTR);
    HoldsBy(f, e, Zeros(NPTR) + [NEWLINE], "");
  }
}
