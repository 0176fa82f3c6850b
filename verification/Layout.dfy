/**
 A pointer file and a data file, laid out from an image of what they hold. The
 pointer file is a header of NPTR pointers and a newline, followed by records
 that each begin with a pointer; the data file holds one piece per record, in
 the same order. A cell is named by its offset in the pointer file. The format
 says how pointers, record bodies and data are spelled, and the lemmas hold for
 every format whose pointers fill their field.
 */
module Layout {
  import opened Tiles
  import opened Codec

  const NPTR := 138
  const HEADER := 967

  datatype Image<I> = Image(ptr: map<nat, nat>, info: map<nat, I>, order: seq<nat>)

  datatype Format<!I> = Format(ptr: nat -> string, body: I -> string, dat: I -> string, datoff: I -> nat)

  ghost predicate FitsAt<I>(f: Format<I>, v: nat) {
    v <= PTR_MAX ==> |f.ptr(v)| == PTR_SZ
  }

  ghost predicate Fits<I(!new)>(f: Format<I>) {
    forall v: nat :: FitsAt(f, v)
  }

  ghost predicate IsHead(c: nat) { c < PTR_SZ * NPTR && c % PTR_SZ == 0 }

  /** Cells are heads and records, and every cell holds a pointer that fits. */
  ghost predicate CellOk<I>(im: Image<I>, c: nat) {
    && (IsHead(c) || c in im.info ==> c in im.ptr)
    && (c in im.ptr ==> im.ptr[c] <= PTR_MAX && (IsHead(c) || c in im.info))
    && (c in im.info <==> c in im.order)
  }

  ghost predicate Shape<I>(im: Image<I>) {
    forall c: nat :: CellOk(im, c)
  }

  /** Record i of the file is a record of the image. */
  lemma OrderCell<I>(im: Image<I>, i: nat)
    requires Shape(im) && i < |im.order|
    ensures im.order[i] in im.info && im.order[i] in im.ptr && im.ptr[im.order[i]] <= PTR_MAX
  {
    assert CellOk(im, im.order[i]);
  }

  lemma Rank<I>(im: Image<I>, o: nat) returns (i: nat)
    requires Shape(im) && o in im.info
    ensures i < |im.order| && im.order[i] == o && o in im.ptr && im.ptr[o] <= PTR_MAX
  {
    assert CellOk(im, o);
    i :| 0 <= i < |im.order| && im.order[i] == o;
  }

  ghost function InfoAt<I>(im: Image<I>, i: nat): I
    requires Shape(im) && i < |im.order|
  {
    OrderCell(im, i);
    im.info[im.order[i]]
  }

  ghost function PtrTile<I>(f: Format<I>, im: Image<I>, l: nat): string
    requires Shape(im) && l < NPTR
  {
    assert CellOk(im, PTR_SZ * l);
    f.ptr(im.ptr[PTR_SZ * l])
  }

  ghost function RecTile<I>(f: Format<I>, im: Image<I>, i: nat): string
    requires Shape(im) && i < |im.order|
  {
    OrderCell(im, i);
    f.ptr(im.ptr[im.order[i]]) + f.body(im.info[im.order[i]])
  }

  ghost function PtrTiles<I>(f: Format<I>, im: Image<I>): (ss: seq<string>)
    requires Shape(im)
    ensures |ss| == NPTR
  {
    seq(NPTR, l requires 0 <= l < NPTR => PtrTile(f, im, l))
  }

  ghost function RecTiles<I>(f: Format<I>, im: Image<I>): (ss: seq<string>)
    requires Shape(im)
    ensures |ss| == |im.order|
  {
    seq(|im.order|, i requires 0 <= i < |im.order| => RecTile(f, im, i))
  }

  ghost function DatTiles<I>(f: Format<I>, im: Image<I>): (ss: seq<string>)
    requires Shape(im)
    ensures |ss| == |im.order|
  {
    seq(|im.order|, i requires 0 <= i < |im.order| => f.dat(InfoAt(im, i)))
  }

  /** Record i and its data begin where the tilings say. */
  ghost predicate PlacedAt<I>(f: Format<I>, im: Image<I>, i: nat)
    requires Shape(im) && i < |im.order|
  {
    && im.order[i] == HEADER + Start(RecTiles(f, im), i)
    && f.datoff(InfoAt(im, i)) == Start(DatTiles(f, im), i)
  }

  /** The offsets in the image are the real ones: records and data tile their files. */
  ghost predicate Placed<I>(f: Format<I>, im: Image<I>) {
    Shape(im) && forall i | 0 <= i < |im.order| :: PlacedAt(f, im, i)
  }

  ghost function Header<I>(f: Format<I>, im: Image<I>): string
    requires Shape(im)
  {
    Flatten(PtrTiles(f, im)) + [NEWLINE]
  }

  ghost function IdxFile<I>(f: Format<I>, im: Image<I>): string
    requires Shape(im)
  {
    Header(f, im) + Flatten(RecTiles(f, im))
  }

  ghost function DatFile<I>(f: Format<I>, im: Image<I>): string
    requires Shape(im)
  {
    Flatten(DatTiles(f, im))
  }

  // ---- Where things are ----

  lemma PtrStart<I(!new)>(f: Format<I>, im: Image<I>, l: nat)
    requires Fits(f) && Shape(im) && l <= NPTR
    ensures Start(PtrTiles(f, im), l) == PTR_SZ * l
    ensures l < NPTR ==> |PtrTile(f, im, l)| == PTR_SZ
  {
    var ss := PtrTiles(f, im);
    forall k | 0 <= k < NPTR
      ensures |ss[k]| == PTR_SZ
    {
      assert CellOk(im, PTR_SZ * k) && FitsAt(f, im.ptr[PTR_SZ * k]);
    }
    EvenStarts(ss, PTR_SZ, l);
    assert l < NPTR ==> |ss[l]| == PTR_SZ;
  }

  /** The header is 138 pointers and a newline, so the records begin at 967. */
  lemma HeaderLength<I(!new)>(f: Format<I>, im: Image<I>)
    requires Fits(f) && Shape(im)
    ensures |Header(f, im)| == HEADER
  {
    PtrStart(f, im, NPTR);
  }

  lemma RecWidth<I(!new)>(f: Format<I>, im: Image<I>, i: nat)
    requires Fits(f) && Shape(im) && i < |im.order|
    ensures |RecTile(f, im, i)| == PTR_SZ + |f.body(InfoAt(im, i))|
  {
    OrderCell(im, i);
    assert FitsAt(f, im.ptr[im.order[i]]);
  }

  /** Records lie behind the header, in increasing order. */
  lemma OrderGrows<I(!new)>(f: Format<I>, im: Image<I>, i: nat, j: nat)
    requires Fits(f) && Placed(f, im) && i < j < |im.order|
    ensures HEADER <= im.order[i] < im.order[j]
  {
    assert PlacedAt(f, im, i) && PlacedAt(f, im, j);
    RecWidth(f, im, i);
    TileIn(RecTiles(f, im), i, j);
  }

  lemma OrderApart<I(!new)>(f: Format<I>, im: Image<I>)
    requires Fits(f) && Placed(f, im)
    ensures forall i, j | 0 <= i < |im.order| && 0 <= j < |im.order| && im.order[i] == im.order[j] :: i == j
    ensures forall i | 0 <= i < |im.order| :: im.order[i] >= HEADER
  {
    forall i, j | 0 <= i < |im.order| && 0 <= j < |im.order| && im.order[i] == im.order[j]
      ensures i == j
    {
      if i < j {
        OrderGrows(f, im, i, j);
      } else if j < i {
        OrderGrows(f, im, j, i);
      }
    }
    forall i | 0 <= i < |im.order|
      ensures im.order[i] >= HEADER
    {
      assert PlacedAt(f, im, i);
    }
  }

  lemma HeadAt<I(!new)>(f: Format<I>, im: Image<I>, c: nat)
    requires Fits(f) && Shape(im) && IsHead(c)
    ensures c in im.ptr && c + PTR_SZ <= |IdxFile(f, im)|
    ensures IdxFile(f, im)[c..c + PTR_SZ] == f.ptr(im.ptr[c])
  {
    assert CellOk(im, c);
    var ss, l := PtrTiles(f, im), c / PTR_SZ;
    PtrStart(f, im, l);
    TileAt(ss, l);
    var g := Flatten(ss);
    assert (g + [NEWLINE] + Flatten(RecTiles(f, im)))[c..c + PTR_SZ] == g[c..c + PTR_SZ];
  }

  /** Record o is spelled where the image says it is. */
  lemma RecordAt<I(!new)>(f: Format<I>, im: Image<I>, o: nat)
    requires Fits(f) && Placed(f, im) && o in im.info
    ensures o in im.ptr && |f.ptr(im.ptr[o])| == PTR_SZ
    ensures var b := f.ptr(im.ptr[o]) + f.body(im.info[o]);
            o + |b| <= |IdxFile(f, im)| && IdxFile(f, im)[o..o + |b|] == b
  {
    var i := Rank(im, o);
    assert PlacedAt(f, im, i) && FitsAt(f, im.ptr[o]);
    HeaderLength(f, im);
    var ss, h := RecTiles(f, im), Header(f, im);
    TileAt(ss, i);
    var g, n := Flatten(ss), |ss[i]|;
    assert (h + g)[o..o + n] == g[o - HEADER..o - HEADER + n];
  }

  lemma DataAt<I(!new)>(f: Format<I>, im: Image<I>, o: nat)
    requires Placed(f, im) && o in im.info
    ensures var a, b := f.datoff(im.info[o]), f.dat(im.info[o]);
            a + |b| <= |DatFile(f, im)| && DatFile(f, im)[a..a + |b|] == b
  {
    var i := Rank(im, o);
    assert PlacedAt(f, im, i);
    TileAt(DatTiles(f, im), i);
  }

  /** The end of the pointer file is not yet the offset of anything. */
  lemma EndIsNew<I(!new)>(f: Format<I>, im: Image<I>)
    requires Fits(f) && Placed(f, im)
    ensures var o := |IdxFile(f, im)|; o >= HEADER && o !in im.info && o !in im.ptr
  {
    HeaderLength(f, im);
    var o := |IdxFile(f, im)|;
    if o in im.info {
      RecordAt(f, im, o);
    }
    assert CellOk(im, o);
  }

  /** Where record i ends the next one begins, and behind the last is the end of the file; so for the data. */
  lemma NoGaps<I(!new)>(f: Format<I>, im: Image<I>, i: nat)
    requires Fits(f) && Placed(f, im) && i < |im.order|
    ensures im.order[i] + PTR_SZ + |f.body(InfoAt(im, i))|
         == if i + 1 < |im.order| then im.order[i + 1] else |IdxFile(f, im)|
    ensures f.datoff(InfoAt(im, i)) + |f.dat(InfoAt(im, i))|
         == if i + 1 < |im.order| then f.datoff(InfoAt(im, i + 1)) else |DatFile(f, im)|
  {
    assert PlacedAt(f, im, i) && (i + 1 < |im.order| ==> PlacedAt(f, im, i + 1));
    RecWidth(f, im, i);
    HeaderLength(f, im);
    assert RecTiles(f, im)[i] == RecTile(f, im, i);
  }

  /** The first record begins where the header ends, its data where the data file begins. */
  lemma FirstAt<I(!new)>(f: Format<I>, im: Image<I>)
    requires Fits(f) && Placed(f, im)
    ensures if im.order == [] then |IdxFile(f, im)| == HEADER && DatFile(f, im) == []
            else im.order[0] == HEADER && f.datoff(InfoAt(im, 0)) == 0
  {
    HeaderLength(f, im);
    assert im.order != [] ==> PlacedAt(f, im, 0);
  }

  // ---- Writing ----

  function SetPtr<I>(im: Image<I>, c: nat, v: nat): Image<I> {
    im.(ptr := im.ptr[c := v])
  }

  function SetRecord<I>(im: Image<I>, o: nat, v: nat, i: I): Image<I> {
    im.(ptr := im.ptr[o := v], info := im.info[o := i])
  }

  function AddRecord<I>(im: Image<I>, o: nat, v: nat, i: I): Image<I> {
    Image(im.ptr[o := v], im.info[o := i], im.order + [o])
  }

  lemma SetPtrShape<I>(im: Image<I>, c: nat, v: nat)
    requires Shape(im) && c in im.ptr && v <= PTR_MAX
    ensures Shape(SetPtr(im, c, v))
  {
    forall x: nat
      ensures CellOk(SetPtr(im, c, v), x)
    {
      assert CellOk(im, x);
    }
  }

  lemma SetRecordShape<I>(im: Image<I>, o: nat, v: nat, i: I)
    requires Shape(im) && o in im.info && v <= PTR_MAX
    ensures Shape(SetRecord(im, o, v, i))
  {
    forall x: nat
      ensures CellOk(SetRecord(im, o, v, i), x)
    {
      assert CellOk(im, x);
    }
  }

  lemma AddRecordShape<I>(im: Image<I>, o: nat, v: nat, i: I)
    requires Shape(im) && o !in im.info && v <= PTR_MAX
    ensures Shape(AddRecord(im, o, v, i))
  {
    forall x: nat
      ensures CellOk(AddRecord(im, o, v, i), x)
    {
      assert CellOk(im, x);
      assert (im.order + [o])[|im.order|] == o;
      assert x in im.order + [o] <==> x in im.order || x == o;
    }
  }

  /** Tiles of unchanged width keep every offset of the image right. */
  lemma StaysPlaced<I(!new)>(f: Format<I>, im: Image<I>, im': Image<I>)
    requires Placed(f, im) && Shape(im') && im'.order == im.order
    requires forall i | 0 <= i < |im.order| :: f.datoff(InfoAt(im', i)) == f.datoff(InfoAt(im, i))
    requires forall i | 0 <= i < |im.order| :: |RecTiles(f, im')[i]| == |RecTiles(f, im)[i]|
    requires forall i | 0 <= i < |im.order| :: |DatTiles(f, im')[i]| == |DatTiles(f, im)[i]|
    ensures Placed(f, im')
  {
    forall i | 0 <= i < |im.order|
      ensures PlacedAt(f, im', i)
    {
      assert PlacedAt(f, im, i) && f.datoff(InfoAt(im', i)) == f.datoff(InfoAt(im, i));
      SameStarts(RecTiles(f, im), RecTiles(f, im'), i);
      SameStarts(DatTiles(f, im), DatTiles(f, im'), i);
    }
  }

  lemma HeadTiles<I(!new)>(f: Format<I>, im: Image<I>, c: nat, v: nat)
    requires Fits(f) && Placed(f, im) && IsHead(c) && v <= PTR_MAX
    ensures Shape(SetPtr(im, c, v)) && FitsAt(f, v)
    ensures RecTiles(f, SetPtr(im, c, v)) == RecTiles(f, im)
    ensures DatTiles(f, SetPtr(im, c, v)) == DatTiles(f, im)
    ensures PtrTiles(f, SetPtr(im, c, v)) == PtrTiles(f, im)[c / PTR_SZ := f.ptr(v)]
  {
    assert CellOk(im, c) && FitsAt(f, v);
    SetPtrShape(im, c, v);
    OrderApart(f, im);
    var im' := SetPtr(im, c, v);
    forall j | 0 <= j < |im.order|
      ensures RecTiles(f, im')[j] == RecTiles(f, im)[j] && DatTiles(f, im')[j] == DatTiles(f, im)[j]
    {
      assert InfoAt(im', j) == InfoAt(im, j);
    }
  }

  lemma HeadWrites<I(!new)>(f: Format<I>, im: Image<I>, c: nat, v: nat)
    requires Fits(f) && Placed(f, im) && IsHead(c) && v <= PTR_MAX
    ensures Placed(f, SetPtr(im, c, v)) && c <= |IdxFile(f, im)|
    ensures IdxFile(f, SetPtr(im, c, v)) == WriteAt(IdxFile(f, im), c, f.ptr(v))
    ensures DatFile(f, SetPtr(im, c, v)) == DatFile(f, im)
  {
    var ss, l, b := PtrTiles(f, im), c / PTR_SZ, f.ptr(v);
    HeadTiles(f, im, c, v);
    StaysPlaced(f, im, SetPtr(im, c, v));
    PtrStart(f, im, l);
    assert ss[l] == PtrTile(f, im, l);
    WriteTile(ss, l, b);
    assert b + ss[l][|b|..] == b;
    WriteFront(Flatten(ss), [NEWLINE], c, b);
    WriteFront(Header(f, im), Flatten(RecTiles(f, im)), c, b);
  }

  /** When record o changes, one tile of each file changes. */
  lemma RecordTiles<I(!new)>(f: Format<I>, im: Image<I>, k: nat, o: nat, v: nat, i: I)
    requires Fits(f) && Placed(f, im) && k < |im.order| && im.order[k] == o && v <= PTR_MAX
    ensures var im' := SetRecord(im, o, v, i);
            && Shape(im') && im'.order == im.order && InfoAt(im', k) == i
            && PtrTiles(f, im') == PtrTiles(f, im)
            && RecTiles(f, im') == RecTiles(f, im)[k := f.ptr(v) + f.body(i)]
            && DatTiles(f, im') == DatTiles(f, im)[k := f.dat(i)]
            && forall j | 0 <= j < |im.order| && j != k :: InfoAt(im', j) == InfoAt(im, j)
  {
    OrderCell(im, k);
    SetRecordShape(im, o, v, i);
    OrderApart(f, im);
    var im' := SetRecord(im, o, v, i);
    forall j | 0 <= j < |im.order|
      ensures j != k ==> InfoAt(im', j) == InfoAt(im, j)
      ensures RecTiles(f, im')[j] == RecTiles(f, im)[k := f.ptr(v) + f.body(i)][j]
      ensures DatTiles(f, im')[j] == DatTiles(f, im)[k := f.dat(i)][j]
    {
      assert j != k ==> im.order[j] != o;
      assert InfoAt(im', j) == if j == k then i else InfoAt(im, j);
    }
  }

  lemma RecordPlaced<I(!new)>(f: Format<I>, im: Image<I>, k: nat, o: nat, v: nat, i: I)
    requires Fits(f) && Placed(f, im) && k < |im.order| && im.order[k] == o && v <= PTR_MAX
    requires |f.body(i)| == |f.body(InfoAt(im, k))|
    requires |f.dat(i)| == |f.dat(InfoAt(im, k))|
    requires f.datoff(i) == f.datoff(InfoAt(im, k))
    ensures Placed(f, SetRecord(im, o, v, i))
  {
    RecordTiles(f, im, k, o, v, i);
    RecWidth(f, im, k);
    assert FitsAt(f, v);
    StaysPlaced(f, im, SetRecord(im, o, v, i));
  }

  lemma Overwritten<I(!new)>(f: Format<I>, im: Image<I>, k: nat, v: nat, i: I, b: string)
    requires Fits(f) && Shape(im) && k < |im.order| && v <= PTR_MAX
    requires |f.body(i)| == |f.body(InfoAt(im, k))|
    requires b == f.ptr(v) + f.body(i) || (b == f.ptr(v) && i == InfoAt(im, k))
    ensures |b| <= |RecTile(f, im, k)|
    ensures b + RecTile(f, im, k)[|b|..] == f.ptr(v) + f.body(i)
  {
    RecWidth(f, im, k);
    OrderCell(im, k);
    assert FitsAt(f, v) && FitsAt(f, im.ptr[im.order[k]]);
    assert RecTile(f, im, k)[PTR_SZ..] == f.body(InfoAt(im, k));
  }

  lemma IdxWritten<I(!new)>(f: Format<I>, im: Image<I>, k: nat, v: nat, i: I, b: string)
    requires Fits(f) && Placed(f, im) && k < |im.order| && v <= PTR_MAX
    requires |f.body(i)| == |f.body(InfoAt(im, k))|
    requires b == f.ptr(v) + f.body(i) || (b == f.ptr(v) && i == InfoAt(im, k))
    ensures im.order[k] <= |IdxFile(f, im)|
    ensures WriteAt(IdxFile(f, im), im.order[k], b)
         == Header(f, im) + Flatten(RecTiles(f, im)[k := f.ptr(v) + f.body(i)])
  {
    var ss := RecTiles(f, im);
    assert PlacedAt(f, im, k) && ss[k] == RecTile(f, im, k);
    Overwritten(f, im, k, v, i, b);
    WriteTile(ss, k, b);
    HeaderLength(f, im);
    WriteBack(Header(f, im), Flatten(ss), im.order[k] - HEADER, b);
  }

  lemma DatWritten<I(!new)>(f: Format<I>, im: Image<I>, k: nat, i: I)
    requires Placed(f, im) && k < |im.order|
    requires |f.dat(i)| == |f.dat(InfoAt(im, k))|
    requires f.datoff(i) == f.datoff(InfoAt(im, k))
    ensures f.datoff(i) <= |DatFile(f, im)|
    ensures WriteAt(DatFile(f, im), f.datoff(i), f.dat(i)) == Flatten(DatTiles(f, im)[k := f.dat(i)])
  {
    var dd, d := DatTiles(f, im), f.dat(i);
    assert PlacedAt(f, im, k) && dd[k] == f.dat(InfoAt(im, k));
    WriteTile(dd, k, d);
    assert d + dd[k][|d|..] == d;
  }

  /**
   Rewriting a record and its data in place, each with as many characters as
   before: b is what is written over the front of the record, and what it leaves
   standing is already right.
   */
  lemma RecordWrites<I(!new)>(f: Format<I>, im: Image<I>, o: nat, v: nat, i: I, b: string)
    requires Fits(f) && Placed(f, im) && o in im.info && v <= PTR_MAX
    requires |f.body(i)| == |f.body(im.info[o])|
    requires |f.dat(i)| == |f.dat(im.info[o])|
    requires f.datoff(i) == f.datoff(im.info[o])
    requires b == f.ptr(v) + f.body(i) || (b == f.ptr(v) && i == im.info[o])
    ensures var im' := SetRecord(im, o, v, i);
            && Placed(f, im') && o <= |IdxFile(f, im)| && f.datoff(i) <= |DatFile(f, im)|
            && IdxFile(f, im') == WriteAt(IdxFile(f, im), o, b)
            && DatFile(f, im') == WriteAt(DatFile(f, im), f.datoff(i), f.dat(i))
  {
    var k := Rank(im, o);
    assert InfoAt(im, k) == im.info[o];
    RecordPlaced(f, im, k, o, v, i);
    RecordTiles(f, im, k, o, v, i);
    IdxWritten(f, im, k, v, i, b);
    DatWritten(f, im, k, i);
  }

  lemma AppendTiles<I(!new)>(f: Format<I>, im: Image<I>, o: nat, v: nat, i: I)
    requires Shape(im) && o >= HEADER && o !in im.info && v <= PTR_MAX
    ensures var im' := AddRecord(im, o, v, i);
            && Shape(im')
            && PtrTiles(f, im') == PtrTiles(f, im)
            && RecTiles(f, im') == RecTiles(f, im) + [f.ptr(v) + f.body(i)]
            && DatTiles(f, im') == DatTiles(f, im) + [f.dat(i)]
  {
    AddRecordShape(im, o, v, i);
    var im' := AddRecord(im, o, v, i);
    forall k | 0 <= k < |im.order|
      ensures RecTiles(f, im')[k] == RecTiles(f, im)[k] && DatTiles(f, im')[k] == DatTiles(f, im)[k]
    {
      OrderCell(im, k);
      assert InfoAt(im', k) == InfoAt(im, k);
    }
    assert InfoAt(im', |im.order|) == i;
  }

  lemma AppendPlaced<I(!new)>(f: Format<I>, im: Image<I>, o: nat, v: nat, i: I)
    requires Fits(f) && Placed(f, im) && v <= PTR_MAX && o !in im.info
    requires o == |IdxFile(f, im)| && f.datoff(i) == |DatFile(f, im)|
    ensures Placed(f, AddRecord(im, o, v, i))
  {
    var im' := AddRecord(im, o, v, i);
    HeaderLength(f, im);
    AppendTiles(f, im, o, v, i);
    AppendTile(RecTiles(f, im), f.ptr(v) + f.body(i));
    AppendTile(DatTiles(f, im), f.dat(i));
    forall k | 0 <= k < |im'.order|
      ensures PlacedAt(f, im', k)
    {
      if k < |im.order| {
        assert PlacedAt(f, im, k);
        OrderCell(im, k);
      }
    }
  }

  /** Appending to both files adds one record, at the old ends of the files. */
  lemma Appends<I(!new)>(f: Format<I>, im: Image<I>, v: nat, i: I)
    requires Fits(f) && Placed(f, im) && v <= PTR_MAX && f.datoff(i) == |DatFile(f, im)|
    ensures var o := |IdxFile(f, im)|;
            var im' := AddRecord(im, o, v, i);
            && o >= HEADER && o !in im.ptr && o !in im.info && Placed(f, im')
            && IdxFile(f, im') == IdxFile(f, im) + (f.ptr(v) + f.body(i))
            && DatFile(f, im') == DatFile(f, im) + f.dat(i)
  {
    EndIsNew(f, im);
    var o := |IdxFile(f, im)|;
    AppendPlaced(f, im, o, v, i);
    AppendTiles(f, im, o, v, i);
    var ss := RecTiles(f, im);
    AppendTile(ss, f.ptr(v) + f.body(i));
    AppendTile(DatTiles(f, im), f.dat(i));
    var h := Header(f, im);
    assert h + Flatten(ss) + (f.ptr(v) + f.body(i)) == h + (Flatten(ss) + (f.ptr(v) + f.body(i)));
  }
}
