/**
 The database library of db.c, run by one process: an index file and a data
 file, and the fields of the DB structure that one internal call leaves behind
 for the next. Every call keeps the files tiled and the lists threaded, and acts
 on the contents as it would on a plain map from keys to data.
 */
module Db {
  import opened Tiles
  import opened Codec
  import opened Links
  import opened Layout
  import opened DbFiles
  import opened DbHash
  import opened DbChains
  import opened DbSpec
  import opened DbSpace
  import opened Wrappers

  const FREE_OFF := 0
  const HASH_OFF := PTR_SZ

  datatype Whence = SeekSet | SeekEnd

  /** How a call ends: with a return value, or in err_dump or err_quit. */
  datatype Outcome = Returned(rc: int) | Died

  // ---- The records in file order ----

  ghost function Pair(im: Image<Info>, i: nat): (string, string)
    requires i < |im.order|
  {
    if im.order[i] in im.info then (im.info[im.order[i]].key, im.info[im.order[i]].data) else ("", "")
  }

  ghost predicate BlankAt(im: Image<Info>, i: nat)
    requires i < |im.order|
  {
    AllBlank(Pair(im, i).0)
  }

  /** The first place from i on whose record is not blank. */
  ghost function NextLive(im: Image<Info>, i: nat): nat
    decreases |im.order| - i
  {
    if i < |im.order| && BlankAt(im, i) then NextLive(im, i + 1) else i
  }

  method SplitTail(buf: string, ghost i: Info) returns (p: Parsed)
    requires Legal(i) && buf == TailOf(i)
    ensures p == if SEP in i.key then Corrupt(TooManySeparators) else Fields(i.key, i.datoff, |i.data| + 1)
  {
    RecordParses(i);
    p := ParseTail(buf);
  }

  class Db {
    var idx: string      // the index file
    var dat: string      // the data file
    var idxpos: nat      // the file offset of the index descriptor
    var idxbuf: string   // the key of the record read last
    var idxoff: nat
    var datoff: nat
    var datlen: nat
    var ptrval: nat
    var ptroff: nat
    var chainoff: nat
    ghost var im: Image<Info>
    ghost var lists: seq<seq<nat>>
    ghost var contents: Contents

    ghost predicate Files()
      reads this
    {
      Holds(im, idx, dat) && AllLegal(im)
    }

    ghost predicate Valid()
      reads this
    {
      Files() && Inv(im, lists, contents, {}) && SepsFirst(im, lists)
    }

    /** What decides how calls end. */
    ghost function Room(): Space
      reads this
    {
      Space(|idx|, |dat|, FreeSizes(im, lists), DeadSet(im, lists))
    }

    /** The fields describe the index record at o, as _db_readidx leaves them. */
    ghost predicate Loaded(o: nat)
      reads this
    {
      && o in im.info && o in im.ptr && idxoff == o && ptrval == im.ptr[o]
      && idxbuf == im.info[o].key && datoff == im.info[o].datoff && datlen == |im.info[o].data| + 1
    }

    /** The fields describe the record at place k + 1 of a chain, and ptroff the cell before it. */
    ghost predicate Found(key: string, k: nat)
      reads this
    {
      && chainoff == PTR_SZ * ListOf(key)
      && ListOf(key) < |lists| && k + 1 < |lists[ListOf(key)]|
      && ptroff == lists[ListOf(key)][k] && idxoff == lists[ListOf(key)][k + 1]
      && Loaded(idxoff) && idxbuf == key
    }

    /** A created database: 138 blank-padded zeros and a newline. */
    constructor ()
      ensures Valid() && contents == map[] && idxpos == HEADER
      ensures Room() == Space(HEADER, 0, multiset{}, {})
    {
      var hash := "";
      var i := 0;
      while i < NHASH + 1
        invariant 0 <= i <= NPTR && hash == Zeros(i)
      {
        hash := hash + Padded(PTR_SZ, 0);
        i := i + 1;
      }
      CreatedHolds();
      CreatedInv();
      idx, dat, idxpos := hash + [NEWLINE], "", HEADER;
      idxbuf, idxoff, datoff, datlen, ptrval, ptroff, chainoff := "", HEADER, 0, 0, 0, 0, 0;
      im, lists, contents := EmptyImage(), EmptyLists(), map[];
      new;
      CreatedSpace();
      ZerosLength(NPTR);
    }

    // ---- Reading and writing the files ----

    method ReadPtr(offset: nat) returns (v: nat)
      requires Files() && offset in im.ptr
      modifies `idxpos
      ensures v == im.ptr[offset]
    {
      PtrReads(im, idx, dat, offset);
      idxpos := offset + PTR_SZ;
      v := Atol(idx[offset..offset + PTR_SZ]);
    }

    /** The length field of the record at o. */
    method ReadLen(o: nat) returns (len: nat)
      requires Files() && o in im.info
      ensures len == TailLength(im.info[o]) && IDXLEN_MIN <= len <= IDXLEN_MAX
    {
      RecordReads(im, idx, dat, o);
      len := Atol(idx[o + PTR_SZ..o + PTR_SZ + IDXLEN_SZ]);
    }

    /** The variable part of the record at o, taken apart at its separators. */
    method ReadFields(o: nat, len: nat) returns (p: Parsed)
      requires Files() && o in im.info && len == TailLength(im.info[o])
      ensures p == if SepAt(im, o) then Corrupt(TooManySeparators)
                   else Fields(im.info[o].key, im.info[o].datoff, |im.info[o].data| + 1)
    {
      RecordReads(im, idx, dat, o);
      assert LegalAt(im, o);
      var body := o + PTR_SZ + IDXLEN_SZ;
      p := SplitTail(idx[body..body + len], im.info[o]);
    }

    /**
     Offset 0 asks for the record at the current file position; -1 answers that there is none. A
     record whose key has a separator cannot be taken apart, which ends the process.
     */
    method ReadIdx(offset: nat) returns (r: int, died: bool)
      requires Files()
      requires if offset == 0 then idxpos == |idx| || idxpos in im.info else offset in im.info
      modifies `idxpos, `idxoff, `ptrval, `idxbuf, `datoff, `datlen
      ensures idxoff == if offset == 0 then old(idxpos) else offset
      ensures idxoff == |idx| ==> !died && r == -1 && idxpos == old(idxpos)
      ensures idxoff != |idx| ==> (died <==> SepAt(im, idxoff))
      ensures idxoff != |idx| && !died ==>
                && Loaded(idxoff) && r == im.ptr[idxoff]
                && idxpos == idxoff + PTR_SZ + IDXLEN_SZ + TailLength(im.info[idxoff])
    {
      EndReads(im, idx, dat);
      died := false;
      idxoff := if offset == 0 then idxpos else offset;
      if idxoff == |idx| {
        return -1, false;
      }
      Cell(im, idx, dat, idxoff);
      ptrval := ReadPtr(idxoff);
      var idxlen := ReadLen(idxoff);
      var fields := ReadFields(idxoff, idxlen);
      if fields.Corrupt? {
        return 0, true;
      }
      idxbuf, datoff, datlen := fields.key, fields.datoff, fields.datlen;
      idxpos := idxoff + PTR_SZ + IDXLEN_SZ + idxlen;
      r := ptrval;
    }

    method ReadDat() returns (s: string)
      requires Files() && Loaded(idxoff)
      ensures s == im.info[idxoff].data
    {
      DataReads(im, idx, dat, idxoff);
      var datbuf := dat[datoff..datoff + datlen];
      assert datbuf[datlen - 1] == NEWLINE;
      s := datbuf[..datlen - 1];
    }

    /** Writes a data record over an old one, or behind the last. */
    method WriteDat(data: string, offset: nat, whence: Whence)
      requires whence.SeekSet? ==> offset <= |dat|
      modifies `dat, `datoff, `datlen
      ensures datoff == (if whence.SeekEnd? then old(|dat|) else offset) && datlen == |data| + 1
      ensures dat == WriteAt(old(dat), datoff, data + [NEWLINE])
    {
      datoff := if whence.SeekEnd? then |dat| else offset;
      datlen := |data| + 1;
      dat := WriteAt(dat, datoff, data + [NEWLINE]);
    }

    /** Writes an index record that refers to the data record written or read last. */
    method WriteIdx(key: string, offset: nat, whence: Whence, ptrval: nat) returns (ok: bool)
      requires whence.SeekSet? ==> offset <= |idx|
      modifies `idx, `idxpos, `idxoff, `ptrval, `idxbuf
      ensures ok <==> ptrval <= PTR_MAX && TailFits(key, datoff, datlen)
      ensures !ok ==> idx == old(idx)
      ensures ok ==> idxoff == (if whence.SeekEnd? then old(|idx|) else offset) && this.ptrval == ptrval
      ensures ok ==> idx == WriteAt(old(idx), idxoff, Padded(PTR_SZ, ptrval) + Body(key, datoff, datlen))
    {
      this.ptrval := ptrval;
      if ptrval > PTR_MAX {
        return false;
      }
      idxbuf := Tail(key, datoff, datlen);
      var len := |idxbuf|;
      if len < IDXLEN_MIN || len > IDXLEN_MAX {
        return false;
      }
      idxoff := if whence.SeekEnd? then |idx| else offset;
      var record := Padded(PTR_SZ, ptrval) + (Padded(IDXLEN_SZ, len) + idxbuf);
      idx := WriteAt(idx, idxoff, record);
      idxpos := idxoff + |record|;
      ok := true;
    }

    /** Writes one chain pointer, wherever it is in the index file. */
    method WritePtr(offset: nat, ptrval: nat) returns (ok: bool)
      requires Files() && offset in im.ptr
      modifies `idx, `idxpos, `im
      ensures ok <==> ptrval <= PTR_MAX
      ensures ok ==> Files() && im == SetPtr(old(im), offset, ptrval) && |idx| == old(|idx|)
      ensures !ok ==> idx == old(idx) && im == old(im)
    {
      if ptrval > PTR_MAX {
        return false;
      }
      PtrReads(im, idx, dat, offset);
      PtrWrites(im, idx, dat, offset, ptrval);
      PtrLegal(im, offset, ptrval);
      PtrFieldLength(ptrval);
      ghost var g := SetPtr(im, offset, ptrval);
      idx := WriteAt(idx, offset, Padded(PTR_SZ, ptrval));
      idxpos := offset + PTR_SZ;
      im := g;
      ok := true;
    }

    // ---- Searching ----

    /** Walks list l from its head until the record of a key, or the end, or one that cannot be read. */
    method WalkChain(key: string, head: nat, ghost l: nat) returns (found: bool, died: bool, from: nat, ghost k: nat)
      requires Valid() && l == ListOf(key) < NPTR && head == PTR_SZ * l
      modifies `idxpos, `idxoff, `ptrval, `idxbuf, `datoff, `datlen
      ensures died <==> DeadAt(im, lists, l)
      ensures found <==> !died && key in contents
      ensures found ==> k + 1 < |lists[l]| && from == lists[l][k] && idxoff == lists[l][k + 1]
      ensures found ==> Loaded(idxoff) && idxbuf == key
    {
      ghost var g, ls, m := im, lists, contents;
      ghost var s := ls[l];
      Front(g, ls, {}, l);
      from, died := head, false;
      var offset := ReadPtr(from);
      k := 0;
      while offset != 0
        invariant 0 <= k < |s| && from == s[k] && offset == After(s, k) && (k > 0 ==> !DeadAt(g, ls, l))
        invariant forall j | 0 < j <= k :: s[j] in g.info && g.info[s[j]].key != key
        decreases |s| - k
      {
        Position(g, ls, {}, l, k + 1);
        EndReads(g, idx, dat);
        assert SepFirst(g, ls, l, k + 1);
        var nextoffset;
        nextoffset, died := ReadIdx(offset);
        if died {
          return false, true, from, k;
        }
        if idxbuf == key {
          assert LiveAt(g, ls, m, l, k + 1);
          return true, false, from, k;
        }
        from, offset, k := offset, nextoffset, k + 1;
      }
      assert KeyOk(g, ls, m, key);
      found := false;
    }

    /** Finds the record of a key, and the pointer that points to it. */
    method FindAndLock(key: string) returns (found: bool, died: bool, ghost k: nat)
      requires Valid()
      modifies `idxpos, `idxoff, `ptrval, `idxbuf, `datoff, `datlen, `ptroff, `chainoff
      ensures chainoff == PTR_SZ * ListOf(key) && 0 < ListOf(key) < NPTR
      ensures died <==> DeadAt(im, lists, ListOf(key))
      ensures found <==> !died && key in contents
      ensures found ==> Found(key, k)
    {
      var h := HashKey(key);
      chainoff := h * PTR_SZ + HASH_OFF;
      found, died, ptroff, k := WalkChain(key, chainoff, ListOf(key));
    }

    // ---- In-place changes ----

    /** Overwrites the data of the loaded record. */
    method ReplaceData(data: string)
      requires Files() && Loaded(idxoff) && |data| + 1 == datlen
      modifies `dat, `datoff, `datlen, `im
      ensures Files() && im == Redone(old(im), idxoff, data) && |dat| == old(|dat|)
      ensures datoff == old(datoff) && datlen == old(datlen)
    {
      DataWrites(im, idx, dat, idxoff, data);
      RedoneLegal(im, idxoff, data);
      DataReads(im, idx, dat, idxoff);
      WriteDat(data, datoff, SeekSet);
      im := Redone(im, idxoff, data);
    }

    /** Rewrites the index record at idxoff, with another key of the same length. */
    method RewriteRecord(key: string, v: nat)
      requires Files() && idxoff in im.info && v <= PTR_MAX
      requires datoff == im.info[idxoff].datoff && datlen == |im.info[idxoff].data| + 1
      requires |key| == |im.info[idxoff].key| && CString(key)
      modifies `idx, `idxpos, `idxoff, `ptrval, `idxbuf, `im
      ensures Files() && im == Rekeyed(old(im), old(idxoff), v, key)
      ensures idxoff == old(idxoff) && |idx| == old(|idx|)
    {
      RecordReads(im, idx, dat, idxoff);
      assert LegalAt(im, idxoff);
      IndexWrites(im, idx, dat, idxoff, v, key);
      RekeyedLegal(im, idxoff, v, key);
      ghost var g := Rekeyed(im, idxoff, v, key);
      var ok := WriteIdx(key, idxoff, SeekSet, v);
      im := g;
    }

    // ---- Deleting ----

    method FillBlanks(n: nat) returns (s: string)
      ensures s == Blanks(n)
    {
      s := "";
      while |s| < n
        invariant |s| <= n && s == Blanks(|s|)
      {
        s := s + [SPACE];
      }
    }

    /** Blanks the loaded record, points it at the free list and the two lists past it. */
    method Bury()
      requires Files() && Loaded(idxoff) && ptroff in im.ptr && FREE_OFF in im.ptr && im.ptr[ptroff] == idxoff
      modifies `idx, `dat, `idxpos, `idxoff, `ptrval, `idxbuf, `datoff, `datlen, `im
      ensures idxoff == old(idxoff) && |idx| == old(|idx|) && |dat| == old(|dat|)
      ensures Files() && im == Deleted(old(im), idxoff, ptroff)
    {
      ghost var g, o := im, idxoff;
      Cell(g, idx, dat, FREE_OFF);
      Cell(g, idx, dat, o);
      Cell(g, idx, dat, ptroff);
      var blankData := FillBlanks(datlen - 1);
      var blankKey := FillBlanks(|idxbuf|);
      var saveptr := ptrval;
      ReplaceData(blankData);
      var freeptr := ReadPtr(FREE_OFF);
      RewriteRecord(blankKey, freeptr);
      var ok := WritePtr(FREE_OFF, idxoff);
      ok := WritePtr(ptroff, saveptr);
    }

    /** Takes the record found off its chain and puts it, blanked, on the free list. */
    method DoDelete(ghost key: string, ghost k: nat)
      requires Valid() && Found(key, k) && key in contents && !DeadAt(im, lists, ListOf(key))
      modifies `idx, `dat, `idxpos, `idxoff, `ptrval, `idxbuf, `datoff, `datlen, `im, `lists, `contents
      ensures Valid() && contents == old(contents) - {key}
      ensures var was := old(Room()); Room() == was.(free := was.free + multiset{(|key|, |old(contents)[key]| + 1)})
    {
      ghost var g, ls, m, l, o := im, lists, contents, ListOf(key), idxoff;
      Position(g, ls, {}, l, k + 1);
      Front(g, ls, {}, 0);
      DeleteInv(g, ls, m, l, k + 1);
      assert LiveAt(g, ls, m, l, k + 1);
      Bury();
      DeletedSpace(g, ls, l, k + 1);
      lists, contents := Put(Cut(ls, l, k + 1), 0, o), m - {key};
    }

    // ---- Storing ----

    /** Walks the free list until a record of the wanted lengths, or the end. */
    method WalkFree(keylen: nat, datlen: nat) returns (found: bool, from: nat, ghost k: nat)
      requires Valid()
      modifies `idxpos, `idxoff, `ptrval, `idxbuf, `datoff, `datlen
      ensures found <==> (keylen, datlen) in FreeSizes(im, lists)
      ensures found ==> FitsFree(im, lists[0], k + 1, keylen, datlen)
      ensures found ==> from == lists[0][k] && idxoff == lists[0][k + 1] && Loaded(idxoff)
    {
      ghost var g, ls := im, lists;
      ghost var s := ls[0];
      Front(g, ls, {}, 0);
      FreeHas(g, ls, keylen, datlen);
      from := FREE_OFF;
      var offset := ReadPtr(from);
      k := 0;
      while offset != 0
        invariant 0 <= k < |s| && from == s[k] && offset == After(s, k)
        invariant forall j: nat | j <= k :: !FitsFree(g, s, j, keylen, datlen)
        decreases |s| - k
      {
        Position(g, ls, {}, 0, k + 1);
        EndReads(g, idx, dat);
        assert SepFirst(g, ls, 0, k + 1);
        var nextoffset, died := ReadIdx(offset);
        if |idxbuf| == keylen && this.datlen == datlen {
          assert FitsFree(g, s, k + 1, keylen, datlen);
          return true, from, k;
        }
        from, offset, k := offset, nextoffset, k + 1;
      }
      found := false;
    }

    /** Takes the free record read last off the free list. */
    method TakeFree(from: nat, ghost k: nat, ghost l: nat)
      requires Valid() && 0 < l < NPTR && k + 1 < |lists[0]| && from == lists[0][k] && idxoff == lists[0][k + 1]
      requires Loaded(idxoff)
      modifies `idx, `idxpos, `im, `lists
      ensures PTR_SZ * l in im.ptr && PTR_SZ * l in old(im.ptr) && im.ptr[PTR_SZ * l] == old(im.ptr)[PTR_SZ * l]
      ensures idxoff <= PTR_MAX && Files() && Inv(im, lists, contents, {idxoff}) && SepsFirst(im, lists)
      ensures Loaded(idxoff)
      ensures var was := old(Room()); Room() == was.(free := was.free - multiset{(|idxbuf|, datlen)})
    {
      ghost var g, ls := im, lists;
      Front(g, ls, {}, l);
      Position(g, ls, {}, 0, k + 1);
      assert Differ(ls, 0, k, l, 0);
      Cell(g, idx, dat, idxoff);
      Cell(g, idx, dat, from);
      Taken(g, ls, contents, k + 1);
      var ok := WritePtr(from, ptrval);
      lists := Cut(ls, 0, k + 1);
    }

    /** Takes a free record of the wanted lengths off the free list, if there is one. */
    method FindFree(keylen: nat, datlen: nat, ghost l: nat) returns (found: bool)
      requires Valid() && 0 < l < NPTR
      modifies `idx, `idxpos, `idxoff, `ptrval, `idxbuf, `datoff, `datlen, `im, `lists
      ensures found <==> old((keylen, datlen) in Room().free)
      ensures var was := old(Room());
              Room() == if found then was.(free := was.free - multiset{(keylen, datlen)}) else was
      ensures PTR_SZ * l in im.ptr && PTR_SZ * l in old(im.ptr) && im.ptr[PTR_SZ * l] == old(im.ptr)[PTR_SZ * l]
      ensures !found ==> Valid()
      ensures found ==> idxoff <= PTR_MAX && Files() && Inv(im, lists, contents, {idxoff}) && Loaded(idxoff)
      ensures SepsFirst(im, lists)
      ensures found ==> |idxbuf| == keylen && this.datlen == datlen
    {
      Front(im, lists, {}, l);
      var from;
      ghost var k;
      found, from, k := WalkFree(keylen, datlen);
      if found {
        TakeFree(from, k, l);
      }
    }

    /** Writes a new record over a free one, and links it in front of its chain. */
    method Reuse(key: string, data: string, ptrval: nat)
      requires Files() && Inv(im, lists, contents, {idxoff}) && SepsFirst(im, lists) && Loaded(idxoff)
      requires |idxbuf| == |key| && datlen == |data| + 1
      requires CString(key) && key !in contents && ListOf(key) < NPTR && !DeadAt(im, lists, ListOf(key))
      requires chainoff == PTR_SZ * ListOf(key) && chainoff in im.ptr && ptrval == im.ptr[chainoff]
      requires idxoff <= PTR_MAX
      modifies `idx, `dat, `idxpos, `idxoff, `ptrval, `idxbuf, `datoff, `datlen, `im, `lists, `contents
      ensures Valid() && contents == old(contents)[key := data]
      ensures Room() == Spoiled(old(Room()), key)
    {
      ghost var g, ls, m, l, o := im, lists, contents, ListOf(key), idxoff;
      ReuseInv(g, ls, m, o, key, data);
      ReusedSpace(g, ls, o, key, data);
      Cell(g, idx, dat, chainoff);
      ReplaceData(data);
      RewriteRecord(key, ptrval);
      var ok := WritePtr(chainoff, idxoff);
      assert im == Reused(g, o, l, key, data);
      lists, contents := Put(ls, l, o), m[key := data];
    }

    /** Writes a new record behind the last of both files; it is on no list yet. */
    method WriteNew(key: string, data: string, ptrval: nat) returns (ok: bool)
      requires Files() && CString(key) && DataFits(data) && ptrval <= PTR_MAX
      modifies `idx, `dat, `idxpos, `idxoff, `ptrval, `idxbuf, `datoff, `datlen, `im
      ensures ok <==> TailFits(key, old(|dat|), |data| + 1)
      ensures ok ==> Files() && idxoff == old(|idx|) && im == AddRecord(old(im), idxoff, ptrval, Info(key, old(|dat|), data))
      ensures ok ==> |dat| == old(|dat|) + |data| + 1
      ensures ok ==> |idx| == old(|idx|) + PTR_SZ + IDXLEN_SZ + |Tail(key, old(|dat|), |data| + 1)|
    {
      ghost var g, i := im, Info(key, |dat|, data);
      RecordAppends(g, idx, dat, ptrval, key, data);
      WriteEnd(dat, data + [NEWLINE]);
      ghost var was := idx;
      WriteDat(data, 0, SeekEnd);
      ok := WriteIdx(key, 0, SeekEnd, ptrval);
      if ok {
        RecordLength(was, ptrval, key, datoff, datlen);
        im := AddRecord(g, idxoff, ptrval, i);
        AddedLegal(g, idxoff, ptrval, i);
      }
    }

    /** Appends a new record to both files, and links it in front of its chain. */
    method Append(key: string, data: string, ptrval: nat) returns (ok: bool)
      requires Valid() && CString(key) && key !in contents && ListOf(key) < NPTR && DataFits(data)
      requires !DeadAt(im, lists, ListOf(key))
      requires chainoff == PTR_SZ * ListOf(key) && chainoff in im.ptr && ptrval == im.ptr[chainoff]
      modifies `idx, `dat, `idxpos, `idxoff, `ptrval, `idxbuf, `datoff, `datlen, `im, `lists, `contents
      ensures ok <==> old(AppendFits(Room(), key, data))
      ensures ok ==> Valid() && contents == old(contents)[key := data]
      ensures ok ==> Room() == Spoiled(Extended(old(Room()), key, data), key)
    {
      ghost var g, ls, m, l, o, i := im, lists, contents, ListOf(key), |idx|, Info(key, |dat|, data);
      EndReads(g, idx, dat);
      Cell(g, idx, dat, chainoff);
      AppendInv(g, ls, m, o, i);
      AppendedSpace(g, ls, o, i);
      ok := WriteNew(key, data, ptrval);
      if ok {
        ok := WritePtr(chainoff, idxoff);
        if ok {
          lists, contents := Put(ls, l, o), m[key := data];
        }
      }
    }

    /** The branch of db_store for a key that is not in the database. */
    method StoreNew(key: string, data: string) returns (ok: bool)
      requires Valid() && CString(key) && key !in contents && ListOf(key) < NPTR && DataFits(data)
      requires !DeadAt(im, lists, ListOf(key)) && chainoff == PTR_SZ * ListOf(key)
      modifies `idx, `dat, `idxpos, `idxoff, `ptrval, `idxbuf, `datoff, `datlen, `im, `lists, `contents
      ensures ok <==> old((|key|, |data| + 1) in Room().free || AppendFits(Room(), key, data))
      ensures ok ==> Valid() && contents == old(contents)[key := data] && Room() == Added(old(Room()), key, data)
    {
      ghost var was := DeadSet(im, lists);
      Front(im, lists, {}, ListOf(key));
      var ptrval := ReadPtr(chainoff);
      var found := FindFree(|key|, |data| + 1, ListOf(key));
      assert ListOf(key) !in was && ListOf(key) !in DeadSet(im, lists);
      if found {
        Reuse(key, data, ptrval);
        ok := true;
      } else {
        ok := Append(key, data, ptrval);
      }
    }

    /** Deletes the record found, and appends one for the same key. */
    method StoreAnew(key: string, data: string, ghost k: nat) returns (ok: bool)
      requires Valid() && CString(key) && Found(key, k) && key in contents && !DeadAt(im, lists, ListOf(key))
      requires 0 < ListOf(key) < NPTR && DataFits(data) && SEP !in key
      modifies `idx, `dat, `idxpos, `idxoff, `ptrval, `idxbuf, `datoff, `datlen, `im, `lists, `contents
      ensures ok <==> old(AppendFits(Room(), key, data))
      ensures ok ==> Valid() && contents == old(contents)[key := data]
      ensures ok ==> var was := old(Room());
                     Room() == Extended(was.(free := was.free + multiset{(|key|, |old(contents)[key]| + 1)}), key, data)
    {
      ghost var m, l := contents, ListOf(key);
      DoDelete(key, k);
      assert l !in Room().dead;
      Front(im, lists, {}, l);
      var ptrval := ReadPtr(chainoff);
      ok := Append(key, data, ptrval);
      assert (m - {key})[key := data] == m[key := data];
    }

    /** The branch of db_store for a key whose record has been found. */
    method StoreOver(key: string, data: string, ghost k: nat) returns (ok: bool)
      requires Valid() && CString(key) && Found(key, k) && key in contents && !DeadAt(im, lists, ListOf(key))
      requires 0 < ListOf(key) < NPTR && DataFits(data)
      modifies `idx, `dat, `idxpos, `idxoff, `ptrval, `idxbuf, `datoff, `datlen, `im, `lists, `contents
      ensures ok <==> old(|data| == |contents[key]| || AppendFits(Room(), key, data))
      ensures ok ==> Valid() && contents == old(contents)[key := data]
      ensures ok ==> Room() == Replaced(old(Room()), key, old(contents)[key], data)
    {
      assert LiveAt(im, lists, contents, ListOf(key), k + 1);
      ReadableKey(im, lists, ListOf(key), k + 1);
      if |data| + 1 != datlen {
        ok := StoreAnew(key, data, k);
      } else {
        Overwrite(im, lists, contents, {}, ListOf(key), k + 1, data);
        RedoneSpace(im, lists, idxoff, data);
        ReplaceData(data);
        contents := contents[key := data];
        ok := true;
      }
    }

    // ---- The calls of the library ----

    method Fetch(key: string) returns (r: Option<string>, died: bool)
      requires Valid()
      modifies `idxpos, `idxoff, `ptrval, `idxbuf, `datoff, `datlen, `ptroff, `chainoff
      ensures Valid() && Room() == old(Room())
      ensures died <==> Dies(Room(), contents, FetchCall(key))
      ensures !died ==> r == if key in contents then Some(contents[key]) else None
    {
      var found;
      ghost var k;
      found, died, k := FindAndLock(key);
      if !found {
        return None, died;
      }
      assert LiveAt(im, lists, contents, ListOf(key), k + 1);
      var s := ReadDat();
      r := Some(s);
    }

    method Delete(key: string) returns (r: Outcome)
      requires Valid()
      modifies this
      ensures Valid() && (r == Died <==> old(Dies(Room(), contents, DeleteCall(key))))
      ensures r == Died ==> contents == old(contents) && Room() == old(Room())
      ensures r != Died ==> r.rc == if key in old(contents) then 0 else -1
      ensures r != Died ==> contents == old(contents) - {key}
      ensures r != Died ==> Room() == SpaceAfter(old(Room()), old(contents), DeleteCall(key))
    {
      var found, died;
      ghost var k;
      found, died, k := FindAndLock(key);
      if died {
        return Died;
      }
      if found {
        DoDelete(key, k);
        r := Returned(0);
      } else {
        r := Returned(-1);
      }
    }

    /**
     Ends the process exactly when Dies says so, and writes nothing then unless an append had no
     room. A key with a separator is stored like any other; from then on its chain is dead.
     */
    method Store(key: string, data: string, flag: int) returns (r: Outcome)
      requires Valid() && CString(key) && NUL !in data
      modifies this
      ensures r == Died <==> old(Dies(Room(), contents, StoreCall(key, data, flag)))
      ensures r != Died ==> Valid() && (contents, r.rc) == StoreSpec(old(contents), key, data, flag)
      ensures r != Died ==> Room() == SpaceAfter(old(Room()), old(contents), StoreCall(key, data, flag))
      ensures r == Died && !old(NoRoom(Room(), contents, key, data, flag)) ==>
        Valid() && contents == old(contents) && idx == old(idx) && dat == old(dat)
    {
      if flag != DB_INSERT && flag != DB_REPLACE && flag != DB_STORE {
        return Returned(-1);
      }
      var datlen := |data| + 1;
      if datlen < DATLEN_MIN || datlen > DATLEN_MAX {
        return Died;
      }
      var found, died;
      ghost var k;
      found, died, k := FindAndLock(key);
      if died {
        return Died;
      }
      var ok;
      if !found {
        if flag == DB_REPLACE {
          return Returned(-1);
        }
        ok := StoreNew(key, data);
      } else {
        if flag == DB_INSERT {
          return Returned(1);
        }
        ok := StoreOver(key, data, k);
      }
      r := if ok then Returned(0) else Died;
    }

    // ---- Reading in file order ----

    method Rewind()
      modifies `idxpos, `idxoff
      ensures idxpos == HEADER && idxoff == HEADER
    {
      var offset := (NHASH + 1) * PTR_SZ;
      idxpos := offset + 1;
      idxoff := idxpos;
    }

    method IsBlank(s: string) returns (blank: bool)
      ensures blank <==> AllBlank(s)
    {
      var i := 0;
      while i < |s| && s[i] == SPACE
        invariant 0 <= i <= |s| && forall j | 0 <= j < i :: s[j] == SPACE
      {
        i := i + 1;
      }
      blank := i == |s|;
    }

    /** Returns the next record whose key is not blank, skipping all others, unless it cannot be read. */
    method NextRec(ghost i: nat) returns (r: Option<(string, string)>, died: bool)
      requires Valid() && i <= |im.order| && idxpos == Pos(im, idx, i)
      modifies `idxpos, `idxoff, `ptrval, `idxbuf, `datoff, `datlen
      ensures Valid()
      ensures var j := NextLive(im, i);
              && i <= j <= |im.order|
              && (died <==> j < |im.order| && SEP in Pair(im, j).0)
              && (!died ==> idxpos == Pos(im, idx, j + 1))
              && (!died ==> r == if j < |im.order| then Some(Pair(im, j)) else None)
    {
      ghost var g, j := im, i;
      var blank := true;
      while blank
        invariant i <= j <= |g.order| && NextLive(g, j) == NextLive(g, i)
        invariant idxpos == Pos(g, idx, if blank then j else j + 1)
        invariant !blank ==> j < |g.order| && !BlankAt(g, j) && Loaded(g.order[j]) && !SepAt(g, g.order[j])
        decreases if blank then 1 else 0, |g.order| - j
      {
        FilesTiled(g, idx, dat, j);
        EndReads(g, idx, dat);
        var next, bad := ReadIdx(0);
        if bad {
          assert !BlankAt(g, j);
          return None, true;
        }
        if next < 0 {
          return None, false;
        }
        blank := IsBlank(idxbuf);
        if blank {
          j := j + 1;
        }
      }
      var s := ReadDat();
      r, died := Some((idxbuf, s)), false;
    }
  }
}
