/** The steps that move a record between lists, add one, or finish a call. */
module DbLocksWrites {
  import opened Codec
  import opened Links
  import opened Layout
  import opened DbFiles
  import opened DbChains
  import opened DbSpec
  import opened Wrappers
  import opened DbLocks
  import opened DbLocksInv
  import opened DbLocksSteps

  /** A process without a pending write has none on its own chain either. */
  lemma NoPend(s: State, p: Pid, k: nat)
    requires Sound(s) && ChainHeld(PcOf(s, p)) && PendOf(PcOf(s, p)) == None
    requires L(PcOf(s, p).c) < NPTR && k < |s.a.lists[L(PcOf(s, p).c)]|
    ensures s.a.lists[L(PcOf(s, p).c)][k] !in s.a.pend
  {
    assert SoundNow(0, s);
    var l := L(PcOf(s, p).c);
    var f := s.a.lists[l][k];
    Chains(s);
    if f in s.a.pend {
      PendPlace(s, f);
      var q := s.a.pend[f];
      if q != p {
        ChainsApart(s, q, p);
        NotOnOther(s, l, k, L(PcOf(s, q).c));
      }
    }
  }

  lemma NoFreePend(s: State, k: nat)
    requires Sound(s) && k < |s.a.lists[0]|
    ensures s.a.lists[0][k] !in s.a.pend
  {
    assert SoundNow(0, s);
    var f := s.a.lists[0][k];
    Chains(s);
    if f in s.a.pend {
      PendPlace(s, f);
      NotOnOther(s, 0, k, L(PcOf(s, s.a.pend[f]).c));
    }
  }

  // ---- Taking the record off its chain ----

  ghost predicate DelAt(s: State, p: Pid, c: Call, from: nat, off: nat, next: nat, k: nat) {
    && Sound(s) && PcOf(s, p) == DelData(c, from, off, next, k)
    && 0 < L(c) < NPTR && k + 1 < |s.a.lists[L(c)]| && s.a.lists[L(c)][k] == from && s.a.lists[L(c)][k + 1] == off
    && off in s.f.rec && off in s.a.im.info && from in s.a.im.ptr && from in s.f.ptr
    && off in s.a.im.ptr && next == s.a.im.ptr[off]
    && s.f.rec[off] == Entry(c.key, s.a.im.info[off].datoff, |s.a.im.info[off].data| + 1)
    && s.a.im.info[off].key == c.key && s.f.rec[off].datoff in s.f.dat
    && from != off && from !in s.a.pend && off !in s.a.owner && from !in s.a.owner
    && c.key in s.a.m && Removing(c)
  }

  lemma DelPlaceFacts(s: State, p: Pid, c: Call, from: nat, off: nat, next: nat, k: nat)
    requires Sound(s) && PcOf(s, p) == DelData(c, from, off, next, k)
    ensures DelAt(s, p, c, from, off, next, k)
  {
    assert SoundNow(0, s);
    assert PcOk(s, p);
    ListBounds(c);
    Chains(s);
    Position(s.a.im, s.a.lists, s.a.owner.Keys, L(c), k + 1);
    RecordValue(s, L(c), k + 1);
    CellValue(s, p, k);
    NoPend(s, p, k);
    assert LiveAt(s.a.im, s.a.lists, s.a.em, L(c), k + 1);
    assert Accounted(s.a.im, s.a.lists, s.a.owner.Keys, from);
    assert s.a.lists[L(c)][k] in s.a.lists[L(c)];
  }

  lemma DelDataOwned(s: State, p: Pid, c: Call, from: nat, off: nat, next: nat, k: nat)
    requires DelAt(s, p, c, from, off, next, k)
    ensures var t := BlankData(s, p, c, from, off, next, k);
            (forall o: nat :: OwnOk(t, o)) && (forall f: nat :: PendOk(t, f)) && PcOwn(t, p)
  {
    assert SoundNow(0, s);
    var t := BlankData(s, p, c, from, off, next, k);
    forall o: nat
      ensures OwnOk(t, o)
    {
      assert OwnOk(s, o);
    }
    forall f: nat
      ensures PendOk(t, f)
    {
      assert PendOk(s, f);
    }
  }

  lemma DelDataInv(s: State, p: Pid, c: Call, from: nat, off: nat, next: nat, k: nat)
    requires DelAt(s, p, c, from, off, next, k)
    ensures Chained(BlankData(s, p, c, from, off, next, k))
  {
    assert SoundNow(0, s);
    var t := BlankData(s, p, c, from, off, next, k);
    var blank := Blanks(s.f.rec[off].datlen - 1);
    Chains(s);
    ChainCut(s.a.im, s.a.lists, s.a.em, s.a.owner.Keys, L(c), k + 1);
    var im1 := SetPtr(s.a.im, from, next);
    var i := s.a.im.info[off].(data := blank);
    LooseRewrite(im1, Cut(s.a.lists, L(c), k + 1), s.a.em - {c.key}, s.a.owner.Keys + {off}, off, im1.ptr[off], i);
    assert SetRecord(im1, off, im1.ptr[off], i) == t.a.im;
    assert t.a.owner.Keys == s.a.owner.Keys + {off};
    ChainsBack(t);
  }

  lemma DelDataSynced(s: State, p: Pid, c: Call, from: nat, off: nat, next: nat, k: nat)
    requires DelAt(s, p, c, from, off, next, k)
    ensures Synced(BlankData(s, p, c, from, off, next, k))
  {
    assert SoundNow(0, s);
    var t := BlankData(s, p, c, from, off, next, k);
    assert EntrySync(s, off) && LockOk(s, p);
    forall x: nat
      ensures CellSync(t, x)
    {
      assert CellSync(s, x);
    }
    forall o: nat
      ensures EntrySync(t, o)
    {
      assert EntrySync(s, o);
    }
    forall d: nat
      ensures DatSync(t, d)
    {
      assert DatSync(s, d);
    }
    forall d: nat, e: nat
      ensures DatApart(t, d, e)
    {
      assert DatApart(s, d, e);
    }
    forall key
      ensures KeySync(t, key)
    {
      assert KeySync(s, key);
    }
  }

  lemma DelDataKept(s: State, p: Pid, c: Call, from: nat, off: nat, next: nat, k: nat)
    requires DelAt(s, p, c, from, off, next, k)
    ensures Kept(s, BlankData(s, p, c, from, off, next, k), p)
  {
    assert SoundNow(0, s);
    var t := BlankData(s, p, c, from, off, next, k);
    assert EntrySync(s, off);
    assert s.a.lists[L(c)][k + 1] in s.a.lists[L(c)];
    forall o: nat
      ensures InfoKept(s, t, p, o) && OwnKept(s, t, p, o)
    {
    }
  }

  lemma DelDataSound(s: State, p: Pid, c: Call, from: nat, off: nat, next: nat, k: nat)
    requires Sound(s) && PcOf(s, p) == DelData(c, from, off, next, k)
    ensures DelAt(s, p, c, from, off, next, k)
    ensures Sound(BlankData(s, p, c, from, off, next, k))
  {
    assert SoundNow(0, s);
    DelPlaceFacts(s, p, c, from, off, next, k);
    var t := BlankData(s, p, c, from, off, next, k);
    DelDataInv(s, p, c, from, off, next, k);
    DelDataOwned(s, p, c, from, off, next, k);
    DelDataSynced(s, p, c, from, off, next, k);
    DelDataKept(s, p, c, from, off, next, k);
    assert t.a.lists[L(c)] == Without(s.a.lists[L(c)], k + 1);
    assert PcOk(s, p);
    EffectSound(s, t, p, DelReadFree(c, from, off, next, k));
  }

  // ---- Putting it on the free list ----

  ghost predicate PutAt(s: State, p: Pid, c: Call, from: nat, off: nat, next: nat, k: nat) {
    && Sound(s) && PcOf(s, p) == DelHead(c, from, off, next, k)
    && |s.a.lists[0]| > 0 && s.a.lists[0][0] == 0 && 0 in s.f.ptr && 0 in s.a.im.ptr && 0 !in s.a.pend && 0 !in s.a.owner
    && off in s.a.owner && s.a.owner[off] == p && off != 0 && off in s.a.im.info && off in s.a.im.ptr
    && s.a.im.ptr[off] == s.a.im.ptr[0] && AllBlank(s.a.im.info[off].key) && AllBlank(s.a.im.info[off].data)
    && s.lk.freeLock == Some(p)
  }

  lemma PutFacts(s: State, p: Pid, c: Call, from: nat, off: nat, next: nat, k: nat)
    requires Sound(s) && PcOf(s, p) == DelHead(c, from, off, next, k)
    ensures PutAt(s, p, c, from, off, next, k)
  {
    assert SoundNow(0, s);
    assert PcOk(s, p) && LockOk(s, p);
    OwnValue(s, p, off);
    FreeHeadValue(s);
    NoFreePend(s, 0);
    assert CellSync(s, 0);
    Chains(s);
    assert Accounted(s.a.im, s.a.lists, s.a.owner.Keys, 0);
  }

  lemma PutSynced(s: State, p: Pid, c: Call, from: nat, off: nat, next: nat, k: nat)
    requires PutAt(s, p, c, from, off, next, k)
    ensures Synced(PutFree(s, p, c, from, off, next, k)) && Kept(s, PutFree(s, p, c, from, off, next, k), p)
  {
    assert SoundNow(0, s);
    var t := PutFree(s, p, c, from, off, next, k);
    assert LockOk(s, p);
    forall x: nat
      ensures CellSync(t, x)
    {
      assert CellSync(s, x);
    }
    forall o: nat
      ensures EntrySync(t, o)
    {
      assert EntrySync(s, o);
    }
    forall d: nat
      ensures DatSync(t, d)
    {
      assert DatSync(s, d);
    }
    forall d: nat, e: nat
      ensures DatApart(t, d, e)
    {
      assert DatApart(s, d, e);
    }
    forall key
      ensures KeySync(t, key)
    {
      assert KeySync(s, key);
    }
  }

  lemma PutChained(s: State, p: Pid, c: Call, from: nat, off: nat, next: nat, k: nat)
    requires PutAt(s, p, c, from, off, next, k)
    ensures var t := PutFree(s, p, c, from, off, next, k);
      Chained(t) && (forall o: nat :: OwnOk(t, o)) && forall f: nat :: PendOk(t, f)
  {
    assert SoundNow(0, s);
    var t := PutFree(s, p, c, from, off, next, k);
    Chains(s);
    FreePut(s.a.im, s.a.lists, s.a.em, s.a.owner.Keys, off);
    assert t.a.owner.Keys == s.a.owner.Keys - {off};
    ChainsBack(t);
    assert PcOk(s, p) && PcOwn(s, p);
    forall o: nat
      ensures OwnOk(t, o)
    {
      assert OwnOk(s, o);
    }
    forall f: nat
      ensures PendOk(t, f)
    {
      assert PendOk(s, f);
    }
  }

  lemma DelHeadSound(s: State, p: Pid, c: Call, from: nat, off: nat, next: nat, k: nat)
    requires Sound(s) && PcOf(s, p) == DelHead(c, from, off, next, k)
    ensures PutAt(s, p, c, from, off, next, k)
    ensures Sound(PutFree(s, p, c, from, off, next, k))
  {
    Known(s, p);
    PutFacts(s, p, c, from, off, next, k);
    PutSynced(s, p, c, from, off, next, k);
    PutChained(s, p, c, from, off, next, k);
    ListBounds(c);
    EffectSound(s, PutFree(s, p, c, from, off, next, k), p, DelChain(c, from, next, k));
  }

  // ---- Doing the pending write ----

  lemma BypassSynced(s: State, p: Pid, c: Call, from: nat, next: nat, k: nat)
    requires Sound(s) && PcOf(s, p) == DelChain(c, from, next, k)
    requires from in s.a.im.ptr && s.a.im.ptr[from] == next && from in s.a.pend && s.a.pend[from] == p
    ensures Synced(Bypass(s, p, c, from, next)) && Kept(s, Bypass(s, p, c, from, next), p)
  {
    assert SoundNow(0, s);
    var t := Bypass(s, p, c, from, next);
    assert CellSync(s, from);
    forall x: nat
      ensures CellSync(t, x)
    {
      assert CellSync(s, x);
    }
    forall o: nat
      ensures EntrySync(t, o)
    {
      assert EntrySync(s, o);
    }
    forall d: nat
      ensures DatSync(t, d)
    {
      assert DatSync(s, d);
    }
    forall d: nat, e: nat
      ensures DatApart(t, d, e)
    {
      assert DatApart(s, d, e);
    }
    forall key
      ensures KeySync(t, key)
    {
      assert KeySync(s, key);
    }
  }

  lemma DelChainSound(s: State, p: Pid, c: Call, from: nat, next: nat, k: nat)
    requires Sound(s) && PcOf(s, p) == DelChain(c, from, next, k)
    ensures from in s.f.ptr && Sound(Bypass(s, p, c, from, next))
  {
    assert SoundNow(0, s);
    assert PcOk(s, p) && PcOwn(s, p);
    Chains(s);
    ListBounds(c);
    assert Spells(s.a.im.ptr, s.a.lists[L(c)]) && Points(s.a.im.ptr, s.a.lists[L(c)], k);
    assert CellSync(s, from);
    var t := Bypass(s, p, c, from, next);
    BypassSynced(s, p, c, from, next, k);
    ChainsBack(t);
    forall o: nat
      ensures OwnOk(t, o)
    {
      assert OwnOk(s, o);
    }
    forall f: nat
      ensures PendOk(t, f)
    {
      assert PendOk(s, f);
    }
    EffectSound(s, t, p, DelUnlock(c));
  }

  // ---- Taking a record off the free list ----

  ghost predicate TakeAt(s: State, p: Pid, c: Call, head: nat, from: nat, off: nat, next: nat, k: nat) {
    && Sound(s) && PcOf(s, p) == FreeTake(c, head, from, off, next, k)
    && k + 1 < |s.a.lists[0]| && s.a.lists[0][k] == from && s.a.lists[0][k + 1] == off
    && from in s.f.ptr && from in s.a.im.ptr && off in s.a.im.ptr && off in s.a.im.info && next == s.a.im.ptr[off]
    && from != off && from !in s.a.pend && from !in s.a.owner && off !in s.a.owner
    && s.lk.freeLock == Some(p)
  }

  lemma TakeFacts(s: State, p: Pid, c: Call, head: nat, from: nat, off: nat, next: nat, k: nat)
    requires Sound(s) && PcOf(s, p) == FreeTake(c, head, from, off, next, k)
    ensures TakeAt(s, p, c, head, from, off, next, k)
  {
    assert SoundNow(0, s);
    assert PcOk(s, p) && LockOk(s, p);
    Chains(s);
    Position(s.a.im, s.a.lists, s.a.owner.Keys, 0, k + 1);
    FreeValue(s, k);
    NoFreePend(s, k);
    assert Accounted(s.a.im, s.a.lists, s.a.owner.Keys, from);
    assert s.a.lists[0][k] in s.a.lists[0];
  }

  lemma TakeSynced(s: State, p: Pid, c: Call, head: nat, from: nat, off: nat, next: nat, k: nat)
    requires TakeAt(s, p, c, head, from, off, next, k)
    ensures Synced(TakeFree(s, p, c, head, from, off, next, k))
    ensures Kept(s, TakeFree(s, p, c, head, from, off, next, k), p)
  {
    assert SoundNow(0, s);
    var t := TakeFree(s, p, c, head, from, off, next, k);
    assert LockOk(s, p);
    forall x: nat
      ensures CellSync(t, x)
    {
      assert CellSync(s, x);
    }
    forall o: nat
      ensures EntrySync(t, o)
    {
      assert EntrySync(s, o);
    }
    forall d: nat
      ensures DatSync(t, d)
    {
      assert DatSync(s, d);
    }
    forall d: nat, e: nat
      ensures DatApart(t, d, e)
    {
      assert DatApart(s, d, e);
    }
    forall key
      ensures KeySync(t, key)
    {
      assert KeySync(s, key);
    }
  }

  lemma TakeChained(s: State, p: Pid, c: Call, head: nat, from: nat, off: nat, next: nat, k: nat)
    requires TakeAt(s, p, c, head, from, off, next, k)
    ensures var t := TakeFree(s, p, c, head, from, off, next, k);
            Chained(t) && (forall o: nat :: OwnOk(t, o)) && (forall f: nat :: PendOk(t, f)) && PcOwn(t, p)
  {
    assert SoundNow(0, s);
    var t := TakeFree(s, p, c, head, from, off, next, k);
    Chains(s);
    FreeCut(s.a.im, s.a.lists, s.a.em, s.a.owner.Keys, k + 1);
    assert t.a.owner.Keys == s.a.owner.Keys + {off};
    ChainsBack(t);
    forall o: nat
      ensures OwnOk(t, o)
    {
      assert OwnOk(s, o);
    }
    forall f: nat
      ensures PendOk(t, f)
    {
      assert PendOk(s, f);
    }
  }

  lemma FreeTakeSound(s: State, p: Pid, c: Call, head: nat, from: nat, off: nat, next: nat, k: nat)
    requires Sound(s) && PcOf(s, p) == FreeTake(c, head, from, off, next, k)
    ensures TakeAt(s, p, c, head, from, off, next, k)
    ensures Sound(TakeFree(s, p, c, head, from, off, next, k))
  {
    assert SoundNow(0, s);
    TakeFacts(s, p, c, head, from, off, next, k);
    var t := TakeFree(s, p, c, head, from, off, next, k);
    TakeSynced(s, p, c, head, from, off, next, k);
    TakeChained(s, p, c, head, from, off, next, k);
    assert PcOk(s, p);
    ListBounds(c);
    EffectSound(s, t, p, FreeUnlock(c, head, Some(off)));
  }

  // ---- Overwriting data on the chain ----

  ghost predicate OverAt(s: State, p: Pid, c: Call, off: nat, k: nat) {
    && Sound(s) && PcOf(s, p) == OverDat(c, off, k) && c.StoreCall?
    && 0 < L(c) < NPTR && 0 < k < |s.a.lists[L(c)]| && s.a.lists[L(c)][k] == off
    && off in s.f.rec && off in s.a.im.info && s.a.im.info[off].key == c.key
    && s.f.rec[off].datoff == s.a.im.info[off].datoff && s.f.rec[off].datoff in s.f.dat
    && |s.a.im.info[off].data| == |c.data| && c.key in s.a.m
  }

  lemma OverFacts(s: State, p: Pid, c: Call, off: nat, k: nat)
    requires Sound(s) && PcOf(s, p) == OverDat(c, off, k)
    ensures OverAt(s, p, c, off, k)
  {
    assert SoundNow(0, s);
    assert PcOk(s, p);
    ListBounds(c);
    RecordValue(s, L(c), k);
    Chains(s);
    assert LiveAt(s.a.im, s.a.lists, s.a.em, L(c), k);
  }

  lemma OverSynced(s: State, p: Pid, c: Call, off: nat, k: nat)
    requires OverAt(s, p, c, off, k)
    ensures var t := WriteData(s, p, Finish(c, Code(0)), off, c.data, s.a.em[c.key := c.data]);
            Synced(t) && Kept(s, t, p)
  {
    assert SoundNow(0, s);
    var t := WriteData(s, p, Finish(c, Code(0)), off, c.data, s.a.em[c.key := c.data]);
    assert EntrySync(s, off) && LockOk(s, p);
    assert s.a.lists[L(c)][k] in s.a.lists[L(c)];
    forall x: nat
      ensures CellSync(t, x)
    {
      assert CellSync(s, x);
    }
    forall o: nat
      ensures EntrySync(t, o)
    {
      assert EntrySync(s, o);
    }
    forall d: nat
      ensures DatSync(t, d)
    {
      assert DatSync(s, d);
    }
    forall d: nat, e: nat
      ensures DatApart(t, d, e)
    {
      assert DatApart(s, d, e);
    }
    forall key
      ensures KeySync(t, key)
    {
      assert KeySync(s, key);
    }
  }

  lemma OverChained(s: State, p: Pid, c: Call, off: nat, k: nat)
    requires OverAt(s, p, c, off, k)
    ensures Chained(WriteData(s, p, Finish(c, Code(0)), off, c.data, s.a.em[c.key := c.data]))
  {
    assert SoundNow(0, s);
    Chains(s);
    Overwrite(s.a.im, s.a.lists, s.a.em, s.a.owner.Keys, L(c), k, c.data);
    ChainsBack(WriteData(s, p, Finish(c, Code(0)), off, c.data, s.a.em[c.key := c.data]));
  }

  lemma OverDatSound(s: State, p: Pid, c: Call, off: nat, k: nat)
    requires Sound(s) && PcOf(s, p) == OverDat(c, off, k)
    ensures OverAt(s, p, c, off, k)
    ensures Sound(WriteData(s, p, Finish(c, Code(0)), off, c.data, s.a.em[c.key := c.data]))
  {
    OverFacts(s, p, c, off, k);
    var t := WriteData(s, p, Finish(c, Code(0)), off, c.data, s.a.em[c.key := c.data]);
    OverSynced(s, p, c, off, k);
    OverChained(s, p, c, off, k);
    Known(s, p);
    OthersKept(s, t, p, Finish(c, Code(0)));
    HoldingsStay(s, t, p);
    EffectSound(s, t, p, Finish(c, Code(0)));
  }

  // ---- Appending ----

  lemma AppendDataSynced(s: State, p: Pid, c: Call, head: nat)
    requires Sound(s) && PcOf(s, p) == DatWrite(c, head) && c.StoreCall? && s.f.datEnd !in s.f.dat
    ensures Synced(AppendData(s, p, c, head)) && Kept(s, AppendData(s, p, c, head), p)
  {
    assert SoundNow(0, s);
    var t := AppendData(s, p, c, head);
    assert DatSync(s, s.f.datEnd);
    forall x: nat
      ensures CellSync(t, x)
    {
      assert CellSync(s, x);
    }
    forall o: nat
      ensures EntrySync(t, o)
    {
      assert EntrySync(s, o);
    }
    forall d: nat
      ensures DatSync(t, d)
    {
      assert DatSync(s, d);
    }
    forall d: nat, e: nat
      ensures DatApart(t, d, e)
    {
      assert DatApart(s, d, e) && DatSync(s, d) && DatSync(s, e);
    }
    forall key
      ensures KeySync(t, key)
    {
      assert KeySync(s, key);
    }
  }

  lemma AppendDataChained(s: State, p: Pid, c: Call, head: nat)
    requires Sound(s) && PcOf(s, p) == DatWrite(c, head) && c.StoreCall? && s.f.datEnd !in s.f.dat
    ensures var t := AppendData(s, p, c, head);
            Chained(t) && (forall o: nat :: OwnOk(t, o)) && (forall f: nat :: PendOk(t, f)) && PcOwn(t, p)
  {
    assert SoundNow(0, s);
    var t := AppendData(s, p, c, head);
    Chains(s);
    ChainsBack(t);
    forall o: nat
      ensures OwnOk(t, o)
    {
      assert OwnOk(s, o);
    }
    forall f: nat
      ensures PendOk(t, f)
    {
      assert PendOk(s, f);
    }
  }

  lemma EndOfData(s: State)
    requires Sound(s)
    ensures s.f.datEnd !in s.f.dat
  {
    assert SoundNow(0, s);
    assert DatSync(s, s.f.datEnd);
  }

  lemma DatWriteSound(s: State, p: Pid, c: Call, head: nat)
    requires Sound(s) && PcOf(s, p) == DatWrite(c, head)
    ensures c.StoreCall? && s.f.datEnd !in s.f.dat && Sound(AppendData(s, p, c, head))
  {
    Known(s, p);
    EndOfData(s);
    var t := AppendData(s, p, c, head);
    AppendDataSynced(s, p, c, head);
    AppendDataChained(s, p, c, head);
    EffectSound(s, t, p, DatUnlock(c, head, s.f.datEnd));
  }

  ghost predicate AddAt(s: State, p: Pid, c: Call, head: nat, d: nat) {
    && Sound(s) && PcOf(s, p) == IdxWrite(c, head, d) && c.StoreCall?
    && d in s.f.dat && s.f.dat[d] == c.data && d in s.a.user && s.a.user[d] == ByProcess(p)
    && s.f.idxEnd !in s.f.rec && s.f.idxEnd !in s.f.ptr && s.f.idxEnd !in s.a.im.info && s.f.idxEnd !in s.a.im.ptr
    && s.f.idxEnd !in s.a.owner && s.f.idxEnd !in s.a.pend && s.f.idxEnd > 0
  }

  lemma AddFacts(s: State, p: Pid, c: Call, head: nat, d: nat)
    requires Sound(s) && PcOf(s, p) == IdxWrite(c, head, d)
    ensures AddAt(s, p, c, head, d)
  {
    assert SoundNow(0, s);
    assert PcOk(s, p) && PcOwn(s, p);
    assert CellSync(s, s.f.idxEnd) && EntrySync(s, s.f.idxEnd);
    Chains(s);
    assert Accounted(s.a.im, s.a.lists, s.a.owner.Keys, s.f.idxEnd);
    if s.f.idxEnd in s.a.pend {
      PendPlace(s, s.f.idxEnd);
      var pc := PcOf(s, s.a.pend[s.f.idxEnd]);
      Spelled(s, L(pc.c), pc.k);
    }
  }

  lemma Spelled(s: State, l: nat, k: nat)
    requires Sound(s) && l < NPTR && k < |s.a.lists[l]|
    ensures s.a.lists[l][k] in s.a.im.ptr
  {
    assert SoundNow(0, s);
    Chains(s);
    assert Spells(s.a.im.ptr, s.a.lists[l]) && Points(s.a.im.ptr, s.a.lists[l], k);
  }

  lemma AppendRecordKept(s: State, p: Pid, c: Call, head: nat, d: nat)
    requires AddAt(s, p, c, head, d)
    ensures Kept(s, AppendRecord(s, p, c, head, d), p)
  {
    assert SoundNow(0, s);
  }

  lemma AppendRecordSynced(s: State, p: Pid, c: Call, head: nat, d: nat)
    requires AddAt(s, p, c, head, d)
    ensures Synced(AppendRecord(s, p, c, head, d))
  {
    assert SoundNow(0, s);
    var t := AppendRecord(s, p, c, head, d);
    forall x: nat
      ensures CellSync(t, x)
    {
      assert CellSync(s, x);
    }
    forall o: nat
      ensures EntrySync(t, o)
    {
      assert EntrySync(s, o);
    }
    forall e: nat
      ensures DatSync(t, e)
    {
      assert DatSync(s, e);
    }
    forall x: nat, y: nat
      ensures DatApart(t, x, y)
    {
      assert DatApart(s, x, y);
    }
    forall key
      ensures KeySync(t, key)
    {
      assert KeySync(s, key);
    }
  }

  lemma AppendRecordChained(s: State, p: Pid, c: Call, head: nat, d: nat)
    requires AddAt(s, p, c, head, d)
    ensures var t := AppendRecord(s, p, c, head, d);
            Chained(t) && (forall o: nat :: OwnOk(t, o)) && (forall f: nat :: PendOk(t, f)) && PcOwn(t, p)
  {
    assert SoundNow(0, s);
    var t := AppendRecord(s, p, c, head, d);
    Chains(s);
    LooseAppend(s.a.im, s.a.lists, s.a.em, s.a.owner.Keys, s.f.idxEnd, head, Info(c.key, d, c.data));
    assert t.a.owner.Keys == s.a.owner.Keys + {s.f.idxEnd};
    ChainsBack(t);
    forall o: nat
      ensures OwnOk(t, o)
    {
      assert OwnOk(s, o);
    }
    forall f: nat
      ensures PendOk(t, f)
    {
      assert PendOk(s, f);
    }
  }

  lemma IdxWriteSound(s: State, p: Pid, c: Call, head: nat, d: nat)
    requires Sound(s) && PcOf(s, p) == IdxWrite(c, head, d)
    ensures AddAt(s, p, c, head, d) && Sound(AppendRecord(s, p, c, head, d))
  {
    assert SoundNow(0, s);
    AddFacts(s, p, c, head, d);
    var t := AppendRecord(s, p, c, head, d);
    AppendRecordSynced(s, p, c, head, d);
    AppendRecordKept(s, p, c, head, d);
    AppendRecordChained(s, p, c, head, d);
    assert PcOk(s, p);
    EffectSound(s, t, p, IdxUnlock(c, s.f.idxEnd));
  }

  // ---- Linking a record in front of its chain ----

  ghost predicate LinkAt(s: State, p: Pid, c: Call, off: nat) {
    && Sound(s) && PcOf(s, p) == LinkIn(c, off) && Adding(s, c)
    && 0 < L(c) < NPTR && |s.a.lists[L(c)]| > 0 && s.a.lists[L(c)][0] == PTR_SZ * L(c)
    && PTR_SZ * L(c) in s.f.ptr && PTR_SZ * L(c) in s.a.im.ptr
    && PTR_SZ * L(c) !in s.a.pend && PTR_SZ * L(c) !in s.a.owner
    && off in s.a.owner && s.a.owner[off] == p && off in s.a.im.info && off in s.a.im.ptr
    && s.a.im.info[off].key == c.key && s.a.im.info[off].data == c.data
    && s.a.im.ptr[off] == s.a.im.ptr[PTR_SZ * L(c)]
  }

  lemma LinkFacts(s: State, p: Pid, c: Call, off: nat)
    requires Sound(s) && PcOf(s, p) == LinkIn(c, off)
    ensures LinkAt(s, p, c, off)
  {
    assert SoundNow(0, s);
    assert PcOk(s, p);
    HeadValue(s, p);
    NoPend(s, p, 0);
    OwnValue(s, p, off);
    assert CellSync(s, PTR_SZ * L(c));
    Chains(s);
    assert s.a.lists[L(c)][0] in s.a.lists[L(c)];
    assert Accounted(s.a.im, s.a.lists, s.a.owner.Keys, PTR_SZ * L(c));
  }

  lemma LinkSynced(s: State, p: Pid, c: Call, off: nat)
    requires LinkAt(s, p, c, off)
    ensures Synced(LinkRecord(s, p, c, off)) && Kept(s, LinkRecord(s, p, c, off), p)
  {
    assert SoundNow(0, s);
    var t := LinkRecord(s, p, c, off);
    assert LockOk(s, p);
    forall x: nat
      ensures CellSync(t, x)
    {
      assert CellSync(s, x);
    }
    forall o: nat
      ensures EntrySync(t, o)
    {
      assert EntrySync(s, o);
    }
    forall d: nat
      ensures DatSync(t, d)
    {
      assert DatSync(s, d);
    }
    forall d: nat, e: nat
      ensures DatApart(t, d, e)
    {
      assert DatApart(s, d, e);
    }
    forall key
      ensures KeySync(t, key)
    {
      assert KeySync(s, key);
    }
  }

  lemma LinkChained(s: State, p: Pid, c: Call, off: nat)
    requires LinkAt(s, p, c, off)
    ensures var t := LinkRecord(s, p, c, off);
      Chained(t) && (forall o: nat :: OwnOk(t, o)) && forall f: nat :: PendOk(t, f)
  {
    assert SoundNow(0, s);
    var t := LinkRecord(s, p, c, off);
    Chains(s);
    ChainPut(s.a.im, s.a.lists, s.a.em, s.a.owner.Keys, off, L(c));
    assert t.a.owner.Keys == s.a.owner.Keys - {off};
    ChainsBack(t);
    assert PcOk(s, p);
    forall o: nat
      ensures OwnOk(t, o)
    {
      assert OwnOk(s, o);
    }
    forall f: nat
      ensures PendOk(t, f)
    {
      assert PendOk(s, f);
    }
  }

  lemma LinkInSound(s: State, p: Pid, c: Call, off: nat)
    requires Sound(s) && PcOf(s, p) == LinkIn(c, off)
    ensures LinkAt(s, p, c, off) && Sound(LinkRecord(s, p, c, off))
  {
    Known(s, p);
    LinkFacts(s, p, c, off);
    LinkSynced(s, p, c, off);
    LinkChained(s, p, c, off);
    EffectSound(s, LinkRecord(s, p, c, off), p, Finish(c, Code(0)));
  }
}
