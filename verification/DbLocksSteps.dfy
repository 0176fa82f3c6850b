/** Every step of every process keeps the invariant. */
module DbLocksSteps {
  import opened Codec
  import opened Links
  import opened Layout
  import opened DbFiles
  import opened DbHash
  import opened DbChains
  import opened DbSpec
  import opened Wrappers
  import opened DbLocks
  import opened DbLocksInv

  // ---- Locks ----

  /** A lock after a step of p: p has it just when it should, and nobody else lost it. */
  ghost predicate Moved(before: Option<Pid>, after: Option<Pid>, p: Pid, held: bool) {
    if held then after == Some(p) && (before == None || before == Some(p))
    else after == if before == Some(p) then None else before
  }

  lemma LocksMoved(s: State, t: State, p: Pid)
    requires Locked(s) && t.lk.wr == s.lk.wr && t.lk.rd == s.lk.rd
    requires forall q: Pid | q != p :: PcKept(s, t, q)
    requires ChainHeld(PcOf(s, p)) && ChainHeld(PcOf(t, p)) && PcOf(t, p).c == PcOf(s, p).c
    requires Moved(s.lk.freeLock, t.lk.freeLock, p, FreeHeld(PcOf(t, p)))
    requires Moved(s.lk.datLock, t.lk.datLock, p, DatHeld(PcOf(t, p)))
    requires Moved(s.lk.idxLock, t.lk.idxLock, p, IdxHeld(PcOf(t, p)))
    ensures Locked(t)
  {
    forall q: Pid
      ensures LockOk(t, q)
    {
      assert LockOk(s, q) && LockOk(s, p) && (q != p ==> PcKept(s, t, q));
    }
    forall l: nat, q: Pid
      ensures ReaderOk(t, l, q)
    {
      assert ReaderOk(s, l, q) && (q != p ==> PcKept(s, t, q));
    }
    forall l: nat
      ensures ChainOk(t, l)
    {
      assert ChainOk(s, l) && (l in s.lk.wr && s.lk.wr[l] != p ==> PcKept(s, t, s.lk.wr[l]));
    }
  }

  lemma ChainLocked(s: State, p: Pid, c: Call)
    requires Locked(s) && PcOf(s, p) == Start(c) && Enabled(s, p)
    ensures Locked(LockChain(s, p, c))
  {
    var t := LockChain(s, p, c);
    assert LockOk(s, p);
    forall q: Pid
      ensures LockOk(t, q)
    {
      assert LockOk(s, q);
    }
    forall l: nat, q: Pid
      ensures ReaderOk(t, l, q)
    {
      assert ReaderOk(s, l, q);
    }
    forall l: nat
      ensures ChainOk(t, l)
    {
      assert ChainOk(s, l);
    }
  }

  lemma ChainUnlocked(s: State, p: Pid, c: Call)
    requires Locked(s) && ChainHeld(PcOf(s, p)) && PcOf(s, p).Finish? && PcOf(s, p).c == c
    ensures Locked(FinishCall(s, p, c))
  {
    var t := FinishCall(s, p, c);
    assert LockOk(s, p);
    forall q: Pid
      ensures LockOk(t, q)
    {
      assert LockOk(s, q) && ChainOk(s, L(c));
    }
    forall l: nat, q: Pid
      ensures ReaderOk(t, l, q)
    {
      assert ReaderOk(s, l, q) && ReaderOk(s, l, p) && ChainOk(s, l);
    }
    forall l: nat
      ensures ChainOk(t, l)
    {
      assert ChainOk(s, l) && ReaderOk(s, l, p);
    }
  }

  // ---- Steps that change no file ----

  ghost predicate SameFiles(s: State, t: State) { t.f == s.f && t.a == s.a }

  ghost predicate SameHoldings(s: State, t: State, p: Pid) {
    && PrivateOf(PcOf(t, p)) == PrivateOf(PcOf(s, p))
    && PendOf(PcOf(t, p)) == PendOf(PcOf(s, p))
    && DatOf(PcOf(t, p)) == DatOf(PcOf(s, p))
  }

  lemma QuietKept(s: State, t: State, p: Pid)
    requires SameFiles(s, t) && forall q: Pid | q != p :: PcKept(s, t, q)
    ensures Kept(s, t, p)
  {
    forall l: nat
      ensures ListKept(s, t, p, l)
    {
    }
    forall o: nat
      ensures InfoKept(s, t, p, o)
    {
    }
  }

  lemma QuietSynced(s: State, t: State, p: Pid)
    requires Sound(s) && SameFiles(s, t) && SameHoldings(s, t, p)
    requires forall q: Pid | q != p :: PcKept(s, t, q)
    requires forall key :: KeySync(t, key)
    ensures Synced(t) && Owned(t)
  {
    assert SoundNow(0, s);
    forall c: nat
      ensures CellSync(t, c)
    {
      assert CellSync(s, c);
    }
    forall o: nat
      ensures EntrySync(t, o)
    {
      assert EntrySync(s, o);
    }
    forall d: nat
      ensures DatSync(t, d)
    {
      assert DatSync(s, d);
      assert d in s.a.user && s.a.user[d].ByProcess? && s.a.user[d].p != p ==> PcKept(s, t, s.a.user[d].p);
    }
    forall d: nat, e: nat
      ensures DatApart(t, d, e)
    {
      assert DatApart(s, d, e);
    }
    forall o: nat
      ensures OwnOk(t, o)
    {
      assert OwnOk(s, o) && (o in s.a.owner && s.a.owner[o] != p ==> PcKept(s, t, s.a.owner[o]));
    }
    forall f: nat
      ensures PendOk(t, f)
    {
      assert PendOk(s, f) && (f in s.a.pend && s.a.pend[f] != p ==> PcKept(s, t, s.a.pend[f]));
    }
    forall q: Pid
      ensures PcOwn(t, q)
    {
      assert PcOwn(s, q) && (q != p ==> PcKept(s, t, q));
    }
  }

  /** Reading, waiting and locking: only the process itself moves on. */
  lemma QuietSound(s: State, t: State, p: Pid)
    requires Sound(s) && SameFiles(s, t) && SameHoldings(s, t, p)
    requires forall q: Pid | q != p :: PcKept(s, t, q)
    requires forall key :: KeySync(t, key)
    requires Locked(t) && PcOk(t, p)
    ensures Sound(t)
  {
    assert SoundNow(0, s);
    QuietSynced(s, t, p);
    QuietKept(s, t, p);
    Chains(s);
    ChainsBack(t);
    forall q: Pid
      ensures PcOk(t, q)
    {
      if q != p {
        OtherPcOk(s, t, p, q);
      }
    }
  }

  /** The same, for a process that stays inside its chain. */
  lemma QuietInside(s: State, t: State, p: Pid)
    requires Sound(s) && SameFiles(s, t) && SameHoldings(s, t, p) && t.lk.wr == s.lk.wr && t.lk.rd == s.lk.rd
    requires t.pc == s.pc[p := PcOf(t, p)]
    requires ChainHeld(PcOf(s, p)) && ChainHeld(PcOf(t, p)) && PcOf(t, p).c == PcOf(s, p).c
    requires Moved(s.lk.freeLock, t.lk.freeLock, p, FreeHeld(PcOf(t, p)))
    requires Moved(s.lk.datLock, t.lk.datLock, p, DatHeld(PcOf(t, p)))
    requires Moved(s.lk.idxLock, t.lk.idxLock, p, IdxHeld(PcOf(t, p)))
    requires PcOk(t, p)
    ensures Sound(t)
  {
    assert SoundNow(0, s);
    forall q: Pid | q != p
      ensures PcKept(s, t, q)
    {
    }
    LocksMoved(s, t, p);
    forall key
      ensures KeySync(t, key)
    {
      assert KeySync(s, key);
    }
    QuietSound(s, t, p);
  }

  // ---- What a process reads ----

  lemma ListBounds(c: Call)
    ensures 0 < L(c) < NPTR
  {
  }

  /** A cell with a pending write is on the chain of the process that has to write it. */
  lemma PendPlace(s: State, f: nat)
    requires Sound(s) && f in s.a.pend
    ensures var pc := PcOf(s, s.a.pend[f]);
            && PendOf(pc) == Some(f) && WriteHeld(pc) && 0 < L(pc.c) < NPTR
            && pc.k < |s.a.lists[L(pc.c)]| && s.a.lists[L(pc.c)][pc.k] == f && On(s.a.lists, f)
  {
    assert SoundNow(0, s);
    assert PendOk(s, f) && PcOk(s, s.a.pend[f]);
    var pc := PcOf(s, s.a.pend[f]);
    ListBounds(pc.c);
    assert s.a.lists[L(pc.c)][pc.k] in s.a.lists[L(pc.c)];
  }

  /** A cell with a pending write is on the chain of the writer, so no other process reads it. */
  lemma CellValue(s: State, p: Pid, k: nat)
    requires Sound(s) && ChainHeld(PcOf(s, p)) && PendOf(PcOf(s, p)) == None
    requires L(PcOf(s, p).c) < NPTR && k < |s.a.lists[L(PcOf(s, p).c)]|
    ensures var l := L(PcOf(s, p).c);
            s.a.lists[l][k] in s.f.ptr && s.f.ptr[s.a.lists[l][k]] == After(s.a.lists[l], k)
  {
    assert SoundNow(0, s);
    var l := L(PcOf(s, p).c);
    var f := s.a.lists[l][k];
    Chains(s);
    assert Spells(s.a.im.ptr, s.a.lists[l]) && Points(s.a.im.ptr, s.a.lists[l], k);
    assert CellSync(s, f);
    if f in s.a.pend {
      PendPlace(s, f);
      var q := s.a.pend[f];
      if q != p {
        ChainsApart(s, q, p);
        NotOnOther(s, l, k, L(PcOf(s, q).c));
      }
    }
  }

  lemma FreeValue(s: State, k: nat)
    requires Sound(s) && k < |s.a.lists[0]|
    ensures s.a.lists[0][k] in s.f.ptr && s.f.ptr[s.a.lists[0][k]] == After(s.a.lists[0], k)
  {
    assert SoundNow(0, s);
    var f := s.a.lists[0][k];
    Chains(s);
    assert Spells(s.a.im.ptr, s.a.lists[0]) && Points(s.a.im.ptr, s.a.lists[0], k);
    assert CellSync(s, f);
    if f in s.a.pend {
      PendPlace(s, f);
      NotOnOther(s, 0, k, L(PcOf(s, s.a.pend[f]).c));
    }
  }

  lemma HeadValue(s: State, p: Pid)
    requires Sound(s) && ChainHeld(PcOf(s, p)) && PendOf(PcOf(s, p)) == None
    ensures var c := PcOf(s, p).c;
            L(c) < NPTR && |s.a.lists[L(c)]| > 0 && s.a.lists[L(c)][0] == PTR_SZ * L(c)
            && PTR_SZ * L(c) in s.f.ptr && s.f.ptr[PTR_SZ * L(c)] == After(s.a.lists[L(c)], 0)
  {
    assert SoundNow(0, s);
    ListBounds(PcOf(s, p).c);
    Chains(s);
    assert HeadOk(s.a.lists, L(PcOf(s, p).c));
    CellValue(s, p, 0);
  }

  lemma FreeHeadValue(s: State)
    requires Sound(s)
    ensures |s.a.lists[0]| > 0 && s.a.lists[0][0] == 0 && 0 in s.f.ptr && s.f.ptr[0] == After(s.a.lists[0], 0)
  {
    assert SoundNow(0, s);
    Chains(s);
    assert HeadOk(s.a.lists, 0);
    FreeValue(s, 0);
  }

  lemma RecordValue(s: State, l: nat, k: nat)
    requires Sound(s) && l < NPTR && 0 < k < |s.a.lists[l]|
    ensures var o := s.a.lists[l][k];
            o in s.a.im.info && o in s.f.rec && o != 0
            && s.f.rec[o] == Entry(s.a.im.info[o].key, s.a.im.info[o].datoff, |s.a.im.info[o].data| + 1)
            && s.f.rec[o].datoff in s.f.dat && s.f.dat[s.f.rec[o].datoff] == s.a.im.info[o].data
  {
    assert SoundNow(0, s);
    Chains(s);
    Position(s.a.im, s.a.lists, s.a.owner.Keys, l, k);
    assert EntrySync(s, s.a.lists[l][k]);
  }

  lemma OwnValue(s: State, p: Pid, o: nat)
    requires Sound(s) && PrivateOf(PcOf(s, p)) == Some(o)
    ensures o in s.a.owner && s.a.owner[o] == p && o != 0 && !On(s.a.lists, o)
    ensures o in s.a.im.info && o in s.a.im.ptr && o in s.f.rec && o in s.f.ptr && o !in s.a.pend
    ensures s.f.rec[o] == Entry(s.a.im.info[o].key, s.a.im.info[o].datoff, |s.a.im.info[o].data| + 1)
    ensures s.f.rec[o].datoff in s.f.dat && s.f.dat[s.f.rec[o].datoff] == s.a.im.info[o].data
    ensures s.f.ptr[o] == s.a.im.ptr[o]
  {
    assert SoundNow(0, s);
    Chains(s);
    assert PcOwn(s, p) && Accounted(s.a.im, s.a.lists, s.a.owner.Keys, o) && EntrySync(s, o) && CellSync(s, o);
    if o in s.a.pend {
      PendPlace(s, o);
    }
  }

  // ---- Steps that change no file, one by one ----

  lemma StartSound(s: State, p: Pid, c: Call)
    requires Sound(s) && PcOf(s, p) == Start(c) && Enabled(s, p)
    ensures Sound(LockChain(s, p, c))
  {
    assert SoundNow(0, s);
    var t := LockChain(s, p, c);
    assert PcOk(s, p) && LockOk(s, p);
    ChainLocked(s, p, c);
    forall key
      ensures KeySync(t, key)
    {
      assert KeySync(s, key) && ChainOk(s, ListOf(key));
    }
    assert Clean(t, c) by {
      assert KeySync(s, c.key) && ChainOk(s, L(c));
    }
    QuietSound(s, t, p);
  }

  lemma ReadHeadSound(s: State, p: Pid, c: Call)
    requires Sound(s) && PcOf(s, p) == ReadHead(c)
    ensures PTR_SZ * L(c) in s.f.ptr
    ensures Sound(Go(s, p, Walk(c, PTR_SZ * L(c), s.f.ptr[PTR_SZ * L(c)], 0)))
  {
    Known(s, p);
    HeadValue(s, p);
    var t := Go(s, p, Walk(c, PTR_SZ * L(c), s.f.ptr[PTR_SZ * L(c)], 0));
    forall j: nat | j <= 0
      ensures NotAt(t, L(c), j, c.key)
    {
    }
    QuietInside(s, t, p);
  }

  lemma ReplaceHeadSound(s: State, p: Pid, c: Call)
    requires Sound(s) && PcOf(s, p) == ReplaceHead(c)
    ensures PTR_SZ * L(c) in s.f.ptr
    ensures Sound(Go(s, p, DatLock(c, s.f.ptr[PTR_SZ * L(c)])))
  {
    Known(s, p);
    HeadValue(s, p);
    QuietInside(s, Go(s, p, DatLock(c, s.f.ptr[PTR_SZ * L(c)])), p);
  }

  lemma NewHeadSound(s: State, p: Pid, c: Call)
    requires Sound(s) && PcOf(s, p) == NewHead(c)
    ensures PTR_SZ * L(c) in s.f.ptr
    ensures Sound(Go(s, p, NewLock(c, s.f.ptr[PTR_SZ * L(c)])))
  {
    Known(s, p);
    HeadValue(s, p);
    QuietInside(s, Go(s, p, NewLock(c, s.f.ptr[PTR_SZ * L(c)])), p);
  }

  lemma SeenNot(s: State, p: Pid, j: nat)
    requires PcOf(s, p).Walk? && PcOk(s, p) && j <= PcOf(s, p).k
    ensures NotAt(s, L(PcOf(s, p).c), j, PcOf(s, p).c.key)
  {
  }

  /** A process at the end of its chain has seen that its key is not there. */
  lemma MissMeansAbsent(s: State, p: Pid)
    requires Sound(s) && PcOf(s, p).Walk? && PcOf(s, p).off == 0
    ensures PcOf(s, p).c.key !in s.a.m && PcOf(s, p).c.key !in s.a.em
  {
    assert SoundNow(0, s);
    var pc := PcOf(s, p);
    Chains(s);
    assert PcOk(s, p) && KeyOk(s.a.im, s.a.lists, s.a.em, pc.c.key);
    var l := L(pc.c);
    forall j | 0 < j < |s.a.lists[l]| && s.a.lists[l][j] in s.a.im.info
      ensures s.a.im.info[s.a.lists[l][j]].key != pc.c.key
    {
      SeenNot(s, p, j);
    }
  }

  /** A process not yet at the end looks at a record of its chain. */
  lemma WalkPlace(s: State, p: Pid)
    requires Sound(s) && PcOf(s, p).Walk? && PcOf(s, p).off != 0
    ensures var pc := PcOf(s, p);
            && L(pc.c) < NPTR && pc.k + 1 < |s.a.lists[L(pc.c)]| && s.a.lists[L(pc.c)][pc.k + 1] == pc.off
            && pc.off in s.f.rec && pc.off in s.a.im.info && pc.off in s.f.ptr
            && s.f.rec[pc.off].key == s.a.im.info[pc.off].key
            && s.f.rec[pc.off].datlen == |s.a.im.info[pc.off].data| + 1
            && s.f.ptr[pc.off] == After(s.a.lists[L(pc.c)], pc.k + 1)
            && (s.a.im.info[pc.off].key == pc.c.key ==>
                  pc.c.key in s.a.m && s.a.m[pc.c.key] == s.a.im.info[pc.off].data)
  {
    assert SoundNow(0, s);
    var pc := PcOf(s, p);
    assert PcOk(s, p);
    ListBounds(pc.c);
    CellValue(s, p, pc.k + 1);
    RecordValue(s, L(pc.c), pc.k + 1);
    Chains(s);
    assert LiveAt(s.a.im, s.a.lists, s.a.em, L(pc.c), pc.k + 1);
  }

  lemma MissSound(s: State, p: Pid, c: Call)
    requires Sound(s) && PcOf(s, p).Walk? && PcOf(s, p).c == c && PcOf(s, p).off == 0
    ensures Sound(Go(s, p, AfterMiss(c)))
  {
    Known(s, p);
    MissMeansAbsent(s, p);
    QuietInside(s, Go(s, p, AfterMiss(c)), p);
  }

  lemma MatchPc(s: State, p: Pid, c: Call, from: nat, off: nat, k: nat)
    requires Sound(s) && PcOf(s, p) == Walk(c, from, off, k) && off != 0
    requires off in s.f.rec && off in s.f.ptr && s.f.rec[off].key == c.key
    ensures PcOk(Go(s, p, AfterMatch(c, from, off, s.f.ptr[off], k, s.f.rec[off])), p)
  {
    Known(s, p);
    WalkPlace(s, p);
  }

  lemma MatchSound(s: State, p: Pid, c: Call, from: nat, off: nat, k: nat)
    requires Sound(s) && PcOf(s, p) == Walk(c, from, off, k) && off != 0
    requires off in s.f.rec && off in s.f.ptr && s.f.rec[off].key == c.key
    ensures Sound(Go(s, p, AfterMatch(c, from, off, s.f.ptr[off], k, s.f.rec[off])))
  {
    Known(s, p);
    MatchPc(s, p, c, from, off, k);
    QuietInside(s, Go(s, p, AfterMatch(c, from, off, s.f.ptr[off], k, s.f.rec[off])), p);
  }

  lemma OnwardSound(s: State, p: Pid, c: Call, from: nat, off: nat, k: nat)
    requires Sound(s) && PcOf(s, p) == Walk(c, from, off, k) && off != 0
    requires off in s.f.rec && off in s.f.ptr && s.f.rec[off].key != c.key
    ensures Sound(Go(s, p, Walk(c, off, s.f.ptr[off], k + 1)))
  {
    Known(s, p);
    WalkPlace(s, p);
    var t := Go(s, p, Walk(c, off, s.f.ptr[off], k + 1));
    forall j: nat | j <= k + 1
      ensures NotAt(t, L(c), j, c.key)
    {
      if j <= k {
        SeenNot(s, p, j);
      }
    }
    QuietInside(s, t, p);
  }

  lemma WalkSound(s: State, p: Pid, c: Call, from: nat, off: nat, k: nat)
    requires Sound(s) && PcOf(s, p) == Walk(c, from, off, k)
    ensures off != 0 ==> off in s.f.rec && off in s.f.ptr
    ensures Sound(LookAt(s, p, c, from, off, k))
  {
    if off == 0 {
      MissSound(s, p, c);
    } else {
      WalkPlace(s, p);
      if s.f.rec[off].key == c.key {
        MatchSound(s, p, c, from, off, k);
      } else {
        OnwardSound(s, p, c, from, off, k);
      }
    }
  }

  /** The data read is the map's. */
  lemma FetchValue(s: State, p: Pid, c: Call, off: nat, k: nat)
    requires Sound(s) && PcOf(s, p) == FetchData(c, off, k)
    ensures off in s.f.rec && s.f.rec[off].datoff in s.f.dat
    ensures PcOk(Go(s, p, Finish(c, Data(Some(s.f.dat[s.f.rec[off].datoff])))), p)
  {
    assert SoundNow(0, s);
    assert PcOk(s, p) && LockOk(s, p);
    ListBounds(c);
    RecordValue(s, L(c), k);
    Chains(s);
    assert LiveAt(s.a.im, s.a.lists, s.a.em, L(c), k);
  }

  lemma FetchSound(s: State, p: Pid, c: Call, off: nat, k: nat)
    requires Sound(s) && PcOf(s, p) == FetchData(c, off, k)
    ensures off in s.f.rec && s.f.rec[off].datoff in s.f.dat
    ensures Sound(Go(s, p, Finish(c, Data(Some(s.f.dat[s.f.rec[off].datoff])))))
  {
    Known(s, p);
    FetchValue(s, p, c, off, k);
    QuietInside(s, Go(s, p, Finish(c, Data(Some(s.f.dat[s.f.rec[off].datoff])))), p);
  }

  lemma FreeLockSound(s: State, p: Pid, holder: Option<Pid>, pc': Pc)
    requires Sound(s) && ChainHeld(PcOf(s, p)) && ChainHeld(pc') && pc'.c == PcOf(s, p).c
    requires PrivateOf(pc') == PrivateOf(PcOf(s, p)) && PendOf(pc') == None == PendOf(PcOf(s, p))
    requires DatOf(pc') == None == DatOf(PcOf(s, p))
    requires !DatHeld(pc') && !IdxHeld(pc') && !DatHeld(PcOf(s, p)) && !IdxHeld(PcOf(s, p))
    requires Moved(s.lk.freeLock, holder, p, FreeHeld(pc'))
    requires PcOk(SetFreeLock(s, p, holder, pc'), p)
    ensures Sound(SetFreeLock(s, p, holder, pc'))
  {
    Known(s, p);
    QuietInside(s, SetFreeLock(s, p, holder, pc'), p);
  }

  lemma DatLockSound(s: State, p: Pid, c: Call, head: nat)
    requires Sound(s) && PcOf(s, p) == DatLock(c, head) && Enabled(s, p)
    ensures Sound(SetDatLock(s, p, Some(p), DatWrite(c, head)))
  {
    Known(s, p);
    QuietInside(s, SetDatLock(s, p, Some(p), DatWrite(c, head)), p);
  }

  lemma DatUnlockSound(s: State, p: Pid, c: Call, head: nat, d: nat)
    requires Sound(s) && PcOf(s, p) == DatUnlock(c, head, d)
    ensures Sound(SetDatLock(s, p, None, IdxLock(c, head, d)))
  {
    Known(s, p);
    QuietInside(s, SetDatLock(s, p, None, IdxLock(c, head, d)), p);
  }

  lemma IdxLockSound(s: State, p: Pid, c: Call, head: nat, d: nat)
    requires Sound(s) && PcOf(s, p) == IdxLock(c, head, d) && Enabled(s, p)
    ensures Sound(SetIdxLock(s, p, Some(p), IdxWrite(c, head, d)))
  {
    Known(s, p);
    QuietInside(s, SetIdxLock(s, p, Some(p), IdxWrite(c, head, d)), p);
  }

  lemma IdxUnlockSound(s: State, p: Pid, c: Call, off: nat)
    requires Sound(s) && PcOf(s, p) == IdxUnlock(c, off)
    ensures Sound(SetIdxLock(s, p, None, LinkIn(c, off)))
  {
    Known(s, p);
    QuietInside(s, SetIdxLock(s, p, None, LinkIn(c, off)), p);
  }

  lemma DelReadFreeSound(s: State, p: Pid, c: Call, from: nat, off: nat, next: nat, k: nat)
    requires Sound(s) && PcOf(s, p) == DelReadFree(c, from, off, next, k)
    ensures 0 in s.f.ptr && Sound(Go(s, p, DelRecord(c, from, off, next, k, s.f.ptr[0])))
  {
    Known(s, p);
    FreeHeadValue(s);
    QuietInside(s, Go(s, p, DelRecord(c, from, off, next, k, s.f.ptr[0])), p);
  }

  lemma FreeHeadSound(s: State, p: Pid, c: Call, head: nat)
    requires Sound(s) && PcOf(s, p) == FreeHead(c, head)
    ensures 0 in s.f.ptr && Sound(Go(s, p, FreeWalk(c, head, 0, s.f.ptr[0], 0)))
  {
    Known(s, p);
    FreeHeadValue(s);
    QuietInside(s, Go(s, p, FreeWalk(c, head, 0, s.f.ptr[0], 0)), p);
  }

  lemma FreeWalkSound(s: State, p: Pid, c: Call, head: nat, from: nat, off: nat, k: nat)
    requires Sound(s) && PcOf(s, p) == FreeWalk(c, head, from, off, k)
    ensures c.StoreCall? && (off != 0 ==> off in s.f.rec && off in s.f.ptr)
    ensures Sound(LookAtFree(s, p, c, head, from, off, k))
  {
    Known(s, p);
    if off != 0 {
      FreeValue(s, k + 1);
      RecordValue(s, 0, k + 1);
    }
    QuietInside(s, LookAtFree(s, p, c, head, from, off, k), p);
  }

  // ---- Steps that change files ----

  /** A step inside the chain that moves no lock. */
  ghost predicate Inside(s: State, t: State, p: Pid, pc': Pc) {
    var pc := PcOf(s, p);
    && t.lk == s.lk && t.pc == s.pc[p := pc'] && ChainHeld(pc) && ChainHeld(pc') && pc'.c == pc.c
    && (FreeHeld(pc') <==> FreeHeld(pc)) && (DatHeld(pc') <==> DatHeld(pc)) && (IdxHeld(pc') <==> IdxHeld(pc))
  }

  lemma EffectSound(s: State, t: State, p: Pid, pc': Pc)
    requires Sound(s) && Inside(s, t, p, pc') && Kept(s, t, p)
    requires Chained(t) && Synced(t) && PcOwn(t, p) && PcOk(t, p)
    requires (forall o: nat :: OwnOk(t, o)) && (forall f: nat :: PendOk(t, f))
    ensures Sound(t)
  {
    assert SoundNow(0, s);
    assert LockOk(s, p) && ListKept(s, t, p, 0);
    LocksMoved(s, t, p);
    forall q: Pid
      ensures PcOk(t, q) && PcOwn(t, q)
    {
      if q != p {
        OtherPcOk(s, t, p, q);
        OwnStays(s, t, p, q);
      }
    }
  }

  lemma OthersKept(s: State, t: State, p: Pid, pc': Pc)
    requires Inside(s, t, p, pc')
    ensures forall q: Pid | q != p :: PcKept(s, t, q)
    ensures PcOf(t, p) == pc'
  {
  }

  // Rewriting a record that is on no list.

  ghost predicate Rewrites(s: State, t: State, off: nat, v: nat, i: Info) {
    && off in s.a.im.info
    && t.f == s.f.(ptr := s.f.ptr[off := v],
                   rec := s.f.rec[off := Entry(i.key, i.datoff, |i.data| + 1)],
                   dat := s.f.dat[i.datoff := i.data])
    && t.a == s.a.(im := SetRecord(s.a.im, off, v, i))
    && i.datoff == s.a.im.info[off].datoff && |i.data| == |s.a.im.info[off].data|
  }

  lemma RewriteSynced(s: State, t: State, p: Pid, pc': Pc, off: nat, v: nat, i: Info)
    requires Sound(s) && Inside(s, t, p, pc') && PrivateOf(PcOf(s, p)) == Some(off) == PrivateOf(pc')
    requires Rewrites(s, t, off, v, i) && PendOf(pc') == PendOf(PcOf(s, p)) && DatOf(pc') == DatOf(PcOf(s, p))
    ensures Synced(t)
  {
    assert SoundNow(0, s);
    OwnValue(s, p, off);
    OthersKept(s, t, p, pc');
    forall c: nat
      ensures CellSync(t, c)
    {
      assert CellSync(s, c);
    }
    forall o: nat
      ensures EntrySync(t, o)
    {
      assert EntrySync(s, o) && EntrySync(s, off);
    }
    forall d: nat
      ensures DatSync(t, d)
    {
      assert DatSync(s, d) && EntrySync(s, off);
      assert d in s.a.user && s.a.user[d].ByProcess? && s.a.user[d].p != p ==> PcKept(s, t, s.a.user[d].p);
    }
    forall d: nat, e: nat
      ensures DatApart(t, d, e)
    {
      assert DatApart(s, d, e) && EntrySync(s, off);
    }
    forall key
      ensures KeySync(t, key)
    {
      assert KeySync(s, key);
    }
  }

  lemma RewriteKept(s: State, t: State, p: Pid, pc': Pc, off: nat, v: nat, i: Info)
    requires Sound(s) && Inside(s, t, p, pc') && PrivateOf(PcOf(s, p)) == Some(off)
    requires Rewrites(s, t, off, v, i)
    ensures Kept(s, t, p)
  {
    assert SoundNow(0, s);
    OwnValue(s, p, off);
    OthersKept(s, t, p, pc');
    assert EntrySync(s, off);
    forall o: nat
      ensures InfoKept(s, t, p, o)
    {
    }
    forall o: nat
      ensures OwnKept(s, t, p, o)
    {
    }
    forall d: nat
      ensures UserKept(s, t, p, d)
    {
    }
  }

  lemma RewriteSound(s: State, t: State, p: Pid, pc': Pc, off: nat, v: nat, i: Info)
    requires Sound(s) && Inside(s, t, p, pc') && PrivateOf(PcOf(s, p)) == Some(off) == PrivateOf(pc')
    requires Rewrites(s, t, off, v, i) && PendOf(pc') == PendOf(PcOf(s, p)) && DatOf(pc') == DatOf(PcOf(s, p))
    requires PcOk(t, p)
    ensures Sound(t)
  {
    assert SoundNow(0, s);
    OwnValue(s, p, off);
    OthersKept(s, t, p, pc');
    RewriteSynced(s, t, p, pc', off, v, i);
    RewriteKept(s, t, p, pc', off, v, i);
    Chains(s);
    LooseRewrite(s.a.im, s.a.lists, s.a.em, s.a.owner.Keys, off, v, i);
    ChainsBack(t);
    HoldingsStay(s, t, p);
    EffectSound(s, t, p, pc');
  }

  lemma HoldingsStay(s: State, t: State, p: Pid)
    requires Sound(s) && SameHoldings(s, t, p) && forall q: Pid | q != p :: PcKept(s, t, q)
    requires t.a.owner == s.a.owner && t.a.pend == s.a.pend && t.a.user == s.a.user
    ensures (forall o: nat :: OwnOk(t, o)) && (forall f: nat :: PendOk(t, f)) && PcOwn(t, p)
  {
    assert SoundNow(0, s);
    assert PcOwn(s, p);
    forall o: nat
      ensures OwnOk(t, o)
    {
      assert OwnOk(s, o) && (o in s.a.owner && s.a.owner[o] != p ==> PcKept(s, t, s.a.owner[o]));
    }
    forall f: nat
      ensures PendOk(t, f)
    {
      assert PendOk(s, f) && (f in s.a.pend && s.a.pend[f] != p ==> PcKept(s, t, s.a.pend[f]));
    }
  }

  lemma DelRecordSound(s: State, p: Pid, c: Call, from: nat, off: nat, next: nat, k: nat, free: nat)
    requires Sound(s) && PcOf(s, p) == DelRecord(c, from, off, next, k, free)
    ensures off in s.f.rec && off in s.f.ptr && off in s.a.im.info
    ensures Sound(BlankRecord(s, p, c, from, off, next, k, free))
  {
    Known(s, p);
    OwnValue(s, p, off);
    var t := BlankRecord(s, p, c, from, off, next, k, free);
    var i := s.a.im.info[off].(key := Blanks(|s.f.rec[off].key|));
    assert s.f.dat[i.datoff := i.data] == s.f.dat;
    RewriteSound(s, t, p, DelHead(c, from, off, next, k), off, free, i);
  }

  lemma ReuseDatSound(s: State, p: Pid, c: Call, head: nat, off: nat)
    requires Sound(s) && PcOf(s, p) == ReuseDat(c, head, off)
    ensures c.StoreCall? && off in s.f.rec && s.f.rec[off].datoff in s.f.dat && off in s.a.im.info
    ensures Sound(WriteData(s, p, ReuseIdx(c, head, off), off, c.data, s.a.em))
  {
    assert SoundNow(0, s);
    assert PcOk(s, p);
    OwnValue(s, p, off);
    var t := WriteData(s, p, ReuseIdx(c, head, off), off, c.data, s.a.em);
    var i := s.a.im.info[off].(data := c.data);
    assert s.f.ptr[off := s.f.ptr[off]] == s.f.ptr && s.f.rec[off := s.f.rec[off]] == s.f.rec;
    assert SetRecord(s.a.im, off, s.f.ptr[off], i) == Redone(s.a.im, off, c.data);
    RewriteSound(s, t, p, ReuseIdx(c, head, off), off, s.f.ptr[off], i);
  }

  lemma ReuseIdxSound(s: State, p: Pid, c: Call, head: nat, off: nat)
    requires Sound(s) && PcOf(s, p) == ReuseIdx(c, head, off)
    ensures c.StoreCall? && off in s.f.rec && off in s.f.ptr && off in s.a.im.info
    ensures Sound(WriteRecord(s, p, c, head, off))
  {
    assert SoundNow(0, s);
    assert PcOk(s, p);
    OwnValue(s, p, off);
    var t := WriteRecord(s, p, c, head, off);
    var i := s.a.im.info[off].(key := c.key);
    assert s.f.dat[i.datoff := i.data] == s.f.dat;
    RewriteSound(s, t, p, LinkIn(c, off), off, head, i);
  }
}
