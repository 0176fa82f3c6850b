/**
 What holds in every reachable state of the database processes, and the proof
 that every step keeps it.
 */
module DbLocksInv {
  import opened Links
  import opened Layout
  import opened DbHash
  import opened DbChains
  import opened DbSpec
  import opened Wrappers
  import opened DbLocks

  // ---- What a program counter says ----

  ghost predicate ChainHeld(pc: Pc) { !pc.Idle? && !pc.Start? }

  ghost predicate WriteHeld(pc: Pc) { ChainHeld(pc) && !pc.c.FetchCall? }

  ghost predicate FreeHeld(pc: Pc) {
    || pc.DelData? || pc.DelReadFree? || pc.DelRecord? || pc.DelHead? || pc.DelChain? || pc.DelUnlock?
    || pc.FreeHead? || pc.FreeWalk? || pc.FreeTake? || pc.FreeUnlock?
  }

  ghost predicate DatHeld(pc: Pc) { pc.DatWrite? || pc.DatUnlock? }

  ghost predicate IdxHeld(pc: Pc) { pc.IdxWrite? || pc.IdxUnlock? }

  /** The record that is on no list while the process works on it. */
  ghost function PrivateOf(pc: Pc): Option<nat> {
    match pc
    case DelReadFree(_, _, off, _, _) => Some(off)
    case DelRecord(_, _, off, _, _, _) => Some(off)
    case DelHead(_, _, off, _, _) => Some(off)
    case FreeUnlock(_, _, hit) => hit
    case ReuseDat(_, _, off) => Some(off)
    case ReuseIdx(_, _, off) => Some(off)
    case IdxUnlock(_, off) => Some(off)
    case LinkIn(_, off) => Some(off)
    case _ => None
  }

  /** The cell that still points to a record already taken off its chain. */
  ghost function PendOf(pc: Pc): Option<nat> {
    match pc
    case DelReadFree(_, from, _, _, _) => Some(from)
    case DelRecord(_, from, _, _, _, _) => Some(from)
    case DelHead(_, from, _, _, _) => Some(from)
    case DelChain(_, from, _, _) => Some(from)
    case _ => None
  }

  /** Data that has been appended but that no record refers to yet. */
  ghost function DatOf(pc: Pc): Option<nat> {
    match pc
    case DatUnlock(_, _, d) => Some(d)
    case IdxLock(_, _, d) => Some(d)
    case IdxWrite(_, _, d) => Some(d)
    case _ => None
  }

  // ---- Locks ----

  ghost predicate LockOk(s: State, p: Pid) {
    var pc := PcOf(s, p);
    && (WriteHeld(pc) ==> L(pc.c) in s.lk.wr && s.lk.wr[L(pc.c)] == p)
    && (ChainHeld(pc) && pc.c.FetchCall? ==> p in Readers(s, L(pc.c)))
    && (FreeHeld(pc) <==> s.lk.freeLock == Some(p))
    && (DatHeld(pc) <==> s.lk.datLock == Some(p))
    && (IdxHeld(pc) <==> s.lk.idxLock == Some(p))
  }

  ghost predicate ReaderOk(s: State, l: nat, p: Pid) {
    p in Readers(s, l) ==> ChainHeld(PcOf(s, p)) && PcOf(s, p).c.FetchCall? && L(PcOf(s, p).c) == l
  }

  ghost predicate ChainOk(s: State, l: nat) {
    l in s.lk.wr ==> Readers(s, l) == {} && WriteHeld(PcOf(s, s.lk.wr[l])) && L(PcOf(s, s.lk.wr[l]).c) == l
  }

  // ---- Ownership ----

  ghost predicate OwnOk(s: State, o: nat) {
    o in s.a.owner ==> PrivateOf(PcOf(s, s.a.owner[o])) == Some(o)
  }

  ghost predicate PendOk(s: State, f: nat) {
    f in s.a.pend ==> PendOf(PcOf(s, s.a.pend[f])) == Some(f)
  }

  ghost predicate PcOwn(s: State, p: Pid) {
    var pc := PcOf(s, p);
    && (PrivateOf(pc).Some? ==> PrivateOf(pc).value in s.a.owner && s.a.owner[PrivateOf(pc).value] == p)
    && (PendOf(pc).Some? ==> PendOf(pc).value in s.a.pend && s.a.pend[PendOf(pc).value] == p)
    && (DatOf(pc).Some? ==> DatOf(pc).value in s.a.user && s.a.user[DatOf(pc).value] == ByProcess(p))
  }

  // ---- The files against what they mean ----

  ghost predicate CellSync(s: State, c: nat) {
    && (c in s.f.ptr <==> c in s.a.im.ptr)
    && (c in s.f.ptr ==> c < s.f.idxEnd && (c !in s.a.pend ==> s.f.ptr[c] == s.a.im.ptr[c]))
  }

  ghost predicate EntrySync(s: State, o: nat) {
    && (o in s.f.rec <==> o in s.a.im.info)
    && (o in s.f.rec ==>
          var i := s.a.im.info[o];
          && 0 < o < s.f.idxEnd && o in s.f.ptr && s.f.rec[o] == Entry(i.key, i.datoff, |i.data| + 1)
          && i.datoff in s.f.dat && s.f.dat[i.datoff] == i.data
          && i.datoff in s.a.user && s.a.user[i.datoff] == ByRecord(o))
  }

  ghost predicate DatSync(s: State, d: nat) {
    && (d in s.f.dat <==> d in s.a.user)
    && (d in s.f.dat ==> d + |s.f.dat[d]| + 1 <= s.f.datEnd)
    && (d in s.a.user ==> match s.a.user[d]
                        case ByProcess(p) => DatOf(PcOf(s, p)) == Some(d)
                        case ByRecord(o) => o in s.a.im.info && s.a.im.info[o].datoff == d)
  }

  /** Data records do not overlap. */
  ghost predicate DatApart(s: State, d: nat, e: nat) {
    d in s.f.dat && e in s.f.dat && d < e ==> d + |s.f.dat[d]| + 1 <= e
  }

  ghost predicate Same(a: Contents, b: Contents, key: string) {
    (key in a <==> key in b) && (key in a ==> a[key] == b[key])
  }

  /** The chains hold what finished calls left, except for the key of a writer at work. */
  ghost predicate KeySync(s: State, key: string) {
    Same(s.a.em, s.a.m, key) || (ListOf(key) in s.lk.wr && !PcOf(s, s.lk.wr[ListOf(key)]).Idle?
                             && PcOf(s, s.lk.wr[ListOf(key)]).c.key == key)
  }

  // ---- What a process knows ----

  ghost predicate Here(s: State, l: nat, k: nat, from: nat, off: nat) {
    l < |s.a.lists| && k < |s.a.lists[l]| && s.a.lists[l][k] == from && off == After(s.a.lists[l], k)
  }

  ghost predicate NotAt(s: State, l: nat, j: nat, key: string) {
    l < |s.a.lists| && 0 < j < |s.a.lists[l]| ==> s.a.lists[l][j] in s.a.im.info && s.a.im.info[s.a.lists[l][j]].key != key
  }

  ghost predicate OnChain(s: State, c: Call, k: nat, off: nat) {
    && L(c) < |s.a.lists| && 0 < k < |s.a.lists[L(c)]| && s.a.lists[L(c)][k] == off
    && off in s.a.im.info && s.a.im.info[off].key == c.key
  }

  /** The call has not changed anything yet. */
  ghost predicate Clean(s: State, c: Call) { Same(s.a.em, s.a.m, c.key) }

  /** The call has found its key and is going to take the record off the chain. */
  ghost predicate Removing(c: Call) { c.DeleteCall? || (c.StoreCall? && c.flag != DB_INSERT) }

  /** The call has removed its key from the chains. */
  ghost predicate Gone(s: State, c: Call) { Removing(c) && c.key !in s.a.em && c.key in s.a.m }

  /** The call is going to add its key to the chains, and that will complete it. */
  ghost predicate Adding(s: State, c: Call) {
    c.StoreCall? && c.key !in s.a.em && Answer(s.a.m, c) == (s.a.m[c.key := c.data], Code(0))
  }

  ghost predicate HeadIs(s: State, c: Call, head: nat) {
    L(c) < |s.a.lists| && |s.a.lists[L(c)]| > 0 && head == After(s.a.lists[L(c)], 0)
  }

  ghost predicate DelPlace(s: State, c: Call, from: nat, off: nat, next: nat, k: nat) {
    && Clean(s, c) && Removing(c) && Here(s, L(c), k, from, off) && OnChain(s, c, k + 1, off)
    && next == After(s.a.lists[L(c)], k + 1)
  }

  ghost predicate Blanked(s: State, off: nat) {
    off in s.a.im.info && AllBlank(s.a.im.info[off].data)
  }

  ghost predicate FreeFits(s: State, c: Call, off: nat) {
    && c.StoreCall? && off in s.a.im.info
    && |s.a.im.info[off].key| == |c.key| && |s.a.im.info[off].data| == |c.data|
  }

  ghost predicate PcOk(s: State, p: Pid) {
    var pc := PcOf(s, p);
    && (!pc.Idle? ==> LegalOp(pc.c))
    && match pc
       case Idle => true
       case Start(c) => true
       case ReadHead(c) => Clean(s, c)
       case Walk(c, from, off, k) =>
         Clean(s, c) && Here(s, L(c), k, from, off) && (forall j: nat | j <= k :: NotAt(s, L(c), j, c.key))
       case FetchData(c, off, k) => Clean(s, c) && c.FetchCall? && OnChain(s, c, k, off)
       case OverDat(c, off, k) =>
         && Clean(s, c) && OnChain(s, c, k, off)
         && c.StoreCall? && c.flag != DB_INSERT && |s.a.im.info[off].data| == |c.data|
       case DelLock(c, from, off, next, k) => DelPlace(s, c, from, off, next, k)
       case DelData(c, from, off, next, k) => DelPlace(s, c, from, off, next, k)
       case DelReadFree(c, from, off, next, k) => Gone(s, c) && Here(s, L(c), k, from, next) && Blanked(s, off)
       case DelRecord(c, from, off, next, k, free) =>
         && Gone(s, c) && Here(s, L(c), k, from, next) && Blanked(s, off)
         && |s.a.lists| > 0 && |s.a.lists[0]| > 0 && free == After(s.a.lists[0], 0)
       case DelHead(c, from, off, next, k) =>
         && Gone(s, c) && Here(s, L(c), k, from, next) && Blanked(s, off) && AllBlank(s.a.im.info[off].key)
         && |s.a.lists| > 0 && |s.a.lists[0]| > 0 && off in s.a.im.ptr && s.a.im.ptr[off] == After(s.a.lists[0], 0)
       case DelChain(c, from, next, k) => Gone(s, c) && Here(s, L(c), k, from, next)
       case DelUnlock(c) => Gone(s, c)
       case ReplaceHead(c) => Adding(s, c)
       case NewHead(c) => Adding(s, c)
       case NewLock(c, head) => Adding(s, c) && HeadIs(s, c, head)
       case FreeHead(c, head) => Adding(s, c) && HeadIs(s, c, head)
       case FreeWalk(c, head, from, off, k) => Adding(s, c) && HeadIs(s, c, head) && Here(s, 0, k, from, off)
       case FreeTake(c, head, from, off, next, k) =>
         && Adding(s, c) && HeadIs(s, c, head) && Here(s, 0, k, from, off) && FreeFits(s, c, off)
         && k + 1 < |s.a.lists[0]| && next == After(s.a.lists[0], k + 1)
       case FreeUnlock(c, head, hit) =>
         Adding(s, c) && HeadIs(s, c, head) && (hit.Some? ==> FreeFits(s, c, hit.value))
       case ReuseDat(c, head, off) => Adding(s, c) && HeadIs(s, c, head) && FreeFits(s, c, off)
       case ReuseIdx(c, head, off) =>
         Adding(s, c) && HeadIs(s, c, head) && FreeFits(s, c, off) && s.a.im.info[off].data == c.data
       case DatLock(c, head) => Adding(s, c) && HeadIs(s, c, head)
       case DatWrite(c, head) => Adding(s, c) && HeadIs(s, c, head)
       case DatUnlock(c, head, d) => Adding(s, c) && HeadIs(s, c, head) && d in s.f.dat && s.f.dat[d] == c.data
       case IdxLock(c, head, d) => Adding(s, c) && HeadIs(s, c, head) && d in s.f.dat && s.f.dat[d] == c.data
       case IdxWrite(c, head, d) => Adding(s, c) && HeadIs(s, c, head) && d in s.f.dat && s.f.dat[d] == c.data
       case IdxUnlock(c, off) => Adding(s, c) && ReadyToLink(s, c, off)
       case LinkIn(c, off) => Adding(s, c) && ReadyToLink(s, c, off)
       case Finish(c, reply) => Same(s.a.em, Answer(s.a.m, c).0, c.key) && reply == Answer(s.a.m, c).1
  }

  ghost predicate ReadyToLink(s: State, c: Call, off: nat) {
    && c.StoreCall? && off in s.a.im.info && s.a.im.info[off].key == c.key && s.a.im.info[off].data == c.data
    && off in s.a.im.ptr && HeadIs(s, c, s.a.im.ptr[off])
  }

  // ---- The invariant ----

  ghost predicate Synced(s: State) {
    && s.f.idxEnd >= HEADER
    && (forall c: nat :: CellSync(s, c))
    && (forall o: nat :: EntrySync(s, o))
    && (forall d: nat :: DatSync(s, d))
    && (forall d: nat, e: nat :: DatApart(s, d, e))
    && (forall key :: KeySync(s, key))
  }

  ghost predicate Owned(s: State) {
    (forall o: nat :: OwnOk(s, o)) && (forall f: nat :: PendOk(s, f)) && (forall p: Pid :: PcOwn(s, p))
  }

  ghost predicate Locked(s: State) {
    && (forall p: Pid :: LockOk(s, p))
    && (forall l: nat, p: Pid :: ReaderOk(s, l, p))
    && (forall l: nat :: ChainOk(s, l))
  }

  ghost predicate Knowing(s: State) { forall p: Pid :: PcOk(s, p) }

  ghost predicate ChainsNow(u: int, s: State) { Inv(s.a.im, s.a.lists, s.a.em, s.a.owner.Keys) }

  /** The lists are as a single process would leave them, but for the owned records. */
  ghost predicate Chained(s: State) { forall u: int :: ChainsNow(u, s) }

  lemma Chains(s: State)
    requires Chained(s)
    ensures Inv(s.a.im, s.a.lists, s.a.em, s.a.owner.Keys)
  {
    assert ChainsNow(0, s);
  }

  lemma ChainsBack(s: State)
    requires Inv(s.a.im, s.a.lists, s.a.em, s.a.owner.Keys)
    ensures Chained(s)
  {
    forall u: int
      ensures ChainsNow(u, s)
    {
    }
  }

  ghost predicate SoundNow(u: int, s: State) {
    Chained(s) && Synced(s) && Owned(s) && Locked(s) && Knowing(s)
  }

  /** The invariant; the idle u keeps its parts out of proofs that do not ask for them. */
  ghost predicate Sound(s: State) {
    |s.a.lists| == NPTR && forall u: int :: SoundNow(u, s)
  }

  /** What the invariant says about one process. */
  lemma Known(s: State, p: Pid)
    requires Sound(s)
    ensures PcOk(s, p) && LockOk(s, p) && PcOwn(s, p)
  {
    assert SoundNow(0, s);
  }

  lemma InitialSound()
    ensures Sound(Initial())
  {
    CreatedInv();
    var s := Initial();
    assert s.a.owner.Keys == {};
    ChainsBack(s);
  }

  // ---- What a step of one process leaves alone ----

  /** The records that process p may change. */
  ghost predicate Mine(s: State, p: Pid, o: nat) {
    var pc := PcOf(s, p);
    || (WriteHeld(pc) && L(pc.c) < |s.a.lists| && o in s.a.lists[L(pc.c)])
    || (s.lk.freeLock == Some(p) && |s.a.lists| > 0 && o in s.a.lists[0])
    || (o in s.a.owner && s.a.owner[o] == p)
  }

  ghost predicate PcKept(s: State, t: State, q: Pid) { PcOf(t, q) == PcOf(s, q) }

  ghost predicate ListKept(s: State, t: State, p: Pid, l: nat) {
    && |t.a.lists| == |s.a.lists|
    && (l < |s.a.lists| && !(WriteHeld(PcOf(s, p)) && l == L(PcOf(s, p).c)) && !(l == 0 && s.lk.freeLock == Some(p))
        ==> t.a.lists[l] == s.a.lists[l])
  }

  ghost predicate InfoKept(s: State, t: State, p: Pid, o: nat) {
    o in s.a.im.info && !Mine(s, p, o) ==> o in t.a.im.info && t.a.im.info[o] == s.a.im.info[o]
  }

  ghost predicate OwnKept(s: State, t: State, p: Pid, o: nat) {
    o in s.a.owner && s.a.owner[o] != p ==>
      && o in t.a.owner && t.a.owner[o] == s.a.owner[o]
      && (o in s.a.im.ptr ==> o in t.a.im.ptr && t.a.im.ptr[o] == s.a.im.ptr[o])
  }

  ghost predicate PendKept(s: State, t: State, p: Pid, f: nat) {
    f in s.a.pend && s.a.pend[f] != p ==> f in t.a.pend && t.a.pend[f] == s.a.pend[f]
  }

  ghost predicate UserKept(s: State, t: State, p: Pid, d: nat) {
    d in s.a.user && s.a.user[d].ByProcess? && s.a.user[d].p != p ==>
      && d in t.a.user && t.a.user[d] == s.a.user[d]
      && (d in s.f.dat ==> d in t.f.dat && t.f.dat[d] == s.f.dat[d])
  }

  ghost predicate KeyKept(s: State, t: State, p: Pid, key: string) {
    (WriteHeld(PcOf(s, p)) ==> key != PcOf(s, p).c.key) ==> Same(t.a.em, s.a.em, key) && Same(t.a.m, s.a.m, key)
  }

  ghost predicate Kept(s: State, t: State, p: Pid) {
    && (forall q: Pid | q != p :: PcKept(s, t, q))
    && (forall l: nat :: ListKept(s, t, p, l))
    && (forall o: nat :: InfoKept(s, t, p, o))
    && (forall o: nat :: OwnKept(s, t, p, o))
    && (forall f: nat :: PendKept(s, t, p, f))
    && (forall d: nat :: UserKept(s, t, p, d))
    && (forall key :: KeyKept(s, t, p, key))
  }

  /** Two processes inside the same chain are both readers. */
  lemma ChainsApart(s: State, p: Pid, q: Pid)
    requires Locked(s) && p != q && WriteHeld(PcOf(s, p)) && ChainHeld(PcOf(s, q))
    ensures L(PcOf(s, p).c) != L(PcOf(s, q).c)
  {
    assert LockOk(s, p) && LockOk(s, q) && ChainOk(s, L(PcOf(s, p).c));
  }

  /** A record on the chain of another process is not mine. */
  lemma NotMine(s: State, p: Pid, q: Pid, k: nat)
    requires Sound(s) && p != q && ChainHeld(PcOf(s, q)) && L(PcOf(s, q).c) < NPTR
    requires 0 < k < |s.a.lists[L(PcOf(s, q).c)]|
    ensures !Mine(s, p, s.a.lists[L(PcOf(s, q).c)][k])
  {
    assert SoundNow(0, s);
    var l := L(PcOf(s, q).c);
    var o := s.a.lists[l][k];
    Chains(s);
    Position(s.a.im, s.a.lists, s.a.owner.Keys, l, k);
    NotOnOther(s, l, k, 0);
    if WriteHeld(PcOf(s, p)) {
      ChainsApart(s, p, q);
      if L(PcOf(s, p).c) < |s.a.lists| {
        NotOnOther(s, l, k, L(PcOf(s, p).c));
      }
    }
  }

  lemma NotOnOther(s: State, l: nat, k: nat, a: nat)
    requires Apart(s.a.lists) && l < |s.a.lists| && k < |s.a.lists[l]| && a < |s.a.lists| && a != l
    ensures s.a.lists[l][k] !in s.a.lists[a]
  {
    forall j | 0 <= j < |s.a.lists[a]|
      ensures s.a.lists[a][j] != s.a.lists[l][k]
    {
      assert Differ(s.a.lists, l, k, a, j);
    }
  }

  lemma NotMineFree(s: State, p: Pid, q: Pid, k: nat)
    requires Sound(s) && p != q && FreeHeld(PcOf(s, q)) && 0 < k < |s.a.lists[0]|
    ensures !Mine(s, p, s.a.lists[0][k])
  {
    assert SoundNow(0, s);
    assert LockOk(s, q) && LockOk(s, p);
    Chains(s);
    Position(s.a.im, s.a.lists, s.a.owner.Keys, 0, k);
    if WriteHeld(PcOf(s, p)) && L(PcOf(s, p).c) < |s.a.lists| {
      NotOnOther(s, 0, k, L(PcOf(s, p).c));
    }
  }

  lemma NotMineOwn(s: State, p: Pid, q: Pid, o: nat)
    requires Sound(s) && p != q && o in s.a.owner && s.a.owner[o] == q
    ensures !Mine(s, p, o) && o in s.a.im.info && o in s.a.im.ptr
  {
    assert SoundNow(0, s);
    Chains(s);
    assert Accounted(s.a.im, s.a.lists, s.a.owner.Keys, o);
    if WriteHeld(PcOf(s, p)) && L(PcOf(s, p).c) < |s.a.lists| {
      assert On(s.a.lists, o) || o !in s.a.lists[L(PcOf(s, p).c)];
    }
    assert On(s.a.lists, o) || o !in s.a.lists[0];
  }

  /** What the chain of a waiting process looked like to it, it still looks like. */
  lemma ChainKept(s: State, t: State, p: Pid, q: Pid)
    requires Sound(s) && Kept(s, t, p) && p != q && ChainHeld(PcOf(s, q)) && L(PcOf(s, q).c) < NPTR
    ensures var c := PcOf(s, q).c;
            && |t.a.lists| == |s.a.lists| && t.a.lists[L(c)] == s.a.lists[L(c)]
            && Same(t.a.em, s.a.em, c.key) && Same(t.a.m, s.a.m, c.key)
    ensures forall k | 0 < k < |s.a.lists[L(PcOf(s, q).c)]| :: InfoAsBefore(s, t, s.a.lists[L(PcOf(s, q).c)][k])
  {
    assert SoundNow(0, s);
    var c := PcOf(s, q).c;
    if WriteHeld(PcOf(s, p)) {
      ChainsApart(s, p, q);
    }
    assert ListKept(s, t, p, L(c)) && KeyKept(s, t, p, c.key);
    forall k | 0 < k < |s.a.lists[L(c)]|
      ensures InfoAsBefore(s, t, s.a.lists[L(c)][k])
    {
      NotMine(s, p, q, k);
      assert InfoKept(s, t, p, s.a.lists[L(c)][k]);
    }
  }

  ghost predicate InfoAsBefore(s: State, t: State, o: nat) {
    o in s.a.im.info ==> o in t.a.im.info && t.a.im.info[o] == s.a.im.info[o]
  }

  lemma OwnStays(s: State, t: State, p: Pid, q: Pid)
    requires Sound(s) && Kept(s, t, p) && p != q
    ensures PcOwn(t, q)
    ensures PrivateOf(PcOf(s, q)).Some? ==>
              var o := PrivateOf(PcOf(s, q)).value;
              && InfoAsBefore(s, t, o) && o in s.a.im.ptr && o in t.a.im.ptr && t.a.im.ptr[o] == s.a.im.ptr[o]
    ensures DatOf(PcOf(s, q)).Some? ==>
              var d := DatOf(PcOf(s, q)).value;
              d in s.f.dat ==> d in t.f.dat && t.f.dat[d] == s.f.dat[d]
  {
    assert SoundNow(0, s);
    assert PcOwn(s, q) && PcKept(s, t, q);
    var pc := PcOf(s, q);
    if PrivateOf(pc).Some? {
      NotMineOwn(s, p, q, PrivateOf(pc).value);
      assert OwnKept(s, t, p, PrivateOf(pc).value) && InfoKept(s, t, p, PrivateOf(pc).value);
    }
    if PendOf(pc).Some? {
      assert PendKept(s, t, p, PendOf(pc).value);
    }
    if DatOf(pc).Some? {
      assert UserKept(s, t, p, DatOf(pc).value);
    }
  }

  lemma FreeStays(s: State, t: State, p: Pid, q: Pid)
    requires Sound(s) && Kept(s, t, p) && p != q && FreeHeld(PcOf(s, q))
    ensures |t.a.lists| == |s.a.lists| && t.a.lists[0] == s.a.lists[0]
    ensures forall k | 0 < k < |s.a.lists[0]| :: InfoAsBefore(s, t, s.a.lists[0][k])
  {
    assert SoundNow(0, s);
    assert LockOk(s, q) && LockOk(s, p) && ListKept(s, t, p, 0);
    forall k | 0 < k < |s.a.lists[0]|
      ensures InfoAsBefore(s, t, s.a.lists[0][k])
    {
      NotMineFree(s, p, q, k);
      assert InfoKept(s, t, p, s.a.lists[0][k]);
    }
  }

  /** All that a process inside its chain knows looks as before. */
  ghost predicate SameView(s: State, t: State, q: Pid) {
    var pc := PcOf(s, q);
    && PcOf(t, q) == pc && ChainHeld(pc)
    && |t.a.lists| == |s.a.lists| && L(pc.c) < |s.a.lists| && t.a.lists[L(pc.c)] == s.a.lists[L(pc.c)]
    && Same(t.a.em, s.a.em, pc.c.key) && Same(t.a.m, s.a.m, pc.c.key)
    && (forall k | 0 < k < |s.a.lists[L(pc.c)]| :: InfoAsBefore(s, t, s.a.lists[L(pc.c)][k]))
    && (PrivateOf(pc).Some? ==>
          && InfoAsBefore(s, t, PrivateOf(pc).value)
          && (PrivateOf(pc).value in s.a.im.ptr ==>
                && PrivateOf(pc).value in t.a.im.ptr
                && t.a.im.ptr[PrivateOf(pc).value] == s.a.im.ptr[PrivateOf(pc).value]))
    && (DatOf(pc).Some? && DatOf(pc).value in s.f.dat ==>
          DatOf(pc).value in t.f.dat && t.f.dat[DatOf(pc).value] == s.f.dat[DatOf(pc).value])
    && (FreeHeld(pc) ==>
          && t.a.lists[0] == s.a.lists[0]
          && forall k | 0 < k < |s.a.lists[0]| :: InfoAsBefore(s, t, s.a.lists[0][k]))
  }

  ghost predicate Searching(pc: Pc) {
    || pc.ReadHead? || pc.Walk? || pc.FetchData? || pc.OverDat? || pc.DelLock? || pc.DelData? || pc.Finish?
  }

  ghost predicate Deleting(pc: Pc) {
    || pc.DelReadFree? || pc.DelRecord? || pc.DelHead? || pc.DelChain? || pc.DelUnlock?
  }

  lemma SearchStays(s: State, t: State, q: Pid)
    requires SameView(s, t, q) && Searching(PcOf(s, q)) && PcOk(s, q)
    ensures PcOk(t, q)
  {
    var pc := PcOf(s, q);
    if pc.Walk? {
      forall j: nat | j <= pc.k
        ensures NotAt(t, L(pc.c), j, pc.c.key)
      {
        assert NotAt(s, L(pc.c), j, pc.c.key);
      }
    }
  }

  lemma DeleteStays(s: State, t: State, q: Pid)
    requires SameView(s, t, q) && Deleting(PcOf(s, q)) && PcOk(s, q)
    ensures PcOk(t, q)
  {
  }

  lemma AddStays(s: State, t: State, q: Pid)
    requires SameView(s, t, q) && !Searching(PcOf(s, q)) && !Deleting(PcOf(s, q)) && PcOk(s, q)
    ensures PcOk(t, q)
  {
    var pc := PcOf(s, q);
    assert Adding(t, pc.c);
    if pc.FreeTake? {
      assert InfoAsBefore(s, t, s.a.lists[0][pc.k + 1]);
    }
  }

  lemma ViewStays(s: State, t: State, p: Pid, q: Pid)
    requires Sound(s) && Kept(s, t, p) && p != q && ChainHeld(PcOf(s, q))
    ensures SameView(s, t, q)
  {
    assert PcKept(s, t, q);
    ChainKept(s, t, p, q);
    OwnStays(s, t, p, q);
    if FreeHeld(PcOf(s, q)) {
      FreeStays(s, t, p, q);
    }
  }

  lemma OtherPcOk(s: State, t: State, p: Pid, q: Pid)
    requires Sound(s) && Kept(s, t, p) && p != q
    ensures PcOk(t, q)
  {
    assert SoundNow(0, s);
    assert PcOk(s, q) && PcKept(s, t, q);
    if ChainHeld(PcOf(s, q)) {
      ViewStays(s, t, p, q);
      if Searching(PcOf(s, q)) {
        SearchStays(s, t, q);
      } else if Deleting(PcOf(s, q)) {
        DeleteStays(s, t, q);
      } else {
        AddStays(s, t, q);
      }
    }
  }
}
