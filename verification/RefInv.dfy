/**
 The invariant of the reference-counted table: the pointers spell one list per
 slot, every count is the number of references, every allocated object is on
 its list or known to one thread only, and every thread at a point of a call
 may rely on what its locks and references protect.
 */
module RefInv {
  import opened Links
  import opened RefSpec
  import opened RefTable
  import opened Wrappers

  // ---- What a thread has locked, and what it alone knows ----

  predicate HoldsHash(pc: Pc) {
    pc.AllocLink? || pc.AllocHead? || pc.AllocLockObj? || pc.AllocUnlock? ||
    pc.FindHead? || pc.FindWalk? || pc.FindLockObj? || pc.FindInc? || pc.FindUnlockObj? || pc.FindUnlock? ||
    pc.ReleRelock? || pc.ReleRetest? || pc.ReleBackDec? || pc.ReleBackUnlock? || pc.ReleBackHash? ||
    pc.ReleHead? || pc.ReleWalk? || pc.ReleLeave?
  }

  /** The object whose f_lock is held at this point, or 0. */
  function LockedObj(pc: Pc): nat {
    if pc.AllocUnlock? || pc.AllocDone? || pc.HoldInc? || pc.HoldUnlock? || pc.FindInc? || pc.FindUnlockObj? ||
       pc.ReleTest? || pc.ReleDec? || pc.ReleUnlock? || pc.ReleDrop? || pc.ReleRetest? || pc.ReleBackDec? ||
       pc.ReleBackUnlock? || pc.ReleHead? || pc.ReleWalk? || pc.ReleLeave? || pc.ReleDone?
    then pc.o else 0
  }

  /** The object that is off the lists and known to this thread only, or 0. */
  function OwnedObj(pc: Pc): nat {
    if pc.AllocLock? || pc.AllocLink? || pc.AllocHead? || pc.ReleLeave? || pc.ReleDone? || pc.ReleFree?
    then pc.o else 0
  }

  // ---- The memory ----

  ghost predicate HeadOk(a: Aux, h: nat) {
    h < NHASH ==> h < |a.lists| && |a.lists[h]| > 0 && a.lists[h][0] == h
  }

  ghost predicate PlaceOk(m: Mem, a: Aux, h: nat, k: nat) {
    h < |a.lists| && 0 < k < |a.lists[h]| ==>
      a.lists[h][k] >= NHASH && a.lists[h][k] in m.id && Slot(m, a.lists[h][k]) == h
  }

  ghost predicate ObjOk(m: Mem, a: Aux, o: nat) {
    && (o in m.id <==> o in m.count) && (o in m.id <==> o in a.refs)
    && (o in m.id ==> o >= NHASH && m.count[o] == |a.refs[o]| && m.count[o] >= 1)
    && (o in m.id && o !in a.owner ==> On(a.lists, o))
    && (o in a.owner ==> o in m.id && !On(a.lists, o) && a.refs[o] == multiset{a.owner[o]})
  }

  ghost predicate TableOk(m: Mem, a: Aux) {
    && |a.lists| == NHASH && Threaded(m.next, a.lists)
    && (forall h: nat :: HeadOk(a, h))
    && (forall h: nat, k: nat :: PlaceOk(m, a, h, k))
    && (forall o: nat :: ObjOk(m, a, o))
  }

  // ---- The threads ----

  ghost predicate HashOk(s: State, t: Tid) {
    HoldsHash(PcOf(s, t)) <==> s.y.hash == Some(t)
  }

  ghost predicate LockOk(s: State, t: Tid, o: nat) {
    o > 0 ==> (LockedObj(PcOf(s, t)) == o <==> o in s.y.obj && s.y.obj[o] == t)
  }

  ghost predicate OwnOk(s: State, t: Tid, o: nat) {
    o > 0 ==> (OwnedObj(PcOf(s, t)) == o <==> o in s.a.owner && s.a.owner[o] == t)
  }

  ghost predicate Owns(s: State, t: Tid, o: nat) {
    o in s.a.owner && s.a.owner[o] == t
  }

  /** The thread has a reference to an object on a list. */
  ghost predicate Refers(s: State, t: Tid, o: nat) {
    HasRef(s, t, o) && o in s.m.id && o !in s.a.owner
  }

  ghost predicate Listed(s: State, o: nat) {
    o in s.m.id && o !in s.a.owner
  }

  /** The thread has the only reference to an object on a list. */
  ghost predicate LastRef(s: State, t: Tid, o: nat) {
    Refers(s, t, o) && s.a.refs[o] == multiset{t}
  }

  ghost predicate Differs(s: State, h: nat, j: nat, i: int) {
    h < |s.a.lists| && 0 < j < |s.a.lists[h]| && s.a.lists[h][j] in s.m.id ==> s.m.id[s.a.lists[h][j]] != i
  }

  /** No object before place k of the slot has the id. */
  ghost predicate NoneBefore(s: State, i: int, k: nat) {
    forall j: nat | j < k :: Differs(s, Bucket(i), j, i)
  }

  /** The pointer p stands for place k of the list: the cell there, or null at its end. */
  ghost predicate Stands(s: State, h: nat, p: nat, k: nat) {
    h < |s.a.lists| && 0 < k <= |s.a.lists[h]| &&
    p == if k < |s.a.lists[h]| then s.a.lists[h][k] else 0
  }

  ghost predicate PassedBy(s: State, h: nat, o: nat, j: nat) {
    h < |s.a.lists| && j < |s.a.lists[h]| ==> s.a.lists[h][j] != o
  }

  ghost predicate PcOk(s: State, t: Tid) {
    match PcOf(s, t)
    case Idle => true
    case AllocLock(o) => Owns(s, t, o)
    case AllocLink(o) => Owns(s, t, o)
    case AllocHead(o) =>
      Owns(s, t, o) && Slot(s.m, o) in s.m.next && o in s.m.next && s.m.next[o] == s.m.next[Slot(s.m, o)]
    case AllocLockObj(o) => Refers(s, t, o)
    case AllocUnlock(o) => Refers(s, t, o)
    case AllocDone(o) => Refers(s, t, o)
    case HoldLock(o) => Refers(s, t, o)
    case HoldInc(o) => Refers(s, t, o)
    case HoldUnlock(o) => Refers(s, t, o)
    case FindLock(_) => true
    case FindHead(_) => true
    case FindWalk(i, o, k) => Stands(s, Bucket(i), o, k) && NoneBefore(s, i, k)
    case FindLockObj(i, o, k) => o != 0 && Stands(s, Bucket(i), o, k) && NoneBefore(s, i, k) && IdIs(s, o, i)
    case FindInc(i, o, k) => o != 0 && Stands(s, Bucket(i), o, k) && NoneBefore(s, i, k) && IdIs(s, o, i)
    case FindUnlockObj(o) => Refers(s, t, o)
    case FindUnlock(o) => o == 0 || Refers(s, t, o)
    case ReleLock(o) => Refers(s, t, o)
    case ReleTest(o) => Refers(s, t, o)
    case ReleDec(o) => Refers(s, t, o) && s.a.refs[o] != multiset{t}
    case ReleUnlock(o) => Listed(s, o)
    case ReleDrop(o) => Refers(s, t, o)
    case ReleLockHash(o) => Refers(s, t, o)
    case ReleRelock(o) => Refers(s, t, o)
    case ReleRetest(o) => Refers(s, t, o)
    case ReleBackDec(o) => Refers(s, t, o) && s.a.refs[o] != multiset{t}
    case ReleBackUnlock(o) => Listed(s, o)
    case ReleBackHash(_) => true
    case ReleHead(o) => LastRef(s, t, o)
    case ReleWalk(o, p, k) =>
      && LastRef(s, t, o) && p != 0 && Stands(s, Slot(s.m, o), p, k)
      && forall j: nat | j <= k :: PassedBy(s, Slot(s.m, o), o, j)
    case ReleLeave(o) => Owns(s, t, o)
    case ReleDone(o) => Owns(s, t, o)
    case ReleFree(o) => Owns(s, t, o) && o !in s.y.obj
  }

  ghost predicate IdIs(s: State, o: nat, i: int) {
    o in s.m.id && s.m.id[o] == i
  }

  ghost predicate ThreadOk(s: State, t: Tid) {
    && HashOk(s, t) && PcOk(s, t)
    && (forall o: nat :: LockOk(s, t, o)) && (forall o: nat :: OwnOk(s, t, o))
  }

  ghost predicate SoundNow(u: int, s: State) {
    TableOk(s.m, s.a) && forall t: Tid :: ThreadOk(s, t)
  }

  /** The invariant; the idle u keeps its parts out of proofs that do not ask for them. */
  ghost predicate Sound(s: State) {
    |s.a.lists| == NHASH && forall u: int :: SoundNow(u, s)
  }

  /** What the invariant says about one thread and one object. */
  lemma Known(s: State, t: Tid, o: nat)
    requires Sound(s)
    ensures PcOk(s, t) && HashOk(s, t) && LockOk(s, t, o) && OwnOk(s, t, o) && ObjOk(s.m, s.a, o)
  {
    assert SoundNow(0, s) && ThreadOk(s, t);
  }

  // ---- What other threads' steps leave alone ----

  ghost predicate ObjKept(s: State, s': State, q: Tid, o: nat) {
    && (HasRef(s, q, o) ==> HasRef(s', q, o))
    && (Listed(s, o) && (HasRef(s, q, o) || LockedObj(PcOf(s, q)) == o) ==> o !in s'.a.owner)
    && (o in s.m.id && (o !in s.a.owner || s.a.owner[o] == q) ==> o in s'.m.id && s'.m.id[o] == s.m.id[o])
    && (o in s.a.refs && LockedObj(PcOf(s, q)) == o ==> o in s'.a.refs && s'.a.refs[o] == s.a.refs[o])
    && (Owns(s, q, o) <==> Owns(s', q, o))
    && (o > 0 ==> (o in s.y.obj && s.y.obj[o] == q <==> o in s'.y.obj && s'.y.obj[o] == q))
    && (Owns(s, q, o) && o in s.m.next ==> o in s'.m.next && s'.m.next[o] == s.m.next[o])
    && (Owns(s, q, o) && o !in s.y.obj ==> o !in s'.y.obj)
  }

  ghost predicate SlotKept(s: State, s': State, h: nat) {
    h in s.m.next && h < NHASH ==> h in s'.m.next && s'.m.next[h] == s.m.next[h]
  }

  ghost predicate KeptFor(s: State, s': State, q: Tid) {
    && PcOf(s', q) == PcOf(s, q)
    && (s.y.hash == Some(q) <==> s'.y.hash == Some(q))
    && (HoldsHash(PcOf(s, q)) ==> s'.a.lists == s.a.lists && forall h: nat :: SlotKept(s, s', h))
    && forall o: nat :: ObjKept(s, s', q, o)
  }

  lemma OtherLocks(s: State, s': State, q: Tid)
    requires ThreadOk(s, q) && KeptFor(s, s', q)
    ensures HashOk(s', q)
    ensures forall o: nat :: LockOk(s', q, o)
    ensures forall o: nat :: OwnOk(s', q, o)
  {
    forall o: nat
      ensures LockOk(s', q, o) && OwnOk(s', q, o)
    {
      assert LockOk(s, q, o) && OwnOk(s, q, o) && ObjKept(s, s', q, o);
    }
  }

  lemma OtherWalk(s: State, s': State, q: Tid, i: int, k: nat)
    requires TableOk(s.m, s.a) && KeptFor(s, s', q) && HoldsHash(PcOf(s, q)) && NoneBefore(s, i, k)
    ensures NoneBefore(s', i, k)
  {
    forall j: nat | j < k
      ensures Differs(s', Bucket(i), j, i)
    {
      var h := Bucket(i);
      if 0 < j < |s.a.lists[h]| {
        var o := s.a.lists[h][j];
        assert Differs(s, h, j, i) && PlaceOk(s.m, s.a, h, j) && ObjOk(s.m, s.a, o) && ObjKept(s, s', q, o);
        assert o in s.a.lists[h] && On(s.a.lists, o);
      }
    }
  }

  lemma OtherPassed(s: State, s': State, q: Tid)
    requires TableOk(s.m, s.a) && ThreadOk(s, q) && KeptFor(s, s', q) && PcOf(s, q).ReleWalk?
    ensures PcOk(s', q)
  {
    var o, k := PcOf(s, q).o, PcOf(s, q).k;
    assert ObjKept(s, s', q, o);
    forall j: nat | j <= k
      ensures PassedBy(s', Slot(s'.m, o), o, j)
    {
      assert PassedBy(s, Slot(s.m, o), o, j);
    }
  }

  lemma OtherPc(s: State, s': State, q: Tid)
    requires TableOk(s.m, s.a) && ThreadOk(s, q) && KeptFor(s, s', q)
    ensures PcOk(s', q)
  {
    var pc := PcOf(s, q);
    if pc.ReleWalk? {
      OtherPassed(s, s', q);
    } else if pc.FindWalk? || pc.FindLockObj? || pc.FindInc? {
      OtherWalk(s, s', q, pc.i, pc.k);
      if pc.o != 0 {
        assert ObjKept(s, s', q, pc.o) && PlaceOk(s.m, s.a, Bucket(pc.i), pc.k) && ObjOk(s.m, s.a, pc.o);
        assert pc.o in s.a.lists[Bucket(pc.i)] && On(s.a.lists, pc.o);
      }
    } else if !pc.Idle? && !pc.FindLock? && !pc.FindHead? {
      assert ObjKept(s, s', q, pc.o) && ObjOk(s.m, s.a, pc.o);
      assert pc.AllocHead? ==> SlotKept(s, s', Slot(s.m, pc.o));
    }
  }

  /** A thread that another thread's step does not concern stays as it should be. */
  lemma OtherOk(s: State, s': State, q: Tid)
    requires TableOk(s.m, s.a) && ThreadOk(s, q) && KeptFor(s, s', q)
    ensures ThreadOk(s', q)
  {
    OtherLocks(s, s', q);
    OtherPc(s, s', q);
  }
}
