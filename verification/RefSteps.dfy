/**
 Every step keeps the invariant, and changes the table either not at all or as
 the atomic operation does whose effect it is.
 */
module RefSteps {
  import opened RefTable
  import opened Wrappers
  import opened RefInv

  // ---- Steps that change only locks and the thread's own point ----

  ghost predicate Kept(s: State, s': State, t: Tid) {
    forall q: Tid | q != t :: KeptFor(s, s', q)
  }

  lemma SoundBy(s: State, s': State, t: Tid)
    requires Sound(s) && TableOk(s'.m, s'.a) && ThreadOk(s', t) && Kept(s, s', t)
    ensures Sound(s')
  {
    assert SoundNow(0, s);
    forall q: Tid
      ensures ThreadOk(s', q)
    {
      assert ThreadOk(s, q);
      if q != t {
        assert KeptFor(s, s', q);
        OtherOk(s, s', q);
      }
    }
  }

  /** A test, or a move along a list. */
  lemma QuietSound(s: State, t: Tid, pc: Pc)
    requires Sound(s)
    requires HoldsHash(pc) == HoldsHash(PcOf(s, t)) && LockedObj(pc) == LockedObj(PcOf(s, t))
    requires OwnedObj(pc) == OwnedObj(PcOf(s, t)) && PcOk(At(s, t, pc), t)
    ensures Sound(At(s, t, pc))
  {
    assert SoundNow(0, s);
    var s' := At(s, t, pc);
    assert ThreadOk(s, t);
    forall o: nat
      ensures LockOk(s', t, o) && OwnOk(s', t, o)
    {
      assert LockOk(s, t, o) && OwnOk(s, t, o);
    }
    forall q: Tid | q != t
      ensures KeptFor(s, s', q)
    {
      assert forall o: nat :: ObjKept(s, s', q, o);
    }
    SoundBy(s, s', t);
  }

  lemma HashTakenSound(s: State, t: Tid, pc: Pc)
    requires Sound(s) && s.y.hash.None?
    requires HoldsHash(pc) && LockedObj(pc) == LockedObj(PcOf(s, t))
    requires OwnedObj(pc) == OwnedObj(PcOf(s, t)) && PcOk(HashTaken(s, t, pc), t)
    ensures Sound(HashTaken(s, t, pc))
  {
    assert SoundNow(0, s);
    var s' := HashTaken(s, t, pc);
    assert ThreadOk(s, t);
    forall o: nat
      ensures LockOk(s', t, o) && OwnOk(s', t, o)
    {
      assert LockOk(s, t, o) && OwnOk(s, t, o);
    }
    forall q: Tid | q != t
      ensures KeptFor(s, s', q)
    {
      assert forall o: nat :: ObjKept(s, s', q, o);
    }
    SoundBy(s, s', t);
  }

  lemma HashLeftSound(s: State, t: Tid, pc: Pc)
    requires Sound(s) && s.y.hash == Some(t)
    requires !HoldsHash(pc) && LockedObj(pc) == LockedObj(PcOf(s, t))
    requires OwnedObj(pc) == OwnedObj(PcOf(s, t)) && PcOk(HashLeft(s, t, pc), t)
    ensures Sound(HashLeft(s, t, pc))
  {
    assert SoundNow(0, s);
    var s' := HashLeft(s, t, pc);
    assert ThreadOk(s, t);
    forall o: nat
      ensures LockOk(s', t, o) && OwnOk(s', t, o)
    {
      assert LockOk(s, t, o) && OwnOk(s, t, o);
    }
    forall q: Tid | q != t
      ensures KeptFor(s, s', q)
    {
      assert forall o: nat :: ObjKept(s, s', q, o);
    }
    SoundBy(s, s', t);
  }

  lemma ObjTakenSound(s: State, t: Tid, o: nat, pc: Pc)
    requires Sound(s) && Listed(s, o) && o !in s.y.obj
    requires HoldsHash(pc) == HoldsHash(PcOf(s, t)) && LockedObj(pc) == o && LockedObj(PcOf(s, t)) == 0
    requires OwnedObj(pc) == OwnedObj(PcOf(s, t)) && PcOk(ObjTaken(s, t, o, pc), t)
    ensures Sound(ObjTaken(s, t, o, pc))
  {
    assert SoundNow(0, s);
    var s' := ObjTaken(s, t, o, pc);
    assert ThreadOk(s, t);
    forall x: nat
      ensures LockOk(s', t, x) && OwnOk(s', t, x)
    {
      assert LockOk(s, t, x) && OwnOk(s, t, x);
    }
    forall q: Tid | q != t
      ensures KeptFor(s, s', q)
    {
      assert forall x: nat :: ObjKept(s, s', q, x);
    }
    SoundBy(s, s', t);
  }

  lemma ObjLeftSound(s: State, t: Tid, o: nat, pc: Pc)
    requires Sound(s) && o > 0 && LockedObj(PcOf(s, t)) == o
    requires HoldsHash(pc) == HoldsHash(PcOf(s, t)) && LockedObj(pc) == 0
    requires OwnedObj(pc) == OwnedObj(PcOf(s, t)) && PcOk(ObjLeft(s, t, o, pc), t)
    ensures Sound(ObjLeft(s, t, o, pc))
  {
    assert SoundNow(0, s);
    var s' := ObjLeft(s, t, o, pc);
    assert ThreadOk(s, t) && LockOk(s, t, o);
    forall x: nat
      ensures LockOk(s', t, x) && OwnOk(s', t, x)
    {
      assert LockOk(s, t, x) && OwnOk(s, t, x);
    }
    forall q: Tid | q != t
      ensures KeptFor(s, s', q)
    {
      assert forall x: nat :: ObjKept(s, s', q, x);
    }
    SoundBy(s, s', t);
  }

  // ---- Counting references ----

  lemma CountedTable(m: Mem, a: Aux, o: nat, n: int, r: multiset<Tid>)
    requires TableOk(m, a) && o in m.id && o !in a.owner && n == |r| && n >= 1
    ensures TableOk(m.(count := m.count[o := n]), a.(refs := a.refs[o := r]))
  {
    var m', a' := m.(count := m.count[o := n]), a.(refs := a.refs[o := r]);
    forall h: nat
      ensures HeadOk(a', h)
    {
      assert HeadOk(a, h);
    }
    forall h: nat, k: nat
      ensures PlaceOk(m', a', h, k)
    {
      assert PlaceOk(m, a, h, k);
    }
    forall x: nat
      ensures ObjOk(m', a', x)
    {
      assert ObjOk(m, a, x) && ObjOk(m, a, o);
    }
  }

  /** The holder of f_lock changes the count and its own references. */
  lemma CountedSound(s: State, t: Tid, o: nat, n: int, r: multiset<Tid>, pc: Pc)
    requires Sound(s) && Listed(s, o) && LockedObj(PcOf(s, t)) == o && n == |r| && n >= 1
    requires forall q: Tid | q != t && HasRef(s, q, o) :: r[q] > 0
    requires HoldsHash(pc) == HoldsHash(PcOf(s, t)) && LockedObj(pc) == o
    requires OwnedObj(pc) == OwnedObj(PcOf(s, t)) && PcOk(Counted(s, t, o, n, r, pc), t)
    ensures Sound(Counted(s, t, o, n, r, pc))
  {
    assert SoundNow(0, s);
    var s' := Counted(s, t, o, n, r, pc);
    CountedTable(s.m, s.a, o, n, r);
    assert ObjOk(s.m, s.a, o);
    assert ThreadOk(s, t) && LockOk(s, t, o);
    forall x: nat
      ensures LockOk(s', t, x) && OwnOk(s', t, x)
    {
      assert LockOk(s, t, x) && OwnOk(s, t, x);
    }
    forall q: Tid | q != t
      ensures KeptFor(s, s', q)
    {
      assert ThreadOk(s, q) && LockOk(s, q, o);
      assert forall x: nat :: ObjKept(s, s', q, x);
    }
    SoundBy(s, s', t);
  }

  /** A hold, or the hold inside a find, adds a reference of its thread. */
  lemma MoreSound(s: State, t: Tid, o: nat, pc: Pc)
    requires Sound(s) && Listed(s, o) && LockedObj(PcOf(s, t)) == o
    requires HoldsHash(pc) == HoldsHash(PcOf(s, t)) && LockedObj(pc) == o
    requires OwnedObj(pc) == OwnedObj(PcOf(s, t)) && (pc.HoldUnlock? || pc.FindUnlockObj?) && pc.o == o
    ensures o in s.m.count
    ensures Sound(Counted(s, t, o, s.m.count[o] + 1, More(s, t, o), pc))
  {
    assert SoundNow(0, s);
    assert ObjOk(s.m, s.a, o);
    CountedSound(s, t, o, s.m.count[o] + 1, More(s, t, o), pc);
  }

  /** A release that is not the last one takes away one reference of its thread. */
  lemma LessSound(s: State, t: Tid, o: nat, pc: Pc)
    requires Sound(s) && Refers(s, t, o) && s.a.refs[o] != multiset{t} && LockedObj(PcOf(s, t)) == o
    requires HoldsHash(pc) == HoldsHash(PcOf(s, t)) && LockedObj(pc) == o
    requires OwnedObj(pc) == OwnedObj(PcOf(s, t)) && (pc.ReleUnlock? || pc.ReleBackUnlock?) && pc.o == o
    ensures o in s.m.count
    ensures Sound(Counted(s, t, o, s.m.count[o] - 1, Less(s, t, o), pc))
  {
    assert SoundNow(0, s);
    assert ObjOk(s.m, s.a, o);
    OneOnly(s.a.refs[o], t);
    CountedSound(s, t, o, s.m.count[o] - 1, Less(s, t, o), pc);
  }

  lemma OneOnly(r: multiset<Tid>, t: Tid)
    requires r[t] > 0
    ensures |r - multiset{t}| == |r| - 1
    ensures |r| == 1 <==> r == multiset{t}
  {
    assert r == (r - multiset{t}) + multiset{t};
    if |r| == 1 {
      assert r - multiset{t} == multiset{};
    }
  }
}
