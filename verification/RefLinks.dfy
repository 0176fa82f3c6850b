/**
 The steps that change which objects exist and which are on lists: allocating,
 linking in front of a slot, unlinking, freeing.
 */
module RefLinks {
  import opened Links
  import opened RefSpec
  import opened RefTable
  import opened RefInv
  import opened RefSteps

  // ---- Places on lists ----

  /** An object that is not owned has a place on the list of its slot. */
  lemma PlaceOf(m: Mem, a: Aux, o: nat) returns (j: nat)
    requires TableOk(m, a) && o in m.id && o !in a.owner
    ensures 0 < j < |a.lists[Slot(m, o)]| && a.lists[Slot(m, o)][j] == o
  {
    assert ObjOk(m, a, o);
    var h :| 0 <= h < |a.lists| && o in a.lists[h];
    j :| 0 <= j < |a.lists[h]| && a.lists[h][j] == o;
    assert HeadOk(a, h) && PlaceOk(m, a, h, j);
  }

  /** What stands on a list is allocated and not owned. */
  lemma OnListed(m: Mem, a: Aux, h: nat, k: nat)
    requires TableOk(m, a) && h < NHASH && 0 < k < |a.lists[h]|
    ensures a.lists[h][k] in m.id && a.lists[h][k] !in a.owner && a.lists[h][k] >= NHASH
    ensures a.lists[h][k] in m.next && m.next[a.lists[h][k]] == After(a.lists[h], k)
  {
    assert PlaceOk(m, a, h, k) && ObjOk(m, a, a.lists[h][k]);
    assert a.lists[h][k] in a.lists[h] && On(a.lists, a.lists[h][k]);
    assert Spells(m.next, a.lists[h]) && Points(m.next, a.lists[h], k);
  }

  lemma HeadPoints(m: Mem, a: Aux, h: nat)
    requires TableOk(m, a) && h < NHASH
    ensures |a.lists[h]| > 0 && h in m.next && m.next[h] == After(a.lists[h], 0)
  {
    assert HeadOk(a, h) && Spells(m.next, a.lists[h]) && Points(m.next, a.lists[h], 0);
  }

  // ---- Allocating ----

  lemma AllocatedTable(m: Mem, a: Aux, t: Tid, o: nat, i: int)
    requires TableOk(m, a) && o >= NHASH && o !in m.id
    ensures TableOk(m.(id := m.id[o := i], count := m.count[o := 1]),
                    a.(refs := a.refs[o := multiset{t}], owner := a.owner[o := t]))
  {
    var m' := m.(id := m.id[o := i], count := m.count[o := 1]);
    var a' := a.(refs := a.refs[o := multiset{t}], owner := a.owner[o := t]);
    forall h: nat
      ensures HeadOk(a', h)
    {
      assert HeadOk(a, h);
    }
    forall h: nat, k: nat
      ensures PlaceOk(m', a', h, k)
    {
      assert PlaceOk(m, a, h, k);
    }
    if On(a.lists, o) {
      OnIs(m, a, o);
    }
    forall x: nat
      ensures ObjOk(m', a', x)
    {
      assert ObjOk(m, a, x);
    }
  }

  lemma OnIs(m: Mem, a: Aux, o: nat)
    requires TableOk(m, a) && On(a.lists, o)
    ensures o < NHASH || o in m.id
  {
    var h :| 0 <= h < |a.lists| && o in a.lists[h];
    var k :| 0 <= k < |a.lists[h]| && a.lists[h][k] == o;
    assert HeadOk(a, h) && PlaceOk(m, a, h, k);
  }

  lemma AllocatedKept(s: State, t: Tid, o: nat, i: int)
    requires Sound(s) && o !in s.m.id
    ensures Kept(s, Allocated(s, t, o, i), t)
  {
    assert SoundNow(0, s);
    var s' := Allocated(s, t, o, i);
    assert ObjOk(s.m, s.a, o);
    forall q: Tid | q != t
      ensures KeptFor(s, s', q)
    {
      assert forall x: nat :: ObjKept(s, s', q, x);
    }
  }

  lemma AllocatedSound(s: State, t: Tid, o: nat, i: int)
    requires Sound(s) && Allowed(s, t, AllocOp(o, i))
    ensures Sound(Allocated(s, t, o, i))
  {
    assert SoundNow(0, s);
    var s' := Allocated(s, t, o, i);
    AllocatedTable(s.m, s.a, t, o, i);
    assert ThreadOk(s, t) && ObjOk(s.m, s.a, o);
    forall x: nat
      ensures LockOk(s', t, x) && OwnOk(s', t, x)
    {
      assert LockOk(s, t, x) && OwnOk(s, t, x);
    }
    AllocatedKept(s, t, o, i);
    SoundBy(s, s', t);
  }

  lemma AllocatedAbs(s: State, t: Tid, o: nat, i: int)
    requires Sound(s) && o !in s.m.id
    ensures Abs(Allocated(s, t, o, i)) == Abs(s)
  {
    assert SoundNow(0, s);
    assert ObjOk(s.m, s.a, o);
    var own := s.a.owner.Keys;
    assert s.a.owner[o := t].Keys == own + {o};
    assert s.m.id[o := i] - (own + {o}) == s.m.id - own;
    assert s.m.count[o := 1] - (own + {o}) == s.m.count - own;
  }

  lemma NextSetTable(m: Mem, a: Aux, o: nat, p: nat)
    requires TableOk(m, a) && o in a.owner
    ensures TableOk(m.(next := m.next[o := p]), a)
  {
    var m' := m.(next := m.next[o := p]);
    assert ObjOk(m, a, o);
    Frame(m.next, m'.next, a.lists);
    forall h: nat, k: nat
      ensures PlaceOk(m', a, h, k)
    {
      assert PlaceOk(m, a, h, k);
    }
    forall x: nat
      ensures ObjOk(m', a, x)
    {
      assert ObjOk(m, a, x);
    }
  }

  lemma NextSetSound(s: State, t: Tid, o: nat)
    requires Sound(s) && PcOf(s, t) == AllocLink(o)
    ensures Slot(s.m, o) in s.m.next
    ensures Sound(NextSet(s, t, o, s.m.next[Slot(s.m, o)], AllocHead(o)))
  {
    assert SoundNow(0, s);
    HeadPoints(s.m, s.a, Slot(s.m, o));
    var s' := NextSet(s, t, o, s.m.next[Slot(s.m, o)], AllocHead(o));
    assert ThreadOk(s, t) && PcOk(s, t) && ObjOk(s.m, s.a, o);
    NextSetTable(s.m, s.a, o, s.m.next[Slot(s.m, o)]);
    forall x: nat
      ensures LockOk(s', t, x) && OwnOk(s', t, x)
    {
      assert LockOk(s, t, x) && OwnOk(s, t, x);
    }
    forall q: Tid | q != t
      ensures KeptFor(s, s', q)
    {
      assert forall x: nat :: ObjKept(s, s', q, x);
    }
    SoundBy(s, s', t);
  }

  // ---- Linking ----

  lemma LinkedTable(m: Mem, a: Aux, o: nat, h: nat)
    requires TableOk(m, a) && o in a.owner && h == Slot(m, o)
    requires h in m.next && o in m.next && m.next[o] == m.next[h]
    ensures |a.lists[h]| > 0
    ensures TableOk(m.(next := m.next[h := o]),
                    a.(lists := a.lists[h := Pushed(a.lists[h], o)], owner := a.owner - {o}))
  {
    assert HeadOk(a, h) && ObjOk(m, a, o);
    var m' := m.(next := m.next[h := o]);
    var a' := a.(lists := a.lists[h := Pushed(a.lists[h], o)], owner := a.owner - {o});
    Push(m.next, a.lists, h, o);
    assert m.next[o := m.next[h]] == m.next;
    forall g: nat
      ensures HeadOk(a', g)
    {
      assert HeadOk(a, g);
    }
    forall g: nat, k: nat
      ensures PlaceOk(m', a', g, k)
    {
      assert PlaceOk(m, a, g, k) && (k > 1 ==> PlaceOk(m, a, g, k - 1));
    }
    forall x: nat
      ensures ObjOk(m', a', x)
    {
      assert ObjOk(m, a, x);
    }
  }

  lemma LinkedSound(s: State, t: Tid, o: nat)
    requires Sound(s) && PcOf(s, t) == AllocHead(o)
    ensures SlotOk(s, Slot(s.m, o)) && o in s.m.id
    ensures Sound(Linked(s, t, o, Slot(s.m, o)))
  {
    assert SoundNow(0, s);
    assert ThreadOk(s, t) && PcOk(s, t) && HashOk(s, t) && ObjOk(s.m, s.a, o);
    LinkedTable(s.m, s.a, o, Slot(s.m, o));
    var s' := Linked(s, t, o, Slot(s.m, o));
    forall x: nat
      ensures LockOk(s', t, x) && OwnOk(s', t, x)
    {
      assert LockOk(s, t, x) && OwnOk(s, t, x);
    }
    forall q: Tid | q != t
      ensures KeptFor(s, s', q)
    {
      assert ThreadOk(s, q) && HashOk(s, q);
      forall x: nat
        ensures ObjKept(s, s', q, x)
      {
        assert ObjOk(s.m, s.a, x);
      }
    }
    SoundBy(s, s', t);
  }

  lemma LinkedAbs(s: State, t: Tid, o: nat)
    requires Sound(s) && PcOf(s, t) == AllocHead(o) && SlotOk(s, Slot(s.m, o)) && o in s.m.id
    ensures (Abs(Linked(s, t, o, Slot(s.m, o))), o) == Apply(Abs(s), AllocOp(o, s.m.id[o]))
  {
    assert SoundNow(0, s);
    assert ThreadOk(s, t) && PcOk(s, t) && ObjOk(s.m, s.a, o);
    var own := s.a.owner.Keys;
    assert s.m.count[o] == 1;
    assert s.m.id - (s.a.owner - {o}).Keys == (s.m.id - own)[o := s.m.id[o]];
    assert s.m.count - (s.a.owner - {o}).Keys == (s.m.count - own)[o := 1];
  }

  // ---- Unlinking ----

  lemma UnlinkedTable(m: Mem, a: Aux, t: Tid, h: nat, j: nat, o: nat)
    requires TableOk(m, a) && h < NHASH && 0 < j < |a.lists[h]| && a.lists[h][j] == o
    requires o in a.refs && a.refs[o] == multiset{t}
    ensures o in m.next
    ensures TableOk(m.(next := m.next[a.lists[h][j - 1] := m.next[o]]),
                    a.(lists := a.lists[h := Without(a.lists[h], j)], owner := a.owner[o := t]))
  {
    OnListed(m, a, h, j);
    var m' := m.(next := m.next[a.lists[h][j - 1] := m.next[o]]);
    var a' := a.(lists := a.lists[h := Without(a.lists[h], j)], owner := a.owner[o := t]);
    Unlink(m.next, a.lists, h, j);
    forall g: nat
      ensures HeadOk(a', g)
    {
      assert HeadOk(a, g);
    }
    forall g: nat, k: nat
      ensures PlaceOk(m', a', g, k)
    {
      assert PlaceOk(m, a, g, k) && PlaceOk(m, a, g, k + 1);
    }
    forall x: nat
      ensures ObjOk(m', a', x)
    {
      assert ObjOk(m, a, x);
    }
  }

  lemma DroppedPlace(a: Aux, h: nat, j: nat)
    requires Apart(a.lists) && h < |a.lists| && j < |a.lists[h]|
    ensures Dropped(a.lists[h], a.lists[h][j]) == Without(a.lists[h], j)
  {
    forall x, y | 0 <= x < |a.lists[h]| && 0 <= y < |a.lists[h]| && a.lists[h][x] == a.lists[h][y]
      ensures x == y
    {
      assert Differ(a.lists, h, x, h, y);
    }
    DroppedAt(a.lists[h], j);
  }

  /** The last reference gone: the object comes off its list, whichever pointer led to it. */
  lemma UnlinkedSound(s: State, t: Tid, o: nat, j: nat)
    requires Sound(s) && (PcOf(s, t).ReleHead? || PcOf(s, t).ReleWalk?) && PcOf(s, t).o == o
    requires o in s.m.id && 0 < j < |s.a.lists[Slot(s.m, o)]| && s.a.lists[Slot(s.m, o)][j] == o
    ensures o in s.m.next
    ensures Sound(Unlinked(s, t, o, Slot(s.m, o), s.a.lists[Slot(s.m, o)][j - 1]))
  {
    assert SoundNow(0, s);
    var h := Slot(s.m, o);
    assert ThreadOk(s, t) && PcOk(s, t) && HashOk(s, t) && LockOk(s, t, o) && ObjOk(s.m, s.a, o);
    assert LastRef(s, t, o);
    UnlinkedTable(s.m, s.a, t, h, j, o);
    DroppedPlace(s.a, h, j);
    var s' := Unlinked(s, t, o, h, s.a.lists[h][j - 1]);
    forall x: nat
      ensures LockOk(s', t, x) && OwnOk(s', t, x)
    {
      assert LockOk(s, t, x) && OwnOk(s, t, x);
    }
    UnlinkedKept(s, t, o, j);
    SoundBy(s, s', t);
  }

  lemma UnlinkedKept(s: State, t: Tid, o: nat, j: nat)
    requires Sound(s) && (PcOf(s, t).ReleHead? || PcOf(s, t).ReleWalk?) && PcOf(s, t).o == o
    requires o in s.m.id && 0 < j < |s.a.lists[Slot(s.m, o)]| && s.a.lists[Slot(s.m, o)][j] == o
    requires o in s.m.next
    ensures Kept(s, Unlinked(s, t, o, Slot(s.m, o), s.a.lists[Slot(s.m, o)][j - 1]), t)
  {
    assert SoundNow(0, s);
    var h := Slot(s.m, o);
    var p := s.a.lists[h][j - 1];
    var s' := Unlinked(s, t, o, h, p);
    assert ThreadOk(s, t) && PcOk(s, t) && HashOk(s, t) && LockOk(s, t, o) && ObjOk(s.m, s.a, o);
    assert LastRef(s, t, o);
    assert p !in s.a.owner by {
      assert p in s.a.lists[h] && On(s.a.lists, p) && ObjOk(s.m, s.a, p);
    }
    forall q: Tid | q != t
      ensures KeptFor(s, s', q)
    {
      assert ThreadOk(s, q) && HashOk(s, q) && LockOk(s, q, o);
      assert forall x: nat :: ObjKept(s, s', q, x);
    }
  }

  lemma UnlinkedAbs(s: State, t: Tid, o: nat, p: nat)
    requires Sound(s) && (PcOf(s, t).ReleHead? || PcOf(s, t).ReleWalk?) && PcOf(s, t).o == o
    requires o in s.m.next
    ensures (Abs(Unlinked(s, t, o, Slot(s.m, o), p)), 0) == Apply(Abs(s), ReleOp(o))
  {
    assert SoundNow(0, s);
    assert ThreadOk(s, t) && PcOk(s, t) && ObjOk(s.m, s.a, o);
    assert LastRef(s, t, o) && s.m.count[o] == 1;
    var own := s.a.owner.Keys;
    assert s.a.owner[o := t].Keys == own + {o};
    assert s.m.id - (own + {o}) == (s.m.id - own) - {o};
    assert s.m.count - (own + {o}) == (s.m.count - own) - {o};
  }

  // ---- Freeing ----

  lemma FreedTable(m: Mem, a: Aux, o: nat)
    requires TableOk(m, a) && o in a.owner
    ensures TableOk(Mem(m.next - {o}, m.id - {o}, m.count - {o}), Aux(a.lists, a.refs - {o}, a.owner - {o}))
  {
    var m', a' := Mem(m.next - {o}, m.id - {o}, m.count - {o}), Aux(a.lists, a.refs - {o}, a.owner - {o});
    assert ObjOk(m, a, o);
    Frame(m.next, m'.next, a.lists);
    forall h: nat
      ensures HeadOk(a', h)
    {
      assert HeadOk(a, h);
    }
    forall h: nat, k: nat
      ensures PlaceOk(m', a', h, k)
    {
      assert PlaceOk(m, a, h, k);
      if h < |a.lists| && 0 < k < |a.lists[h]| {
        assert a.lists[h][k] in a.lists[h] && On(a.lists, a.lists[h][k]);
      }
    }
    forall x: nat
      ensures ObjOk(m', a', x)
    {
      assert ObjOk(m, a, x);
    }
  }

  lemma FreedKept(s: State, t: Tid, o: nat)
    requires Sound(s) && PcOf(s, t) == ReleFree(o)
    ensures Kept(s, Freed(s, t, o), t)
  {
    assert SoundNow(0, s);
    var s' := Freed(s, t, o);
    Known(s, t, o);
    forall q: Tid | q != t
      ensures KeptFor(s, s', q)
    {
      assert ThreadOk(s, q) && LockOk(s, q, o);
      assert forall x: nat :: ObjKept(s, s', q, x);
    }
  }

  lemma FreedSound(s: State, t: Tid, o: nat)
    requires Sound(s) && PcOf(s, t) == ReleFree(o)
    ensures Sound(Freed(s, t, o))
  {
    assert SoundNow(0, s);
    var s' := Freed(s, t, o);
    assert ThreadOk(s, t) && PcOk(s, t) && ObjOk(s.m, s.a, o);
    FreedTable(s.m, s.a, o);
    forall x: nat
      ensures LockOk(s', t, x) && OwnOk(s', t, x)
    {
      assert LockOk(s, t, x) && OwnOk(s, t, x);
    }
    FreedKept(s, t, o);
    SoundBy(s, s', t);
  }

  lemma FreedAbs(s: State, t: Tid, o: nat)
    requires o in s.a.owner
    ensures Abs(Freed(s, t, o)) == Abs(s)
  {
    var own := s.a.owner.Keys;
    assert (s.a.owner - {o}).Keys + {o} == own;
    assert (s.m.id - {o}) - (s.a.owner - {o}).Keys == s.m.id - own;
    assert (s.m.count - {o}) - (s.a.owner - {o}).Keys == s.m.count - own;
  }
}
