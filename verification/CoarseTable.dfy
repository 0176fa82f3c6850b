/**
 The single-lock version of the reference-counted table: every function runs
 with hashlock held from its first access to its last, so each is one atomic
 operation, and here one method, on the same memory as the two-lock version.
 */
module CoarseTable {
  import opened Links
  import opened RefSpec
  import opened RefTable
  import opened RefInv
  import opened RefLinks
  import opened RefSteps
  import opened RefRuns

  class OneLockTable {
    var m: Mem
    ghost var a: Aux

    /** The same invariant of the memory; between calls every object is in the table. */
    ghost predicate Valid()
      reads this
    {
      TableOk(m, a) && a.owner == map[]
    }

    ghost function Tab(): Table
      reads this
    {
      Table(a.lists, m.id, m.count)
    }

    constructor ()
      ensures Valid() && Tab() == EmptyTable()
    {
      m := Initial().m;
      a := Initial().a;
      new;
      InitialSound();
      assert SoundNow(0, Initial());
    }

    /** fp is the address that malloc returned; the references are counted for the calling thread. */
    method Alloc(id: int, fp: nat, ghost t: Tid)
      requires Valid() && fp >= NHASH && fp !in m.id
      modifies this
      ensures Valid() && (Tab(), fp) == Apply(old(Tab()), AllocOp(fp, id))
      ensures a.refs == old(a.refs)[fp := multiset{t}]
    {
      var idx := Bucket(id);
      AllocatedTable(m, a, t, fp, id);
      m := m.(id := m.id[fp := id], count := m.count[fp := 1]);
      a := a.(refs := a.refs[fp := multiset{t}], owner := a.owner[fp := t]);
      HeadPoints(m, a, idx);
      NextSetTable(m, a, fp, m.next[idx]);
      m := m.(next := m.next[fp := m.next[idx]]);
      LinkedTable(m, a, fp, idx);
      m := m.(next := m.next[idx := fp]);
      a := a.(lists := a.lists[idx := Pushed(a.lists[idx], fp)], owner := a.owner - {fp});
    }

    method Hold(fp: nat, ghost t: Tid)
      requires Valid() && fp in m.id
      modifies this
      ensures Valid() && (Tab(), 0) == Apply(old(Tab()), HoldOp(fp))
      ensures fp in old(a.refs) && a.refs == old(a.refs)[fp := old(a.refs)[fp] + multiset{t}]
    {
      assert ObjOk(m, a, fp);
      CountedTable(m, a, fp, m.count[fp] + 1, a.refs[fp] + multiset{t});
      m := m.(count := m.count[fp := m.count[fp] + 1]);
      a := a.(refs := a.refs[fp := a.refs[fp] + multiset{t}]);
    }

    /** Returns null, or the first object of the slot that has the id, with one reference more. */
    method Find(id: int, ghost t: Tid) returns (fp: nat)
      requires Valid()
      modifies this
      ensures Valid() && (Tab(), fp) == Apply(old(Tab()), FindOp(id))
      ensures fp != 0 ==> fp in old(a.refs) && a.refs == old(a.refs)[fp := old(a.refs)[fp] + multiset{t}]
      ensures fp == 0 ==> a == old(a)
    {
      var idx := Bucket(id);
      HeadPoints(m, a, idx);
      fp := m.next[idx];
      ghost var k := 1;
      assert ObjOk(m, a, 0);
      while fp != 0
        invariant m == old(m) && a == old(a) && 0 < k <= |a.lists[idx]|
        invariant fp == if k < |a.lists[idx]| then a.lists[idx][k] else 0
        invariant forall j | 1 <= j < k :: !(a.lists[idx][j] in m.id && m.id[a.lists[idx][j]] == id)
        decreases |a.lists[idx]| - k
      {
        OnListed(m, a, idx, k);
        if m.id[fp] == id {
          FirstIs(a.lists[idx], m.id, id, 1, k);
          Hold(fp, t);
          return;
        }
        fp := m.next[fp];
        k := k + 1;
      }
      FirstIsNone(a.lists[idx], m.id, id, 1);
    }

    /** Takes the object at place j off its list by way of the cell p before it, and frees it. */
    method Remove(fp: nat, p: nat, ghost j: nat, ghost t: Tid)
      requires Valid() && fp in m.id && fp in a.refs && a.refs[fp] == multiset{t} && fp in m.next
      requires 0 < j < |a.lists[Slot(m, fp)]| && a.lists[Slot(m, fp)][j] == fp
      requires p == a.lists[Slot(m, fp)][j - 1]
      modifies this
      ensures Valid() && (Tab(), 0) == Apply(old(Tab()), ReleOp(fp)) && a.refs == old(a.refs) - {fp}
    {
      ghost var h := Slot(m, fp);
      assert ObjOk(m, a, fp);
      DroppedPlace(a, h, j);
      UnlinkedTable(m, a, t, h, j, fp);
      m := m.(next := m.next[p := m.next[fp]]);
      a := a.(lists := a.lists[h := Without(a.lists[h], j)], owner := a.owner[fp := t]);
      FreedTable(m, a, fp);
      m := Mem(m.next - {fp}, m.id - {fp}, m.count - {fp});
      a := Aux(a.lists, a.refs - {fp}, a.owner - {fp});
    }

    /** The caller releases a reference of its own; the count may be 0 only while the object is removed. */
    method Rele(fp: nat, ghost t: Tid)
      requires Valid() && fp in m.id && fp in a.refs && a.refs[fp][t] > 0
      modifies this
      ensures Valid() && (Tab(), 0) == Apply(old(Tab()), ReleOp(fp))
      ensures a.refs == if old(a.refs)[fp] == multiset{t} then old(a.refs) - {fp}
                        else old(a.refs)[fp := old(a.refs)[fp] - multiset{t}]
    {
      assert ObjOk(m, a, fp);
      OneOnly(a.refs[fp], t);
      var count := m.count[fp] - 1;
      if count != 0 {
        CountedTable(m, a, fp, count, a.refs[fp] - multiset{t});
        m := m.(count := m.count[fp := count]);
        a := a.(refs := a.refs[fp := a.refs[fp] - multiset{t}]);
        return;
      }
      var idx := Bucket(m.id[fp]);
      HeadPoints(m, a, idx);
      assert HeadOk(a, idx);
      ghost var j := PlaceOf(m, a, fp);
      OnListed(m, a, idx, j);
      var p := idx;
      ghost var k := 0;
      if m.next[idx] != fp {
        p := m.next[idx];
        k := 1;
        OnListed(m, a, idx, 1);
        while m.next[p] != fp
          invariant m == old(m) && a == old(a) && 0 < k < j && p == a.lists[idx][k]
          invariant p in m.next && m.next[p] == After(a.lists[idx], k)
          decreases j - k
        {
          p := m.next[p];
          k := k + 1;
          OnListed(m, a, idx, k);
        }
      }
      Remove(fp, p, k + 1, t);
    }
  }
}
