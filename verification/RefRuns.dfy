/**
 The theorems about interleaved runs of the reference-counted table: no thread
 touches a freed object, the counts are the references held, an object leaves
 its list with its last reference, the calls take effect one after another as
 they do under a single lock, and the threads never block each other for good.
 */
module RefRuns {
  import opened Links
  import opened RefSpec
  import opened RefTable
  import opened Wrappers
  import opened RefInv
  import opened RefSteps
  import opened RefLinks

  // ---- What a step must do ----

  /** The call that a thread has begun and that has not taken effect yet. */
  function Wants(s: State, t: Tid): Option<Op> {
    var pc := PcOf(s, t);
    if pc.AllocLock? || pc.AllocLink? || pc.AllocHead? then
      if pc.o in s.m.id then Some(AllocOp(pc.o, s.m.id[pc.o])) else None
    else if pc.HoldLock? || pc.HoldInc? then Some(HoldOp(pc.o))
    else if pc.FindLock? || pc.FindHead? || pc.FindWalk? || pc.FindLockObj? || pc.FindInc? then Some(FindOp(pc.i))
    else if pc.ReleLock? || pc.ReleTest? || pc.ReleDec? || pc.ReleDrop? || pc.ReleLockHash? || pc.ReleRelock? ||
            pc.ReleRetest? || pc.ReleBackDec? || pc.ReleHead? || pc.ReleWalk? then Some(ReleOp(pc.o))
    else None
  }

  /** What a call that has taken effect is going to return; 0 for none and for null. */
  function Gives(pc: Pc): nat {
    if pc.AllocLockObj? || pc.AllocUnlock? || pc.AllocDone? || pc.FindUnlockObj? || pc.FindUnlock? then pc.o else 0
  }

  /** One step of a call: it takes effect, or it goes on as before or after that, or it returns. */
  ghost predicate Proceeds(s: State, s': State, t: Tid) {
    match Commit(s, t)
    case Some(c) => Wants(s, t) == Some(c.0) && Wants(s', t).None? && !PcOf(s', t).Idle? && Gives(PcOf(s', t)) == c.1
    case None =>
      if PcOf(s', t).Idle? then Wants(s, t).None?
      else Wants(s', t) == Wants(s, t) && (Wants(s, t).None? ==> Gives(PcOf(s', t)) == Gives(PcOf(s, t)))
  }

  /** The table changes only where a call takes effect, and there as that call does. */
  ghost predicate Effect(s: State, s': State, t: Tid) {
    match Commit(s, t)
    case None => Abs(s') == Abs(s)
    case Some(c) => Apply(Abs(s), c.0) == (Abs(s'), c.1)
  }

  ghost predicate SlotsOk(s: State) {
    forall h: nat | h < NHASH :: SlotOk(s, h)
  }

  lemma SoundSlots(s: State)
    requires Sound(s)
    ensures SlotsOk(s)
  {
    assert SoundNow(0, s);
    forall h: nat | h < NHASH
      ensures SlotOk(s, h)
    {
      assert HeadOk(s.a, h);
    }
  }

  ghost predicate DoesNow(u: int, s: State, t: Tid, s': State) {
    Enabled(s, t) ==> Sound(s') && Effect(s, s', t) && Proceeds(s, s', t)
  }

  /**
   The thread may go on to the state s', with the effect of its call and at most once. The
   idle u keeps what this means out of the proofs that only pass it on.
   */
  ghost predicate Does(s: State, t: Tid, s': State) {
    forall u: int :: DoesNow(u, s, t, s')
  }

  ghost predicate Goes(s: State, t: Tid) {
    SlotsOk(s) && Safe(s, t) && (Enabled(s, t) ==> Does(s, t, Step(s, t)))
  }

  // ---- No thread touches a freed object ----

  predicate Releasing(pc: Pc) {
    pc.ReleLock? || pc.ReleTest? || pc.ReleDec? || pc.ReleUnlock? || pc.ReleDrop? ||
    pc.ReleLockHash? || pc.ReleRelock? || pc.ReleRetest?
  }

  predicate Removing(pc: Pc) {
    pc.ReleBackDec? || pc.ReleBackUnlock? || pc.ReleBackHash? || pc.ReleHead? || pc.ReleWalk? ||
    pc.ReleLeave? || pc.ReleDone? || pc.ReleFree?
  }

  lemma SafeAlloc(s: State, t: Tid)
    requires Sound(s) && !Releasing(PcOf(s, t)) && !Removing(PcOf(s, t))
    ensures Safe(s, t)
  {
    assert SoundNow(0, s);
    var pc := PcOf(s, t);
    Known(s, t, 0);
    if pc.FindWalk? || pc.FindLockObj? || pc.FindInc? {
      if pc.o != 0 {
        OnListed(s.m, s.a, Bucket(pc.i), pc.k);
        Known(s, t, pc.o);
      }
    } else if pc.FindHead? {
      HeadPoints(s.m, s.a, Bucket(pc.i));
    } else if !pc.Idle? && !pc.FindLock? {
      Known(s, t, pc.o);
      HeadPoints(s.m, s.a, Slot(s.m, pc.o));
    }
  }

  lemma SafeRele(s: State, t: Tid)
    requires Sound(s) && (Releasing(PcOf(s, t)) || Removing(PcOf(s, t)))
    ensures Safe(s, t)
  {
    assert SoundNow(0, s);
    var pc := PcOf(s, t);
    Known(s, t, pc.o);
    if pc.ReleHead? || pc.ReleWalk? {
      HeadPoints(s.m, s.a, Slot(s.m, pc.o));
      var j := PlaceOf(s.m, s.a, pc.o);
      OnListed(s.m, s.a, Slot(s.m, pc.o), j);
      if pc.ReleWalk? {
        OnListed(s.m, s.a, Slot(s.m, pc.o), pc.k);
      }
    }
  }

  // ---- The steps, call by call ----

  lemma CountedAbs(s: State, t: Tid, o: nat, n: int, r: multiset<Tid>, pc: Pc)
    requires Sound(s) && Listed(s, o) && o in s.m.count
    ensures Abs(Counted(s, t, o, n, r, pc)) == Incremented(Abs(s), o, n - s.m.count[o])
  {
    var own := s.a.owner.Keys;
    assert s.m.count[o := n] - own == (s.m.count - own)[o := n];
  }

  lemma AllocGoes(s: State, t: Tid)
    requires Sound(s)
    requires var pc := PcOf(s, t); pc.AllocLock? || pc.AllocLink? || pc.AllocHead?
    ensures var pc := PcOf(s, t); pc.AllocLock? ==> Does(s, t, HashTaken(s, t, AllocLink(pc.o)))
    ensures var pc := PcOf(s, t); pc.AllocLink? ==>
      Slot(s.m, pc.o) in s.m.next && Does(s, t, NextSet(s, t, pc.o, s.m.next[Slot(s.m, pc.o)], AllocHead(pc.o)))
    ensures var pc := PcOf(s, t); pc.AllocHead? ==>
      SlotOk(s, Slot(s.m, pc.o)) && Does(s, t, Linked(s, t, pc.o, Slot(s.m, pc.o)))
  {
    assert SoundNow(0, s);
    SoundSlots(s);
    var pc := PcOf(s, t);
    Known(s, t, pc.o);
    HeadPoints(s.m, s.a, Slot(s.m, pc.o));
    if pc.AllocLock? {
      if Enabled(s, t) {
        HashTakenSound(s, t, AllocLink(pc.o));
      }
    } else if pc.AllocLink? {
      NextSetSound(s, t, pc.o);
    } else {
      LinkedSound(s, t, pc.o);
      LinkedAbs(s, t, pc.o);
    }
  }

  lemma AllocLocksObj(s: State, t: Tid)
    requires Sound(s) && PcOf(s, t).AllocLockObj?
    ensures var o := PcOf(s, t).o; Does(s, t, ObjTaken(s, t, o, AllocUnlock(o)))
  {
    var o := PcOf(s, t).o;
    Known(s, t, o);
    if Enabled(s, t) {
      ObjTakenSound(s, t, o, AllocUnlock(o));
    }
  }

  lemma AllocUnlocks(s: State, t: Tid)
    requires Sound(s) && PcOf(s, t).AllocUnlock?
    ensures var o := PcOf(s, t).o; Does(s, t, HashLeft(s, t, AllocDone(o)))
  {
    var o := PcOf(s, t).o;
    Known(s, t, o);
    HashLeftSound(s, t, AllocDone(o));
  }

  lemma AllocEnds(s: State, t: Tid)
    requires Sound(s) && PcOf(s, t).AllocDone?
    ensures var o := PcOf(s, t).o; Does(s, t, ObjLeft(s, t, o, Idle))
  {
    var o := PcOf(s, t).o;
    Known(s, t, o);
    ObjLeftSound(s, t, o, Idle);
  }

  lemma HoldLocks(s: State, t: Tid)
    requires Sound(s) && PcOf(s, t).HoldLock?
    ensures var o := PcOf(s, t).o; Does(s, t, ObjTaken(s, t, o, HoldInc(o)))
  {
    var o := PcOf(s, t).o;
    Known(s, t, o);
    if Enabled(s, t) {
      ObjTakenSound(s, t, o, HoldInc(o));
    }
  }

  lemma HoldCounts(s: State, t: Tid)
    requires Sound(s) && PcOf(s, t).HoldInc?
    ensures var o := PcOf(s, t).o;
      o in s.m.count && Does(s, t, Counted(s, t, o, s.m.count[o] + 1, More(s, t, o), HoldUnlock(o)))
  {
    var o := PcOf(s, t).o;
    Known(s, t, o);
    MoreSound(s, t, o, HoldUnlock(o));
    CountedAbs(s, t, o, s.m.count[o] + 1, More(s, t, o), HoldUnlock(o));
  }

  lemma HoldEnds(s: State, t: Tid)
    requires Sound(s) && PcOf(s, t).HoldUnlock?
    ensures var o := PcOf(s, t).o; Does(s, t, ObjLeft(s, t, o, Idle))
  {
    var o := PcOf(s, t).o;
    Known(s, t, o);
    ObjLeftSound(s, t, o, Idle);
  }

  /** Walking one object on: the next pointer stands for the next place, and the id was not there. */
  lemma WalkOn(s: State, t: Tid, i: int, o: nat, k: nat)
    requires Sound(s) && PcOf(s, t) == FindWalk(i, o, k) && o != 0 && o in s.m.id && s.m.id[o] != i
    ensures o in s.m.next && Sound(At(s, t, FindWalk(i, s.m.next[o], k + 1)))
  {
    assert SoundNow(0, s);
    Known(s, t, 0);
    var h := Bucket(i);
    OnListed(s.m, s.a, h, k);
    var s' := At(s, t, FindWalk(i, s.m.next[o], k + 1));
    forall j: nat | j < k + 1
      ensures Differs(s', h, j, i)
    {
      assert j < k ==> Differs(s, h, j, i);
    }
    QuietSound(s, t, FindWalk(i, s.m.next[o], k + 1));
  }

  lemma FindGoes(s: State, t: Tid)
    requires Sound(s) && PcOf(s, t).FindWalk?
    ensures Safe(s, t)
    ensures var pc := PcOf(s, t); pc.o == 0 ==> Does(s, t, At(s, t, FindUnlock(0)))
    ensures var pc := PcOf(s, t); pc.o != 0 ==> if s.m.id[pc.o] == pc.i
      then Does(s, t, At(s, t, FindLockObj(pc.i, pc.o, pc.k)))
      else Does(s, t, At(s, t, FindWalk(pc.i, s.m.next[pc.o], pc.k + 1)))
  {
    assert SoundNow(0, s);
    SoundSlots(s);
    var FindWalk(i, o, k) := PcOf(s, t);
    Known(s, t, 0);
    var h := Bucket(i);
    if o == 0 {
      FindMisses(s, t);
      QuietSound(s, t, FindUnlock(0));
    } else {
      OnListed(s.m, s.a, h, k);
      if s.m.id[o] == i {
        var s' := At(s, t, FindLockObj(i, o, k));
        assert NoneBefore(s', i, k) by {
          assert forall j: nat | j < k :: Differs(s, h, j, i) ==> Differs(s', h, j, i);
        }
        QuietSound(s, t, FindLockObj(i, o, k));
      } else {
        WalkOn(s, t, i, o, k);
      }
    }
  }

  /** At the end of the list the id is nowhere in the table. */
  lemma FindMisses(s: State, t: Tid)
    requires Sound(s) && PcOf(s, t).FindWalk? && PcOf(s, t).o == 0
    ensures Found(Abs(s), PcOf(s, t).i) == 0 && 0 !in Abs(s).count
  {
    assert SoundNow(0, s);
    var FindWalk(i, o, k) := PcOf(s, t);
    Known(s, t, 0);
    var h := Bucket(i);
    if k < |s.a.lists[h]| {
      OnListed(s.m, s.a, h, k);
    }
    forall j | 1 <= j < |s.a.lists[h]|
      ensures !(s.a.lists[h][j] in Abs(s).id && Abs(s).id[s.a.lists[h][j]] == i)
    {
      assert Differs(s, h, j, i);
    }
    FirstIsNone(s.a.lists[h], Abs(s).id, i, 1);
  }

  /** The object at which the walk stopped is the first of its slot with the id. */
  lemma FindHits(s: State, t: Tid)
    requires Sound(s) && (PcOf(s, t).FindLockObj? || PcOf(s, t).FindInc?)
    ensures Found(Abs(s), PcOf(s, t).i) == PcOf(s, t).o && Listed(s, PcOf(s, t).o)
  {
    assert SoundNow(0, s);
    var pc := PcOf(s, t);
    Known(s, t, 0);
    var h := Bucket(pc.i);
    OnListed(s.m, s.a, h, pc.k);
    forall j | 1 <= j < pc.k
      ensures !(s.a.lists[h][j] in Abs(s).id && Abs(s).id[s.a.lists[h][j]] == pc.i)
    {
      assert Differs(s, h, j, pc.i);
    }
    FirstIs(s.a.lists[h], Abs(s).id, pc.i, 1, pc.k);
  }

  lemma FindStarts(s: State, t: Tid)
    requires Sound(s) && (PcOf(s, t).FindLock? || PcOf(s, t).FindHead?)
    ensures Safe(s, t)
    ensures var pc := PcOf(s, t); pc.FindLock? ==> Does(s, t, HashTaken(s, t, FindHead(pc.i)))
    ensures var pc := PcOf(s, t); pc.FindHead? ==> Does(s, t, At(s, t, FindWalk(pc.i, s.m.next[Bucket(pc.i)], 1)))
  {
    assert SoundNow(0, s);
    SoundSlots(s);
    var pc := PcOf(s, t);
    assert ThreadOk(s, t);
    HeadPoints(s.m, s.a, Bucket(pc.i));
    if pc.FindLock? {
      if Enabled(s, t) {
        HashTakenSound(s, t, FindHead(pc.i));
      }
    } else {
      var s' := At(s, t, FindWalk(pc.i, s.m.next[Bucket(pc.i)], 1));
      assert Differs(s', Bucket(pc.i), 0, pc.i);
      QuietSound(s, t, FindWalk(pc.i, s.m.next[Bucket(pc.i)], 1));
    }
  }

  lemma FindLocksObj(s: State, t: Tid)
    requires Sound(s) && PcOf(s, t).FindLockObj?
    ensures var pc := PcOf(s, t); Does(s, t, ObjTaken(s, t, pc.o, FindInc(pc.i, pc.o, pc.k)))
  {
    var FindLockObj(i, o, k) := PcOf(s, t);
    Known(s, t, o);
    FindHits(s, t);
    if Enabled(s, t) {
      var s' := ObjTaken(s, t, o, FindInc(i, o, k));
      assert NoneBefore(s', i, k) by {
        assert forall j: nat | j < k :: Differs(s, Bucket(i), j, i) ==> Differs(s', Bucket(i), j, i);
      }
      ObjTakenSound(s, t, o, FindInc(i, o, k));
    }
  }

  lemma FindCounts(s: State, t: Tid)
    requires Sound(s) && PcOf(s, t).FindInc?
    ensures var o := PcOf(s, t).o;
      o in s.m.count && Does(s, t, Counted(s, t, o, s.m.count[o] + 1, More(s, t, o), FindUnlockObj(o)))
  {
    var o := PcOf(s, t).o;
    Known(s, t, o);
    FindHits(s, t);
    MoreSound(s, t, o, FindUnlockObj(o));
    CountedAbs(s, t, o, s.m.count[o] + 1, More(s, t, o), FindUnlockObj(o));
  }

  lemma FindUnlocksObj(s: State, t: Tid)
    requires Sound(s) && PcOf(s, t).FindUnlockObj?
    ensures var o := PcOf(s, t).o; Does(s, t, ObjLeft(s, t, o, FindUnlock(o)))
  {
    var o := PcOf(s, t).o;
    Known(s, t, o);
    ObjLeftSound(s, t, o, FindUnlock(o));
  }

  lemma FindEnds(s: State, t: Tid)
    requires Sound(s) && PcOf(s, t).FindUnlock?
    ensures var o := PcOf(s, t).o; Does(s, t, HashLeft(s, t, Idle))
  {
    var o := PcOf(s, t).o;
    Known(s, t, o);
    HashLeftSound(s, t, Idle);
  }

  /** A release that is not the last one lowers the count. */
  lemma CountsDown(s: State, t: Tid, o: nat, pc: Pc)
    requires Sound(s) && Refers(s, t, o) && s.a.refs[o] != multiset{t} && LockedObj(PcOf(s, t)) == o
    requires HoldsHash(pc) == HoldsHash(PcOf(s, t)) && (pc.ReleUnlock? || pc.ReleBackUnlock?) && pc.o == o
    requires OwnedObj(PcOf(s, t)) == 0
    ensures o in s.m.count
    ensures var s' := Counted(s, t, o, s.m.count[o] - 1, Less(s, t, o), pc);
      Sound(s') && (Abs(s'), 0) == Apply(Abs(s), ReleOp(o))
  {
    Known(s, t, o);
    OneOnly(s.a.refs[o], t);
    LessSound(s, t, o, pc);
    CountedAbs(s, t, o, s.m.count[o] - 1, Less(s, t, o), pc);
  }

  lemma CountsProceed(s: State, t: Tid, s': State)
    requires PcOf(s, t).ReleDec? || PcOf(s, t).ReleBackDec?
    requires Sound(s') && (Abs(s'), 0) == Apply(Abs(s), ReleOp(PcOf(s, t).o))
    requires PcOf(s', t).ReleUnlock? || PcOf(s', t).ReleBackUnlock?
    ensures Does(s, t, s')
  {
  }

  lemma ReleLocks(s: State, t: Tid)
    requires Sound(s) && PcOf(s, t).ReleLock?
    ensures var o := PcOf(s, t).o; Does(s, t, ObjTaken(s, t, o, ReleTest(o)))
  {
    var o := PcOf(s, t).o;
    Known(s, t, o);
    if Enabled(s, t) {
      ObjTakenSound(s, t, o, ReleTest(o));
    }
  }

  lemma ReleTests(s: State, t: Tid)
    requires Sound(s) && PcOf(s, t).ReleTest?
    ensures var o := PcOf(s, t).o;
      o in s.m.count && Does(s, t, At(s, t, if s.m.count[o] == 1 then ReleDrop(o) else ReleDec(o)))
  {
    var o := PcOf(s, t).o;
    Known(s, t, o);
    OneOnly(s.a.refs[o], t);
    QuietSound(s, t, if s.m.count[o] == 1 then ReleDrop(o) else ReleDec(o));
  }

  lemma ReleCounts(s: State, t: Tid)
    requires Sound(s) && PcOf(s, t).ReleDec?
    ensures var o := PcOf(s, t).o;
      o in s.m.count && Does(s, t, Counted(s, t, o, s.m.count[o] - 1, Less(s, t, o), ReleUnlock(o)))
  {
    var o := PcOf(s, t).o;
    Known(s, t, o);
    CountsDown(s, t, o, ReleUnlock(o));
    CountsProceed(s, t, Counted(s, t, o, s.m.count[o] - 1, Less(s, t, o), ReleUnlock(o)));
  }

  lemma ReleUnlocks(s: State, t: Tid)
    requires Sound(s) && PcOf(s, t).ReleUnlock?
    ensures var o := PcOf(s, t).o; Does(s, t, ObjLeft(s, t, o, Idle))
  {
    var o := PcOf(s, t).o;
    Known(s, t, o);
    ObjLeftSound(s, t, o, Idle);
  }

  lemma ReleDrops(s: State, t: Tid)
    requires Sound(s) && PcOf(s, t).ReleDrop?
    ensures var o := PcOf(s, t).o; Does(s, t, ObjLeft(s, t, o, ReleLockHash(o)))
  {
    var o := PcOf(s, t).o;
    Known(s, t, o);
    ObjLeftSound(s, t, o, ReleLockHash(o));
  }

  /** The window: both locks are taken anew, and the count is looked at again. */
  lemma ReleLocksHash(s: State, t: Tid)
    requires Sound(s) && PcOf(s, t).ReleLockHash?
    ensures var o := PcOf(s, t).o; Does(s, t, HashTaken(s, t, ReleRelock(o)))
  {
    var o := PcOf(s, t).o;
    Known(s, t, o);
    if Enabled(s, t) {
      HashTakenSound(s, t, ReleRelock(o));
    }
  }

  lemma ReleRelocks(s: State, t: Tid)
    requires Sound(s) && PcOf(s, t).ReleRelock?
    ensures var o := PcOf(s, t).o; Does(s, t, ObjTaken(s, t, o, ReleRetest(o)))
  {
    var o := PcOf(s, t).o;
    Known(s, t, o);
    if Enabled(s, t) {
      ObjTakenSound(s, t, o, ReleRetest(o));
    }
  }

  lemma ReleRetests(s: State, t: Tid)
    requires Sound(s) && PcOf(s, t).ReleRetest?
    ensures var o := PcOf(s, t).o;
      o in s.m.count && Does(s, t, At(s, t, if s.m.count[o] != 1 then ReleBackDec(o) else ReleHead(o)))
  {
    var o := PcOf(s, t).o;
    Known(s, t, o);
    OneOnly(s.a.refs[o], t);
    QuietSound(s, t, if s.m.count[o] != 1 then ReleBackDec(o) else ReleHead(o));
  }

  lemma BackCounts(s: State, t: Tid)
    requires Sound(s) && PcOf(s, t).ReleBackDec?
    ensures var o := PcOf(s, t).o;
      o in s.m.count && Does(s, t, Counted(s, t, o, s.m.count[o] - 1, Less(s, t, o), ReleBackUnlock(o)))
  {
    var o := PcOf(s, t).o;
    Known(s, t, o);
    CountsDown(s, t, o, ReleBackUnlock(o));
    CountsProceed(s, t, Counted(s, t, o, s.m.count[o] - 1, Less(s, t, o), ReleBackUnlock(o)));
  }

  lemma BackUnlocks(s: State, t: Tid)
    requires Sound(s) && PcOf(s, t).ReleBackUnlock?
    ensures var o := PcOf(s, t).o; Does(s, t, ObjLeft(s, t, o, ReleBackHash(o)))
  {
    var o := PcOf(s, t).o;
    Known(s, t, o);
    ObjLeftSound(s, t, o, ReleBackHash(o));
  }

  lemma BackEnds(s: State, t: Tid)
    requires Sound(s) && PcOf(s, t).ReleBackHash?
    ensures var o := PcOf(s, t).o; Does(s, t, HashLeft(s, t, Idle))
  {
    var o := PcOf(s, t).o;
    Known(s, t, o);
    HashLeftSound(s, t, Idle);
  }

  lemma UnlinkFirst(s: State, t: Tid)
    requires Sound(s) && PcOf(s, t).ReleHead? && SlotOk(s, Slot(s.m, PcOf(s, t).o)) && Safe(s, t)
    requires s.m.next[Slot(s.m, PcOf(s, t).o)] == PcOf(s, t).o
    ensures var o := PcOf(s, t).o; Does(s, t, Unlinked(s, t, o, Slot(s.m, o), Slot(s.m, o)))
  {
    assert SoundNow(0, s);
    var o := PcOf(s, t).o;
    Known(s, t, o);
    HeadPoints(s.m, s.a, Slot(s.m, o));
    assert HeadOk(s.a, Slot(s.m, o));
    UnlinkedSound(s, t, o, 1);
    UnlinkedAbs(s, t, o, Slot(s.m, o));
  }

  lemma WalkFirst(s: State, t: Tid)
    requires Sound(s) && PcOf(s, t).ReleHead? && Safe(s, t) && s.m.next[Slot(s.m, PcOf(s, t).o)] != PcOf(s, t).o
    ensures var o := PcOf(s, t).o; Does(s, t, At(s, t, ReleWalk(o, s.m.next[Slot(s.m, o)], 1)))
  {
    assert SoundNow(0, s);
    var o := PcOf(s, t).o;
    var h := Slot(s.m, o);
    Known(s, t, o);
    HeadPoints(s.m, s.a, h);
    assert HeadOk(s.a, h);
    var j := PlaceOf(s.m, s.a, o);
    OnListed(s.m, s.a, h, 1);
    var s' := At(s, t, ReleWalk(o, s.m.next[h], 1));
    forall i: nat | i <= 1
      ensures PassedBy(s', h, o, i)
    {
    }
    QuietSound(s, t, ReleWalk(o, s.m.next[h], 1));
  }

  /** The walk has not passed the object, so it is still ahead. */
  lemma Ahead(s: State, t: Tid) returns (j: nat)
    requires Sound(s) && PcOf(s, t).ReleWalk?
    ensures var ReleWalk(o, p, k) := PcOf(s, t); var h := Slot(s.m, o);
      && o in s.m.id && p in s.m.next && 0 < k < j < |s.a.lists[h]| && s.a.lists[h][k] == p
      && s.a.lists[h][j] == o && s.m.next[p] == s.a.lists[h][k + 1]
  {
    assert SoundNow(0, s);
    var ReleWalk(o, p, k) := PcOf(s, t);
    Known(s, t, o);
    j := PlaceOf(s.m, s.a, o);
    assert j <= k ==> PassedBy(s, Slot(s.m, o), o, j);
    OnListed(s.m, s.a, Slot(s.m, o), k);
  }

  lemma UnlinkLater(s: State, t: Tid)
    requires Sound(s) && PcOf(s, t).ReleWalk? && SlotOk(s, Slot(s.m, PcOf(s, t).o)) && Safe(s, t)
    requires s.m.next[PcOf(s, t).p] == PcOf(s, t).o
    ensures var ReleWalk(o, p, k) := PcOf(s, t); Does(s, t, Unlinked(s, t, o, Slot(s.m, o), p))
  {
    var ReleWalk(o, p, k) := PcOf(s, t);
    var j := Ahead(s, t);
    UnlinkedSound(s, t, o, k + 1);
    UnlinkedAbs(s, t, o, p);
  }

  lemma WalkLater(s: State, t: Tid)
    requires Sound(s) && PcOf(s, t).ReleWalk? && Safe(s, t) && s.m.next[PcOf(s, t).p] != PcOf(s, t).o
    ensures var ReleWalk(o, p, k) := PcOf(s, t); Does(s, t, At(s, t, ReleWalk(o, s.m.next[p], k + 1)))
  {
    assert SoundNow(0, s);
    var ReleWalk(o, p, k) := PcOf(s, t);
    var h := Slot(s.m, o);
    var j := Ahead(s, t);
    Known(s, t, o);
    OnListed(s.m, s.a, h, k + 1);
    var s' := At(s, t, ReleWalk(o, s.m.next[p], k + 1));
    forall i: nat | i <= k + 1
      ensures PassedBy(s', h, o, i)
    {
      assert i <= k ==> PassedBy(s, h, o, i);
    }
    QuietSound(s, t, ReleWalk(o, s.m.next[p], k + 1));
  }

  lemma ReleLeaves(s: State, t: Tid)
    requires Sound(s) && PcOf(s, t).ReleLeave?
    ensures var o := PcOf(s, t).o; Does(s, t, HashLeft(s, t, ReleDone(o)))
  {
    var o := PcOf(s, t).o;
    Known(s, t, o);
    HashLeftSound(s, t, ReleDone(o));
  }

  lemma ReleIsDone(s: State, t: Tid)
    requires Sound(s) && PcOf(s, t).ReleDone?
    ensures var o := PcOf(s, t).o; Does(s, t, ObjLeft(s, t, o, ReleFree(o)))
  {
    var o := PcOf(s, t).o;
    Known(s, t, o);
    ObjLeftSound(s, t, o, ReleFree(o));
  }

  lemma ReleFrees(s: State, t: Tid)
    requires Sound(s) && PcOf(s, t).ReleFree?
    ensures var o := PcOf(s, t).o; Does(s, t, Freed(s, t, o))
  {
    var o := PcOf(s, t).o;
    Known(s, t, o);
    FreedSound(s, t, o);
    FreedAbs(s, t, o);
  }

  lemma TakeStep(s: State, t: Tid)
    requires Sound(s) && !Releasing(PcOf(s, t)) && !Removing(PcOf(s, t)) && !PcOf(s, t).Idle?
    ensures Goes(s, t)
  {
    SoundSlots(s);
    SafeAlloc(s, t);
    match PcOf(s, t)
    case AllocLock(_) => AllocGoes(s, t);
    case AllocLink(_) => AllocGoes(s, t);
    case AllocHead(_) => AllocGoes(s, t);
    case AllocLockObj(_) => AllocLocksObj(s, t);
    case AllocUnlock(_) => AllocUnlocks(s, t);
    case AllocDone(_) => AllocEnds(s, t);
    case HoldLock(_) => HoldLocks(s, t);
    case HoldInc(_) => HoldCounts(s, t);
    case HoldUnlock(_) => HoldEnds(s, t);
    case FindLock(_) => FindStarts(s, t);
    case FindHead(_) => FindStarts(s, t);
    case FindWalk(_, _, _) => FindGoes(s, t);
    case FindLockObj(_, _, _) => FindLocksObj(s, t);
    case FindInc(_, _, _) => FindCounts(s, t);
    case FindUnlockObj(_) => FindUnlocksObj(s, t);
    case FindUnlock(_) => FindEnds(s, t);
  }

  lemma ReleStep(s: State, t: Tid)
    requires Sound(s) && Releasing(PcOf(s, t))
    ensures Goes(s, t)
  {
    SoundSlots(s);
    SafeRele(s, t);
    match PcOf(s, t)
    case ReleLock(_) => ReleLocks(s, t);
    case ReleTest(_) => ReleTests(s, t);
    case ReleDec(_) => ReleCounts(s, t);
    case ReleUnlock(_) => ReleUnlocks(s, t);
    case ReleDrop(_) => ReleDrops(s, t);
    case ReleLockHash(_) => ReleLocksHash(s, t);
    case ReleRelock(_) => ReleRelocks(s, t);
    case ReleRetest(_) => ReleRetests(s, t);
  }

  lemma RemoveStep(s: State, t: Tid)
    requires Sound(s) && Removing(PcOf(s, t))
    ensures Goes(s, t)
  {
    SoundSlots(s);
    SafeRele(s, t);
    match PcOf(s, t)
    case ReleBackDec(_) => BackCounts(s, t);
    case ReleBackUnlock(_) => BackUnlocks(s, t);
    case ReleBackHash(_) => BackEnds(s, t);
    case ReleHead(o) =>
      assert SlotOk(s, Slot(s.m, o));
      if s.m.next[Slot(s.m, o)] == o { UnlinkFirst(s, t); } else { WalkFirst(s, t); }
    case ReleWalk(o, p, _) =>
      assert SlotOk(s, Slot(s.m, o));
      if s.m.next[p] == o { UnlinkLater(s, t); } else { WalkLater(s, t); }
    case ReleLeave(_) => ReleLeaves(s, t);
    case ReleDone(_) => ReleIsDone(s, t);
    case ReleFree(_) => ReleFrees(s, t);
  }

  /**
   Every step of every thread is safe and keeps the invariant. A call takes effect exactly
   once between its start and its return, as its atomic operation, and returns what that gives.
   */
  lemma StepSound(s: State, t: Tid)
    requires Sound(s)
    ensures Goes(s, t)
  {
    SoundSlots(s);
    if Releasing(PcOf(s, t)) {
      ReleStep(s, t);
    } else if Removing(PcOf(s, t)) {
      RemoveStep(s, t);
    } else if !PcOf(s, t).Idle? {
      TakeStep(s, t);
    }
  }

  lemma BeginSound(s: State, t: Tid, op: Op)
    requires Sound(s) && Allowed(s, t, op)
    ensures Sound(Begin(s, t, op)) && Abs(Begin(s, t, op)) == Abs(s)
    ensures Wants(s, t).None? && Wants(Begin(s, t, op), t) == Some(op)
  {
    match op
    case AllocOp(o, i) =>
      AllocatedSound(s, t, o, i);
      AllocatedAbs(s, t, o, i);
    case HoldOp(o) =>
      IdleRefers(s, t, o);
      QuietSound(s, t, HoldLock(o));
    case FindOp(i) => QuietSound(s, t, FindLock(i));
    case ReleOp(o) =>
      IdleRefers(s, t, o);
      QuietSound(s, t, ReleLock(o));
  }

  /** An object to which an idle thread has a reference is on a list. */
  lemma IdleRefers(s: State, t: Tid, o: nat)
    requires Sound(s) && PcOf(s, t).Idle? && HasRef(s, t, o)
    ensures Refers(s, t, o)
  {
    assert SoundNow(0, s);
    assert ThreadOk(s, t) && OwnOk(s, t, o) && ObjOk(s.m, s.a, o);
  }

  lemma InitialSound()
    ensures Sound(Initial()) && Abs(Initial()) == EmptyTable()
  {
    var s := Initial();
    forall h: nat | h < NHASH
      ensures HeadOk(s.a, h) && |s.a.lists[h]| > 0 && Spells(s.m.next, s.a.lists[h])
    {
      assert IsSlot(h) && Points(s.m.next, s.a.lists[h], 0);
    }
    forall l: nat, k: nat, m: nat, j: nat
      ensures Differ(s.a.lists, l, k, m, j)
    {
    }
    assert forall h: nat, k: nat :: PlaceOk(s.m, s.a, h, k);
    assert forall o: nat :: ObjOk(s.m, s.a, o);
    forall t: Tid
      ensures ThreadOk(s, t)
    {
      assert forall o: nat :: LockOk(s, t, o) && OwnOk(s, t, o);
    }
  }

  /** Every slot empty. */
  function EmptyTable(): Table {
    Table(seq(NHASH, h requires 0 <= h => [h]), map[], map[])
  }

  // ---- Runs ----

  datatype Action = Begins(t: Tid, op: Op) | Moves(t: Tid)

  ghost predicate Acts(s: State, a: Action, s': State) {
    match a
    case Begins(t, op) => Allowed(s, t, op) && s' == Begin(s, t, op)
    case Moves(t) => SlotsOk(s) && Safe(s, t) && Enabled(s, t) && s' == Step(s, t)
  }

  /** A run: from the empty table, any threads begin calls and take steps in any order. */
  ghost predicate IsRun(run: seq<State>, acts: seq<Action>) {
    && |run| == |acts| + 1 && run[0] == Initial()
    && forall i | 0 <= i < |acts| :: Acts(run[i], acts[i], run[i + 1])
  }

  lemma ActSound(s: State, a: Action, s': State)
    requires Sound(s) && Acts(s, a, s')
    ensures Sound(s')
    ensures a.Moves? ==> Effect(s, s', a.t)
    ensures a.Begins? ==> Abs(s') == Abs(s)
  {
    match a
    case Begins(t, op) => BeginSound(s, t, op);
    case Moves(t) =>
      StepSound(s, t);
      assert DoesNow(0, s, t, s');
  }

  /** In every state of every run the invariant holds, and every thread's next step is safe. */
  lemma {:induction false} RunSound(run: seq<State>, acts: seq<Action>, n: nat)
    requires IsRun(run, acts) && n < |run|
    ensures Sound(run[n])
    ensures forall t: Tid :: Safe(run[n], t)
  {
    if n == 0 {
      InitialSound();
    } else {
      RunSound(run, acts, n - 1);
      assert Acts(run[n - 1], acts[n - 1], run[n]);
      ActSound(run[n - 1], acts[n - 1], run[n]);
    }
    forall t: Tid
      ensures Safe(run[n], t)
    {
      StepSound(run[n], t);
    }
  }

  /** In every state of every run an allocated object's count is the number of references to it. */
  lemma CountsAreReferences(run: seq<State>, acts: seq<Action>, n: nat, o: nat)
    requires IsRun(run, acts) && n < |run|
    ensures o in run[n].m.count <==> o in run[n].a.refs
    ensures o in run[n].m.count ==> run[n].m.count[o] == |run[n].a.refs[o]| > 0
  {
    RunSound(run, acts, n);
    Known(run[n], 0, o);
  }

  /** An object leaves the table in exactly the step that releases its last reference. */
  lemma LeavesWithLast(s: State, t: Tid, o: nat)
    requires Sound(s) && Enabled(s, t)
    ensures Goes(s, t)
    ensures o in Abs(s).count && o !in Abs(Step(s, t)).count
        <==> Commit(s, t) == Some((ReleOp(o), 0)) && HasRef(s, t, o) && s.a.refs[o] == multiset{t}
  {
    StepSound(s, t);
    assert DoesNow(0, s, t, Step(s, t));
    Known(s, t, o);
    if Commit(s, t) == Some((ReleOp(o), 0)) {
      OneOnly(s.a.refs[o], t);
    }
  }

  // ---- The calls take effect one after another ----

  datatype Event = Event(op: Op, result: nat)

  /** The calls that have taken effect in the first n steps, in that order. */
  ghost function History(run: seq<State>, acts: seq<Action>, n: nat): seq<Event>
    requires |run| == |acts| + 1 && n <= |acts|
  {
    if n == 0 then [] else History(run, acts, n - 1) + Happens(run[n - 1], acts[n - 1])
  }

  ghost function Happens(s: State, a: Action): seq<Event> {
    if a.Moves? && Commit(s, a.t).Some? then [Event(Commit(s, a.t).value.0, Commit(s, a.t).value.1)] else []
  }

  /** The table after the first n events, each applied atomically to the one before. */
  ghost function TableAfter(h: seq<Event>, n: nat): Table
    requires n <= |h|
  {
    if n == 0 then EmptyTable() else Apply(TableAfter(h, n - 1), h[n - 1].op).0
  }

  ghost predicate LegalAt(h: seq<Event>, i: nat) {
    i < |h| ==> Apply(TableAfter(h, i), h[i].op).1 == h[i].result
  }

  lemma {:induction false} AfterPrefix(h: seq<Event>, e: Event, n: nat)
    requires n <= |h|
    ensures TableAfter(h + [e], n) == TableAfter(h, n)
  {
    if n > 0 {
      AfterPrefix(h, e, n - 1);
    }
  }

  /** The events give the table, each with the result of its operation. */
  ghost predicate LegalNow(u: int, h: seq<Event>, tab: Table) {
    tab == TableAfter(h, |h|) && forall i: nat :: LegalAt(h, i)
  }

  ghost predicate Legal(h: seq<Event>, tab: Table) {
    forall u: int :: LegalNow(u, h, tab)
  }

  lemma LegalBefore(h: seq<Event>, e: Event, i: nat)
    requires i < |h| && LegalAt(h, i)
    ensures LegalAt(h + [e], i)
  {
    AfterPrefix(h, e, i);
    assert (h + [e])[i] == h[i];
  }

  lemma LegalLast(h: seq<Event>, tab: Table, e: Event, tab': Table)
    requires tab == TableAfter(h, |h|) && Apply(tab, e.op) == (tab', e.result)
    ensures TableAfter(h + [e], |h + [e]|) == tab' && LegalAt(h + [e], |h|)
  {
    AfterPrefix(h, e, |h|);
  }

  lemma LegalBy(h: seq<Event>, tab: Table)
    requires tab == TableAfter(h, |h|) && forall i: nat :: LegalAt(h, i)
    ensures Legal(h, tab)
  {
  }

  lemma LegalEach(h: seq<Event>, tab: Table, e: Event, tab': Table, i: nat)
    requires Legal(h, tab) && Apply(tab, e.op) == (tab', e.result)
    ensures LegalAt(h + [e], i)
  {
    assert LegalNow(0, h, tab);
    if i < |h| {
      LegalBefore(h, e, i);
    } else if i == |h| {
      LegalLast(h, tab, e, tab');
    }
  }

  lemma LegalExtends(h: seq<Event>, tab: Table, e: Event, tab': Table)
    requires Legal(h, tab) && Apply(tab, e.op) == (tab', e.result)
    ensures Legal(h + [e], tab')
  {
    forall i: nat
      ensures LegalAt(h + [e], i)
    {
      LegalEach(h, tab, e, tab', i);
    }
    assert tab == TableAfter(h, |h|) by {
      assert LegalNow(0, h, tab);
    }
    LegalLast(h, tab, e, tab');
    LegalBy(h + [e], tab');
  }

  lemma LegalStep(h: seq<Event>, s: State, a: Action, s': State)
    requires Sound(s) && Acts(s, a, s') && Legal(h, Abs(s))
    ensures Legal(h + Happens(s, a), Abs(s'))
  {
    ActSound(s, a, s');
    if a.Moves? && Commit(s, a.t).Some? {
      var c := Commit(s, a.t).value;
      LegalExtends(h, Abs(s), Event(c.0, c.1), Abs(s'));
    } else {
      assert h + [] == h;
    }
  }

  /**
   The fine-grained table is the one-lock table: in every run the calls that have taken effect,
   applied atomically one after another, give the same results and the same table.
   */
  lemma {:induction false} Linearizable(run: seq<State>, acts: seq<Action>, n: nat)
    requires IsRun(run, acts) && n <= |acts|
    ensures Legal(History(run, acts, n), Abs(run[n]))
  {
    if n == 0 {
      InitialSound();
    } else {
      Linearizable(run, acts, n - 1);
      RunSound(run, acts, n - 1);
      assert Acts(run[n - 1], acts[n - 1], run[n]);
      LegalStep(History(run, acts, n - 1), run[n - 1], acts[n - 1], run[n]);
    }
  }

  // ---- Locks ----

  predicate WaitsHash(pc: Pc) {
    pc.AllocLock? || pc.FindLock? || pc.ReleLockHash?
  }

  predicate WaitsObj(pc: Pc) {
    pc.AllocLockObj? || pc.HoldLock? || pc.FindLockObj? || pc.ReleLock? || pc.ReleRelock?
  }

  /** The lock order: hashlock is never awaited with an f_lock held, and one f_lock is held at a time. */
  lemma LockOrder(s: State, t: Tid)
    requires Sound(s) && (WaitsHash(PcOf(s, t)) || WaitsObj(PcOf(s, t)))
    ensures LockedObj(PcOf(s, t)) == 0 && forall o: nat | o > 0 && o in s.y.obj :: s.y.obj[o] != t
    ensures WaitsHash(PcOf(s, t)) ==> s.y.hash != Some(t)
  {
    Known(s, t, 0);
    forall o: nat | o > 0 && o in s.y.obj
      ensures s.y.obj[o] != t
    {
      Known(s, t, o);
    }
  }

  /** A thread that waits for an f_lock waits for a thread that can go on. */
  lemma ObjHolder(s: State, t: Tid) returns (q: Tid)
    requires Sound(s) && WaitsObj(PcOf(s, t))
    ensures Enabled(s, q)
  {
    var o := PcOf(s, t).o;
    q := t;
    if o in s.y.obj {
      q := s.y.obj[o];
      StepSound(s, t);
      Known(s, t, o);
      Known(s, q, o);
    }
  }

  /** While any thread is in a call, some thread can take a step. */
  lemma NoDeadlock(s: State, t: Tid) returns (q: Tid)
    requires Sound(s) && !PcOf(s, t).Idle?
    ensures Enabled(s, q)
  {
    q := t;
    if WaitsObj(PcOf(s, t)) {
      q := ObjHolder(s, t);
    } else if WaitsHash(PcOf(s, t)) && s.y.hash.Some? {
      q := s.y.hash.value;
      Known(s, q, 0);
      if WaitsObj(PcOf(s, q)) {
        q := ObjHolder(s, q);
      }
    }
  }

  /** With no call under way no lock is held, and every allocated object is in the table. */
  lemma Quiescent(s: State, o: nat)
    requires Sound(s) && forall t: Tid :: PcOf(s, t).Idle?
    ensures s.y.hash.None? && (o > 0 ==> o !in s.y.obj)
    ensures o in s.m.id <==> o in Abs(s).id
  {
    if s.y.hash.Some? {
      Known(s, s.y.hash.value, 0);
    }
    if o in s.y.obj {
      Known(s, s.y.obj[o], o);
    }
    if o in s.a.owner {
      Known(s, s.a.owner[o], o);
    }
  }
}
