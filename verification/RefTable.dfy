/**
 The reference-counted hash table with two levels of locking, as a transition
 system: any number of threads, each at one of the points between two atomic
 steps of alloc, hold, find or release. The table slots and the f_next fields
 are pointer cells; malloc may hand out any address that is not allocated, also
 one that was freed before.
 */
module RefTable {
  import opened Links
  import opened RefSpec
  import opened Wrappers

  type Tid = nat

  datatype Pc =
    | Idle
    | AllocLock(o: nat) | AllocLink(o: nat) | AllocHead(o: nat)
    | AllocLockObj(o: nat) | AllocUnlock(o: nat) | AllocDone(o: nat)
    | HoldLock(o: nat) | HoldInc(o: nat) | HoldUnlock(o: nat)
    | FindLock(i: int) | FindHead(i: int) | FindWalk(i: int, o: nat, k: nat)
    | FindLockObj(i: int, o: nat, k: nat) | FindInc(i: int, o: nat, k: nat)
    | FindUnlockObj(o: nat) | FindUnlock(o: nat)
    | ReleLock(o: nat) | ReleTest(o: nat) | ReleDec(o: nat) | ReleUnlock(o: nat)
    | ReleDrop(o: nat) | ReleLockHash(o: nat) | ReleRelock(o: nat) | ReleRetest(o: nat)
    | ReleBackDec(o: nat) | ReleBackUnlock(o: nat) | ReleBackHash(o: nat)
    | ReleHead(o: nat) | ReleWalk(o: nat, p: nat, k: nat)
    | ReleLeave(o: nat) | ReleDone(o: nat) | ReleFree(o: nat)

  /** The memory: slots and f_next fields, ids and counts of the allocated objects. */
  datatype Mem = Mem(next: map<nat, nat>, id: map<nat, int>, count: map<nat, int>)

  /** Who holds hashlock, and who holds which f_lock. */
  datatype Sync = Sync(hash: Option<Tid>, obj: map<nat, Tid>)

  /**
   What the memory means: the lists that the pointers spell, the references
   that the threads hold, and the thread that alone knows an object which is
   not yet, or no longer, on a list.
   */
  datatype Aux = Aux(lists: seq<seq<nat>>, refs: map<nat, multiset<Tid>>, owner: map<nat, Tid>)

  datatype State = State(m: Mem, y: Sync, a: Aux, pc: map<Tid, Pc>)

  function PcOf(s: State, t: Tid): Pc {
    if t in s.pc then s.pc[t] else Idle
  }

  function At(s: State, t: Tid, pc: Pc): State {
    s.(pc := s.pc[t := pc])
  }

  predicate IsSlot(h: nat) {
    h < NHASH
  }

  function Initial(): State {
    State(Mem(map h: nat | h < NHASH && IsSlot(h) :: 0, map[], map[]), Sync(None, map[]),
          Aux(seq(NHASH, h requires 0 <= h => [h]), map[], map[]), map[])
  }

  // ---- What a step does ----

  function HashTaken(s: State, t: Tid, pc: Pc): State {
    At(s.(y := s.y.(hash := Some(t))), t, pc)
  }

  function HashLeft(s: State, t: Tid, pc: Pc): State {
    At(s.(y := s.y.(hash := None)), t, pc)
  }

  function ObjTaken(s: State, t: Tid, o: nat, pc: Pc): State {
    At(s.(y := s.y.(obj := s.y.obj[o := t])), t, pc)
  }

  function ObjLeft(s: State, t: Tid, o: nat, pc: Pc): State {
    At(s.(y := s.y.(obj := s.y.obj - {o})), t, pc)
  }

  function Counted(s: State, t: Tid, o: nat, n: int, r: multiset<Tid>, pc: Pc): State {
    At(s.(m := s.m.(count := s.m.count[o := n]), a := s.a.(refs := s.a.refs[o := r])), t, pc)
  }

  function Allocated(s: State, t: Tid, o: nat, i: int): State {
    At(s.(m := s.m.(id := s.m.id[o := i], count := s.m.count[o := 1]),
          a := s.a.(refs := s.a.refs[o := multiset{t}], owner := s.a.owner[o := t])), t, AllocLock(o))
  }

  function NextSet(s: State, t: Tid, o: nat, p: nat, pc: Pc): State {
    At(s.(m := s.m.(next := s.m.next[o := p])), t, pc)
  }

  function Linked(s: State, t: Tid, o: nat, h: nat): State
    requires h < |s.a.lists| && |s.a.lists[h]| > 0
  {
    At(s.(m := s.m.(next := s.m.next[h := o]),
          a := s.a.(lists := s.a.lists[h := Pushed(s.a.lists[h], o)], owner := s.a.owner - {o})),
       t, AllocLockObj(o))
  }

  function Unlinked(s: State, t: Tid, o: nat, h: nat, p: nat): State
    requires h < |s.a.lists| && o in s.m.next
  {
    At(s.(m := s.m.(next := s.m.next[p := s.m.next[o]]),
          a := s.a.(lists := s.a.lists[h := Dropped(s.a.lists[h], o)], owner := s.a.owner[o := t])),
       t, ReleLeave(o))
  }

  function Freed(s: State, t: Tid, o: nat): State {
    At(State(Mem(s.m.next - {o}, s.m.id - {o}, s.m.count - {o}), s.y,
             Aux(s.a.lists, s.a.refs - {o}, s.a.owner - {o}), s.pc), t, Idle)
  }

  /** The table slot of an allocated object. */
  function Slot(m: Mem, o: nat): nat {
    if o in m.id then Bucket(m.id[o]) else 0
  }

  // ---- The steps ----

  /** A thread can take its next step unless it waits for a lock that is taken. */
  predicate Enabled(s: State, t: Tid) {
    match PcOf(s, t)
    case Idle => false
    case AllocLock(_) => s.y.hash.None?
    case FindLock(_) => s.y.hash.None?
    case ReleLockHash(_) => s.y.hash.None?
    case AllocLockObj(o) => o !in s.y.obj
    case HoldLock(o) => o !in s.y.obj
    case FindLockObj(_, o, _) => o !in s.y.obj
    case ReleLock(o) => o !in s.y.obj
    case ReleRelock(o) => o !in s.y.obj
    case _ => true
  }

  /** The step dereferences allocated objects only, and unlocks only what its thread has locked. */
  predicate Safe(s: State, t: Tid) {
    match PcOf(s, t)
    case Idle => true
    case AllocLock(o) => o in s.m.id
    case AllocLink(o) => o in s.m.id && Slot(s.m, o) in s.m.next
    case AllocHead(o) => o in s.m.id
    case AllocLockObj(o) => o in s.m.id
    case AllocUnlock(_) => s.y.hash == Some(t)
    case AllocDone(o) => Unlocks(s, t, o)
    case HoldLock(o) => o in s.m.id
    case HoldInc(o) => o in s.m.count
    case HoldUnlock(o) => Unlocks(s, t, o)
    case FindLock(_) => true
    case FindHead(i) => Bucket(i) in s.m.next
    case FindWalk(_, o, _) => o == 0 || (o in s.m.id && o in s.m.next)
    case FindLockObj(_, o, _) => o in s.m.id
    case FindInc(_, o, _) => o in s.m.count
    case FindUnlockObj(o) => Unlocks(s, t, o)
    case FindUnlock(_) => s.y.hash == Some(t)
    case ReleLock(o) => o in s.m.id
    case ReleTest(o) => o in s.m.count
    case ReleDec(o) => o in s.m.count
    case ReleUnlock(o) => Unlocks(s, t, o)
    case ReleDrop(o) => Unlocks(s, t, o)
    case ReleLockHash(_) => true
    case ReleRelock(o) => o in s.m.id
    case ReleRetest(o) => o in s.m.count
    case ReleBackDec(o) => o in s.m.count
    case ReleBackUnlock(o) => Unlocks(s, t, o)
    case ReleBackHash(_) => s.y.hash == Some(t)
    case ReleHead(o) => o in s.m.id && o in s.m.next && Slot(s.m, o) in s.m.next
    case ReleWalk(o, p, _) => o in s.m.id && o in s.m.next && p in s.m.id && p in s.m.next
    case ReleLeave(_) => s.y.hash == Some(t)
    case ReleDone(o) => Unlocks(s, t, o)
    case ReleFree(o) => o in s.m.id && o !in s.y.obj
  }

  predicate Unlocks(s: State, t: Tid, o: nat) {
    o in s.m.id && o in s.y.obj && s.y.obj[o] == t
  }

  /** The references after thread t has gained or lost one to object o. */
  function More(s: State, t: Tid, o: nat): multiset<Tid> {
    (if o in s.a.refs then s.a.refs[o] else multiset{}) + multiset{t}
  }

  function Less(s: State, t: Tid, o: nat): multiset<Tid> {
    (if o in s.a.refs then s.a.refs[o] else multiset{}) - multiset{t}
  }

  ghost predicate SlotOk(s: State, h: nat) {
    h < |s.a.lists| && |s.a.lists[h]| > 0
  }

  /** One step of thread t; the steps that start a call are in Begin. */
  ghost function Step(s: State, t: Tid): State
    requires Enabled(s, t) && Safe(s, t) && forall h: nat | h < NHASH :: SlotOk(s, h)
  {
    match PcOf(s, t)
    case AllocLock(o) => HashTaken(s, t, AllocLink(o))
    case AllocLink(o) => NextSet(s, t, o, s.m.next[Slot(s.m, o)], AllocHead(o))
    case AllocHead(o) => assert SlotOk(s, Slot(s.m, o)); Linked(s, t, o, Slot(s.m, o))
    case AllocLockObj(o) => ObjTaken(s, t, o, AllocUnlock(o))
    case AllocUnlock(o) => HashLeft(s, t, AllocDone(o))
    case AllocDone(o) => ObjLeft(s, t, o, Idle)
    case HoldLock(o) => ObjTaken(s, t, o, HoldInc(o))
    case HoldInc(o) => Counted(s, t, o, s.m.count[o] + 1, More(s, t, o), HoldUnlock(o))
    case HoldUnlock(o) => ObjLeft(s, t, o, Idle)
    case FindLock(i) => HashTaken(s, t, FindHead(i))
    case FindHead(i) => At(s, t, FindWalk(i, s.m.next[Bucket(i)], 1))
    case FindWalk(i, o, k) =>
      if o == 0 then At(s, t, FindUnlock(0))
      else if s.m.id[o] == i then At(s, t, FindLockObj(i, o, k))
      else At(s, t, FindWalk(i, s.m.next[o], k + 1))
    case FindLockObj(i, o, k) => ObjTaken(s, t, o, FindInc(i, o, k))
    case FindInc(_, o, _) => Counted(s, t, o, s.m.count[o] + 1, More(s, t, o), FindUnlockObj(o))
    case FindUnlockObj(o) => ObjLeft(s, t, o, FindUnlock(o))
    case FindUnlock(_) => HashLeft(s, t, Idle)
    case ReleLock(o) => ObjTaken(s, t, o, ReleTest(o))
    case ReleTest(o) => At(s, t, if s.m.count[o] == 1 then ReleDrop(o) else ReleDec(o))
    case ReleDec(o) => Counted(s, t, o, s.m.count[o] - 1, Less(s, t, o), ReleUnlock(o))
    case ReleUnlock(o) => ObjLeft(s, t, o, Idle)
    case ReleDrop(o) => ObjLeft(s, t, o, ReleLockHash(o))
    case ReleLockHash(o) => HashTaken(s, t, ReleRelock(o))
    case ReleRelock(o) => ObjTaken(s, t, o, ReleRetest(o))
    case ReleRetest(o) => At(s, t, if s.m.count[o] != 1 then ReleBackDec(o) else ReleHead(o))
    case ReleBackDec(o) => Counted(s, t, o, s.m.count[o] - 1, Less(s, t, o), ReleBackUnlock(o))
    case ReleBackUnlock(o) => ObjLeft(s, t, o, ReleBackHash(o))
    case ReleBackHash(_) => HashLeft(s, t, Idle)
    case ReleHead(o) =>
      assert SlotOk(s, Slot(s.m, o));
      if s.m.next[Slot(s.m, o)] == o then Unlinked(s, t, o, Slot(s.m, o), Slot(s.m, o))
      else At(s, t, ReleWalk(o, s.m.next[Slot(s.m, o)], 1))
    case ReleWalk(o, p, k) =>
      assert SlotOk(s, Slot(s.m, o));
      if s.m.next[p] == o then Unlinked(s, t, o, Slot(s.m, o), p)
      else At(s, t, ReleWalk(o, s.m.next[p], k + 1))
    case ReleLeave(o) => HashLeft(s, t, ReleDone(o))
    case ReleDone(o) => ObjLeft(s, t, o, ReleFree(o))
    case ReleFree(o) => Freed(s, t, o)
  }

  /** A call may start when malloc has the address, or when the caller holds a reference. */
  predicate Allowed(s: State, t: Tid, op: Op) {
    PcOf(s, t).Idle? &&
    match op
    case AllocOp(o, _) => o >= NHASH && o !in s.m.id
    case HoldOp(o) => HasRef(s, t, o)
    case FindOp(_) => true
    case ReleOp(o) => HasRef(s, t, o)
  }

  predicate HasRef(s: State, t: Tid, o: nat) {
    o in s.a.refs && s.a.refs[o][t] > 0
  }

  function Begin(s: State, t: Tid, op: Op): State {
    match op
    case AllocOp(o, i) => Allocated(s, t, o, i)
    case HoldOp(o) => At(s, t, HoldLock(o))
    case FindOp(i) => At(s, t, FindLock(i))
    case ReleOp(o) => At(s, t, ReleLock(o))
  }

  // ---- The table as the threads see it, and where a call takes effect ----

  /** The objects on lists, with their ids and counts. */
  function Abs(s: State): Table {
    Table(s.a.lists, s.m.id - s.a.owner.Keys, s.m.count - s.a.owner.Keys)
  }

  /** The step is the one at which the call takes effect: which call, with which result. */
  function Commit(s: State, t: Tid): Option<(Op, nat)> {
    match PcOf(s, t)
    case AllocHead(o) => if o in s.m.id then Some((AllocOp(o, s.m.id[o]), o)) else None
    case HoldInc(o) => Some((HoldOp(o), 0))
    case FindWalk(i, o, _) => if o == 0 then Some((FindOp(i), 0)) else None
    case FindInc(i, o, _) => Some((FindOp(i), o))
    case ReleDec(o) => Some((ReleOp(o), 0))
    case ReleBackDec(o) => Some((ReleOp(o), 0))
    case ReleHead(o) =>
      if Slot(s.m, o) in s.m.next && s.m.next[Slot(s.m, o)] == o then Some((ReleOp(o), 0)) else None
    case ReleWalk(o, p, _) => if p in s.m.next && s.m.next[p] == o then Some((ReleOp(o), 0)) else None
    case _ => None
  }
}
