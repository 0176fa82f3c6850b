/**
 The three-member System V semaphore set behind sem_create and sem_close, as a
 transition system over any number of processes: one step per system call, an
 array of operations being one atomic step, and the exit of a process, at any
 point, undoing what it did with SEM_UNDO. Member 1 counts attachments down from
 BIGCOUNT, member 2 is the lock.
 */
module SemSet {
  import opened Wrappers

  const BIGCOUNT := 10000

  type Pid = nat

  /** The set of the key. A set that is created again is another set, with another id. */
  datatype Set = Set(id: nat, val: int, count: int, lock: int)

  datatype Pc =
    | Idle
    | Again                     // about to call semget
    | Got(id: nat)              // about to lock
    | Asleep(id: nat)           // inside semop, until the lock is 0
    | Test(id: nat)             // about to read the counter
    | SetVal(id: nat)           // about to set member 0
    | SetCount(id: nat)         // about to set member 1
    | EndCreate(id: nat)        // about to decrement counter and lock
    | CloseTest(id: nat)        // about to read the counter
    | Remove(id: nat)           // about to remove the set
    | Unlock(id: nat)           // about to decrement the lock
    | Died                      // err_sys or err_dump: about to exit

  /** What the processes have done to the set with SEM_UNDO, by member. */
  datatype Undo = Undo(count: map<Pid, int>, lock: map<Pid, int>)

  /** attached and init are history: who is attached, and whether the set has been initialised. */
  datatype State = State(kern: Option<Set>, newId: nat, undo: Undo, pc: map<Pid, Pc>,
                         attached: multiset<Pid>, init: bool)

  function PcOf(s: State, p: Pid): Pc {
    if p in s.pc then s.pc[p] else Idle
  }

  function At(s: State, p: Pid, pc: Pc): State {
    s.(pc := s.pc[p := pc])
  }

  function Adj(m: map<Pid, int>, p: Pid): int {
    if p in m then m[p] else 0
  }

  predicate Exists(s: State, id: nat) {
    s.kern.Some? && s.kern.value.id == id
  }

  function Initial(): State {
    State(None, 0, Undo(map[], map[]), map[], multiset{}, false)
  }

  datatype Action =
    | Create(p: Pid, initval: int)   // call sem_create
    | Close(p: Pid)                  // call sem_close
    | Go(p: Pid, initval: int)       // the next system call
    | Exit(p: Pid)                   // the process ends, wherever it is

  // ---- System calls ----

  /** semop on members 1 and 2: adds to both with undo; the caller has made sure that it may. */
  function Added(s: State, p: Pid, count: int, lock: int): State
    requires s.kern.Some?
  {
    var x := s.kern.value;
    s.(kern := Some(x.(count := x.count + count, lock := x.lock + lock)),
       undo := Undo(s.undo.count[p := Adj(s.undo.count, p) - count], s.undo.lock[p := Adj(s.undo.lock, p) - lock]))
  }

  /** semget with IPC_CREAT: the set of the key, a new one with all members 0 if there is none. */
  function Opened(s: State): State {
    if s.kern.Some? then s
    else State(Some(Set(s.newId, 0, 0, 0)), s.newId + 1, Undo(map[], map[]), s.pc, s.attached, false)
  }

  /** The set is removed: with it go the adjustments of all processes. */
  function Removed(s: State): State {
    s.(kern := None, undo := Undo(map[], map[]), init := false)
  }

  /** The exit of a process: the kernel adds its adjustments to the members. */
  function Exited(s: State, p: Pid): State {
    var x := s.(pc := s.pc[p := Idle], attached := s.attached[p := 0],
                undo := Undo(s.undo.count - {p}, s.undo.lock - {p}));
    if s.kern.None? then x
    else x.(kern := Some(s.kern.value.(count := s.kern.value.count + Adj(s.undo.count, p),
                                      lock := s.kern.value.lock + Adj(s.undo.lock, p))))
  }

  // ---- Steps ----

  /** A call can be made by an idle process, sem_close only by one that is attached. */
  predicate Enabled(s: State, a: Action) {
    match a
    case Create(p, _) => PcOf(s, p).Idle?
    case Close(p) =>
      PcOf(s, p).Idle? && s.attached[p] > 0 && (s.kern.Some? ==> s.kern.value.lock == 0)
    case Go(p, _) =>
      (match PcOf(s, p)
       case Idle => false
       case Asleep(id) => !Exists(s, id) || s.kern.value.lock == 0
       case EndCreate(id) => !Exists(s, id) || (s.kern.value.count >= 1 && s.kern.value.lock >= 1)
       case Unlock(id) => !Exists(s, id) || s.kern.value.lock >= 1
       case Died => false
       case _ => true)
    case Exit(_) => true
  }

  function Next(s: State, a: Action): State
    requires Enabled(s, a)
  {
    match a
    case Create(p, _) => At(s, p, Again)
    case Close(p) =>
      if s.kern.None? then At(s, p, Died)
      else At(Added(s, p, 1, 1), p, CloseTest(s.kern.value.id)).(attached := s.attached - multiset{p})
    case Go(p, initval) => Called(s, p, initval)
    case Exit(p) => Exited(s, p)
  }

  /** The next system call of a process inside sem_create or sem_close. */
  function Called(s: State, p: Pid, initval: int): State
    requires Enabled(s, Go(p, initval))
  {
    match PcOf(s, p)
    case Again => At(Opened(s), p, Got(Opened(s).kern.value.id))
    case Got(id) =>
      if !Exists(s, id) then At(s, p, Again)
      else if s.kern.value.lock != 0 then At(s, p, Asleep(id))
      else At(Added(s, p, 0, 1), p, Test(id))
    case Asleep(id) =>
      if !Exists(s, id) then At(s, p, Died) else At(Added(s, p, 0, 1), p, Test(id))
    case Test(id) =>
      if !Exists(s, id) then At(s, p, Died)
      else At(s, p, if s.kern.value.count == 0 then SetVal(id) else EndCreate(id))
    case SetVal(id) =>
      if !Exists(s, id) then At(s, p, Died)
      else At(s.(kern := Some(s.kern.value.(val := initval))), p, SetCount(id))
    case SetCount(id) =>
      if !Exists(s, id) then At(s, p, Died)
      else At(s.(kern := Some(s.kern.value.(count := BIGCOUNT)), undo := s.undo.(count := map[]), init := true),
              p, EndCreate(id))
    case EndCreate(id) =>
      if !Exists(s, id) then At(s, p, Died)
      else At(Added(s, p, -1, -1), p, Idle).(attached := s.attached + multiset{p})
    case CloseTest(id) =>
      if !Exists(s, id) || s.kern.value.count > BIGCOUNT then At(s, p, Died)
      else At(s, p, if s.kern.value.count == BIGCOUNT then Remove(id) else Unlock(id))
    case Remove(id) =>
      if !Exists(s, id) then At(s, p, Died) else At(Removed(s), p, Idle)
    case Unlock(id) =>
      if !Exists(s, id) then At(s, p, Died) else At(Added(s, p, 0, -1), p, Idle)
    case Idle => s
    case Died => s
  }
}
