/**
 What every run of sem_create, sem_close and process exits keeps, as long as
 fewer than BIGCOUNT attachments are held, and a run that shows why fewer.
 */
module SemSetRuns {
  import opened SemSet
  import opened Wrappers

  /** Between locking the set and unlocking or removing it. */
  predicate InCritical(pc: Pc) {
    pc.Test? || pc.SetVal? || pc.SetCount? || pc.EndCreate? || pc.CloseTest? || pc.Remove? || pc.Unlock?
  }

  ghost predicate SetOk(s: State) {
    match s.kern
    case None => s.attached == multiset{} && !s.init
    case Some(x) =>
      && x.id < s.newId
      && (x.lock == 0 || (x.lock == 1 && exists p: Pid :: InCritical(PcOf(s, p))))
      && (if s.init then x.count == BIGCOUNT - |s.attached| && |s.attached| <= BIGCOUNT
          else x.count == 0 && s.attached == multiset{})
  }

  ghost predicate ProcOk(s: State, p: Pid) {
    && Adj(s.undo.count, p) == s.attached[p]
    && Adj(s.undo.lock, p) == (if InCritical(PcOf(s, p)) then -1 else 0)
    && match PcOf(s, p)
       case Got(id) => id < s.newId
       case Asleep(id) => id < s.newId
       case Test(id) => Exists(s, id)
       case SetVal(id) => Exists(s, id) && !s.init
       case SetCount(id) => Exists(s, id) && !s.init
       case EndCreate(id) => Exists(s, id) && s.init
       case CloseTest(id) => Exists(s, id) && s.init
       case Remove(id) => Exists(s, id) && s.init && s.attached == multiset{}
       case Unlock(id) => Exists(s, id) && s.init
       case _ => true
  }

  ghost predicate Alone(s: State, p: Pid, q: Pid) {
    InCritical(PcOf(s, p)) ==> s.kern.Some? && s.kern.value.lock == 1 && (InCritical(PcOf(s, q)) ==> p == q)
  }

  ghost predicate Sound(s: State) {
    SetOk(s) && (forall p: Pid :: ProcOk(s, p)) && (forall p: Pid, q: Pid :: Alone(s, p, q))
  }

  /** The counter would be taken for that of a new set: it is 0 although the set is in use. */
  predicate Overwrites(s: State, a: Action) {
    a.Go? && PcOf(s, a.p).Test? && s.init && |s.attached| == BIGCOUNT
  }

  lemma CreateSound(s: State, p: Pid, v: int)
    requires Sound(s) && Enabled(s, Create(p, v))
    ensures Sound(Next(s, Create(p, v)))
  {
    assert ProcOk(s, p);
    QuietSound(s, p, Again);
  }

  /** A step that only moves a process, inside or outside the critical section. */
  lemma QuietSound(s: State, p: Pid, pc: Pc)
    requires Sound(s) && InCritical(pc) == InCritical(PcOf(s, p)) && ProcOk(At(s, p, pc), p)
    ensures Sound(At(s, p, pc))
  {
    var s' := At(s, p, pc);
    forall q: Pid
      ensures ProcOk(s', q)
    {
      assert ProcOk(s, q);
    }
    forall q: Pid, r: Pid
      ensures Alone(s', q, r)
    {
      assert Alone(s, q, r);
    }
    if s.kern.Some? && s.kern.value.lock == 1 {
      var q: Pid :| InCritical(PcOf(s, q));
      assert InCritical(PcOf(s', q));
    }
  }

  lemma OpenSound(s: State, p: Pid)
    requires Sound(s) && PcOf(s, p).Again?
    ensures Sound(At(Opened(s), p, Got(Opened(s).kern.value.id)))
  {
    var s' := At(Opened(s), p, Got(Opened(s).kern.value.id));
    assert ProcOk(s, p);
    if s.kern.Some? {
      QuietSound(s, p, Got(s.kern.value.id));
    } else {
      forall q: Pid
        ensures ProcOk(s', q)
      {
        assert ProcOk(s, q) && Alone(s, q, q);
      }
      forall q: Pid, r: Pid
        ensures Alone(s', q, r)
      {
        assert Alone(s, q, r);
      }
    }
  }

  /** Locking, alone or together with the count of a close. */
  lemma LockSound(s: State, p: Pid, s': State, pc: Pc)
    requires Sound(s) && s.kern.Some? && s.kern.value.lock == 0 && !InCritical(PcOf(s, p))
    requires pc.Test? && pc.id == s.kern.value.id && s' == At(Added(s, p, 0, 1), p, pc)
    ensures Sound(s')
  {
    forall q: Pid
      ensures ProcOk(s', q)
    {
      assert ProcOk(s, q);
    }
    forall q: Pid, r: Pid
      ensures Alone(s', q, r)
    {
      assert Alone(s, q, r) && Alone(s, q, q) && Alone(s, r, r);
    }
    assert InCritical(PcOf(s', p));
  }

  lemma CloseSound(s: State, p: Pid)
    requires Sound(s) && Enabled(s, Close(p))
    ensures Sound(Next(s, Close(p))) && !PcOf(Next(s, Close(p)), p).Died?
  {
    var s' := Next(s, Close(p));
    assert s.attached[p] > 0;
    forall q: Pid
      ensures ProcOk(s', q)
    {
      assert ProcOk(s, q);
    }
    forall q: Pid, r: Pid
      ensures Alone(s', q, r)
    {
      assert Alone(s, q, r) && Alone(s, q, q) && Alone(s, r, r);
    }
    assert InCritical(PcOf(s', p));
  }

  lemma SetValSound(s: State, p: Pid, v: int)
    requires Sound(s) && PcOf(s, p).SetVal?
    ensures Sound(Called(s, p, v)) && PcOf(Called(s, p, v), p).SetCount?
  {
    var s' := Called(s, p, v);
    assert ProcOk(s, p) && Alone(s, p, p);
    forall q: Pid
      ensures ProcOk(s', q)
    {
      assert ProcOk(s, q);
    }
    forall q: Pid, r: Pid
      ensures Alone(s', q, r)
    {
      assert Alone(s, q, r);
    }
    assert InCritical(PcOf(s', p));
  }

  /** Initialising: nobody is attached, so clearing the adjustments of member 1 loses nothing. */
  lemma SetCountSound(s: State, p: Pid, v: int)
    requires Sound(s) && PcOf(s, p).SetCount?
    ensures Sound(Called(s, p, v)) && PcOf(Called(s, p, v), p).EndCreate?
  {
    var s' := Called(s, p, v);
    assert ProcOk(s, p) && Alone(s, p, p);
    forall q: Pid
      ensures ProcOk(s', q)
    {
      assert ProcOk(s, q) && Alone(s, p, q);
    }
    forall q: Pid, r: Pid
      ensures Alone(s', q, r)
    {
      assert Alone(s, q, r);
    }
    assert InCritical(PcOf(s', p));
  }

  lemma EndCreateSound(s: State, p: Pid, v: int)
    requires Sound(s) && PcOf(s, p).EndCreate? && Enabled(s, Go(p, v))
    ensures Sound(Called(s, p, v)) && PcOf(Called(s, p, v), p).Idle?
  {
    var s' := Called(s, p, v);
    assert ProcOk(s, p) && Alone(s, p, p);
    forall q: Pid
      ensures ProcOk(s', q)
    {
      assert ProcOk(s, q) && Alone(s, p, q);
    }
    forall q: Pid, r: Pid
      ensures Alone(s', q, r)
    {
      assert Alone(s, p, q);
    }
  }

  lemma UnlockSound(s: State, p: Pid, v: int)
    requires Sound(s) && PcOf(s, p).Unlock? && Enabled(s, Go(p, v))
    ensures Sound(Called(s, p, v)) && PcOf(Called(s, p, v), p).Idle?
  {
    var s' := Called(s, p, v);
    assert ProcOk(s, p) && Alone(s, p, p);
    forall q: Pid
      ensures ProcOk(s', q)
    {
      assert ProcOk(s, q) && Alone(s, p, q);
    }
    forall q: Pid, r: Pid
      ensures Alone(s', q, r)
    {
      assert Alone(s, p, q);
    }
  }

  lemma RemoveSound(s: State, p: Pid, v: int)
    requires Sound(s) && PcOf(s, p).Remove?
    ensures Sound(Called(s, p, v)) && PcOf(Called(s, p, v), p).Idle?
  {
    var s' := Called(s, p, v);
    assert ProcOk(s, p) && Alone(s, p, p);
    forall q: Pid
      ensures ProcOk(s', q)
    {
      assert ProcOk(s, q) && Alone(s, p, q);
    }
    forall q: Pid, r: Pid
      ensures Alone(s', q, r)
    {
      assert Alone(s, p, q);
    }
  }

  /** An exit at any point: the lock is free if this process had it, and its attachments are gone. */
  lemma ExitSound(s: State, p: Pid)
    requires Sound(s)
    ensures Sound(Exited(s, p))
  {
    var s' := Exited(s, p);
    assert ProcOk(s, p) && Alone(s, p, p);
    forall q: Pid
      ensures ProcOk(s', q)
    {
      assert ProcOk(s, q) && Alone(s, p, q);
    }
    forall q: Pid, r: Pid
      ensures Alone(s', q, r)
    {
      assert Alone(s, q, r) && Alone(s, p, q);
    }
    if s'.kern.Some? && s'.kern.value.lock == 1 {
      var q: Pid :| InCritical(PcOf(s, q));
      assert Alone(s, p, q) && InCritical(PcOf(s', q));
    }
  }

  lemma TestSound(s: State, p: Pid, v: int)
    requires Sound(s) && PcOf(s, p).Test? && !(s.init && |s.attached| == BIGCOUNT)
    ensures Sound(Called(s, p, v)) && !PcOf(Called(s, p, v), p).Died?
  {
    assert ProcOk(s, p);
    QuietSound(s, p, PcOf(Called(s, p, v), p));
  }

  lemma CloseTestSound(s: State, p: Pid, v: int)
    requires Sound(s) && PcOf(s, p).CloseTest?
    ensures Sound(Called(s, p, v)) && !PcOf(Called(s, p, v), p).Died?
  {
    assert ProcOk(s, p);
    if s.kern.value.count == BIGCOUNT {
      assert s.attached == multiset{};
    }
    QuietSound(s, p, PcOf(Called(s, p, v), p));
  }

  lemma GotSound(s: State, p: Pid, v: int)
    requires Sound(s) && (PcOf(s, p).Got? || PcOf(s, p).Asleep?) && Enabled(s, Go(p, v))
    ensures Sound(Called(s, p, v))
    ensures PcOf(Called(s, p, v), p).Died? <==> PcOf(s, p).Asleep? && !Exists(s, PcOf(s, p).id)
  {
    assert ProcOk(s, p);
    var s' := Called(s, p, v);
    if PcOf(s', p).Test? {
      LockSound(s, p, s', PcOf(s', p));
    } else {
      QuietSound(s, p, PcOf(s', p));
    }
  }

  // ---- Every step ----

  lemma GoSound(s: State, p: Pid, v: int)
    requires Sound(s) && Enabled(s, Go(p, v)) && !Overwrites(s, Go(p, v))
    ensures Sound(Called(s, p, v))
    ensures PcOf(Called(s, p, v), p).Died? <==> PcOf(s, p).Asleep? && !Exists(s, PcOf(s, p).id)
  {
    match PcOf(s, p)
    case Again => OpenSound(s, p);
    case Got(_) => GotSound(s, p, v);
    case Asleep(_) => GotSound(s, p, v);
    case Test(_) => TestSound(s, p, v);
    case SetVal(_) => SetValSound(s, p, v);
    case SetCount(_) => SetCountSound(s, p, v);
    case EndCreate(_) => EndCreateSound(s, p, v);
    case CloseTest(_) => CloseTestSound(s, p, v);
    case Remove(_) => RemoveSound(s, p, v);
    case Unlock(_) => UnlockSound(s, p, v);
  }

  /**
   Every step keeps the invariant. Of all the error exits of sem_create and sem_close only one
   is ever taken: by a process that was asleep on the lock of a set while that set was removed.
   */
  lemma StepSound(s: State, a: Action)
    requires Sound(s) && Enabled(s, a) && !Overwrites(s, a)
    ensures Sound(Next(s, a))
    ensures !PcOf(s, a.p).Died? ==>
      (PcOf(Next(s, a), a.p).Died? <==> a.Go? && PcOf(s, a.p).Asleep? && !Exists(s, PcOf(s, a.p).id))
  {
    match a
    case Create(p, v) => CreateSound(s, p, v);
    case Close(p) => CloseSound(s, p);
    case Go(p, v) => GoSound(s, p, v);
    case Exit(p) => ExitSound(s, p);
  }

  // ---- What the invariant means ----

  /** The lock member is 1 exactly when a process is in its critical section, and then only one is. */
  lemma LockIsCritical(s: State, p: Pid, q: Pid)
    requires Sound(s) && s.kern.Some?
    ensures s.kern.value.lock == 0 || s.kern.value.lock == 1
    ensures s.kern.value.lock == 1 <==> exists r: Pid :: InCritical(PcOf(s, r))
    ensures InCritical(PcOf(s, p)) && InCritical(PcOf(s, q)) ==> p == q
  {
    assert Alone(s, p, q);
    if r: Pid :| InCritical(PcOf(s, r)) {
      assert Alone(s, r, r);
    }
  }

  /** The members are initialised, and the set is removed, only while nobody is attached. */
  lemma OnlyUnused(s: State, p: Pid)
    requires Sound(s) && (PcOf(s, p).SetVal? || PcOf(s, p).SetCount? || PcOf(s, p).Remove?)
    ensures Exists(s, PcOf(s, p).id) && s.attached == multiset{} && forall q: Pid :: Adj(s.undo.count, q) == 0
    ensures s.init <==> PcOf(s, p).Remove?
  {
    assert ProcOk(s, p);
    forall q: Pid
      ensures Adj(s.undo.count, q) == 0
    {
      assert ProcOk(s, q);
    }
  }

  /** Reading the counter tells a new set from one in use, unless exactly BIGCOUNT are attached. */
  lemma TestIsRight(s: State, p: Pid, v: int)
    requires Sound(s) && PcOf(s, p).Test?
    ensures (PcOf(Called(s, p, v), p).SetVal? <==> !s.init) <==> !Overwrites(s, Go(p, v))
  {
    assert ProcOk(s, p);
  }

  /** Inside the critical section no system call blocks, so the lock is always given back. */
  lemma CriticalGoesOn(s: State, p: Pid, v: int)
    requires Sound(s) && InCritical(PcOf(s, p)) && |s.attached| < BIGCOUNT
    ensures Enabled(s, Go(p, v))
  {
    assert ProcOk(s, p) && Alone(s, p, p);
  }

  // ---- Runs ----

  ghost predicate IsRun(run: seq<State>, acts: seq<Action>) {
    && |run| == |acts| + 1 && run[0] == Initial()
    && forall i | 0 <= i < |acts| :: Enabled(run[i], acts[i]) && run[i + 1] == Next(run[i], acts[i])
  }

  /** Fewer than BIGCOUNT attachments at any time. */
  ghost predicate Few(run: seq<State>) {
    forall i | 0 <= i < |run| :: |run[i].attached| < BIGCOUNT
  }

  lemma {:induction false} RunSound(run: seq<State>, acts: seq<Action>, n: nat)
    requires IsRun(run, acts) && Few(run) && n < |run|
    ensures Sound(run[n])
    ensures run[n].init ==> run[n].kern.Some? && run[n].kern.value.count == BIGCOUNT - |run[n].attached| > 0
  {
    if n == 0 {
      assert forall p: Pid :: ProcOk(Initial(), p);
      assert forall p: Pid, q: Pid :: Alone(Initial(), p, q);
    } else {
      RunSound(run, acts, n - 1);
      assert Enabled(run[n - 1], acts[n - 1]) && run[n] == Next(run[n - 1], acts[n - 1]);
      StepSound(run[n - 1], acts[n - 1]);
    }
  }

  // ---- Two runs that go wrong ----

  /** A run with at most so many attachments, in which nobody has exited, and its last state. */
  ghost predicate Leads(run: seq<State>, acts: seq<Action>, s: State, most: nat) {
    && IsRun(run, acts) && (forall i | 0 <= i < |run| :: |run[i].attached| <= most) && run[|acts|] == s
    && forall i | 0 <= i < |acts| :: !acts[i].Exit?
  }

  lemma More(run: seq<State>, acts: seq<Action>, s: State, most: nat, a: Action)
    returns (run': seq<State>, acts': seq<Action>)
    requires Leads(run, acts, s, most) && Enabled(s, a) && !a.Exit? && |Next(s, a).attached| <= most
    ensures Leads(run', acts', Next(s, a), most)
  {
    run', acts' := run + [Next(s, a)], acts + [a];
    assert run'[|acts|] == s;
  }

  lemma FirstLocks() returns (run: seq<State>, acts: seq<Action>, s: State)
    ensures Leads(run, acts, s, BIGCOUNT - 1) && s.pc.Keys == {1} && s.pc[1] == SetVal(0)
    ensures s.kern == Some(Set(0, 0, 0, 1)) && s.attached == multiset{}
  {
    s := Initial();
    run, acts := [s], [];
    run, acts := More(run, acts, s, BIGCOUNT - 1, Create(1, 0));
    s := Next(s, Create(1, 0));
    for i := 0 to 3
      invariant Leads(run, acts, s, BIGCOUNT - 1) && s.pc.Keys == {1} && s.attached == multiset{}
      invariant i == 0 ==> s.pc[1].Again? && s.kern.None? && s.newId == 0
      invariant i == 1 ==> s.pc[1] == Got(0) && s.kern == Some(Set(0, 0, 0, 0))
      invariant i == 2 ==> s.pc[1] == Test(0) && s.kern == Some(Set(0, 0, 0, 1))
      invariant i == 3 ==> s.pc[1] == SetVal(0) && s.kern == Some(Set(0, 0, 0, 1))
    {
      run, acts := More(run, acts, s, BIGCOUNT - 1, Go(1, 0));
      s := Next(s, Go(1, 0));
    }
  }

  lemma FirstCreates() returns (run: seq<State>, acts: seq<Action>, s: State)
    ensures Leads(run, acts, s, BIGCOUNT - 1) && s.pc.Keys == {1} && s.pc[1].Idle?
    ensures s.kern == Some(Set(0, 0, BIGCOUNT - 1, 0)) && s.attached == multiset{1} && s.init
  {
    run, acts, s := FirstLocks();
    for i := 0 to 3
      invariant Leads(run, acts, s, BIGCOUNT - 1) && s.pc.Keys == {1}
      invariant i < 3 ==> s.attached == multiset{}
      invariant i == 0 ==> s.pc[1] == SetVal(0) && s.kern == Some(Set(0, 0, 0, 1))
      invariant i == 1 ==> s.pc[1] == SetCount(0) && s.kern == Some(Set(0, 0, 0, 1))
      invariant i == 2 ==> s.pc[1] == EndCreate(0) && s.kern == Some(Set(0, 0, BIGCOUNT, 1))
      invariant i >= 2 ==> s.init
      invariant i == 3 ==> s.pc[1].Idle? && s.kern == Some(Set(0, 0, BIGCOUNT - 1, 0)) && s.attached == multiset{1}
    {
      run, acts := More(run, acts, s, BIGCOUNT - 1, Go(1, 0));
      s := Next(s, Go(1, 0));
    }
  }

  lemma SecondSleeps() returns (run: seq<State>, acts: seq<Action>, s: State)
    ensures Leads(run, acts, s, BIGCOUNT - 1) && s.pc.Keys == {1, 2} && s.pc[1] == CloseTest(0) && s.pc[2] == Asleep(0)
    ensures s.kern == Some(Set(0, 0, BIGCOUNT, 1)) && s.attached == multiset{}
  {
    run, acts, s := FirstCreates();
    var a := [Create(2, 0), Go(2, 0), Close(1), Go(2, 0)];
    for i := 0 to 4
      invariant Leads(run, acts, s, BIGCOUNT - 1)
      invariant i == 0 ==> s.pc.Keys == {1} && s.pc[1].Idle?
      invariant i > 0 ==> s.pc.Keys == {1, 2}
      invariant i == 1 ==> s.pc[1].Idle? && s.pc[2].Again?
      invariant i == 2 ==> s.pc[1].Idle? && s.pc[2] == Got(0)
      invariant i == 3 ==> s.pc[1] == CloseTest(0) && s.pc[2] == Got(0)
      invariant i == 4 ==> s.pc[1] == CloseTest(0) && s.pc[2] == Asleep(0)
      invariant i < 3 ==> s.kern == Some(Set(0, 0, BIGCOUNT - 1, 0)) && s.attached == multiset{1}
      invariant i >= 3 ==> s.kern == Some(Set(0, 0, BIGCOUNT, 1)) && s.attached == multiset{}
    {
      run, acts := More(run, acts, s, BIGCOUNT - 1, a[i]);
      s := Next(s, a[i]);
    }
  }

  /**
   A process may fail in sem_create although it did nothing wrong: it sleeps on the lock while
   the last attached process closes and removes the set, and semop then fails with another
   error than the one for which sem_create starts again.
   */
  lemma RemovedWhileAsleep() returns (run: seq<State>, acts: seq<Action>, s: State)
    ensures Leads(run, acts, s, BIGCOUNT - 1) && PcOf(s, 2).Died? && PcOf(s, 1).Idle?
  {
    run, acts, s := SecondSleeps();
    var a := [Go(1, 0), Go(1, 0), Go(2, 0)];
    for i := 0 to 3
      invariant Leads(run, acts, s, BIGCOUNT - 1) && s.pc.Keys == {1, 2} && s.attached == multiset{}
      invariant i == 0 ==> s.pc[1] == CloseTest(0)
      invariant i == 1 ==> s.pc[1] == Remove(0)
      invariant i >= 2 ==> s.pc[1].Idle?
      invariant i < 2 ==> s.kern == Some(Set(0, 0, BIGCOUNT, 1))
      invariant i == 2 ==> s.kern.None?
      invariant if i < 3 then s.pc[2] == Asleep(0) else s.pc[2].Died?
    {
      run, acts := More(run, acts, s, BIGCOUNT - 1, a[i]);
      s := Next(s, a[i]);
    }
  }

  /** Process 1 calls sem_create once more, with the set in use. */
  lemma OneMore(run: seq<State>, acts: seq<Action>, s: State, n: nat)
    returns (run': seq<State>, acts': seq<Action>, s': State)
    requires 0 < n < BIGCOUNT && Leads(run, acts, s, BIGCOUNT) && Attached(s, n)
    ensures Leads(run', acts', s', BIGCOUNT) && Attached(s', n + 1)
  {
    run', acts' := More(run, acts, s, BIGCOUNT, Create(1, 0));
    s' := Next(s, Create(1, 0));
    for i := 0 to 4
      invariant Leads(run', acts', s', BIGCOUNT) && s'.pc.Keys == {1} && s'.init
      invariant i < 4 ==> |s'.attached| == n
      invariant i == 0 ==> s'.pc[1].Again? && s'.kern == Some(Set(0, 0, BIGCOUNT - n, 0))
      invariant i == 1 ==> s'.pc[1] == Got(0) && s'.kern == Some(Set(0, 0, BIGCOUNT - n, 0))
      invariant i == 2 ==> s'.pc[1] == Test(0) && s'.kern == Some(Set(0, 0, BIGCOUNT - n, 1))
      invariant i == 3 ==> s'.pc[1] == EndCreate(0) && s'.kern == Some(Set(0, 0, BIGCOUNT - n, 1))
      invariant i == 4 ==> Attached(s', n + 1)
    {
      run', acts' := More(run', acts', s', BIGCOUNT, Go(1, 0));
      s' := Next(s', Go(1, 0));
    }
  }

  /** Process 1 has attached n times, and is outside the library. */
  ghost predicate Attached(s: State, n: nat) {
    && s.pc.Keys == {1} && s.pc[1].Idle? && s.init && |s.attached| == n
    && s.kern == Some(Set(0, 0, BIGCOUNT - n, 0))
  }

  lemma {:induction false} AttachTimes(n: nat) returns (run: seq<State>, acts: seq<Action>, s: State)
    requires 0 < n <= BIGCOUNT
    ensures Leads(run, acts, s, BIGCOUNT) && Attached(s, n)
  {
    if n == 1 {
      run, acts, s := FirstCreates();
    } else {
      run, acts, s := AttachTimes(n - 1);
      run, acts, s := OneMore(run, acts, s, n - 1);
    }
  }

  lemma AllAttached() returns (run: seq<State>, acts: seq<Action>, s: State)
    ensures Leads(run, acts, s, BIGCOUNT) && s.init && |s.attached| == BIGCOUNT
    ensures s.kern == Some(Set(0, 0, 0, 1)) && PcOf(s, 2) == Test(0)
  {
    run, acts, s := AttachTimes(BIGCOUNT);
    var a := [Create(2, 0), Go(2, 0), Go(2, 0)];
    for i := 0 to 3
      invariant Leads(run, acts, s, BIGCOUNT) && s.init && |s.attached| == BIGCOUNT
      invariant s.kern == Some(Set(0, 0, 0, if i == 3 then 1 else 0))
      invariant PcOf(s, 2) == [Idle, Again, Got(0), Test(0)][i]
    {
      run, acts := More(run, acts, s, BIGCOUNT, a[i]);
      s := Next(s, a[i]);
    }
  }

  /**
   With BIGCOUNT attachments the counter is 0, and the next sem_create takes the set for a new
   one: a run that comes to Overwrites, and on to a counter that says nobody is attached.
   */
  lemma TakenForNew() returns (run: seq<State>, acts: seq<Action>, s: State, s': State)
    ensures Leads(run, acts, s, BIGCOUNT) && Overwrites(s, Go(2, 0)) && Enabled(s, Go(2, 0))
    ensures var t := Next(s, Go(2, 0));
            && PcOf(t, 2).SetVal? && t.init && Enabled(t, Go(2, 0))
            && var u := Next(t, Go(2, 0)); Enabled(u, Go(2, 0)) && s' == Next(u, Go(2, 0))
    ensures |s'.attached| == BIGCOUNT && s'.kern.Some? && s'.kern.value.count == BIGCOUNT
  {
    run, acts, s := AllAttached();
    s' := Next(Next(Next(s, Go(2, 0)), Go(2, 0)), Go(2, 0));
  }
}
