/**
 The theorems about interleaved runs: every run keeps the invariant and reads
 only what exists, every record is in one place, finished calls form a history
 of a plain map, and the processes never block each other for good.
 */
module DbLocksRuns {
  import opened Links
  import opened DbHash
  import opened DbChains
  import opened DbSpec
  import opened Wrappers
  import opened DbLocks
  import opened DbLocksInv
  import opened DbLocksSteps
  import opened DbLocksWrites

  // ---- Finishing a call ----

  lemma AnswerElsewhere(m: Contents, c: Call, key: string)
    ensures c.FetchCall? ==> Answer(m, c).0 == m
    ensures key != c.key ==> Same(Answer(m, c).0, m, key)
  {
  }

  lemma FinishKept(s: State, p: Pid, c: Call, reply: Reply)
    requires Sound(s) && PcOf(s, p) == Finish(c, reply)
    ensures Kept(s, FinishCall(s, p, c), p)
  {
    var t := FinishCall(s, p, c);
    forall key
      ensures KeyKept(s, t, p, key)
    {
      AnswerElsewhere(s.a.m, c, key);
    }
  }

  lemma FinishKeys(s: State, p: Pid, c: Call, reply: Reply, key: string)
    requires Sound(s) && PcOf(s, p) == Finish(c, reply)
    ensures KeySync(FinishCall(s, p, c), key)
  {
    assert SoundNow(0, s);
    assert PcOk(s, p) && LockOk(s, p) && KeySync(s, key) && ChainOk(s, ListOf(key));
    AnswerElsewhere(s.a.m, c, key);
  }

  lemma FinishSynced(s: State, p: Pid, c: Call, reply: Reply)
    requires Sound(s) && PcOf(s, p) == Finish(c, reply)
    ensures Synced(FinishCall(s, p, c)) && Owned(FinishCall(s, p, c)) && Chained(FinishCall(s, p, c))
  {
    assert SoundNow(0, s);
    var t := FinishCall(s, p, c);
    forall x: nat
      ensures CellSync(t, x) && EntrySync(t, x) && OwnOk(t, x) && PendOk(t, x) && DatSync(t, x)
    {
      assert CellSync(s, x) && EntrySync(s, x) && OwnOk(s, x) && PendOk(s, x) && DatSync(s, x);
    }
    forall d: nat, e: nat
      ensures DatApart(t, d, e)
    {
      assert DatApart(s, d, e);
    }
    forall key
      ensures KeySync(t, key)
    {
      FinishKeys(s, p, c, reply, key);
    }
    forall q: Pid
      ensures PcOwn(t, q)
    {
      assert PcOwn(s, q);
    }
    Chains(s);
    ChainsBack(t);
  }

  lemma FinishSound(s: State, p: Pid, c: Call, reply: Reply)
    requires Sound(s) && PcOf(s, p) == Finish(c, reply)
    ensures Sound(FinishCall(s, p, c))
  {
    assert SoundNow(0, s);
    var t := FinishCall(s, p, c);
    FinishSynced(s, p, c, reply);
    FinishKept(s, p, c, reply);
    ChainUnlocked(s, p, c);
    forall q: Pid
      ensures PcOk(t, q)
    {
      if q != p {
        OtherPcOk(s, t, p, q);
      }
    }
  }

  lemma BeginSound(s: State, p: Pid, c: Call)
    requires Sound(s) && PcOf(s, p) == Idle && LegalOp(c)
    ensures Sound(Begin(s, p, c))
  {
    assert SoundNow(0, s);
    var t := Begin(s, p, c);
    assert LockOk(s, p);
    forall q: Pid
      ensures LockOk(t, q)
    {
      assert LockOk(s, q);
    }
    forall l: nat, q: Pid
      ensures ReaderOk(t, l, q)
    {
      assert ReaderOk(s, l, q);
    }
    forall l: nat
      ensures ChainOk(t, l)
    {
      assert ChainOk(s, l);
    }
    forall key
      ensures KeySync(t, key)
    {
      assert KeySync(s, key) && ChainOk(s, ListOf(key));
    }
    QuietSound(s, t, p);
  }

  // ---- Every step ----

  lemma SearchStep(s: State, p: Pid)
    requires Sound(s) && Enabled(s, p)
    requires PcOf(s, p).Start? || Searching(PcOf(s, p))
    ensures Safe(s, p) && Sound(Step(s, p))
  {
    Known(s, p);
    match PcOf(s, p)
    case Start(c) => StartSound(s, p, c);
    case ReadHead(c) => ReadHeadSound(s, p, c);
    case Walk(c, from, off, k) => WalkSound(s, p, c, from, off, k);
    case FetchData(c, off, k) => FetchSound(s, p, c, off, k);
    case OverDat(c, off, k) => OverDatSound(s, p, c, off, k);
    case DelLock(c, from, off, next, k) => FreeLockSound(s, p, Some(p), DelData(c, from, off, next, k));
    case DelData(c, from, off, next, k) => DelDataSound(s, p, c, from, off, next, k);
    case Finish(c, reply) => FinishSound(s, p, c, reply);
  }

  lemma DeleteStep(s: State, p: Pid)
    requires Sound(s) && Enabled(s, p) && Deleting(PcOf(s, p))
    ensures Safe(s, p) && Sound(Step(s, p))
  {
    Known(s, p);
    match PcOf(s, p)
    case DelReadFree(c, from, off, next, k) => DelReadFreeSound(s, p, c, from, off, next, k);
    case DelRecord(c, from, off, next, k, free) => DelRecordSound(s, p, c, from, off, next, k, free);
    case DelHead(c, from, off, next, k) => DelHeadSound(s, p, c, from, off, next, k);
    case DelChain(c, from, next, k) => DelChainSound(s, p, c, from, next, k);
    case DelUnlock(c) => FreeLockSound(s, p, None, AfterDelete(c));
  }

  ghost predicate Freeing(pc: Pc) {
    pc.NewHead? || pc.NewLock? || pc.FreeHead? || pc.FreeWalk? || pc.FreeTake? || pc.FreeUnlock? || pc.ReuseDat?
  }

  lemma NewLockSound(s: State, p: Pid, c: Call, head: nat)
    requires Sound(s) && PcOf(s, p) == NewLock(c, head) && Enabled(s, p)
    ensures Sound(SetFreeLock(s, p, Some(p), FreeHead(c, head)))
  {
    Known(s, p);
    FreeLockSound(s, p, Some(p), FreeHead(c, head));
  }

  lemma FreeUnlockSound(s: State, p: Pid, c: Call, head: nat, hit: Option<nat>)
    requires Sound(s) && PcOf(s, p) == FreeUnlock(c, head, hit)
    ensures Sound(SetFreeLock(s, p, None, if hit.Some? then ReuseDat(c, head, hit.value) else DatLock(c, head)))
  {
    Known(s, p);
    FreeLockSound(s, p, None, if hit.Some? then ReuseDat(c, head, hit.value) else DatLock(c, head));
  }

  lemma FreeStep(s: State, p: Pid)
    requires Sound(s) && Enabled(s, p) && Freeing(PcOf(s, p))
    ensures Safe(s, p) && Sound(Step(s, p))
  {
    match PcOf(s, p)
    case NewHead(c) => NewHeadSound(s, p, c);
    case NewLock(c, head) => NewLockSound(s, p, c, head);
    case FreeHead(c, head) => FreeHeadSound(s, p, c, head);
    case FreeWalk(c, head, from, off, k) => FreeWalkSound(s, p, c, head, from, off, k);
    case FreeTake(c, head, from, off, next, k) => FreeTakeSound(s, p, c, head, from, off, next, k);
    case FreeUnlock(c, head, hit) =>
      FreeUnlockSound(s, p, c, head, hit);
    case ReuseDat(c, head, off) => ReuseDatSound(s, p, c, head, off);
  }

  lemma AddStep(s: State, p: Pid)
    requires Sound(s) && Enabled(s, p) && !PcOf(s, p).Start?
    requires !Searching(PcOf(s, p)) && !Deleting(PcOf(s, p)) && !Freeing(PcOf(s, p))
    ensures Safe(s, p) && Sound(Step(s, p))
  {
    match PcOf(s, p)
    case ReplaceHead(c) => ReplaceHeadSound(s, p, c);
    case ReuseIdx(c, head, off) => ReuseIdxSound(s, p, c, head, off);
    case DatLock(c, head) => DatLockSound(s, p, c, head);
    case DatWrite(c, head) => DatWriteSound(s, p, c, head);
    case DatUnlock(c, head, d) => DatUnlockSound(s, p, c, head, d);
    case IdxLock(c, head, d) => IdxLockSound(s, p, c, head, d);
    case IdxWrite(c, head, d) => IdxWriteSound(s, p, c, head, d);
    case IdxUnlock(c, off) => IdxUnlockSound(s, p, c, off);
    case LinkIn(c, off) => LinkInSound(s, p, c, off);
  }

  /** Whatever process moves next, it touches only what exists, and the invariant holds again. */
  lemma StepSound(s: State, p: Pid)
    requires Sound(s) && Enabled(s, p)
    ensures Safe(s, p) && Sound(Step(s, p))
  {
    var pc := PcOf(s, p);
    if pc.Start? || Searching(pc) {
      SearchStep(s, p);
    } else if Deleting(pc) {
      DeleteStep(s, p);
    } else if Freeing(pc) {
      FreeStep(s, p);
    } else {
      AddStep(s, p);
    }
  }

  // ---- Runs ----

  datatype Action = Begins(p: Pid, c: Call) | Moves(p: Pid)

  /** One action: an idle process begins a call, or a process at work takes a step. */
  ghost predicate Acts(s: State, a: Action, t: State) {
    match a
    case Begins(p, c) => PcOf(s, p) == Idle && LegalOp(c) && t == Begin(s, p, c)
    case Moves(p) => Enabled(s, p) && Safe(s, p) && t == Step(s, p)
  }

  ghost predicate IsRun(run: seq<State>, acts: seq<Action>) {
    && |run| == |acts| + 1 && run[0] == Initial()
    && forall i | 0 <= i < |acts| :: Acts(run[i], acts[i], run[i + 1])
  }

  /** In every state of every run the invariant holds, and no step is stopped by a missing record. */
  lemma {:induction false} RunSound(run: seq<State>, acts: seq<Action>, n: nat)
    requires IsRun(run, acts) && n < |run|
    ensures Sound(run[n])
    ensures forall p: Pid | Enabled(run[n], p) :: Safe(run[n], p)
  {
    if n == 0 {
      InitialSound();
    } else {
      RunSound(run, acts, n - 1);
      assert Acts(run[n - 1], acts[n - 1], run[n]);
      match acts[n - 1]
      case Begins(p, c) => BeginSound(run[n - 1], p, c);
      case Moves(p) => StepSound(run[n - 1], p);
    }
    forall p: Pid | Enabled(run[n], p)
      ensures Safe(run[n], p)
    {
      StepSound(run[n], p);
    }
  }

  // ---- Every record is in one place ----

  /** A record is on one list, at one place of it, or with the one process that has taken it, never both. */
  lemma OnePlace(s: State, o: nat)
    requires Sound(s) && o in s.f.rec
    ensures On(s.a.lists, o) <==> o !in s.a.owner
    ensures forall l: nat, k: nat, m: nat, j: nat |
              && l < |s.a.lists| && k < |s.a.lists[l]| && s.a.lists[l][k] == o
              && m < |s.a.lists| && j < |s.a.lists[m]| && s.a.lists[m][j] == o :: l == m && k == j
    ensures forall p: Pid :: PrivateOf(PcOf(s, p)) == Some(o) <==> o in s.a.owner && s.a.owner[o] == p
  {
    assert SoundNow(0, s);
    Chains(s);
    assert EntrySync(s, o) && CellSync(s, o) && OwnOk(s, o);
    assert Accounted(s.a.im, s.a.lists, s.a.owner.Keys, o);
    forall l: nat, k: nat, m: nat, j: nat |
      && l < |s.a.lists| && k < |s.a.lists[l]| && s.a.lists[l][k] == o
      && m < |s.a.lists| && j < |s.a.lists[m]| && s.a.lists[m][j] == o
      ensures l == m && k == j
    {
      assert Differ(s.a.lists, l, k, m, j);
    }
    forall p: Pid
      ensures PrivateOf(PcOf(s, p)) == Some(o) <==> o in s.a.owner && s.a.owner[o] == p
    {
      assert PcOwn(s, p);
    }
  }

  // ---- Finished calls form a history of a plain map ----

  datatype Event = Event(c: Call, reply: Reply)

  /** The calls finished by the first n actions, in the order in which they unlocked their chains. */
  ghost function History(run: seq<State>, acts: seq<Action>, n: nat): seq<Event>
    requires |run| == |acts| + 1 && n <= |acts|
  {
    if n == 0 then [] else
      var h := History(run, acts, n - 1);
      var a := acts[n - 1];
      if Finishes(run[n - 1], a)
      then h + [Event(PcOf(run[n - 1], a.p).c, PcOf(run[n - 1], a.p).reply)] else h
  }

  ghost function Calls(h: seq<Event>): (cs: seq<Call>)
    ensures |cs| == |h| && forall i | 0 <= i < |h| :: cs[i] == h[i].c
  {
    seq(|h|, i requires 0 <= i < |h| => h[i].c)
  }

  lemma {:induction false} MapAfterPrefix(m: Contents, cs: seq<Call>, ds: seq<Call>, n: nat)
    requires n <= |cs| && n <= |ds| && forall i | 0 <= i < n :: cs[i] == ds[i]
    ensures MapAfter(m, cs, n) == MapAfter(m, ds, n)
  {
    if n > 0 {
      MapAfterPrefix(m, cs, ds, n - 1);
    }
  }

  ghost predicate Finishes(s: State, a: Action) { a.Moves? && PcOf(s, a.p).Finish? }

  /** An action changes the abstract map only by finishing a call, and then as the map itself answers it. */
  lemma ActOnMap(s: State, a: Action, t: State)
    requires Sound(s) && Acts(s, a, t)
    ensures !Finishes(s, a) ==> t.a.m == s.a.m
    ensures Finishes(s, a) ==> (t.a.m, PcOf(s, a.p).reply) == Answer(s.a.m, PcOf(s, a.p).c)
  {
    assert SoundNow(0, s);
    assert PcOk(s, a.p);
  }

  /** Made one at a time on an empty map, the calls get the replies they got, and leave m. */
  ghost predicate LegalHistory(h: seq<Event>, m: Contents) {
    m == MapAfter(map[], Calls(h), |h|) && forall i | 0 <= i < |h| :: LegalEvent(h, i)
  }

  ghost predicate LegalEvent(h: seq<Event>, i: nat)
    requires i < |h|
  {
    h[i].reply == Answer(MapAfter(map[], Calls(h), i), h[i].c).1
  }

  lemma ExtendHistory(h: seq<Event>, m: Contents, e: Event, m': Contents)
    requires LegalHistory(h, m) && (m', e.reply) == Answer(m, e.c)
    ensures LegalHistory(h + [e], m')
  {
    var g := h + [e];
    MapAfterPrefix(map[], Calls(g), Calls(h), |h|);
    forall i | 0 <= i < |g|
      ensures LegalEvent(g, i)
    {
      MapAfterPrefix(map[], Calls(g), Calls(h), i);
      assert i < |h| ==> LegalEvent(h, i);
    }
  }

  /**
   In every run the finished calls form a legal history of a plain map. A call
   stands in the history between its first and its last step, namely where it
   unlocks its chain, so it behaves as if run alone while it held the lock.
   */
  lemma {:induction false} Linearizable(run: seq<State>, acts: seq<Action>, n: nat)
    requires IsRun(run, acts) && n <= |acts|
    ensures LegalHistory(History(run, acts, n), run[n].a.m)
  {
    if n > 0 {
      Linearizable(run, acts, n - 1);
      RunSound(run, acts, n - 1);
      assert Acts(run[n - 1], acts[n - 1], run[n]);
      ActOnMap(run[n - 1], acts[n - 1], run[n]);
      if Finishes(run[n - 1], acts[n - 1]) {
        var pc := PcOf(run[n - 1], acts[n - 1].p);
        ExtendHistory(History(run, acts, n - 1), run[n - 1].a.m, Event(pc.c, pc.reply), run[n].a.m);
      }
    }
  }

  lemma SameMaps(a: Contents, b: Contents)
    requires forall key :: Same(a, b, key)
    ensures a == b
  {
    forall key
      ensures key in a <==> key in b
    {
      assert Same(a, b, key);
    }
    assert forall key | key in a :: Same(a, b, key);
  }

  /** When all processes are idle, the pointers in the file thread an image that is a database of the map. */
  lemma Quiescent(s: State)
    requires Sound(s) && forall p: Pid :: PcOf(s, p) == Idle
    ensures s.f.ptr == s.a.im.ptr && Inv(s.a.im, s.a.lists, s.a.m, {})
  {
    assert SoundNow(0, s);
    Chains(s);
    forall key
      ensures Same(s.a.em, s.a.m, key)
    {
      assert KeySync(s, key) && ChainOk(s, ListOf(key));
    }
    SameMaps(s.a.em, s.a.m);
    forall o: nat
      ensures o !in s.a.owner && (o in s.f.ptr <==> o in s.a.im.ptr)
      ensures o in s.f.ptr ==> s.f.ptr[o] == s.a.im.ptr[o]
    {
      assert OwnOk(s, o) && PendOk(s, o) && CellSync(s, o);
    }
    assert s.a.owner.Keys == {};
    assert s.f.ptr.Keys == s.a.im.ptr.Keys;
  }

  // ---- Nobody waits for ever ----

  /** Locks are taken chain first; inside it a process holds at most one more lock, and waits for none then. */
  lemma LockOrder(s: State, p: Pid)
    requires Sound(s) && !PcOf(s, p).Idle? && !Enabled(s, p)
    ensures PcOf(s, p).Start? || ChainHeld(PcOf(s, p))
    ensures s.lk.freeLock != Some(p) && s.lk.datLock != Some(p) && s.lk.idxLock != Some(p)
  {
    Known(s, p);
  }

  /** While some process is at work, some process at work can take a step. */
  lemma NoDeadlock(s: State, p: Pid) returns (q: Pid)
    requires Sound(s) && PcOf(s, p) != Idle
    ensures PcOf(s, q) != Idle && Enabled(s, q)
  {
    assert SoundNow(0, s);
    if s.lk.idxLock.Some? {
      q := s.lk.idxLock.value;
      assert LockOk(s, q);
    } else if s.lk.datLock.Some? {
      q := s.lk.datLock.value;
      assert LockOk(s, q);
    } else if s.lk.freeLock.Some? {
      q := s.lk.freeLock.value;
      assert LockOk(s, q);
    } else if PcOf(s, p).Start? && L(PcOf(s, p).c) in s.lk.wr {
      q := s.lk.wr[L(PcOf(s, p).c)];
      assert ChainOk(s, L(PcOf(s, p).c));
    } else if PcOf(s, p).Start? && Readers(s, L(PcOf(s, p).c)) != {} {
      q :| q in Readers(s, L(PcOf(s, p).c));
      assert ReaderOk(s, L(PcOf(s, p).c), q);
    } else {
      q := p;
    }
  }
}
