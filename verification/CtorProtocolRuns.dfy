/**
 Every run of constructors and destructors keeps the invariant; what follows
 from it about starts, nesting, the list of destructors and dependencies.
 */
module CtorProtocolRuns {
  import opened DsoGraph
  import opened CtorQueue
  import opened CtorProtocol

  // ---- The steps ----

  /** A frame change that leaves visitors and the constructed set alone. */
  lemma SameDsos(s: State, s': State)
    requires forall p: nat :: DsoOk(s, p)
    requires s'.visitor == s.visitor && s'.constructed == s.constructed && s'.started == s.started
    requires forall t: Tid, k: nat, p: nat :: Runs(s, t, k, p) ==> Runs(s', t, k, p)
    ensures forall p: nat :: DsoOk(s', p)
  {
    forall p: nat
      ensures DsoOk(s', p)
    {
      assert DsoOk(s, p);
      if p in s.visitor {
        var k: nat :| Runs(s, s.visitor[p], k, p);
        assert Runs(s', s.visitor[p], k, p);
      }
    }
  }

  lemma EnterSound(s: State, t: Tid, queue: seq<nat>, finis: Finis)
    requires Sound(s, finis) && Enabled(s, Enter(t, queue))
    ensures Sound(Next(s, Enter(t, queue), finis), finis)
  {
    var s' := Next(s, Enter(t, queue), finis);
    forall q: Tid, k: nat
      ensures FrameOk(s', q, k)
    {
      assert FrameOk(s, q, k);
    }
    forall q: Tid, k: nat, l: nat, p: nat
      ensures RunsOnce(s', q, k, l, p)
    {
      assert RunsOnce(s, q, k, l, p);
      assert forall i: nat | Runs(s', q, i, p) :: Runs(s, q, i, p);
    }
    SameDsos(s, s');
  }

  lemma PassSound(s: State, t: Tid, finis: Finis)
    requires Sound(s, finis) && Enabled(s, Pass(t))
    ensures Sound(Next(s, Pass(t), finis), finis)
  {
    var s' := Next(s, Pass(t), finis);
    forall q: Tid, k: nat
      ensures FrameOk(s', q, k)
    {
      assert FrameOk(s, q, k);
    }
    forall q: Tid, k: nat, l: nat, p: nat
      ensures RunsOnce(s', q, k, l, p)
    {
      assert RunsOnce(s, q, k, l, p);
      assert forall i: nat | Runs(s', q, i, p) :: Runs(s, q, i, p);
    }
    SameDsos(s, s');
  }

  lemma LeaveSound(s: State, t: Tid, finis: Finis)
    requires Sound(s, finis) && Enabled(s, Leave(t))
    ensures Sound(Next(s, Leave(t), finis), finis)
  {
    var s' := Next(s, Leave(t), finis);
    forall q: Tid, k: nat
      ensures FrameOk(s', q, k)
    {
      assert FrameOk(s, q, k);
    }
    forall q: Tid, k: nat, l: nat, p: nat
      ensures RunsOnce(s', q, k, l, p)
    {
      assert RunsOnce(s, q, k, l, p);
      assert forall i: nat | Runs(s', q, i, p) :: Runs(s, q, i, p);
    }
    SameDsos(s, s');
  }

  lemma StartFrames(s: State, t: Tid, finis: Finis, q: Tid, k: nat)
    requires Sound(s, finis) && Enabled(s, Start(t))
    ensures FrameOk(Next(s, Start(t), finis), q, k)
  {
    assert FrameOk(s, q, k);
    var s' := Next(s, Start(t), finis);
    if k < |FramesOf(s', q)| {
      assert forall j | 0 <= j < FramesOf(s, q)[k].i :: Done(s', q, FramesOf(s, q)[k].queue[j]);
    }
  }

  /** The DSO that is started was in no frame's constructor. */
  lemma StartRunsOnce(s: State, t: Tid, finis: Finis, q: Tid, k: nat, l: nat, p: nat)
    requires Sound(s, finis) && Enabled(s, Start(t))
    ensures RunsOnce(Next(s, Start(t), finis), q, k, l, p)
  {
    assert RunsOnce(s, q, k, l, p) && FrameOk(s, q, k) && FrameOk(s, q, l);
  }

  lemma StartDsos(s: State, t: Tid, finis: Finis, p: nat)
    requires Sound(s, finis) && Enabled(s, Start(t))
    ensures DsoOk(Next(s, Start(t), finis), p)
  {
    var s' := Next(s, Start(t), finis);
    assert DsoOk(s, p);
    if p in s.visitor {
      var k: nat :| Runs(s, s.visitor[p], k, p);
      assert Runs(s', s.visitor[p], k, p);
    } else if p in s'.visitor {
      assert Runs(s', t, |FramesOf(s, t)| - 1, p);
    }
  }

  lemma StartSound(s: State, t: Tid, finis: Finis)
    requires Sound(s, finis) && Enabled(s, Start(t))
    ensures Sound(Next(s, Start(t), finis), finis)
  {
    var s' := Next(s, Start(t), finis);
    var p := Top(s, t).queue[Top(s, t).i];
    forall q: Tid, k: nat
      ensures FrameOk(s', q, k)
    {
      StartFrames(s, t, finis, q, k);
    }
    forall q: Tid, k: nat, l: nat, d: nat
      ensures RunsOnce(s', q, k, l, d)
    {
      StartRunsOnce(s, t, finis, q, k, l, d);
    }
    forall d: nat
      ensures DsoOk(s', d)
    {
      StartDsos(s, t, finis, d);
    }
    assert DsoOk(s, p) && p !in s.started;
    assert s'.started[..|s.started|] == s.started;
    assert NoDup(s'.started) by {
      assert forall i | 0 <= i < |s.started| :: s.started[i] in s.started;
    }
  }

  lemma {:induction false} BuiltSame(list: seq<nat>, c: set<nat>, c': set<nat>)
    requires forall p | p in list :: p in c <==> p in c'
    ensures Built(list, c) == Built(list, c')
  {
    if list != [] {
      BuiltSame(list[..|list| - 1], c, c');
    }
  }

  lemma FinishFrames(s: State, t: Tid, finis: Finis, q: Tid, k: nat)
    requires Sound(s, finis) && Enabled(s, Finish(t))
    ensures FrameOk(Next(s, Finish(t), finis), q, k)
  {
    var s' := Next(s, Finish(t), finis);
    var top := |FramesOf(s, t)| - 1;
    var p := Top(s, t).queue[Top(s, t).i];
    assert FrameOk(s, q, k) && FrameOk(s, t, top) && RunsOnce(s, t, k, top, p);
    if k < |FramesOf(s', q)| {
      assert Runs(s, t, top, p);
      assert q == t && FramesOf(s, t)[k].running && k != top ==> Runs(s, t, k, FramesOf(s, t)[k].queue[FramesOf(s, t)[k].i]);
      assert forall j | 0 <= j < FramesOf(s, q)[k].i :: Done(s', q, FramesOf(s, q)[k].queue[j]);
    }
  }

  lemma FinishDsos(s: State, t: Tid, finis: Finis, d: nat)
    requires Sound(s, finis) && Enabled(s, Finish(t))
    ensures DsoOk(Next(s, Finish(t), finis), d)
  {
    var s' := Next(s, Finish(t), finis);
    assert FrameOk(s, t, |FramesOf(s, t)| - 1);
    assert DsoOk(s, d);
    if d in s'.visitor {
      var k: nat :| Runs(s, s.visitor[d], k, d);
      assert Runs(s', s.visitor[d], k, d);
    }
  }

  /** Finishing a constructor does not touch what the exiting thread has passed. */
  lemma FinishExit(s: State, t: Tid, finis: Finis)
    requires Sound(s, finis) && Enabled(s, Finish(t))
    ensures ExitOk(Next(s, Finish(t), finis))
  {
    var s' := Next(s, Finish(t), finis);
    var p := Top(s, t).queue[Top(s, t).i];
    assert FrameOk(s, t, |FramesOf(s, t)| - 1) && DsoOk(s, p);
    if s.exit.Exiting? {
      var passed := s.fini[..s.exit.pos];
      forall d | d in passed
        ensures d in s.constructed <==> d in s'.constructed
      {
        var k :| 0 <= k < |passed| && passed[k] == d;
        assert Done(s, s.exit.t, s.fini[k]);
      }
      BuiltSame(passed, s.constructed, s'.constructed);
      forall k | 0 <= k < s.exit.pos
        ensures Done(s', s.exit.t, s'.fini[k])
      {
        assert Done(s, s.exit.t, s.fini[k]);
      }
    }
  }

  lemma FinishSound(s: State, t: Tid, finis: Finis)
    requires Sound(s, finis) && Enabled(s, Finish(t))
    ensures Sound(Next(s, Finish(t), finis), finis)
  {
    var s' := Next(s, Finish(t), finis);
    forall q: Tid, k: nat
      ensures FrameOk(s', q, k)
    {
      FinishFrames(s, t, finis, q, k);
    }
    forall q: Tid, k: nat, l: nat, p: nat
      ensures RunsOnce(s', q, k, l, p)
    {
      assert RunsOnce(s, q, k, l, p);
      assert forall i: nat | Runs(s', q, i, p) :: Runs(s, q, i, p);
    }
    forall d: nat
      ensures DsoOk(s', d)
    {
      FinishDsos(s, t, finis, d);
    }
    FinishExit(s, t, finis);
  }

  lemma {:induction false} FiniStarted(started: seq<nat>, finis: Finis, k: nat)
    requires k < |FiniList(started, finis)|
    ensures FiniList(started, finis)[k] in started && FiniList(started, finis)[k] in finis
  {
    var n := |started| - 1;
    var own := if started[n] in finis then 1 else 0;
    if k >= own {
      FiniStarted(started[..n], finis, k - own);
    }
  }

  lemma ExitSound(s: State, t: Tid, finis: Finis)
    requires Sound(s, finis) && Enabled(s, BeginExit(t))
    ensures Sound(Next(s, BeginExit(t), finis), finis)
  {
    var s' := Next(s, BeginExit(t), finis);
    SameFrames(s, s');
    SameDsos(s, s');
  }

  lemma SameFrames(s: State, s': State)
    requires forall t: Tid, k: nat :: FrameOk(s, t, k)
    requires forall t: Tid, k: nat, l: nat, p: nat :: RunsOnce(s, t, k, l, p)
    requires s'.frames == s.frames && s'.visitor == s.visitor && s'.constructed == s.constructed
    ensures forall t: Tid, k: nat :: FrameOk(s', t, k)
    ensures forall t: Tid, k: nat, l: nat, p: nat :: RunsOnce(s', t, k, l, p)
    ensures forall t: Tid, k: nat, p: nat :: Runs(s, t, k, p) ==> Runs(s', t, k, p)
  {
    forall t: Tid, k: nat
      ensures FrameOk(s', t, k)
    {
      assert FrameOk(s, t, k);
      if k < |FramesOf(s', t)| {
        assert forall j | 0 <= j < FramesOf(s, t)[k].i :: Done(s', t, FramesOf(s, t)[k].queue[j]);
      }
    }
    forall t: Tid, k: nat, l: nat, p: nat
      ensures RunsOnce(s', t, k, l, p)
    {
      assert RunsOnce(s, t, k, l, p);
    }
  }

  lemma DestroySound(s: State, t: Tid, finis: Finis)
    requires Sound(s, finis) && Enabled(s, Destroy(t))
    ensures Sound(Next(s, Destroy(t), finis), finis)
  {
    var s' := Next(s, Destroy(t), finis);
    var pos := s.exit.pos;
    SameFrames(s, s');
    SameDsos(s, s');
    FiniStarted(s.started, finis, pos);
    assert DsoOk(s, s.fini[pos]);
    assert s.fini[..pos + 1][..pos] == s.fini[..pos];
    forall k | 0 <= k < pos + 1
      ensures Done(s', t, s'.fini[k])
    {
      assert k < pos ==> Done(s, t, s.fini[k]);
    }
  }

  lemma StepSound(s: State, a: Action, finis: Finis)
    requires Sound(s, finis) && Enabled(s, a)
    ensures Sound(Next(s, a, finis), finis)
  {
    match a
    case Enter(t, queue) => EnterSound(s, t, queue, finis);
    case Pass(t) => PassSound(s, t, finis);
    case Start(t) => StartSound(s, t, finis);
    case Finish(t) => FinishSound(s, t, finis);
    case Leave(t) => LeaveSound(s, t, finis);
    case BeginExit(t) => ExitSound(s, t, finis);
    case Destroy(t) => DestroySound(s, t, finis);
  }

  // ---- Runs ----

  ghost predicate IsRun(run: seq<State>, acts: seq<Action>, finis: Finis) {
    && |run| == |acts| + 1 && run[0] == Initial()
    && forall i | 0 <= i < |acts| :: Enabled(run[i], acts[i]) && run[i + 1] == Next(run[i], acts[i], finis)
  }

  lemma {:induction false} RunSound(run: seq<State>, acts: seq<Action>, finis: Finis, n: nat)
    requires IsRun(run, acts, finis) && n < |run|
    ensures Sound(run[n], finis)
  {
    if n > 0 {
      RunSound(run, acts, finis, n - 1);
      assert Enabled(run[n - 1], acts[n - 1]) && run[n] == Next(run[n - 1], acts[n - 1], finis);
      StepSound(run[n - 1], acts[n - 1], finis);
    } else {
      var s := Initial();
      assert forall t: Tid, k: nat :: FrameOk(s, t, k);
      assert forall t: Tid, k: nat, l: nat, p: nat :: RunsOnce(s, t, k, l, p);
      assert forall p: nat :: DsoOk(s, p);
    }
  }

  lemma {:induction false} HistoryGrows(run: seq<State>, acts: seq<Action>, finis: Finis, m: nat, n: nat)
    requires IsRun(run, acts, finis) && m <= n < |run|
    ensures run[m].started <= run[n].started
  {
    if m < n {
      HistoryGrows(run, acts, finis, m, n - 1);
      assert Enabled(run[n - 1], acts[n - 1]) && run[n] == Next(run[n - 1], acts[n - 1], finis);
    }
  }

  /** The DSO at which a thread's topmost queue stands. */
  ghost function Entry(s: State, t: Tid): nat
    requires FramesOf(s, t) != [] && Top(s, t).i < |Top(s, t).queue|
  {
    Top(s, t).queue[Top(s, t).i]
  }

  /** No two starts, by whatever threads and at whatever depth, are of the same DSO. */
  lemma StartsDiffer(run: seq<State>, acts: seq<Action>, finis: Finis, m: nat, n: nat)
    requires IsRun(run, acts, finis) && m < n < |acts| && acts[m].Start? && acts[n].Start?
    ensures AtEntry(run[m], acts[m].t) && AtEntry(run[n], acts[n].t)
    ensures Entry(run[m], acts[m].t) != Entry(run[n], acts[n].t)
  {
    assert Enabled(run[m], acts[m]) && run[m + 1] == Next(run[m], acts[m], finis);
    assert Enabled(run[n], acts[n]);
    HistoryGrows(run, acts, finis, m + 1, n);
    RunSound(run, acts, finis, n);
    var p := Entry(run[m], acts[m].t);
    assert p == run[m + 1].started[|run[m].started|] && p == run[n].started[|run[m].started|];
    assert DsoOk(run[n], p);
  }

  /** A thread starts a DSO only when every earlier one of its queue is constructed, or by itself being so. */
  lemma EarlierDone(s: State, t: Tid, finis: Finis, j: nat)
    requires Sound(s, finis) && Enabled(s, Start(t)) && j < Top(s, t).i
    ensures Done(s, t, Top(s, t).queue[j])
  {
    assert FrameOk(s, t, |FramesOf(s, t)| - 1);
  }

  /**
   With a queue in the order that QueueCtors gives, a DSO is started only when each of its
   dependencies that does not depend on it in turn is constructed or under way in the thread.
   */
  lemma DependenciesFirst(s: State, t: Tid, finis: Finis, g: Graph, root: nat, v: nat)
    requires Sound(s, finis) && Enabled(s, Start(t)) && Ordered(g, root, Top(s, t).queue)
    requires Needs(g, Entry(s, t), v) && !Reach(g, v, Entry(s, t))
    ensures Done(s, t, v)
  {
    var f := Top(s, t);
    assert BeforeAt(g, f.queue, f.i, v);
    var j :| 0 <= j < f.i && f.queue[..f.i][j] == v;
    EarlierDone(s, t, finis, j);
  }

  // ---- The order of destructors ----

  ghost predicate Before(list: seq<nat>, x: nat, y: nat) {
    exists i, j :: 0 <= i < j < |list| && list[i] == x && list[j] == y
  }

  lemma {:induction false} FiniReversed(started: seq<nat>, finis: Finis, x: nat, y: nat)
    requires Before(FiniList(started, finis), x, y)
    ensures Before(started, y, x)
  {
    var l := FiniList(started, finis);
    var i, j :| 0 <= i < j < |l| && l[i] == x && l[j] == y;
    var n := |started| - 1;
    var rest := FiniList(started[..n], finis);
    var own := if started[n] in finis then 1 else 0;
    if i >= own {
      assert rest[i - own] == x && rest[j - own] == y && Before(rest, x, y);
      FiniReversed(started[..n], finis, x, y);
      var a, b :| 0 <= a < b < n && started[..n][a] == y && started[..n][b] == x;
      assert started[a] == y && started[b] == x;
    } else {
      FiniStarted(started[..n], finis, j - own);
      var a :| 0 <= a < n && started[..n][a] == y;
      assert started[a] == y && started[n] == x;
    }
  }

  lemma {:induction false} BuiltIn(list: seq<nat>, c: set<nat>, k: nat)
    requires k < |Built(list, c)|
    ensures Built(list, c)[k] in list && Built(list, c)[k] in c
  {
    var n := |list| - 1;
    if k < |Built(list[..n], c)| {
      BuiltIn(list[..n], c, k);
    }
  }

  lemma {:induction false} BuiltBefore(list: seq<nat>, c: set<nat>, x: nat, y: nat)
    requires Before(Built(list, c), x, y)
    ensures Before(list, x, y)
  {
    var l := Built(list, c);
    var i, j :| 0 <= i < j < |l| && l[i] == x && l[j] == y;
    var n := |list| - 1;
    var rest := Built(list[..n], c);
    if j < |rest| {
      assert rest[i] == x && rest[j] == y && Before(rest, x, y);
      BuiltBefore(list[..n], c, x, y);
      var a, b :| 0 <= a < b < n && list[..n][a] == x && list[..n][b] == y;
      assert list[a] == x && list[b] == y;
    } else {
      BuiltIn(list[..n], c, i);
      var a :| 0 <= a < n && list[..n][a] == x;
      assert list[a] == x && list[n] == y;
    }
  }

  lemma Twice(list: seq<nat>, x: nat)
    requires NoDup(list)
    ensures !Before(list, x, x)
  {
  }

  /** The fini list holds each DSO at most once, and only started DSOs that have destructors. */
  lemma FiniOnce(s: State, finis: Finis, k: nat, l: nat)
    requires Sound(s, finis) && k < l < |s.fini|
    ensures s.fini[k] != s.fini[l] && s.fini[k] in s.started && s.fini[k] in finis
    ensures Before(s.started, s.fini[l], s.fini[k])
  {
    assert Before(s.fini, s.fini[k], s.fini[l]);
    FiniReversed(s.started, finis, s.fini[k], s.fini[l]);
    FiniStarted(s.started, finis, k);
    Twice(s.started, s.fini[k]);
  }

  /** Destructors run for constructed DSOs only, once each, in the reverse of the order of starts. */
  lemma DestructorOrder(s: State, finis: Finis, k: nat, l: nat)
    requires Sound(s, finis) && k < |s.destroyed| && l < |s.destroyed|
    ensures s.destroyed[k] in s.constructed && s.destroyed[k] in finis
    ensures k < l ==> s.destroyed[k] != s.destroyed[l] && Before(s.started, s.destroyed[l], s.destroyed[k])
  {
    var passed := s.fini[..s.exit.pos];
    BuiltIn(passed, s.constructed, k);
    var i :| 0 <= i < |passed| && passed[i] == s.destroyed[k];
    FiniStarted(s.started, finis, i);
    if k < l {
      assert Before(s.destroyed, s.destroyed[k], s.destroyed[l]);
      BuiltBefore(passed, s.constructed, s.destroyed[k], s.destroyed[l]);
      var a, b :| 0 <= a < b < |passed| && passed[a] == s.destroyed[k] && passed[b] == s.destroyed[l];
      FiniOnce(s, finis, a, b);
    }
  }

  /** At the end of the list every DSO with destructors has been destroyed, or the exit came from inside it. */
  lemma DestructorsAll(s: State, finis: Finis, p: nat)
    requires Sound(s, finis) && s.exit.Exiting? && s.exit.pos == |s.fini| && p in s.fini
    ensures p in s.destroyed || (p in s.visitor && s.visitor[p] == s.exit.t)
  {
    var k :| 0 <= k < |s.fini| && s.fini[k] == p;
    assert Done(s, s.exit.t, s.fini[k]);
    assert s.fini[..s.exit.pos] == s.fini;
    if p in s.constructed {
      BuiltAll(s.fini, s.constructed, k);
    }
  }

  lemma {:induction false} BuiltAll(list: seq<nat>, c: set<nat>, k: nat)
    requires k < |list| && list[k] in c
    ensures list[k] in Built(list, c)
  {
    var n := |list| - 1;
    if k < n {
      BuiltAll(list[..n], c, k);
    }
  }
}
