/**
 The print queue: a doubly linked list of jobs, and the protocol between the
 threads that add jobs and the one printer thread that takes them off the head,
 and puts a job back on the head when it cannot be printed yet.
 */
module JobQueue {
  import Links

  // ---- The list ----

  /** The links of the job at place k lead to its neighbours; 0 is the null pointer. */
  ghost predicate LinksAt(next: map<nat, nat>, prev: map<nat, nat>, jobs: seq<nat>, k: int) {
    0 <= k < |jobs| ==>
      && jobs[k] != 0 && jobs[k] in next && jobs[k] in prev
      && next[jobs[k]] == (if k + 1 < |jobs| then jobs[k + 1] else 0)
      && prev[jobs[k]] == (if k > 0 then jobs[k - 1] else 0)
  }

  ghost predicate Differ(jobs: seq<nat>, i: int, j: int) {
    0 <= i < |jobs| && 0 <= j < |jobs| && jobs[i] == jobs[j] ==> i == j
  }

  ghost predicate Spells(head: nat, tail: nat, next: map<nat, nat>, prev: map<nat, nat>, jobs: seq<nat>) {
    && head == (if jobs == [] then 0 else jobs[0])
    && tail == (if jobs == [] then 0 else jobs[|jobs| - 1])
    && (forall k: int :: LinksAt(next, prev, jobs, k))
    && (forall i: int, j: int :: Differ(jobs, i, j))
  }

  lemma AddSpells(head: nat, tail: nat, next: map<nat, nat>, prev: map<nat, nat>, jobs: seq<nat>, jp: nat)
    requires Spells(head, tail, next, prev, jobs) && jp != 0 && jp !in jobs
    ensures tail == 0 <==> jobs == []
    ensures var n := if tail == 0 then next[jp := 0] else next[jp := 0][tail := jp];
      Spells(if tail == 0 then jp else head, jp, n, prev[jp := tail], jobs + [jp])
  {
    var n, p, l := if tail == 0 then next[jp := 0] else next[jp := 0][tail := jp], prev[jp := tail], jobs + [jp];
    assert LinksAt(next, prev, jobs, |jobs| - 1);
    assert forall i | 0 <= i < |jobs| :: jobs[i] in jobs;
    forall k: int
      ensures LinksAt(n, p, l, k)
    {
      assert LinksAt(next, prev, jobs, k) && Differ(jobs, k, |jobs| - 1);
    }
    forall i: int, j: int
      ensures Differ(l, i, j)
    {
      assert Differ(jobs, i, j);
    }
  }

  lemma ReplaceSpells(head: nat, tail: nat, next: map<nat, nat>, prev: map<nat, nat>, jobs: seq<nat>, jp: nat)
    requires Spells(head, tail, next, prev, jobs) && jp != 0 && jp !in jobs
    ensures head == 0 <==> jobs == []
    ensures var p := if head == 0 then prev[jp := 0] else prev[jp := 0][head := jp];
      Spells(jp, if head == 0 then jp else tail, next[jp := head], p, [jp] + jobs)
  {
    var n, p, l := next[jp := head], if head == 0 then prev[jp := 0] else prev[jp := 0][head := jp], [jp] + jobs;
    assert LinksAt(next, prev, jobs, 0);
    assert forall i | 0 <= i < |jobs| :: jobs[i] in jobs;
    forall k: int
      ensures LinksAt(n, p, l, k)
    {
      assert LinksAt(next, prev, jobs, k - 1) && Differ(jobs, k - 1, 0);
    }
    forall i: int, j: int
      ensures Differ(l, i, j)
    {
      assert Differ(jobs, i - 1, j - 1);
    }
  }

  lemma Neighbours(head: nat, tail: nat, next: map<nat, nat>, prev: map<nat, nat>, jobs: seq<nat>, k: nat)
    requires Spells(head, tail, next, prev, jobs) && k < |jobs|
    ensures jobs[k] in next && jobs[k] in prev && next[jobs[k]] != jobs[k] && prev[jobs[k]] != jobs[k]
    ensures next[jobs[k]] == 0 <==> k == |jobs| - 1
    ensures prev[jobs[k]] == 0 <==> k == 0
  {
    assert LinksAt(next, prev, jobs, k) && LinksAt(next, prev, jobs, k + 1) && LinksAt(next, prev, jobs, k - 1);
    assert Differ(jobs, k, k + 1) && Differ(jobs, k, k - 1);
  }

  lemma RemoveSpells(head: nat, tail: nat, next: map<nat, nat>, prev: map<nat, nat>, jobs: seq<nat>, k: nat)
    requires Spells(head, tail, next, prev, jobs) && k < |jobs| && jobs[k] in next && jobs[k] in prev
    ensures var a, b := prev[jobs[k]], next[jobs[k]];
      Spells(if a == 0 then b else head, if b == 0 then a else tail,
             if a == 0 then next else next[a := b], if b == 0 then prev else prev[b := a], Links.Without(jobs, k))
  {
    var a, b := prev[jobs[k]], next[jobs[k]];
    var n, p := if a == 0 then next else next[a := b], if b == 0 then prev else prev[b := a];
    var l := Links.Without(jobs, k);
    Neighbours(head, tail, next, prev, jobs, k);
    assert LinksAt(next, prev, jobs, k);
    forall j: int
      ensures LinksAt(n, p, l, j)
    {
      var i := if j < k then j else j + 1;
      assert LinksAt(next, prev, jobs, i) && Differ(jobs, i, k - 1) && Differ(jobs, i, k + 1);
    }
    forall i: int, j: int
      ensures Differ(l, i, j)
    {
      assert Differ(jobs, if i < k then i else i + 1, if j < k then j else j + 1);
    }
  }

  class JobList {
    var head: nat
    var tail: nat
    var next: map<nat, nat>
    var prev: map<nat, nat>
    ghost var jobs: seq<nat>

    ghost predicate Valid()
      reads this
    {
      Spells(head, tail, next, prev, jobs)
    }

    constructor ()
      ensures Valid() && jobs == []
    {
      head, tail, next, prev, jobs := 0, 0, map[], map[], [];
    }

    /** A new job goes to the end. */
    method Add(jp: nat)
      requires Valid() && jp != 0 && jp !in jobs
      modifies this
      ensures Valid() && jobs == old(jobs) + [jp]
    {
      AddSpells(head, tail, next, prev, jobs, jp);
      next := next[jp := 0];
      prev := prev[jp := tail];
      if tail == 0 {
        head := jp;
      } else {
        next := next[tail := jp];
      }
      tail := jp;
      jobs := jobs + [jp];
    }

    /** A deferred job goes back to the head. */
    method Replace(jp: nat)
      requires Valid() && jp != 0 && jp !in jobs
      modifies this
      ensures Valid() && jobs == [jp] + old(jobs)
    {
      ReplaceSpells(head, tail, next, prev, jobs, jp);
      prev := prev[jp := 0];
      next := next[jp := head];
      if head == 0 {
        tail := jp;
      } else {
        prev := prev[head := jp];
      }
      head := jp;
      jobs := [jp] + jobs;
    }

    /** Any job of the list, at the head, at the end or between, comes off it. */
    method Remove(target: nat, ghost k: nat)
      requires Valid() && k < |jobs| && jobs[k] == target
      modifies this
      ensures Valid() && jobs == Links.Without(old(jobs), k)
    {
      Neighbours(head, tail, next, prev, jobs, k);
      RemoveSpells(head, tail, next, prev, jobs, k);
      if next[target] != 0 {
        prev := prev[next[target] := prev[target]];
      } else {
        tail := prev[target];
      }
      if prev[target] != 0 {
        next := next[prev[target] := next[target]];
      } else {
        head := next[target];
      }
      jobs := Links.Without(jobs, k);
    }
  }

  // ---- The protocol ----

  /** The printer thread: looking for a job, asleep on the condition variable, or busy with a job. */
  datatype Printer = Looking | Asleep | Busy(job: nat)

  /**
   jobs is the list; signals counts the threads that have added a job and have yet to signal;
   added and ended are history: jobs in the order added, and in the order printed or cancelled.
   */
  datatype State = State(printer: Printer, jobs: seq<nat>, signals: nat, added: seq<nat>, ended: seq<nat>)

  datatype Action =
    | AddJob(jp: nat)    // under the lock
    | Signal             // after the lock has been released
    | Look               // under the lock: take the first job or go to sleep
    | Wake               // a wake-up without a signal
    | End                // the job is printed, or cancelled
    | Defer              // the job goes back to the head

  predicate Enabled(s: State, a: Action) {
    match a
    case AddJob(jp) => jp != 0 && jp !in s.jobs && s.printer != Busy(jp)
    case Signal => s.signals > 0
    case Look => s.printer.Looking?
    case Wake => s.printer.Asleep?
    case End => s.printer.Busy?
    case Defer => s.printer.Busy?
  }

  function Next(s: State, a: Action): State
    requires Enabled(s, a)
  {
    match a
    case AddJob(jp) => s.(jobs := s.jobs + [jp], signals := s.signals + 1, added := s.added + [jp])
    case Signal => s.(signals := s.signals - 1, printer := if s.printer.Asleep? then Looking else s.printer)
    case Look =>
      if s.jobs == [] then s.(printer := Asleep) else s.(printer := Busy(s.jobs[0]), jobs := s.jobs[1..])
    case Wake => s.(printer := Looking)
    case End => s.(printer := Looking, ended := s.ended + [s.printer.job])
    case Defer => s.(printer := Looking, jobs := [s.printer.job] + s.jobs)
  }

  function InHand(s: State): seq<nat> {
    if s.printer.Busy? then [s.printer.job] else []
  }

  ghost predicate IsRun(run: seq<State>, acts: seq<Action>) {
    && |run| == |acts| + 1 && run[0] == State(Looking, [], 0, [], [])
    && forall i | 0 <= i < |acts| :: Enabled(run[i], acts[i]) && run[i + 1] == Next(run[i], acts[i])
  }

  /**
   In every state of every run: the jobs added are the jobs ended, then the one in hand, then the
   list, in this order, so none is lost, doubled or overtaken however often it is deferred; the
   list never holds a job twice, nor the one in hand; and the printer thread sleeps on a list that
   is not empty only while a signal is still to come.
   */
  lemma {:induction false} RunSound(run: seq<State>, acts: seq<Action>, n: nat)
    requires IsRun(run, acts) && n < |run|
    ensures var s := run[n]; s.added == s.ended + InHand(s) + s.jobs
    ensures var s := run[n]; forall i: int, j: int :: Differ(InHand(s) + s.jobs, i, j)
    ensures var s := run[n]; s.printer.Asleep? && s.jobs != [] ==> s.signals > 0
    ensures var s := run[n]; 0 !in InHand(s) + s.jobs
  {
    if n > 0 {
      RunSound(run, acts, n - 1);
      var s, a := run[n - 1], acts[n - 1];
      assert Enabled(s, a) && run[n] == Next(s, a);
      StepOrder(s, a);
      StepDiffers(s, a);
    }
  }

  lemma StepOrder(s: State, a: Action)
    requires Enabled(s, a) && s.added == s.ended + InHand(s) + s.jobs
    ensures var s' := Next(s, a); s'.added == s'.ended + InHand(s') + s'.jobs
  {
    if a.Look? && s.jobs != [] {
      assert s.jobs == [s.jobs[0]] + s.jobs[1..];
    }
  }

  lemma StepDiffers(s: State, a: Action)
    requires Enabled(s, a) && forall i: int, j: int :: Differ(InHand(s) + s.jobs, i, j)
    requires 0 !in InHand(s) + s.jobs
    ensures var s' := Next(s, a); forall i: int, j: int :: Differ(InHand(s') + s'.jobs, i, j)
    ensures var s' := Next(s, a); 0 !in InHand(s') + s'.jobs
  {
    var s' := Next(s, a);
    var l, l' := InHand(s) + s.jobs, InHand(s') + s'.jobs;
    var d := if a.End? then 1 else 0;
    assert forall i | 0 <= i < |l'| :: i + d < |l| ==> l'[i] == l[i + d];
    forall i: int, j: int
      ensures Differ(l', i, j)
    {
      assert Differ(l, i + d, j + d);
      assert forall k | 0 <= k < |l| :: l[k] in l;
    }
    assert forall x | x in l' :: x in l || a == AddJob(x);
  }
}
