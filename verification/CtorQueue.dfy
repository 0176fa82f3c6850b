/**
 The order of constructors: a depth-first walk over the dependencies, whose
 stack and whose output queue grow towards each other in one buffer. The path
 is the stack with the current DSO on top; every DSO on it needs the one above.
 */
module CtorQueue {
  import opened DsoGraph

  // ---- The walk ----

  ghost predicate Seen(path: seq<nat>, queue: seq<nat>, x: nat) {
    x in path || x in queue
  }

  /** The DSO below place k on the path is at the dependency that is place k. */
  ghost predicate LinkAt(g: Graph, nd: seq<nat>, path: seq<nat>, k: nat) {
    k + 1 < |path| ==>
      && path[k + 1] < |g| && path[k + 1] < |nd|
      && nd[path[k + 1]] < |g[path[k + 1]]| && g[path[k + 1]][nd[path[k + 1]]] == path[k]
  }

  /** The dependencies that a DSO on the path has passed are all seen. */
  ghost predicate PassedAt(g: Graph, nd: seq<nat>, path: seq<nat>, queue: seq<nat>, x: nat, j: nat) {
    x in path && x < |g| && x < |nd| && j < nd[x] ==> j < |g[x]| && Seen(path, queue, g[x][j])
  }

  /** A dependency of a queued DSO is queued before it, or depends on it in turn. */
  ghost predicate BeforeAt(g: Graph, queue: seq<nat>, k: nat, v: nat) {
    k < |queue| && Needs(g, queue[k], v) ==> v in queue[..k] || Reach(g, v, queue[k])
  }

  ghost predicate QueuedAt(g: Graph, path: seq<nat>, queue: seq<nat>, x: nat, v: nat) {
    x in queue && Needs(g, x, v) ==> Seen(path, queue, v)
  }

  ghost predicate Walked(g: Graph, root: nat, nd: seq<nat>, path: seq<nat>, queue: seq<nat>) {
    && |nd| == |g| && NoDup(path + queue)
    && (forall x: nat | Seen(path, queue, x) :: x < |g| && Reach(g, root, x))
    && (if path == [] then root in queue else path[|path| - 1] == root)
    && (forall k: nat :: LinkAt(g, nd, path, k))
    && (forall x: nat, j: nat :: PassedAt(g, nd, path, queue, x, j))
    && (forall k: nat, v: nat :: BeforeAt(g, queue, k, v))
    && (forall x: nat, v: nat :: QueuedAt(g, path, queue, x, v))
  }

  /** What the walk yields: all that the root reaches, once each, dependencies first. */
  ghost predicate Ordered(g: Graph, root: nat, queue: seq<nat>) {
    && NoDup(queue)
    && (forall x: nat :: x in queue <==> x < |g| && Reach(g, root, x))
    && (forall k: nat, v: nat :: BeforeAt(g, queue, k, v))
  }

  lemma Start(g: Graph, root: nat, nd: seq<nat>)
    requires WellFormed(g) && IsDso(g, root) && |nd| == |g| && nd[root] == 0
    ensures Walked(g, root, nd, [root], [])
  {
    ReachSelf(g, root);
    assert [root] + [] == [root];
    forall x: nat, j: nat
      ensures PassedAt(g, nd, [root], [], x, j)
    {
    }
  }

  /** The current dependency has been seen: go on to the next one. */
  lemma Skip(g: Graph, root: nat, nd: seq<nat>, path: seq<nat>, queue: seq<nat>)
    requires Walked(g, root, nd, path, queue) && path != [] && path[0] < |g|
    requires nd[path[0]] < |g[path[0]]| && Seen(path, queue, g[path[0]][nd[path[0]]])
    ensures Walked(g, root, nd[path[0] := nd[path[0]] + 1], path, queue)
  {
    var p := path[0];
    var nd' := nd[p := nd[p] + 1];
    forall k: nat
      ensures LinkAt(g, nd', path, k)
    {
      assert LinkAt(g, nd, path, k);
      assert k + 1 < |path| ==> (path + queue)[k + 1] == path[k + 1] && (path + queue)[0] == p;
    }
    forall x: nat, j: nat
      ensures PassedAt(g, nd', path, queue, x, j)
    {
      assert PassedAt(g, nd, path, queue, x, j);
    }
  }

  /** The current dependency has not been seen: it becomes the top of the path. */
  lemma Descend(g: Graph, root: nat, nd: seq<nat>, path: seq<nat>, queue: seq<nat>, c: nat)
    requires WellFormed(g) && Walked(g, root, nd, path, queue) && path != [] && path[0] < |g|
    requires nd[path[0]] < |g[path[0]]| && c == g[path[0]][nd[path[0]]] && !Seen(path, queue, c) && c < |g|
    ensures Walked(g, root, nd[c := 0], [c] + path, queue)
  {
    var p, nd', path' := path[0], nd[c := 0], [c] + path;
    assert path' + queue == [c] + (path + queue);
    assert Seen(path, queue, p) && Needs(g, p, c);
    ReachEdge(g, p, c);
    ReachTrans(g, root, p, c);
    assert forall x :: Seen(path', queue, x) <==> x == c || Seen(path, queue, x);
    forall k: nat
      ensures LinkAt(g, nd', path', k)
    {
      assert k > 0 ==> LinkAt(g, nd, path, k - 1);
      assert k + 1 < |path'| ==> path'[k + 1] == path[k] && path[k] in path;
    }
    forall x: nat, j: nat
      ensures PassedAt(g, nd', path', queue, x, j)
    {
      assert PassedAt(g, nd, path, queue, x, j);
    }
    forall x: nat, v: nat
      ensures QueuedAt(g, path', queue, x, v)
    {
      assert QueuedAt(g, path, queue, x, v);
    }
  }

  /** Every DSO on the path reaches the top. */
  lemma {:induction false} PathReaches(g: Graph, nd: seq<nat>, path: seq<nat>, k: nat)
    requires k < |path| && forall i: nat :: LinkAt(g, nd, path, i)
    ensures Reach(g, path[k], path[0])
  {
    if k == 0 {
      ReachSelf(g, path[0]);
    } else {
      PathReaches(g, nd, path, k - 1);
      assert LinkAt(g, nd, path, k - 1);
      ReachEdge(g, path[k], path[k - 1]);
      ReachTrans(g, path[k], path[k - 1], path[0]);
    }
  }

  lemma EmitBefore(g: Graph, root: nat, nd: seq<nat>, path: seq<nat>, queue: seq<nat>, k: nat, v: nat)
    requires Walked(g, root, nd, path, queue) && path != [] && path[0] < |g| && nd[path[0]] >= |g[path[0]]|
    ensures BeforeAt(g, queue + [path[0]], k, v)
  {
    var p, queue' := path[0], queue + [path[0]];
    assert BeforeAt(g, queue, k, v);
    if k < |queue| {
      assert queue'[..k] == queue[..k];
    } else if k == |queue| && Needs(g, p, v) {
      var j :| 0 <= j < |g[p]| && g[p][j] == v;
      assert PassedAt(g, nd, path, queue, p, j);
      assert queue'[..k] == queue;
      if v in path {
        var i :| 0 <= i < |path| && path[i] == v;
        PathReaches(g, nd, path, i);
      }
    }
  }

  /** All dependencies passed: the top of the path goes to the end of the queue. */
  lemma Emit(g: Graph, root: nat, nd: seq<nat>, path: seq<nat>, queue: seq<nat>)
    requires Walked(g, root, nd, path, queue) && path != [] && path[0] < |g| && nd[path[0]] >= |g[path[0]]|
    ensures Walked(g, root, nd, path[1..], queue + [path[0]])
  {
    var p, path', queue' := path[0], path[1..], queue + [path[0]];
    assert forall x :: Seen(path', queue', x) <==> Seen(path, queue, x);
    EmitNoDup(path, queue);
    forall k: nat, v: nat
      ensures BeforeAt(g, queue', k, v)
    {
      EmitBefore(g, root, nd, path, queue, k, v);
    }
    forall k: nat
      ensures LinkAt(g, nd, path', k)
    {
      assert LinkAt(g, nd, path, k + 1);
    }
    forall x: nat, j: nat
      ensures PassedAt(g, nd, path', queue', x, j)
    {
      assert PassedAt(g, nd, path, queue, x, j);
    }
    forall x: nat, v: nat
      ensures QueuedAt(g, path', queue', x, v)
    {
      assert QueuedAt(g, path, queue, x, v);
      if x == p && Needs(g, x, v) {
        var j :| 0 <= j < |g[p]| && g[p][j] == v;
        assert PassedAt(g, nd, path, queue, p, j);
      }
    }
  }

  lemma EmitNoDup(path: seq<nat>, queue: seq<nat>)
    requires path != [] && NoDup(path + queue)
    ensures NoDup(path[1..] + (queue + [path[0]]))
  {
    var s, t := path + queue, path[1..] + (queue + [path[0]]);
    assert |t| == |s|;
    forall i, j | 0 <= i < |t| && 0 <= j < |t| && t[i] == t[j]
      ensures i == j
    {
      var i', j' := if i + 1 < |s| then i + 1 else 0, if j + 1 < |s| then j + 1 else 0;
      assert t[i] == s[i'] && t[j] == s[j'];
    }
  }

  /** With the path used up the queue is complete and in order. */
  lemma Finish(g: Graph, root: nat, nd: seq<nat>, queue: seq<nat>)
    requires WellFormed(g) && Walked(g, root, nd, [], queue)
    ensures Ordered(g, root, queue)
  {
    assert [] + queue == queue;
    var s := Elems(queue);
    forall x: nat
      ensures ClosedAt(g, s, x)
    {
      forall v: nat | x in s && Needs(g, x, v)
        ensures v in s
      {
        assert QueuedAt(g, [], queue, x, v);
      }
    }
    forall x: nat
      ensures x in queue <==> x < |g| && Reach(g, root, x)
    {
      assert Seen([], queue, x) <==> x in queue;
      if Reach(g, root, x) {
        Closed(g, s, root, x);
      }
    }
  }

  /** The path and the queue together fit below any bound on what the root reaches. */
  lemma Room(g: Graph, root: nat, nd: seq<nat>, path: seq<nat>, queue: seq<nat>, bound: set<nat>)
    requires Walked(g, root, nd, path, queue) && Reachable(g, root) <= bound
    ensures |path| + |queue| <= |bound|
    ensures forall x: nat | x in bound && !Seen(path, queue, x) && Reach(g, root, x) :: |path| + |queue| < |bound|
  {
    var s := path + queue;
    NoDupSize(s);
    forall x | x in Elems(s)
      ensures x in bound
    {
      assert Seen(path, queue, x);
    }
    SubsetSize(Elems(s), bound);
    forall x: nat | x in bound && !Seen(path, queue, x) && Reach(g, root, x)
      ensures |s| < |bound|
    {
      SubsetSize(Elems(s) + {x}, bound);
    }
  }

  lemma BelowBound(g: Graph, dso: nat, deps: seq<nat>)
    requires forall x: nat | x < |g| && Below(g, dso, x) :: x in deps
    ensures Reachable(g, dso) <= Elems(deps) + {dso} && |Elems(deps) + {dso}| <= |deps| + 1
  {
    forall x | x in Reachable(g, dso)
      ensures x in Elems(deps) + {dso}
    {
      var n: nat :| ReachIn(g, dso, x, n);
      if n > 0 {
        var w :| Needs(g, dso, w) && ReachIn(g, w, x, n - 1);
        assert Reach(g, w, x) && Below(g, dso, x);
      }
    }
    ElemsSize(deps);
  }

  lemma AllBound(g: Graph, dso: nat)
    requires WellFormed(g) && IsDso(g, dso)
    ensures Reachable(g, dso) <= Dsos(g) && |Dsos(g)| == |g| - 1
  {
    forall x: nat
      ensures ClosedAt(g, Dsos(g), x)
    {
      forall v: nat | Needs(g, x, v)
        ensures v in Dsos(g)
      {
        NeedsDso(g, x, v);
      }
    }
    forall x | x in Reachable(g, dso)
      ensures x in Dsos(g)
    {
      Closed(g, Dsos(g), dso, x);
    }
    DsosSize(g, |g|);
  }

  // ---- The program ----

  class Linker {
    /** The direct dependencies of every DSO. */
    var g: Graph
    var mark: array<bool>
    var nextDep: array<nat>

    ghost predicate Valid()
      reads this
    {
      WellFormed(g) && mark.Length == |g| && nextDep.Length == |g|
    }

    /** The marks of the DSOs that matter say which of them have been seen. */
    ghost predicate Marked(bound: set<nat>, path: seq<nat>, queue: seq<nat>)
      reads this, mark
    {
      forall x: nat | x in bound && x < mark.Length :: mark[x] <==> Seen(path, queue, x)
    }

    /** The buffer holds the queue at its front and the stack, last in first, at its end. */
    ghost predicate Holds(buf: array<nat>, qpos: nat, spos: nat, stack: seq<nat>, queue: seq<nat>)
      reads buf
    {
      qpos <= spos <= buf.Length && buf[..qpos] == queue && buf[spos..] == stack
    }

    method Clear(ds: seq<nat>)
      requires Valid() && forall i | 0 <= i < |ds| :: ds[i] < |g|
      modifies mark
      ensures forall x: nat | x < mark.Length :: mark[x] == (old(mark[x]) && x !in ds)
    {
      for i := 0 to |ds|
        invariant forall x: nat | x < mark.Length :: mark[x] == (old(mark[x]) && x !in ds[..i])
      {
        mark[ds[i]] := false;
        assert ds[..i + 1] == ds[..i] + [ds[i]];
      }
      assert ds[..|ds|] == ds;
    }

    /** Follows unseen dependencies from p down, pushing what it leaves, until one DSO has none left. */
    method Deepen(p0: nat, buf: array<nat>, qpos: nat, spos0: nat, ghost root: nat, ghost stack0: seq<nat>,
                  ghost queue: seq<nat>, ghost bound: set<nat>)
      returns (p: nat, spos: nat, ghost stack: seq<nat>)
      requires Valid() && IsDso(g, root) && p0 < |g| && buf.Length >= |bound| + 1
      requires Holds(buf, qpos, spos0, stack0, queue) && Walked(g, root, nextDep[..], [p0] + stack0, queue)
      requires Marked(bound, [p0] + stack0, queue) && Reachable(g, root) <= bound
      requires buf != nextDep
      modifies mark, nextDep, buf
      ensures p < |g| && nextDep[p] >= |g[p]|
      ensures Holds(buf, qpos, spos, stack, queue) && Walked(g, root, nextDep[..], [p] + stack, queue)
      ensures Marked(bound, [p] + stack, queue) && qpos < spos
      ensures |stack| >= |stack0|
    {
      p, spos, stack := p0, spos0, stack0;
      Room(g, root, nextDep[..], [p] + stack, queue, bound);
      while nextDep[p] < |g[p]|
        invariant p < |g| && Holds(buf, qpos, spos, stack, queue)
        invariant Walked(g, root, nextDep[..], [p] + stack, queue) && Marked(bound, [p] + stack, queue)
        invariant |stack| + 1 + |queue| <= |bound| && |stack| >= |stack0|
        decreases |bound| - |stack|, |g[p]| - nextDep[p]
      {
        var c := g[p][nextDep[p]];
        ghost var path := [p] + stack;
        ghost var nd := nextDep[..];
        assert Seen(path, queue, p) && Needs(g, p, c);
        ReachEdge(g, p, c);
        ReachTrans(g, root, p, c);
        NeedsDso(g, p, c);
        if mark[c] {
          Skip(g, root, nd, path, queue);
          nextDep[p] := nextDep[p] + 1;
          assert nextDep[..] == nd[p := nd[p] + 1];
        } else {
          Room(g, root, nd, path, queue, bound);
          Descend(g, root, nd, path, queue, c);
          spos := spos - 1;
          buf[spos] := p;
          stack := path;
          p := c;
          nextDep[p] := 0;
          mark[p] := true;
          assert nextDep[..] == nd[p := 0];
          Room(g, root, nextDep[..], [p] + stack, queue, bound);
        }
      }
    }
  
    /** Pops one DSO, goes down from it as far as it can, and queues where that ends. */
    method Pop(buf: array<nat>, qpos0: nat, spos0: nat, ghost root: nat, ghost path0: seq<nat>,
               ghost queue0: seq<nat>, ghost bound: set<nat>)
      returns (qpos: nat, spos: nat, ghost path: seq<nat>, ghost queue: seq<nat>)
      requires Valid() && IsDso(g, root) && path0 != [] && buf.Length >= |bound| + 1 && buf != nextDep
      requires Holds(buf, qpos0, spos0, path0, queue0) && Walked(g, root, nextDep[..], path0, queue0)
      requires Marked(bound, path0, queue0) && Reachable(g, root) <= bound
      modifies mark, nextDep, buf
      ensures Holds(buf, qpos, spos, path, queue) && Walked(g, root, nextDep[..], path, queue)
      ensures Marked(bound, path, queue) && |queue| == |queue0| + 1
    {
      assert path0 == [path0[0]] + path0[1..] && Seen(path0, queue0, path0[0]);
      var p := buf[spos0];
      ghost var stack;
      p, spos, stack := Deepen(p, buf, qpos0, spos0 + 1, root, path0[1..], queue0, bound);
      Emit(g, root, nextDep[..], [p] + stack, queue0);
      assert ([p] + stack)[1..] == stack;
      path, queue := stack, queue0 + [p];
      assert forall x :: Seen(path, queue, x) <==> Seen([p] + stack, queue0, x);
      buf[qpos0] := p;
      qpos := qpos0 + 1;
    }

    /** The walk from dso, in a buffer with room for all that it reaches and a terminator. */
    method Walk(dso: nat, buf: array<nat>, ghost bound: set<nat>) returns (qpos: nat)
      requires Valid() && IsDso(g, dso) && buf.Length >= |bound| + 1 && buf != nextDep
      requires Reachable(g, dso) <= bound && forall x: nat | x in bound && x != dso && x < mark.Length :: !mark[x]
      modifies mark, nextDep, buf
      ensures qpos < buf.Length && Ordered(g, dso, buf[..qpos])
      ensures forall x: nat | x in bound && x < mark.Length :: mark[x] <==> x in buf[..qpos]
    {
      var spos: nat := buf.Length - 1;
      qpos := 0;
      buf[spos] := dso;
      nextDep[dso] := 0;
      mark[dso] := true;
      ghost var path: seq<nat>, queue: seq<nat> := [dso], [];
      Start(g, dso, nextDep[..]);
      Room(g, dso, nextDep[..], path, queue, bound);
      while spos < buf.Length
        invariant Holds(buf, qpos, spos, path, queue) && |queue| <= |bound|
        invariant Walked(g, dso, nextDep[..], path, queue) && Marked(bound, path, queue)
        decreases |bound| - |queue|
      {
        qpos, spos, path, queue := Pop(buf, qpos, spos, dso, path, queue, bound);
        Room(g, dso, nextDep[..], path, queue, bound);
      }
      Finish(g, dso, nextDep[..], queue);
    }

    /**
     The queue of constructors for dso. The bound on its length is the list of all that dso
     depends on when that list has been built, and else the list of all DSOs.
     */
    method QueueCtors(dso: nat, bfsBuilt: bool, deps: seq<nat>) returns (queue: array<nat>, qpos: nat)
      requires Valid() && IsDso(g, dso)
      requires bfsBuilt ==> forall i | 0 <= i < |deps| :: deps[i] < |g|
      requires bfsBuilt ==> forall x: nat | x < |g| && Below(g, dso, x) :: x in deps
      modifies mark, nextDep
      ensures fresh(queue) && qpos < queue.Length && queue[qpos] == 0
      ensures Ordered(g, dso, queue[..qpos])
      ensures forall x: nat | x < |g| && Reach(g, dso, x) :: !mark[x]
    {
      ghost var bound: set<nat>;
      var cnt;
      if bfsBuilt {
        Clear(deps);
        cnt := |deps| + 1;
        bound := Elems(deps) + {dso};
        BelowBound(g, dso, deps);
      } else {
        cnt := |g| - 1;
        var all := seq(cnt, i requires 0 <= i < cnt => i + 1);
        Clear(all);
        forall x: nat | 0 < x < |g|
          ensures x in all
        {
          assert all[x - 1] == x;
        }
        bound := Dsos(g);
        AllBound(g, dso);
      }
      cnt := cnt + 1;
      queue := new nat[cnt];
      qpos := Walk(dso, queue, bound);
      queue[qpos] := 0;
      assert forall i | 0 <= i < qpos :: queue[..qpos][i] in queue[..qpos];
      Clear(queue[..qpos]);
    }
  }
}
