/**
 The breadth-first list of everything a DSO depends on: its direct dependencies,
 then the dependencies of each entry in turn that are not marked as listed yet,
 in an array that is enlarged while it is being scanned.
 */
module BfsDeps {
  import opened DsoGraph

  /** The listed DSOs are below p, the direct ones first, and what follows them repeats nothing. */
  ghost predicate Listing(g: Graph, p: nat, list: seq<nat>) {
    && p < |g| && g[p] <= list
    && (forall x: nat | x in list :: IsDso(g, x) && Below(g, p, x))
    && (forall i, j | 0 <= i < j < |list| && |g[p]| <= j :: list[i] != list[j])
  }

  ghost predicate DepsIn(g: Graph, list: seq<nat>, i: nat, v: nat) {
    i < |list| && Needs(g, list[i], v) ==> v in list
  }

  lemma DirectListing(g: Graph, p: nat)
    requires WellFormed(g) && IsDso(g, p)
    ensures Listing(g, p, g[p])
  {
    forall x: nat | x in g[p]
      ensures IsDso(g, x) && Below(g, p, x)
    {
      NeedsDso(g, p, x);
      ReachEdge(g, p, x);
    }
  }

  /** Appending a dependency of a listed DSO that is not listed yet. */
  lemma Append(g: Graph, p: nat, list: seq<nat>, i: nat, c: nat)
    requires WellFormed(g) && Listing(g, p, list) && i < |list| && Needs(g, list[i], c) && c !in list
    ensures Listing(g, p, list + [c])
  {
    NeedsDso(g, list[i], c);
    assert list[i] in list;
    var w :| Needs(g, p, w) && Reach(g, w, list[i]);
    ReachEdge(g, list[i], c);
    ReachTrans(g, w, list[i], c);
    assert forall j | 0 <= j < |list| :: list[j] in list;
  }

  /** When the dependencies of every entry are listed, the list is all that is below p. */
  lemma Complete(g: Graph, p: nat, list: seq<nat>)
    requires Listing(g, p, list) && forall i: nat, v: nat :: DepsIn(g, list, i, v)
    ensures forall x: nat :: x in list <==> x < |g| && Below(g, p, x)
  {
    var s := Elems(list);
    forall x: nat
      ensures ClosedAt(g, s, x)
    {
      forall v: nat | x in s && Needs(g, x, v)
        ensures v in s
      {
        var i :| 0 <= i < |list| && list[i] == x;
        assert DepsIn(g, list, i, v);
      }
    }
    forall x: nat | x < |g| && Below(g, p, x)
      ensures x in list
    {
      var w :| Needs(g, p, w) && Reach(g, w, x);
      assert w in list;
      Closed(g, s, w, x);
    }
  }

  /** No entry is null, so a scan that meets null has met the end. */
  lemma EndsAt(g: Graph, p: nat, list: seq<nat>, i: nat)
    requires Listing(g, p, list)
    ensures i < |list| ==> list[i] != 0
    ensures 0 !in list
  {
    if i < |list| {
      assert list[i] in list;
    }
  }

  /** The list cannot outgrow the direct dependencies and all DSOs together. */
  lemma ListBound(g: Graph, p: nat, list: seq<nat>)
    requires Listing(g, p, list)
    ensures |list| <= |g[p]| + |g|
  {
    var tail := list[|g[p]|..];
    forall i, j | 0 <= i < |tail| && 0 <= j < |tail| && tail[i] == tail[j]
      ensures i == j
    {
      assert tail[i] == list[i + |g[p]|] && tail[j] == list[j + |g[p]|];
    }
    NoDupSize(tail);
    assert forall x | x in tail :: x in list;
    SubsetSize(Elems(tail), Dsos(g));
    DsosSize(g, |g|);
  }

  /** How many of the first n entries are not marked. */
  ghost function Unmarked(ds: seq<nat>, marked: set<nat>, n: nat): nat
    requires n <= |ds|
  {
    if n == 0 then 0 else Unmarked(ds, marked, n - 1) + if ds[n - 1] in marked then 0 else 1
  }

  lemma {:induction false} UnmarkedGrows(ds: seq<nat>, marked: set<nat>, m: nat, n: nat)
    requires m <= n <= |ds|
    ensures Unmarked(ds, marked, m) <= Unmarked(ds, marked, n)
  {
    if m < n {
      UnmarkedGrows(ds, marked, m, n - 1);
    }
  }

  /** The list after the first j dependencies of a listed DSO have been looked at, from list0 on. */
  ghost predicate Appended(g: Graph, p: nat, list0: seq<nat>, list: seq<nat>, dep: nat, j: nat) {
    && dep < |g| && j <= |g[dep]| && list0 <= list && |list| <= |list0| + Unmarked(g[dep], Elems(list0), j)
    && Listing(g, p, list) && forall v: nat | v in g[dep][..j] :: v in list
  }

  lemma OneMore(g: Graph, p: nat, list0: seq<nat>, list: seq<nat>, dep: nat, j: nat, list': seq<nat>)
    requires Appended(g, p, list0, list, dep, j) && j < |g[dep]| && Listing(g, p, list')
    requires list' == if g[dep][j] in list then list else list + [g[dep][j]]
    ensures Appended(g, p, list0, list', dep, j + 1)
  {
    assert g[dep][..j + 1] == g[dep][..j] + [g[dep][j]];
    assert forall x | x in list0 :: x in list;
  }

  lemma RoomFor(g: Graph, p: nat, list0: seq<nat>, list: seq<nat>, dep: nat, j: nat)
    requires Appended(g, p, list0, list, dep, j) && j < |g[dep]|
    ensures g[dep][j] !in list ==> |list| < |list0| + Unmarked(g[dep], Elems(list0), |g[dep]|)
  {
    assert forall x | x in list0 :: x in list;
    UnmarkedGrows(g[dep], Elems(list0), j + 1, |g[dep]|);
  }

  lemma AllAppended(g: Graph, p: nat, list0: seq<nat>, list: seq<nat>, i: nat)
    requires i < |list0| && list0[i] < |g| && Appended(g, p, list0, list, list0[i], |g[list0[i]]|)
    ensures forall v: nat :: DepsIn(g, list, i, v)
  {
    assert list[i] == list0[i] && g[list0[i]][..|g[list0[i]]|] == g[list0[i]];
  }

  class Lister {
    /** The direct dependencies of every DSO. */
    var g: Graph
    var mark: array<bool>

    ghost predicate Valid()
      reads this
    {
      WellFormed(g) && mark.Length == |g|
    }

    ghost predicate MarksAre(s: set<nat>)
      reads this, mark
    {
      forall x: nat | x < mark.Length :: mark[x] <==> x in s
    }

    /** A larger array with the same first entries, as realloc or malloc and memcpy give it. */
    method Grow(a: array<nat>, keep: nat, size: nat) returns (b: array<nat>)
      requires keep <= a.Length && keep <= size
      ensures fresh(b) && b.Length == size && b[..keep] == a[..keep]
    {
      b := new nat[size];
      for i := 0 to keep
        invariant b[..i] == a[..i]
      {
        b[i] := a[i];
      }
    }

    method CountNew(dep: nat, ghost s: set<nat>) returns (cnt: nat)
      requires Valid() && dep < |g| && MarksAre(s)
      ensures cnt == Unmarked(g[dep], s, |g[dep]|)
    {
      cnt := 0;
      for j := 0 to |g[dep]|
        invariant cnt == Unmarked(g[dep], s, j)
      {
        if !mark[g[dep][j]] {
          cnt := cnt + 1;
        }
      }
    }

    /** The array begins with the list, has room after it, and the marks say what is listed. */
    ghost predicate Holds(p: nat, deps: array<nat>, list: seq<nat>)
      reads this, deps, mark
    {
      |list| < deps.Length && deps[..|list|] == list && Listing(g, p, list) && MarksAre(Elems(list))
    }

    /** Marks and appends one DSO unless it is listed; there is room for it if it is not. */
    method Offer(p: nat, deps: array<nat>, n0: nat, c: nat, ghost list: seq<nat>, ghost i: nat) returns (n: nat)
      requires Valid() && Holds(p, deps, list) && n0 == |list| && i < n0 && Needs(g, list[i], c) && c < |g|
      requires c !in list ==> n0 + 1 < deps.Length
      modifies mark, deps
      ensures var list' := if c in list then list else list + [c]; Holds(p, deps, list') && n == |list'|
    {
      n := n0;
      if !mark[c] {
        Append(g, p, list, i, c);
        mark[c] := true;
        deps[n] := c;
        n := n + 1;
        assert deps[..n] == list + [c];
      }
    }

    /** Dependency j of dep, read from the array itself if dep is the DSO whose array this is. */
    method DepAt(p: nat, deps: array<nat>, dep: nat, j: nat, ghost list: seq<nat>) returns (c: nat)
      requires Valid() && Holds(p, deps, list) && dep < |g| && j < |g[dep]|
      ensures c == g[dep][j] && Needs(g, dep, c) && c < |g|
    {
      if dep == p {
        assert deps[j] == list[j] == g[p][j];
        c := deps[j];
      } else {
        c := g[dep][j];
      }
    }

    /**
     Appends the dependencies of entry i that are not marked, inside an array with room for
     as many as were counted. When the entry is p itself, its dependencies are read from the
     very array that is written.
     */
    method AppendNew(p: nat, deps: array<nat>, n0: nat, i: nat, ghost list0: seq<nat>)
      returns (n: nat, ghost list: seq<nat>)
      requires Valid() && IsDso(g, p) && Holds(p, deps, list0) && i < n0 == |list0| && list0[i] < |g|
      requires deps.Length > n0 + Unmarked(g[list0[i]], Elems(list0), |g[list0[i]]|)
      modifies mark, deps
      ensures list0 <= list && n == |list| && Holds(p, deps, list) && forall v: nat :: DepsIn(g, list, i, v)
    {
      n := n0;
      list := list0;
      var dep := deps[i];
      assert dep == list0[i];
      for j := 0 to |g[dep]|
        invariant n == |list| && Holds(p, deps, list) && Appended(g, p, list0, list, dep, j)
      {
        var c := DepAt(p, deps, dep, j, list);
        RoomFor(g, p, list0, list, dep, j);
        ghost var list' := if c in list then list else list + [c];
        assert list[i] == list0[i];
        n := Offer(p, deps, n, c, list, i);
        OneMore(g, p, list0, list, dep, j, list');
        list := list';
      }
      AllAppended(g, p, list0, list, i);
    }

    /** Lists one entry's dependencies: counts the new ones, enlarges the array, appends them. */
    method Extend(p: nat, given: array<nat>, n0: nat, i: nat) returns (deps: array<nat>, n: nat)
      requires Valid() && IsDso(g, p) && i < n0 < given.Length && Listing(g, p, given[..n0])
      requires MarksAre(Elems(given[..n0]))
      modifies mark
      ensures fresh(deps) && n0 <= n < deps.Length && deps[n] == 0 && deps[..n0] == given[..n0]
      ensures Listing(g, p, deps[..n]) && MarksAre(Elems(deps[..n]))
      ensures forall v: nat :: DepsIn(g, deps[..n], i, v)
    {
      assert given[..n0][i] in given[..n0];
      var cnt := CountNew(given[i], Elems(given[..n0]));
      deps := Grow(given, n0, n0 + cnt + 1);
      ghost var list0, list := given[..n0], given[..n0];
      n, list := AppendNew(p, deps, n0, i, list0);
      deps[n] := 0;
      assert deps[..n] == list && deps[..n0] == list[..n0] == list0;
    }

    method MarkDirect(deps: array<nat>, n: nat)
      requires Valid() && MarksAre({}) && n < deps.Length && deps[n] == 0
      requires forall i | 0 <= i < n :: IsDso(g, deps[i])
      modifies mark
      ensures MarksAre(Elems(deps[..n]))
    {
      var i := 0;
      while deps[i] != 0
        invariant 0 <= i <= n && MarksAre(Elems(deps[..i]))
        decreases n - i
      {
        mark[deps[i]] := true;
        assert deps[..i + 1] == deps[..i] + [deps[i]];
        i := i + 1;
      }
    }

    /** The marks of all DSOs, which are numbered from 1. */
    method Unmark()
      requires Valid() && !mark[0]
      modifies mark
      ensures MarksAre({})
    {
      for d := 1 to mark.Length
        invariant forall x: nat | x < d :: !mark[x]
      {
        mark[d] := false;
      }
    }

    /**
     Given the null-terminated direct dependencies of p and no marks, yields the null-terminated
     list of all that p depends on: the direct ones as they are, the others once each, marks clear.
     */
    method ExtendBfs(p: nat, direct: array<nat>) returns (deps: array<nat>, n: nat)
      requires Valid() && IsDso(g, p) && MarksAre({})
      requires direct.Length > |g[p]| && direct[..|g[p]|] == g[p] && direct[|g[p]|] == 0
      modifies mark
      ensures n < deps.Length && deps[n] == 0 && Listing(g, p, deps[..n]) && MarksAre({})
      ensures forall x: nat :: x in deps[..n] <==> x < |g| && Below(g, p, x)
    {
      deps, n := direct, |g[p]|;
      DirectListing(g, p);
      assert forall i | 0 <= i < n :: deps[i] == g[p][i];
      MarkDirect(deps, n);
      var i := 0;
      while deps[i] != 0
        invariant 0 <= i <= n < deps.Length && deps[n] == 0 && Listing(g, p, deps[..n])
        invariant MarksAre(Elems(deps[..n]))
        invariant forall k: nat, v: nat | k < i :: DepsIn(g, deps[..n], k, v)
        decreases |g[p]| + |g| - i
      {
        ghost var list := deps[..n];
        deps, n := Extend(p, deps, n, i);
        assert list <= deps[..n];
        forall k: nat, v: nat | k < i + 1
          ensures DepsIn(g, deps[..n], k, v)
        {
          assert k < i ==> DepsIn(g, list, k, v) && deps[..n][k] == list[k];
        }
        ListBound(g, p, deps[..n]);
        i := i + 1;
      }
      EndsAt(g, p, deps[..n], i);
      Complete(g, p, deps[..n]);
      Unmark();
    }
  }
}
