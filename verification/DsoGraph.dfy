/**
 The dependency graph of loaded objects (DSOs). A DSO is a number from 1 on, 0
 is the null pointer, and needs[d] lists the direct dependencies of DSO d.
 */
module DsoGraph {

  type Graph = seq<seq<nat>>

  /** Every dependency is a loaded DSO. */
  ghost predicate WellFormed(g: Graph) {
    |g| > 0 && forall u, j | 0 <= u < |g| && 0 <= j < |g[u]| :: 0 < g[u][j] < |g|
  }

  ghost predicate IsDso(g: Graph, d: nat) {
    0 < d < |g|
  }

  ghost predicate Needs(g: Graph, u: nat, v: nat) {
    u < |g| && v in g[u]
  }

  /** A dependency path of n steps. */
  ghost predicate ReachIn(g: Graph, u: nat, v: nat, n: nat)
    decreases n
  {
    if n == 0 then u == v else exists w :: Needs(g, u, w) && ReachIn(g, w, v, n - 1)
  }

  ghost predicate Reach(g: Graph, u: nat, v: nat) {
    exists n: nat :: ReachIn(g, u, v, n)
  }

  /** Reachable in one or more steps. */
  ghost predicate Below(g: Graph, u: nat, v: nat) {
    exists w :: Needs(g, u, w) && Reach(g, w, v)
  }

  lemma ReachSelf(g: Graph, u: nat)
    ensures Reach(g, u, u)
  {
    assert ReachIn(g, u, u, 0);
  }

  lemma {:induction false} ReachInTrans(g: Graph, u: nat, v: nat, w: nat, m: nat, n: nat)
    requires ReachIn(g, u, v, m) && ReachIn(g, v, w, n)
    ensures ReachIn(g, u, w, m + n)
    decreases m
  {
    if m > 0 {
      var x :| Needs(g, u, x) && ReachIn(g, x, v, m - 1);
      ReachInTrans(g, x, v, w, m - 1, n);
      assert m + n - 1 == (m - 1) + n;
    }
  }

  lemma ReachTrans(g: Graph, u: nat, v: nat, w: nat)
    requires Reach(g, u, v) && Reach(g, v, w)
    ensures Reach(g, u, w)
  {
    var m: nat :| ReachIn(g, u, v, m);
    var n: nat :| ReachIn(g, v, w, n);
    ReachInTrans(g, u, v, w, m, n);
  }

  lemma ReachEdge(g: Graph, u: nat, v: nat)
    requires Needs(g, u, v)
    ensures Reach(g, u, v) && Below(g, u, v)
  {
    assert ReachIn(g, v, v, 0);
    assert ReachIn(g, u, v, 1);
    ReachSelf(g, v);
  }

  ghost predicate ClosedAt(g: Graph, s: set<nat>, u: nat) {
    u in s ==> forall v | Needs(g, u, v) :: v in s
  }

  /** A set that contains the dependencies of its members contains all that they reach. */
  lemma {:induction false} ClosedIn(g: Graph, s: set<nat>, u: nat, v: nat, n: nat)
    requires u in s && ReachIn(g, u, v, n) && forall x: nat :: ClosedAt(g, s, x)
    ensures v in s
    decreases n
  {
    if n > 0 {
      var w :| Needs(g, u, w) && ReachIn(g, w, v, n - 1);
      assert ClosedAt(g, s, u);
      ClosedIn(g, s, w, v, n - 1);
    }
  }

  lemma Closed(g: Graph, s: set<nat>, u: nat, v: nat)
    requires u in s && Reach(g, u, v) && forall x: nat :: ClosedAt(g, s, x)
    ensures v in s
  {
    var n: nat :| ReachIn(g, u, v, n);
    ClosedIn(g, s, u, v, n);
  }

  lemma NeedsDso(g: Graph, u: nat, v: nat)
    requires WellFormed(g) && Needs(g, u, v)
    ensures IsDso(g, v)
  {
    var j :| 0 <= j < |g[u]| && g[u][j] == v;
  }

  /** All that a DSO reaches, itself included. */
  ghost function Reachable(g: Graph, u: nat): (r: set<nat>)
    ensures forall v: nat :: v in r <==> v < |g| && Reach(g, u, v)
  {
    set v: nat | v < |g| && Reach(g, u, v)
  }

  // ---- Sequences without repetition ----

  ghost predicate NoDup(s: seq<nat>) {
    forall i, j | 0 <= i < |s| && 0 <= j < |s| && s[i] == s[j] :: i == j
  }

  ghost function Elems(s: seq<nat>): set<nat> {
    set x | x in s
  }

  lemma {:induction false} NoDupSize(s: seq<nat>)
    requires NoDup(s)
    ensures |Elems(s)| == |s|
  {
    if s != [] {
      var n := |s| - 1;
      NoDupSize(s[..n]);
      assert s == s[..n] + [s[n]];
      assert Elems(s) == Elems(s[..n]) + {s[n]};
    }
  }

  lemma SubsetSize(a: set<nat>, b: set<nat>)
    requires a <= b
    ensures |a| <= |b|
  {
    assert b == a + (b - a);
  }

  lemma {:induction false} ElemsSize(s: seq<nat>)
    ensures |Elems(s)| <= |s|
  {
    if s != [] {
      var n := |s| - 1;
      ElemsSize(s[..n]);
      assert s == s[..n] + [s[n]];
      assert Elems(s) == Elems(s[..n]) + {s[n]};
    }
  }

  ghost function Dsos(g: Graph): set<nat> {
    set d: nat | d < |g| && IsDso(g, d)
  }

  lemma {:induction false} DsosSize(g: Graph, n: nat)
    requires 0 < n <= |g|
    ensures |set d: nat | d < n && IsDso(g, d)| == n - 1
  {
    var s := set d: nat | d < n && IsDso(g, d);
    if n == 1 {
      assert s == {};
    } else {
      DsosSize(g, n - 1);
      assert s == (set d: nat | d < n - 1 && IsDso(g, d)) + {n - 1};
    }
  }
}
