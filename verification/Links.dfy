/**
 Singly linked lists threaded through numbered pointer cells, where 0 is the
 null pointer. A list is written as the sequence of cells it runs through; its
 first cell is the head pointer, which no other cell points to. Both the index
 file of the database and the reference-counted hash table keep their chains
 this way, and both splice them by overwriting one pointer at a time.
 */
module Links {

  /** What cell s[k] must hold for the cells to spell s: the next cell, or 0. */
  function After(s: seq<nat>, k: nat): nat
    requires k < |s|
  {
    if k + 1 < |s| then s[k + 1] else 0
  }

  ghost predicate Points(ptr: map<nat, nat>, s: seq<nat>, k: nat)
    requires k < |s|
  {
    s[k] in ptr && ptr[s[k]] == After(s, k)
  }

  ghost predicate Spells(ptr: map<nat, nat>, s: seq<nat>) {
    forall k | 0 <= k < |s| :: Points(ptr, s, k)
  }

  /** The same cell in two places means that the places are the same. */
  ghost predicate Differ(lists: seq<seq<nat>>, l: nat, k: nat, m: nat, j: nat) {
    (l < |lists| && k < |lists[l]| && m < |lists| && j < |lists[m]| && lists[l][k] == lists[m][j])
    ==> l == m && k == j
  }

  /** No cell occurs twice, neither within one list nor in two lists. */
  ghost predicate Apart(lists: seq<seq<nat>>) {
    forall l: nat, k: nat, m: nat, j: nat :: Differ(lists, l, k, m, j)
  }

  /** The pointers spell every one of the lists, and the lists share no cell. */
  ghost predicate Threaded(ptr: map<nat, nat>, lists: seq<seq<nat>>) {
    && Apart(lists)
    && (forall l | 0 <= l < |lists| :: |lists[l]| > 0 && Spells(ptr, lists[l]))
    && (forall l, k | 0 <= l < |lists| && 0 < k < |lists[l]| :: lists[l][k] != 0)
  }

  ghost predicate On(lists: seq<seq<nat>>, x: nat) {
    exists l :: 0 <= l < |lists| && x in lists[l]
  }

  function Without(s: seq<nat>, k: nat): (r: seq<nat>)
    requires k < |s|
    ensures |r| == |s| - 1
    ensures forall j | 0 <= j < |r| :: r[j] == if j < k then s[j] else s[j + 1]
  {
    s[..k] + s[k + 1..]
  }

  function Pushed(s: seq<nat>, x: nat): (r: seq<nat>)
    requires |s| > 0
    ensures |r| == |s| + 1 && r[0] == s[0] && r[1] == x
    ensures forall j | 2 <= j < |r| :: r[j] == s[j - 1]
  {
    [s[0], x] + s[1..]
  }

  /** Overwriting pointers that are on no list changes no list. */
  lemma Frame(ptr: map<nat, nat>, ptr': map<nat, nat>, lists: seq<seq<nat>>)
    requires Threaded(ptr, lists)
    requires forall x | On(lists, x) && x in ptr :: x in ptr' && ptr'[x] == ptr[x]
    ensures Threaded(ptr', lists)
  {
    forall l | 0 <= l < |lists|
      ensures Spells(ptr', lists[l])
    {
      assert Spells(ptr, lists[l]);
      forall k | 0 <= k < |lists[l]|
        ensures Points(ptr', lists[l], k)
      {
        assert Points(ptr, lists[l], k);
        assert lists[l][k] in lists[l] && On(lists, lists[l][k]);
      }
    }
  }

  lemma UnlinkOn(lists: seq<seq<nat>>, l: nat, k: nat, y: nat)
    requires Apart(lists) && l < |lists| && k < |lists[l]|
    ensures On(lists[l := Without(lists[l], k)], y) <==> On(lists, y) && y != lists[l][k]
  {
    var lists' := lists[l := Without(lists[l], k)];
    if On(lists', y) {
      var m :| 0 <= m < |lists'| && y in lists'[m];
      var j :| 0 <= j < |lists'[m]| && lists'[m][j] == y;
      var i := if m == l && j >= k then j + 1 else j;
      assert lists[m][i] == y && Differ(lists, l, k, m, i);
      assert y in lists[m];
    }
    if On(lists, y) && y != lists[l][k] {
      var m :| 0 <= m < |lists| && y in lists[m];
      var j :| 0 <= j < |lists[m]| && lists[m][j] == y;
      assert lists'[m][if m == l && j > k then j - 1 else j] == y;
      assert y in lists'[m];
    }
  }

  lemma UnlinkApart(lists: seq<seq<nat>>, l: nat, k: nat)
    requires Apart(lists) && l < |lists| && k < |lists[l]|
    ensures Apart(lists[l := Without(lists[l], k)])
  {
    var lists' := lists[l := Without(lists[l], k)];
    forall a: nat, i: nat, b: nat, j: nat
      ensures Differ(lists', a, i, b, j)
    {
      assert Differ(lists, a, if a == l && i >= k then i + 1 else i, b, if b == l && j >= k then j + 1 else j);
    }
  }

  /** Copying a cell's pointer into the cell before it takes the cell off its list. */
  lemma Unlink(ptr: map<nat, nat>, lists: seq<seq<nat>>, l: nat, k: nat)
    requires Threaded(ptr, lists)
    requires l < |lists| && 0 < k < |lists[l]|
    ensures lists[l][k] in ptr
    ensures Threaded(ptr[lists[l][k - 1] := ptr[lists[l][k]]], lists[l := Without(lists[l], k)])
    ensures forall y :: On(lists[l := Without(lists[l], k)], y) <==> On(lists, y) && y != lists[l][k]
  {
    assert Spells(ptr, lists[l]);
    assert Points(ptr, lists[l], k - 1) && Points(ptr, lists[l], k);
    var lists' := lists[l := Without(lists[l], k)];
    var ptr' := ptr[lists[l][k - 1] := ptr[lists[l][k]]];
    UnlinkApart(lists, l, k);
    forall y
      ensures On(lists', y) <==> On(lists, y) && y != lists[l][k]
    {
      UnlinkOn(lists, l, k, y);
    }
    forall m | 0 <= m < |lists'|
      ensures Spells(ptr', lists'[m])
    {
      assert Spells(ptr, lists[m]);
      forall j | 0 <= j < |lists'[m]|
        ensures Points(ptr', lists'[m], j)
      {
        var i := if m == l && j >= k then j + 1 else j;
        assert lists'[m][j] == lists[m][i] && Points(ptr, lists[m], i);
        assert Differ(lists, l, k - 1, m, i);
      }
    }
  }

  lemma PushOn(lists: seq<seq<nat>>, l: nat, x: nat, y: nat)
    requires l < |lists| && |lists[l]| > 0
    ensures On(lists[l := Pushed(lists[l], x)], y) <==> On(lists, y) || y == x
  {
    var lists' := lists[l := Pushed(lists[l], x)];
    assert lists'[l][1] == x && x in lists'[l];
    if On(lists', y) && y != x {
      var m :| 0 <= m < |lists'| && y in lists'[m];
      var j :| 0 <= j < |lists'[m]| && lists'[m][j] == y;
      assert lists[m][if m == l && j > 1 then j - 1 else j] == y;
      assert y in lists[m];
    }
    if On(lists, y) {
      var m :| 0 <= m < |lists| && y in lists[m];
      var j :| 0 <= j < |lists[m]| && lists[m][j] == y;
      assert lists'[m][if m == l && j > 0 then j + 1 else j] == y;
      assert y in lists'[m];
    }
  }

  lemma PushApart(lists: seq<seq<nat>>, l: nat, x: nat)
    requires Apart(lists) && l < |lists| && |lists[l]| > 0 && !On(lists, x)
    ensures Apart(lists[l := Pushed(lists[l], x)])
  {
    var lists' := lists[l := Pushed(lists[l], x)];
    forall a: nat, i: nat, b: nat, j: nat
      ensures Differ(lists', a, i, b, j)
    {
      var i', j' := if a == l && i > 1 then i - 1 else i, if b == l && j > 1 then j - 1 else j;
      assert Differ(lists, a, i', b, j');
      assert a < |lists| && i' < |lists[a]| ==> lists[a][i'] in lists[a];
      assert b < |lists| && j' < |lists[b]| ==> lists[b][j'] in lists[b];
    }
  }

  /** Pointing a loose cell at the front of a list, and the head at the cell, puts it in front. */
  lemma Push(ptr: map<nat, nat>, lists: seq<seq<nat>>, l: nat, x: nat)
    requires Threaded(ptr, lists)
    requires l < |lists| && x != 0 && !On(lists, x)
    ensures lists[l][0] in ptr
    ensures Threaded(ptr[x := ptr[lists[l][0]]][lists[l][0] := x], lists[l := Pushed(lists[l], x)])
    ensures forall y :: On(lists[l := Pushed(lists[l], x)], y) <==> On(lists, y) || y == x
  {
    assert Spells(ptr, lists[l]);
    assert Points(ptr, lists[l], 0);
    var lists' := lists[l := Pushed(lists[l], x)];
    var ptr' := ptr[x := ptr[lists[l][0]]][lists[l][0] := x];
    PushApart(lists, l, x);
    forall y
      ensures On(lists', y) <==> On(lists, y) || y == x
    {
      PushOn(lists, l, x, y);
    }
    forall m | 0 <= m < |lists'|
      ensures Spells(ptr', lists'[m])
    {
      assert Spells(ptr, lists[m]);
      forall j | 0 <= j < |lists'[m]|
        ensures Points(ptr', lists'[m], j)
      {
        if m != l || j > 1 {
          var i := if m == l then j - 1 else j;
          assert lists'[m][j] == lists[m][i] && lists[m][i] in lists[m] && Points(ptr, lists[m], i);
          assert Differ(lists, l, 0, m, i);
        } else {
          assert lists[l][0] in lists[l];
        }
      }
    }
  }
}
