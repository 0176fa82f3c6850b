/**
 What the pointers of the index file mean: the free list and the hash chains,
 and the map from keys to data that the chains stand for. The lemmas follow one
 record as calls take it off a list, rewrite it and put it on another; in
 between it is loose, that is, on no list.
 */
module DbChains {
  import opened Codec
  import opened Links
  import opened Layout
  import opened DbFiles
  import opened DbHash
  import opened DbSpec

  ghost predicate AllBlank(s: string) { forall i | 0 <= i < |s| :: s[i] == SPACE }

  // ---- The lists ----

  /** Each list begins with its head cell and goes on through records. */
  ghost predicate HeadOk(lists: seq<seq<nat>>, l: nat) {
    l < |lists| && |lists[l]| > 0 && lists[l][0] == PTR_SZ * l
  }

  ghost predicate PlaceOk(im: Image<Info>, lists: seq<seq<nat>>, l: nat, k: nat) {
    l < |lists| && 0 < k < |lists[l]| ==> lists[l][k] in im.info
  }

  ghost predicate Accounted(im: Image<Info>, lists: seq<seq<nat>>, loose: set<nat>, c: nat) {
    && (c in im.ptr ==> On(lists, c) || c in loose)
    && (c in loose ==> c in im.info && c in im.ptr && c != 0 && !On(lists, c))
  }

  /** The pointers spell the lists; every cell is on exactly one list, or loose. */
  ghost predicate Linked(im: Image<Info>, lists: seq<seq<nat>>, loose: set<nat>) {
    && |lists| == NPTR && Threaded(im.ptr, lists)
    && (forall l: nat | l < NPTR :: HeadOk(lists, l))
    && (forall l: nat, k: nat :: PlaceOk(im, lists, l, k))
    && (forall c: nat :: Accounted(im, lists, loose, c))
  }

  /** Facts about record k of a list, and the cell before it. */
  lemma Position(im: Image<Info>, lists: seq<seq<nat>>, loose: set<nat>, l: nat, k: nat)
    requires Linked(im, lists, loose) && l < NPTR && 0 < k < |lists[l]|
    ensures lists[l][k] in im.info && lists[l][k] in im.ptr && lists[l][k - 1] in im.ptr
    ensures im.ptr[lists[l][k - 1]] == lists[l][k] != 0 && im.ptr[lists[l][k]] == After(lists[l], k)
    ensures lists[l][k] != lists[l][k - 1]
    ensures l != 0 ==> lists[l][k - 1] != 0
    ensures On(lists, lists[l][k]) && lists[l][k] !in loose
  {
    assert Spells(im.ptr, lists[l]) && PlaceOk(im, lists, l, k);
    assert Points(im.ptr, lists[l], k - 1) && Points(im.ptr, lists[l], k);
    assert Differ(lists, l, k - 1, l, k) && Differ(lists, l, k - 1, 0, 0) && HeadOk(lists, 0);
    assert lists[l][k] in lists[l];
    assert Accounted(im, lists, loose, lists[l][k]);
  }

  /** The head of a list and what it points to. */
  lemma Front(im: Image<Info>, lists: seq<seq<nat>>, loose: set<nat>, l: nat)
    requires Linked(im, lists, loose) && l < NPTR
    ensures |lists[l]| > 0 && lists[l][0] == PTR_SZ * l
    ensures PTR_SZ * l in im.ptr && im.ptr[PTR_SZ * l] == After(lists[l], 0)
  {
    assert HeadOk(lists, l) && Spells(im.ptr, lists[l]) && Points(im.ptr, lists[l], 0);
  }

  lemma LooseNowhere(im: Image<Info>, lists: seq<seq<nat>>, loose: set<nat>, o: nat, l: nat, k: nat)
    requires Linked(im, lists, loose) && o in loose && l < NPTR && k < |lists[l]|
    ensures lists[l][k] != o
  {
    assert Accounted(im, lists, loose, o);
    assert lists[l][k] in lists[l];
  }

  function Cut(lists: seq<seq<nat>>, l: nat, k: nat): seq<seq<nat>>
    requires l < |lists| && k < |lists[l]|
  {
    lists[l := Without(lists[l], k)]
  }

  function Put(lists: seq<seq<nat>>, l: nat, o: nat): seq<seq<nat>>
    requires l < |lists| && |lists[l]| > 0
  {
    lists[l := Pushed(lists[l], o)]
  }

  /** Taking a record off its list leaves it loose. */
  lemma CutLinked(im: Image<Info>, lists: seq<seq<nat>>, loose: set<nat>, l: nat, k: nat)
    requires Linked(im, lists, loose) && l < NPTR && 0 < k < |lists[l]|
    ensures lists[l][k] in im.ptr
    ensures Linked(SetPtr(im, lists[l][k - 1], im.ptr[lists[l][k]]), Cut(lists, l, k), loose + {lists[l][k]})
  {
    Position(im, lists, loose, l, k);
    Unlink(im.ptr, lists, l, k);
    var im', lists' := SetPtr(im, lists[l][k - 1], im.ptr[lists[l][k]]), Cut(lists, l, k);
    forall m: nat | m < NPTR
      ensures HeadOk(lists', m)
    {
      assert HeadOk(lists, m);
    }
    forall m: nat, j: nat
      ensures PlaceOk(im', lists', m, j)
    {
      assert PlaceOk(im, lists, m, if m == l && j >= k then j + 1 else j);
    }
    forall c: nat
      ensures Accounted(im', lists', loose + {lists[l][k]}, c)
    {
      assert Accounted(im, lists, loose, c);
    }
  }

  /** What a loose record says, and where it points, concerns no list. */
  lemma LooseLinked(im: Image<Info>, lists: seq<seq<nat>>, loose: set<nat>, o: nat, v: nat, i: Info)
    requires Linked(im, lists, loose) && o in loose
    ensures Linked(SetRecord(im, o, v, i), lists, loose)
  {
    var im' := SetRecord(im, o, v, i);
    assert Accounted(im, lists, loose, o);
    Frame(im.ptr, im'.ptr, lists);
    forall m: nat, j: nat
      ensures PlaceOk(im', lists, m, j)
    {
      assert PlaceOk(im, lists, m, j);
    }
    forall c: nat
      ensures Accounted(im', lists, loose, c)
    {
      assert Accounted(im, lists, loose, c);
    }
  }

  /** A record appended behind all others is loose. */
  lemma AppendLinked(im: Image<Info>, lists: seq<seq<nat>>, loose: set<nat>, o: nat, v: nat, i: Info)
    requires Linked(im, lists, loose) && o !in im.ptr && o != 0
    ensures Linked(AddRecord(im, o, v, i), lists, loose + {o})
  {
    var im' := AddRecord(im, o, v, i);
    assert !On(lists, o) by {
      forall l, k | 0 <= l < |lists| && 0 <= k < |lists[l]|
        ensures lists[l][k] != o
      {
        assert Spells(im.ptr, lists[l]) && Points(im.ptr, lists[l], k);
      }
    }
    Frame(im.ptr, im'.ptr, lists);
    forall m: nat, j: nat
      ensures PlaceOk(im', lists, m, j)
    {
      assert PlaceOk(im, lists, m, j);
    }
    forall c: nat
      ensures Accounted(im', lists, loose + {o}, c)
    {
      assert Accounted(im, lists, loose, c);
    }
  }

  /** Pointing the head at a loose record that points where the head did puts it in front. */
  lemma PutLinked(im: Image<Info>, lists: seq<seq<nat>>, loose: set<nat>, l: nat, o: nat)
    requires Linked(im, lists, loose) && o in loose && l < NPTR && o in im.ptr
    requires PTR_SZ * l in im.ptr && im.ptr[o] == im.ptr[PTR_SZ * l]
    ensures |lists[l]| > 0
    ensures Linked(SetPtr(im, PTR_SZ * l, o), Put(lists, l, o), loose - {o})
  {
    assert HeadOk(lists, l) && Accounted(im, lists, loose, o);
    Push(im.ptr, lists, l, o);
    assert im.ptr[o := im.ptr[PTR_SZ * l]] == im.ptr;
    var im', lists' := SetPtr(im, PTR_SZ * l, o), Put(lists, l, o);
    forall m: nat | m < NPTR
      ensures HeadOk(lists', m)
    {
      assert HeadOk(lists, m);
    }
    forall m: nat, j: nat
      ensures PlaceOk(im', lists', m, j)
    {
      assert PlaceOk(im, lists, m, if m == l && j > 1 then j - 1 else j);
    }
    forall c: nat
      ensures Accounted(im', lists', loose - {o}, c)
    {
      assert Accounted(im, lists, loose, c);
    }
  }

  // ---- What the records on the lists say ----

  /** The record at o is the live record of its key, and belongs on chain l. */
  ghost predicate LiveOn(im: Image<Info>, m: Contents, l: nat, o: nat) {
    && o in im.info
    && ListOf(im.info[o].key) == l
    && im.info[o].key in m && m[im.info[o].key] == im.info[o].data
  }

  ghost predicate LiveAt(im: Image<Info>, lists: seq<seq<nat>>, m: Contents, l: nat, k: nat) {
    0 < l < |lists| && 0 < k < |lists[l]| ==> LiveOn(im, m, l, lists[l][k])
  }

  ghost predicate HasKey(im: Image<Info>, s: seq<nat>, key: string) {
    exists k :: 0 < k < |s| && s[k] in im.info && im.info[s[k]].key == key
  }

  ghost predicate KeyOk(im: Image<Info>, lists: seq<seq<nat>>, m: Contents, key: string) {
    key in m ==> ListOf(key) < |lists| && HasKey(im, lists[ListOf(key)], key)
  }

  /** The same key at two places of a chain means that the places are the same. */
  ghost predicate KeysDiffer(im: Image<Info>, lists: seq<seq<nat>>, l: nat, k: nat, j: nat) {
    (&& 0 < l < |lists| && 0 < k < |lists[l]| && 0 < j < |lists[l]|
     && lists[l][k] in im.info && lists[l][j] in im.info
     && im.info[lists[l][k]].key == im.info[lists[l][j]].key)
    ==> k == j
  }

  ghost predicate FreeAt(im: Image<Info>, lists: seq<seq<nat>>, k: nat) {
    0 < |lists| && 0 < k < |lists[0]| ==>
      && lists[0][k] in im.info
      && AllBlank(im.info[lists[0][k]].key) && AllBlank(im.info[lists[0][k]].data)
  }

  /** List 0 holds blanked records, list l > 0 the live records whose keys hash to l. */
  ghost predicate Filed(im: Image<Info>, lists: seq<seq<nat>>, m: Contents) {
    && |lists| == NPTR
    && (forall l: nat, k: nat :: LiveAt(im, lists, m, l, k))
    && (forall l: nat, k: nat, j: nat :: KeysDiffer(im, lists, l, k, j))
    && (forall key :: KeyOk(im, lists, m, key))
    && (forall k: nat :: FreeAt(im, lists, k))
  }

  ghost predicate Inv(im: Image<Info>, lists: seq<seq<nat>>, m: Contents, loose: set<nat>) {
    Linked(im, lists, loose) && Filed(im, lists, m)
  }

  /** Filing is about records on lists, not about pointers or other records. */
  lemma FiledElsewhere(im: Image<Info>, im': Image<Info>, lists: seq<seq<nat>>, m: Contents)
    requires Filed(im, lists, m)
    requires forall l, k | 0 <= l < NPTR && 0 < k < |lists[l]| && lists[l][k] in im.info ::
               lists[l][k] in im'.info && im'.info[lists[l][k]] == im.info[lists[l][k]]
    ensures Filed(im', lists, m)
  {
    forall l: nat, k: nat
      ensures LiveAt(im', lists, m, l, k)
    {
      assert LiveAt(im, lists, m, l, k);
    }
    forall l: nat, k: nat, j: nat
      ensures KeysDiffer(im', lists, l, k, j)
    {
      assert KeysDiffer(im, lists, l, k, j) && LiveAt(im, lists, m, l, k) && LiveAt(im, lists, m, l, j);
    }
    forall key
      ensures KeyOk(im', lists, m, key)
    {
      assert KeyOk(im, lists, m, key);
    }
    forall k: nat
      ensures FreeAt(im', lists, k)
    {
      assert FreeAt(im, lists, k);
    }
  }

  lemma FreeCutFiled(im: Image<Info>, lists: seq<seq<nat>>, m: Contents, k: nat)
    requires Filed(im, lists, m) && 0 < k < |lists[0]|
    ensures Filed(im, Cut(lists, 0, k), m)
  {
    var lists' := Cut(lists, 0, k);
    forall l: nat, j: nat
      ensures LiveAt(im, lists', m, l, j)
    {
      assert LiveAt(im, lists, m, l, j);
    }
    forall l: nat, i: nat, j: nat
      ensures KeysDiffer(im, lists', l, i, j)
    {
      assert KeysDiffer(im, lists, l, i, j);
    }
    forall key
      ensures KeyOk(im, lists', m, key)
    {
      assert KeyOk(im, lists, m, key);
    }
    forall j: nat
      ensures FreeAt(im, lists', j)
    {
      assert FreeAt(im, lists, if j >= k then j + 1 else j);
    }
  }

  lemma ChainCutFiled(im: Image<Info>, lists: seq<seq<nat>>, m: Contents, l: nat, k: nat)
    requires Filed(im, lists, m) && 0 < l < NPTR && 0 < k < |lists[l]|
    ensures lists[l][k] in im.info
    ensures Filed(im, Cut(lists, l, k), m - {im.info[lists[l][k]].key})
  {
    assert LiveAt(im, lists, m, l, k);
    var dead, lists' := im.info[lists[l][k]].key, Cut(lists, l, k);
    forall a: nat, j: nat
      ensures LiveAt(im, lists', m - {dead}, a, j)
    {
      var i := if a == l && j >= k then j + 1 else j;
      assert LiveAt(im, lists, m, a, i) && KeysDiffer(im, lists, l, k, i);
    }
    forall a: nat, i: nat, j: nat
      ensures KeysDiffer(im, lists', a, i, j)
    {
      assert KeysDiffer(im, lists, a, if a == l && i >= k then i + 1 else i, if a == l && j >= k then j + 1 else j);
    }
    forall key
      ensures KeyOk(im, lists', m - {dead}, key)
    {
      assert KeyOk(im, lists, m, key);
      if key in m - {dead} {
        var s := lists[ListOf(key)];
        var j :| 0 < j < |s| && s[j] in im.info && im.info[s[j]].key == key;
        assert lists'[ListOf(key)][if ListOf(key) == l && j > k then j - 1 else j] == s[j];
      }
    }
    forall j: nat
      ensures FreeAt(im, lists', j)
    {
      assert FreeAt(im, lists, j);
    }
  }

  lemma FreePutFiled(im: Image<Info>, lists: seq<seq<nat>>, m: Contents, o: nat)
    requires Filed(im, lists, m) && |lists[0]| > 0
    requires o in im.info && AllBlank(im.info[o].key) && AllBlank(im.info[o].data)
    ensures Filed(im, Put(lists, 0, o), m)
  {
    var lists' := Put(lists, 0, o);
    forall l: nat, j: nat
      ensures LiveAt(im, lists', m, l, j)
    {
      assert LiveAt(im, lists, m, l, j);
    }
    forall l: nat, i: nat, j: nat
      ensures KeysDiffer(im, lists', l, i, j)
    {
      assert KeysDiffer(im, lists, l, i, j);
    }
    forall key
      ensures KeyOk(im, lists', m, key)
    {
      assert KeyOk(im, lists, m, key);
    }
    forall j: nat
      ensures FreeAt(im, lists', j)
    {
      assert j > 1 ==> FreeAt(im, lists, j - 1);
    }
  }

  lemma ChainPutKey(im: Image<Info>, lists: seq<seq<nat>>, m: Contents, o: nat, key: string)
    requires Filed(im, lists, m) && o in im.info && ListOf(im.info[o].key) < NPTR
    requires |lists[ListOf(im.info[o].key)]| > 0
    ensures KeyOk(im, Put(lists, ListOf(im.info[o].key), o), m[im.info[o].key := im.info[o].data], key)
  {
    var l := ListOf(im.info[o].key);
    var lists' := Put(lists, l, o);
    assert KeyOk(im, lists, m, key) && lists'[l][1] == o;
    if key in m && key != im.info[o].key {
      var s := lists[ListOf(key)];
      var j :| 0 < j < |s| && s[j] in im.info && im.info[s[j]].key == key;
      assert lists'[ListOf(key)][if ListOf(key) == l then j + 1 else j] == s[j];
    }
  }

  lemma ChainPutFiled(im: Image<Info>, lists: seq<seq<nat>>, m: Contents, o: nat)
    requires Filed(im, lists, m) && o in im.info && im.info[o].key !in m
    requires ListOf(im.info[o].key) < NPTR && |lists[ListOf(im.info[o].key)]| > 0
    ensures Filed(im, Put(lists, ListOf(im.info[o].key), o), m[im.info[o].key := im.info[o].data])
  {
    var i, l := im.info[o], ListOf(im.info[o].key);
    var lists', m' := Put(lists, l, o), m[i.key := i.data];
    forall a: nat, j: nat
      ensures LiveAt(im, lists', m', a, j)
    {
      assert LiveAt(im, lists, m, a, if a == l && j > 1 then j - 1 else j);
    }
    forall a: nat, p: nat, q: nat
      ensures KeysDiffer(im, lists', a, p, q)
    {
      var p', q' := if a == l && p > 1 then p - 1 else p, if a == l && q > 1 then q - 1 else q;
      assert KeysDiffer(im, lists, a, p', q') && LiveAt(im, lists, m, a, p') && LiveAt(im, lists, m, a, q');
    }
    forall key
      ensures KeyOk(im, lists', m', key)
    {
      ChainPutKey(im, lists, m, o, key);
    }
    forall j: nat
      ensures FreeAt(im, lists', j)
    {
      assert FreeAt(im, lists, j);
    }
  }

  lemma OverwriteFiled(im: Image<Info>, lists: seq<seq<nat>>, m: Contents, l: nat, k: nat, data: string)
    requires Filed(im, lists, m) && Apart(lists) && 0 < l < NPTR && 0 < k < |lists[l]|
    ensures lists[l][k] in im.info
    ensures Filed(Redone(im, lists[l][k], data), lists, m[im.info[lists[l][k]].key := data])
  {
    assert LiveAt(im, lists, m, l, k);
    var o := lists[l][k];
    var im', m' := Redone(im, o, data), m[im.info[o].key := data];
    forall a: nat, j: nat
      ensures LiveAt(im', lists, m', a, j)
    {
      assert LiveAt(im, lists, m, a, j) && KeysDiffer(im, lists, l, k, j) && Differ(lists, l, k, a, j);
    }
    forall a: nat, i: nat, j: nat
      ensures KeysDiffer(im', lists, a, i, j)
    {
      assert KeysDiffer(im, lists, a, i, j);
    }
    forall q
      ensures KeyOk(im', lists, m', q)
    {
      assert KeyOk(im, lists, m, q);
      if q in m {
        var s := lists[ListOf(q)];
        var j :| 0 < j < |s| && s[j] in im.info && im.info[s[j]].key == q;
        assert im'.info[s[j]].key == q;
      }
    }
    forall j: nat
      ensures FreeAt(im', lists, j)
    {
      assert FreeAt(im, lists, j) && Differ(lists, 0, j, l, k);
    }
  }

  /** Place k of the free list has a record of the given key and data lengths. */
  ghost predicate FitsFree(im: Image<Info>, s: seq<nat>, k: nat, keylen: nat, datlen: nat) {
    0 < k < |s| && s[k] in im.info && |im.info[s[k]].key| == keylen && |im.info[s[k]].data| + 1 == datlen
  }

  ghost predicate HasFree(im: Image<Info>, lists: seq<seq<nat>>, keylen: nat, datlen: nat) {
    |lists| > 0 && exists k: nat :: FitsFree(im, lists[0], k, keylen, datlen)
  }

  // ---- Both together, in the steps of the library ----

  lemma FreeCut(im: Image<Info>, lists: seq<seq<nat>>, m: Contents, loose: set<nat>, k: nat)
    requires Inv(im, lists, m, loose) && 0 < k < |lists[0]|
    ensures lists[0][k] in im.ptr
    ensures Inv(SetPtr(im, lists[0][k - 1], im.ptr[lists[0][k]]), Cut(lists, 0, k), m, loose + {lists[0][k]})
  {
    CutLinked(im, lists, loose, 0, k);
    FreeCutFiled(im, lists, m, k);
    FiledElsewhere(im, SetPtr(im, lists[0][k - 1], im.ptr[lists[0][k]]), Cut(lists, 0, k), m);
  }

  lemma ChainCut(im: Image<Info>, lists: seq<seq<nat>>, m: Contents, loose: set<nat>, l: nat, k: nat)
    requires Inv(im, lists, m, loose) && 0 < l < NPTR && 0 < k < |lists[l]|
    ensures lists[l][k] in im.ptr && lists[l][k] in im.info
    ensures Inv(SetPtr(im, lists[l][k - 1], im.ptr[lists[l][k]]), Cut(lists, l, k),
                m - {im.info[lists[l][k]].key}, loose + {lists[l][k]})
  {
    CutLinked(im, lists, loose, l, k);
    ChainCutFiled(im, lists, m, l, k);
    FiledElsewhere(im, SetPtr(im, lists[l][k - 1], im.ptr[lists[l][k]]), Cut(lists, l, k),
                   m - {im.info[lists[l][k]].key});
  }

  lemma LooseRewrite(im: Image<Info>, lists: seq<seq<nat>>, m: Contents, loose: set<nat>, o: nat, v: nat, i: Info)
    requires Inv(im, lists, m, loose) && o in loose
    ensures Inv(SetRecord(im, o, v, i), lists, m, loose)
  {
    LooseLinked(im, lists, loose, o, v, i);
    forall l, k | 0 <= l < NPTR && 0 < k < |lists[l]|
      ensures lists[l][k] != o
    {
      LooseNowhere(im, lists, loose, o, l, k);
    }
    FiledElsewhere(im, SetRecord(im, o, v, i), lists, m);
  }

  lemma LooseAppend(im: Image<Info>, lists: seq<seq<nat>>, m: Contents, loose: set<nat>, o: nat, v: nat, i: Info)
    requires Inv(im, lists, m, loose) && o !in im.ptr && o !in im.info && o != 0
    ensures Inv(AddRecord(im, o, v, i), lists, m, loose + {o})
  {
    AppendLinked(im, lists, loose, o, v, i);
    FiledElsewhere(im, AddRecord(im, o, v, i), lists, m);
  }

  lemma FreePut(im: Image<Info>, lists: seq<seq<nat>>, m: Contents, loose: set<nat>, o: nat)
    requires Inv(im, lists, m, loose) && o in loose && o in im.ptr && o in im.info
    requires 0 in im.ptr && im.ptr[o] == im.ptr[0]
    requires AllBlank(im.info[o].key) && AllBlank(im.info[o].data)
    ensures |lists[0]| > 0 && Inv(SetPtr(im, 0, o), Put(lists, 0, o), m, loose - {o})
  {
    PutLinked(im, lists, loose, 0, o);
    FreePutFiled(im, lists, m, o);
    FiledElsewhere(im, SetPtr(im, 0, o), Put(lists, 0, o), m);
  }

  lemma ChainPut(im: Image<Info>, lists: seq<seq<nat>>, m: Contents, loose: set<nat>, o: nat, l: nat)
    requires Inv(im, lists, m, loose) && o in loose && o in im.ptr && o in im.info
    requires im.info[o].key !in m && l == ListOf(im.info[o].key) < NPTR
    requires PTR_SZ * l in im.ptr && im.ptr[o] == im.ptr[PTR_SZ * l]
    ensures |lists[l]| > 0
    ensures Inv(SetPtr(im, PTR_SZ * l, o), Put(lists, l, o), m[im.info[o].key := im.info[o].data], loose - {o})
  {
    PutLinked(im, lists, loose, l, o);
    ChainPutFiled(im, lists, m, o);
    FiledElsewhere(im, SetPtr(im, PTR_SZ * l, o), Put(lists, l, o), m[im.info[o].key := im.info[o].data]);
  }

  lemma Overwrite(im: Image<Info>, lists: seq<seq<nat>>, m: Contents, loose: set<nat>, l: nat, k: nat, data: string)
    requires Inv(im, lists, m, loose) && 0 < l < NPTR && 0 < k < |lists[l]|
    ensures lists[l][k] in im.info
    ensures Inv(Redone(im, lists[l][k], data), lists, m[im.info[lists[l][k]].key := data], loose)
  {
    OverwriteFiled(im, lists, m, l, k, data);
    var im' := Redone(im, lists[l][k], data);
    forall a: nat, j: nat
      ensures PlaceOk(im', lists, a, j)
    {
      assert PlaceOk(im, lists, a, j);
    }
    forall c: nat
      ensures Accounted(im', lists, loose, c)
    {
      assert Accounted(im, lists, loose, c);
    }
  }

  /** Every record is at one place of one list: the free list if it is blank, else the chain of its key. */
  lemma OnOneList(im: Image<Info>, lists: seq<seq<nat>>, m: Contents, o: nat) returns (l: nat, k: nat)
    requires Inv(im, lists, m, {}) && o in im.ptr && o in im.info && !IsHead(o)
    ensures l < NPTR && 0 < k < |lists[l]| && lists[l][k] == o
    ensures forall a: nat, j: nat | a < NPTR && j < |lists[a]| && lists[a][j] == o :: a == l && j == k
    ensures l == 0 ==> AllBlank(im.info[o].key) && AllBlank(im.info[o].data)
    ensures l > 0 ==> LiveOn(im, m, l, o)
  {
    assert Accounted(im, lists, {}, o);
    l :| 0 <= l < |lists| && o in lists[l];
    k :| 0 <= k < |lists[l]| && lists[l][k] == o;
    assert HeadOk(lists, l) && FreeAt(im, lists, k) && LiveAt(im, lists, m, l, k);
    forall a: nat, j: nat | a < NPTR && j < |lists[a]| && lists[a][j] == o
      ensures a == l && j == k
    {
      assert Differ(lists, l, k, a, j);
    }
  }

  /** What the writes of a delete leave: the record blanked, pushed on the free list, and bypassed. */
  ghost function Deleted(im: Image<Info>, o: nat, prev: nat): Image<Info>
    requires o in im.info && o in im.ptr && 0 in im.ptr
  {
    var i := im.info[o];
    var blank := Rekeyed(Redone(im, o, Blanks(|i.data|)), o, im.ptr[0], Blanks(|i.key|));
    SetPtr(SetPtr(blank, 0, o), prev, im.ptr[o])
  }

  lemma DeleteInv(im: Image<Info>, lists: seq<seq<nat>>, m: Contents, l: nat, k: nat)
    requires Inv(im, lists, m, {}) && 0 < l < NPTR && 0 < k < |lists[l]|
    ensures lists[l][k] in im.info && lists[l][k] in im.ptr && 0 in im.ptr && |Cut(lists, l, k)[0]| > 0
    ensures Inv(Deleted(im, lists[l][k], lists[l][k - 1]), Put(Cut(lists, l, k), 0, lists[l][k]),
                m - {im.info[lists[l][k]].key}, {})
  {
    Position(im, lists, {}, l, k);
    Front(im, lists, {}, 0);
    var o, prev := lists[l][k], lists[l][k - 1];
    var i := im.info[o];
    var bypassed := SetPtr(im, prev, im.ptr[o]);
    ChainCut(im, lists, m, {}, l, k);
    assert {} + {o} == {o} && {o} - {o} == {};
    var blank := Info(Blanks(|i.key|), i.datoff, Blanks(|i.data|));
    var rewritten := SetRecord(bypassed, o, im.ptr[0], blank);
    LooseRewrite(bypassed, Cut(lists, l, k), m - {i.key}, {o}, o, im.ptr[0], blank);
    FreePut(rewritten, Cut(lists, l, k), m - {i.key}, {o}, o);
    assert SetPtr(rewritten, 0, o) == Deleted(im, o, prev);
  }

  /** What the writes of a reuse leave: the loose record rewritten and put in front of its chain. */
  ghost function Reused(im: Image<Info>, o: nat, l: nat, key: string, data: string): Image<Info>
    requires o in im.info && PTR_SZ * l in im.ptr
  {
    SetPtr(Rekeyed(Redone(im, o, data), o, im.ptr[PTR_SZ * l], key), PTR_SZ * l, o)
  }

  lemma ReuseInv(im: Image<Info>, lists: seq<seq<nat>>, m: Contents, o: nat, key: string, data: string)
    requires Inv(im, lists, m, {o}) && o in im.info && key !in m && ListOf(key) < NPTR
    ensures PTR_SZ * ListOf(key) in im.ptr && |lists[ListOf(key)]| > 0
    ensures Inv(Reused(im, o, ListOf(key), key, data), Put(lists, ListOf(key), o), m[key := data], {})
  {
    var l := ListOf(key);
    Front(im, lists, {o}, l);
    LooseNowhere(im, lists, {o}, o, l, 0);
    var i := Info(key, im.info[o].datoff, data);
    LooseRewrite(im, lists, m, {o}, o, im.ptr[PTR_SZ * l], i);
    var im' := SetRecord(im, o, im.ptr[PTR_SZ * l], i);
    assert {o} - {o} == {};
    ChainPut(im', lists, m, {o}, o, l);
    assert SetPtr(im', PTR_SZ * l, o) == Reused(im, o, l, key, data);
  }

  /** What the writes of an append leave: a new record in front of its chain. */
  ghost function Appended(im: Image<Info>, o: nat, l: nat, i: Info): Image<Info>
    requires PTR_SZ * l in im.ptr
  {
    SetPtr(AddRecord(im, o, im.ptr[PTR_SZ * l], i), PTR_SZ * l, o)
  }

  lemma AppendInv(im: Image<Info>, lists: seq<seq<nat>>, m: Contents, o: nat, i: Info)
    requires Inv(im, lists, m, {}) && o !in im.ptr && o !in im.info && o != 0
    requires i.key !in m && ListOf(i.key) < NPTR
    ensures PTR_SZ * ListOf(i.key) in im.ptr && |lists[ListOf(i.key)]| > 0
    ensures Inv(Appended(im, o, ListOf(i.key), i), Put(lists, ListOf(i.key), o), m[i.key := i.data], {})
  {
    var l := ListOf(i.key);
    Front(im, lists, {}, l);
    assert {} + {o} == {o} && {o} - {o} == {};
    LooseAppend(im, lists, m, {}, o, im.ptr[PTR_SZ * l], i);
    ChainPut(AddRecord(im, o, im.ptr[PTR_SZ * l], i), lists, m, {o}, o, l);
  }

  // ---- Creation ----

  ghost function EmptyLists(): seq<seq<nat>> {
    seq(NPTR, l => [PTR_SZ * l])
  }

  lemma CreatedInv()
    ensures Inv(EmptyImage(), EmptyLists(), map[], {})
  {
    var e, lists := EmptyImage(), EmptyLists();
    forall l | 0 <= l < NPTR
      ensures |lists[l]| > 0 && Spells(e.ptr, lists[l])
    {
      assert Points(e.ptr, lists[l], 0);
    }
    forall c: nat
      ensures Accounted(e, lists, {}, c)
    {
      if c in e.ptr {
        assert lists[c / PTR_SZ] == [c];
      }
    }
  }
}
