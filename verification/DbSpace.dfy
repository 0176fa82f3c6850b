/**
 What decides whether a call of the database ends the process: the lengths of
 the files, the sizes of the free records, and the chains that can no longer be
 read because a key with a separator has been stored on them. All of it follows
 from the calls alone, so a caller can tell beforehand where a run will end.
 */
module DbSpace {
  import opened Tiles
  import opened Codec
  import opened Links
  import opened Layout
  import opened DbFiles
  import opened DbHash
  import opened DbSpec
  import opened DbChains

  /** A size is a key length with a data length, newline included; a dead chain is a list number. */
  type Size = (nat, nat)

  datatype Space = Space(idxlen: nat, datlen: nat, free: multiset<Size>, dead: set<nat>)

  // ---- From the calls alone ----

  predicate KnownFlag(flag: int) {
    flag == DB_INSERT || flag == DB_REPLACE || flag == DB_STORE
  }

  /** A store that must append a record has room for it in the formats of the files. */
  predicate AppendFits(sp: Space, key: string, data: string) {
    TailFits(key, sp.datlen, |data| + 1) && sp.idxlen <= PTR_MAX
  }

  /** The store would have to append a record, and that does not fit. */
  predicate NoRoom(sp: Space, m: Contents, key: string, data: string, flag: int) {
    !AppendFits(sp, key, data) &&
    if key in m then flag != DB_INSERT && |data| != |m[key]|
    else flag != DB_REPLACE && (|key|, |data| + 1) !in sp.free
  }

  predicate DataFits(data: string) {
    DATLEN_MIN <= |data| + 1 <= DATLEN_MAX
  }

  /** Exactly when a call ends the process. */
  predicate Dies(sp: Space, m: Contents, c: Call) {
    match c
    case FetchCall(key) => ListOf(key) in sp.dead
    case DeleteCall(key) => ListOf(key) in sp.dead
    case StoreCall(key, data, flag) =>
      KnownFlag(flag) && (!DataFits(data) || ListOf(key) in sp.dead || NoRoom(sp, m, key, data, flag))
  }

  function Extended(sp: Space, key: string, data: string): Space {
    sp.(idxlen := sp.idxlen + PTR_SZ + IDXLEN_SZ + |Tail(key, sp.datlen, |data| + 1)|,
        datlen := sp.datlen + |data| + 1)
  }

  /** A key with a separator makes its chain unreadable from its first record on. */
  function Spoiled(sp: Space, key: string): Space {
    if SEP in key then sp.(dead := sp.dead + {ListOf(key)}) else sp
  }

  function Added(sp: Space, key: string, data: string): Space {
    Spoiled(if (|key|, |data| + 1) in sp.free then sp.(free := sp.free - multiset{(|key|, |data| + 1)})
            else Extended(sp, key, data), key)
  }

  function Replaced(sp: Space, key: string, before: string, data: string): Space {
    if |data| == |before| then sp
    else Extended(sp.(free := sp.free + multiset{(|key|, |before| + 1)}), key, data)
  }

  /** What a call that does not end the process makes of the space. */
  function SpaceAfter(sp: Space, m: Contents, c: Call): Space {
    match c
    case FetchCall(_) => sp
    case DeleteCall(key) => if key in m then sp.(free := sp.free + multiset{(|key|, |m[key]| + 1)}) else sp
    case StoreCall(key, data, flag) =>
      if StoreSpec(m, key, data, flag).1 != 0 then sp
      else if key in m then Replaced(sp, key, m[key], data) else Added(sp, key, data)
  }

  /** The space after the first n calls. */
  function SpaceThen(sp: Space, m: Contents, calls: seq<Call>, n: nat): Space
    requires n <= |calls|
  {
    if n == 0 then sp else SpaceAfter(SpaceThen(sp, m, calls, n - 1), MapAfter(m, calls, n - 1), calls[n - 1])
  }

  /** Call n ends the process, if those before it have not. */
  predicate DiesAt(sp: Space, m: Contents, calls: seq<Call>, n: nat) {
    n < |calls| && Dies(SpaceThen(sp, m, calls, n), MapAfter(m, calls, n), calls[n])
  }

  // ---- Runs that come to their end, and runs that do not ----

  /** A store that can do no harm: data of a legal length, and a key that fits and has no separator. */
  predicate Plain(c: Call) {
    c.StoreCall? && KnownFlag(c.flag) ==>
      DataFits(c.data) && SEP !in c.key && 0 < |c.key| && |c.key| + TAIL_REST <= IDXLEN_MAX
  }

  /** What surrounds a key in a record, at most: two separators, a newline, seven digits and four. */
  const TAIL_REST := 14

  /** The most that a call can add to the index file, and to the data file. */
  function IdxOf(c: Call): nat {
    if c.StoreCall? then PTR_SZ + IDXLEN_SZ + |c.key| + TAIL_REST else 0
  }

  function DatOf(c: Call): nat {
    if c.StoreCall? then |c.data| + 1 else 0
  }

  /** The most that the first n calls can add to the index file. */
  function IdxCost(calls: seq<Call>, n: nat): nat
    requires n <= |calls|
  {
    if n == 0 then 0
    else IdxCost(calls, n - 1) + IdxOf(calls[n - 1])
  }

  /** The most that the first n calls can add to the data file. */
  function DatCost(calls: seq<Call>, n: nat): nat
    requires n <= |calls|
  {
    if n == 0 then 0
    else DatCost(calls, n - 1) + DatOf(calls[n - 1])
  }

  /** What a caller can see to before a run: no chain is dead, all stores are plain, and all fit together. */
  predicate Roomy(sp: Space, calls: seq<Call>) {
    && sp.dead == {} && (forall c | c in calls :: Plain(c))
    && sp.idxlen + IdxCost(calls, |calls|) <= PTR_MAX && sp.datlen + DatCost(calls, |calls|) <= PTR_MAX
  }

  lemma TailAtMost(key: string, datoff: nat, datlen: nat)
    requires datoff <= PTR_MAX && datlen <= DATLEN_MAX
    ensures |key| + 5 <= |Tail(key, datoff, datlen)| <= |key| + TAIL_REST
  {
    assert Pow10(4) == 10000 && Pow10(7) == 10000000;
    DigitsLength(datoff, 7);
    DigitsLength(datlen, 4);
  }

  lemma {:induction false} CostsGrow(calls: seq<Call>, n: nat, k: nat)
    requires n + k <= |calls|
    ensures IdxCost(calls, n) <= IdxCost(calls, n + k) && DatCost(calls, n) <= DatCost(calls, n + k)
  {
    if k > 0 {
      CostsGrow(calls, n, k - 1);
    }
  }

  lemma {:induction false} RoomLeft(sp: Space, m: Contents, calls: seq<Call>, n: nat)
    requires Roomy(sp, calls) && n <= |calls|
    ensures var now := SpaceThen(sp, m, calls, n);
            && now.dead == {} && now.idxlen <= sp.idxlen + IdxCost(calls, n) <= PTR_MAX
            && now.datlen <= sp.datlen + DatCost(calls, n) <= PTR_MAX
  {
    CostsGrow(calls, n, |calls| - n);
    if n > 0 {
      RoomLeft(sp, m, calls, n - 1);
      assert Plain(calls[n - 1]);
      PlainGrows(SpaceThen(sp, m, calls, n - 1), MapAfter(m, calls, n - 1), calls[n - 1]);
    }
  }

  lemma PlainGrows(sp: Space, m: Contents, c: Call)
    requires Plain(c) && sp.dead == {} && sp.datlen <= PTR_MAX
    ensures var next := SpaceAfter(sp, m, c);
            next.dead == {} && next.idxlen <= sp.idxlen + IdxOf(c) && next.datlen <= sp.datlen + DatOf(c)
  {
    if c.StoreCall? && KnownFlag(c.flag) {
      TailAtMost(c.key, sp.datlen, |c.data| + 1);
    }
  }

  /** A run that fits beforehand comes to its end. */
  lemma RoomyRuns(sp: Space, m: Contents, calls: seq<Call>, n: nat)
    requires Roomy(sp, calls)
    ensures !DiesAt(sp, m, calls, n)
  {
    if n < |calls| {
      RoomLeft(sp, m, calls, n);
      var now, c := SpaceThen(sp, m, calls, n), calls[n];
      assert Plain(c);
      if c.StoreCall? && KnownFlag(c.flag) {
        TailAtMost(c.key, now.datlen, |c.data| + 1);
      }
    }
  }

  lemma {:induction false} DeadStays(sp: Space, m: Contents, calls: seq<Call>, n: nat, k: nat)
    requires n + k <= |calls|
    ensures SpaceThen(sp, m, calls, n).dead <= SpaceThen(sp, m, calls, n + k).dead
  {
    if k > 0 {
      DeadStays(sp, m, calls, n, k - 1);
    }
  }

  /**
   Once a new key with a separator has been stored, every later call on its chain ends the
   process, whatever happens in between: the key itself can be neither fetched nor deleted.
   */
  lemma SeparatorKills(sp: Space, m: Contents, calls: seq<Call>, i: nat, j: nat)
    requires i < j < |calls| && calls[i].StoreCall? && SEP in calls[i].key
    requires calls[i].key !in MapAfter(m, calls, i) && Answer(MapAfter(m, calls, i), calls[i]).1 == Code(0)
    requires ListOf(calls[j].key) == ListOf(calls[i].key) && (calls[j].StoreCall? ==> KnownFlag(calls[j].flag))
    ensures DiesAt(sp, m, calls, j)
  {
    DeadStays(sp, m, calls, i + 1, j - i - 1);
  }

  // ---- In an image ----

  ghost function SizeOf(im: Image<Info>, o: nat): Size {
    if o in im.info then (|im.info[o].key|, |im.info[o].data| + 1) else (0, 0)
  }

  /** The sizes of the records at places 1 to n - 1 of a list. */
  ghost function Sizes(im: Image<Info>, s: seq<nat>, n: nat): multiset<Size>
    requires n <= |s|
  {
    if n <= 1 then multiset{} else Sizes(im, s, n - 1) + multiset{SizeOf(im, s[n - 1])}
  }

  ghost function FreeSizes(im: Image<Info>, lists: seq<seq<nat>>): multiset<Size> {
    if |lists| == 0 then multiset{} else Sizes(im, lists[0], |lists[0]|)
  }

  ghost predicate SepAt(im: Image<Info>, o: nat) {
    o in im.info && SEP in im.info[o].key
  }

  /** The first record of the chain cannot be read. */
  ghost predicate DeadAt(im: Image<Info>, lists: seq<seq<nat>>, l: nat) {
    l < |lists| && |lists[l]| > 1 && SepAt(im, lists[l][1])
  }

  ghost function DeadSet(im: Image<Info>, lists: seq<seq<nat>>): set<nat> {
    set l: nat | l < |lists| && DeadAt(im, lists, l)
  }

  /** A record whose key has a separator is the first of its chain: nothing has been put before it. */
  ghost predicate SepFirst(im: Image<Info>, lists: seq<seq<nat>>, l: nat, k: nat) {
    l < |lists| && 0 < k < |lists[l]| && SepAt(im, lists[l][k]) ==> l > 0 && k == 1
  }

  ghost predicate SepsFirst(im: Image<Info>, lists: seq<seq<nat>>) {
    forall l: nat, k: nat :: SepFirst(im, lists, l, k)
  }

  // ---- Sizes of lists ----

  lemma {:induction false} SizesSame(im: Image<Info>, im': Image<Info>, s: seq<nat>, t: seq<nat>, n: nat)
    requires n <= |s| && n <= |t| && forall k | 0 < k < n :: s[k] == t[k] && SizeOf(im, s[k]) == SizeOf(im', s[k])
    ensures Sizes(im, s, n) == Sizes(im', t, n)
  {
    if n > 1 {
      SizesSame(im, im', s, t, n - 1);
    }
  }

  lemma {:induction false} SizesCut(im: Image<Info>, s: seq<nat>, k: nat, n: nat)
    requires 0 < k < n <= |s|
    ensures Sizes(im, Without(s, k), n - 1) + multiset{SizeOf(im, s[k])} == Sizes(im, s, n)
  {
    if n == k + 1 {
      SizesSame(im, im, Without(s, k), s, k);
    } else {
      SizesCut(im, s, k, n - 1);
    }
  }

  lemma {:induction false} SizesPush(im: Image<Info>, s: seq<nat>, x: nat, n: nat)
    requires 0 < n <= |s|
    ensures Sizes(im, Pushed(s, x), n + 1) == Sizes(im, s, n) + multiset{SizeOf(im, x)}
  {
    if n > 1 {
      SizesPush(im, s, x, n - 1);
    } else {
      assert Sizes(im, Pushed(s, x), 1) == multiset{};
    }
  }

  lemma {:induction false} SizesHave(im: Image<Info>, s: seq<nat>, n: nat, z: Size)
    requires n <= |s|
    ensures z in Sizes(im, s, n) <==> exists k :: 0 < k < n && SizeOf(im, s[k]) == z
  {
    if n > 1 {
      SizesHave(im, s, n - 1, z);
      if z == SizeOf(im, s[n - 1]) {
        assert 0 < n - 1 < n;
      }
    }
  }

  // ---- What the changes of the library do to the space ----

  ghost predicate SameAt(im: Image<Info>, im': Image<Info>, x: nat) {
    (x in im.info <==> x in im'.info) && (x in im.info ==> im.info[x] == im'.info[x])
  }

  /** The images differ at most in what they say of record o, and in pointers. */
  ghost predicate Except(im: Image<Info>, im': Image<Info>, o: nat) {
    forall x: nat | x != o :: SameAt(im, im', x)
  }

  ghost predicate Elsewhere(lists: seq<seq<nat>>, l: nat, o: nat) {
    l < |lists| ==> o !in lists[l]
  }

  lemma FreeSame(im: Image<Info>, im': Image<Info>, s: seq<nat>, o: nat)
    requires Except(im, im', o) && o !in s
    ensures Sizes(im, s, |s|) == Sizes(im', s, |s|)
  {
    forall k | 0 < k < |s|
      ensures SizeOf(im, s[k]) == SizeOf(im', s[k])
    {
      assert s[k] in s && SameAt(im, im', s[k]);
    }
    SizesSame(im, im', s, s, |s|);
  }

  /** The same lists but for one, and nothing changed on the others. */
  lemma OthersSame(im: Image<Info>, im': Image<Info>, lists: seq<seq<nat>>, lists': seq<seq<nat>>, l: nat, o: nat)
    requires Except(im, im', o) && |lists'| == |lists| && l < |lists| && lists'[l] == lists[l] && o !in lists[l]
    requires SepsFirst(im, lists)
    ensures DeadAt(im', lists', l) <==> DeadAt(im, lists, l)
    ensures forall k: nat :: SepFirst(im', lists', l, k)
  {
    forall k: nat
      ensures SepFirst(im', lists', l, k)
      ensures 0 < k < |lists[l]| ==> (SepAt(im', lists[l][k]) <==> SepAt(im, lists[l][k]))
    {
      assert SepFirst(im, lists, l, k);
      if 0 < k < |lists[l]| {
        assert lists[l][k] in lists[l] && SameAt(im, im', lists[l][k]);
      }
    }
  }

  /** A record comes off the free list. */
  lemma {:induction false} TakeSizes(im: Image<Info>, im': Image<Info>, lists: seq<seq<nat>>, k: nat)
    requires im'.info == im.info && |lists| > 0 && 0 < k < |lists[0]|
    ensures FreeSizes(im', Cut(lists, 0, k)) == FreeSizes(im, lists) - multiset{SizeOf(im, lists[0][k])}
    ensures SizeOf(im, lists[0][k]) in FreeSizes(im, lists)
  {
    TakenSizes(im, im', lists[0], k);
    OneLess(FreeSizes(im', Cut(lists, 0, k)), FreeSizes(im, lists), SizeOf(im, lists[0][k]));
  }

  lemma {:induction false} TakenSizes(im: Image<Info>, im': Image<Info>, s: seq<nat>, k: nat)
    requires im'.info == im.info && 0 < k < |s|
    ensures Sizes(im', Without(s, k), |s| - 1) + multiset{SizeOf(im, s[k])} == Sizes(im, s, |s|)
  {
    SizesSame(im, im', Without(s, k), Without(s, k), |s| - 1);
    SizesCut(im, s, k, |s|);
  }

  lemma OneLess(a: multiset<Size>, b: multiset<Size>, z: Size)
    requires a + multiset{z} == b
    ensures a == b - multiset{z} && z in b
  {
    assert z in a + multiset{z};
  }

  lemma TakeSeps(im: Image<Info>, im': Image<Info>, lists: seq<seq<nat>>, k: nat)
    requires SepsFirst(im, lists) && im'.info == im.info && |lists| > 0 && 0 < k < |lists[0]|
    ensures SepsFirst(im', Cut(lists, 0, k)) && DeadSet(im', Cut(lists, 0, k)) == DeadSet(im, lists)
  {
    var lists' := Cut(lists, 0, k);
    forall l: nat, j: nat
      ensures SepFirst(im', lists', l, j)
    {
      assert SepFirst(im, lists, l, j) && SepFirst(im, lists, l, j + 1);
    }
    forall l: nat
      ensures DeadAt(im', lists', l) <==> DeadAt(im, lists, l)
    {
      assert SepFirst(im, lists, l, 1) && SepFirst(im', lists', l, 1);
    }
    assert DeadSet(im', lists') == DeadSet(im, lists);
  }

  /** The same with the invariant: what is left is a database with one loose record. */
  lemma Taken(im: Image<Info>, lists: seq<seq<nat>>, m: Contents, k: nat)
    requires Inv(im, lists, m, {}) && SepsFirst(im, lists) && 0 < k < |lists[0]| && lists[0][k] in im.ptr
    ensures var im', lists' := SetPtr(im, lists[0][k - 1], im.ptr[lists[0][k]]), Cut(lists, 0, k);
            && Inv(im', lists', m, {lists[0][k]}) && SepsFirst(im', lists')
            && DeadSet(im', lists') == DeadSet(im, lists)
            && FreeSizes(im', lists') == FreeSizes(im, lists) - multiset{SizeOf(im, lists[0][k])}
  {
    FreeCut(im, lists, m, {}, k);
    assert {} + {lists[0][k]} == {lists[0][k]};
    var im' := SetPtr(im, lists[0][k - 1], im.ptr[lists[0][k]]);
    TakeSizes(im, im', lists, k);
    TakeSeps(im, im', lists, k);
  }

  lemma PutSeps(im: Image<Info>, im': Image<Info>, lists: seq<seq<nat>>, l: nat, o: nat, x: nat)
    requires SepsFirst(im, lists) && Except(im, im', o) && o in im'.info && 0 < l < |lists| && |lists[l]| > 0
    requires !DeadAt(im, lists, l) && forall y: nat :: Elsewhere(lists, y, o)
    ensures forall j: nat :: SepFirst(im', Put(lists, l, o), x, j)
    ensures DeadAt(im', Put(lists, l, o), x) <==>
      if x == l then SEP in im'.info[o].key else DeadAt(im, lists, x)
  {
    assert Elsewhere(lists, x, o);
    if x == l {
      PutFirst(im, im', lists, l, o);
    } else if x < |lists| {
      OthersSame(im, im', lists, Put(lists, l, o), x, o);
    }
  }

  /** A record that is on no list, rewritten or new, is put in front of a chain that can be read. */
  lemma PutSpace(im: Image<Info>, im': Image<Info>, lists: seq<seq<nat>>, l: nat, o: nat)
    requires SepsFirst(im, lists) && Except(im, im', o) && o in im'.info && 0 < l < |lists| && |lists[l]| > 0
    requires !DeadAt(im, lists, l) && forall x: nat :: Elsewhere(lists, x, o)
    ensures FreeSizes(im', Put(lists, l, o)) == FreeSizes(im, lists) && SepsFirst(im', Put(lists, l, o))
    ensures DeadSet(im', Put(lists, l, o)) == DeadSet(im, lists) + if SEP in im'.info[o].key then {l} else {}
  {
    assert Elsewhere(lists, 0, o);
    FreeSame(im, im', lists[0], o);
    forall x: nat, j: nat
      ensures SepFirst(im', Put(lists, l, o), x, j)
    {
      PutSeps(im, im', lists, l, o, x);
    }
    forall x: nat
      ensures x in DeadSet(im', Put(lists, l, o)) <==>
        x in DeadSet(im, lists) + if SEP in im'.info[o].key then {l} else {}
    {
      PutSeps(im, im', lists, l, o, x);
    }
  }

  lemma PutFirst(im: Image<Info>, im': Image<Info>, lists: seq<seq<nat>>, l: nat, o: nat)
    requires SepsFirst(im, lists) && Except(im, im', o) && 0 < l < |lists| && |lists[l]| > 0 && o !in lists[l]
    requires !DeadAt(im, lists, l)
    ensures forall j: nat :: SepFirst(im', Put(lists, l, o), l, j)
  {
    var lists' := Put(lists, l, o);
    forall j: nat
      ensures SepFirst(im', lists', l, j)
    {
      if 1 < j < |lists'[l]| {
        assert lists'[l][j] == lists[l][j - 1] && lists[l][j - 1] in lists[l];
        assert SameAt(im, im', lists[l][j - 1]) && SepFirst(im, lists, l, j - 1);
      }
    }
  }

  /** The first record of a chain is nowhere else. */
  lemma NowhereElse(lists: seq<seq<nat>>, l: nat, k: nat, x: nat)
    requires Apart(lists) && l < |lists| && k < |lists[l]| && x < |lists| && x != l
    ensures lists[l][k] !in lists[x]
  {
    forall j | 0 <= j < |lists[x]|
      ensures lists[x][j] != lists[l][k]
    {
      assert Differ(lists, l, k, x, j);
    }
  }

  ghost predicate Buries(im: Image<Info>, im': Image<Info>, lists: seq<seq<nat>>, l: nat, k: nat) {
    && SepsFirst(im, lists) && Apart(lists) && 0 < l < |lists| && 0 < k < |lists[l]| && |lists[0]| > 0
    && !DeadAt(im, lists, l) && Except(im, im', lists[l][k])
    && SizeOf(im', lists[l][k]) == SizeOf(im, lists[l][k]) && !SepAt(im', lists[l][k])
  }

  ghost function Buried(lists: seq<seq<nat>>, l: nat, k: nat): seq<seq<nat>>
    requires 0 < l < |lists| && k < |lists[l]| && |lists[0]| > 0
  {
    Put(Cut(lists, l, k), 0, lists[l][k])
  }

  lemma BurySizes(im: Image<Info>, im': Image<Info>, lists: seq<seq<nat>>, l: nat, k: nat)
    requires Buries(im, im', lists, l, k)
    ensures FreeSizes(im', Buried(lists, l, k)) == FreeSizes(im, lists) + multiset{SizeOf(im, lists[l][k])}
  {
    NowhereElse(lists, l, k, 0);
    FreeSame(im, im', lists[0], lists[l][k]);
    SizesPush(im', lists[0], lists[l][k], |lists[0]|);
    assert Buried(lists, l, k)[0] == Pushed(lists[0], lists[l][k]);
  }

  lemma BurySepsAt(im: Image<Info>, im': Image<Info>, lists: seq<seq<nat>>, l: nat, k: nat, x: nat)
    requires Buries(im, im', lists, l, k)
    ensures DeadAt(im', Buried(lists, l, k), x) <==> DeadAt(im, lists, x)
    ensures forall j: nat :: SepFirst(im', Buried(lists, l, k), x, j)
  {
    if x == l {
      BuriedChain(im, im', lists, l, k);
    } else if x == 0 {
      NowhereElse(lists, l, k, 0);
      BuriedFree(im, im', lists, lists[l][k]);
    } else if x < |lists| {
      NowhereElse(lists, l, k, x);
      OthersSame(im, im', lists, Buried(lists, l, k), x, lists[l][k]);
    }
  }

  /** A record of a chain that can be read is blanked and put in front of the free list. */
  lemma BurySpace(im: Image<Info>, im': Image<Info>, lists: seq<seq<nat>>, l: nat, k: nat)
    requires Buries(im, im', lists, l, k)
    ensures FreeSizes(im', Buried(lists, l, k)) == FreeSizes(im, lists) + multiset{SizeOf(im, lists[l][k])}
    ensures DeadSet(im', Buried(lists, l, k)) == DeadSet(im, lists) && SepsFirst(im', Buried(lists, l, k))
  {
    BurySizes(im, im', lists, l, k);
    forall x: nat, j: nat
      ensures SepFirst(im', Buried(lists, l, k), x, j)
    {
      BurySepsAt(im, im', lists, l, k, x);
    }
    forall x: nat
      ensures x in DeadSet(im', Buried(lists, l, k)) <==> x in DeadSet(im, lists)
    {
      BurySepsAt(im, im', lists, l, k, x);
    }
  }

  lemma BuriedFree(im: Image<Info>, im': Image<Info>, lists: seq<seq<nat>>, o: nat)
    requires SepsFirst(im, lists) && Except(im, im', o) && |lists| > 0 && |lists[0]| > 0 && o !in lists[0]
    requires !SepAt(im', o)
    ensures !DeadAt(im, lists, 0)
    ensures forall j: nat | 0 < j <= |lists[0]| :: !SepAt(im', Pushed(lists[0], o)[j])
  {
    assert SepFirst(im, lists, 0, 1);
    forall j: nat | 0 < j <= |lists[0]|
      ensures !SepAt(im', Pushed(lists[0], o)[j])
    {
      if j > 1 {
        assert SepFirst(im, lists, 0, j - 1) && lists[0][j - 1] in lists[0] && SameAt(im, im', lists[0][j - 1]);
      }
    }
  }

  lemma BuriedChain(im: Image<Info>, im': Image<Info>, lists: seq<seq<nat>>, l: nat, k: nat)
    requires SepsFirst(im, lists) && Apart(lists) && 0 < l < |lists| && 0 < k < |lists[l]|
    requires !DeadAt(im, lists, l) && Except(im, im', lists[l][k])
    ensures forall j: nat | 0 < j < |lists[l]| - 1 :: !SepAt(im', Without(lists[l], k)[j])
  {
    forall j: nat | 0 < j < |lists[l]| - 1
      ensures !SepAt(im', Without(lists[l], k)[j])
    {
      var i := if j < k then j else j + 1;
      assert Differ(lists, l, k, l, i) && SameAt(im, im', lists[l][i]);
      assert SepFirst(im, lists, l, i) && SepFirst(im, lists, l, 1);
    }
  }

  /** The data of a record is replaced by data of the same length. */
  lemma RedoneSpace(im: Image<Info>, lists: seq<seq<nat>>, o: nat, data: string)
    requires SepsFirst(im, lists) && o in im.info && |data| == |im.info[o].data|
    ensures FreeSizes(Redone(im, o, data), lists) == FreeSizes(im, lists)
    ensures DeadSet(Redone(im, o, data), lists) == DeadSet(im, lists) && SepsFirst(Redone(im, o, data), lists)
  {
    var im' := Redone(im, o, data);
    if |lists| > 0 {
      SizesSame(im, im', lists[0], lists[0], |lists[0]|);
    }
    forall l: nat, k: nat
      ensures SepFirst(im', lists, l, k)
    {
      assert SepFirst(im, lists, l, k);
    }
    assert forall l: nat :: DeadAt(im', lists, l) <==> DeadAt(im, lists, l);
  }

  // ---- The calls ----

  lemma CreatedSpace()
    ensures FreeSizes(EmptyImage(), EmptyLists()) == multiset{} && DeadSet(EmptyImage(), EmptyLists()) == {}
    ensures SepsFirst(EmptyImage(), EmptyLists())
  {
    forall l: nat, k: nat
      ensures SepFirst(EmptyImage(), EmptyLists(), l, k)
    {
    }
  }

  lemma DeletedSpace(im: Image<Info>, lists: seq<seq<nat>>, l: nat, k: nat)
    requires Linked(im, lists, {}) && SepsFirst(im, lists) && 0 < l < NPTR && 0 < k < |lists[l]| && !DeadAt(im, lists, l)
    requires lists[l][k] in im.info && lists[l][k] in im.ptr && 0 in im.ptr
    ensures var im', lists' := Deleted(im, lists[l][k], lists[l][k - 1]), Put(Cut(lists, l, k), 0, lists[l][k]);
      && |Cut(lists, l, k)[0]| > 0 && FreeSizes(im', lists') == FreeSizes(im, lists) + multiset{SizeOf(im, lists[l][k])}
      && DeadSet(im', lists') == DeadSet(im, lists) && SepsFirst(im', lists')
  {
    assert HeadOk(lists, 0);
    var o, im' := lists[l][k], Deleted(im, lists[l][k], lists[l][k - 1]);
    assert Except(im, im', o);
    assert SEP !in Blanks(|im.info[o].key|);
    BurySpace(im, im', lists, l, k);
  }

  lemma LooseElsewhere(im: Image<Info>, lists: seq<seq<nat>>, o: nat)
    requires Linked(im, lists, {o})
    ensures forall l: nat :: Elsewhere(lists, l, o)
  {
    forall l: nat
      ensures Elsewhere(lists, l, o)
    {
      if l < |lists| {
        forall k: nat | k < |lists[l]|
          ensures lists[l][k] != o
        {
          LooseNowhere(im, lists, {o}, o, l, k);
        }
      }
    }
  }

  lemma ReusedSpace(im: Image<Info>, lists: seq<seq<nat>>, o: nat, key: string, data: string)
    requires Linked(im, lists, {o}) && SepsFirst(im, lists) && o in im.info && !DeadAt(im, lists, ListOf(key))
    requires ListOf(key) < NPTR && PTR_SZ * ListOf(key) in im.ptr
    ensures |lists[ListOf(key)]| > 0
    ensures var im', lists' := Reused(im, o, ListOf(key), key, data), Put(lists, ListOf(key), o);
      && FreeSizes(im', lists') == FreeSizes(im, lists) && SepsFirst(im', lists')
      && DeadSet(im', lists') == DeadSet(im, lists) + if SEP in key then {ListOf(key)} else {}
  {
    assert HeadOk(lists, ListOf(key));
    LooseElsewhere(im, lists, o);
    var im' := Reused(im, o, ListOf(key), key, data);
    assert Except(im, im', o);
    PutSpace(im, im', lists, ListOf(key), o);
  }

  lemma AppendedSpace(im: Image<Info>, lists: seq<seq<nat>>, o: nat, i: Info)
    requires Linked(im, lists, {}) && SepsFirst(im, lists) && o !in im.ptr && !DeadAt(im, lists, ListOf(i.key))
    requires ListOf(i.key) < NPTR && PTR_SZ * ListOf(i.key) in im.ptr
    ensures |lists[ListOf(i.key)]| > 0
    ensures var im', lists' := Appended(im, o, ListOf(i.key), i), Put(lists, ListOf(i.key), o);
      && FreeSizes(im', lists') == FreeSizes(im, lists) && SepsFirst(im', lists')
      && DeadSet(im', lists') == DeadSet(im, lists) + if SEP in i.key then {ListOf(i.key)} else {}
  {
    assert HeadOk(lists, ListOf(i.key));
    forall l: nat
      ensures Elsewhere(lists, l, o)
    {
      if l < |lists| {
        assert Spells(im.ptr, lists[l]);
        forall k: nat | k < |lists[l]|
          ensures lists[l][k] != o
        {
          assert Points(im.ptr, lists[l], k);
        }
      }
    }
    var im' := Appended(im, o, ListOf(i.key), i);
    assert Except(im, im', o);
    PutSpace(im, im', lists, ListOf(i.key), o);
  }

  lemma FreeHas(im: Image<Info>, lists: seq<seq<nat>>, keylen: nat, datlen: nat)
    requires |lists| > 0 && forall k: nat :: FreeAt(im, lists, k)
    ensures HasFree(im, lists, keylen, datlen) <==> (keylen, datlen) in FreeSizes(im, lists)
  {
    var s := lists[0];
    SizesHave(im, s, |s|, (keylen, datlen));
    if k: nat :| FitsFree(im, s, k, keylen, datlen) {
      assert SizeOf(im, s[k]) == (keylen, datlen);
    }
    if (keylen, datlen) in FreeSizes(im, lists) {
      var k :| 0 < k < |s| && SizeOf(im, s[k]) == (keylen, datlen);
      assert FreeAt(im, lists, k) && FitsFree(im, s, k, keylen, datlen);
    }
  }

  lemma RecordLength(idx: string, v: nat, key: string, datoff: nat, datlen: nat)
    requires v <= PTR_MAX && TailFits(key, datoff, datlen)
    ensures |WriteAt(idx, |idx|, Padded(PTR_SZ, v) + Body(key, datoff, datlen))| ==
      |idx| + PTR_SZ + IDXLEN_SZ + |Tail(key, datoff, datlen)|
  {
    PtrFieldLength(v);
    BodyFields(key, datoff, datlen);
  }

  /** A key found on a chain that can be read has no separator. */
  lemma ReadableKey(im: Image<Info>, lists: seq<seq<nat>>, l: nat, k: nat)
    requires SepsFirst(im, lists) && l < |lists| && 0 < k < |lists[l]| && lists[l][k] in im.info
    requires !DeadAt(im, lists, l)
    ensures SEP !in im.info[lists[l][k]].key
  {
    assert SepFirst(im, lists, l, k);
  }

  lemma {:induction false} ZerosLength(n: nat)
    ensures |Zeros(n)| == PTR_SZ * n
  {
    if n > 0 {
      ZerosLength(n - 1);
      PtrFieldLength(0);
    }
  }
}
