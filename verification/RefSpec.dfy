/**
 The reference-counted hash table, as a table of lists: what alloc, hold, find
 and release do when each is one atomic step. An object is named by its address;
 list h begins with the cell of the table slot h, and 0 is the null pointer.
 */
module RefSpec {
  import opened Links

  const NHASH := 29
  const ULONG := 0x1_0000_0000_0000_0000

  /** HASH(id): the id as an unsigned long, reduced to a table slot. */
  function Bucket(id: int): (h: nat)
    ensures h < NHASH
  {
    id % ULONG % NHASH
  }

  datatype Table = Table(lists: seq<seq<nat>>, id: map<nat, int>, count: map<nat, int>)

  datatype Op =
    | AllocOp(o: nat, i: int)
    | HoldOp(o: nat)
    | FindOp(i: int)
    | ReleOp(o: nat)

  /** The first object from place k on whose id is i, or null. */
  function FirstFrom(s: seq<nat>, id: map<nat, int>, i: int, k: nat): nat
    decreases |s| - k
  {
    if k >= |s| then 0
    else if s[k] in id && id[s[k]] == i then s[k]
    else FirstFrom(s, id, i, k + 1)
  }

  /** The object that find returns: the first of its slot with that id. */
  function Found(t: Table, i: int): nat
  {
    if Bucket(i) < |t.lists| then FirstFrom(t.lists[Bucket(i)], t.id, i, 1) else 0
  }

  /** The list without its first occurrence of x. */
  function Dropped(s: seq<nat>, x: nat): seq<nat> {
    if s == [] then [] else if s[0] == x then s[1..] else [s[0]] + Dropped(s[1..], x)
  }

  /** What an operation makes of the table, and what it returns. */
  function Apply(t: Table, op: Op): (Table, nat) {
    match op
    case AllocOp(o, i) =>
      if Bucket(i) < |t.lists| && |t.lists[Bucket(i)]| > 0
      then (Table(t.lists[Bucket(i) := Pushed(t.lists[Bucket(i)], o)], t.id[o := i], t.count[o := 1]), o)
      else (t, 0)
    case HoldOp(o) => (Incremented(t, o, 1), 0)
    case FindOp(i) => (Incremented(t, Found(t, i), 1), Found(t, i))
    case ReleOp(o) =>
      if o in t.count && o in t.id && t.count[o] == 1 && Bucket(t.id[o]) < |t.lists|
      then var h := Bucket(t.id[o]);
           (Table(t.lists[h := Dropped(t.lists[h], o)], t.id - {o}, t.count - {o}), 0)
      else (Incremented(t, o, -1), 0)
  }

  function Incremented(t: Table, o: nat, n: int): Table {
    if o in t.count then t.(count := t.count[o := t.count[o] + n]) else t
  }

  // ---- Facts about lists ----

  lemma {:induction false} DroppedAt(s: seq<nat>, k: nat)
    requires k < |s| && forall i, j | 0 <= i < |s| && 0 <= j < |s| && s[i] == s[j] :: i == j
    ensures Dropped(s, s[k]) == Without(s, k)
  {
    if k > 0 {
      assert s[1..][k - 1] == s[k];
      DroppedAt(s[1..], k - 1);
      assert [s[0]] + Without(s[1..], k - 1) == Without(s, k);
    }
  }

  lemma {:induction false} FirstIs(s: seq<nat>, id: map<nat, int>, i: int, a: nat, k: nat)
    requires a <= k < |s| && s[k] in id && id[s[k]] == i
    requires forall j | a <= j < k :: !(s[j] in id && id[s[j]] == i)
    ensures FirstFrom(s, id, i, a) == s[k]
    decreases k - a
  {
    if a < k {
      FirstIs(s, id, i, a + 1, k);
    }
  }

  lemma {:induction false} FirstIsNone(s: seq<nat>, id: map<nat, int>, i: int, a: nat)
    requires forall j | a <= j < |s| :: !(s[j] in id && id[s[j]] == i)
    ensures FirstFrom(s, id, i, a) == 0
    decreases |s| - a
  {
    if a < |s| {
      FirstIsNone(s, id, i, a + 1);
    }
  }
}
