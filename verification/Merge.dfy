/**
 The merge of sorted runs of equal length that lie one after another in an
 array: again and again the least of the runs' first remaining elements is moved
 to the output. LONG_MAX stands for a run that is used up, so the search for the
 least passes over elements of that value and falls back on run 0.
 */
module Merge {

  const LONG_MAX := 0x7fff_ffff_ffff_ffff

  /** Where run i begins: i times the length. */
  function Begin(i: nat, len: nat): nat {
    if i == 0 then 0 else Begin(i - 1, len) + len
  }

  lemma {:induction false} BeginIs(i: nat, len: nat)
    ensures Begin(i, len) == i * len
  {
    if i > 0 {
      BeginIs(i - 1, len);
    }
  }

  lemma {:induction false} BeginBefore(i: nat, j: nat, len: nat)
    requires i <= j
    ensures Begin(i, len) <= Begin(j, len)
    decreases j
  {
    if i < j {
      BeginBefore(i, j - 1, len);
    }
  }

  ghost predicate InOrder(nums: seq<int>, lo: nat, hi: nat, a: nat, b: nat) {
    lo <= a <= b < hi <= |nums| ==> nums[a] <= nums[b]
  }

  ghost predicate SortedRun(nums: seq<int>, lo: nat, hi: nat)
    requires hi <= |nums|
  {
    forall a: nat, b: nat :: InOrder(nums, lo, hi, a, b)
  }

  /** The runs are sorted, and the elements are long integers. */
  ghost predicate Ready(nums: seq<int>, n: nat, len: nat) {
    && n > 0 && |nums| == Begin(n, len) && (forall a | 0 <= a < |nums| :: nums[a] <= LONG_MAX)
    && forall i: nat | i < n :: RunAt(nums, i, len)
  }

  ghost predicate RunAt(nums: seq<int>, i: nat, len: nat) {
    Begin(i, len) + len <= |nums| && SortedRun(nums, Begin(i, len), Begin(i, len) + len)
  }

  /** Each index is inside its run or at its end. */
  ghost predicate IndexAt(idx: seq<nat>, i: nat, len: nat) {
    i < |idx| ==> Begin(i, len) <= idx[i] <= Begin(i, len) + len
  }

  /** How often x occurs from place a up to place b. */
  ghost function Count(nums: seq<int>, x: int, a: nat, b: nat): nat {
    if b <= a || b > |nums| then 0 else Count(nums, x, a, b - 1) + if nums[b - 1] == x then 1 else 0
  }

  lemma {:induction false} CountThen(nums: seq<int>, x: int, a: nat, b: nat, c: nat)
    requires a <= b <= c <= |nums|
    ensures Count(nums, x, a, c) == Count(nums, x, a, b) + Count(nums, x, b, c)
    decreases c
  {
    if b < c {
      CountThen(nums, x, a, b, c - 1);
    }
  }

  lemma {:induction false} CountAll(nums: seq<int>, x: int, b: nat)
    requires b <= |nums|
    ensures Count(nums, x, 0, b) == multiset(nums[..b])[x]
  {
    if b > 0 {
      CountAll(nums, x, b - 1);
      assert nums[..b] == nums[..b - 1] + [nums[b - 1]];
    }
  }

  /** How often the first k runs have given x so far. */
  ghost function Given(nums: seq<int>, x: int, idx: seq<nat>, len: nat, k: nat): nat
    requires k <= |idx|
  {
    if k == 0 then 0 else Given(nums, x, idx, len, k - 1) + Count(nums, x, Begin(k - 1, len), idx[k - 1])
  }

  /** How many elements the first k runs have given. */
  ghost function Moved(idx: seq<nat>, len: nat, k: nat): int
    requires k <= |idx|
  {
    if k == 0 then 0 else Moved(idx, len, k - 1) + (idx[k - 1] - Begin(k - 1, len))
  }

  /** The elements of the runs that are still to come are not below x. */
  ghost predicate RestFrom(nums: seq<int>, idx: seq<nat>, len: nat, i: nat, x: int) {
    i < |idx| && Begin(i, len) + len <= |nums| ==> forall a: nat | idx[i] <= a < Begin(i, len) + len :: x <= nums[a]
  }

  lemma {:induction false} MovedStep(idx: seq<nat>, len: nat, m: nat, k: nat)
    requires m < |idx| && k <= |idx|
    ensures Moved(idx[m := idx[m] + 1], len, k) == Moved(idx, len, k) + if m < k then 1 else 0
  {
    if k > 0 {
      MovedStep(idx, len, m, k - 1);
    }
  }

  lemma {:induction false} GivenStep(nums: seq<int>, x: int, idx: seq<nat>, len: nat, m: nat, k: nat)
    requires m < |idx| && k <= |idx| && Begin(m, len) <= idx[m] < |nums|
    ensures Given(nums, x, idx[m := idx[m] + 1], len, k)
         == Given(nums, x, idx, len, k) + if m < k && nums[idx[m]] == x then 1 else 0
  {
    if k > 0 {
      GivenStep(nums, x, idx, len, m, k - 1);
    }
  }

  /** Run j is used up, or its first remaining element is not below x. */
  ghost predicate HeadFrom(nums: seq<int>, idx: seq<nat>, len: nat, j: nat, x: int) {
    j < |idx| && idx[j] < Begin(j, len) + len && idx[j] < |nums| ==> x <= nums[idx[j]]
  }

  lemma HeadThenRest(nums: seq<int>, idx: seq<nat>, len: nat, i: nat, x: int)
    requires RunAt(nums, i, len) && IndexAt(idx, i, len) && HeadFrom(nums, idx, len, i, x)
    ensures RestFrom(nums, idx, len, i, x)
  {
    forall a: nat | i < |idx| && idx[i] <= a < Begin(i, len) + len
      ensures x <= nums[a]
    {
      assert InOrder(nums, Begin(i, len), Begin(i, len) + len, idx[i], a);
    }
  }

  lemma RunEnds(nums: seq<int>, n: nat, len: nat, i: nat)
    requires Ready(nums, n, len) && i < n
    ensures Begin(i + 1, len) == Begin(i, len) + len <= |nums|
  {
    assert RunAt(nums, i, len);
  }

  /** No run offers an element below LONG_MAX. */
  ghost predicate Stuck(nums: seq<int>, idx: seq<nat>, len: nat) {
    forall i: nat :: HeadFrom(nums, idx, len, i, LONG_MAX)
  }

  ghost predicate Past(idx: seq<nat>, i: nat, len: nat) {
    i < |idx| ==> Begin(i, len) <= idx[i]
  }

  ghost predicate InRun(idx: seq<nat>, i: nat, len: nat) {
    i < |idx| && Begin(i, len) <= idx[i] < Begin(i, len) + len
  }

  /** Run m is not used up, and its first remaining element is the least of all and below LONG_MAX. */
  ghost predicate Chosen(nums: seq<int>, idx: seq<nat>, len: nat, m: nat) {
    && InRun(idx, m, len) && idx[m] < |nums| && nums[idx[m]] < LONG_MAX
    && forall i: nat :: HeadFrom(nums, idx, len, i, nums[idx[m]])
  }

  /** The run with the least first remaining element; run 0 if none is below LONG_MAX. */
  method Least(nums: array<int>, idx: array<nat>, len: nat) returns (minidx: nat)
    requires Ready(nums[..], idx.Length, len) && forall i: nat :: Past(idx[..], i, len)
    ensures minidx < idx.Length
    ensures if Stuck(nums[..], idx[..], len) then minidx == 0 else Chosen(nums[..], idx[..], len, minidx)
  {
    var num := LONG_MAX;
    minidx := 0;
    ghost var input, places := nums[..], idx[..];
    for i := 0 to idx.Length
      invariant num < LONG_MAX ==> minidx < i && InRun(places, minidx, len) && idx[minidx] < nums.Length
      invariant if num < LONG_MAX then num == nums[idx[minidx]] else num == LONG_MAX && minidx == 0
      invariant forall j: nat | j < i :: HeadFrom(input, places, len, j, num)
    {
      assert Past(places, i, len);
      RunEnds(input, idx.Length, len, i);
      BeginIs(i + 1, len);
      ghost var before := num;
      if idx[i] < (i + 1) * len && nums[idx[i]] < num {
        num := nums[idx[i]];
        minidx := i;
      }
      forall j: nat | j < i + 1
        ensures HeadFrom(input, places, len, j, num)
      {
        assert j < i ==> HeadFrom(input, places, len, j, before);
      }
    }
    if num < LONG_MAX {
      assert !HeadFrom(input, places, len, minidx, LONG_MAX);
    } else {
      assert forall j: nat :: HeadFrom(input, places, len, j, LONG_MAX);
    }
  }

  /** The output so far: sorted, made of what the runs gave, and not above what they still have. */
  ghost predicate Merged(nums: seq<int>, idx: seq<nat>, len: nat, done: seq<int>) {
    && (forall i: nat :: IndexAt(idx, i, len))
    && SortedRun(done, 0, |done|) && |done| == Moved(idx, len, |idx|)
    && (forall x: int :: multiset(done)[x] == Given(nums, x, idx, len, |idx|))
    && (forall i: nat :: AboveAll(nums, idx, len, i, done))
  }

  ghost predicate AboveAll(nums: seq<int>, idx: seq<nat>, len: nat, i: nat, done: seq<int>) {
    done != [] ==> RestFrom(nums, idx, len, i, done[|done| - 1])
  }

  lemma SortedMore(done: seq<int>, x: int)
    requires SortedRun(done, 0, |done|) && (done != [] ==> done[|done| - 1] <= x)
    ensures SortedRun(done + [x], 0, |done| + 1)
  {
    var more := done + [x];
    forall a: nat, b: nat
      ensures InOrder(more, 0, |more|, a, b)
    {
      assert InOrder(done, 0, |done|, a, b) && (done != [] ==> InOrder(done, 0, |done|, a, |done| - 1));
    }
  }

  lemma MoveOne(nums: seq<int>, idx: seq<nat>, len: nat, done: seq<int>, m: nat)
    requires Merged(nums, idx, len, done) && m < |idx| && |nums| == Begin(|idx|, len)
    requires idx[m] < Begin(m, len) + len <= |nums|
    requires forall i: nat :: RestFrom(nums, idx, len, i, nums[idx[m]])
    ensures Merged(nums, idx[m := idx[m] + 1], len, done + [nums[idx[m]]])
  {
    var idx', done' := idx[m := idx[m] + 1], done + [nums[idx[m]]];
    assert IndexAt(idx, m, len);
    forall i: nat
      ensures IndexAt(idx', i, len) && AboveAll(nums, idx', len, i, done')
    {
      assert IndexAt(idx, i, len) && RestFrom(nums, idx, len, i, nums[idx[m]]);
    }
    forall x: int
      ensures multiset(done')[x] == Given(nums, x, idx', len, |idx'|)
    {
      GivenStep(nums, x, idx, len, m, |idx|);
    }
    MovedStep(idx, len, m, |idx|);
    assert AboveAll(nums, idx, len, m, done);
    SortedMore(done, nums[idx[m]]);
  }

  lemma Started(nums: seq<int>, idx: seq<nat>, len: nat)
    requires forall i: nat | i < |idx| :: idx[i] == Begin(i, len)
    ensures Merged(nums, idx, len, [])
  {
    forall x: int
      ensures multiset([])[x] == Given(nums, x, idx, len, |idx|)
    {
      NothingYet(nums, x, idx, len, |idx|);
    }
    NothingYet(nums, 0, idx, len, |idx|);
  }

  lemma {:induction false} NothingYet(nums: seq<int>, x: int, idx: seq<nat>, len: nat, k: nat)
    requires k <= |idx| && forall i: nat | i < |idx| :: idx[i] == Begin(i, len)
    ensures Given(nums, x, idx, len, k) == 0 && Moved(idx, len, k) == 0
  {
    if k > 0 {
      NothingYet(nums, x, idx, len, k - 1);
    }
  }

  // ---- Elements that are LONG_MAX ----

  /** How often LONG_MAX occurs outside run 0. */
  ghost function Marks(nums: seq<int>, len: nat): nat {
    Count(nums, LONG_MAX, len, |nums|)
  }

  /** What a run other than run 0 has given is below LONG_MAX. */
  ghost predicate NoMark(nums: seq<int>, idx: seq<nat>, len: nat, i: nat) {
    0 < i < |idx| ==> forall a: nat | Begin(i, len) <= a < idx[i] && a < |nums| :: nums[a] < LONG_MAX
  }

  ghost predicate OnlyMarks(nums: seq<int>, a: nat, b: nat) {
    forall j | a <= j < b && j < |nums| :: nums[j] == LONG_MAX
  }

  lemma {:induction false} CountAtMost(nums: seq<int>, x: int, a: nat, b: nat)
    requires a <= b <= |nums|
    ensures Count(nums, x, a, b) <= b - a
    ensures Count(nums, x, a, b) == b - a <==> forall j | a <= j < b :: nums[j] == x
    decreases b
  {
    if a < b {
      CountAtMost(nums, x, a, b - 1);
    }
  }

  lemma {:induction false} CountNone(nums: seq<int>, x: int, a: nat, b: nat)
    requires a <= b <= |nums| && forall j | a <= j < b :: nums[j] != x
    ensures Count(nums, x, a, b) == 0
    decreases b
  {
    if a < b {
      CountNone(nums, x, a, b - 1);
    }
  }

  /** What run i has left is at least its LONG_MAX elements, and just those exactly when they are all it has left. */
  lemma MarksOfRun(nums: seq<int>, idx: seq<nat>, len: nat, i: nat)
    requires 0 < i < |idx| && RunAt(nums, i, len) && IndexAt(idx, i, len) && NoMark(nums, idx, len, i)
    ensures Count(nums, LONG_MAX, Begin(i, len), Begin(i + 1, len)) <= Begin(i + 1, len) - idx[i]
    ensures Count(nums, LONG_MAX, Begin(i, len), Begin(i + 1, len)) == Begin(i + 1, len) - idx[i] <==>
              OnlyMarks(nums, idx[i], Begin(i + 1, len))
  {
    var lo, hi := Begin(i, len), Begin(i + 1, len);
    CountThen(nums, LONG_MAX, lo, idx[i], hi);
    CountNone(nums, LONG_MAX, lo, idx[i]);
    CountAtMost(nums, LONG_MAX, idx[i], hi);
  }

  /** The first k runs but run 0 have nothing left but LONG_MAX. */
  ghost predicate Drained(nums: seq<int>, idx: seq<nat>, len: nat, k: nat) {
    forall i: nat | 0 < i < k && i < |idx| :: OnlyMarks(nums, idx[i], Begin(i + 1, len))
  }

  lemma DrainedMore(nums: seq<int>, idx: seq<nat>, len: nat, k: nat)
    requires 0 < k < |idx|
    ensures Drained(nums, idx, len, k + 1) <==>
              Drained(nums, idx, len, k) && OnlyMarks(nums, idx[k], Begin(k + 1, len))
  {
  }

  /** What the first k runs have left, run 0 aside. */
  ghost function LeftOver(idx: seq<nat>, len: nat, k: nat): int
    requires 0 < k <= |idx|
  {
    if k == 1 then 0 else LeftOver(idx, len, k - 1) + (Begin(k, len) - idx[k - 1])
  }

  lemma {:induction false} LeftOverIs(idx: seq<nat>, len: nat, k: nat)
    requires 0 < k <= |idx|
    ensures LeftOver(idx, len, k) == Begin(k, len) - Moved(idx, len, k) - (len - idx[0])
  {
    if k == 1 {
      assert Moved(idx, len, 1) == Moved(idx, len, 0) + (idx[0] - Begin(0, len));
      assert Begin(1, len) == Begin(0, len) + len;
    } else {
      LeftOverIs(idx, len, k - 1);
    }
  }

  lemma {:induction false} MarksLeft(nums: seq<int>, idx: seq<nat>, len: nat, k: nat)
    requires Ready(nums, |idx|, len) && 0 < k <= |idx|
    requires forall i: nat :: IndexAt(idx, i, len) && NoMark(nums, idx, len, i)
    ensures len <= Begin(k, len) <= |nums| && Count(nums, LONG_MAX, len, Begin(k, len)) <= LeftOver(idx, len, k)
    ensures Count(nums, LONG_MAX, len, Begin(k, len)) == LeftOver(idx, len, k) <==> Drained(nums, idx, len, k)
  {
    RunEnds(nums, |idx|, len, k - 1);
    if k == 1 {
      assert Begin(1, len) == Begin(0, len) + len;
    } else {
      MarksLeft(nums, idx, len, k - 1);
      assert RunAt(nums, k - 1, len) && IndexAt(idx, k - 1, len) && NoMark(nums, idx, len, k - 1);
      MarksOfRun(nums, idx, len, k - 1);
      DrainedMore(nums, idx, len, k - 1);
      CountThen(nums, LONG_MAX, len, Begin(k - 1, len), Begin(k, len));
    }
  }

  /** What the drained runs have given is all of their elements but the LONG_MAX that are left. */
  lemma {:induction false} DrainedGave(nums: seq<int>, x: int, idx: seq<nat>, len: nat, k: nat)
    requires Ready(nums, |idx|, len) && 0 < k <= |idx| && Drained(nums, idx, len, k) && idx[0] == len
    requires forall i: nat :: IndexAt(idx, i, len) && NoMark(nums, idx, len, i)
    ensures len <= Begin(k, len) <= |nums|
    ensures Given(nums, x, idx, len, k) == Count(nums, x, 0, if x == LONG_MAX then len else Begin(k, len))
  {
    RunEnds(nums, |idx|, len, k - 1);
    if k == 1 {
      assert Given(nums, x, idx, len, 1) == Given(nums, x, idx, len, 0) + Count(nums, x, Begin(0, len), idx[0]);
      assert Begin(1, len) == Begin(0, len) + len;
    } else {
      DrainedGave(nums, x, idx, len, k - 1);
      assert IndexAt(idx, k - 1, len) && NoMark(nums, idx, len, k - 1);
      assert OnlyMarks(nums, idx[k - 1], Begin(k, len));
      if x == LONG_MAX {
        CountNone(nums, x, Begin(k - 1, len), idx[k - 1]);
      } else {
        CountNone(nums, x, idx[k - 1], Begin(k, len));
        CountThen(nums, x, 0, Begin(k - 1, len), Begin(k, len));
        CountThen(nums, x, Begin(k - 1, len), idx[k - 1], Begin(k, len));
      }
    }
  }

  // ---- The whole merge ----

  /** How many of the output's elements have been read behind the end of run 0. */
  ghost function Wild(nums: seq<int>, len: nat, done: nat): nat {
    if done + Marks(nums, len) <= |nums| then 0 else done + Marks(nums, len) - |nums|
  }

  /** A merge in which only run 0 has given LONG_MAX; stated so that it is opened on demand. */
  ghost predicate Proper(nums: seq<int>, idx: seq<nat>, len: nat, done: seq<int>) {
    forall u: int :: ProperNow(u, nums, idx, len, done)
  }

  ghost predicate ProperNow(u: int, nums: seq<int>, idx: seq<nat>, len: nat, done: seq<int>) {
    Merged(nums, idx, len, done) && forall i: nat :: NoMark(nums, idx, len, i)
  }

  /**
   The state of the merge: up to the end less as many places as LONG_MAX occurs outside run 0 it
   is proper, and what follows has been read behind the end of run 0.
   */
  ghost predicate Phase(nums: seq<int>, idx: seq<nat>, len: nat, done: seq<int>, was: seq<nat>, good: seq<int>) {
    var w := Wild(nums, len, |done|);
    && |was| > 0 && idx == was[0 := was[0] + w] && (w > 0 ==> was[0] == len)
    && len + w <= |nums| && done == good + nums[len..len + w]
    && Proper(nums, was, len, good)
  }

  /** When only the LONG_MAX outside run 0 are left, run 0 is used up and nothing else remains. */
  lemma AtCut(nums: seq<int>, idx: seq<nat>, len: nat, done: seq<int>)
    requires Ready(nums, |idx|, len) && Proper(nums, idx, len, done)
    ensures |done| + Marks(nums, len) <= |nums| && 0 <= idx[0] <= len
    ensures |done| + Marks(nums, len) == |nums| <==> idx[0] == len && Stuck(nums, idx, len)
    ensures |done| + Marks(nums, len) == |nums| ==> Drained(nums, idx, len, |idx|)
  {
    assert ProperNow(0, nums, idx, len, done);
    assert IndexAt(idx, 0, len);
    MarksLeft(nums, idx, len, |idx|);
    LeftOverIs(idx, len, |idx|);
    forall i: nat | 0 < i < |idx|
      ensures HeadFrom(nums, idx, len, i, LONG_MAX) <==> OnlyMarks(nums, idx[i], Begin(i + 1, len))
    {
      assert RunAt(nums, i, len) && IndexAt(idx, i, len);
      if HeadFrom(nums, idx, len, i, LONG_MAX) {
        HeadThenRest(nums, idx, len, i, LONG_MAX);
      }
    }
  }

  lemma MarksFit(nums: seq<int>, n: nat, len: nat)
    requires Ready(nums, n, len)
    ensures len + Marks(nums, len) <= |nums|
  {
    RunEnds(nums, n, len, 0);
    CountAtMost(nums, LONG_MAX, len, |nums|);
  }

  /** The least head is moved, or LONG_MAX from run 0 when no head is below it. */
  lemma ProperMove(nums: seq<int>, idx: seq<nat>, len: nat, done: seq<int>, m: nat)
    requires Ready(nums, |idx|, len) && Proper(nums, idx, len, done) && |done| + Marks(nums, len) < |nums|
    requires m < |idx| && if Stuck(nums, idx, len) then m == 0 else Chosen(nums, idx, len, m)
    ensures idx[m] < |nums| && InRun(idx, m, len)
    ensures Proper(nums, idx[m := idx[m] + 1], len, done + [nums[idx[m]]])
  {
    AtCut(nums, idx, len, done);
    assert ProperNow(0, nums, idx, len, done);
    assert IndexAt(idx, 0, len) && IndexAt(idx, m, len) && RunAt(nums, m, len);
    assert HeadFrom(nums, idx, len, m, if Stuck(nums, idx, len) then LONG_MAX else nums[idx[m]]);
    forall i: nat
      ensures RestFrom(nums, idx, len, i, nums[idx[m]])
    {
      if i < |idx| {
        assert RunAt(nums, i, len) && IndexAt(idx, i, len) && HeadFrom(nums, idx, len, i, nums[idx[m]]);
        HeadThenRest(nums, idx, len, i, nums[idx[m]]);
      }
    }
    MoveOne(nums, idx, len, done, m);
    var idx' := idx[m := idx[m] + 1];
    forall i: nat
      ensures NoMark(nums, idx', len, i)
    {
      assert NoMark(nums, idx, len, i);
    }
  }

  lemma ProperRound(nums: seq<int>, idx: seq<nat>, len: nat, done: seq<int>, was: seq<nat>, good: seq<int>, m: nat)
    requires Ready(nums, |idx|, len) && Phase(nums, idx, len, done, was, good)
    requires |done| + Marks(nums, len) < |nums|
    requires m < |idx| && if Stuck(nums, idx, len) then m == 0 else Chosen(nums, idx, len, m)
    ensures idx[m] < |nums| && InRun(idx, m, len)
    ensures var idx', done' := idx[m := idx[m] + 1], done + [nums[idx[m]]];
            Phase(nums, idx', len, done', idx', done')
  {
    assert was == idx && good == done;
    ProperMove(nums, idx, len, done, m);
  }

  /** When only the LONG_MAX outside run 0 are left, a round reads on behind the end of run 0. */
  lemma WildRound(nums: seq<int>, idx: seq<nat>, len: nat, done: seq<int>, was: seq<nat>, good: seq<int>)
    requires Ready(nums, |idx|, len) && Phase(nums, idx, len, done, was, good)
    requires |nums| <= |done| + Marks(nums, len) && |done| < |nums|
    ensures Stuck(nums, idx, len) && idx[0] < |nums| && !InRun(idx, 0, len)
    ensures Phase(nums, idx[0 := idx[0] + 1], len, done + [nums[idx[0]]], was, good)
  {
    AtCut(nums, was, len, good);
    forall i: nat
      ensures HeadFrom(nums, idx, len, i, LONG_MAX)
    {
      assert HeadFrom(nums, was, len, i, LONG_MAX);
    }
    MarksFit(nums, |idx|, len);
    var w := Wild(nums, len, |done|);
    assert nums[len..len + (w + 1)] == nums[len..len + w] + [nums[len + w]];
  }

  lemma AllPast(nums: seq<int>, idx: seq<nat>, len: nat, done: seq<int>, was: seq<nat>, good: seq<int>)
    requires Phase(nums, idx, len, done, was, good)
    ensures forall i: nat :: Past(idx, i, len)
  {
    assert ProperNow(0, nums, was, len, good);
    forall i: nat
      ensures Past(idx, i, len)
    {
      assert IndexAt(was, i, len);
    }
  }

  /** One round of the merge; outside says that the element is read outside its run. */
  method MoveLeast(nums: array<int>, snums: array<int>, idx: array<nat>, len: nat, sidx: nat,
                   ghost was: seq<nat>, ghost good: seq<int>)
    returns (ghost outside: bool, ghost was': seq<nat>, ghost good': seq<int>)
    requires Ready(nums[..], idx.Length, len) && sidx < snums.Length == nums.Length && snums != nums
    requires Phase(nums[..], idx[..], len, snums[..sidx], was, good)
    modifies snums, idx
    ensures Phase(nums[..], idx[..], len, snums[..sidx + 1], was', good')
    ensures outside <==> nums.Length <= sidx + Marks(nums[..], len)
  {
    ghost var input, places, done := nums[..], idx[..], snums[..sidx];
    AllPast(input, places, len, done, was, good);
    var minidx := Least(nums, idx, len);
    outside := !InRun(places, minidx, len);
    if |done| + Marks(input, len) < |input| {
      ProperRound(input, places, len, done, was, good, minidx);
      was', good' := places[minidx := places[minidx] + 1], done + [input[places[minidx]]];
    } else {
      WildRound(input, places, len, done, was, good);
      was', good' := was, good;
    }
    snums[sidx] := nums[idx[minidx]];
    idx[minidx] := idx[minidx] + 1;
    assert idx[..] == places[minidx := places[minidx] + 1];
    assert snums[..sidx + 1] == done + [input[places[minidx]]];
  }

  /**
   What a merge gives: with c the number of LONG_MAX outside run 0, all elements but those c,
   sorted, and then the first c elements behind run 0 once more.
   */
  ghost predicate Outcome(nums: seq<int>, len: nat, s: seq<int>) {
    var c := Marks(nums, len);
    && |s| == |nums| && len + c <= |nums|
    && SortedRun(s[..|nums| - c], 0, |nums| - c) && s[|nums| - c..] == nums[len..len + c]
    && multiset(s[..|nums| - c]) == multiset(nums)[LONG_MAX := Count(nums, LONG_MAX, 0, len)]
  }

  lemma PhaseEnds(nums: seq<int>, idx: seq<nat>, len: nat, s: seq<int>, was: seq<nat>, good: seq<int>)
    requires Ready(nums, |idx|, len) && Phase(nums, idx, len, s, was, good) && |s| == |nums|
    ensures Outcome(nums, len, s) && Wild(nums, len, |s|) == Marks(nums, len)
    ensures SortedRun(s, 0, |s|) && multiset(s) == multiset(nums) <==> OnlyMarks(nums, len, len + Marks(nums, len))
  {
    var c := Marks(nums, len);
    MarksFit(nums, |idx|, len);
    AtCut(nums, was, len, good);
    assert s[..|nums| - c] == good && s[|nums| - c..] == nums[len..len + c];
    DrainedGood(nums, was, len, good);
    SortsWhen(nums, |idx|, len, s);
  }

  lemma DrainedGood(nums: seq<int>, idx: seq<nat>, len: nat, good: seq<int>)
    requires Ready(nums, |idx|, len) && Proper(nums, idx, len, good) && |good| + Marks(nums, len) == |nums|
    ensures SortedRun(good, 0, |good|)
    ensures multiset(good) == multiset(nums)[LONG_MAX := Count(nums, LONG_MAX, 0, len)]
  {
    AtCut(nums, idx, len, good);
    assert ProperNow(0, nums, idx, len, good);
    assert nums[..|nums|] == nums;
    forall x: int
      ensures multiset(good)[x] == multiset(nums)[LONG_MAX := Count(nums, LONG_MAX, 0, len)][x]
    {
      DrainedGave(nums, x, idx, len, |idx|);
      CountAll(nums, x, |nums|);
    }
  }

  lemma SortedWithMarks(good: seq<int>, bad: seq<int>)
    requires SortedRun(good, 0, |good|) && (forall j | 0 <= j < |bad| :: bad[j] == LONG_MAX)
    requires forall j | 0 <= j < |good| :: good[j] <= LONG_MAX
    ensures SortedRun(good + bad, 0, |good + bad|)
  {
    var s := good + bad;
    forall a: nat, b: nat
      ensures InOrder(s, 0, |s|, a, b)
    {
      assert InOrder(good, 0, |good|, a, b);
    }
  }

  lemma {:induction false} OnlyOneValue(s: seq<int>, x: int)
    requires forall j | 0 <= j < |s| :: s[j] == x
    ensures multiset(s) == multiset{}[x := |s|]
  {
    if s != [] {
      OnlyOneValue(s[..|s| - 1], x);
      assert s == s[..|s| - 1] + [x];
    }
  }

  lemma JoinSorts(nums: seq<int>, good: seq<int>, bad: seq<int>)
    requires SortedRun(good, 0, |good|) && (forall j | 0 <= j < |good| :: good[j] <= LONG_MAX)
    requires |bad| <= multiset(nums)[LONG_MAX]
    requires multiset(good) == multiset(nums)[LONG_MAX := multiset(nums)[LONG_MAX] - |bad|]
    ensures SortedRun(good + bad, 0, |good + bad|) && multiset(good + bad) == multiset(nums) <==>
              forall j | 0 <= j < |bad| :: bad[j] == LONG_MAX
  {
    if forall j | 0 <= j < |bad| :: bad[j] == LONG_MAX {
      SortedWithMarks(good, bad);
      OnlyOneValue(bad, LONG_MAX);
    }
    if multiset(good + bad) == multiset(nums) {
      forall j | 0 <= j < |bad|
        ensures bad[j] == LONG_MAX
      {
        assert bad[j] in multiset(bad);
        assert multiset(good + bad)[bad[j]] == multiset(good)[bad[j]] + multiset(bad)[bad[j]];
      }
    }
  }

  lemma LegalGood(nums: seq<int>, good: seq<int>, c: nat)
    requires (forall a | 0 <= a < |nums| :: nums[a] <= LONG_MAX) && multiset(good) == multiset(nums)[LONG_MAX := c]
    ensures forall j | 0 <= j < |good| :: good[j] <= LONG_MAX
  {
    forall j | 0 <= j < |good|
      ensures good[j] <= LONG_MAX
    {
      assert good[j] in multiset(good);
      assert good[j] == LONG_MAX || good[j] in multiset(nums);
    }
  }

  /** The output is a sorted permutation exactly when the elements read twice are LONG_MAX too. */
  lemma SortsWhen(nums: seq<int>, n: nat, len: nat, s: seq<int>)
    requires Ready(nums, n, len) && Outcome(nums, len, s)
    ensures SortedRun(s, 0, |s|) && multiset(s) == multiset(nums) <==> OnlyMarks(nums, len, len + Marks(nums, len))
  {
    var c := Marks(nums, len);
    var good, bad := s[..|nums| - c], s[|nums| - c..];
    MarksAll(nums, len);
    LegalGood(nums, good, Count(nums, LONG_MAX, 0, len));
    JoinSorts(nums, good, bad);
    assert s == good + bad;
    assert forall j | 0 <= j < c :: bad[j] == nums[len + j];
    assert forall j | len <= j < len + c :: nums[j] == bad[j - len];
  }

  lemma MarksAll(nums: seq<int>, len: nat)
    requires len <= |nums|
    ensures multiset(nums)[LONG_MAX] == Count(nums, LONG_MAX, 0, len) + Marks(nums, len)
  {
    CountThen(nums, LONG_MAX, 0, len, |nums|);
    CountAll(nums, LONG_MAX, |nums|);
    assert nums[..|nums|] == nums;
  }

  method Begins(n: nat, len: nat) returns (idx: array<nat>)
    ensures fresh(idx) && idx.Length == n && forall j: nat | j < n :: idx[j] == Begin(j, len)
  {
    idx := new nat[n];
    for i := 0 to n
      invariant forall j: nat | j < i :: idx[j] == Begin(j, len)
    {
      BeginIs(i, len);
      idx[i] := i * len;
    }
  }

  /**
   The runs in nums are merged into snums. As many elements are read outside their run as
   LONG_MAX occurs outside run 0, and none of them outside the array. If there is none, and only
   then or when the elements read twice are LONG_MAX themselves, the output is a sorted permutation.
   */
  method MergeRuns(nums: array<int>, snums: array<int>, n: nat, len: nat) returns (ghost outside: nat)
    requires Ready(nums[..], n, len) && snums.Length == nums.Length && snums != nums
    modifies snums
    ensures Outcome(nums[..], len, snums[..]) && outside == Marks(nums[..], len)
    ensures SortedRun(snums[..], 0, snums.Length) && multiset(snums[..]) == multiset(nums[..])
       <==> OnlyMarks(nums[..], len, len + outside)
  {
    var idx := Begins(n, len);
    ghost var input, was, good := nums[..], idx[..], [];
    StartsPhase(input, was, len);
    assert snums[..0] == [];
    outside := 0;
    for sidx := 0 to nums.Length
      invariant nums[..] == input && Phase(input, idx[..], len, snums[..sidx], was, good)
      invariant outside == Wild(input, len, sidx)
    {
      ghost var o;
      o, was, good := MoveLeast(nums, snums, idx, len, sidx, was, good);
      outside := outside + if o then 1 else 0;
    }
    assert snums[..nums.Length] == snums[..];
    PhaseEnds(input, idx[..], len, snums[..], was, good);
  }

  lemma StartsPhase(nums: seq<int>, idx: seq<nat>, len: nat)
    requires Ready(nums, |idx|, len) && forall i: nat | i < |idx| :: idx[i] == Begin(i, len)
    ensures Phase(nums, idx, len, [], idx, [])
  {
    Started(nums, idx, len);
    MarksFit(nums, |idx|, len);
  }

  /** Two runs of two: the last element is lost, and the third comes twice. */
  lemma MarkIsLost(s: seq<int>)
    requires Outcome([1, 2, 3, LONG_MAX], 2, s)
    ensures s == [1, 2, 3, 3] && multiset(s) != multiset([1, 2, 3, LONG_MAX])
  {
    var nums := [1, 2, 3, LONG_MAX];
    assert Count(nums, LONG_MAX, 2, 4) == 1 && Count(nums, LONG_MAX, 0, 2) == 0;
    var good := s[..3];
    assert multiset(good) == multiset{1, 2, 3};
    OneTwoThree(good);
    assert s == good + s[3..] && s[3..] == [3];
    assert LONG_MAX !in multiset([1, 2, 3, 3]) && LONG_MAX in multiset(nums);
  }

  lemma OneTwoThree(good: seq<int>)
    requires |good| == 3 && SortedRun(good, 0, 3) && multiset(good) == multiset{1, 2, 3}
    ensures good == [1, 2, 3]
  {
    assert InOrder(good, 0, 3, 0, 1) && InOrder(good, 0, 3, 1, 2);
    assert good == [good[0], good[1], good[2]];
    assert good[0] in multiset(good) && good[1] in multiset(good) && good[2] in multiset(good);
    assert 1 in multiset(good) && 2 in multiset(good) && 3 in multiset(good);
  }
}
