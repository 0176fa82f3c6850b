/**
 Running constructors and destructors: any number of threads, each with a stack
 of constructor queues that it works through, the nested ones opened from inside
 a constructor of the one below. A step is what a thread does under the lock
 between two points where it gives the lock up; waiting on the condition
 variable is being unable to take a step.
 */
module CtorProtocol {
  import opened DsoGraph
  import opened CtorQueue

  type Tid = nat

  /** One call that works through a queue: it is at entry i, and may be inside its constructor. */
  datatype Frame = Frame(queue: seq<nat>, i: nat, running: bool)

  datatype Exit = NoExit | Exiting(t: Tid, pos: nat)

  datatype State = State(
    visitor: map<nat, Tid>,       // the thread inside the constructor of a DSO
    constructed: set<nat>,
    fini: seq<nat>,               // the list from fini_head on
    exit: Exit,                   // shutting down, and how far down the list
    frames: map<Tid, seq<Frame>>,
    started: seq<nat>,            // history: the constructors in the order of their starts
    destroyed: seq<nat>)          // history: the destructors in the order in which they ran

  function FramesOf(s: State, t: Tid): seq<Frame> {
    if t in s.frames then s.frames[t] else []
  }

  function Top(s: State, t: Tid): Frame
    requires FramesOf(s, t) != []
  {
    FramesOf(s, t)[|FramesOf(s, t)| - 1]
  }

  function WithTop(s: State, t: Tid, f: Frame): map<Tid, seq<Frame>>
    requires FramesOf(s, t) != []
  {
    s.frames[t := FramesOf(s, t)[|FramesOf(s, t)| - 1 := f]]
  }

  /** Whether a DSO has destructors does not change. */
  type Finis = set<nat>

  datatype Action =
    | Enter(t: Tid, queue: seq<nat>)
    | Pass(t: Tid) | Start(t: Tid) | Finish(t: Tid) | Leave(t: Tid)
    | BeginExit(t: Tid) | Destroy(t: Tid)

  /** The thread is at an entry of its queue and is neither waiting nor on its way out. */
  predicate AtEntry(s: State, t: Tid) {
    && FramesOf(s, t) != [] && s.exit.NoExit?
    && var f := Top(s, t);
    !f.running && f.i < |f.queue| && (f.queue[f.i] in s.visitor ==> s.visitor[f.queue[f.i]] == t)
  }

  predicate Enabled(s: State, a: Action) {
    match a
    case Enter(t, queue) => InUserCode(s, t)
    case Pass(t) => AtEntry(s, t) && var p := Top(s, t).queue[Top(s, t).i]; p in s.visitor || p in s.constructed
    case Start(t) => AtEntry(s, t) && var p := Top(s, t).queue[Top(s, t).i]; p !in s.visitor && p !in s.constructed
    case Finish(t) => FramesOf(s, t) != [] && InUserCode(s, t) && Top(s, t).i < |Top(s, t).queue|
    case Leave(t) => FramesOf(s, t) != [] && !Top(s, t).running && Top(s, t).i >= |Top(s, t).queue|
    case BeginExit(t) => s.exit.NoExit? && InUserCode(s, t)
    case Destroy(t) =>
      && s.exit.Exiting? && s.exit.t == t && s.exit.pos < |s.fini|
      && (s.fini[s.exit.pos] in s.visitor ==> s.visitor[s.fini[s.exit.pos]] == t)
  }

  /** The thread runs the program's code: outside any queue, or inside a constructor. */
  predicate InUserCode(s: State, t: Tid) {
    !(s.exit.Exiting? && s.exit.t == t) && (FramesOf(s, t) == [] || Top(s, t).running)
  }

  function Next(s: State, a: Action, finis: Finis): State
    requires Enabled(s, a)
  {
    match a
    case Enter(t, queue) => s.(frames := s.frames[t := FramesOf(s, t) + [Frame(queue, 0, false)]])
    case Pass(t) =>
      s.(frames := WithTop(s, t, Top(s, t).(i := Top(s, t).i + 1)))
    case Start(t) =>
      var p := Top(s, t).queue[Top(s, t).i];
      s.(visitor := s.visitor[p := t], fini := if p in finis then [p] + s.fini else s.fini,
         frames := WithTop(s, t, Top(s, t).(running := true)), started := s.started + [p])
    case Finish(t) =>
      var p := Top(s, t).queue[Top(s, t).i];
      s.(visitor := s.visitor - {p}, constructed := s.constructed + {p},
         frames := WithTop(s, t, Top(s, t).(running := false, i := Top(s, t).i + 1)))
    case Leave(t) => s.(frames := s.frames[t := FramesOf(s, t)[..|FramesOf(s, t)| - 1]])
    case BeginExit(t) => s.(exit := Exiting(t, 0))
    case Destroy(t) =>
      var p := s.fini[s.exit.pos];
      s.(exit := Exiting(t, s.exit.pos + 1),
         destroyed := if p in s.constructed then s.destroyed + [p] else s.destroyed)
  }

  function Initial(): State {
    State(map[], {}, [], NoExit, map[], [], [])
  }

  // ---- The invariant ----

  /** The constructed DSOs of the list, in its order. */
  function Built(list: seq<nat>, constructed: set<nat>): seq<nat> {
    if list == [] then []
    else Built(list[..|list| - 1], constructed)
         + if list[|list| - 1] in constructed then [list[|list| - 1]] else []
  }

  /** The DSOs with destructors among those started, last first. */
  function FiniList(started: seq<nat>, finis: Finis): seq<nat> {
    if started == [] then []
    else (if started[|started| - 1] in finis then [started[|started| - 1]] else [])
         + FiniList(started[..|started| - 1], finis)
  }

  ghost predicate Done(s: State, t: Tid, p: nat) {
    p in s.constructed || (p in s.visitor && s.visitor[p] == t)
  }

  /** A frame below another is inside a constructor; what a frame has passed is done. */
  ghost predicate FrameOk(s: State, t: Tid, k: nat) {
    k < |FramesOf(s, t)| ==>
      var f := FramesOf(s, t)[k];
      && (k + 1 < |FramesOf(s, t)| ==> f.running)
      && f.i <= |f.queue|
      && (f.running ==> f.i < |f.queue| && f.queue[f.i] in s.visitor && s.visitor[f.queue[f.i]] == t)
      && forall j | 0 <= j < f.i :: Done(s, t, f.queue[j])
  }

  ghost predicate Runs(s: State, t: Tid, k: nat, p: nat) {
    k < |FramesOf(s, t)| && var f := FramesOf(s, t)[k]; f.running && f.i < |f.queue| && f.queue[f.i] == p
  }

  /** No constructor runs in two frames. */
  ghost predicate RunsOnce(s: State, t: Tid, k: nat, l: nat, p: nat) {
    Runs(s, t, k, p) && Runs(s, t, l, p) ==> k == l
  }

  ghost predicate DsoOk(s: State, p: nat) {
    && (p in s.visitor ==> p !in s.constructed && exists k: nat :: Runs(s, s.visitor[p], k, p))
    && (p in s.started <==> p in s.visitor || p in s.constructed)
  }

  ghost predicate ExitOk(s: State) {
    match s.exit
    case NoExit => s.destroyed == []
    case Exiting(t, pos) =>
      && pos <= |s.fini| && s.destroyed == Built(s.fini[..pos], s.constructed)
      && forall k | 0 <= k < pos :: Done(s, t, s.fini[k])
  }

  ghost predicate Sound(s: State, finis: Finis) {
    && (forall t: Tid, k: nat :: FrameOk(s, t, k))
    && (forall t: Tid, k: nat, l: nat, p: nat :: RunsOnce(s, t, k, l, p))
    && (forall p: nat :: DsoOk(s, p))
    && NoDup(s.started) && s.fini == FiniList(s.started, finis) && ExitOk(s)
  }
}
