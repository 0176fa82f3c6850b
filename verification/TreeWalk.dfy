/**
 The recursive walk over a file tree, with one path buffer that every level
 edits in place and that is doubled when it may not hold another name.
 */
module TreeWalk {

  const NUL := '\0'
  const NAME_MAX := 255

  datatype Kind = Regular | Block | CharDev | Fifo | Symlink | Socket | OtherKind

  /** What lstat and opendir find at a path; a directory lists its names in the order of readdir. */
  datatype Node =
    | NoStat
    | File(kind: Kind)
    | Dir(readable: bool, entries: seq<Entry>)
  datatype Entry = Entry(name: string, node: Node)

  datatype Call =
    | OnFile(path: string, kind: Kind)
    | OnDir(path: string)
    | OnUnreadable(path: string)
    | OnNoStat(path: string)

  /** What the function that is called for each file returns, call by call; 0 from some call on. */
  type Answers = seq<int>

  function Answer(f: Answers, n: nat): int {
    if n < |f| then f[n] else 0
  }

  // ---- The calls to make ----

  predicate IsDots(name: string) {
    name == "." || name == ".."
  }

  /** The calls of a full walk, parents before children, without dot and dot-dot. */
  function Preorder(path: string, node: Node): seq<Call>
    decreases node, 1, 0
  {
    match node
    case NoStat => [OnNoStat(path)]
    case File(kind) => [OnFile(path, kind)]
    case Dir(readable, entries) =>
      [OnDir(path)] + if readable then Below(path + "/", node, |entries|) else [OnUnreadable(path + "/")]
  }

  /** The calls for the first n entries of a directory. */
  function Below(prefix: string, node: Node, n: nat): seq<Call>
    requires node.Dir? && n <= |node.entries|
    decreases node, 0, n
  {
    if n == 0 then [] else
      Below(prefix, node, n - 1) +
      if IsDots(node.entries[n - 1].name) then []
      else Preorder(prefix + node.entries[n - 1].name, node.entries[n - 1].node)
  }

  /** Of m calls to make from the n-th on, how many are made: up to the first answer that is not 0. */
  function Made(f: Answers, n: nat, m: nat): (k: nat)
    ensures k <= m
    decreases m
  {
    if m == 0 then 0 else if Answer(f, n) != 0 then 1 else 1 + Made(f, n + 1, m - 1)
  }

  /** That answer, or 0. */
  function Outcome(f: Answers, n: nat, m: nat): int
    decreases m
  {
    if m == 0 then 0 else if Answer(f, n) != 0 then Answer(f, n) else Outcome(f, n + 1, m - 1)
  }

  /** The calls h followed by those of todo, cut at the first answer that is not 0. */
  function Cut(f: Answers, h: seq<Call>, todo: seq<Call>): seq<Call> {
    h + todo[..Made(f, |h|, |todo|)]
  }

  function Result(f: Answers, h: seq<Call>, todo: seq<Call>): int {
    Outcome(f, |h|, |todo|)
  }

  lemma {:induction false} MadeThen(f: Answers, n: nat, m: nat, k: nat)
    ensures Outcome(f, n, m) != 0 ==> Made(f, n, m + k) == Made(f, n, m) && Outcome(f, n, m + k) == Outcome(f, n, m)
    ensures Outcome(f, n, m) == 0 ==>
      Made(f, n, m) == m && Made(f, n, m + k) == m + Made(f, n + m, k) && Outcome(f, n, m + k) == Outcome(f, n + m, k)
    decreases m
  {
    if m > 0 {
      MadeThen(f, n + 1, m - 1, k);
    }
  }

  /** A walk of two parts stops in the first, or goes through it and on to the second. */
  lemma CutThen(f: Answers, h: seq<Call>, a: seq<Call>, b: seq<Call>)
    ensures Result(f, h, a) != 0 ==> Cut(f, h, a + b) == Cut(f, h, a) && Result(f, h, a + b) == Result(f, h, a)
    ensures Result(f, h, a) == 0 ==> Cut(f, h, a) == h + a && Cut(f, h, a + b) == Cut(f, h + a, b)
    ensures Result(f, h, a) == 0 ==> Result(f, h, a + b) == Result(f, h + a, b)
  {
    MadeThen(f, |h|, |a|, |b|);
    var k := Made(f, |h|, |a|);
    assert (a + b)[..k] == a[..k];
    if Result(f, h, a) == 0 {
      var j := Made(f, |h + a|, |b|);
      assert h + (a + b)[..|a| + j] == h + a + b[..j];
    }
  }

  lemma CutOne(f: Answers, h: seq<Call>, c: Call)
    ensures Cut(f, h, [c]) == h + [c] && Result(f, h, [c]) == Answer(f, |h|)
  {
    assert [c][..1] == [c];
  }

  // ---- Names and trees ----

  predicate LegalName(name: string) {
    0 < |name| <= NAME_MAX && NUL !in name
  }

  ghost predicate LegalTree(node: Node)
    decreases node
  {
    node.Dir? ==> forall i | 0 <= i < |node.entries| ::
      LegalName(node.entries[i].name) && LegalTree(node.entries[i].node)
  }

  // ---- The program ----

  class Walker {
    var fullpath: array<char>
    /** The calls made so far. */
    var calls: seq<Call>

    constructor (pathlen: nat)
      requires NAME_MAX < pathlen
      ensures fresh(fullpath) && Begins("") && fullpath.Length == pathlen && calls == []
    {
      fullpath := new char[pathlen];
      calls := [];
    }

    /** The buffer begins with these characters and has room for a terminator; it is never small. */
    ghost predicate Begins(path: string)
      reads this, fullpath
    {
      NAME_MAX < fullpath.Length && |path| < fullpath.Length && fullpath[..|path|] == path
    }

    ghost predicate Holds(path: string)
      reads this, fullpath
    {
      Begins(path) && fullpath[|path|] == NUL && NUL !in path
    }

    method StrLen(ghost path: string) returns (n: nat)
      requires Holds(path)
      ensures n == |path|
    {
      n := 0;
      assert forall i | 0 <= i < |path| :: fullpath[..|path|][i] == path[i];
      while fullpath[n] != NUL
        invariant n <= |path|
        decreases |path| - n
      {
        n := n + 1;
      }
    }

    /** The buffer as the function that is called sees it. */
    method Text(ghost path: string) returns (r: string)
      requires Holds(path)
      ensures r == path
    {
      var n := StrLen(path);
      r := fullpath[..n];
    }

    /** Doubles the buffer unless it can take a slash, a name and a terminator after n characters. */
    method Reserve(n: nat, ghost path: string)
      requires Holds(path) && n == |path|
      modifies this`fullpath
      ensures Holds(path) && n + NAME_MAX + 2 <= fullpath.Length && old(fullpath.Length) <= fullpath.Length
      ensures fullpath == old(fullpath) || fresh(fullpath)
    {
      if n + NAME_MAX + 2 > fullpath.Length {
        var b := fullpath;
        var a := new char[2 * b.Length];
        for i := 0 to n + 1
          invariant fullpath == b && a[..i] == b[..i]
        {
          a[i] := b[i];
        }
        assert a[..n + 1][n] == b[..n + 1][n];
        assert a[..n] == a[..n + 1][..n] == b[..n + 1][..n];
        fullpath := a;
      }
    }

    /** Writes a name and a terminator after the first n characters. */
    method Append(n: nat, name: string, ghost prefix: string)
      requires Begins(prefix) && |prefix| == n && n + |name| < fullpath.Length && NUL !in name && NUL !in prefix
      modifies fullpath
      ensures Holds(prefix + name)
    {
      for i := 0 to |name|
        invariant fullpath[..n] == prefix && fullpath[n..n + i] == name[..i]
      {
        fullpath[n + i] := name[i];
      }
      fullpath[n + |name|] := NUL;
      assert fullpath[..n + |name|] == fullpath[..n] + fullpath[n..n + |name|] == prefix + name;
    }
  
    /** Calls the function and remembers the call. */
    method Report(c: Call, f: Answers) returns (ret: int)
      modifies this`calls
      ensures calls == old(calls) + [c] && ret == Answer(f, |old(calls)|)
    {
      ret := Answer(f, |calls|);
      calls := calls + [c];
    }

    /** The path, kept in front of what the levels below write, whatever they leave behind it. */
    method DoPath(node: Node, f: Answers, ghost path: string) returns (ret: int)
      requires Holds(path) && LegalTree(node)
      modifies this, fullpath
      ensures fullpath == old(fullpath) || fresh(fullpath)
      ensures Begins(path) && old(fullpath.Length) <= fullpath.Length
      ensures calls == Cut(f, old(calls), Preorder(path, node))
      ensures ret == Result(f, old(calls), Preorder(path, node))
      decreases node, 2
    {
      var text := Text(path);
      match node {
        case NoStat =>
          CutOne(f, calls, OnNoStat(path));
          ret := Report(OnNoStat(text), f);
        case File(kind) =>
          CutOne(f, calls, OnFile(path, kind));
          ret := Report(OnFile(text, kind), f);
        case Dir(readable, entries) =>
          ghost var h := calls;
          ret := Report(OnDir(text), f);
          CutOne(f, h, OnDir(path));
          CutThen(f, h, [OnDir(path)], if readable then Below(path + "/", node, |entries|) else [OnUnreadable(path + "/")]);
          if ret != 0 {
            return;
          }
          ret := DoDir(node, f, path);
      }
    }

    /** The entries of a directory whose own call has been made. */
    method DoDir(node: Node, f: Answers, ghost path: string) returns (ret: int)
      requires node.Dir? && Holds(path) && LegalTree(node)
      modifies this, fullpath
      ensures fullpath == old(fullpath) || fresh(fullpath)
      ensures Begins(path) && old(fullpath.Length) <= fullpath.Length
      ensures var todo := if node.readable then Below(path + "/", node, |node.entries|) else [OnUnreadable(path + "/")];
        calls == Cut(f, old(calls), todo) && ret == Result(f, old(calls), todo)
      decreases node, 1, 1
    {
      var n := StrLen(path);
      Reserve(n, path);
      Append(n, "/", path);
      n := n + 1;
      ghost var prefix := path + "/";
      if !node.readable {
        var text := Text(prefix);
        CutOne(f, calls, OnUnreadable(prefix));
        ret := Report(OnUnreadable(text), f);
      } else {
        ret := DoEntries(node, n, f, prefix);
        fullpath[n - 1] := NUL;
      }
      assert fullpath[..n - 1] == fullpath[..n][..n - 1] == prefix[..n - 1] == path;
    }

    method DoEntries(node: Node, n: nat, f: Answers, ghost prefix: string) returns (ret: int)
      requires node.Dir? && Begins(prefix) && |prefix| == n && NUL !in prefix && LegalTree(node)
      requires n + NAME_MAX < fullpath.Length
      modifies this, fullpath
      ensures fullpath == old(fullpath) || fresh(fullpath)
      ensures Begins(prefix) && old(fullpath.Length) <= fullpath.Length
      ensures calls == Cut(f, old(calls), Below(prefix, node, |node.entries|))
      ensures ret == Result(f, old(calls), Below(prefix, node, |node.entries|))
      decreases node, 1, 0
    {
      ret := 0;
      var i := 0;
      while i < |node.entries|
        invariant 0 <= i <= |node.entries| && (fullpath == old(fullpath) || fresh(fullpath))
        invariant Begins(prefix) && old(fullpath.Length) <= fullpath.Length
        invariant ret == 0 == Result(f, old(calls), Below(prefix, node, i))
        invariant calls == Cut(f, old(calls), Below(prefix, node, i))
      {
        ret := DoEntry(node, i, n, f, prefix, old(calls));
        if ret != 0 {
          RestCut(f, old(calls), prefix, node, i + 1);
          return;
        }
        i := i + 1;
      }
    }

    method DoEntry(node: Node, i: nat, n: nat, f: Answers, ghost prefix: string, ghost h: seq<Call>) returns (ret: int)
      requires node.Dir? && i < |node.entries| && Begins(prefix) && |prefix| == n && NUL !in prefix
      requires n + NAME_MAX < fullpath.Length && LegalTree(node)
      requires Result(f, h, Below(prefix, node, i)) == 0 && calls == Cut(f, h, Below(prefix, node, i))
      modifies this, fullpath
      ensures fullpath == old(fullpath) || fresh(fullpath)
      ensures Begins(prefix) && old(fullpath.Length) <= fullpath.Length
      ensures calls == Cut(f, h, Below(prefix, node, i + 1)) && ret == Result(f, h, Below(prefix, node, i + 1))
      decreases node, 0
    {
      var e := node.entries[i];
      if IsDots(e.name) {
        assert Below(prefix, node, i + 1) == Below(prefix, node, i);
        return 0;
      }
      CutThen(f, h, Below(prefix, node, i), Preorder(prefix + e.name, e.node));
      Append(n, e.name, prefix);
      ret := DoPath(e.node, f, prefix + e.name);
      assert fullpath[..n] == fullpath[..n + |e.name|][..n] == prefix;
    }
  }

  const PATH_MAX := 4096

  /** The whole walk, from a path that may be longer than the first buffer. */
  method MyFtw(pathname: string, tree: Node, f: Answers) returns (ret: int, calls: seq<Call>)
    requires NUL !in pathname && LegalTree(tree)
    ensures calls == Cut(f, [], Preorder(pathname, tree)) && ret == Result(f, [], Preorder(pathname, tree))
  {
    var pathlen := PATH_MAX;
    if pathlen <= |pathname| {
      pathlen := |pathname| * 2;
    }
    var w := new Walker(pathlen);
    w.Append(0, pathname, "");
    assert "" + pathname == pathname;
    ret := w.DoPath(tree, f, pathname);
    calls := w.calls;
  }

  // ---- The counters ----

  /** The counters of the function that only counts, indexed by what they count. */
  datatype Counts = Counts(ndir: nat, kinds: map<Kind, nat>)

  function NoneYet(): Counts {
    Counts(0, map[Regular := 0, Block := 0, CharDev := 0, Fifo := 0, Symlink := 0, Socket := 0])
  }

  function CountOne(n: Counts, c: Call): Counts {
    match c
    case OnFile(_, kind) => if kind in n.kinds then n.(kinds := n.kinds[kind := n.kinds[kind] + 1]) else n
    case OnDir(_) => n.(ndir := n.ndir + 1)
    case OnUnreadable(_) => n
    case OnNoStat(_) => n
  }

  function CountAll(calls: seq<Call>): Counts {
    if calls == [] then NoneYet() else CountOne(CountAll(calls[..|calls| - 1]), calls[|calls| - 1])
  }

  predicate Typed(c: Call) {
    c.OnDir? || (c.OnFile? && c.kind != OtherKind)
  }

  function TypedCalls(calls: seq<Call>): nat {
    if calls == [] then 0
    else TypedCalls(calls[..|calls| - 1]) + if Typed(calls[|calls| - 1]) then 1 else 0
  }

  /** The sum that the program prints shares of. */
  function Total(n: Counts): int
    requires n.kinds.Keys == NoneYet().kinds.Keys
  {
    n.ndir + n.kinds[Regular] + n.kinds[Block] + n.kinds[CharDev] + n.kinds[Fifo] + n.kinds[Symlink] + n.kinds[Socket]
  }

  /** The counters add up to the calls for directories and for files of the six kinds. */
  lemma {:induction false} CountersSum(calls: seq<Call>)
    ensures CountAll(calls).kinds.Keys == NoneYet().kinds.Keys && Total(CountAll(calls)) == TypedCalls(calls)
  {
    if calls != [] {
      CountersSum(calls[..|calls| - 1]);
    }
  }

  /** The directories of a tree and its files of the six kinds. */
  function TypedIn(node: Node): nat
    decreases node, 1, 0
  {
    match node
    case NoStat => 0
    case File(kind) => if kind == OtherKind then 0 else 1
    case Dir(readable, entries) => 1 + if readable then TypedBelow(node, |entries|) else 0
  }

  function TypedBelow(node: Node, n: nat): nat
    requires node.Dir? && n <= |node.entries|
    decreases node, 0, n
  {
    if n == 0 then 0
    else TypedBelow(node, n - 1) + if IsDots(node.entries[n - 1].name) then 0 else TypedIn(node.entries[n - 1].node)
  }

  lemma {:induction false} TypedThen(a: seq<Call>, b: seq<Call>)
    ensures TypedCalls(a + b) == TypedCalls(a) + TypedCalls(b)
    decreases b
  {
    if b == [] {
      assert a + b == a;
    } else {
      TypedThen(a, b[..|b| - 1]);
      assert (a + b)[..|a + b| - 1] == a + b[..|b| - 1];
    }
  }

  lemma TypedOne(c: Call)
    ensures TypedCalls([c]) == if Typed(c) then 1 else 0
  {
    assert [c][..0] == [];
  }

  /** The calls of a full walk are for the tree's own directories and files. */
  lemma {:induction false} TypedWalk(path: string, node: Node)
    ensures TypedCalls(Preorder(path, node)) == TypedIn(node)
    decreases node, 1, 0
  {
    match node
    case NoStat => TypedOne(OnNoStat(path));
    case File(kind) => TypedOne(OnFile(path, kind));
    case Dir(readable, entries) =>
      TypedOne(OnDir(path));
      TypedOne(OnUnreadable(path + "/"));
      TypedEntries(path + "/", node, |entries|);
      TypedThen([OnDir(path)], if readable then Below(path + "/", node, |entries|) else [OnUnreadable(path + "/")]);
  }

  lemma {:induction false} TypedEntries(prefix: string, node: Node, n: nat)
    requires node.Dir? && n <= |node.entries|
    ensures TypedCalls(Below(prefix, node, n)) == TypedBelow(node, n)
    decreases node, 0, n
  {
    if n > 0 {
      var e := node.entries[n - 1];
      TypedEntries(prefix, node, n - 1);
      TypedWalk(prefix + e.name, e.node);
      TypedThen(Below(prefix, node, n - 1), if IsDots(e.name) then [] else Preorder(prefix + e.name, e.node));
    }
  }

  lemma {:induction false} NeverStopped(n: nat, m: nat)
    ensures Made([], n, m) == m
    decreases m
  {
    if m > 0 {
      NeverStopped(n + 1, m - 1);
    }
  }

  /** The program: a walk with the function that only counts, which always returns 0. */
  method CountTree(pathname: string, tree: Node) returns (n: Counts)
    requires NUL !in pathname && LegalTree(tree)
    ensures n == CountAll(Preorder(pathname, tree))
    ensures n.kinds.Keys == NoneYet().kinds.Keys && Total(n) == TypedIn(tree)
  {
    var ret, calls := MyFtw(pathname, tree, []);
    NeverStopped(0, |Preorder(pathname, tree)|);
    assert calls == Preorder(pathname, tree);
    n := NoneYet();
    for i := 0 to |calls|
      invariant n == CountAll(calls[..i])
    {
      assert calls[..i + 1][..i] == calls[..i];
      n := CountOne(n, calls[i]);
    }
    assert calls[..|calls|] == calls;
    CountersSum(calls);
    TypedWalk(pathname, tree);
  }

  /** Once a call has returned something else than 0, the entries that follow make no difference. */
  lemma {:induction false} RestCut(f: Answers, h: seq<Call>, prefix: string, node: Node, n: nat)
    requires node.Dir? && n <= |node.entries| && Result(f, h, Below(prefix, node, n)) != 0
    ensures Result(f, h, Below(prefix, node, |node.entries|)) == Result(f, h, Below(prefix, node, n))
    ensures Cut(f, h, Below(prefix, node, |node.entries|)) == Cut(f, h, Below(prefix, node, n))
    decreases |node.entries| - n
  {
    if n < |node.entries| {
      var e := node.entries[n];
      CutThen(f, h, Below(prefix, node, n), if IsDots(e.name) then [] else Preorder(prefix + e.name, e.node));
      RestCut(f, h, prefix, node, n + 1);
    }
  }
}
