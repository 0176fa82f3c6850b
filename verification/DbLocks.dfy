/**
 The database under any number of processes. Every process works through a call
 one lock operation or one file access at a time, and the steps of all processes
 interleave freely. The files are modelled record by record: pointer cells,
 index records and data records, by offset.

 A process locks the chain of its key (shared for a fetch, else exclusively),
 and within that the free list, or the end of one of the files it appends to.

 The last fields of the state do not influence any step. They say what the files
 mean: the lists that the pointers spell once pending writes are done (im and
 lists), the map that the chains stand for now (em), and the map as of the last
 call that finished (m); who owns a record that is on no list, who still has to
 write a pointer, and who refers to which data.
 */
module DbLocks {
  import opened Codec
  import opened Layout
  import opened DbFiles
  import opened DbHash
  import opened DbChains
  import opened DbSpec
  import opened Wrappers

  type Pid = nat

  datatype Entry = Entry(key: string, datoff: nat, datlen: nat)

  datatype User = ByRecord(o: nat) | ByProcess(p: Pid)

  /**
   What a process does next. Where there is a k, it is the place of `from` on
   its list, which no step looks at.
   */
  datatype Pc =
    | Idle
    | Start(c: Call)                                                  // lock the chain
    | ReadHead(c: Call)                                               // read the chain head
    | Walk(c: Call, from: nat, off: nat, k: nat)                      // look at the record at off
    | FetchData(c: Call, off: nat, k: nat)                            // read its data
    | OverDat(c: Call, off: nat, k: nat)                              // overwrite its data
    | DelLock(c: Call, from: nat, off: nat, next: nat, k: nat)        // lock the free list
    | DelData(c: Call, from: nat, off: nat, next: nat, k: nat)        // blank the data
    | DelReadFree(c: Call, from: nat, off: nat, next: nat, k: nat)    // read the free list head
    | DelRecord(c: Call, from: nat, off: nat, next: nat, k: nat, free: nat) // blank the record
    | DelHead(c: Call, from: nat, off: nat, next: nat, k: nat)        // write the free list head
    | DelChain(c: Call, from: nat, next: nat, k: nat)                 // bypass the record
    | DelUnlock(c: Call)                                              // unlock the free list
    | ReplaceHead(c: Call)                                            // read the chain head again
    | NewHead(c: Call)                                                // read the chain head again
    | NewLock(c: Call, head: nat)                                     // lock the free list
    | FreeHead(c: Call, head: nat)                                    // read its head
    | FreeWalk(c: Call, head: nat, from: nat, off: nat, k: nat)       // look at the record at off
    | FreeTake(c: Call, head: nat, from: nat, off: nat, next: nat, k: nat) // bypass it
    | FreeUnlock(c: Call, head: nat, hit: Option<nat>)                // unlock the free list
    | ReuseDat(c: Call, head: nat, off: nat)                          // write data over a free record
    | ReuseIdx(c: Call, head: nat, off: nat)                          // write the index record over it
    | DatLock(c: Call, head: nat)                                     // lock the data file
    | DatWrite(c: Call, head: nat)                                    // append the data
    | DatUnlock(c: Call, head: nat, d: nat)                           // unlock the data file
    | IdxLock(c: Call, head: nat, d: nat)                             // lock the end of the index
    | IdxWrite(c: Call, head: nat, d: nat)                            // append the index record
    | IdxUnlock(c: Call, off: nat)                                    // unlock the end of the index
    | LinkIn(c: Call, off: nat)                                       // write the chain head
    | Finish(c: Call, reply: Reply)                                   // unlock the chain and return

  /** The two files. */
  datatype Files = Files(ptr: map<nat, nat>, rec: map<nat, Entry>, dat: map<nat, string>, idxEnd: nat, datEnd: nat)

  /** Who holds which lock. */
  datatype Locks = Locks(
    wr: map<nat, Pid>, rd: map<nat, set<Pid>>,
    freeLock: Option<Pid>, datLock: Option<Pid>, idxLock: Option<Pid>)

  /** What the files mean. */
  datatype Meaning = Meaning(
    im: Image<Info>, lists: seq<seq<nat>>, em: Contents, m: Contents,
    owner: map<nat, Pid>, pend: map<nat, Pid>, user: map<nat, User>)

  datatype State = State(f: Files, lk: Locks, a: Meaning, pc: map<Pid, Pc>)

  function PcOf(s: State, p: Pid): Pc {
    if p in s.pc then s.pc[p] else Idle
  }

  function Readers(s: State, l: nat): set<Pid> {
    if l in s.lk.rd then s.lk.rd[l] else {}
  }

  function L(c: Call): nat { ListOf(c.key) }

  /** Calls that get as far as the locks: a store has a valid flag. */
  predicate LegalOp(c: Call) {
    c.StoreCall? ==> c.flag == DB_INSERT || c.flag == DB_REPLACE || c.flag == DB_STORE
  }

  // ---- Where a process goes without touching files or locks ----

  function AfterMiss(c: Call): Pc {
    match c
    case FetchCall(_) => Finish(c, Data(None))
    case DeleteCall(_) => Finish(c, Code(-1))
    case StoreCall(_, _, flag) => if flag == DB_REPLACE then Finish(c, Code(-1)) else NewHead(c)
  }

  function AfterMatch(c: Call, from: nat, off: nat, next: nat, k: nat, e: Entry): Pc {
    match c
    case FetchCall(_) => FetchData(c, off, k + 1)
    case DeleteCall(_) => DelLock(c, from, off, next, k)
    case StoreCall(_, data, flag) =>
      if flag == DB_INSERT then Finish(c, Code(1))
      else if |data| + 1 != e.datlen then DelLock(c, from, off, next, k)
      else OverDat(c, off, k + 1)
  }

  function AfterDelete(c: Call): Pc {
    if c.DeleteCall? then Finish(c, Code(0)) else ReplaceHead(c)
  }

  function Width(e: Entry): (n: nat)
    ensures n > 0
  {
    PTR_SZ + IDXLEN_SZ + |Tail(e.key, e.datoff, e.datlen)|
  }

  // ---- Steps ----

  /** A process that waits for a lock can go on when nobody else holds it in a way that excludes it. */
  predicate Enabled(s: State, p: Pid) {
    match PcOf(s, p)
    case Idle => false
    case Start(c) => L(c) !in s.lk.wr && (c.FetchCall? || Readers(s, L(c)) == {})
    case DelLock(_, _, _, _, _) => s.lk.freeLock == None
    case NewLock(_, _) => s.lk.freeLock == None
    case DatLock(_, _) => s.lk.datLock == None
    case IdxLock(_, _, _) => s.lk.idxLock == None
    case _ => true
  }

  /** Every offset the next step reads or writes is the offset of something. */
  predicate Safe(s: State, p: Pid) {
    match PcOf(s, p)
    case ReadHead(c) => PTR_SZ * L(c) in s.f.ptr
    case Walk(c, from, off, k) => off != 0 ==> off in s.f.rec && off in s.f.ptr
    case FetchData(c, off, k) => off in s.f.rec && s.f.rec[off].datoff in s.f.dat
    case OverDat(c, off, k) => off in s.f.rec && s.f.rec[off].datoff in s.f.dat && c.StoreCall? && off in s.a.im.info
    case DelData(c, from, off, next, k) =>
      && off in s.f.rec && s.f.rec[off].datoff in s.f.dat && s.f.rec[off].datlen > 0 && off in s.a.im.info
      && L(c) < |s.a.lists| && k + 1 < |s.a.lists[L(c)]|
    case DelReadFree(c, from, off, next, k) => 0 in s.f.ptr
    case DelRecord(c, from, off, next, k, free) => off in s.f.rec && off in s.f.ptr && off in s.a.im.info
    case DelHead(c, from, off, next, k) => 0 in s.f.ptr && |s.a.lists| > 0 && |s.a.lists[0]| > 0
    case DelChain(c, from, next, k) => from in s.f.ptr
    case ReplaceHead(c) => PTR_SZ * L(c) in s.f.ptr
    case NewHead(c) => PTR_SZ * L(c) in s.f.ptr
    case FreeHead(c, head) => 0 in s.f.ptr
    case FreeWalk(c, head, from, off, k) => c.StoreCall? && (off != 0 ==> off in s.f.rec && off in s.f.ptr)
    case FreeTake(c, head, from, off, next, k) => from in s.f.ptr && |s.a.lists| > 0 && k + 1 < |s.a.lists[0]|
    case ReuseDat(c, head, off) => c.StoreCall? && off in s.f.rec && s.f.rec[off].datoff in s.f.dat && off in s.a.im.info
    case ReuseIdx(c, head, off) => c.StoreCall? && off in s.f.rec && off in s.f.ptr && off in s.a.im.info
    case DatWrite(c, head) => c.StoreCall? && s.f.datEnd !in s.f.dat
    case IdxWrite(c, head, d) => c.StoreCall? && d in s.f.dat && s.f.idxEnd !in s.f.rec && s.f.idxEnd !in s.f.ptr
    case LinkIn(c, off) =>
      c.StoreCall? && PTR_SZ * L(c) in s.f.ptr && L(c) < |s.a.lists| && |s.a.lists[L(c)]| > 0
    case _ => true
  }

  function Begin(s: State, p: Pid, c: Call): State {
    Go(s, p, Start(c))
  }

  /** Only the process itself moves on. */
  function Go(s: State, p: Pid, pc: Pc): State {
    s.(pc := s.pc[p := pc])
  }

  function LockChain(s: State, p: Pid, c: Call): State {
    var lk := if c.FetchCall? then s.lk.(rd := s.lk.rd[L(c) := Readers(s, L(c)) + {p}])
              else s.lk.(wr := s.lk.wr[L(c) := p]);
    Go(s.(lk := lk), p, ReadHead(c))
  }

  /** Unlocking the chain is where a call takes effect on the abstract map. */
  function FinishCall(s: State, p: Pid, c: Call): State {
    var lk := if c.FetchCall? then s.lk.(rd := s.lk.rd[L(c) := Readers(s, L(c)) - {p}])
              else s.lk.(wr := s.lk.wr - {L(c)});
    Go(s.(lk := lk, a := s.a.(m := Answer(s.a.m, c).0)), p, Idle)
  }

  function SetFreeLock(s: State, p: Pid, holder: Option<Pid>, pc: Pc): State {
    Go(s.(lk := s.lk.(freeLock := holder)), p, pc)
  }

  function SetDatLock(s: State, p: Pid, holder: Option<Pid>, pc: Pc): State {
    Go(s.(lk := s.lk.(datLock := holder)), p, pc)
  }

  function SetIdxLock(s: State, p: Pid, holder: Option<Pid>, pc: Pc): State {
    Go(s.(lk := s.lk.(idxLock := holder)), p, pc)
  }

  function LookAt(s: State, p: Pid, c: Call, from: nat, off: nat, k: nat): State
    requires off != 0 ==> off in s.f.rec && off in s.f.ptr
  {
    Go(s, p, if off == 0 then AfterMiss(c)
             else if s.f.rec[off].key == c.key then AfterMatch(c, from, off, s.f.ptr[off], k, s.f.rec[off])
             else Walk(c, off, s.f.ptr[off], k + 1))
  }

  function LookAtFree(s: State, p: Pid, c: Call, head: nat, from: nat, off: nat, k: nat): State
    requires c.StoreCall? && (off != 0 ==> off in s.f.rec && off in s.f.ptr)
  {
    Go(s, p, if off == 0 then FreeUnlock(c, head, None)
             else if |s.f.rec[off].key| == |c.key| && s.f.rec[off].datlen == |c.data| + 1
             then FreeTake(c, head, from, off, s.f.ptr[off], k)
             else FreeWalk(c, head, off, s.f.ptr[off], k + 1))
  }

  function BlankData(s: State, p: Pid, c: Call, from: nat, off: nat, next: nat, k: nat): State
    requires off in s.f.rec && s.f.rec[off].datlen > 0 && off in s.a.im.info
    requires L(c) < |s.a.lists| && k + 1 < |s.a.lists[L(c)]|
  {
    var blank := Blanks(s.f.rec[off].datlen - 1);
    State(
      s.f.(dat := s.f.dat[s.f.rec[off].datoff := blank]),
      s.lk,
      s.a.(im := SetPtr(Redone(s.a.im, off, blank), from, next),
           lists := Cut(s.a.lists, L(c), k + 1),
           em := s.a.em - {c.key},
           owner := s.a.owner[off := p],
           pend := s.a.pend[from := p]),
      s.pc[p := DelReadFree(c, from, off, next, k)])
  }

  function BlankRecord(s: State, p: Pid, c: Call, from: nat, off: nat, next: nat, k: nat, free: nat): State
    requires off in s.f.rec && off in s.a.im.info
  {
    var blank := Blanks(|s.f.rec[off].key|);
    State(
      s.f.(rec := s.f.rec[off := s.f.rec[off].(key := blank)], ptr := s.f.ptr[off := free]),
      s.lk,
      s.a.(im := Rekeyed(s.a.im, off, free, blank)),
      s.pc[p := DelHead(c, from, off, next, k)])
  }

  function PutFree(s: State, p: Pid, c: Call, from: nat, off: nat, next: nat, k: nat): State
    requires |s.a.lists| > 0 && |s.a.lists[0]| > 0
  {
    State(
      s.f.(ptr := s.f.ptr[0 := off]),
      s.lk,
      s.a.(im := SetPtr(s.a.im, 0, off), lists := Put(s.a.lists, 0, off), owner := s.a.owner - {off}),
      s.pc[p := DelChain(c, from, next, k)])
  }

  function Bypass(s: State, p: Pid, c: Call, from: nat, next: nat): State {
    State(
      s.f.(ptr := s.f.ptr[from := next]),
      s.lk,
      s.a.(pend := s.a.pend - {from}),
      s.pc[p := DelUnlock(c)])
  }

  function TakeFree(s: State, p: Pid, c: Call, head: nat, from: nat, off: nat, next: nat, k: nat): State
    requires |s.a.lists| > 0 && k + 1 < |s.a.lists[0]|
  {
    State(
      s.f.(ptr := s.f.ptr[from := next]),
      s.lk,
      s.a.(im := SetPtr(s.a.im, from, next), lists := Cut(s.a.lists, 0, k + 1), owner := s.a.owner[off := p]),
      s.pc[p := FreeUnlock(c, head, Some(off))])
  }

  /** Writes data over that of a record, which stands for the contents em'. */
  function WriteData(s: State, p: Pid, pc: Pc, off: nat, data: string, em: Contents): State
    requires off in s.f.rec && off in s.a.im.info
  {
    State(
      s.f.(dat := s.f.dat[s.f.rec[off].datoff := data]),
      s.lk,
      s.a.(im := Redone(s.a.im, off, data), em := em),
      s.pc[p := pc])
  }

  function WriteRecord(s: State, p: Pid, c: Call, head: nat, off: nat): State
    requires off in s.f.rec && off in s.a.im.info
  {
    State(
      s.f.(rec := s.f.rec[off := s.f.rec[off].(key := c.key)], ptr := s.f.ptr[off := head]),
      s.lk,
      s.a.(im := Rekeyed(s.a.im, off, head, c.key)),
      s.pc[p := LinkIn(c, off)])
  }

  function AppendData(s: State, p: Pid, c: Call, head: nat): State
    requires c.StoreCall?
  {
    var d := s.f.datEnd;
    State(
      s.f.(dat := s.f.dat[d := c.data], datEnd := d + |c.data| + 1),
      s.lk,
      s.a.(user := s.a.user[d := ByProcess(p)]),
      s.pc[p := DatUnlock(c, head, d)])
  }

  function AppendRecord(s: State, p: Pid, c: Call, head: nat, d: nat): State
    requires c.StoreCall?
  {
    var off, e := s.f.idxEnd, Entry(c.key, d, |c.data| + 1);
    State(
      s.f.(rec := s.f.rec[off := e], ptr := s.f.ptr[off := head], idxEnd := off + Width(e)),
      s.lk,
      s.a.(im := AddRecord(s.a.im, off, head, Info(c.key, d, c.data)),
           owner := s.a.owner[off := p],
           user := s.a.user[d := ByRecord(off)]),
      s.pc[p := IdxUnlock(c, off)])
  }

  function LinkRecord(s: State, p: Pid, c: Call, off: nat): State
    requires c.StoreCall? && L(c) < |s.a.lists| && |s.a.lists[L(c)]| > 0
  {
    State(
      s.f.(ptr := s.f.ptr[PTR_SZ * L(c) := off]),
      s.lk,
      s.a.(im := SetPtr(s.a.im, PTR_SZ * L(c), off),
           lists := Put(s.a.lists, L(c), off),
           owner := s.a.owner - {off},
           em := s.a.em[c.key := c.data]),
      s.pc[p := Finish(c, Code(0))])
  }

  /** One step of process p. */
  function Step(s: State, p: Pid): State
    requires Enabled(s, p) && Safe(s, p)
  {
    match PcOf(s, p)
    case Start(c) => LockChain(s, p, c)
    case ReadHead(c) => Go(s, p, Walk(c, PTR_SZ * L(c), s.f.ptr[PTR_SZ * L(c)], 0))
    case Walk(c, from, off, k) => LookAt(s, p, c, from, off, k)
    case FetchData(c, off, k) => Go(s, p, Finish(c, Data(Some(s.f.dat[s.f.rec[off].datoff]))))
    case OverDat(c, off, k) => WriteData(s, p, Finish(c, Code(0)), off, c.data, s.a.em[c.key := c.data])
    case DelLock(c, from, off, next, k) => SetFreeLock(s, p, Some(p), DelData(c, from, off, next, k))
    case DelData(c, from, off, next, k) => BlankData(s, p, c, from, off, next, k)
    case DelReadFree(c, from, off, next, k) => Go(s, p, DelRecord(c, from, off, next, k, s.f.ptr[0]))
    case DelRecord(c, from, off, next, k, free) => BlankRecord(s, p, c, from, off, next, k, free)
    case DelHead(c, from, off, next, k) => PutFree(s, p, c, from, off, next, k)
    case DelChain(c, from, next, k) => Bypass(s, p, c, from, next)
    case DelUnlock(c) => SetFreeLock(s, p, None, AfterDelete(c))
    case ReplaceHead(c) => Go(s, p, DatLock(c, s.f.ptr[PTR_SZ * L(c)]))
    case NewHead(c) => Go(s, p, NewLock(c, s.f.ptr[PTR_SZ * L(c)]))
    case NewLock(c, head) => SetFreeLock(s, p, Some(p), FreeHead(c, head))
    case FreeHead(c, head) => Go(s, p, FreeWalk(c, head, 0, s.f.ptr[0], 0))
    case FreeWalk(c, head, from, off, k) => LookAtFree(s, p, c, head, from, off, k)
    case FreeTake(c, head, from, off, next, k) => TakeFree(s, p, c, head, from, off, next, k)
    case FreeUnlock(c, head, hit) =>
      SetFreeLock(s, p, None, if hit.Some? then ReuseDat(c, head, hit.value) else DatLock(c, head))
    case ReuseDat(c, head, off) => WriteData(s, p, ReuseIdx(c, head, off), off, c.data, s.a.em)
    case ReuseIdx(c, head, off) => WriteRecord(s, p, c, head, off)
    case DatLock(c, head) => SetDatLock(s, p, Some(p), DatWrite(c, head))
    case DatWrite(c, head) => AppendData(s, p, c, head)
    case DatUnlock(c, head, d) => SetDatLock(s, p, None, IdxLock(c, head, d))
    case IdxLock(c, head, d) => SetIdxLock(s, p, Some(p), IdxWrite(c, head, d))
    case IdxWrite(c, head, d) => AppendRecord(s, p, c, head, d)
    case IdxUnlock(c, off) => SetIdxLock(s, p, None, LinkIn(c, off))
    case LinkIn(c, off) => LinkRecord(s, p, c, off)
    case Finish(c, reply) => FinishCall(s, p, c)
  }

  ghost function Initial(): State {
    State(
      Files(EmptyImage().ptr, map[], map[], HEADER, 0),
      Locks(map[], map[], None, None, None),
      Meaning(EmptyImage(), EmptyLists(), map[], map[], map[], map[], map[]),
      map[])
  }
}
