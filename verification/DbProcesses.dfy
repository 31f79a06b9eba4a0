/** Any number of processes working on one database at once. A step of a process is one
    access to the files (one of the library's own read and write functions) or one fcntl
    lock or unlock; between steps any other process may run. */
module DbProcesses {
  import opened Common
  import opened DbFormat
  import opened DbLists
  import opened DbFile
  import opened DbState
  import opened DbLibrary
  import opened DbRuns

  // ---------------------------------------------------------------- locks

  datatype Mode = Shared | Exclusive

  /** The places the library locks. */
  datatype Lock = ChainLock(h: nat) | FreeLock | IdxEndLock | DatEndLock

  /** The byte range a lock covers: which file, the first byte, and whether it runs to the
      end of the file or covers one byte. */
  datatype Range = Range(inIndex: bool, start: nat, toEof: bool)

  function RangeOf(l: Lock): Range {
    match l
    case ChainLock(h) => Range(true, HeadLoc(h), false)
    case FreeLock => Range(true, FREE_OFF, false)
    case IdxEndLock => Range(true, (NHASH + 1) * PTR_SZ + 1, true)
    case DatEndLock => Range(false, 0, true)
  }

  predicate Covers(r: Range, b: nat) {
    if r.toEof then r.start <= b else b == r.start
  }

  ghost predicate Overlap(a: Range, b: Range) {
    a.inIndex == b.inIndex && exists x :: Covers(a, x) && Covers(b, x)
  }

  predicate LockOk(l: Lock) {
    l.ChainLock? ==> l.h < NHASH
  }

  /** No two of the library's locks share a byte, so releasing one never drops another. */
  lemma LocksApart(a: Lock, b: Lock)
    requires LockOk(a) && LockOk(b)
    ensures Overlap(RangeOf(a), RangeOf(b)) <==> a == b
  {
    if a == b {
      assert Covers(RangeOf(a), RangeOf(a).start);
    }
  }

  // ---------------------------------------------------------------- files

  /** The index file as pointer fields and records, the data file as texts by offset, and
      the lengths of both. */
  datatype Files = Files(im: Image, iend: nat, data: map<nat, string>, dend: nat)

  /** What the DB structure remembers of a record: the pointer that led to it, its offset,
      its chain pointer and its contents. The number counts the records passed. */
  datatype Target = Target(ptroff: nat, off: nat, i: nat, next: nat, info: Info)

  function PtrIn(f: Files, loc: nat): nat {
    if loc in f.im.ptrs then f.im.ptrs[loc] else 0
  }

  function InfoIn(f: Files, off: nat): Info {
    if off in f.im.recs then f.im.recs[off] else Info([], 0, 0)
  }

  function TextIn(f: Files, off: nat): string {
    if off in f.data then f.data[off] else []
  }

  // ---------------------------------------------------------------- processes

  datatype Result = Answer(res: Res) | Dead

  datatype Pc =
    | Idle
    // _db_find_and_lock
    | WantChain
    | ReadHead
    | Search(ptroff: nat, off: nat, i: nat)
    // db_fetch
    | GetData(t: Target)
    // db_store over a record of the same size
    | Over(t: Target)
    // _db_dodelete
    | DelWant(t: Target)
    | DelData(t: Target)
    | DelFree(t: Target)
    | DelIdx(t: Target, freeptr: nat)
    | DelPush(t: Target, freeptr: nat)
    | DelUnlink(t: Target, freeptr: nat)
    | DelRel
    // _db_findfree
    | MissHead
    | FreeWant(head: nat)
    | FreeHead(head: nat)
    | FreeScan(head: nat, save: nat, off: nat, i: nat)
    | FreeTake(head: nat, t: Target)
    | FreeRel(head: nat, off: nat, info: Info)
    | FreeNone(head: nat)
    // db_store into a free record
    | ReuseDat(head: nat, off: nat, info: Info)
    | ReuseIdx(head: nat, off: nat, info: Info)
    // db_store at the end of the files
    | AppHead
    | DatWant(head: nat)
    | DatAppend(head: nat)
    | DatRel(head: nat, datoff: nat)
    | IdxWant(head: nat, datoff: nat)
    | IdxAppend(head: nat, datoff: nat)
    | IdxRel(head: nat, off: nat)
    // the last write of db_store
    | Link(head: nat, off: nat)
    // unlock the chain and return
    | Finish(result: Result)
    // db_nextrec
    | ScanWant
    | Scanning
    // err_dump or err_quit: what the process leaves behind
    | Exited(lostRec: Option<nat>, lostDat: Option<nat>)

  datatype Proc = Proc(pc: Pc, op: Op, held: map<Lock, Mode>, done: seq<(Op, Result)>)

  /** An operation taking effect, with the answer its process will return. */
  datatype Event = Event(pid: nat, op: Op, result: Result)

  /** The log has no part in what processes do; it records the order of effects. */
  datatype State = State(f: Files, procs: seq<Proc>, log: seq<Event>)

  function ChainOf(op: Op): (h: nat)
    ensures h < NHASH
  {
    Hash(op.key)
  }

  function ChainMode(op: Op): Mode {
    if op.FetchOp? then Shared else Exclusive
  }

  predicate OpValid(op: Op) {
    op.StoreOp? ==> KeyText(op.key) && CText(op.data) && LengthOk(op.data) && ValidFlag(op.flag)
  }

  // ---------------------------------------------------------------- steps

  function Go(s: State, p: nat, pc: Pc): State
    requires p < |s.procs|
  {
    s.(procs := s.procs[p := s.procs[p].(pc := pc)])
  }

  /** fcntl grants a lock that no other process's lock stands in the way of. */
  ghost predicate CanLock(s: State, p: nat, l: Lock, mode: Mode) {
    forall q, x :: 0 <= q < |s.procs| && q != p && x in s.procs[q].held && Overlap(RangeOf(x), RangeOf(l)) ==>
      mode == Shared && s.procs[q].held[x] == Shared
  }

  function Acquire(s: State, p: nat, l: Lock, mode: Mode, pc: Pc): State
    requires p < |s.procs|
  {
    s.(procs := s.procs[p := s.procs[p].(pc := pc, held := s.procs[p].held[l := mode])])
  }

  /** Unlocking a range drops whatever the process holds within it. */
  ghost function Released(held: map<Lock, Mode>, l: Lock): map<Lock, Mode> {
    map x | x in held && !Overlap(RangeOf(x), RangeOf(l)) :: held[x]
  }

  ghost function Release1(s: State, p: nat, l: Lock, pc: Pc): State
    requires p < |s.procs|
  {
    s.(procs := s.procs[p := s.procs[p].(pc := pc, held := Released(s.procs[p].held, l))])
  }

  /** The operation takes effect here. */
  function Commit(s: State, p: nat, res: Res, pc: Pc): State
    requires p < |s.procs|
  {
    Go(s, p, pc).(log := s.log + [Event(p, s.procs[p].op, Answer(res))])
  }

  /** The process ends and the system drops its locks. */
  function Die(s: State, p: nat, lostRec: Option<nat>, lostDat: Option<nat>): State
    requires p < |s.procs|
  {
    var pr := s.procs[p];
    s.(procs := s.procs[p := Proc(Exited(lostRec, lostDat), pr.op, map[], pr.done + [(pr.op, Dead)])],
       log := s.log + [Event(p, pr.op, Dead)])
  }

  function SetImage(s: State, im: Image): State {
    s.(f := s.f.(im := im))
  }

  function SetData(s: State, off: nat, text: string): State {
    s.(f := s.f.(data := s.f.data[off := text]))
  }

  ghost predicate Enabled(s: State, p: nat)
    requires p < |s.procs|
  {
    var pr := s.procs[p];
    match pr.pc
    case Idle => false
    case Exited(_, _) => false
    case WantChain => CanLock(s, p, ChainLock(ChainOf(pr.op)), ChainMode(pr.op))
    case DelWant(_) => CanLock(s, p, FreeLock, Exclusive)
    case FreeWant(_) => CanLock(s, p, FreeLock, Exclusive)
    case DatWant(_) => CanLock(s, p, DatEndLock, Exclusive)
    case IdxWant(_, _) => CanLock(s, p, IdxEndLock, Exclusive)
    case ScanWant => CanLock(s, p, FreeLock, Shared)
    case _ => true
  }

  /** The key is not on its chain. */
  function OnMiss(s: State, p: nat): State
    requires p < |s.procs|
  {
    match s.procs[p].op
    case FetchOp(_) => Commit(s, p, Value(Null), Finish(Answer(Value(Null))))
    case DeleteOp(_) => Commit(s, p, Code(-1), Finish(Answer(Code(-1))))
    case StoreOp(_, _, flag) =>
      if flag == DB_REPLACE then Commit(s, p, Code(-1), Finish(Answer(Code(-1))))
      else Go(s, p, MissHead)
  }

  /** The key is in the record just read. */
  function OnHit(s: State, p: nat, t: Target): State
    requires p < |s.procs|
  {
    match s.procs[p].op
    case FetchOp(_) => Go(s, p, GetData(t))
    case DeleteOp(_) => Go(s, p, DelWant(t))
    case StoreOp(_, data, flag) =>
      if flag == DB_INSERT then Commit(s, p, Code(1), Finish(Answer(Code(1))))
      else if |data| + 1 != t.info.datlen then Go(s, p, DelWant(t))
      else Go(s, p, Over(t))
  }

  function DataOf(op: Op): string {
    if op.StoreOp? then op.data else []
  }

  /** What an enabled process does next. */
  ghost function Step(s: State, p: nat): State
    requires p < |s.procs| && Enabled(s, p)
  {
    var pr, f := s.procs[p], s.f;
    var op := pr.op;
    var chain, head := ChainLock(ChainOf(op)), HeadLoc(ChainOf(op));
    match pr.pc
    case WantChain => Acquire(s, p, chain, ChainMode(op), ReadHead)
    case ReadHead => Go(s, p, Search(head, PtrIn(f, head), 0))
    case Search(ptroff, off, i) =>
      if off == 0 then OnMiss(s, p)
      else if InfoIn(f, off).key == op.key
      then OnHit(s, p, Target(ptroff, off, i, PtrIn(f, off), InfoIn(f, off)))
      else Go(s, p, Search(off, PtrIn(f, off), i + 1))
    case GetData(t) =>
      var v := Value(Text(TextIn(f, t.info.datoff)));
      Commit(s, p, v, Finish(Answer(v)))
    case Over(t) =>
      Commit(SetData(s, t.info.datoff, DataOf(op)), p, Code(0), Finish(Answer(Code(0))))
    case DelWant(t) => Acquire(s, p, FreeLock, Exclusive, DelData(t))
    case DelData(t) =>
      Go(SetData(s, t.info.datoff, Spaces(if t.info.datlen > 0 then t.info.datlen - 1 else 0)), p, DelFree(t))
    case DelFree(t) => Go(s, p, DelIdx(t, PtrIn(f, FREE_OFF)))
    case DelIdx(t, fp) => Go(SetImage(s, SetRec(f.im, t.off, fp, Blanked(t.info))), p, DelPush(t, fp))
    case DelPush(t, fp) => Go(SetImage(s, SetPtr(f.im, FREE_OFF, t.off)), p, DelUnlink(t, fp))
    case DelUnlink(t, fp) =>
      var s' := SetImage(s, SetPtr(f.im, t.ptroff, t.next));
      if op.DeleteOp? then Commit(s', p, Code(0), DelRel) else Go(s', p, DelRel)
    case DelRel => Release1(s, p, FreeLock, if op.DeleteOp? then Finish(Answer(Code(0))) else AppHead)
    case MissHead => Go(s, p, FreeWant(PtrIn(f, head)))
    case FreeWant(hd) => Acquire(s, p, FreeLock, Exclusive, FreeHead(hd))
    case FreeHead(hd) => Go(s, p, FreeScan(hd, FREE_OFF, PtrIn(f, FREE_OFF), 0))
    case FreeScan(hd, save, off, i) =>
      if off == 0 then Go(s, p, FreeNone(hd))
      else if |InfoIn(f, off).key| == |op.key| && InfoIn(f, off).datlen == |DataOf(op)| + 1
      then Go(s, p, FreeTake(hd, Target(save, off, i, PtrIn(f, off), InfoIn(f, off))))
      else Go(s, p, FreeScan(hd, off, PtrIn(f, off), i + 1))
    case FreeTake(hd, t) => Go(SetImage(s, SetPtr(f.im, t.ptroff, t.next)), p, FreeRel(hd, t.off, t.info))
    case FreeRel(hd, off, info) => Release1(s, p, FreeLock, ReuseDat(hd, off, info))
    case FreeNone(hd) => Release1(s, p, FreeLock, DatWant(hd))
    case ReuseDat(hd, off, info) => Go(SetData(s, info.datoff, DataOf(op)), p, ReuseIdx(hd, off, info))
    case ReuseIdx(hd, off, info) =>
      Go(SetImage(s, SetRec(f.im, off, hd, info.(key := op.key))), p, Link(hd, off))
    case AppHead => Go(s, p, DatWant(PtrIn(f, head)))
    case DatWant(hd) => Acquire(s, p, DatEndLock, Exclusive, DatAppend(hd))
    case DatAppend(hd) =>
      var d := f.dend;
      Go(s.(f := f.(data := f.data[d := DataOf(op)], dend := d + |DataOf(op)| + 1)), p, DatRel(hd, d))
    case DatRel(hd, d) =>
      if IDXLEN_MIN <= |Body(Info(op.key, d, |DataOf(op)| + 1))| <= IDXLEN_MAX
      then Release1(s, p, DatEndLock, IdxWant(hd, d))
      else Die(s, p, None, Some(d))
    case IdxWant(hd, d) => Acquire(s, p, IdxEndLock, Exclusive, IdxAppend(hd, d))
    case IdxAppend(hd, d) =>
      var r := Info(op.key, d, |DataOf(op)| + 1);
      Go(s.(f := f.(im := AddRec(f.im, f.iend, hd, r), iend := f.iend + RecLen(r))), p, IdxRel(hd, f.iend))
    case IdxRel(hd, off) => Release1(s, p, IdxEndLock, Link(hd, off))
    case Link(hd, off) =>
      if off > PTR_MAX then Die(s, p, Some(off), None)
      else Commit(SetImage(s, SetPtr(f.im, head, off)), p, Code(0), Finish(Answer(Code(0))))
    case Finish(result) =>
      var s' := Release1(s, p, chain, Idle);
      s'.(procs := s'.procs[p := s'.procs[p].(done := pr.done + [(op, result)])])
    case ScanWant => Acquire(s, p, FreeLock, Shared, Scanning)
    case Scanning => Release1(s, p, FreeLock, Idle)
  }

  /** An idle process is asked for an operation, or for the next record of a scan. */
  function Invoke(s: State, p: nat, op: Op): State
    requires p < |s.procs|
  {
    s.(procs := s.procs[p := s.procs[p].(pc := WantChain, op := op)])
  }

  ghost predicate Next(s: State, s': State) {
    exists p :: 0 <= p < |s.procs| && Moves(s, s', p)
  }

  ghost predicate Moves(s: State, s': State, p: nat)
    requires p < |s.procs|
  {
    || (Enabled(s, p) && s' == Step(s, p))
    || (s.procs[p].pc == Idle && exists op :: OpValid(op) && s' == Invoke(s, p, op))
    || (s.procs[p].pc == Idle && s' == Go(s, p, ScanWant))
  }

  /** A new database and n idle processes. */
  function Start(n: nat): State {
    var im := Image(map loc | 0 <= loc < FIRST_REC && (loc == FREE_OFF || IsHeadLoc(loc)) :: 0, map[], []);
    State(Files(im, FIRST_REC, map[], 0), seq(n, i => Proc(Idle, FetchOp([]), map[], [])), [])
  }

  ghost predicate IsRun(run: seq<State>) {
    && |run| > 0
    && run[0] == Start(|run[0].procs|)
    && forall i :: 0 <= i < |run| - 1 ==> Next(run[i], run[i + 1])
  }
}
