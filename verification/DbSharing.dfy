/** What every interleaving of the processes keeps. */
module DbSharing {
  import opened Common
  import opened DbFormat
  import opened DbLists
  import opened DbFile
  import opened DbState
  import opened DbLibrary
  import opened DbRuns
  import opened DbProcesses

  // ---------------------------------------------------------------- the log

  /** What an effect does to the map. A process that dies in db_store has at most removed
      the key it was replacing. */
  function Effect(m: Contents, e: Event): Contents {
    if e.result.Dead? then m - {e.op.key} else Apply(m, e.op).1
  }

  /** The map after all effects, starting from the empty one. */
  function LogMap(log: seq<Event>): Contents {
    if log == [] then map[]
    else Effect(LogMap(log[..|log| - 1]), log[|log| - 1])
  }

  /** An answer is the one a plain map would give at that point. */
  ghost predicate RightAnswer(m: Contents, e: Event) {
    match e.result
    case Answer(res) => Apply(m, e.op).0 == res
    case Dead => e.op.StoreOp?
  }

  /** The log is a run of a plain map. */
  ghost predicate Legal(log: seq<Event>) {
    forall i :: 0 <= i < |log| ==> RightAnswer(LogMap(log[..i]), log[i])
  }

  /** The effects of one process, in order. */
  function EffectsOf(log: seq<Event>, p: nat): seq<(Op, Result)> {
    if log == [] then []
    else
      var before, e := EffectsOf(log[..|log| - 1], p), log[|log| - 1];
      if e.pid == p then before + [(e.op, e.result)] else before
  }

  lemma LogGrows(log: seq<Event>, e: Event)
    requires Legal(log) && RightAnswer(LogMap(log), e)
    ensures Legal(log + [e]) && LogMap(log + [e]) == Effect(LogMap(log), e)
    ensures forall p: nat ::
              EffectsOf(log + [e], p) == EffectsOf(log, p) + (if e.pid == p then [(e.op, e.result)] else [])
  {
    var log' := log + [e];
    assert log'[..|log|] == log;
    forall i | 0 <= i < |log'|
      ensures RightAnswer(LogMap(log'[..i]), log'[i])
    {
      if i < |log| {
        assert log'[..i] == log[..i];
      }
    }
  }

  // ---------------------------------------------------------------- program points

  /** The locks a process holds at a program point. */
  function HeldAt(pc: Pc, op: Op): map<Lock, Mode> {
    var chain := map[ChainLock(ChainOf(op)) := ChainMode(op)];
    match pc
    case Idle => map[]
    case WantChain => map[]
    case ScanWant => map[]
    case Exited(_, _) => map[]
    case Scanning => map[FreeLock := Shared]
    case DelData(_) => chain[FreeLock := Exclusive]
    case DelFree(_) => chain[FreeLock := Exclusive]
    case DelIdx(_, _) => chain[FreeLock := Exclusive]
    case DelPush(_, _) => chain[FreeLock := Exclusive]
    case DelUnlink(_, _) => chain[FreeLock := Exclusive]
    case DelRel => chain[FreeLock := Exclusive]
    case FreeHead(_) => chain[FreeLock := Exclusive]
    case FreeScan(_, _, _, _) => chain[FreeLock := Exclusive]
    case FreeTake(_, _) => chain[FreeLock := Exclusive]
    case FreeRel(_, _, _) => chain[FreeLock := Exclusive]
    case FreeNone(_) => chain[FreeLock := Exclusive]
    case DatAppend(_) => chain[DatEndLock := Exclusive]
    case DatRel(_, _) => chain[DatEndLock := Exclusive]
    case IdxAppend(_, _) => chain[IdxEndLock := Exclusive]
    case IdxRel(_, _) => chain[IdxEndLock := Exclusive]
    case _ => chain
  }

  /** The record a process alone can reach. */
  function HandOf(pc: Pc): Option<nat> {
    match pc
    case FreeRel(_, off, _) => Some(off)
    case ReuseDat(_, off, _) => Some(off)
    case ReuseIdx(_, off, _) => Some(off)
    case IdxRel(_, off) => Some(off)
    case Link(_, off) => Some(off)
    case Exited(lost, _) => lost
    case _ => None
  }

  /** The data a process has written that no record names yet. */
  function PendOf(pc: Pc): Option<nat> {
    match pc
    case DatRel(_, d) => Some(d)
    case IdxWant(_, d) => Some(d)
    case IdxAppend(_, d) => Some(d)
    case Exited(_, lost) => lost
    case _ => None
  }

  /** Inside _db_dodelete, from its first write to its last. */
  predicate InMid(pc: Pc) {
    pc.DelFree? || pc.DelIdx? || pc.DelPush? || pc.DelUnlink?
  }

  /** The index as an unfinished deletion has left it, from the index as it was before. */
  function MidImage(im: Image, pc: Pc): Image {
    match pc
    case DelPush(t, fp) => SetRec(im, t.off, fp, Blanked(t.info))
    case DelUnlink(t, fp) => SetPtr(SetRec(im, t.off, fp, Blanked(t.info)), FREE_OFF, t.off)
    case _ => im
  }

  /** A db_store between deleting the old record and linking the new one. */
  predicate Replacing(pc: Pc, op: Op) {
    && op.StoreOp?
    && (pc.DelRel? || pc.AppHead? || pc.DatWant? || pc.DatAppend? || pc.DatRel? || pc.IdxWant?
        || pc.IdxAppend? || pc.IdxRel? || pc.Link?)
  }

  /** Took effect, not yet returned. */
  function Pending(pc: Pc, op: Op): seq<(Op, Result)> {
    match pc
    case Finish(result) => [(op, result)]
    case DelRel => if op.DeleteOp? then [(op, Answer(Code(0)))] else []
    case _ => []
  }

  // ---------------------------------------------------------------- the invariant

  /** The state behind the files: the index with an unfinished deletion undone, its lists,
      the records in hand and the data in hand with the processes that have them, the record
      of each extent, the live record of each key, the keys being replaced, and the process
      that is deleting. */
  datatype Ghost = Ghost(im: Image, ls: Lists, hands: map<nat, nat>, pend: map<nat, nat>,
                         own: map<nat, nat>, at: map<string, nat>, gone: map<string, nat>,
                         mid: Option<nat>, dorder: seq<nat>)

  /** Two processes hold a lock together only when both share it. */
  ghost predicate Compatible(a: map<Lock, Mode>, b: map<Lock, Mode>) {
    forall l :: l in a && l in b ==> a[l] == Shared && b[l] == Shared
  }

  ghost predicate Locking(s: State) {
    && (forall p :: 0 <= p < |s.procs| ==>
          s.procs[p].held == HeldAt(s.procs[p].pc, s.procs[p].op) && OpValid(s.procs[p].op))
    && (forall p, q :: 0 <= p < |s.procs| && 0 <= q < |s.procs| && p != q ==>
          Compatible(s.procs[p].held, s.procs[q].held))
  }

  ghost predicate MidOk(procs: seq<Proc>, g: Ghost) {
    && (g.mid.Some? ==> g.mid.value < |procs|)
    && forall p :: 0 <= p < |procs| ==> (InMid(procs[p].pc) <==> g.mid == Some(p))
  }

  ghost predicate FilesOk(f: Files, g: Ghost, procs: seq<Proc>) {
    && Geometry(g.im, f.iend)
    && ListsOk(g.im, g.ls, g.hands.Keys)
    && (g.mid.Some? && g.mid.value < |procs| ==> f.im == MidImage(g.im, procs[g.mid.value].pc))
    && (g.mid.None? ==> f.im == g.im)
  }

  ghost predicate Owners(procs: seq<Proc>, g: Ghost) {
    && (forall o :: o in g.hands ==>
          o in g.im.recs && g.hands[o] < |procs| && HandOf(procs[g.hands[o]].pc) == Some(o))
    && (forall p :: 0 <= p < |procs| && HandOf(procs[p].pc).Some? ==>
          HandOf(procs[p].pc).value in g.hands && g.hands[HandOf(procs[p].pc).value] == p)
    && (forall d :: d in g.pend ==> g.pend[d] < |procs| && PendOf(procs[g.pend[d]].pc) == Some(d))
    && (forall p :: 0 <= p < |procs| && PendOf(procs[p].pc).Some? ==>
          PendOf(procs[p].pc).value in g.pend && g.pend[PendOf(procs[p].pc).value] == p)
  }

  /** Where text i of the data file starts; past the last one, where the file ends. */
  ghost function TextStart(dorder: seq<nat>, dend: nat, i: nat): nat {
    if i < |dorder| then dorder[i] else dend
  }

  ghost predicate TextFills(data: map<nat, string>, dorder: seq<nat>, dend: nat, i: nat)
    requires i < |dorder|
  {
    dorder[i] in data && TextStart(dorder, dend, i + 1) == dorder[i] + |data[dorder[i]]| + 1
  }

  /** The texts, each with its newline, fill the data file from its start to its end. */
  ghost predicate TextsTile(data: map<nat, string>, dorder: seq<nat>, dend: nat) {
    && TextStart(dorder, dend, 0) == 0
    && (forall i :: 0 <= i < |dorder| ==> TextFills(data, dorder, dend, i))
    && (forall d :: d in data ==> d in dorder && d < dend)
  }

  /** Every text belongs to one record or to one process. */
  ghost predicate DataOk(f: Files, g: Ghost) {
    && g.own.Keys !! g.pend.Keys
    && f.data.Keys == g.own.Keys + g.pend.Keys
    && (forall d :: d in g.own ==> g.own[d] in g.im.recs && g.im.recs[g.own[d]].datoff == d)
    && (forall o :: o in g.im.recs ==> RecData(f.data, g.own, g.im.recs[o], o))
    && TextsTile(f.data, g.dorder, f.dend)
  }

  ghost predicate RecData(data: map<nat, string>, own: map<nat, nat>, r: Info, o: nat) {
    r.datoff in own && own[r.datoff] == o && r.datoff in data && |data[r.datoff]| + 1 == r.datlen
  }

  /** The process is blanking this record. */
  ghost predicate Blanking(procs: seq<Proc>, g: Ghost, o: nat) {
    && g.mid.Some? && g.mid.value < |procs|
    && InMid(procs[g.mid.value].pc) && procs[g.mid.value].pc.t.off == o
  }

  /** at names the one live record of each key. */
  ghost predicate LiveOk(g: Ghost) {
    && (forall k :: k in g.at ==>
          g.at[k] in g.im.recs && g.at[k] !in g.ls.free && g.at[k] !in g.hands && g.im.recs[g.at[k]].key == k)
    && (forall o :: o in g.im.recs && o !in g.ls.free && o !in g.hands ==>
          g.im.recs[o].key in g.at && g.at[g.im.recs[o].key] == o)
  }

  ghost predicate HasText(f: Files, g: Ghost, m: Contents, procs: seq<Proc>, k: string)
    requires k in g.at
  {
    && k in m && g.at[k] in g.im.recs
    && (Blanking(procs, g, g.at[k]) || TextIn(f, g.im.recs[g.at[k]].datoff) == m[k])
  }

  ghost predicate ValuesOk(f: Files, g: Ghost, m: Contents, procs: seq<Proc>) {
    forall k :: k in g.at ==> HasText(f, g, m, procs, k)
  }

  ghost predicate GoneOk(g: Ghost, procs: seq<Proc>) {
    forall k :: k in g.gone ==>
      g.gone[k] < |procs| && procs[g.gone[k]].op.key == k && Replacing(procs[g.gone[k]].pc, procs[g.gone[k]].op)
  }

  /** The live records spell out the map, but for keys in the middle of being replaced and
      the value of a record being blanked. */
  ghost predicate ContentsOk(f: Files, g: Ghost, m: Contents, procs: seq<Proc>) {
    && g.at.Keys !! g.gone.Keys
    && m.Keys == g.at.Keys + g.gone.Keys
    && LiveOk(g)
    && ValuesOk(f, g, m, procs)
    && GoneOk(g, procs)
  }

  ghost predicate LogOk(s: State) {
    && Legal(s.log)
    && forall p :: 0 <= p < |s.procs| ==>
         EffectsOf(s.log, p) == s.procs[p].done + Pending(s.procs[p].pc, s.procs[p].op)
  }

  // What a process knows at a program point.

  ghost predicate OnChain(g: Ghost, op: Op, ptroff: nat, off: nat, i: nat)
    requires |g.ls.chains| == NHASH
  {
    var chain := g.ls.chains[ChainOf(op)];
    && i <= |chain| && off == At(chain, i) && ptroff == Loc(HeadLoc(ChainOf(op)), chain, i)
    && forall j :: 0 <= j < i ==> chain[j] in g.im.recs && g.im.recs[chain[j]].key != op.key
  }

  ghost predicate Hit(g: Ghost, op: Op, t: Target)
    requires |g.ls.chains| == NHASH
  {
    var chain := g.ls.chains[ChainOf(op)];
    && t.i < |chain| && t.off == chain[t.i] && t.ptroff == Loc(HeadLoc(ChainOf(op)), chain, t.i)
    && t.next == At(chain, t.i + 1) && t.off in g.im.recs && g.im.recs[t.off] == t.info && t.info.key == op.key
  }

  ghost predicate OnFree(g: Ghost, save: nat, off: nat, i: nat) {
    i <= |g.ls.free| && off == At(g.ls.free, i) && save == Loc(FREE_OFF, g.ls.free, i)
  }

  /** The key has no record, and the flag lets this store go ahead. */
  ghost predicate Clear(g: Ghost, m: Contents, op: Op) {
    && op.StoreOp? && op.key !in g.at
    && (op.key in m ==> op.flag != DB_INSERT) && (op.key !in m ==> op.flag != DB_REPLACE)
  }

  ghost predicate HeadIs(g: Ghost, op: Op, head: nat)
    requires |g.ls.chains| == NHASH
  {
    head == At(g.ls.chains[ChainOf(op)], 0)
  }

  ghost predicate DelOk(g: Ghost, op: Op, t: Target)
    requires |g.ls.chains| == NHASH
  {
    && Hit(g, op, t)
    && (op.DeleteOp? || (op.StoreOp? && op.flag != DB_INSERT && |op.data| + 1 != t.info.datlen))
  }

  predicate Fits(op: Op, info: Info) {
    |info.key| == |op.key| && info.datlen == |DataOf(op)| + 1
  }

  ghost predicate ToFill(g: Ghost, op: Op, off: nat, info: Info) {
    off in g.im.recs && off <= PTR_MAX && g.im.recs[off] == info && Fits(op, info)
  }

  ghost predicate ToLink(data: map<nat, string>, g: Ghost, op: Op, head: nat, off: nat) {
    && off in g.im.recs && off in g.im.ptrs && g.im.ptrs[off] == head && g.im.recs[off].key == op.key
    && g.im.recs[off].datoff in data && data[g.im.recs[off].datoff] == DataOf(op)
  }

  predicate LengthFits(op: Op, d: nat) {
    IDXLEN_MIN <= |Body(Info(op.key, d, |DataOf(op)| + 1))| <= IDXLEN_MAX
  }

  ghost predicate ProcOk(data: map<nat, string>, g: Ghost, m: Contents, pr: Proc)
    requires |g.ls.chains| == NHASH
  {
    var op := pr.op;
    match pr.pc
    case Search(ptroff, off, i) => OnChain(g, op, ptroff, off, i)
    case GetData(t) => op.FetchOp? && Hit(g, op, t)
    case Over(t) => op.StoreOp? && op.flag != DB_INSERT && Hit(g, op, t) && t.info.datlen == |op.data| + 1
    case DelWant(t) => DelOk(g, op, t)
    case DelData(t) => DelOk(g, op, t)
    case DelFree(t) => DelOk(g, op, t)
    case DelIdx(t, fp) => DelOk(g, op, t) && fp == At(g.ls.free, 0)
    case DelPush(t, fp) => DelOk(g, op, t) && fp == At(g.ls.free, 0)
    case DelUnlink(t, fp) => DelOk(g, op, t) && fp == At(g.ls.free, 0)
    case DelRel => op.DeleteOp? || Clear(g, m, op)
    case AppHead => Clear(g, m, op)
    case MissHead => Clear(g, m, op)
    case FreeWant(hd) => Clear(g, m, op) && HeadIs(g, op, hd)
    case FreeHead(hd) => Clear(g, m, op) && HeadIs(g, op, hd)
    case FreeScan(hd, save, off, i) => Clear(g, m, op) && HeadIs(g, op, hd) && OnFree(g, save, off, i)
    case FreeTake(hd, t) =>
      && Clear(g, m, op) && HeadIs(g, op, hd) && t.i < |g.ls.free| && OnFree(g, t.ptroff, t.off, t.i)
      && t.next == At(g.ls.free, t.i + 1) && t.off in g.im.recs && g.im.recs[t.off] == t.info && Fits(op, t.info)
    case FreeRel(hd, off, info) => Clear(g, m, op) && HeadIs(g, op, hd) && ToFill(g, op, off, info)
    case FreeNone(hd) => Clear(g, m, op) && HeadIs(g, op, hd)
    case ReuseDat(hd, off, info) => Clear(g, m, op) && HeadIs(g, op, hd) && ToFill(g, op, off, info)
    case ReuseIdx(hd, off, info) =>
      && Clear(g, m, op) && HeadIs(g, op, hd) && ToFill(g, op, off, info)
      && info.datoff in data && data[info.datoff] == DataOf(op)
    case DatWant(hd) => Clear(g, m, op) && HeadIs(g, op, hd)
    case DatAppend(hd) => Clear(g, m, op) && HeadIs(g, op, hd)
    case DatRel(hd, d) => Clear(g, m, op) && HeadIs(g, op, hd) && d in data && data[d] == DataOf(op)
    case IdxWant(hd, d) =>
      Clear(g, m, op) && HeadIs(g, op, hd) && d in data && data[d] == DataOf(op) && LengthFits(op, d)
    case IdxAppend(hd, d) =>
      Clear(g, m, op) && HeadIs(g, op, hd) && d in data && data[d] == DataOf(op) && LengthFits(op, d)
    case IdxRel(hd, off) => Clear(g, m, op) && HeadIs(g, op, hd) && ToLink(data, g, op, hd, off)
    case Link(hd, off) => Clear(g, m, op) && HeadIs(g, op, hd) && ToLink(data, g, op, hd, off)
    case _ => true
  }

  ghost predicate Procs(s: State, g: Ghost)
    requires |g.ls.chains| == NHASH
  {
    forall p :: 0 <= p < |s.procs| ==> ProcOk(s.f.data, g, LogMap(s.log), s.procs[p])
  }

  ghost predicate Inv(s: State, g: Ghost) {
    && |g.ls.chains| == NHASH
    && Locking(s)
    && MidOk(s.procs, g)
    && FilesOk(s.f, g, s.procs)
    && Owners(s.procs, g)
    && DataOk(s.f, g)
    && ContentsOk(s.f, g, LogMap(s.log), s.procs)
    && LogOk(s)
    && Procs(s, g)
  }

  // ---------------------------------------------------------------- what others cannot disturb

  /** The part of the state a process's knowledge is about looks the same. */
  ghost predicate SameView(data: map<nat, string>, g: Ghost, m: Contents,
                           data': map<nat, string>, g': Ghost, m': Contents, pr: Proc)
    requires |g.ls.chains| == NHASH && |g'.ls.chains| == NHASH
  {
    var h := ChainOf(pr.op);
    && (ChainLock(h) in pr.held ==> SameChain(g, m, g', m', pr.op))
    && (FreeLock in pr.held ==> SameFree(g, g'))
    && (HandOf(pr.pc).Some? ==> RecordKeeps(data, g.im, data', g'.im, HandOf(pr.pc).value))
    && (PendOf(pr.pc).Some? ==>
          var d := PendOf(pr.pc).value; d in data ==> d in data' && data'[d] == data[d])
  }

  ghost predicate RecordKeeps(data: map<nat, string>, im: Image, data': map<nat, string>, im': Image, o: nat) {
    && (o in im.recs ==> o in im'.recs && im'.recs[o] == im.recs[o])
    && (o in im.ptrs ==> o in im'.ptrs && im'.ptrs[o] == im.ptrs[o])
    && (o in im.recs && im.recs[o].datoff in data ==>
          im.recs[o].datoff in data' && data'[im.recs[o].datoff] == data[im.recs[o].datoff])
  }

  ghost predicate SameChain(g: Ghost, m: Contents, g': Ghost, m': Contents, op: Op)
    requires |g.ls.chains| == NHASH && |g'.ls.chains| == NHASH
  {
    var h := ChainOf(op);
    && g'.ls.chains[h] == g.ls.chains[h]
    && (forall o :: o in g.ls.chains[h] ==> o in g.im.recs && o in g'.im.recs && g'.im.recs[o] == g.im.recs[o])
    && (op.key in g.at <==> op.key in g'.at)
    && (op.key in m <==> op.key in m')
  }

  ghost predicate SameFree(g: Ghost, g': Ghost) {
    && g'.ls.free == g.ls.free
    && (forall o :: o in g.ls.free ==> o in g.im.recs && o in g'.im.recs && g'.im.recs[o] == g.im.recs[o])
  }

  lemma ChainKept(g: Ghost, m: Contents, g': Ghost, m': Contents, op: Op)
    requires |g.ls.chains| == NHASH && |g'.ls.chains| == NHASH && SameChain(g, m, g', m', op)
    ensures Clear(g, m, op) ==> Clear(g', m', op)
    ensures forall hd :: HeadIs(g, op, hd) ==> HeadIs(g', op, hd)
  {
  }

  lemma OnChainKept(g: Ghost, m: Contents, g': Ghost, m': Contents, op: Op, po: nat, off: nat, i: nat)
    requires |g.ls.chains| == NHASH && |g'.ls.chains| == NHASH && SameChain(g, m, g', m', op)
    requires OnChain(g, op, po, off, i)
    ensures OnChain(g', op, po, off, i)
  {
    hide Hash;
  }

  lemma HitKept(g: Ghost, m: Contents, g': Ghost, m': Contents, op: Op, t: Target)
    requires |g.ls.chains| == NHASH && |g'.ls.chains| == NHASH && SameChain(g, m, g', m', op)
    requires Hit(g, op, t)
    ensures Hit(g', op, t)
  {
    hide Hash;
  }

  lemma ToFillKept(data: map<nat, string>, g: Ghost, data': map<nat, string>, g': Ghost, op: Op, off: nat, info: Info)
    requires RecordKeeps(data, g.im, data', g'.im, off) && ToFill(g, op, off, info)
    ensures ToFill(g', op, off, info)
    ensures info.datoff in data && data[info.datoff] == DataOf(op) ==>
              info.datoff in data' && data'[info.datoff] == DataOf(op)
  {
  }

  lemma ToLinkKept(data: map<nat, string>, g: Ghost, data': map<nat, string>, g': Ghost, op: Op, hd: nat, off: nat)
    requires RecordKeeps(data, g.im, data', g'.im, off) && ToLink(data, g, op, hd, off)
    ensures ToLink(data', g', op, hd, off)
  {
  }

  /** What a process knows survives every step that leaves its view alone. */
  lemma ViewKeepsProc(data: map<nat, string>, g: Ghost, m: Contents,
                      data': map<nat, string>, g': Ghost, m': Contents, pr: Proc)
    requires |g.ls.chains| == NHASH && |g'.ls.chains| == NHASH
    requires pr.held == HeldAt(pr.pc, pr.op) && ProcOk(data, g, m, pr)
    requires SameView(data, g, m, data', g', m', pr)
    ensures ProcOk(data', g', m', pr)
  {
    hide Hash, LengthFits, OnChain, Hit, Clear, HeadIs, ToFill, ToLink, SameChain, SameFree, RecordKeeps;
    var op := pr.op;
    if ChainLock(ChainOf(op)) in pr.held {
      ViewParts(data, g, m, data', g', m', pr);
      ChainKept(g, m, g', m', op);
      match pr.pc {
        case Search(po, off, i) => OnChainKept(g, m, g', m', op, po, off, i);
        case GetData(t) => HitKept(g, m, g', m', op, t);
        case Over(t) => HitKept(g, m, g', m', op, t);
        case DelWant(t) => HitKept(g, m, g', m', op, t);
        case DelData(t) => HitKept(g, m, g', m', op, t);
        case DelFree(t) => HitKept(g, m, g', m', op, t);
        case DelIdx(t, _) => HitKept(g, m, g', m', op, t);
        case DelPush(t, _) => HitKept(g, m, g', m', op, t);
        case DelUnlink(t, _) => HitKept(g, m, g', m', op, t);
        case FreeRel(_, off, info) => ToFillKept(data, g, data', g', op, off, info);
        case ReuseDat(_, off, info) => ToFillKept(data, g, data', g', op, off, info);
        case ReuseIdx(_, off, info) => ToFillKept(data, g, data', g', op, off, info);
        case IdxRel(hd, off) => ToLinkKept(data, g, data', g', op, hd, off);
        case Link(hd, off) => ToLinkKept(data, g, data', g', op, hd, off);
        case FreeTake(hd, t) => FreeTakeKept(g, g', t);
        case _ =>
      }
    }
  }

  lemma FreeTakeKept(g: Ghost, g': Ghost, t: Target)
    requires SameFree(g, g') && t.i < |g.ls.free| && OnFree(g, t.ptroff, t.off, t.i)
    requires t.off in g.im.recs
    ensures t.off in g'.im.recs && g'.im.recs[t.off] == g.im.recs[t.off]
  {
    assert g.ls.free[t.i] in g.ls.free;
  }

  /** The view at a program point, spelled out. */
  lemma ViewParts(data: map<nat, string>, g: Ghost, m: Contents,
                  data': map<nat, string>, g': Ghost, m': Contents, pr: Proc)
    requires |g.ls.chains| == NHASH && |g'.ls.chains| == NHASH && pr.held == HeldAt(pr.pc, pr.op)
    requires SameView(data, g, m, data', g', m', pr) && ChainLock(ChainOf(pr.op)) in pr.held
    ensures SameChain(g, m, g', m', pr.op)
    ensures pr.pc.DelIdx? || pr.pc.DelPush? || pr.pc.DelUnlink? || pr.pc.FreeScan? || pr.pc.FreeTake? ==>
              SameFree(g, g') && g'.ls.free == g.ls.free
    ensures pr.pc.FreeRel? || pr.pc.ReuseDat? || pr.pc.ReuseIdx? || pr.pc.IdxRel? || pr.pc.Link? ==>
              RecordKeeps(data, g.im, data', g'.im, pr.pc.off)
    ensures pr.pc.DatRel? || pr.pc.IdxWant? || pr.pc.IdxAppend? ==>
              (pr.pc.datoff in data ==> pr.pc.datoff in data' && data'[pr.pc.datoff] == data[pr.pc.datoff])
  {
    hide Hash;
  }
}
