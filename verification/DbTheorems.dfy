/** What holds in every interleaving: placement of records, linearizability, no deadlock. */
module DbTheorems {
  import opened Common
  import opened DbFormat
  import opened DbLists
  import opened DbFile
  import opened DbState
  import opened DbLibrary
  import opened DbRuns
  import opened DbProcesses
  import opened DbSharing
  import opened DbInterleaving
  import opened DbSteps
  import opened DbWrites
  import opened DbMoves
  import opened DbAppends
  import opened DbLinks
  import opened DbCommits

  // ---------------------------------------------------------------- every step keeps the invariant

  lemma ReadingStep(s: State, g: Ghost, p: nat)
    requires Inv(s, g) && p < |s.procs| && Enabled(s, p)
    requires var pc := s.procs[p].pc;
             || pc.WantChain? || pc.ReadHead? || pc.Search? || pc.GetData? || pc.Over? || pc.DelWant? || pc.DelFree?
             || pc.DelIdx? || pc.DelPush? || pc.DelRel? || pc.MissHead? || pc.AppHead? || pc.FreeWant?
    ensures Inv(Step(s, p), g)
  {
    hide Inv, Step, Enabled;
    match s.procs[p].pc {
      case WantChain => WantChainOk(s, g, p);
      case ReadHead => ReadHeadOk(s, g, p);
      case Search(_, off, _) => if off == 0 { SearchMissOk(s, g, p); } else { SearchHitOk(s, g, p); }
      case GetData(_) => GetDataOk(s, g, p);
      case Over(_) => OverOk(s, g, p);
      case DelWant(_) => DelWantOk(s, g, p);
      case DelFree(_) => DelFreeOk(s, g, p);
      case DelIdx(_, _) => DelIndexOk(s, g, p);
      case DelPush(_, _) => DelIndexOk(s, g, p);
      case DelRel => DelRelOk(s, g, p);
      case MissHead => HeadOk(s, g, p);
      case AppHead => HeadOk(s, g, p);
      case FreeWant(_) => FreeWantOk(s, g, p);
    }
  }

  lemma StoringStep(s: State, g: Ghost, p: nat)
    requires Inv(s, g) && p < |s.procs| && Enabled(s, p)
    requires var pc := s.procs[p].pc;
             || pc.FreeHead? || pc.FreeScan? || pc.FreeRel? || pc.FreeNone? || pc.ReuseDat? || pc.DatWant?
             || pc.IdxWant? || pc.IdxRel? || pc.Finish? || pc.ScanWant? || pc.Scanning?
    ensures Inv(Step(s, p), g)
  {
    hide Inv, Step, Enabled;
    match s.procs[p].pc {
      case FreeHead(_) => FreeHeadOk(s, g, p);
      case FreeScan(_, _, _, _) => FreeScanOk(s, g, p);
      case FreeRel(_, _, _) => FreeRelOk(s, g, p);
      case FreeNone(_) => FreeRelOk(s, g, p);
      case ReuseDat(_, _, _) => ReuseDatOk(s, g, p);
      case DatWant(_) => EndWantOk(s, g, p);
      case IdxWant(_, _) => EndWantOk(s, g, p);
      case IdxRel(_, _) => IdxRelOk(s, g, p);
      case Finish(_) => FinishOk(s, g, p);
      case ScanWant => ScanOk(s, g, p);
      case Scanning => ScanOk(s, g, p);
    }
  }

  lemma DatRelStep(s: State, g: Ghost, p: nat) returns (g': Ghost)
    requires Inv(s, g) && p < |s.procs| && s.procs[p].pc.DatRel? && Enabled(s, p)
    ensures Inv(Step(s, p), g')
  {
    hide Inv, Hash, Body;
    var pc := s.procs[p].pc;
    if LengthFits(s.procs[p].op, pc.datoff) {
      DatRelOk(s, g, p);
      g' := g;
    } else {
      g' := DatRelDies(s, g, p);
    }
  }

  lemma LinkStep(s: State, g: Ghost, p: nat) returns (g': Ghost)
    requires Inv(s, g) && p < |s.procs| && s.procs[p].pc.Link? && Enabled(s, p)
    ensures Inv(Step(s, p), g')
  {
    hide Inv, Hash, Body;
    if s.procs[p].pc.off <= PTR_MAX {
      g' := LinkOk(s, g, p);
    } else {
      g' := LinkDies(s, g, p);
    }
  }

  /** Any step of any process keeps the invariant. */
  lemma StepKeeps(s: State, g: Ghost, p: nat) returns (g': Ghost)
    requires Inv(s, g) && p < |s.procs| && Enabled(s, p)
    ensures Inv(Step(s, p), g')
  {
    hide Inv, Step, Enabled;
    CanMove(s, p);
    g' := g;
    match s.procs[p].pc {
      case DelData(_) => g' := DelDataOk(s, g, p);
      case DelUnlink(_, _) => g' := DelUnlinkOk(s, g, p);
      case FreeTake(_, _) => g' := FreeTakeOk(s, g, p);
      case ReuseIdx(_, _, _) => g' := ReuseIdxOk(s, g, p);
      case DatAppend(_) => g' := DatAppendOk(s, g, p);
      case DatRel(_, _) => g' := DatRelStep(s, g, p);
      case IdxAppend(_, _) => g' := IdxAppendOk(s, g, p);
      case Link(_, _) => g' := LinkStep(s, g, p);
      case FreeHead(_) => StoringStep(s, g, p);
      case FreeScan(_, _, _, _) => StoringStep(s, g, p);
      case FreeRel(_, _, _) => StoringStep(s, g, p);
      case FreeNone(_) => StoringStep(s, g, p);
      case ReuseDat(_, _, _) => StoringStep(s, g, p);
      case DatWant(_) => StoringStep(s, g, p);
      case IdxWant(_, _) => StoringStep(s, g, p);
      case IdxRel(_, _) => StoringStep(s, g, p);
      case Finish(_) => StoringStep(s, g, p);
      case ScanWant => StoringStep(s, g, p);
      case Scanning => StoringStep(s, g, p);
      case _ => ReadingStep(s, g, p);
    }
  }

  lemma CanMove(s: State, p: nat)
    requires p < |s.procs| && Enabled(s, p)
    ensures !s.procs[p].pc.Idle? && !s.procs[p].pc.Exited?
  {
  }

  lemma MoveKeeps(s: State, g: Ghost, s': State, p: nat) returns (g': Ghost)
    requires Inv(s, g) && p < |s.procs| && Moves(s, s', p)
    ensures Inv(s', g')
  {
    hide Inv, Step, Enabled, OpValid;
    if Enabled(s, p) && s' == Step(s, p) {
      g' := StepKeeps(s, g, p);
    } else if s' == Go(s, p, ScanWant) {
      InvokeScanOk(s, g, p);
      g' := g;
    } else {
      var op :| OpValid(op) && s' == Invoke(s, p, op);
      InvokeOk(s, g, p, op);
      g' := g;
    }
  }

  ghost function StartGhost(n: nat): Ghost {
    Ghost(Start(n).f.im, Lists([], seq(NHASH, h => [])), map[], map[], map[], map[], map[], None, [])
  }

  lemma StartOk(n: nat)
    ensures Inv(Start(n), StartGhost(n))
  {
    hide Locking, MidOk, FilesOk, Owners, DataOk, ContentsOk, LogOk, Procs;
    StartProcs(n);
    StartFiles(n);
  }

  lemma StartProcs(n: nat)
    ensures var s, g := Start(n), StartGhost(n);
            Locking(s) && MidOk(s.procs, g) && Owners(s.procs, g) && LogOk(s) && Procs(s, g)
  {
    hide Hash;
  }

  lemma StartFiles(n: nat)
    ensures var s, g := Start(n), StartGhost(n);
            FilesOk(s.f, g, s.procs) && DataOk(s.f, g) && ContentsOk(s.f, g, LogMap(s.log), s.procs)
  {
    hide Hash;
    var g := StartGhost(n);
    forall h | 0 <= h < NHASH
      ensures IsList(g.im.ptrs, HeadLoc(h), g.ls.chains[h])
    {
      HeadLocs(h);
    }
  }

  /** The invariant holds at every point of every run. */
  lemma {:induction false} RunKeeps(run: seq<State>, i: nat) returns (g: Ghost)
    requires IsRun(run) && i < |run|
    ensures Inv(run[i], g)
    decreases i
  {
    hide Inv, Moves, Start;
    if i == 0 {
      StartOk(|run[0].procs|);
      g := StartGhost(|run[0].procs|);
    } else {
      var g0 := RunKeeps(run, i - 1);
      assert Next(run[i - 1], run[i - 1 + 1]);
      var p :| 0 <= p < |run[i - 1].procs| && Moves(run[i - 1], run[i], p);
      g := MoveKeeps(run[i - 1], g0, run[i], p);
    }
  }

  // ---------------------------------------------------------------- where records are

  /** Every record of the index is on the free list, or on the chain of its key's hash, or in
      the hand of exactly one process, and on no two of these; the lists are acyclic. Only
      inside _db_dodelete, with chain and free list both locked, do the files differ from
      this, and only in the record being deleted and the free-list pointer. Records fill the
      index file and texts fill the data file, and each text belongs to one record or one
      process. */
  ghost predicate Placed(s: State, g: Ghost) {
    && Geometry(g.im, s.f.iend)
    && ListsOk(g.im, g.ls, g.hands.Keys)
    && Owners(s.procs, g)
    && DataOk(s.f, g)
    && ((forall p :: 0 <= p < |s.procs| ==> !InMid(s.procs[p].pc)) ==> s.f.im == g.im)
    && (forall p :: 0 <= p < |s.procs| && InMid(s.procs[p].pc) ==>
          && s.f.im == MidImage(g.im, s.procs[p].pc)
          && Holds1(s.procs[p], ChainLock(ChainOf(s.procs[p].op))) && Holds1(s.procs[p], FreeLock))
  }

  lemma MidHolds(s: State, g: Ghost, p: nat)
    requires Inv(s, g) && p < |s.procs| && InMid(s.procs[p].pc)
    ensures s.f.im == MidImage(g.im, s.procs[p].pc)
    ensures Holds1(s.procs[p], ChainLock(ChainOf(s.procs[p].op))) && Holds1(s.procs[p], FreeLock)
  {
    hide Geometry, ListsOk, Owners, DataOk, ContentsOk, LogOk, LogMap, Hash, MidImage, Hit;
    assert ProcOk(s.f.data, g, LogMap(s.log), s.procs[p]);
  }

  /** In every interleaving, at every point. */
  lemma RecordsPlaced(run: seq<State>, i: nat)
    requires IsRun(run) && i < |run|
    ensures exists g :: Placed(run[i], g)
  {
    hide IsRun, Geometry, ListsOk, Owners, DataOk, ContentsOk, LogOk, LogMap, Hash, MidImage, Procs, Locking, Holds1;
    var g := RunKeeps(run, i);
    var s := run[i];
    forall p | 0 <= p < |s.procs| && InMid(s.procs[p].pc)
      ensures s.f.im == MidImage(g.im, s.procs[p].pc)
      ensures Holds1(s.procs[p], ChainLock(ChainOf(s.procs[p].op))) && Holds1(s.procs[p], FreeLock)
    {
      MidHolds(s, g, p);
    }
    assert Placed(s, g);
  }

  // ---------------------------------------------------------------- linearizability

  /** The effects form a run of a plain map, and what each process has returned, in order, is
      what its effects answered. */
  lemma Linearizable(run: seq<State>, i: nat)
    requires IsRun(run) && i < |run|
    ensures Legal(run[i].log)
    ensures forall p :: 0 <= p < |run[i].procs| ==>
              EffectsOf(run[i].log, p) == run[i].procs[p].done + Pending(run[i].procs[p].pc, run[i].procs[p].op)
  {
    hide IsRun, Inv, Legal, EffectsOf, Pending, Locking, MidOk, FilesOk, Owners, DataOk, ContentsOk, Procs;
    var g := RunKeeps(run, i);
    Parts(run[i], g);
  }

  /** An effect happens in one step of its own process, between taking the key's chain lock
      and releasing it, exclusively unless it is a fetch. */
  lemma EffectUnderLock(s: State, g: Ghost, s': State, p: nat)
    requires Inv(s, g) && p < |s.procs| && Moves(s, s', p) && s'.log != s.log
    ensures var op := s.procs[p].op;
            && |s'.log| == |s.log| + 1 && s'.log[..|s.log|] == s.log
            && s'.log[|s.log|].pid == p && s'.log[|s.log|].op == op
            && ChainLock(ChainOf(op)) in s.procs[p].held
            && s.procs[p].held[ChainLock(ChainOf(op))] == if op.FetchOp? then Shared else Exclusive
  {
    hide Inv, Hash, HeldAt, Moves;
    HeldIs(s, g, p);
    EffectPoint(s, s', p);
    EffectLocks(s.procs[p].pc, s.procs[p].op);
  }

  /** The points where an operation can take effect. */
  predicate Decisive(pc: Pc) {
    pc.Search? || pc.GetData? || pc.Over? || pc.DelUnlink? || pc.DatRel? || pc.Link?
  }

  lemma EffectPoint(s: State, s': State, p: nat)
    requires p < |s.procs| && Moves(s, s', p) && s'.log != s.log
    ensures Decisive(s.procs[p].pc)
    ensures |s'.log| == |s.log| + 1 && s'.log[..|s.log|] == s.log
    ensures s'.log[|s.log|].pid == p && s'.log[|s.log|].op == s.procs[p].op
  {
    hide Hash, CanLock, Body, Released;
  }

  lemma EffectLocks(pc: Pc, op: Op)
    requires Decisive(pc)
    ensures var l := ChainLock(ChainOf(op)); l in HeldAt(pc, op) && HeldAt(pc, op)[l] == ChainMode(op)
  {
    hide Hash;
  }

  /** The log only grows: an operation that returned before another was invoked comes first. */
  lemma {:induction false} LogPrefix(run: seq<State>, i: nat, j: nat)
    requires IsRun(run) && i <= j < |run|
    ensures run[i].log <= run[j].log
    decreases j - i
  {
    hide Inv, Moves, Start;
    if i < j {
      LogPrefix(run, i, j - 1);
      var g := RunKeeps(run, j - 1);
      assert Next(run[j - 1], run[j - 1 + 1]);
      var p :| 0 <= p < |run[j - 1].procs| && Moves(run[j - 1], run[j], p);
      if run[j].log != run[j - 1].log {
        EffectUnderLock(run[j - 1], g, run[j], p);
      }
    }
  }

  /** With no operation in progress, the files hold exactly the map the effects define: each
      key of the map has one live record, with its value, and no other record is live. */
  lemma QuietFiles(run: seq<State>, i: nat) returns (g: Ghost)
    requires IsRun(run) && i < |run|
    requires forall p :: 0 <= p < |run[i].procs| ==> run[i].procs[p].pc.Idle? || run[i].procs[p].pc.Exited?
    ensures run[i].f.im == g.im && ListsOk(g.im, g.ls, g.hands.Keys) && LiveOk(g)
    ensures g.at.Keys == LogMap(run[i].log).Keys
    ensures forall k :: k in g.at ==>
              g.at[k] in g.im.recs && TextIn(run[i].f, g.im.recs[g.at[k]].datoff) == LogMap(run[i].log)[k]
  {
    g := RunKeeps(run, i);
    QuietState(run[i], g);
  }

  lemma QuietState(s: State, g: Ghost)
    requires Inv(s, g)
    requires forall p :: 0 <= p < |s.procs| ==> s.procs[p].pc.Idle? || s.procs[p].pc.Exited?
    ensures s.f.im == g.im && ListsOk(g.im, g.ls, g.hands.Keys) && LiveOk(g)
    ensures g.at.Keys == LogMap(s.log).Keys
    ensures forall k :: k in g.at ==>
              g.at[k] in g.im.recs && k in LogMap(s.log) && TextIn(s.f, g.im.recs[g.at[k]].datoff) == LogMap(s.log)[k]
  {
    hide Geometry, ListsOk, Owners, DataOk, LogOk, LogMap, MidImage, Procs, Locking, LiveOk, TextIn;
    assert g.gone.Keys == {} by {
      forall k | k in g.gone
        ensures false
      {
      }
    }
    forall k | k in g.at
      ensures k in LogMap(s.log) && g.at[k] in g.im.recs && TextIn(s.f, g.im.recs[g.at[k]].datoff) == LogMap(s.log)[k]
    {
      assert HasText(s.f, g, LogMap(s.log), s.procs, k);
    }
  }

  // ---------------------------------------------------------------- no deadlock

  predicate AtWork(pc: Pc) {
    !pc.Idle? && !pc.Exited?
  }

  /** The points where a process waits for a lock. */
  predicate Waiting(pc: Pc) {
    pc.WantChain? || pc.DelWant? || pc.FreeWant? || pc.DatWant? || pc.IdxWant? || pc.ScanWant?
  }

  predicate Inner(l: Lock) {
    l.FreeLock? || l.DatEndLock? || l.IdxEndLock?
  }

  /** The lock a waiting process waits for. */
  function Wanted(pc: Pc, op: Op): Lock
    requires Waiting(pc)
  {
    match pc
    case WantChain => ChainLock(ChainOf(op))
    case DatWant(_) => DatEndLock
    case IdxWant(_, _) => IdxEndLock
    case _ => FreeLock
  }

  /** Whoever holds the free list or the end of a file waits for nothing. */
  lemma InnerNeverWaits(s: State, p: nat, l: Lock)
    requires Locking(s) && p < |s.procs| && l in s.procs[p].held && Inner(l)
    ensures AtWork(s.procs[p].pc) && !Waiting(s.procs[p].pc)
  {
    hide Compatible, OpValid, Hash;
  }

  /** A process waits for a chain only with no lock, and for an inner lock with at most its
      chain's. */
  lemma WaitsInOrder(s: State, p: nat, l: Lock)
    requires Locking(s) && p < |s.procs| && Waiting(s.procs[p].pc) && l in s.procs[p].held
    ensures l == ChainLock(ChainOf(s.procs[p].op)) && Inner(Wanted(s.procs[p].pc, s.procs[p].op))
  {
    hide Compatible, OpValid, Hash;
  }

  lemma FreeToTake(s: State, p: nat)
    requires Locking(s) && p < |s.procs| && Waiting(s.procs[p].pc)
    requires forall q :: 0 <= q < |s.procs| && q != p ==> Wanted(s.procs[p].pc, s.procs[p].op) !in s.procs[q].held
    ensures Enabled(s, p)
  {
    hide Compatible, OpValid, Hash, Overlap, RangeOf;
    var l := Wanted(s.procs[p].pc, s.procs[p].op);
    forall q, x | 0 <= q < |s.procs| && q != p && x in s.procs[q].held && Overlap(RangeOf(x), RangeOf(l))
      ensures false
    {
      HeldLocksOk(s.procs[q].pc, s.procs[q].op, x);
      LocksApart(x, l);
    }
  }

  lemma NotWaitingMoves(s: State, p: nat)
    requires p < |s.procs| && AtWork(s.procs[p].pc) && !Waiting(s.procs[p].pc)
    ensures Enabled(s, p)
  {
  }

  /** As long as any process is at work, some process can take its next step. */
  lemma NoDeadlock(s: State, g: Ghost)
    requires Inv(s, g) && exists p :: 0 <= p < |s.procs| && AtWork(s.procs[p].pc)
    ensures exists q :: 0 <= q < |s.procs| && Enabled(s, q)
  {
    hide Inv, Enabled, AtWork, Waiting, Locking, MidOk, FilesOk, Owners, DataOk, ContentsOk, Procs, LogOk;
    Parts(s, g);
    var p :| 0 <= p < |s.procs| && AtWork(s.procs[p].pc);
    if q :| 0 <= q < |s.procs| && AtWork(s.procs[q].pc) && !Waiting(s.procs[q].pc) {
      NotWaitingMoves(s, q);
    } else {
      var q := AllWait(s, p);
    }
  }

  /** So in every run, at every point, for any number of processes. */
  lemma RunNeverStuck(run: seq<State>, i: nat)
    requires IsRun(run) && i < |run| && exists p :: 0 <= p < |run[i].procs| && AtWork(run[i].procs[p].pc)
    ensures exists q :: 0 <= q < |run[i].procs| && Enabled(run[i], q)
  {
    hide IsRun, Inv, Enabled, AtWork;
    var g := RunKeeps(run, i);
    NoDeadlock(run[i], g);
  }

  /** When everyone at work is waiting, nobody holds what they wait for. */
  lemma AllWait(s: State, p: nat) returns (q: nat)
    requires Locking(s) && p < |s.procs| && AtWork(s.procs[p].pc)
    requires forall q :: 0 <= q < |s.procs| && AtWork(s.procs[q].pc) ==> Waiting(s.procs[q].pc)
    ensures q < |s.procs| && Enabled(s, q)
  {
    hide Enabled, Locking, HeldAt;
    if x :| 0 <= x < |s.procs| && Waiting(s.procs[x].pc) && Inner(Wanted(s.procs[x].pc, s.procs[x].op)) {
      q := x;
      forall y | 0 <= y < |s.procs| && y != x
        ensures Wanted(s.procs[x].pc, s.procs[x].op) !in s.procs[y].held
      {
        if Wanted(s.procs[x].pc, s.procs[x].op) in s.procs[y].held {
          InnerNeverWaits(s, y, Wanted(s.procs[x].pc, s.procs[x].op));
        }
      }
      FreeToTake(s, x);
    } else {
      q := p;
      forall y | 0 <= y < |s.procs| && y != p
        ensures Wanted(s.procs[p].pc, s.procs[p].op) !in s.procs[y].held
      {
        if Wanted(s.procs[p].pc, s.procs[p].op) in s.procs[y].held {
          HolderAtWork(s, y, Wanted(s.procs[p].pc, s.procs[p].op));
          WaitsInOrder(s, y, Wanted(s.procs[p].pc, s.procs[p].op));
        }
      }
      FreeToTake(s, p);
    }
  }

  lemma HolderAtWork(s: State, p: nat, l: Lock)
    requires Locking(s) && p < |s.procs| && l in s.procs[p].held
    ensures AtWork(s.procs[p].pc)
  {
    hide Compatible, OpValid, Hash;
  }
}
