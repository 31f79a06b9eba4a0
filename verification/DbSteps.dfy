/** Program point by program point: the steps that only read, lock, unlock or answer. */
module DbSteps {
  import opened Common
  import opened DbFormat
  import opened DbLists
  import opened DbFile
  import opened DbState
  import opened DbLibrary
  import opened DbRuns
  import opened DbProcesses
  import opened DbSharing
  import opened DbInterleaving

  // ---------------------------------------------------------------- the map and the chains

  /** A key no record of its locked chain carries has no live record. */
  lemma ChainMiss(s: State, g: Ghost, op: Op)
    requires Inv(s, g)
    requires OnChain(g, op, Loc(HeadLoc(ChainOf(op)), g.ls.chains[ChainOf(op)], |g.ls.chains[ChainOf(op)]|),
                                  0, |g.ls.chains[ChainOf(op)]|)
    ensures op.key !in g.at
  {
    hide IsList, Blank, LogOk, DataOk, Owners, LogMap, Locking, Procs, Geometry, MidOk, Replacing;
  }

  /** The key of a record found on a locked chain is in the map. */
  lemma ChainHit(s: State, g: Ghost, op: Op, t: Target)
    requires Inv(s, g) && Hit(g, op, t)
    ensures op.key in g.at && g.at[op.key] == t.off && op.key in LogMap(s.log)
    ensures t.off !in g.ls.free && t.off !in g.hands
  {
    hide IsList, Blank, LogOk, DataOk, Owners, LogMap, Locking, Procs, Geometry, MidOk, Replacing, Hash;
    assert t.off in g.ls.chains[ChainOf(op)];
  }

  /** No other process is replacing the key of a chain this one has locked. */
  lemma NotGone(s: State, g: Ghost, p: nat)
    requires Inv(s, g) && p < |s.procs| && ChainLock(ChainOf(s.procs[p].op)) in s.procs[p].held
    ensures s.procs[p].op.key in g.gone ==> g.gone[s.procs[p].op.key] == p
  {
    hide Inv, Hash;
    var op := s.procs[p].op;
    if op.key in g.gone && g.gone[op.key] != p {
      GoneLock(s, g, op.key);
      Alone(s, g.gone[op.key], ChainLock(ChainOf(op)), p);
    }
  }

  /** A process replacing a key has the key's chain to itself. */
  lemma GoneLock(s: State, g: Ghost, k: string)
    requires Inv(s, g) && k in g.gone
    ensures Locking(s) && g.gone[k] < |s.procs|
    ensures ChainLock(Hash(k)) in s.procs[g.gone[k]].held && s.procs[g.gone[k]].held[ChainLock(Hash(k))] == Exclusive
  {
    hide FilesOk, LogOk, DataOk, Owners, LogMap, Procs, MidOk, Hash, Blanking, TextIn, OpValid, Compatible;
  }

  // ---------------------------------------------------------------- searching

  lemma WantChainOk(s: State, g: Ghost, p: nat)
    requires Inv(s, g) && p < |s.procs| && s.procs[p].pc.WantChain? && Enabled(s, p)
    ensures Inv(Step(s, p), g)
  {
    hide Inv, CanLock, Hash, LogMap;
    var op := s.procs[p].op;
    AcquireOk(s, g, p, ChainLock(ChainOf(op)), ChainMode(op), ReadHead);
  }

  lemma ReadHeadOk(s: State, g: Ghost, p: nat)
    requires Inv(s, g) && p < |s.procs| && s.procs[p].pc.ReadHead?
    ensures Inv(Step(s, p), g)
  {
    hide Inv, Hash, LogMap;
    HeldIs(s, g, p);
    ChainRead(s, g, p, 0);
    var head := HeadLoc(ChainOf(s.procs[p].op));
    GoOk(s, g, p, Search(head, PtrIn(s.f, head), 0));
  }

  lemma HeldIs(s: State, g: Ghost, p: nat)
    requires Inv(s, g) && p < |s.procs|
    ensures |g.ls.chains| == NHASH
    ensures s.procs[p].held == HeldAt(s.procs[p].pc, s.procs[p].op) && OpValid(s.procs[p].op)
    ensures ProcOk(s.f.data, g, LogMap(s.log), s.procs[p])
  {
    hide FilesOk, MidOk, Owners, DataOk, ContentsOk, LogOk, HeldAt, ProcOk, OpValid;
  }

  lemma MapKeys(s: State, g: Ghost, k: string)
    requires Inv(s, g)
    ensures k in LogMap(s.log) <==> k in g.at || k in g.gone
  {
    hide FilesOk, MidOk, Owners, DataOk, LogOk, Locking, Procs, LogMap;
  }

  /** At the end of its chain, a search knows that the key is not in the map. */
  lemma SearchEnd(s: State, g: Ghost, p: nat)
    requires Inv(s, g) && p < |s.procs| && s.procs[p].pc.Search? && s.procs[p].pc.off == 0
    ensures s.procs[p].op.key !in g.at && s.procs[p].op.key !in LogMap(s.log)
  {
    hide Inv, Hash, LogMap;
    var op, pc := s.procs[p].op, s.procs[p].pc;
    HeldIs(s, g, p);
    var chain := g.ls.chains[ChainOf(op)];
    ChainRead(s, g, p, pc.i);
    AtEnd(chain, pc.i);
    ChainMiss(s, g, op);
    NotGone(s, g, p);
    ReplacerOf(s, g, p);
    MapKeys(s, g, op.key);
  }

  lemma SearchMissOk(s: State, g: Ghost, p: nat)
    requires Inv(s, g) && p < |s.procs| && s.procs[p].pc.Search? && s.procs[p].pc.off == 0
    ensures Inv(Step(s, p), g)
  {
    hide Inv, Hash, LogMap, OnChain;
    SearchEnd(s, g, p);
    HeldIs(s, g, p);
    match s.procs[p].op {
      case FetchOp(_) => CommitOk(s, g, p, Value(Null), Finish(Answer(Value(Null))));
      case DeleteOp(_) => CommitOk(s, g, p, Code(-1), Finish(Answer(Code(-1))));
      case StoreOp(_, _, flag) =>
        if flag == DB_REPLACE {
          CommitOk(s, g, p, Code(-1), Finish(Answer(Code(-1))));
        } else {
          GoOk(s, g, p, MissHead);
        }
    }
  }

  lemma ReplacerOf(s: State, g: Ghost, p: nat)
    requires Inv(s, g) && p < |s.procs|
    ensures forall k :: k in g.gone && g.gone[k] == p ==> Replacing(s.procs[p].pc, s.procs[p].op)
  {
    hide FilesOk, MidOk, Owners, DataOk, LogOk, Locking, Procs, LogMap, Replacing;
  }

  lemma SearchHitOk(s: State, g: Ghost, p: nat)
    requires Inv(s, g) && p < |s.procs| && s.procs[p].pc.Search? && s.procs[p].pc.off != 0
    ensures Inv(Step(s, p), g)
  {
    hide Inv, Hash, LogMap;
    var op, pc, m := s.procs[p].op, s.procs[p].pc, LogMap(s.log);
    HeldIs(s, g, p);
    var chain := g.ls.chains[ChainOf(op)];
    assert pc.i < |chain| && pc.off == chain[pc.i];
    ChainRead(s, g, p, pc.i);
    var t := Target(pc.ptroff, pc.off, pc.i, PtrIn(s.f, pc.off), InfoIn(s.f, pc.off));
    if t.info.key == op.key {
      assert Hit(g, op, t);
      ChainHit(s, g, op, t);
      HitBranchOk(s, g, p, t);
    } else {
      SearchOnOk(s, g, p);
    }
  }

  lemma HitBranchOk(s: State, g: Ghost, p: nat, t: Target)
    requires Inv(s, g) && p < |s.procs| && s.procs[p].pc.Search? && Hit(g, s.procs[p].op, t)
    requires s.procs[p].op.key in LogMap(s.log) && OpValid(s.procs[p].op)
    ensures Inv(OnHit(s, p, t), g)
  {
    hide Inv, Hash, LogMap, Hit;
    match s.procs[p].op {
      case FetchOp(_) => GoOk(s, g, p, GetData(t));
      case DeleteOp(_) => GoOk(s, g, p, DelWant(t));
      case StoreOp(_, data, flag) =>
        if flag == DB_INSERT {
          CommitOk(s, g, p, Code(1), Finish(Answer(Code(1))));
        } else if |data| + 1 != t.info.datlen {
          GoOk(s, g, p, DelWant(t));
        } else {
          GoOk(s, g, p, Over(t));
        }
    }
  }

  lemma SearchOnOk(s: State, g: Ghost, p: nat)
    requires Inv(s, g) && p < |s.procs| && s.procs[p].pc.Search?
    requires var chain, pc := g.ls.chains[ChainOf(s.procs[p].op)], s.procs[p].pc;
             && pc.i < |chain| && pc.off == chain[pc.i] && PtrIn(s.f, pc.off) == At(chain, pc.i + 1)
             && pc.off in g.im.recs && g.im.recs[pc.off].key != s.procs[p].op.key
    ensures Inv(Go(s, p, Search(s.procs[p].pc.off, PtrIn(s.f, s.procs[p].pc.off), s.procs[p].pc.i + 1)), g)
  {
    hide Inv, Hash, LogMap;
    HeldIs(s, g, p);
    var pc := s.procs[p].pc;
    GoOk(s, g, p, Search(pc.off, PtrIn(s.f, pc.off), pc.i + 1));
  }

  // ---------------------------------------------------------------- db_fetch

  /** The text of a record on a locked chain is the key's value. */
  lemma HitValue(s: State, g: Ghost, p: nat, t: Target)
    requires Inv(s, g) && p < |s.procs| && Hit(g, s.procs[p].op, t) && !InMid(s.procs[p].pc)
    requires ChainLock(ChainOf(s.procs[p].op)) in s.procs[p].held
    requires s.procs[p].op.key in g.at && g.at[s.procs[p].op.key] == t.off && s.procs[p].op.key in LogMap(s.log)
    ensures TextIn(s.f, t.info.datoff) == LogMap(s.log)[s.procs[p].op.key]
  {
    hide Locking, Owners, DataOk, LogOk, Procs, FilesOk, Hash, LogMap, Replacing, TextIn;
    if g.mid.Some? {
      MidFar(s, g, p);
      assert t.off in g.ls.chains[ChainOf(s.procs[p].op)];
    }
  }

  lemma GetDataOk(s: State, g: Ghost, p: nat)
    requires Inv(s, g) && p < |s.procs| && s.procs[p].pc.GetData?
    ensures Inv(Step(s, p), g)
  {
    hide Inv, Hash, LogMap, Hit, TextIn;
    var op, t := s.procs[p].op, s.procs[p].pc.t;
    HeldIs(s, g, p);
    ChainHit(s, g, op, t);
    HitValue(s, g, p, t);
    var v := Value(Text(TextIn(s.f, t.info.datoff)));
    CommitOk(s, g, p, v, Finish(Answer(v)));
  }

  // ---------------------------------------------------------------- locks and pointers

  lemma DelWantOk(s: State, g: Ghost, p: nat)
    requires Inv(s, g) && p < |s.procs| && s.procs[p].pc.DelWant? && Enabled(s, p)
    ensures Inv(Step(s, p), g)
  {
    hide Inv, CanLock, Hash, LogMap, DelOk;
    HeldIs(s, g, p);
    AcquireOk(s, g, p, FreeLock, Exclusive, DelData(s.procs[p].pc.t));
  }

  lemma DelFreeOk(s: State, g: Ghost, p: nat)
    requires Inv(s, g) && p < |s.procs| && s.procs[p].pc.DelFree?
    ensures Inv(Step(s, p), g)
  {
    hide Inv, Hash, LogMap, DelOk;
    HeldIs(s, g, p);
    FreeHeld(s, g, p);
    FreeRead(s, g, p, 0);
    GoOk(s, g, p, DelIdx(s.procs[p].pc.t, PtrIn(s.f, FREE_OFF)));
  }

  lemma DelRelOk(s: State, g: Ghost, p: nat)
    requires Inv(s, g) && p < |s.procs| && s.procs[p].pc.DelRel?
    ensures Inv(Step(s, p), g)
  {
    hide Inv, Hash, LogMap, Clear;
    HeldIs(s, g, p);
    ReleaseStepOk(s, g, p, FreeLock, if s.procs[p].op.DeleteOp? then Finish(Answer(Code(0))) else AppHead);
  }

  lemma HeadOk(s: State, g: Ghost, p: nat)
    requires Inv(s, g) && p < |s.procs| && (s.procs[p].pc.MissHead? || s.procs[p].pc.AppHead?)
    ensures Inv(Step(s, p), g)
  {
    hide Inv, Hash, LogMap, Clear;
    HeldIs(s, g, p);
    ChainRead(s, g, p, 0);
    var head := HeadLoc(ChainOf(s.procs[p].op));
    if s.procs[p].pc.MissHead? {
      GoOk(s, g, p, FreeWant(PtrIn(s.f, head)));
    } else {
      GoOk(s, g, p, DatWant(PtrIn(s.f, head)));
    }
  }

  lemma FreeWantOk(s: State, g: Ghost, p: nat)
    requires Inv(s, g) && p < |s.procs| && s.procs[p].pc.FreeWant? && Enabled(s, p)
    ensures Inv(Step(s, p), g)
  {
    hide Inv, CanLock, Hash, LogMap, Clear;
    HeldIs(s, g, p);
    AcquireOk(s, g, p, FreeLock, Exclusive, FreeHead(s.procs[p].pc.head));
  }

  lemma FreeHeadOk(s: State, g: Ghost, p: nat)
    requires Inv(s, g) && p < |s.procs| && s.procs[p].pc.FreeHead?
    ensures Inv(Step(s, p), g)
  {
    hide Inv, Hash, LogMap, Clear;
    HeldIs(s, g, p);
    FreeHeld(s, g, p);
    FreeRead(s, g, p, 0);
    GoOk(s, g, p, FreeScan(s.procs[p].pc.head, FREE_OFF, PtrIn(s.f, FREE_OFF), 0));
  }

  lemma FreeScanOk(s: State, g: Ghost, p: nat)
    requires Inv(s, g) && p < |s.procs| && s.procs[p].pc.FreeScan?
    ensures Inv(Step(s, p), g)
  {
    hide Inv, Hash, LogMap, Clear;
    var op, pc := s.procs[p].op, s.procs[p].pc;
    HeldIs(s, g, p);
    FreeHeld(s, g, p);
    FreeRead(s, g, p, pc.i);
    AtEnd(g.ls.free, pc.i);
    if pc.off == 0 {
      GoOk(s, g, p, FreeNone(pc.head));
    } else if Fits(op, InfoIn(s.f, pc.off)) {
      GoOk(s, g, p, FreeTake(pc.head, Target(pc.save, pc.off, pc.i, PtrIn(s.f, pc.off), InfoIn(s.f, pc.off))));
    } else {
      GoOk(s, g, p, FreeScan(pc.head, pc.off, PtrIn(s.f, pc.off), pc.i + 1));
    }
  }

  lemma FreeRelOk(s: State, g: Ghost, p: nat)
    requires Inv(s, g) && p < |s.procs| && (s.procs[p].pc.FreeRel? || s.procs[p].pc.FreeNone?)
    ensures Inv(Step(s, p), g)
  {
    hide Inv, Hash, LogMap, Clear, ToFill;
    HeldIs(s, g, p);
    var pc := s.procs[p].pc;
    if pc.FreeRel? {
      ReleaseStepOk(s, g, p, FreeLock, ReuseDat(pc.head, pc.off, pc.info));
    } else {
      ReleaseStepOk(s, g, p, FreeLock, DatWant(pc.head));
    }
  }

  lemma EndWantOk(s: State, g: Ghost, p: nat)
    requires Inv(s, g) && p < |s.procs| && (s.procs[p].pc.DatWant? || s.procs[p].pc.IdxWant?) && Enabled(s, p)
    ensures Inv(Step(s, p), g)
  {
    hide Inv, CanLock, Hash, LogMap, Clear, LengthFits;
    HeldIs(s, g, p);
    var pc := s.procs[p].pc;
    if pc.DatWant? {
      AcquireOk(s, g, p, DatEndLock, Exclusive, DatAppend(pc.head));
    } else {
      AcquireOk(s, g, p, IdxEndLock, Exclusive, IdxAppend(pc.head, pc.datoff));
    }
  }

  lemma DatRelOk(s: State, g: Ghost, p: nat)
    requires Inv(s, g) && p < |s.procs| && s.procs[p].pc.DatRel?
    requires LengthFits(s.procs[p].op, s.procs[p].pc.datoff)
    ensures Inv(Release1(s, p, DatEndLock, IdxWant(s.procs[p].pc.head, s.procs[p].pc.datoff)), g)
  {
    hide Inv, Hash, LogMap, Clear, LengthFits;
    HeldIs(s, g, p);
    var pc := s.procs[p].pc;
    ReleaseStepOk(s, g, p, DatEndLock, IdxWant(pc.head, pc.datoff));
  }

  lemma IdxRelOk(s: State, g: Ghost, p: nat)
    requires Inv(s, g) && p < |s.procs| && s.procs[p].pc.IdxRel?
    ensures Inv(Step(s, p), g)
  {
    hide Inv, Hash, LogMap, Clear, ToLink;
    HeldIs(s, g, p);
    var pc := s.procs[p].pc;
    ReleaseStepOk(s, g, p, IdxEndLock, Link(pc.head, pc.off));
  }

  // ---------------------------------------------------------------- returning and starting

  lemma FinishOk(s: State, g: Ghost, p: nat)
    requires Inv(s, g) && p < |s.procs| && s.procs[p].pc.Finish?
    ensures Inv(Step(s, p), g)
  {
    hide Inv, Hash, LogMap, Released;
    HeldIs(s, g, p);
    var op, s' := s.procs[p].op, Step(s, p);
    ReleasedIs(s.procs[p].pc, op, ChainLock(ChainOf(op)));
    assert s'.procs[p].done + [] == s'.procs[p].done;
    ReturnOk(s, g, s', p);
  }

  /** Going back to the caller, or setting out from there. */
  lemma ReturnOk(s: State, g: Ghost, s': State, p: nat)
    requires Inv(s, g) && LocalChange(s, g, s', p) && s'.log == s.log
    requires OpValid(s'.procs[p].op) && s'.procs[p].held == HeldAt(s'.procs[p].pc, s'.procs[p].op) == map[]
    requires s'.procs[p].done + Pending(s'.procs[p].pc, s'.procs[p].op)
             == s.procs[p].done + Pending(s.procs[p].pc, s.procs[p].op)
    requires s'.procs[p].pc.Idle? || s'.procs[p].pc.WantChain?
    ensures Inv(s', g)
  {
    hide LogMap, LocalChange, MidOk, FilesOk, Owners, DataOk, ContentsOk, Procs, OpValid, HeldAt, Pending;
    assert OnlyP(s.procs, s'.procs, p) by { LocalOnly(s, g, s', p); }
    LockingKept(s, s', p);
    LogSame(s, s', p);
    LocalOk(s, g, s', p);
  }

  lemma LocalOnly(s: State, g: Ghost, s': State, p: nat)
    requires LocalChange(s, g, s', p)
    ensures OnlyP(s.procs, s'.procs, p)
  {
  }

  lemma ScanOk(s: State, g: Ghost, p: nat)
    requires Inv(s, g) && p < |s.procs| && (s.procs[p].pc.ScanWant? || s.procs[p].pc.Scanning?) && Enabled(s, p)
    ensures Inv(Step(s, p), g)
  {
    hide Inv, CanLock, Hash, LogMap;
    HeldIs(s, g, p);
    if s.procs[p].pc.ScanWant? {
      AcquireOk(s, g, p, FreeLock, Shared, Scanning);
    } else {
      ReleaseStepOk(s, g, p, FreeLock, Idle);
    }
  }

  lemma InvokeOk(s: State, g: Ghost, p: nat, op: Op)
    requires Inv(s, g) && p < |s.procs| && s.procs[p].pc.Idle? && OpValid(op)
    ensures Inv(Invoke(s, p, op), g)
  {
    hide Inv, Hash, LogMap, OpValid;
    HeldIs(s, g, p);
    ReturnOk(s, g, Invoke(s, p, op), p);
  }

  lemma InvokeScanOk(s: State, g: Ghost, p: nat)
    requires Inv(s, g) && p < |s.procs| && s.procs[p].pc.Idle?
    ensures Inv(Go(s, p, ScanWant), g)
  {
    hide Inv, Hash, LogMap;
    GoOk(s, g, p, ScanWant);
  }
}
