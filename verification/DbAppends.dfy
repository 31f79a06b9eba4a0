/** Program point by program point: filling a record in hand and putting it on its chain. */
module DbAppends {
  import opened Common
  import opened DbFormat
  import opened DbLists
  import opened DbFile
  import opened DbState
  import opened DbLibrary
  import opened DbRuns
  import opened DbProcesses
  import opened DbSharing
  import opened DbInterleaving
  import opened DbSteps
  import opened DbWrites
  import opened DbMoves

  // ---------------------------------------------------------------- common parts

  /** Neither the live records nor the map change. */
  lemma ContentsFrame(s: State, g: Ghost, s': State, g': Ghost, p: nat, m: Contents)
    requires ContentsOk(s.f, g, m, s.procs) && MidOk(s.procs, g) && OnlyP(s.procs, s'.procs, p)
    requires g'.at == g.at && g'.gone == g.gone && g'.mid == g.mid && LiveOk(g')
    requires forall k :: k in g.at ==>
               && g.at[k] in g.im.recs && g.at[k] in g'.im.recs && g'.im.recs[g.at[k]] == g.im.recs[g.at[k]]
               && TextIn(s'.f, g.im.recs[g.at[k]].datoff) == TextIn(s.f, g.im.recs[g.at[k]].datoff)
    requires !InMid(s.procs[p].pc) && s'.procs[p].op == s.procs[p].op
    requires Replacing(s.procs[p].pc, s.procs[p].op) ==> Replacing(s'.procs[p].pc, s.procs[p].op)
    ensures ContentsOk(s'.f, g', m, s'.procs)
  {
    hide LiveOk, Replacing, TextIn;
    forall k | k in g'.at
      ensures HasText(s'.f, g', m, s'.procs, k)
    {
      assert HasText(s.f, g, m, s.procs, k);
    }
  }

  lemma OwnersGain(procs: seq<Proc>, procs': seq<Proc>, g: Ghost, g': Ghost, p: nat, o: nat)
    requires Owners(procs, g) && OnlyP(procs, procs', p) && o !in g.hands
    requires HandOf(procs[p].pc) == None && HandOf(procs'[p].pc) == Some(o)
    requires g'.hands == g.hands[o := p] && g.im.recs.Keys <= g'.im.recs.Keys && o in g'.im.recs
    requires PendOf(procs'[p].pc) == PendOf(procs[p].pc) && g'.pend == g.pend
    ensures Owners(procs', g')
  {
    hide HandOf, PendOf;
  }

  lemma IndexKnown(s: State, g: Ghost)
    requires Inv(s, g)
    ensures Geometry(g.im, s.f.iend) && ListsOk(g.im, g.ls, g.hands.Keys) && |g.ls.chains| == NHASH
    ensures FREE_OFF in g.im.ptrs
    ensures forall h :: 0 <= h < NHASH ==>
              HeadLoc(h) in g.im.ptrs && At(g.ls.chains[h], 0) == g.im.ptrs[HeadLoc(h)] <= PTR_MAX
  {
    hide Locking, Owners, MidOk, DataOk, ContentsOk, LogOk, Procs, LogMap, Hash, Blank, MidImage, Tiled, InfoOk;
    forall h | 0 <= h < NHASH
      ensures HeadLoc(h) in g.im.ptrs && g.im.ptrs[HeadLoc(h)] == At(g.ls.chains[h], 0)
    {
      HeadLocs(h);
      assert IsList(g.im.ptrs, HeadLoc(h), g.ls.chains[h]);
      assert Loc(HeadLoc(h), g.ls.chains[h], 0) == HeadLoc(h);
    }
  }

  lemma LiveKnown(s: State, g: Ghost)
    requires Inv(s, g)
    ensures LiveOk(g)
    ensures forall k :: k in g.at ==> g.at[k] in g.im.recs && RecData(s.f.data, g.own, g.im.recs[g.at[k]], g.at[k])
  {
    hide Locking, Owners, MidOk, FilesOk, LogOk, Procs, LogMap, ValuesOk, GoneOk, TextsTile, RecData;
  }

  // ---------------------------------------------------------------- taking a free record

  ghost predicate Takable(g: Ghost, t: Target) {
    t.i < |g.ls.free| && t.off == g.ls.free[t.i] && t.ptroff == Loc(FREE_OFF, g.ls.free, t.i) && t.off in g.im.recs
  }

  ghost function Taken(g: Ghost, p: nat, t: Target): Ghost
    requires Takable(g, t)
  {
    g.(im := SetPtr(g.im, t.ptroff, t.next), ls := Unfree(g.ls, t.i), hands := g.hands[t.off := p])
  }

  lemma TakeFacts(s: State, g: Ghost, t: Target)
    requires Inv(s, g) && Takable(g, t) && t.next == At(g.ls.free, t.i + 1)
    ensures t.off !in g.hands && t.ptroff in g.im.ptrs && t.next <= PTR_MAX && t.off <= PTR_MAX
    ensures forall o :: o in g.hands ==> t.ptroff != o
    ensures forall o :: o in Unfree(g.ls, t.i).free <==> o in g.ls.free && o != t.off
    ensures Unfree(g.ls, t.i).chains == g.ls.chains
  {
    hide Locking, Owners, MidOk, DataOk, ContentsOk, LogOk, Procs, LogMap, Hash, Blank, MidImage, Tiled, InfoOk;
    var free := g.ls.free;
    assert t.off in free;
    assert IsList(g.im.ptrs, FREE_OFF, free);
    assert Loc(FREE_OFF, free, t.i + 1) == t.off;
    if t.i > 0 { assert free[t.i - 1] in free; }
    HandsNotHeads(s, g, 0);
    WithoutMembers(free, t.i);
  }

  lemma TakeFiles(s: State, g: Ghost, s': State, p: nat, t: Target)
    requires Inv(s, g) && OnlyP(s.procs, s'.procs, p) && !InMid(s.procs[p].pc) && !InMid(s'.procs[p].pc)
    requires g.mid == None && s.f.im == g.im && Takable(g, t) && t.next == At(g.ls.free, t.i + 1)
    requires s'.f.im == SetPtr(s.f.im, t.ptroff, t.next) && s'.f.iend == s.f.iend
    ensures MidOk(s'.procs, Taken(g, p, t)) && FilesOk(s'.f, Taken(g, p, t), s'.procs)
  {
    hide Inv, LogMap, Hash, ListsOk, Geometry, Locking, Owners, DataOk, ContentsOk, LogOk, Procs;
    Parts(s, g);
    IndexKnown(s, g);
    TakeFacts(s, g, t);
    UnfreeOk(g.im, s.f.iend, g.ls, g.hands.Keys, t.i);
    assert g.hands[t.off := p].Keys == g.hands.Keys + {t.off};
    SetPtrGeometry(g.im, s.f.iend, t.ptroff, t.next);
  }

  lemma TakeLive(g: Ghost, p: nat, t: Target)
    requires Takable(g, t) && LiveOk(g)
    requires forall o :: o in Unfree(g.ls, t.i).free <==> o in g.ls.free && o != t.off
    ensures LiveOk(Taken(g, p, t))
  {
    hide Unfree;
    assert t.off in g.ls.free;
  }

  lemma TakeConfined(s: State, g: Ghost, s': State, p: nat, t: Target)
    requires Inv(s, g) && p < |s.procs| && Takable(g, t) && t.next == At(g.ls.free, t.i + 1)
    requires s'.f.data == s.f.data && s'.log == s.log
    requires Holds1(s.procs[p], ChainLock(ChainOf(s.procs[p].op))) && Holds1(s.procs[p], FreeLock)
    ensures |Taken(g, p, t).ls.chains| == NHASH && |g.ls.chains| == NHASH
    ensures Confined(s, g, s', Taken(g, p, t), p)
  {
    hide Inv, LogMap, Hash, Unfree, Locking, Owners, MidOk, FilesOk, DataOk, ContentsOk, LogOk, Procs, Holds1,
      SameFree;
    Parts(s, g);
    TakeFacts(s, g, t);
    var g' := Taken(g, p, t);
    SameIndex(s, g, s', g', p);
  }

  /** Records keep their contents, and nobody's record in hand has its pointer changed. */
  lemma SameIndex(s: State, g: Ghost, s': State, g': Ghost, p: nat)
    requires Inv(s, g) && g'.ls.chains == g.ls.chains && g'.im.recs == g.im.recs && g'.at == g.at
    requires s'.f.data == s.f.data && s'.log == s.log
    requires forall o :: o in g.hands && o in g.im.ptrs ==> o in g'.im.ptrs && g'.im.ptrs[o] == g.im.ptrs[o]
    ensures |g.ls.chains| == NHASH
    ensures forall h :: 0 <= h < NHASH ==> ChainSame(g, g', h)
    ensures forall o :: o in g.hands && g.hands[o] != p ==> RecordKeeps(s.f.data, g.im, s'.f.data, g'.im, o)
    ensures forall k :: KeySame(g, LogMap(s.log), g', LogMap(s'.log), k)
  {
    hide Inv, LogMap, Hash, Locking, Owners, MidOk, FilesOk, DataOk, ContentsOk, LogOk, Procs;
    Parts(s, g);
    forall h | 0 <= h < NHASH
      ensures ChainSame(g, g', h)
    {
      ListedRecords(s, g, h);
    }
  }

  lemma FreeTakeKnows(s: State, g: Ghost, p: nat)
    requires Inv(s, g) && p < |s.procs| && s.procs[p].pc.FreeTake?
    ensures |g.ls.chains| == NHASH
    ensures var op, hd, t := s.procs[p].op, s.procs[p].pc.head, s.procs[p].pc.t;
            && Takable(g, t) && t.next == At(g.ls.free, t.i + 1) && g.im.recs[t.off] == t.info && Fits(op, t.info)
            && Clear(g, LogMap(s.log), op) && HeadIs(g, op, hd)
            && Holds1(s.procs[p], ChainLock(ChainOf(op))) && Holds1(s.procs[p], FreeLock)
  {
    hide Inv, LogMap, Hash, Clear, HeadIs;
    HeldIs(s, g, p);
    assert s.procs[p].op.StoreOp? by { ClearStore(g, LogMap(s.log), s.procs[p].op); }
  }

  lemma ClearStore(g: Ghost, m: Contents, op: Op)
    requires Clear(g, m, op)
    ensures op.StoreOp?
  {
  }

  lemma FreeTakeShape(s: State, p: nat)
    requires p < |s.procs| && s.procs[p].pc.FreeTake?
    ensures var pc, s' := s.procs[p].pc, Step(s, p);
            && MovesOn(s, s', p, FreeRel(pc.head, pc.t.off, pc.t.info)) && s'.log == s.log
            && s'.f == s.f.(im := SetPtr(s.f.im, pc.t.ptroff, pc.t.next))
            && HandOf(pc) == None && HandOf(s'.procs[p].pc) == Some(pc.t.off) && PendOf(s'.procs[p].pc) == PendOf(pc)
            && !InMid(pc) && !InMid(s'.procs[p].pc)
            && (Replacing(pc, s.procs[p].op) ==> Replacing(s'.procs[p].pc, s.procs[p].op))
            && Pending(s'.procs[p].pc, s.procs[p].op) == Pending(pc, s.procs[p].op)
  {
    hide Hash;
  }

  lemma FreeTakeMine(s: State, g: Ghost, s': State, p: nat)
    requires p < |s.procs| && s.procs[p].pc.FreeTake? && |g.ls.chains| == NHASH && s'.log == s.log
    requires var op, pc := s.procs[p].op, s.procs[p].pc;
             && Takable(g, pc.t) && g.im.recs[pc.t.off] == pc.t.info && Fits(op, pc.t.info) && pc.t.off <= PTR_MAX
             && Clear(g, LogMap(s.log), op) && HeadIs(g, op, pc.head) && Unfree(g.ls, pc.t.i).chains == g.ls.chains
             && s'.procs == s.procs[p := s.procs[p].(pc := FreeRel(pc.head, pc.t.off, pc.t.info))]
    ensures var g' := Taken(g, p, s.procs[p].pc.t);
            |g'.ls.chains| == NHASH && ProcOk(s'.f.data, g', LogMap(s'.log), s'.procs[p])
  {
    hide Hash, LogMap, Unfree;
  }

  lemma TakenParts(g: Ghost, p: nat, t: Target)
    requires Takable(g, t) && t.ptroff in g.im.ptrs
    ensures var g' := Taken(g, p, t);
            && Nearly(g.im, g'.im, t.off) && g'.own == g.own && g'.pend == g.pend && g'.dorder == g.dorder
            && g'.at == g.at && g'.gone == g.gone && g'.mid == g.mid && g'.im.recs == g.im.recs
            && g'.hands == g.hands[t.off := p]
            && t.off in g.im.recs
  {
    hide Unfree;
  }

  lemma FreeTakeOk(s: State, g: Ghost, p: nat) returns (g': Ghost)
    requires Inv(s, g) && p < |s.procs| && s.procs[p].pc.FreeTake? && Enabled(s, p)
    ensures Inv(Step(s, p), g')
  {
    hide Inv, LogMap, Hash, Locking, Owners, MidOk, FilesOk, DataOk, ContentsOk, LogOk, Procs, Confined, Step, HeldAt,
      Holds1, LiveOk, RecData, Unfree, Enabled, ProcOk, Taken, Nearly, Takable, Fits, Clear, HeadIs, SetPtr, HandOf,
      PendOf, InMid, Replacing, Pending;
    var op, pc, s' := s.procs[p].op, s.procs[p].pc, Step(s, p);
    var t := pc.t;
    FreeTakeKnows(s, g, p);
    FreeTakeShape(s, p);
    Parts(s, g);
    assert g.mid == None && s.f.im == g.im by { HoldsFree(s, g, p); }
    TakeFacts(s, g, t);
    LiveKnown(s, g);
    g' := Taken(g, p, t);
    TakenParts(g, p, t);
    FreeTakeMine(s, g, s', p);
    MovesLocking(s, s', p, FreeRel(pc.head, t.off, t.info));
    MovesLog(s, s', p, FreeRel(pc.head, t.off, t.info));
    TakeFiles(s, g, s', p, t);
    OwnersGain(s.procs, s'.procs, g, g', p, t.off);
    DataNearly(s.f, s'.f, g, g', t.off);
    TakeLive(g, p, t);
    ContentsFrame(s, g, s', g', p, LogMap(s.log));
    TakeConfined(s, g, s', p, t);
    ConfinedOk(s, g, s', g', p);
  }

  lemma HoldsFree(s: State, g: Ghost, p: nat)
    requires Inv(s, g) && p < |s.procs| && Holds1(s.procs[p], FreeLock) && !InMid(s.procs[p].pc)
    ensures g.mid == None && s.f.im == g.im
  {
    FreeHeld(s, g, p);
  }
}
