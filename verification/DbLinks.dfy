/** Program point by program point: writing the new record, linking it, and dying. */
module DbLinks {
  import opened Common
  import opened DbFormat
  import opened DbLists
  import opened DbFile
  import opened DbState
  import opened DbLibrary
  import opened DbRuns
  import opened DbProcesses
  import opened DbSharing
  import opened DbInterleaving
  import opened DbSteps
  import opened DbWrites
  import opened DbMoves
  import opened DbAppends

  /** Under the chain's lock, outside _db_dodelete: what any storing process knows. */
  ghost predicate Storing(s: State, g: Ghost, p: nat, hd: nat)
    requires p < |s.procs| && |g.ls.chains| == NHASH
  {
    var op := s.procs[p].op;
    && OpValid(op) && Clear(g, LogMap(s.log), op) && HeadIs(g, op, hd)
    && Holds1(s.procs[p], ChainLock(ChainOf(op))) && !InMid(s.procs[p].pc)
  }

  /** A write to a place no deletion is using shows in the index behind the files too. */
  lemma IndexWrite(s: State, g: Ghost, s': State, g': Ghost, p: nat)
    requires Inv(s, g) && OnlyP(s.procs, s'.procs, p) && !InMid(s.procs[p].pc) && !InMid(s'.procs[p].pc)
    requires g'.mid == g.mid && Geometry(g'.im, s'.f.iend) && ListsOk(g'.im, g'.ls, g'.hands.Keys)
    requires g.mid.None? ==> s'.f.im == g'.im
    requires g.mid.Some? && g.mid.value < |s.procs| ==> s'.f.im == MidImage(g'.im, s.procs[g.mid.value].pc)
    ensures MidOk(s'.procs, g') && FilesOk(s'.f, g', s'.procs)
  {
    hide Inv, LogMap, Geometry, ListsOk, MidImage, Locking, Owners, DataOk, ContentsOk, LogOk, Procs;
    Parts(s, g);
  }

  lemma MidElse(s: State, g: Ghost, p: nat)
    requires Inv(s, g) && p < |s.procs| && !InMid(s.procs[p].pc)
    requires Holds1(s.procs[p], ChainLock(ChainOf(s.procs[p].op)))
    ensures g.mid.None? ==> s.f.im == g.im
    ensures g.mid.Some? ==>
              && g.mid.value < |s.procs| && InMid(s.procs[g.mid.value].pc)
              && s.f.im == MidImage(g.im, s.procs[g.mid.value].pc)
              && var t := s.procs[g.mid.value].pc.t;
                 t.off in g.im.recs && t.off != HeadLoc(ChainOf(s.procs[p].op)) && t.off !in g.hands
  {
    hide LogMap, Geometry, ListsOk, MidImage, Locking, Owners, DataOk, ContentsOk, LogOk, Procs, Hash;
    if g.mid.Some? {
      MidFar(s, g, p);
    }
  }

  // ---------------------------------------------------------------- refilling a free record

  ghost function Refilled(g: Ghost, off: nat, hd: nat, r: Info): Ghost {
    g.(im := SetRec(g.im, off, hd, r))
  }

  lemma RefillFiles(s: State, g: Ghost, s': State, p: nat, off: nat, hd: nat, r: Info)
    requires Inv(s, g) && OnlyP(s.procs, s'.procs, p) && !InMid(s'.procs[p].pc)
    requires |g.ls.chains| == NHASH && Storing(s, g, p, hd)
    requires off in g.hands && off in g.im.recs && InfoOk(r) && RecLen(r) == RecLen(g.im.recs[off])
    requires s'.f.im == SetRec(s.f.im, off, hd, r) && s'.f.iend == s.f.iend
    ensures MidOk(s'.procs, Refilled(g, off, hd, r)) && FilesOk(s'.f, Refilled(g, off, hd, r), s'.procs)
  {
    hide Inv, LogMap, Geometry, ListsOk, MidImage, Clear, InfoOk, RecLen, SetRec, Hash;
    IndexKnown(s, g);
    MidElse(s, g, p);
    NotHead(g.im, s.f.iend, off, 0) by { TiledKnown(g.im, s.f.iend); }
    SetRecGeometry(g.im, s.f.iend, off, hd, r);
    RewriteHand(g.im, s.f.iend, g.ls, g.hands.Keys, off, hd, r);
    if g.mid.Some? {
      MidCommutes(g.im, s.procs[g.mid.value].pc, off, hd, r);
    }
    IndexWrite(s, g, s', Refilled(g, off, hd, r), p);
  }

  lemma TiledKnown(im: Image, end: nat)
    requires Geometry(im, end)
    ensures Tiled(im, end)
  {
  }

  lemma RefillLive(g: Ghost, off: nat, hd: nat, r: Info)
    requires LiveOk(g) && off in g.hands && off in g.im.recs
    ensures LiveOk(Refilled(g, off, hd, r))
    ensures forall k :: k in g.at ==> g.at[k] in g.im.recs && g.at[k] != off
  {
  }

  lemma RefillLists(g: Ghost, off: nat, hd: nat, r: Info, h: nat)
    requires h < |g.ls.chains| && off !in g.ls.chains[h] && off !in g.ls.free
    requires forall x :: x in g.ls.chains[h] ==> x in g.im.recs
    requires forall x :: x in g.ls.free ==> x in g.im.recs
    ensures ChainSame(g, Refilled(g, off, hd, r), h) && SameFree(g, Refilled(g, off, hd, r))
  {
  }

  lemma RefillNearly(g: Ghost, off: nat, hd: nat, r: Info, data: map<nat, string>)
    requires off in g.im.recs && r.datoff == g.im.recs[off].datoff && r.datlen == g.im.recs[off].datlen
    ensures var g' := Refilled(g, off, hd, r);
            && g'.ls == g.ls && Nearly2(g.im, g'.im, off)
            && forall o :: o != off ==> RecordKeeps(data, g.im, data, g'.im, o)
  {
  }

  lemma RefillParts(s: State, g: Ghost, s': State, p: nat, off: nat, hd: nat, r: Info)
    requires Inv(s, g) && p < |s.procs| && off in g.hands && g.hands[off] == p && off in g.im.recs
    requires r.datoff == g.im.recs[off].datoff && r.datlen == g.im.recs[off].datlen
    requires s'.f.data == s.f.data && s'.log == s.log
    ensures var g' := Refilled(g, off, hd, r);
            && |g.ls.chains| == NHASH && Nearly2(g.im, g'.im, off) && LiveOk(g')
            && (forall h :: 0 <= h < NHASH ==> ChainSame(g, g', h)) && SameFree(g, g')
            && (forall o :: o in g.hands && g.hands[o] != p ==> RecordKeeps(s.f.data, g.im, s'.f.data, g'.im, o))
            && (forall k :: k in g.at ==> g.at[k] in g.im.recs && g.at[k] != off)
  {
    hide Inv, LogMap, Hash, Locking, Owners, MidOk, FilesOk, DataOk, ContentsOk, LogOk, Procs, RecData, LiveOk,
      ChainSame, SameFree, RecordKeeps, Nearly2, Refilled;
    Parts(s, g);
    LiveKnown(s, g);
    var g' := Refilled(g, off, hd, r);
    RefillLive(g, off, hd, r);
    RefillNearly(g, off, hd, r, s.f.data);
    forall h | 0 <= h < NHASH
      ensures ChainSame(g, g', h) && SameFree(g, g')
    {
      ListedRecords(s, g, h);
      HandNotListed(s, g, off, h);
      RefillLists(g, off, hd, r, h);
    }
    assert ChainSame(g, g', 0);
  }

  lemma RefillConfined(s: State, g: Ghost, s': State, p: nat, off: nat, hd: nat, r: Info)
    requires Inv(s, g) && p < |s.procs| && off in g.hands && g.hands[off] == p && off in g.im.recs
    requires r.datoff == g.im.recs[off].datoff && r.datlen == g.im.recs[off].datlen
    requires s'.f.data == s.f.data && s'.log == s.log
    requires Holds1(s.procs[p], ChainLock(ChainOf(s.procs[p].op)))
    ensures |g.ls.chains| == NHASH && Confined(s, g, s', Refilled(g, off, hd, r), p)
  {
    hide Inv, LogMap, Hash, Holds1, ChainSame, SameFree, RecordKeeps, Nearly2, LiveOk;
    RefillParts(s, g, s', p, off, hd, r);
  }

  lemma RefillContents(s: State, g: Ghost, s': State, p: nat, off: nat, hd: nat, r: Info)
    requires Inv(s, g) && OnlyP(s.procs, s'.procs, p) && off in g.hands && g.hands[off] == p && off in g.im.recs
    requires r.datoff == g.im.recs[off].datoff && r.datlen == g.im.recs[off].datlen
    requires s'.f.data == s.f.data && s'.log == s.log && !InMid(s.procs[p].pc) && s'.procs[p].op == s.procs[p].op
    requires Replacing(s.procs[p].pc, s.procs[p].op) ==> Replacing(s'.procs[p].pc, s.procs[p].op)
    ensures ContentsOk(s'.f, Refilled(g, off, hd, r), LogMap(s'.log), s'.procs)
  {
    hide Inv, LogMap, Hash, Locking, Owners, MidOk, FilesOk, DataOk, ContentsOk, LogOk, Procs, ChainSame, SameFree,
      RecordKeeps, LiveOk, Replacing;
    Parts(s, g);
    RefillParts(s, g, s', p, off, hd, r);
    ContentsFrame(s, g, s', Refilled(g, off, hd, r), p, LogMap(s.log));
  }

  lemma RefillData(s: State, g: Ghost, s': State, p: nat, off: nat, hd: nat, r: Info)
    requires Inv(s, g) && OnlyP(s.procs, s'.procs, p) && off in g.im.recs
    requires HandOf(s'.procs[p].pc) == HandOf(s.procs[p].pc) && PendOf(s'.procs[p].pc) == PendOf(s.procs[p].pc)
    requires r.datoff == g.im.recs[off].datoff && r.datlen == g.im.recs[off].datlen
    requires s'.f.data == s.f.data && s'.f.dend == s.f.dend
    ensures Owners(s'.procs, Refilled(g, off, hd, r)) && DataOk(s'.f, Refilled(g, off, hd, r))
  {
    hide Inv, LogMap, Locking, Owners, MidOk, FilesOk, DataOk, ContentsOk, LogOk, Procs, HandOf, PendOf;
    Parts(s, g);
    OwnersNearly(s.procs, s'.procs, g, Refilled(g, off, hd, r), p);
    DataNearly2(s.f, s'.f, g, Refilled(g, off, hd, r), off);
  }

  ghost predicate Nearly2(im: Image, im': Image, o: nat) {
    && im'.recs.Keys == im.recs.Keys
    && (forall x :: x in im.recs && x != o ==> im'.recs[x] == im.recs[x])
    && (o in im.recs ==> im'.recs[o].datoff == im.recs[o].datoff && im'.recs[o].datlen == im.recs[o].datlen)
  }

  lemma HandNotListed(s: State, g: Ghost, o: nat, h: nat)
    requires Inv(s, g) && o in g.hands && h < NHASH
    ensures o !in g.ls.chains[h] && o !in g.ls.free
  {
    hide LogMap, Locking, MidOk, Geometry, ContentsOk, LogOk, Procs, IsList, Hash, Blank, MidImage, Owners, DataOk;
  }

  lemma DataNearly2(f: Files, f': Files, g: Ghost, g': Ghost, o: nat)
    requires DataOk(f, g) && Nearly2(g.im, g'.im, o) && f'.data == f.data && f'.dend == f.dend
    requires g'.own == g.own && g'.pend == g.pend && g'.dorder == g.dorder
    ensures DataOk(f', g')
  {
    hide TextsTile;
    forall x | x in g'.im.recs
      ensures RecData(f'.data, g'.own, g'.im.recs[x], x)
    {
      assert RecData(f.data, g.own, g.im.recs[x], x);
    }
  }

  lemma ReuseIdxKnows(s: State, g: Ghost, p: nat)
    requires Inv(s, g) && p < |s.procs| && s.procs[p].pc.ReuseIdx?
    ensures |g.ls.chains| == NHASH && Storing(s, g, p, s.procs[p].pc.head)
    ensures var op, pc := s.procs[p].op, s.procs[p].pc;
            && pc.off in g.im.recs && g.im.recs[pc.off] == pc.info && Fits(op, pc.info)
            && pc.off in g.hands && g.hands[pc.off] == p
            && pc.info.datoff in s.f.data && s.f.data[pc.info.datoff] == DataOf(op)
            && InfoOk(pc.info) && InfoOk(pc.info.(key := op.key)) && RecLen(pc.info.(key := op.key)) == RecLen(pc.info)
  {
    hide Inv, LogMap, Hash, Body;
    HeldIs(s, g, p);
    HandIs(s, g, p);
    InfoAt(s, g, s.procs[p].pc.off);
    SameSizeSameLength(s.procs[p].pc.info, s.procs[p].op.key);
  }

  lemma ReuseIdxShape(s: State, p: nat)
    requires p < |s.procs| && s.procs[p].pc.ReuseIdx?
    ensures var pc, s' := s.procs[p].pc, Step(s, p);
            && MovesOn(s, s', p, Link(pc.head, pc.off)) && s'.log == s.log
            && s'.f == s.f.(im := SetRec(s.f.im, pc.off, pc.head, pc.info.(key := s.procs[p].op.key)))
            && HandOf(Link(pc.head, pc.off)) == HandOf(pc) && PendOf(Link(pc.head, pc.off)) == PendOf(pc)
            && Pending(Link(pc.head, pc.off), s.procs[p].op) == Pending(pc, s.procs[p].op)
            && !Replacing(pc, s.procs[p].op) && !InMid(pc) && !InMid(Link(pc.head, pc.off))
  {
    hide Hash;
  }

  lemma ReuseIdxMine(s: State, g: Ghost, s': State, p: nat)
    requires |g.ls.chains| == NHASH && p < |s.procs| && s.procs[p].pc.ReuseIdx? && Storing(s, g, p, s.procs[p].pc.head)
    requires var op, pc := s.procs[p].op, s.procs[p].pc;
             && pc.info.datoff in s.f.data && s.f.data[pc.info.datoff] == DataOf(op)
             && s'.procs == s.procs[p := s.procs[p].(pc := Link(pc.head, pc.off))] && s'.f.data == s.f.data
             && s'.log == s.log
    ensures var op, pc := s.procs[p].op, s.procs[p].pc;
            ProcOk(s'.f.data, Refilled(g, pc.off, pc.head, pc.info.(key := op.key)), LogMap(s'.log), s'.procs[p])
  {
    hide Hash, LogMap, Holds1, OpValid;
  }

  lemma ReuseIdxOk(s: State, g: Ghost, p: nat) returns (g': Ghost)
    requires Inv(s, g) && p < |s.procs| && s.procs[p].pc.ReuseIdx? && Enabled(s, p)
    ensures Inv(Step(s, p), g')
  {
    hide Inv, LogMap, Hash, Locking, Owners, MidOk, FilesOk, DataOk, ContentsOk, LogOk, Procs, Confined, Step, HeldAt,
      Holds1, InfoOk, RecLen, Fits, Enabled, HandOf, PendOf, Pending, Replacing, InMid, ProcOk, Clear;
    var op, pc, s' := s.procs[p].op, s.procs[p].pc, Step(s, p);
    var r := pc.info.(key := op.key);
    ReuseIdxKnows(s, g, p);
    ReuseIdxShape(s, p);
    Parts(s, g);
    g' := Refilled(g, pc.off, pc.head, r);
    MovesLocking(s, s', p, Link(pc.head, pc.off));
    MovesLog(s, s', p, Link(pc.head, pc.off));
    RefillFiles(s, g, s', p, pc.off, pc.head, r);
    RefillData(s, g, s', p, pc.off, pc.head, r);
    RefillContents(s, g, s', p, pc.off, pc.head, r);
    RefillConfined(s, g, s', p, pc.off, pc.head, r);
    ReuseIdxMine(s, g, s', p);
    ConfinedOk(s, g, s', g', p);
  }

  // ---------------------------------------------------------------- appending the data

  lemma TilesGrow(data: map<nat, string>, dorder: seq<nat>, dend: nat, text: string)
    requires TextsTile(data, dorder, dend)
    ensures dend !in data && TextsTile(data[dend := text], dorder + [dend], dend + |text| + 1)
  {
    var data', dorder', dend' := data[dend := text], dorder + [dend], dend + |text| + 1;
    forall i | 0 <= i < |dorder'|
      ensures TextFills(data', dorder', dend', i)
    {
      if i < |dorder| {
        assert TextFills(data, dorder, dend, i);
      }
    }
    forall d | d in data'
      ensures d in dorder' && d < dend'
    {
      if d == dend { assert dorder'[|dorder|] == d; }
    }
  }

  ghost function DataAdded(g: Ghost, p: nat, d: nat): Ghost {
    g.(pend := g.pend[d := p], dorder := g.dorder + [d])
  }

  lemma DataAddedOk(s: State, g: Ghost, s': State, p: nat, text: string)
    requires DataOk(s.f, g) && s'.f.data == s.f.data[s.f.dend := text] && s'.f.dend == s.f.dend + |text| + 1
    ensures s.f.dend !in s.f.data && s.f.dend !in g.pend && DataOk(s'.f, DataAdded(g, p, s.f.dend))
    ensures forall o :: o in g.im.recs ==>
              && g.im.recs[o].datoff != s.f.dend
              && TextIn(s'.f, g.im.recs[o].datoff) == TextIn(s.f, g.im.recs[o].datoff)
              && RecordKeeps(s.f.data, g.im, s'.f.data, g.im, o)
  {
    TilesGrow(s.f.data, g.dorder, s.f.dend, text);
    hide TextsTile;
    forall o | o in g.im.recs
      ensures RecData(s'.f.data, g.own, g.im.recs[o], o) && g.im.recs[o].datoff != s.f.dend
    {
      assert RecData(s.f.data, g.own, g.im.recs[o], o);
    }
  }

  lemma OwnersPend(procs: seq<Proc>, procs': seq<Proc>, g: Ghost, p: nat, d: nat)
    requires Owners(procs, g) && OnlyP(procs, procs', p) && d !in g.pend
    requires HandOf(procs'[p].pc) == HandOf(procs[p].pc)
    requires PendOf(procs[p].pc) == None && PendOf(procs'[p].pc) == Some(d)
    ensures Owners(procs', DataAdded(g, p, d))
  {
    hide HandOf, PendOf;
  }

  lemma DatAppendKnows(s: State, g: Ghost, p: nat)
    requires Inv(s, g) && p < |s.procs| && s.procs[p].pc.DatAppend?
    ensures |g.ls.chains| == NHASH && Storing(s, g, p, s.procs[p].pc.head)
  {
    hide Inv, LogMap, Hash;
    HeldIs(s, g, p);
  }

  lemma DatAppendShape(s: State, p: nat)
    requires p < |s.procs| && s.procs[p].pc.DatAppend?
    ensures var pc, s', text := s.procs[p].pc, Step(s, p), DataOf(s.procs[p].op);
            && MovesOn(s, s', p, DatRel(pc.head, s.f.dend)) && s'.log == s.log
            && s'.f == s.f.(data := s.f.data[s.f.dend := text], dend := s.f.dend + |text| + 1)
            && Pending(DatRel(pc.head, s.f.dend), s.procs[p].op) == Pending(pc, s.procs[p].op)
            && (Replacing(pc, s.procs[p].op) ==> Replacing(DatRel(pc.head, s.f.dend), s.procs[p].op))
  {
    hide Hash;
  }

  /** Everything but the process's own knowledge, after the data file grew. */
  lemma DataGrown(s: State, g: Ghost, s': State, p: nat, text: string)
    requires Inv(s, g) && OnlyP(s.procs, s'.procs, p) && s'.procs[p].op == s.procs[p].op
    requires s'.f == s.f.(data := s.f.data[s.f.dend := text], dend := s.f.dend + |text| + 1) && s'.log == s.log
    requires s.procs[p].pc.DatAppend? && s'.procs[p].pc.DatRel? && s'.procs[p].pc.datoff == s.f.dend
    requires Replacing(s.procs[p].pc, s.procs[p].op) ==> Replacing(s'.procs[p].pc, s.procs[p].op)
    ensures var g' := DataAdded(g, p, s.f.dend);
            && MidOk(s'.procs, g') && FilesOk(s'.f, g', s'.procs) && Owners(s'.procs, g') && DataOk(s'.f, g')
            && ContentsOk(s'.f, g', LogMap(s'.log), s'.procs)
  {
    hide Inv, LogMap, Hash, Locking, Owners, MidOk, FilesOk, DataOk, ContentsOk, LogOk, Procs, LiveOk, RecData,
      RecordKeeps, TextIn, Replacing, ChainSame, SameFree;
    var g' := DataAdded(g, p, s.f.dend);
    Parts(s, g);
    LiveKnown(s, g);
    DataAddedOk(s, g, s', p, text);
    FilesAside(s, g, s', p);
    MidKept(s.procs, s'.procs, g, p);
    SameButData(s, g, s', g', p);
    OwnersPend(s.procs, s'.procs, g, p, s.f.dend);
    ContentsFrame(s, g, s', g', p, LogMap(s.log));
  }

  lemma DataGrownConfined(s: State, g: Ghost, s': State, p: nat, text: string)
    requires Inv(s, g) && p < |s.procs| && Holds1(s.procs[p], ChainLock(ChainOf(s.procs[p].op)))
    requires s'.f == s.f.(data := s.f.data[s.f.dend := text], dend := s.f.dend + |text| + 1) && s'.log == s.log
    ensures |g.ls.chains| == NHASH && Confined(s, g, s', DataAdded(g, p, s.f.dend), p)
  {
    hide Inv, LogMap, Hash, Locking, Owners, MidOk, FilesOk, DataOk, ContentsOk, LogOk, Procs, LiveOk, Holds1, TextIn;
    var g' := DataAdded(g, p, s.f.dend);
    Parts(s, g);
    HandRecords(s, g);
    DataAddedOk(s, g, s', p, text);
    forall h | 0 <= h < NHASH
      ensures ChainSame(g, g', h)
    {
      ListedRecords(s, g, h);
    }
    ListedRecords(s, g, 0);
  }

  lemma DatAppendMine(s: State, g: Ghost, s': State, p: nat)
    requires |g.ls.chains| == NHASH && p < |s.procs| && s.procs[p].pc.DatAppend? && Storing(s, g, p, s.procs[p].pc.head)
    requires var op, pc := s.procs[p].op, s.procs[p].pc;
             && s'.procs == s.procs[p := s.procs[p].(pc := DatRel(pc.head, s.f.dend))]
             && s'.f.data == s.f.data[s.f.dend := DataOf(op)] && s'.log == s.log
    ensures ProcOk(s'.f.data, DataAdded(g, p, s.f.dend), LogMap(s'.log), s'.procs[p])
  {
    hide Hash, LogMap, Holds1, OpValid;
  }

  lemma DatAppendOk(s: State, g: Ghost, p: nat) returns (g': Ghost)
    requires Inv(s, g) && p < |s.procs| && s.procs[p].pc.DatAppend? && Enabled(s, p)
    ensures Inv(Step(s, p), g')
  {
    hide Inv, LogMap, Hash, Locking, Owners, MidOk, FilesOk, DataOk, ContentsOk, LogOk, Procs, Confined, Step, HeldAt,
      Holds1, Enabled, Pending, Replacing, ProcOk, Clear;
    var op, pc, s' := s.procs[p].op, s.procs[p].pc, Step(s, p);
    var d, text := s.f.dend, DataOf(op);
    DatAppendKnows(s, g, p);
    DatAppendShape(s, p);
    Parts(s, g);
    g' := DataAdded(g, p, d);
    MovesLocking(s, s', p, DatRel(pc.head, d));
    MovesLog(s, s', p, DatRel(pc.head, d));
    DataGrown(s, g, s', p, text);
    DataGrownConfined(s, g, s', p, text);
    DatAppendMine(s, g, s', p);
    ConfinedOk(s, g, s', g', p);
  }

  /** Only the data file grew. */
  lemma SameButData(s: State, g: Ghost, s': State, g': Ghost, p: nat)
    requires Inv(s, g) && g' == g.(pend := g'.pend, dorder := g'.dorder)
    requires MidOk(s'.procs, g) && FilesOk(s'.f, g, s'.procs) && LiveOk(g)
    ensures MidOk(s'.procs, g') && FilesOk(s'.f, g', s'.procs) && LiveOk(g') && |g.ls.chains| == NHASH
    ensures (forall h :: 0 <= h < NHASH ==> ChainSame(g, g', h)) && SameFree(g, g')
  {
    hide Inv, LogMap, Geometry, ListsOk, MidImage, Hash, InMid;
    Parts2(s, g);
    forall h | 0 <= h < NHASH
      ensures ChainSame(g, g', h)
    {
      ListedRecords(s, g, h);
    }
    ListedRecords(s, g, 0);
  }

  lemma Parts2(s: State, g: Ghost)
    requires Inv(s, g)
    ensures |g.ls.chains| == NHASH
  {
  }
}
