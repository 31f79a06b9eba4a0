/** Program point by program point: appending the index record, linking it, and dying. */
module DbCommits {
  import opened Common
  import opened DbFormat
  import opened DbLists
  import opened DbFile
  import opened DbState
  import opened DbLibrary
  import opened DbRuns
  import opened DbProcesses
  import opened DbSharing
  import opened DbInterleaving
  import opened DbSteps
  import opened DbWrites
  import opened DbMoves
  import opened DbAppends
  import opened DbLinks

  // ---------------------------------------------------------------- appending the index record

  ghost function IndexAdded(g: Ghost, p: nat, o: nat, hd: nat, r: Info): Ghost {
    g.(im := AddRec(g.im, o, hd, r), hands := g.hands[o := p], pend := g.pend - {r.datoff}, own := g.own[r.datoff := o])
  }

  lemma EndFresh(im: Image, end: nat)
    requires Geometry(im, end)
    ensures end !in im.recs && end !in im.ptrs && end != FREE_OFF
    ensures forall h :: 0 <= h < NHASH ==> end != HeadLoc(h)
  {
    RecordsAfterTable(im, end, |im.order|);
    if end in im.recs {
      Bounds(im, end, end);
    }
  }

  lemma AddRecGeometry(im: Image, end: nat, p: nat, r: Info)
    requires Geometry(im, end) && p <= PTR_MAX && InfoOk(r)
    ensures Geometry(AddRec(im, end, p, r), end + RecLen(r))
  {
    hide InfoOk;
    EndFresh(im, end);
    AppendTiled(im, end, p, r);
  }

  lemma AddFiles(s: State, g: Ghost, s': State, p: nat, hd: nat, r: Info)
    requires Inv(s, g) && OnlyP(s.procs, s'.procs, p) && !InMid(s'.procs[p].pc)
    requires |g.ls.chains| == NHASH && Storing(s, g, p, hd) && InfoOk(r)
    requires s'.f.im == AddRec(s.f.im, s.f.iend, hd, r) && s'.f.iend == s.f.iend + RecLen(r)
    ensures MidOk(s'.procs, IndexAdded(g, p, s.f.iend, hd, r))
    ensures FilesOk(s'.f, IndexAdded(g, p, s.f.iend, hd, r), s'.procs)
  {
    hide Inv, LogMap, Geometry, ListsOk, MidImage, Clear, InfoOk, RecLen, AddRec, Hash;
    var o := s.f.iend;
    IndexKnown(s, g);
    MidElse(s, g, p);
    EndFresh(g.im, o);
    AddRecGeometry(g.im, o, hd, r);
    AppendHand(g.im, o, g.ls, g.hands.Keys, hd, r);
    assert g.hands[o := p].Keys == g.hands.Keys + {o};
    if g.mid.Some? {
      MidCommutes(g.im, s.procs[g.mid.value].pc, o, hd, r);
    }
    IndexWrite(s, g, s', IndexAdded(g, p, o, hd, r), p);
  }

  lemma AddOwners(procs: seq<Proc>, procs': seq<Proc>, g: Ghost, p: nat, o: nat, hd: nat, r: Info)
    requires Owners(procs, g) && OnlyP(procs, procs', p) && o !in g.im.recs
    requires HandOf(procs[p].pc) == None && HandOf(procs'[p].pc) == Some(o)
    requires PendOf(procs[p].pc) == Some(r.datoff) && PendOf(procs'[p].pc) == None
    ensures Owners(procs', IndexAdded(g, p, o, hd, r))
  {
    hide HandOf, PendOf;
  }

  lemma AddData(f: Files, f': Files, g: Ghost, p: nat, o: nat, hd: nat, r: Info)
    requires DataOk(f, g) && o !in g.im.recs && f'.data == f.data && f'.dend == f.dend
    requires r.datoff in g.pend && r.datoff in f.data && |f.data[r.datoff]| + 1 == r.datlen
    ensures DataOk(f', IndexAdded(g, p, o, hd, r))
  {
    hide TextsTile;
    var g' := IndexAdded(g, p, o, hd, r);
    forall x | x in g'.im.recs
      ensures RecData(f'.data, g'.own, g'.im.recs[x], x)
    {
      if x != o {
        assert RecData(f.data, g.own, g.im.recs[x], x);
      }
    }
  }

  lemma AddLive(g: Ghost, p: nat, o: nat, hd: nat, r: Info)
    requires LiveOk(g) && o !in g.im.recs
    ensures LiveOk(IndexAdded(g, p, o, hd, r))
  {
  }

  lemma AddContents(s: State, g: Ghost, s': State, p: nat, hd: nat, r: Info)
    requires Inv(s, g) && OnlyP(s.procs, s'.procs, p) && s.f.iend !in g.im.recs
    requires s'.f.data == s.f.data && s'.log == s.log && !InMid(s.procs[p].pc) && s'.procs[p].op == s.procs[p].op
    requires Replacing(s.procs[p].pc, s.procs[p].op) ==> Replacing(s'.procs[p].pc, s.procs[p].op)
    ensures ContentsOk(s'.f, IndexAdded(g, p, s.f.iend, hd, r), LogMap(s'.log), s'.procs)
  {
    hide Inv, LogMap, Hash, Locking, Owners, MidOk, FilesOk, DataOk, ContentsOk, LogOk, Procs, LiveOk, Replacing,
      RecData;
    Parts(s, g);
    LiveKnown(s, g);
    AddLive(g, p, s.f.iend, hd, r);
    ContentsFrame(s, g, s', IndexAdded(g, p, s.f.iend, hd, r), p, LogMap(s.log));
  }

  lemma AddConfined(s: State, g: Ghost, s': State, p: nat, hd: nat, r: Info)
    requires Inv(s, g) && p < |s.procs| && s.f.iend !in g.im.recs && s.f.iend !in g.im.ptrs
    requires s'.f.data == s.f.data && s'.log == s.log
    requires Holds1(s.procs[p], ChainLock(ChainOf(s.procs[p].op)))
    ensures |g.ls.chains| == NHASH && Confined(s, g, s', IndexAdded(g, p, s.f.iend, hd, r), p)
  {
    hide Inv, LogMap, Hash, Holds1, Locking, Owners, MidOk, FilesOk, DataOk, ContentsOk, LogOk, Procs, ChainSame,
      SameFree, RecordKeeps;
    Parts(s, g);
    HandRecords(s, g);
    var g' := IndexAdded(g, p, s.f.iend, hd, r);
    forall h | 0 <= h < NHASH
      ensures ChainSame(g, g', h) && SameFree(g, g')
    {
      ListedRecords(s, g, h);
      AddLists(g, p, s.f.iend, hd, r, h);
    }
    AddLists(g, p, s.f.iend, hd, r, 0) by { ListedRecords(s, g, 0); }
    forall o | o in g.hands && g.hands[o] != p
      ensures RecordKeeps(s.f.data, g.im, s'.f.data, g'.im, o)
    {
      AddKeeps(s.f.data, g.im, s.f.iend, hd, r, o);
    }
  }

  lemma AddLists(g: Ghost, p: nat, o: nat, hd: nat, r: Info, h: nat)
    requires o !in g.im.recs && h < |g.ls.chains|
    requires forall x :: x in g.ls.chains[h] ==> x in g.im.recs
    requires forall x :: x in g.ls.free ==> x in g.im.recs
    ensures ChainSame(g, IndexAdded(g, p, o, hd, r), h) && SameFree(g, IndexAdded(g, p, o, hd, r))
  {
  }

  lemma AddKeeps(data: map<nat, string>, im: Image, o: nat, hd: nat, r: Info, x: nat)
    requires o !in im.recs && o !in im.ptrs && x in im.recs
    ensures RecordKeeps(data, im, data, AddRec(im, o, hd, r), x)
  {
  }

  lemma IdxAppendKnows(s: State, g: Ghost, p: nat)
    requires Inv(s, g) && p < |s.procs| && s.procs[p].pc.IdxAppend?
    ensures |g.ls.chains| == NHASH && Storing(s, g, p, s.procs[p].pc.head)
    ensures var op, d := s.procs[p].op, s.procs[p].pc.datoff;
            && d in g.pend && g.pend[d] == p && d in s.f.data && s.f.data[d] == DataOf(op)
            && InfoOk(Info(op.key, d, |DataOf(op)| + 1))
  {
    hide Inv, LogMap, Hash, Body;
    HeldIs(s, g, p);
    HandIs(s, g, p);
  }

  lemma IdxAppendShape(s: State, p: nat)
    requires p < |s.procs| && s.procs[p].pc.IdxAppend?
    ensures var op, pc, s', o := s.procs[p].op, s.procs[p].pc, Step(s, p), s.f.iend;
            var r := Info(op.key, pc.datoff, |DataOf(op)| + 1);
            && MovesOn(s, s', p, IdxRel(pc.head, o)) && s'.log == s.log
            && s'.f == s.f.(im := AddRec(s.f.im, o, pc.head, r), iend := o + RecLen(r))
            && HandOf(pc) == None && HandOf(IdxRel(pc.head, o)) == Some(o)
            && PendOf(pc) == Some(pc.datoff) && PendOf(IdxRel(pc.head, o)) == None
            && Pending(IdxRel(pc.head, o), op) == Pending(pc, op) && !InMid(pc) && !InMid(IdxRel(pc.head, o))
            && (Replacing(pc, op) ==> Replacing(IdxRel(pc.head, o), op))
  {
    hide Hash;
  }

  lemma IdxAppendMine(s: State, g: Ghost, s': State, p: nat)
    requires |g.ls.chains| == NHASH && p < |s.procs| && s.procs[p].pc.IdxAppend? && Storing(s, g, p, s.procs[p].pc.head)
    requires var op, pc := s.procs[p].op, s.procs[p].pc;
             && pc.datoff in s.f.data && s.f.data[pc.datoff] == DataOf(op)
             && s'.procs == s.procs[p := s.procs[p].(pc := IdxRel(pc.head, s.f.iend))] && s'.f.data == s.f.data
             && s'.log == s.log
    ensures var op, pc := s.procs[p].op, s.procs[p].pc;
            ProcOk(s'.f.data, IndexAdded(g, p, s.f.iend, pc.head, Info(op.key, pc.datoff, |DataOf(op)| + 1)),
                   LogMap(s'.log), s'.procs[p])
  {
    hide Hash, LogMap, Holds1, OpValid;
  }

  lemma IdxAppendOk(s: State, g: Ghost, p: nat) returns (g': Ghost)
    requires Inv(s, g) && p < |s.procs| && s.procs[p].pc.IdxAppend? && Enabled(s, p)
    ensures Inv(Step(s, p), g')
  {
    hide Inv, LogMap, Hash, Locking, Owners, MidOk, FilesOk, DataOk, ContentsOk, LogOk, Procs, Confined, Geometry,
      ListsOk, Step, HeldAt, Holds1, InfoOk, RecLen, Enabled, HandOf, PendOf, Pending, Replacing, InMid, ProcOk, Clear;
    var op, pc, s' := s.procs[p].op, s.procs[p].pc, Step(s, p);
    var r, o := Info(op.key, pc.datoff, |DataOf(op)| + 1), s.f.iend;
    IdxAppendKnows(s, g, p);
    IdxAppendShape(s, p);
    Parts(s, g);
    IndexKnown(s, g);
    EndFresh(g.im, o);
    g' := IndexAdded(g, p, o, pc.head, r);
    MovesLocking(s, s', p, IdxRel(pc.head, o));
    MovesLog(s, s', p, IdxRel(pc.head, o));
    AddFiles(s, g, s', p, pc.head, r);
    AddOwners(s.procs, s'.procs, g, p, o, pc.head, r);
    AddData(s.f, s'.f, g, p, o, pc.head, r);
    AddContents(s, g, s', p, pc.head, r);
    AddConfined(s, g, s', p, pc.head, r);
    IdxAppendMine(s, g, s', p);
    ConfinedOk(s, g, s', g', p);
  }

  // ---------------------------------------------------------------- linking

  ghost function Linked(g: Ghost, op: Op, off: nat): Ghost
    requires |g.ls.chains| == NHASH
  {
    g.(im := SetPtr(g.im, HeadLoc(ChainOf(op)), off), ls := Chain(g.ls, ChainOf(op), off),
       hands := g.hands - {off}, at := g.at[op.key := off], gone := g.gone - {op.key})
  }

  lemma LinkFiles(s: State, g: Ghost, s': State, p: nat, hd: nat, off: nat)
    requires Inv(s, g) && OnlyP(s.procs, s'.procs, p) && !InMid(s'.procs[p].pc)
    requires |g.ls.chains| == NHASH && Storing(s, g, p, hd) && off <= PTR_MAX
    requires off in g.hands && off in g.im.recs && off in g.im.ptrs && g.im.ptrs[off] == hd
    requires g.im.recs[off].key == s.procs[p].op.key
    requires s'.f.im == SetPtr(s.f.im, HeadLoc(ChainOf(s.procs[p].op)), off) && s'.f.iend == s.f.iend
    ensures MidOk(s'.procs, Linked(g, s.procs[p].op, off)) && FilesOk(s'.f, Linked(g, s.procs[p].op, off), s'.procs)
  {
    hide Inv, LogMap, Geometry, ListsOk, MidImage, Clear, SetPtr, Hash;
    var h := ChainOf(s.procs[p].op);
    IndexKnown(s, g);
    MidElse(s, g, p);
    SetPtrGeometry(g.im, s.f.iend, HeadLoc(h), off);
    ChainOk(g.im, s.f.iend, g.ls, g.hands.Keys, h, off);
    assert (g.hands - {off}).Keys == g.hands.Keys - {off};
    if g.mid.Some? {
      MidCommutes(g.im, s.procs[g.mid.value].pc, HeadLoc(h), off, Info([], 0, 0));
    }
    IndexWrite(s, g, s', Linked(g, s.procs[p].op, off), p);
  }

  lemma LinkOwners(procs: seq<Proc>, procs': seq<Proc>, g: Ghost, p: nat, off: nat)
    requires Owners(procs, g) && OnlyP(procs, procs', p) && |g.ls.chains| == NHASH
    requires HandOf(procs[p].pc) == Some(off) && HandOf(procs'[p].pc) == None
    requires PendOf(procs'[p].pc) == PendOf(procs[p].pc)
    ensures Owners(procs', Linked(g, procs[p].op, off))
  {
    hide HandOf, PendOf, Hash;
  }

  lemma LinkLive(g: Ghost, op: Op, off: nat)
    requires |g.ls.chains| == NHASH && LiveOk(g) && off in g.im.recs && off in g.hands && g.im.recs[off].key == op.key
    requires off !in g.ls.free && op.key !in g.at
    ensures LiveOk(Linked(g, op, off))
  {
    hide Hash;
  }

  lemma LinkValues(s: State, g: Ghost, s': State, p: nat, off: nat, m: Contents, v: string)
    requires OnlyP(s.procs, s'.procs, p) && |g.ls.chains| == NHASH && MidOk(s.procs, g) && !InMid(s.procs[p].pc)
    requires LiveOk(g) && ValuesOk(s.f, g, m, s.procs) && s'.f.data == s.f.data
    requires off in g.im.recs && s.procs[p].op.key !in g.at && TextIn(s.f, g.im.recs[off].datoff) == v
    ensures ValuesOk(s'.f, Linked(g, s.procs[p].op, off), m[s.procs[p].op.key := v], s'.procs)
  {
    hide Hash, LiveOk;
    var g', m' := Linked(g, s.procs[p].op, off), m[s.procs[p].op.key := v];
    forall k | k in g'.at
      ensures HasText(s'.f, g', m', s'.procs, k)
    {
      if k != s.procs[p].op.key {
        assert HasText(s.f, g, m, s.procs, k);
      }
    }
  }

  /** With the key off the list of keys being replaced, the rest of that list stands. */
  lemma GoneLess(procs: seq<Proc>, procs': seq<Proc>, g: Ghost, g': Ghost, p: nat)
    requires GoneOk(g, procs) && OnlyP(procs, procs', p) && g'.gone == g.gone - {procs[p].op.key}
    ensures GoneOk(g', procs')
  {
    hide Replacing;
  }

  lemma LinkContents(s: State, g: Ghost, s': State, p: nat, off: nat, m: Contents, v: string)
    requires OnlyP(s.procs, s'.procs, p) && |g.ls.chains| == NHASH && MidOk(s.procs, g) && !InMid(s.procs[p].pc)
    requires ContentsOk(s.f, g, m, s.procs) && s'.f.data == s.f.data
    requires off in g.im.recs && off in g.hands && off !in g.ls.free && g.im.recs[off].key == s.procs[p].op.key
    requires s.procs[p].op.key !in g.at && TextIn(s.f, g.im.recs[off].datoff) == v
    ensures ContentsOk(s'.f, Linked(g, s.procs[p].op, off), m[s.procs[p].op.key := v], s'.procs)
  {
    hide Hash, LiveOk, ValuesOk, GoneOk, MidOk, TextIn;
    LinkLive(g, s.procs[p].op, off);
    LinkValues(s, g, s', p, off, m, v);
    GoneLess(s.procs, s'.procs, g, Linked(g, s.procs[p].op, off), p);
  }

  lemma LinkLists(g: Ghost, op: Op, off: nat, h: nat)
    requires |g.ls.chains| == NHASH && h < NHASH && h != ChainOf(op)
    requires forall x :: x in g.ls.chains[h] ==> x in g.im.recs
    ensures ChainSame(g, Linked(g, op, off), h)
  {
    hide Hash;
  }

  lemma LinkKeeps(g: Ghost, op: Op, off: nat, data: map<nat, string>)
    requires |g.ls.chains| == NHASH && forall x :: x in g.ls.free ==> x in g.im.recs
    ensures SameFree(g, Linked(g, op, off))
    ensures forall o :: o != HeadLoc(ChainOf(op)) ==> RecordKeeps(data, g.im, data, Linked(g, op, off).im, o)
  {
    hide Hash;
  }

  lemma LinkConfined(s: State, g: Ghost, s': State, p: nat, off: nat)
    requires Inv(s, g) && p < |s.procs| && |g.ls.chains| == NHASH && s'.f.data == s.f.data
    requires Holds1(s.procs[p], ChainLock(ChainOf(s.procs[p].op)))
    requires forall k :: k != s.procs[p].op.key ==> (k in LogMap(s.log) <==> k in LogMap(s'.log))
    ensures Confined(s, g, s', Linked(g, s.procs[p].op, off), p)
  {
    hide Inv, LogMap, Hash, Holds1, Locking, Owners, MidOk, FilesOk, DataOk, ContentsOk, LogOk, Procs, SetPtr,
      ChainSame, SameFree, RecordKeeps;
    Parts(s, g);
    var op := s.procs[p].op;
    var g', h := Linked(g, op, off), ChainOf(op);
    HandsNotHeads(s, g, h);
    forall h' | 0 <= h' < NHASH && h' != h
      ensures ChainSame(g, g', h')
    {
      ListedRecords(s, g, h');
      LinkLists(g, op, off, h');
    }
    LinkKeeps(g, op, off, s.f.data) by { ListedRecords(s, g, 0); }
  }

  lemma LinkKnows(s: State, g: Ghost, p: nat)
    requires Inv(s, g) && p < |s.procs| && s.procs[p].pc.Link?
    ensures |g.ls.chains| == NHASH && Storing(s, g, p, s.procs[p].pc.head)
    ensures var op, pc := s.procs[p].op, s.procs[p].pc;
            && ToLink(s.f.data, g, op, pc.head, pc.off) && pc.off in g.hands && g.hands[pc.off] == p
            && pc.off !in g.ls.free && TextIn(s.f, g.im.recs[pc.off].datoff) == DataOf(op)
  {
    hide Inv, LogMap, Hash;
    HeldIs(s, g, p);
    HandIs(s, g, p);
    HandNotListed(s, g, s.procs[p].pc.off, 0);
  }

  lemma LinkShape(s: State, p: nat)
    requires p < |s.procs| && s.procs[p].pc.Link? && s.procs[p].pc.off <= PTR_MAX && s.procs[p].op.StoreOp?
    ensures var op, pc, s' := s.procs[p].op, s.procs[p].pc, Step(s, p);
            && MovesOn(s, s', p, Finish(Answer(Code(0)))) && s'.log == s.log + [Event(p, op, Answer(Code(0)))]
            && s'.f == s.f.(im := SetPtr(s.f.im, HeadLoc(ChainOf(op)), pc.off))
            && HandOf(pc) == Some(pc.off) && HandOf(Finish(Answer(Code(0)))) == None
            && PendOf(Finish(Answer(Code(0)))) == PendOf(pc) && Pending(pc, op) == []
            && !InMid(pc) && !InMid(Finish(Answer(Code(0)))) && DataOf(op) == op.data
  {
    hide Hash;
  }

  lemma LinkPlain(s: State, g: Ghost, p: nat)
    requires p < |s.procs| && s.procs[p].pc.Link? && |g.ls.chains| == NHASH
    requires Storing(s, g, p, s.procs[p].pc.head)
    requires ToLink(s.f.data, g, s.procs[p].op, s.procs[p].pc.head, s.procs[p].pc.off)
    ensures var op, pc, m := s.procs[p].op, s.procs[p].pc, LogMap(s.log);
            && OpValid(op) && op.StoreOp? && op.key !in g.at && Holds1(s.procs[p], ChainLock(ChainOf(op)))
            && (op.key in m ==> op.flag != DB_INSERT) && (op.key !in m ==> op.flag != DB_REPLACE)
            && pc.off in g.im.recs && pc.off in g.im.ptrs && g.im.ptrs[pc.off] == pc.head
            && g.im.recs[pc.off].key == op.key
  {
    hide Hash, LogMap, OpValid, Holds1, InMid;
  }

  lemma LinkParts(g: Ghost, op: Op, off: nat)
    requires |g.ls.chains| == NHASH && off in g.im.recs
    ensures var g' := Linked(g, op, off);
            && |g'.ls.chains| == NHASH && Nearly2(g.im, g'.im, off)
            && g'.own == g.own && g'.pend == g.pend && g'.dorder == g.dorder
  {
    hide Hash;
  }

  lemma FinishMine(data: map<nat, string>, g: Ghost, m: Contents, q: Proc)
    requires q.pc.Finish? && |g.ls.chains| == NHASH
    ensures ProcOk(data, g, m, q)
  {
    hide Hash;
  }

  lemma LinkOk(s: State, g: Ghost, p: nat) returns (g': Ghost)
    requires Inv(s, g) && p < |s.procs| && s.procs[p].pc.Link? && s.procs[p].pc.off <= PTR_MAX && Enabled(s, p)
    ensures Inv(Step(s, p), g')
  {
    hide Inv, LogMap, Hash, Locking, Owners, MidOk, FilesOk, DataOk, ContentsOk, LogOk, Procs, Confined, Step, HeldAt,
      Holds1, Enabled, HandOf, PendOf, Pending, InMid, TextIn, OpValid, ProcOk, Storing, ToLink, Linked, Nearly2,
      SetPtr, DataOf, ChainOf;
    var op, pc, s' := s.procs[p].op, s.procs[p].pc, Step(s, p);
    var off := pc.off;
    LinkKnows(s, g, p);
    LinkPlain(s, g, p);
    LinkShape(s, p);
    Parts(s, g);
    g' := Linked(g, op, off);
    LinkParts(g, op, off);
    MovesLocking(s, s', p, Finish(Answer(Code(0))));
    StoreEffect(s, s', p, Finish(Answer(Code(0))));
    LinkFiles(s, g, s', p, pc.head, off);
    LinkOwners(s.procs, s'.procs, g, p, off);
    DataNearly2(s.f, s'.f, g, g', off);
    LinkContents(s, g, s', p, off, LogMap(s.log), op.data);
    LinkConfined(s, g, s', p, off);
    FinishMine(s'.f.data, g', LogMap(s'.log), s'.procs[p]);
    ConfinedOk(s, g, s', g', p);
  }

  // ---------------------------------------------------------------- dying

  ghost function Buried(g: Ghost, op: Op): Ghost {
    g.(gone := g.gone - {op.key})
  }

  lemma DeathContents(s: State, g: Ghost, s': State, p: nat, m: Contents)
    requires OnlyP(s.procs, s'.procs, p) && MidOk(s.procs, g) && !InMid(s.procs[p].pc)
    requires ContentsOk(s.f, g, m, s.procs) && s'.f == s.f && s.procs[p].op.key !in g.at
    ensures ContentsOk(s'.f, Buried(g, s.procs[p].op), m - {s.procs[p].op.key}, s'.procs)
  {
    hide GoneOk, ValuesOk, MidOk;
    var g', m' := Buried(g, s.procs[p].op), m - {s.procs[p].op.key};
    GoneLess(s.procs, s'.procs, g, g', p);
    DeathValues(s, g, s', p, m);
    assert LiveOk(g') by { BuriedLive(g, s.procs[p].op); }
  }

  lemma BuriedLive(g: Ghost, op: Op)
    requires LiveOk(g)
    ensures LiveOk(Buried(g, op))
  {
  }

  lemma DeathValues(s: State, g: Ghost, s': State, p: nat, m: Contents)
    requires OnlyP(s.procs, s'.procs, p) && MidOk(s.procs, g) && !InMid(s.procs[p].pc)
    requires ValuesOk(s.f, g, m, s.procs) && s'.f == s.f && s.procs[p].op.key !in g.at
    ensures ValuesOk(s'.f, Buried(g, s.procs[p].op), m - {s.procs[p].op.key}, s'.procs)
  {
    hide TextIn;
    var g', m' := Buried(g, s.procs[p].op), m - {s.procs[p].op.key};
    forall k | k in g'.at
      ensures HasText(s'.f, g', m', s'.procs, k)
    {
      assert HasText(s.f, g, m, s.procs, k);
    }
  }

  lemma DeathConfined(s: State, g: Ghost, s': State, p: nat)
    requires Inv(s, g) && p < |s.procs| && |g.ls.chains| == NHASH && s'.f == s.f
    requires Holds1(s.procs[p], ChainLock(ChainOf(s.procs[p].op)))
    requires forall k :: k != s.procs[p].op.key ==> (k in LogMap(s.log) <==> k in LogMap(s'.log))
    ensures Confined(s, g, s', Buried(g, s.procs[p].op), p)
  {
    hide Inv, LogMap, Hash, Holds1;
    var g' := Buried(g, s.procs[p].op);
    forall h | 0 <= h < NHASH
      ensures ChainSame(g, g', h)
    {
      ListedRecords(s, g, h);
    }
    ListedRecords(s, g, 0);
  }

  lemma DeathRest(s: State, g: Ghost, s': State, p: nat)
    requires Inv(s, g) && OnlyP(s.procs, s'.procs, p) && s'.f == s.f && !InMid(s.procs[p].pc) && !InMid(s'.procs[p].pc)
    requires HandOf(s'.procs[p].pc) == HandOf(s.procs[p].pc) && PendOf(s'.procs[p].pc) == PendOf(s.procs[p].pc)
    ensures var g' := Buried(g, s.procs[p].op);
            MidOk(s'.procs, g') && FilesOk(s'.f, g', s'.procs) && Owners(s'.procs, g') && DataOk(s'.f, g')
  {
    hide Inv, LogMap, HandOf, PendOf, Geometry, ListsOk, Owners, DataOk, Locking, ContentsOk, LogOk, Procs;
    Parts(s, g);
    FilesAside(s, g, s', p);
    OwnersKept(s.procs, s'.procs, g, p);
    BuriedAside(s'.procs, s'.f, g, s.procs[p].op);
  }

  lemma BuriedAside(procs: seq<Proc>, f: Files, g: Ghost, op: Op)
    requires Owners(procs, g) && DataOk(f, g)
    ensures Owners(procs, Buried(g, op)) && DataOk(f, Buried(g, op))
  {
  }

  lemma DeathLog(s: State, s': State, p: nat)
    requires LogOk(s) && OnlyP(s.procs, s'.procs, p) && s.procs[p].op.StoreOp?
    requires s'.log == s.log + [Event(p, s.procs[p].op, Dead)]
    requires Pending(s.procs[p].pc, s.procs[p].op) == [] && s'.procs[p].pc.Exited?
    requires s'.procs[p].done == s.procs[p].done + [(s.procs[p].op, Dead)]
    ensures LogOk(s') && LogMap(s'.log) == LogMap(s.log) - {s.procs[p].op.key}
  {
    hide EffectsOf, Legal, LogMap;
    LogMore(s, s', p, Event(p, s.procs[p].op, Dead));
  }

  /** The process dies in db_store with its record or its data in hand: the lists stay in
      order, and the key it was storing has no value. */
  lemma DieOk(s: State, g: Ghost, p: nat, hd: nat, lostRec: Option<nat>, lostDat: Option<nat>)
    requires Inv(s, g) && p < |s.procs| && |g.ls.chains| == NHASH && Storing(s, g, p, hd)
    requires HandOf(s.procs[p].pc) == lostRec && PendOf(s.procs[p].pc) == lostDat
    requires Pending(s.procs[p].pc, s.procs[p].op) == []
    ensures Inv(Die(s, p, lostRec, lostDat), Buried(g, s.procs[p].op))
  {
    hide Inv, LogMap, Hash, Locking, Owners, MidOk, FilesOk, DataOk, ContentsOk, LogOk, Procs, Confined, HeldAt,
      Holds1, Pending, OpValid, HandOf, PendOf, ProcOk, HeadIs;
    var op, s' := s.procs[p].op, Die(s, p, lostRec, lostDat);
    Parts(s, g);
    DeadMarks(lostRec, lostDat, op);
    DeadKnows(s'.f.data, Buried(g, op), LogMap(s'.log), s'.procs[p]);
    LockingKept(s, s', p);
    DeathLog(s, s', p);
    DeathRest(s, g, s', p);
    DeathContents(s, g, s', p, LogMap(s.log));
    DeathConfined(s, g, s', p);
    ConfinedOk(s, g, s', Buried(g, op), p);
  }

  lemma DeadMarks(lostRec: Option<nat>, lostDat: Option<nat>, op: Op)
    ensures var pc := Exited(lostRec, lostDat);
            HandOf(pc) == lostRec && PendOf(pc) == lostDat && HeldAt(pc, op) == map[] && !InMid(pc)
  {
    hide Hash;
  }

  lemma DeadKnows(data: map<nat, string>, g: Ghost, m: Contents, pr: Proc)
    requires |g.ls.chains| == NHASH && pr.pc.Exited?
    ensures ProcOk(data, g, m, pr)
  {
  }

  lemma DatRelDies(s: State, g: Ghost, p: nat) returns (g': Ghost)
    requires Inv(s, g) && p < |s.procs| && s.procs[p].pc.DatRel?
    ensures Inv(Die(s, p, None, Some(s.procs[p].pc.datoff)), g')
  {
    hide Inv, LogMap, Hash;
    HeldIs(s, g, p);
    g' := Buried(g, s.procs[p].op);
    DieOk(s, g, p, s.procs[p].pc.head, None, Some(s.procs[p].pc.datoff));
  }

  lemma LinkDies(s: State, g: Ghost, p: nat) returns (g': Ghost)
    requires Inv(s, g) && p < |s.procs| && s.procs[p].pc.Link?
    ensures Inv(Die(s, p, Some(s.procs[p].pc.off), None), g')
  {
    hide Inv, LogMap, Hash;
    HeldIs(s, g, p);
    g' := Buried(g, s.procs[p].op);
    DieOk(s, g, p, s.procs[p].pc.head, Some(s.procs[p].pc.off), None);
  }
}
