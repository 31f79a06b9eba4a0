/** Program point by program point: the steps that move records between lists and hands. */
module DbMoves {
  import opened Common
  import opened DbFormat
  import opened DbLists
  import opened DbFile
  import opened DbState
  import opened DbLibrary
  import opened DbRuns
  import opened DbProcesses
  import opened DbSharing
  import opened DbInterleaving
  import opened DbSteps
  import opened DbWrites

  // ---------------------------------------------------------------- steps confined to what is locked

  ghost predicate Holds1(pr: Proc, l: Lock) {
    l in pr.held && pr.held[l] == Exclusive
  }

  /** Outside the chain the process has locked, the free list if it has locked that, and the
      records and texts it has in hand, nothing changes. */
  ghost predicate Confined(s: State, g: Ghost, s': State, g': Ghost, p: nat)
    requires p < |s.procs| && |g.ls.chains| == NHASH && |g'.ls.chains| == NHASH
  {
    var h := ChainOf(s.procs[p].op);
    && Holds1(s.procs[p], ChainLock(h))
    && (forall h' :: 0 <= h' < NHASH && h' != h ==> ChainSame(g, g', h'))
    && (Holds1(s.procs[p], FreeLock) || SameFree(g, g'))
    && (forall o :: o in g.hands && g.hands[o] != p ==> RecordKeeps(s.f.data, g.im, s'.f.data, g'.im, o))
    && (forall d :: d in g.pend && g.pend[d] != p && d in s.f.data ==> d in s'.f.data && s'.f.data[d] == s.f.data[d])
    && (forall k :: Hash(k) != h ==> KeySame(g, LogMap(s.log), g', LogMap(s'.log), k))
  }

  ghost predicate ChainSame(g: Ghost, g': Ghost, h: nat)
    requires h < |g.ls.chains| && h < |g'.ls.chains|
  {
    && g'.ls.chains[h] == g.ls.chains[h]
    && forall o :: o in g.ls.chains[h] ==> o in g.im.recs && o in g'.im.recs && g'.im.recs[o] == g.im.recs[o]
  }

  ghost predicate KeySame(g: Ghost, m: Contents, g': Ghost, m': Contents, k: string) {
    (k in g.at <==> k in g'.at) && (k in m <==> k in m')
  }

  lemma ConfinedView(s: State, g: Ghost, s': State, g': Ghost, p: nat, q: nat)
    requires Inv(s, g) && p < |s.procs| && q < |s.procs| && q != p && |g'.ls.chains| == NHASH
    requires Confined(s, g, s', g', p)
    ensures SameView(s.f.data, g, LogMap(s.log), s'.f.data, g', LogMap(s'.log), s.procs[q])
  {
    hide Inv, Hash, LogMap, RecordKeeps, HandOf, PendOf, Locking, Owners, MidOk, FilesOk, DataOk, ContentsOk, LogOk,
      Procs;
    Parts(s, g);
    var h, pq := ChainOf(s.procs[p].op), s.procs[q];
    HandIs(s, g, q);
    Alone(s, p, ChainLock(h), q);
    if Holds1(s.procs[p], FreeLock) {
      Alone(s, p, FreeLock, q);
    }
    if ChainLock(ChainOf(pq.op)) in pq.held {
      assert ChainOf(pq.op) != h;
      assert ChainSame(g, g', ChainOf(pq.op));
      assert KeySame(g, LogMap(s.log), g', LogMap(s'.log), pq.op.key);
    }
  }

  lemma ConfinedOk(s: State, g: Ghost, s': State, g': Ghost, p: nat)
    requires Inv(s, g) && OnlyP(s.procs, s'.procs, p) && |g'.ls.chains| == NHASH && Confined(s, g, s', g', p)
    requires Locking(s') && LogOk(s') && MidOk(s'.procs, g') && FilesOk(s'.f, g', s'.procs)
    requires Owners(s'.procs, g') && DataOk(s'.f, g') && ContentsOk(s'.f, g', LogMap(s'.log), s'.procs)
    requires ProcOk(s'.f.data, g', LogMap(s'.log), s'.procs[p])
    ensures Inv(s', g')
  {
    hide Inv, LogMap, Confined, ProcOk, Locking, LogOk, MidOk, FilesOk, ContentsOk, Procs, Owners, DataOk, SameView;
    Parts(s, g);
    forall q | 0 <= q < |s.procs| && q != p
      ensures SameView(s.f.data, g, LogMap(s.log), s'.f.data, g', LogMap(s'.log), s.procs[q])
    {
      ConfinedView(s, g, s', g', p, q);
    }
    ProcsKept(s, g, s', g', p);
    Whole(s', g');
  }

  /** An unfinished deletion elsewhere does not mind other fields being written. */
  lemma MidCommutes(im: Image, pc: Pc, loc: nat, v: nat, r: Info)
    requires InMid(pc) && loc != pc.t.off && loc != FREE_OFF
    ensures MidImage(SetPtr(im, loc, v), pc) == SetPtr(MidImage(im, pc), loc, v)
    ensures MidImage(SetRec(im, loc, v, r), pc) == SetRec(MidImage(im, pc), loc, v, r)
    ensures MidImage(AddRec(im, loc, v, r), pc) == AddRec(MidImage(im, pc), loc, v, r)
  {
    match pc {
      case DelPush(t, fp) =>
        assert im.ptrs[loc := v][t.off := fp] == im.ptrs[t.off := fp][loc := v];
        assert im.recs[loc := r][t.off := Blanked(t.info)] == im.recs[t.off := Blanked(t.info)][loc := r];
      case DelUnlink(t, fp) =>
        assert im.ptrs[loc := v][t.off := fp][FREE_OFF := t.off] == im.ptrs[t.off := fp][FREE_OFF := t.off][loc := v];
        assert im.recs[loc := r][t.off := Blanked(t.info)] == im.recs[t.off := Blanked(t.info)][loc := r];
      case _ =>
    }
  }

  // ---------------------------------------------------------------- the end of _db_dodelete

  ghost function Unlinked(g: Ghost, p: nat, op: Op, t: Target): Ghost
    requires Unlinkable(g, op, t)
  {
    g.(im := DeletedImage(g.im, t.off, t.ptroff, t.next),
       ls := Release(Unchain(g.ls, ChainOf(op), t.i), t.off),
       mid := None, at := g.at - {op.key}, gone := if op.DeleteOp? then g.gone else g.gone[op.key := p])
  }

  /** The index with at most one record's pointer and key changed, and at most two pointers. */
  ghost predicate Nearly(im: Image, im': Image, o: nat) {
    && im'.recs.Keys == im.recs.Keys && im'.ptrs.Keys == im.ptrs.Keys && im'.order == im.order
    && (forall x :: x in im.recs && x != o ==> im'.recs[x] == im.recs[x])
    && (o in im.recs ==> im'.recs[o].datoff == im.recs[o].datoff && im'.recs[o].datlen == im.recs[o].datlen)
  }

  lemma UnlinkedParts(g: Ghost, p: nat, op: Op, t: Target)
    requires Unlinkable(g, op, t)
    ensures var g' := Unlinked(g, p, op, t);
            && |g'.ls.chains| == NHASH && g'.ls.free == [t.off] + g.ls.free
            && (forall h :: 0 <= h < NHASH && h != ChainOf(op) ==> g'.ls.chains[h] == g.ls.chains[h])
            && g'.hands == g.hands && g'.pend == g.pend && g'.own == g.own && g'.dorder == g.dorder && g'.mid == None
            && g'.at == g.at - {op.key} && g'.gone == (if op.DeleteOp? then g.gone else g.gone[op.key := p])
            && Nearly(g.im, g'.im, t.off)
            && (forall x :: x in g.im.ptrs && x != t.off && x != FREE_OFF && x != t.ptroff ==>
                  g'.im.ptrs[x] == g.im.ptrs[x])
  {
    hide Hash, Without;
  }

  /** Facts about the record a process is deleting. */
  lemma HitFacts(s: State, g: Ghost, op: Op, t: Target)
    requires Inv(s, g) && Hit(g, op, t)
    ensures t.i < |g.ls.chains[ChainOf(op)]| && t.off == g.ls.chains[ChainOf(op)][t.i]
    ensures t.off in g.im.recs && FREE_OFF in g.im.ptrs && t.ptroff in g.im.ptrs && t.off in g.im.ptrs
    ensures t.ptroff != FREE_OFF && t.ptroff != t.off && t.off != FREE_OFF
    ensures t.off <= PTR_MAX && t.next <= PTR_MAX && g.im.ptrs[FREE_OFF] <= PTR_MAX
    ensures g.im.ptrs[FREE_OFF] == At(g.ls.free, 0) && InfoOk(g.im.recs[t.off])
    ensures t.off !in g.hands && t.off !in g.ls.free
    ensures forall o :: o in g.hands ==> t.ptroff != o
    ensures forall h :: 0 <= h < NHASH && h != ChainOf(op) ==> t.off !in g.ls.chains[h]
  {
    hide Locking, Owners, MidOk, DataOk, ContentsOk, LogOk, Procs, Hash, Blank, MidImage, InfoOk;
    var h := ChainOf(op);
    UnchainPtrs(g.im, s.f.iend, g.ls, g.hands.Keys, h, t.i);
    assert t.off in g.ls.chains[h];
    assert IsList(g.im.ptrs, FREE_OFF, g.ls.free) && Loc(FREE_OFF, g.ls.free, 0) == FREE_OFF;
    if t.i > 0 {
      assert g.ls.chains[h][t.i - 1] in g.ls.chains[h];
    }
    HandsNotHeads(s, g, h);
  }

  lemma HandsNotHeads(s: State, g: Ghost, h: nat)
    requires Inv(s, g) && h < NHASH
    ensures forall o :: o in g.hands ==> o != HeadLoc(h) && o != FREE_OFF
  {
    hide Locking, MidOk, DataOk, ContentsOk, LogOk, Procs, Hash, ListsOk, HandOf, PendOf, MidImage;
    forall o | o in g.hands
      ensures o != HeadLoc(h) && o != FREE_OFF
    {
      NotHead(g.im, s.f.iend, o, h);
    }
  }

  lemma UnlinkFiles(s: State, g: Ghost, s': State, p: nat, t: Target, fp: nat)
    requires Inv(s, g) && OnlyP(s.procs, s'.procs, p) && s.procs[p].pc == DelUnlink(t, fp) && s'.procs[p].pc == DelRel
    requires |g.ls.chains| == NHASH && Hit(g, s.procs[p].op, t) && fp == At(g.ls.free, 0)
    requires s'.f.im == SetPtr(s.f.im, t.ptroff, t.next) && s'.f.iend == s.f.iend
    ensures Unlinkable(g, s.procs[p].op, t)
    ensures var g' := Unlinked(g, p, s.procs[p].op, t);
            MidOk(s'.procs, g') && FilesOk(s'.f, g', s'.procs)
  {
    hide Locking, Owners, DataOk, ContentsOk, LogOk, Procs, Hash, ListsOk, Geometry, IsList, InfoOk;
    var op := s.procs[p].op;
    var h, g1 := ChainOf(op), g.im;
    HitFacts(s, g, op, t);
    DeleteOk(g.im, s.f.iend, g.ls, g.hands.Keys, h, t.i);
    SetRecGeometry(g.im, s.f.iend, t.off, fp, Blanked(g.im.recs[t.off]));
    UnlinkGeometry(g.im, s.f.iend, t.off, t.ptroff, t.next);
  }

  lemma UnlinkGeometry(im: Image, end: nat, o: nat, loc: nat, next: nat)
    requires Geometry(im, end) && o in im.recs && FREE_OFF in im.ptrs && loc in im.ptrs && InfoOk(im.recs[o])
    requires o <= PTR_MAX && next <= PTR_MAX && im.ptrs[FREE_OFF] <= PTR_MAX
    ensures Geometry(DeletedImage(im, o, loc, next), end)
  {
    hide Geometry, InfoOk;
    var im1 := SetRec(im, o, im.ptrs[FREE_OFF], Blanked(im.recs[o]));
    SetRecGeometry(im, end, o, im.ptrs[FREE_OFF], Blanked(im.recs[o]));
    SetPtrGeometry(im1, end, FREE_OFF, o);
    SetPtrGeometry(SetPtr(im1, FREE_OFF, o), end, loc, next);
  }

  /** What a deletion can be finished on. */
  ghost predicate Unlinkable(g: Ghost, op: Op, t: Target) {
    && |g.ls.chains| == NHASH && t.i < |g.ls.chains[ChainOf(op)]|
    && t.off in g.im.recs && t.off in g.im.ptrs && FREE_OFF in g.im.ptrs && t.ptroff in g.im.ptrs
  }

  lemma OwnersNearly(procs: seq<Proc>, procs': seq<Proc>, g: Ghost, g': Ghost, p: nat)
    requires Owners(procs, g) && OnlyP(procs, procs', p)
    requires HandOf(procs'[p].pc) == HandOf(procs[p].pc) && PendOf(procs'[p].pc) == PendOf(procs[p].pc)
    requires g'.hands == g.hands && g'.pend == g.pend && g'.im.recs.Keys == g.im.recs.Keys
    ensures Owners(procs', g')
  {
    hide HandOf, PendOf;
  }

  lemma DataNearly(f: Files, f': Files, g: Ghost, g': Ghost, o: nat)
    requires DataOk(f, g) && Nearly(g.im, g'.im, o) && f'.data == f.data && f'.dend == f.dend
    requires g'.own == g.own && g'.pend == g.pend && g'.dorder == g.dorder
    ensures DataOk(f', g')
  {
    hide TextsTile;
    forall x | x in g'.im.recs
      ensures RecData(f'.data, g'.own, g'.im.recs[x], x)
    {
      assert RecData(f.data, g.own, g.im.recs[x], x);
    }
  }

  lemma UnlinkOwners(s: State, g: Ghost, s': State, p: nat, t: Target)
    requires OnlyP(s.procs, s'.procs, p) && s.procs[p].pc.DelUnlink? && s'.procs[p].pc == DelRel
    requires Unlinkable(g, s.procs[p].op, t) && Owners(s.procs, g) && DataOk(s.f, g)
    requires s'.f.data == s.f.data && s'.f.dend == s.f.dend
    ensures Owners(s'.procs, Unlinked(g, p, s.procs[p].op, t)) && DataOk(s'.f, Unlinked(g, p, s.procs[p].op, t))
  {
    hide Hash, HandOf, PendOf, Unlinked, Owners, DataOk;
    var g' := Unlinked(g, p, s.procs[p].op, t);
    UnlinkedParts(g, p, s.procs[p].op, t);
    NoHand(s.procs[p].pc);
    NoHand(s'.procs[p].pc);
    OwnersNearly(s.procs, s'.procs, g, g', p);
    DataNearly(s.f, s'.f, g, g', t.off);
  }

  lemma NoHand(pc: Pc)
    requires pc.DelUnlink? || pc.DelRel?
    ensures HandOf(pc) == None && PendOf(pc) == None
  {
  }

  lemma UnlinkLive(g: Ghost, p: nat, op: Op, t: Target)
    requires Unlinkable(g, op, t) && LiveOk(g)
    requires op.key in g.at && g.at[op.key] == t.off && t.off !in g.ls.free && t.off !in g.hands
    ensures LiveOk(Unlinked(g, p, op, t))
  {
    hide Hash, Unlinked;
    var g' := Unlinked(g, p, op, t);
    UnlinkedParts(g, p, op, t);
    forall o | o in g'.im.recs && o !in g'.ls.free && o !in g'.hands
      ensures g'.im.recs[o].key in g'.at && g'.at[g'.im.recs[o].key] == o
    {
      assert o != t.off by { assert t.off in [t.off] + g.ls.free; }
      assert o !in g.ls.free;
    }
  }

  lemma UnlinkValues(s: State, g: Ghost, s': State, p: nat, t: Target, m: Contents, m': Contents)
    requires OnlyP(s.procs, s'.procs, p) && s.procs[p].pc.DelUnlink? && s.procs[p].pc.t == t && s'.f.data == s.f.data
    requires Unlinkable(g, s.procs[p].op, t) && MidOk(s.procs, g) && LiveOk(g) && ValuesOk(s.f, g, m, s.procs)
    requires s.procs[p].op.key in g.at && g.at[s.procs[p].op.key] == t.off
    requires m' == if s.procs[p].op.DeleteOp? then m - {s.procs[p].op.key} else m
    ensures ValuesOk(s'.f, Unlinked(g, p, s.procs[p].op, t), m', s'.procs)
  {
    hide Hash, Unlinked;
    var op := s.procs[p].op;
    var g' := Unlinked(g, p, op, t);
    UnlinkedParts(g, p, op, t);
    forall k | k in g'.at
      ensures HasText(s'.f, g', m', s'.procs, k)
    {
      assert HasText(s.f, g, m, s.procs, k);
      assert g.at[k] != t.off;
    }
  }

  lemma UnlinkContents(s: State, g: Ghost, s': State, p: nat, t: Target, m: Contents, m': Contents)
    requires OnlyP(s.procs, s'.procs, p) && s.procs[p].pc.DelUnlink? && s.procs[p].pc.t == t && s'.procs[p].pc == DelRel
    requires s'.procs[p].op == s.procs[p].op && (s.procs[p].op.DeleteOp? || s.procs[p].op.StoreOp?)
    requires Unlinkable(g, s.procs[p].op, t) && MidOk(s.procs, g) && ContentsOk(s.f, g, m, s.procs)
    requires s'.f.data == s.f.data
    requires s.procs[p].op.key in g.at && g.at[s.procs[p].op.key] == t.off && t.off !in g.ls.free && t.off !in g.hands
    requires m' == if s.procs[p].op.DeleteOp? then m - {s.procs[p].op.key} else m
    ensures ContentsOk(s'.f, Unlinked(g, p, s.procs[p].op, t), m', s'.procs)
  {
    hide Hash, Unlinked, LiveOk, ValuesOk, MidOk, Nearly;
    UnlinkLive(g, p, s.procs[p].op, t);
    UnlinkValues(s, g, s', p, t, m, m');
    UnlinkedParts(g, p, s.procs[p].op, t);
  }

  lemma UnlinkConfined(s: State, g: Ghost, s': State, p: nat, t: Target)
    requires Inv(s, g) && p < |s.procs| && Hit(g, s.procs[p].op, t) && Unlinkable(g, s.procs[p].op, t)
    requires s'.f.data == s.f.data
    requires Holds1(s.procs[p], ChainLock(ChainOf(s.procs[p].op))) && Holds1(s.procs[p], FreeLock)
    requires forall k :: k != s.procs[p].op.key ==> (k in LogMap(s.log) <==> k in LogMap(s'.log))
    ensures |Unlinked(g, p, s.procs[p].op, t).ls.chains| == NHASH
    ensures Confined(s, g, s', Unlinked(g, p, s.procs[p].op, t), p)
  {
    hide Inv, LogMap, Hash, InfoOk, Unlinked, Locking, Owners, MidOk, FilesOk, DataOk, ContentsOk, LogOk, Procs,
      Nearly, Hit;
    var op := s.procs[p].op;
    var h := ChainOf(op);
    HitFacts(s, g, op, t);
    var g' := Unlinked(g, p, op, t);
    UnlinkedParts(g, p, op, t);
    forall h' | 0 <= h' < NHASH && h' != h
      ensures ChainSame(g, g', h')
    {
      ListedRecords(s, g, h');
      NearlyOn(g.im, g'.im, t.off, g.ls.chains[h']);
    }
    HandRecords(s, g);
    HandsNotHeads(s, g, h);
    forall o | o in g.hands
      ensures RecordKeeps(s.f.data, g.im, s'.f.data, g'.im, o)
    {
      NearlyOn(g.im, g'.im, t.off, [o]);
    }
  }

  lemma NearlyOn(im: Image, im': Image, o: nat, list: seq<nat>)
    requires Nearly(im, im', o) && o !in list && forall x :: x in list ==> x in im.recs
    ensures forall x :: x in list ==> x in im'.recs && im'.recs[x] == im.recs[x]
    ensures im'.ptrs.Keys == im.ptrs.Keys
  {
  }

  lemma HandRecords(s: State, g: Ghost)
    requires Inv(s, g)
    ensures forall o :: o in g.hands ==> o in g.im.recs
  {
    hide Locking, MidOk, FilesOk, DataOk, ContentsOk, LogOk, Procs, HandOf, PendOf, LogMap;
  }

  lemma DelUnlinkShape(s: State, p: nat)
    requires p < |s.procs| && s.procs[p].pc.DelUnlink?
    ensures var op, t, s' := s.procs[p].op, s.procs[p].pc.t, Step(s, p);
            && MovesOn(s, s', p, DelRel) && s'.f == s.f.(im := SetPtr(s.f.im, t.ptroff, t.next))
            && s'.log == if op.DeleteOp? then s.log + [Event(p, op, Answer(Code(0)))] else s.log
  {
    hide Hash;
  }

  lemma DelUnlinkKnows(s: State, g: Ghost, p: nat)
    requires Inv(s, g) && p < |s.procs| && s.procs[p].pc.DelUnlink?
    ensures |g.ls.chains| == NHASH
    ensures var op, t := s.procs[p].op, s.procs[p].pc.t;
            && Hit(g, op, t) && s.procs[p].pc.freeptr == At(g.ls.free, 0)
            && (op.DeleteOp? || (op.StoreOp? && op.flag != DB_INSERT))
            && Holds1(s.procs[p], ChainLock(ChainOf(op))) && Holds1(s.procs[p], FreeLock)
  {
    hide Inv, LogMap, Hash, Hit;
    HeldIs(s, g, p);
  }

  lemma DelUnlinkOk(s: State, g: Ghost, p: nat) returns (g': Ghost)
    requires Inv(s, g) && p < |s.procs| && s.procs[p].pc.DelUnlink?
    ensures Inv(Step(s, p), g')
  {
    hide Inv, LogMap, Hash, Hit, Unlinked, Locking, Owners, MidOk, FilesOk, DataOk, ContentsOk, LogOk, Procs, Confined,
      InfoOk, Step, SetPtr, Nearly, HeldAt, Holds1;
    var op, t, s' := s.procs[p].op, s.procs[p].pc.t, Step(s, p);
    DelUnlinkKnows(s, g, p);
    HitFacts(s, g, op, t);
    ChainHit(s, g, op, t);
    Parts(s, g);
    g' := Unlinked(g, p, op, t);
    DelUnlinkShape(s, p);
    MovesLocking(s, s', p, DelRel);
    UnlinkLog(s, s', p);
    UnlinkFiles(s, g, s', p, t, s.procs[p].pc.freeptr);
    UnlinkOwners(s, g, s', p, t);
    UnlinkContents(s, g, s', p, t, LogMap(s.log), LogMap(s'.log));
    UnlinkConfined(s, g, s', p, t);
    UnlinkedParts(g, p, op, t);
    ConfinedOk(s, g, s', g', p);
  }

  lemma UnlinkLog(s: State, s': State, p: nat)
    requires LogOk(s) && MovesOn(s, s', p, DelRel) && s.procs[p].pc.DelUnlink?
    requires s.procs[p].op.DeleteOp? || s.procs[p].op.StoreOp?
    requires s.procs[p].op.key in LogMap(s.log)
    requires s'.log == if s.procs[p].op.DeleteOp? then s.log + [Event(p, s.procs[p].op, Answer(Code(0)))] else s.log
    ensures LogOk(s')
    ensures LogMap(s'.log) == if s.procs[p].op.DeleteOp? then LogMap(s.log) - {s.procs[p].op.key} else LogMap(s.log)
  {
    hide HeldAt, EffectsOf, Legal, LogMap;
    if s.procs[p].op.DeleteOp? {
      LogMore(s, s', p, Event(p, s.procs[p].op, Answer(Code(0))));
    } else {
      MovesLog(s, s', p, DelRel);
    }
  }
}
