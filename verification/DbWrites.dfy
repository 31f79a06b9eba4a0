/** Program point by program point: the steps that write to the files. */
module DbWrites {
  import opened Common
  import opened DbFormat
  import opened DbLists
  import opened DbFile
  import opened DbState
  import opened DbLibrary
  import opened DbRuns
  import opened DbProcesses
  import opened DbSharing
  import opened DbInterleaving
  import opened DbSteps

  // ---------------------------------------------------------------- one process moves on

  /** The process goes to another program point where it holds the same locks. */
  ghost predicate MovesOn(s: State, s': State, p: nat, pc: Pc) {
    && p < |s.procs| && s'.procs == s.procs[p := s.procs[p].(pc := pc)]
    && HeldAt(pc, s.procs[p].op) == HeldAt(s.procs[p].pc, s.procs[p].op)
  }

  lemma MovesLocking(s: State, s': State, p: nat, pc: Pc)
    requires Locking(s) && MovesOn(s, s', p, pc)
    ensures Locking(s') && OnlyP(s.procs, s'.procs, p)
  {
    hide HeldAt, OpValid, Compatible;
    forall a, b | 0 <= a < |s'.procs| && 0 <= b < |s'.procs| && a != b
      ensures Compatible(s'.procs[a].held, s'.procs[b].held)
    {
      assert s'.procs[a].held == s.procs[a].held && s'.procs[b].held == s.procs[b].held;
    }
  }

  lemma MovesLog(s: State, s': State, p: nat, pc: Pc)
    requires LogOk(s) && MovesOn(s, s', p, pc) && s'.log == s.log
    requires Pending(pc, s.procs[p].op) == Pending(s.procs[p].pc, s.procs[p].op)
    ensures LogOk(s')
  {
    hide HeldAt, Pending, EffectsOf, Legal;
  }

  /** A db_store that goes ahead sets the key. */
  lemma StoreEffect(s: State, s': State, p: nat, pc: Pc)
    requires LogOk(s) && MovesOn(s, s', p, pc) && s'.log == s.log + [Event(p, s.procs[p].op, Answer(Code(0)))]
    requires OpValid(s.procs[p].op) && s.procs[p].op.StoreOp?
    requires Pending(s.procs[p].pc, s.procs[p].op) == [] && pc == Finish(Answer(Code(0)))
    requires var op, m := s.procs[p].op, LogMap(s.log);
             (op.key in m ==> op.flag != DB_INSERT) && (op.key !in m ==> op.flag != DB_REPLACE)
    ensures LogOk(s') && LogMap(s'.log) == LogMap(s.log)[s.procs[p].op.key := s.procs[p].op.data]
  {
    hide HeldAt, EffectsOf, Legal, LogMap;
    LogMore(s, s', p, Event(p, s.procs[p].op, Answer(Code(0))));
  }

  // ---------------------------------------------------------------- overwriting a text

  /** The text of record o is replaced by one of the same length. */
  ghost predicate TextChange(s: State, g: Ghost, s': State, o: nat, v: string) {
    && o in g.im.recs && |v| + 1 == g.im.recs[o].datlen
    && s'.f == s.f.(data := s.f.data[g.im.recs[o].datoff := v])
  }

  lemma {:induction false} TilesKept(data: map<nat, string>, data': map<nat, string>, dorder: seq<nat>, dend: nat)
    requires TextsTile(data, dorder, dend) && data'.Keys == data.Keys
    requires forall d :: d in data ==> |data'[d]| == |data[d]|
    ensures TextsTile(data', dorder, dend)
  {
    forall i | 0 <= i < |dorder|
      ensures TextFills(data', dorder, dend, i)
    {
      assert TextFills(data, dorder, dend, i);
    }
  }

  lemma TextData(s: State, g: Ghost, s': State, o: nat, v: string)
    requires DataOk(s.f, g) && TextChange(s, g, s', o, v)
    ensures DataOk(s'.f, g)
    ensures TextIn(s'.f, g.im.recs[o].datoff) == v
    ensures forall o' :: o' in g.im.recs && o' != o ==>
              && g.im.recs[o'].datoff != g.im.recs[o].datoff
              && TextIn(s'.f, g.im.recs[o'].datoff) == TextIn(s.f, g.im.recs[o'].datoff)
  {
    assert RecData(s.f.data, g.own, g.im.recs[o], o);
    TilesKept(s.f.data, s'.f.data, g.dorder, s.f.dend);
    forall o' | o' in g.im.recs
      ensures RecData(s'.f.data, g.own, g.im.recs[o'], o')
    {
      assert RecData(s.f.data, g.own, g.im.recs[o'], o');
    }
  }

  /** No process but the one that has the record to itself can tell. */
  lemma TextViews(s: State, g: Ghost, s': State, g': Ghost, p: nat, o: nat, v: string)
    requires Inv(s, g) && TextChange(s, g, s', o, v)
    requires g' == g.(mid := g'.mid)
    requires o in g.hands ==> g.hands[o] == p
    requires forall k :: k in LogMap(s.log) <==> k in LogMap(s'.log)
    ensures forall q :: 0 <= q < |s.procs| && q != p ==>
              SameView(s.f.data, g, LogMap(s.log), s'.f.data, g', LogMap(s'.log), s.procs[q])
  {
    hide Inv, LogMap;
    Parts(s, g);
    forall q | 0 <= q < |s.procs| && q != p
      ensures SameView(s.f.data, g, LogMap(s.log), s'.f.data, g', LogMap(s'.log), s.procs[q])
    {
      TextView(s, g, s', g', p, o, v, q);
    }
  }

  lemma TextView(s: State, g: Ghost, s': State, g': Ghost, p: nat, o: nat, v: string, q: nat)
    requires Inv(s, g) && TextChange(s, g, s', o, v)
    requires g' == g.(mid := g'.mid) && q < |s.procs| && q != p
    requires o in g.hands ==> g.hands[o] == p
    requires forall k :: k in LogMap(s.log) <==> k in LogMap(s'.log)
    ensures SameView(s.f.data, g, LogMap(s.log), s'.f.data, g', LogMap(s'.log), s.procs[q])
  {
    hide LogMap, Locking, MidOk, FilesOk, ContentsOk, LogOk, Procs, Hash, TextsTile, HandOf, PendOf, HeldAt, RecData;
    var pq := s.procs[q];
    ListedRecords(s, g, ChainOf(pq.op));
    OwnText(s.f.data, g, o);
    if HandOf(pq.pc).Some? {
      var x := HandOf(pq.pc).value;
      assert x in g.hands && g.hands[x] == q;
      OwnText(s.f.data, g, x);
    }
  }

  lemma OwnText(data: map<nat, string>, g: Ghost, o: nat)
    requires o in g.im.recs && (forall x :: x in g.im.recs ==> RecData(data, g.own, g.im.recs[x], x))
    ensures var d := g.im.recs[o].datoff; d in g.own && g.own[d] == o && d in data
  {
    assert RecData(data, g.own, g.im.recs[o], o);
  }

  lemma ListedRecords(s: State, g: Ghost, h: nat)
    requires Inv(s, g) && h < NHASH
    ensures forall o :: o in g.ls.chains[h] ==> o in g.im.recs
    ensures forall o :: o in g.ls.free ==> o in g.im.recs
  {
    hide LogMap, Locking, MidOk, Geometry, ContentsOk, LogOk, Procs, IsList, Hash, Blank, MidImage, Owners, DataOk;
  }

  /** After a text changed: what is left is the map's side. */
  lemma TextOk(s: State, g: Ghost, s': State, g': Ghost, p: nat, o: nat, v: string)
    requires Inv(s, g) && TextChange(s, g, s', o, v) && OnlyP(s.procs, s'.procs, p)
    requires g' == g.(mid := g'.mid) && (o in g.hands ==> g.hands[o] == p)
    requires forall k :: k in LogMap(s.log) <==> k in LogMap(s'.log)
    requires HandOf(s'.procs[p].pc) == HandOf(s.procs[p].pc) && PendOf(s'.procs[p].pc) == PendOf(s.procs[p].pc)
    requires Locking(s') && LogOk(s') && MidOk(s'.procs, g') && FilesOk(s'.f, g', s'.procs)
    requires ContentsOk(s'.f, g', LogMap(s'.log), s'.procs)
    requires ProcOk(s'.f.data, g', LogMap(s'.log), s'.procs[p])
    ensures Inv(s', g')
  {
    hide LogMap, TextChange, ProcOk, Locking, LogOk, MidOk, FilesOk, ContentsOk, Procs, Owners, DataOk, HandOf, PendOf,
      SameView;
    TextData(s, g, s', o, v);
    TextViews(s, g, s', g', p, o, v);
    OwnersKept(s.procs, s'.procs, g, p);
    MidAside(s'.procs, s'.f, g, g');
    ProcsKept(s, g, s', g', p);
  }

  /** Owners and data do not depend on who is deleting. */
  lemma MidAside(procs: seq<Proc>, f: Files, g: Ghost, g': Ghost)
    requires g' == g.(mid := g'.mid) && Owners(procs, g) && DataOk(f, g)
    ensures Owners(procs, g') && DataOk(f, g')
  {
  }

  // ---------------------------------------------------------------- db_store over the same size

  lemma OverContents(s: State, g: Ghost, s': State, p: nat, t: Target, v: string)
    requires Inv(s, g) && OnlyP(s.procs, s'.procs, p) && s.procs[p].pc == Over(t) && s.procs[p].op.StoreOp?
    requires Hit(g, s.procs[p].op, t) && TextChange(s, g, s', t.off, v)
    requires LogMap(s'.log) == LogMap(s.log)[s.procs[p].op.key := v]
    requires s.procs[p].op.key in g.at && g.at[s.procs[p].op.key] == t.off
    ensures ContentsOk(s'.f, g, LogMap(s'.log), s'.procs)
  {
    hide LogMap, Locking, ListsOk, Geometry, LogOk, Procs, IsList, Hash, MidImage, FilesOk, Owners, DataOk, TextIn,
      TextChange;
    var key := s.procs[p].op.key;
    TextData(s, g, s', t.off, v);
    forall k | k in g.at
      ensures HasText(s'.f, g, LogMap(s'.log), s'.procs, k)
    {
      assert HasText(s.f, g, LogMap(s.log), s.procs, k);
      assert Blanking(s.procs, g, g.at[k]) ==> Blanking(s'.procs, g, g.at[k]);
      if k != key {
        assert g.at[k] != t.off;
      }
    }
  }

  lemma OverOk(s: State, g: Ghost, p: nat)
    requires Inv(s, g) && p < |s.procs| && s.procs[p].pc.Over?
    ensures Inv(Step(s, p), g)
  {
    hide Inv, Hash, LogMap, Hit, LogOk, Locking, MidOk, FilesOk, ContentsOk, TextIn, Owners, DataOk, Procs;
    var op, t, s' := s.procs[p].op, s.procs[p].pc.t, Step(s, p);
    HeldIs(s, g, p);
    ChainHit(s, g, op, t);
    HitInfo(g, op, t);
    Parts(s, g);
    var pc := Finish(Answer(Code(0)));
    MovesLocking(s, s', p, pc);
    StoreEffect(s, s', p, pc);
    OverRest(s, g, s', p);
  }

  lemma OverRest(s: State, g: Ghost, s': State, p: nat)
    requires Inv(s, g) && Locking(s') && LogOk(s') && OnlyP(s.procs, s'.procs, p)
    requires s.procs[p].pc.Over? && s'.procs[p].pc.Finish? && s.procs[p].op.StoreOp?
    requires Hit(g, s.procs[p].op, s.procs[p].pc.t)
    requires s.procs[p].op.key in g.at && g.at[s.procs[p].op.key] == s.procs[p].pc.t.off
    requires s.procs[p].pc.t.off !in g.hands && s.procs[p].op.key in LogMap(s.log)
    requires TextChange(s, g, s', s.procs[p].pc.t.off, s.procs[p].op.data)
    requires LogMap(s'.log) == LogMap(s.log)[s.procs[p].op.key := s.procs[p].op.data]
    ensures Inv(s', g)
  {
    hide Inv, Hash, LogMap, Hit, LogOk, Locking, MidOk, FilesOk, ContentsOk, TextIn, Owners, DataOk, Procs, TextChange,
      HeldAt;
    var op, t := s.procs[p].op, s.procs[p].pc.t;
    Parts(s, g);
    MidKept(s.procs, s'.procs, g, p);
    IndexKept(s, g, s', t.off, op.data);
    FilesAside(s, g, s', p);
    OverContents(s, g, s', p, t, op.data);
    TextOk(s, g, s', g, p, t.off, op.data);
  }

  lemma IndexKept(s: State, g: Ghost, s': State, o: nat, v: string)
    requires TextChange(s, g, s', o, v)
    ensures s'.f.im == s.f.im && s'.f.iend == s.f.iend
  {
  }

  lemma HitInfo(g: Ghost, op: Op, t: Target)
    requires |g.ls.chains| == NHASH && Hit(g, op, t)
    ensures t.off in g.im.recs && g.im.recs[t.off] == t.info && t.info.key == op.key
  {
  }

  lemma Parts(s: State, g: Ghost)
    requires Inv(s, g)
    ensures |g.ls.chains| == NHASH && Locking(s) && MidOk(s.procs, g) && FilesOk(s.f, g, s.procs)
    ensures Owners(s.procs, g) && DataOk(s.f, g) && ContentsOk(s.f, g, LogMap(s.log), s.procs) && LogOk(s)
    ensures Procs(s, g)
  {
  }

  /** A process outside _db_dodelete that leaves the index alone leaves it in order. */
  lemma FilesAside(s: State, g: Ghost, s': State, p: nat)
    requires MidOk(s.procs, g) && FilesOk(s.f, g, s.procs) && OnlyP(s.procs, s'.procs, p) && !InMid(s.procs[p].pc)
    requires s'.f.im == s.f.im && s'.f.iend == s.f.iend
    ensures FilesOk(s'.f, g, s'.procs)
  {
    hide Geometry, ListsOk;
  }

  // ---------------------------------------------------------------- refilling a free record's text

  lemma ReuseContents(s: State, g: Ghost, s': State, p: nat, o: nat, v: string)
    requires Inv(s, g) && p < |s.procs| && o in g.hands && !InMid(s.procs[p].pc)
    requires !Replacing(s.procs[p].pc, s.procs[p].op)
    requires TextChange(s, g, s', o, v) && OnlyP(s.procs, s'.procs, p) && s'.log == s.log
    ensures ContentsOk(s'.f, g, LogMap(s'.log), s'.procs)
  {
    hide LogMap, Locking, ListsOk, Geometry, LogOk, Procs, IsList, Hash, MidImage, FilesOk, Owners, DataOk, TextIn,
      TextChange, Replacing;
    TextData(s, g, s', o, v);
    forall k | k in g.at
      ensures HasText(s'.f, g, LogMap(s'.log), s'.procs, k)
    {
      assert HasText(s.f, g, LogMap(s.log), s.procs, k);
      assert Blanking(s.procs, g, g.at[k]) ==> Blanking(s'.procs, g, g.at[k]);
      assert g.at[k] != o;
    }
  }

  lemma HandIs(s: State, g: Ghost, p: nat)
    requires Inv(s, g) && p < |s.procs|
    ensures HandOf(s.procs[p].pc).Some? ==>
              var o := HandOf(s.procs[p].pc).value; o in g.hands && g.hands[o] == p && o in g.im.recs
    ensures PendOf(s.procs[p].pc).Some? ==>
              var d := PendOf(s.procs[p].pc).value; d in g.pend && g.pend[d] == p
  {
    hide LogMap, Locking, MidOk, FilesOk, DataOk, ContentsOk, LogOk, Procs, HandOf, PendOf;
  }

  lemma ReuseDatShape(s: State, g: Ghost, p: nat)
    requires p < |s.procs| && s.procs[p].pc.ReuseDat?
    requires var pc := s.procs[p].pc;
             pc.off in g.im.recs && g.im.recs[pc.off] == pc.info && Fits(s.procs[p].op, pc.info)
    ensures var pc, s' := s.procs[p].pc, Step(s, p);
            && MovesOn(s, s', p, ReuseIdx(pc.head, pc.off, pc.info)) && s'.log == s.log
            && TextChange(s, g, s', pc.off, DataOf(s.procs[p].op))
            && pc.info.datoff in s'.f.data && s'.f.data[pc.info.datoff] == DataOf(s.procs[p].op)
  {
    hide Hash;
  }

  lemma ReuseDatKnows(s: State, g: Ghost, p: nat)
    requires Inv(s, g) && p < |s.procs| && s.procs[p].pc.ReuseDat?
    ensures |g.ls.chains| == NHASH && ProcOk(s.f.data, g, LogMap(s.log), s.procs[p])
    ensures var pc := s.procs[p].pc;
            && pc.off in g.im.recs && g.im.recs[pc.off] == pc.info && Fits(s.procs[p].op, pc.info)
            && pc.off in g.hands && g.hands[pc.off] == p
  {
    hide Inv, Hash, LogMap, Clear, HeadIs;
    HeldIs(s, g, p);
    HandIs(s, g, p);
  }

  lemma ReuseDatMine(s: State, g: Ghost, s': State, p: nat)
    requires p < |s.procs| && s.procs[p].pc.ReuseDat? && |g.ls.chains| == NHASH
    requires ProcOk(s.f.data, g, LogMap(s.log), s.procs[p]) && s'.log == s.log
    requires var pc := s.procs[p].pc;
             && s'.procs == s.procs[p := s.procs[p].(pc := ReuseIdx(pc.head, pc.off, pc.info))]
             && pc.info.datoff in s'.f.data && s'.f.data[pc.info.datoff] == DataOf(s.procs[p].op)
    ensures ProcOk(s'.f.data, g, LogMap(s'.log), s'.procs[p])
  {
    hide Hash, LogMap, Clear, HeadIs;
  }

  lemma ReuseDatOk(s: State, g: Ghost, p: nat)
    requires Inv(s, g) && p < |s.procs| && s.procs[p].pc.ReuseDat? && Enabled(s, p)
    ensures Inv(Step(s, p), g)
  {
    hide Inv, Hash, LogMap, LogOk, Locking, MidOk, FilesOk, ContentsOk, TextIn, Owners, DataOk, Procs, Step, HeldAt,
      TextChange, Enabled, ProcOk, Fits;
    var pc, s' := s.procs[p].pc, Step(s, p);
    ReuseDatKnows(s, g, p);
    Parts(s, g);
    ReuseDatShape(s, g, p);
    ReuseDatMine(s, g, s', p);
    MovesLocking(s, s', p, ReuseIdx(pc.head, pc.off, pc.info));
    MovesLog(s, s', p, ReuseIdx(pc.head, pc.off, pc.info));
    ReuseRest(s, g, s', p);
  }

  lemma ReuseRest(s: State, g: Ghost, s': State, p: nat)
    requires Inv(s, g) && Locking(s') && LogOk(s') && OnlyP(s.procs, s'.procs, p) && s'.log == s.log
    requires s.procs[p].pc.ReuseDat? && s'.procs[p].pc.ReuseIdx? && HandOf(s'.procs[p].pc) == HandOf(s.procs[p].pc)
    requires s.procs[p].pc.off in g.hands && g.hands[s.procs[p].pc.off] == p
    requires TextChange(s, g, s', s.procs[p].pc.off, DataOf(s.procs[p].op))
    requires |g.ls.chains| == NHASH && ProcOk(s'.f.data, g, LogMap(s'.log), s'.procs[p])
    ensures Inv(s', g)
  {
    hide Inv, Hash, LogMap, LogOk, Locking, MidOk, FilesOk, ContentsOk, TextIn, Owners, DataOk, Procs, TextChange,
      ProcOk, HeldAt;
    var op, o := s.procs[p].op, s.procs[p].pc.off;
    Parts(s, g);
    MidKept(s.procs, s'.procs, g, p);
    IndexKept(s, g, s', o, DataOf(op));
    FilesAside(s, g, s', p);
    ReuseContents(s, g, s', p, o, DataOf(op));
    TextOk(s, g, s', g, p, o, DataOf(op));
  }

  // ---------------------------------------------------------------- _db_dodelete

  lemma DelDataContents(s: State, g: Ghost, s': State, g': Ghost, p: nat, t: Target, v: string)
    requires Inv(s, g) && OnlyP(s.procs, s'.procs, p) && s.procs[p].pc == DelData(t) && s'.procs[p].pc == DelFree(t)
    requires TextChange(s, g, s', t.off, v) && s'.log == s.log
    requires g.mid == None && g' == g.(mid := Some(p))
    ensures ContentsOk(s'.f, g', LogMap(s'.log), s'.procs)
  {
    hide LogMap, Locking, LogOk, Procs, FilesOk, Owners, DataOk, TextIn, TextChange, MidOk, Replacing;
    TextData(s, g, s', t.off, v);
    assert Replacing(s.procs[p].pc, s.procs[p].op) == false by { NotReplacing(s.procs[p].pc, s.procs[p].op, t); }
    forall k | k in g'.at
      ensures HasText(s'.f, g', LogMap(s'.log), s'.procs, k)
    {
      assert HasText(s.f, g, LogMap(s.log), s.procs, k);
      if g.at[k] != t.off {
        assert !Blanking(s.procs, g, g.at[k]);
      }
    }
  }

  lemma NotReplacing(pc: Pc, op: Op, t: Target)
    requires pc == DelData(t)
    ensures !Replacing(pc, op)
  {
  }

  lemma MidBegins(s: State, g: Ghost, s': State, g': Ghost, p: nat, t: Target)
    requires MidOk(s.procs, g) && FilesOk(s.f, g, s.procs) && OnlyP(s.procs, s'.procs, p)
    requires s'.procs[p].pc == DelFree(t) && g.mid == None && g' == g.(mid := Some(p))
    requires s'.f.im == s.f.im && s'.f.iend == s.f.iend
    ensures MidOk(s'.procs, g') && FilesOk(s'.f, g', s'.procs)
  {
    hide Geometry, ListsOk;
  }

  lemma DelDataOk(s: State, g: Ghost, p: nat) returns (g': Ghost)
    requires Inv(s, g) && p < |s.procs| && s.procs[p].pc.DelData?
    ensures Inv(Step(s, p), g')
  {
    hide Inv, Hash, LogMap, LogOk, Locking, MidOk, FilesOk, ContentsOk, TextIn, Hit, Owners, DataOk, Procs;
    var op, t, s' := s.procs[p].op, s.procs[p].pc.t, Step(s, p);
    HeldIs(s, g, p);
    FreeHeld(s, g, p);
    ChainHit(s, g, op, t);
    HitInfo(g, op, t);
    Parts(s, g);
    InfoAt(s, g, t.off);
    g' := g.(mid := Some(p));
    LockingKept(s, s', p);
    LogSame(s, s', p);
    MidBegins(s, g, s', g', p, t);
    DelDataContents(s, g, s', g', p, t, Spaces(t.info.datlen - 1));
    HitAside(g, g', op, t);
    TextOk(s, g, s', g', p, t.off, Spaces(t.info.datlen - 1));
  }

  lemma HitAside(g: Ghost, g': Ghost, op: Op, t: Target)
    requires |g.ls.chains| == NHASH && g' == g.(mid := g'.mid) && Hit(g, op, t)
    ensures Hit(g', op, t)
  {
  }

  lemma InfoAt(s: State, g: Ghost, o: nat)
    requires Inv(s, g) && o in g.im.recs
    ensures InfoOk(g.im.recs[o])
  {
    hide Locking, MidOk, ListsOk, Owners, DataOk, ContentsOk, LogOk, Procs, LogMap, InfoOk, Tiled;
  }

  /** Blanking the record, then pointing the free list at it: nobody else looks there. */
  lemma DelIndexOk(s: State, g: Ghost, p: nat)
    requires Inv(s, g) && p < |s.procs| && (s.procs[p].pc.DelIdx? || s.procs[p].pc.DelPush?)
    ensures Inv(Step(s, p), g)
  {
    hide Inv, Hash, LogMap, LogOk, Locking, ContentsOk, TextIn, DelOk, Geometry, ListsOk, Owners, DataOk;
    var s' := Step(s, p);
    HeldIs(s, g, p);
    Parts(s, g);
    LockingKept(s, s', p);
    LogSame(s, s', p);
    assert MidOk(s'.procs, g) && FilesOk(s'.f, g, s'.procs) by {
      FreeHeld(s, g, p);
      MidKept(s.procs, s'.procs, g, p);
    }
    OwnersKept(s.procs, s'.procs, g, p);
    DelIndexContents(s, g, s', p);
    SameViews(s, g, s', p);
    ProcsKept(s, g, s', g, p);
    Whole(s', g);
  }

  lemma Whole(s: State, g: Ghost)
    requires |g.ls.chains| == NHASH && Locking(s) && MidOk(s.procs, g) && FilesOk(s.f, g, s.procs)
    requires Owners(s.procs, g) && DataOk(s.f, g) && ContentsOk(s.f, g, LogMap(s.log), s.procs) && LogOk(s)
    requires Procs(s, g)
    ensures Inv(s, g)
  {
  }

  lemma MidNotReplacing(pc: Pc, op: Op)
    requires InMid(pc)
    ensures !Replacing(pc, op)
  {
  }

  lemma DelIndexContents(s: State, g: Ghost, s': State, p: nat)
    requires Inv(s, g) && OnlyP(s.procs, s'.procs, p) && s'.f.data == s.f.data && s'.f.dend == s.f.dend
    requires s'.log == s.log
    requires InMid(s.procs[p].pc) && InMid(s'.procs[p].pc) && s'.procs[p].pc.t == s.procs[p].pc.t
    ensures ContentsOk(s'.f, g, LogMap(s'.log), s'.procs) && DataOk(s'.f, g)
  {
    hide LogMap, Locking, LogOk, Procs, MidOk, FilesOk, Owners, TextsTile, Replacing, RecData;
    assert Replacing(s.procs[p].pc, s.procs[p].op) == false by { MidNotReplacing(s.procs[p].pc, s.procs[p].op); }
    forall k | k in g.at
      ensures HasText(s'.f, g, LogMap(s'.log), s'.procs, k)
    {
      assert HasText(s.f, g, LogMap(s.log), s.procs, k);
      assert Blanking(s.procs, g, g.at[k]) ==> Blanking(s'.procs, g, g.at[k]);
    }
  }
}
