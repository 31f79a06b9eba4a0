/** Each kind of step keeps the invariant: first the steps that only read or lock, then
    those that write. */
module DbInterleaving {
  import opened Common
  import opened DbFormat
  import opened DbLists
  import opened DbFile
  import opened DbState
  import opened DbLibrary
  import opened DbRuns
  import opened DbProcesses
  import opened DbSharing

  // ---------------------------------------------------------------- locks

  lemma HeldLocksOk(pc: Pc, op: Op, l: Lock)
    requires l in HeldAt(pc, op)
    ensures LockOk(l)
  {
    hide Hash;
  }

  lemma ReleasedIs(pc: Pc, op: Op, l: Lock)
    requires LockOk(l)
    ensures Released(HeldAt(pc, op), l) == HeldAt(pc, op) - {l}
  {
    hide HeldAt, RangeOf, Overlap;
    var held := HeldAt(pc, op);
    forall x | x in held
      ensures x in Released(held, l) <==> x != l
    {
      HeldLocksOk(pc, op, x);
      LocksApart(x, l);
    }
  }

  /** A granted lock conflicts with nobody's. */
  lemma Granted(s: State, p: nat, l: Lock, mode: Mode, q: nat)
    requires Locking(s) && p < |s.procs| && q < |s.procs| && p != q && LockOk(l)
    requires CanLock(s, p, l, mode)
    ensures Compatible(s.procs[p].held[l := mode], s.procs[q].held)
    ensures Compatible(s.procs[q].held, s.procs[p].held[l := mode])
  {
    hide HeldAt, RangeOf, Overlap;
    LocksApart(l, l);
    assert Compatible(s.procs[p].held, s.procs[q].held);
  }

  /** While one process holds a lock exclusively, no other holds it. */
  lemma Alone(s: State, p: nat, l: Lock, q: nat)
    requires Locking(s) && p < |s.procs| && q < |s.procs| && p != q
    requires l in s.procs[p].held && s.procs[p].held[l] == Exclusive
    ensures l !in s.procs[q].held
  {
    assert Compatible(s.procs[p].held, s.procs[q].held);
  }

  // ---------------------------------------------------------------- pieces of the invariant

  ghost predicate OnlyP(procs: seq<Proc>, procs': seq<Proc>, p: nat) {
    && p < |procs| && |procs'| == |procs|
    && forall q :: 0 <= q < |procs| && q != p ==> procs'[q] == procs[q]
  }

  lemma LockingKept(s: State, s': State, p: nat)
    requires Locking(s) && OnlyP(s.procs, s'.procs, p)
    requires s'.procs[p].held == HeldAt(s'.procs[p].pc, s'.procs[p].op) && OpValid(s'.procs[p].op)
    requires forall l :: l in s'.procs[p].held ==> l in s.procs[p].held && s'.procs[p].held[l] == s.procs[p].held[l]
    ensures Locking(s')
  {
    hide HeldAt, OpValid;
    forall a, b | 0 <= a < |s'.procs| && 0 <= b < |s'.procs| && a != b
      ensures Compatible(s'.procs[a].held, s'.procs[b].held)
    {
      assert Compatible(s.procs[a].held, s.procs[b].held);
    }
  }

  lemma LockingGrows(s: State, s': State, p: nat, l: Lock, mode: Mode)
    requires Locking(s) && OnlyP(s.procs, s'.procs, p) && LockOk(l) && CanLock(s, p, l, mode)
    requires s'.procs[p].held == HeldAt(s'.procs[p].pc, s'.procs[p].op) == s.procs[p].held[l := mode]
    requires OpValid(s'.procs[p].op)
    ensures Locking(s')
  {
    hide HeldAt, OpValid, CanLock, Compatible;
    forall a, b | 0 <= a < |s'.procs| && 0 <= b < |s'.procs| && a != b
      ensures Compatible(s'.procs[a].held, s'.procs[b].held)
    {
      if a == p {
        Granted(s, p, l, mode, b);
      } else if b == p {
        Granted(s, p, l, mode, a);
      }
    }
  }

  lemma MidKept(procs: seq<Proc>, procs': seq<Proc>, g: Ghost, p: nat)
    requires MidOk(procs, g) && OnlyP(procs, procs', p)
    requires InMid(procs'[p].pc) == InMid(procs[p].pc)
    ensures MidOk(procs', g)
  {
  }

  lemma OwnersKept(procs: seq<Proc>, procs': seq<Proc>, g: Ghost, p: nat)
    requires Owners(procs, g) && OnlyP(procs, procs', p)
    requires HandOf(procs'[p].pc) == HandOf(procs[p].pc) && PendOf(procs'[p].pc) == PendOf(procs[p].pc)
    ensures Owners(procs', g)
  {
    hide HandOf, PendOf;
  }

  lemma ProcsKept(s: State, g: Ghost, s': State, g': Ghost, p: nat)
    requires |g.ls.chains| == NHASH && |g'.ls.chains| == NHASH
    requires Locking(s) && Procs(s, g) && OnlyP(s.procs, s'.procs, p)
    requires ProcOk(s'.f.data, g', LogMap(s'.log), s'.procs[p])
    requires forall q :: 0 <= q < |s.procs| && q != p ==>
               SameView(s.f.data, g, LogMap(s.log), s'.f.data, g', LogMap(s'.log), s.procs[q])
    ensures Procs(s', g')
  {
    hide ProcOk, SameView, HeldAt, LogMap, OpValid;
    forall q | 0 <= q < |s'.procs|
      ensures ProcOk(s'.f.data, g', LogMap(s'.log), s'.procs[q])
    {
      if q != p {
        ViewKeepsProc(s.f.data, g, LogMap(s.log), s'.f.data, g', LogMap(s'.log), s.procs[q]);
      }
    }
  }

  lemma LogSame(s: State, s': State, p: nat)
    requires LogOk(s) && OnlyP(s.procs, s'.procs, p) && s'.log == s.log
    requires s'.procs[p].done + Pending(s'.procs[p].pc, s'.procs[p].op)
             == s.procs[p].done + Pending(s.procs[p].pc, s.procs[p].op)
    ensures LogOk(s')
  {
    hide Pending, EffectsOf, Legal;
  }

  /** A new effect, answered as the map answers it. */
  lemma LogMore(s: State, s': State, p: nat, e: Event)
    requires LogOk(s) && OnlyP(s.procs, s'.procs, p) && s'.log == s.log + [e] && e.pid == p
    requires RightAnswer(LogMap(s.log), e)
    requires Pending(s.procs[p].pc, s.procs[p].op) == []
    requires s'.procs[p].done + Pending(s'.procs[p].pc, s'.procs[p].op) == s.procs[p].done + [(e.op, e.result)]
    ensures LogOk(s') && LogMap(s'.log) == Effect(LogMap(s.log), e)
  {
    hide Pending, EffectsOf, Legal, RightAnswer, LogMap, Effect;
    LogGrows(s.log, e);
  }

  // ---------------------------------------------------------------- steps that touch no file

  /** Only the process itself changes, and perhaps the log, but not the map. */
  ghost predicate LocalChange(s: State, g: Ghost, s': State, p: nat) {
    && s'.f == s.f && OnlyP(s.procs, s'.procs, p)
    && HandOf(s'.procs[p].pc) == HandOf(s.procs[p].pc) && PendOf(s'.procs[p].pc) == PendOf(s.procs[p].pc)
    && InMid(s'.procs[p].pc) == InMid(s.procs[p].pc)
    && (InMid(s.procs[p].pc) ==>
          MidImage(g.im, s'.procs[p].pc) == MidImage(g.im, s.procs[p].pc) && s'.procs[p].pc.t == s.procs[p].pc.t)
    && (Replacing(s.procs[p].pc, s.procs[p].op) ==>
          Replacing(s'.procs[p].pc, s'.procs[p].op) && s'.procs[p].op == s.procs[p].op)
    && LogMap(s'.log) == LogMap(s.log)
  }

  lemma LocalFiles(s: State, g: Ghost, s': State, p: nat)
    requires Inv(s, g) && LocalChange(s, g, s', p)
    ensures MidOk(s'.procs, g) && FilesOk(s'.f, g, s'.procs)
  {
    hide Geometry, ListsOk, Owners, DataOk, ContentsOk, LogOk, Procs, Locking, HandOf, PendOf, Replacing;
    MidKept(s.procs, s'.procs, g, p);
  }

  lemma LocalContents(s: State, g: Ghost, s': State, p: nat)
    requires Inv(s, g) && LocalChange(s, g, s', p)
    ensures ContentsOk(s'.f, g, LogMap(s'.log), s'.procs)
  {
    hide Geometry, ListsOk, Owners, DataOk, LogOk, Procs, Locking, HandOf, PendOf, Replacing, MidImage, FilesOk;
    forall k | k in g.at
      ensures HasText(s'.f, g, LogMap(s'.log), s'.procs, k)
    {
      assert HasText(s.f, g, LogMap(s.log), s.procs, k);
      assert Blanking(s.procs, g, g.at[k]) ==> Blanking(s'.procs, g, g.at[k]);
    }
  }

  lemma LocalOk(s: State, g: Ghost, s': State, p: nat)
    requires Inv(s, g) && LocalChange(s, g, s', p)
    requires Locking(s') && LogOk(s') && ProcOk(s'.f.data, g, LogMap(s'.log), s'.procs[p])
    ensures Inv(s', g)
  {
    LocalFiles(s, g, s', p);
    LocalContents(s, g, s', p);
    OwnersKept(s.procs, s'.procs, g, p);
    SameViews(s, g, s', p);
    ProcsKept(s, g, s', g, p);
    hide Locking, MidOk, FilesOk, Owners, DataOk, ContentsOk, LogOk, Procs;
  }

  lemma SameViews(s: State, g: Ghost, s': State, p: nat)
    requires Inv(s, g) && s'.f.data == s.f.data && LogMap(s'.log) == LogMap(s.log)
    ensures forall q :: 0 <= q < |s.procs| && q != p ==>
              SameView(s.f.data, g, LogMap(s.log), s'.f.data, g, LogMap(s'.log), s.procs[q])
  {
    hide Geometry, Owners, DataOk, ContentsOk, LogOk, Procs, Locking, HandOf, PendOf, MidOk, IsList, Hash, Blank;
  }

  /** The two program points agree on everything the rest of the state depends on. */
  ghost predicate Alike(g: Ghost, op: Op, pc: Pc, pc': Pc) {
    && HandOf(pc') == HandOf(pc) && PendOf(pc') == PendOf(pc) && InMid(pc') == InMid(pc)
    && (InMid(pc) ==> MidImage(g.im, pc') == MidImage(g.im, pc) && pc'.t == pc.t)
    && (Replacing(pc, op) ==> Replacing(pc', op))
  }

  lemma GoOk(s: State, g: Ghost, p: nat, pc: Pc)
    requires Inv(s, g) && p < |s.procs| && Alike(g, s.procs[p].op, s.procs[p].pc, pc)
    requires HeldAt(pc, s.procs[p].op) == HeldAt(s.procs[p].pc, s.procs[p].op)
    requires Pending(pc, s.procs[p].op) == Pending(s.procs[p].pc, s.procs[p].op)
    requires ProcOk(s.f.data, g, LogMap(s.log), s.procs[p].(pc := pc))
    ensures Inv(Go(s, p, pc), g)
  {
    hide HeldAt, HandOf, PendOf, InMid, MidImage, Replacing, Pending, ProcOk, LogMap, OpValid, MidOk, FilesOk, Owners,
      DataOk, ContentsOk, Procs;
    var s' := Go(s, p, pc);
    LockingKept(s, s', p);
    LogSame(s, s', p);
    LocalOk(s, g, s', p);
  }

  lemma AcquireOk(s: State, g: Ghost, p: nat, l: Lock, mode: Mode, pc: Pc)
    requires Inv(s, g) && p < |s.procs| && Alike(g, s.procs[p].op, s.procs[p].pc, pc)
    requires LockOk(l) && CanLock(s, p, l, mode)
    requires HeldAt(pc, s.procs[p].op) == HeldAt(s.procs[p].pc, s.procs[p].op)[l := mode]
    requires Pending(pc, s.procs[p].op) == Pending(s.procs[p].pc, s.procs[p].op)
    requires ProcOk(s.f.data, g, LogMap(s.log), Acquire(s, p, l, mode, pc).procs[p])
    ensures Inv(Acquire(s, p, l, mode, pc), g)
  {
    hide HeldAt, HandOf, PendOf, InMid, MidImage, Replacing, Pending, ProcOk, LogMap, OpValid, CanLock, MidOk, FilesOk,
      Owners, DataOk, ContentsOk, Procs;
    var s' := Acquire(s, p, l, mode, pc);
    LockingGrows(s, s', p, l, mode);
    LogSame(s, s', p);
    LocalOk(s, g, s', p);
  }

  lemma ReleaseStepOk(s: State, g: Ghost, p: nat, l: Lock, pc: Pc)
    requires Inv(s, g) && p < |s.procs| && Alike(g, s.procs[p].op, s.procs[p].pc, pc)
    requires LockOk(l)
    requires HeldAt(pc, s.procs[p].op) == HeldAt(s.procs[p].pc, s.procs[p].op) - {l}
    requires Pending(pc, s.procs[p].op) == Pending(s.procs[p].pc, s.procs[p].op)
    requires ProcOk(s.f.data, g, LogMap(s.log), Release1(s, p, l, pc).procs[p])
    ensures Inv(Release1(s, p, l, pc), g)
  {
    hide HeldAt, HandOf, PendOf, InMid, MidImage, Replacing, Pending, ProcOk, LogMap, OpValid, Released, MidOk,
      FilesOk, Owners, DataOk, ContentsOk, Procs;
    var s' := Release1(s, p, l, pc);
    ReleasedIs(s.procs[p].pc, s.procs[p].op, l);
    LockingKept(s, s', p);
    LogSame(s, s', p);
    LocalOk(s, g, s', p);
  }

  /** An effect that leaves the map as it is. */
  lemma CommitOk(s: State, g: Ghost, p: nat, res: Res, pc: Pc)
    requires Inv(s, g) && p < |s.procs| && Alike(g, s.procs[p].op, s.procs[p].pc, pc)
    requires HeldAt(pc, s.procs[p].op) == HeldAt(s.procs[p].pc, s.procs[p].op)
    requires Pending(s.procs[p].pc, s.procs[p].op) == []
    requires Pending(pc, s.procs[p].op) == [(s.procs[p].op, Answer(res))]
    requires Apply(LogMap(s.log), s.procs[p].op) == (res, LogMap(s.log))
    requires forall data, m :: ProcOk(data, g, m, s.procs[p].(pc := pc))
    ensures Inv(Commit(s, p, res, pc), g)
  {
    hide HeldAt, HandOf, PendOf, InMid, MidImage, Replacing, Pending, ProcOk, LogMap, OpValid, Apply, MidOk, FilesOk,
      Owners, DataOk, ContentsOk, Procs;
    var s' := Commit(s, p, res, pc);
    LockingKept(s, s', p);
    LogMore(s, s', p, Event(p, s.procs[p].op, Answer(res)));
    LocalOk(s, g, s', p);
  }

  // ---------------------------------------------------------------- reading under a lock

  /** An unfinished deletion shows only in the record being deleted and the free list. */
  lemma MidElsewhere(im: Image, pc: Pc, loc: nat)
    requires InMid(pc) && loc != pc.t.off && loc != FREE_OFF
    ensures loc in MidImage(im, pc).ptrs <==> loc in im.ptrs
    ensures loc in im.ptrs ==> MidImage(im, pc).ptrs[loc] == im.ptrs[loc]
    ensures loc in MidImage(im, pc).recs <==> loc in im.recs
    ensures loc in im.recs ==> MidImage(im, pc).recs[loc] == im.recs[loc]
  {
  }

  /** The record another process is deleting is on a chain this process has not locked. */
  lemma MidHit(s: State, g: Ghost)
    requires Inv(s, g) && g.mid.Some?
    ensures |g.ls.chains| == NHASH && Locking(s) && Geometry(g.im, s.f.iend) && ListsOk(g.im, g.ls, g.hands.Keys)
    ensures g.mid.value < |s.procs| && InMid(s.procs[g.mid.value].pc)
    ensures var pq := s.procs[g.mid.value];
            && Hit(g, pq.op, pq.pc.t)
            && ChainLock(ChainOf(pq.op)) in pq.held && pq.held[ChainLock(ChainOf(pq.op))] == Exclusive
  {
    hide Geometry, ListsOk, LogOk, ContentsOk, DataOk, Owners, LogMap, LengthFits, MidImage, Compatible, Hit, Hash,
      Clear, HeadIs;
    var pq := s.procs[g.mid.value];
    assert ProcOk(s.f.data, g, LogMap(s.log), pq);
  }

  lemma HitListed(g: Ghost, end: nat, op: Op, t: Target, h: nat)
    requires |g.ls.chains| == NHASH && Geometry(g.im, end) && ListsOk(g.im, g.ls, g.hands.Keys) && Hit(g, op, t)
    requires h < NHASH && h != ChainOf(op)
    ensures && t.off in g.ls.chains[ChainOf(op)]
            && t.off != FREE_OFF && t.off in g.im.recs
            && t.off != HeadLoc(h) && t.off !in g.ls.chains[h]
            && t.off !in g.ls.free && t.off !in g.hands
  {
    hide Tiled, InfoOk, IsHeadLoc, IsList, Blank, Hash;
    assert t.off in g.ls.chains[ChainOf(op)];
    NotHead(g.im, end, t.off, h);
  }

  lemma MidFar(s: State, g: Ghost, p: nat)
    requires Inv(s, g) && p < |s.procs| && g.mid.Some? && g.mid.value != p
    requires ChainLock(ChainOf(s.procs[p].op)) in s.procs[p].held
    ensures g.mid.value < |s.procs| && InMid(s.procs[g.mid.value].pc)
    ensures ChainOf(s.procs[g.mid.value].op) != ChainOf(s.procs[p].op)
    ensures var t := s.procs[g.mid.value].pc.t;
            && t.off in g.ls.chains[ChainOf(s.procs[g.mid.value].op)]
            && t.off != FREE_OFF && t.off in g.im.recs
            && t.off != HeadLoc(ChainOf(s.procs[p].op)) && t.off !in g.ls.chains[ChainOf(s.procs[p].op)]
            && t.off !in g.ls.free && t.off !in g.hands
  {
    hide Inv, ListsOk, Geometry, Locking, LogMap, Hash, Hit;
    MidHit(s, g);
    var q := g.mid.value;
    var pq := s.procs[q];
    Alone(s, q, ChainLock(ChainOf(pq.op)), p);
    HitListed(g, s.f.iend, pq.op, pq.pc.t, ChainOf(s.procs[p].op));
  }

  /** Reading along a locked chain. */
  lemma ChainRead(s: State, g: Ghost, p: nat, i: nat)
    requires Inv(s, g) && p < |s.procs| && !InMid(s.procs[p].pc)
    requires ChainLock(ChainOf(s.procs[p].op)) in s.procs[p].held
    requires i <= |g.ls.chains[ChainOf(s.procs[p].op)]|
    ensures var chain, head := g.ls.chains[ChainOf(s.procs[p].op)], HeadLoc(ChainOf(s.procs[p].op));
            && PtrIn(s.f, Loc(head, chain, i)) == At(chain, i)
            && 0 !in chain
            && (i < |chain| ==>
                  && chain[i] in g.im.recs && InfoIn(s.f, chain[i]) == g.im.recs[chain[i]]
                  && PtrIn(s.f, chain[i]) == At(chain, i + 1))
  {
    var h := ChainOf(s.procs[p].op);
    var chain, head := g.ls.chains[h], HeadLoc(h);
    ChainFacts(g, s.f.iend, h, i);
    assert g.mid != Some(p);
    if g.mid.Some? {
      MidFar(s, g, p);
      var t := s.procs[g.mid.value].pc.t;
      var loc := Loc(head, chain, i);
      if i > 0 { assert chain[i - 1] in chain; }
      MidElsewhere(g.im, s.procs[g.mid.value].pc, loc);
      if i < |chain| {
        assert chain[i] in chain;
        MidElsewhere(g.im, s.procs[g.mid.value].pc, chain[i]);
      }
    }
    hide Locking, Owners, DataOk, ContentsOk, LogOk, Procs, Geometry, ListsOk, Hash;
  }

  lemma ChainFacts(g: Ghost, end: nat, h: nat, i: nat)
    requires Geometry(g.im, end) && ListsOk(g.im, g.ls, g.hands.Keys) && h < NHASH && i <= |g.ls.chains[h]|
    ensures var chain, head := g.ls.chains[h], HeadLoc(h);
            && Loc(head, chain, i) in g.im.ptrs && g.im.ptrs[Loc(head, chain, i)] == At(chain, i)
            && Loc(head, chain, i) != FREE_OFF && 0 !in chain
            && (i < |chain| ==>
                  && chain[i] in g.im.recs && chain[i] in g.im.ptrs && g.im.ptrs[chain[i]] == At(chain, i + 1)
                  && chain[i] != FREE_OFF)
  {
    hide Hash, Blank;
    ChainLoc(g.im, end, g.ls, g.hands.Keys, h, i);
    if i < |g.ls.chains[h]| {
      UnchainPtrs(g.im, end, g.ls, g.hands.Keys, h, i);
    }
  }

  /** Reading along the locked free list. */
  lemma FreeRead(s: State, g: Ghost, p: nat, i: nat)
    requires Inv(s, g) && p < |s.procs| && s.f.im == g.im && i <= |g.ls.free|
    ensures PtrIn(s.f, Loc(FREE_OFF, g.ls.free, i)) == At(g.ls.free, i)
    ensures 0 !in g.ls.free
    ensures i < |g.ls.free| ==>
              && g.ls.free[i] in g.im.recs && InfoIn(s.f, g.ls.free[i]) == g.im.recs[g.ls.free[i]]
              && PtrIn(s.f, g.ls.free[i]) == At(g.ls.free, i + 1)
  {
    hide Locking, Owners, DataOk, ContentsOk, LogOk, Procs, Geometry, Hash, Blank, MidImage;
    var free := g.ls.free;
    assert IsList(g.im.ptrs, FREE_OFF, free);
    if i < |free| {
      assert free[i] in free;
      assert Loc(FREE_OFF, free, i + 1) == free[i];
    }
  }

  /** With the free list locked, no deletion is under way but the process's own. */
  lemma FreeHeld(s: State, g: Ghost, p: nat)
    requires Inv(s, g) && p < |s.procs| && FreeLock in s.procs[p].held && s.procs[p].held[FreeLock] == Exclusive
    ensures g.mid == None || g.mid == Some(p)
    ensures !InMid(s.procs[p].pc) ==> g.mid == None && s.f.im == g.im
    ensures s.procs[p].pc.DelFree? || s.procs[p].pc.DelIdx? ==> s.f.im == g.im
  {
    hide Owners, DataOk, ContentsOk, LogOk, Procs, Geometry, ListsOk, Hash;
    if g.mid.Some? && g.mid.value != p {
      Alone(s, p, FreeLock, g.mid.value);
    }
  }
}
