/** What callers of the shared database see: each call takes effect once, between its invocation and its return,
    and is answered as a plain map would answer it then. */
module DbCalls {
  import opened Common
  import opened DbFormat
  import opened DbLists
  import opened DbFile
  import opened DbState
  import opened DbLibrary
  import opened DbRuns
  import opened DbProcesses
  import opened DbSharing
  import opened DbInterleaving
  import opened DbSteps
  import opened DbTheorems

  // ---------------------------------------------------------------- the log, said of the map

  /** The map before effect k. */
  ghost function MapAt(log: seq<Event>, k: nat): Contents
    requires k <= |log|
  {
    LogMap(log[..k])
  }

  /** Each effect takes the map before it to the map after it, with its answer; a process that dies in a store has
      at most removed the key. */
  lemma LogMeans(log: seq<Event>)
    requires Legal(log)
    ensures MapAt(log, 0) == map[]
    ensures forall k :: 0 <= k < |log| ==>
              match log[k].result
              case Answer(r) => Answers(MapAt(log, k), log[k].op, r, MapAt(log, k + 1))
              case Dead => log[k].op.StoreOp? && MapAt(log, k + 1) == MapAt(log, k) - {log[k].op.key}
  {
    hide Answers, Apply;
    forall k | 0 <= k < |log|
      ensures match log[k].result
              case Answer(r) => Answers(MapAt(log, k), log[k].op, r, MapAt(log, k + 1))
              case Dead => log[k].op.StoreOp? && MapAt(log, k + 1) == MapAt(log, k) - {log[k].op.key}
    {
      assert RightAnswer(LogMap(log[..k]), log[k]);
      assert log[..k + 1][..k] == log[..k];
      ApplyMeans(LogMap(log[..k]), log[k].op);
    }
  }

  /** Event k of the log is the n-th effect of the process. */
  ghost predicate Nth(log: seq<Event>, p: nat, k: nat, n: nat) {
    k < |log| && log[k].pid == p && |EffectsOf(log[..k], p)| == n
  }

  /** The effects of a process are its events of the log, all of them, in order. */
  lemma {:induction false} EffectsMeans(log: seq<Event>, p: nat)
    ensures forall k: nat, n: nat :: Nth(log, p, k, n) ==>
              n < |EffectsOf(log, p)| && EffectsOf(log, p)[n] == (log[k].op, log[k].result)
    ensures forall n: nat :: n < |EffectsOf(log, p)| ==> IsNth(log, p, n)
  {
    if log != [] {
      var l := |log| - 1;
      EffectsMeans(log[..l], p);
      forall k: nat, n: nat | Nth(log, p, k, n)
        ensures n < |EffectsOf(log, p)| && EffectsOf(log, p)[n] == (log[k].op, log[k].result)
      {
        if k < l {
          assert log[..l][..k] == log[..k];
          assert Nth(log[..l], p, k, n);
        }
      }
      forall n: nat | n < |EffectsOf(log, p)|
        ensures IsNth(log, p, n)
      {
        if n < |EffectsOf(log[..l], p)| {
          assert IsNth(log[..l], p, n);
          var k: nat :| Nth(log[..l], p, k, n);
          assert log[..l][..k] == log[..k];
          assert Nth(log, p, k, n);
        } else {
          assert Nth(log, p, l, n);
        }
      }
    }
  }

  ghost predicate IsNth(log: seq<Event>, p: nat, n: nat) {
    exists k: nat :: Nth(log, p, k, n)
  }

  // ---------------------------------------------------------------- one call

  /** The process is inside a call of fetch, store or delete. */
  predicate Inside(pc: Pc) {
    AtWork(pc) && !pc.ScanWant? && !pc.Scanning?
  }

  /** What a step makes of a process that is inside a call: it stays there, or it is back with one answer more. */
  ghost predicate GoesOn(pr: Proc, pr': Proc) {
    && pr'.op == pr.op
    && if Inside(pr'.pc) then pr'.done == pr.done
       else (pr'.pc.Idle? && exists r :: pr'.done == pr.done + [(pr.op, r)])
            || (pr'.pc.Exited? && pr'.done == pr.done + [(pr.op, Dead)])
  }

  lemma OtherStays(s: State, q: nat, p: nat)
    requires q < |s.procs| && Enabled(s, q) && p < |s.procs| && p != q
    ensures |Step(s, q).procs| == |s.procs| && Step(s, q).procs[p] == s.procs[p]
  {
    hide Hash, CanLock, Body, Released, ChainMode, SetRec, SetPtr, AddRec, InfoIn, PtrIn, TextIn, RecLen, Spaces,
      Blanked;
  }

  lemma SearchGoesOn(s: State, p: nat)
    requires p < |s.procs| && Enabled(s, p) && s.procs[p].pc.Search?
    ensures |Step(s, p).procs| == |s.procs| && GoesOn(s.procs[p], Step(s, p).procs[p])
  {
    hide Hash, CanLock, InfoIn, PtrIn, Enabled;
  }

  lemma EndGoesOn(s: State, p: nat)
    requires p < |s.procs| && Enabled(s, p) && (s.procs[p].pc.Finish? || s.procs[p].pc.DatRel? || s.procs[p].pc.Link?)
    ensures |Step(s, p).procs| == |s.procs| && GoesOn(s.procs[p], Step(s, p).procs[p])
  {
    hide Hash, CanLock, Body, Released, SetPtr, Enabled;
  }

  lemma DeleteGoesOn(s: State, p: nat)
    requires p < |s.procs| && Enabled(s, p)
    requires var pc := s.procs[p].pc;
             pc.DelWant? || pc.DelData? || pc.DelFree? || pc.DelIdx? || pc.DelPush? || pc.DelUnlink? || pc.DelRel?
    ensures |Step(s, p).procs| == |s.procs| && GoesOn(s.procs[p], Step(s, p).procs[p])
  {
    hide Hash, CanLock, Released, SetRec, SetPtr, PtrIn, Spaces, Blanked, Enabled;
  }

  lemma FreeGoesOn(s: State, p: nat)
    requires p < |s.procs| && Enabled(s, p)
    requires var pc := s.procs[p].pc;
             || pc.MissHead? || pc.FreeWant? || pc.FreeHead? || pc.FreeScan? || pc.FreeTake? || pc.FreeRel?
             || pc.FreeNone? || pc.ReuseDat? || pc.ReuseIdx?
    ensures |Step(s, p).procs| == |s.procs| && GoesOn(s.procs[p], Step(s, p).procs[p])
  {
    hide Hash, CanLock, Released, SetRec, SetPtr, PtrIn, InfoIn, Enabled;
  }

  lemma RestGoesOn(s: State, p: nat)
    requires p < |s.procs| && Enabled(s, p)
    requires var pc := s.procs[p].pc;
             || pc.WantChain? || pc.ReadHead? || pc.GetData? || pc.Over? || pc.AppHead? || pc.DatWant?
             || pc.DatAppend? || pc.IdxWant? || pc.IdxAppend? || pc.IdxRel?
    ensures |Step(s, p).procs| == |s.procs| && GoesOn(s.procs[p], Step(s, p).procs[p])
  {
    hide Hash, CanLock, Released, AddRec, RecLen, PtrIn, TextIn, ChainMode, Enabled;
  }

  lemma OwnGoesOn(s: State, p: nat)
    requires p < |s.procs| && Enabled(s, p) && Inside(s.procs[p].pc)
    ensures |Step(s, p).procs| == |s.procs| && GoesOn(s.procs[p], Step(s, p).procs[p])
  {
    hide Step, Enabled, GoesOn;
    var pc := s.procs[p].pc;
    if pc.Search? {
      SearchGoesOn(s, p);
    } else if pc.Finish? || pc.DatRel? || pc.Link? {
      EndGoesOn(s, p);
    } else if pc.DelWant? || pc.DelData? || pc.DelFree? || pc.DelIdx? || pc.DelPush? || pc.DelUnlink? || pc.DelRel? {
      DeleteGoesOn(s, p);
    } else if pc.WantChain? || pc.ReadHead? || pc.GetData? || pc.Over? || pc.AppHead? || pc.DatWant? || pc.DatAppend?
           || pc.IdxWant? || pc.IdxAppend? || pc.IdxRel? {
      RestGoesOn(s, p);
    } else {
      FreeGoesOn(s, p);
    }
  }

  /** What a step, of whichever process, does to a process that is inside a call. */
  lemma InsideStep(s: State, s': State, q: nat, p: nat)
    requires q < |s.procs| && Moves(s, s', q) && p < |s.procs| && Inside(s.procs[p].pc)
    ensures |s'.procs| == |s.procs| && GoesOn(s.procs[p], s'.procs[p])
  {
    hide Step, Enabled;
    if Enabled(s, q) && s' == Step(s, q) {
      if q == p {
        OwnGoesOn(s, p);
      } else {
        OtherStays(s, q, p);
      }
    }
  }

  /** Process p is called at step i with this operation, and is back, or dead, at state j. */
  ghost predicate Called(run: seq<State>, i: nat, j: nat, p: nat, op: Op) {
    && i + 1 < j < |run| && p < |run[i].procs| && run[i].procs[p].pc.Idle? && run[i + 1] == Invoke(run[i], p, op)
    && (forall k :: i < k < j ==> p < |run[k].procs| && AtWork(run[k].procs[p].pc))
    && p < |run[j].procs| && !AtWork(run[j].procs[p].pc)
  }

  lemma {:induction false} InsideSince(run: seq<State>, i: nat, j: nat, p: nat, op: Op, k: nat)
    requires IsRun(run) && Called(run, i, j, p, op) && i < k < j
    ensures Inside(run[k].procs[p].pc) && run[k].procs[p].op == op && run[k].procs[p].done == run[i].procs[p].done
  {
    hide IsRun, Moves, Inside;
    if k == i + 1 {
      Begins(run[i], p, op);
    } else {
      InsideSince(run, i, j, p, op, k - 1);
      var q := MoverOf(run, k - 1);
      InsideStep(run[k - 1], run[k], q, p);
      AtWorkInside(run[k].procs[p].pc);
    }
  }

  lemma Begins(s: State, p: nat, op: Op)
    requires p < |s.procs|
    ensures var pr := Invoke(s, p, op).procs[p]; Inside(pr.pc) && pr.op == op && pr.done == s.procs[p].done
  {
  }

  lemma AtWorkInside(pc: Pc)
    requires AtWork(pc)
    ensures !pc.Idle? && !pc.Exited?
  {
  }

  lemma MoverOf(run: seq<State>, k: nat) returns (q: nat)
    requires IsRun(run) && k + 1 < |run|
    ensures q < |run[k].procs| && Moves(run[k], run[k + 1], q)
  {
    hide Moves;
    assert Next(run[k], run[k + 1]);
    var p :| 0 <= p < |run[k].procs| && Moves(run[k], run[k + 1], p);
    q := p;
  }

  /** Every call has exactly one effect, which comes after its invocation and before its return, and returns that
      effect's answer. */
  lemma CallOnce(run: seq<State>, i: nat, j: nat, p: nat, op: Op) returns (r: Result)
    requires IsRun(run) && Called(run, i, j, p, op)
    ensures run[j].procs[p].done == run[i].procs[p].done + [(op, r)] && (r == Dead <== run[j].procs[p].pc.Exited?)
    ensures EffectsOf(run[j].log, p) == EffectsOf(run[i].log, p) + [(op, r)] && run[i].log <= run[j].log
  {
    hide IsRun, Moves, EffectsOf, Legal, AtWork, Inside;
    InsideSince(run, i, j, p, op, j - 1);
    var q := MoverOf(run, j - 1);
    InsideStep(run[j - 1], run[j], q, p);
    NotInside(run[j].procs[p].pc);
    Linearizable(run, i);
    Linearizable(run, j);
    LogPrefix(run, i, j);
    var done, done' := run[i].procs[p].done, run[j].procs[p].done;
    r :| done' == done + [(op, r)] && (run[j].procs[p].pc.Exited? ==> r == Dead);
  }

  lemma NotInside(pc: Pc)
    requires !AtWork(pc)
    ensures !Inside(pc) && (pc.Idle? || pc.Exited?)
  {
  }

  // ---------------------------------------------------------------- readers together

  /** A fetch waits for its chain only while some other process that is not a fetch holds it. */
  lemma FetchesTogether(s: State, g: Ghost, p: nat)
    requires Inv(s, g) && p < |s.procs| && s.procs[p].pc.WantChain? && s.procs[p].op.FetchOp?
    requires forall q :: 0 <= q < |s.procs| && q != p && ChainLock(ChainOf(s.procs[p].op)) in s.procs[q].held ==>
               s.procs[q].op.FetchOp?
    ensures Enabled(s, p)
  {
    hide Inv, Hash, Overlap, RangeOf, HeldAt;
    var l := ChainLock(ChainOf(s.procs[p].op));
    forall q, x | 0 <= q < |s.procs| && q != p && x in s.procs[q].held && Overlap(RangeOf(x), RangeOf(l))
      ensures s.procs[q].held[x] == Shared
    {
      HeldIs(s, g, q);
      HeldLocksOk(s.procs[q].pc, s.procs[q].op, x);
      LocksApart(x, l);
      ChainShared(s.procs[q].pc, s.procs[q].op, x);
    }
  }

  lemma ChainShared(pc: Pc, op: Op, x: Lock)
    requires x in HeldAt(pc, op) && x.ChainLock?
    ensures HeldAt(pc, op)[x] == if op.FetchOp? then Shared else Exclusive
  {
    hide Hash;
  }
}
