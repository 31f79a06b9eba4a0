/** What holds in every run of the semaphore wrapper. */
module SemaphoreRuns {
  import opened Semaphore
  import opened SemaphoreShapes

  /** A run of n processes from a kernel without semaphore sets, with fewer than BIGCOUNT opens throughout. */
  ghost predicate IsRun(run: seq<State>) {
    && |run| > 0
    && (exists n: nat :: run[0] == Start(n))
    && (forall i :: 0 <= i < |run| - 1 ==> Next(run[i], run[i + 1]))
    && (forall i :: 0 <= i < |run| ==> Modest(run[i]))
  }

  lemma {:induction false} RunKeeps(run: seq<State>, i: nat)
    requires IsRun(run) && i < |run|
    ensures Inv(run[i]) && DebtOk(run[i]) && Ranged(run[i])
  {
    hide Inv, Modest, Ranged, Next, DebtOk;
    if i > 0 {
      RunKeeps(run, i - 1);
      assert Next(run[i - 1], run[i]);
      StepKeeps(run[i - 1], run[i]);
      KeptInv(run[i - 1], run[i]);
      DebtStep(run[i - 1], run[i]);
    } else {
      var n: nat :| run[0] == Start(n);
      StartOk(n);
    }
    DebtRanged(run[i]);
  }

  lemma KeptInv(s: State, s': State)
    requires Keeps(s, s')
    ensures Inv(s')
  {
  }

  lemma StartOk(n: nat)
    ensures Inv(Start(n)) && DebtOk(Start(n))
  {
  }

  /** The lock is 0 or 1; it is 1 exactly while some process is between lock and unlock; never two are. */
  lemma MutualExclusion(run: seq<State>, i: nat, id: nat)
    requires IsRun(run) && i < |run| && id in run[i].sets
    ensures run[i].sets[id].v[2] == 0 || run[i].sets[id].v[2] == 1
    ensures run[i].sets[id].v[2] == 1 <==> exists p :: 0 <= p < |run[i].procs| && Holding(run[i].procs[p].pc, id)
    ensures forall p, q :: 0 <= p < |run[i].procs| && 0 <= q < |run[i].procs| ==>
              (Holding(run[i].procs[p].pc, id) && Holding(run[i].procs[q].pc, id) ==> p == q)
  {
    hide IsRun;
    RunKeeps(run, i);
    assert SetOk(run[i], id);
  }

  /** A process that holds the lock is never asleep in the kernel, so the lock is always given back. */
  lemma HolderRuns(run: seq<State>, i: nat, id: nat, p: nat)
    requires IsRun(run) && i < |run| && id in run[i].sets && p < |run[i].procs| && Holding(run[i].procs[p].pc, id)
    ensures Enabled(run[i], p)
  {
    hide Inv, IsRun, Ranged, Apply;
    var s := run[i];
    RunKeeps(run, i);
    HolderValues(s, id, p);
    EndCreateArray(s.sets[id].v, [0, 0, 0]);
    UnlockArray(s.sets[id].v, [0, 0, 0]);
  }

  lemma HolderValues(s: State, id: nat, p: nat)
    requires Inv(s) && Ranged(s) && id in s.sets && p < |s.procs| && Holding(s.procs[p].pc, id)
    ensures s.sets[id].v[2] == 1 && 0 <= s.sets[id].v[1] <= SEMVMX
    ensures s.procs[p].pc.EndCreate? ==> s.sets[id].v[1] >= 1
  {
    hide Ranged, Opens;
    assert SetOk(s, id);
    if Counted(s, id) {
      CounterRange(s, id, p);
    }
  }

  /** Once the counter is set it never leaves BIGCOUNT less the current opens; before that it is 0,
      no process has the set open, and no call has returned the set's id. */
  lemma Conservation(run: seq<State>, i: nat, id: nat)
    requires IsRun(run) && i < |run| && id in run[i].sets
    ensures run[i].sets[id].v[1] != 0 ==> run[i].sets[id].v[1] + Opens(run[i].procs, id) == BIGCOUNT
    ensures run[i].sets[id].v[1] == 0 ==>
              id !in run[i].issued && forall p :: 0 <= p < |run[i].procs| ==> NetOf(run[i].procs[p], id) == 0
  {
    hide IsRun, Opens, Ranged;
    RunKeeps(run, i);
    assert SetOk(run[i], id);
    if Counted(run[i], id) {
      OpensBounded(run[i].procs, id);
      CountedPositive(run[i], id);
    }
  }

  lemma CountedPositive(s: State, id: nat)
    requires Ranged(s) && id in s.sets && Counted(s, id)
    ensures s.sets[id].v[1] >= 1
  {
    OpensBounded(s.procs, id);
  }

  /** Once set, the counter stays set for as long as the set exists. */
  lemma {:induction false} OnceCounted(run: seq<State>, i: nat, j: nat, id: nat)
    requires IsRun(run) && i <= j < |run| && id in run[i].sets && id in run[j].sets && run[i].sets[id].v[1] != 0
    ensures run[j].sets[id].v[1] != 0
  {
    hide IsRun, Inv, Ranged, Next, Opens;
    if i < j {
      SetsOnlyGo(run, i, j - 1, j, id);
      OnceCounted(run, i, j - 1, id);
      RunKeeps(run, j - 1);
      RunNext(run, j - 1);
      StepKeeps(run[j - 1], run[j]);
      SetCounted(run[j - 1], id);
      KeptInv(run[j - 1], run[j]);
      RunKeeps(run, j);
      CountedPositive(run[j], id);
    }
  }

  lemma RunNext(run: seq<State>, i: nat)
    requires IsRun(run) && i + 1 < |run|
    ensures Next(run[i], run[i + 1])
  {
  }

  lemma SetCounted(s: State, id: nat)
    requires Inv(s) && id in s.sets && s.sets[id].v[1] != 0
    ensures Counted(s, id)
  {
    assert SetOk(s, id);
  }

  /** A set that is gone does not come back: its id is used once. */
  lemma {:induction false} SetsOnlyGo(run: seq<State>, i: nat, j: nat, k: nat, id: nat)
    requires IsRun(run) && i <= j <= k < |run| && id in run[i].sets && id in run[k].sets
    ensures id in run[j].sets
    decreases k - j
  {
    hide IsRun, Inv, Next;
    if i < j < k {
      NextIds(run, i, j);
      SetsOnlyGo(run, i, j + 1, k, id);
      RunNext(run, j);
      OldIds(run[j], run[j + 1]);
      RunKeeps(run, i);
      IdBelow(run[i], id);
    }
  }

  lemma {:induction false} NextIds(run: seq<State>, i: nat, j: nat)
    requires IsRun(run) && i <= j < |run|
    ensures run[i].next <= run[j].next
  {
    hide IsRun, Next;
    if i < j {
      NextIds(run, i, j - 1);
      RunNext(run, j - 1);
      OldIds(run[j - 1], run[j]);
    }
  }

  lemma IdBelow(s: State, id: nat)
    requires Inv(s) && id in s.sets
    ensures id < s.next
  {
  }

  /** sem_close takes its abort branch exactly when closes outnumber opens. */
  lemma AbortIff(run: seq<State>, i: nat, id: nat, p: nat)
    requires IsRun(run) && i < |run| && id in run[i].sets && p < |run[i].procs| && run[i].procs[p].pc == CloseCheck(id)
    ensures run[i].sets[id].v[1] > BIGCOUNT <==> Opens(run[i].procs, id) < 0
  {
    hide IsRun, Opens;
    RunKeeps(run, i);
    assert SetOk(run[i], id);
  }

  /** Some process has the set open; some process has closed it more often than it opened it. */
  ghost predicate InUse(s: State, id: nat) {
    exists p :: 0 <= p < |s.procs| && NetOf(s.procs[p], id) > 0
  }

  ghost predicate Overclosed(s: State, id: nat) {
    exists p :: 0 <= p < |s.procs| && NetOf(s.procs[p], id) < 0
  }

  lemma {:induction false} ExcessMeans(procs: seq<Proc>, id: nat)
    ensures Excess(procs, id) > 0 <==> exists p :: 0 <= p < |procs| && NetOf(procs[p], id) > 0
    ensures Deficit(procs, id) > 0 <==> exists p :: 0 <= p < |procs| && NetOf(procs[p], id) < 0
  {
    if procs != [] {
      ExcessMeans(procs[1..], id);
      forall p | 0 <= p < |procs|
        ensures p == 0 || procs[p] == procs[1..][p - 1]
      {
      }
    }
  }

  /** Whoever runs, sem_close takes for unused a set that some process has open exactly if some process has closed it
      more often than it opened it. */
  lemma CheckFooled(run: seq<State>, i: nat, id: nat, p: nat)
    requires IsRun(run) && i < |run| && id in run[i].sets && p < |run[i].procs| && run[i].procs[p].pc == CloseCheck(id)
    requires run[i].sets[id].v[1] == BIGCOUNT
    ensures InUse(run[i], id) <==> Overclosed(run[i], id)
  {
    hide IsRun, Opens, Excess, Deficit;
    Conservation(run, i, id);
    OpensBounded(run[i].procs, id);
    ExcessMeans(run[i].procs, id);
  }

  /** No process has closed a set more often than it opened it. */
  ghost predicate Disciplined(s: State) {
    forall p, id :: 0 <= p < |s.procs| && id in s.sets ==> NetOf(s.procs[p], id) >= 0
  }

  lemma NeverAborts(run: seq<State>, i: nat, id: nat, p: nat)
    requires IsRun(run) && i < |run| && id in run[i].sets && p < |run[i].procs| && run[i].procs[p].pc == CloseCheck(id)
    requires Disciplined(run[i])
    ensures run[i].sets[id].v[1] <= BIGCOUNT
  {
    hide IsRun, Opens;
    AbortIff(run, i, id, p);
    NoneOpen(run[i].procs, id);
  }

  /** The user's value and the counter are set only while no process has the semaphore open. */
  lemma ReinitSafe(run: seq<State>, i: nat, id: nat, p: nat)
    requires IsRun(run) && i < |run| && id in run[i].sets && p < |run[i].procs| && Initialising(run[i].procs[p].pc, id)
    ensures run[i].sets[id].v[1] == 0 && id !in run[i].issued
    ensures forall q :: 0 <= q < |run[i].procs| ==> NetOf(run[i].procs[q], id) == 0
  {
    hide IsRun, Opens;
    RunKeeps(run, i);
    assert SetOk(run[i], id);
  }

  // ---------------------------------------------------------------- removal

  /** A run in which no process ever closes a set more often than it opened it. */
  ghost predicate DisciplinedRun(run: seq<State>) {
    IsRun(run) && forall i :: 0 <= i < |run| ==> Disciplined(run[i])
  }

  /** At step k process q completes op_open on the set. */
  ghost predicate OpensAt(run: seq<State>, k: nat, q: nat, id: nat) {
    && k + 1 < |run| && q < |run[k].procs| && q < |run[k + 1].procs|
    && run[k].procs[q].pc == Open(id) && run[k + 1].procs[q].pc.Idle?
  }

  /** From step i, at which process p finds the counter at BIGCOUNT, to state j it is about to remove the set. */
  ghost predicate Removing(run: seq<State>, i: nat, j: nat, id: nat, p: nat) {
    && i < j < |run| && p < |run[i].procs| && run[i].procs[p].pc == CloseCheck(id)
    && (forall k :: i < k <= j ==> p < |run[k].procs| && run[k].procs[p].pc == Remove(id))
    && id in run[j].sets
  }

  /** Process q has opened the set since step i, and is alive at state j. */
  ghost predicate SlippedIn(run: seq<State>, i: nat, j: nat, id: nat, q: nat) {
    j < |run| && q < |run[j].procs| && !run[j].procs[q].pc.Dead? && exists k: nat :: i < k < j && OpensAt(run, k, q, id)
  }

  ghost predicate Unused(s: State, id: nat) {
    forall q :: 0 <= q < |s.procs| ==> NetOf(s.procs[q], id) == 0
  }

  lemma {:induction false} ProcsStay(run: seq<State>, i: nat, j: nat)
    requires IsRun(run) && i <= j < |run|
    ensures |run[i].procs| == |run[j].procs|
  {
    hide IsRun, Next, StepShape;
    if i < j {
      ProcsStay(run, i, j - 1);
      RunNext(run, j - 1);
      var p := Mover(run[j - 1], run[j]);
      SameCount(run[j - 1], run[j], p);
    }
  }

  lemma SameCount(s: State, s': State, p: nat)
    requires StepShape(s, s', p)
    ensures |s'.procs| == |s.procs|
  {
    hide Apply;
  }

  /** When the check finds BIGCOUNT, nobody has the set open. */
  lemma FoundUnused(run: seq<State>, i: nat, id: nat, p: nat)
    requires DisciplinedRun(run) && i + 1 < |run| && p < |run[i].procs| && p < |run[i + 1].procs|
    requires run[i].procs[p].pc == CloseCheck(id) && run[i + 1].procs[p].pc == Remove(id) && id in run[i + 1].sets
    ensures Unused(run[i + 1], id)
  {
    hide IsRun, Next, Apply, Opens, LockOk, UndoOk, Ranged, DebtOk, TablesOk;
    RunNext(run, i);
    var r := Mover(run[i], run[i + 1]);
    assert r == p;
    RunKeeps(run, i + 1);
    assert SetOk(run[i + 1], id) && Settled(run[i + 1].procs[p].pc, id);
    NoneOpen(run[i + 1].procs, id);
  }

  /** One step while p is about to remove the set: a process comes to have it open by op_open only, and stops
      having it open by dying only. */
  lemma OpenStep(s: State, s': State, p: nat, id: nat, q: nat)
    requires Next(s, s') && |s'.procs| == |s.procs| && p < |s.procs| && q < |s.procs|
    requires s.procs[p].pc == Remove(id) && s'.procs[p].pc == Remove(id)
    requires Inv(s) && Disciplined(s) && id in s.sets
    ensures s.procs[q].pc == Open(id) && s'.procs[q].pc.Idle? ==> NetOf(s'.procs[q], id) > 0
    ensures !(s.procs[q].pc == Open(id) && s'.procs[q].pc.Idle?) ==>
              || (NetOf(s'.procs[q], id) == NetOf(s.procs[q], id) && (s'.procs[q].pc.Dead? <==> s.procs[q].pc.Dead?))
              || (NetOf(s'.procs[q], id) == 0 && s'.procs[q].pc.Dead?)
    ensures s.procs[q].pc.Dead? ==> s'.procs[q].pc.Dead?
  {
    hide Next, Apply, Opens, Counted, Raw, UndoOk, TablesOk;
    var r := Mover(s, s');
    assert SetOk(s, id);
    assert Holding(s.procs[p].pc, id);
    CloseBlocked(s.sets[id].v);
    if q == r {
      assert NetStep(s, s', r, id);
    }
  }

  lemma CloseBlocked(v: Three)
    ensures v[2] != 0 ==> Apply(v, OP_CLOSE).Blocks?
  {
  }

  /** One process, from the check to any later state: it has the set open exactly if it slipped in. */
  lemma {:induction false} OpenSince(run: seq<State>, i: nat, j: nat, id: nat, p: nat, q: nat)
    requires DisciplinedRun(run) && Removing(run, i, j, id, p) && q < |run[j].procs|
    ensures NetOf(run[j].procs[q], id) > 0 <==> SlippedIn(run, i, j, id, q)
    decreases j
  {
    hide IsRun, Next, Inv, Ranged, DebtOk, Disciplined;
    ProcsStay(run, i, j);
    ProcsStay(run, i, i + 1);
    if j == i + 1 {
      FoundUnused(run, i, id, p);
    } else {
      RunNext(run, j - 1);
      ProcsStay(run, j - 1, j);
      SetThere(run, i, j, id, p);
      RunKeeps(run, j - 1);
      OpenSince(run, i, j - 1, id, p, q);
      OpenStep(run[j - 1], run[j], p, id, q);
      if OpensAt(run, j - 1, q, id) {
        assert SlippedIn(run, i, j, id, q);
      } else if SlippedIn(run, i, j, id, q) {
        var k: nat :| i < k < j && OpensAt(run, k, q, id);
        assert k < j - 1;
        assert SlippedIn(run, i, j - 1, id, q);
      }
      if SlippedIn(run, i, j - 1, id, q) {
        var k: nat :| i < k < j - 1 && OpensAt(run, k, q, id);
        assert i < k < j && OpensAt(run, k, q, id);
      }
    }
  }

  /** The set a process is about to remove has been there since. */
  lemma SetThere(run: seq<State>, i: nat, j: nat, id: nat, p: nat)
    requires IsRun(run) && Removing(run, i, j, id, p) && i + 1 < j
    ensures id in run[j - 1].sets && Removing(run, i, j - 1, id, p)
  {
    hide IsRun, Next;
    RunNext(run, j - 1);
    RunKeeps(run, j - 1);
    OldIds(run[j - 1], run[j]);
    assert Holding(run[j - 1].procs[p].pc, id);
    assert id >= run[j - 1].next ==> Fresh(run[j - 1].procs[p], id);
  }

  /** When sem_close is about to remove a set, some process has it open exactly if one completed op_open between
      the read of the counter and now, and has not died since. */
  lemma RemovalRace(run: seq<State>, i: nat, j: nat, id: nat, p: nat)
    requires DisciplinedRun(run) && Removing(run, i, j, id, p)
    ensures !Unused(run[j], id) <==> exists q: nat :: SlippedIn(run, i, j, id, q)
  {
    hide IsRun, Removing, SlippedIn;
    RemovingThere(run, i, j, id, p);
    forall q | 0 <= q < |run[j].procs|
      ensures NetOf(run[j].procs[q], id) != 0 <==> SlippedIn(run, i, j, id, q)
    {
      OpenSince(run, i, j, id, p, q);
      assert NetOf(run[j].procs[q], id) >= 0;
    }
    forall q: nat | SlippedIn(run, i, j, id, q)
      ensures 0 <= q < |run[j].procs|
    {
      SlippedThere(run, i, j, id, q);
    }
  }

  lemma RemovingThere(run: seq<State>, i: nat, j: nat, id: nat, p: nat)
    requires Removing(run, i, j, id, p)
    ensures j < |run| && id in run[j].sets
  {
  }

  lemma SlippedThere(run: seq<State>, i: nat, j: nat, id: nat, q: nat)
    requires SlippedIn(run, i, j, id, q)
    ensures j < |run| && q < |run[j].procs|
  {
  }

  /** Whoever is about to remove a set came to it from the check of the counter. */
  lemma {:induction false} CameToRemove(run: seq<State>, j: nat, id: nat, p: nat) returns (i: nat)
    requires IsRun(run) && j < |run| && p < |run[j].procs| && run[j].procs[p].pc == Remove(id) && id in run[j].sets
    ensures Removing(run, i, j, id, p)
    decreases j
  {
    hide IsRun, Next, Inv, Ranged, DebtOk;
    StartIdle(run);
    assert j > 0;
    ProcsStay(run, j - 1, j);
    RunNext(run, j - 1);
    var r := Mover(run[j - 1], run[j]);
    if run[j - 1].procs[p].pc == Remove(id) {
      KeptId(run, j, id, p);
      i := CameToRemove(run, j - 1, id, p);
    } else {
      assert r == p;
      i := j - 1;
    }
  }

  lemma StartIdle(run: seq<State>)
    requires IsRun(run)
    ensures |run| > 0 && forall p :: 0 <= p < |run[0].procs| ==> run[0].procs[p].pc.Idle?
  {
  }

  lemma KeptId(run: seq<State>, j: nat, id: nat, p: nat)
    requires IsRun(run) && 0 < j < |run| && p < |run[j - 1].procs| && Holding(run[j - 1].procs[p].pc, id)
    requires id in run[j].sets
    ensures id in run[j - 1].sets
  {
    hide IsRun, Next;
    RunNext(run, j - 1);
    RunKeeps(run, j - 1);
    OldIds(run[j - 1], run[j]);
    assert id >= run[j - 1].next ==> Fresh(run[j - 1].procs[p], id);
  }

  ghost predicate NoOpen(s: State) {
    forall p :: 0 <= p < |s.procs| ==> !s.procs[p].pc.OpenGet? && !s.procs[p].pc.Open?
  }

  /** So without sem_open, and without closes beyond opens, sem_close removes only what nobody has open. */
  lemma RemoveSafe(run: seq<State>, j: nat, id: nat, p: nat)
    requires DisciplinedRun(run) && forall i :: 0 <= i < |run| ==> NoOpen(run[i])
    requires j < |run| && id in run[j].sets && p < |run[j].procs| && run[j].procs[p].pc == Remove(id)
    ensures Unused(run[j], id)
  {
    hide IsRun, Disciplined, Removing;
    var i := CameToRemove(run, j, id, p);
    RemovalRace(run, i, j, id, p);
    forall q: nat
      ensures !SlippedIn(run, i, j, id, q)
    {
    }
  }
}
