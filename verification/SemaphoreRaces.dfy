/** Two runs in which sem_close removes a semaphore set that another process has open: one
    because sem_open takes no lock, one because a process closes what it never opened. */
module SemaphoreRaces {
  import opened Semaphore
  import opened SemaphoreShapes
  import opened SemaphoreRuns

  /** Two processes and the set 0 of key 7. */
  ghost predicate Stage(s: State, users: int, lock: int, pc0: Pc, net0: int, pc1: Pc, net1: int) {
    && 7 in s.keys && s.keys[7] == 0
    && s.sets.Keys == {0} && s.sets[0].v[1] == users && s.sets[0].v[2] == lock
    && |s.procs| == 2
    && s.procs[0].pc == pc0 && NetOf(s.procs[0], 0) == net0
    && s.procs[1].pc == pc1 && NetOf(s.procs[1], 0) == net1
  }

  lemma OneProc(pr: Proc, id: nat)
    requires -1 <= NetOf(pr, id) <= 1
    ensures Excess([pr], id) <= 1
  {
    assert [pr][1..] == [];
    assert Excess([], id) == 0;
  }

  lemma Small(s: State, users: int, lock: int, pc0: Pc, net0: int, pc1: Pc, net1: int)
    requires Stage(s, users, lock, pc0, net0, pc1, net1) && -1 <= net0 <= 1 && -1 <= net1 <= 1
    ensures Modest(s)
  {
    OneProc(s.procs[1], 0);
    assert s.procs[1..] == [s.procs[1]];
  }

  /** A run, none of whose processes closes more than it opened, up to a stage. */
  ghost predicate Reaches(run: seq<State>, users: int, lock: int, pc0: Pc, net0: int, pc1: Pc, net1: int) {
    && IsRun(run) && (forall i :: 0 <= i < |run| - 1 ==> Disciplined(run[i]))
    && |run| > 0 && Stage(run[|run| - 1], users, lock, pc0, net0, pc1, net1)
    && 0 <= net0 <= 1 && 0 <= net1 <= 1
  }

  lemma StageDisciplined(s: State, users: int, lock: int, pc0: Pc, net0: int, pc1: Pc, net1: int)
    requires Stage(s, users, lock, pc0, net0, pc1, net1) && 0 <= net0 && 0 <= net1
    ensures Disciplined(s)
  {
    forall p, id | 0 <= p < |s.procs| && id in s.sets
      ensures NetOf(s.procs[p], id) >= 0
    {
      assert id == 0 && (p == 0 || p == 1);
    }
  }

  /** One more step of a run. */
  lemma Extend(run: seq<State>, p: nat, a: Action)
    requires IsRun(run) && |run| > 0 && Can(run[|run| - 1], p, a) && Modest(Act(run[|run| - 1], p, a))
    ensures IsRun(run + [Act(run[|run| - 1], p, a)])
  {
    hide Modest, Can, Act;
    var longer := run + [Act(run[|run| - 1], p, a)];
    forall i | 0 <= i < |longer| - 1
      ensures Next(longer[i], longer[i + 1])
    {
      if i < |run| - 1 {
        assert Next(run[i], run[i + 1]);
      }
    }
  }

  lemma Then(run: seq<State>, users: int, lock: int, pc0: Pc, net0: int, pc1: Pc, net1: int, p: nat, a: Action,
             users': int, lock': int, pc0': Pc, net0': int, pc1': Pc, net1': int)
    returns (longer: seq<State>)
    requires Reaches(run, users, lock, pc0, net0, pc1, net1)
    requires |run| > 0 && Can(run[|run| - 1], p, a)
    requires Stage(Act(run[|run| - 1], p, a), users', lock', pc0', net0', pc1', net1')
    requires 0 <= net0' <= 1 && 0 <= net1' <= 1
    ensures Reaches(longer, users', lock', pc0', net0', pc1', net1')
    ensures longer == run + [Act(run[|run| - 1], p, a)]
  {
    hide IsRun, Stage, Disciplined, Act, Can;
    var s, s' := run[|run| - 1], Act(run[|run| - 1], p, a);
    StageDisciplined(s, users, lock, pc0, net0, pc1, net1);
    Small(s', users', lock', pc0', net0', pc1', net1');
    Extend(run, p, a);
    longer := run + [s'];
  }

  // ---------------------------------------------------------------- the first process creates the set

  lemma Created0() returns (run: seq<State>)
    ensures Reaches(run, 0, 0, Lock(7, 1, 0), 0, Idle, 0)
  {
    var s0 := Start(2);
    var s1 := Act(s0, 0, Call(Get(7, 1)));
    assert Next(s0, s1);
    var s2 := Act(s1, 0, Go);
    assert Next(s1, s2);
    Small(s2, 0, 0, Lock(7, 1, 0), 0, Idle, 0);
    run := [s0, s1, s2];
  }

  lemma Locked0(s: State)
    requires Stage(s, 0, 0, Lock(7, 1, 0), 0, Idle, 0)
    ensures Can(s, 0, Go) && Stage(Act(s, 0, Go), 0, 1, Check(0, 1), 0, Idle, 0)
  {
    hide Apply, Adjusted;
    LockArray(s.sets[0].v, AdjOf(s.procs[0], 0));
  }

  lemma Checked0(s: State)
    requires Stage(s, 0, 1, Check(0, 1), 0, Idle, 0)
    ensures Can(s, 0, Go) && Stage(Act(s, 0, Go), 0, 1, Init(0, 1), 0, Idle, 0)
  {
  }

  lemma Valued0(s: State)
    requires Stage(s, 0, 1, Init(0, 1), 0, Idle, 0)
    ensures Can(s, 0, Go) && Stage(Act(s, 0, Go), 0, 1, Count(0), 0, Idle, 0)
  {
  }

  lemma Counted0(s: State)
    requires Stage(s, 0, 1, Count(0), 0, Idle, 0)
    ensures Can(s, 0, Go) && Stage(Act(s, 0, Go), BIGCOUNT, 1, EndCreate(0), 0, Idle, 0)
  {
  }

  lemma Opened0(s: State)
    requires Stage(s, BIGCOUNT, 1, EndCreate(0), 0, Idle, 0)
    ensures Can(s, 0, Go) && Stage(Act(s, 0, Go), BIGCOUNT - 1, 0, Idle, 1, Idle, 0) && 0 in Act(s, 0, Go).issued
  {
    hide Apply, Adjusted;
    EndCreateArray(s.sets[0].v, AdjOf(s.procs[0], 0));
  }

  lemma Creates() returns (run: seq<State>)
    ensures Reaches(run, BIGCOUNT - 1, 0, Idle, 1, Idle, 0) && 0 in run[|run| - 1].issued
  {
    hide Stage, Act, Can, IsRun, Disciplined;
    run := Created0();
    Locked0(run[|run| - 1]);
    run := Then(run, 0, 0, Lock(7, 1, 0), 0, Idle, 0, 0, Go, 0, 1, Check(0, 1), 0, Idle, 0);
    Checked0(run[|run| - 1]);
    run := Then(run, 0, 1, Check(0, 1), 0, Idle, 0, 0, Go, 0, 1, Init(0, 1), 0, Idle, 0);
    Valued0(run[|run| - 1]);
    run := Then(run, 0, 1, Init(0, 1), 0, Idle, 0, 0, Go, 0, 1, Count(0), 0, Idle, 0);
    Counted0(run[|run| - 1]);
    run := Then(run, 0, 1, Count(0), 0, Idle, 0, 0, Go, BIGCOUNT, 1, EndCreate(0), 0, Idle, 0);
    Opened0(run[|run| - 1]);
    run := Then(run, BIGCOUNT, 1, EndCreate(0), 0, Idle, 0, 0, Go, BIGCOUNT - 1, 0, Idle, 1, Idle, 0);
  }

  // ---------------------------------------------------------------- an open slips in before the removal

  lemma Closing0(s: State)
    requires Stage(s, BIGCOUNT - 1, 0, Idle, 1, Idle, 0) && 0 in s.issued
    ensures Can(s, 0, Call(Close(0))) && Stage(Act(s, 0, Call(Close(0))), BIGCOUNT - 1, 0, Close(0), 1, Idle, 0)
  {
  }

  lemma Closed0(s: State)
    requires Stage(s, BIGCOUNT - 1, 0, Close(0), 1, Idle, 0)
    ensures Can(s, 0, Go) && Stage(Act(s, 0, Go), BIGCOUNT, 1, CloseCheck(0), 0, Idle, 0)
  {
    hide Apply, Adjusted;
    CloseArray(s.sets[0].v, AdjOf(s.procs[0], 0));
  }

  lemma Looked0(s: State)
    requires Stage(s, BIGCOUNT, 1, CloseCheck(0), 0, Idle, 0)
    ensures Can(s, 0, Go) && Stage(Act(s, 0, Go), BIGCOUNT, 1, Remove(0), 0, Idle, 0)
  {
  }

  lemma Opening1(s: State)
    requires Stage(s, BIGCOUNT, 1, Remove(0), 0, Idle, 0)
    ensures Can(s, 1, Call(OpenGet(7))) && Stage(Act(s, 1, Call(OpenGet(7))), BIGCOUNT, 1, Remove(0), 0, OpenGet(7), 0)
  {
  }

  lemma Found1(s: State)
    requires Stage(s, BIGCOUNT, 1, Remove(0), 0, OpenGet(7), 0)
    ensures Can(s, 1, Go) && Stage(Act(s, 1, Go), BIGCOUNT, 1, Remove(0), 0, Open(0), 0)
  {
  }

  lemma Opened1(s: State)
    requires Stage(s, BIGCOUNT, 1, Remove(0), 0, Open(0), 0)
    ensures Can(s, 1, Go) && Stage(Act(s, 1, Go), BIGCOUNT - 1, 1, Remove(0), 0, Idle, 1)
  {
    hide Apply, Adjusted;
    OpenArray(s.sets[0].v, AdjOf(s.procs[1], 0));
  }

  lemma Lost(s: State)
    requires Stage(s, BIGCOUNT - 1, 1, Remove(0), 0, Idle, 1)
    ensures Can(s, 0, Go) && 0 !in Act(s, 0, Go).sets && NetOf(Act(s, 0, Go).procs[1], 0) == 1
  {
  }

  /** With sem_open, sem_close can remove a set that another process has just opened. */
  lemma OpenSlipsIn() returns (run: seq<State>)
    ensures IsRun(run) && (forall i :: 0 <= i < |run| ==> Disciplined(run[i]))
    ensures |run| > 0 && var s := run[|run| - 1];
            && |s.procs| == 2 && s.procs[0].pc == Remove(0) && 0 in s.sets && NetOf(s.procs[1], 0) == 1
            && Can(s, 0, Go) && 0 !in Act(s, 0, Go).sets
  {
    hide Act, Can, IsRun, Disciplined;
    run := Creates();
    Closing0(run[|run| - 1]);
    run := Then(run, BIGCOUNT - 1, 0, Idle, 1, Idle, 0, 0, Call(Close(0)), BIGCOUNT - 1, 0, Close(0), 1, Idle, 0);
    Closed0(run[|run| - 1]);
    run := Then(run, BIGCOUNT - 1, 0, Close(0), 1, Idle, 0, 0, Go, BIGCOUNT, 1, CloseCheck(0), 0, Idle, 0);
    Looked0(run[|run| - 1]);
    run := Then(run, BIGCOUNT, 1, CloseCheck(0), 0, Idle, 0, 0, Go, BIGCOUNT, 1, Remove(0), 0, Idle, 0);
    Opening1(run[|run| - 1]);
    run := Then(run, BIGCOUNT, 1, Remove(0), 0, Idle, 0, 1, Call(OpenGet(7)), BIGCOUNT, 1, Remove(0), 0, OpenGet(7), 0);
    Found1(run[|run| - 1]);
    run := Then(run, BIGCOUNT, 1, Remove(0), 0, OpenGet(7), 0, 1, Go, BIGCOUNT, 1, Remove(0), 0, Open(0), 0);
    Opened1(run[|run| - 1]);
    run := Then(run, BIGCOUNT, 1, Remove(0), 0, Open(0), 0, 1, Go, BIGCOUNT - 1, 1, Remove(0), 0, Idle, 1);
    StageDisciplined(run[|run| - 1], BIGCOUNT - 1, 1, Remove(0), 0, Idle, 1);
    Lost(run[|run| - 1]);
  }

  // ---------------------------------------------------------------- a close without an open

  lemma Closing1(s: State)
    requires Stage(s, BIGCOUNT - 1, 0, Idle, 1, Idle, 0) && 0 in s.issued
    ensures Can(s, 1, Call(Close(0))) && Stage(Act(s, 1, Call(Close(0))), BIGCOUNT - 1, 0, Idle, 1, Close(0), 0)
  {
  }

  lemma Closed1(s: State)
    requires Stage(s, BIGCOUNT - 1, 0, Idle, 1, Close(0), 0)
    ensures Can(s, 1, Go) && Stage(Act(s, 1, Go), BIGCOUNT, 1, Idle, 1, CloseCheck(0), -1)
  {
    hide Apply, Adjusted;
    CloseArray(s.sets[0].v, AdjOf(s.procs[1], 0));
  }

  lemma Looked1(s: State)
    requires Stage(s, BIGCOUNT, 1, Idle, 1, CloseCheck(0), -1)
    ensures Can(s, 1, Go) && Stage(Act(s, 1, Go), BIGCOUNT, 1, Idle, 1, Remove(0), -1)
  {
  }

  /** Without sem_open: a process that closes a set it never opened removes it from under its one user. */
  lemma CloseTooMany() returns (run: seq<State>)
    ensures IsRun(run)
    ensures |run| > 0 && var s := run[|run| - 1];
            |s.procs| == 2 && s.procs[1].pc == Remove(0) && 0 in s.sets && NetOf(s.procs[0], 0) == 1
  {
    hide Act, Can, IsRun, Disciplined;
    run := Creates();
    Closing1(run[|run| - 1]);
    run := Then(run, BIGCOUNT - 1, 0, Idle, 1, Idle, 0, 1, Call(Close(0)), BIGCOUNT - 1, 0, Idle, 1, Close(0), 0);
    Closed1(run[|run| - 1]);
    Small(Act(run[|run| - 1], 1, Go), BIGCOUNT, 1, Idle, 1, CloseCheck(0), -1);
    Extend(run, 1, Go);
    run := run + [Act(run[|run| - 1], 1, Go)];
    Looked1(run[|run| - 1]);
    Small(Act(run[|run| - 1], 1, Go), BIGCOUNT, 1, Idle, 1, Remove(0), -1);
    Extend(run, 1, Go);
    run := run + [Act(run[|run| - 1], 1, Go)];
  }
}
