/** What one step of the semaphore wrapper does to the places and the opens of processes, and why closes
    without an open cannot pile up. */
module SemaphoreShapes {
  import opened Semaphore

  // ---------------------------------------------------------------- the mover and the others

  /** A step leaves the other processes' places and opens alone. */
  ghost predicate Shape(s: State, s': State, p: nat) {
    && p < |s.procs| && |s'.procs| == |s.procs|
    && forall q :: 0 <= q < |s.procs| && q != p ==> s'.procs[q].pc == s.procs[q].pc && s'.procs[q].net == s.procs[q].net
  }

  /** The process neither opened nor closed the set; if it was at the counter's check it went on with a counter
      that does not exceed BIGCOUNT. */
  ghost predicate NetSame(s: State, s': State, p: nat, id: nat)
    requires p < |s.procs| && p < |s'.procs|
  {
    var pr, pr' := s.procs[p], s'.procs[p];
    && NetOf(pr', id) == NetOf(pr, id) && !(pr.pc == Open(id) && pr'.pc.Idle?) && pr'.pc != CloseCheck(id)
    && !pr'.pc.Dead?
    && (pr.pc == CloseCheck(id) ==> id in s.sets && s.sets[id].v[1] <= BIGCOUNT)
  }

  /** A process's opens change at the end of sem_create, in sem_open, in sem_close and at its death. */
  ghost predicate NetStep(s: State, s': State, p: nat, id: nat)
    requires p < |s.procs| && p < |s'.procs|
  {
    var pr, pr' := s.procs[p], s'.procs[p];
    || NetSame(s, s', p, id)
    || (pr'.pc.Dead? && NetOf(pr', id) == 0)
    || (pr.pc == EndCreate(id) && pr'.pc.Idle? && NetOf(pr', id) == NetOf(pr, id) + 1)
    || (pr.pc == Open(id) && pr'.pc.Idle? && NetOf(pr', id) == NetOf(pr, id) + 1)
    || (pr.pc == Close(id) && pr'.pc == CloseCheck(id) && NetOf(pr', id) == NetOf(pr, id) - 1
        && id in s.sets && !Apply(s.sets[id].v, OP_CLOSE).Blocks?)
  }

  /** Only the counter's check comes to the removal, and with the counter at BIGCOUNT. */
  ghost predicate ToRemoval(s: State, s': State, p: nat)
    requires p < |s.procs| && p < |s'.procs|
  {
    s'.procs[p].pc.Remove? ==>
      var id := s'.procs[p].pc.id;
      s.procs[p].pc == CloseCheck(id) && id in s.sets && s.sets[id].v[1] == BIGCOUNT && s'.sets == s.sets
  }

  ghost predicate StepShape(s: State, s': State, p: nat) {
    Shape(s, s', p) && !s.procs[p].pc.Dead? && ToRemoval(s, s', p) && forall id :: NetStep(s, s', p, id)
  }

  lemma ExitShape(s: State, p: nat)
    requires p < |s.procs| && !s.procs[p].pc.Dead?
    ensures Shape(s, Exit(s, p), p) && Exit(s, p).procs[p] == Proc(Dead, map[], map[])
    ensures StepShape(s, Exit(s, p), p)
  {
    hide Apply;
  }

  lemma PlainShape(s: State, s': State, p: nat)
    requires Shape(s, s', p) && s'.procs[p].net == s.procs[p].net && !s.procs[p].pc.Dead? && !s'.procs[p].pc.Dead?
    requires !s'.procs[p].pc.Remove? && !s'.procs[p].pc.CloseCheck? && !s.procs[p].pc.CloseCheck?
    requires !s.procs[p].pc.Open?
    ensures StepShape(s, s', p)
  {
    hide Apply;
  }

  lemma OperatedNets(s: State, p: nat, id: nat, ops: seq<SemBuf>, v: Three, pc: Pc, opens: int)
    requires p < |s.procs| && id in s.sets
    ensures var s' := Operated(s, p, id, ops, v, pc, opens);
            && Shape(s, s', p) && s'.procs[p].pc == pc
            && forall i :: NetOf(s'.procs[p], i) == NetOf(s.procs[p], i) + (if i == id then opens else 0)
  {
    hide Adjusted;
  }

  /** A semop's step: to Idle or Dead, but from sem_close to the counter's check. */
  lemma SemopShape(s: State, p: nat, id: nat, ops: seq<SemBuf>, pc: Pc, opens: int)
    requires p < |s.procs| && id in s.sets && !s.procs[p].pc.CloseCheck? && !s.procs[p].pc.Dead? && !pc.Remove?
    requires !pc.Dead?
    requires || (opens == 0 && !pc.CloseCheck? && !s.procs[p].pc.Open?)
             || (opens == 1 && pc.Idle? && (s.procs[p].pc == EndCreate(id) || s.procs[p].pc == Open(id)))
             || (opens == -1 && pc == CloseCheck(id) && s.procs[p].pc == Close(id)
                 && !Apply(s.sets[id].v, OP_CLOSE).Blocks?)
    ensures StepShape(s, Operate(s, p, id, ops, pc, opens), p)
  {
    hide Apply, Operated, Exit, Shape;
    ExitShape(s, p);
    var r := Apply(s.sets[id].v, ops);
    if r.Done? {
      OperatedNets(s, p, id, ops, r.v, pc, opens);
      var s' := Operated(s, p, id, ops, r.v, pc, opens);
      assert StepShape(s, s', p);
      IssueShape(s, s', p, id);
    }
  }

  lemma IssueShape(s: State, s': State, p: nat, id: nat)
    requires StepShape(s, s', p) && !s'.procs[p].pc.Remove?
    ensures StepShape(s, Issue(s', id), p)
  {
    hide Apply;
    forall i ensures NetStep(s, Issue(s', id), p, i) {
      assert NetStep(s, s', p, i);
    }
  }

  lemma RunShape(s: State, p: nat)
    requires p < |s.procs| && Enabled(s, p)
    ensures StepShape(s, Run(s, p), p)
  {
    hide Apply, Exit, Operate, SetVal, StepShape;
    var pc := s.procs[p].pc;
    ExitShape(s, p);
    if pc.CloseCheck? {
      CheckShape(s, p);
    } else if pc.Lock? && pc.id in s.sets && !Apply(s.sets[pc.id].v, OP_LOCK).Blocks? {
      SemopShape(s, p, pc.id, OP_LOCK, Check(pc.id, pc.init), 0);
    } else if AtSemop(pc) && pc.id in s.sets {
      AtSemopShape(s, p);
    } else {
      if (pc.Init? || pc.Count?) && pc.id in s.sets {
        InitShape(s, p);
      }
      if Run(s, p) != Exit(s, p) {
        PlainShape(s, Run(s, p), p);
      }
    }
  }

  lemma InitShape(s: State, p: nat)
    requires p < |s.procs| && (s.procs[p].pc.Init? || s.procs[p].pc.Count?) && s.procs[p].pc.id in s.sets
    ensures var pc := s.procs[p].pc;
            var s' := if pc.Init? then SetVal(s, p, pc.id, 0, pc.init, Count(pc.id))
                      else SetVal(s, p, pc.id, 1, BIGCOUNT, EndCreate(pc.id));
            && Shape(s, s', p) && (s'.procs[p].pc.Count? || s'.procs[p].pc.EndCreate?)
            && s'.procs[p].net == s.procs[p].net
  {
  }

  lemma CheckShape(s: State, p: nat)
    requires p < |s.procs| && s.procs[p].pc.CloseCheck? && Enabled(s, p)
    ensures StepShape(s, Run(s, p), p)
  {
    hide Apply, Exit;
    ExitShape(s, p);
  }

  lemma AtSemopShape(s: State, p: nat)
    requires p < |s.procs| && AtSemop(s.procs[p].pc) && s.procs[p].pc.id in s.sets && Enabled(s, p)
    ensures StepShape(s, Run(s, p), p)
  {
    hide Apply, Operate, StepShape;
    match s.procs[p].pc
    case Asleep(id, init) => SemopShape(s, p, id, OP_LOCK, Check(id, init), 0);
    case EndCreate(id) => SemopShape(s, p, id, OP_ENDCREATE, Idle, 1);
    case Open(id) => SemopShape(s, p, id, OP_OPEN, Idle, 1);
    case Close(id) => SemopShape(s, p, id, OP_CLOSE, CloseCheck(id), -1);
    case Unlock(id) => SemopShape(s, p, id, OP_UNLOCK, Idle, 0);
    case UserOp(id, amount) => SemopShape(s, p, id, OpOp(amount), Idle, 0);
    case _ =>
  }

  lemma ActShape(s: State, p: nat, a: Action)
    requires Can(s, p, a)
    ensures StepShape(s, Act(s, p, a), p)
  {
    hide Apply, Run, Exit, Enabled, StepShape;
    match a
    case Go => RunShape(s, p);
    case Die => ExitShape(s, p);
    case _ => PlainShape(s, Act(s, p, a), p);
  }

  /** Every step has a mover. */
  lemma Mover(s: State, s': State) returns (p: nat)
    requires Next(s, s')
    ensures p < |s.procs| && StepShape(s, s', p)
  {
    hide Can, Act, StepShape;
    var q, a :| Can(s, q, a) && s' == Act(s, q, a);
    p := q;
    ActShape(s, p, a);
    CanMove(s, p, a);
  }

  lemma CanMove(s: State, p: nat, a: Action)
    requires Can(s, p, a)
    ensures p < |s.procs|
  {
  }

  lemma OldIds(s: State, s': State)
    requires Next(s, s')
    ensures s.next <= s'.next
    ensures forall id :: id in s'.sets && id < s.next ==> id in s.sets
  {
    hide Apply;
    var p, a :| Can(s, p, a) && s' == Act(s, p, a);
  }

  // ---------------------------------------------------------------- debts

  /** How far a process's closes exceed its opens, not counting a close that has not passed the check yet. */
  ghost function Owed(pr: Proc, id: nat): nat {
    var net := NetOf(pr, id) + Bit(pr.pc == CloseCheck(id));
    if net < 0 then -net else 0
  }

  ghost function Debt(procs: seq<Proc>, id: nat): nat {
    if procs == [] then 0 else Owed(procs[0], id) + Debt(procs[1..], id)
  }

  /** How many processes are at the check. */
  ghost function Checking(procs: seq<Proc>, id: nat): nat {
    if procs == [] then 0 else Bit(procs[0].pc == CloseCheck(id)) + Checking(procs[1..], id)
  }

  ghost predicate DebtOk(s: State) {
    forall id :: id in s.sets ==> Debt(s.procs, id) < BIGCOUNT
  }

  /** Fewer than BIGCOUNT opens. */
  ghost predicate Modest(s: State) {
    forall id :: id in s.sets ==> Excess(s.procs, id) < BIGCOUNT
  }

  lemma {:induction false} DebtUpdate(procs: seq<Proc>, procs': seq<Proc>, p: nat, id: nat)
    requires p < |procs| == |procs'|
    requires forall q :: 0 <= q < |procs| && q != p ==> Owed(procs'[q], id) == Owed(procs[q], id)
    ensures Debt(procs', id) == Debt(procs, id) - Owed(procs[p], id) + Owed(procs'[p], id)
  {
    hide Owed;
    if p > 0 {
      DebtUpdate(procs[1..], procs'[1..], p - 1, id);
    } else {
      DebtSame(procs[1..], procs'[1..], id);
    }
  }

  lemma {:induction false} DebtSame(procs: seq<Proc>, procs': seq<Proc>, id: nat)
    requires |procs| == |procs'| && forall q :: 0 <= q < |procs| ==> Owed(procs'[q], id) == Owed(procs[q], id)
    ensures Debt(procs', id) == Debt(procs, id)
  {
    hide Owed;
    if procs != [] {
      DebtSame(procs[1..], procs'[1..], id);
    }
  }

  lemma {:induction false} DebtNone(procs: seq<Proc>, id: nat)
    requires forall q :: 0 <= q < |procs| ==> Owed(procs[q], id) == 0
    ensures Debt(procs, id) == 0
  {
    hide Owed;
    if procs != [] {
      DebtNone(procs[1..], id);
    }
  }

  /** A close at the check is all that the deficit can exceed the debt by. */
  lemma {:induction false} DebtDeficit(procs: seq<Proc>, id: nat)
    ensures Debt(procs, id) <= Deficit(procs, id) <= Debt(procs, id) + Checking(procs, id)
  {
    if procs != [] {
      DebtDeficit(procs[1..], id);
    }
  }

  lemma {:induction false} OneChecks(procs: seq<Proc>, id: nat)
    requires forall p, q :: 0 <= p < q < |procs| ==> !(procs[p].pc == CloseCheck(id) && procs[q].pc == CloseCheck(id))
    ensures Checking(procs, id) <= 1
  {
    if procs != [] {
      OneChecks(procs[1..], id);
      if procs[0].pc == CloseCheck(id) {
        NoneChecks(procs[1..], id);
      }
    }
  }

  lemma {:induction false} NoneChecks(procs: seq<Proc>, id: nat)
    requires forall p :: 0 <= p < |procs| ==> procs[p].pc != CloseCheck(id)
    ensures Checking(procs, id) == 0
  {
    if procs != [] {
      NoneChecks(procs[1..], id);
    }
  }

  lemma {:induction false} DeficitSame(procs: seq<Proc>, procs': seq<Proc>, id: nat)
    requires |procs| == |procs'| && forall q :: 0 <= q < |procs| ==> NetOf(procs'[q], id) == NetOf(procs[q], id)
    ensures Deficit(procs', id) == Deficit(procs, id)
  {
    if procs != [] {
      DeficitSame(procs[1..], procs'[1..], id);
    }
  }

  /** With debts below BIGCOUNT every counter stays within the kernel's range. */
  lemma DebtRanged(s: State)
    requires Inv(s) && Modest(s) && DebtOk(s)
    ensures Ranged(s)
  {
    forall id | id in s.sets
      ensures Excess(s.procs, id) < BIGCOUNT && Deficit(s.procs, id) <= SEMVMX - BIGCOUNT
    {
      assert SetOk(s, id);
      LockSingles(s, id);
      DebtDeficit(s.procs, id);
      OneChecks(s.procs, id);
    }
  }

  lemma LockSingles(s: State, id: nat)
    requires id in s.sets && LockOk(s, id)
    ensures forall p, q :: 0 <= p < q < |s.procs| ==>
              !(s.procs[p].pc == CloseCheck(id) && s.procs[q].pc == CloseCheck(id))
  {
    forall p, q | 0 <= p < q < |s.procs|
      ensures !(s.procs[p].pc == CloseCheck(id) && s.procs[q].pc == CloseCheck(id))
    {
      assert s.procs[p].pc == CloseCheck(id) ==> Holding(s.procs[p].pc, id);
      assert s.procs[q].pc == CloseCheck(id) ==> Holding(s.procs[q].pc, id);
    }
  }

  /** A close that passes the check leaves no more closes than opens. */
  lemma Passed(s: State, s': State, p: nat, id: nat)
    requires p < |s.procs| && id in s.sets && SetOk(s, id) && Modest(s) && Shape(s, s', p)
    requires s.procs[p].pc == CloseCheck(id) && NetSame(s, s', p, id)
    ensures Debt(s'.procs, id) < BIGCOUNT
  {
    hide LockOk, UndoOk;
    assert Settled(s.procs[p].pc, id);
    OpensBounded(s.procs, id);
    DeficitSame(s.procs, s'.procs, id);
    DebtDeficit(s'.procs, id);
  }

  lemma DebtStep(s: State, s': State)
    requires Inv(s) && Modest(s) && DebtOk(s) && Next(s, s')
    ensures DebtOk(s')
  {
    hide Inv, Next, Owed, StepShape, Modest;
    var p := Mover(s, s');
    OldIds(s, s');
    forall id | id in s'.sets
      ensures Debt(s'.procs, id) < BIGCOUNT
    {
      if id in s.sets {
        DebtStepOn(s, s', p, id);
      } else {
        DebtNew(s, s', p, id);
      }
    }
  }

  lemma DebtStepOn(s: State, s': State, p: nat, id: nat)
    requires Inv(s) && Modest(s) && p < |s.procs| && StepShape(s, s', p) && id in s.sets && Debt(s.procs, id) < BIGCOUNT
    ensures Debt(s'.procs, id) < BIGCOUNT
  {
    hide TablesOk, Modest, SetOk, Apply;
    assert NetStep(s, s', p, id);
    if s.procs[p].pc == CloseCheck(id) && NetSame(s, s', p, id) {
      Passed(s, s', p, id);
    } else {
      DebtUpdate(s.procs, s'.procs, p, id);
    }
  }

  /** A set that did not exist before has no debts. */
  lemma DebtNew(s: State, s': State, p: nat, id: nat)
    requires Inv(s) && p < |s.procs| && StepShape(s, s', p) && id >= s.next
    ensures Debt(s'.procs, id) < BIGCOUNT
  {
    hide SetOk, Apply;
    forall q | 0 <= q < |s.procs|
      ensures NetOf(s.procs[q], id) == 0 && !Holding(s.procs[q].pc, id)
    {
      assert Fresh(s.procs[q], id);
    }
    assert NetStep(s, s', p, id);
    DebtNone(s.procs, id);
    DebtUpdate(s.procs, s'.procs, p, id);
  }
}
