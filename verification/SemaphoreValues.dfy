/** What each call of the semaphore wrapper does to the values of the set, in numbers, and what becomes of the
    user's value over whole runs. */
module SemaphoreValues {
  import opened Semaphore
  import opened SemaphoreShapes
  import opened SemaphoreRuns

  // ---------------------------------------------------------------- one call

  /** A short is the int modulo 2^16, in the range of a short. */
  lemma ShortMeans(value: int)
    ensures -32768 <= Short(value) <= 32767 && (Short(value) - value) % 65536 == 0
    ensures -32768 <= value <= 32767 ==> Short(value) == value
    ensures SemWait(3) == UserOp(3, -1) && SemSignal(3) == UserOp(3, 1)
  {
  }

  /** The set's values become these, the process goes on there, its undo record makes up for the difference, and
      its opens less its closes change by so many; no other set, no key and no other process changes. An open
      makes the id known. */
  ghost predicate Changes(s: State, s': State, p: nat, id: nat, a: int, b: int, c: int, pc: Pc, opens: int)
    requires id in s.sets && p < |s.procs|
  {
    && s'.keys == s.keys && s'.next == s.next && s'.sets.Keys == s.sets.Keys && |s'.procs| == |s.procs|
    && s'.sets[id].v == [a, b, c] && (forall i :: i in s.sets && i != id ==> s'.sets[i] == s.sets[i])
    && (forall q :: 0 <= q < |s.procs| && q != p ==> s'.procs[q] == s.procs[q])
    && s'.issued == (if opens == 1 then s.issued + {id} else s.issued)
    && s'.procs[p].pc == pc && Records(s.procs[p], s'.procs[p], id, s.sets[id].v, [a, b, c], opens)
  }

  ghost predicate Records(pr: Proc, pr': Proc, id: nat, v: Three, v': Three, opens: int) {
    && AdjOf(pr', id)[0] + v'[0] == AdjOf(pr, id)[0] + v[0]
    && AdjOf(pr', id)[1] + v'[1] == AdjOf(pr, id)[1] + v[1]
    && AdjOf(pr', id)[2] + v'[2] == AdjOf(pr, id)[2] + v[2]
    && (forall i :: i != id ==> AdjOf(pr', i) == AdjOf(pr, i))
    && forall i :: NetOf(pr', i) == NetOf(pr, i) + if i == id then opens else 0
  }

  /** The process only goes on. */
  ghost predicate Passes(s: State, s': State, p: nat, pc: Pc)
    requires p < |s.procs|
  {
    s' == s.(procs := s.procs[p := s.procs[p].(pc := pc)])
  }

  /** One member of the set is given a value, and forgotten by every undo record. */
  ghost predicate GivenValue(s: State, s': State, p: nat, id: nat, n: Member, x: int, pc: Pc)
    requires id in s.sets && p < |s.procs|
  {
    && s'.keys == s.keys && s'.next == s.next && s'.sets.Keys == s.sets.Keys && |s'.procs| == |s.procs|
    && s'.sets[id].v[n] == x && (forall m: Member :: m != n ==> s'.sets[id].v[m] == s.sets[id].v[m])
    && (forall i :: i in s.sets && i != id ==> s'.sets[i] == s.sets[i])
    && s'.procs[p].pc == pc && (forall q :: 0 <= q < |s.procs| && q != p ==> s'.procs[q].pc == s.procs[q].pc)
    && forall q, i: nat, m: Member :: 0 <= q < |s.procs| ==>
         AdjOf(s'.procs[q], i)[m] == if i == id && m == n then 0 else AdjOf(s.procs[q], i)[m]
  }

  /** The set is there no more, nor its key. */
  ghost predicate Gone(s: State, s': State, p: nat, id: nat)
    requires id in s.sets && p < |s.procs|
  {
    && id !in s'.sets && (forall i :: i in s'.sets <==> i in s.sets && i != id)
    && (forall i :: i in s'.sets ==> s'.sets[i] == s.sets[i]) && s.sets[id].key !in s'.keys
    && s'.next == s.next && |s'.procs| == |s.procs| && s'.procs[p] == s.procs[p].(pc := Idle)
    && forall q :: 0 <= q < |s.procs| && q != p ==> s'.procs[q] == s.procs[q]
  }

  ghost function Kept(x: int): int {
    if x < 0 then 0 else if x > 32767 then 32767 else x
  }

  /** The process is dead, and every value has its undo record added, kept between 0 and the largest value. */
  ghost predicate Dies(s: State, s': State, p: nat)
    requires p < |s.procs|
  {
    && s'.keys == s.keys && s'.next == s.next && s'.sets.Keys == s.sets.Keys && |s'.procs| == |s.procs|
    && s'.procs == s.procs[p := Proc(Dead, map[], map[])]
    && forall id :: id in s.sets ==>
         var v, adj := s.sets[id].v, AdjOf(s.procs[p], id);
         s'.sets[id].v == [Kept(v[0] + adj[0]), Kept(v[1] + adj[1]), Kept(v[2] + adj[2])]
  }

  /** A process at this call is asleep: on the lock, the counter or the user's value. */
  ghost predicate Sleeps(v: Three, pc: Pc) {
    || ((pc.Asleep? || pc.Close?) && v[2] != 0)
    || (pc.EndCreate? && (v[1] < 1 || v[2] < 1)) || (pc.Open? && v[1] < 1) || (pc.Unlock? && v[2] < 1)
    || (pc.UserOp? && pc.amount != 0 && v[0] + pc.amount < 0)
  }

  lemma SemopMeans(v: Three, adj: Three, pc: Pc)
    requires AtSemop(pc) && 0 <= v[0] <= SEMVMX && 0 <= v[1] <= SEMVMX && 0 <= v[2] <= 1
    ensures Apply(v, Array(pc)).Blocks? <==> Sleeps(v, pc)
    ensures Apply(v, Array(pc)).TooBig? <==>
            !Sleeps(v, pc) && ((pc.Close? && v[1] == SEMVMX) || (pc.UserOp? && v[0] + pc.amount > SEMVMX))
    ensures Apply(v, Array(pc)).Done? ==>
              Apply(v, Array(pc)).v == match pc
                                       case Asleep(_, _) => [v[0], v[1], 1]
                                       case EndCreate(_) => [v[0], v[1] - 1, 0]
                                       case Open(_) => [v[0], v[1] - 1, v[2]]
                                       case Close(_) => [v[0], v[1] + 1, 1]
                                       case Unlock(_) => [v[0], v[1], 0]
                                       case UserOp(_, amount) => [v[0] + amount, v[1], v[2]]
                                       case _ => v
    ensures Apply(v, Array(pc)).Done? ==>
              var v', adj' := Apply(v, Array(pc)).v, Adjusted(adj, Array(pc));
              adj'[0] + v'[0] == adj[0] + v[0] && adj'[1] + v'[1] == adj[1] + v[1] && adj'[2] + v'[2] == adj[2] + v[2]
  {
    hide Apply, Adjusted;
    if pc.Asleep? {
      LockArray(v, adj);
    } else if pc.EndCreate? {
      EndCreateArray(v, adj);
    } else if pc.Open? {
      OpenArray(v, adj);
    } else if pc.Close? {
      CloseArray(v, adj);
    } else if pc.Unlock? {
      UnlockArray(v, adj);
    } else {
      UserArray(v, adj, pc.amount);
    }
  }

  /** Values as the kernel keeps them, and the lock a lock. */
  ghost predicate Valued(s: State, id: nat) {
    id in s.sets ==>
      var v := s.sets[id].v;
      0 <= v[0] <= SEMVMX && 0 <= v[1] <= SEMVMX && 0 <= v[2] <= 1
  }

  /** A process can go on exactly if it is not asleep. */
  lemma EnabledMeans(s: State, p: nat)
    requires p < |s.procs| && forall id :: Valued(s, id)
    ensures var pc := s.procs[p].pc;
            Enabled(s, p) <==>
              !pc.Idle? && !pc.Dead? && !(AtSemop(pc) && pc.id in s.sets && Sleeps(s.sets[pc.id].v, pc))
  {
    hide Apply, Sleeps;
    var pc := s.procs[p].pc;
    if AtSemop(pc) && pc.id in s.sets {
      assert Valued(s, pc.id);
      SemopMeans(s.sets[pc.id].v, [0, 0, 0], pc);
    }
  }

  /** A new set for the key, with all values 0. */
  ghost predicate Made(s: State, s': State, p: nat, key: int, pc: Pc)
    requires p < |s.procs|
  {
    && s.next !in s.sets && s'.keys == s.keys[key := s.next] && s'.sets == s.sets[s.next := Set(key, [0, 0, 0])]
    && s'.next == s.next + 1 && s'.issued == s.issued && s'.procs == s.procs[p := s.procs[p].(pc := pc)]
  }

  /** What a call does, if its set is there. */
  ghost predicate DoesInSet(s: State, s': State, p: nat, id: nat)
    requires p < |s.procs| && id in s.sets
  {
    var v := s.sets[id].v;
    match s.procs[p].pc
    case Asleep(_, init) => v[2] == 0 && Changes(s, s', p, id, v[0], v[1], 1, Check(id, init), 0)
    case Check(_, init) => Passes(s, s', p, if v[1] == 0 then Init(id, init) else EndCreate(id))
    case Init(_, init) =>
      if 0 <= init <= 32767 then GivenValue(s, s', p, id, 0, init, Count(id)) else Dies(s, s', p)
    case Count(_) => GivenValue(s, s', p, id, 1, 10000, EndCreate(id))
    case EndCreate(_) => v[1] >= 1 && v[2] == 1 && Changes(s, s', p, id, v[0], v[1] - 1, 0, Idle, 1)
    case Open(_) => v[1] >= 1 && Changes(s, s', p, id, v[0], v[1] - 1, v[2], Idle, 1)
    case Close(_) =>
      && v[2] == 0
      && if v[1] < 32767 then Changes(s, s', p, id, v[0], v[1] + 1, 1, CloseCheck(id), -1) else Dies(s, s', p)
    case CloseCheck(_) =>
      if v[1] > 10000 then Dies(s, s', p) else Passes(s, s', p, if v[1] == 10000 then Remove(id) else Unlock(id))
    case Unlock(_) => v[2] == 1 && Changes(s, s', p, id, v[0], v[1], 0, Idle, 0)
    case UserOp(_, amount) =>
      if amount == 0 || v[0] + amount > 32767 then Dies(s, s', p)
      else v[0] + amount >= 0 && Changes(s, s', p, id, v[0] + amount, v[1], v[2], Idle, 0)
    case Remove(_) => Gone(s, s', p, id)
    case Rm(_) => Gone(s, s', p, id)
    case _ => true
  }

  /** What each call does. */
  ghost predicate Does(s: State, s': State, p: nat)
    requires p < |s.procs|
  {
    match s.procs[p].pc
    case Idle => false
    case Dead => false
    case Get(key, init) =>
      if key == 0 || key == -1 then Passes(s, s', p, Idle)
      else if key in s.keys then Passes(s, s', p, Lock(key, init, s.keys[key]))
      else Made(s, s', p, key, Lock(key, init, s.next))
    case OpenGet(key) =>
      Passes(s, s', p, if key == 0 || key == -1 || key !in s.keys then Idle else Open(s.keys[key]))
    case Lock(key, init, id) =>
      if id !in s.sets then Passes(s, s', p, Get(key, init))
      else
        var v := s.sets[id].v;
        if v[2] != 0 then Passes(s, s', p, Asleep(id, init))
        else Changes(s, s', p, id, v[0], v[1], 1, Check(id, init), 0)
    case _ =>
      var id := s.procs[p].pc.id;
      if id in s.sets then DoesInSet(s, s', p, id) else Dies(s, s', p)
  }

  lemma ExitDoes(s: State, p: nat)
    requires p < |s.procs|
    ensures Dies(s, Exit(s, p), p)
  {
  }

  lemma OperatedDoes(s: State, p: nat, id: nat, ops: seq<SemBuf>, v: Three, pc: Pc, opens: int)
    requires p < |s.procs| && id in s.sets
    requires var adj, adj' := AdjOf(s.procs[p], id), Adjusted(AdjOf(s.procs[p], id), ops);
             forall n: Member :: adj'[n] + v[n] == adj[n] + s.sets[id].v[n]
    ensures var s' := Operated(s, p, id, ops, v, pc, opens);
            Changes(s, if opens == 1 then Issue(s', id) else s', p, id, v[0], v[1], v[2], pc, opens)
  {
    hide Adjusted, Records;
    assert v == [v[0], v[1], v[2]];
    OperatedRecords(s, p, id, ops, v, pc, opens);
  }

  lemma OperatedRecords(s: State, p: nat, id: nat, ops: seq<SemBuf>, v: Three, pc: Pc, opens: int)
    requires p < |s.procs| && id in s.sets
    requires var adj, adj' := AdjOf(s.procs[p], id), Adjusted(AdjOf(s.procs[p], id), ops);
             forall n: Member :: adj'[n] + v[n] == adj[n] + s.sets[id].v[n]
    ensures Records(s.procs[p], Operated(s, p, id, ops, v, pc, opens).procs[p], id, s.sets[id].v, v, opens)
  {
    hide Adjusted;
    var zero: Member, one: Member, two: Member := 0, 1, 2;
    var adj, adj' := AdjOf(s.procs[p], id), Adjusted(AdjOf(s.procs[p], id), ops);
    assert adj'[zero] + v[zero] == adj[zero] + s.sets[id].v[zero];
    assert adj'[one] + v[one] == adj[one] + s.sets[id].v[one];
    assert adj'[two] + v[two] == adj[two] + s.sets[id].v[two];
  }

  lemma SemopDoes(s: State, p: nat, next: Pc, opens: int)
    requires p < |s.procs| && AtSemop(s.procs[p].pc) && s.procs[p].pc.id in s.sets && Valued(s, s.procs[p].pc.id)
    requires Enabled(s, p)
    ensures var pc := s.procs[p].pc;
            var v, s' := s.sets[pc.id].v, Operate(s, p, pc.id, Array(pc), next, opens);
            && !Sleeps(v, pc)
            && if (pc.Close? && v[1] == SEMVMX) || (pc.UserOp? && v[0] + pc.amount > SEMVMX) then Dies(s, s', p)
               else
                 var w: Three := match pc
                          case Asleep(_, _) => [v[0], v[1], 1]
                          case EndCreate(_) => [v[0], v[1] - 1, 0]
                          case Open(_) => [v[0], v[1] - 1, v[2]]
                          case Close(_) => [v[0], v[1] + 1, 1]
                          case Unlock(_) => [v[0], v[1], 0]
                          case UserOp(_, amount) => [v[0] + amount, v[1], v[2]]
                          case _ => v;
                 Changes(s, s', p, pc.id, w[0], w[1], w[2], next, opens)
  {
    hide Apply, Adjusted, Array, Dies, Changes, Exit, Operated, Sleeps;
    var pc := s.procs[p].pc;
    var r := Apply(s.sets[pc.id].v, Array(pc));
    SemopMeans(s.sets[pc.id].v, AdjOf(s.procs[p], pc.id), pc);
    ExitDoes(s, p);
    if r.Done? {
      OperatedDoes(s, p, pc.id, Array(pc), r.v, next, opens);
    }
  }

  lemma SetValDoes(s: State, p: nat, id: nat, n: Member, x: int, pc: Pc)
    requires p < |s.procs| && id in s.sets
    ensures GivenValue(s, SetVal(s, p, id, n, x, pc), p, id, n, x, pc)
  {
  }

  lemma LockDoes(s: State, p: nat, id: nat, next: Pc)
    requires p < |s.procs| && id in s.sets && Valued(s, id)
    ensures var v := s.sets[id].v;
            && (Apply(v, OP_LOCK).Blocks? <==> v[2] != 0)
            && (v[2] == 0 ==> Changes(s, Operate(s, p, id, OP_LOCK, next, 0), p, id, v[0], v[1], 1, next, 0))
  {
    hide Apply, Adjusted, Changes, Exit, Operated;
    var v := s.sets[id].v;
    LockArray(v, AdjOf(s.procs[p], id));
    if v[2] == 0 {
      OperatedDoes(s, p, id, OP_LOCK, v[2 := 1], next, 0);
    }
  }

  lemma SemopRuns(s: State, p: nat)
    requires p < |s.procs| && AtSemop(s.procs[p].pc) && s.procs[p].pc.id in s.sets && Valued(s, s.procs[p].pc.id)
    requires Enabled(s, p)
    ensures DoesInSet(s, Run(s, p), p, s.procs[p].pc.id)
  {
    hide Apply, Operate, Dies, Changes, Exit, Passes, Gone, GivenValue;
    match s.procs[p].pc
    case Asleep(id, init) => SemopDoes(s, p, Check(id, init), 0);
    case EndCreate(id) => SemopDoes(s, p, Idle, 1);
    case Open(id) => SemopDoes(s, p, Idle, 1);
    case Close(id) => SemopDoes(s, p, CloseCheck(id), -1);
    case Unlock(id) => SemopDoes(s, p, Idle, 0);
    case UserOp(id, amount) => SemopDoes(s, p, Idle, 0);
    case _ =>
  }

  /** Every call does that. */
  lemma RunDoes(s: State, p: nat)
    requires p < |s.procs| && Enabled(s, p) && s.next !in s.sets && forall id :: Valued(s, id)
    ensures Does(s, Run(s, p), p)
  {
    hide Apply, Operate, Dies, Changes, Exit, GivenValue, SetVal, Valued;
    var pc := s.procs[p].pc;
    ExitDoes(s, p);
    if pc.Lock? && pc.id in s.sets {
      assert Valued(s, pc.id);
      LockDoes(s, p, pc.id, Check(pc.id, pc.init));
    } else if AtSemop(pc) && pc.id in s.sets {
      assert Valued(s, pc.id);
      SemopRuns(s, p);
    } else if pc.Init? && pc.id in s.sets {
      SetValDoes(s, p, pc.id, 0, pc.init, Count(pc.id));
    } else if pc.Count? && pc.id in s.sets {
      SetValDoes(s, p, pc.id, 1, BIGCOUNT, EndCreate(pc.id));
    }
  }

  // ---------------------------------------------------------------- one step of a run

  /** The step is this process's: it calls something, does what it called, is refused, or dies. */
  ghost predicate Steps(s: State, s': State, p: nat) {
    && p < |s.procs|
    && (|| (s.procs[p].pc.Idle? && exists pc :: Callable(s, pc) && Passes(s, s', p, pc))
        || Does(s, s', p)
        || ((s.procs[p].pc.Get? || s.procs[p].pc.OpenGet?) && Passes(s, s', p, Idle))
        || (!s.procs[p].pc.Dead? && Dies(s, s', p)))
  }

  lemma AllValued(s: State, id: nat)
    requires Inv(s) && Ranged(s)
    ensures Valued(s, id)
  {
    hide Opens, Excess, Deficit;
    if id in s.sets {
      assert SetOk(s, id);
      OpensBounded(s.procs, id);
    }
  }

  lemma RunSteps(run: seq<State>, i: nat) returns (p: nat)
    requires IsRun(run) && i + 1 < |run|
    ensures Steps(run[i], run[i + 1], p)
  {
    hide IsRun, Inv, Ranged, Valued, Does, Dies, Run, Exit, Enabled, DebtOk;
    RunKeeps(run, i);
    RunNext(run, i);
    var s := run[i];
    var q, a :| Can(s, q, a) && run[i + 1] == Act(s, q, a);
    p := q;
    forall id ensures Valued(s, id) { AllValued(s, id); }
    if a.Go? {
      KnownIds(run, i, s.next);
      RunDoes(s, p);
    }
    ExitDoes(s, p);
    if a.Call? {
      assert Passes(s, run[i + 1], p, a.pc);
    }
  }

  /** The process has completed a sem_op on the set. */
  ghost predicate Finishes(s: State, s': State, q: nat, id: nat) {
    && q < |s.procs| && q < |s'.procs| && s.procs[q].pc.UserOp? && s.procs[q].pc.id == id && s'.procs[q].pc.Idle?
  }

  /** The process has given the set's value its initial value. */
  ghost predicate Initialises(s: State, s': State, q: nat, id: nat) {
    && q < |s.procs| && q < |s'.procs| && s.procs[q].pc.Init? && s.procs[q].pc.id == id && s'.procs[q].pc.Count?
  }

  ghost predicate DiesNow(s: State, s': State, q: nat) {
    q < |s.procs| && q < |s'.procs| && !s.procs[q].pc.Dead? && s'.procs[q].pc.Dead?
  }

  /** What the step does to the user's value, and to what processes would give back. */
  ghost predicate Values(s: State, s': State, p: nat, id: nat) {
    && p < |s.procs| == |s'.procs| && s.next <= s'.next
    && (forall q :: 0 <= q < |s.procs| && q != p ==> s'.procs[q].pc == s.procs[q].pc)
    && (forall q: nat :: q < |s.procs| ==>
          AdjOf(s'.procs[q], id)[0] ==
            if Initialises(s, s', p, id) || DiesNow(s, s', q) then 0
            else AdjOf(s.procs[q], id)[0] - if Finishes(s, s', q, id) then s.procs[q].pc.amount else 0)
    && (id in s.sets && id in s'.sets ==>
          s'.sets[id].v[0] ==
            var v := s.sets[id].v[0];
            if Initialises(s, s', p, id) then s.procs[p].pc.init
            else if DiesNow(s, s', p) then Kept(v + AdjOf(s.procs[p], id)[0])
            else if Finishes(s, s', p, id) then v + s.procs[p].pc.amount else v)
    && (id in s'.sets && id !in s.sets ==> id == s.next && s'.sets[id].v[0] == 0)
    && (id !in s.sets ==> !Finishes(s, s', p, id) && !Initialises(s, s', p, id))
  }

  lemma PassesValues(s: State, s': State, p: nat, pc: Pc, id: nat)
    requires p < |s.procs| && Passes(s, s', p, pc) && !pc.Dead? && !(pc.Idle? && s.procs[p].pc.UserOp?) && !pc.Count?
    ensures Values(s, s', p, id)
  {
  }

  lemma DiesValues(s: State, s': State, p: nat, id: nat)
    requires p < |s.procs| && Dies(s, s', p) && !s.procs[p].pc.Dead?
    ensures Values(s, s', p, id)
  {
  }

  lemma MadeValues(s: State, s': State, p: nat, key: int, pc: Pc, id: nat)
    requires p < |s.procs| && Made(s, s', p, key, pc) && pc.Lock?
    ensures Values(s, s', p, id)
  {
  }

  lemma GoneValues(s: State, s': State, p: nat, i: nat, id: nat)
    requires p < |s.procs| && i in s.sets && Gone(s, s', p, i) && (s.procs[p].pc.Remove? || s.procs[p].pc.Rm?)
    ensures Values(s, s', p, id)
  {
  }

  lemma GivenValues(s: State, s': State, p: nat, i: nat, n: Member, x: int, pc: Pc, id: nat)
    requires p < |s.procs| && i in s.sets && GivenValue(s, s', p, i, n, x, pc)
    requires || (s.procs[p].pc == Init(i, x) && n == 0 && pc == Count(i))
             || (s.procs[p].pc == Count(i) && n == 1 && pc == EndCreate(i))
    ensures Values(s, s', p, id)
  {
  }

  lemma ChangesValues(s: State, s': State, p: nat, i: nat, a: int, b: int, c: int, pc: Pc, opens: int, id: nat)
    requires p < |s.procs| && i in s.sets && Changes(s, s', p, i, a, b, c, pc, opens) && !pc.Dead? && !pc.Count?
    requires !s.procs[p].pc.Init? && !s.procs[p].pc.Dead?
    requires if s.procs[p].pc.UserOp?
             then s.procs[p].pc.id == i && a == s.sets[i].v[0] + s.procs[p].pc.amount && pc.Idle?
             else a == s.sets[i].v[0]
    ensures Values(s, s', p, id)
  {
  }

  lemma DoesInSetValues(s: State, s': State, p: nat, i: nat, id: nat)
    requires p < |s.procs| && i in s.sets && DoesInSet(s, s', p, i) && HasId(s.procs[p].pc) && s.procs[p].pc.id == i
    ensures Values(s, s', p, id)
  {
    hide Values, Changes, Passes, Dies, Gone, GivenValue;
    var v := s.sets[i].v;
    match s.procs[p].pc
    case Asleep(_, init) => ChangesValues(s, s', p, i, v[0], v[1], 1, Check(i, init), 0, id);
    case Check(_, init) => PassesValues(s, s', p, if v[1] == 0 then Init(i, init) else EndCreate(i), id);
    case Init(_, init) =>
      if 0 <= init <= 32767 {
        GivenValues(s, s', p, i, 0, init, Count(i), id);
      } else {
        DiesValues(s, s', p, id);
      }
    case Count(_) => GivenValues(s, s', p, i, 1, 10000, EndCreate(i), id);
    case EndCreate(_) => ChangesValues(s, s', p, i, v[0], v[1] - 1, 0, Idle, 1, id);
    case Open(_) => ChangesValues(s, s', p, i, v[0], v[1] - 1, v[2], Idle, 1, id);
    case Close(_) =>
      if v[1] < 32767 {
        ChangesValues(s, s', p, i, v[0], v[1] + 1, 1, CloseCheck(i), -1, id);
      } else {
        DiesValues(s, s', p, id);
      }
    case CloseCheck(_) =>
      if v[1] > 10000 {
        DiesValues(s, s', p, id);
      } else {
        PassesValues(s, s', p, if v[1] == 10000 then Remove(i) else Unlock(i), id);
      }
    case Unlock(_) => ChangesValues(s, s', p, i, v[0], v[1], 0, Idle, 0, id);
    case UserOp(_, amount) =>
      if amount == 0 || v[0] + amount > 32767 {
        DiesValues(s, s', p, id);
      } else {
        ChangesValues(s, s', p, i, v[0] + amount, v[1], v[2], Idle, 0, id);
      }
    case Remove(_) => GoneValues(s, s', p, i, id);
    case Rm(_) => GoneValues(s, s', p, i, id);
  }

  predicate HasId(pc: Pc) {
    !pc.Idle? && !pc.Dead? && !pc.Get? && !pc.OpenGet? && !pc.Lock?
  }

  lemma DoesValues(s: State, s': State, p: nat, id: nat)
    requires p < |s.procs| && Does(s, s', p)
    ensures Values(s, s', p, id)
  {
    hide Values, Changes, Passes, Dies, Made, DoesInSet;
    var pc := s.procs[p].pc;
    if HasId(pc) {
      if pc.id in s.sets {
        DoesInSetValues(s, s', p, pc.id, id);
      } else {
        DiesValues(s, s', p, id);
      }
    } else if pc.Get? && (pc.key == 0 || pc.key == -1) {
      PassesValues(s, s', p, Idle, id);
    } else if pc.Get? && pc.key in s.keys {
      PassesValues(s, s', p, Lock(pc.key, pc.init, s.keys[pc.key]), id);
    } else if pc.Get? {
      MadeValues(s, s', p, pc.key, Lock(pc.key, pc.init, s.next), id);
    } else if pc.OpenGet? {
      var next := if pc.key == 0 || pc.key == -1 || pc.key !in s.keys then Idle else Open(s.keys[pc.key]);
      PassesValues(s, s', p, next, id);
    } else if pc.id !in s.sets {
      PassesValues(s, s', p, Get(pc.key, pc.init), id);
    } else if s.sets[pc.id].v[2] != 0 {
      PassesValues(s, s', p, Asleep(pc.id, pc.init), id);
    } else {
      ChangesValues(s, s', p, pc.id, s.sets[pc.id].v[0], s.sets[pc.id].v[1], 1, Check(pc.id, pc.init), 0, id);
    }
  }

  lemma StepValues(s: State, s': State, p: nat, id: nat)
    requires Steps(s, s', p)
    ensures Values(s, s', p, id)
  {
    hide Values, Does, Dies, Passes;
    if Does(s, s', p) {
      DoesValues(s, s', p, id);
    } else if !s.procs[p].pc.Dead? && Dies(s, s', p) {
      DiesValues(s, s', p, id);
    } else if s.procs[p].pc.Idle? {
      var pc :| Callable(s, pc) && Passes(s, s', p, pc);
      PassesValues(s, s', p, pc, id);
    } else {
      PassesValues(s, s', p, Idle, id);
    }
  }

  // ---------------------------------------------------------------- whole runs

  ghost predicate InitStep(s: State, s': State, id: nat) {
    exists q: nat :: Initialises(s, s', q, id)
  }

  /** The amounts of the sem_ops that the process has completed on the set, up to state i, since the set was
      initialised and while it lives. */
  ghost function Work(run: seq<State>, i: nat, q: nat, id: nat): int
    requires i < |run|
  {
    if i == 0 then 0
    else if InitStep(run[i - 1], run[i], id) || DiesNow(run[i - 1], run[i], q) then 0
    else Work(run, i - 1, q, id) + if Finishes(run[i - 1], run[i], q, id) then run[i - 1].procs[q].pc.amount else 0
  }

  ghost function AllWork(run: seq<State>, i: nat, id: nat, n: nat): int
    requires i < |run|
  {
    if n == 0 then 0 else AllWork(run, i, id, n - 1) + Work(run, i, n - 1, id)
  }

  /** The initial value the set was last given, 0 before that. */
  ghost function Base(run: seq<State>, i: nat, id: nat): int
    requires i < |run|
  {
    if i == 0 then 0
    else if InitStep(run[i - 1], run[i], id) then
      var q: nat :| Initialises(run[i - 1], run[i], q, id);
      run[i - 1].procs[q].pc.init
    else Base(run, i - 1, id)
  }

  /** What the kernel cuts off at a death, to keep the value between 0 and the largest. */
  ghost function Cut(run: seq<State>, i: nat, id: nat): int
    requires i + 1 < |run|
  {
    var s, s' := run[i], run[i + 1];
    if id in s.sets && exists q: nat :: DiesNow(s, s', q) then
      var q: nat :| DiesNow(s, s', q);
      Kept(s.sets[id].v[0] - Work(run, i, q, id)) - (s.sets[id].v[0] - Work(run, i, q, id))
    else 0
  }

  ghost function AllCut(run: seq<State>, i: nat, id: nat): int
    requires i < |run|
  {
    if i == 0 || InitStep(run[i - 1], run[i], id) then 0 else AllCut(run, i - 1, id) + Cut(run, i - 1, id)
  }

  /** What a process would give back is what it has done. */
  lemma {:induction false} UndoIsWork(run: seq<State>, i: nat, q: nat, id: nat)
    requires IsRun(run) && i < |run| && q < |run[i].procs|
    ensures AdjOf(run[i].procs[q], id)[0] == -Work(run, i, q, id)
  {
    hide IsRun, Steps, Initialises, Finishes, DiesNow;
    if i == 0 {
      StartIs(run);
    } else {
      var p := RunSteps(run, i - 1);
      StepValues(run[i - 1], run[i], p, id);
      OnlyMover(run[i - 1], run[i], p, id);
      UndoIsWork(run, i - 1, q, id);
    }
  }

  lemma StartIs(run: seq<State>)
    requires IsRun(run)
    ensures exists n: nat :: run[0] == Start(n)
    ensures forall q, id :: 0 <= q < |run[0].procs| ==> AdjOf(run[0].procs[q], id) == [0, 0, 0]
    ensures run[0].sets == map[] && run[0].next == 0
  {
  }

  /** Only the process whose step it is initialises, finishes or dies. */
  lemma OnlyMover(s: State, s': State, p: nat, id: nat)
    requires Values(s, s', p, id)
    ensures InitStep(s, s', id) <==> Initialises(s, s', p, id)
    ensures forall q: nat :: Initialises(s, s', q, id) || Finishes(s, s', q, id) || DiesNow(s, s', q) ==> q == p
  {
  }

  lemma {:induction false} NoWork(run: seq<State>, i: nat, id: nat, n: nat)
    requires i < |run| && forall q: nat :: q < n ==> Work(run, i, q, id) == 0
    ensures AllWork(run, i, id, n) == 0
  {
    hide Work;
    if n > 0 {
      NoWork(run, i, id, n - 1);
    }
  }

  lemma {:induction false} WorkUpdate(run: seq<State>, i: nat, j: nat, id: nat, n: nat, p: nat)
    requires i < |run| && j < |run| && forall q: nat :: q < n && q != p ==> Work(run, j, q, id) == Work(run, i, q, id)
    ensures AllWork(run, j, id, n) ==
            AllWork(run, i, id, n) + if p < n then Work(run, j, p, id) - Work(run, i, p, id) else 0
  {
    hide Work;
    if n > 0 {
      WorkUpdate(run, i, j, id, n - 1, p);
    }
  }

  /** A set that was not there before the last step has no history. */
  lemma {:induction false} NoHistory(run: seq<State>, i: nat, id: nat, n: nat)
    requires IsRun(run) && i < |run| && (i > 0 ==> id >= run[i - 1].next)
    ensures Base(run, i, id) == 0 && AllCut(run, i, id) == 0
    ensures (forall q: nat :: Work(run, i, q, id) == 0) && AllWork(run, i, id, n) == 0
  {
    hide IsRun, Steps, Initialises, Finishes, DiesNow, Values;
    if i > 0 {
      KnownIds(run, i - 1, id);
      var p := RunSteps(run, i - 1);
      StepValues(run[i - 1], run[i], p, id);
      NotThere(run[i - 1], run[i], p, id);
      if i > 1 {
        var q := RunSteps(run, i - 2);
        StepValues(run[i - 2], run[i - 1], q, id);
        NextGrows(run[i - 2], run[i - 1], q, id);
      }
      NoHistory(run, i - 1, id, n);
    }
    NoWork(run, i, id, n);
  }

  lemma NotThere(s: State, s': State, p: nat, id: nat)
    requires Values(s, s', p, id) && id !in s.sets
    ensures !InitStep(s, s', id) && forall q: nat :: !Finishes(s, s', q, id)
  {
    OnlyMover(s, s', p, id);
  }

  lemma NextGrows(s: State, s': State, p: nat, id: nat)
    requires Values(s, s', p, id)
    ensures s.next <= s'.next && |s'.procs| == |s.procs|
  {
  }

  lemma KnownIds(run: seq<State>, i: nat, id: nat)
    requires IsRun(run) && i < |run|
    ensures id in run[i].sets ==> id < run[i].next
  {
    hide IsRun;
    RunKeeps(run, i);
  }

  /** At every point of every run the user's value is the initial value, plus the amounts of the sem_ops completed
      by the processes alive, plus what deaths cut off. */
  lemma {:induction false} ValueLaw(run: seq<State>, i: nat, id: nat)
    requires IsRun(run) && i < |run| && id in run[i].sets
    ensures run[i].sets[id].v[0] == Base(run, i, id) + AllWork(run, i, id, |run[i].procs|) + AllCut(run, i, id)
  {
    hide IsRun, Steps, Initialises, Finishes, DiesNow, Work, InitStep, Base, AllCut, AllWork;
    if i == 0 {
      StartIs(run);
    } else {
      var p := RunSteps(run, i - 1);
      StepValues(run[i - 1], run[i], p, id);
      if id in run[i - 1].sets {
        ValueLaw(run, i - 1, id);
        LawStep(run, i, id, p);
      } else {
        NoHistory(run, i, id, |run[i].procs|);
      }
    }
  }

  /** How the parts of the law move with one step. */
  lemma LawStep(run: seq<State>, i: nat, id: nat, p: nat)
    requires IsRun(run) && 0 < i < |run| && Values(run[i - 1], run[i], p, id)
    requires id in run[i - 1].sets && id in run[i].sets
    requires run[i - 1].sets[id].v[0] ==
             Base(run, i - 1, id) + AllWork(run, i - 1, id, |run[i].procs|) + AllCut(run, i - 1, id)
    ensures run[i].sets[id].v[0] == Base(run, i, id) + AllWork(run, i, id, |run[i].procs|) + AllCut(run, i, id)
  {
    hide IsRun, Initialises, Finishes, DiesNow, AllWork;
    var s, s', n := run[i - 1], run[i], |run[i].procs|;
    OnlyMover(s, s', p, id);
    UndoIsWork(run, i - 1, p, id);
    if Initialises(s, s', p, id) {
      NoWork(run, i, id, n);
    } else {
      WorkUpdate(run, i - 1, i, id, n, p);
      CutIs(run, i - 1, id, p);
    }
  }

  lemma CutIs(run: seq<State>, i: nat, id: nat, p: nat)
    requires i + 1 < |run| && id in run[i].sets
    requires var s, s' := run[i], run[i + 1]; forall q: nat :: DiesNow(s, s', q) ==> q == p
    ensures var x := run[i].sets[id].v[0] - Work(run, i, p, id);
            Cut(run, i, id) == if DiesNow(run[i], run[i + 1], p) then Kept(x) - x else 0
  {
    hide DiesNow, Work;
  }

  /** Whoever died, its work could be taken back in full. */
  ghost predicate NeverCut(run: seq<State>, i: nat, id: nat)
    requires i < |run|
  {
    forall k: nat, q: nat :: k < i && id in run[k].sets && DiesNow(run[k], run[k + 1], q) ==>
      0 <= run[k].sets[id].v[0] - Work(run, k, q, id) <= 32767
  }

  lemma {:induction false} NothingCut(run: seq<State>, i: nat, id: nat)
    requires i < |run| && NeverCut(run, i, id)
    ensures AllCut(run, i, id) == 0
  {
    hide DiesNow, Work, InitStep;
    if i > 0 {
      assert NeverCut(run, i - 1, id);
      NothingCut(run, i - 1, id);
    }
  }

  /** So in that range the value is the initial value plus the amounts of the sem_ops completed, less those that
      deaths have undone; and the processes alive have never taken more than the initial value and what they put. */
  lemma ValueSum(run: seq<State>, i: nat, id: nat)
    requires IsRun(run) && i < |run| && id in run[i].sets && NeverCut(run, i, id)
    ensures run[i].sets[id].v[0] == Base(run, i, id) + AllWork(run, i, id, |run[i].procs|)
    ensures -AllWork(run, i, id, |run[i].procs|) <= Base(run, i, id)
  {
    hide IsRun, NeverCut, Base, AllWork, AllCut;
    ValueLaw(run, i, id);
    NothingCut(run, i, id);
    RunKeeps(run, i);
    assert SetOk(run[i], id);
  }
}
