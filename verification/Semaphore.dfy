/** The System V semaphore wrapper: sem_create, sem_open, sem_close, sem_op and sem_rm as
    programs of atomic kernel calls, run by any number of processes that may die at any step. */
module Semaphore {

  const BIGCOUNT: int := 10000

  /** The kernel's largest semaphore value. */
  const SEMVMX: int := 32767

  const IPC_PRIVATE: int := 0

  /** The members of the set: the user's value, the process counter and the lock. */
  type Three = v: seq<int> | |v| == 3 witness [0, 0, 0]

  type Member = n: nat | n < 3

  datatype SemBuf = SemBuf(num: Member, op: int, undo: bool)

  // ---------------------------------------------------------------- the operation arrays

  const OP_LOCK: seq<SemBuf> := [SemBuf(2, 0, false), SemBuf(2, 1, true)]
  const OP_ENDCREATE: seq<SemBuf> := [SemBuf(1, -1, true), SemBuf(2, -1, true)]
  const OP_OPEN: seq<SemBuf> := [SemBuf(1, -1, true)]
  const OP_CLOSE: seq<SemBuf> := [SemBuf(2, 0, false), SemBuf(2, 1, true), SemBuf(1, 1, true)]
  const OP_UNLOCK: seq<SemBuf> := [SemBuf(2, -1, true)]

  /** What a short holds of an int: sem_op stores its argument in one. */
  function Short(value: int): int {
    (value + 0x8000) % 0x1_0000 - 0x8000
  }

  function OpOp(amount: int): seq<SemBuf> {
    [SemBuf(0, amount, true)]
  }

  // ---------------------------------------------------------------- the kernel

  datatype Applied = Done(v: Three) | Blocks | TooBig

  /** semop: the whole array, in order, or nothing. */
  function Apply(v: Three, ops: seq<SemBuf>): Applied
    decreases |ops|
  {
    if ops == [] then Done(v)
    else
      var b := ops[0];
      if b.op == 0 then if v[b.num] == 0 then Apply(v, ops[1..]) else Blocks
      else if v[b.num] + b.op < 0 then Blocks
      else if v[b.num] + b.op > SEMVMX then TooBig
      else Apply(v[b.num := v[b.num] + b.op], ops[1..])
  }

  /** What semop takes off the process's adjustments, for its death. */
  function Adjusted(adj: Three, ops: seq<SemBuf>): Three
    decreases |ops|
  {
    if ops == [] then adj
    else
      var b := ops[0];
      Adjusted(if b.undo then adj[b.num := adj[b.num] - b.op] else adj, ops[1..])
  }

  function Clamp(x: int): int {
    if x < 0 then 0 else if x > SEMVMX then SEMVMX else x
  }

  /** A dead process's adjustments, applied. */
  function Undone(v: Three, adj: Three): Three {
    [Clamp(v[0] + adj[0]), Clamp(v[1] + adj[1]), Clamp(v[2] + adj[2])]
  }

  datatype Set = Set(key: int, v: Three)

  // ---------------------------------------------------------------- processes

  datatype Pc =
    | Idle
    | Get(key: int, init: int)              // sem_create, at semget
    | Lock(key: int, init: int, id: nat)    // at semop(op_lock)
    | Asleep(id: nat, init: int)            // inside that semop
    | Check(id: nat, init: int)             // at GETVAL of the counter
    | Init(id: nat, init: int)              // at SETVAL of the value
    | Count(id: nat)                        // at SETVAL of the counter
    | EndCreate(id: nat)                    // at semop(op_endcreate)
    | OpenGet(key: int)                     // sem_open, at semget
    | Open(id: nat)                         // at semop(op_open)
    | Close(id: nat)                        // sem_close, at semop(op_close)
    | CloseCheck(id: nat)                   // at GETVAL of the counter
    | Remove(id: nat)                       // at IPC_RMID
    | Unlock(id: nat)                       // at semop(op_unlock)
    | UserOp(id: nat, amount: int)          // sem_op, sem_wait, sem_signal, with the amount as a short
    | Rm(id: nat)                           // sem_rm
    | Dead

  /** adj is the kernel's undo record; net counts this process's opens less its closes. */
  datatype Proc = Proc(pc: Pc, adj: map<nat, Three>, net: map<nat, int>)

  /** issued holds every id that sem_create or sem_open ever returned. */
  datatype State = State(keys: map<int, nat>, sets: map<nat, Set>, next: nat, issued: set<nat>, procs: seq<Proc>)

  function AdjOf(pr: Proc, id: nat): Three {
    if id in pr.adj then pr.adj[id] else [0, 0, 0]
  }

  function NetOf(pr: Proc, id: nat): int {
    if id in pr.net then pr.net[id] else 0
  }

  /** The process is between locking and unlocking this set. */
  predicate Holding(pc: Pc, id: nat) {
    match pc
    case Check(i, _) => i == id
    case Init(i, _) => i == id
    case Count(i) => i == id
    case EndCreate(i) => i == id
    case CloseCheck(i) => i == id
    case Remove(i) => i == id
    case Unlock(i) => i == id
    case _ => false
  }

  function Goto(s: State, p: nat, pc: Pc): State
    requires p < |s.procs|
  {
    s.(procs := s.procs[p := s.procs[p].(pc := pc)])
  }

  /** Process death, at any point: every live set gets the process's adjustments back. */
  function Exit(s: State, p: nat): State
    requires p < |s.procs|
  {
    s.(sets := map id | id in s.sets :: s.sets[id].(v := Undone(s.sets[id].v, AdjOf(s.procs[p], id))),
       procs := s.procs[p := Proc(Dead, map[], map[])])
  }

  /** A semop that went through. */
  function Operated(s: State, p: nat, id: nat, ops: seq<SemBuf>, v: Three, pc: Pc, opens: int): State
    requires p < |s.procs| && id in s.sets
  {
    var pr := s.procs[p];
    s.(sets := s.sets[id := s.sets[id].(v := v)],
       procs := s.procs[p := Proc(pc, pr.adj[id := Adjusted(AdjOf(pr, id), ops)], pr.net[id := NetOf(pr, id) + opens])])
  }

  /** SETVAL, which clears the member's adjustment in every process. */
  function SetVal(s: State, p: nat, id: nat, n: Member, x: int, pc: Pc): State
    requires p < |s.procs| && id in s.sets
  {
    Goto(s.(sets := s.sets[id := s.sets[id].(v := s.sets[id].v[n := x])],
            procs := seq(|s.procs|, q requires 0 <= q < |s.procs| => Cleared(s.procs[q], id, n))), p, pc)
  }

  function Cleared(pr: Proc, id: nat, n: Member): Proc {
    pr.(adj := pr.adj[id := AdjOf(pr, id)[n := 0]])
  }

  function Removed(s: State, id: nat): State
    requires id in s.sets
  {
    s.(sets := s.sets - {id}, keys := s.keys - {s.sets[id].key})
  }

  /** The array a process is waiting to get through, if it is at a semop other than op_lock's first try. */
  function Array(pc: Pc): seq<SemBuf> {
    match pc
    case Asleep(_, _) => OP_LOCK
    case EndCreate(_) => OP_ENDCREATE
    case Open(_) => OP_OPEN
    case Close(_) => OP_CLOSE
    case Unlock(_) => OP_UNLOCK
    case UserOp(_, amount) => OpOp(amount)
    case _ => []
  }

  predicate AtSemop(pc: Pc) {
    pc.Asleep? || pc.EndCreate? || pc.Open? || pc.Close? || pc.Unlock? || (pc.UserOp? && pc.amount != 0)
  }

  /** The process can take its next step: it is running, and not asleep in semop. */
  predicate Enabled(s: State, p: nat)
    requires p < |s.procs|
  {
    var pc := s.procs[p].pc;
    && !pc.Idle? && !pc.Dead?
    && (AtSemop(pc) && pc.id in s.sets ==> !Apply(s.sets[pc.id].v, Array(pc)).Blocks?)
  }

  /** The next step of a running process. */
  function Run(s: State, p: nat): State
    requires p < |s.procs| && Enabled(s, p)
  {
    var pc := s.procs[p].pc;
    match pc
    case Get(key, init) =>
      if key == IPC_PRIVATE || key == -1 then Goto(s, p, Idle)
      else if key in s.keys then Goto(s, p, Lock(key, init, s.keys[key]))
      else Goto(Created(s, key), p, Lock(key, init, s.next))
    case Lock(key, init, id) =>
      if id !in s.sets then Goto(s, p, Get(key, init))
      else if Apply(s.sets[id].v, OP_LOCK).Blocks? then Goto(s, p, Asleep(id, init))
      else Operate(s, p, id, OP_LOCK, Check(id, init), 0)
    case Asleep(id, init) =>
      if id !in s.sets then Exit(s, p) else Operate(s, p, id, OP_LOCK, Check(id, init), 0)
    case Check(id, init) =>
      if id !in s.sets then Exit(s, p)
      else if s.sets[id].v[1] == 0 then Goto(s, p, Init(id, init))
      else Goto(s, p, EndCreate(id))
    case Init(id, init) =>
      if id !in s.sets || init < 0 || init > SEMVMX then Exit(s, p) else SetVal(s, p, id, 0, init, Count(id))
    case Count(id) =>
      if id !in s.sets then Exit(s, p) else SetVal(s, p, id, 1, BIGCOUNT, EndCreate(id))
    case EndCreate(id) =>
      if id !in s.sets then Exit(s, p) else Operate(s, p, id, OP_ENDCREATE, Idle, 1)
    case OpenGet(key) =>
      if key == IPC_PRIVATE || key == -1 || key !in s.keys then Goto(s, p, Idle) else Goto(s, p, Open(s.keys[key]))
    case Open(id) =>
      if id !in s.sets then Exit(s, p) else Operate(s, p, id, OP_OPEN, Idle, 1)
    case Close(id) =>
      if id !in s.sets then Exit(s, p) else Operate(s, p, id, OP_CLOSE, CloseCheck(id), -1)
    case CloseCheck(id) =>
      if id !in s.sets then Exit(s, p)
      else if s.sets[id].v[1] > BIGCOUNT then Exit(s, p)
      else if s.sets[id].v[1] == BIGCOUNT then Goto(s, p, Remove(id))
      else Goto(s, p, Unlock(id))
    case Remove(id) =>
      if id !in s.sets then Exit(s, p) else Goto(Removed(s, id), p, Idle)
    case Unlock(id) =>
      if id !in s.sets then Exit(s, p) else Operate(s, p, id, OP_UNLOCK, Idle, 0)
    case UserOp(id, amount) =>
      if id !in s.sets || amount == 0 then Exit(s, p) else Operate(s, p, id, OpOp(amount), Idle, 0)
    case Rm(id) =>
      if id !in s.sets then Exit(s, p) else Goto(Removed(s, id), p, Idle)
    case _ => s
  }

  function Created(s: State, key: int): State {
    s.(keys := s.keys[key := s.next], sets := s.sets[s.next := Set(key, [0, 0, 0])], next := s.next + 1)
  }

  function Issue(s: State, id: nat): State {
    s.(issued := s.issued + {id})
  }

  /** A semop that does not block: it goes through, or it fails and err_sys ends the process.
      The two that open the set are followed by the return of its id. */
  function Operate(s: State, p: nat, id: nat, ops: seq<SemBuf>, pc: Pc, opens: int): State
    requires p < |s.procs| && id in s.sets
  {
    var r := Apply(s.sets[id].v, ops);
    if !r.Done? then Exit(s, p)
    else if opens == 1 then Issue(Operated(s, p, id, ops, r.v, pc, opens), id)
    else Operated(s, p, id, ops, r.v, pc, opens)
  }

  /** sem_op, and its two common uses. */
  function SemOp(id: nat, value: int): Pc {
    UserOp(id, Short(value))
  }

  function SemWait(id: nat): Pc {
    SemOp(id, -1)
  }

  function SemSignal(id: nat): Pc {
    SemOp(id, 1)
  }

  /** A call a program may make; sem_close takes an id that sem_create or sem_open returned to someone. */
  predicate Callable(s: State, pc: Pc) {
    || pc.Get? || pc.OpenGet? || pc.Rm? || (pc.Close? && pc.id in s.issued)
    || (pc.UserOp? && pc == SemOp(pc.id, pc.amount))
  }

  datatype Action = Call(pc: Pc) | Go | Die | Refuse

  /** Refuse is semget failing: no permission, or tables full. */
  predicate Can(s: State, p: nat, a: Action) {
    && p < |s.procs|
    && match a
       case Call(pc) => s.procs[p].pc.Idle? && Callable(s, pc)
       case Go => Enabled(s, p)
       case Die => !s.procs[p].pc.Dead?
       case Refuse => s.procs[p].pc.Get? || s.procs[p].pc.OpenGet?
  }

  function Act(s: State, p: nat, a: Action): State
    requires Can(s, p, a)
  {
    match a
    case Call(pc) => Goto(s, p, pc)
    case Go => Run(s, p)
    case Die => Exit(s, p)
    case Refuse => Goto(s, p, Idle)
  }

  function Start(n: nat): State {
    State(map[], map[], 0, {}, seq(n, _ => Proc(Idle, map[], map[])))
  }

  ghost predicate Next(s: State, s': State) {
    exists p, a :: Can(s, p, a) && s' == Act(s, p, a)
  }

  // ---------------------------------------------------------------- opens, counted over processes

  /** Opens less closes of one set, over the processes alive. */
  ghost function Opens(procs: seq<Proc>, id: nat): int {
    if procs == [] then 0 else NetOf(procs[0], id) + Opens(procs[1..], id)
  }

  /** Opens alone: the processes with more opens than closes. */
  ghost function Excess(procs: seq<Proc>, id: nat): nat {
    if procs == [] then 0
    else (if NetOf(procs[0], id) > 0 then NetOf(procs[0], id) else 0) + Excess(procs[1..], id)
  }

  /** Closes alone: the processes with more closes than opens. */
  ghost function Deficit(procs: seq<Proc>, id: nat): nat {
    if procs == [] then 0
    else (if NetOf(procs[0], id) < 0 then -NetOf(procs[0], id) else 0) + Deficit(procs[1..], id)
  }

  lemma {:induction false} OpensUpdate(procs: seq<Proc>, p: nat, pr: Proc, id: nat)
    requires p < |procs|
    ensures Opens(procs[p := pr], id) == Opens(procs, id) - NetOf(procs[p], id) + NetOf(pr, id)
  {
    if p > 0 {
      assert procs[p := pr][1..] == procs[1..][p - 1 := pr];
      OpensUpdate(procs[1..], p - 1, pr, id);
    } else {
      assert procs[p := pr][1..] == procs[1..];
    }
  }

  lemma {:induction false} OpensSame(procs: seq<Proc>, procs': seq<Proc>, id: nat)
    requires |procs| == |procs'| && forall q :: 0 <= q < |procs| ==> NetOf(procs'[q], id) == NetOf(procs[q], id)
    ensures Opens(procs', id) == Opens(procs, id)
  {
    if procs != [] {
      OpensSame(procs[1..], procs'[1..], id);
    }
  }

  /** Whoever leaves, what the others have open stays within the excess and the deficit. */
  lemma {:induction false} OthersBounded(procs: seq<Proc>, p: nat, id: nat)
    requires p < |procs|
    ensures 0 - Deficit(procs, id) <= Opens(procs, id) - NetOf(procs[p], id) <= Excess(procs, id)
  {
    OpensBounded(procs[1..], id);
    if p > 0 {
      OthersBounded(procs[1..], p - 1, id);
    }
  }

  lemma {:induction false} OpensBounded(procs: seq<Proc>, id: nat)
    ensures Opens(procs, id) == Excess(procs, id) - Deficit(procs, id)
  {
    if procs != [] {
      OpensBounded(procs[1..], id);
    }
  }

  lemma {:induction false} NoneOpen(procs: seq<Proc>, id: nat)
    requires forall q :: 0 <= q < |procs| ==> NetOf(procs[q], id) >= 0
    ensures Opens(procs, id) >= 0
    ensures Opens(procs, id) == 0 <==> forall q :: 0 <= q < |procs| ==> NetOf(procs[q], id) == 0
  {
    if procs != [] {
      NoneOpen(procs[1..], id);
      assert forall q :: 0 <= q < |procs[1..]| ==> procs[1..][q] == procs[q + 1];
      assert (forall q :: 0 <= q < |procs| ==> NetOf(procs[q], id) == 0) ==>
        (NetOf(procs[0], id) == 0 && forall q :: 0 <= q < |procs[1..]| ==> NetOf(procs[1..][q], id) == 0);
      if NetOf(procs[0], id) == 0 && forall q :: 0 <= q < |procs[1..]| ==> NetOf(procs[1..][q], id) == 0 {
        forall q | 0 <= q < |procs| ensures NetOf(procs[q], id) == 0 {
          if q > 0 { assert procs[q] == procs[1..][q - 1]; }
        }
      }
    }
  }

  lemma {:induction false} NoOpens(procs: seq<Proc>, id: nat)
    requires forall q :: 0 <= q < |procs| ==> NetOf(procs[q], id) == 0
    ensures Opens(procs, id) == 0
  {
    if procs != [] {
      NoOpens(procs[1..], id);
    }
  }

  // ---------------------------------------------------------------- the invariant

  /** The kernel's key table and set table agree. */
  ghost predicate TablesOk(s: State) {
    && (forall k :: k in s.keys ==> s.keys[k] in s.sets && s.sets[s.keys[k]].key == k)
    && (forall id :: id in s.sets ==> id < s.next && s.sets[id].key in s.keys && s.keys[s.sets[id].key] == id)
    && (forall id :: id in s.issued ==> id < s.next)
    && (forall p :: 0 <= p < |s.procs| && s.procs[p].pc.Close? ==> s.procs[p].pc.id in s.issued)
    && (forall p, id :: 0 <= p < |s.procs| && id >= s.next ==> Fresh(s.procs[p], id))
  }

  /** A process knows nothing of a set that does not exist yet. */
  ghost predicate Fresh(pr: Proc, id: nat) {
    id !in pr.adj && id !in pr.net && !Holding(pr.pc, id)
  }

  /** A process's undo record is what it has done: its lock, and its opens less its closes. */
  ghost predicate UndoOk(pr: Proc, id: nat) {
    && AdjOf(pr, id)[1] == NetOf(pr, id)
    && AdjOf(pr, id)[2] == (if Holding(pr.pc, id) then -1 else 0)
  }

  ghost predicate LockOk(s: State, id: nat)
    requires id in s.sets
  {
    && (s.sets[id].v[2] == 0 || s.sets[id].v[2] == 1)
    && (s.sets[id].v[2] == 0 ==> forall p :: 0 <= p < |s.procs| ==> !Holding(s.procs[p].pc, id))
    && (s.sets[id].v[2] == 1 ==> exists p :: 0 <= p < |s.procs| && Holding(s.procs[p].pc, id))
    && (forall p, q | 0 <= p < |s.procs| && 0 <= q < |s.procs| ::
          Holding(s.procs[p].pc, id) && Holding(s.procs[q].pc, id) ==> p == q)
  }

  /** Nobody has set the counter yet, and nobody has opened the set. */
  ghost predicate Raw(s: State, id: nat)
    requires id in s.sets
  {
    && s.sets[id].v[1] == 0 && id !in s.issued
    && forall p :: 0 <= p < |s.procs| ==> NetOf(s.procs[p], id) == 0 && !Settled(s.procs[p].pc, id)
  }

  /** The counter and the opens make up BIGCOUNT. */
  ghost predicate Counted(s: State, id: nat)
    requires id in s.sets
  {
    && s.sets[id].v[1] + Opens(s.procs, id) == BIGCOUNT
    && forall p :: 0 <= p < |s.procs| ==> !Initialising(s.procs[p].pc, id)
  }

  /** The process holds the lock and has found, or made, the counter set. */
  predicate Settled(pc: Pc, id: nat) {
    (pc.EndCreate? || pc.CloseCheck? || pc.Remove? || pc.Unlock?) && pc.id == id
  }

  predicate Initialising(pc: Pc, id: nat) {
    (pc.Init? || pc.Count?) && pc.id == id
  }

  ghost predicate SetOk(s: State, id: nat)
    requires id in s.sets
  {
    && 0 <= s.sets[id].v[0] <= SEMVMX
    && LockOk(s, id)
    && (Raw(s, id) || Counted(s, id))
    && forall p :: 0 <= p < |s.procs| ==> UndoOk(s.procs[p], id)
  }

  ghost predicate Inv(s: State) {
    TablesOk(s) && forall id :: id in s.sets ==> SetOk(s, id)
  }

  /** The invariant stands, and no counter that was set is lost. */
  ghost predicate Keeps(s: State, s': State) {
    Inv(s') && forall id :: id in s.sets && id in s'.sets && Counted(s, id) ==> Counted(s', id)
  }

  /** No counter can leave the kernel's range, whoever dies. */
  ghost predicate Ranged(s: State) {
    forall id :: id in s.sets ==> Excess(s.procs, id) < BIGCOUNT && Deficit(s.procs, id) <= SEMVMX - BIGCOUNT
  }

  // ---------------------------------------------------------------- one set, one step

  /** The process looks the same from this set. */
  ghost predicate SameFor(pr: Proc, pr': Proc, id: nat) {
    && NetOf(pr', id) == NetOf(pr, id)
    && AdjOf(pr', id)[1] == AdjOf(pr, id)[1] && AdjOf(pr', id)[2] == AdjOf(pr, id)[2]
    && (Holding(pr'.pc, id) <==> Holding(pr.pc, id))
    && (Initialising(pr'.pc, id) <==> Initialising(pr.pc, id))
    && (Settled(pr'.pc, id) <==> Settled(pr.pc, id))
  }

  ghost predicate OnlyP(s: State, s': State, p: nat, id: nat) {
    && p < |s.procs| && |s'.procs| == |s.procs|
    && forall q :: 0 <= q < |s.procs| && q != p ==> SameFor(s.procs[q], s'.procs[q], id)
  }

  function Bit(b: bool): int {
    if b then 1 else 0
  }

  /** What a step of one process may do to one set: the lock follows the holder; the counter
      moves against the process's opens, or is set while nobody has opened the set. */
  ghost predicate Moves(s: State, s': State, p: nat, id: nat)
    requires id in s.sets && id in s'.sets && p < |s.procs| && p < |s'.procs|
  {
    var v, v', pr, pr' := s.sets[id].v, s'.sets[id].v, s.procs[p], s'.procs[p];
    && 0 <= v'[0] <= SEMVMX && UndoOk(pr', id)
    && v'[2] - Bit(Holding(pr'.pc, id)) == v[2] - Bit(Holding(pr.pc, id))
    && (Holding(pr'.pc, id) && !Holding(pr.pc, id) ==> v[2] == 0)
    && (|| (Counted(s, id) && v'[1] + NetOf(pr', id) == v[1] + NetOf(pr, id) && !Initialising(pr'.pc, id))
        || (Raw(s, id) && v'[1] == 0 && NetOf(pr', id) == 0 && !Settled(pr'.pc, id) && id !in s'.issued)
        || (Raw(s, id) && v'[1] == BIGCOUNT && NetOf(pr', id) == 0 && Holding(pr.pc, id) && !Initialising(pr'.pc, id)))
  }

  lemma OpensStep(s: State, s': State, p: nat, id: nat)
    requires OnlyP(s, s', p, id)
    ensures Opens(s'.procs, id) == Opens(s.procs, id) - NetOf(s.procs[p], id) + NetOf(s'.procs[p], id)
  {
    OpensUpdate(s.procs, p, s'.procs[p], id);
    OpensSame(s.procs[p := s'.procs[p]], s'.procs, id);
  }

  lemma LockStep(s: State, s': State, p: nat, id: nat)
    requires id in s.sets && id in s'.sets && OnlyP(s, s', p, id) && LockOk(s, id) && Moves(s, s', p, id)
    ensures LockOk(s', id)
  {
    hide Raw, Counted, UndoOk;
    if s'.sets[id].v[2] == 1 {
      if Holding(s'.procs[p].pc, id) {
        assert exists q :: 0 <= q < |s'.procs| && Holding(s'.procs[q].pc, id);
      } else {
        var q :| 0 <= q < |s.procs| && Holding(s.procs[q].pc, id);
        assert Holding(s'.procs[q].pc, id);
      }
    }
  }

  lemma CounterStep(s: State, s': State, p: nat, id: nat)
    requires id in s.sets && id in s'.sets && OnlyP(s, s', p, id) && LockOk(s, id) && Moves(s, s', p, id)
    ensures Raw(s', id) || Counted(s', id)
    ensures Counted(s, id) ==> Counted(s', id)
  {
    hide UndoOk;
    OpensStep(s, s', p, id);
    if Raw(s, id) {
      NoOpens(s.procs, id);
    }
    if Raw(s, id) && s'.sets[id].v[1] == BIGCOUNT {
      forall q | 0 <= q < |s'.procs|
        ensures !Initialising(s'.procs[q].pc, id)
      {
        assert Initialising(s.procs[q].pc, id) ==> Holding(s.procs[q].pc, id);
      }
    }
  }

  lemma SetStep(s: State, s': State, p: nat, id: nat)
    requires id in s.sets && id in s'.sets && OnlyP(s, s', p, id) && SetOk(s, id) && Moves(s, s', p, id)
    ensures SetOk(s', id) && (Counted(s, id) ==> Counted(s', id))
  {
    hide LockOk, Raw, Counted;
    LockStep(s, s', p, id);
    CounterStep(s, s', p, id);
    forall q | 0 <= q < |s'.procs|
      ensures UndoOk(s'.procs[q], id)
    {
      if q != p {
        assert UndoOk(s.procs[q], id);
      }
    }
  }

  // ---------------------------------------------------------------- what the arrays do

  /** One operation of an array, and then the rest. */
  lemma ApplyFirst(v: Three, b: SemBuf, rest: seq<SemBuf>)
    ensures Apply(v, [b] + rest) ==
            if b.op == 0 then if v[b.num] == 0 then Apply(v, rest) else Blocks
            else if v[b.num] + b.op < 0 then Blocks
            else if v[b.num] + b.op > SEMVMX then TooBig
            else Apply(v[b.num := v[b.num] + b.op], rest)
  {
    assert ([b] + rest)[1..] == rest;
  }

  lemma AdjustFirst(adj: Three, b: SemBuf, rest: seq<SemBuf>)
    ensures Adjusted(adj, [b] + rest) == Adjusted(if b.undo then adj[b.num := adj[b.num] - b.op] else adj, rest)
  {
    assert ([b] + rest)[1..] == rest;
  }

  lemma ApplyOne(v: Three, b: SemBuf)
    ensures Apply(v, [b]) ==
            if b.op == 0 then if v[b.num] == 0 then Done(v) else Blocks
            else if v[b.num] + b.op < 0 then Blocks
            else if v[b.num] + b.op > SEMVMX then TooBig
            else Done(v[b.num := v[b.num] + b.op])
  {
    assert [b][1..] == [];
  }

  lemma AdjustOne(adj: Three, b: SemBuf)
    ensures Adjusted(adj, [b]) == if b.undo then adj[b.num := adj[b.num] - b.op] else adj
  {
    assert [b][1..] == [];
  }

  lemma LockArray(v: Three, adj: Three)
    ensures Apply(v, OP_LOCK) == if v[2] == 0 then Done(v[2 := 1]) else Blocks
    ensures Adjusted(adj, OP_LOCK) == adj[2 := adj[2] - 1]
  {
    hide Apply, Adjusted;
    assert OP_LOCK == [SemBuf(2, 0, false)] + [SemBuf(2, 1, true)];
    ApplyFirst(v, SemBuf(2, 0, false), [SemBuf(2, 1, true)]);
    ApplyOne(v, SemBuf(2, 1, true));
    AdjustFirst(adj, SemBuf(2, 0, false), [SemBuf(2, 1, true)]);
    AdjustOne(adj, SemBuf(2, 1, true));
  }

  lemma EndCreateArray(v: Three, adj: Three)
    requires 0 <= v[1] <= SEMVMX && 0 <= v[2] <= 1
    ensures Apply(v, OP_ENDCREATE) == if v[1] >= 1 && v[2] == 1 then Done(v[1 := v[1] - 1][2 := 0]) else Blocks
    ensures Adjusted(adj, OP_ENDCREATE) == adj[1 := adj[1] + 1][2 := adj[2] + 1]
  {
    hide Apply, Adjusted;
    assert OP_ENDCREATE == [SemBuf(1, -1, true)] + [SemBuf(2, -1, true)];
    ApplyFirst(v, SemBuf(1, -1, true), [SemBuf(2, -1, true)]);
    ApplyOne(v[1 := v[1] - 1], SemBuf(2, -1, true));
    AdjustFirst(adj, SemBuf(1, -1, true), [SemBuf(2, -1, true)]);
    AdjustOne(adj[1 := adj[1] + 1], SemBuf(2, -1, true));
  }

  lemma OpenArray(v: Three, adj: Three)
    requires 0 <= v[1] <= SEMVMX
    ensures Apply(v, OP_OPEN) == if v[1] >= 1 then Done(v[1 := v[1] - 1]) else Blocks
    ensures Adjusted(adj, OP_OPEN) == adj[1 := adj[1] + 1]
  {
    ApplyOne(v, SemBuf(1, -1, true));
    AdjustOne(adj, SemBuf(1, -1, true));
  }

  lemma CloseArray(v: Three, adj: Three)
    requires 0 <= v[1]
    ensures Apply(v, OP_CLOSE) ==
            if v[2] != 0 then Blocks else if v[1] + 1 > SEMVMX then TooBig else Done(v[2 := 1][1 := v[1] + 1])
    ensures Adjusted(adj, OP_CLOSE) == adj[2 := adj[2] - 1][1 := adj[1] - 1]
  {
    hide Apply, Adjusted;
    var last := [SemBuf(1, 1, true)];
    assert OP_CLOSE == [SemBuf(2, 0, false)] + ([SemBuf(2, 1, true)] + last);
    ApplyFirst(v, SemBuf(2, 0, false), [SemBuf(2, 1, true)] + last);
    ApplyFirst(v, SemBuf(2, 1, true), last);
    ApplyOne(v[2 := v[2] + 1], SemBuf(1, 1, true));
    AdjustFirst(adj, SemBuf(2, 0, false), [SemBuf(2, 1, true)] + last);
    AdjustFirst(adj, SemBuf(2, 1, true), last);
    AdjustOne(adj[2 := adj[2] - 1], SemBuf(1, 1, true));
  }

  lemma UnlockArray(v: Three, adj: Three)
    requires 0 <= v[2] <= 1
    ensures Apply(v, OP_UNLOCK) == if v[2] == 1 then Done(v[2 := 0]) else Blocks
    ensures Adjusted(adj, OP_UNLOCK) == adj[2 := adj[2] + 1]
  {
    ApplyOne(v, SemBuf(2, -1, true));
    AdjustOne(adj, SemBuf(2, -1, true));
  }

  lemma UserArray(v: Three, adj: Three, amount: int)
    requires 0 <= v[0] <= SEMVMX && amount != 0
    ensures Apply(v, OpOp(amount)) ==
            if v[0] + amount < 0 then Blocks else if v[0] + amount > SEMVMX then TooBig else Done(v[0 := v[0] + amount])
    ensures Adjusted(adj, OpOp(amount)) == adj[0 := adj[0] - amount]
  {
    ApplyOne(v, SemBuf(0, amount, true));
    AdjustOne(adj, SemBuf(0, amount, true));
  }

  // ---------------------------------------------------------------- step by step

  /** The counter of a counted set stays inside the kernel's range, whoever dies. */
  lemma CounterRange(s: State, id: nat, p: nat)
    requires Ranged(s) && id in s.sets && Counted(s, id) && p < |s.procs|
    ensures 1 <= s.sets[id].v[1] <= SEMVMX
    ensures 1 <= s.sets[id].v[1] + NetOf(s.procs[p], id) <= SEMVMX
  {
    OpensBounded(s.procs, id);
    OthersBounded(s.procs, p, id);
  }

  /** The three members after the death of one process. */
  lemma ExitValues(s: State, p: nat, id: nat)
    requires Ranged(s) && p < |s.procs| && id in s.sets && SetOk(s, id)
    ensures var v, v', pr := s.sets[id].v, Exit(s, p).sets[id].v, s.procs[p];
            && 0 <= v'[0] <= SEMVMX
            && v'[2] == v[2] - Bit(Holding(pr.pc, id))
            && (Counted(s, id) ==> v'[1] == v[1] + NetOf(pr, id))
            && (Raw(s, id) ==> v'[1] == 0 && NetOf(pr, id) == 0 && id !in s.issued)
  {
    hide Ranged, Opens, Holding, Initialising;
    assert UndoOk(s.procs[p], id);
    if Counted(s, id) {
      CounterRange(s, id, p);
    }
  }

  lemma ExitMoves(s: State, p: nat, id: nat)
    requires Ranged(s) && p < |s.procs| && id in s.sets && SetOk(s, id)
    ensures var s' := Exit(s, p); id in s'.sets && OnlyP(s, s', p, id) && Moves(s, s', p, id)
  {
    hide Ranged, Opens, Raw, Counted, LockOk, Undone;
    ExitValues(s, p, id);
  }

  lemma ExitOk(s: State, p: nat)
    requires Inv(s) && Ranged(s) && p < |s.procs|
    ensures Keeps(s, Exit(s, p))
  {
    hide SetOk, Moves, OnlyP, Ranged, Undone, Counted;
    var s' := Exit(s, p);
    forall id | id in s'.sets
      ensures SetOk(s', id) && (Counted(s, id) ==> Counted(s', id))
    {
      ExitMoves(s, p, id);
      SetStep(s, s', p, id);
    }
  }

  /** A step that touches the tables and the issued ids of no set but leaves every set's members sound. */
  lemma StepInv(s: State, s': State, p: nat)
    requires Inv(s) && TablesOk(s') && s'.sets.Keys <= s.sets.Keys
    requires forall id :: id in s'.sets ==> OnlyP(s, s', p, id) && Moves(s, s', p, id)
    ensures Keeps(s, s')
  {
    hide TablesOk, SetOk, Moves, OnlyP, Counted;
    forall id | id in s'.sets
      ensures SetOk(s', id) && (Counted(s, id) ==> Counted(s', id))
    {
      SetStep(s, s', p, id);
    }
  }

  /** From a set the process does not touch. */
  lemma Elsewhere(s: State, s': State, p: nat, id: nat)
    requires id in s.sets && SetOk(s, id) && OnlyP(s, s', p, id) && SameFor(s.procs[p], s'.procs[p], id)
    requires id in s'.sets && s'.sets[id].v == s.sets[id].v && (id in s'.issued ==> id in s.issued)
    ensures Moves(s, s', p, id)
  {
    hide LockOk, Opens;
    assert UndoOk(s.procs[p], id);
  }

  /** A change of program point alone. */
  ghost predicate PlainMove(s: State, p: nat, pc: Pc)
    requires p < |s.procs|
  {
    && (forall id :: Holding(pc, id) <==> Holding(s.procs[p].pc, id))
    && (pc.Close? ==> pc.id in s.issued)
    && !pc.Count?
    && (pc.Init? && pc.id in s.sets ==> s.sets[pc.id].v[1] == 0)
    && (forall id :: Settled(pc, id) && id in s.sets ==> s.sets[id].v[1] != 0 || Settled(s.procs[p].pc, id))
  }

  lemma GotoMoves(s: State, p: nat, pc: Pc, id: nat)
    requires Ranged(s) && p < |s.procs| && id in s.sets && SetOk(s, id) && PlainMove(s, p, pc)
    ensures OnlyP(s, Goto(s, p, pc), p, id) && Moves(s, Goto(s, p, pc), p, id)
  {
    hide LockOk, Opens, Ranged;
    assert UndoOk(s.procs[p], id);
    if Counted(s, id) {
      CounterRange(s, id, p);
    }
  }

  lemma GotoOk(s: State, p: nat, pc: Pc)
    requires Inv(s) && Ranged(s) && p < |s.procs| && PlainMove(s, p, pc)
    ensures Keeps(s, Goto(s, p, pc))
  {
    hide SetOk, Moves, OnlyP, Ranged;
    var s' := Goto(s, p, pc);
    assert TablesOk(s') by { GotoTables(s, p, pc); }
    forall id | id in s'.sets
      ensures OnlyP(s, s', p, id) && Moves(s, s', p, id)
    {
      GotoMoves(s, p, pc, id);
    }
    StepInv(s, s', p);
  }

  lemma GotoTables(s: State, p: nat, pc: Pc)
    requires TablesOk(s) && p < |s.procs| && (pc.Close? ==> pc.id in s.issued)
    requires forall id :: Holding(pc, id) ==> Holding(s.procs[p].pc, id)
    ensures TablesOk(Goto(s, p, pc))
  {
    var s' := Goto(s, p, pc);
    forall q, id | 0 <= q < |s'.procs| && id >= s'.next
      ensures Fresh(s'.procs[q], id)
    {
      assert Fresh(s.procs[q], id);
    }
  }

  // ---------------------------------------------------------------- the semop steps

  /** What one semop on a sound set may do, for each array. */
  ghost predicate Allowed(s: State, p: nat, id: nat, ops: seq<SemBuf>, pc: Pc, opens: int)
    requires p < |s.procs| && id in s.sets
  {
    var from := s.procs[p].pc;
    || (ops == OP_LOCK && opens == 0 && pc.Check? && pc.id == id && (from.Lock? || from.Asleep?) && from.id == id)
    || (ops == OP_ENDCREATE && opens == 1 && pc == Idle && from == EndCreate(id))
    || (ops == OP_OPEN && opens == 1 && pc == Idle && from == Open(id))
    || (ops == OP_CLOSE && opens == -1 && pc == CloseCheck(id) && from == Close(id))
    || (ops == OP_UNLOCK && opens == 0 && pc == Idle && from == Unlock(id))
    || (from.UserOp? && from.id == id && from.amount != 0 && ops == OpOp(from.amount) && opens == 0 && pc == Idle)
  }

  /** How far the counter and the lock move. */
  lemma SemopValues(s: State, p: nat, id: nat, ops: seq<SemBuf>, pc: Pc, opens: int)
    requires p < |s.procs| && id in s.sets && SetOk(s, id) && Ranged(s) && Allowed(s, p, id, ops, pc, opens)
    requires Apply(s.sets[id].v, ops).Done?
    ensures var v, v' := s.sets[id].v, Apply(s.sets[id].v, ops).v;
            var a, a' := AdjOf(s.procs[p], id), Adjusted(AdjOf(s.procs[p], id), ops);
            && 0 <= v'[0] <= SEMVMX
            && v'[1] == v[1] - opens && a'[1] == a[1] + opens
            && v'[2] == v[2] + Bit(Holding(pc, id)) - Bit(Holding(s.procs[p].pc, id))
            && a'[2] == a[2] - Bit(Holding(pc, id)) + Bit(Holding(s.procs[p].pc, id))
            && (Holding(pc, id) && !Holding(s.procs[p].pc, id) ==> v[2] == 0)
            && (opens == 1 ==> v[1] >= 1)
  {
    hide Opens, Ranged, Apply, Adjusted;
    var v, a := s.sets[id].v, AdjOf(s.procs[p], id);
    if Counted(s, id) {
      CounterRange(s, id, p);
    }
    match s.procs[p].pc
    case EndCreate(_) => EndCreateArray(v, a);
    case Open(_) => OpenArray(v, a);
    case Close(_) => CloseArray(v, a);
    case Unlock(_) => UnlockArray(v, a);
    case UserOp(_, amount) => UserArray(v, a, amount);
    case _ => LockArray(v, a);
  }

  lemma SemopMoves(s: State, p: nat, id: nat, ops: seq<SemBuf>, pc: Pc, opens: int)
    requires p < |s.procs| && id in s.sets && SetOk(s, id) && Ranged(s) && Allowed(s, p, id, ops, pc, opens)
    requires Apply(s.sets[id].v, ops).Done? && (opens == -1 ==> Counted(s, id))
    ensures var s' := Operated(s, p, id, ops, Apply(s.sets[id].v, ops).v, pc, opens);
            && OnlyP(s, s', p, id) && Moves(s, s', p, id)
            && (opens == 1 ==> Counted(s', id))
  {
    hide LockOk, Opens, Ranged, Apply, Adjusted;
    SemopValues(s, p, id, ops, pc, opens);
    assert UndoOk(s.procs[p], id);
    var s' := Operated(s, p, id, ops, Apply(s.sets[id].v, ops).v, pc, opens);
    OpensStep(s, s', p, id);
  }

  lemma OperatedTables(s: State, p: nat, id: nat, ops: seq<SemBuf>, v: Three, pc: Pc, opens: int)
    requires TablesOk(s) && p < |s.procs| && id in s.sets && !pc.Close? && (forall i :: Holding(pc, i) ==> i == id)
    ensures TablesOk(Operated(s, p, id, ops, v, pc, opens))
  {
    hide Adjusted;
    var s' := Operated(s, p, id, ops, v, pc, opens);
    forall q, i | 0 <= q < |s'.procs| && i >= s'.next
      ensures Fresh(s'.procs[q], i)
    {
      assert Fresh(s.procs[q], i);
    }
  }

  lemma OperatedElsewhere(s: State, p: nat, id: nat, ops: seq<SemBuf>, v: Three, pc: Pc, opens: int, i: nat)
    requires p < |s.procs| && id in s.sets && i in s.sets && i != id && SetOk(s, i) && Allowed(s, p, id, ops, pc, opens)
    ensures var s' := Operated(s, p, id, ops, v, pc, opens); i in s'.sets && OnlyP(s, s', p, i) && Moves(s, s', p, i)
  {
    hide SetOk, Moves, Adjusted;
    Elsewhere(s, Operated(s, p, id, ops, v, pc, opens), p, i);
  }

  lemma OperateOk(s: State, p: nat, id: nat, ops: seq<SemBuf>, pc: Pc, opens: int)
    requires Inv(s) && Ranged(s) && p < |s.procs| && id in s.sets && Allowed(s, p, id, ops, pc, opens)
    requires opens == -1 ==> Counted(s, id)
    ensures Keeps(s, Operate(s, p, id, ops, pc, opens))
  {
    hide SetOk, Moves, OnlyP, Ranged, Apply, TablesOk, Operated, Counted;
    var r := Apply(s.sets[id].v, ops);
    if r.Done? {
      var s' := Operated(s, p, id, ops, r.v, pc, opens);
      OperatedTables(s, p, id, ops, r.v, pc, opens);
      OperatedShape(s, p, id, ops, r.v, pc, opens);
      forall i | i in s'.sets
        ensures OnlyP(s, s', p, i) && Moves(s, s', p, i)
      {
        if i == id {
          SemopMoves(s, p, id, ops, pc, opens);
        } else {
          OperatedElsewhere(s, p, id, ops, r.v, pc, opens, i);
        }
      }
      StepInv(s, s', p);
      if opens == 1 {
        IssueOk(s', id) by { SemopMoves(s, p, id, ops, pc, opens); }
      }
    } else {
      ExitOk(s, p);
    }
  }

  lemma OperatedShape(s: State, p: nat, id: nat, ops: seq<SemBuf>, v: Three, pc: Pc, opens: int)
    requires p < |s.procs| && id in s.sets
    ensures Operated(s, p, id, ops, v, pc, opens).sets.Keys == s.sets.Keys
    ensures |Operated(s, p, id, ops, v, pc, opens).procs| == |s.procs|
  {
  }

  lemma IssueOk(s: State, id: nat)
    requires Inv(s) && id in s.sets && Counted(s, id)
    ensures Keeps(s, Issue(s, id))
  {
    hide SetOk, Counted, Fresh;
    var s' := Issue(s, id);
    forall i | i in s'.sets
      ensures SetOk(s', i) && (Counted(s, i) ==> Counted(s', i))
    {
      IssuedSet(s, id, i);
    }
  }

  lemma IssuedSet(s: State, id: nat, i: nat)
    requires id in s.sets && i in s.sets && SetOk(s, i) && Counted(s, id)
    ensures SetOk(Issue(s, id), i) && (Counted(s, i) ==> Counted(Issue(s, id), i))
  {
    hide Opens, UndoOk;
  }

  // ---------------------------------------------------------------- initialising, creating, removing

  /** The holder's two SETVALs find nobody with the set open. */
  lemma SetValMoves(s: State, p: nat, id: nat)
    requires p < |s.procs| && id in s.sets && SetOk(s, id) && Initialising(s.procs[p].pc, id)
    ensures Raw(s, id)
    ensures s.procs[p].pc.Init? && 0 <= s.procs[p].pc.init <= SEMVMX ==>
              var s' := SetVal(s, p, id, 0, s.procs[p].pc.init, Count(id)); OnlyP(s, s', p, id) && Moves(s, s', p, id)
    ensures s.procs[p].pc.Count? ==>
              var s' := SetVal(s, p, id, 1, BIGCOUNT, EndCreate(id)); OnlyP(s, s', p, id) && Moves(s, s', p, id)
  {
    hide LockOk, Opens;
    assert forall q :: 0 <= q < |s.procs| ==> UndoOk(s.procs[q], id);
  }

  lemma SetValOk(s: State, p: nat, id: nat, n: Member, x: int, pc: Pc)
    requires Inv(s) && p < |s.procs| && id in s.sets && Initialising(s.procs[p].pc, id)
    requires Holding(pc, id) && forall i :: Holding(pc, i) ==> i == id
    requires var s' := SetVal(s, p, id, n, x, pc); OnlyP(s, s', p, id) && Moves(s, s', p, id)
    ensures Keeps(s, SetVal(s, p, id, n, x, pc))
  {
    hide SetOk, Moves, TablesOk;
    var s' := SetVal(s, p, id, n, x, pc);
    SetValTables(s, p, id, n, x, pc);
    forall i | i in s'.sets
      ensures OnlyP(s, s', p, i) && Moves(s, s', p, i)
    {
      if i != id {
        assert OnlyP(s, s', p, i) && SameFor(s.procs[p], s'.procs[p], i);
        Elsewhere(s, s', p, i);
      }
    }
    StepInv(s, s', p);
  }

  lemma SetValTables(s: State, p: nat, id: nat, n: Member, x: int, pc: Pc)
    requires TablesOk(s) && p < |s.procs| && id in s.sets && Holding(pc, id) && forall i :: Holding(pc, i) ==> i == id
    ensures TablesOk(SetVal(s, p, id, n, x, pc))
  {
    var s' := SetVal(s, p, id, n, x, pc);
    forall q, i | 0 <= q < |s'.procs| && i >= s'.next
      ensures Fresh(s'.procs[q], i)
    {
      assert Fresh(s.procs[q], i);
    }
  }

  lemma CreatedOk(s: State, p: nat, key: int, init: int)
    requires Inv(s) && p < |s.procs| && s.procs[p].pc.Get? && key !in s.keys
    ensures Keeps(s, Goto(Created(s, key), p, Lock(key, init, s.next)))
  {
    hide SetOk, Moves, Counted;
    var s' := Goto(Created(s, key), p, Lock(key, init, s.next));
    CreatedTables(s, p, key, init);
    forall id | id in s'.sets
      ensures SetOk(s', id) && (id in s.sets && Counted(s, id) ==> Counted(s', id))
    {
      if id == s.next {
        CreatedSet(s, p, key, init);
      } else {
        assert OnlyP(s, s', p, id) && SameFor(s.procs[p], s'.procs[p], id);
        Elsewhere(s, s', p, id);
        SetStep(s, s', p, id);
      }
    }
  }

  lemma CreatedTables(s: State, p: nat, key: int, init: int)
    requires TablesOk(s) && p < |s.procs| && key !in s.keys
    ensures TablesOk(Goto(Created(s, key), p, Lock(key, init, s.next)))
  {
    var s' := Goto(Created(s, key), p, Lock(key, init, s.next));
    forall q, i | 0 <= q < |s'.procs| && i >= s'.next
      ensures Fresh(s'.procs[q], i)
    {
      assert Fresh(s.procs[q], i);
    }
  }

  /** A new set is all zeros, and no process has anything on it. */
  lemma CreatedSet(s: State, p: nat, key: int, init: int)
    requires TablesOk(s) && p < |s.procs|
    ensures var s' := Goto(Created(s, key), p, Lock(key, init, s.next)); s.next in s'.sets && SetOk(s', s.next)
  {
    var s' := Goto(Created(s, key), p, Lock(key, init, s.next));
    forall q | 0 <= q < |s'.procs|
      ensures UndoOk(s'.procs[q], s.next) && !Holding(s'.procs[q].pc, s.next) && NetOf(s'.procs[q], s.next) == 0
    {
      assert Fresh(s.procs[q], s.next);
    }
  }

  lemma RemovedOk(s: State, p: nat, id: nat)
    requires Inv(s) && p < |s.procs| && id in s.sets && (s.procs[p].pc == Remove(id) || s.procs[p].pc == Rm(id))
    ensures Keeps(s, Goto(Removed(s, id), p, Idle))
  {
    hide SetOk, Moves;
    var s' := Goto(Removed(s, id), p, Idle);
    RemovedTables(s, p, id);
    forall i | i in s'.sets
      ensures OnlyP(s, s', p, i) && Moves(s, s', p, i)
    {
      assert OnlyP(s, s', p, i) && SameFor(s.procs[p], s'.procs[p], i);
      Elsewhere(s, s', p, i);
    }
    StepInv(s, s', p);
  }

  lemma RemovedTables(s: State, p: nat, id: nat)
    requires TablesOk(s) && p < |s.procs| && id in s.sets
    ensures TablesOk(Goto(Removed(s, id), p, Idle))
  {
    var s' := Goto(Removed(s, id), p, Idle);
    forall q, i | 0 <= q < |s'.procs| && i >= s'.next
      ensures Fresh(s'.procs[q], i)
    {
      assert Fresh(s.procs[q], i);
    }
  }

  // ---------------------------------------------------------------- every step

  /** A close is of a set that someone has created or opened, so its counter has been set. */
  lemma CloseCounted(s: State, p: nat, id: nat)
    requires Inv(s) && p < |s.procs| && s.procs[p].pc == Close(id) && id in s.sets
    ensures Counted(s, id)
  {
    assert SetOk(s, id);
  }

  lemma RunOk(s: State, p: nat)
    requires Inv(s) && Ranged(s) && p < |s.procs| && Enabled(s, p)
    ensures Keeps(s, Run(s, p))
  {
    hide Inv, Keeps, Ranged, Operate, Exit, SetVal, Removed, Created, Counted, Moves, OnlyP, TablesOk, Apply, Array;
    var pc := s.procs[p].pc;
    if pc.Get? && pc.key != IPC_PRIVATE && pc.key != -1 && pc.key !in s.keys {
      CreatedOk(s, p, pc.key, pc.init);
    } else if pc.Get? || pc.OpenGet? || (pc.Lock? && (pc.id !in s.sets || Apply(s.sets[pc.id].v, OP_LOCK).Blocks?)) {
      GotoOk(s, p, Run(s, p).procs[p].pc);
    } else if pc.id !in s.sets {
      ExitOk(s, p);
    } else {
      RunSetOk(s, p);
    }
  }

  /** Steps of a process on a set that exists. */
  lemma RunSetOk(s: State, p: nat)
    requires Inv(s) && Ranged(s) && p < |s.procs| && Enabled(s, p)
    requires !s.procs[p].pc.Get? && !s.procs[p].pc.OpenGet? && s.procs[p].pc.id in s.sets
    requires s.procs[p].pc.Lock? ==> !Apply(s.sets[s.procs[p].pc.id].v, OP_LOCK).Blocks?
    ensures Keeps(s, Run(s, p))
  {
    hide Inv, Keeps, Ranged, Exit, Removed, Created, Counted, Moves, OnlyP, TablesOk, Apply;
    match s.procs[p].pc
    case Lock(key, init, id) => OperateOk(s, p, id, OP_LOCK, Check(id, init), 0);
    case Asleep(id, init) => OperateOk(s, p, id, OP_LOCK, Check(id, init), 0);
    case Check(id, init) => GotoOk(s, p, Run(s, p).procs[p].pc);
    case EndCreate(id) => OperateOk(s, p, id, OP_ENDCREATE, Idle, 1);
    case Open(id) => OperateOk(s, p, id, OP_OPEN, Idle, 1);
    case Close(id) =>
      CloseCounted(s, p, id);
      OperateOk(s, p, id, OP_CLOSE, CloseCheck(id), -1);
    case CloseCheck(id) =>
      ExitOk(s, p);
      if s.sets[id].v[1] <= BIGCOUNT {
        GotoOk(s, p, Run(s, p).procs[p].pc);
      }
    case Remove(id) => RemovedOk(s, p, id);
    case Unlock(id) => OperateOk(s, p, id, OP_UNLOCK, Idle, 0);
    case UserOp(id, amount) =>
      ExitOk(s, p);
      if amount != 0 {
        OperateOk(s, p, id, OpOp(amount), Idle, 0);
      }
    case Rm(id) => RemovedOk(s, p, id);
    case Init(id, _) =>
      ExitOk(s, p);
      InitialiseOk(s, p, id);
    case Count(id) => InitialiseOk(s, p, id);
    case _ =>
  }

  lemma InitialiseOk(s: State, p: nat, id: nat)
    requires Inv(s) && p < |s.procs| && id in s.sets && Initialising(s.procs[p].pc, id)
    ensures s.procs[p].pc.Init? && 0 <= s.procs[p].pc.init <= SEMVMX ==>
              Keeps(s, SetVal(s, p, id, 0, s.procs[p].pc.init, Count(id)))
    ensures s.procs[p].pc.Count? ==> Keeps(s, SetVal(s, p, id, 1, BIGCOUNT, EndCreate(id)))
  {
    hide SetOk, Moves, OnlyP, TablesOk, SetVal;
    SetValMoves(s, p, id);
    if s.procs[p].pc.Count? {
      SetValOk(s, p, id, 1, BIGCOUNT, EndCreate(id));
    } else if 0 <= s.procs[p].pc.init <= SEMVMX {
      SetValOk(s, p, id, 0, s.procs[p].pc.init, Count(id));
    }
  }

  /** Every step of every process, and every death, keeps the invariant. */
  lemma StepKeeps(s: State, s': State)
    requires Inv(s) && Ranged(s) && Next(s, s')
    ensures Keeps(s, s')
  {
    hide Inv, Keeps, Ranged, Exit, Run, Enabled;
    var p, a :| Can(s, p, a) && s' == Act(s, p, a);
    match a
    case Call(pc) => GotoOk(s, p, pc);
    case Go => RunOk(s, p);
    case Die => ExitOk(s, p);
    case Refuse => GotoOk(s, p, Idle);
  }
}
