/** The print spooler's threads: any number that add jobs, and the one that prints them, over one
    mutex and one condition variable, step by step. */
module Spooler {

  /** A thread in add_job: at the lock, inside with the job not yet linked, inside with it linked, at the signal. */
  datatype Adder = Idle | Want(job: int) | In(job: int) | Linked | Signal

  /** The printer thread: at the lock, at the test of jobhead, inside pthread_cond_wait asleep or woken, past
      remove_job, about to make a call of its attempt to print with those it has made, and in replace_job;
      Nap is its sleep after a deferral. */
  datatype Printer =
    | Top | Look | Asleep | Woken | Out(job: int)
    | Try(job: int, call: Call, calls: seq<Made>)
    | Back(job: int) | Put(job: int) | Leave | Nap

  /** The calls of one attempt: the data file is opened and its size taken, the printer connected to, the
      headers written, the file read and written piece by piece, and the printer's answer read. */
  datatype Call = Open | Fstat | Socket | Connect | Headers | Read | Write | Status

  /** Eof is read's 0; Fail is a failed or short call, and a zero from printer_status. */
  datatype Res = Ok | Fail | Eof

  datatype Made = Made(call: Call, res: Res)

  datatype Attempt = Attempt(job: int, calls: seq<Made>)

  datatype Owner = Nobody | ByAdder(p: nat) | ByPrinter

  /** queue is the list from jobhead to jobtail; arrivals are all jobs ever linked, in order; gone are the
      attempts after which the job was freed, deferred those after which it went to replace_job. */
  datatype State = State(adders: seq<Adder>, printer: Printer, owner: Owner, queue: seq<int>,
                         arrivals: seq<int>, gone: seq<Attempt>, deferred: seq<Attempt>)

  function Start(n: nat): State {
    State(seq(n, _ => Idle), Top, Nobody, [], [], [], [])
  }

  // ---------------------------------------------------------------- steps

  /** The adding thread can take its next step. */
  predicate AdderCan(s: State, p: nat)
    requires p < |s.adders|
  {
    match s.adders[p]
    case Idle => false
    case Want(_) => s.owner.Nobody?
    case _ => true
  }

  function AdderStep(s: State, p: nat): State
    requires p < |s.adders| && AdderCan(s, p)
  {
    match s.adders[p]
    case Want(job) => s.(adders := s.adders[p := In(job)], owner := ByAdder(p))
    case In(job) => s.(adders := s.adders[p := Linked], queue := s.queue + [job], arrivals := s.arrivals + [job])
    case Linked => s.(adders := s.adders[p := Signal], owner := Nobody)
    case Signal => s.(adders := s.adders[p := Idle], printer := if s.printer.Asleep? then Woken else s.printer)
    case Idle => s
  }

  predicate PrinterCan(s: State) {
    match s.printer
    case Top => s.owner.Nobody?
    case Woken => s.owner.Nobody?
    case Back(_) => s.owner.Nobody?
    case Asleep => false
    case _ => true
  }

  /** Where the attempt goes after a call. */
  datatype Onward = Then(call: Call) | Free | Defer

  function After(call: Call, res: Res): Onward {
    match call
    case Open => if res.Fail? then Free else Then(Fstat)
    case Fstat => if res.Fail? then Free else Then(Socket)
    case Socket => if res.Fail? then Defer else Then(Connect)
    case Connect => if res.Fail? then Defer else Then(Headers)
    case Headers => if res.Fail? then Defer else Then(Read)
    case Read => if res.Ok? then Then(Write) else if res.Eof? then Then(Status) else Defer
    case Write => if res.Fail? then Defer else Then(Read)
    case Status => if res.Fail? then Defer else Free
  }

  /** The result is one the call can have. */
  predicate Possible(s: State, res: Res) {
    res.Eof? ==> s.printer.Try? && s.printer.call.Read?
  }

  /** res is the result of the call the printer thread makes, if it makes one. */
  function PrinterStep(s: State, res: Res): State
    requires PrinterCan(s) && Possible(s, res)
  {
    match s.printer
    case Top => s.(printer := Look, owner := ByPrinter)
    case Woken => s.(printer := Look, owner := ByPrinter)
    case Look =>
      if s.queue == [] then s.(printer := Asleep, owner := Nobody)
      else s.(printer := Out(s.queue[0]), queue := s.queue[1..])
    case Out(job) => s.(printer := Try(job, Open, []), owner := Nobody)
    case Try(job, call, calls) =>
      var made := calls + [Made(call, res)];
      (match After(call, res)
       case Then(next) => s.(printer := Try(job, next, made))
       case Free => s.(printer := Top, gone := s.gone + [Attempt(job, made)])
       case Defer => s.(printer := Back(job), deferred := s.deferred + [Attempt(job, made)]))
    case Back(job) => s.(printer := Put(job), owner := ByPrinter)
    case Put(job) => s.(printer := Leave, queue := [job] + s.queue)
    case Leave => s.(printer := Nap, owner := Nobody)
    case Nap => s.(printer := Top)
    case Asleep => s
  }

  /** A thread calls add_job; or takes a step; or the printer wakes without a signal. */
  ghost predicate Next(s: State, s': State) {
    || (exists p, job :: 0 <= p < |s.adders| && s.adders[p].Idle? && s' == s.(adders := s.adders[p := Want(job)]))
    || (exists p :: 0 <= p < |s.adders| && AdderCan(s, p) && s' == AdderStep(s, p))
    || (exists res :: PrinterCan(s) && Possible(s, res) && s' == PrinterStep(s, res))
    || (s.printer.Asleep? && s' == s.(printer := Woken))
  }

  ghost predicate IsRun(run: seq<State>) {
    && |run| > 0 && (exists n: nat :: run[0] == Start(n))
    && forall i :: 0 <= i < |run| - 1 ==> Next(run[i], run[i + 1])
  }

  // ---------------------------------------------------------------- attempts

  /** The calls up to the copying of the file, each of which went well. */
  const OPENED: seq<Made> := [Made(Open, Ok), Made(Fstat, Ok), Made(Socket, Ok), Made(Connect, Ok), Made(Headers, Ok)]

  /** n pieces of the file read and written in full. */
  function Copied(n: nat): seq<Made> {
    if n == 0 then [] else Copied(n - 1) + [Made(Read, Ok), Made(Write, Ok)]
  }

  /** Every call went well, to the end of the file, and the printer accepted the job. */
  ghost predicate Printed(calls: seq<Made>) {
    exists n: nat :: calls == OPENED + Copied(n) + [Made(Read, Eof), Made(Status, Ok)]
  }

  /** The attempts after which a job is gone for good: no data file to open, none to take the size of, or all
      of it printed. */
  ghost predicate Leaves(calls: seq<Made>) {
    calls == [Made(Open, Fail)] || calls == [Made(Open, Ok), Made(Fstat, Fail)] || Printed(calls)
  }

  /** The calls made before this one. */
  ghost predicate Before(call: Call, calls: seq<Made>) {
    match call
    case Open => calls == []
    case Fstat => calls == OPENED[..1]
    case Socket => calls == OPENED[..2]
    case Connect => calls == OPENED[..3]
    case Headers => calls == OPENED[..4]
    case Read => exists n: nat :: calls == OPENED + Copied(n)
    case Write => exists n: nat :: calls == OPENED + Copied(n) + [Made(Read, Ok)]
    case Status => exists n: nat :: calls == OPENED + Copied(n) + [Made(Read, Eof)]
  }

  /** One call further. */
  lemma BeforeNext(call: Call, calls: seq<Made>, res: Res)
    requires Before(call, calls) && After(call, res).Then? && (res.Eof? ==> call.Read?)
    ensures Before(After(call, res).call, calls + [Made(call, res)])
  {
    match call
    case Headers =>
      assert calls + [Made(Headers, Ok)] == OPENED + Copied(0);
    case Read =>
      var n: nat :| calls == OPENED + Copied(n);
      assert calls + [Made(Read, res)] == OPENED + Copied(n) + [Made(Read, res)];
    case Write =>
      var n: nat :| calls == OPENED + Copied(n) + [Made(Read, Ok)];
      assert Copied(n + 1) == Copied(n) + [Made(Read, Ok), Made(Write, Ok)];
      assert calls + [Made(Write, Ok)] == OPENED + Copied(n + 1);
    case _ =>
  }

  /** Where an attempt ends, the job is freed exactly if the calls say that it leaves. */
  lemma EndsRight(call: Call, calls: seq<Made>, res: Res)
    requires Before(call, calls) && !After(call, res).Then? && (res.Eof? ==> call.Read?)
    ensures After(call, res).Free? <==> Leaves(calls + [Made(call, res)])
  {
    var made := calls + [Made(call, res)];
    assert made[|made| - 1] == Made(call, res);
    if call.Status? && res.Ok? {
      var n: nat :| calls == OPENED + Copied(n) + [Made(Read, Eof)];
      assert made == OPENED + Copied(n) + [Made(Read, Eof), Made(Status, Ok)];
    } else {
      NotPrinted(made);
    }
  }

  lemma NotPrinted(made: seq<Made>)
    requires |made| > 0 && made[|made| - 1] != Made(Status, Ok)
    ensures !Printed(made)
  {
  }

  /** The data file is there, and only the last call failed. */
  ghost predicate PutOff(calls: seq<Made>) {
    && |calls| >= 3 && calls[0] == Made(Open, Ok) && calls[1] == Made(Fstat, Ok)
    && calls[|calls| - 1].res == Fail && forall j :: 0 <= j < |calls| - 1 ==> calls[j].res != Fail
  }

  lemma {:induction false} CopiedMeans(n: nat)
    ensures |Copied(n)| == 2 * n
    ensures forall i :: 0 <= i < 2 * n ==> Copied(n)[i] == if i % 2 == 0 then Made(Read, Ok) else Made(Write, Ok)
  {
    if n > 0 {
      CopiedMeans(n - 1);
    }
  }

  lemma PutOffRight(call: Call, calls: seq<Made>, res: Res)
    requires Before(call, calls) && After(call, res).Defer? && (res.Eof? ==> call.Read?)
    ensures PutOff(calls + [Made(call, res)])
  {
    hide Copied;
    if call.Read? {
      var n: nat :| calls == OPENED + Copied(n);
      CopiedMeans(n);
    } else if call.Write? {
      var n: nat :| calls == OPENED + Copied(n) + [Made(Read, Ok)];
      CopiedMeans(n);
    } else if call.Status? {
      var n: nat :| calls == OPENED + Copied(n) + [Made(Read, Eof)];
      CopiedMeans(n);
    }
  }

  // ---------------------------------------------------------------- the invariant

  function Jobs(gone: seq<Attempt>): seq<int> {
    seq(|gone|, i requires 0 <= i < |gone| => gone[i].job)
  }

  /** The job the printer thread has taken. */
  function Hand(printer: Printer): seq<int> {
    if printer.Out? || printer.Try? || printer.Back? || printer.Put? then [printer.job] else []
  }

  /** Attempts ended as their calls say; the present one is on its way; and a deferred job is on its way back
      to the head of the queue, or there. */
  ghost predicate AttemptsOk(s: State) {
    && (forall i :: 0 <= i < |s.gone| ==> Leaves(s.gone[i].calls))
    && (forall i :: 0 <= i < |s.deferred| ==> !Leaves(s.deferred[i].calls) && PutOff(s.deferred[i].calls))
    && (s.printer.Try? ==> Before(s.printer.call, s.printer.calls))
    && (s.printer.Back? || s.printer.Put? ==> s.deferred != [] && s.deferred[|s.deferred| - 1].job == s.printer.job)
    && (s.printer.Leave? || s.printer.Nap? ==>
          s.deferred != [] && s.queue != [] && s.queue[0] == s.deferred[|s.deferred| - 1].job)
  }

  ghost predicate OwnerOk(s: State) {
    && (s.owner.ByPrinter? <==> s.printer.Look? || s.printer.Out? || s.printer.Put? || s.printer.Leave?)
    && (forall p :: 0 <= p < |s.adders| ==> (s.owner == ByAdder(p) <==> s.adders[p].In? || s.adders[p].Linked?))
    && (s.owner.ByAdder? ==> s.owner.p < |s.adders|)
  }

  /** An adding thread that has linked its job and not yet signalled. */
  ghost predicate Coming(s: State) {
    exists p :: 0 <= p < |s.adders| && (s.adders[p].Linked? || s.adders[p].Signal?)
  }

  ghost predicate Inv(s: State) {
    && Jobs(s.gone) + Hand(s.printer) + s.queue == s.arrivals
    && OwnerOk(s) && AttemptsOk(s)
    && (s.printer.Asleep? && s.queue != [] ==> Coming(s))
  }

  // ---------------------------------------------------------------- every step keeps it

  lemma AdderKeeps(s: State, p: nat)
    requires Inv(s) && p < |s.adders| && AdderCan(s, p)
    ensures Inv(AdderStep(s, p))
  {
    hide Leaves, Before;
    var s' := AdderStep(s, p);
    if s.adders[p].In? {
      var before := Jobs(s.gone) + Hand(s.printer);
      assert before + (s.queue + [s.adders[p].job]) == before + s.queue + [s.adders[p].job];
      assert s'.adders[p].Linked?;
    }
    if s'.printer.Asleep? && s'.queue != [] && !s.adders[p].In? {
      var q :| 0 <= q < |s.adders| && (s.adders[q].Linked? || s.adders[q].Signal?);
      assert s'.adders[q].Linked? || s'.adders[q].Signal?;
    }
  }

  /** The order of jobs, through any step of the printer thread. */
  lemma OrderKeeps(s: State, res: Res)
    requires Inv(s) && PrinterCan(s) && Possible(s, res)
    ensures var s' := PrinterStep(s, res); Jobs(s'.gone) + Hand(s'.printer) + s'.queue == s'.arrivals
  {
    hide Leaves, Before;
    var s' := PrinterStep(s, res);
    var before := Jobs(s.gone);
    match s.printer
    case Look =>
      if s.queue != [] {
        assert s.queue == [s.queue[0]] + s.queue[1..];
        assert before + [] + s.queue == before + [s.queue[0]] + s.queue[1..];
      }
    case Try(job, call, _) =>
      if After(call, res).Free? {
        assert Jobs(s'.gone) == before + [job];
        assert before + [job] + [] + s.queue == before + [job] + s.queue;
      }
    case Put(job) => assert before + [job] + s.queue == before + [] + ([job] + s.queue);
    case _ =>
  }

  lemma AttemptsKeep(s: State, res: Res)
    requires AttemptsOk(s) && PrinterCan(s) && Possible(s, res)
    ensures AttemptsOk(PrinterStep(s, res))
  {
    hide Leaves, Before, PutOff;
    if s.printer.Try? {
      if After(s.printer.call, res).Then? {
        BeforeNext(s.printer.call, s.printer.calls, res);
      } else {
        EndsRight(s.printer.call, s.printer.calls, res);
        if After(s.printer.call, res).Defer? {
          PutOffRight(s.printer.call, s.printer.calls, res);
        }
      }
    } else {
      StartsRight();
    }
  }

  lemma StartsRight()
    ensures Before(Open, [])
  {
  }

  lemma PrinterKeeps(s: State, res: Res)
    requires Inv(s) && PrinterCan(s) && Possible(s, res)
    ensures Inv(PrinterStep(s, res))
  {
    hide AttemptsOk, Jobs, Hand;
    OrderKeeps(s, res);
    AttemptsKeep(s, res);
  }

  lemma StepKeeps(s: State, s': State)
    requires Inv(s) && Next(s, s')
    ensures Inv(s')
  {
    hide AttemptsOk;
    if p, job :| 0 <= p < |s.adders| && s.adders[p].Idle? && s' == s.(adders := s.adders[p := Want(job)]) {
      CallKeeps(s, p, job);
    } else if p :| 0 <= p < |s.adders| && AdderCan(s, p) && s' == AdderStep(s, p) {
      AdderKeeps(s, p);
    } else if res :| PrinterCan(s) && Possible(s, res) && s' == PrinterStep(s, res) {
      PrinterKeeps(s, res);
    } else {
      WakeKeeps(s);
    }
  }

  lemma WakeKeeps(s: State)
    requires Inv(s) && s.printer.Asleep?
    ensures Inv(s.(printer := Woken))
  {
    hide Leaves, Before;
  }

  lemma CallKeeps(s: State, p: nat, job: int)
    requires Inv(s) && p < |s.adders| && s.adders[p].Idle?
    ensures Inv(s.(adders := s.adders[p := Want(job)]))
  {
    hide Leaves, Before;
    var s' := s.(adders := s.adders[p := Want(job)]);
    if s.printer.Asleep? && s.queue != [] {
      var q :| 0 <= q < |s.adders| && (s.adders[q].Linked? || s.adders[q].Signal?);
      assert s'.adders[q] == s.adders[q];
    }
  }

  lemma {:induction false} RunKeeps(run: seq<State>, i: nat)
    requires IsRun(run) && i < |run|
    ensures Inv(run[i])
  {
    hide Next;
    if i > 0 {
      RunKeeps(run, i - 1);
      StepKeeps(run[i - 1], run[i]);
    }
  }

  // ---------------------------------------------------------------- what it means

  /** The jobs gone for good, the job in hand and the queue are the arrivals, in their order: nothing is
      lost, doubled or overtaken, however often jobs are deferred. */
  lemma FirstInFirstOut(run: seq<State>, i: nat)
    requires IsRun(run) && i < |run|
    ensures Jobs(run[i].gone) + Hand(run[i].printer) + run[i].queue == run[i].arrivals
    ensures forall k :: 0 <= k < |run[i].gone| ==> k < |run[i].arrivals| && run[i].gone[k].job == run[i].arrivals[k]
  {
    hide IsRun;
    RunKeeps(run, i);
    var gone := Jobs(run[i].gone);
    forall k | 0 <= k < |gone|
      ensures k < |run[i].arrivals| && gone[k] == run[i].arrivals[k]
    {
      assert (gone + Hand(run[i].printer) + run[i].queue)[k] == gone[k];
    }
  }

  /** The attempt that ends here: the job it was for, and all its calls with their results. */
  ghost predicate AttemptEnds(s: State, s': State, a: Attempt) {
    && s.printer.Try? && !s'.printer.Try? && a.job == s.printer.job
    && exists res :: PrinterCan(s) && Possible(s, res) && s' == PrinterStep(s, res)
         && a.calls == s.printer.calls + [Made(s.printer.call, res)]
  }

  /** In every run, an attempt frees its job exactly if the data file could not be opened or its size not taken,
      or if every call to the end of the file went well and the printer accepted the job; otherwise the job is
      on its way back. */
  lemma LeavesIff(run: seq<State>, i: nat, a: Attempt)
    requires IsRun(run) && i + 1 < |run| && AttemptEnds(run[i], run[i + 1], a)
    ensures run[i + 1].gone == run[i].gone + [a] <==> Leaves(a.calls)
    ensures run[i + 1].printer == Back(a.job) && run[i + 1].deferred == run[i].deferred + [a] <==> !Leaves(a.calls)
  {
    hide IsRun, Leaves, Before;
    RunKeeps(run, i);
    var s := run[i];
    var res :| PrinterCan(s) && Possible(s, res) && run[i + 1] == PrinterStep(s, res)
               && a.calls == s.printer.calls + [Made(s.printer.call, res)];
    EndsRight(s.printer.call, s.printer.calls, res);
    assert |s.gone + [a]| != |s.gone|;
  }

  /** Nothing else makes a job leave: whatever has gone has gone so, and whatever was deferred was not done. */
  lemma GoneOnlySo(run: seq<State>, i: nat)
    requires IsRun(run) && i < |run|
    ensures forall k :: 0 <= k < |run[i].gone| ==> Leaves(run[i].gone[k].calls)
    ensures forall k :: 0 <= k < |run[i].deferred| ==> !Leaves(run[i].deferred[k].calls)
  {
    hide IsRun, Leaves, Before;
    RunKeeps(run, i);
  }

  /** After a deferral the job is at the head of the queue, and whatever job is tried is the first of those
      that have not gone: the deferred job is the next to be tried. */
  lemma DeferredFirst(run: seq<State>, i: nat)
    requires IsRun(run) && i < |run|
    ensures run[i].printer.Leave? || run[i].printer.Nap? ==>
              && run[i].deferred != [] && run[i].queue != []
              && run[i].queue[0] == run[i].deferred[|run[i].deferred| - 1].job
    ensures run[i].printer.Try? ==>
              |run[i].gone| < |run[i].arrivals| && run[i].printer.job == run[i].arrivals[|run[i].gone|]
  {
    hide IsRun, Leaves, Before;
    RunKeeps(run, i);
    var s := run[i];
    if s.printer.Try? {
      assert (Jobs(s.gone) + [s.printer.job] + s.queue)[|s.gone|] == s.printer.job;
    }
  }

  /** What has left stays left, and arrivals only grow. */
  lemma {:induction false} HistoryGrows(run: seq<State>, i: nat, j: nat)
    requires IsRun(run) && i <= j < |run|
    ensures run[i].gone <= run[j].gone && run[i].deferred <= run[j].deferred && run[i].arrivals <= run[j].arrivals
  {
    hide Next;
    if i < j {
      HistoryGrows(run, i, j - 1);
      GrowStep(run[j - 1], run[j]);
    }
  }

  lemma GrowStep(s: State, s': State)
    requires Next(s, s')
    ensures s.gone <= s'.gone && s.deferred <= s'.deferred && s.arrivals <= s'.arrivals
  {
  }

  /** The printer thread is never asleep with a job queued, unless an adding thread has yet to signal. */
  lemma NoLostWakeup(run: seq<State>, i: nat)
    requires IsRun(run) && i < |run| && run[i].printer.Asleep? && run[i].queue != []
    ensures Coming(run[i])
  {
    hide IsRun;
    RunKeeps(run, i);
  }

  /** As long as a job has not left, some thread that is already running can take a step. */
  lemma NeverStuck(run: seq<State>, i: nat)
    requires IsRun(run) && i < |run| && Jobs(run[i].gone) != run[i].arrivals
    ensures PrinterCan(run[i]) || exists p :: 0 <= p < |run[i].adders| && AdderCan(run[i], p)
  {
    hide IsRun;
    RunKeeps(run, i);
    var s := run[i];
    if s.printer.Asleep? {
      assert Jobs(s.gone) + [] + [] == Jobs(s.gone);
      assert s.queue != [];
      var p :| 0 <= p < |s.adders| && (s.adders[p].Linked? || s.adders[p].Signal?);
      assert AdderCan(s, p);
    } else if s.owner.ByAdder? {
      assert AdderCan(s, s.owner.p);
    }
  }

  /** The lock is never held by two threads. */
  lemma OneInside(run: seq<State>, i: nat, p: nat, q: nat)
    requires IsRun(run) && i < |run| && p < |run[i].adders| && q < |run[i].adders|
    requires run[i].adders[p].In? || run[i].adders[p].Linked?
    ensures (run[i].adders[q].In? || run[i].adders[q].Linked?) ==> p == q
    ensures !run[i].printer.Look? && !run[i].printer.Out? && !run[i].printer.Put? && !run[i].printer.Leave?
  {
    hide IsRun;
    RunKeeps(run, i);
  }

  // ---------------------------------------------------------------- the same in plain terms

  /** The file and the printer were opened, the headers written, every piece read was written, the file ended and
      the printer said yes. */
  ghost predicate AllWell(calls: seq<Made>) {
    && |calls| >= 7 && |calls| % 2 == 1
    && calls[0] == Made(Open, Ok) && calls[1] == Made(Fstat, Ok) && calls[2] == Made(Socket, Ok)
    && calls[3] == Made(Connect, Ok) && calls[4] == Made(Headers, Ok)
    && (forall i :: 5 <= i < |calls| - 2 ==> calls[i] == if i % 2 == 1 then Made(Read, Ok) else Made(Write, Ok))
    && calls[|calls| - 2] == Made(Read, Eof) && calls[|calls| - 1] == Made(Status, Ok)
  }

  ghost function Whole(n: nat): seq<Made> {
    OPENED + Copied(n) + [Made(Read, Eof), Made(Status, Ok)]
  }

  lemma WholeIsWell(n: nat)
    ensures AllWell(Whole(n)) && |Whole(n)| == 7 + 2 * n
  {
    hide Copied;
    CopiedMeans(n);
    forall i | 5 <= i < 5 + 2 * n
      ensures Whole(n)[i] == Copied(n)[i - 5]
    {
    }
  }

  lemma WellIsWhole(calls: seq<Made>, n: nat)
    requires AllWell(calls) && |calls| == 7 + 2 * n
    ensures calls == Whole(n)
  {
    hide Copied, Whole;
    WholeIsWell(n);
    forall i | 0 <= i < |calls|
      ensures calls[i] == Whole(n)[i]
    {
    }
  }

  /** The jobs that leave: the data file cannot be opened, or its size not taken, or all went well. */
  lemma LeavesMeans(calls: seq<Made>)
    ensures Leaves(calls) <==>
              calls == [Made(Open, Fail)] || calls == [Made(Open, Ok), Made(Fstat, Fail)] || AllWell(calls)
  {
    hide AllWell, Copied;
    if Printed(calls) {
      var n: nat :| calls == OPENED + Copied(n) + [Made(Read, Eof), Made(Status, Ok)];
      WholeIsWell(n);
      assert calls == Whole(n);
    } else if AllWell(calls) {
      WellSize(calls);
      WellIsWhole(calls, (|calls| - 7) / 2);
    }
  }

  lemma WellSize(calls: seq<Made>)
    requires AllWell(calls)
    ensures |calls| >= 7 && |calls| == 7 + 2 * ((|calls| - 7) / 2)
  {
  }

  /** An attempt that is put off has its data file, and its last call is the one that failed. */
  lemma DeferredMeans(run: seq<State>, i: nat, k: nat)
    requires IsRun(run) && i < |run| && k < |run[i].deferred|
    ensures var calls := run[i].deferred[k].calls;
            && |calls| >= 3 && calls[0] == Made(Open, Ok) && calls[1] == Made(Fstat, Ok)
            && calls[|calls| - 1].res == Fail && forall j :: 0 <= j < |calls| - 1 ==> calls[j].res != Fail
  {
    hide IsRun;
    RunKeeps(run, i);
  }

  // ---------------------------------------------------------------- every call of add_job

  /** What a step makes of a thread in add_job: the job it was called with is linked once, at the end. */
  lemma AdderGoesOn(s: State, s': State, p: nat)
    requires Next(s, s') && p < |s.adders|
    ensures |s'.adders| == |s.adders|
    ensures s'.adders[p] != s.adders[p] ==>
              match s.adders[p]
              case Idle => s'.adders[p].Want? && s'.arrivals == s.arrivals
              case Want(job) =>
                && s'.adders[p] == In(job) && s.owner == Nobody && s'.owner == ByAdder(p)
                && s'.arrivals == s.arrivals
              case In(job) =>
                s'.adders[p] == Linked && s'.arrivals == s.arrivals + [job] && s'.queue == s.queue + [job]
              case Linked => s'.adders[p] == Signal && s'.owner == Nobody && s'.arrivals == s.arrivals
              case Signal => s'.adders[p] == Idle && !s'.printer.Asleep? && s'.arrivals == s.arrivals
    ensures s'.arrivals != s.arrivals ==>
              exists q :: 0 <= q < |s.adders| && s.adders[q].In? && s'.adders[q] == Linked
  {
  }
}
