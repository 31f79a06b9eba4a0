/** The dialer server: its table of device locks, its cursor over the Systems file, and the requests
    of its clients with their retries. */
module Calld {
  import opened Common

  /** An entry of lock[]: the pid is 0 while the line is free. */
  datatype Lock = Lock(line: string, pid: int)

  /** A line of the Systems file; Bad is one that lacks a field, which ends the server. */
  datatype Line = Empty | Comment | Bad | Entry(name: string, kind: string, class_: string)

  datatype Device = Device(kind: string, line: string, class_: string)

  /** sysftell is the place in the Systems file to go on from, -1 at its end. */
  datatype Client = Client(open: bool, sysname: string, speed: string, sysftell: int, foundone: int, pid: int)

  /** What request reports: a child dials; or the error message for the client; or log_quit ended the server. */
  datatype Answer = Dialing | NotFound | NoDevice | Locked | Unable | Died

  // ---------------------------------------------------------------- the lock table

  /** The process that holds the line, or 0. */
  ghost function PidOf(lock: seq<Lock>, line: string): int {
    if lock == [] then 0 else if lock[0].line == line then lock[0].pid else PidOf(lock[1..], line)
  }

  ghost predicate TableOk(lock: seq<Lock>) {
    && (forall i, j :: 0 <= i < j < |lock| ==> lock[i].line != lock[j].line)
    && (forall i, j :: 0 <= i < j < |lock| && lock[i].pid != 0 ==> lock[i].pid != lock[j].pid)
  }

  ghost predicate NotIn(lock: seq<Lock>, pid: int) {
    forall i :: 0 <= i < |lock| ==> lock[i].pid != pid
  }

  lemma {:induction false} PidAt(lock: seq<Lock>, i: nat)
    requires TableOk(lock) && i < |lock|
    ensures PidOf(lock, lock[i].line) == lock[i].pid
  {
    if i > 0 {
      PidAt(lock[1..], i - 1);
    }
  }

  lemma {:induction false} PidAbsent(lock: seq<Lock>, line: string)
    requires forall i :: 0 <= i < |lock| ==> lock[i].line != line
    ensures PidOf(lock, line) == 0
  {
    if lock != [] {
      PidAbsent(lock[1..], line);
    }
  }

  lemma {:induction false} PidAppend(lock: seq<Lock>, e: Lock, line: string)
    requires forall i :: 0 <= i < |lock| ==> lock[i].line != e.line
    ensures PidOf(lock + [e], line) == if line == e.line then e.pid else PidOf(lock, line)
  {
    if lock != [] {
      assert (lock + [e])[1..] == lock[1..] + [e];
      PidAppend(lock[1..], e, line);
    }
  }

  lemma {:induction false} PidUpdate(lock: seq<Lock>, i: nat, pid: int, line: string)
    requires TableOk(lock) && i < |lock|
    ensures PidOf(lock[i := Lock(lock[i].line, pid)], line) == if line == lock[i].line then pid else PidOf(lock, line)
  {
    if i > 0 {
      assert lock[i := Lock(lock[i].line, pid)][1..] == lock[1..][i - 1 := Lock(lock[i].line, pid)];
      PidUpdate(lock[1..], i - 1, pid, line);
    }
  }

  lemma {:induction false} PidWhere(lock: seq<Lock>, line: string)
    requires PidOf(lock, line) != 0
    ensures exists i :: 0 <= i < |lock| && lock[i] == Lock(line, PidOf(lock, line))
  {
    if lock[0].line != line {
      PidWhere(lock[1..], line);
      var i :| 0 <= i < |lock[1..]| && lock[1..][i] == Lock(line, PidOf(lock[1..], line));
      assert lock[i + 1] == Lock(line, PidOf(lock, line));
    } else {
      assert lock[0] == Lock(line, PidOf(lock, line));
    }
  }

  /** In a sound table a process holds one line at most. */
  lemma OneLine(lock: seq<Lock>, a: string, b: string)
    requires TableOk(lock) && PidOf(lock, a) != 0 && PidOf(lock, a) == PidOf(lock, b)
    ensures a == b
  {
    PidWhere(lock, a);
    PidWhere(lock, b);
    var i :| 0 <= i < |lock| && lock[i] == Lock(a, PidOf(lock, a));
    var j :| 0 <= j < |lock| && lock[j] == Lock(b, PidOf(lock, b));
    assert i == j;
  }

  // ---------------------------------------------------------------- matching lines

  /** The line is for the system asked for, and of the speed if one was asked for. */
  predicate Matches(line: Line, name: string, speed: string) {
    line.Entry? && line.name == name && (speed == "" || speed == line.class_)
  }

  function MatchCount(file: seq<Line>, name: string, speed: string, k: nat): nat
    requires k <= |file|
  {
    if k == 0 then 0 else MatchCount(file, name, speed, k - 1) + (if Matches(file[k - 1], name, speed) then 1 else 0)
  }

  lemma {:induction false} CountZero(file: seq<Line>, name: string, speed: string, k: nat)
    requires k <= |file|
    ensures MatchCount(file, name, speed, k) == 0 <==> forall j :: 0 <= j < k ==> !Matches(file[j], name, speed)
  {
    if k > 0 {
      CountZero(file, name, speed, k - 1);
    }
  }

  lemma CountNone(file: seq<Line>, name: string, speed: string)
    ensures MatchCount(file, name, speed, 0) == 0
  {
  }

  lemma CountNext(file: seq<Line>, name: string, speed: string, k: nat)
    requires k < |file|
    ensures MatchCount(file, name, speed, k + 1) ==
            MatchCount(file, name, speed, k) + (if Matches(file[k], name, speed) then 1 else 0)
  {
  }

  lemma {:induction false} CountSkip(file: seq<Line>, name: string, speed: string, a: nat, b: nat)
    requires a <= b <= |file| && forall j :: a <= j < b ==> !Matches(file[j], name, speed)
    ensures MatchCount(file, name, speed, b) == MatchCount(file, name, speed, a)
  {
    if a < b {
      CountSkip(file, name, speed, a, b - 1);
    }
  }

  /** Device i has the line's type and class, and no device before it has. */
  ghost predicate IsFirst(devs: seq<Device>, line: Line, i: int) {
    && line.Entry? && 0 <= i < |devs| && devs[i].kind == line.kind && devs[i].class_ == line.class_
    && forall j :: 0 <= j < i ==> devs[j].kind != line.kind || devs[j].class_ != line.class_
  }

  /** The first device of the line's type and class, from the Devices file. */
  function DeviceFor(devs: seq<Device>, line: Line): (d: Option<Device>)
    requires line.Entry?
    ensures d.Some? ==> exists i :: IsFirst(devs, line, i) && d.value == devs[i]
    ensures d.None? ==> forall i :: 0 <= i < |devs| ==> !(devs[i].kind == line.kind && devs[i].class_ == line.class_)
  {
    if devs == [] then None
    else if devs[0].kind == line.kind && devs[0].class_ == line.class_ then
      assert IsFirst(devs, line, 0);
      Some(devs[0])
    else
      var d := DeviceFor(devs[1..], line);
      assert forall i :: IsFirst(devs[1..], line, i) ==> IsFirst(devs, line, i + 1) && devs[i + 1] == devs[1..][i];
      d
  }

  // ---------------------------------------------------------------- the server

  /** The numbers from a up to, but without, b. */
  ghost function Range(a: int, b: int): seq<nat>
    requires 0 <= a <= b
  {
    seq(b - a, i requires 0 <= i < b - a => a + i)
  }

  /** Since before, the lines from a up to b have been read, each once and in order. */
  ghost predicate ReadOnce(before: seq<nat>, now: seq<nat>, a: int, b: int) {
    0 <= a <= b && now == before + Range(a, b)
  }

  lemma ReadNone(before: seq<nat>, a: nat)
    ensures ReadOnce(before, before, a, a)
  {
  }

  lemma ReadMore(before: seq<nat>, mid: seq<nat>, now: seq<nat>, a: int, b: int, c: int)
    requires ReadOnce(before, mid, a, b) && ReadOnce(mid, now, b, c)
    ensures ReadOnce(before, now, a, c)
  {
    assert Range(a, b) + Range(b, c) == Range(a, c);
    assert before + Range(a, b) + Range(b, c) == before + (Range(a, b) + Range(b, c));
  }

  ghost predicate Added(before: seq<nat>, now: seq<nat>, more: seq<nat>) {
    now == before + more
  }

  lemma AddedFirst(before: seq<nat>, now: seq<nat>, more: seq<nat>)
    requires now == if more == [] then before else before + more
    ensures Added(before, now, more)
  {
  }

  lemma AddedMore(before: seq<nat>, mid: seq<nat>, now: seq<nat>, more: seq<nat>, next: seq<nat>)
    requires Added(before, mid, more) && now == mid + next
    ensures Added(before, now, more + next)
  {
    assert before + more + next == before + (more + next);
  }

  lemma ReadOne(before: seq<nat>, a: nat)
    ensures ReadOnce(before, before + [a], a, a + 1)
  {
  }

  class Server {
    const file: seq<Line>
    const devs: seq<Device>
    var lock: seq<Lock>
    var pos: nat
    var client: seq<Client>

    // What has been done: the lines of the Systems file read, and those dialed, each in order.
    ghost var seen: seq<nat>
    ghost var dials: seq<nat>

    ghost predicate Valid()
      reads this
    {
      TableOk(lock) && pos <= |file|
    }

    /** The client's cursor is in the file, and foundone counts the matching lines before it. */
    ghost predicate CursorOk(cl: Client) {
      0 <= cl.sysftell <= |file| && cl.foundone == MatchCount(file, cl.sysname, cl.speed, cl.sysftell)
    }

    constructor (file: seq<Line>, devs: seq<Device>)
      ensures Valid() && this.file == file && this.devs == devs && lock == [] && client == []
    {
      this.file, this.devs := file, devs;
      lock, pos, client := [], 0, [];
      seen, dials := [], [];
    }

    /** find_line: the line's entry, added free if the line has none. */
    method FindLine(line: string) returns (i: nat)
      requires TableOk(lock)
      modifies `lock
      ensures TableOk(lock) && i < |lock| && lock[i].line == line && lock[i].pid == old(PidOf(lock, line))
      ensures forall l :: PidOf(lock, l) == old(PidOf(lock, l))
    {
      i := 0;
      while i < |lock|
        invariant 0 <= i <= |lock| && forall j :: 0 <= j < i ==> lock[j].line != line
      {
        if lock[i].line == line {
          PidAt(lock, i);
          return;
        }
        i := i + 1;
      }
      PidAbsent(lock, line);
      forall l { PidAppend(lock, Lock(line, 0), l); }
      lock := lock + [Lock(line, 0)];
    }

    /** lock_set. */
    method LockSet(line: string, pid: int)
      requires TableOk(lock) && pid != 0 && NotIn(lock, pid)
      modifies `lock
      ensures TableOk(lock)
      ensures forall l :: PidOf(lock, l) == if l == line then pid else old(PidOf(lock, l))
    {
      var i := FindLine(line);
      NoPid(old(lock), lock, pid);
      forall l { PidUpdate(lock, i, pid, l); }
      lock := lock[i := Lock(lock[i].line, pid)];
    }

    /** lock_rel: the line held for the process is free, and no other changes. */
    method LockRel(pid: int)
      requires TableOk(lock)
      modifies `lock
      ensures TableOk(lock)
      ensures forall l :: PidOf(lock, l) == if old(PidOf(lock, l)) == pid then 0 else old(PidOf(lock, l))
    {
      var i := 0;
      while i < |lock|
        invariant 0 <= i <= |lock| && lock == old(lock) && forall j :: 0 <= j < i ==> lock[j].pid != pid
      {
        if lock[i].pid == pid {
          Released(lock, i);
          lock := lock[i := Lock(lock[i].line, 0)];
          return;
        }
        i := i + 1;
      }
      NotHeld(lock, pid);
    }

    /** is_locked. */
    method IsLocked(line: string) returns (pid: int)
      requires TableOk(lock)
      modifies `lock
      ensures TableOk(lock) && pid == old(PidOf(lock, line))
      ensures forall l :: PidOf(lock, l) == old(PidOf(lock, l))
    {
      var i := FindLine(line);
      return lock[i].pid;
    }

    // -------------------------------------------------------------- the Systems and Devices files

    /** sys_posn. */
    method SysPosn(posn: nat)
      requires posn <= |file|
      modifies `pos
      ensures pos == posn
    {
      pos := posn;
    }

    /** sys_next: the next entry, past empty and comment lines, and the place after it. */
    method SysNext() returns (at: int, died: bool)
      requires pos <= |file|
      modifies `pos, `seen
      ensures old(pos) <= pos <= |file| && ReadOnce(old(seen), seen, old(pos), pos)
      ensures died ==> pos > old(pos) && file[pos - 1].Bad?
      ensures !died && at >= 0 ==> at == pos > old(pos) && file[pos - 1].Entry?
      ensures !died && at < 0 ==> at == -1 && pos == |file|
      ensures forall j :: old(pos) <= j < pos && !(j == pos - 1 && (died || at >= 0)) ==>
                file[j].Empty? || file[j].Comment?
    {
      hide ReadOnce;
      ReadNone(seen, pos);
      while pos < |file|
        invariant old(pos) <= pos <= |file| && ReadOnce(old(seen), seen, old(pos), pos)
        invariant forall j :: old(pos) <= j < pos ==> file[j].Empty? || file[j].Comment?
      {
        var line := file[pos];
        ReadOne(seen, pos);
        ReadMore(old(seen), seen, seen + [pos], old(pos), pos, pos + 1);
        seen, pos := seen + [pos], pos + 1;
        if line.Bad? {
          return -1, true;
        }
        if line.Entry? {
          return pos, false;
        }
      }
      return -1, false;
    }

    /** dev_find: the first device of the right type and class. */
    method DevFind(line: Line) returns (d: Option<Device>)
      requires line.Entry?
      ensures d == DeviceFor(devs, line)
      ensures d.Some? <==> exists i :: IsFirst(devs, line, i)
      ensures d.Some? ==> exists i :: IsFirst(devs, line, i) && d.value == devs[i]
    {
      var i := 0;
      while i < |devs|
        invariant 0 <= i <= |devs| && DeviceFor(devs, line) == DeviceFor(devs[i..], line)
      {
        if devs[i].kind == line.kind && devs[i].class_ == line.class_ {
          return Some(devs[i]);
        }
        assert devs[i..][1..] == devs[i + 1..];
        i := i + 1;
      }
      return None;
    }

    // -------------------------------------------------------------- requests

    /** A matching line of which the device is held. */
    ghost predicate Busy(locks: seq<Lock>, line: Line) {
      line.Entry? && DeviceFor(devs, line).Some? && PidOf(locks, DeviceFor(devs, line).value.line) != 0
    }

    /** request, for client c; child is the process fork would return. */
    method Request(c: nat, child: int) returns (answer: Answer)
      requires Valid() && c < |client| && CursorOk(client[c])
      requires child > 0 && NotIn(lock, child)
      modifies `lock, `pos, `client, `seen, `dials
      ensures Valid() && |client| == |old(client)| && client == old(client)[c := client[c]]
      ensures Asks(old(client[c]), client[c]) && old(client[c]).sysftell <= pos
      ensures ReadOnce(old(seen), seen, old(client[c]).sysftell, pos)
      ensures dials == if answer.Dialing? then old(dials) + [pos - 1] else old(dials)
      ensures answer.Dialing? ==> Dials(old(lock), lock, old(client[c]), client[c], pos, child)
      ensures !answer.Dialing? ==> SameHolders(old(lock), lock)
      ensures Says(old(lock), lock, old(client[c]), pos, child, answer)
      ensures answer.Dialing? || answer.NoDevice? || answer.Died? ==>
        pos > 0 && Stop(old(lock), old(client[c]), pos - 1, answer)
      ensures answer.Died? ==> file[pos - 1].Bad?
      ensures forall k: nat, a :: Stop(old(lock), old(client[c]), k, a) ==> answer == a && pos == k + 1
      ensures !answer.Dialing? && !answer.Died? ==>
        (client[c].sysftell == -1 <==> forall k: nat :: !Stop(old(lock), old(client[c]), k, NoDevice))
      ensures answer.NoDevice? ==> client[c].sysftell == pos
      ensures answer.NotFound? || answer.Locked? || answer.Unable? ==>
        client[c].sysftell == -1 && pos == |file| && AllBusy(old(lock), old(client[c]), |file|)
      ensures answer.NotFound? <==> !answer.Died? && Missing(client[c].sysname, client[c].speed)
      ensures answer.Unable? ==> NoneFrom(old(client[c]), |file|)
      ensures answer.Locked? ==> !NoneFrom(old(client[c]), |file|)
    {
      hide PidOf, TableOk, DeviceFor, AllBusy, NoneFrom, MatchCount, Stop, Ends, Dials, Missing, Searched, ReadOnce,
        Matches, Says, IsFirst, Skipped, NoBad, NotIn, SameHolders, Granted;
      var cl := client[c];
      ghost var lock0, cl0 := lock, client[c];
      var locked := false;
      SysPosn(cl.sysftell);
      SearchedNone(lock0, cl0);
      ReadNone(seen, pos);
      SameAtFirst(lock0);
      while true
        invariant TableOk(lock) && Asks(cl0, cl) && client == old(client) && dials == old(dials)
        invariant cl0.sysftell <= pos <= |file| && ReadOnce(old(seen), seen, cl0.sysftell, pos)
        invariant SameHolders(lock0, lock)
        invariant Searched(lock0, cl0, pos, cl.foundone, locked)
        decreases |file| - pos
      {
        ghost var was, seen0 := pos, seen;
        var at, died := SysNext();
        ReadMore(old(seen), seen0, seen, cl0.sysftell, was, pos);
        SearchedSkip(lock0, cl0, was, if !died && at < 0 then pos else pos - 1, cl.foundone, locked);
        if died {
          SearchedEnd(lock0, cl0, pos - 1, cl.foundone, locked, Died);
          SaysEnd(lock0, lock, cl0, pos, child, cl.foundone, locked, Died);
          client := client[c := cl];
          return Died;
        }
        cl := cl.(sysftell := at);
        if at < 0 {
          break;
        }
        var line := file[at - 1];
        if !Matches(line, cl.sysname, cl.speed) {
          SearchedPass(lock0, cl0, at - 1, cl.foundone, locked);
          continue;
        }
        var d := DevFind(line);
        if d.None? {
          SearchedEnd(lock0, cl0, at - 1, cl.foundone, locked, NoDevice);
          SaysEnd(lock0, lock, cl0, pos, child, cl.foundone, locked, NoDevice);
          client := client[c := cl.(foundone := cl.foundone + 1)];
          return NoDevice;
        }
        ghost var before := lock;
        var pid := IsLocked(d.value.line);
        HoldersChain(lock0, before, lock, d.value.line);
        if pid != 0 {
          SearchedBusy(lock0, cl0, at - 1, cl.foundone, locked);
          cl := cl.(foundone := cl.foundone + 1);
          locked := true;
          continue;
        }
        SearchedEnd(lock0, cl0, at - 1, cl.foundone, locked, Dialing);
        cl := cl.(foundone := cl.foundone + 1, pid := child);
        NoPidSame(lock0, lock, child);
        before := lock;
        LockSet(d.value.line, child);
        GrantedIs(lock0, before, lock, d.value.line, child);
        DialsIs(lock0, lock, cl0, cl, at, child, locked);
        SaysEnd(lock0, lock, cl0, pos, child, cl.foundone - 1, locked, Dialing);
        client := client[c := cl];
        dials := dials + [pos - 1];
        return Dialing;
      }
      SearchedAll(lock0, cl0, cl.foundone, locked);
      SaysAll(lock0, lock, cl0, pos, child, cl.foundone, locked);
      client := client[c := cl];
      if cl.foundone == 0 {
        return NotFound;
      }
      return if locked then Locked else Unable;
    }

    /** A client's whole request, as loop and child_done handle it: a first try from the start of the
        Systems file, and another from where it left off each time a child fails to connect. exits[k] says
        whether the k-th child connects, pids[k] is its process, and tables[k] the lock table by the time it
        has ended, whatever other clients have done to it. Every line up to where the search ends is read
        once, and dialed are the lines dialed. */
    method DialChain(c: nat, name: string, speed: string, exits: seq<bool>, pids: seq<int>, tables: seq<seq<Lock>>)
      returns (answer: Answer, ghost dialed: seq<nat>)
      requires Valid() && c < |client| && |pids| == |exits| + 1 && |tables| == |exits|
      requires pids[0] > 0 && NotIn(lock, pids[0])
      requires forall k :: 0 <= k < |tables| ==> TableOk(tables[k]) && pids[k + 1] > 0 && NotIn(tables[k], pids[k + 1])
      modifies `lock, `pos, `client, `seen, `dials
      ensures Valid() && ReadOnce(old(seen), seen, 0, pos) && Added(old(dials), dials, dialed)
      ensures forall i, j :: 0 <= i < j < |dialed| ==> dialed[i] < dialed[j]
      ensures forall i :: 0 <= i < |dialed| ==> dialed[i] < |file| && Matches(file[dialed[i]], name, speed)
      ensures forall i :: 0 <= i < |dialed| ==>
        && dialed[i] < |file| && file[dialed[i]].Entry? && file[dialed[i]].name == name
        && (speed == "" || file[dialed[i]].class_ == speed)
      ensures |dialed| <= |file| && (answer.Dialing? && true !in exits ==> |dialed| == |exits| + 1)
      ensures |exits| >= |file| && true !in exits ==> !answer.Dialing?
      ensures answer.NotFound? <==> !answer.Died? && Missing(name, speed)
      ensures answer.NotFound? ==> dialed == []
    {
      hide PidOf, TableOk, DeviceFor, Matches, MatchCount, Dials, AllBusy, NoneFrom, Missing, Stop, ReadOnce, Chained,
        CursorOk, Added, Says, IsFirst, Skipped, NoBad, Asks, Granted, Climbs, NotIn;
      client := client[c := client[c].(sysname := name, speed := speed, sysftell := 0, foundone := 0)];
      CursorStart(client[c]);
      ghost var lock0, cl0 := lock, client[c];
      answer := Request(c, pids[0]);
      dialed := if answer.Dialing? then [pos - 1] else [];
      AddedFirst(old(dials), dials, dialed);
      ChainedFirst(lock0, lock, cl0, client[c], pos, pids[0], answer);
      var k := 0;
      while answer.Dialing? && k < |exits| && !exits[k]
        invariant Valid() && k <= |exits| && c < |client| && Chained(client[c], name, speed, dialed, k, answer)
        invariant ReadOnce(old(seen), seen, 0, pos) && Added(old(dials), dials, dialed)
        invariant answer.Dialing? ==> CursorOk(client[c]) && client[c].sysftell == pos
      {
        lock := tables[k];
        LockRel(client[c].pid);
        NoPid(tables[k], lock, pids[k + 1]);
        lock0, cl0 := lock, client[c];
        ghost var was, seen0, dials0 := pos, seen, dials;
        answer := Request(c, pids[k + 1]);
        ReadMore(old(seen), seen0, seen, 0, was, pos);
        ChainedMore(lock0, lock, cl0, client[c], pos, pids[k + 1], answer, name, speed, dialed, k);
        if answer.Dialing? {
          AddedMore(old(dials), dials0, dials, dialed, [pos - 1]);
          dialed := dialed + [pos - 1];
        }
        k := k + 1;
      }
      ChainedMeans(client[c], name, speed, dialed, k, answer);
    }

    // -------------------------------------------------------------- the server's events

    /** Every connected client's cursor is sound. */
    ghost predicate Serving()
      reads this
    {
      Valid() && forall c :: 0 <= c < |client| && client[c].open ==> CursorOk(client[c])
    }

    /** A request of a connected client arrives; a client that gets an error is disconnected. */
    method Ask(c: nat, name: string, speed: string, child: int) returns (answer: Answer)
      requires Serving() && c < |client| && client[c].open && child > 0 && NotIn(lock, child)
      modifies `lock, `pos, `client, `seen, `dials
      ensures Serving() && |client| == |old(client)| && client == old(client)[c := client[c]]
      ensures Answered(old(lock), lock, client[c], child) && (answer.Dialing? <==> client[c].open)
      ensures client[c].sysname == name && client[c].speed == speed
      ensures Says(old(lock), lock, old(client[c]).(sysname := name, speed := speed, sysftell := 0, foundone := 0),
                   pos, child, answer)
      ensures answer.Died? ==> 0 < pos && file[pos - 1].Bad?
      ensures answer.NotFound? <==> !answer.Died? && Missing(name, speed)
    {
      hide PidOf, TableOk, DeviceFor, Matches, MatchCount, AllBusy, NoneFrom, Missing, Stop, Answered, Says;
      client := client[c := client[c].(sysname := name, speed := speed, sysftell := 0, foundone := 0)];
      CountNone(file, name, speed);
      ghost var lock0, cl0 := lock, client[c];
      answer := Request(c, child);
      if !answer.Dialing? {
        client := client[c := client[c].(open := false)];
      }
      Grants(lock0, lock, cl0, client[c], pos, child, answer);
    }

    /** child_done, for a child that did not connect: its line is released, and the request goes on. */
    method ChildFailed(c: nat, child: int) returns (answer: Answer, ghost mid: seq<Lock>)
      requires Serving() && c < |client| && client[c].open && child > 0 && NotIn(lock, child)
      modifies `lock, `pos, `client, `seen, `dials
      ensures Serving() && |client| == |old(client)| && client == old(client)[c := client[c]]
      ensures Freed(old(lock), mid, old(client[c]).pid) && Answered(mid, lock, client[c], child)
      ensures answer.Dialing? <==> client[c].open
      ensures Says(mid, lock, old(client[c]), pos, child, answer)
      ensures answer.Dialing? ==> client[c].sysftell > old(client[c]).sysftell
      ensures answer.Died? ==> 0 < pos && file[pos - 1].Bad?
    {
      hide PidOf, TableOk, DeviceFor, Matches, MatchCount, AllBusy, NoneFrom, Missing, Stop, Answered, Says;
      ghost var lock0, cl0 := lock, client[c];
      LockRel(client[c].pid);
      NoPid(lock0, lock, child);
      mid := lock;
      answer := Request(c, child);
      if !answer.Dialing? {
        client := client[c := client[c].(open := false)];
      }
      Grants(mid, lock, cl0, client[c], pos, child, answer);
    }

    /** The client has gone: its line is released. */
    method Closed(c: nat)
      requires Serving() && c < |client| && client[c].open
      modifies `lock, `client
      ensures Serving() && Freed(old(lock), lock, old(client[c]).pid)
      ensures client == old(client)[c := old(client[c]).(open := false)]
    {
      hide PidOf, TableOk, MatchCount;
      LockRel(client[c].pid);
      client := client[c := client[c].(open := false)];
    }

    method Connect()
      requires Serving()
      modifies `client
      ensures Serving() && client == old(client) + [Client(true, "", "", 0, 0, 0)]
    {
      CountNone(file, "", "");
      client := client + [Client(true, "", "", 0, 0, 0)];
    }

    /** Any run of events, up to one that ends the server. An event for a client that is not there, or with a
        process that still has a lock, does not occur. tables and clients are the lock table and the clients
        before the first event and after each. */
    method Serve(evs: seq<Ev>) returns (died: bool, ghost tables: seq<seq<Lock>>, ghost clients: seq<seq<Client>>)
      requires Serving()
      modifies `lock, `pos, `client, `seen, `dials
      ensures Serving() && 0 < |tables| == |clients| <= |evs| + 1 && (!died ==> |tables| == |evs| + 1)
      ensures died ==> 0 < pos && file[pos - 1].Bad?
      ensures tables[0] == old(lock) && clients[0] == old(client)
      ensures tables[|tables| - 1] == lock && clients[|tables| - 1] == client
      ensures forall i :: 0 <= i < |tables| ==> TableOk(tables[i])
      ensures forall i :: 0 <= i < |tables| - 1 ==> Effect(tables[i], clients[i], tables[i + 1], clients[i + 1], evs[i])
    {
      hide TableOk, Effect, CursorOk, Freed, Answered, SameHolders, Says;
      tables, clients, died := [lock], [client], false;
      var i := 0;
      while i < |evs| && !died
        invariant 0 <= i <= |evs| && Serving() && |tables| == |clients| == i + 1
        invariant died ==> 0 < pos && file[pos - 1].Bad?
        invariant tables[0] == old(lock) && clients[0] == old(client) && tables[i] == lock && clients[i] == client
        invariant forall k :: 0 <= k <= i ==> TableOk(tables[k])
        invariant forall k :: 0 <= k < i ==> Effect(tables[k], clients[k], tables[k + 1], clients[k + 1], evs[k])
      {
        ghost var lock0, client0, mid := lock, client, lock;
        match evs[i] {
          case Connects => Connect();
          case Asks(c, name, speed, child) =>
            if c < |client| && client[c].open && child > 0 && forall j :: 0 <= j < |lock| ==> lock[j].pid != child {
              var answer := Ask(c, name, speed, child);
              died := answer.Died?;
            }
          case Fails(c, child) =>
            if c < |client| && client[c].open && child > 0 && forall j :: 0 <= j < |lock| ==> lock[j].pid != child {
              var answer;
              answer, mid := ChildFailed(c, child);
              died := answer.Died?;
            }
          case Closes(c) =>
            if c < |client| && client[c].open {
              Closed(c);
            }
        }
        EffectIs(lock0, client0, mid, lock, client, evs[i]);
        tables, clients := tables + [lock], clients + [client];
        i := i + 1;
      }
    }

    /** A request grants nothing, or one line. */
    lemma Grants(lock0: seq<Lock>, lock1: seq<Lock>, was: Client, cl: Client, end: nat, child: int, answer: Answer)
      requires answer.Dialing? ==> Dials(lock0, lock1, was, cl, end, child)
      requires !answer.Dialing? ==> SameHolders(lock0, lock1)
      requires answer.Dialing? <==> cl.open
      ensures Answered(lock0, lock1, cl, child)
    {
      hide PidOf, AllBusy, DeviceFor;
      if answer.Dialing? {
        assert Granted(lock0, lock1, DeviceFor(devs, file[end - 1]).value.line, child);
      }
    }

    /** No line of the file matches. */
    ghost predicate Missing(name: string, speed: string) {
      forall j :: 0 <= j < |file| ==> !Matches(file[j], name, speed)
    }

    lemma CursorStart(cl: Client)
      requires cl.sysftell == 0 && cl.foundone == 0
      ensures CursorOk(cl)
    {
    }

    /** Lines of the file that match, in file order, none twice. */
    ghost predicate Climbs(dialed: seq<nat>, name: string, speed: string) {
      && (forall i, j :: 0 <= i < j < |dialed| ==> dialed[i] < dialed[j])
      && (forall i :: 0 <= i < |dialed| ==> dialed[i] < |file| && Matches(file[dialed[i]], name, speed))
    }

    ghost predicate Below(dialed: seq<nat>, k: int) {
      |dialed| > 0 && |dialed| <= k && dialed[|dialed| - 1] < k
    }

    /** After k retries: the lines dialed, one for each try so far, lie before the cursor. */
    ghost predicate Chained(cl: Client, name: string, speed: string, dialed: seq<nat>, k: nat, answer: Answer) {
      && cl.sysname == name && cl.speed == speed && Climbs(dialed, name, speed) && |dialed| <= |file|
      && (answer.NotFound? <==> !answer.Died? && Missing(name, speed)) && (answer.NotFound? ==> dialed == [])
      && (answer.Dialing? ==> |dialed| == k + 1 && Below(dialed, cl.sysftell) && CursorOk(cl))
    }

    lemma ChainedFirst(lock0: seq<Lock>, lock1: seq<Lock>, was: Client, cl: Client, end: nat, child: int,
                       answer: Answer)
      requires Asks(was, cl) && (answer.Dialing? ==> Dials(lock0, lock1, was, cl, end, child))
      requires answer.NotFound? <==> !answer.Died? && Missing(cl.sysname, cl.speed)
      ensures Chained(cl, was.sysname, was.speed, if answer.Dialing? then [end - 1] else [], 0, answer)
      ensures answer.Dialing? ==> CursorOk(cl) && cl.sysftell == end
    {
      hide PidOf, DeviceFor, AllBusy, MatchCount;
    }

    lemma ChainedMore(lock0: seq<Lock>, lock1: seq<Lock>, was: Client, cl: Client, end: nat, child: int,
                      answer: Answer, name: string, speed: string, dialed: seq<nat>, k: nat)
      requires Chained(was, name, speed, dialed, k, Dialing)
      requires Asks(was, cl) && (answer.Dialing? ==> Dials(lock0, lock1, was, cl, end, child))
      requires answer.NotFound? <==> !answer.Died? && Missing(cl.sysname, cl.speed)
      ensures Chained(cl, name, speed, if answer.Dialing? then dialed + [end - 1] else dialed, k + 1, answer)
      ensures answer.Dialing? ==> CursorOk(cl) && cl.sysftell == end
    {
      hide PidOf, DeviceFor, AllBusy, MatchCount, Matches;
      assert !Missing(name, speed) by { assert Matches(file[dialed[0]], name, speed); }
      forall i | 0 <= i < |dialed|
        ensures dialed[i] < was.sysftell
      {
        if i < |dialed| - 1 { assert dialed[i] < dialed[|dialed| - 1]; }
      }
    }

    lemma ChainedMeans(cl: Client, name: string, speed: string, dialed: seq<nat>, k: nat, answer: Answer)
      requires Chained(cl, name, speed, dialed, k, answer)
      ensures forall i, j :: 0 <= i < j < |dialed| ==> dialed[i] < dialed[j]
      ensures forall i :: 0 <= i < |dialed| ==> dialed[i] < |file| && Matches(file[dialed[i]], name, speed)
      ensures forall i :: 0 <= i < |dialed| ==>
        && file[dialed[i]].Entry? && file[dialed[i]].name == name
        && (speed == "" || file[dialed[i]].class_ == speed)
      ensures |dialed| <= |file| && (answer.Dialing? ==> |dialed| == k + 1)
      ensures (answer.NotFound? <==> !answer.Died? && Missing(name, speed)) && (answer.NotFound? ==> dialed == [])
    {
    }

    /** The search has come to line k without an end: the matching lines from the cursor on are all held. */
    ghost predicate Searched(locks: seq<Lock>, cl: Client, k: nat, found: int, locked: bool) {
      && 0 <= cl.sysftell <= k <= |file| && found == MatchCount(file, cl.sysname, cl.speed, k)
      && AllBusy(locks, cl, k) && NoBad(cl, k) && (locked <==> !NoneFrom(cl, k))
    }

    lemma SearchedNone(locks: seq<Lock>, cl: Client)
      requires CursorOk(cl)
      ensures Searched(locks, cl, cl.sysftell, cl.foundone, false)
    {
    }

    lemma SearchedSkip(locks: seq<Lock>, cl: Client, a: nat, b: nat, found: int, locked: bool)
      requires Searched(locks, cl, a, found, locked) && a <= b <= |file|
      requires forall j :: a <= j < b ==> file[j].Empty? || file[j].Comment?
      ensures Searched(locks, cl, b, found, locked)
    {
      hide Busy, MatchCount;
      CountSkip(file, cl.sysname, cl.speed, a, b);
    }

    lemma SearchedPass(locks: seq<Lock>, cl: Client, k: nat, found: int, locked: bool)
      requires Searched(locks, cl, k, found, locked) && k < |file|
      requires file[k].Entry? && !Matches(file[k], cl.sysname, cl.speed)
      ensures Searched(locks, cl, k + 1, found, locked)
    {
      hide Busy, MatchCount;
      CountNext(file, cl.sysname, cl.speed, k);
    }

    lemma SearchedBusy(locks: seq<Lock>, cl: Client, k: nat, found: int, locked: bool)
      requires Searched(locks, cl, k, found, locked) && k < |file| && Matches(file[k], cl.sysname, cl.speed)
      requires DeviceFor(devs, file[k]).Some? && PidOf(locks, DeviceFor(devs, file[k]).value.line) != 0
      ensures Searched(locks, cl, k + 1, found + 1, true)
    {
      hide PidOf, DeviceFor, MatchCount;
      CountNext(file, cl.sysname, cl.speed, k);
    }

    lemma SearchedEnd(locks: seq<Lock>, cl: Client, k: nat, found: int, locked: bool, a: Answer)
      requires Searched(locks, cl, k, found, locked) && k < |file|
      requires if file[k].Bad? then a == Died else
                 && Matches(file[k], cl.sysname, cl.speed)
                 && a == if DeviceFor(devs, file[k]).None? then NoDevice else Dialing
      requires a.Dialing? ==> PidOf(locks, DeviceFor(devs, file[k]).value.line) == 0
      ensures Stop(locks, cl, k, a) && (!a.Died? ==> !Missing(cl.sysname, cl.speed))
      ensures forall k': nat, a' :: Stop(locks, cl, k', a') ==> k' == k && a' == a
    {
      hide PidOf, DeviceFor, MatchCount, AllBusy, NoBad, NoneFrom, Stop;
      StopIs(locks, cl, k, a);
    }

    lemma SearchedAll(locks: seq<Lock>, cl: Client, found: int, locked: bool)
      requires Searched(locks, cl, |file|, found, locked)
      ensures AllBusy(locks, cl, |file|) && (locked <==> !NoneFrom(cl, |file|))
      ensures found == 0 <==> Missing(cl.sysname, cl.speed)
      ensures forall k: nat, a :: !Stop(locks, cl, k, a)
    {
      hide PidOf, DeviceFor, MatchCount, AllBusy, NoBad, NoneFrom, Stop;
      CountZero(file, cl.sysname, cl.speed, |file|);
      StopNowhere(locks, cl);
    }

    /** Every line from the client's cursor up to k is whole, and each one with the name, and with the class if the
        client asked for a speed, has a device, the first of which is held. */
    ghost predicate Skipped(locks: seq<Lock>, cl: Client, k: int) {
      && 0 <= k <= |file|
      && forall j :: 0 <= j < k && cl.sysftell <= j ==>
           && !file[j].Bad?
           && (file[j].Entry? && file[j].name == cl.sysname && (cl.speed == "" || file[j].class_ == cl.speed) ==>
                 exists d :: IsFirst(devs, file[j], d) && PidOf(locks, devs[d].line) != 0)
    }

    /** What each answer means, in the fields of the two files. */
    ghost predicate Says(locks: seq<Lock>, locks': seq<Lock>, cl: Client, end: nat, child: int, answer: Answer) {
      match answer
      case Dialing =>
        && 0 < end <= |file| && Skipped(locks, cl, end - 1)
        && file[end - 1].Entry? && file[end - 1].name == cl.sysname
        && (cl.speed == "" || file[end - 1].class_ == cl.speed)
        && exists d :: IsFirst(devs, file[end - 1], d) && Granted(locks, locks', devs[d].line, child)
      case NoDevice =>
        && 0 < end <= |file| && Skipped(locks, cl, end - 1)
        && file[end - 1].Entry? && file[end - 1].name == cl.sysname
        && (cl.speed == "" || file[end - 1].class_ == cl.speed)
        && forall d :: 0 <= d < |devs| ==> devs[d].kind != file[end - 1].kind || devs[d].class_ != file[end - 1].class_
      case Died => 0 < end <= |file| && Skipped(locks, cl, end - 1) && file[end - 1].Bad?
      case NotFound =>
        && Skipped(locks, cl, |file|)
        && forall j :: 0 <= j < |file| && file[j].Entry? && file[j].name == cl.sysname ==>
             cl.speed != "" && file[j].class_ != cl.speed
      case Locked =>
        && Skipped(locks, cl, |file|)
        && exists j :: 0 <= j < |file| && cl.sysftell <= j && file[j].Entry? && file[j].name == cl.sysname
                       && (cl.speed == "" || file[j].class_ == cl.speed)
      case Unable =>
        && Skipped(locks, cl, |file|)
        && forall j :: 0 <= j < |file| && cl.sysftell <= j && file[j].Entry? && file[j].name == cl.sysname ==>
             cl.speed != "" && file[j].class_ != cl.speed
    }

    lemma SkippedTo(locks: seq<Lock>, cl: Client, k: nat, found: int, locked: bool)
      requires Searched(locks, cl, k, found, locked)
      ensures Skipped(locks, cl, k)
    {
      hide PidOf, DeviceFor, MatchCount, NoneFrom;
      forall j | 0 <= j < k && cl.sysftell <= j && Matches(file[j], cl.sysname, cl.speed)
        ensures exists d :: IsFirst(devs, file[j], d) && PidOf(locks, devs[d].line) != 0
      {
        assert Busy(locks, file[j]);
      }
    }

    lemma SaysEnd(locks: seq<Lock>, locks': seq<Lock>, cl: Client, end: nat, child: int, found: int, locked: bool,
                  a: Answer)
      requires 0 < end <= |file| && Searched(locks, cl, end - 1, found, locked)
      requires if file[end - 1].Bad? then a == Died else
                 && Matches(file[end - 1], cl.sysname, cl.speed)
                 && a == if DeviceFor(devs, file[end - 1]).None? then NoDevice else Dialing
      requires a.Dialing? ==> Granted(locks, locks', DeviceFor(devs, file[end - 1]).value.line, child)
      ensures Says(locks, locks', cl, end, child, a)
    {
      hide PidOf, DeviceFor, MatchCount, Searched, Skipped, Granted;
      SkippedTo(locks, cl, end - 1, found, locked);
    }

    lemma SaysAll(locks: seq<Lock>, locks': seq<Lock>, cl: Client, end: nat, child: int, found: int, locked: bool)
      requires Searched(locks, cl, |file|, found, locked)
      ensures Says(locks, locks', cl, end, child, if found == 0 then NotFound else if locked then Locked else Unable)
    {
      hide PidOf, DeviceFor, MatchCount, Skipped;
      SkippedTo(locks, cl, |file|, found, locked);
      CountZero(file, cl.sysname, cl.speed, |file|);
    }

    lemma DialsIs(lock0: seq<Lock>, lock1: seq<Lock>, was: Client, cl: Client, end: nat, child: int, locked: bool)
      requires 0 < end <= |file| && Searched(lock0, was, end - 1, cl.foundone - 1, locked) && Asks(was, cl)
      requires cl.pid == child && cl.sysftell == end && Matches(file[end - 1], cl.sysname, cl.speed)
      requires DeviceFor(devs, file[end - 1]).Some?
      requires Granted(lock0, lock1, DeviceFor(devs, file[end - 1]).value.line, child)
      ensures Dials(lock0, lock1, was, cl, end, child)
    {
      hide PidOf, DeviceFor, MatchCount, AllBusy, NoBad, NoneFrom;
      CountNext(file, cl.sysname, cl.speed, end - 1);
    }

    /** The search can end at one line only, and in one way. */
    lemma StopIs(locks: seq<Lock>, cl: Client, k: nat, a: Answer)
      requires k < |file| && cl.sysftell <= k && AllBusy(locks, cl, k) && NoBad(cl, k) && Ends(locks, cl, k, a)
      ensures Stop(locks, cl, k, a)
      ensures forall k': nat, a' :: Stop(locks, cl, k', a') ==> k' == k && a' == a
    {
      hide PidOf, DeviceFor;
      NotBusy(locks, cl, k, a);
      forall k': nat, a' | Stop(locks, cl, k', a')
        ensures k' == k && a' == a
      {
        NotBusy(locks, cl, k', a');
      }
    }

    lemma NotBusy(locks: seq<Lock>, cl: Client, k: nat, a: Answer)
      requires k < |file| && Ends(locks, cl, k, a)
      ensures file[k].Bad? || (Matches(file[k], cl.sysname, cl.speed) && !Busy(locks, file[k]))
    {
    }

    lemma StopNowhere(locks: seq<Lock>, cl: Client)
      requires AllBusy(locks, cl, |file|) && NoBad(cl, |file|)
      ensures forall k: nat, a :: !Stop(locks, cl, k, a)
    {
      hide PidOf, DeviceFor;
      forall k: nat, a
        ensures !Stop(locks, cl, k, a)
      {
        if 0 <= k < |file| && cl.sysftell <= k && Matches(file[k], cl.sysname, cl.speed) {
          assert Busy(locks, file[k]);
        }
      }
    }

    /** What a line does to the search, if the search comes to it: a line that lacks a field ends the server,
        a matching one without a device ends the request, and one with a free device gets a child. */
    ghost predicate Ends(locks: seq<Lock>, cl: Client, k: nat, a: Answer)
      requires k < |file|
    {
      if file[k].Bad? then a == Died
      else
        && Matches(file[k], cl.sysname, cl.speed)
        && (if DeviceFor(devs, file[k]).None? then a == NoDevice
            else PidOf(locks, DeviceFor(devs, file[k]).value.line) == 0 && a == Dialing)
    }

    /** The search from the client's cursor ends at line k with this answer: every line before it is whole, and
        every matching one has its device held. All of it can be told before the call. */
    ghost predicate Stop(locks: seq<Lock>, cl: Client, k: nat, a: Answer) {
      k < |file| && cl.sysftell <= k && AllBusy(locks, cl, k) && NoBad(cl, k) && Ends(locks, cl, k, a)
    }

    /** The client still asks for the same system and speed. */
    ghost predicate Asks(was: Client, cl: Client) {
      cl.sysname == was.sysname && cl.speed == was.speed && cl.open == was.open
    }

    /** Every matching line from the client's cursor up to k has a device, and it is held. */
    ghost predicate AllBusy(locks: seq<Lock>, cl: Client, k: nat)
      requires k <= |file|
    {
      forall j :: 0 <= j < k && cl.sysftell <= j && Matches(file[j], cl.sysname, cl.speed) ==> Busy(locks, file[j])
    }

    /** No line from the client's cursor up to k lacks a field. */
    ghost predicate NoBad(cl: Client, k: nat)
      requires k <= |file|
    {
      forall j :: 0 <= j < k && cl.sysftell <= j ==> !file[j].Bad?
    }

    ghost predicate NoneFrom(cl: Client, k: nat)
      requires k <= |file|
    {
      forall j :: 0 <= j < k && cl.sysftell <= j ==> !Matches(file[j], cl.sysname, cl.speed)
    }

    /** A child dials for the first matching line from the cursor on whose device is free; its lock, and
        no other, has changed hands; and the cursor is just past that line. */
    ghost predicate Dials(lock0: seq<Lock>, lock1: seq<Lock>, was: Client, cl: Client, end: nat, child: int) {
      && 0 < end <= |file| && cl.pid == child && CursorOk(cl) && was.sysftell < cl.sysftell == end
      && Matches(file[end - 1], cl.sysname, cl.speed) && DeviceFor(devs, file[end - 1]).Some?
      && AllBusy(lock0, was, end - 1)
      && var line := DeviceFor(devs, file[end - 1]).value.line;
         && PidOf(lock0, line) == 0
         && forall l :: PidOf(lock1, l) == if l == line then child else PidOf(lock0, l)
    }
  }

  /** What the server can be told: a client connects, asks for a system, has its child fail, or goes. */
  datatype Ev =
    | Connects
    | Asks(c: nat, name: string, speed: string, child: int)
    | Fails(c: nat, child: int)
    | Closes(c: nat)

  /** The lines of one process are free, and no other has changed. */
  ghost predicate Freed(lock0: seq<Lock>, lock1: seq<Lock>, pid: int) {
    forall l :: PidOf(lock1, l) == if PidOf(lock0, l) == pid then 0 else PidOf(lock0, l)
  }

  /** One free line went to the process, and no other has changed. */
  ghost predicate Granted(lock0: seq<Lock>, lock1: seq<Lock>, line: string, pid: int) {
    PidOf(lock0, line) == 0 && forall l :: PidOf(lock1, l) == if l == line then pid else PidOf(lock0, l)
  }

  ghost predicate SameHolders(lock0: seq<Lock>, lock1: seq<Lock>) {
    forall l :: PidOf(lock1, l) == PidOf(lock0, l)
  }

  /** Either one free line went to the process, for which the client waits, or the client has been
      disconnected and the table is as it was. */
  ghost predicate Answered(lock0: seq<Lock>, lock1: seq<Lock>, cl: Client, pid: int) {
    if cl.open then cl.pid == pid && exists line :: Granted(lock0, lock1, line, pid) else SameHolders(lock0, lock1)
  }

  ghost predicate Occurs(lock: seq<Lock>, client: seq<Client>, ev: Ev) {
    && (!ev.Connects? ==> ev.c < |client| && client[ev.c].open)
    && (ev.Asks? || ev.Fails? ==> ev.child > 0 && NotIn(lock, ev.child))
  }

  /** What each event does to the table and to the clients. */
  ghost predicate Effect(lock0: seq<Lock>, client0: seq<Client>, lock1: seq<Lock>, client1: seq<Client>, ev: Ev) {
    if !Occurs(lock0, client0, ev) then lock1 == lock0 && client1 == client0
    else
      match ev
      case Connects => lock1 == lock0 && client1 == client0 + [Client(true, "", "", 0, 0, 0)]
      case Asks(c, name, speed, child) =>
        && OnlyClient(client0, client1, c) && client1[c].sysname == name && client1[c].speed == speed
        && Answered(lock0, lock1, client1[c], child)
      case Fails(c, child) =>
        && OnlyClient(client0, client1, c)
        && exists mid :: Freed(lock0, mid, client0[c].pid) && Answered(mid, lock1, client1[c], child)
      case Closes(c) =>
        client1 == client0[c := client0[c].(open := false)] && Freed(lock0, lock1, client0[c].pid)
  }

  ghost predicate OnlyClient(client0: seq<Client>, client1: seq<Client>, c: nat) {
    |client1| == |client0| && forall d :: 0 <= d < |client0| && d != c ==> client1[d] == client0[d]
  }

  lemma EffectIs(lock0: seq<Lock>, client0: seq<Client>, mid: seq<Lock>, lock1: seq<Lock>, client1: seq<Client>, ev: Ev)
    requires !Occurs(lock0, client0, ev) ==> lock1 == lock0 && client1 == client0
    requires Occurs(lock0, client0, ev) ==>
      match ev
      case Connects => lock1 == lock0 && client1 == client0 + [Client(true, "", "", 0, 0, 0)]
      case Asks(c, name, speed, child) =>
        && |client1| == |client0| && client1 == client0[c := client1[c]]
        && client1[c].sysname == name && client1[c].speed == speed && Answered(lock0, lock1, client1[c], child)
      case Fails(c, child) =>
        && |client1| == |client0| && client1 == client0[c := client1[c]]
        && Freed(lock0, mid, client0[c].pid) && Answered(mid, lock1, client1[c], child)
      case Closes(c) => client1 == client0[c := client0[c].(open := false)] && Freed(lock0, lock1, client0[c].pid)
    ensures Effect(lock0, client0, lock1, client1, ev)
  {
    hide Freed, Answered;
  }

  /** A line goes from free to held only in a request, and only to the child of that request. */
  lemma TakenOnlyByRequest(lock0: seq<Lock>, client0: seq<Client>, lock1: seq<Lock>, client1: seq<Client>, ev: Ev,
                           line: string)
    requires Effect(lock0, client0, lock1, client1, ev) && PidOf(lock0, line) == 0 && PidOf(lock1, line) != 0
    ensures (ev.Asks? || ev.Fails?) && PidOf(lock1, line) == ev.child
    ensures forall l :: l != line && PidOf(lock0, l) == 0 ==> PidOf(lock1, l) == 0
  {
    hide PidOf;
  }

  /** A line leaves its holder only when the client that holder dialed for fails or goes. */
  lemma LeftOnlyByOwner(lock0: seq<Lock>, client0: seq<Client>, lock1: seq<Lock>, client1: seq<Client>, ev: Ev,
                        line: string)
    requires Effect(lock0, client0, lock1, client1, ev) && PidOf(lock0, line) != 0
    requires PidOf(lock1, line) != PidOf(lock0, line)
    ensures (ev.Fails? || ev.Closes?) && ev.c < |client0| && client0[ev.c].open
    ensures PidOf(lock0, line) == client0[ev.c].pid
    ensures PidOf(lock1, line) == 0 || (ev.Fails? && PidOf(lock1, line) == ev.child)
  {
    hide PidOf;
  }

  lemma SameAtFirst(lock: seq<Lock>)
    ensures SameHolders(lock, lock)
  {
  }

  lemma HoldersChain(lock0: seq<Lock>, lock1: seq<Lock>, lock2: seq<Lock>, line: string)
    requires SameHolders(lock0, lock1) && forall l :: PidOf(lock2, l) == PidOf(lock1, l)
    ensures SameHolders(lock0, lock2) && PidOf(lock1, line) == PidOf(lock0, line)
  {
    hide PidOf;
  }

  lemma GrantedIs(lock0: seq<Lock>, lock1: seq<Lock>, lock2: seq<Lock>, line: string, pid: int)
    requires SameHolders(lock0, lock1) && PidOf(lock0, line) == 0
    requires forall l :: PidOf(lock2, l) == if l == line then pid else PidOf(lock1, l)
    ensures Granted(lock0, lock2, line, pid)
  {
    hide PidOf;
  }

  lemma NoPidSame(lock: seq<Lock>, lock': seq<Lock>, pid: int)
    requires TableOk(lock') && pid != 0 && NotIn(lock, pid) && SameHolders(lock, lock')
    ensures NotIn(lock', pid)
  {
    hide PidOf, TableOk, NotIn;
    NoPid(lock, lock', pid);
  }

  /** A table whose lines have the same holders, or none, has no entry for a process that held nothing. */
  lemma NoPid(lock: seq<Lock>, lock': seq<Lock>, pid: int)
    requires TableOk(lock') && pid != 0 && NotIn(lock, pid)
    requires forall l :: PidOf(lock', l) == PidOf(lock, l) || PidOf(lock', l) == 0
    ensures NotIn(lock', pid)
  {
    forall i | 0 <= i < |lock'|
      ensures lock'[i].pid != pid
    {
      PidAt(lock', i);
      var line := lock'[i].line;
      assert PidOf(lock', line) == PidOf(lock, line) || PidOf(lock', line) == 0;
      if PidOf(lock, line) != 0 {
        PidWhere(lock, line);
      }
    }
  }

  lemma Released(lock: seq<Lock>, i: nat)
    requires TableOk(lock) && i < |lock|
    ensures var lock' := lock[i := Lock(lock[i].line, 0)];
            && TableOk(lock')
            && forall l :: PidOf(lock', l) == if PidOf(lock, l) == lock[i].pid then 0 else PidOf(lock, l)
  {
    forall l
      ensures PidOf(lock[i := Lock(lock[i].line, 0)], l) == if PidOf(lock, l) == lock[i].pid then 0 else PidOf(lock, l)
    {
      PidUpdate(lock, i, 0, l);
      PidAt(lock, i);
      if PidOf(lock, l) == lock[i].pid && lock[i].pid != 0 {
        OneLine(lock, l, lock[i].line);
      }
    }
  }

  lemma NotHeld(lock: seq<Lock>, pid: int)
    requires forall i :: 0 <= i < |lock| ==> lock[i].pid != pid
    ensures forall l :: PidOf(lock, l) == pid ==> pid == 0
  {
    forall l | PidOf(lock, l) == pid
      ensures pid == 0
    {
      if pid != 0 {
        PidWhere(lock, l);
      }
    }
  }

  /** A system whose only line names a device type that does not exist: the request fails, and the cursor is
      not -1 but just past the line. */
  method CursorAfterNoDevice() returns (s: Server, answer: Answer)
    ensures answer == NoDevice && |s.client| == 1 && s.client[0].sysftell == 1
  {
    s := new Server([Entry("host", "ACU", "9600")], []);
    CountNone(s.file, "host", "");
    s.client := [Client(true, "host", "", 0, 0, 0)];
    assert s.Stop(s.lock, s.client[0], 0, NoDevice);
    answer := s.Request(0, 5);
  }

  /** A system whose only line is of another speed than the one asked for is not found, though its device is free;
      asked for without a speed it is dialed. */
  method SpeedCounts() returns (s: Server, slow: Answer, any: Answer)
    ensures slow == NotFound && any == Dialing
  {
    s := new Server([Entry("host", "ACU", "1200")], [Device("ACU", "line0", "1200")]);
    s.client := [Client(true, "", "", 0, 0, 0), Client(true, "", "", 0, 0, 0)];
    CountNone(s.file, "", "");
    slow := s.Ask(0, "host", "9600", 5);
    assert IsFirst(s.devs, s.file[0], 0);
    AllFree(s.lock, 6);
    ghost var lock := s.lock;
    any := s.Ask(1, "host", "", 6);
    assert s.file == [Entry("host", "ACU", "1200")] && PidOf(lock, "line0") == 0;
  }

  lemma AllFree(lock: seq<Lock>, pid: int)
    requires TableOk(lock) && SameHolders([], lock) && pid != 0
    ensures NotIn(lock, pid) && forall l :: PidOf(lock, l) == 0
  {
    forall i | 0 <= i < |lock|
      ensures lock[i].pid != pid
    {
      PidAt(lock, i);
      assert PidOf(lock, lock[i].line) == PidOf([], lock[i].line);
    }
  }
}
