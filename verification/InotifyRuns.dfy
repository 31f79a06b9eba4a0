/** The directory-tree monitor over a whole run: any number of changes, each read before the next. */
module InotifyRuns {
  import opened Common
  import opened InotifyCache
  import opened InotifyWatcher

  /** How the events of a change are read: all at once, a rename's second half in the read that its first half
      waits for, or that half only after the timer has run out. */
  datatype How = Together | Split | Late

  /** A change and what is read of it: its events, as yet without descriptors, and the last events of dropped
      watches before, between and after them, and in reads of their own. */
  datatype Step = Step(ch: Change, cookie: nat, how: How, evs: seq<Event>,
                       before: seq<Event>, between: seq<Event>, after: seq<Event>, quiet: seq<seq<Event>>)

  ghost predicate Aside(evs: seq<Event>) {
    AllIgnored(evs, 0) && AllWellFormed(evs) && Short(evs)
  }

  /** What the kernel can send for such a change. */
  ghost predicate StepOk(st: Step) {
    && |st.evs| == Share(st.ch) && Describes(st.ch, st.cookie, st.evs) && Short(st.evs)
    && (forall i :: 0 <= i < |st.evs| ==> !st.evs[i].ignored)
    && Aside(st.before) && Aside(st.between) && Aside(st.after)
    && (forall k :: 0 <= k < |st.quiet| ==> OnlyIgnored(st.quiet[k]))
    && (!st.how.Together? ==> st.ch.Rename? && st.evs[1].isDir)
    && match st.how
       case Together => Bytes(st.before) + Bytes(st.evs) + Bytes(st.after) <= BUF_LEN
       case Split => Bytes(st.before) + EvLen(st.evs[0]) <= BUF_LEN
       case Late =>
         && Bytes(st.before) + EvLen(st.evs[0]) <= BUF_LEN
         && Bytes(st.between) + EvLen(st.evs[1]) + Bytes(st.after) <= BUF_LEN
  }

  // ---------------------------------------------------------------- the tree by itself

  /** The directories and the root paths, whatever the program does. */
  datatype World = World(dirs: map<string, nat>, roots: multiset<string>)

  predicate Can(w: World, ch: Change) {
    Legal(Fs(w.dirs, map[]), ch) && (ch.RootMoved? ==> ch.path in w.roots)
  }

  /** A change that cannot happen does not. */
  function Turn(w: World, ch: Change): World {
    if !Can(w, ch) then w
    else World(After(Fs(w.dirs, map[]), ch).dirs,
               if ch.Rmdir? || ch.RootMoved? then w.roots - multiset{ch.path} else w.roots)
  }

  function Turns(w: World, steps: seq<Step>): World {
    if steps == [] then w else Turn(Turns(w, steps[..|steps| - 1]), steps[|steps| - 1].ch)
  }

  /** What can happen does not depend on the watches, as long as they are all of directories in the tree. */
  lemma SameLaw(fs: Fs, ch: Change)
    requires forall a :: a in fs.watch ==> a in fs.dirs.Values
    ensures Legal(fs, ch) <==> Legal(Fs(fs.dirs, map[]), ch)
    ensures Legal(fs, ch) ==> After(fs, ch).dirs == After(Fs(fs.dirs, map[]), ch).dirs
  {
    hide Renamed, Under;
  }

  /** A change keeps i-nodes and descriptors apart, and gives no watch a new descriptor. */
  lemma AfterOk(fs: Fs, ch: Change)
    requires FsOk(fs) && Legal(fs, ch)
    ensures FsOk(After(fs, ch)) && Kept(fs.watch, After(fs, ch).watch)
  {
    hide Renamed, Under;
    if ch.Rename? {
      RenamedInjective(fs.dirs, Join(ch.dir, ch.name), Join(ch.toDir, ch.toName));
    }
  }

  // ---------------------------------------------------------------- events with their descriptors

  predicate Watched(fs: Fs, path: string) {
    path in fs.dirs && fs.dirs[path] in fs.watch
  }

  function Stamp(fs: Fs, ch: Change, evs: seq<Event>): (r: seq<Event>)
    requires |evs| == Share(ch) && Watched(fs, Place(ch)) && (ch.Rename? ==> Watched(fs, ch.toDir))
    ensures |r| == |evs|
  {
    var first := evs[0].(wd := fs.watch[fs.dirs[Place(ch)]]);
    if ch.Rename? then [first, evs[1].(wd := fs.watch[fs.dirs[ch.toDir]])] else [first]
  }

  lemma PlacesWatched(cache: seq<Slot>, fs: Fs, ch: Change)
    requires Agrees(cache, fs) && Legal(fs, ch)
    ensures Watched(fs, Place(ch)) && fs.watch[fs.dirs[Place(ch)]] >= 0
    ensures ch.Rename? ==> Watched(fs, ch.toDir) && fs.watch[fs.dirs[ch.toDir]] >= 0
  {
    hide Agrees, Under;
    WatchedFound(cache, fs, Place(ch));
    if ch.Rename? {
      WatchedFound(cache, fs, ch.toDir);
    }
  }

  /** With their descriptors the events announce the change. */
  lemma StampAnnounces(cache: seq<Slot>, fs: Fs, st: Step)
    requires StepOk(st) && Agrees(cache, fs) && Legal(fs, st.ch)
    requires Watched(fs, Place(st.ch)) && (st.ch.Rename? ==> Watched(fs, st.ch.toDir))
    ensures Announces(fs, st.ch, st.cookie, Stamp(fs, st.ch, st.evs) + st.after)
    ensures AllWellFormed(Stamp(fs, st.ch, st.evs)) && Short(Stamp(fs, st.ch, st.evs))
    ensures Bytes(Stamp(fs, st.ch, st.evs)) == Bytes(st.evs)
  {
    hide Agrees, Legal;
    PlacesWatched(cache, fs, st.ch);
    var evs := Stamp(fs, st.ch, st.evs);
    FirstBytes(evs);
    FirstBytes(st.evs);
    assert evs[..|evs|] == evs && st.evs[..|evs|] == st.evs;
    if st.after != [] {
      assert (evs + st.after)[|evs|] == st.after[0];
    }
  }

  // ---------------------------------------------------------------- one change, and many

  lemma Join3(a: seq<Event>, b: seq<Event>, c: seq<Event>)
    ensures Bytes(a + b + c) == Bytes(a) + Bytes(b) + Bytes(c)
    ensures AllWellFormed(a) && AllWellFormed(b) && AllWellFormed(c) ==> AllWellFormed(a + b + c)
    ensures Short(a) && Short(b) && Short(c) ==> Short(a + b + c)
    ensures (a + b + c)[..|a|] == a && (a + b + c)[|a|..] == b + c
  {
    MoreBytes(a, b);
    MoreBytes(a + b, c);
  }

  /** The change is alone in what is read first, and in the further read if it waits for one. */
  lemma AloneRead(rep: Report, cache: seq<Slot>, now: Fs, before: seq<Event>, first: seq<Event>, more: seq<Event>)
    requires Pending(rep, cache, now, first + more) && AllIgnored(first + more, Share(rep.ch)) && first != []
    requires AllIgnored(before, 0) && (more != [] ==> Holding(first, true))
    ensures Alone(rep, cache, now, before + first, [more])
  {
    hide Agrees, Legal, After, Describes;
    assert (first + more)[0] == first[0];
    assert first + [] == first;
    assert (before + first)[..|before|] == before && (before + first)[|before|..] == first;
    AloneLater(rep, cache, now, before + first, |before|, [more]);
  }

  /** The program after one change, which is over by the time its events are read. */
  method Follow(w: Watcher, st: Step, evs: seq<Event>, ghost was: Fs)
    requires StepOk(st) && w.KernelOk() && !w.ended && Agrees(w.cache, was) && Legal(was, st.ch)
    requires w.Now() == After(was, st.ch) && (st.ch.RootMoved? ==> st.ch.path in w.roots)
    requires Watched(was, Place(st.ch)) && (st.ch.Rename? ==> Watched(was, st.ch.toDir))
    requires evs == Stamp(was, st.ch, st.evs)
    modifies w`cache, w`watch, w`nextWd, w`roots, w`ended, w`past
    ensures w.KernelOk() && (w.ended ==> w.roots == [])
    ensures !w.ended ==> Agrees(w.cache, w.Now()) && RootsFollow(st.ch, old(w.roots), w.roots)
  {
    hide Agrees, FsOk, Legal, After, Announces, Describes, Alone, AllIgnored, AllWellFormed, Short, Bytes, Added,
      Settled, RootsFollow, OnlyIgnored, Flat, Rising;
    ghost var rep := Report(was, st.ch, st.cookie, map[]);
    StampAnnounces(w.cache, was, st);
    NoneFormed();
    match st.how {
      case Together =>
        TogetherRead(st, evs, rep, w.cache, w.Now());
        var _, _, _, _, _, _, _ := w.ProcessInotifyEvents(st.before + evs + st.after, [[]], Some(rep));
        if !w.ended {
          w.ReadQuiet(st.quiet);
        }
      case Split =>
        SplitRead(st, evs, rep, w.cache, w.Now());
        var _, _, _, _, _, _, _ := w.ProcessInotifyEvents(st.before + [evs[0]], [[evs[1]] + st.after], Some(rep));
        if !w.ended {
          w.ReadQuiet(st.quiet);
        }
      case Late =>
        LateRead(st, evs, rep, w.cache, w.Now());
        w.LateRename(st.before + [evs[0]], st.quiet, st.between + [evs[1]] + st.after, |st.before|, |st.between|, rep);
        RootsKept(st.ch, w.roots);
    }
  }

  lemma RootsKept(ch: Change, roots: seq<string>)
    requires ch.Rename?
    ensures RootsFollow(ch, roots, roots)
  {
  }

  ghost predicate ReadOk(evs: seq<Event>) {
    evs != [] && Bytes(evs) <= BUF_LEN && AllWellFormed(evs) && Short(evs)
  }

  lemma TogetherRead(st: Step, evs: seq<Event>, rep: Report, cache: seq<Slot>, now: Fs)
    requires StepOk(st) && st.how.Together? && |evs| == Share(st.ch) && rep.ch == st.ch
    requires Pending(rep, cache, now, evs + st.after) && AllWellFormed(evs) && Short(evs) && Bytes(evs) == Bytes(st.evs)
    ensures ReadOk(st.before + evs + st.after) && Alone(rep, cache, now, st.before + evs + st.after, [[]])
  {
    hide Pending, AllWellFormed, Short, Bytes, Alone;
    Join3(st.before, evs, st.after);
    assert evs + st.after + [] == evs + st.after;
    AloneRead(rep, cache, now, st.before, evs + st.after, []);
    assert st.before + (evs + st.after) == st.before + evs + st.after;
  }

  lemma SplitRead(st: Step, evs: seq<Event>, rep: Report, cache: seq<Slot>, now: Fs)
    requires StepOk(st) && st.how.Split? && |evs| == Share(st.ch) && rep.ch == st.ch
    requires Pending(rep, cache, now, evs + st.after) && AllWellFormed(evs) && Short(evs)
    requires EvLen(evs[0]) == EvLen(st.evs[0])
    ensures ReadOk(st.before + [evs[0]]) && Alone(rep, cache, now, st.before + [evs[0]], [[evs[1]] + st.after])
    ensures AllWellFormed([evs[1]] + st.after) && Short([evs[1]] + st.after)
  {
    hide Alone, Agrees, Legal, After;
    Join3(st.before, [evs[0]], []);
    assert st.before + [evs[0]] + [] == st.before + [evs[0]];
    assert [evs[0]][1..] == [];
    assert [evs[0]] + ([evs[1]] + st.after) == evs + st.after;
    AloneRead(rep, cache, now, st.before, [evs[0]], [evs[1]] + st.after);
  }

  lemma LateRead(st: Step, evs: seq<Event>, rep: Report, cache: seq<Slot>, now: Fs)
    requires StepOk(st) && st.how.Late? && |evs| == Share(st.ch) && rep.ch == st.ch
    requires Pending(rep, cache, now, evs + st.after) && AllWellFormed(evs) && Short(evs)
    requires EvLen(evs[0]) == EvLen(st.evs[0]) && EvLen(evs[1]) == EvLen(st.evs[1])
    ensures var first, next := st.before + [evs[0]], st.between + [evs[1]] + st.after;
            && ReadOk(first) && ReadOk(next)
            && AllIgnored(first[..|st.before|], 0) && first[|st.before|] == evs[0]
            && AllIgnored(next[..|st.between|], 0) && AllIgnored(next[|st.between|..], 1)
            && next[|st.between|] == evs[1]
            && Pending(rep, cache, now, [evs[0]] + next[|st.between|..])
  {
    hide Pending;
    Join3(st.before, [evs[0]], []);
    Join3(st.between, [evs[1]], st.after);
    assert st.before + [evs[0]] + [] == st.before + [evs[0]];
    assert [evs[0]][1..] == [] && [evs[1]][1..] == [];
    assert [evs[0]] + ([evs[1]] + st.after) == evs + st.after;
  }

  /** From a fresh start, any changes, each read before the next: after them the cache is the tree, and the tree
      is what the changes make of it, unless the last root path has gone. */
  method Monitor(w: Watcher, steps: seq<Step>)
    requires w.KernelOk() && !w.ended && Monitored(w.dirs, w.roots) == w.dirs
    requires forall i :: 0 <= i < |steps| ==> StepOk(steps[i])
    modifies w
    ensures w.KernelOk() && (w.ended ==> w.roots == [])
    ensures !w.ended ==>
      && Agrees(w.cache, w.Now())
      && World(w.dirs, multiset(w.roots)) == Turns(World(old(w.dirs), multiset(old(w.roots))), steps)
  {
    hide Agrees, FsOk, Legal, After, StepOk, Monitored, Stamp, RootsFollow, Turn;
    ghost var w0 := World(w.dirs, multiset(w.roots));
    w.Reinitialize();
    var i := 0;
    while i < |steps|
      invariant 0 <= i <= |steps| && w.KernelOk() && !w.ended && Agrees(w.cache, w.Now())
      invariant World(w.dirs, multiset(w.roots)) == Turns(w0, steps[..i])
    {
      var st, fs := steps[i], Fs(w.dirs, w.watch);
      assert steps[..i + 1][..i] == steps[..i];
      ghost var roots := w.roots;
      CanIs(w.cache, fs, w.roots, st.ch);
      if Legal(fs, st.ch) && (st.ch.RootMoved? ==> st.ch.path in w.roots) {
        PlacesWatched(w.cache, fs, st.ch);
        AfterOk(fs, st.ch);
        var after := After(fs, st.ch);
        StepShape(st);
        var evs := Stamp(fs, st.ch, st.evs);
        w.dirs, w.watch := after.dirs, after.watch;
        Follow(w, st, evs, fs);
        if w.ended {
          return;
        }
        TurnIs(fs, roots, w.roots, st.ch);
      }
      i := i + 1;
    }
    assert steps[..|steps|] == steps;
  }

  lemma StepShape(st: Step)
    requires StepOk(st)
    ensures |st.evs| == Share(st.ch)
  {
  }

  lemma CanIs(cache: seq<Slot>, fs: Fs, roots: seq<string>, ch: Change)
    requires Agrees(cache, fs)
    ensures Can(World(fs.dirs, multiset(roots)), ch) <==> Legal(fs, ch) && (ch.RootMoved? ==> ch.path in roots)
    ensures !Can(World(fs.dirs, multiset(roots)), ch) ==>
              Turn(World(fs.dirs, multiset(roots)), ch) == World(fs.dirs, multiset(roots))
    ensures Legal(fs, ch) ==> After(fs, ch).dirs == After(Fs(fs.dirs, map[]), ch).dirs
  {
    hide Legal, After;
    SameLaw(fs, ch);
  }

  lemma TurnIs(fs: Fs, roots: seq<string>, roots': seq<string>, ch: Change)
    requires Legal(fs, ch) && Can(World(fs.dirs, multiset(roots)), ch) && RootsFollow(ch, roots, roots')
    requires After(fs, ch).dirs == After(Fs(fs.dirs, map[]), ch).dirs
    ensures Turn(World(fs.dirs, multiset(roots)), ch) == World(After(fs, ch).dirs, multiset(roots'))
  {
    hide Legal, After;
  }
}
