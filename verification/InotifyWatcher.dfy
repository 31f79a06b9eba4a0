/** The directory-tree monitor itself: its cache, the kernel calls it makes, and its event loop. */
module InotifyWatcher {
  import opened Common
  import opened InotifyCache

  /** An inotify event; the booleans are the bits of its mask. */
  datatype Event = Event(wd: int, isDir: bool, create: bool, deleteSelf: bool, moveSelf: bool, movedFrom: bool,
                         movedTo: bool, ignored: bool, overflow: bool, unmount: bool,
                         cookie: nat, name: string, len: nat)

  const HEADER: nat := 16
  const ALLOC_INCR: nat := 200

  /** INOTIFY_READ_BUF_LEN: a hundred events with the longest names. */
  const BUF_LEN: nat := 27200

  function EvLen(ev: Event): nat {
    HEADER + ev.len
  }

  function Bytes(evs: seq<Event>): nat {
    if evs == [] then 0 else EvLen(evs[0]) + Bytes(evs[1..])
  }

  /** What the kernel sends: an overflow has no descriptor, and a dropped watch's last event says nothing else. */
  predicate WellFormed(ev: Event) {
    && ev.wd >= -1
    && (ev.wd == -1 || ev.ignored ==>
          !ev.create && !ev.movedTo && !ev.deleteSelf && !ev.movedFrom && !ev.unmount && !ev.moveSelf)
    && (ev.ignored ==> !ev.overflow)
  }

  predicate IsNew(ev: Event) {
    ev.isDir && (ev.create || ev.movedTo)
  }

  predicate IsFrom(ev: Event) {
    !IsNew(ev) && !ev.deleteSelf && ev.movedFrom && ev.isDir
  }

  /** A change of the tree that the events at hand announce. The tree may hold directories apart, which
      have left their old place and of whose new place these events say nothing. */
  datatype Report = Report(was: Fs, ch: Change, cookie: nat, apart: map<string, nat>)

  ghost predicate From(ev: Event, fs: Fs, dir: string) {
    dir in fs.dirs && fs.dirs[dir] in fs.watch && ev.wd == fs.watch[fs.dirs[dir]] && !ev.ignored
  }

  /** How many of the events a change takes up. */
  function Share(ch: Change): nat {
    if ch.Rename? then 2 else 1
  }

  /** The directory whose watch announces the change. */
  function Place(ch: Change): string {
    if ch.Rmdir? || ch.Unmount? || ch.RootMoved? then ch.path else ch.dir
  }

  /** What the events say of a change, but for the descriptors. */
  predicate Describes(ch: Change, cookie: nat, evs: seq<Event>)
    requires |evs| >= Share(ch)
  {
    var ev := evs[0];
    match ch
    case Mkdir(_, name, _) => ev.isDir && ev.create && ev.name == name
    case MoveIn(_, name, _) => ev.isDir && ev.movedTo && ev.name == name
    case Rmdir(_) => !IsNew(ev) && ev.deleteSelf
    case Unmount(_) => !IsNew(ev) && !ev.deleteSelf && !IsFrom(ev) && !ev.overflow && ev.unmount
    case Rename(_, name, _, toName) =>
      && IsFrom(ev) && ev.name == name && ev.cookie == cookie
      && evs[1].movedTo && evs[1].name == toName && evs[1].cookie == cookie
    case MoveOut(_, name) =>
      && IsFrom(ev) && ev.name == name && ev.cookie == cookie
      && (|evs| > 1 ==> !(evs[1].movedTo && evs[1].cookie == cookie))
    case RootMoved(_) => !IsNew(ev) && !ev.deleteSelf && !IsFrom(ev) && !ev.overflow && !ev.unmount && ev.moveSelf
  }

  /** The events the kernel queues for a change. */
  ghost predicate Announces(fs: Fs, ch: Change, cookie: nat, evs: seq<Event>) {
    && |evs| >= Share(ch) && Describes(ch, cookie, evs)
    && From(evs[0], fs, Place(ch)) && (ch.Rename? ==> From(evs[1], fs, ch.toDir))
  }

  /** The cache agrees with the tree as it was; the tree has changed since, and these events say how. */
  ghost predicate Pending(rep: Report, cache: seq<Slot>, now: Fs, evs: seq<Event>) {
    && Agrees(cache, rep.was) && Legal(rep.was, rep.ch) && Announces(rep.was, rep.ch, rep.cookie, evs)
    && var after := After(rep.was, rep.ch);
       if rep.apart == map[] then now == after else
         rep.ch.MoveOut? && after.dirs.Keys !! rep.apart.Keys && now == Fs(after.dirs + rep.apart, after.watch)
  }

  /** The tree that the cache is to agree with: all of it, but for the directories apart. */
  ghost function Known(rep: Report, now: Fs): Fs {
    if rep.apart == map[] then now else Fs(now.dirs - rep.apart.Keys, now.watch)
  }

  ghost predicate Kept(watch0: map<nat, int>, watch: map<nat, int>) {
    forall a :: a in watch ==> a in watch0 && watch[a] == watch0[a]
  }

  /** The change has been dealt with. */
  ghost predicate Settled(rep: Report, cache: seq<Slot>, now: Fs) {
    Agrees(cache, Known(rep, now)) && (rep.ch.MoveOut? ==> Kept(rep.was.watch, now.watch))
  }

  /** What the loop looks after. */
  datatype View = View(cache: seq<Slot>, fs: Fs, roots: seq<string>)

  // ---------------------------------------------------------------- what has been done

  /** In order: the further reads made, the events handled, those a rebuild has discarded, and for each time
      an event was held back how many had been handled before it. */
  datatype History = History(taken: seq<seq<Event>>, acted: seq<Event>, dropped: seq<Event>, waited: seq<nat>)

  /** A look at the next events: all are discarded, the first is held back, or n are handled. */
  ghost function Noted(past: History, evs: seq<Event>, n: nat, evLen: int, rebuilt: bool): History {
    if rebuilt then past.(dropped := past.dropped + evs)
    else if evLen == -1 then past.(waited := past.waited + [|past.acted|])
    else past.(acted := past.acted + if n <= |evs| then evs[..n] else evs)
  }

  ghost function Shifted(holds: seq<nat>, n: nat): seq<nat> {
    seq(|holds|, i requires 0 <= i < |holds| => holds[i] + n)
  }

  /** These reads, events handled, events discarded, and places held back are what has been added. */
  ghost predicate Added(was: History, past: History, takes: seq<seq<Event>>, done: seq<Event>, lost: seq<Event>,
                        holds: seq<nat>)
  {
    && past.taken == was.taken + takes && past.acted == was.acted + done && past.dropped == was.dropped + lost
    && past.waited == was.waited + Shifted(holds, |was.acted|)
  }

  lemma AddedNone(past: History)
    ensures Added(past, past, [], [], [], [])
  {
  }

  lemma AddedRead(was: History, past: History, takes: seq<seq<Event>>, done: seq<Event>, lost: seq<Event>,
                  holds: seq<nat>, got: seq<Event>)
    requires Added(was, past, takes, done, lost, holds)
    ensures Added(was, past.(taken := past.taken + [got]), takes + [got], done, lost, holds)
  {
  }

  lemma AddedLook(was: History, past: History, takes: seq<seq<Event>>, done: seq<Event>, holds: seq<nat>,
                  evs: seq<Event>, n: nat, evLen: int, rebuilt: bool)
    requires Added(was, past, takes, done, [], holds) && n <= |evs|
    ensures var now := Noted(past, evs, n, evLen, rebuilt);
            if rebuilt then Added(was, now, takes, done, evs, holds)
            else if evLen == -1 then Added(was, now, takes, done, [], holds + [|done|])
            else Added(was, now, takes, done + evs[..n], [], holds)
  {
    if !rebuilt && evLen == -1 {
      assert Shifted(holds + [|done|], |was.acted|) == Shifted(holds, |was.acted|) + [|past.acted|];
    }
  }

  class Watcher {
    // The file system and the kernel's watches.
    var dirs: map<string, nat>
    var watch: map<nat, int>
    var nextWd: nat

    // The program's own state.
    var roots: seq<string>
    var cache: seq<Slot>
    var ended: bool

    // What has been done.
    ghost var past: History

    ghost predicate KernelOk()
      reads `dirs, `watch, `nextWd
    {
      FsOk(Fs(dirs, watch)) && forall a :: a in watch ==> watch[a] < nextWd
    }

    ghost function Now(): Fs
      reads `dirs, `watch
    {
      Fs(dirs, watch)
    }

    ghost function Look(): View
      reads `dirs, `watch, `roots, `cache
    {
      View(cache, Now(), roots)
    }

    // -------------------------------------------------------------- kernel calls

    /** inotify_add_watch: an i-node has one watch; -1 if the path is gone. */
    method AddWatch(path: string) returns (wd: int)
      requires KernelOk()
      modifies `watch, `nextWd
      ensures KernelOk()
      ensures path !in dirs ==> wd == -1 && watch == old(watch)
      ensures path in dirs && dirs[path] in old(watch) ==> watch == old(watch) && wd == watch[dirs[path]]
      ensures path in dirs && dirs[path] !in old(watch) ==>
        && wd >= 0 && (forall a :: a in old(watch) ==> old(watch)[a] < wd)
        && watch == old(watch)[dirs[path] := wd]
    {
      if path !in dirs {
        return -1;
      }
      if dirs[path] in watch {
        return watch[dirs[path]];
      }
      wd := nextWd;
      nextWd := nextWd + 1;
      watch := watch[dirs[path] := wd];
    }

    /** inotify_rm_watch; false if there is no such watch. */
    method RmWatch(wd: int) returns (ok: bool)
      requires KernelOk()
      modifies `watch
      ensures KernelOk() && ok == (wd in old(watch).Values)
      ensures watch == Unwatched(old(watch), {wd})
    {
      if a :| a in watch && watch[a] == wd {
        assert wd in watch.Values;
        watch := watch - {a};
        return true;
      }
      assert watch == Unwatched(watch, {wd});
      return false;
    }

    /** nftw: every directory at or below the path, in some order. */
    method Walk(path: string) returns (order: seq<string>)
      ensures forall p :: p in order <==> p in dirs && Under(path, p)
      ensures forall p :: p in order <==> p in dirs && (p == path || path + "/" <= p)
    {
      order := [];
      var todo := set p | p in dirs && Under(path, p);
      while todo != {}
        invariant forall p :: p in dirs && Under(path, p) <==> p in todo || p in order
        decreases todo
      {
        var p :| p in todo;
        order := order + [p];
        todo := todo - {p};
      }
      forall p | p in dirs
        ensures Under(path, p) <==> p == path || path + "/" <= p
      {
        UnderMeans(path, p);
      }
    }

    /** read, within the timer: the whole events that fit, or nothing if the timer interrupts it. */
    method ReadMore(queue: seq<Event>, room: int) returns (got: seq<Event>)
      modifies `past
      ensures got == Take(queue, room) && past == old(past).(taken := old(past).taken + [got])
    {
      got := Take(queue, room);
      past := past.(taken := past.taken + [got]);
    }

    // -------------------------------------------------------------- the cache

    /** findWatch. */
    method FindWatch(wd: int) returns (slot: int)
      ensures -1 <= slot < |cache|
      ensures slot >= 0 ==> cache[slot].wd == wd && forall j :: 0 <= j < slot ==> cache[j].wd != wd
      ensures slot == -1 ==> forall j :: 0 <= j < |cache| ==> cache[j].wd != wd
    {
      var j := 0;
      while j < |cache|
        invariant 0 <= j <= |cache| && forall k :: 0 <= k < j ==> cache[k].wd != wd
      {
        if cache[j].wd == wd {
          return j;
        }
        j := j + 1;
      }
      return -1;
    }

    /** markCacheSlotEmpty. */
    method MarkCacheSlotEmpty(slot: nat)
      requires slot < |cache|
      modifies `cache
      ensures cache == old(cache)[slot := EMPTY]
    {
      cache := cache[slot := EMPTY];
    }

    /** findEmptyCacheSlot: an unused slot, growing the cache if there is none. */
    method FindEmptyCacheSlot() returns (slot: nat)
      modifies `cache
      ensures slot < |cache| && cache[slot].wd == -1
      ensures slot <= |old(cache)| && forall j :: 0 <= j < slot ==> old(cache)[j].wd != -1
      ensures cache == if slot < |old(cache)| then old(cache) else old(cache) + seq(ALLOC_INCR, _ => EMPTY)
    {
      var j := 0;
      while j < |cache|
        invariant 0 <= j <= |cache| && forall k :: 0 <= k < j ==> cache[k].wd != -1
      {
        if cache[j].wd == -1 {
          return j;
        }
        j := j + 1;
      }
      slot := |cache|;
      cache := cache + seq(ALLOC_INCR, _ => EMPTY);
    }

    /** pathnameInCache. */
    method PathnameInCache(path: string) returns (found: bool)
      ensures found == Cached(cache, path)
    {
      var j := 0;
      while j < |cache|
        invariant 0 <= j <= |cache| && forall k :: 0 <= k < j ==> !(Used(cache[k]) && cache[k].path == path)
      {
        if cache[j].wd >= 0 && cache[j].path == path {
          return true;
        }
        j := j + 1;
      }
      return false;
    }

    /** addWatchToCache. When the cache is known to agree with some part of the tree, and the directory
        is not in it, the cache comes to agree with one directory more. */
    method AddWatchToCache(wd: int, path: string, ghost fs: Fs, ghost ino: nat, ghost known: bool)
      requires known ==> Agrees(cache, fs) && path !in fs.dirs && Fresh(fs, ino) && wd >= 0 && wd !in fs.watch.Values
      modifies `cache
      ensures known ==> Agrees(cache, Fs(fs.dirs[path := ino], fs.watch[ino := wd]))
    {
      hide Agrees;
      if known {
        GrowAgrees(cache, fs, ALLOC_INCR);
      }
      var slot := FindEmptyCacheSlot();
      if known {
        AddAgrees(cache, fs, slot, path, ino, wd);
      }
      cache := cache[slot := Slot(wd, path)];
    }

    /** traverseTree: watch and cache one directory, unless it is cached already. */
    method TraverseTree(path: string, ghost have: map<string, nat>, ghost known: bool)
      requires KernelOk() && (known ==> PartOf(have, dirs) && Agrees(cache, Fs(have, watch)))
      modifies `cache, `watch, `nextWd
      ensures KernelOk()
      ensures known ==> Agrees(cache, Fs(if path in dirs then have[path := dirs[path]] else have, watch))
    {
      hide Agrees;
      ghost var watch0 := watch;
      var wd := AddWatch(path);
      if wd == -1 {
        return;
      }
      var slot := FindWatch(wd);
      if slot >= 0 {
        if known {
          AlreadyCached(cache, have, dirs, watch0, watch, path, slot);
        }
        return;
      }
      if known {
        NotCached(cache, have, dirs, watch0, watch, path);
      }
      AddWatchToCache(wd, path, Fs(have, watch0), dirs[path], known);
    }

    /** watchDir: the whole subtree. */
    method WatchDir(path: string, ghost have: map<string, nat>, ghost known: bool)
      requires KernelOk() && (known ==> PartOf(have, dirs) && Agrees(cache, Fs(have, watch)))
      modifies `cache, `watch, `nextWd
      ensures KernelOk() && (known ==> Agrees(cache, Fs(have + Within(dirs, path), watch)))
      ensures known ==> forall p :: p in dirs && (p in have || p == path || path + "/" <= p) <==> Cached(cache, p)
    {
      hide Agrees, FsOk, Had, Within, Under, Cached;
      var order := Walk(path);
      ghost var had: map<string, nat> := have;
      HadNone(have, dirs, order);
      var i := 0;
      while i < |order|
        invariant 0 <= i <= |order| && KernelOk()
        invariant known ==> PartOf(had, dirs) && Had(had, have, order, i) && Agrees(cache, Fs(had, watch))
      {
        assert order[i] in order;
        TraverseTree(order[i], had, known);
        if known {
          HadMore(had, have, dirs, order, i);
        }
        had := had[order[i] := dirs[order[i]]];
        i := i + 1;
      }
      if known {
        HadAll(had, have, dirs, order, path);
        CachedMeans(cache, Fs(had, watch));
      }
    }

    /** rewriteCachedPaths. */
    method RewriteCachedPaths(oldPrefix: string, oldName: string, newPrefix: string, newName: string)
      modifies `cache
      ensures cache == Rewritten(old(cache), Join(oldPrefix, oldName), Join(newPrefix, newName))
      ensures Relocated(old(cache), cache, Join(oldPrefix, oldName), Join(newPrefix, newName))
    {
      var fullPath, newPath := Join(oldPrefix, oldName), Join(newPrefix, newName);
      var j := 0;
      while j < |cache|
        invariant 0 <= j <= |cache| == |old(cache)|
        invariant forall k :: 0 <= k < |cache| ==>
          cache[k] == if k < j then Moved(old(cache)[k], fullPath, newPath) else old(cache)[k]
      {
        if Under(fullPath, cache[j].path) {
          cache := cache[j := Slot(cache[j].wd, newPath + cache[j].path[|fullPath|..])];
        }
        j := j + 1;
      }
      RewrittenMeans(old(cache), fullPath, newPath);
    }

    /** zapSubtree: -1 when some watch of the subtree is not the kernel's. */
    method ZapSubtree(path: string) returns (cnt: int)
      requires KernelOk()
      modifies `cache, `watch
      ensures KernelOk()
      ensures cnt >= 0 ==>
        cache == ZappedAll(old(cache), path) && watch == Unwatched(old(watch), ZapWds(old(cache), path, |old(cache)|))
      ensures OneEach(old(cache)) && ZapWds(old(cache), path, |old(cache)|) <= old(watch).Values ==> cnt >= 0
      ensures cnt >= 0 ==> Cleared(old(cache), cache, old(watch), watch, path) && cnt == |InSubtree(old(cache), path)|
    {
      hide FsOk, InSubtree, Cleared, Under;
      cnt := 0;
      var j := 0;
      assert watch == Unwatched(old(watch), {});
      InSubtreeNone(cache, path);
      while j < |cache|
        invariant 0 <= j <= |cache| == |old(cache)| && cnt >= 0 && KernelOk()
        invariant forall k :: 0 <= k < |cache| ==>
          cache[k] == if k < j then Zapped(old(cache)[k], path) else old(cache)[k]
        invariant watch == Unwatched(old(watch), ZapWds(old(cache), path, j))
        invariant cnt == |InSubtree(old(cache)[..j], path)|
      {
        InSubtreeMore(old(cache), path, j);
        ZapMore(old(cache), path, j, old(watch));
        if cache[j].wd >= 0 && Under(path, cache[j].path) {
          var ok := RmWatch(cache[j].wd);
          if !ok {
            return -1;
          }
          MarkCacheSlotEmpty(j);
          cnt := cnt + 1;
        }
        j := j + 1;
      }
      assert old(cache)[..j] == old(cache);
      ZappedMeans(old(cache), old(watch), path);
    }

    /** reinitialize: a new inotify instance and a new cache, whatever the old ones held. */
    method Reinitialize()
      requires KernelOk()
      modifies `cache, `watch, `nextWd
      ensures KernelOk() && Agrees(cache, Fs(Monitored(dirs, roots), watch))
      ensures forall p :: Cached(cache, p) <==> p in dirs && InSome(roots, p)
    {
      hide Agrees, FsOk, Monitored, Within, PartOf;
      KernelStart(dirs, watch);
      watch, nextWd, cache := map[], 1, [];
      NothingAgrees();
      MonitoredNone(dirs, roots);
      var i := 0;
      while i < |roots|
        invariant 0 <= i <= |roots| && KernelOk() && PartOf(Monitored(dirs, roots[..i]), dirs)
        invariant Agrees(cache, Fs(Monitored(dirs, roots[..i]), watch))
      {
        WatchDir(roots[i], Monitored(dirs, roots[..i]), true);
        MonitoredMore(dirs, roots, i);
        i := i + 1;
      }
      assert roots[..|roots|] == roots;
      CachedMeans(cache, Fs(Monitored(dirs, roots), watch));
      MonitoredMeans(dirs, roots);
    }

    /** zapRootDirPath; the program ends with its last root path. */
    method ZapRootDirPath(path: string)
      requires path in roots
      modifies `roots, `ended
      ensures multiset(roots) == multiset(old(roots)) - multiset{path} && ended == (roots == [])
    {
      var i :| 0 <= i < |roots| && roots[i] == path;
      assert roots == roots[..i] + [path] + roots[i + 1..];
      roots := roots[..i] + roots[i + 1..];
      ended := roots == [];
    }

    // -------------------------------------------------------------- events

    /** A directory was created in, or moved into, a watched directory. */
    method Created(slot: nat, name: string, ghost rep: Option<Report>, ghost evs: seq<Event>)
      requires KernelOk() && slot < |cache|
      requires rep.Some? ==>
        && Pending(rep.value, cache, Now(), evs) && (rep.value.ch.Mkdir? || rep.value.ch.MoveIn?)
        && cache[slot].path == rep.value.ch.dir && name == rep.value.ch.name
      modifies `cache, `watch, `nextWd
      ensures KernelOk() && (rep.Some? ==> Settled(rep.value, cache, Now()))
    {
      hide Agrees, Legal, After, Announces, FsOk;
      var fullPath := Join(cache[slot].path, name);
      var found := PathnameInCache(fullPath);
      if rep.Some? {
        NotYetCached(rep.value, cache, Now());
        var had := rep.value.was.dirs;
        assert PartOf(had, dirs) && Agrees(cache, Fs(had, watch)) && had + Within(dirs, fullPath) == dirs;
      }
      if !found {
        WatchDir(fullPath, if rep.Some? then rep.value.was.dirs else map[], rep.Some?);
      }
    }

    /** A watched directory was deleted. */
    method Deleted(slot: nat, ghost rep: Option<Report>, ghost evs: seq<Event>)
      requires KernelOk() && slot < |cache| && !ended
      requires rep.Some? ==>
        && Pending(rep.value, cache, Now(), evs) && rep.value.ch.Rmdir?
        && rep.value.was.dirs[rep.value.ch.path] in rep.value.was.watch
        && cache[slot].wd == rep.value.was.watch[rep.value.was.dirs[rep.value.ch.path]]
      modifies `cache, `roots, `ended
      ensures rep.Some? && !ended ==> Settled(rep.value, cache, Now())
      ensures RootGoes(old(roots), roots, old(cache)[slot].path) && (ended ==> roots == [])
    {
      hide Agrees, Announces, FsOk;
      if cache[slot].path in roots {
        ZapRootDirPath(cache[slot].path);
        if ended {
          return;
        }
      }
      if rep.Some? {
        RmdirAgrees(cache, rep.value.was, rep.value.ch.path, slot);
      }
      MarkCacheSlotEmpty(slot);
    }

    /** A subtree left the monitored tree. */
    method MovedAway(path: string, ghost rep: Option<Report>, ghost evs: seq<Event>) returns (rebuilt: bool)
      requires KernelOk()
      requires rep.Some? ==>
        && Agrees(cache, rep.value.was) && watch == rep.value.was.watch
        && Known(rep.value, Now()) == Fs(Without(rep.value.was.dirs, path), watch)
      modifies `cache, `watch, `nextWd
      ensures KernelOk() && (rep.Some? ==> !rebuilt && Settled(rep.value, cache, Now()))
      ensures rebuilt ==> Agrees(cache, Fs(Monitored(dirs, roots), watch))
    {
      hide Agrees, FsOk, Without;
      if rep.Some? {
        ZapAgrees(cache, rep.value.was, path);
        ZapWatched(cache, rep.value.was, path);
      }
      var cnt := ZapSubtree(path);
      if cnt == -1 {
        Reinitialize();
      }
      return cnt == -1;
    }

    /** The directory half of a rename, with the event that follows it: -1 to wait for that event. */
    method MovedFrom(slot: nat, evs: seq<Event>, bufSize: int, firstTry: bool, ghost rep: Option<Report>)
      returns (evLen: int, n: nat, rebuilt: bool)
      requires KernelOk() && slot < |cache| && |evs| > 0 && (EvLen(evs[0]) < bufSize ==> |evs| > 1)
      requires rep.Some? ==>
        && Pending(rep.value, cache, Now(), evs) && (rep.value.ch.Rename? || rep.value.ch.MoveOut?)
        && (|evs| > 1 ==> EvLen(evs[0]) < bufSize)
        && cache[slot].path == rep.value.ch.dir && evs[0].name == rep.value.ch.name
      modifies `cache, `watch, `nextWd
      ensures KernelOk()
      ensures evLen == -1 <==> EvLen(evs[0]) >= bufSize && firstTry
      ensures evLen == -1 ==> !rebuilt
      ensures evLen == -1 || evLen > 0
      ensures evLen == -1 ==> n == 0 && cache == old(cache) && watch == old(watch)
      ensures rebuilt ==> evLen == BUF_LEN && n == |evs| && Agrees(cache, Fs(Monitored(dirs, roots), watch))
      ensures !rebuilt && evLen != -1 ==> 1 <= n <= 2 && n <= |evs| && evLen == Bytes(evs[..n])
      ensures rep.Some? && evLen != -1 ==> !rebuilt && n == Share(rep.value.ch) && Settled(rep.value, cache, Now())
    {
      hide Agrees, FsOk, Announces, After, Legal;
      var ev := evs[0];
      ghost var cache0 := cache;
      FirstBytes(evs);
      if rep.Some? {
        FromFacts(rep.value, cache, Now(), evs);
      }
      if EvLen(ev) < bufSize && evs[1].movedTo && evs[1].cookie == ev.cookie {
        var next := FindWatch(evs[1].wd);
        if next == -1 {
          Reinitialize();
          return BUF_LEN, |evs|, true;
        }
        RewriteCachedPaths(cache[slot].path, ev.name, cache[next].path, evs[1].name);
        if rep.Some? {
          RenameAgrees(rep.value, cache0, Now(), evs, next);
        }
        return EvLen(ev) + EvLen(evs[1]), 2, false;
      }
      if EvLen(ev) < bufSize || !firstTry {
        rebuilt := MovedAway(Join(cache[slot].path, ev.name), rep, evs);
        if rebuilt {
          return BUF_LEN, |evs|, true;
        }
        return EvLen(ev), 1, false;
      }
      return -1, 0, false;
    }

    /** processNextInotifyEvent: the first event of the buffer, or a rename's two. */
    method ProcessNext(evs: seq<Event>, bufSize: int, firstTry: bool, ghost rep: Option<Report>)
      returns (evLen: int, n: nat, rebuilt: bool)
      requires KernelOk() && !ended && |evs| > 0 && WellFormed(evs[0]) && (EvLen(evs[0]) < bufSize ==> |evs| > 1)
      requires rep.Some? ==> Pending(rep.value, cache, Now(), evs) && (|evs| > 1 ==> EvLen(evs[0]) < bufSize)
      requires rep.Some? && rep.value.ch.RootMoved? ==> rep.value.ch.path in roots
      modifies `cache, `watch, `nextWd, `roots, `ended, `past
      ensures KernelOk()
      ensures past == Noted(old(past), evs, n, evLen, rebuilt)
      ensures Unknown(old(cache), evs[0]) || Overflows(evs[0]) ==> rebuilt
      ensures Idle(evs[0]) && !rebuilt ==> n == 1 && cache == old(cache) && watch == old(watch) && !ended && evLen != -1
      ensures if Departs(evs[0]) && !Unknown(old(cache), evs[0]) then RootEnds(old(cache), evs[0], old(roots), roots)
              else roots == old(roots)
      ensures ended ==> roots == []
      ensures evLen == -1 <==>
        firstTry && IsFrom(evs[0]) && EvLen(evs[0]) >= bufSize && !Unknown(old(cache), evs[0])
      ensures evLen == -1 || evLen > 0
      ensures evLen == -1 ==>
        n == 0 && cache == old(cache) && watch == old(watch) && roots == old(roots) && !rebuilt && !ended
      ensures rebuilt ==> evLen == BUF_LEN && n == |evs| && !ended && Agrees(cache, Fs(Monitored(dirs, roots), watch))
      ensures !rebuilt && evLen != -1 ==> 1 <= n <= 2 && n <= |evs| && evLen == Bytes(evs[..n])
      ensures evs[0].ignored ==>
        && n == 1 && !rebuilt && !ended && evLen != -1
        && cache == old(cache) && watch == old(watch) && roots == old(roots)
      ensures rep.Some? && evLen != -1 && !ended ==>
        !rebuilt && n == Share(rep.value.ch) && Settled(rep.value, cache, Now())
    {
      hide Agrees, FsOk, After, Legal, Bytes, Settled, Known, Noted;
      var ev := evs[0];
      var slot := -1;
      FirstBytes(evs);
      if ev.wd != -1 && !ev.ignored {
        slot := FindWatch(ev.wd);
        if rep.Some? {
          SlotKnown(rep.value, cache, Now(), evs, slot);
        }
        if slot == -1 {
          Reinitialize();
          past := Noted(past, evs, |evs|, BUF_LEN, true);
          return BUF_LEN, |evs|, true;
        }
      }
      evLen, n, rebuilt := EvLen(ev), 1, false;
      if ev.isDir && (ev.create || ev.movedTo) {
        Created(slot, ev.name, rep, evs);
      } else if ev.deleteSelf {
        Deleted(slot, rep, evs);
      } else if ev.movedFrom && ev.isDir {
        evLen, n, rebuilt := MovedFrom(slot, evs, bufSize, firstTry, rep);
      } else if ev.overflow {
        Reinitialize();
        evLen, n, rebuilt := BUF_LEN, |evs|, true;
      } else if ev.unmount {
        if rep.Some? {
          UnmountAgrees(rep.value, cache, Now(), evs, slot);
        }
        MarkCacheSlotEmpty(slot);
      } else if ev.moveSelf && cache[slot].path in roots {
        var path := cache[slot].path;
        if rep.Some? {
          RootFacts(rep.value, cache, Now(), evs);
        }
        ZapRootDirPath(path);
        if !ended {
          rebuilt := MovedAway(path, rep, evs);
          if rebuilt {
            evLen, n := BUF_LEN, |evs|;
          }
        }
      }
      past := Noted(past, evs, n, evLen, rebuilt);
    }

    /** processInotifyEvents. first is what the first read returns; queues[k] is the kernel's queue at
        the k-th read after that, empty if the timer interrupts it. The call may be left waiting in a read.
        takes are the further reads, done the events handled, lost those a rebuild discards, and holds the
        places of those held back. */
    method ProcessInotifyEvents(first: seq<Event>, queues: seq<seq<Event>>, ghost rep: Option<Report>)
      returns (waiting: bool, rebuilt: bool, ghost takes: seq<seq<Event>>, ghost done: seq<Event>,
               ghost lost: seq<Event>, ghost left: seq<Event>, ghost holds: seq<nat>)
      requires KernelOk() && !ended && first != [] && Bytes(first) <= BUF_LEN
      requires AllWellFormed(first) && forall k :: 0 <= k < |queues| ==> AllWellFormed(queues[k])
      requires rep.Some? ==> Alone(rep.value, cache, Now(), first, queues)
      requires rep.Some? && rep.value.ch.RootMoved? ==> rep.value.ch.path in roots
      modifies `cache, `watch, `nextWd, `roots, `ended, `past
      ensures KernelOk()
      ensures Added(old(past), past, takes, done, lost, holds)
      ensures |takes| <= |queues| && forall k :: 0 <= k < |takes| ==> takes[k] <= queues[k]
      ensures done + lost + left == first + Flat(takes)
      ensures !waiting && !ended ==> left == []
      ensures lost != [] ==> rebuilt
      ensures rebuilt && !ended ==> Agrees(cache, Fs(Monitored(dirs, roots), watch))
      ensures Rising(holds) && forall h :: h in holds ==> h < |done + lost + left| && IsFrom((done + lost + left)[h])
      ensures rep.Some? && !waiting && !ended ==> !rebuilt && Settled(rep.value, cache, Now())
      ensures rep.Some? && !waiting && !ended && rep.value.apart == map[] ==> Agrees(cache, Now())
      ensures rep.Some? && waiting ==> queues == []
      ensures rep.Some? && !waiting && !ended ==> RootsFollow(rep.value.ch, old(roots), roots)
      ensures Short(first) && AllShort(queues) && ended ==> roots == []
      ensures AllIgnored(first, 0) ==>
        !waiting && !ended && !rebuilt && cache == old(cache) && watch == old(watch) && roots == old(roots)
    {
      hide Agrees, FsOk, Bytes, WellFormed, Loop, Following, Take, IsFrom, Alone, AllWellFormed, AllIgnored, Flat,
        Rising, Settled, Pending, Added, Noted, RootEnds, RootsFollow, Short, Idling, Roomy, Unknown;
      var rest, size, firstTry, used := first, Bytes(first), true, 0;
      waiting, rebuilt := false, false;
      takes, done, lost, holds := [], [], [], [];
      ghost var pending := true;
      ghost var start := Look();
      LoopStarts(first, rep, start, queues);
      AddedNone(past);
      while size > 0 && !ended && !waiting
        invariant KernelOk() && used == |takes| <= |queues|
        invariant Loop(first, queues, takes, done, lost, rest, size, firstTry, holds, rebuilt)
        invariant Added(old(past), past, takes, done, lost, holds)
        invariant rebuilt && !ended ==> Agrees(cache, Fs(Monitored(dirs, roots), watch))
        invariant !ended && !waiting ==>
          !(rep.Some? && rebuilt) && Following(rep, pending, firstTry, start, Look(), rest, queues, used)
        invariant rep.Some? && waiting ==> queues == []
        invariant Idling(first, start, Look(), rest, waiting || ended || rebuilt)
        invariant Roomy(first, queues, rest, ended, roots)
        decreases |queues| - used, |rest|, !waiting
      {
        LoopFacts(first, queues, takes, done, lost, rest, size, firstTry, holds, rebuilt);
        FollowingFacts(rep, pending, firstTry, start, Look(), rest, queues, used);
        ghost var was, before := past, Look();
        var evLen, n, again := ProcessNext(rest, size, firstTry, if pending && Told(rest, firstTry) then rep else None);
        AddedLook(old(past), was, takes, done, holds, rest, n, evLen, again);
        if evLen > 0 {
          if again {
            LoopRebuilds(first, queues, takes, done, lost, rest, size, firstTry, holds, rebuilt);
            FollowingNothing(rep, start, Look(), rest[n..], queues, used);
            rebuilt, lost := true, rest;
          } else {
            LoopForward(first, queues, takes, done, lost, rest, size, firstTry, holds, rebuilt, n, evLen);
            if !ended {
              FollowingStep(rep, pending, firstTry, start, before, Look(), rest, n, queues, used);
            }
            done := done + rest[..n];
          }
          IdlingNext(first, start, before, rest, Look(), rest[n..], ended || again);
          RoomyNext(first, queues, rest, before.roots, n, ended, roots);
          pending := pending && rest[0].ignored;
          rest, size, firstTry := rest[n..], size - evLen, true;
        } else {
          // held back once: one more read, within the timer
          LoopHolds(first, queues, takes, done, lost, rest, size, holds, rebuilt);
          holds := holds + [|done|];
          firstTry := false;
          if used == |queues| {
            waiting := true;
            IdlingNext(first, start, before, rest, Look(), rest, true);
          } else {
            AddedRead(old(past), past, takes, done, lost, holds, Take(queues[used], BUF_LEN - size));
            RoomyRead(first, queues, used, rest, size, roots);
            var got := ReadMore(queues[used], BUF_LEN - size);
            LoopReads(first, queues, takes, done, lost, rest, size, holds, rebuilt);
            FollowingHold(rep, pending, start, Look(), rest, BUF_LEN - size, queues, used);
            if queues[used] == [] {
              size := size - 1;
            } else if got == [] {
              ended := true;
            } else {
              size := size + Bytes(got);
            }
            IdlingNext(first, start, before, rest, Look(), rest + got, ended);
            rest, takes, used := rest + got, takes + [got], used + 1;
          }
        }
      }
      left := rest;
      if !waiting && !ended {
        LoopEnds(first, queues, takes, done, lost, rest, size, firstTry, holds, rebuilt);
        FollowingEnds(rep, pending, firstTry, start, Look(), queues, used);
      }
      IdlingMeans(first, queues, start, Look(), rest, waiting || ended || rebuilt, ended);
      LoopMeans(first, queues, takes, done, lost, rest, size, firstTry, holds, rebuilt);
    }

    /** Reads of nothing but the last events of dropped watches. */
    method ReadQuiet(quiet: seq<seq<Event>>)
      requires KernelOk() && !ended && forall k :: 0 <= k < |quiet| ==> OnlyIgnored(quiet[k])
      modifies `cache, `watch, `nextWd, `roots, `ended, `past
      ensures KernelOk() && !ended && Look() == old(Look()) && past.acted == old(past).acted + Flat(quiet)
    {
      hide Agrees, FsOk, OnlyIgnored, AllIgnored, Added;
      FlatNone(past.acted, quiet);
      var k := 0;
      while k < |quiet|
        invariant 0 <= k <= |quiet| && KernelOk() && !ended && Look() == old(Look())
        invariant past.acted == old(past).acted + Flat(quiet[..k])
      {
        QuietRead(quiet[k]);
        ghost var was := past;
        var waiting, rebuilt, takes, done, lost, left, holds := ProcessInotifyEvents(quiet[k], [[]], None);
        AllHandled(was, past, quiet[k], takes, done, lost, left, holds);
        FlatNext(old(past).acted, quiet, k);
        k := k + 1;
      }
    }

    /** A rename whose second half is not there when the timer runs out: the first half is taken for a move
        out of the tree, the second, when it is read, for a move into it. The last events of dropped watches
        may come before either, and by themselves in any number of reads. */
    method LateRename(first: seq<Event>, quiet: seq<seq<Event>>, next: seq<Event>, ghost i: nat, ghost j: nat,
                      ghost rep: Report)
      requires KernelOk() && !ended && Bytes(first) <= BUF_LEN && Bytes(next) <= BUF_LEN
      requires AllWellFormed(first) && AllWellFormed(next) && |first| == i + 1 && j < |next| && next[j].isDir
      requires AllIgnored(first[..i], 0) && AllIgnored(next[..j], 0) && AllIgnored(next[j..], 1)
      requires forall k :: 0 <= k < |quiet| ==> OnlyIgnored(quiet[k])
      requires rep.ch.Rename? && Pending(rep, cache, Now(), [first[i]] + next[j..])
      modifies `cache, `watch, `nextWd, `roots, `ended, `past
      ensures KernelOk() && (!ended ==> Agrees(cache, Now()) && roots == old(roots))
      ensures !ended ==> past.acted == old(past).acted + first + Flat(quiet) + next
      ensures Short(first) && Short(next) && ended ==> roots == []
    {
      hide Agrees, FsOk, Bytes, Alone, Announces, Settled, Known, Without, After, Legal, MovedPart, AllWellFormed,
        Added, Flat, Short, OnlyIgnored;
      ghost var path := Join(rep.ch.dir, rep.ch.name);
      ghost var moved := MovedPart(rep);
      ghost var out := Report(rep.was, MoveOut(rep.ch.dir, rep.ch.name), rep.cookie, moved);
      ghost var cache0, now0, past0 := cache, Now(), past;
      HalfOut(rep, out, cache, Now(), first[i], next[j..]);
      assert first[i..] == [first[i]];
      AloneLater(out, cache, Now(), first, i, [[]]);
      NoneFormed();
      var waiting, rebuilt, takes, done, lost, left, holds := ProcessInotifyEvents(first, [[]], Some(out));
      if ended {
        return;
      }
      AllHandled(past0, past, first, takes, done, lost, left, holds);
      ReadQuiet(quiet);
      ghost var came := Report(Fs(Without(rep.was.dirs, path), watch),
                               MoveIn(rep.ch.toDir, rep.ch.toName, moved), rep.cookie, map[]);
      HalfIn(rep, cache0, now0, came, cache, Now(), first[i], next[j..]);
      AloneLater(came, cache, Now(), next, j, [[]]);
      past0 := past;
      waiting, rebuilt, takes, done, lost, left, holds := ProcessInotifyEvents(next, [[]], Some(came));
      if !ended {
        AllHandled(past0, past, next, takes, done, lost, left, holds);
      }
    }
  }

  /** A read of nothing but the last events of dropped watches. */
  ghost predicate OnlyIgnored(evs: seq<Event>) {
    evs != [] && Bytes(evs) <= BUF_LEN && AllWellFormed(evs) && AllIgnored(evs, 0)
  }

  lemma QuietRead(evs: seq<Event>)
    requires OnlyIgnored(evs)
    ensures evs != [] && Bytes(evs) <= BUF_LEN && AllWellFormed(evs) && AllIgnored(evs, 0)
  {
  }

  lemma NoneFormed()
    ensures AllWellFormed([]) && AllShort([[]])
  {
  }

  /** A call that reads no more, and neither rebuilds nor stops, handles what it was given. */
  lemma AllHandled(was: History, past: History, first: seq<Event>, takes: seq<seq<Event>>, done: seq<Event>,
                   lost: seq<Event>, left: seq<Event>, holds: seq<nat>)
    requires Added(was, past, takes, done, lost, holds) && lost == [] && left == []
    requires |takes| <= 1 && (forall k :: 0 <= k < |takes| ==> takes[k] <= [])
    requires done + lost + left == first + Flat(takes)
    ensures past.acted == was.acted + first
  {
    if |takes| == 1 {
      assert takes[0] == [] && takes[..0] == [];
    }
    assert Flat(takes) == [];
    assert done + lost + left == done && first + Flat(takes) == first;
  }

  lemma FlatNone(acted: seq<Event>, quiet: seq<seq<Event>>)
    ensures acted + Flat(quiet[..0]) == acted && quiet[..|quiet|] == quiet
  {
  }

  lemma FlatNext(acted: seq<Event>, quiet: seq<seq<Event>>, k: nat)
    requires k < |quiet|
    ensures acted + Flat(quiet[..k + 1]) == acted + Flat(quiet[..k]) + quiet[k]
  {
    assert quiet[..k + 1][..k] == quiet[..k];
  }

  /** Events of dropped watches may come first. */
  lemma {:induction false} AloneLater(rep: Report, cache: seq<Slot>, now: Fs, evs: seq<Event>, n: nat,
                                      queues: seq<seq<Event>>)
    requires n <= |evs| && AllIgnored(evs[..n], 0) && Alone(rep, cache, now, evs[n..], queues)
    ensures Alone(rep, cache, now, evs, queues)
  {
    hide Pending, Holding;
    if n == 0 {
      assert evs[0..] == evs;
    } else {
      assert evs[..n][0].ignored;
      assert evs[1..][..n - 1] == evs[..n][1..] && evs[1..][n - 1..] == evs[n..];
      AloneLater(rep, cache, now, evs[1..], n - 1, queues);
    }
  }

  ghost predicate PartOf(have: map<string, nat>, dirs: map<string, nat>) {
    forall p :: p in have ==> p in dirs && have[p] == dirs[p]
  }

  /** The directories under the root paths. */
  ghost function Monitored(dirs: map<string, nat>, roots: seq<string>): map<string, nat> {
    map p | p in dirs && exists k :: 0 <= k < |roots| && Under(roots[k], p) :: dirs[p]
  }

  /** The path is one of these directories, or goes on from one with a slash. */
  ghost predicate InSome(roots: seq<string>, path: string) {
    exists k :: 0 <= k < |roots| && (path == roots[k] || roots[k] + "/" <= path)
  }

  lemma MonitoredMeans(dirs: map<string, nat>, roots: seq<string>)
    ensures forall p :: p in Monitored(dirs, roots) <==> p in dirs && InSome(roots, p)
  {
    hide Under;
    forall p, k | 0 <= k < |roots|
      ensures Under(roots[k], p) <==> p == roots[k] || roots[k] + "/" <= p
    {
      UnderMeans(roots[k], p);
    }
  }

  lemma CachedMeans(cache: seq<Slot>, fs: Fs)
    requires Agrees(cache, fs)
    ensures forall p :: Cached(cache, p) <==> p in fs.dirs
  {
    forall p | Cached(cache, p)
      ensures p in fs.dirs
    {
      var j :| 0 <= j < |cache| && Used(cache[j]) && cache[j].path == p;
      assert SlotTrue(cache[j], fs);
    }
  }

  /** Slot by slot: the directory's own path becomes the new one, a path below it keeps what follows the slash,
      and no other path and no descriptor changes. */
  ghost predicate Relocated(cache: seq<Slot>, cache': seq<Slot>, from: string, to: string) {
    && |cache'| == |cache|
    && forall j :: 0 <= j < |cache| ==>
         && cache'[j].wd == cache[j].wd
         && (cache[j].path == from ==> cache'[j].path == to)
         && (forall rest :: cache[j].path == Join(from, rest) ==> cache'[j].path == Join(to, rest))
         && (cache[j].path != from && !(from + "/" <= cache[j].path) ==> cache'[j] == cache[j])
  }

  lemma RewrittenMeans(cache: seq<Slot>, from: string, to: string)
    ensures Relocated(cache, Rewritten(cache, from, to), from, to)
  {
    hide Under;
    forall j | 0 <= j < |cache|
      ensures Rewritten(cache, from, to)[j] == Slot(cache[j].wd, NewPath(cache[j].path, from, to))
    {
      NewPathMeans(cache[j].path, from, to);
    }
    forall j | 0 <= j < |cache|
      ensures cache[j].path == from ==> NewPath(cache[j].path, from, to) == to
      ensures forall rest :: cache[j].path == Join(from, rest) ==> NewPath(cache[j].path, from, to) == Join(to, rest)
      ensures cache[j].path != from && !(from + "/" <= cache[j].path) ==>
                NewPath(cache[j].path, from, to) == cache[j].path
    {
      NewPathMeans(cache[j].path, from, to);
    }
  }

  /** The used slots of a directory and what is below it. */
  ghost function InSubtree(cache: seq<Slot>, path: string): set<nat> {
    set j: nat | j < |cache| && cache[j].wd >= 0 && (cache[j].path == path || path + "/" <= cache[j].path)
  }

  lemma InSubtreeNone(cache: seq<Slot>, path: string)
    ensures |InSubtree(cache[..0], path)| == 0
  {
  }

  lemma InSubtreeMore(cache: seq<Slot>, path: string, j: nat)
    requires j < |cache|
    ensures |InSubtree(cache[..j + 1], path)| ==
            |InSubtree(cache[..j], path)| + if Used(cache[j]) && Under(path, cache[j].path) then 1 else 0
  {
    UnderMeans(path, cache[j].path);
    var less := InSubtree(cache[..j], path);
    assert InSubtree(cache[..j + 1], path) ==
           if Used(cache[j]) && Under(path, cache[j].path) then less + {j} else less;
  }

  /** Those slots are unused, the others as they were; and the kernel has dropped their watches and no others. */
  ghost predicate Cleared(cache: seq<Slot>, cache': seq<Slot>, watch: map<nat, int>, watch': map<nat, int>,
                          path: string) {
    && |cache'| == |cache|
    && (forall j: nat :: j < |cache| ==> cache'[j] == if j in InSubtree(cache, path) then EMPTY else cache[j])
    && (forall a :: a in watch' <==> a in watch && forall j :: j in InSubtree(cache, path) ==> cache[j].wd != watch[a])
    && (forall a :: a in watch' ==> watch'[a] == watch[a])
  }

  lemma ZappedMeans(cache: seq<Slot>, watch: map<nat, int>, path: string)
    ensures Cleared(cache, ZappedAll(cache, path), watch, Unwatched(watch, ZapWds(cache, path, |cache|)), path)
  {
    hide Under;
    forall j: nat | j < |cache|
      ensures j in InSubtree(cache, path) <==> Used(cache[j]) && Under(path, cache[j].path)
    {
      UnderMeans(path, cache[j].path);
    }
    forall w
      ensures w in ZapWds(cache, path, |cache|) <==> exists j :: j in InSubtree(cache, path) && cache[j].wd == w
    {
      if j :| j in InSubtree(cache, path) && cache[j].wd == w {
        assert Used(cache[j]) && Under(path, cache[j].path) && cache[j].wd == w;
      }
    }
  }

  lemma MonitoredNone(dirs: map<string, nat>, roots: seq<string>)
    ensures Monitored(dirs, roots[..0]) == map[] && PartOf(map[], dirs)
  {
  }

  lemma MonitoredMore(dirs: map<string, nat>, roots: seq<string>, i: nat)
    requires i < |roots|
    ensures Monitored(dirs, roots[..i + 1]) == Monitored(dirs, roots[..i]) + Within(dirs, roots[i])
    ensures PartOf(Monitored(dirs, roots[..i + 1]), dirs)
  {
    assert roots[..i + 1] == roots[..i] + [roots[i]];
    forall p | p in dirs
      ensures p in Monitored(dirs, roots[..i + 1]) <==> p in Monitored(dirs, roots[..i]) || Under(roots[i], p)
    {
      if k :| 0 <= k < i && Under(roots[..i][k], p) {
        assert Under(roots[..i + 1][k], p);
      }
      if Under(roots[i], p) {
        assert Under(roots[..i + 1][i], p);
      }
    }
  }

  lemma KernelStart(dirs: map<string, nat>, watch: map<nat, int>)
    requires FsOk(Fs(dirs, watch))
    ensures FsOk(Fs(dirs, map[]))
  {
  }

  /** The directories cached so far: those had before, and the first i of the walk. */
  ghost predicate Had(had: map<string, nat>, have: map<string, nat>, order: seq<string>, i: nat)
    requires i <= |order|
  {
    forall p :: p in had <==> p in have || p in order[..i]
  }

  lemma HadNone(have: map<string, nat>, dirs: map<string, nat>, order: seq<string>)
    ensures Had(have, have, order, 0)
  {
  }

  lemma HadMore(had: map<string, nat>, have: map<string, nat>, dirs: map<string, nat>, order: seq<string>, i: nat)
    requires i < |order| && order[i] in dirs && PartOf(had, dirs) && Had(had, have, order, i)
    ensures PartOf(had[order[i] := dirs[order[i]]], dirs) && Had(had[order[i] := dirs[order[i]]], have, order, i + 1)
  {
    assert order[..i + 1] == order[..i] + [order[i]];
  }

  lemma HadAll(had: map<string, nat>, have: map<string, nat>, dirs: map<string, nat>, order: seq<string>, path: string)
    requires PartOf(had, dirs) && PartOf(have, dirs) && Had(had, have, order, |order|)
    requires forall p :: p in order <==> p in dirs && Under(path, p)
    ensures had == have + Within(dirs, path) && forall p :: p in had <==> p in have || p in order
  {
    assert order[..|order|] == order;
  }

  lemma NothingAgrees()
    ensures Agrees([], Fs(map[], map[]))
  {
  }

  /** A descriptor found in the cache is the directory's own: its i-node was watched before. */
  lemma AlreadyCached(cache: seq<Slot>, have: map<string, nat>, dirs: map<string, nat>, watch0: map<nat, int>,
                      watch: map<nat, int>,
                      path: string, slot: nat)
    requires Agrees(cache, Fs(have, watch0)) && PartOf(have, dirs) && path in dirs && FsOk(Fs(dirs, watch))
    requires dirs[path] in watch && slot < |cache| && cache[slot].wd == watch[dirs[path]]
    requires dirs[path] in watch0 ==> watch == watch0
    requires dirs[path] !in watch0 ==> forall a :: a in watch0 ==> watch0[a] < watch[dirs[path]]
    ensures path in have && watch == watch0 && have[path := dirs[path]] == have
  {
    assert SlotTrue(cache[slot], Fs(have, watch0));
    var ino := have[cache[slot].path];
    assert watch0[ino] == cache[slot].wd;
    assert dirs[path] in watch0;
    assert ino == dirs[path];
    assert cache[slot].path == path;
  }

  lemma NotCached(cache: seq<Slot>, have: map<string, nat>, dirs: map<string, nat>, watch0: map<nat, int>,
                  watch: map<nat, int>, path: string)
    requires Agrees(cache, Fs(have, watch0)) && PartOf(have, dirs) && path in dirs && FsOk(Fs(dirs, watch))
    requires dirs[path] in watch && forall j :: 0 <= j < |cache| ==> cache[j].wd != watch[dirs[path]]
    requires dirs[path] in watch0 ==> watch == watch0
    requires dirs[path] !in watch0 ==>
               && watch == watch0[dirs[path] := watch[dirs[path]]]
               && forall a :: a in watch0 ==> watch0[a] < watch[dirs[path]]
    ensures path !in have && Fresh(Fs(have, watch0), dirs[path])
    ensures watch[dirs[path]] !in watch0.Values && watch == watch0[dirs[path] := watch[dirs[path]]]
  {
    var fs := Fs(have, watch0);
    if dirs[path] in watch0 {
      var p :| p in have && have[p] == dirs[path];
      WatchedFound(cache, fs, p);
    }
    assert dirs[path] !in watch0;
    if p :| p in have && have[p] == dirs[path] {
      WatchedFound(cache, fs, p);
    }
    assert dirs[path] !in have.Values;
  }

  lemma ZapMore(cache: seq<Slot>, path: string, j: nat, watch: map<nat, int>)
    requires j < |cache|
    ensures Used(cache[j]) && Under(path, cache[j].path) ==>
              && ZapWds(cache, path, j + 1) == ZapWds(cache, path, j) + {cache[j].wd}
              && Unwatched(Unwatched(watch, ZapWds(cache, path, j)), {cache[j].wd}) ==
                 Unwatched(watch, ZapWds(cache, path, j + 1))
              && cache[j].wd in ZapWds(cache, path, |cache|)
              && (OneEach(cache) ==> cache[j].wd !in ZapWds(cache, path, j))
    ensures !(Used(cache[j]) && Under(path, cache[j].path)) ==> ZapWds(cache, path, j + 1) == ZapWds(cache, path, j)
  {
  }

  /** The new directories are not cached yet, and they are all the cache lacks. */
  lemma NotYetCached(rep: Report, cache: seq<Slot>, now: Fs)
    requires Agrees(cache, rep.was) && Legal(rep.was, rep.ch) && now == After(rep.was, rep.ch)
    requires rep.ch.Mkdir? || rep.ch.MoveIn?
    ensures var path := Join(rep.ch.dir, rep.ch.name);
            && !Cached(cache, path) && PartOf(rep.was.dirs, now.dirs) && now.watch == rep.was.watch
            && rep.was.dirs + Within(now.dirs, path) == now.dirs
  {
    hide Agrees, FsOk;
    var path := Join(rep.ch.dir, rep.ch.name);
    assert Under(path, path);
    NoSlot(cache, rep.was, path);
  }

  lemma NoSlot(cache: seq<Slot>, fs: Fs, path: string)
    requires Agrees(cache, fs) && path !in fs.dirs
    ensures !Cached(cache, path)
  {
  }

  /** The watches to be zapped are the kernel's, each once. */
  lemma ZapWatched(cache: seq<Slot>, fs: Fs, path: string)
    requires Agrees(cache, fs)
    ensures OneEach(cache) && ZapWds(cache, path, |cache|) <= fs.watch.Values
  {
    forall w | w in ZapWds(cache, path, |cache|)
      ensures w in fs.watch.Values
    {
      var j :| 0 <= j < |cache| && Used(cache[j]) && Under(path, cache[j].path) && cache[j].wd == w;
      assert SlotTrue(cache[j], fs);
    }
  }

  lemma FirstBytes(evs: seq<Event>)
    requires |evs| > 0
    ensures Bytes(evs[..1]) == EvLen(evs[0])
    ensures |evs| > 1 ==> Bytes(evs[..2]) == EvLen(evs[0]) + EvLen(evs[1])
  {
    assert evs[..1][1..] == [];
    if |evs| > 1 {
      assert evs[..2][1..] == [evs[1]];
      assert [evs[1]][1..] == [];
    }
  }

  /** A rename out leaves the tree without the subtree; a rename within comes with its second event. */
  lemma FromFacts(rep: Report, cache: seq<Slot>, now: Fs, evs: seq<Event>)
    requires Pending(rep, cache, now, evs) && (rep.ch.Rename? || rep.ch.MoveOut?)
    ensures Agrees(cache, rep.was) && now.watch == rep.was.watch && evs[0].cookie == rep.cookie
    ensures rep.ch.MoveOut? ==> Known(rep, now) == Fs(Without(rep.was.dirs, Join(rep.ch.dir, rep.ch.name)), now.watch)
    ensures rep.ch.Rename? ==> rep.apart == map[]
    ensures rep.ch.MoveOut? && |evs| > 1 ==> !(evs[1].movedTo && evs[1].cookie == evs[0].cookie)
    ensures rep.ch.Rename? ==> |evs| > 1 && evs[1].movedTo && evs[1].cookie == evs[0].cookie
    ensures rep.ch.Rename? ==> exists j :: 0 <= j < |cache| && cache[j].wd == evs[1].wd
  {
    hide Agrees;
    if rep.ch.Rename? {
      WatchedFound(cache, rep.was, rep.ch.toDir);
    } else if rep.apart != map[] {
      var dirs := Without(rep.was.dirs, Join(rep.ch.dir, rep.ch.name));
      assert dirs + rep.apart - rep.apart.Keys == dirs;
    }
  }

  /** The directories that a rename moves, at their new paths. */
  ghost function MovedPart(rep: Report): map<string, nat>
    requires rep.ch.Rename? && Legal(rep.was, rep.ch)
  {
    Within(After(rep.was, rep.ch).dirs, Join(rep.ch.toDir, rep.ch.toName))
  }

  /** What a rename does, seen as a move out and a move in. */
  lemma RenameParts(rep: Report, cache: seq<Slot>, now: Fs, evs: seq<Event>)
    requires rep.ch.Rename? && Pending(rep, cache, now, evs)
    ensures var kept, moved := Without(rep.was.dirs, Join(rep.ch.dir, rep.ch.name)), MovedPart(rep);
            && moved != map[] && kept.Keys !! moved.Keys && now == Fs(kept + moved, rep.was.watch)
            && kept + moved - moved.Keys == kept
  {
    hide Agrees, Renamed, Without, Within, Under, From;
    var from, to := Join(rep.ch.dir, rep.ch.name), Join(rep.ch.toDir, rep.ch.toName);
    RenameSplits(rep.was.dirs, from, to);
    var kept, moved := Without(rep.was.dirs, from), MovedPart(rep);
    assert kept + moved - moved.Keys == kept;
  }

  /** The first half, as a move out. */
  lemma HalfOut(rep: Report, out: Report, cache: seq<Slot>, now: Fs, from: Event, to: seq<Event>)
    requires rep.ch.Rename? && Pending(rep, cache, now, [from] + to)
    requires out == Report(rep.was, MoveOut(rep.ch.dir, rep.ch.name), rep.cookie, MovedPart(rep))
    ensures Alone(out, cache, now, [from], [[]])
  {
    hide Agrees, Renamed, Without, MovedPart, IsFrom;
    RenameParts(rep, cache, now, [from] + to);
    assert ([from] + to)[0] == from;
    assert [from] + [] == [from];
  }

  /** The directory that receives it is still watched. */
  lemma StillWatched(rep: Report, cache: seq<Slot>, watch: map<nat, int>, ev: Event)
    requires rep.ch.Rename? && Legal(rep.was, rep.ch) && From(ev, rep.was, rep.ch.toDir)
    requires Agrees(cache, Fs(Without(rep.was.dirs, Join(rep.ch.dir, rep.ch.name)), watch))
    requires Kept(rep.was.watch, watch)
    ensures From(ev, Fs(Without(rep.was.dirs, Join(rep.ch.dir, rep.ch.name)), watch), rep.ch.toDir)
  {
    hide Agrees, Under;
    WatchedFound(cache, Fs(Without(rep.was.dirs, Join(rep.ch.dir, rep.ch.name)), watch), rep.ch.toDir);
  }

  /** What it receives is watched no more. */
  lemma PartFresh(rep: Report, cache0: seq<Slot>, cache: seq<Slot>, watch: map<nat, int>, q: string)
    requires rep.ch.Rename? && Legal(rep.was, rep.ch) && Agrees(cache0, rep.was) && q in MovedPart(rep)
    requires Agrees(cache, Fs(Without(rep.was.dirs, Join(rep.ch.dir, rep.ch.name)), watch))
    ensures Fresh(Fs(Without(rep.was.dirs, Join(rep.ch.dir, rep.ch.name)), watch), MovedPart(rep)[q])
  {
    hide OneEach, Tidy, SlotTrue, Cached, Renamed, Under;
    RenameSplits(rep.was.dirs, Join(rep.ch.dir, rep.ch.name), Join(rep.ch.toDir, rep.ch.toName));
  }

  lemma PartLegal(rep: Report, cache0: seq<Slot>, cache: seq<Slot>, watch: map<nat, int>)
    requires rep.ch.Rename? && Legal(rep.was, rep.ch) && Agrees(cache0, rep.was)
    requires Agrees(cache, Fs(Without(rep.was.dirs, Join(rep.ch.dir, rep.ch.name)), watch))
    ensures Legal(Fs(Without(rep.was.dirs, Join(rep.ch.dir, rep.ch.name)), watch),
                  MoveIn(rep.ch.toDir, rep.ch.toName, MovedPart(rep)))
  {
    hide OneEach, Tidy, SlotTrue, Cached, Renamed, Under, Fresh;
    var from, to := Join(rep.ch.dir, rep.ch.name), Join(rep.ch.toDir, rep.ch.toName);
    RenameSplits(rep.was.dirs, from, to);
    RenamedInjective(rep.was.dirs, from, to);
    forall q | q in MovedPart(rep)
      ensures Fresh(Fs(Without(rep.was.dirs, from), watch), MovedPart(rep)[q])
    {
      PartFresh(rep, cache0, cache, watch, q);
    }
  }

  /** The second half, as a move in. */
  lemma HalfIn(rep: Report, cache0: seq<Slot>, now0: Fs, came: Report, cache: seq<Slot>, now: Fs, from: Event,
               to: seq<Event>)
    requires rep.ch.Rename? && Pending(rep, cache0, now0, [from] + to)
    requires to != [] && to[0].isDir && AllIgnored(to, 1) && now.dirs == now0.dirs
    requires Settled(Report(rep.was, MoveOut(rep.ch.dir, rep.ch.name), rep.cookie, MovedPart(rep)), cache, now)
    requires came == Report(Fs(Without(rep.was.dirs, Join(rep.ch.dir, rep.ch.name)), now.watch),
                            MoveIn(rep.ch.toDir, rep.ch.toName, MovedPart(rep)), rep.cookie, map[])
    ensures Alone(came, cache, now, to, [[]])
  {
    hide Agrees, Renamed, Without, MovedPart, Legal, Kept;
    RenameParts(rep, cache0, now0, [from] + to);
    StillWatched(rep, cache, now.watch, to[0]);
    PartLegal(rep, cache0, cache, now.watch);
    assert ([from] + to)[1] == to[0];
  }

  lemma UnmountAgrees(rep: Report, cache: seq<Slot>, now: Fs, evs: seq<Event>, slot: nat)
    requires Pending(rep, cache, now, evs) && rep.ch.Unmount? && slot < |cache| && cache[slot].wd == evs[0].wd
    ensures Settled(rep, cache[slot := EMPTY], now)
  {
    hide Agrees;
    RmdirAgrees(cache, rep.was, rep.ch.path, slot);
  }

  /** The event's descriptor is not in the cache. */
  ghost predicate Unknown(cache: seq<Slot>, ev: Event) {
    ev.wd != -1 && !ev.ignored && forall j :: 0 <= j < |cache| ==> cache[j].wd != ev.wd
  }

  predicate Overflows(ev: Event) {
    !IsNew(ev) && !ev.deleteSelf && !(ev.movedFrom && ev.isDir) && ev.overflow
  }

  /** An event that says nothing about directories. */
  predicate Idle(ev: Event) {
    !IsNew(ev) && !ev.deleteSelf && !(ev.movedFrom && ev.isDir) && !ev.overflow && !ev.unmount && !ev.moveSelf
  }

  /** The root path, if it is one, is dropped from the list, and no other. */
  ghost predicate RootGoes(roots: seq<string>, roots': seq<string>, path: string) {
    if path in roots then multiset(roots') == multiset(roots) - multiset{path} else roots' == roots
  }

  /** The event says that its directory was deleted, or moved itself. */
  predicate Departs(ev: Event) {
    !IsNew(ev) && (ev.deleteSelf || (!IsFrom(ev) && !ev.overflow && !ev.unmount && ev.moveSelf))
  }

  /** The directory of the event is a root path no more. */
  ghost predicate RootEnds(cache: seq<Slot>, ev: Event, roots: seq<string>, roots': seq<string>) {
    exists j :: 0 <= j < |cache| && cache[j].wd == ev.wd && RootGoes(roots, roots', cache[j].path)
  }

  /** What a change does to the root paths. */
  ghost predicate RootsFollow(ch: Change, roots: seq<string>, roots': seq<string>) {
    if ch.Rmdir? || ch.RootMoved? then RootGoes(roots, roots', ch.path) else roots' == roots
  }

  lemma RootsRight(rep: Report, cache: seq<Slot>, now: Fs, evs: seq<Event>, roots: seq<string>, roots': seq<string>)
    requires Pending(rep, cache, now, evs)
    requires if Departs(evs[0]) && !Unknown(cache, evs[0]) then RootEnds(cache, evs[0], roots, roots')
             else roots' == roots
    ensures RootsFollow(rep.ch, roots, roots')
  {
    hide Agrees, Legal, After, RootGoes;
    if rep.ch.Rmdir? || rep.ch.RootMoved? {
      if Unknown(cache, evs[0]) {
        SlotKnown(rep, cache, now, evs, -1);
      }
      var j :| 0 <= j < |cache| && cache[j].wd == evs[0].wd && RootGoes(roots, roots', cache[j].path);
      SlotKnown(rep, cache, now, evs, j);
    }
  }

  lemma RootFacts(rep: Report, cache: seq<Slot>, now: Fs, evs: seq<Event>)
    requires Pending(rep, cache, now, evs) && rep.ch.RootMoved?
    ensures now.watch == rep.was.watch && Known(rep, now) == Fs(Without(rep.was.dirs, rep.ch.path), now.watch)
  {
  }

  lemma RenameAgrees(rep: Report, cache: seq<Slot>, now: Fs, evs: seq<Event>, next: nat)
    requires Pending(rep, cache, now, evs) && rep.ch.Rename? && next < |cache| && cache[next].wd == evs[1].wd
    ensures cache[next].path == rep.ch.toDir && evs[1].name == rep.ch.toName
    ensures Agrees(Rewritten(cache, Join(rep.ch.dir, rep.ch.name), Join(rep.ch.toDir, rep.ch.toName)), now)
  {
    hide Agrees, Renamed;
    WatchedSlot(cache, rep.was, rep.ch.toDir, next);
    RewriteAgrees(cache, rep.was, Join(rep.ch.dir, rep.ch.name), Join(rep.ch.toDir, rep.ch.toName));
  }

  /** An announcing event's descriptor is in the cache, with the directory's path. */
  lemma SlotKnown(rep: Report, cache: seq<Slot>, now: Fs, evs: seq<Event>, slot: int)
    requires Pending(rep, cache, now, evs) && -1 <= slot < |cache|
    requires slot >= 0 ==> cache[slot].wd == evs[0].wd
    requires slot == -1 ==> forall j :: 0 <= j < |cache| ==> cache[j].wd != evs[0].wd
    ensures slot >= 0
    ensures cache[slot].path ==
            if rep.ch.Rmdir? || rep.ch.Unmount? || rep.ch.RootMoved? then rep.ch.path else rep.ch.dir
  {
    hide Agrees;
    var dir := if rep.ch.Rmdir? || rep.ch.Unmount? || rep.ch.RootMoved? then rep.ch.path else rep.ch.dir;
    WatchedFound(cache, rep.was, dir);
    WatchedSlot(cache, rep.was, dir, slot);
  }

  predicate AllWellFormed(evs: seq<Event>) {
    forall i :: 0 <= i < |evs| ==> WellFormed(evs[i])
  }

  /** What a read with this much room returns: the whole events that fit. */
  function Take(queue: seq<Event>, room: int): seq<Event> {
    if queue == [] || EvLen(queue[0]) > room then [] else [queue[0]] + Take(queue[1..], room - EvLen(queue[0]))
  }

  ghost function Flat(takes: seq<seq<Event>>): seq<Event> {
    if takes == [] then [] else Flat(takes[..|takes| - 1]) + takes[|takes| - 1]
  }

  ghost predicate Rising(holds: seq<nat>) {
    forall i, j :: 0 <= i < j < |holds| ==> holds[i] < holds[j]
  }

  /** The bytes left in the buffer: those of its events, or one fewer after a read that was interrupted. */
  ghost predicate Sized(rest: seq<Event>, size: int, firstTry: bool) {
    && Bytes(rest) <= BUF_LEN
    && (|| size == Bytes(rest)
        || (|rest| == 1 && size == Bytes(rest) - 1 && !firstTry)
        || (rest == [] && size <= 0))
  }

  /** The places held back so far, each a moved-from event, the present one last if it has been held. */
  ghost predicate Held(holds: seq<nat>, done: seq<Event>, firstTry: bool, all: seq<Event>) {
    && Rising(holds)
    && (forall i :: 0 <= i < |holds| ==> holds[i] < |all| && IsFrom(all[holds[i]]) && holds[i] <= |done|)
    && (firstTry ==> forall i :: 0 <= i < |holds| ==> holds[i] < |done|)
  }

  lemma HeldMeans(holds: seq<nat>, done: seq<Event>, firstTry: bool, all: seq<Event>)
    requires Held(holds, done, firstTry, all)
    ensures Rising(holds) && forall h :: h in holds ==> h < |all| && IsFrom(all[h])
  {
  }

  /** A rename's first half alone in the buffer, which waits for one more read. */
  predicate Holding(rest: seq<Event>, firstTry: bool) {
    firstTry && |rest| == 1 && IsFrom(rest[0])
  }

  /** The events have names of at most NAME_MAX characters, as the kernel's have. */
  ghost predicate Short(evs: seq<Event>) {
    forall i :: 0 <= i < |evs| ==> EvLen(evs[i]) <= BUF_LEN / 100
  }

  ghost predicate AllIgnored(evs: seq<Event>, n: nat) {
    forall i :: n <= i < |evs| ==> evs[i].ignored
  }

  /** The event at hand is told of the change: it is not a dropped watch's last, nor a half that waits. */
  predicate Told(rest: seq<Event>, firstTry: bool)
    requires rest != []
  {
    !rest[0].ignored && !Holding(rest, firstTry)
  }

  /** One change alone: its events, in the buffer or, after a first half, in the next read; before and after
      them nothing but the last events of dropped watches. */
  ghost predicate Alone(rep: Report, cache: seq<Slot>, now: Fs, first: seq<Event>, queues: seq<seq<Event>>) {
    if first != [] && first[0].ignored then Alone(rep, cache, now, first[1..], queues)
    else
      var evs := if Holding(first, true) && queues != [] then first + queues[0] else first;
      Pending(rep, cache, now, evs) && AllIgnored(evs, Share(rep.ch))
  }

  /** How far the change has got: to come, before its second half, or settled. */
  ghost predicate Following(rep: Option<Report>, pending: bool, firstTry: bool, start: View, v: View,
                            rest: seq<Event>, queues: seq<seq<Event>>, used: nat)
  {
    rep.Some? ==>
      if !pending then
        Settled(rep.value, v.cache, v.fs) && AllIgnored(rest, 0) && RootsFollow(rep.value.ch, start.roots, v.roots)
      else
        && v.roots == start.roots && (rep.value.ch.RootMoved? ==> rep.value.ch.path in v.roots)
        && if firstTry then used == 0 && Alone(rep.value, v.cache, v.fs, rest, queues)
           else Pending(rep.value, v.cache, v.fs, rest) && AllIgnored(rest, Share(rep.value.ch))
  }

  /** Nothing changes while only last events of dropped watches are read. */
  ghost predicate Idling(first: seq<Event>, start: View, v: View, rest: seq<Event>, stopped: bool) {
    AllIgnored(first, 0) ==> AllIgnored(rest, 0) && v == start && !stopped
  }

  lemma IdlingNext(first: seq<Event>, start: View, v: View, rest: seq<Event>, v': View, rest': seq<Event>,
                   stopped: bool)
    requires Idling(first, start, v, rest, false) && rest != []
    requires rest[0].ignored ==> rest' == rest[1..] && v' == v && !stopped
    ensures Idling(first, start, v', rest', stopped)
  {
  }

  /** With short names only the loss of the last root path ends the program. */
  ghost predicate Roomy(first: seq<Event>, queues: seq<seq<Event>>, rest: seq<Event>, ended: bool, roots: seq<string>) {
    Short(first) && AllShort(queues) ==> Short(rest) && (ended ==> roots == [])
  }

  ghost predicate AllShort(queues: seq<seq<Event>>) {
    forall k :: 0 <= k < |queues| ==> Short(queues[k])
  }

  lemma RoomyNext(first: seq<Event>, queues: seq<seq<Event>>, rest: seq<Event>, roots: seq<string>, n: nat, ended: bool,
                  roots': seq<string>)
    requires Roomy(first, queues, rest, false, roots) && n <= |rest| && (ended ==> roots' == [])
    ensures Roomy(first, queues, rest[n..], ended, roots')
  {
  }

  /** The further read has room for an event. */
  lemma RoomyRead(first: seq<Event>, queues: seq<seq<Event>>, used: nat, rest: seq<Event>, size: int,
                  roots: seq<string>)
    requires Roomy(first, queues, rest, false, roots) && used < |queues| && |rest| == 1 && size == Bytes(rest)
    ensures var got := Take(queues[used], BUF_LEN - size);
            Roomy(first, queues, rest + got, queues[used] != [] && got == [], roots)
  {
    assert rest[1..] == [];
    TakeFits(queues[used], BUF_LEN - size);
  }

  lemma IdlingMeans(first: seq<Event>, queues: seq<seq<Event>>, start: View, v: View, rest: seq<Event>, stopped: bool,
                    ended: bool)
    requires Idling(first, start, v, rest, stopped) && Roomy(first, queues, rest, ended, v.roots)
    ensures AllIgnored(first, 0) ==> !stopped && v == start
    ensures Short(first) && AllShort(queues) && ended ==> v.roots == []
  {
  }

  /** What the loop keeps: every event read is done, lost to a rebuild, or left, in the order read. */
  ghost predicate Loop(first: seq<Event>, queues: seq<seq<Event>>, takes: seq<seq<Event>>, done: seq<Event>,
                       lost: seq<Event>, rest: seq<Event>, size: int, firstTry: bool, holds: seq<nat>, rebuilt: bool)
  {
    && |takes| <= |queues| && (forall k :: 0 <= k < |takes| ==> takes[k] <= queues[k])
    && done + lost + rest == first + Flat(takes)
    && (lost != [] ==> rebuilt) && (rebuilt ==> size <= 0)
    && Sized(rest, size, firstTry) && AllWellFormed(rest)
    && (forall k :: 0 <= k < |queues| ==> AllWellFormed(queues[k]))
    && Held(holds, done, firstTry && !rebuilt, done + lost + rest)
  }

  lemma LoopFacts(first: seq<Event>, queues: seq<seq<Event>>, takes: seq<seq<Event>>, done: seq<Event>,
                  lost: seq<Event>, rest: seq<Event>, size: int, firstTry: bool, holds: seq<nat>, rebuilt: bool)
    requires Loop(first, queues, takes, done, lost, rest, size, firstTry, holds, rebuilt) && size > 0
    ensures rest != [] && size <= BUF_LEN && WellFormed(rest[0]) && !rebuilt && lost == []
    ensures EvLen(rest[0]) < size <==> |rest| > 1
    ensures firstTry ==> size == Bytes(rest)
  {
    hide Held, WellFormed, Bytes, Flat;
    SizedFacts(rest, size, firstTry);
  }

  lemma LoopRebuilds(first: seq<Event>, queues: seq<seq<Event>>, takes: seq<seq<Event>>, done: seq<Event>,
                     lost: seq<Event>, rest: seq<Event>, size: int, firstTry: bool, holds: seq<nat>, rebuilt: bool)
    requires Loop(first, queues, takes, done, lost, rest, size, firstTry, holds, rebuilt) && size > 0
    ensures Loop(first, queues, takes, done, rest, rest[|rest|..], size - BUF_LEN, true, holds, true)
  {
    hide Held, WellFormed, Bytes, Flat, Sized;
    assert lost == [];
    StepRebuilds(holds, done, firstTry, rest, size);
  }

  lemma LoopForward(first: seq<Event>, queues: seq<seq<Event>>, takes: seq<seq<Event>>, done: seq<Event>,
                    lost: seq<Event>,
                    rest: seq<Event>, size: int, firstTry: bool, holds: seq<nat>, rebuilt: bool, n: nat, evLen: int)
    requires Loop(first, queues, takes, done, lost, rest, size, firstTry, holds, rebuilt) && size > 0
    requires 1 <= n <= |rest| && evLen == Bytes(rest[..n])
    ensures Loop(first, queues, takes, done + rest[..n], lost, rest[n..], size - evLen, true, holds, rebuilt)
  {
    hide Held, WellFormed, Bytes, Flat, Sized;
    assert lost == [];
    StepForward(holds, done, firstTry, rest, size, n, evLen);
  }

  lemma LoopHolds(first: seq<Event>, queues: seq<seq<Event>>, takes: seq<seq<Event>>, done: seq<Event>,
                  lost: seq<Event>, rest: seq<Event>, size: int, holds: seq<nat>, rebuilt: bool)
    requires Loop(first, queues, takes, done, lost, rest, size, true, holds, rebuilt) && size > 0
    requires rest != [] && IsFrom(rest[0]) && EvLen(rest[0]) >= size
    ensures Loop(first, queues, takes, done, lost, rest, size, false, holds + [|done|], rebuilt)
    ensures lost == [] && |rest| == 1 && size == Bytes(rest)
  {
    hide Held, WellFormed, Bytes, Flat, Sized;
    assert lost == [];
    HoldStep(holds, done, rest, size);
  }

  lemma LoopReads(first: seq<Event>, queues: seq<seq<Event>>, takes: seq<seq<Event>>, done: seq<Event>,
                  lost: seq<Event>, rest: seq<Event>, size: int, holds: seq<nat>, rebuilt: bool)
    requires Loop(first, queues, takes, done, lost, rest, size, false, holds, rebuilt) && size > 0
    requires |takes| < |queues| && |rest| == 1 && size == Bytes(rest)
    ensures var got := Take(queues[|takes|], BUF_LEN - size);
            && Loop(first, queues, takes + [got], done, lost, rest + got, size + Bytes(got), false, holds, rebuilt)
            && (got == [] ==>
                  && Bytes(got) == 0
                  && Loop(first, queues, takes + [got], done, lost, rest + got, size - 1, false, holds, rebuilt))
            && (queues[|takes|] == [] ==> got == [])
  {
    hide Held, WellFormed, Flat, Sized, AllWellFormed, Take, Bytes;
    var got := Take(queues[|takes|], BUF_LEN - size);
    assert lost == [];
    SizedFacts(rest, size, false);
    TakeFits(queues[|takes|], BUF_LEN - size);
    TakeFormed(rest, queues[|takes|], got);
    FlatMore(takes, got);
    MoreSized(rest, got, size);
    HeldMore(holds, done, rest, got);
    assert first + (Flat(takes) + got) == first + Flat(takes) + got;
  }

  lemma LoopMeans(first: seq<Event>, queues: seq<seq<Event>>, takes: seq<seq<Event>>, done: seq<Event>,
                  lost: seq<Event>, rest: seq<Event>, size: int, firstTry: bool, holds: seq<nat>, rebuilt: bool)
    requires Loop(first, queues, takes, done, lost, rest, size, firstTry, holds, rebuilt)
    ensures |takes| <= |queues| && forall k :: 0 <= k < |takes| ==> takes[k] <= queues[k]
    ensures done + lost + rest == first + Flat(takes) && (lost != [] ==> rebuilt)
    ensures Rising(holds) && forall h :: h in holds ==> h < |done + lost + rest| && IsFrom((done + lost + rest)[h])
  {
    hide Held, Flat, Rising, IsFrom;
    HeldMeans(holds, done, firstTry && !rebuilt, done + lost + rest);
  }

  lemma LoopStarts(first: seq<Event>, rep: Option<Report>, v: View, queues: seq<seq<Event>>)
    requires Bytes(first) <= BUF_LEN && (rep.Some? ==> Alone(rep.value, v.cache, v.fs, first, queues))
    requires AllWellFormed(first) && forall k :: 0 <= k < |queues| ==> AllWellFormed(queues[k])
    requires rep.Some? && rep.value.ch.RootMoved? ==> rep.value.ch.path in v.roots
    ensures Loop(first, queues, [], [], [], first, Bytes(first), true, [], false)
    ensures Following(rep, true, true, v, v, first, queues, 0)
    ensures Idling(first, v, v, first, false) && Roomy(first, queues, first, false, v.roots)
  {
    hide Pending, AllWellFormed, AllIgnored, Bytes, IsFrom, Short;
    assert [] + [] + first == first + Flat([]);
  }

  lemma LoopEnds(first: seq<Event>, queues: seq<seq<Event>>, takes: seq<seq<Event>>, done: seq<Event>, lost: seq<Event>,
                 rest: seq<Event>, size: int, firstTry: bool, holds: seq<nat>, rebuilt: bool)
    requires Loop(first, queues, takes, done, lost, rest, size, firstTry, holds, rebuilt) && size <= 0
    ensures rest == []
  {
    hide Held, Flat, AllWellFormed;
    BytesPositive(rest);
  }

  lemma FollowingFacts(rep: Option<Report>, pending: bool, firstTry: bool, start: View, v: View, rest: seq<Event>,
                       queues: seq<seq<Event>>, used: nat)
    requires Following(rep, pending, firstTry, start, v, rest, queues, used) && rest != []
    ensures rep.Some? && pending && Told(rest, firstTry) ==>
              && Pending(rep.value, v.cache, v.fs, rest)
              && (rep.value.ch.RootMoved? ==> rep.value.ch.path in v.roots)
    ensures rep.Some? && pending && !rest[0].ignored && Holding(rest, firstTry) ==>
              !Unknown(v.cache, rest[0]) && used == 0
    ensures rep.Some? && !(pending && Told(rest, firstTry)) && !rest[0].ignored ==> Holding(rest, firstTry) && pending
  {
    hide Settled, Agrees, FsOk, Legal, After, RootsFollow, Describes;
    if rep.Some? && pending && !rest[0].ignored && Holding(rest, firstTry) {
      AloneKnown(rep.value, v.cache, v.fs, rest, queues);
    }
  }

  /** The first event's descriptor is in the cache. */
  lemma AloneKnown(rep: Report, cache: seq<Slot>, now: Fs, first: seq<Event>, queues: seq<seq<Event>>)
    requires Alone(rep, cache, now, first, queues) && first != [] && !first[0].ignored
    ensures !Unknown(cache, first[0])
  {
    hide Agrees, FsOk, Holding, Pending;
    var evs := if Holding(first, true) && queues != [] then first + queues[0] else first;
    if Unknown(cache, evs[0]) {
      SlotKnown(rep, cache, now, evs, -1);
    }
  }

  lemma FollowingStep(rep: Option<Report>, pending: bool, firstTry: bool, start: View, v: View, v': View,
                      rest: seq<Event>, n: nat, queues: seq<seq<Event>>, used: nat)
    requires Following(rep, pending, firstTry, start, v, rest, queues, used) && rest != [] && n <= |rest|
    requires rest[0].ignored ==> n == 1 && v' == v
    requires rep.Some? && pending && Told(rest, firstTry) ==>
               n == Share(rep.value.ch) && Settled(rep.value, v'.cache, v'.fs)
    requires if Departs(rest[0]) && !Unknown(v.cache, rest[0]) then RootEnds(v.cache, rest[0], v.roots, v'.roots)
             else v'.roots == v.roots
    requires rep.Some? && pending && !rest[0].ignored ==> Told(rest, firstTry)
    ensures Following(rep, pending && rest[0].ignored, true, start, v', rest[n..], queues, used)
  {
    hide Settled, Agrees, FsOk, Legal, After, RootsFollow, Departs, Unknown, RootEnds, Describes;
    if rep.Some? && pending && Told(rest, firstTry) {
      RootsRight(rep.value, v.cache, v.fs, rest, v.roots, v'.roots);
    }
  }

  /** After the one more read, the first half is looked at together with what came. */
  lemma FollowingHold(rep: Option<Report>, pending: bool, start: View, v: View, rest: seq<Event>, room: int,
                      queues: seq<seq<Event>>, used: nat)
    requires Following(rep, pending, true, start, v, rest, queues, used) && used < |queues|
    requires Holding(rest, true) && !rest[0].ignored
    ensures var got := Take(queues[used], room);
            got != [] || queues[used] == [] ==> Following(rep, pending, false, start, v, rest + got, queues, used + 1)
  {
    hide Settled, Pending, IsFrom, RootsFollow;
    var got := Take(queues[used], room);
    if rep.Some? && (got != [] || queues[used] == []) {
      assert pending && used == 0;
      TakeFits(queues[0], room);
      PendingPrefix(rep.value, v.cache, v.fs, rest + got, rest + queues[0]);
      assert AllIgnored(rest + got, Share(rep.value.ch));
    }
  }

  /** The first two events say it all. */
  lemma PendingPrefix(rep: Report, cache: seq<Slot>, now: Fs, evs: seq<Event>, more: seq<Event>)
    requires Pending(rep, cache, now, more) && evs <= more && evs != [] && (|evs| > 1 || more == evs)
    ensures Pending(rep, cache, now, evs)
  {
    hide Agrees, Legal, After, From;
    assert evs[0] == more[0] && (|more| > 1 ==> evs[1] == more[1]);
  }

  lemma FollowingNothing(rep: Option<Report>, start: View, v: View, rest: seq<Event>, queues: seq<seq<Event>>,
                         used: nat)
    requires rep.None?
    ensures Following(rep, false, true, start, v, rest, queues, used)
    ensures Following(rep, true, true, start, v, rest, queues, used)
  {
  }

  lemma FollowingEnds(rep: Option<Report>, pending: bool, firstTry: bool, start: View, v: View,
                      queues: seq<seq<Event>>, used: nat)
    requires Following(rep, pending, firstTry, start, v, [], queues, used)
    ensures rep.Some? ==>
              && Settled(rep.value, v.cache, v.fs) && RootsFollow(rep.value.ch, start.roots, v.roots)
              && (rep.value.apart == map[] ==> Agrees(v.cache, v.fs))
  {
    hide Agrees, Legal, After, RootsFollow;
  }

  lemma {:induction false} BytesPositive(evs: seq<Event>)
    ensures Bytes(evs) >= HEADER * |evs|
  {
    if evs != [] {
      BytesPositive(evs[1..]);
    }
  }

  lemma {:induction false} MoreBytes(a: seq<Event>, b: seq<Event>)
    ensures Bytes(a + b) == Bytes(a) + Bytes(b)
  {
    if a == [] {
      assert a + b == b;
    } else {
      assert (a + b)[1..] == a[1..] + b;
      MoreBytes(a[1..], b);
    }
  }

  lemma {:induction false} TakeFits(queue: seq<Event>, room: int)
    ensures Take(queue, room) <= queue
    ensures room >= 0 ==> Bytes(Take(queue, room)) <= room
  {
    if queue != [] && EvLen(queue[0]) <= room {
      TakeFits(queue[1..], room - EvLen(queue[0]));
      assert Take(queue, room)[1..] == Take(queue[1..], room - EvLen(queue[0]));
    }
  }

  lemma FlatMore(takes: seq<seq<Event>>, got: seq<Event>)
    ensures Flat(takes + [got]) == Flat(takes) + got
  {
    assert (takes + [got])[..|takes|] == takes;
  }

  /** A rebuild drops the rest of the buffer, which ends the loop. */
  lemma StepRebuilds(holds: seq<nat>, done: seq<Event>, firstTry: bool, rest: seq<Event>, size: int)
    requires Sized(rest, size, firstTry) && size > 0 && Held(holds, done, firstTry, done + [] + rest)
    ensures Sized(rest[|rest|..], size - BUF_LEN, true) && size <= BUF_LEN
    ensures done + rest + rest[|rest|..] == done + [] + rest
    ensures Held(holds, done, false, done + rest + rest[|rest|..])
  {
    SizedFacts(rest, size, firstTry);
    assert done + rest + rest[|rest|..] == done + [] + rest;
  }

  lemma StepForward(holds: seq<nat>, done: seq<Event>, firstTry: bool, rest: seq<Event>, size: int, n: nat, evLen: int)
    requires Sized(rest, size, firstTry) && size > 0 && Held(holds, done, firstTry, done + [] + rest)
    requires 1 <= n <= |rest| && evLen == Bytes(rest[..n])
    ensures Sized(rest[n..], size - evLen, true)
    ensures done + rest[..n] + [] + rest[n..] == done + [] + rest
    ensures Held(holds, done + rest[..n], true, done + rest[..n] + [] + rest[n..])
  {
    assert rest == rest[..n] + rest[n..];
    MoreBytes(rest[..n], rest[n..]);
    assert done + rest[..n] + [] + rest[n..] == done + [] + rest;
  }

  lemma HoldStep(holds: seq<nat>, done: seq<Event>, rest: seq<Event>, size: int)
    requires Held(holds, done, true, done + [] + rest) && rest != [] && IsFrom(rest[0])
    requires Sized(rest, size, true) && size > 0 && EvLen(rest[0]) >= size
    ensures Held(holds + [|done|], done, false, done + [] + rest)
    ensures |rest| == 1 && size == Bytes(rest) && Sized(rest, size, false) && Sized(rest, size - 1, false)
  {
    SizedFacts(rest, size, true);
  }

  lemma MoreSized(rest: seq<Event>, got: seq<Event>, size: int)
    requires |rest| == 1 && size == Bytes(rest) && Bytes(got) <= BUF_LEN - size
    ensures Sized(rest + got, size + Bytes(got), false)
    ensures got == [] ==> Bytes(got) == 0 && Sized(rest + got, size - 1, false)
  {
    MoreBytes(rest, got);
  }

  lemma TakeFormed(rest: seq<Event>, queue: seq<Event>, got: seq<Event>)
    requires AllWellFormed(rest) && AllWellFormed(queue) && got <= queue
    ensures AllWellFormed(rest + got)
  {
  }

  lemma HeldMore(holds: seq<nat>, done: seq<Event>, rest: seq<Event>, got: seq<Event>)
    requires Held(holds, done, false, done + [] + rest)
    ensures Held(holds, done, false, done + [] + (rest + got)) && done + [] + (rest + got) == done + [] + rest + got
  {
    assert done + [] + (rest + got) == done + [] + rest + got;
  }

  /** What the byte count says about the events. */
  lemma SizedFacts(rest: seq<Event>, size: int, firstTry: bool)
    requires Sized(rest, size, firstTry) && size > 0
    ensures rest != [] && size <= BUF_LEN
    ensures EvLen(rest[0]) < size <==> |rest| > 1
    ensures firstTry ==> size == Bytes(rest)
  {
    BytesPositive(rest);
    BytesPositive(rest[1..]);
  }
}
