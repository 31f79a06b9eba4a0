/** The watch cache of the directory-tree monitor, the tree it mirrors, and how both change. */
module InotifyCache {

  /** A cache slot: wd is -1 if the slot is unused. */
  datatype Slot = Slot(wd: int, path: string)

  const EMPTY: Slot := Slot(-1, "")

  predicate Used(s: Slot) {
    s.wd >= 0
  }

  /** The monitored directories, each with its i-node, and the kernel's watches. */
  datatype Fs = Fs(dirs: map<string, nat>, watch: map<nat, int>)

  function Join(dir: string, name: string): string {
    dir + "/" + name
  }

  /** The path is the directory or lies below it: strncmp over the directory's length, and then '/' or the end. */
  predicate Under(dir: string, path: string) {
    |dir| <= |path| && path[..|dir|] == dir && (|path| == |dir| || path[|dir|] == '/')
  }

  /** The same as a directory and its subdirectories are written: the path itself, or one that goes on with a
      slash and more. */
  lemma UnderMeans(dir: string, path: string)
    ensures Under(dir, path) <==> path == dir || dir + "/" <= path
    ensures dir + "/" <= path <==> exists rest :: path == Join(dir, rest)
  {
    if dir + "/" <= path {
      assert path == Join(dir, path[|dir| + 1..]);
      assert (dir + "/")[|dir|] == '/' && (dir + "/")[..|dir|] == dir;
    }
    if rest :| path == Join(dir, rest) {
      assert path == (dir + "/") + rest;
    }
    if Under(dir, path) && path != dir {
      assert path[..|dir| + 1] == dir + "/";
    }
  }

  // ---------------------------------------------------------------- agreement

  ghost predicate SlotTrue(s: Slot, fs: Fs) {
    s.path in fs.dirs && fs.dirs[s.path] in fs.watch && fs.watch[fs.dirs[s.path]] == s.wd
  }

  ghost predicate Cached(cache: seq<Slot>, path: string) {
    exists j :: 0 <= j < |cache| && Used(cache[j]) && cache[j].path == path
  }

  ghost predicate OneEach(cache: seq<Slot>) {
    forall i, j :: 0 <= i < j < |cache| && Used(cache[i]) && Used(cache[j]) ==> cache[i].wd != cache[j].wd
  }

  ghost predicate Tidy(cache: seq<Slot>) {
    forall j :: 0 <= j < |cache| ==> Used(cache[j]) || cache[j] == EMPTY
  }

  /** No two directories share an i-node, and no two watches a descriptor. */
  ghost predicate FsOk(fs: Fs) {
    && (forall p, q :: p in fs.dirs && q in fs.dirs && p != q ==> fs.dirs[p] != fs.dirs[q])
    && (forall a, b :: a in fs.watch && b in fs.watch && a != b ==> fs.watch[a] != fs.watch[b])
    && (forall a :: a in fs.watch ==> fs.watch[a] >= 0)
  }

  /** The cache is the tree: the used slots are exactly the pairs of a directory's watch and its
      path, no descriptor is there twice, and the kernel watches nothing else. */
  ghost predicate Agrees(cache: seq<Slot>, fs: Fs) {
    && FsOk(fs) && OneEach(cache) && Tidy(cache)
    && (forall j :: 0 <= j < |cache| && Used(cache[j]) ==> SlotTrue(cache[j], fs))
    && (forall p :: p in fs.dirs ==> Cached(cache, p))
    && (forall a :: a in fs.watch ==> a in fs.dirs.Values)
  }

  /** The cache as a set of pairs, and the same from the tree. */
  ghost function CachePairs(cache: seq<Slot>): set<(int, string)> {
    set j | 0 <= j < |cache| && Used(cache[j]) :: (cache[j].wd, cache[j].path)
  }

  ghost function TreePairs(fs: Fs): set<(int, string)> {
    set p | p in fs.dirs && fs.dirs[p] in fs.watch :: (fs.watch[fs.dirs[p]], p)
  }

  lemma AgreesMeans(cache: seq<Slot>, fs: Fs)
    requires Agrees(cache, fs)
    ensures CachePairs(cache) == TreePairs(fs)
    ensures forall p :: p in fs.dirs ==> fs.dirs[p] in fs.watch
    ensures forall i, j :: 0 <= i < j < |cache| && Used(cache[i]) && Used(cache[j]) ==>
              cache[i].wd != cache[j].wd && cache[i].path != cache[j].path
  {
    forall p | p in fs.dirs
      ensures fs.dirs[p] in fs.watch && (fs.watch[fs.dirs[p]], p) in CachePairs(cache)
    {
      var j :| 0 <= j < |cache| && Used(cache[j]) && cache[j].path == p;
      assert SlotTrue(cache[j], fs);
    }
    forall i, j | 0 <= i < j < |cache| && Used(cache[i]) && Used(cache[j])
      ensures cache[i].path != cache[j].path
    {
      assert SlotTrue(cache[i], fs) && SlotTrue(cache[j], fs);
    }
  }

  /** In an agreeing cache a directory's watch descriptor is found with its path. */
  lemma WatchedSlot(cache: seq<Slot>, fs: Fs, p: string, j: nat)
    requires Agrees(cache, fs) && p in fs.dirs && fs.dirs[p] in fs.watch
    requires j < |cache| && cache[j].wd == fs.watch[fs.dirs[p]]
    ensures cache[j].path == p
  {
    assert SlotTrue(cache[j], fs);
  }

  lemma WatchedFound(cache: seq<Slot>, fs: Fs, p: string)
    requires Agrees(cache, fs) && p in fs.dirs
    ensures fs.dirs[p] in fs.watch && fs.watch[fs.dirs[p]] >= 0
    ensures exists j :: 0 <= j < |cache| && cache[j] == Slot(fs.watch[fs.dirs[p]], p)
  {
    var j :| 0 <= j < |cache| && Used(cache[j]) && cache[j].path == p;
    assert SlotTrue(cache[j], fs);
    assert cache[j] == Slot(fs.watch[fs.dirs[p]], p);
  }

  // ---------------------------------------------------------------- the cache operations

  /** rewriteCachedPaths. */
  function Moved(s: Slot, from: string, to: string): Slot {
    if Under(from, s.path) then Slot(s.wd, to + s.path[|from|..]) else s
  }

  function Rewritten(cache: seq<Slot>, from: string, to: string): seq<Slot> {
    seq(|cache|, j requires 0 <= j < |cache| => Moved(cache[j], from, to))
  }

  /** zapSubtree. */
  function Zapped(s: Slot, path: string): Slot {
    if Used(s) && Under(path, s.path) then EMPTY else s
  }

  function ZappedAll(cache: seq<Slot>, path: string): seq<Slot> {
    seq(|cache|, j requires 0 <= j < |cache| => Zapped(cache[j], path))
  }

  /** The descriptors of the first n slots that lie under the path. */
  function ZapWds(cache: seq<Slot>, path: string, n: nat): set<int>
    requires n <= |cache|
  {
    set j | 0 <= j < n && Used(cache[j]) && Under(path, cache[j].path) :: cache[j].wd
  }

  function Unwatched(watch: map<nat, int>, wds: set<int>): map<nat, int> {
    map a | a in watch && watch[a] !in wds :: watch[a]
  }

  // ---------------------------------------------------------------- what happens to the tree

  datatype Change =
    | Mkdir(dir: string, name: string, ino: nat)
    | MoveIn(dir: string, name: string, sub: map<string, nat>)
    | Rmdir(path: string)
    | Unmount(path: string)
    | Rename(dir: string, name: string, toDir: string, toName: string)
    | MoveOut(dir: string, name: string)
    | RootMoved(path: string)

  function Without(dirs: map<string, nat>, path: string): map<string, nat> {
    map p | p in dirs && !Under(path, p) :: dirs[p]
  }

  ghost function Within(dirs: map<string, nat>, path: string): map<string, nat> {
    map p | p in dirs && Under(path, p) :: dirs[p]
  }

  function NewPath(p: string, from: string, to: string): string {
    if Under(from, p) then to + p[|from|..] else p
  }

  /** What a rename makes of a path, in writing. */
  lemma NewPathMeans(p: string, from: string, to: string)
    ensures NewPath(from, from, to) == to
    ensures forall rest :: p == Join(from, rest) ==> NewPath(p, from, to) == Join(to, rest)
    ensures p != from && !(from + "/" <= p) ==> NewPath(p, from, to) == p
  {
    UnderMeans(from, from);
    UnderMeans(from, p);
    assert to + from[|from|..] == to;
    forall rest | p == Join(from, rest)
      ensures NewPath(p, from, to) == Join(to, rest)
    {
      assert p == (from + "/") + rest;
      assert p[|from|..] == "/" + rest;
      assert to + ("/" + rest) == Join(to, rest);
    }
  }

  /** Two paths never become one: nothing lies at or under the new name. */
  predicate NameFree(dirs: map<string, nat>, path: string) {
    forall p :: p in dirs ==> !Under(path, p)
  }

  lemma NewPathApart(dirs: map<string, nat>, from: string, to: string, p: string, q: string)
    requires NameFree(dirs, to) && p in dirs && q in dirs && NewPath(p, from, to) == NewPath(q, from, to)
    ensures p == q
  {
    if Under(from, p) && Under(from, q) {
      assert p == from + p[|from|..] && q == from + q[|from|..];
      assert NewPath(p, from, to)[|to|..] == p[|from|..] && NewPath(q, from, to)[|to|..] == q[|from|..];
    } else if Under(from, p) {
      UnderMoved(p, from, to);
    } else if Under(from, q) {
      UnderMoved(q, from, to);
    }
  }

  lemma UnderMoved(p: string, from: string, to: string)
    requires Under(from, p)
    ensures Under(to, NewPath(p, from, to))
  {
    var n := NewPath(p, from, to);
    assert n[..|to|] == to;
    if |p| > |from| {
      assert n[|to|] == p[|from|];
    }
  }

  /** The directories after a rename: each keeps its i-node. */
  function Renamed(dirs: map<string, nat>, from: string, to: string): map<string, nat>
    requires NameFree(dirs, to)
  {
    assert forall p, q :: p in dirs && q in dirs && NewPath(p, from, to) == NewPath(q, from, to) ==> p == q by {
      forall p, q | p in dirs && q in dirs && NewPath(p, from, to) == NewPath(q, from, to)
        ensures p == q
      {
        NewPathApart(dirs, from, to, p, q);
      }
    }
    map p | p in dirs :: NewPath(p, from, to) := dirs[p]
  }

  predicate Fresh(fs: Fs, ino: nat) {
    ino !in fs.watch && ino !in fs.dirs.Values
  }

  /** What the kernel lets happen, and what is left out: a rename onto an existing directory. */
  predicate Legal(fs: Fs, ch: Change) {
    match ch
    case Mkdir(dir, name, ino) => dir in fs.dirs && NameFree(fs.dirs, Join(dir, name)) && Fresh(fs, ino)
    case MoveIn(dir, name, sub) =>
      && dir in fs.dirs && NameFree(fs.dirs, Join(dir, name))
      && Join(dir, name) in sub
      && (forall p :: p in sub ==> Under(Join(dir, name), p) && Fresh(fs, sub[p]))
      && (forall p, q :: p in sub && q in sub && p != q ==> sub[p] != sub[q])
    case Rmdir(path) => path in fs.dirs && (forall p :: p in fs.dirs && Under(path, p) ==> p == path)
    case Unmount(path) => path in fs.dirs
    case Rename(dir, name, toDir, toName) =>
      && dir in fs.dirs && toDir in fs.dirs && Join(dir, name) in fs.dirs
      && NameFree(fs.dirs, Join(toDir, toName)) && !Under(Join(dir, name), toDir)
    case MoveOut(dir, name) => dir in fs.dirs && Join(dir, name) in fs.dirs
    case RootMoved(path) => path in fs.dirs
  }

  /** The tree and the kernel's watches afterwards: rmdir drops the watch, a move keeps it. */
  function After(fs: Fs, ch: Change): Fs
    requires Legal(fs, ch)
  {
    match ch
    case Mkdir(dir, name, ino) => fs.(dirs := fs.dirs[Join(dir, name) := ino])
    case MoveIn(_, _, sub) => fs.(dirs := fs.dirs + sub)
    case Rmdir(path) => Fs(fs.dirs - {path}, fs.watch - {fs.dirs[path]})
    case Unmount(path) => Fs(fs.dirs - {path}, fs.watch - {fs.dirs[path]})
    case Rename(dir, name, toDir, toName) => fs.(dirs := Renamed(fs.dirs, Join(dir, name), Join(toDir, toName)))
    case MoveOut(dir, name) => fs.(dirs := Without(fs.dirs, Join(dir, name)))
    case RootMoved(path) => fs.(dirs := Without(fs.dirs, path))
  }

  /** When a change can happen, and what it does to the tree, path by path. */
  lemma ChangeMeans(fs: Fs, ch: Change)
    ensures ch.Rmdir? ==> (Legal(fs, ch) <==> ch.path in fs.dirs && forall p :: p in fs.dirs ==> !(ch.path + "/" <= p))
    ensures ch.Rename? ==>
              var from, to := ch.dir + "/" + ch.name, ch.toDir + "/" + ch.toName;
              (Legal(fs, ch) <==>
                && ch.dir in fs.dirs && from in fs.dirs && ch.toDir in fs.dirs
                && ch.toDir != from && !(from + "/" <= ch.toDir)
                && forall p :: p in fs.dirs ==> p != to && !(to + "/" <= p))
    ensures ch.Mkdir? ==>
              var path := ch.dir + "/" + ch.name;
              (Legal(fs, ch) <==>
                && ch.dir in fs.dirs && ch.ino !in fs.watch && ch.ino !in fs.dirs.Values
                && forall p :: p in fs.dirs ==> p != path && !(path + "/" <= p))
    ensures Legal(fs, ch) && ch.Mkdir? ==> After(fs, ch) == Fs(fs.dirs[ch.dir + "/" + ch.name := ch.ino], fs.watch)
    ensures Legal(fs, ch) && (ch.MoveOut? || ch.RootMoved?) ==>
              var path := if ch.MoveOut? then ch.dir + "/" + ch.name else ch.path;
              && After(fs, ch).watch == fs.watch
              && (forall p :: p in After(fs, ch).dirs <==> p in fs.dirs && p != path && !(path + "/" <= p))
              && (forall p :: p in After(fs, ch).dirs ==> After(fs, ch).dirs[p] == fs.dirs[p])
    ensures Legal(fs, ch) && ch.MoveIn? ==>
              && After(fs, ch) == Fs(fs.dirs + ch.sub, fs.watch)
              && forall p :: p in ch.sub ==> p == ch.dir + "/" + ch.name || ch.dir + "/" + ch.name + "/" <= p
  {
    hide Under, Renamed;
    var path := if ch.Rmdir? || ch.Unmount? || ch.RootMoved? then ch.path else Join(ch.dir, ch.name);
    forall p
      ensures Under(path, p) <==> p == path || path + "/" <= p
    {
      UnderMeans(path, p);
    }
    forall p | ch.Rename?
      ensures Under(Join(ch.toDir, ch.toName), p) <==>
              p == Join(ch.toDir, ch.toName) || Join(ch.toDir, ch.toName) + "/" <= p
    {
      UnderMeans(Join(ch.toDir, ch.toName), p);
    }
    assert !(path + "/" <= path);
  }

  // ---------------------------------------------------------------- agreement restored

  /** A new slot for a directory that had none. */
  lemma AddAgrees(cache: seq<Slot>, fs: Fs, slot: nat, path: string, ino: nat, wd: int)
    requires Agrees(cache, fs) && slot < |cache| && !Used(cache[slot])
    requires path !in fs.dirs && Fresh(fs, ino) && wd >= 0 && wd !in fs.watch.Values
    ensures Agrees(cache[slot := Slot(wd, path)], Fs(fs.dirs[path := ino], fs.watch[ino := wd]))
  {
    var cache', fs' := cache[slot := Slot(wd, path)], Fs(fs.dirs[path := ino], fs.watch[ino := wd]);
    forall j | 0 <= j < |cache'| && Used(cache'[j])
      ensures SlotTrue(cache'[j], fs') && (j != slot ==> cache'[j].wd != wd)
    {
      if j != slot {
        assert SlotTrue(cache[j], fs);
      }
    }
    forall p | p in fs'.dirs
      ensures Cached(cache', p)
    {
      if p == path {
        assert Used(cache'[slot]) && cache'[slot].path == p;
      } else {
        var j :| 0 <= j < |cache| && Used(cache[j]) && cache[j].path == p;
        assert Used(cache'[j]) && cache'[j].path == p;
      }
    }
    forall a | a in fs'.watch
      ensures a in fs'.dirs.Values
    {
      if a == ino {
        assert fs'.dirs[path] == ino;
      } else {
        var p :| p in fs.dirs && fs.dirs[p] == a;
        assert fs'.dirs[p] == a;
      }
    }
  }

  /** More unused slots. */
  lemma GrowAgrees(cache: seq<Slot>, fs: Fs, n: nat)
    requires Agrees(cache, fs)
    ensures Agrees(cache + seq(n, _ => EMPTY), fs)
  {
    var cache' := cache + seq(n, _ => EMPTY);
    forall p | p in fs.dirs
      ensures Cached(cache', p)
    {
      var j :| 0 <= j < |cache| && Used(cache[j]) && cache[j].path == p;
      assert Used(cache'[j]) && cache'[j].path == p;
    }
  }

  /** Emptying the slots of some directories, and dropping their watches. */
  lemma DropAgrees(cache: seq<Slot>, cache': seq<Slot>, fs: Fs, fs': Fs)
    requires Agrees(cache, fs) && |cache'| == |cache|
    requires forall p :: p in fs'.dirs ==> p in fs.dirs && fs'.dirs[p] == fs.dirs[p]
    requires forall a :: a in fs'.watch <==> a in fs.watch && a in fs'.dirs.Values
    requires forall a :: a in fs'.watch ==> fs'.watch[a] == fs.watch[a]
    requires forall j :: 0 <= j < |cache| ==>
               cache'[j] == if Used(cache[j]) && cache[j].path !in fs'.dirs then EMPTY else cache[j]
    ensures Agrees(cache', fs')
  {
    forall j | 0 <= j < |cache'| && Used(cache'[j])
      ensures SlotTrue(cache'[j], fs')
    {
      assert SlotTrue(cache[j], fs);
      assert fs'.dirs[cache[j].path] in fs'.dirs.Values;
    }
    forall p | p in fs'.dirs
      ensures Cached(cache', p)
    {
      var j :| 0 <= j < |cache| && Used(cache[j]) && cache[j].path == p;
      assert Used(cache'[j]) && cache'[j].path == p;
    }
  }

  /** One directory gone, and its watch with it. */
  lemma RmdirAgrees(cache: seq<Slot>, fs: Fs, path: string, slot: nat)
    requires Agrees(cache, fs) && path in fs.dirs
    requires fs.dirs[path] in fs.watch && slot < |cache| && cache[slot].wd == fs.watch[fs.dirs[path]]
    ensures Agrees(cache[slot := EMPTY], Fs(fs.dirs - {path}, fs.watch - {fs.dirs[path]}))
  {
    var fs' := Fs(fs.dirs - {path}, fs.watch - {fs.dirs[path]});
    WatchedSlot(cache, fs, path, slot);
    forall j | 0 <= j < |cache| && j != slot && Used(cache[j])
      ensures cache[j].path in fs'.dirs
    {
      assert SlotTrue(cache[j], fs);
    }
    forall a | a in fs.watch
      ensures a in fs'.watch <==> a in fs'.dirs.Values
    {
      var p :| p in fs.dirs && fs.dirs[p] == a;
      if p != path { assert fs'.dirs[p] == a; }
    }
    DropAgrees(cache, cache[slot := EMPTY], fs, fs');
  }

  /** A subtree zapped from an agreeing cache: no watch outside it goes. */
  lemma ZapAgrees(cache: seq<Slot>, fs: Fs, path: string)
    requires Agrees(cache, fs)
    ensures Agrees(ZappedAll(cache, path),
                   Fs(Without(fs.dirs, path), Unwatched(fs.watch, ZapWds(cache, path, |cache|))))
  {
    var fs' := Fs(Without(fs.dirs, path), Unwatched(fs.watch, ZapWds(cache, path, |cache|)));
    forall j | 0 <= j < |cache| && Used(cache[j])
      ensures cache[j].path in fs'.dirs <==> !Under(path, cache[j].path)
    {
      assert SlotTrue(cache[j], fs);
    }
    forall a | a in fs.watch
      ensures a in fs'.watch <==> a in fs'.dirs.Values
    {
      var p :| p in fs.dirs && fs.dirs[p] == a;
      WatchedFound(cache, fs, p);
      var j :| 0 <= j < |cache| && cache[j] == Slot(fs.watch[fs.dirs[p]], p);
      if Under(path, p) {
        assert cache[j].wd in ZapWds(cache, path, |cache|);
      } else {
        ZapSpares(cache, fs, path, j);
        assert fs'.dirs[p] == a;
      }
    }
    DropAgrees(cache, ZappedAll(cache, path), fs, fs');
  }

  lemma ZapSpares(cache: seq<Slot>, fs: Fs, path: string, j: nat)
    requires Agrees(cache, fs) && j < |cache| && Used(cache[j]) && !Under(path, cache[j].path)
    ensures cache[j].wd !in ZapWds(cache, path, |cache|)
  {
  }

  lemma RewriteSlot(cache: seq<Slot>, fs: Fs, from: string, to: string, j: nat)
    requires Agrees(cache, fs) && NameFree(fs.dirs, to) && from != "" && j < |cache|
    ensures var s' := Moved(cache[j], from, to);
            && s'.wd == cache[j].wd
            && (Used(s') ==> SlotTrue(s', fs.(dirs := Renamed(fs.dirs, from, to)))) && (Used(s') || s' == EMPTY)
  {
    hide Renamed, OneEach, FsOk, NameFree, Cached;
    if Used(cache[j]) {
      assert SlotTrue(cache[j], fs);
      RenamedAt(fs.dirs, from, to, cache[j].path);
    }
  }

  lemma RewriteCached(cache: seq<Slot>, fs: Fs, from: string, to: string, q: string)
    requires Agrees(cache, fs) && NameFree(fs.dirs, to) && q in Renamed(fs.dirs, from, to)
    ensures Cached(Rewritten(cache, from, to), q)
  {
    hide OneEach, FsOk, NameFree, SlotTrue, Under;
    var p :| p in fs.dirs && NewPath(p, from, to) == q;
    var j :| 0 <= j < |cache| && Used(cache[j]) && cache[j].path == p;
    var s := Rewritten(cache, from, to)[j];
    assert Used(s) && s.path == q;
  }

  /** Every path of an agreeing cache moves as its directory does. */
  lemma RewriteAgrees(cache: seq<Slot>, fs: Fs, from: string, to: string)
    requires Agrees(cache, fs) && NameFree(fs.dirs, to) && from != ""
    ensures Agrees(Rewritten(cache, from, to), fs.(dirs := Renamed(fs.dirs, from, to)))
  {
    hide Renamed, NameFree, SlotTrue, Cached, Moved;
    var cache', fs' := Rewritten(cache, from, to), fs.(dirs := Renamed(fs.dirs, from, to));
    forall j | 0 <= j < |cache'|
      ensures cache'[j].wd == cache[j].wd
      ensures (Used(cache'[j]) ==> SlotTrue(cache'[j], fs')) && (Used(cache'[j]) || cache'[j] == EMPTY)
    {
      RewriteSlot(cache, fs, from, to, j);
    }
    forall q | q in fs'.dirs
      ensures Cached(cache', q)
    {
      RewriteCached(cache, fs, from, to, q);
    }
    forall a | a in fs'.watch
      ensures a in fs'.dirs.Values
    {
      var p :| p in fs.dirs && fs.dirs[p] == a;
      RenamedAt(fs.dirs, from, to, p);
    }
    RenamedInjective(fs.dirs, from, to);
  }

  lemma RenamedAt(dirs: map<string, nat>, from: string, to: string, p: string)
    requires NameFree(dirs, to) && p in dirs
    ensures NewPath(p, from, to) in Renamed(dirs, from, to) && Renamed(dirs, from, to)[NewPath(p, from, to)] == dirs[p]
  {
    var q := NewPath(p, from, to);
    assert q in Renamed(dirs, from, to);
    forall r | r in dirs && NewPath(r, from, to) == q
      ensures r == p
    {
      NewPathApart(dirs, from, to, p, r);
    }
  }

  /** A rename is a move out and a move in: what it moves lies at or under the new name, and nothing else does. */
  lemma RenameSplits(dirs: map<string, nat>, from: string, to: string)
    requires NameFree(dirs, to)
    ensures var kept, moved := Without(dirs, from), Within(Renamed(dirs, from, to), to);
            && kept.Keys !! moved.Keys && Renamed(dirs, from, to) == kept + moved && (from in dirs ==> to in moved)
            && forall q :: q in moved ==> exists p :: p in dirs && Under(from, p) && dirs[p] == moved[q]
  {
    hide Renamed, Under;
    var now, kept, moved := Renamed(dirs, from, to), Without(dirs, from), Within(Renamed(dirs, from, to), to);
    forall p | p in dirs
      ensures if Under(from, p) then NewPath(p, from, to) in moved && moved[NewPath(p, from, to)] == dirs[p]
              else p in now && now[p] == dirs[p] && p !in moved
    {
      RenamedAt(dirs, from, to, p);
      if Under(from, p) {
        UnderMoved(p, from, to);
      }
    }
    forall q | q in now
      ensures if q in moved then exists p :: p in dirs && Under(from, p) && dirs[p] == moved[q]
              else q in kept && kept[q] == now[q]
    {
      RenamedFrom(dirs, from, to, q);
    }
    if from in dirs {
      UnderItself(from);
      assert NewPath(from, from, to) == to;
    }
    assert now == kept + moved;
  }

  lemma UnderItself(path: string)
    ensures Under(path, path) && path[|path|..] == ""
  {
  }

  lemma RenamedFrom(dirs: map<string, nat>, from: string, to: string, q: string)
    requires NameFree(dirs, to) && q in Renamed(dirs, from, to)
    ensures exists p :: p in dirs && NewPath(p, from, to) == q
  {
  }

  /** A rename, directory by directory. */
  lemma RenamedMeans(dirs: map<string, nat>, from: string, to: string)
    requires NameFree(dirs, to)
    ensures var now := Renamed(dirs, from, to);
            && |now| == |dirs|
            && (from in dirs ==> to in now && now[to] == dirs[from])
            && (forall rest :: Join(from, rest) in dirs ==>
                  Join(to, rest) in now && now[Join(to, rest)] == dirs[Join(from, rest)])
            && (forall p :: p in dirs && p != from && !(from + "/" <= p) ==> p in now && now[p] == dirs[p])
            && (forall q :: q in now ==>
                  || (q == to && from in dirs) || (exists rest :: q == Join(to, rest) && Join(from, rest) in dirs)
                  || (q in dirs && q != from && !(from + "/" <= q)))
  {
    hide Renamed, NameFree, Under;
    var now := Renamed(dirs, from, to);
    forall p | p in dirs
      ensures NewPath(p, from, to) in now && now[NewPath(p, from, to)] == dirs[p]
      ensures p == from ==> NewPath(p, from, to) == to
      ensures forall rest :: p == Join(from, rest) ==> NewPath(p, from, to) == Join(to, rest)
      ensures p != from && !(from + "/" <= p) ==> NewPath(p, from, to) == p
    {
      RenamedAt(dirs, from, to, p);
      NewPathMeans(p, from, to);
    }
    forall q | q in now
      ensures || (q == to && from in dirs) || (exists rest :: q == Join(to, rest) && Join(from, rest) in dirs)
              || (q in dirs && q != from && !(from + "/" <= q))
    {
      RenamedFrom(dirs, from, to, q);
      var p :| p in dirs && NewPath(p, from, to) == q;
      UnderMeans(from, p);
      if from + "/" <= p {
        var rest :| p == Join(from, rest);
        assert q == Join(to, rest);
      }
    }
    RenamedSize(dirs, from, to);
  }

  /** A rename loses no directory. */
  lemma {:induction false} RenamedSize(dirs: map<string, nat>, from: string, to: string)
    requires NameFree(dirs, to)
    ensures |Renamed(dirs, from, to)| == |dirs|
    decreases |dirs|
  {
    hide Under, NewPath;
    if dirs != map[] {
      var p :| p in dirs;
      var less := dirs - {p};
      assert NameFree(less, to);
      RenamedSize(less, from, to);
      var q := NewPath(p, from, to);
      RenamedAt(dirs, from, to, p);
      forall r
        ensures r in Renamed(less, from, to) <==> r in Renamed(dirs, from, to) && r != q
      {
        if r in Renamed(less, from, to) && r == q {
          var p' :| p' in less && NewPath(p', from, to) == q;
          NewPathApart(dirs, from, to, p, p');
        }
      }
      assert Renamed(less, from, to).Keys == Renamed(dirs, from, to).Keys - {q};
    }
  }

  lemma RenamedInjective(dirs: map<string, nat>, from: string, to: string)
    requires NameFree(dirs, to)
    requires forall p, q :: p in dirs && q in dirs && p != q ==> dirs[p] != dirs[q]
    ensures var d := Renamed(dirs, from, to); forall p, q :: p in d && q in d && p != q ==> d[p] != d[q]
  {
    var d := Renamed(dirs, from, to);
    forall p, q | p in d && q in d && p != q
      ensures d[p] != d[q]
    {
      var a :| a in dirs && NewPath(a, from, to) == p;
      var b :| b in dirs && NewPath(b, from, to) == q;
      RenamedAt(dirs, from, to, a);
      RenamedAt(dirs, from, to, b);
    }
  }

  /** A sibling whose name only starts the same is neither rewritten nor zapped. */
  lemma SiblingSpared(dir: string, name: string, tail: string, s: Slot, to: string)
    requires tail != "" && tail[0] != '/' && s.path == Join(dir, name + tail)
    ensures Moved(s, Join(dir, name), to) == s && Zapped(s, Join(dir, name)) == s
  {
    assert s.path == Join(dir, name) + tail;
  }
}
