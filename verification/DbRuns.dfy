/** Whole runs of the database library against a plain map, and what the bytes of the
    two files alone determine. */
module DbRuns {
  import opened DbFormat
  import opened DbLists
  import opened DbFile
  import opened DbState
  import opened DbLibrary

  datatype Op =
    | FetchOp(key: string)
    | DeleteOp(key: string)
    | StoreOp(key: string, data: string, flag: int)

  datatype Res = Value(v: Fetched) | Code(rc: int)

  type Contents = map<string, string>

  function Apply(m: Contents, op: Op): (Res, Contents) {
    match op
    case FetchOp(key) => (Value(FetchSpec(m, key)), m)
    case DeleteOp(key) => var (rc, m') := DeleteSpec(m, key); (Code(rc), m')
    case StoreOp(key, data, flag) => var (rc, m') := StoreSpec(m, key, data, flag); (Code(rc), m')
  }

  /** What a plain map answers to the operations in turn. */
  function Replay(m: Contents, ops: seq<Op>): (r: (seq<Res>, Contents))
    ensures |r.0| == |ops|
  {
    if ops == [] then ([], m)
    else
      var (rs, m1) := Replay(m, ops[..|ops| - 1]);
      var (r, m2) := Apply(m1, ops[|ops| - 1]);
      (rs + [r], m2)
  }

  /** What an operation answers and leaves, said of the map: a value or nothing; 0 or -1; and of a store with the
      flags 1 to insert, 2 to replace and 3 for either, 1 if the key is there already, -1 if it is not there. */
  ghost predicate Answers(m: Contents, op: Op, r: Res, m': Contents) {
    match op
    case FetchOp(key) => m' == m && r == Value(if key in m then Text(m[key]) else Null)
    case DeleteOp(key) =>
      r == Code(if key in m then 0 else -1) && key !in m' && forall k :: k != key ==> SameAt(m, m', k)
    case StoreOp(key, data, flag) =>
      if flag !in {1, 2, 3} || (flag == 2 && key !in m) then r == Code(-1) && m' == m
      else if flag == 1 && key in m then r == Code(1) && m' == m
      else r == Code(0) && key in m' && m'[key] == data && forall k :: k != key ==> SameAt(m, m', k)
  }

  ghost predicate SameAt(m: Contents, m': Contents, k: string) {
    (k in m <==> k in m') && (k in m ==> m'[k] == m[k])
  }

  lemma ApplyMeans(m: Contents, op: Op)
    ensures Answers(m, op, Apply(m, op).0, Apply(m, op).1)
    ensures forall r, m' :: Answers(m, op, r, m') ==> (r, m') == Apply(m, op)
  {
    forall r, m' | Answers(m, op, r, m')
      ensures (r, m') == Apply(m, op)
    {
      var m2 := Apply(m, op).1;
      forall k
        ensures k in m2 <==> k in m'
        ensures k in m2 ==> m'[k] == m2[k]
      {
        assert k != op.key ==> SameAt(m, m', k) || m' == m;
      }
      assert m' == m2;
    }
  }

  /** The contents after the first k operations. */
  ghost function After(ops: seq<Op>, k: nat): Contents
    requires k <= |ops|
  {
    Replay(map[], ops[..k]).1
  }

  lemma {:induction false} ReplayMeans(ops: seq<Op>, n: nat)
    requires n <= |ops|
    ensures After(ops, 0) == map[]
    ensures forall k :: 0 <= k < n ==> Answers(After(ops, k), ops[k], Replay(map[], ops[..n]).0[k], After(ops, k + 1))
  {
    hide Answers;
    if n > 0 {
      ReplayMeans(ops, n - 1);
      assert ops[..n][..n - 1] == ops[..n - 1];
      ApplyMeans(After(ops, n - 1), ops[n - 1]);
    }
  }

  predicate OpOk(op: Op) {
    op.StoreOp? ==> KeyText(op.key) && CText(op.data)
  }

  /** Any sequence of operations on a new database, up to the one that kills the process
      if any does, is answered as a plain map would answer it, and the files end up
      holding that map. */
  method Run(ops: seq<Op>) returns (db: Db, rs: seq<Res>, died: bool)
    requires forall i :: 0 <= i < |ops| ==> OpOk(ops[i])
    ensures |rs| <= |ops| && (died <==> |rs| < |ops|)
    ensures rs == Replay(map[], ops[..|rs|]).0
    ensures After(ops, 0) == map[]
    ensures forall k :: 0 <= k < |rs| ==> Answers(After(ops, k), ops[k], rs[k], After(ops, k + 1))
    ensures !died ==> db.Valid() && db.m == Replay(map[], ops).1
  {
    hide Sound, Answers;
    db := new Db();
    rs, died := [], false;
    var i := 0;
    while i < |ops|
      invariant 0 <= i <= |ops| && |rs| == i && !died
      invariant db.Valid() && fresh(db)
      invariant (rs, db.m) == Replay(map[], ops[..i])
    {
      assert ops[..i + 1][..i] == ops[..i];
      assert OpOk(ops[i]);
      var r;
      r, died := Perform(db, ops[i]);
      if died {
        ReplayMeans(ops, i);
        return;
      }
      rs := rs + [r];
      i := i + 1;
    }
    assert ops[..|ops|] == ops;
    ReplayMeans(ops, |ops|);
  }

  method Perform(db: Db, op: Op) returns (r: Res, died: bool)
    requires db.Valid() && OpOk(op)
    modifies db
    ensures !died ==> db.Valid() && (r, db.m) == Apply(old(db.m), op) && Answers(old(db.m), op, r, db.m)
    ensures died == (op.StoreOp? && ValidFlag(op.flag) &&
      (!LengthOk(op.data)
       || (old(Appends(db.im, db.ls, db.m, op.key, op.data, op.flag))
           && !AppendFits(op.key, op.data, |old(db.idx)|, |old(db.dat)|))))
  {
    hide Sound, Appends, AppendFits, Holds, ListsOk, Means, Answers;
    ApplyMeans(db.m, op);
    r, died := Code(0), false;
    match op {
      case FetchOp(key) =>
        var v := db.Fetch(key);
        r := Value(v);
      case DeleteOp(key) =>
        var rc := db.Delete(key);
        r := Code(rc);
      case StoreOp(key, data, flag) =>
        var out := db.Store(key, data, flag);
        match out {
          case Died => died := true;
          case Returned(rc) => r := Code(rc);
        }
    }
  }

  // ---------------------------------------------------------------- two surprises

  lemma BodySize(key: string, datoff: nat, datlen: nat)
    ensures datoff < 10 && datlen < 10 ==> |Body(Info(key, datoff, datlen))| == |key| + 5
    ensures datlen >= 100 ==> |Body(Info(key, datoff, datlen))| >= |key| + 7
  {
    if datlen >= 100 {
      assert |Dec(datlen)| == |Dec(datlen / 10)| + 1 && |Dec(datlen / 10)| == |Dec(datlen / 10 / 10)| + 1;
    }
  }

  /** A key of 1019 characters can be stored with one character of data. */
  method LongKeyFits(key: string) returns (db: Db)
    requires KeyText(key) && |key| == 1019
    ensures db.Valid() && db.m == map[key := "a"] && fresh(db)
  {
    hide Sound, Body, Dec, KeyText;
    db := new Db();
    BodySize(key, 0, 2);
    var r := db.Store(key, "a", DB_STORE);
  }

  /** Storing such a key again with data of another length, 99 characters or more, deletes the record that is
      there, and then ends the process. */
  method StoreLosesOld(db: Db, key: string, data: string) returns (r: Outcome)
    requires db.Valid() && KeyText(key) && |key| == 1019 && key in db.m
    requires CText(data) && 99 <= |data| < 1024 && |data| != |db.m[key]|
    modifies db
    ensures r.Died? && db.Survives() && db.m == old(db.m) - {key}
  {
    hide Sound, Body, Dec, KeyText;
    BodySize(key, |db.dat|, |data| + 1);
    r := db.Store(key, data, DB_STORE);
  }

  /** A live record whose key is all blanks is not in the scan. */
  method ScanMissesBlank(key: string) returns (db: Db, es: seq<Entry>)
    requires Blank(key) && 1 <= |key| <= 1019
    ensures db.Valid() && db.m == map[key := "a"] && forall e :: e !in es
  {
    hide Sound, Body, Dec;
    db := new Db();
    BodySize(key, 0, 2);
    var r := db.Store(key, "a", DB_STORE);
    es := ScanAll(db);
  }

  // ---------------------------------------------------------------- what the bytes determine

  lemma {:induction false} SameOrder(idx: string, a: Image, b: Image, n: nat)
    requires Holds(idx, a) && Holds(idx, b) && n <= |a.order|
    ensures n <= |b.order| && a.order[..n] == b.order[..n]
    ensures StartOf(a, |idx|, n) == StartOf(b, |idx|, n)
  {
    hide RecordAt, PtrAt, InfoOk, RecLen, Body, ParseIdx;
    if n > 0 {
      SameOrder(idx, a, b, n - 1);
      assert Fills(a, |idx|, n - 1);
      var o := a.order[n - 1];
      Bounds(a, |idx|, o);
      assert n - 1 < |b.order|;
      assert Fills(b, |idx|, n - 1);
      SameRecord(idx, a, b, o);
      assert a.order[..n] == a.order[..n - 1] + [o];
      assert b.order[..n] == b.order[..n - 1] + [o];
    }
  }

  lemma SameRecord(idx: string, a: Image, b: Image, o: nat)
    requires Holds(idx, a) && Holds(idx, b) && o in a.recs && o in b.recs
    ensures a.recs[o] == b.recs[o]
  {
    ReadIdxOk(idx, a, o);
    ReadIdxOk(idx, b, o);
  }

  lemma SamePointer(idx: string, a: Image, b: Image, loc: nat)
    requires Holds(idx, a) && Holds(idx, b) && loc in a.ptrs && loc in b.ptrs
    ensures a.ptrs[loc] == b.ptrs[loc]
  {
    ReadPtrOk(idx, a, loc);
    ReadPtrOk(idx, b, loc);
  }

  lemma SameMembers(idx: string, a: Image, b: Image)
    requires Holds(idx, a) && Holds(idx, b) && a.order == b.order
    ensures a.recs.Keys == b.recs.Keys && a.ptrs.Keys == b.ptrs.Keys
  {
    hide RecordAt, PtrAt, InfoOk, RecLen, Body;
    forall o
      ensures o in a.recs <==> o in b.recs
    {
      if o in a.recs {
        var i :| 0 <= i < |a.order| && a.order[i] == o;
        assert Fills(b, |idx|, i);
      }
      if o in b.recs {
        var i :| 0 <= i < |b.order| && b.order[i] == o;
        assert Fills(a, |idx|, i);
      }
    }
  }

  /** An index file has one reading. */
  lemma OneImage(idx: string, a: Image, b: Image)
    requires Holds(idx, a) && Holds(idx, b)
    ensures a == b
  {
    SameOrder(idx, a, b, |a.order|);
    SameOrder(idx, b, a, |b.order|);
    assert a.order == b.order;
    SameMembers(idx, a, b);
    hide Holds;
    forall o | o in a.recs
      ensures a.recs[o] == b.recs[o]
    {
      SameRecord(idx, a, b, o);
    }
    forall loc | loc in a.ptrs
      ensures a.ptrs[loc] == b.ptrs[loc]
    {
      SamePointer(idx, a, b, loc);
    }
  }

  lemma OneListing(im: Image, a: Lists, b: Lists)
    requires ListsOk(im, a, {}) && ListsOk(im, b, {})
    ensures a == b
  {
    hide Hash, Blank;
    ListUnique(im.ptrs, FREE_OFF, a.free, b.free);
    forall h | 0 <= h < NHASH
      ensures a.chains[h] == b.chains[h]
    {
      ListUnique(im.ptrs, HeadLoc(h), a.chains[h], b.chains[h]);
    }
  }

  lemma OneMeaning(im: Image, ls: Lists, dat: string,
                   at: map<string, nat>, at': map<string, nat>, m: Contents, m': Contents)
    requires Means(im, ls, {}, dat, at, m) && Means(im, ls, {}, dat, at', m')
    ensures m == m'
  {
    forall k | k in m
      ensures k in m' && m[k] == m'[k]
    {
      assert k in at && k in at' && at[k] == at'[k];
      assert HasValue(dat, im.recs[at[k]], m[k]) && HasValue(dat, im.recs[at[k]], m'[k]);
      assert (m[k] + "\n")[..|m[k]|] == m[k];
      assert (m'[k] + "\n")[..|m'[k]|] == m'[k];
    }
    forall k | k in m'
      ensures k in m
    {
      assert k in at';
    }
  }

  /** The bytes of the two files leave no choice: they stand for one map. */
  lemma FilesDetermineMap(idx: string, dat: string, im: Image, ls: Lists, at: map<string, nat>, m: Contents,
                          im': Image, ls': Lists, at': map<string, nat>, m': Contents)
    requires Sound(idx, dat, im, ls, at, m) && Sound(idx, dat, im', ls', at', m')
    ensures im == im' && ls == ls' && m == m'
  {
    hide Holds, ListsOk, Means, DataTiled;
    OneImage(idx, im, im');
    OneListing(im, ls, ls');
    OneMeaning(im, ls, dat, at, at', m, m');
  }
}
