/** What a sound database is: every record on exactly one list, every data extent
    owned by one record, and the live records spelling out a map from keys to values. */
module DbState {
  import opened DbFormat
  import opened DbLists
  import opened DbFile

  /** The members of the free list and of each hash chain, in list order. */
  datatype Lists = Lists(free: seq<nat>, chains: seq<seq<nat>>)

  predicate Blank(s: string) {
    forall i :: 0 <= i < |s| ==> s[i] == ' '
  }

  function Spaces(n: nat): (s: string)
    ensures |s| == n && Blank(s)
  {
    seq(n, i => ' ')
  }

  /** Outside the records in hand, each record is on the free list or on the chain of its
      key's hash, never on both; the lists are acyclic and hold nothing else. */
  ghost predicate ListsOk(im: Image, ls: Lists, hand: set<nat>) {
    && |ls.chains| == NHASH
    && IsList(im.ptrs, FREE_OFF, ls.free)
    && (forall h :: 0 <= h < NHASH ==> IsList(im.ptrs, HeadLoc(h), ls.chains[h]))
    && (forall o :: o in ls.free ==> o in im.recs && o !in hand && Blank(im.recs[o].key))
    && (forall h :: 0 <= h < NHASH ==> forall o :: o in ls.chains[h] ==>
          o in im.recs && o !in hand && o !in ls.free && Hash(im.recs[o].key) == h)
    && (forall o :: o in im.recs && o !in hand ==>
          o in ls.free || o in ls.chains[Hash(im.recs[o].key)])
  }

  lemma NotHead(im: Image, end: nat, o: nat, h: nat)
    requires Tiled(im, end) && o in im.recs && h < NHASH
    ensures HeadLoc(h) != o && o != FREE_OFF
  {
    Bounds(im, end, o);
  }

  /** A pointer on the chain of one hash is on no other chain and not on the free list. */
  lemma ChainLoc(im: Image, end: nat, ls: Lists, hand: set<nat>, h: nat, i: nat)
    requires Geometry(im, end) && ListsOk(im, ls, hand) && h < NHASH && i <= |ls.chains[h]|
    ensures var loc := Loc(HeadLoc(h), ls.chains[h], i);
            && loc in im.ptrs && loc != FREE_OFF && loc !in ls.free
            && forall h' :: 0 <= h' < NHASH && h' != h ==> loc != HeadLoc(h') && loc !in ls.chains[h']
  {
    var loc := Loc(HeadLoc(h), ls.chains[h], i);
    HeadLocs(h);
    if i == 0 {
      if loc in im.recs { NotHead(im, end, loc, h); }
    } else {
      assert ls.chains[h][i - 1] in ls.chains[h];
      forall h' | 0 <= h' < NHASH
        ensures loc != HeadLoc(h') && loc != FREE_OFF
      {
        NotHead(im, end, loc, h');
      }
    }
  }

  /** A pointer on the free list is on no chain. */
  lemma FreeLoc(im: Image, end: nat, ls: Lists, hand: set<nat>, i: nat)
    requires Geometry(im, end) && ListsOk(im, ls, hand) && i <= |ls.free|
    ensures var loc := Loc(FREE_OFF, ls.free, i);
            && loc in im.ptrs
            && forall h :: 0 <= h < NHASH ==> loc != HeadLoc(h) && loc !in ls.chains[h]
  {
    var loc := Loc(FREE_OFF, ls.free, i);
    if i > 0 { assert ls.free[i - 1] in ls.free; }
    forall h | 0 <= h < NHASH
      ensures loc != HeadLoc(h) && loc !in ls.chains[h]
    {
      if loc in im.recs { NotHead(im, end, loc, h); }
    }
  }

  // ---------------------------------------------------------------- list steps

  function Unchain(ls: Lists, h: nat, i: nat): Lists
    requires h < |ls.chains| && i < |ls.chains[h]|
  {
    ls.(chains := ls.chains[h := Without(ls.chains[h], i)])
  }

  /** Bypassing a record takes it off its chain and leaves every other list alone. */
  lemma UnchainOk(im: Image, end: nat, ls: Lists, hand: set<nat>, h: nat, i: nat)
    requires Geometry(im, end) && ListsOk(im, ls, hand) && h < NHASH && i < |ls.chains[h]|
    ensures ListsOk(SetPtr(im, Loc(HeadLoc(h), ls.chains[h], i), At(ls.chains[h], i + 1)),
                    Unchain(ls, h, i), hand + {ls.chains[h][i]})
  {
    var chain := ls.chains[h];
    var loc, o := Loc(HeadLoc(h), chain, i), chain[i];
    var im', ls', hand' := SetPtr(im, loc, At(chain, i + 1)), Unchain(ls, h, i), hand + {o};
    ListUnlink(im.ptrs, HeadLoc(h), chain, i);
    WithoutMembers(chain, i);
    ChainLoc(im, end, ls, hand, h, i);
    ListFrame(im.ptrs, im'.ptrs, FREE_OFF, ls.free);
    assert o in chain;
    forall h' | 0 <= h' < NHASH
      ensures IsList(im'.ptrs, HeadLoc(h'), ls'.chains[h'])
    {
      if h' != h {
        HeadLocs(h');
        ListFrame(im.ptrs, im'.ptrs, HeadLoc(h'), ls.chains[h']);
      }
    }
  }

  function Unfree(ls: Lists, i: nat): Lists
    requires i < |ls.free|
  {
    ls.(free := Without(ls.free, i))
  }

  /** _db_findfree's one write takes the record off the free list. */
  lemma UnfreeOk(im: Image, end: nat, ls: Lists, hand: set<nat>, i: nat)
    requires Geometry(im, end) && ListsOk(im, ls, hand) && i < |ls.free|
    ensures ListsOk(SetPtr(im, Loc(FREE_OFF, ls.free, i), At(ls.free, i + 1)),
                    Unfree(ls, i), hand + {ls.free[i]})
  {
    var loc, o := Loc(FREE_OFF, ls.free, i), ls.free[i];
    var im', ls', hand' := SetPtr(im, loc, At(ls.free, i + 1)), Unfree(ls, i), hand + {o};
    ListUnlink(im.ptrs, FREE_OFF, ls.free, i);
    WithoutMembers(ls.free, i);
    FreeLoc(im, end, ls, hand, i);
    assert o in ls.free;
    forall h | 0 <= h < NHASH
      ensures IsList(im'.ptrs, HeadLoc(h), ls'.chains[h])
    {
      HeadLocs(h);
      ListFrame(im.ptrs, im'.ptrs, HeadLoc(h), ls.chains[h]);
    }
  }

  /** Rewriting a record in hand disturbs no list. */
  lemma RewriteHand(im: Image, end: nat, ls: Lists, hand: set<nat>, o: nat, p: nat, r: Info)
    requires Geometry(im, end) && ListsOk(im, ls, hand) && o in hand && o in im.recs
    ensures ListsOk(SetRec(im, o, p, r), ls, hand)
  {
    var im' := SetRec(im, o, p, r);
    NotHead(im, end, o, 0);
    ListFrame(im.ptrs, im'.ptrs, FREE_OFF, ls.free);
    forall h | 0 <= h < NHASH
      ensures IsList(im'.ptrs, HeadLoc(h), ls.chains[h])
    {
      HeadLocs(h);
      NotHead(im, end, o, h);
      ListFrame(im.ptrs, im'.ptrs, HeadLoc(h), ls.chains[h]);
    }
  }

  /** A record appended to the file is in hand. */
  lemma AppendHand(im: Image, end: nat, ls: Lists, hand: set<nat>, p: nat, r: Info)
    requires Geometry(im, end) && ListsOk(im, ls, hand) && end !in im.ptrs
    ensures ListsOk(AddRec(im, end, p, r), ls, hand + {end})
  {
    var im' := AddRec(im, end, p, r);
    ListFrame(im.ptrs, im'.ptrs, FREE_OFF, ls.free);
    forall h | 0 <= h < NHASH
      ensures IsList(im'.ptrs, HeadLoc(h), ls.chains[h])
    {
      HeadLocs(h);
      ListFrame(im.ptrs, im'.ptrs, HeadLoc(h), ls.chains[h]);
    }
  }

  function Chain(ls: Lists, h: nat, o: nat): Lists
    requires h < |ls.chains|
  {
    ls.(chains := ls.chains[h := [o] + ls.chains[h]])
  }

  /** Pointing the hash table at a record in hand puts it at the front of its chain. */
  lemma ChainOk(im: Image, end: nat, ls: Lists, hand: set<nat>, h: nat, o: nat)
    requires Geometry(im, end) && ListsOk(im, ls, hand) && h < NHASH
    requires o in hand && o in im.recs && Hash(im.recs[o].key) == h
    requires HeadLoc(h) in im.ptrs && im.ptrs[o] == im.ptrs[HeadLoc(h)]
    ensures ListsOk(SetPtr(im, HeadLoc(h), o), Chain(ls, h, o), hand - {o})
  {
    var im', ls' := SetPtr(im, HeadLoc(h), o), Chain(ls, h, o);
    NotHead(im, end, o, h);
    ChainLoc(im, end, ls, hand, h, 0);
    ListPush(im.ptrs, HeadLoc(h), ls.chains[h], o);
    ListFrame(im.ptrs, im'.ptrs, FREE_OFF, ls.free);
    forall h' | 0 <= h' < NHASH
      ensures IsList(im'.ptrs, HeadLoc(h'), ls'.chains[h'])
    {
      if h' != h {
        HeadLocs(h');
        ListFrame(im.ptrs, im'.ptrs, HeadLoc(h'), ls.chains[h']);
      }
    }
  }

  function Release(ls: Lists, o: nat): Lists {
    ls.(free := [o] + ls.free)
  }

  /** Pointing the free list at a blank record in hand puts it at the front. */
  lemma ReleaseOk(im: Image, end: nat, ls: Lists, hand: set<nat>, o: nat)
    requires Geometry(im, end) && ListsOk(im, ls, hand)
    requires o in hand && o in im.recs && Blank(im.recs[o].key)
    requires im.ptrs[o] == im.ptrs[FREE_OFF]
    ensures ListsOk(SetPtr(im, FREE_OFF, o), Release(ls, o), hand - {o})
  {
    var im', ls' := SetPtr(im, FREE_OFF, o), Release(ls, o);
    NotHead(im, end, o, 0);
    FreeLoc(im, end, ls, hand, 0);
    ListPush(im.ptrs, FREE_OFF, ls.free, o);
    forall h | 0 <= h < NHASH
      ensures IsList(im'.ptrs, HeadLoc(h), ls'.chains[h])
    {
      HeadLocs(h);
      ListFrame(im.ptrs, im'.ptrs, HeadLoc(h), ls.chains[h]);
    }
  }

  // ---------------------------------------------------------------- the data file

  /** Where the data of record i starts; past the last one, where the data file ends. */
  ghost function DataStart(im: Image, dend: nat, i: nat): nat
    requires i < |im.order| ==> im.order[i] in im.recs
  {
    if i < |im.order| then im.recs[im.order[i]].datoff else dend
  }

  ghost predicate DataFills(im: Image, dend: nat, i: nat)
    requires i < |im.order|
  {
    && im.order[i] in im.recs
    && (i + 1 < |im.order| ==> im.order[i + 1] in im.recs)
    && DataStart(im, dend, i + 1) == DataStart(im, dend, i) + im.recs[im.order[i]].datlen
  }

  /** The data extents lie one after the other and fill the data file: none overlap,
      no byte is lost. */
  ghost predicate DataTiled(im: Image, dend: nat) {
    && (|im.order| > 0 ==> im.order[0] in im.recs)
    && DataStart(im, dend, 0) == 0
    && forall i :: 0 <= i < |im.order| ==> DataFills(im, dend, i)
  }

  lemma {:induction false} DataOrder(im: Image, dend: nat, i: nat, j: nat)
    requires DataTiled(im, dend) && i < j <= |im.order|
    ensures im.order[i] in im.recs && (j < |im.order| ==> im.order[j] in im.recs)
    ensures im.recs[im.order[i]].datoff + im.recs[im.order[i]].datlen <= DataStart(im, dend, j)
    decreases j - i
  {
    assert DataFills(im, dend, i);
    if i + 1 < j {
      DataOrder(im, dend, i + 1, j);
    }
  }

  lemma DataBounds(im: Image, end: nat, dend: nat, o: nat)
    requires Tiled(im, end) && DataTiled(im, dend) && o in im.recs
    ensures im.recs[o].datoff + im.recs[o].datlen <= dend
  {
    var i :| 0 <= i < |im.order| && im.order[i] == o;
    DataOrder(im, dend, i, |im.order|);
  }

  /** Two records never share a byte of data. */
  lemma DataApart(im: Image, end: nat, dend: nat, o: nat, o': nat)
    requires Tiled(im, end) && DataTiled(im, dend) && o in im.recs && o' in im.recs && o != o'
    ensures var r, r' := im.recs[o], im.recs[o'];
            r.datoff + r.datlen <= r'.datoff || r'.datoff + r'.datlen <= r.datoff
  {
    var i :| 0 <= i < |im.order| && im.order[i] == o;
    var j :| 0 <= j < |im.order| && im.order[j] == o';
    if i < j { DataOrder(im, dend, i, j); } else { DataOrder(im, dend, j, i); }
  }

  lemma DataTiledKept(im: Image, im': Image, dend: nat)
    requires DataTiled(im, dend) && im'.order == im.order && im'.recs.Keys == im.recs.Keys
    requires forall o :: o in im.recs ==>
               im'.recs[o].datoff == im.recs[o].datoff && im'.recs[o].datlen == im.recs[o].datlen
    ensures DataTiled(im', dend)
  {
    forall i | 0 <= i < |im'.order|
      ensures DataFills(im', dend, i)
    {
      assert DataFills(im, dend, i);
    }
  }

  lemma DataAppended(im: Image, end: nat, dend: nat, p: nat, r: Info)
    requires DataTiled(im, dend) && Tiled(im, end) && end !in im.recs && r.datoff == dend
    ensures DataTiled(AddRec(im, end, p, r), dend + r.datlen)
  {
    var im', dend' := AddRec(im, end, p, r), dend + r.datlen;
    if |im.order| == 0 { assert im'.order[0] == end; } else { assert im'.order[0] == im.order[0]; }
    forall i | 0 <= i < |im'.order|
      ensures DataFills(im', dend', i)
    {
      if i < |im.order| { assert DataFills(im, dend, i); }
    }
  }

  function Extent(dat: string, r: Info): string
    requires r.datoff + r.datlen <= |dat|
  {
    dat[r.datoff..r.datoff + r.datlen]
  }

  // ---------------------------------------------------------------- the map

  /** at says which live record carries each key; m what the database means. */
  ghost predicate Means(im: Image, ls: Lists, hand: set<nat>, dat: string,
                        at: map<string, nat>, m: map<string, string>)
  {
    && at.Keys == m.Keys
    && (forall k :: k in at ==> at[k] in im.recs && at[k] !in ls.free && at[k] !in hand && im.recs[at[k]].key == k)
    && (forall o :: o in im.recs && o !in ls.free && o !in hand ==> im.recs[o].key in at && at[im.recs[o].key] == o)
    && (forall k :: k in at ==> HasValue(dat, im.recs[at[k]], m[k]))
  }

  ghost predicate HasValue(dat: string, r: Info, v: string) {
    && r.datoff + r.datlen <= |dat|
    && Extent(dat, r) == v + "\n"
    && CText(v)
  }

  /** Everything a database is, with no operation in progress. */
  ghost predicate Sound(idx: string, dat: string, im: Image, ls: Lists,
                        at: map<string, nat>, m: map<string, string>)
  {
    && Holds(idx, im)
    && ListsOk(im, ls, {})
    && DataTiled(im, |dat|)
    && Means(im, ls, {}, dat, at, m)
  }

  /** Overwriting one extent keeps every other record's value. */
  lemma ValueKept(im: Image, end: nat, dat: string, o: nat, v: string, o': nat, w: string)
    requires Tiled(im, end) && DataTiled(im, |dat|) && o in im.recs && o' in im.recs && o != o'
    requires |v| + 1 == im.recs[o].datlen && HasValue(dat, im.recs[o'], w)
    requires im.recs[o].datoff <= |dat|
    ensures HasValue(Write(dat, im.recs[o].datoff, v + "\n"), im.recs[o'], w)
  {
    var r' := im.recs[o'];
    DataApart(im, end, |dat|, o, o');
    WriteOther(dat, im.recs[o].datoff, v + "\n", r'.datoff, r'.datoff + r'.datlen);
  }

  lemma ValueSet(dat: string, r: Info, v: string)
    requires r.datoff <= |dat| && r.datlen == |v| + 1 && CText(v)
    ensures HasValue(Write(dat, r.datoff, v + "\n"), r, v)
  {
    WriteSame(dat, r.datoff, v + "\n");
  }

  lemma ValueKeptByAppend(dat: string, v: string, r: Info, w: string)
    requires HasValue(dat, r, w)
    ensures HasValue(Write(dat, |dat|, v), r, w)
  {
    WriteOther(dat, |dat|, v, r.datoff, r.datoff + r.datlen);
  }

  // ---------------------------------------------------------------- whole operations

  lemma SetPtrGeometry(im: Image, end: nat, loc: nat, p: nat)
    requires Geometry(im, end) && loc in im.ptrs && p <= PTR_MAX
    ensures Geometry(SetPtr(im, loc, p), end)
  {
    PtrKeepsTiling(im, end, loc, p);
  }

  lemma SetRecGeometry(im: Image, end: nat, o: nat, p: nat, r: Info)
    requires Geometry(im, end) && o in im.recs && p <= PTR_MAX
    requires InfoOk(r) && RecLen(r) == RecLen(im.recs[o])
    ensures Geometry(SetRec(im, o, p, r), end)
  {
    RewriteTiled(im, end, o, p, r);
  }

  function Blanked(r: Info): (b: Info)
    ensures |b.key| == |r.key| && RecLen(b) == RecLen(r)
    ensures InfoOk(r) ==> InfoOk(b)
  {
    r.(key := Spaces(|r.key|))
  }

  /** The index after _db_dodelete's three writes, in the order it makes them. */
  function DeletedImage(im: Image, o: nat, loc: nat, next: nat): Image
    requires o in im.recs && FREE_OFF in im.ptrs
  {
    var blanked := SetRec(im, o, im.ptrs[FREE_OFF], Blanked(im.recs[o]));
    SetPtr(SetPtr(blanked, FREE_OFF, o), loc, next)
  }

  lemma UnchainPtrs(im: Image, end: nat, ls: Lists, hand: set<nat>, h: nat, i: nat)
    requires Geometry(im, end) && ListsOk(im, ls, hand) && h < NHASH && i < |ls.chains[h]|
    ensures var o, loc := ls.chains[h][i], Loc(HeadLoc(h), ls.chains[h], i);
            && o in im.recs && FREE_OFF in im.ptrs && loc in im.ptrs
            && o != FREE_OFF && loc != FREE_OFF && loc != o
            && o == im.ptrs[loc] && im.ptrs[o] == At(ls.chains[h], i + 1)
  {
    var chain := ls.chains[h];
    assert chain[i] in chain;
    ChainLoc(im, end, ls, hand, h, i);
    NotHead(im, end, chain[i], h);
    if i > 0 { assert chain[i - 1] != chain[i]; }
    assert IsList(im.ptrs, HeadLoc(h), chain);
    assert Loc(HeadLoc(h), chain, i + 1) == chain[i];
  }

  /** _db_dodelete moves the record from its chain to the front of the free list. */
  lemma DeleteOk(im: Image, end: nat, ls: Lists, hand: set<nat>, h: nat, i: nat)
    requires Geometry(im, end) && ListsOk(im, ls, hand) && h < NHASH && i < |ls.chains[h]|
    ensures var o, loc := ls.chains[h][i], Loc(HeadLoc(h), ls.chains[h], i);
            && o in im.recs && FREE_OFF in im.ptrs
            && ListsOk(DeletedImage(im, o, loc, At(ls.chains[h], i + 1)), Release(Unchain(ls, h, i), o), hand)
  {
    var chain := ls.chains[h];
    var o, loc, next := chain[i], Loc(HeadLoc(h), chain, i), At(chain, i + 1);
    UnchainPtrs(im, end, ls, hand, h, i);
    var im1, ls1 := SetPtr(im, loc, next), Unchain(ls, h, i);
    assert ListsOk(im1, ls1, hand + {o}) by {
      UnchainOk(im, end, ls, hand, h, i);
    }
    assert Geometry(im1, end) by {
      SetPtrGeometry(im, end, loc, next);
    }
    assert o !in hand by { assert o in chain; }
    assert hand + {o} - {o} == hand;
    BlankAndRelease(im1, end, ls1, hand + {o}, o);
    DeletedEitherWay(im, o, loc, next);
  }

  /** The three writes touch different fields, so their order does not matter. */
  lemma DeletedEitherWay(im: Image, o: nat, loc: nat, next: nat)
    requires o in im.recs && o in im.ptrs && FREE_OFF in im.ptrs && loc in im.ptrs
    requires o != FREE_OFF && loc != FREE_OFF && loc != o
    ensures var im1 := SetPtr(im, loc, next);
            DeletedImage(im, o, loc, next)
            == SetPtr(SetRec(im1, o, im1.ptrs[FREE_OFF], Blanked(im1.recs[o])), FREE_OFF, o)
  {
  }

  lemma BlankAndRelease(im: Image, end: nat, ls: Lists, hand: set<nat>, o: nat)
    requires Geometry(im, end) && ListsOk(im, ls, hand) && o in im.recs && o in hand
    ensures ListsOk(SetPtr(SetRec(im, o, im.ptrs[FREE_OFF], Blanked(im.recs[o])), FREE_OFF, o),
                    Release(ls, o), hand - {o})
  {
    var p, b := im.ptrs[FREE_OFF], Blanked(im.recs[o]);
    NotHead(im, end, o, 0);
    RewriteHand(im, end, ls, hand, o, p, b);
    SetRecGeometry(im, end, o, p, b);
    ReleaseOk(SetRec(im, o, p, b), end, ls, hand, o);
  }

  /** The index after a record in hand is rewritten and put on its chain. */
  function LinkedImage(im: Image, o: nat, h: nat, r: Info): Image
    requires o in im.recs && HeadLoc(h) in im.ptrs
  {
    SetPtr(SetRec(im, o, im.ptrs[HeadLoc(h)], r), HeadLoc(h), o)
  }

  /** An index file of 138 null pointers and a newline, with no data, holds the empty map. */
  function EmptyImage(): Image {
    Image(map loc | 0 <= loc < FIRST_REC && (loc == FREE_OFF || IsHeadLoc(loc)) :: 0, map[], [])
  }

  lemma EmptyHolds(table: string)
    requires |table| == FIRST_REC - 1
    requires forall k :: 0 <= k < NHASH + 1 ==> PtrAt(table, k * PTR_SZ, 0)
    ensures Holds(table + "\n", EmptyImage())
  {
    hide PtrField;
    var im, idx := EmptyImage(), table + "\n";
    forall loc | loc in im.ptrs
      ensures PtrAt(idx, loc, im.ptrs[loc])
    {
      var k := loc / PTR_SZ;
      assert loc == k * PTR_SZ;
      assert PtrAt(table, k * PTR_SZ, 0);
      assert idx[loc..loc + PTR_SZ] == table[loc..loc + PTR_SZ];
    }
  }

  lemma EmptySound(table: string)
    requires |table| == FIRST_REC - 1
    requires forall k :: 0 <= k < NHASH + 1 ==> PtrAt(table, k * PTR_SZ, 0)
    ensures Sound(table + "\n", [], EmptyImage(), Lists([], seq(NHASH, h => [])), map[], map[])
  {
    hide PtrAt, Holds, Hash;
    EmptyHolds(table);
    var im, ls := EmptyImage(), Lists([], seq(NHASH, h => []));
    forall h | 0 <= h < NHASH
      ensures IsList(im.ptrs, HeadLoc(h), ls.chains[h])
    {
      HeadLocs(h);
    }
  }

  lemma LinkedSteps(im: Image, o: nat, h: nat, r: Info)
    requires o in im.recs && HeadLoc(h) in im.ptrs
    ensures HeadLoc(h) in SetRec(im, o, im.ptrs[HeadLoc(h)], r).ptrs
    ensures LinkedImage(im, o, h, r) == SetPtr(SetRec(im, o, im.ptrs[HeadLoc(h)], r), HeadLoc(h), o)
  {
  }

  lemma ReuseOk(im: Image, end: nat, ls: Lists, o: nat, r: Info)
    requires Geometry(im, end) && ListsOk(im, ls, {o}) && o in im.recs
    requires InfoOk(r) && RecLen(r) == RecLen(im.recs[o])
    ensures HeadLoc(Hash(r.key)) in im.ptrs
    ensures ListsOk(LinkedImage(im, o, Hash(r.key), r), Chain(ls, Hash(r.key), o), {})
  {
    var h := Hash(r.key);
    HeadLocs(h);
    NotHead(im, end, o, h);
    var p := im.ptrs[HeadLoc(h)];
    RewriteHand(im, end, ls, {o}, o, p, r);
    SetRecGeometry(im, end, o, p, r);
    ChainOk(SetRec(im, o, p, r), end, ls, {o}, h, o);
    assert {o} - {o} == {};
  }

  /** The index after a new record is written at the end and put on its chain. */
  function GrownImage(im: Image, end: nat, h: nat, r: Info): Image
    requires HeadLoc(h) in im.ptrs
  {
    SetPtr(AddRec(im, end, im.ptrs[HeadLoc(h)], r), HeadLoc(h), end)
  }

  lemma GrownSteps(im: Image, end: nat, h: nat, r: Info)
    requires HeadLoc(h) in im.ptrs
    ensures HeadLoc(h) in AddRec(im, end, im.ptrs[HeadLoc(h)], r).ptrs
    ensures GrownImage(im, end, h, r) == SetPtr(AddRec(im, end, im.ptrs[HeadLoc(h)], r), HeadLoc(h), end)
  {
  }

  lemma GrowOk(im: Image, end: nat, ls: Lists, r: Info)
    requires Geometry(im, end) && ListsOk(im, ls, {}) && end !in im.ptrs && InfoOk(r)
    ensures HeadLoc(Hash(r.key)) in im.ptrs
    ensures ListsOk(AddRec(im, end, im.ptrs[HeadLoc(Hash(r.key))], r), ls, {end})
    ensures ListsOk(GrownImage(im, end, Hash(r.key), r), Chain(ls, Hash(r.key), end), {})
  {
    var h := Hash(r.key);
    HeadLocs(h);
    var p := im.ptrs[HeadLoc(h)];
    AppendHand(im, end, ls, {}, p, r);
    assert {} + {end} == {end};
    AppendTiled(im, end, p, r);
    ChainOk(AddRec(im, end, p, r), end + RecLen(r), ls, {end}, h, end);
    assert {end} - {end} == {};
  }

  // ---------------------------------------------------------------- what operations mean

  /** Deleting a record forgets its key and nothing else. */
  lemma DeleteMeans(im: Image, end: nat, ls: Lists, dat: string,
                    at: map<string, nat>, m: map<string, string>, h: nat, i: nat)
    requires Geometry(im, end) && ListsOk(im, ls, {}) && h < NHASH && i < |ls.chains[h]|
    requires DataTiled(im, |dat|) && Means(im, ls, {}, dat, at, m)
    ensures var o, loc := ls.chains[h][i], Loc(HeadLoc(h), ls.chains[h], i);
            && o in im.recs && FREE_OFF in im.ptrs && im.recs[o].datoff + im.recs[o].datlen <= |dat|
            && var r := im.recs[o];
               var im' := DeletedImage(im, o, loc, At(ls.chains[h], i + 1));
               var dat' := Write(dat, r.datoff, Spaces(r.datlen - 1) + "\n");
               && |dat'| == |dat|
               && DataTiled(im', |dat|)
               && Means(im', Release(Unchain(ls, h, i), o), {}, dat', at - {r.key}, m - {r.key})
  {
    hide Means, Geometry, ListsOk, DataTiled, Tiled, Write, Spaces, HasValue, IsList, Hash, InfoOk;
    ListCount(im, ls);
    var o, loc := ls.chains[h][i], Loc(HeadLoc(h), ls.chains[h], i);
    UnchainPtrs(im, end, ls, {}, h, i);
    ChainMember(im, ls, h, i);
    RecordSized(im, end, o);
    var r := im.recs[o];
    var im' := DeletedImage(im, o, loc, At(ls.chains[h], i + 1));
    var v := Spaces(r.datlen - 1);
    DataBounds(im, end, |dat|, o);
    var dat' := Write(dat, r.datoff, v + "\n");
    DataTiledKept(im, im', |dat|);
    MeansKnown(im, ls, dat, at, m);
    forall k | k in at && at[k] != o
      ensures HasValue(dat', im.recs[at[k]], m[k])
    {
      ValueKept(im, end, dat, o, v, at[k], m[k]);
    }
    GoneMeans(im, im', ls, Release(Unchain(ls, h, i), o), dat, dat', at, m, o);
  }

  /** Deleting one record from the map: its key goes, every other key keeps its record and its value. */
  lemma GoneMeans(im: Image, im': Image, ls: Lists, ls': Lists, dat: string, dat': string,
                  at: map<string, nat>, m: map<string, string>, o: nat)
    requires Means(im, ls, {}, dat, at, m) && o in im.recs && o !in ls.free
    requires im'.recs.Keys == im.recs.Keys
    requires forall x :: x in im.recs && x != o ==> im'.recs[x] == im.recs[x]
    requires ls'.free == [o] + ls.free
    requires forall k :: k in at && at[k] != o ==> at[k] in im.recs && k in m && HasValue(dat', im.recs[at[k]], m[k])
    ensures Means(im', ls', {}, dat', at - {im.recs[o].key}, m - {im.recs[o].key})
  {
    hide HasValue;
  }

  lemma MeansKnown(im: Image, ls: Lists, dat: string, at: map<string, nat>, m: map<string, string>)
    requires Means(im, ls, {}, dat, at, m)
    ensures forall k :: k in at ==> at[k] in im.recs && k in m && HasValue(dat, im.recs[at[k]], m[k])
  {
  }

  lemma ChainMember(im: Image, ls: Lists, h: nat, i: nat)
    requires ListsOk(im, ls, {}) && h < NHASH && i < |ls.chains[h]|
    ensures ls.chains[h][i] in im.recs && ls.chains[h][i] !in ls.free
  {
    hide Hash, IsList;
    assert ls.chains[h][i] in ls.chains[h];
  }

  lemma ListCount(im: Image, ls: Lists)
    requires ListsOk(im, ls, {})
    ensures |ls.chains| == NHASH
  {
  }

  lemma RecordSized(im: Image, end: nat, o: nat)
    requires Geometry(im, end) && o in im.recs
    ensures Tiled(im, end) && FREE_OFF in im.ptrs && im.recs[o].datlen >= 1
  {
  }

  /** Same-size replacement changes one value. */
  lemma OverwriteMeans(im: Image, end: nat, ls: Lists, dat: string,
                       at: map<string, nat>, m: map<string, string>, key: string, v: string)
    requires Tiled(im, end) && DataTiled(im, |dat|) && Means(im, ls, {}, dat, at, m)
    requires key in at && im.recs[at[key]].datlen == |v| + 1 && CText(v)
    ensures var r := im.recs[at[key]];
            && r.datoff + r.datlen <= |dat|
            && var dat' := Write(dat, r.datoff, v + "\n");
               |dat'| == |dat| && Means(im, ls, {}, dat', at, m[key := v])
  {
    var o := at[key];
    var r := im.recs[o];
    DataBounds(im, end, |dat|, o);
    var dat', m' := Write(dat, r.datoff, v + "\n"), m[key := v];
    ValueSet(dat, r, v);
    forall k | k in at
      ensures HasValue(dat', im.recs[at[k]], m'[k])
    {
      if k != key { ValueKept(im, end, dat, o, v, at[k], m[k]); }
    }
  }

  /** Filling a record taken from the free list gives its new key its value. */
  lemma ReuseMeans(im: Image, end: nat, ls: Lists, dat: string,
                   at: map<string, nat>, m: map<string, string>, o: nat, key: string, v: string)
    requires Tiled(im, end) && DataTiled(im, |dat|) && Means(im, ls, {o}, dat, at, m)
    requires o in im.recs && o !in ls.free && |ls.chains| == NHASH && HeadLoc(Hash(key)) in im.ptrs
    requires key !in at && im.recs[o].datlen == |v| + 1 && CText(v)
    ensures var r := im.recs[o];
            && r.datoff + r.datlen <= |dat|
            && var im' := LinkedImage(im, o, Hash(key), r.(key := key));
               var dat' := Write(dat, r.datoff, v + "\n");
               && |dat'| == |dat|
               && DataTiled(im', |dat|)
               && Means(im', Chain(ls, Hash(key), o), {}, dat', at[key := o], m[key := v])
  {
    var r := im.recs[o];
    DataBounds(im, end, |dat|, o);
    var im' := LinkedImage(im, o, Hash(key), r.(key := key));
    var dat', at', m' := Write(dat, r.datoff, v + "\n"), at[key := o], m[key := v];
    DataTiledKept(im, im', |dat|);
    ValueSet(dat, im'.recs[o], v);
    forall k | k in at'
      ensures HasValue(dat', im'.recs[at'[k]], m'[k])
    {
      if k != key { ValueKept(im, end, dat, o, v, at[k], m[k]); }
    }
  }

  /** Appending a record gives its key its value. */
  lemma GrowMeans(im: Image, end: nat, ls: Lists, dat: string,
                  at: map<string, nat>, m: map<string, string>, key: string, v: string)
    requires Tiled(im, end) && end !in im.recs && DataTiled(im, |dat|) && Means(im, ls, {}, dat, at, m)
    requires |ls.chains| == NHASH && HeadLoc(Hash(key)) in im.ptrs && end !in ls.free
    requires key !in at && CText(v)
    ensures var r := Info(key, |dat|, |v| + 1);
            var im1 := AddRec(im, end, im.ptrs[HeadLoc(Hash(key))], r);
            var im' := GrownImage(im, end, Hash(key), r);
            var dat' := Write(dat, |dat|, v + "\n");
            && |dat'| == |dat| + r.datlen
            && DataTiled(im', |dat'|)
            && Means(im1, ls, {end}, dat', at, m)
            && Means(im', Chain(ls, Hash(key), end), {}, dat', at[key := end], m[key := v])
  {
    var r := Info(key, |dat|, |v| + 1);
    var p := im.ptrs[HeadLoc(Hash(key))];
    var im1, im' := AddRec(im, end, p, r), GrownImage(im, end, Hash(key), r);
    var dat', at', m' := Write(dat, |dat|, v + "\n"), at[key := end], m[key := v];
    DataAppended(im, end, |dat|, p, r);
    DataTiledKept(im1, im', |dat'|);
    ValueSet(dat, r, v);
    forall k | k in at
      ensures HasValue(dat', im.recs[at[k]], m[k])
    {
      ValueKeptByAppend(dat, v + "\n", im.recs[at[k]], m[k]);
    }
  }

  // ---------------------------------------------------------------- on a sound database

  lemma Pointers(im: Image, end: nat)
    requires Geometry(im, end)
    ensures FREE_OFF in im.ptrs
    ensures forall h :: 0 <= h < NHASH ==> HeadLoc(h) in im.ptrs
  {
    forall h | 0 <= h < NHASH
      ensures HeadLoc(h) in im.ptrs
    {
      HeadLocs(h);
    }
  }

  lemma FilePointers(idx: string, im: Image)
    requires Holds(idx, im)
    ensures FREE_OFF in im.ptrs
    ensures forall h :: 0 <= h < NHASH ==> HeadLoc(h) in im.ptrs && im.ptrs[HeadLoc(h)] <= PTR_MAX
  {
    Pointers(im, |idx|);
  }

  lemma ChainMembers(im: Image, ls: Lists, hand: set<nat>, h: nat)
    requires ListsOk(im, ls, hand) && h < NHASH
    ensures |ls.chains| == NHASH && IsList(im.ptrs, HeadLoc(h), ls.chains[h])
    ensures forall o :: o in ls.chains[h] ==> o in im.recs
  {
  }

  lemma FreeMembers(im: Image, ls: Lists, hand: set<nat>)
    requires ListsOk(im, ls, hand)
    ensures IsList(im.ptrs, FREE_OFF, ls.free)
    ensures forall o :: o in ls.free ==> o in im.recs
  {
  }

  /** A key that no record of its chain carries is not in the map. */
  lemma ChainExhausted(im: Image, ls: Lists, dat: string, at: map<string, nat>, m: map<string, string>, key: string)
    requires ListsOk(im, ls, {}) && Means(im, ls, {}, dat, at, m)
    requires forall j :: 0 <= j < |ls.chains[Hash(key)]| ==>
               ls.chains[Hash(key)][j] in im.recs && im.recs[ls.chains[Hash(key)][j]].key != key
    ensures key !in m
  {
  }

  /** A record on a chain is the one record of its key, and carries its value. */
  lemma LiveKey(im: Image, ls: Lists, dat: string, at: map<string, nat>, m: map<string, string>, h: nat, i: nat)
    requires ListsOk(im, ls, {}) && Means(im, ls, {}, dat, at, m) && h < NHASH && i < |ls.chains[h]|
    ensures var o := ls.chains[h][i];
            && o in im.recs && im.recs[o].key in m && im.recs[o].key in at && at[im.recs[o].key] == o
            && var r, v := im.recs[o], m[im.recs[o].key];
               && r.datlen == |v| + 1 && r.datoff + r.datlen <= |dat|
               && dat[r.datoff + r.datlen - 1] == '\n' && dat[r.datoff..r.datoff + r.datlen - 1] == v
  {
    var o := ls.chains[h][i];
    assert o in ls.chains[h];
    var r, v := im.recs[o], m[im.recs[o].key];
    assert HasValue(dat, r, v);
    var e := Extent(dat, r);
    assert |e| == r.datlen && e[|v|] == '\n' && e[..|v|] == v;
  }

  lemma DeleteSound(idx: string, dat: string, im: Image, ls: Lists,
                    at: map<string, nat>, m: map<string, string>, h: nat, i: nat)
    requires Sound(idx, dat, im, ls, at, m) && h < NHASH && i < |ls.chains[h]|
    ensures |ls.chains| == NHASH
    ensures var o, loc, next := ls.chains[h][i], Loc(HeadLoc(h), ls.chains[h], i), At(ls.chains[h], i + 1);
            && o in im.recs && FREE_OFF in im.ptrs && loc in im.ptrs && loc != o && o != FREE_OFF
            && o <= PTR_MAX && next <= PTR_MAX && im.ptrs[FREE_OFF] <= PTR_MAX
            && InfoOk(im.recs[o]) && im.recs[o].datoff + im.recs[o].datlen <= |dat|
            && var r := im.recs[o];
               var im' := DeletedImage(im, o, loc, next);
               var dat' := Write(dat, r.datoff, Spaces(r.datlen - 1) + "\n");
               && |dat'| == |dat|
               && ListsOk(im', Release(Unchain(ls, h, i), o), {})
               && DataTiled(im', |dat'|)
               && Means(im', Release(Unchain(ls, h, i), o), {}, dat', at - {r.key}, m - {r.key})
  {
    UnchainPtrs(im, |idx|, ls, {}, h, i);
    DeleteOk(im, |idx|, ls, {}, h, i);
    DeleteMeans(im, |idx|, ls, dat, at, m, h, i);
  }

  lemma UnfreeSound(idx: string, dat: string, im: Image, ls: Lists,
                    at: map<string, nat>, m: map<string, string>, i: nat)
    requires Sound(idx, dat, im, ls, at, m) && i < |ls.free|
    ensures var o, loc, next := ls.free[i], Loc(FREE_OFF, ls.free, i), At(ls.free, i + 1);
            && o in im.recs && loc in im.ptrs && o <= PTR_MAX && next <= PTR_MAX
            && (forall h :: 0 <= h < NHASH ==> HeadLoc(h) in im.ptrs && HeadLoc(h) != loc)
            && var im', ls' := SetPtr(im, loc, next), Unfree(ls, i);
               && o !in ls'.free
               && ListsOk(im', ls', {o})
               && DataTiled(im', |dat|)
               && Means(im', ls', {o}, dat, at, m)
  {
    var o, loc, next := ls.free[i], Loc(FREE_OFF, ls.free, i), At(ls.free, i + 1);
    assert o in ls.free;
    Pointers(im, |idx|);
    FreeLoc(im, |idx|, ls, {}, i);
    assert next == im.ptrs[Loc(FREE_OFF, ls.free, i + 1)] && o == im.ptrs[loc];
    UnfreeOk(im, |idx|, ls, {}, i);
    assert {} + {o} == {o};
    WithoutMembers(ls.free, i);
    DataTiledKept(im, SetPtr(im, loc, next), |dat|);
  }

  lemma ReuseSound(idx: string, dat: string, im: Image, ls: Lists,
                   at: map<string, nat>, m: map<string, string>, o: nat, key: string, v: string)
    requires Holds(idx, im) && ListsOk(im, ls, {o}) && DataTiled(im, |dat|) && Means(im, ls, {o}, dat, at, m)
    requires o in im.recs && o !in ls.free && key !in m && KeyText(key) && CText(v)
    requires |im.recs[o].key| == |key| && im.recs[o].datlen == |v| + 1
    ensures var r, h := im.recs[o].(key := key), Hash(key);
            && h < NHASH && |ls.chains| == NHASH && HeadLoc(h) in im.ptrs && HeadLoc(h) != o
            && im.ptrs[HeadLoc(h)] <= PTR_MAX && r.datoff + r.datlen <= |dat|
            && var im' := LinkedImage(im, o, h, r);
               var dat' := Write(dat, r.datoff, v + "\n");
               && |dat'| == |dat|
               && ListsOk(im', Chain(ls, h, o), {})
               && DataTiled(im', |dat'|)
               && Means(im', Chain(ls, h, o), {}, dat', at[key := o], m[key := v])
  {
    var r, h := im.recs[o].(key := key), Hash(key);
    Pointers(im, |idx|);
    NotHead(im, |idx|, o, h);
    SameSizeSameLength(im.recs[o], key);
    ReuseOk(im, |idx|, ls, o, r);
    ReuseMeans(im, |idx|, ls, dat, at, m, o, key, v);
  }

  lemma GrowSound(idx: string, dat: string, im: Image, ls: Lists,
                  at: map<string, nat>, m: map<string, string>, key: string, v: string)
    requires Sound(idx, dat, im, ls, at, m) && |idx| !in im.ptrs && key !in m && CText(v)
    requires InfoOk(Info(key, |dat|, |v| + 1))
    ensures var r, h, end := Info(key, |dat|, |v| + 1), Hash(key), |idx|;
            && h < NHASH && |ls.chains| == NHASH && HeadLoc(h) in im.ptrs && HeadLoc(h) != end
            && var im1, im' := AddRec(im, end, im.ptrs[HeadLoc(h)], r), GrownImage(im, end, h, r);
               var dat' := Write(dat, |dat|, v + "\n");
               && ListsOk(im1, ls, {end})
               && Means(im1, ls, {end}, dat', at, m)
               && ListsOk(im', Chain(ls, h, end), {})
               && DataTiled(im', |dat'|)
               && Means(im', Chain(ls, h, end), {}, dat', at[key := end], m[key := v])
  {
    Pointers(im, |idx|);
    GrowOk(im, |idx|, ls, Info(key, |dat|, |v| + 1));
    GrowMeans(im, |idx|, ls, dat, at, m, key, v);
  }

  lemma OverwriteSound(idx: string, dat: string, im: Image, ls: Lists,
                       at: map<string, nat>, m: map<string, string>, key: string, v: string)
    requires Sound(idx, dat, im, ls, at, m) && key in at && at[key] in im.recs
    requires im.recs[at[key]].datlen == |v| + 1 && CText(v)
    ensures var r := im.recs[at[key]];
            && r.datoff + r.datlen <= |dat|
            && var dat' := Write(dat, r.datoff, v + "\n");
               |dat'| == |dat| && Means(im, ls, {}, dat', at, m[key := v])
  {
    OverwriteMeans(im, |idx|, ls, dat, at, m, key, v);
  }

  /** Data written past the last extent changes no value. */
  lemma TailMeans(im: Image, ls: Lists, dat: string, at: map<string, nat>, m: map<string, string>, bytes: string)
    requires Means(im, ls, {}, dat, at, m)
    ensures Means(im, ls, {}, Write(dat, |dat|, bytes), at, m)
  {
    forall k | k in at
      ensures HasValue(Write(dat, |dat|, bytes), im.recs[at[k]], m[k])
    {
      ValueKeptByAppend(dat, bytes, im.recs[at[k]], m[k]);
    }
  }
}
