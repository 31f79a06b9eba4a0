/** The database library as one process uses it: two files, the DB structure, and the
    operations that read and rewrite bytes of the files. */
module DbLibrary {
  import opened Common
  import opened DbFormat
  import opened DbLists
  import opened DbFile
  import opened DbState

  const DB_INSERT: int := 1
  const DB_REPLACE: int := 2
  const DB_STORE: int := 3

  datatype Fetched = Null | Text(value: string)

  /** Died stands for err_dump and err_quit, which end the process. */
  datatype Outcome = Returned(rc: int) | Died

  predicate ValidFlag(flag: int) {
    flag == DB_INSERT || flag == DB_REPLACE || flag == DB_STORE
  }

  /** What db_store returns and leaves behind, as an operation on a map. */
  function StoreSpec(m: map<string, string>, key: string, data: string, flag: int): (int, map<string, string>) {
    if !ValidFlag(flag) || (key !in m && flag == DB_REPLACE) then (-1, m)
    else if key in m && flag == DB_INSERT then (1, m)
    else (0, m[key := data])
  }

  function DeleteSpec(m: map<string, string>, key: string): (int, map<string, string>) {
    if key in m then (0, m - {key}) else (-1, m)
  }

  function FetchSpec(m: map<string, string>, key: string): Fetched {
    if key in m then Text(m[key]) else Null
  }

  predicate LengthOk(data: string) {
    DATLEN_MIN <= |data| + 1 <= DATLEN_MAX
  }

  /** A free record of exactly these sizes exists. */
  ghost predicate FreeFits(im: Image, ls: Lists, keylen: nat, datlen: nat) {
    exists o :: o in ls.free && o in im.recs && |im.recs[o].key| == keylen && im.recs[o].datlen == datlen
  }

  /** The record is the first of the list with exactly these sizes. */
  ghost predicate FirstFit(im: Image, list: seq<nat>, off: nat, keylen: nat, datlen: nat) {
    exists i :: 0 <= i < |list| && list[i] == off && off in im.recs && Sizes(im, off, keylen, datlen)
                && forall j :: 0 <= j < i ==> !Sizes(im, list[j], keylen, datlen)
  }

  ghost predicate Sizes(im: Image, off: nat, keylen: nat, datlen: nat) {
    off in im.recs && |im.recs[off].key| == keylen && im.recs[off].datlen == datlen
  }

  lemma FirstFitIs(im: Image, list: seq<nat>, i: nat, keylen: nat, datlen: nat)
    requires i < |list| && Sizes(im, list[i], keylen, datlen)
    requires forall j :: 0 <= j < i ==> !Sizes(im, list[j], keylen, datlen)
    ensures FirstFit(im, list, list[i], keylen, datlen)
  {
    hide Sizes;
    assert list[i] in im.recs by { SizesThere(im, list[i], keylen, datlen); }
  }

  lemma SizesThere(im: Image, off: nat, keylen: nat, datlen: nat)
    requires Sizes(im, off, keylen, datlen)
    ensures off in im.recs
  {
  }

  /** A new record for the key can be written at the end of the files and pointed at. */
  predicate AppendFits(key: string, data: string, idxEnd: nat, datEnd: nat) {
    IDXLEN_MIN <= |Body(Info(key, datEnd, |data| + 1))| <= IDXLEN_MAX && idxEnd <= PTR_MAX
  }

  /** db_store has to write a new record at the end of the files. */
  ghost predicate Appends(im: Image, ls: Lists, m: map<string, string>, key: string, data: string, flag: int) {
    if key in m then flag != DB_INSERT && |data| != |m[key]|
    else flag != DB_REPLACE && !FreeFits(im, ls, |key|, |data| + 1)
  }

  class Db {
    // The two files, and the index file's offset.
    var idx: string
    var dat: string
    var pos: nat

    // The DB structure.
    var keybuf: string
    var idxoff: nat
    var idxlen: nat
    var datoff: nat
    var datlen: nat
    var ptrval: nat
    var ptroff: nat
    var chainoff: nat

    // What the files mean.
    ghost var im: Image
    ghost var ls: Lists
    ghost var hand: set<nat>
    ghost var at: map<string, nat>
    ghost var m: map<string, string>

    ghost predicate Valid()
      reads this
    {
      hand == {} && Sound(idx, dat, im, ls, at, m)
    }

    /** Sound but for a record, or a stretch of data, that a dying process left behind. */
    ghost predicate Survives()
      reads this
    {
      Holds(idx, im) && ListsOk(im, ls, hand) && Means(im, ls, hand, dat, at, m)
    }

    /** db_open with O_CREAT and O_TRUNC: 138 null pointers and a newline. */
    constructor ()
      ensures Valid() && m == map[] && pos == FIRST_REC && |idx| == FIRST_REC && dat == ""
    {
      hide Sound, EmptyImage, PtrField;
      var table := [];
      var i := 0;
      while i < NHASH + 1
        invariant i <= NHASH + 1 && |table| == i * PTR_SZ
        invariant forall k :: 0 <= k < i ==> PtrAt(table, k * PTR_SZ, 0)
      {
        PtrFieldLength(0);
        ghost var before := table;
        table := table + PtrField(0);
        forall k | 0 <= k < i + 1
          ensures PtrAt(table, k * PTR_SZ, 0)
        {
          if k < i {
            assert PtrAt(before, k * PTR_SZ, 0);
            assert table[k * PTR_SZ..k * PTR_SZ + PTR_SZ] == before[k * PTR_SZ..k * PTR_SZ + PTR_SZ];
          }
        }
        i := i + 1;
      }
      idx, dat, pos := table + "\n", [], FIRST_REC;
      keybuf, idxoff, idxlen, datoff, datlen := [], FIRST_REC, 0, 0, 0;
      ptrval, ptroff, chainoff := 0, 0, 0;
      im := EmptyImage();
      ls := Lists([], seq(NHASH, h => []));
      hand, at, m := {}, map[], map[];
      EmptySound(table);
    }

    /** _db_hash: the loop over the key, in unsigned long arithmetic. */
    method HashKey(key: string) returns (h: nat)
      ensures h == Hash(key)
    {
      hide Signed;
      var hval: nat := 0;
      var i := 0;
      while i < |key|
        invariant 0 <= i <= |key|
        invariant hval == WeightedSum(key[..i]) % WORD
      {
        assert key[..i + 1][..i] == key[..i];
        WrapOnce(WeightedSum(key[..i]), Signed(key[i]) * (i + 1));
        hval := (hval + Signed(key[i]) * (i + 1)) % WORD;
        i := i + 1;
      }
      assert key[..|key|] == key;
      h := hval % NHASH;
    }

    /** _db_readptr. */
    method ReadPtr(offset: nat) returns (p: nat)
      requires Holds(idx, im) && offset in im.ptrs
      modifies `pos
      ensures p == im.ptrs[offset]
    {
      ReadPtrOk(idx, im, offset);
      p := Atol(idx[offset..offset + PTR_SZ]);
      pos := offset + PTR_SZ;
    }

    /** _db_readidx at a record. */
    method ReadIdx(offset: nat) returns (next: nat)
      requires Holds(idx, im) && offset in im.recs
      modifies `pos, `idxoff, `idxlen, `keybuf, `datoff, `datlen, `ptrval
      ensures next == ptrval == im.ptrs[offset] && idxoff == offset
      ensures Info(keybuf, datoff, datlen) == im.recs[offset]
      ensures pos == offset + RecLen(im.recs[offset])
    {
      ReadIdxOk(idx, im, offset);
      var r := ParseIdx(idx, offset);
      idxoff, idxlen, ptrval := offset, r.len, r.ptr;
      keybuf, datoff, datlen := r.info.key, r.info.datoff, r.info.datlen;
      pos := offset + PTR_SZ + IDXLEN_SZ + r.len;
      next := ptrval;
    }

    /** _db_readdat. */
    method ReadDat() returns (v: string)
      requires datoff + datlen <= |dat| && datlen > 0 && dat[datoff + datlen - 1] == '\n'
      ensures v == dat[datoff..datoff + datlen - 1]
    {
      var buf := dat[datoff..datoff + datlen];
      v := buf[..datlen - 1];
    }

    /** _db_writeptr; false when err_quit ends the process. */
    method WritePtr(offset: nat, p: nat) returns (ok: bool)
      requires Holds(idx, im) && offset in im.ptrs
      modifies `idx, `pos, `im
      ensures ok <==> p <= PTR_MAX
      ensures ok ==> im == SetPtr(old(im), offset, p)
      ensures !ok ==> im == old(im) && idx == old(idx)
      ensures Holds(idx, im) && |idx| == |old(idx)|
    {
      if p > PTR_MAX {
        return false;
      }
      WritePtrOk(idx, im, offset, p);
      assert PtrAt(idx, offset, im.ptrs[offset]);
      idx := Write(idx, offset, PtrField(p));
      im := SetPtr(im, offset, p);
      pos := offset + PTR_SZ;
      return true;
    }

    /** _db_writedat over an existing extent. */
    method WriteDat(data: string, offset: nat)
      requires offset <= |dat|
      modifies `dat, `datoff, `datlen
      ensures dat == Write(old(dat), offset, data + "\n")
      ensures datoff == offset && datlen == |data| + 1
    {
      datoff, datlen := offset, |data| + 1;
      dat := Write(dat, offset, data + "\n");
    }

    /** _db_writeidx over an existing record. */
    method RewriteIdx(key: string, offset: nat, p: nat)
      requires Holds(idx, im) && offset in im.recs && p <= PTR_MAX
      requires KeyText(key) && |key| == |im.recs[offset].key|
      requires datoff == im.recs[offset].datoff && datlen == im.recs[offset].datlen
      modifies `idx, `pos, `im, `keybuf, `idxoff, `ptrval
      ensures idxoff == offset && ptrval == p
      ensures im == SetRec(old(im), offset, p, Info(key, datoff, datlen))
      ensures Holds(idx, im) && |idx| == |old(idx)|
    {
      hide Holds, Body, RecBytes, RecLen, Write, SetRec, InfoOk, KeyText;
      var r := Info(key, datoff, datlen);
      RecordHeld(idx, im, offset);
      SameSizeSameLength(im.recs[offset], key);
      SameSizeInfoOk(im.recs[offset], key);
      RewriteOk(idx, im, offset, p, r);
      ptrval, idxoff, keybuf := p, offset, Body(r);
      idx := Write(idx, offset, RecBytes(p, r));
      im := SetRec(im, offset, p, r);
      pos := offset + PTR_SZ + IDXLEN_SZ + |Body(r)|;
    }

    /** _db_writeidx at the end of the file; false when err_dump ends the process. */
    method AppendIdx(key: string, p: nat) returns (ok: bool)
      requires Holds(idx, im) && p <= PTR_MAX && KeyText(key) && DATLEN_MIN <= datlen <= DATLEN_MAX
      modifies `idx, `pos, `im, `keybuf, `idxoff, `ptrval
      ensures ok <==> IDXLEN_MIN <= |Body(Info(key, datoff, datlen))| <= IDXLEN_MAX
      ensures ok ==> idxoff == |old(idx)| && idxoff !in old(im).ptrs
      ensures ok ==> im == AddRec(old(im), idxoff, p, Info(key, datoff, datlen))
      ensures !ok ==> im == old(im)
      ensures Holds(idx, im)
    {
      hide Holds, Body, RecBytes, RecLen, Write, AddRec, KeyText;
      var r := Info(key, datoff, datlen);
      ptrval, keybuf := p, Body(r);
      if |Body(r)| < IDXLEN_MIN || |Body(r)| > IDXLEN_MAX {
        return false;
      }
      AppendOk(idx, im, p, r);
      idxoff := |idx|;
      idx := Write(idx, idxoff, RecBytes(p, r));
      im := AddRec(im, idxoff, p, r);
      pos := |idx|;
      return true;
    }

    /** _db_find_and_lock: walk the key's chain. */
    method FindAndLock(key: string) returns (rc: int, ghost i: nat)
      requires Valid()
      modifies `pos, `keybuf, `idxoff, `idxlen, `datoff, `datlen, `ptrval, `ptroff, `chainoff
      ensures chainoff == ChainOff(key)
      ensures rc == if key in m then 0 else -1
      ensures rc == 0 ==>
        var chain := ls.chains[Hash(key)];
        && i < |chain| && key in at && idxoff == chain[i] == at[key] && ptroff == Loc(chainoff, chain, i)
        && ptrval == At(chain, i + 1)
        && idxoff in im.recs && im.recs[idxoff] == Info(key, datoff, datlen) && keybuf == key
        && datlen == |m[key]| + 1 && datoff + datlen <= |dat|
        && dat[datoff + datlen - 1] == '\n' && dat[datoff..datoff + datlen - 1] == m[key]
    {
      hide Holds, Means, DataTiled, Hash, HasValue, Body, ListsOk, IsList, Loc, At, Passed;
      var h := HashKey(key);
      ChainMembers(im, ls, {}, h);
      FilePointers(idx, im);
      chainoff := h * PTR_SZ + HASH_OFF;
      ptroff := chainoff;
      HeadLocs(h);
      ghost var chain := ls.chains[h];
      ListStep(im.ptrs, chainoff, chain, 0);
      ListStart(chainoff, chain);
      var offset := ReadPtr(ptroff);
      i := 0;
      PassedNone(im, chain, key);
      while offset != 0
        modifies `pos, `keybuf, `idxoff, `idxlen, `datoff, `datlen, `ptrval, `ptroff
        invariant 0 <= i <= |chain| && offset == At(chain, i) && ptroff == Loc(chainoff, chain, i)
        invariant Passed(im, chain, i, key)
        decreases |chain| - i
      {
        ListStep(im.ptrs, chainoff, chain, i);
        var nextoffset := ReadIdx(offset);
        if keybuf == key {
          break;
        }
        PassedMore(im, chain, i, key);
        ptroff := offset;
        offset := nextoffset;
        i := i + 1;
      }
      if offset == 0 {
        ListStep(im.ptrs, chainoff, chain, i);
        NotInChain(im, ls, dat, at, m, key);
        rc := -1;
      } else {
        ListStep(im.ptrs, chainoff, chain, i);
        LiveKey(im, ls, dat, at, m, h, i);
        rc := 0;
      }
    }

    /** db_fetch. */
    method Fetch(key: string) returns (r: Fetched)
      requires Valid()
      modifies `pos, `keybuf, `idxoff, `idxlen, `datoff, `datlen, `ptrval, `ptroff, `chainoff
      ensures r == FetchSpec(m, key)
      ensures (r == Null <==> key !in m) && (key in m ==> r == Text(m[key]))
    {
      hide Holds, Means, DataTiled, Hash, HasValue, Body, ListsOk;
      var rc, i := FindAndLock(key);
      if rc < 0 {
        return Null;
      }
      var v := ReadDat();
      return Text(v);
    }

    /** _db_dodelete: blank the record and move it to the free list. */
    method DoDelete(ghost key: string, ghost i: nat)
      requires Valid() && key in m && chainoff == ChainOff(key)
      requires var chain := ls.chains[Hash(key)];
               && i < |chain| && key in at && idxoff == chain[i] == at[key] && ptroff == Loc(chainoff, chain, i)
               && ptrval == At(chain, i + 1)
               && idxoff in im.recs && im.recs[idxoff] == Info(key, datoff, datlen) && keybuf == key
      modifies `idx, `dat, `pos, `im, `ls, `at, `m, `keybuf, `idxoff, `datoff, `datlen, `ptrval
      ensures Valid() && m == old(m) - {key}
      ensures |idx| == |old(idx)| && |dat| == |old(dat)|
    {
      hide Holds, Means, DataTiled, Hash, HasValue, Body, ListsOk, Release, Unchain, Write, InfoOk, Loc, At,
        DeletedImage, Spaces;
      ghost var h, o := Hash(key), idxoff;
      DeleteSound(idx, dat, im, ls, at, m, h, i);
      var blanks := Spaces(datlen - 1);
      WriteDat(blanks, datoff);
      MoveToFree();
      ls := Release(Unchain(ls, h, i), o);
      at, m := at - {key}, m - {key};
    }

    /** The index writes of _db_dodelete: blank record, free list pointer, chain pointer. */
    method MoveToFree()
      requires Holds(idx, im) && FREE_OFF in im.ptrs && im.ptrs[FREE_OFF] <= PTR_MAX
      requires idxoff in im.recs && im.recs[idxoff] == Info(keybuf, datoff, datlen)
      requires idxoff <= PTR_MAX && idxoff != FREE_OFF && ptrval <= PTR_MAX && ptroff in im.ptrs
      modifies `idx, `pos, `im, `keybuf, `idxoff, `ptrval
      ensures im == DeletedImage(old(im), old(idxoff), ptroff, old(ptrval))
      ensures Holds(idx, im) && |idx| == |old(idx)|
    {
      hide Holds;
      var blankkey := Spaces(|keybuf|);
      var freeptr := ReadPtr(FREE_OFF);
      var saveptr := ptrval;
      RewriteIdx(blankkey, idxoff, freeptr);
      var _ := WritePtr(FREE_OFF, idxoff);
      var _ := WritePtr(ptroff, saveptr);
    }

    /** db_delete. */
    method Delete(key: string) returns (rc: int)
      requires Valid()
      modifies this
      ensures Valid()
      ensures (rc, m) == DeleteSpec(old(m), key)
      ensures rc == (if key in old(m) then 0 else -1) && m == old(m) - {key}
      ensures key !in old(m) ==> idx == old(idx) && dat == old(dat)
    {
      hide Holds, Means, DataTiled, Hash, HasValue, Body, ListsOk;
      ghost var i;
      rc, i := FindAndLock(key);
      if rc == 0 {
        DoDelete(key, i);
      }
    }

    /** _db_findfree: take the first free record of exactly these sizes. */
    method FindFree(keylen: nat, datlen': nat) returns (rc: int)
      requires Valid()
      modifies `idx, `pos, `im, `ls, `hand, `keybuf, `idxoff, `idxlen, `datoff, `datlen, `ptrval
      ensures Holds(idx, im) && ListsOk(im, ls, hand) && DataTiled(im, |dat|) && Means(im, ls, hand, dat, at, m)
      ensures |idx| == |old(idx)|
      ensures rc == if old(FreeFits(im, ls, keylen, datlen')) then 0 else -1
      ensures rc == -1 ==> Valid() && im == old(im) && ls == old(ls)
      ensures rc == 0 ==> FirstFit(old(im), old(ls).free, idxoff, keylen, datlen')
      ensures rc == 0 ==>
        && hand == {idxoff} && idxoff in im.recs && idxoff !in ls.free && idxoff <= PTR_MAX
        && im.recs[idxoff] == Info(keybuf, datoff, datlen) && |keybuf| == keylen && datlen == datlen'
        && forall h :: 0 <= h < NHASH && HeadLoc(h) in old(im).ptrs ==>
             HeadLoc(h) in im.ptrs && im.ptrs[HeadLoc(h)] == old(im).ptrs[HeadLoc(h)]
    {
      hide Holds, Means, DataTiled, Hash, HasValue, Body, ListsOk, IsList, Loc, At, SetPtr, Unfree, FirstFit;
      ghost var was := ls.free;
      FreeMembers(im, ls, {});
      FilePointers(idx, im);
      var saveoffset := FREE_OFF;
      ListStep(im.ptrs, FREE_OFF, was, 0);
      ListStart(FREE_OFF, was);
      var offset := ReadPtr(saveoffset);
      ghost var i := 0;
      while offset != 0
        modifies `pos, `keybuf, `idxoff, `idxlen, `datoff, `datlen, `ptrval
        invariant 0 <= i <= |was| && offset == At(was, i) && saveoffset == Loc(FREE_OFF, was, i)
        invariant forall j :: 0 <= j < i ==>
          was[j] in im.recs && !(|im.recs[was[j]].key| == keylen && im.recs[was[j]].datlen == datlen')
        decreases |was| - i
      {
        ListStep(im.ptrs, FREE_OFF, was, i);
        var nextoffset := ReadIdx(offset);
        if |keybuf| == keylen && datlen == datlen' {
          break;
        }
        saveoffset := offset;
        offset := nextoffset;
        i := i + 1;
      }
      ListStep(im.ptrs, FREE_OFF, was, i);
      if offset == 0 {
        return -1;
      }
      assert offset in ls.free;
      FirstFitIs(im, was, i, keylen, datlen');
      PtrElsewhere(im, saveoffset, ptrval);
      UnfreeSound(idx, dat, im, ls, at, m, i);
      var ok := WritePtr(saveoffset, ptrval);
      ls := Unfree(ls, i);
      hand := {idxoff};
      return 0;
    }

    /** The append half of db_store: data, then index record, then the hash table. */
    method Append(key: string, data: string, p: nat) returns (ok: bool)
      requires Valid() && key !in m && KeyText(key) && CText(data) && LengthOk(data)
      requires chainoff == ChainOff(key) && chainoff in im.ptrs && p == im.ptrs[chainoff] && p <= PTR_MAX
      modifies `idx, `dat, `pos, `im, `ls, `hand, `at, `m, `keybuf, `idxoff, `datoff, `datlen, `ptrval
      ensures ok <==> AppendFits(key, data, |old(idx)|, |old(dat)|)
      ensures ok ==> Valid() && m == old(m)[key := data]
      ensures !ok ==> Survives() && m == old(m)
    {
      hide Holds, Means, DataTiled, Hash, HasValue, Body, ListsOk, Chain, Write, SetPtr, AddRec, GrownImage, KeyText,
        CText;
      ghost var im0, end, h := im, |idx|, Hash(key);
      ghost var r := Info(key, |dat|, |data| + 1);
      ghost var dat0 := dat;
      TailMeans(im, ls, dat, at, m, data + "\n");
      WriteDat(data, |dat|);
      ok := AppendIdx(key, p);
      if !ok {
        return;
      }
      GrowSound(old(idx), dat0, im0, ls, at, m, key, data);
      GrownSteps(im0, end, h, r);
      hand := {end};
      ok := WritePtr(chainoff, idxoff);
      if !ok {
        return;
      }
      assert im == GrownImage(im0, end, h, r);
      ls, hand := Chain(ls, h, end), {};
      at, m := at[key := end], m[key := data];
    }

    /** db_store. */
    method Store(key: string, data: string, flag: int) returns (r: Outcome)
      requires Valid() && KeyText(key) && CText(data)
      modifies this
      ensures r.Died? == (ValidFlag(flag) &&
        (!LengthOk(data)
         || (old(Appends(im, ls, m, key, data, flag)) && !AppendFits(key, data, |old(idx)|, |old(dat)|))))
      ensures r.Returned? ==> Valid() && (r.rc, m) == StoreSpec(old(m), key, data, flag)
      ensures flag !in {1, 2, 3} ==> r == Returned(-1)
      ensures r.Returned? && flag in {1, 2, 3} ==>
        && (r.rc == 1 <==> flag == 1 && key in old(m)) && (r.rc == -1 <==> flag == 2 && key !in old(m))
        && (r.rc == 0 <==> (flag == 1 && key !in old(m)) || (flag == 2 && key in old(m)) || flag == 3)
      ensures r.Returned? ==> m == if r.rc == 0 then old(m)[key := data] else old(m)
      ensures r.Returned? && r.rc != 0 ==> idx == old(idx) && dat == old(dat)
      ensures r.Died? && LengthOk(data) ==> Survives() && m == old(m) - {key}
      ensures r.Died? && !LengthOk(data) ==> Valid() && m == old(m) && idx == old(idx) && dat == old(dat)
    {
      hide Holds, Means, DataTiled, Hash, HasValue, Body, ListsOk;
      if !ValidFlag(flag) {
        return Returned(-1);
      }
      if |data| + 1 < DATLEN_MIN || |data| + 1 > DATLEN_MAX {
        return Died;
      }
      var rc, i := FindAndLock(key);
      if rc < 0 {
        if flag == DB_REPLACE {
          return Returned(-1);
        }
        FilePointers(idx, im);
        var p := ReadPtr(chainoff);
        rc := FindFree(|key|, |data| + 1);
        if rc < 0 {
          var ok := Append(key, data, p);
          if !ok {
            assert m == old(m) - {key};
            return Died;
          }
        } else {
          Reuse(key, data, p);
        }
      } else {
        if flag == DB_INSERT {
          return Returned(1);
        }
        if |data| + 1 != datlen {
          DoDelete(key, i);
          FilePointers(idx, im);
          var p := ReadPtr(chainoff);
          var ok := Append(key, data, p);
          if !ok {
            return Died;
          }
          assert m == old(m)[key := data];
        } else {
          OverwriteSound(idx, dat, im, ls, at, m, key, data);
          WriteDat(data, datoff);
          m := m[key := data];
        }
      }
      return Returned(0);
    }

    /** The reuse half of db_store: refill the record _db_findfree took. */
    method Reuse(key: string, data: string, p: nat)
      requires Holds(idx, im) && DataTiled(im, |dat|) && key !in m && KeyText(key) && CText(data)
      requires hand == {idxoff} && idxoff in im.recs && idxoff !in ls.free && idxoff <= PTR_MAX
      requires ListsOk(im, ls, hand) && Means(im, ls, hand, dat, at, m)
      requires im.recs[idxoff] == Info(keybuf, datoff, datlen) && |keybuf| == |key| && datlen == |data| + 1
      requires chainoff == ChainOff(key) && chainoff in im.ptrs && p == im.ptrs[chainoff] && p <= PTR_MAX
      modifies `idx, `dat, `pos, `im, `ls, `hand, `at, `m, `keybuf, `idxoff, `datoff, `datlen, `ptrval
      ensures Valid() && m == old(m)[key := data]
    {
      hide Holds, Means, DataTiled, Hash, HasValue, Body, ListsOk, Chain, Write, SetPtr, SetRec, LinkedImage, KeyText,
        CText;
      ghost var im0, o, h := im, idxoff, Hash(key);
      ghost var r := Info(key, datoff, datlen);
      ReuseSound(idx, dat, im, ls, at, m, o, key, data);
      LinkedSteps(im, o, h, r);
      WriteDat(data, datoff);
      RewriteIdx(key, idxoff, p);
      var _ := WritePtr(chainoff, idxoff);
      assert im == LinkedImage(im0, o, h, r);
      ls, hand := Chain(ls, h, o), {};
      at, m := at[key := o], m[key := data];
    }
  
    /** db_rewind. */
    method Rewind()
      modifies `pos, `idxoff
      ensures pos == FIRST_REC
    {
      var offset := (NHASH + 1) * PTR_SZ;
      idxoff := offset + 1;
      pos := offset + 1;
    }

    /** db_nextrec: the next record in file order whose key is not all blank. The ghost
        numbers say which record the scan stood at and which one it stopped at. */
    method NextRec(ghost i: nat) returns (r: Entry, ghost j: nat)
      requires Valid() && i <= |im.order| && pos == StartOf(im, |idx|, i)
      modifies `pos, `keybuf, `idxoff, `idxlen, `datoff, `datlen, `ptrval
      ensures i <= j <= |im.order|
      ensures forall k :: i <= k < j ==> im.order[k] in im.recs && Blank(im.recs[im.order[k]].key)
      ensures r.NoEntry? <==> j == |im.order|
      ensures r.Entry? ==>
        && im.order[j] in im.recs && !Blank(r.key) && im.recs[im.order[j]].key == r.key
        && r.key in m && r.value == m[r.key] && pos == StartOf(im, |idx|, j + 1)
    {
      hide Holds, Means, DataTiled, HasValue, Body, ListsOk;
      j := i;
      while true
        invariant i <= j <= |im.order| && pos == StartOf(im, |idx|, j)
        invariant forall k :: i <= k < j ==> im.order[k] in im.recs && Blank(im.recs[im.order[k]].key)
        decreases |im.order| - j
      {
        ScanStop(idx, im, j);
        if ParseIdx(idx, pos) == Eof {
          return NoEntry, j;
        }
        var _ := ReadIdx(pos);
        var blank := IsBlankKey(keybuf);
        if !blank {
          break;
        }
        j := j + 1;
      }
      NonblankIsLive(idx, dat, im, ls, at, m, im.order[j]);
      var v := ReadDat();
      r := Entry(keybuf, v);
    }
  }

  /** None of the first i records of the chain has the key. */
  ghost predicate Passed(im: Image, chain: seq<nat>, i: nat, key: string) {
    i <= |chain| && forall j :: 0 <= j < i ==> chain[j] in im.recs && im.recs[chain[j]].key != key
  }

  lemma PassedNone(im: Image, chain: seq<nat>, key: string)
    ensures Passed(im, chain, 0, key)
  {
  }

  lemma PassedMore(im: Image, chain: seq<nat>, i: nat, key: string)
    requires Passed(im, chain, i, key) && i < |chain| && chain[i] in im.recs && im.recs[chain[i]].key != key
    ensures Passed(im, chain, i + 1, key)
  {
  }

  lemma NotInChain(im: Image, ls: Lists, dat: string, at: map<string, nat>, m: map<string, string>, key: string)
    requires ListsOk(im, ls, {}) && Means(im, ls, {}, dat, at, m) && |ls.chains| == NHASH
    requires Passed(im, ls.chains[Hash(key)], |ls.chains[Hash(key)]|, key)
    ensures key !in m
  {
    hide Hash, Means, ListsOk;
    ChainExhausted(im, ls, dat, at, m, key);
  }

  datatype Entry = NoEntry | Entry(key: string, value: string)

  /** The inner loop of db_nextrec: skip blanks up to the end of the key. */
  method IsBlankKey(key: string) returns (blank: bool)
    ensures blank == Blank(key)
    ensures blank <==> forall k :: 0 <= k < |key| ==> key[k] == ' '
  {
    var i := 0;
    while i < |key| && key[i] == ' '
      invariant 0 <= i <= |key| && forall k :: 0 <= k < i ==> key[k] == ' '
    {
      i := i + 1;
    }
    blank := i == |key|;
  }

  /** At the start of a record a scan reads that record; at the end of the file, nothing. */
  lemma ScanStop(idx: string, im: Image, j: nat)
    requires Holds(idx, im) && j <= |im.order|
    ensures ParseIdx(idx, StartOf(im, |idx|, j)) == Eof <==> j == |im.order|
    ensures j < |im.order| ==>
              && im.order[j] in im.recs
              && StartOf(im, |idx|, j + 1) == im.order[j] + RecLen(im.recs[im.order[j]])
  {
    if j < |im.order| {
      assert Fills(im, |idx|, j);
      ReadIdxOk(idx, im, im.order[j]);
    }
  }

  /** A record with a key that is not blank is live: deletion blanks the key. */
  lemma NonblankIsLive(idx: string, dat: string, im: Image, ls: Lists,
                       at: map<string, nat>, m: map<string, string>, o: nat)
    requires Sound(idx, dat, im, ls, at, m) && o in im.recs && !Blank(im.recs[o].key)
    ensures var r := im.recs[o];
            && r.key in m && r.key in at && at[r.key] == o
            && r.datlen == |m[r.key]| + 1 && r.datoff + r.datlen <= |dat|
            && dat[r.datoff + r.datlen - 1] == '\n' && dat[r.datoff..r.datoff + r.datlen - 1] == m[r.key]
  {
    hide Holds, DataTiled, HasValue, Means, Body, Hash, Blank, IsList;
    var h := Hash(im.recs[o].key);
    var i :| 0 <= i < |ls.chains[h]| && ls.chains[h][i] == o;
    LiveKey(im, ls, dat, at, m, h, i);
  }

  /** What a scan returns from the records before number i: the nonblank ones, in file order. */
  ghost function EntriesTo(im: Image, m: map<string, string>, i: nat): seq<Entry>
    requires i <= |im.order|
  {
    if i == 0 then []
    else
      var before, o := EntriesTo(im, m, i - 1), im.order[i - 1];
      if o in im.recs && !Blank(im.recs[o].key) && im.recs[o].key in m
      then before + [Entry(im.recs[o].key, m[im.recs[o].key])]
      else before
  }

  lemma {:induction false} EntriesSkip(im: Image, m: map<string, string>, i: nat, j: nat)
    requires i <= j <= |im.order|
    requires forall k :: i <= k < j ==> im.order[k] in im.recs && Blank(im.recs[im.order[k]].key)
    ensures EntriesTo(im, m, j) == EntriesTo(im, m, i)
    decreases j
  {
    if i < j {
      EntriesSkip(im, m, i, j - 1);
    }
  }

  /** Each entry of a scan is the entry of a record before number i. */
  lemma {:induction false} EntriesFrom(im: Image, m: map<string, string>, i: nat, e: Entry)
    requires i <= |im.order| && e in EntriesTo(im, m, i)
    ensures e.Entry? && !Blank(e.key) && e.key in m && e.value == m[e.key]
    ensures exists k :: 0 <= k < i && KeyAt(im, k, e.key)
  {
    if e in EntriesTo(im, m, i - 1) {
      EntriesFrom(im, m, i - 1, e);
      var k :| 0 <= k < i - 1 && KeyAt(im, k, e.key);
      assert KeyAt(im, k, e.key);
    } else {
      assert KeyAt(im, i - 1, e.key);
    }
  }

  lemma {:induction false} EntriesHave(im: Image, m: map<string, string>, i: nat, k: nat)
    requires k < i <= |im.order| && im.order[k] in im.recs
    requires !Blank(im.recs[im.order[k]].key) && im.recs[im.order[k]].key in m
    ensures Entry(im.recs[im.order[k]].key, m[im.recs[im.order[k]].key]) in EntriesTo(im, m, i)
  {
    if k < i - 1 {
      EntriesHave(im, m, i - 1, k);
    }
  }

  ghost predicate KeyAt(im: Image, k: nat, key: string) {
    k < |im.order| && im.order[k] in im.recs && im.recs[im.order[k]].key == key
  }

  ghost predicate KeysDiffer(es: seq<Entry>) {
    forall i, j :: 0 <= i < j < |es| ==> es[i] != NoEntry && es[j] != NoEntry && es[i].key != es[j].key
  }

  /** No key is returned twice: the map's keys have one live record each. */
  lemma {:induction false} EntriesDiffer(idx: string, dat: string, im: Image, ls: Lists,
                                         at: map<string, nat>, m: map<string, string>, i: nat)
    requires Sound(idx, dat, im, ls, at, m) && i <= |im.order|
    ensures KeysDiffer(EntriesTo(im, m, i))
  {
    hide Holds, DataTiled, HasValue, Means, Body, Hash, Blank, ListsOk;
    if i > 0 {
      EntriesDiffer(idx, dat, im, ls, at, m, i - 1);
      var o := im.order[i - 1];
      var es := EntriesTo(im, m, i - 1);
      if o in im.recs && !Blank(im.recs[o].key) && im.recs[o].key in m {
        forall x | 0 <= x < |es|
          ensures es[x].Entry? && es[x].key != im.recs[o].key
        {
          EntryEarlier(idx, dat, im, ls, at, m, i, es[x]);
        }
      }
    }
  }

  lemma EntryEarlier(idx: string, dat: string, im: Image, ls: Lists,
                     at: map<string, nat>, m: map<string, string>, i: nat, e: Entry)
    requires Sound(idx, dat, im, ls, at, m) && 0 < i <= |im.order| && e in EntriesTo(im, m, i - 1)
    requires im.order[i - 1] in im.recs && !Blank(im.recs[im.order[i - 1]].key)
    ensures e.Entry? && e.key != im.recs[im.order[i - 1]].key
  {
    hide Holds, DataTiled, HasValue, Means, Body, Hash, Blank, ListsOk;
    EntriesFrom(im, m, i - 1, e);
    var k :| 0 <= k < i - 1 && KeyAt(im, k, e.key);
    ScanNoRepeat(idx, im);
    NonblankIsLive(idx, dat, im, ls, at, m, im.order[i - 1]);
    NonblankIsLive(idx, dat, im, ls, at, m, im.order[k]);
  }

  lemma ScanNoRepeat(idx: string, im: Image)
    requires Holds(idx, im)
    ensures Distinct(im.order)
  {
    OrderNoDup(im, |idx|);
  }

  lemma ScanStart(idx: string, im: Image)
    requires Holds(idx, im)
    ensures StartOf(im, |idx|, 0) == FIRST_REC
  {
  }

  lemma KeyPlace(idx: string, dat: string, im: Image, ls: Lists, at: map<string, nat>, m: map<string, string>,
                 k: string)
    returns (i: nat)
    requires Sound(idx, dat, im, ls, at, m) && k in m
    ensures i < |im.order| && im.order[i] in im.recs && im.recs[im.order[i]].key == k
  {
    hide ListsOk, DataTiled, HasValue, RecordAt, PtrAt;
    i :| 0 <= i < |im.order| && im.order[i] == at[k];
  }

  /** The entries of a whole scan are the map, but for keys that are all blank. */
  lemma ScanExact(idx: string, dat: string, im: Image, ls: Lists, at: map<string, nat>, m: map<string, string>)
    requires Sound(idx, dat, im, ls, at, m)
    ensures var es := EntriesTo(im, m, |im.order|);
            && KeysDiffer(es)
            && (forall e :: e in es ==> e.Entry? && !Blank(e.key) && e.key in m && e.value == m[e.key])
            && (forall k :: k in m && !Blank(k) ==> Entry(k, m[k]) in es)
  {
    hide Holds, ListsOk, DataTiled, HasValue, Means, Blank, EntriesTo, KeysDiffer;
    var es := EntriesTo(im, m, |im.order|);
    EntriesDiffer(idx, dat, im, ls, at, m, |im.order|);
    forall e | e in es
      ensures e.Entry? && !Blank(e.key) && e.key in m && e.value == m[e.key]
    {
      EntriesFrom(im, m, |im.order|, e);
    }
    forall k | k in m && !Blank(k)
      ensures Entry(k, m[k]) in es
    {
      var i := KeyPlace(idx, dat, im, ls, at, m, k);
      EntriesHave(im, m, |im.order|, i);
    }
  }

  /** A rewind and then db_nextrec until it reports the end: every live key that is not
      blank, with its value, exactly once; nothing deleted, and nothing else. */
  method ScanAll(db: Db) returns (es: seq<Entry>)
    requires db.Valid()
    modifies db
    ensures db.Valid() && db.m == old(db.m) && db.idx == old(db.idx) && db.dat == old(db.dat)
    ensures forall e :: e in es ==> e.Entry? && !Blank(e.key) && e.key in db.m && e.value == db.m[e.key]
    ensures forall k :: k in db.m && !Blank(k) ==> Entry(k, db.m[k]) in es
    ensures KeysDiffer(es)
    ensures forall k, v :: (Entry(k, v) in es <==> k in db.m && db.m[k] == v && exists c :: c in k && c != ' ')
    ensures NoEntry !in es && forall i, j :: 0 <= i < j < |es| ==> es[i] != es[j]
  {
    hide Holds, Means, DataTiled, HasValue, Body, ListsOk, Blank, KeysDiffer, StartOf;
    es := [];
    db.Rewind();
    ScanStart(db.idx, db.im);
    ghost var i, im := 0, db.im;
    var done := false;
    while !done
      modifies db`pos, db`keybuf, db`idxoff, db`idxlen, db`datoff, db`datlen, db`ptrval
      invariant i <= |im.order| && (done ==> i == |im.order|)
      invariant !done ==> db.pos == StartOf(im, |db.idx|, i)
      invariant es == EntriesTo(im, db.m, i)
      decreases |im.order| - i, !done
    {
      var e, j := db.NextRec(i);
      EntriesSkip(im, db.m, i, j);
      if e.NoEntry? {
        done, i := true, j;
      } else {
        es, i := es + [e], j + 1;
      }
    }
    ScanExact(db.idx, db.dat, im, db.ls, db.at, db.m);
    ScanMeans(es, db.m);
  }

  /** The same without the definitions: the pairs of the map whose key has some other character than a blank. */
  lemma ScanMeans(es: seq<Entry>, m: map<string, string>)
    requires KeysDiffer(es)
    requires forall e :: e in es ==> e.Entry? && !Blank(e.key) && e.key in m && e.value == m[e.key]
    requires forall k :: k in m && !Blank(k) ==> Entry(k, m[k]) in es
    ensures forall k, v :: (Entry(k, v) in es <==> k in m && m[k] == v && exists c :: c in k && c != ' ')
    ensures NoEntry !in es && forall i, j :: 0 <= i < j < |es| ==> es[i] != es[j]
  {
    forall k, v
      ensures Entry(k, v) in es <==> k in m && m[k] == v && exists c :: c in k && c != ' '
    {
      assert Blank(k) <==> !exists c :: c in k && c != ' ' by {
        if !Blank(k) {
          var i :| 0 <= i < |k| && k[i] != ' ';
          assert k[i] in k;
        }
      }
    }
  }
}
