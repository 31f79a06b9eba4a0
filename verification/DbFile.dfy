/** The index file as bytes against the index file as pointer fields and records. */
module DbFile {
  import opened Common
  import opened DbFormat
  import opened DbLists

  /** The pointer fields by location, the records by offset, and the offsets in file order. */
  datatype Image = Image(ptrs: Ptrs, recs: map<nat, Info>, order: seq<nat>)

  predicate IsHeadLoc(loc: nat) {
    HASH_OFF <= loc < FIRST_REC - 1 && loc % PTR_SZ == 0
  }

  /** Where record i of the file starts; past the last one, where the file ends. */
  function StartOf(im: Image, end: nat, i: nat): nat {
    if i < |im.order| then im.order[i] else end
  }

  /** Record i of the file ends where the next one, or the end of the file, is. */
  ghost predicate Fills(im: Image, end: nat, i: nat)
    requires i < |im.order|
  {
    var o := im.order[i];
    o in im.recs && StartOf(im, end, i + 1) == o + RecLen(im.recs[o])
  }

  /** The records fill the file from the end of the hash table to the end of the file. */
  ghost predicate Tiled(im: Image, end: nat) {
    && StartOf(im, end, 0) == FIRST_REC
    && (forall i :: 0 <= i < |im.order| ==> Fills(im, end, i))
    && (forall o :: o in im.recs ==> o in im.order)
  }

  ghost predicate Geometry(im: Image, end: nat) {
    && Tiled(im, end)
    && (forall loc :: loc in im.ptrs <==> loc == FREE_OFF || IsHeadLoc(loc) || loc in im.recs)
    && (forall loc :: loc in im.ptrs ==> im.ptrs[loc] <= PTR_MAX)
    && (forall o :: o in im.recs ==> InfoOk(im.recs[o]))
  }

  ghost predicate PtrAt(file: string, loc: nat, p: nat) {
    loc + PTR_SZ <= |file| && file[loc..loc + PTR_SZ] == PtrField(p)
  }

  /** The bytes of the file spell out the image, and nothing else. */
  ghost predicate Holds(file: string, im: Image) {
    && Geometry(im, |file|)
    && FIRST_REC <= |file| && file[FIRST_REC - 1] == '\n'
    && (forall loc :: loc in im.ptrs ==> PtrAt(file, loc, im.ptrs[loc]))
    && (forall o :: o in im.recs ==> RecordAt(file, o, im.ptrs[o], im.recs[o]))
  }

  lemma {:induction false} OrderApart(im: Image, end: nat, i: nat, j: nat)
    requires Tiled(im, end) && i < j <= |im.order|
    ensures im.order[i] in im.recs
    ensures im.order[i] + RecLen(im.recs[im.order[i]]) <= StartOf(im, end, j)
    decreases j - i
  {
    assert Fills(im, end, i);
    if i + 1 < j {
      OrderApart(im, end, i + 1, j);
    }
  }

  lemma {:induction false} RecordsAfterTable(im: Image, end: nat, i: nat)
    requires Tiled(im, end) && i <= |im.order|
    ensures FIRST_REC <= StartOf(im, end, i)
  {
    if i > 0 {
      assert Fills(im, end, i - 1);
      RecordsAfterTable(im, end, i - 1);
    }
  }

  /** Two records never share a byte. */
  lemma Apart(im: Image, end: nat, o: nat, o': nat)
    requires Tiled(im, end) && o in im.recs && o' in im.recs && o != o'
    ensures o + RecLen(im.recs[o]) <= o' || o' + RecLen(im.recs[o']) <= o
  {
    var i :| 0 <= i < |im.order| && im.order[i] == o;
    var j :| 0 <= j < |im.order| && im.order[j] == o';
    if i < j {
      OrderApart(im, end, i, j);
    } else {
      OrderApart(im, end, j, i);
    }
  }

  lemma Bounds(im: Image, end: nat, o: nat)
    requires Tiled(im, end) && o in im.recs
    ensures FIRST_REC <= o && o + RecLen(im.recs[o]) <= end
  {
    var i :| 0 <= i < |im.order| && im.order[i] == o;
    RecordsAfterTable(im, end, i);
    OrderApart(im, end, i, |im.order|);
  }

  lemma OrderNoDup(im: Image, end: nat)
    requires Tiled(im, end)
    ensures Distinct(im.order)
  {
    forall i, j | 0 <= i < j < |im.order|
      ensures im.order[i] != im.order[j]
    {
      OrderApart(im, end, i, j);
    }
  }

  /** Two pointer fields never share a byte. */
  lemma PtrsApart(im: Image, end: nat, a: nat, b: nat)
    requires Geometry(im, end) && a in im.ptrs && b in im.ptrs && a != b
    ensures a + PTR_SZ <= b || b + PTR_SZ <= a
  {
    if a in im.recs { Bounds(im, end, a); }
    if b in im.recs { Bounds(im, end, b); }
    if a in im.recs && b in im.recs { Apart(im, end, a, b); }
  }

  lemma HeadLocs(h: nat)
    requires h < NHASH
    ensures IsHeadLoc(HeadLoc(h))
  {
  }

  /** Every pointer location but the free list's lies clear of every record's body. */
  lemma PtrOutside(im: Image, end: nat, loc: nat, o: nat)
    requires Geometry(im, end) && loc in im.ptrs && o in im.recs && loc != o
    ensures loc + PTR_SZ <= o || o + RecLen(im.recs[o]) <= loc
  {
    Bounds(im, end, o);
    if loc in im.recs { Apart(im, end, loc, o); }
  }

  // ---------------------------------------------------------------- reading

  lemma ReadPtrOk(file: string, im: Image, loc: nat)
    requires Holds(file, im) && loc in im.ptrs
    ensures loc + PTR_SZ <= |file| && Atol(file[loc..loc + PTR_SZ]) == im.ptrs[loc]
  {
    assert PtrAt(file, loc, im.ptrs[loc]);
    AtolPadDec(PTR_SZ, im.ptrs[loc]);
  }

  lemma ReadIdxOk(file: string, im: Image, o: nat)
    requires Holds(file, im) && o in im.recs
    ensures ParseIdx(file, o) == Got(im.ptrs[o], |Body(im.recs[o])|, im.recs[o])
  {
    ReadBack(file, o, im.ptrs[o], im.recs[o]);
  }

  // ---------------------------------------------------------------- writing

  function SetPtr(im: Image, loc: nat, p: nat): Image {
    im.(ptrs := im.ptrs[loc := p])
  }

  /** _db_writeptr changes one pointer field and nothing else. */
  lemma WritePtrOk(file: string, im: Image, loc: nat, p: nat)
    requires Holds(file, im) && loc in im.ptrs && p <= PTR_MAX
    ensures |Write(file, loc, PtrField(p))| == |file|
    ensures Holds(Write(file, loc, PtrField(p)), SetPtr(im, loc, p))
  {
    PtrFieldLength(p);
    var f', im' := Write(file, loc, PtrField(p)), SetPtr(im, loc, p);
    assert PtrAt(file, loc, im.ptrs[loc]);
    PtrKeepsTiling(im, |file|, loc, p);
    forall a | a in im'.ptrs
      ensures PtrAt(f', a, im'.ptrs[a])
    {
      PtrKeepsPtr(file, im, loc, p, a);
    }
    forall o | o in im'.recs
      ensures RecordAt(f', o, im'.ptrs[o], im'.recs[o])
    {
      PtrKeepsRecord(file, im, loc, p, o);
    }
    if loc in im.recs { Bounds(im, |file|, loc); }
    WriteOther(file, loc, PtrField(p), FIRST_REC - 1, FIRST_REC);
    assert f'[FIRST_REC - 1] == f'[FIRST_REC - 1..FIRST_REC][0] == file[FIRST_REC - 1..FIRST_REC][0];
  }

  lemma PtrKeepsTiling(im: Image, end: nat, loc: nat, p: nat)
    requires Tiled(im, end)
    ensures Tiled(SetPtr(im, loc, p), end)
  {
    var im' := SetPtr(im, loc, p);
    forall i | 0 <= i < |im'.order|
      ensures Fills(im', end, i)
    {
      assert Fills(im, end, i);
    }
  }

  lemma PtrKeepsPtr(file: string, im: Image, loc: nat, p: nat, a: nat)
    requires Holds(file, im) && loc in im.ptrs && p <= PTR_MAX && a in im.ptrs
    requires loc + PTR_SZ <= |file| && |PtrField(p)| == PTR_SZ
    ensures PtrAt(Write(file, loc, PtrField(p)), a, SetPtr(im, loc, p).ptrs[a])
  {
    hide PtrField, RecordAt, Tiled, InfoOk, Write, IsHeadLoc;
    WriteSame(file, loc, PtrField(p));
    if a != loc {
      PtrsApart(im, |file|, a, loc);
      assert PtrAt(file, a, im.ptrs[a]);
      WriteOther(file, loc, PtrField(p), a, a + PTR_SZ);
    }
  }

  lemma PtrKeepsRecord(file: string, im: Image, loc: nat, p: nat, o: nat)
    requires Holds(file, im) && loc in im.ptrs && p <= PTR_MAX && o in im.recs
    requires loc + PTR_SZ <= |file| && |PtrField(p)| == PTR_SZ
    ensures RecordAt(Write(file, loc, PtrField(p)), o, SetPtr(im, loc, p).ptrs[o], im.recs[o])
  {
    hide Body, PtrField, LenField, Tiled, InfoOk, Write, IsHeadLoc;
    assert RecordAt(file, o, im.ptrs[o], im.recs[o]);
    PtrKeepsPtr(file, im, loc, p, o);
    if o != loc { PtrOutside(im, |file|, loc, o); }
    WriteOther(file, loc, PtrField(p), o + PTR_SZ, o + PTR_SZ + IDXLEN_SZ);
    WriteOther(file, loc, PtrField(p), o + PTR_SZ + IDXLEN_SZ, o + RecLen(im.recs[o]));
  }

  function SetRec(im: Image, o: nat, p: nat, r: Info): Image {
    im.(ptrs := im.ptrs[o := p], recs := im.recs[o := r])
  }

  /** _db_writeidx over an existing record of the same length touches no neighbour. */
  lemma RewriteOk(file: string, im: Image, o: nat, p: nat, r: Info)
    requires Holds(file, im) && o in im.recs && p <= PTR_MAX
    requires InfoOk(r) && RecLen(r) == RecLen(im.recs[o])
    ensures |Write(file, o, RecBytes(p, r))| == |file|
    ensures Holds(Write(file, o, RecBytes(p, r)), SetRec(im, o, p, r))
  {
    hide Body, PtrField, LenField, RecBytes, RecLen, Tiled, InfoOk, Write, IsHeadLoc, RecordAt;
    RecBytesLength(p, r) by { InfoLength(r); }
    Bounds(im, |file|, o);
    var bytes := RecBytes(p, r);
    var f', im' := Write(file, o, bytes), SetRec(im, o, p, r);
    assert RecordAt(f', o, p, r) by {
      InfoLength(r);
      WriteRecord(file, o, p, r);
    }
    forall a | a in im'.ptrs
      ensures PtrAt(f', a, im'.ptrs[a])
    {
      if a == o {
        RecordHasPtr(f', o, p, r);
      } else {
        PtrOutside(im, |file|, a, o);
        assert PtrAt(file, a, im.ptrs[a]);
        WriteOther(file, o, bytes, a, a + PTR_SZ);
      }
    }
    forall a | a in im'.recs
      ensures RecordAt(f', a, im'.ptrs[a], im'.recs[a])
    {
      if a != o {
        assert RecordAt(file, a, im.ptrs[a], im.recs[a]);
        Apart(im, |file|, a, o);
        RecordKept(file, o, bytes, a, im.ptrs[a], im.recs[a]);
      }
    }
    WriteOther(file, o, bytes, FIRST_REC - 1, FIRST_REC);
    assert f'[FIRST_REC - 1] == f'[FIRST_REC - 1..FIRST_REC][0] == file[FIRST_REC - 1..FIRST_REC][0];
    RewriteTiled(im, |file|, o, p, r);
  }

  lemma RecordHeld(file: string, im: Image, o: nat)
    requires Holds(file, im) && o in im.recs
    ensures InfoOk(im.recs[o]) && o <= |file|
  {
    hide RecordAt, PtrAt, InfoOk;
    Bounds(im, |file|, o);
  }

  lemma PtrElsewhere(im: Image, loc: nat, p: nat)
    requires loc in im.ptrs
    ensures SetPtr(im, loc, p).recs == im.recs
    ensures forall a :: a in im.ptrs ==>
              a in SetPtr(im, loc, p).ptrs && (a != loc ==> SetPtr(im, loc, p).ptrs[a] == im.ptrs[a])
  {
  }

  lemma InfoLength(r: Info)
    requires InfoOk(r)
    ensures |Body(r)| <= IDXLEN_MAX
  {
  }

  lemma RecordHasPtr(file: string, o: nat, p: nat, r: Info)
    requires RecordAt(file, o, p, r)
    ensures PtrAt(file, o, p)
  {
  }

  lemma RewriteTiled(im: Image, end: nat, o: nat, p: nat, r: Info)
    requires Tiled(im, end) && o in im.recs && RecLen(r) == RecLen(im.recs[o])
    ensures Tiled(SetRec(im, o, p, r), end)
  {
    var im' := SetRec(im, o, p, r);
    forall i | 0 <= i < |im'.order|
      ensures Fills(im', end, i)
    {
      assert Fills(im, end, i);
    }
  }

  lemma RecordKept(file: string, off: nat, bytes: string, a: nat, p: nat, r: Info)
    requires off <= |file| && RecordAt(file, a, p, r)
    requires a + RecLen(r) <= off || off + |bytes| <= a
    ensures RecordAt(Write(file, off, bytes), a, p, r)
  {
    WriteOther(file, off, bytes, a, a + PTR_SZ);
    WriteOther(file, off, bytes, a + PTR_SZ, a + PTR_SZ + IDXLEN_SZ);
    WriteOther(file, off, bytes, a + PTR_SZ + IDXLEN_SZ, a + RecLen(r));
  }

  function AddRec(im: Image, o: nat, p: nat, r: Info): Image {
    Image(im.ptrs[o := p], im.recs[o := r], im.order + [o])
  }

  /** _db_writeidx at the end of the file adds one record. */
  lemma AppendOk(file: string, im: Image, p: nat, r: Info)
    requires Holds(file, im) && p <= PTR_MAX && InfoOk(r)
    ensures |file| !in im.ptrs
    ensures |Write(file, |file|, RecBytes(p, r))| == |file| + RecLen(r)
    ensures Holds(Write(file, |file|, RecBytes(p, r)), AddRec(im, |file|, p, r))
  {
    hide Body, PtrField, LenField, RecBytes, RecLen, Tiled, InfoOk, Write, IsHeadLoc, RecordAt;
    RecBytesLength(p, r) by { InfoLength(r); }
    RecordsEnd(file, im);
    var o, bytes := |file|, RecBytes(p, r);
    var f', im' := Write(file, o, bytes), AddRec(im, o, p, r);
    assert RecordAt(f', o, p, r) by {
      InfoLength(r);
      WriteRecord(file, o, p, r);
    }
    forall a | a in im'.ptrs
      ensures PtrAt(f', a, im'.ptrs[a])
    {
      if a == o {
        RecordHasPtr(f', o, p, r);
      } else {
        assert PtrAt(file, a, im.ptrs[a]);
        WriteOther(file, o, bytes, a, a + PTR_SZ);
      }
    }
    forall a | a in im'.recs
      ensures RecordAt(f', a, im'.ptrs[a], im'.recs[a])
    {
      if a != o {
        assert RecordAt(file, a, im.ptrs[a], im.recs[a]);
        Bounds(im, |file|, a);
        RecordKept(file, o, bytes, a, im.ptrs[a], im.recs[a]);
      }
    }
    WriteOther(file, o, bytes, FIRST_REC - 1, FIRST_REC);
    assert f'[FIRST_REC - 1] == f'[FIRST_REC - 1..FIRST_REC][0] == file[FIRST_REC - 1..FIRST_REC][0];
    AppendTiled(im, |file|, p, r);
  }

  /** The end of the file is not a record or a pointer. */
  lemma RecordsEnd(file: string, im: Image)
    requires Holds(file, im)
    ensures |file| !in im.recs && |file| !in im.ptrs
  {
    hide RecordAt, PtrAt, InfoOk;
    if |file| in im.recs {
      Bounds(im, |file|, |file|);
    }
  }

  lemma AppendTiled(im: Image, end: nat, p: nat, r: Info)
    requires Tiled(im, end) && end !in im.recs
    ensures Tiled(AddRec(im, end, p, r), end + RecLen(r))
  {
    var im' := AddRec(im, end, p, r);
    var end' := end + RecLen(r);
    forall i | 0 <= i < |im'.order|
      ensures Fills(im', end', i)
    {
      if i < |im.order| {
        assert Fills(im, end, i);
        assert im'.order[i] == im.order[i];
      }
    }
    forall o | o in im'.recs
      ensures o in im'.order
    {
      if o == end {
        assert im'.order[|im.order|] == o;
      } else {
        var i :| 0 <= i < |im.order| && im.order[i] == o;
        assert im'.order[i] == o;
      }
    }
  }
}
