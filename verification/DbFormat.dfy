/** The text format of the database's index file: decimal fields, pointer fields,
    index records, and the parser that reads them back.

    A character stands for one byte of the file. */
module DbFormat {

  const IDXLEN_SZ: nat := 4
  const PTR_SZ: nat := 6
  const PTR_MAX: nat := 999999
  const NHASH: nat := 137
  const IDXLEN_MIN: nat := 6
  const IDXLEN_MAX: nat := 1024
  const DATLEN_MIN: nat := 2
  const DATLEN_MAX: nat := 1024

  /** Where the free-list pointer is. */
  const FREE_OFF: nat := 0
  /** Where the hash table starts. */
  const HASH_OFF: nat := 6
  /** Where the index records start: 138 pointers and a newline come first. */
  const FIRST_REC: nat := 829

  /** The contents of a C string: no null byte. */
  predicate CText(s: string) {
    '\0' !in s
  }

  /** A key the format can carry: the separator would be read as the end of the key. */
  predicate KeyText(s: string) {
    CText(s) && ':' !in s
  }

  // ---------------------------------------------------------------- decimal text

  predicate IsDigit(c: char) {
    '0' <= c <= '9'
  }

  function DigitChar(d: nat): (c: char)
    requires d < 10
    ensures IsDigit(c)
  {
    ('0' as int + d) as char
  }

  function DigitValue(c: char): (d: nat)
    requires IsDigit(c)
    ensures d < 10
  {
    c as int - '0' as int
  }

  predicate AllDigits(s: string) {
    forall i :: 0 <= i < |s| ==> IsDigit(s[i])
  }

  /** What printf's %d, %ld and %lld print for a number that is not negative. */
  function Dec(n: nat): (s: string)
    ensures |s| > 0 && AllDigits(s)
  {
    if n < 10 then [DigitChar(n)] else Dec(n / 10) + [DigitChar(n % 10)]
  }

  /** Right-justified in a field of width w, as printf's %*d does. */
  function Pad(w: nat, s: string): (r: string)
    ensures |r| == if |s| >= w then |s| else w
    decreases w
  {
    if |s| >= w then s else " " + Pad(w - 1, s)
  }

  predicate IsBlank(c: char) {
    c == ' ' || c == '\t' || c == '\n' || c == '\r' || c as int == 11 || c as int == 12
  }

  function SkipBlanks(s: string): string {
    if s != [] && IsBlank(s[0]) then SkipBlanks(s[1..]) else s
  }

  function ReadDigits(s: string, acc: nat): nat
    decreases |s|
  {
    if s == [] || !IsDigit(s[0]) then acc
    else ReadDigits(s[1..], 10 * acc + DigitValue(s[0]))
  }

  /** atol and atoi: blanks, an optional sign, then digits up to the first other character. */
  function Atol(s: string): int {
    var t := SkipBlanks(s);
    if t != [] && t[0] == '-' then -(ReadDigits(t[1..], 0) as int)
    else if t != [] && t[0] == '+' then ReadDigits(t[1..], 0)
    else ReadDigits(t, 0)
  }

  lemma {:induction false} ReadDigitsAppend(a: string, b: string, acc: nat)
    requires AllDigits(a)
    ensures ReadDigits(a + b, acc) == ReadDigits(b, ReadDigits(a, acc))
    decreases |a|
  {
    if a == [] {
      assert a + b == b;
    } else {
      assert (a + b)[1..] == a[1..] + b;
      ReadDigitsAppend(a[1..], b, 10 * acc + DigitValue(a[0]));
    }
  }

  lemma {:induction false} ReadDigitsDec(n: nat)
    ensures ReadDigits(Dec(n), 0) == n
  {
    if n < 10 {
      assert ReadDigits([DigitChar(n)], 0) == ReadDigits([], n) by {
        assert [DigitChar(n)][1..] == [];
      }
    } else {
      ReadDigitsDec(n / 10);
      var d := DigitChar(n % 10);
      ReadDigitsAppend(Dec(n / 10), [d], 0);
      assert [d][1..] == [];
      assert ReadDigits([d], n / 10) == ReadDigits([], 10 * (n / 10) + n % 10);
    }
  }

  lemma {:induction false} SkipBlanksPad(w: nat, s: string)
    requires s != [] && !IsBlank(s[0])
    ensures SkipBlanks(Pad(w, s)) == s
    decreases w
  {
    if |s| < w {
      SkipBlanksPad(w - 1, s);
      assert (" " + Pad(w - 1, s))[1..] == Pad(w - 1, s);
    }
  }

  /** A padded decimal field reads back as the number printed into it. */
  lemma AtolPadDec(w: nat, n: nat)
    ensures Atol(Pad(w, Dec(n))) == n
  {
    assert IsDigit(Dec(n)[0]);
    SkipBlanksPad(w, Dec(n));
    ReadDigitsDec(n);
  }

  lemma AtolDec(n: nat)
    ensures Atol(Dec(n)) == n
  {
    AtolPadDec(0, n);
  }

  function Pow10(k: nat): (p: nat)
    ensures p > 0
  {
    if k == 0 then 1 else 10 * Pow10(k - 1)
  }

  lemma {:induction false} DecLength(n: nat, k: nat)
    requires k > 0 && n < Pow10(k)
    ensures |Dec(n)| <= k
  {
    if n >= 10 {
      assert k > 1 by { assert Pow10(1) == 10 * Pow10(0); }
      DecLength(n / 10, k - 1);
    }
  }

  // ---------------------------------------------------------------- records

  /** An index record without its chain pointer. */
  datatype Info = Info(key: string, datoff: nat, datlen: nat)

  function Body(r: Info): (s: string)
    ensures |s| >= 5
  {
    r.key + ":" + Dec(r.datoff) + ":" + Dec(r.datlen) + "\n"
  }

  function PtrField(p: nat): string {
    Pad(PTR_SZ, Dec(p))
  }

  function LenField(n: nat): string {
    Pad(IDXLEN_SZ, Dec(n))
  }

  /** The bytes a record takes in the index file. */
  function RecLen(r: Info): (n: nat)
    ensures n >= 15
  {
    PTR_SZ + IDXLEN_SZ + |Body(r)|
  }

  predicate InfoOk(r: Info) {
    && KeyText(r.key)
    && IDXLEN_MIN <= |Body(r)| <= IDXLEN_MAX
    && DATLEN_MIN <= r.datlen <= DATLEN_MAX
  }

  /** The layout of the index file's texts, on one record each. */
  lemma LayoutExamples()
    ensures Body(Info("key", 12, 5)) == "key:12:5\n"
    ensures PtrField(43) == "    43" && LenField(9) == "   9" && Dec(907) == "907"
  {
    assert Dec(1) == "1" && Dec(12) == "12" && Dec(5) == "5";
    assert Dec(4) == "4" && Dec(43) == "43" && Dec(9) == "9" && Dec(90) == "90";
    assert Pad(6, "43") == " " + Pad(5, "43") && Pad(5, "43") == " " + Pad(4, "43");
    assert Pad(4, "43") == " " + Pad(3, "43") && Pad(3, "43") == " 43";
    assert Pad(4, "9") == " " + Pad(3, "9") && Pad(3, "9") == " " + Pad(2, "9") && Pad(2, "9") == " 9";
  }

  lemma PtrFieldLength(p: nat)
    requires p <= PTR_MAX
    ensures |PtrField(p)| == PTR_SZ
  {
    assert Pow10(6) == 1000000 by {
      assert Pow10(0) == 1;
      assert Pow10(1) == 10;
      assert Pow10(2) == 100;
      assert Pow10(3) == 1000;
      assert Pow10(4) == 10000;
      assert Pow10(5) == 100000;
    }
    DecLength(p, 6);
  }

  lemma LenFieldLength(n: nat)
    requires n <= IDXLEN_MAX
    ensures |LenField(n)| == IDXLEN_SZ
  {
    assert Pow10(4) == 10000 by {
      assert Pow10(0) == 1;
      assert Pow10(1) == 10;
      assert Pow10(2) == 100;
      assert Pow10(3) == 1000;
    }
    DecLength(n, 4);
  }

  /** Blanking the key keeps the record's length: deletion rewrites it in place. */
  lemma SameSizeSameLength(r: Info, key: string)
    requires |key| == |r.key|
    ensures RecLen(r.(key := key)) == RecLen(r)
  {
  }

  lemma SameSizeInfoOk(r: Info, key: string)
    requires InfoOk(r) && KeyText(key) && |key| == |r.key|
    ensures InfoOk(r.(key := key))
  {
  }

  // ---------------------------------------------------------------- reading

  datatype IdxRead =
    | Eof
    | Dump          // one of the err_dump exits
    | Got(ptr: int, len: nat, info: Info)

  /** strchr, over the part of a buffer before its first null byte; None when absent. */
  datatype Found = Absent | FoundAt(i: nat)

  function Strchr(s: string, c: char): (r: Found)
    ensures r.FoundAt? ==> r.i < |s|
  {
    if s == [] || s[0] == '\0' then Absent
    else if s[0] == c then FoundAt(0)
    else match Strchr(s[1..], c)
      case Absent => Absent
      case FoundAt(i) => FoundAt(i + 1)
  }

  lemma {:induction false} StrchrFirst(a: string, c: char, b: string)
    requires c !in a && CText(a) && c != '\0'
    ensures Strchr(a + [c] + b, c) == FoundAt(|a|)
    decreases |a|
  {
    if a == [] {
      assert (a + [c] + b)[0] == c;
    } else {
      StrchrFirst(a[1..], c, b);
      assert (a + [c] + b)[1..] == a[1..] + [c] + b;
      assert (a + [c] + b)[0] == a[0];
    }
  }

  lemma {:induction false} StrchrAbsent(a: string, c: char)
    requires c !in a
    ensures Strchr(a, c) == Absent
    decreases |a|
  {
    if a != [] {
      StrchrAbsent(a[1..], c);
    }
  }

  /** The part of _db_readidx after the record's bytes are in the buffer. */
  function ParseBody(ptr: int, buf: string): IdxRead {
    if buf == [] || buf[|buf| - 1] != '\n' then Dump
    else
      var line := buf[..|buf| - 1];
      match Strchr(line, ':')
      case Absent => Dump
      case FoundAt(i) =>
        var rest := line[i + 1..];
        match Strchr(rest, ':')
        case Absent => Dump
        case FoundAt(j) =>
          var last := rest[j + 1..];
          if Strchr(last, ':') != Absent then Dump
          else
            var datoff, datlen := Atol(rest[..j]), Atol(last);
            if datoff < 0 || datlen <= 0 || datlen > DATLEN_MAX then Dump
            else Got(ptr, |buf|, Info(line[..i], datoff, datlen))
  }

  /** _db_readidx: what reading an index record at an offset of the file yields. */
  function ParseIdx(file: string, off: nat): IdxRead {
    if off >= |file| then Eof
    else if off + PTR_SZ + IDXLEN_SZ > |file| then Dump
    else
      var ptr := Atol(file[off..off + PTR_SZ]);
      var len := Atol(file[off + PTR_SZ..off + PTR_SZ + IDXLEN_SZ]);
      var start := off + PTR_SZ + IDXLEN_SZ;
      if len < IDXLEN_MIN || len > IDXLEN_MAX || start + len > |file| then Dump
      else ParseBody(ptr, file[start..start + len])
  }

  lemma {:induction false} DigitsHaveNone(s: string)
    requires AllDigits(s)
    ensures ':' !in s && CText(s)
  {
    forall c | c in s
      ensures IsDigit(c)
    {
      var i :| 0 <= i < |s| && s[i] == c;
      assert IsDigit(s[i]);
    }
  }

  /** Reading the text written for a record gives the record back. */
  lemma ParseBodyRoundTrip(ptr: nat, r: Info)
    requires KeyText(r.key) && 0 < r.datlen <= DATLEN_MAX
    ensures ParseBody(ptr, Body(r)) == Got(ptr, |Body(r)|, r)
  {
    var a, b := Dec(r.datoff), Dec(r.datlen);
    var buf := Body(r);
    var line := buf[..|buf| - 1];
    DigitsHaveNone(a);
    DigitsHaveNone(b);
    assert line == r.key + [':'] + (a + ":" + b);
    StrchrFirst(r.key, ':', a + ":" + b);
    var rest := line[|r.key| + 1..];
    assert rest == a + [':'] + b;
    StrchrFirst(a, ':', b);
    assert rest[..|a|] == a;
    assert rest[|a| + 1..] == b;
    StrchrAbsent(b, ':');
    AtolDec(r.datoff);
    AtolDec(r.datlen);
    assert line[..|r.key|] == r.key;
  }

  /** The three pieces of a record stand in the file at an offset. */
  ghost predicate RecordAt(file: string, off: nat, ptr: nat, r: Info) {
    && off + RecLen(r) <= |file|
    && file[off..off + PTR_SZ] == PtrField(ptr)
    && file[off + PTR_SZ..off + PTR_SZ + IDXLEN_SZ] == LenField(|Body(r)|)
    && file[off + PTR_SZ + IDXLEN_SZ..off + RecLen(r)] == Body(r)
  }

  /** _db_readidx recovers pointer, key, data offset and data length of any record
      within the limits, wherever it stands in a file. */
  lemma ReadBack(file: string, off: nat, ptr: nat, r: Info)
    requires RecordAt(file, off, ptr, r) && InfoOk(r)
    ensures ParseIdx(file, off) == Got(ptr, |Body(r)|, r)
  {
    AtolPadDec(PTR_SZ, ptr);
    AtolPadDec(IDXLEN_SZ, |Body(r)|);
    ParseBodyRoundTrip(ptr, r);
    var start := off + PTR_SZ + IDXLEN_SZ;
    assert file[start..start + |Body(r)|] == Body(r);
  }

  // ---------------------------------------------------------------- writing

  /** write(2) or writev(2) at an offset, over what is there or at the end. */
  function Write(file: string, off: nat, bytes: string): (r: string)
    requires off <= |file|
    ensures |r| == if off + |bytes| > |file| then off + |bytes| else |file|
  {
    file[..off] + bytes + if off + |bytes| < |file| then file[off + |bytes|..] else []
  }

  lemma WriteSame(file: string, off: nat, bytes: string)
    requires off <= |file|
    ensures Write(file, off, bytes)[off..off + |bytes|] == bytes
  {
  }

  /** Bytes outside the written range stay. */
  lemma WriteOther(file: string, off: nat, bytes: string, a: nat, b: nat)
    requires off <= |file| && a <= b <= |file|
    requires b <= off || off + |bytes| <= a
    ensures Write(file, off, bytes)[a..b] == file[a..b]
  {
    var r := Write(file, off, bytes);
    forall i | a <= i < b
      ensures r[i] == file[i]
    {
    }
  }

  /** The bytes _db_writeidx writes. */
  function RecBytes(ptr: nat, r: Info): string {
    PtrField(ptr) + LenField(|Body(r)|) + Body(r)
  }

  lemma RecBytesLength(ptr: nat, r: Info)
    requires ptr <= PTR_MAX && |Body(r)| <= IDXLEN_MAX
    ensures |RecBytes(ptr, r)| == RecLen(r)
  {
    PtrFieldLength(ptr);
    LenFieldLength(|Body(r)|);
  }

  /** Writing a record puts its three pieces at the offset. */
  lemma WriteRecord(file: string, off: nat, ptr: nat, r: Info)
    requires off <= |file| && ptr <= PTR_MAX && |Body(r)| <= IDXLEN_MAX
    ensures RecordAt(Write(file, off, RecBytes(ptr, r)), off, ptr, r)
  {
    PtrFieldLength(ptr);
    LenFieldLength(|Body(r)|);
    var bytes := RecBytes(ptr, r);
    var w := Write(file, off, bytes);
    WriteSame(file, off, bytes);
    var s := w[off..off + |bytes|];
    assert w[off..off + PTR_SZ] == s[..PTR_SZ] == PtrField(ptr);
    assert w[off + PTR_SZ..off + PTR_SZ + IDXLEN_SZ] == s[PTR_SZ..PTR_SZ + IDXLEN_SZ] == LenField(|Body(r)|);
    assert w[off + PTR_SZ + IDXLEN_SZ..off + RecLen(r)] == s[PTR_SZ + IDXLEN_SZ..] == Body(r);
  }

  /** A whole record: what is written, and what reading it gives. */
  lemma RecordExample()
    ensures RecBytes(43, Info("key", 12, 5)) == "    43   9key:12:5\n"
    ensures ParseIdx("    43   9key:12:5\n", 0) == Got(43, 9, Info("key", 12, 5))
  {
    hide Body, PtrField, LenField;
    LayoutExamples();
    var r, file := Info("key", 12, 5), "    43   9key:12:5\n";
    assert RecBytes(43, r) == "    43" + "   9" + "key:12:5\n" == file;
    assert file[..6] == "    43" && file[6..10] == "   9" && file[10..] == "key:12:5\n";
    assert file[0..6] == file[..6] && file[10..19] == file[10..];
    assert RecordAt(file, 0, 43, r);
    ReadBack(file, 0, 43, r);
  }

  // ---------------------------------------------------------------- hashing

  const WORD: nat := 0x1_0000_0000_0000_0000

  /** A byte read as a signed char. */
  function Signed(c: char): int {
    var b := c as int % 256;
    if b < 128 then b else b - 256
  }

  /** The sum of each character times its position, counted from one. */
  function WeightedSum(key: string): int {
    if key == [] then 0
    else WeightedSum(key[..|key| - 1]) + Signed(key[|key| - 1]) * |key|
  }

  /** Exchanging two characters moves the sum by their difference times their distance. */
  lemma {:induction false} PlacesCount(key: string, i: nat, j: nat)
    requires i < j < |key|
    ensures WeightedSum(key[i := key[j]][j := key[i]]) ==
            WeightedSum(key) + (j - i) * (Signed(key[i]) - Signed(key[j]))
  {
    var one := key[i := key[j]];
    OneCounts(key, i, key[j]);
    OneCounts(one, j, key[i]);
    var a, b := Signed(key[i]), Signed(key[j]);
    assert (i + 1) * (b - a) + (j + 1) * (a - b) == (j - i) * (a - b);
  }

  /** A character counts as often as its place, counted from one. */
  lemma {:induction false} OneCounts(key: string, i: nat, c: char)
    requires i < |key|
    ensures WeightedSum(key[i := c]) == WeightedSum(key) + (i + 1) * (Signed(c) - Signed(key[i]))
  {
    hide Signed;
    var n := |key| - 1;
    if i == n {
      assert key[i := c][..n] == key[..n];
      assert Signed(c) * (n + 1) - Signed(key[n]) * (n + 1) == (n + 1) * (Signed(c) - Signed(key[n]));
    } else {
      assert key[i := c][..n] == key[..n][i := c];
      OneCounts(key[..n], i, c);
    }
  }

  /** "ab" hashes to 1 * 97 + 2 * 98, and a character above 127 counts as negative. */
  lemma HashExamples()
    ensures Hash("ab") == (97 + 2 * 98) % 137 && Hash("ba") == (98 + 2 * 97) % 137
    ensures Hash([200 as char]) == (0x1_0000_0000_0000_0000 - 56) % 137
  {
    assert "ab"[..1] == "a" && "ba"[..1] == "b" && "a"[..0] == "" && "b"[..0] == "";
    assert WeightedSum("") == 0 && WeightedSum("a") == 97 && WeightedSum("b") == 98;
    assert [200 as char][..0] == "";
    assert WeightedSum([200 as char]) == -56;
    assert (0 - 56) % WORD == WORD - 56;
  }

  /** The chain a key belongs to: the weighted sum, in unsigned long arithmetic. */
  function Hash(key: string): (h: nat)
    ensures h < NHASH
  {
    WeightedSum(key) % WORD % NHASH
  }

  /** Wrapping at every step is wrapping once at the end. */
  lemma WrapOnce(x: int, y: int)
    ensures (x % WORD + y) % WORD == (x + y) % WORD
  {
    var q := x / WORD;
    assert x + y == (x % WORD + y) + q * WORD;
    SameRemainder(x % WORD + y, q);
  }

  lemma {:induction false} SameRemainder(z: int, q: int)
    ensures (z + q * WORD) % WORD == z % WORD
  {
    var a, r := z / WORD, z % WORD;
    assert z + q * WORD == (a + q) * WORD + r;
  }

  /** Where the head pointer of a chain is. */
  function HeadLoc(h: nat): nat {
    HASH_OFF + h * PTR_SZ
  }

  function ChainOff(key: string): nat {
    HeadLoc(Hash(key))
  }
}
