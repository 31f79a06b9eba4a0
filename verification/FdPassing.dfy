/** Descriptor passing over a stream: the message, and the two bytes that end it. */
module FdPassing {
  import opened Common

  newtype byte = x: int | 0 <= x < 256

  /** What one recvmsg returns: bytes, and a descriptor if one came with them. */
  datatype Chunk = Chunk(bytes: seq<byte>, fd: Option<int>)

  /** Got is recv_fd's return value; Dumped is err_dump over a message that breaks the format, or a zero
      status without a descriptor; Closed is the end of the stream before the trailer. */
  datatype Received = Got(fd: int) | Dumped | Closed

  predicate NoNul(msg: seq<byte>) {
    forall i :: 0 <= i < |msg| ==> msg[i] != 0
  }

  // ---------------------------------------------------------------- sending

  /** The status byte for an error code: the low byte of its negation, and never 0. */
  function Status(code: int): (s: byte)
    requires code < 0
    ensures s != 0 && (s as int == -code % 256 || (-code % 256 == 0 && s == 1))
  {
    var low := ((-code) % 256) as byte;
    if low == 0 then 1 else low
  }

  /** send_fd: what is written, and the descriptor that goes with it. */
  method SendFd(fd: int) returns (buf: seq<byte>, pass: Option<int>)
    ensures fd < 0 ==> buf == [0, Status(fd)] && pass == None
    ensures fd >= 0 ==> buf == [0, 0] && pass == Some(fd)
  {
    var status: byte := 0;
    pass := None;
    if fd < 0 {
      status := ((-fd) % 256) as byte;
      if status == 0 {
        status := 1;
      }
    } else {
      pass := Some(fd);
    }
    buf := [0, status];
  }

  /** send_err: the message and the trailer; a code that is not negative counts as -1. */
  method SendErr(errcode: int, msg: seq<byte>) returns (sent: seq<byte>)
    ensures sent == msg + [0, Status(if errcode >= 0 then -1 else errcode)]
  {
    sent := [];
    if |msg| > 0 {
      sent := msg;
    }
    var code := errcode;
    if code >= 0 {
      code := -1;
    }
    var trailer, _ := SendFd(code);
    sent := sent + trailer;
  }

  // ---------------------------------------------------------------- receiving

  function Joined(chunks: seq<Chunk>): seq<byte> {
    if chunks == [] then [] else chunks[0].bytes + Joined(chunks[1..])
  }

  /** Some read ends exactly between the two bytes of the trailer. */
  ghost predicate Splits(chunks: seq<Chunk>, at: nat) {
    exists k :: 0 <= k <= |chunks| && |Joined(chunks[..k])| == at
  }

  /** Where the first NUL of the buffer is; the length if there is none. */
  function FirstNul(buf: seq<byte>): (k: nat)
    ensures k <= |buf| && (k < |buf| ==> buf[k] == 0)
    ensures NoNul(buf[..k])
  {
    if buf == [] then 0 else if buf[0] == 0 then 0
    else
      var k := 1 + FirstNul(buf[1..]);
      assert buf[..k] == [buf[0]] + buf[1..][..k - 1];
      k
  }

  /** One pass over a buffer: the status byte and the bytes before it, or no status yet, or a broken format. */
  datatype Scan = Plain | Final(status: byte) | Broken

  function ScanOf(buf: seq<byte>): Scan {
    var k := FirstNul(buf);
    if k == |buf| then Plain else if k == |buf| - 2 then Final(buf[|buf| - 1]) else Broken
  }

  method ScanBuffer(buf: seq<byte>) returns (scan: Scan, nr: nat)
    ensures scan == ScanOf(buf)
    ensures scan.Plain? ==> nr == |buf|
    ensures scan.Final? ==> nr + 2 == |buf|
  {
    nr := |buf|;
    scan := Plain;
    var ptr := 0;
    while ptr < nr
      invariant 0 <= ptr <= |buf|
      invariant scan.Plain? ==> nr == |buf| && NoNul(buf[..ptr])
      invariant scan.Final? ==> nr + 2 == |buf| && ptr == nr + 1 && scan == ScanOf(buf)
      invariant !scan.Broken?
      decreases |buf| - ptr
    {
      var c := buf[ptr];
      ptr := ptr + 1;
      if c == 0 {
        FirstNulIs(buf, ptr - 1);
        if ptr != nr - 1 {
          return Broken, nr;
        }
        scan := Final(buf[ptr]);
        nr := nr - 2;
      }
    }
    if scan.Plain? {
      FirstNulIs(buf, |buf|);
    }
  }

  lemma {:induction false} FirstNulIs(buf: seq<byte>, k: nat)
    requires k <= |buf| && NoNul(buf[..k]) && (k < |buf| ==> buf[k] == 0)
    ensures FirstNul(buf) == k
  {
    if k > 0 {
      assert buf[1..][..k - 1] == buf[..k][1..];
      assert buf[..k][0] == buf[0];
      FirstNulIs(buf[1..], k - 1);
    }
  }

  /** recv_fd. out is what the callback is given. */
  method RecvFd(chunks: seq<Chunk>) returns (r: Received, out: seq<byte>)
    ensures (r, out) == Reception(chunks)
  {
    out := [];
    var i := 0;
    assert chunks[0..] == chunks && [] + Reception(chunks).1 == Reception(chunks).1;
    while i < |chunks|
      invariant 0 <= i <= |chunks|
      invariant Reception(chunks) == Then(out, Reception(chunks[i..]))
    {
      assert chunks[i..][1..] == chunks[i + 1..] && out + [] == out;
      var buf := chunks[i].bytes;
      if buf == [] {
        return Closed, out;
      }
      var scan, nr := ScanBuffer(buf);
      if scan.Broken? {
        return Dumped, out;
      }
      var newfd := 0;
      if scan.Final? {
        if scan.status == 0 {
          if chunks[i].fd.None? {
            return Dumped, out;
          }
          newfd := chunks[i].fd.value;
        } else {
          newfd := -(scan.status as int);
        }
      }
      ThenMore(out, buf, Reception(chunks[i + 1..]));
      assert buf[..|buf|] == buf;
      if nr > 0 {
        out := out + buf[..nr];
      }
      if scan.Final? {
        return Got(newfd), out;
      }
      i := i + 1;
    }
    assert out + [] == out;
    return Closed, out;
  }

  lemma ThenMore(a: seq<byte>, b: seq<byte>, rest: (Received, seq<byte>))
    ensures Then(a, Then(b, rest)) == Then(a + b, rest)
  {
    assert a + (b + rest.1) == a + b + rest.1;
  }

  ghost function Then(out: seq<byte>, rest: (Received, seq<byte>)): (Received, seq<byte>) {
    (rest.0, out + rest.1)
  }

  /** What a sequence of reads comes to. */
  ghost function Reception(chunks: seq<Chunk>): (Received, seq<byte>) {
    if chunks == [] || chunks[0].bytes == [] then (Closed, [])
    else
      var buf := chunks[0].bytes;
      match ScanOf(buf)
      case Broken => (Dumped, [])
      case Plain => Then(buf, Reception(chunks[1..]))
      case Final(status) =>
        if status == 0 && chunks[0].fd.None? then (Dumped, [])
        else (Got(if status == 0 then chunks[0].fd.value else -(status as int)), buf[..|buf| - 2])
  }

  /** What a read that decides comes to, if its first NUL is at j. */
  ghost function Decided(chunk: Chunk, j: nat): (Received, seq<byte>)
    requires j < |chunk.bytes|
  {
    var b := chunk.bytes;
    if j + 2 != |b| then (Dumped, [])
    else if b[j + 1] != 0 then (Got(-(b[j + 1] as int)), b[..j])
    else if chunk.fd.Some? then (Got(chunk.fd.value), b[..j])
    else (Dumped, [])
  }

  lemma FirstReadDecides(chunks: seq<Chunk>, j: nat)
    requires chunks != [] && j < |chunks[0].bytes| && NoNul(chunks[0].bytes[..j]) && chunks[0].bytes[j] == 0
    ensures Reception(chunks) == Decided(chunks[0], j)
  {
    FirstNulIs(chunks[0].bytes, j);
  }

  /** The same read by read: the first k are not empty and hold no NUL, and then the stream ends, or a read decides. */
  lemma {:induction false} ReceptionMeans(chunks: seq<Chunk>, k: nat)
    requires k <= |chunks| && forall i :: 0 <= i < k ==> chunks[i].bytes != [] && NoNul(chunks[i].bytes)
    ensures k == |chunks| || chunks[k].bytes == [] ==> Reception(chunks) == (Closed, Joined(chunks[..k]))
    ensures k < |chunks| ==>
              forall j: nat :: j < |chunks[k].bytes| && NoNul(chunks[k].bytes[..j]) && chunks[k].bytes[j] == 0 ==>
                Reception(chunks) == Then(Joined(chunks[..k]), Decided(chunks[k], j))
    decreases k
  {
    hide NoNul, ScanOf, Decided;
    if k > 0 {
      var rest := chunks[1..];
      assert forall i :: 0 <= i < k - 1 ==> rest[i] == chunks[i + 1];
      ReceptionMeans(rest, k - 1);
      PlainFirst(chunks);
      assert chunks[..k][1..] == rest[..k - 1];
      if k < |chunks| {
        assert rest[k - 1] == chunks[k];
        forall j: nat | j < |chunks[k].bytes|
          ensures Then(chunks[0].bytes, Then(Joined(rest[..k - 1]), Decided(chunks[k], j))) ==
                  Then(Joined(chunks[..k]), Decided(chunks[k], j))
        {
          ThenMore(chunks[0].bytes, Joined(rest[..k - 1]), Decided(chunks[k], j));
        }
      }
    } else if k < |chunks| {
      forall j: nat | j < |chunks[0].bytes| && NoNul(chunks[0].bytes[..j]) && chunks[0].bytes[j] == 0
        ensures Reception(chunks) == Then([], Decided(chunks[0], j))
      {
        FirstReadDecides(chunks, j);
        assert [] + Decided(chunks[0], j).1 == Decided(chunks[0], j).1;
      }
    }
  }

  lemma PlainFirst(chunks: seq<Chunk>)
    requires chunks != [] && chunks[0].bytes != [] && NoNul(chunks[0].bytes)
    ensures Reception(chunks) == Then(chunks[0].bytes, Reception(chunks[1..]))
  {
    assert chunks[0].bytes[..|chunks[0].bytes|] == chunks[0].bytes;
    FirstNulIs(chunks[0].bytes, |chunks[0].bytes|);
  }

  // ---------------------------------------------------------------- the protocol

  /** Reads that return a message and its trailer, in pieces of any size. */
  ghost predicate Carries(chunks: seq<Chunk>, msg: seq<byte>, status: byte) {
    && Joined(chunks) == msg + [0, status] && NoNul(msg)
    && (forall i :: 0 <= i < |chunks| ==> chunks[i].bytes != [])
  }

  /** What recv_fd is to return: the descriptor that came with the trailer, or the negated status. */
  function Meant(chunks: seq<Chunk>, status: byte): int {
    if status == 0 && |chunks| > 0 && chunks[|chunks| - 1].fd.Some? then chunks[|chunks| - 1].fd.value
    else -(status as int)
  }

  lemma NoBytesNoChunks(chunks: seq<Chunk>)
    requires Joined(chunks) == [] && forall i :: 0 <= i < |chunks| ==> chunks[i].bytes != []
    ensures chunks == []
  {
  }

  lemma SplitsFirst(chunks: seq<Chunk>, at: nat)
    requires chunks != [] && at > 0
    ensures Splits(chunks, at) <==> |chunks[0].bytes| <= at && Splits(chunks[1..], at - |chunks[0].bytes|)
  {
    var n := |chunks[0].bytes|;
    forall k | 1 <= k <= |chunks|
      ensures |Joined(chunks[..k])| == n + |Joined(chunks[1..][..k - 1])|
    {
      assert chunks[..k][1..] == chunks[1..][..k - 1];
    }
    if Splits(chunks, at) {
      var k :| 0 <= k <= |chunks| && |Joined(chunks[..k])| == at;
      assert k > 0;
      assert |Joined(chunks[1..][..k - 1])| == at - n;
    }
    if n <= at && Splits(chunks[1..], at - n) {
      var k :| 0 <= k <= |chunks[1..]| && |Joined(chunks[1..][..k])| == at - n;
      assert |Joined(chunks[..k + 1])| == at;
    }
  }

  /** The first read, when it ends inside the message. */
  lemma InsideMessage(chunks: seq<Chunk>, msg: seq<byte>, status: byte)
    requires Carries(chunks, msg, status) && chunks != [] && |chunks[0].bytes| <= |msg|
    ensures ScanOf(chunks[0].bytes) == Plain && Carries(chunks[1..], msg[|chunks[0].bytes|..], status)
    ensures msg == chunks[0].bytes + msg[|chunks[0].bytes|..]
  {
    var b, rest := chunks[0].bytes, Joined(chunks[1..]);
    assert b == (b + rest)[..|b|] && b == msg[..|b|];
    assert rest == (b + rest)[|b|..] && rest == msg[|b|..] + [0, status];
    assert b[..|b|] == b;
    FirstNulIs(b, |b|);
  }

  /** The first read, when it ends between the two bytes of the trailer. */
  lemma InsideTrailer(chunks: seq<Chunk>, msg: seq<byte>, status: byte)
    requires Carries(chunks, msg, status) && chunks != [] && |chunks[0].bytes| == |msg| + 1
    ensures ScanOf(chunks[0].bytes) == Broken
  {
    var b, rest := chunks[0].bytes, Joined(chunks[1..]);
    assert b == (b + rest)[..|b|] && b == msg + [0];
    assert b[..|msg|] == msg;
    FirstNulIs(b, |msg|);
  }

  /** The first read, when it returns everything. */
  lemma WholeTrailer(chunks: seq<Chunk>, msg: seq<byte>, status: byte)
    requires Carries(chunks, msg, status) && chunks != [] && |chunks[0].bytes| > |msg| + 1
    ensures |chunks| == 1 && chunks[0].bytes == msg + [0, status] && ScanOf(chunks[0].bytes) == Final(status)
  {
    var b, rest := chunks[0].bytes, Joined(chunks[1..]);
    assert |b + rest| == |msg| + 2;
    assert b + [] == b;
    NoBytesNoChunks(chunks[1..]);
    assert b[..|msg|] == msg;
    FirstNulIs(b, |msg|);
  }

  /** The message and the status come through any chunking that does not split the trailer; one that does
      split it ends in the format error, with no byte of the message given out wrongly. */
  lemma {:induction false} Delivery(chunks: seq<Chunk>, msg: seq<byte>, status: byte)
    requires Carries(chunks, msg, status) && (status == 0 ==> |chunks| > 0 && chunks[|chunks| - 1].fd.Some?)
    ensures !Splits(chunks, |msg| + 1) ==> Reception(chunks) == (Got(Meant(chunks, status)), msg)
    ensures Splits(chunks, |msg| + 1) ==> Reception(chunks).0 == Dumped && Reception(chunks).1 <= msg
    decreases |chunks|
  {
    assert chunks != [];
    var n := |chunks[0].bytes|;
    SplitsFirst(chunks, |msg| + 1);
    if n <= |msg| {
      InsideMessage(chunks, msg, status);
      LastStays(chunks, msg, status);
      Delivery(chunks[1..], msg[n..], status);
    } else if n == |msg| + 1 {
      InsideTrailer(chunks, msg, status);
      assert |Joined(chunks[1..][..0])| == 0;
    } else {
      WholeTrailer(chunks, msg, status);
      assert (msg + [0, status])[..|msg|] == msg;
    }
  }

  lemma LastStays(chunks: seq<Chunk>, msg: seq<byte>, status: byte)
    requires Carries(chunks, msg, status) && chunks != [] && |chunks[0].bytes| <= |msg|
    ensures |chunks| > 1 && chunks[1..][|chunks| - 2] == chunks[|chunks| - 1]
    ensures Meant(chunks[1..], status) == Meant(chunks, status)
  {
    assert |Joined(chunks)| == |msg| + 2;
    if |chunks| == 1 {
      assert Joined(chunks[1..]) == [];
    }
  }

  /** send_fd then recv_fd: the descriptor that came with the trailer, and no byte to the callback. */
  lemma DescriptorComesThrough(fd: int)
    requires fd >= 0
    ensures Reception([Chunk([0, 0], Some(fd))]) == (Got(fd), [])
  {
    FirstNulIs([0, 0], 0);
  }

  /** send_err then recv_fd: the message's bytes, and minus the code's low byte, a zero low byte as 1 - if
      and only if no read ends inside the trailer. */
  lemma ErrorComesThrough(chunks: seq<Chunk>, errcode: int, msg: seq<byte>)
    requires errcode < 0 && Carries(chunks, msg, Status(errcode))
    ensures Reception(chunks) == (Got(-(Status(errcode) as int)), msg) <==> !Splits(chunks, |msg| + 1)
  {
    Delivery(chunks, msg, Status(errcode));
  }
}
