/** The dialer's expect string: escapes, and the search for it in what the modem sends. */
module Expect {
  import opened Common

  const MAXLINE: nat := 4096

  /** Got: the string came, after this many characters. Bad: the string's escapes are wrong. Ended: the line
      gave no more characters. Overrun: more characters than the buffer holds had to be kept. */
  datatype Outcome = Got(consumed: nat) | Bad | Ended | Overrun

  function Prepend(s: string, rest: Option<string>): Option<string> {
    if rest.None? then None else Some(s + rest.value)
  }

  /** The string with its escapes converted: \r and \s only. */
  function Unescape(s: string): Option<string> {
    if s == "" then Some("")
    else if s[0] != '\\' then Prepend([s[0]], Unescape(s[1..]))
    else if |s| == 1 then None
    else if s[1] == 'r' then Prepend("\r", Unescape(s[2..]))
    else if s[1] == 's' then Prepend(" ", Unescape(s[2..]))
    else None
  }

  lemma UnescapeStep(s: string, i: nat)
    requires i <= |s|
    ensures i == |s| ==> Unescape(s[i..]) == Some("")
    ensures i < |s| && s[i] != '\\' ==> Unescape(s[i..]) == Prepend([s[i]], Unescape(s[i + 1..]))
    ensures i + 1 == |s| && s[i] == '\\' ==> Unescape(s[i..]) == None
    ensures i + 1 < |s| && s[i] == '\\' ==>
              Unescape(s[i..]) == if s[i + 1] == 'r' then Prepend("\r", Unescape(s[i + 2..]))
                                  else if s[i + 1] == 's' then Prepend(" ", Unescape(s[i + 2..]))
                                  else None
  {
    if i < |s| {
      assert s[i..][1..] == s[i + 1..];
      if i + 1 < |s| { assert s[i..][2..] == s[i + 2..]; }
    }
  }

  lemma PrependNothing(rest: Option<string>)
    ensures Prepend("", rest) == rest
  {
    if rest.Some? { assert "" + rest.value == rest.value; }
  }

  lemma PrependMore(a: string, b: string, rest: Option<string>)
    ensures Prepend(a, Prepend(b, rest)) == Prepend(a + b, rest)
  {
    if rest.Some? { assert a + (b + rest.value) == a + b + rest.value; }
  }

  /** The two escapes, and what is none. */
  lemma EscapeExamples()
    ensures Unescape("a\\sb\\r") == Some("a b\r") && Unescape("login:") == Some("login:")
    ensures Unescape("a\\n") == None && Unescape("a\\") == None && Unescape("\\\\") == None
  {
    var s := "a\\sb\\r";
    assert s[1..] == "\\sb\\r" && s[1..][2..] == "b\\r" && "b\\r"[1..] == "\\r" && "\\r"[2..] == "";
    assert Unescape("") == Some("") && "\r" + "" == "\r" && "b" + "\r" == "b\r" && " " + "b\r" == " b\r";
    assert Unescape("\\r") == Prepend("\r", Unescape("")) == Some("\r");
    assert Unescape("b\\r") == Prepend("b", Unescape("\\r")) == Some("b\r");
    assert Unescape("\\sb\\r") == Prepend(" ", Unescape("b\\r")) == Some(" b\r");
    assert Unescape(s) == Prepend("a", Unescape("\\sb\\r")) && "a" + " b\r" == "a b\r";
    assert "a\\n"[1..] == "\\n" && Unescape("\\n") == None && "a\\"[1..] == "\\" && Unescape("\\") == None;
    PlainStays("login:");
  }

  /** A string without a backslash stays as it is. */
  lemma {:induction false} PlainStays(s: string)
    requires '\\' !in s
    ensures Unescape(s) == Some(s)
  {
    if s != "" {
      PlainStays(s[1..]);
      assert s == [s[0]] + s[1..];
    }
  }

  /** The pattern stands in the stream, ending after e characters. */
  predicate EndsAt(stream: string, pat: string, e: nat) {
    |pat| <= e <= |stream| && stream[e - |pat|..e] == pat
  }

  /** The first occurrence ends after e characters. */
  ghost predicate FirstEnd(stream: string, pat: string, e: nat) {
    EndsAt(stream, pat, e) && forall d :: 0 <= d < e ==> !EndsAt(stream, pat, d)
  }

  /** Where the first character equal to c is; the length if nowhere. */
  function FirstChar(stream: string, c: char): (k: nat)
    ensures k <= |stream| && (k < |stream| ==> stream[k] == c)
    ensures forall j :: 0 <= j < k ==> stream[j] != c
  {
    if stream == "" then 0 else if stream[0] == c then 0 else 1 + FirstChar(stream[1..], c)
  }

  /** C strings: no character is NUL. */
  predicate CString(s: string) {
    forall i :: 0 <= i < |s| ==> s[i] != '\0'
  }

  lemma {:induction false} UnescapeText(s: string)
    requires CString(s) && Unescape(s).Some?
    ensures CString(Unescape(s).value) && |Unescape(s).value| <= |s|
    ensures Unescape(s).value == "" <==> s == ""
  {
    if s != "" {
      UnescapeText(if s[0] == '\\' then s[2..] else s[1..]);
    }
  }

  /** Copy the expect string, converting escapes. */
  method Convert(ptr: string) returns (expstr: Option<string>)
    ensures expstr == Unescape(ptr)
  {
    hide Unescape;
    var dst := "";
    var src := 0;
    assert ptr[0..] == ptr;
    PrependNothing(Unescape(ptr));
    while src < |ptr|
      invariant 0 <= src <= |ptr| && Unescape(ptr) == Prepend(dst, Unescape(ptr[src..]))
    {
      UnescapeStep(ptr, src);
      var c := ptr[src];
      src := src + 1;
      if c == '\\' {
        if src == |ptr| {
          return None;
        }
        c := ptr[src];
        src := src + 1;
        if c == 'r' {
          c := '\r';
        } else if c == 's' {
          c := ' ';
        } else {
          return None;
        }
      }
      PrependMore(dst, [c], Unescape(ptr[src..]));
      dst := dst + [c];
    }
    UnescapeStep(ptr, src);
    assert dst + "" == dst;
    return Some(dst);
  }

  /** What the outcome says of the stream. A string stops the search exactly at the end of its first
      occurrence; it is out of reach only if it does not occur, or not within a buffer's length of the first
      character that could start it. */
  ghost predicate Right(pat: string, stream: string, r: Outcome) {
    match r
    case Got(e) => FirstEnd(stream, pat, e)
    case Ended => forall e :: 0 <= e <= |stream| ==> !EndsAt(stream, pat, e)
    case Overrun =>
      && pat != "" && FirstChar(stream, pat[0]) + MAXLINE < |stream|
      && forall e :: 0 <= e <= |stream| && e <= FirstChar(stream, pat[0]) + MAXLINE ==> !EndsAt(stream, pat, e)
    case Bad => false
  }

  /** The empty string: the search goes past the first NUL character, or never ends. */
  ghost predicate ReadsToNul(stream: string, r: Outcome) {
    var k := FirstChar(stream, '\0');
    r == if k < |stream| then Got(k + 1) else Ended
  }

  /** No occurrence ends within the first n characters. */
  ghost predicate NoneTo(stream: string, pat: string, n: int) {
    forall e :: 0 <= e <= n && e <= |stream| ==> !EndsAt(stream, pat, e)
  }

  /** Skip until first chars equal: past the character that does, if there is one. */
  method SkipTo(first: char, stream: string) returns (pos: nat)
    ensures pos == FirstChar(stream, first)
  {
    pos := 0;
    while pos < |stream| && stream[pos] != first
      invariant 0 <= pos <= |stream| && forall j :: 0 <= j < pos ==> stream[j] != first
    {
      pos := pos + 1;
    }
    FirstIs(stream, first, pos);
  }

  /** Read matchlen chars into the buffer, the first of them read already; false at the end of the line. */
  method Fill(inbuf: array<char>, matchlen: nat, stream: string, k: nat) returns (ok: bool)
    requires 1 <= matchlen <= inbuf.Length && k < |stream|
    modifies inbuf
    ensures ok <==> k + matchlen <= |stream|
    ensures ok ==> forall j :: 0 <= j < matchlen ==> inbuf[j] == stream[k + j]
  {
    inbuf[0] := stream[k];
    var inptr := 0;
    var i := 1;
    while i < matchlen
      invariant 1 <= i <= matchlen && inptr == i - 1 && k + i <= |stream|
      invariant forall j :: 0 <= j < i ==> inbuf[j] == stream[k + j]
    {
      inptr := inptr + 1;
      if k + i == |stream| {
        return false;
      }
      inbuf[inptr] := stream[k + i];
      i := i + 1;
    }
    return true;
  }

  /** Keep reading until we have a match. */
  method Slide(inbuf: array<char>, expstr: string, stream: string, k: nat) returns (r: Outcome)
    requires 1 <= |expstr| <= inbuf.Length == MAXLINE && k + |expstr| <= |stream| && k == FirstChar(stream, expstr[0])
    requires forall j :: 0 <= j < |expstr| ==> inbuf[j] == stream[k + j]
    requires NoneTo(stream, expstr, k + |expstr| - 1)
    modifies inbuf
    ensures Right(expstr, stream, r)
  {
    hide EndsAt, FirstChar, NoneTo, Right;
    var matchlen := |expstr|;
    var cmpptr, inptr, pos := 0, matchlen - 1, k + matchlen;
    Window(stream, expstr, k, pos, inbuf[cmpptr..cmpptr + matchlen], cmpptr);
    while inbuf[cmpptr..cmpptr + matchlen] != expstr
      invariant 0 <= cmpptr && inptr == cmpptr + matchlen - 1 < MAXLINE && pos == k + inptr + 1 <= |stream|
      invariant forall j :: 0 <= j <= inptr ==> inbuf[j] == stream[k + j]
      invariant NoneTo(stream, expstr, pos - 1)
      invariant inbuf[cmpptr..cmpptr + matchlen] == expstr <==> EndsAt(stream, expstr, pos)
      decreases |stream| - pos
    {
      NoneMore(stream, expstr, pos, k);
      inptr := inptr + 1;
      if pos == |stream| {
        return Ended;
      }
      if inptr == MAXLINE {
        return Overrun;
      }
      inbuf[inptr] := stream[pos];
      pos := pos + 1;
      cmpptr := cmpptr + 1;
      Window(stream, expstr, k, pos, inbuf[cmpptr..cmpptr + matchlen], cmpptr);
    }
    GotRight(stream, expstr, pos);
    return Got(pos);
  }

  /** The search proper; stream holds what read returns. */
  method Search(expstr: string, stream: string) returns (r: Outcome)
    requires |expstr| <= MAXLINE
    ensures Right(expstr, stream, r) <==> expstr != ""
    ensures expstr != "" ==> Tells(expstr, stream, r)
    ensures expstr == "" ==> ReadsToNul(stream, r)
  {
    var inbuf := new char[MAXLINE];
    var first := if |expstr| == 0 then '\0' else expstr[0];
    var k := SkipTo(first, stream);
    NoneBefore(stream, expstr, first, k);
    if expstr != "" && k + |expstr| > |stream| {
      RightTells(expstr, stream, Ended);
    }
    if expstr == "" {
      EmptyOverreads(stream, if k == |stream| then Ended else Got(k + 1));
    }
    if k == |stream| {
      return Ended;
    }
    if |expstr| == 0 {
      return Got(k + 1);
    }
    var ok := Fill(inbuf, |expstr|, stream, k);
    if !ok {
      return Ended;
    }
    r := Slide(inbuf, expstr, stream, k);
    RightTells(expstr, stream, r);
  }

  /** The outcome in characters: the string stands where the reading stopped and nowhere before, or it stands
      nowhere in the stream, or nowhere within 4096 characters of the first that could start it, and there are
      more. */
  ghost predicate Tells(pat: string, stream: string, r: Outcome) {
    match r
    case Got(e) =>
      && |pat| <= e <= |stream| && pat <= stream[e - |pat|..]
      && forall k :: 0 <= k < e - |pat| ==> !(pat <= stream[k..])
    case Ended => forall k :: 0 <= k <= |stream| ==> !(pat <= stream[k..])
    case Overrun => pat != "" && exists f: nat :: OutOfReach(pat, stream, f)
    case Bad => false
  }

  ghost predicate OutOfReach(pat: string, stream: string, f: nat)
    requires pat != ""
  {
    && f + 4096 < |stream| && stream[f] == pat[0] && pat[0] !in stream[..f]
    && forall k :: 0 <= k <= f + 4096 - |pat| ==> !(pat <= stream[k..])
  }

  lemma RightTells(pat: string, stream: string, r: Outcome)
    requires Right(pat, stream, r) && pat != ""
    ensures Tells(pat, stream, r)
  {
    hide EndsAt, FirstChar;
    FirstCharMeans(stream, pat[0]);
    forall k: nat | k <= |stream|
      ensures pat <= stream[k..] ==> k + |pat| <= |stream| && EndsAt(stream, pat, k + |pat|)
    {
      StandsAt(stream, pat, k);
    }
    if r.Got? {
      StandsThere(stream, pat, r.consumed);
    } else if r.Overrun? {
      assert OutOfReach(pat, stream, FirstChar(stream, pat[0]));
    }
  }

  lemma StandsAt(stream: string, pat: string, k: nat)
    requires k <= |stream|
    ensures pat <= stream[k..] ==> k + |pat| <= |stream| && EndsAt(stream, pat, k + |pat|)
  {
    if pat <= stream[k..] {
      assert stream[k..k + |pat|] == stream[k..][..|pat|] == pat;
    }
  }

  lemma StandsThere(stream: string, pat: string, e: nat)
    requires EndsAt(stream, pat, e)
    ensures |pat| <= e <= |stream| && pat <= stream[e - |pat|..]
  {
    assert stream[e - |pat|..][..|pat|] == stream[e - |pat|..e];
  }

  lemma {:induction false} FirstCharMeans(stream: string, c: char)
    ensures var k := FirstChar(stream, c); k <= |stream| && c !in stream[..k] && (k < |stream| ==> stream[k] == c)
  {
    if stream != "" && stream[0] != c {
      FirstCharMeans(stream[1..], c);
      var k := FirstChar(stream[1..], c);
      assert stream[..k + 1] == [stream[0]] + stream[1..][..k];
    }
  }

  lemma {:induction false} FirstIs(stream: string, c: char, k: nat)
    requires k <= |stream| && (k < |stream| ==> stream[k] == c) && forall j :: 0 <= j < k ==> stream[j] != c
    ensures FirstChar(stream, c) == k
  {
    if k > 0 {
      FirstIs(stream[1..], c, k - 1);
    }
  }

  /** No occurrence starts before the first character that could start one. */
  lemma NoneBefore(stream: string, pat: string, first: char, k: nat)
    requires k == FirstChar(stream, first) && (pat != "" ==> pat[0] == first)
    ensures pat != "" ==> NoneTo(stream, pat, k + |pat| - 1)
  {
    forall e | pat != "" && 0 <= e <= k + |pat| - 1 && e <= |stream|
      ensures !EndsAt(stream, pat, e)
    {
      if |pat| <= e {
        assert stream[e - |pat|..e][0] == stream[e - |pat|];
      }
    }
  }

  /** The characters in the buffer from cmp on are the window of the stream that ends here. */
  lemma Window(stream: string, pat: string, k: nat, pos: nat, buf: string, cmp: nat)
    requires pat != "" && k + cmp + |pat| == pos <= |stream| && |buf| == |pat|
    requires forall j :: 0 <= j < |pat| ==> buf[j] == stream[k + cmp + j]
    ensures buf == pat <==> EndsAt(stream, pat, pos)
  {
    assert buf == stream[pos - |pat|..pos];
  }

  /** Without a match here the search has read this far for nothing: the line may end, or the buffer. */
  lemma NoneMore(stream: string, pat: string, pos: nat, k: nat)
    requires pat != "" && k == FirstChar(stream, pat[0]) && pos <= |stream| && NoneTo(stream, pat, pos - 1)
    requires !EndsAt(stream, pat, pos)
    ensures NoneTo(stream, pat, pos) && (pos == |stream| ==> Right(pat, stream, Ended))
    ensures k + MAXLINE == pos < |stream| ==> Right(pat, stream, Overrun)
  {
  }

  lemma GotRight(stream: string, pat: string, pos: nat)
    requires NoneTo(stream, pat, pos - 1) && EndsAt(stream, pat, pos)
    ensures Right(pat, stream, Got(pos))
  {
  }

  /** expect_str: the special string of two quotes expects nothing. */
  method ExpectStr(ptr: string, stream: string) returns (r: Outcome)
    requires CString(ptr) && |ptr| < MAXLINE
    ensures ptr == "\"\"" ==> r == Got(0)
    ensures ptr != "\"\"" && Unescape(ptr).None? ==> r == Bad
    ensures ptr != "\"\"" && Unescape(ptr).Some? ==> (Right(Unescape(ptr).value, stream, r) <==> ptr != "")
    ensures ptr == "" ==> ReadsToNul(stream, r)
  {
    if ptr == "\"\"" {
      return Got(0);
    }
    var e := Convert(ptr);
    if e.None? {
      return Bad;
    }
    UnescapeText(ptr);
    r := Search(e.value, stream);
  }

  /** A string that occurs within the buffer's reach is found, and nothing past its first occurrence is read. */
  lemma FoundAtFirstEnd(pat: string, stream: string, r: Outcome, e: nat)
    requires pat != "" && Right(pat, stream, r) && FirstEnd(stream, pat, e) && e <= FirstChar(stream, pat[0]) + MAXLINE
    ensures r == Got(e)
  {
    assert r.Got? ==> !(r.consumed < e) && !(e < r.consumed);
  }

  /** The empty string occurs at the very start of every stream, but the search never stops there. */
  lemma EmptyOverreads(stream: string, r: Outcome)
    requires ReadsToNul(stream, r)
    ensures FirstEnd(stream, "", 0) && !Right("", stream, r)
  {
    assert EndsAt(stream, "", 0);
  }
}
