/**
 * Header parts that writeMCPFrame does not produce but a client may send: other headers before and after
 * the length, the name in any letter case, and any white space after the colon.
 */
module McpHeaders {
  import opened Wrappers
  import opened Text
  import opened Decimal
  import opened McpFraming

  /** A header line that does not give the length. */
  predicate OtherHeader(h: string) {
    && h != "" && '\n' !in h
    && forall i :: 0 <= i < |Trim(h)| && Trim(h)[i] == ':' && ':' !in Trim(h)[..i] ==>
         ToLower(Trim(h)[..i]) != "content-length"
  }

  /** A header line that gives the length n. */
  predicate LengthHeader(h: string, name: string, pad: string, n: nat) {
    h == name + ":" + pad + Print(n) && ToLower(name) == "content-length" && AllSpace(pad) && '\n' !in pad
  }

  function HeaderLines(hs: seq<string>): string {
    if hs == [] then "" else hs[0] + BREAK + HeaderLines(hs[1..])
  }

  lemma {:induction false} ColonIsFirst(s: string)
    ensures ':' !in s[..Colon(s)] && (Colon(s) < |s| ==> s[Colon(s)] == ':')
  {
    if s != "" && s[0] != ':' {
      ColonIsFirst(s[1..]);
      assert s[..Colon(s)] == [s[0]] + s[1..][..Colon(s[1..])];
    }
  }

  lemma TrimOfLine(h: string)
    ensures Trim(h + BREAK) == Trim(h)
  {
    assert (h + BREAK)[|h|..] == BREAK;
    TrimIgnoresRight(h, h + BREAK);
  }

  lemma LowerHeader()
    ensures ToLower(HEADER) == "content-length"
  {
    var mark := "content-length";
    forall i | 0 <= i < |mark| ensures ToLower(HEADER)[i] == mark[i] {}
  }

  lemma OtherHeaderPasses(h: string, length: int)
    requires OtherHeader(h)
    ensures HeaderLength(h + BREAK, length) == Some(length)
  {
    TrimOfLine(h);
    ColonIsFirst(Trim(h));
    LowerHeader();
    hide Trim, Colon, ToLower;
  }

  lemma NameHasNoColon(name: string)
    requires ToLower(name) == "content-length"
    ensures ':' !in name && '\n' !in name && |name| == 14 && !IsSpace(name[0])
  {
    forall i | 0 <= i < |name| ensures name[i] != ':' && name[i] != '\n' {
      assert ToLower(name)[i] == Lower(name[i]);
    }
    assert ToLower(name)[0] == Lower(name[0]);
  }

  lemma {:induction false} TrimLeftPad(pad: string, s: string)
    requires AllSpace(pad) && s != "" && !IsSpace(s[0])
    ensures TrimLeft(pad + s) == s
  {
    if pad == "" {
      assert pad + s == s;
    } else {
      assert (pad + s)[1..] == pad[1..] + s;
      TrimLeftPad(pad[1..], s);
    }
  }

  /** The length is read whatever the letter case of the name and the white space after the colon. */
  lemma LengthHeaderCounts(h: string, name: string, pad: string, n: nat, length: int)
    requires LengthHeader(h, name, pad, n)
    ensures HeaderLength(h + BREAK, length) == if n <= MAX_INT then Some(n) else None
  {
    var digits := Print(n);
    PrintIsTrimmed(n);
    NameHasNoColon(name);
    TrimOfLine(h);
    assert h[0] == name[0] && h[|h| - 1] == digits[|digits| - 1];
    TrimOfTrimmed(h);
    assert h == name + (":" + pad + digits);
    ColonAfter(name, ":" + pad + digits);
    assert h[..14] == name && h[15..] == pad + digits;
    TrimLeftPad(pad, digits);
    TrimOfTrimmed(digits);
    LowerHeader();
    AtoiOfPrint(n);
    assert TrimLeft(digits) == digits;
    hide Colon, ToLower, TrimLeft, TrimRight, Atoi;
  }

  lemma ReadOther(h: string, rest: string, length: int)
    requires OtherHeader(h)
    ensures ReadHeaders(h + BREAK + rest, length) == ReadHeaders(rest, length)
  {
    TakeHeader(h, rest);
    OtherHeaderPasses(h, length);
    assert |h + BREAK| != |BREAK|;
    hide HeaderLength, OtherHeader, TakeLine;
  }

  lemma {:induction false} ReadOthers(hs: seq<string>, rest: string, length: int)
    requires forall h :: h in hs ==> OtherHeader(h)
    ensures ReadHeaders(HeaderLines(hs) + rest, length) == ReadHeaders(rest, length)
  {
    if hs == [] {
      assert HeaderLines(hs) + rest == rest;
    } else {
      assert HeaderLines(hs) + rest == hs[0] + BREAK + (HeaderLines(hs[1..]) + rest);
      ReadOther(hs[0], HeaderLines(hs[1..]) + rest, length);
      ReadOthers(hs[1..], rest, length);
    }
  }

  lemma ReadLength(h: string, name: string, pad: string, n: nat, rest: string, length: int)
    requires LengthHeader(h, name, pad, n) && n <= MAX_INT
    ensures ReadHeaders(h + BREAK + rest, length) == ReadHeaders(rest, n)
  {
    NameHasNoColon(name);
    PrintIsTrimmed(n);
    assert '\n' !in h;
    TakeHeader(h, rest);
    LengthHeaderCounts(h, name, pad, n, length);
    assert |h + BREAK| != |BREAK|;
    hide HeaderLength, LengthHeader, TakeLine;
  }

  /** A payload is read back, and nothing after it touched, whatever other headers come with its length. */
  lemma HeadersRoundTrip(before: seq<string>, h: string, name: string, pad: string, after: seq<string>,
                         payload: string, rest: string)
    requires Readable(payload) && LengthHeader(h, name, pad, |payload|)
    requires (forall x :: x in before ==> OtherHeader(x)) && (forall x :: x in after ==> OtherHeader(x))
    ensures ReadFrame(HeaderLines(before) + (h + BREAK + (HeaderLines(after) + (BREAK + (payload + rest))))) ==
            Read(Ok(payload), rest)
  {
    var body := payload + rest;
    var tail := HeaderLines(after) + (BREAK + body);
    hide OtherHeader, LengthHeader, HeaderLines, ReadHeaders;
    ReadOthers(before, h + BREAK + tail, 0);
    ReadLength(h, name, pad, |payload|, tail, 0);
    ReadOthers(after, BREAK + body, |payload|);
    ReadBlankHeader(body, |payload|);
    assert body[..|payload|] == payload && body[|payload|..] == rest;
  }

  /** A header part without a length is refused. */
  lemma NoLengthIsRefused(hs: seq<string>, rest: string)
    requires forall h :: h in hs ==> OtherHeader(h)
    ensures ReadFrame(HeaderLines(hs) + BREAK + rest) == Read(Err(MissingLength), rest)
  {
    assert HeaderLines(hs) + BREAK + rest == HeaderLines(hs) + (BREAK + rest);
    hide OtherHeader, HeaderLines, ReadHeaders;
    ReadOthers(hs, BREAK + rest, 0);
    ReadBlankHeader(rest, 0);
  }

  // ----- detection

  predicate AllSkipped(pad: string) { forall i :: 0 <= i < |pad| ==> pad[i] in {' ', '\t', '\r', '\n'} }

  lemma {:induction false} SkipGoesOver(pad: string, t: string)
    requires AllSkipped(pad) && (t == "" || !IsSkipped(t[0]))
    ensures Skip(pad + t) == t
  {
    if pad == "" {
      assert pad + t == t;
    } else {
      assert (pad + t)[1..] == pad[1..] + t && (pad + t)[0] == pad[0];
      SkipGoesOver(pad[1..], t);
    }
  }

  predicate NamesLength(t: string) { 15 <= |t| && ToLower(t[..15]) == "content-length:" }

  lemma PeekIsEnough(t: string)
    ensures HasPrefix(ToLower(Peek(t)), "content-length:") <==> NamesLength(t)
  {
    var p := ToLower(Peek(t));
    if 15 <= |t| { assert p[..15] == ToLower(t[..15]); }
  }

  /**
   * Leading white space is passed over. What follows is Content-Length framing exactly when it begins with that
   * header name in any letter case and a colon; any other input is raw, and none at all is the end of input.
   */
  lemma DetectIff(pad: string, t: string)
    requires AllSkipped(pad) && (t == "" || !IsSkipped(t[0]))
    ensures Detect(pad + t) ==
            if t == "" then Read(Err(EndOfInput), "") else Read(Ok(if NamesLength(t) then ContentLength else Raw), t)
  {
    SkipGoesOver(pad, t);
    PeekIsEnough(t);
    hide Skip, Peek, NamesLength, ToLower;
  }
}
