/**
 * Content-Length framing on the stdio transport: the header part of the base protocol of the
 * Language Server Protocol 3.17. The unread input is a string; a reader takes bytes off its front.
 */
module McpFraming {
  import opened Wrappers
  import opened Text
  import opened Decimal

  datatype Failure = EndOfInput | UnexpectedEnd | InvalidLength | MissingLength | RawMode

  datatype Mode = Unknown | ContentLength | Raw

  const HEADER := "Content-Length"
  const BREAK := "\r\n"

  // ----- reading lines and headers

  /** The first line, line break included, and what follows it; no line when there is no break. */
  function TakeLine(s: string): Option<(string, string)> {
    if s == "" then None
    else if s[0] == '\n' then Some((s[..1], s[1..]))
    else
      var later := TakeLine(s[1..]);
      if later.None? then None else Some(([s[0]] + later.value.0, later.value.1))
  }

  lemma {:induction false} TakeLineSplits(s: string)
    ensures var t := TakeLine(s);
            && (t.None? <==> '\n' !in s)
            && (t.Some? ==> t.value.0 + t.value.1 == s && |t.value.1| < |s|)
  {
    if s != "" && s[0] != '\n' {
      TakeLineSplits(s[1..]);
      assert s == [s[0]] + s[1..];
    }
  }

  lemma {:induction false} TakeLineAfter(read: string, rest: string)
    requires '\n' !in read && rest != "" && rest[0] == '\n'
    ensures TakeLine(read + rest) == Some((read + rest[..1], rest[1..]))
  {
    if read == "" {
      assert read + rest == rest && read + rest[..1] == rest[..1];
    } else {
      assert (read + rest)[1..] == read[1..] + rest;
      TakeLineAfter(read[1..], rest);
      assert [read[0]] + (read[1..] + rest[..1]) == read + rest[..1];
    }
  }

  /** Where the first colon is, or the length of the string. */
  function Colon(s: string): (i: nat)
    ensures i <= |s|
  {
    if s == "" || s[0] == ':' then 0 else 1 + Colon(s[1..])
  }

  /** The length that a header line announces; other lines leave the length as it was. */
  function HeaderLength(line: string, length: int): Option<int> {
    var h := Trim(line);
    var i := Colon(h);
    if i < |h| && EqualFold(h[..i], HEADER) then Atoi(Trim(h[i + 1..])) else Some(length)
  }

  /** What a read gives, and the input it leaves. */
  datatype Read<T> = Read(result: Result<T, Failure>, rest: string)

  function ReadHeaders(s: string, length: int): Read<int>
    decreases |s|
  {
    TakeLineSplits(s);
    var t := TakeLine(s);
    if t.None? then Read(Err(EndOfInput), "")
    else if t.value.0 == BREAK then Read(Ok(length), t.value.1)
    else
      var n := HeaderLength(t.value.0, length);
      if n.None? then Read(Err(InvalidLength), t.value.1) else ReadHeaders(t.value.1, n.value)
  }

  /** A payload that does not arrive at all ends the input; one that arrives in part breaks it off. */
  function CutShort(part: string): Failure { if part == "" then EndOfInput else UnexpectedEnd }

  function ReadFrame(s: string): Read<string> {
    var h := ReadHeaders(s, 0);
    if h.result.Err? then Read(Err(h.result.error), h.rest)
    else if h.result.value <= 0 then Read(Err(MissingLength), h.rest)
    else if |h.rest| < h.result.value then Read(Err(CutShort(h.rest)), "")
    else Read(Ok(h.rest[..h.result.value]), h.rest[h.result.value..])
  }

  // ----- detection

  predicate IsSkipped(c: char) { c == ' ' || c == '\t' || c == '\r' || c == '\n' }

  function Skip(s: string): string {
    if s != "" && IsSkipped(s[0]) then Skip(s[1..]) else s
  }

  function Peek(s: string): string { if |s| < 32 then s else s[..32] }

  function Detect(s: string): Read<Mode> {
    var t := Skip(s);
    if t == "" then Read(Err(EndOfInput), "")
    else Read(Ok(if HasPrefix(ToLower(Peek(t)), "content-length:") then ContentLength else Raw), t)
  }

  /** The next payload of a connection, the mode it is in from then on, and the input left. */
  function NextPayload(s: string, mode: Mode): (Read<string>, Mode) {
    if mode == Unknown then
      var d := Detect(s);
      if d.result.Err? then (Read(Err(d.result.error), d.rest), Unknown)
      else if d.result.value == Raw then (Read(Err(RawMode), d.rest), Raw)
      else (ReadFrame(d.rest), ContentLength)
    else if mode == ContentLength then (ReadFrame(s), ContentLength)
    else (Read(Err(RawMode), s), Raw)
  }

  function Frame(payload: string): string {
    HEADER + ": " + Print(|payload|) + BREAK + BREAK + payload
  }

  // ----- the connection

  /** Raw mode hands over to a JSON decoder, which is not part of this model: RawMode stands for it. */
  class Conn {
    var input: string
    var output: string
    var mode: Mode

    constructor (input: string)
      ensures this.input == input && output == "" && mode == Unknown
    {
      this.input := input;
      output := "";
      mode := Unknown;
    }

    method ReadLine() returns (line: Option<string>)
      modifies this`input
      ensures var t := TakeLine(old(input));
              if t.None? then line.None? && input == "" else line == Some(t.value.0) && input == t.value.1
    {
      var read := "";
      while input != ""
        invariant read + input == old(input) && '\n' !in read
        decreases |input|
      {
        var c := input[0];
        assert input[..1] == [c];
        if c == '\n' { TakeLineAfter(read, input); }
        input := input[1..];
        read := read + [c];
        if c == '\n' { return Some(read); }
      }
      assert read == old(input);
      TakeLineSplits(read);
      return None;
    }

    method ReadFramed() returns (r: Result<string, Failure>)
      modifies this`input
      ensures Read(r, input) == ReadFrame(old(input))
    {
      var length := 0;
      while true
        invariant ReadHeaders(old(input), 0) == ReadHeaders(input, length)
        decreases |input|
      {
        TakeLineSplits(input);
        var line := ReadLine();
        if line.None? { return Err(EndOfInput); }
        if line.value == BREAK { break; }
        var n := HeaderLength(line.value, length);
        if n.None? { return Err(InvalidLength); }
        length := n.value;
      }
      if length <= 0 { return Err(MissingLength); }
      if |input| < length {
        r := Err(CutShort(input));
        input := "";
        return;
      }
      r := Ok(input[..length]);
      input := input[length..];
    }

    method DetectFraming() returns (r: Result<Mode, Failure>)
      modifies this`input
      ensures Read(r, input) == Detect(old(input))
    {
      while input != "" && IsSkipped(input[0])
        invariant Skip(input) == Skip(old(input))
        decreases |input|
      {
        input := input[1..];
      }
      if input == "" { return Err(EndOfInput); }
      if HasPrefix(ToLower(Peek(input)), "content-length:") { return Ok(ContentLength); }
      return Ok(Raw);
    }

    method ReadPayload() returns (r: Result<string, Failure>)
      modifies this`input, this`mode
      ensures (Read(r, input), mode) == NextPayload(old(input), old(mode))
    {
      if mode == Unknown {
        var d := DetectFraming();
        if d.Err? { return Err(d.error); }
        mode := d.value;
      }
      if mode == ContentLength {
        r := ReadFramed();
      } else {
        r := Err(RawMode);
      }
    }

    /** The server loop: takes payloads until one cannot be read. */
    method ReadUntilFailure() returns (payloads: seq<string>, failure: Failure)
      modifies this`input, this`mode
      ensures payloads == ReadAll(old(input), old(mode)).0 && failure == ReadAll(old(input), old(mode)).1
    {
      payloads := [];
      while true
        invariant ReadAll(old(input), old(mode)).0 == payloads + ReadAll(input, mode).0
        invariant ReadAll(old(input), old(mode)).1 == ReadAll(input, mode).1
        decreases |input|
      {
        ghost var s, m := input, mode;
        var r := ReadPayload();
        ReadAllStep(s, m, r, input, mode);
        if r.Err? {
          assert payloads + [] == payloads;
          failure := r.error;
          return;
        }
        payloads := payloads + [r.value];
      }
    }

    method WriteResponse(data: string)
      modifies this`output
      ensures output == old(output) + (if mode == Raw then data + "\n" else Frame(data))
    {
      if mode == Raw {
        output := output + data;
        output := output + "\n";
      } else {
        output := output + HEADER + ": " + Print(|data|) + BREAK + BREAK;
        output := output + data;
      }
    }
  }

  // ----- round trips

  lemma {:induction false} ColonAfter(a: string, b: string)
    requires ':' !in a && b != "" && b[0] == ':'
    ensures Colon(a + b) == |a|
  {
    if a != "" {
      assert (a + b)[1..] == a[1..] + b;
      ColonAfter(a[1..], b);
    }
  }

  lemma PrintIsTrimmed(n: nat)
    ensures Print(n) != "" && '\n' !in Print(n)
    ensures !IsSpace(Print(n)[0]) && !IsSpace(Print(n)[|Print(n)| - 1])
  {
    PrintThenValue(n);
    assert IsDigit(Print(n)[0]) && IsDigit(Print(n)[|Print(n)| - 1]);
  }

  lemma HeaderIsTrimmed(digits: string, header: string)
    requires digits != "" && !IsSpace(digits[|digits| - 1]) && header == HEADER + ": " + digits
    ensures Trim(header + BREAK) == header
  {
    assert header[|header| - 1] == digits[|digits| - 1] && header[0] == HEADER[0];
    TrimOfTrimmed(header);
    assert (header + BREAK)[|header|..] == BREAK;
    TrimIgnoresRight(header, header + BREAK);
  }

  lemma SpaceBefore(digits: string)
    requires digits != "" && !IsSpace(digits[0]) && !IsSpace(digits[|digits| - 1])
    ensures Trim(" " + digits) == digits
  {
    assert TrimLeft(" " + digits) == TrimLeft((" " + digits)[1..]);
    TrimOfTrimmed(digits);
  }

  lemma HeaderIsCut(digits: string, header: string)
    requires digits != "" && header == HEADER + ": " + digits
    requires !IsSpace(digits[0]) && !IsSpace(digits[|digits| - 1])
    ensures Colon(header) == |HEADER| < |header| && header[..|HEADER|] == HEADER
    ensures Trim(header[|HEADER| + 1..]) == digits
  {
    hide Trim, Colon, IsSpace;
    var mark := ": ";
    assert header == HEADER + (mark + digits) && ':' !in HEADER;
    ColonAfter(HEADER, mark + digits);
    assert header[|HEADER| + 1..] == " " + digits;
    SpaceBefore(digits);
  }

  /** The header line that a frame starts with announces the length it was given, if it fits. */
  lemma HeaderOfPrint(n: nat, length: int, header: string)
    requires header == HEADER + ": " + Print(n)
    ensures HeaderLength(header + BREAK, length) == if n <= MAX_INT then Some(n) else None
  {
    PrintIsTrimmed(n);
    HeaderIsTrimmed(Print(n), header);
    HeaderIsCut(Print(n), header);
    AtoiOfPrint(n);
  }

  lemma TakeHeader(header: string, rest: string)
    requires '\n' !in header
    ensures TakeLine(header + BREAK + rest) == Some((header + BREAK, rest))
  {
    assert header + BREAK + rest == (header + "\r") + ("\n" + rest);
    assert header + "\r" + ("\n" + rest)[..1] == header + BREAK;
    TakeLineAfter(header + "\r", "\n" + rest);
  }

  lemma ReadBlankHeader(rest: string, length: int)
    ensures ReadHeaders(BREAK + rest, length) == Read(Ok(length), rest)
  {
    TakeHeader("", rest);
    assert "" + BREAK + rest == BREAK + rest && "" + BREAK == BREAK;
  }

  predicate Readable(payload: string) { 0 < |payload| <= MAX_INT }

  /** Reading the header line of a frame, whatever comes after it. */
  lemma ReadFrameHeader(payload: string, header: string, rest: string)
    requires header == HEADER + ": " + Print(|payload|)
    ensures ReadHeaders(header + BREAK + rest, 0) ==
            if |payload| <= MAX_INT then ReadHeaders(rest, |payload|) else Read(Err(InvalidLength), rest)
    ensures '\n' !in header
  {
    PrintIsTrimmed(|payload|);
    assert '\n' !in HEADER && '\n' !in ": ";
    TakeHeader(header, rest);
    HeaderOfPrint(|payload|, 0, header);
    assert header + BREAK != BREAK;
  }

  /** A frame is read back, and nothing after it is touched, exactly when its payload is not empty and fits. */
  lemma FrameRoundTrip(payload: string, rest: string)
    ensures Readable(payload) ==> ReadFrame(Frame(payload) + rest) == Read(Ok(payload), rest)
    ensures !Readable(payload) ==> ReadFrame(Frame(payload) + rest).result in {Err(MissingLength), Err(InvalidLength)}
  {
    var header := HEADER + ": " + Print(|payload|);
    assert Frame(payload) + rest == header + BREAK + (BREAK + (payload + rest));
    ReadFrameHeader(payload, header, BREAK + (payload + rest));
    if |payload| <= MAX_INT {
      ReadBlankHeader(payload + rest, |payload|);
      assert (payload + rest)[..|payload|] == payload && (payload + rest)[|payload|..] == rest;
    }
  }

  /** How a frame cut at byte n reads: broken off inside the payload, or else as the end of input. */
  function CutFailure(payload: string, n: int): Failure {
    if n > |Frame(payload)| - |payload| then UnexpectedEnd else EndOfInput
  }

  lemma CutFrameEnds(payload: string, n: nat)
    requires Readable(payload) && n < |Frame(payload)|
    ensures ReadFrame(Frame(payload)[..n]) == Read(Err(CutFailure(payload, n)), "")
  {
    var header := HEADER + ": " + Print(|payload|);
    assert Frame(payload) == header + BREAK + (BREAK + payload);
    var cut := Frame(payload)[..n];
    ReadFrameHeader(payload, header, "");
    if n < |header| + 2 {
      assert cut == (header + "\r")[..n];
      TakeLineSplits(cut);
    } else {
      var m := n - |header| - 2;
      var tail := (BREAK + payload)[..m];
      assert cut == header + BREAK + tail;
      ReadFrameHeader(payload, header, tail);
      if m < 2 {
        assert tail == "\r"[..m];
        TakeLineSplits(tail);
      } else {
        assert tail == BREAK + payload[..m - 2];
        ReadBlankHeader(payload[..m - 2], |payload|);
      }
    }
  }

  // ----- whole streams

  function Frames(payloads: seq<string>): string {
    if payloads == [] then "" else Frame(payloads[0]) + Frames(payloads[1..])
  }

  lemma {:induction false} ReadHeadersShrinks(s: string, length: int)
    ensures |ReadHeaders(s, length).rest| <= |s|
    ensures ReadHeaders(s, length).result.Ok? ==> |ReadHeaders(s, length).rest| < |s|
    decreases |s|
  {
    TakeLineSplits(s);
    var t := TakeLine(s);
    if t.Some? && t.value.0 != BREAK && HeaderLength(t.value.0, length).Some? {
      ReadHeadersShrinks(t.value.1, HeaderLength(t.value.0, length).value);
    }
  }

  lemma {:induction false} SkipShrinks(s: string)
    ensures |Skip(s)| <= |s|
  {
    if s != "" && IsSkipped(s[0]) { SkipShrinks(s[1..]); }
  }

  lemma NextPayloadShrinks(s: string, mode: Mode)
    ensures var read := NextPayload(s, mode).0; read.result.Ok? ==> |read.rest| < |s|
  {
    SkipShrinks(s);
    ReadHeadersShrinks(s, 0);
    ReadHeadersShrinks(Skip(s), 0);
  }

  /** Every payload read before the first failure, and that failure. */
  function ReadAll(s: string, mode: Mode): (seq<string>, Failure)
    decreases |s|
  {
    NextPayloadShrinks(s, mode);
    var (read, next) := NextPayload(s, mode);
    if read.result.Err? then ([], read.result.error)
    else
      var (later, failure) := ReadAll(read.rest, next);
      ([read.result.value] + later, failure)
  }

  lemma ReadAllStep(s: string, mode: Mode, r: Result<string, Failure>, rest: string, next: Mode)
    requires (Read(r, rest), next) == NextPayload(s, mode)
    ensures r.Err? ==> ReadAll(s, mode) == ([], r.error)
    ensures r.Ok? ==> |rest| < |s|
    ensures r.Ok? ==> ReadAll(s, mode) == ([r.value] + ReadAll(rest, next).0, ReadAll(rest, next).1)
  {
    NextPayloadShrinks(s, mode);
  }

  predicate AllReadable(payloads: seq<string>) { forall p :: p in payloads ==> Readable(p) }

  lemma {:induction false} FramesReadBack(payloads: seq<string>)
    ensures ReadAll(Frames(payloads), ContentLength) == (payloads, EndOfInput) <==> AllReadable(payloads)
    decreases |payloads|
  {
    if payloads == [] {
      assert ReadHeaders("", 0) == Read(Err(EndOfInput), "");
    } else {
      FrameRoundTrip(payloads[0], Frames(payloads[1..]));
      FramesReadBack(payloads[1..]);
      assert payloads == [payloads[0]] + payloads[1..];
      assert AllReadable(payloads) <==> Readable(payloads[0]) && AllReadable(payloads[1..]);
    }
  }

  const MARK := "Content-Length:"

  lemma MarkIsDetected(s: string)
    requires MARK <= s
    ensures Detect(s) == Read(Ok(ContentLength), s)
  {
    var mark := "content-length:";
    assert s[0] == MARK[0];
    forall i | 0 <= i < 15 ensures ToLower(Peek(s))[i] == mark[i] {
      assert Peek(s)[i] == s[i] == MARK[i];
    }
    assert ToLower(Peek(s))[..15] == mark;
  }

  /** However a frame goes on, it is recognised as Content-Length framing. */
  lemma FrameIsDetected(payload: string, rest: string)
    ensures Detect(Frame(payload) + rest) == Read(Ok(ContentLength), Frame(payload) + rest)
  {
    assert Frame(payload)[..|MARK|] == MARK;
    MarkIsDetected(Frame(payload) + rest);
  }

  /**
   * What one peer writes as frames the other reads back, in order and up to the end of input, and
   * does so exactly when no payload is empty or too long for its length to be parsed.
   */
  lemma StreamRoundTrip(payloads: seq<string>)
    ensures ReadAll(Frames(payloads), Unknown) == (payloads, EndOfInput) <==> AllReadable(payloads)
  {
    FramesReadBack(payloads);
    if payloads != [] {
      FrameIsDetected(payloads[0], Frames(payloads[1..]));
    }
  }

  lemma FramesTake(payloads: seq<string>, k: nat)
    requires k < |payloads|
    ensures payloads[..k + 1] == [payloads[0]] + payloads[1..][..k]
    ensures Frames(payloads[..k + 1]) == Frame(payloads[0]) + Frames(payloads[1..][..k])
  {
    assert payloads[..k + 1][1..] == payloads[1..][..k];
  }

  lemma ReadOneMore(payload: string, rest: string, later: seq<string>, failure: Failure)
    requires Readable(payload) && ReadAll(rest, ContentLength) == (later, failure)
    ensures ReadAll(Frame(payload) + rest, ContentLength) == ([payload] + later, failure)
  {
    FrameRoundTrip(payload, rest);
  }

  lemma CutFirstFrame(payload: string, n: nat)
    requires Readable(payload) && n < |Frame(payload)|
    ensures ReadAll(Frame(payload)[..n], ContentLength) == ([], CutFailure(payload, n))
  {
    CutFrameEnds(payload, n);
  }

  /** Where a stream is cut: k frames are whole, and then `failure` is met. */
  ghost predicate CutAt(payloads: seq<string>, n: nat, k: nat, failure: Failure) {
    && k <= |payloads| && |Frames(payloads[..k])| <= n
    && (k < |payloads| ==> n < |Frames(payloads[..k + 1])|)
    && failure == if k < |payloads| then CutFailure(payloads[k], n - |Frames(payloads[..k])|) else EndOfInput
  }

  lemma CutLater(payloads: seq<string>, n: nat, k: nat, failure: Failure)
    requires payloads != [] && |Frame(payloads[0])| <= n
    requires CutAt(payloads[1..], n - |Frame(payloads[0])|, k, failure)
    ensures CutAt(payloads, n, k + 1, failure)
  {
    hide Frame, CutFailure;
    FramesTake(payloads, k);
    if k < |payloads[1..]| { FramesTake(payloads, k + 1); }
  }

  lemma CutInFirst(payloads: seq<string>, n: nat)
    requires payloads != [] && n < |Frame(payloads[0])|
    ensures CutAt(payloads, n, 0, CutFailure(payloads[0], n))
    ensures Frames(payloads)[..n] == Frame(payloads[0])[..n]
  {
    hide Frame, CutFailure;
    FramesTake(payloads, 0);
    assert payloads[..0] == [] && payloads[1..][..0] == [];
  }

  lemma CutAtEnd()
    ensures CutAt([], 0, 0, EndOfInput) && ReadAll(Frames([])[..0], ContentLength) == ([], EndOfInput)
  {
    FramesReadBack([]);
  }

  /** Of a stream cut at byte n, exactly the payloads whose frames are whole are read. */
  lemma {:induction false} CutStreamReadsWholeFrames(payloads: seq<string>, n: nat) returns (k: nat, failure: Failure)
    requires AllReadable(payloads) && n <= |Frames(payloads)|
    ensures CutAt(payloads, n, k, failure)
    ensures ReadAll(Frames(payloads)[..n], ContentLength) == (payloads[..k], failure)
  {
    hide Frame, CutFailure, CutAt, ReadAll;
    if payloads == [] {
      CutAtEnd();
      return 0, EndOfInput;
    }
    var first, later := Frame(payloads[0]), payloads[1..];
    assert Readable(payloads[0]);
    if n < |first| {
      CutInFirst(payloads, n);
      CutFirstFrame(payloads[0], n);
      return 0, CutFailure(payloads[0], n);
    }
    k, failure := CutStreamReadsWholeFrames(later, n - |first|);
    CutIsInside(later, n - |first|, k, failure);
    assert Frames(payloads)[..n] == first + Frames(later)[..n - |first|];
    ReadOneMore(payloads[0], Frames(later)[..n - |first|], later[..k], failure);
    CutLater(payloads, n, k, failure);
    assert payloads[..k + 1] == [payloads[0]] + later[..k];
    k := k + 1;
  }

  lemma CutIsInside(payloads: seq<string>, n: nat, k: nat, failure: Failure)
    requires CutAt(payloads, n, k, failure)
    ensures k <= |payloads|
  {
  }

  /** A stream of frames starts with the mark that detection looks for, as far as it goes. */
  lemma StartsWithMark(payloads: seq<string>, n: nat)
    requires n <= |Frames(payloads)|
    ensures Frames(payloads)[..n] <= MARK || MARK <= Frames(payloads)[..n]
    ensures |MARK| <= n ==> MARK <= Frames(payloads)[..n]
  {
    if payloads != [] {
      var first := Frame(payloads[0]);
      assert first[..|MARK|] == MARK;
      assert Frames(payloads)[..|MARK|] == first[..|MARK|];
      if n < |MARK| { assert Frames(payloads)[..n] == MARK[..n]; }
      if n >= |MARK| { assert Frames(payloads)[..n][..|MARK|] == MARK; }
    }
  }

  /** Detection on part of the mark: nothing to read, or raw mode. */
  lemma PartOfMark(s: string)
    requires s < MARK
    ensures Detect(s) == if s == "" then Read(Err(EndOfInput), "") else Read(Ok(Raw), s)
  {
    if s != "" { assert s[0] == MARK[0]; }
  }

  /**
   * A connection whose stream of frames is cut at byte n: within the first 15 bytes it takes the stream
   * for raw mode, and otherwise it reads exactly the payloads of whole frames.
   */
  lemma CutConnectionReadsWholeFrames(payloads: seq<string>, n: nat) returns (k: nat, failure: Failure)
    requires AllReadable(payloads) && n <= |Frames(payloads)|
    ensures CutAt(payloads, n, k, failure)
    ensures ReadAll(Frames(payloads)[..n], Unknown) ==
            if 0 < n < |MARK| then ([], RawMode) else (payloads[..k], failure)
  {
    var s := Frames(payloads)[..n];
    k, failure := CutStreamReadsWholeFrames(payloads, n);
    StartsWithMark(payloads, n);
    if n < |MARK| {
      PartOfMark(s);
      if n == 0 { EmptyStream(payloads, k, failure); }
    } else {
      MarkIsDetected(s);
    }
  }

  lemma EmptyStream(payloads: seq<string>, k: nat, failure: Failure)
    requires CutAt(payloads, 0, k, failure)
    ensures payloads[..k] == [] && failure == EndOfInput
  {
  }
}
