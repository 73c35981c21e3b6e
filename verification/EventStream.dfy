/**
 * The server-sent event reader, against the writer that builds a resource body from event source
 * messages: each payload becomes one "data:" line followed by a blank line.
 */
module EventStream {
  import opened Text
  import opened Lines
  import opened NetworkCollector

  const DATA := "data:"

  function TrimReturns(s: string): string {
    if s != "" && s[|s| - 1] == '\r' then TrimReturns(s[..|s| - 1]) else s
  }

  /** The data lines of the event being read, and the events read so far. */
  datatype Reader = Reader(current: seq<string>, events: seq<string>)

  const START := Reader([], [])

  function Flush(r: Reader): Reader {
    if r.current == [] then r else Reader([], r.events + [Join(r.current, "\n")])
  }

  function ReadLine(r: Reader, line: string): Reader {
    var l := TrimReturns(line);
    if Blank(l) then Flush(r)
    else if HasPrefix(l, DATA) then r.(current := r.current + [Trim(l[|DATA|..])])
    else r
  }

  function ReadLines(r: Reader, lines: seq<string>): Reader
    decreases |lines|
  {
    if lines == [] then r else ReadLines(ReadLine(r, lines[0]), lines[1..])
  }

  function Blocks(body: string): seq<string> { Flush(ReadLines(START, Split(body))).events }

  method EventStreamDataBlocks(body: string) returns (events: seq<string>)
    ensures events == Blocks(body)
  {
    events := [];
    var current: seq<string> := [];
    var lines := Split(body);
    var i := 0;
    while i < |lines|
      invariant 0 <= i <= |lines|
      invariant ReadLines(START, lines) == ReadLines(Reader(current, events), lines[i..])
    {
      var line := TrimReturns(lines[i]);
      assert lines[i..][1..] == lines[i + 1..];
      if Blank(line) {
        if current != [] {
          events := events + [Join(current, "\n")];
          current := [];
        }
      } else if HasPrefix(line, DATA) {
        current := current + [Trim(line[|DATA|..])];
      }
      i := i + 1;
    }
    if current != [] {
      events := events + [Join(current, "\n")];
    }
  }

  // ----- the writer

  /** The body that the event source handler builds from payloads, with no byte cut. */
  function Written(payloads: seq<string>): string {
    if payloads == [] then "" else EventRecord(payloads[0]) + Written(payloads[1..])
  }

  function Trimmed(payloads: seq<string>): seq<string> {
    seq(|payloads|, i requires 0 <= i < |payloads| => Trim(payloads[i]))
  }

  predicate SingleLine(payload: string) { '\n' !in Trim(payload) }

  // ----- reading what was written

  lemma {:induction false} ReadConcat(r: Reader, a: seq<string>, b: seq<string>)
    ensures ReadLines(r, a + b) == ReadLines(ReadLines(r, a), b)
    decreases |a|
  {
    if a == [] {
      assert a + b == b;
    } else {
      assert (a + b)[1..] == a[1..] + b;
      ReadConcat(ReadLine(r, a[0]), a[1..], b);
    }
  }

  lemma {:induction false} TrimReturnsShape(s: string)
    ensures TrimReturns(s) <= s && AllSpace(s[|TrimReturns(s)|..])
  {
    if s != "" && s[|s| - 1] == '\r' {
      var u := s[..|s| - 1];
      TrimReturnsShape(u);
      assert s[|TrimReturns(s)|..] == u[|TrimReturns(s)|..] + [s[|s| - 1]];
    }
  }

  lemma SplitWritten(payload: string, rest: string)
    ensures Split(EventRecord(payload) + rest) == Split("data: " + Trim(payload)) + [""] + Split(rest)
  {
    var line := "data: " + Trim(payload);
    assert EventRecord(payload) + rest == line + "\n" + ("" + "\n" + rest);
    SplitAtBreak(line, "" + "\n" + rest);
    SplitAtBreak("", rest);
  }

  lemma {:induction false} TrimReturnsStops(s: string, n: nat)
    requires n <= |s| && (n == 0 || s[n - 1] != '\r')
    ensures n <= |TrimReturns(s)|
  {
    if n < |s| && s[|s| - 1] == '\r' { TrimReturnsStops(s[..|s| - 1], n); }
  }

  /** A line that starts with "data: " adds the rest of it, trimmed. */
  lemma ReadDataLine(r: Reader, t: string)
    ensures ReadLine(r, "data: " + t) == r.(current := r.current + [Trim(t)])
  {
    var line := "data: " + t;
    var l := TrimReturns(line);
    TrimReturnsShape(line);
    TrimReturnsStops(line, 6);
    assert l[..5] == line[..5] == DATA;
    assert !IsSpace(l[0]);
    BlankIffAllSpace(l);
    assert " " + t == line[5..];
    assert line[5..][|l| - 5..] == line[|l|..];
    TrimIgnoresRight(l[5..], " " + t);
    assert TrimLeft(" " + t) == TrimLeft((" " + t)[1..]);
  }

  lemma ReadBlankLine(r: Reader)
    ensures ReadLine(r, "") == Flush(r)
  {
  }

  predicate SingleLines(payloads: seq<string>) { forall p :: p in payloads ==> SingleLine(p) }

  lemma ReadRecord(r: Reader, payload: string, rest: string)
    requires r.current == [] && SingleLine(payload)
    ensures ReadLines(r, Split(EventRecord(payload) + rest)) ==
            ReadLines(Reader([], r.events + [Trim(payload)]), Split(rest))
  {
    var t := Trim(payload);
    SplitWritten(payload, rest);
    assert '\n' !in "data: ";
    SplitOneLine("data: " + t);
    ReadDataLine(r, t);
    TrimShape(payload);
    TrimOfTrimmed(t);
    hide Split, Trim, ReadLine, EventRecord;
    var lines := ["data: " + t] + [""] + Split(rest);
    assert lines[1..] == [""] + Split(rest) && lines[1..][1..] == Split(rest);
    ReadBlankLine(Reader([t], r.events));
    assert [] + [t] == [t];
  }

  lemma {:induction false} ReadWritten(r: Reader, payloads: seq<string>, rest: string)
    requires r.current == [] && SingleLines(payloads)
    ensures ReadLines(r, Split(Written(payloads) + rest)) ==
            ReadLines(Reader([], r.events + Trimmed(payloads)), Split(rest))
    decreases |payloads|
  {
    if payloads == [] {
      assert Written(payloads) + rest == rest && r.events + Trimmed(payloads) == r.events;
    } else {
      var later := payloads[1..];
      assert Written(payloads) + rest == EventRecord(payloads[0]) + (Written(later) + rest);
      ReadRecord(r, payloads[0], Written(later) + rest);
      ReadWritten(Reader([], r.events + [Trim(payloads[0])]), later, rest);
      assert Trimmed(payloads) == [Trim(payloads[0])] + Trimmed(later);
      assert r.events + [Trim(payloads[0])] + Trimmed(later) == r.events + Trimmed(payloads);
    }
  }

  /** A data line cut within its first five bytes adds nothing. */
  lemma ReadStump(r: Reader, line: string)
    requires r.current == [] && |line| < |DATA|
    ensures ReadLine(r, line) == r
  {
    TrimReturnsShape(line);
  }

  lemma ReadBareData(r: Reader, line: string)
    requires line == DATA
    ensures ReadLine(r, line) == r.(current := r.current + [""])
  {
    BlankIffAllSpace(line);
    assert !IsSpace(line[0]);
  }

  lemma ReadCutLine(r: Reader, t: string, n: nat)
    requires r.current == [] && n <= |t| + 6
    ensures var cut := ("data: " + t)[..n];
            if n < 5 then ReadLine(r, cut) == r
            else ReadLine(r, cut) == Reader([Trim(t[..if n == 5 then 0 else n - 6])], r.events)
  {
    var cut := ("data: " + t)[..n];
    if n < 5 {
      ReadStump(r, cut);
    } else if n == 5 {
      ReadBareData(r, cut);
      assert t[..0] == "";
    } else {
      assert cut == "data: " + t[..n - 6];
      ReadDataLine(r, t[..n - 6]);
    }
  }

  lemma ReadCutText(r: Reader, line: string, n: nat) returns (m: nat)
    requires '\n' !in line && n < |line| + 2
    ensures m <= |line| && m <= n
    ensures Flush(ReadLines(r, Split((line + "\n\n")[..n]))) == Flush(ReadLine(r, line[..m]))
  {
    var cut := (line + "\n\n")[..n];
    if n == |line| + 1 {
      assert cut == line + "\n" + "";
      SplitAtBreak(line, "");
      SplitOneLine(line);
      var once := ReadLine(r, line);
      assert Split(line) + [""] == [line, ""] && [line, ""][1..] == [""] && [""][1..] == [];
      assert ReadLines(once, [""]) == ReadLine(once, "");
      ReadBlankLine(once);
      assert line[..|line|] == line;
      return |line|;
    } else {
      assert cut == line[..n];
      SplitOneLine(cut);
      return n;
    }
  }

  /** Reading a cut record: nothing, or the payload up to the cut. */
  lemma ReadCutRecord(r: Reader, t: string, n: nat)
    requires r.current == [] && '\n' !in t && n < |t| + 8
    ensures var events := Flush(ReadLines(r, Split(("data: " + t + "\n\n")[..n]))).events;
            events == r.events || exists j :: 0 <= j <= |t| && events == r.events + [Trim(t[..j])]
  {
    assert '\n' !in "data: ";
    var m := ReadCutText(r, "data: " + t, n);
    ReadCutLine(r, t, m);
  }

  /** Where a cut falls: inside the record of payload k, or after the last one. */
  lemma {:induction false} CutFalls(payloads: seq<string>, n: nat) returns (k: nat, m: nat)
    requires n <= |Written(payloads)|
    ensures k <= |payloads|
    ensures if k == |payloads| then n == |Written(payloads)|
            else m < |EventRecord(payloads[k])| &&
                 Written(payloads)[..n] == Written(payloads[..k]) + EventRecord(payloads[k])[..m]
  {
    if payloads == [] { return 0, 0; }
    var first := EventRecord(payloads[0]);
    if n < |first| {
      assert payloads[..0] == [];
      return 0, n;
    }
    k, m := CutFalls(payloads[1..], n - |first|);
    k := k + 1;
    assert payloads[..k][1..] == payloads[1..][..k - 1];
    assert Written(payloads)[..n] == first + Written(payloads[1..])[..n - |first|];
  }

  /** Some first items of the list, and perhaps the next one cut at its end and trimmed again. */
  ghost predicate FirstItems(items: seq<string>, all: seq<string>) {
    exists k :: 0 <= k <= |all| &&
      (items == all[..k]
       || (k < |all| && exists j :: 0 <= j <= |all[k]| && items == all[..k] + [Trim(all[k][..j])]))
  }

  /** What was written is read back, in order. */
  lemma RoundTrip(payloads: seq<string>)
    requires SingleLines(payloads)
    ensures Blocks(Written(payloads)) == Trimmed(payloads)
  {
    ReadWritten(START, payloads, "");
    assert Written(payloads) + "" == Written(payloads);
  }

  /** A body cut at any byte is read as the first payloads, the last of them perhaps cut. */
  lemma CutBodyReadsFirstItems(payloads: seq<string>, n: nat)
    requires SingleLines(payloads) && n <= |Written(payloads)|
    ensures FirstItems(Blocks(Written(payloads)[..n]), Trimmed(payloads))
  {
    var all := Trimmed(payloads);
    var k, m := CutFalls(payloads, n);
    if k == |payloads| {
      assert Written(payloads)[..n] == Written(payloads) && all[..k] == all;
      RoundTrip(payloads);
    } else {
      assert SingleLine(payloads[k]);
      ReadWritten(START, payloads[..k], EventRecord(payloads[k])[..m]);
      ReadCutRecord(Reader([], [] + Trimmed(payloads[..k])), all[k], m);
      assert [] + Trimmed(payloads[..k]) == all[..k];
    }
  }

  // ----- exactly the single-line payloads survive

  /** Bytes held by the reader, each line or event counted with one line break. */
  function Held(r: Reader): nat { Size(r.current) + Size(r.events) }

  lemma {:induction false} SizeOfJoin(lines: seq<string>)
    requires lines != []
    ensures Size([Join(lines, "\n")]) == Size(lines)
  {
    if |lines| > 1 {
      SizeOfJoin(lines[1..]);
    }
  }

  lemma FlushKeepsHeld(r: Reader)
    ensures Held(Flush(r)) == Held(r)
  {
    if r.current != [] {
      SizeOfJoin(r.current);
      SizeConcat(r.events, [Join(r.current, "\n")]);
    }
  }

  /** A line adds fewer bytes than it has. */
  lemma ReadLineHolds(r: Reader, line: string)
    ensures Held(ReadLine(r, line)) <= Held(r) + |line|
  {
    var l := TrimReturns(line);
    TrimReturnsShape(line);
    if Blank(l) {
      FlushKeepsHeld(r);
    } else if HasPrefix(l, DATA) {
      TrimShape(l[|DATA|..]);
      SizeConcat(r.current, [Trim(l[|DATA|..])]);
    }
  }

  lemma {:induction false} ReadLinesHold(r: Reader, lines: seq<string>)
    ensures Held(ReadLines(r, lines)) + |lines| <= Held(r) + Size(lines)
    decreases |lines|
  {
    if lines != [] {
      ReadLineHolds(r, lines[0]);
      ReadLinesHold(ReadLine(r, lines[0]), lines[1..]);
    }
  }

  /** The lines of a record's text, the first of which carries the "data: " mark. */
  lemma SplitMarked(t: string)
    ensures Split("data: " + t) == ["data: " + Split(t)[0]] + Split(t)[1..]
  {
    SplitAfter("data: ", t);
  }

  lemma {:induction false} SplitAfter(mark: string, t: string)
    requires '\n' !in mark
    ensures Split(mark + t) == [mark + Split(t)[0]] + Split(t)[1..]
  {
    if mark == "" {
      assert mark + t == t && mark + Split(t)[0] == Split(t)[0];
    } else {
      assert (mark + t)[1..] == mark[1..] + t;
      SplitAfter(mark[1..], t);
      assert [mark[0]] + (mark[1..] + Split(t)[0]) == mark + Split(t)[0];
    }
  }

  /** A record adds at most the bytes of its payload, and fewer when the payload has a line break. */
  lemma RecordHolds(r: Reader, payload: string)
    ensures var n := ReadLines(r, Split("data: " + Trim(payload)) + [""]);
            && Held(n) <= Held(r) + |Trim(payload)| + 1
            && (!SingleLine(payload) ==> Held(n) < Held(r) + |Trim(payload)| + 1)
  {
    var t := Trim(payload);
    var ls := Split(t);
    SplitMarked(t);
    SplitKeepsBytes(t);
    var first := ReadLine(r, "data: " + ls[0]);
    ReadDataLine(r, ls[0]);
    TrimShape(ls[0]);
    SizeConcat(r.current, [Trim(ls[0])]);
    ReadLinesHold(first, ls[1..]);
    ReadConcat(r, ["data: " + ls[0]] + ls[1..], [""]);
    assert (["data: " + ls[0]] + ls[1..])[1..] == ls[1..];
    FlushKeepsHeld(ReadLines(first, ls[1..]));
    assert |ls| == 1 ==> Join(ls, "\n") == ls[0];
  }

  lemma {:induction false} WrittenHolds(r: Reader, payloads: seq<string>)
    ensures var n := ReadLines(r, Split(Written(payloads)));
            && Held(n) <= Held(r) + Size(Trimmed(payloads))
            && (!SingleLines(payloads) ==> Held(n) < Held(r) + Size(Trimmed(payloads)))
    decreases |payloads|
  {
    if payloads == [] {
      FlushKeepsHeld(r);
    } else {
      var later := Written(payloads[1..]);
      var lines := Split("data: " + Trim(payloads[0])) + [""];
      SplitWritten(payloads[0], later);
      ReadConcat(r, lines, Split(later));
      RecordHolds(r, payloads[0]);
      WrittenHolds(ReadLines(r, lines), payloads[1..]);
      assert Trimmed(payloads) == [Trim(payloads[0])] + Trimmed(payloads[1..]);
      SizeConcat([Trim(payloads[0])], Trimmed(payloads[1..]));
      assert SingleLine(payloads[0]) && SingleLines(payloads[1..]) ==> SingleLines(payloads) by {
        assert payloads == [payloads[0]] + payloads[1..];
      }
    }
  }

  /** A list of payloads is read back exactly when no trimmed payload has a line break. */
  lemma ReadBackIffSingleLines(payloads: seq<string>)
    ensures Blocks(Written(payloads)) == Trimmed(payloads) <==> SingleLines(payloads)
  {
    if SingleLines(payloads) {
      RoundTrip(payloads);
    } else {
      WrittenHolds(START, payloads);
      FlushKeepsHeld(ReadLines(START, Split(Written(payloads))));
    }
  }
}
