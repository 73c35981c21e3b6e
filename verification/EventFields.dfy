/** Event stream bodies that servers write: several data lines an event, other fields, either line end. */
module EventFields {
  import opened Text
  import opened Lines
  import opened NetworkCollector
  import opened EventStream

  /** One line of an event: data, or a field or comment that the reader passes over. */
  datatype Field = Data(text: string) | Other(line: string)

  predicate Proper(f: Field) {
    match f
    case Data(text) => '\n' !in text
    case Other(line) => '\n' !in line && !Blank(line) && !HasPrefix(line, "data:")
  }

  predicate AllProper(fields: seq<Field>) { forall i :: 0 <= i < |fields| ==> Proper(fields[i]) }

  function LineOf(f: Field): string { if f.Data? then "data:" + f.text else f.line }

  /** The lines of one event, each with its line end, and the blank line after it. */
  function EventText(fields: seq<Field>, end: string): string {
    if fields == [] then end else LineOf(fields[0]) + end + EventText(fields[1..], end)
  }

  function Body(events: seq<seq<Field>>, end: string): string {
    if events == [] then "" else EventText(events[0], end) + Body(events[1..], end)
  }

  function DataOf(fields: seq<Field>): seq<string> {
    if fields == [] then []
    else (if fields[0].Data? then [Trim(fields[0].text)] else []) + DataOf(fields[1..])
  }

  /** What an event says: its data lines, a line break apart; nothing without data. */
  function Told(events: seq<seq<Field>>): seq<string> {
    if events == [] then []
    else (if DataOf(events[0]) == [] then [] else [Join(DataOf(events[0]), "\n")]) + Told(events[1..])
  }

  predicate LineEnd(end: string) { end == "\n" || end == "\r\n" }

  /** The line end before its line break. */
  function Return(end: string): string { if end == "\n" then "" else "\r" }

  lemma SplitLine(line: string, end: string, rest: string)
    requires LineEnd(end) && '\n' !in line
    ensures Split(line + end + rest) == [line + Return(end)] + Split(rest)
  {
    var l := line + Return(end);
    assert line + end + rest == l + "\n" + rest;
    SplitAtBreak(l, rest);
    SplitOneLine(l);
  }

  lemma {:induction false} ReturnsGo(line: string, end: string)
    requires LineEnd(end)
    ensures TrimReturns(line + Return(end)) == TrimReturns(line)
  {
    if end != "\n" {
      assert (line + "\r")[..|line|] == line;
    } else {
      assert line + "" == line;
    }
  }

  /** White space at the end of a line, returns included, does not change what Trim gives. */
  lemma ReturnsAreSpace(s: string)
    ensures Trim(TrimReturns(s)) == Trim(s)
  {
    TrimReturnsShape(s);
    TrimIgnoresRight(TrimReturns(s), s);
  }

  lemma ReadData(r: Reader, text: string, end: string)
    requires LineEnd(end)
    ensures ReadLine(r, "data:" + text + Return(end)) == r.(current := r.current + [Trim(text)])
  {
    var line := "data:" + text;
    ReturnsGo(line, end);
    TrimReturnsShape(line);
    TrimReturnsStops(line, 5);
    var l := TrimReturns(line);
    assert l[..5] == line[..5] == DATA;
    assert l[5..] <= text && text[|l[5..]|..] == line[|l|..];
    TrimIgnoresRight(l[5..], text);
    BlankIffAllSpace(l);
    assert l[0] == 'd' && !IsSpace(l[0]);
  }

  lemma ReadOther(r: Reader, line: string, end: string)
    requires LineEnd(end) && !Blank(line) && !HasPrefix(line, "data:")
    ensures ReadLine(r, line + Return(end)) == r
  {
    ReturnsGo(line, end);
    TrimReturnsShape(line);
    ReturnsAreSpace(line);
    var l := TrimReturns(line);
    assert 5 <= |l| ==> l[..5] == line[..5];
  }

  lemma ReadEnd(r: Reader, end: string)
    requires LineEnd(end)
    ensures ReadLine(r, Return(end)) == Flush(r)
  {
    ReturnsGo("", end);
    assert "" + Return(end) == Return(end);
  }

  lemma ReadOneMore(r: Reader, line: string, rest: seq<string>)
    ensures ReadLines(r, [line] + rest) == ReadLines(ReadLine(r, line), rest)
  {
    assert ([line] + rest)[1..] == rest;
  }

  lemma ReadField(r: Reader, f: Field, end: string)
    requires LineEnd(end) && Proper(f)
    ensures ReadLine(r, LineOf(f) + Return(end)) == r.(current := r.current + DataOf([f]))
  {
    assert [f][1..] == [] && DataOf([f]) == if f.Data? then [Trim(f.text)] else [];
    hide TrimReturns, ReadLine, Trim;
    if f.Data? { ReadData(r, f.text, end); } else { ReadOther(r, f.line, end); }
    assert r.current + [] == r.current;
  }

  lemma FirstData(fields: seq<Field>)
    requires fields != []
    ensures DataOf(fields) == DataOf([fields[0]]) + DataOf(fields[1..])
  {
    assert [fields[0]][1..] == [] && DataOf([]) == [];
  }

  lemma InOrder<T>(a: seq<T>, b: seq<T>, c: seq<T>)
    ensures a + b + c == a + (b + c)
  {
  }

  lemma {:induction false} ReadEvent(r: Reader, fields: seq<Field>, end: string, rest: string)
    requires LineEnd(end) && AllProper(fields)
    ensures ReadLines(r, Split(EventText(fields, end) + rest)) ==
            ReadLines(Flush(r.(current := r.current + DataOf(fields))), Split(rest))
    decreases |fields|
  {
    if fields == [] {
      SplitLine("", end, rest);
      assert "" + end + rest == end + rest && "" + Return(end) == Return(end);
      ReadEnd(r, end);
      assert r.current + [] == r.current;
      ReadOneMore(r, Return(end), Split(rest));
      hide Split, ReadLine, ReadLines, Flush;
    } else {
      var f, later := fields[0], EventText(fields[1..], end) + rest;
      assert Proper(f) && '\n' !in LineOf(f);
      assert AllProper(fields[1..]);
      hide Split, ReadLine, ReadLines, Flush, Proper, AllProper, DataOf, Return, LineEnd, LineOf;
      assert EventText(fields, end) + rest == LineOf(f) + end + later;
      SplitLine(LineOf(f), end, later);
      ReadOneMore(r, LineOf(f) + Return(end), Split(later));
      ReadField(r, f, end);
      ReadEvent(r.(current := r.current + DataOf([f])), fields[1..], end, rest);
      FirstData(fields);
      InOrder(r.current, DataOf([f]), DataOf(fields[1..]));
    }
  }

  lemma {:induction false} ReadBody(r: Reader, events: seq<seq<Field>>, end: string)
    requires LineEnd(end) && r.current == [] && forall i :: 0 <= i < |events| ==> AllProper(events[i])
    ensures ReadLines(r, Split(Body(events, end))) == Reader([], r.events + Told(events))
    decreases |events|
  {
    if events == [] {
      NothingToRead(r);
    } else {
      var data := DataOf(events[0]);
      var said := if data == [] then [] else [Join(data, "\n")];
      assert AllProper(events[0]);
      FlushKeeps(r, data);
      hide Split, ReadLine, ReadLines, Flush, AllProper, DataOf, LineEnd, EventText, Join;
      ReadEvent(r, events[0], end, Body(events[1..], end));
      ReadBody(Reader([], r.events + said), events[1..], end);
      InOrder(r.events, said, Told(events[1..]));
    }
  }

  lemma NothingToRead(r: Reader)
    requires r.current == []
    ensures ReadLines(r, Split("")) == r && r.events + [] == r.events
  {
    assert [""][1..] == [];
  }

  lemma FlushKeeps(r: Reader, data: seq<string>)
    requires r.current == []
    ensures Flush(r.(current := r.current + data)) ==
            Reader([], r.events + if data == [] then [] else [Join(data, "\n")])
  {
    assert r.current + data == data;
  }

  /** Any event stream of data lines, other lines and blank lines is read as what its events say. */
  lemma BlocksAreTold(events: seq<seq<Field>>, end: string)
    requires LineEnd(end) && forall i :: 0 <= i < |events| ==> AllProper(events[i])
    ensures Blocks(Body(events, end)) == Told(events)
  {
    ReadBody(START, events, end);
    assert [] + Told(events) == Told(events);
  }

  // ----- web sockets

  /** The text that the frames of a web socket are recorded as. */
  function FrameText(payloads: seq<string>): string {
    if payloads == [] then "" else FrameRecord(payloads[0]) + FrameText(payloads[1..])
  }

  /** Frames without line breaks of their own are the lines of that text. */
  lemma {:induction false} FramesAreLines(payloads: seq<string>)
    requires forall i :: 0 <= i < |payloads| ==> '\n' !in payloads[i]
    ensures Split(FrameText(payloads)) == payloads + [""]
  {
    if payloads != [] {
      var first, later := payloads[0], FrameText(payloads[1..]);
      FramesAreLines(payloads[1..]);
      assert FrameText(payloads) == first + "\n" + later;
      SplitAtBreak(first, later);
      SplitOneLine(first);
      hide Split, FrameText;
      assert [first] + (payloads[1..] + [""]) == payloads + [""];
    }
  }
}
