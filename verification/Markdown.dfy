/**
 * Markdown text turned into nodes, line by line, through four buffers. The specification first
 * classifies every line, then takes maximal runs of lines of one kind, then renders each run.
 */
module Markdown {
  import opened Text
  import opened Lines
  import opened Decimal
  import opened Dom

  datatype Kind = Paragraph | List | Table | Code

  /** What a line contributes: nothing, a heading, or one line of a block. */
  datatype Token = Break | Heading(level: int, text: string) | Line(kind: Kind, text: string)

  datatype Mode = Body | Front | Fenced

  // ----- line classifiers

  function TrimBlanksRight(s: string): string {
    if s != "" && (s[|s| - 1] == ' ' || s[|s| - 1] == '\t') then TrimBlanksRight(s[..|s| - 1]) else s
  }

  function Hashes(line: string): (n: nat)
    ensures n <= |line|
    ensures n < |line| ==> line[n] != '#'
  {
    if line == "" || line[0] != '#' then 0 else 1 + Hashes(line[1..])
  }

  /** The level of a heading line, 0 for any other line. */
  function HeadingOf(line: string): int {
    var n := Hashes(line);
    if n == 0 || n > 6 || n >= |line| || line[n] != ' ' then 0 else n
  }

  function HeadingText(line: string): string
    requires HeadingOf(line) > 0
  {
    Trim(line[Hashes(line) + 1..])
  }

  predicate IsTableLine(line: string) { CountChar(line, '|') >= 2 }

  predicate IsBullet(line: string) {
    HasPrefix(line, "- ") || HasPrefix(line, "* ") || HasPrefix(line, "+ ")
  }

  predicate IsListLine(line: string) {
    IsBullet(line) ||
    (|line| >= 4 && var dot := Index(line, ". "); 0 < dot <= 3 && AllDigits(line[..dot]))
  }

  function ListItem(line: string): string {
    var l := Trim(line);
    if IsBullet(l) then Trim(l[2..])
    else if Index(l, ". ") > 0 then Trim(l[Index(l, ". ") + 2..])
    else l
  }

  predicate IsFence(line: string) { HasPrefix(line, "```") || HasPrefix(line, "~~~") }

  /** The token of a line outside front matter and fences. */
  function BodyToken(trimmed: string): Token {
    if trimmed == "" then Break
    else if HeadingOf(trimmed) > 0 then Heading(HeadingOf(trimmed), HeadingText(trimmed))
    else if IsTableLine(trimmed) then Line(Table, trimmed)
    else if IsListLine(trimmed) then Line(List, ListItem(trimmed))
    else Line(Paragraph, trimmed)
  }

  /** The token of the next line and the mode it leaves; `first` marks the first line of the text. */
  function Classify(mode: Mode, first: bool, raw: string): (Mode, Token) {
    var line := TrimBlanksRight(raw);
    var trimmed := Trim(line);
    if first && trimmed == "---" then (Front, Break)
    else if mode == Front then (if trimmed == "---" then Body else Front, Break)
    else if IsFence(trimmed) then (if mode == Fenced then Body else Fenced, Break)
    else if mode == Fenced then (Fenced, Line(Code, line))
    else (Body, BodyToken(trimmed))
  }

  function Scan(lines: seq<string>): (Mode, seq<Token>) {
    if lines == [] then (Body, [])
    else
      var n := |lines| - 1;
      var (mode, tokens) := Scan(lines[..n]);
      var (next, token) := Classify(mode, n == 0, lines[n]);
      (next, tokens + [token])
  }

  // ----- runs

  datatype Run = Title(level: int, text: string) | Block(kind: Kind, lines: seq<string>)

  /** The runs of a token list: a heading alone, or neighbouring lines of one kind. */
  function Runs(tokens: seq<Token>): (runs: seq<Run>)
    ensures tokens != [] && tokens[|tokens| - 1].Line? ==>
              runs != [] && runs[|runs| - 1].Block? && runs[|runs| - 1].kind == tokens[|tokens| - 1].kind
  {
    if tokens == [] then []
    else
      var n := |tokens| - 1;
      var runs := Runs(tokens[..n]);
      match tokens[n]
      case Break => runs
      case Heading(level, text) => runs + [Title(level, text)]
      case Line(kind, text) =>
        if n > 0 && tokens[n - 1].Line? && tokens[n - 1].kind == kind then
          runs[..|runs| - 1] + [Block(kind, runs[|runs| - 1].lines + [text])]
        else runs + [Block(kind, [text])]
  }

  // ----- rendering

  /** The nodes so far and how many there are of each tag. */
  datatype Output = Output(nodes: seq<Node>, counts: map<string, nat>)

  function AppendNode(out: Output, tag: string, kind: string, text: string, level: int): Output {
    if Trim(text) == "" then out
    else
      var n := CountOf(out.counts, tag) + 1;
      var node := Node("/markdown/" + Numbered(tag, n), tag, kind, Trim(text), 1, level);
      Output(out.nodes + [node], out.counts[tag := n])
  }

  function Tag(kind: Kind): string {
    match kind
    case Paragraph => "p"
    case List => "li"
    case Table => "table"
    case Code => "pre"
  }

  function KindName(kind: Kind): string {
    match kind
    case Paragraph => "paragraph"
    case List => "list_item"
    case Table => "table_cell"
    case Code => "code"
  }

  function BlockText(kind: Kind, lines: seq<string>): string {
    match kind
    case Paragraph => NormalizeWhitespace(Join(lines, " "))
    case List => NormalizeWhitespace(Join(lines, "\n"))
    case Table => Trim(Join(lines, "\n"))
    case Code => Trim(Join(lines, "\n"))
  }

  /** Writes a buffer out, if it holds anything. */
  function Flush(out: Output, kind: Kind, lines: seq<string>): Output {
    if lines == [] then out else AppendNode(out, Tag(kind), KindName(kind), BlockText(kind, lines), 0)
  }

  function AppendRun(out: Output, run: Run): Output {
    match run
    case Title(level, text) => AppendNode(out, "h" + Print(if level < 0 then 0 else level), "heading", text, level)
    case Block(kind, lines) => Flush(out, kind, lines)
  }

  function Render(runs: seq<Run>): Output {
    if runs == [] then Output([], map[]) else AppendRun(Render(runs[..|runs| - 1]), runs[|runs| - 1])
  }

  /** The first heading of level 1 names the page. */
  function TitleOf(tokens: seq<Token>): string {
    if tokens == [] then ""
    else
      var title, t := TitleOf(tokens[..|tokens| - 1]), tokens[|tokens| - 1];
      if title == "" && t.Heading? && t.level == 1 then t.text else title
  }

  function NormalizeBreaks(s: string): string
    decreases |s|
  {
    if s == "" then ""
    else if |s| > 1 && s[0] == '\r' && s[1] == '\n' then "\n" + NormalizeBreaks(s[2..])
    else [s[0]] + NormalizeBreaks(s[1..])
  }

  function Tokens(text: string): seq<Token> { Scan(Split(NormalizeBreaks(text))).1 }

  // ----- the buffers

  datatype Buffers = Buffers(paragraph: seq<string>, list: seq<string>, table: seq<string>, fence: seq<string>)

  const EMPTY := Buffers([], [], [], [])

  /** The buffers while a run of one kind is open. */
  function Holding(kind: Kind, lines: seq<string>): Buffers {
    match kind
    case Paragraph => EMPTY.(paragraph := lines)
    case List => EMPTY.(list := lines)
    case Table => EMPTY.(table := lines)
    case Code => EMPTY.(fence := lines)
  }

  predicate RunIsOpen(tokens: seq<Token>) { tokens != [] && tokens[|tokens| - 1].Line? }

  /** The buffers hold the last run while it may still grow; everything before it is rendered. */
  ghost predicate Buffered(tokens: seq<Token>, out: Output, b: Buffers) {
    var runs := Runs(tokens);
    if RunIsOpen(tokens) then
      var run := runs[|runs| - 1];
      out == Render(runs[..|runs| - 1]) && run.lines != [] && b == Holding(run.kind, run.lines)
    else out == Render(runs) && b == EMPTY
  }

  /** Writing out every buffer renders every run, since at most one buffer holds anything. */
  lemma FlushRenders(tokens: seq<Token>, out: Output, b: Buffers)
    requires Buffered(tokens, out, b)
    ensures Flush(Flush(Flush(Flush(out, Code, b.fence), Paragraph, b.paragraph), List, b.list), Table, b.table) ==
            Render(Runs(tokens))
  {
    hide AppendNode;
    if RunIsOpen(tokens) {
      var runs := Runs(tokens);
      assert Render(runs) == AppendRun(Render(runs[..|runs| - 1]), runs[|runs| - 1]);
    }
  }

  lemma RunsAfter(tokens: seq<Token>, t: Token)
    ensures (tokens + [t])[..|tokens|] == tokens
    ensures t.Break? ==> Runs(tokens + [t]) == Runs(tokens)
    ensures t.Heading? ==> Runs(tokens + [t]) == Runs(tokens) + [Title(t.level, t.text)]
  {
    assert (tokens + [t])[..|tokens|] == tokens;
  }

  /** A line joins the open run of its kind, or opens a new run. */
  lemma LineAfter(tokens: seq<Token>, kind: Kind, text: string)
    ensures var runs := Runs(tokens);
            Runs(tokens + [Line(kind, text)]) ==
              if RunIsOpen(tokens) && tokens[|tokens| - 1].kind == kind
              then runs[..|runs| - 1] + [Block(kind, runs[|runs| - 1].lines + [text])]
              else runs + [Block(kind, [text])]
  {
    assert (tokens + [Line(kind, text)])[..|tokens|] == tokens;
  }

  lemma BufferLine(tokens: seq<Token>, out: Output, b: Buffers, kind: Kind, text: string, lines: seq<string>)
    requires Buffered(tokens, out, b)
    requires b == Holding(kind, lines)
    ensures Buffered(tokens + [Line(kind, text)], out, Holding(kind, lines + [text]))
  {
    hide AppendRun, Render;
    LineAfter(tokens, kind, text);
    var runs := Runs(tokens);
    var more := Runs(tokens + [Line(kind, text)]);
    if RunIsOpen(tokens) {
      assert more[..|more| - 1] == runs[..|runs| - 1];
    } else {
      assert more[..|more| - 1] == runs;
    }
  }

  function Held(b: Buffers, kind: Kind): seq<string> {
    match kind
    case Paragraph => b.paragraph
    case List => b.list
    case Table => b.table
    case Code => b.fence
  }

  /** What a line of one kind writes out before it joins its buffer. */
  function CloseOthers(out: Output, b: Buffers, kind: Kind): Output {
    match kind
    case Paragraph => Flush(Flush(out, List, b.list), Table, b.table)
    case List => Flush(Flush(out, Paragraph, b.paragraph), Table, b.table)
    case Table => Flush(Flush(out, Paragraph, b.paragraph), List, b.list)
    case Code => out
  }

  function CloseBlocks(out: Output, b: Buffers): Output {
    Flush(Flush(Flush(out, Paragraph, b.paragraph), List, b.list), Table, b.table)
  }

  /** The buffers that may hold lines in a mode. */
  predicate Fits(b: Buffers, mode: Mode) {
    match mode
    case Front => b == EMPTY
    case Fenced => b == EMPTY.(fence := b.fence)
    case Body => b.fence == []
  }

  lemma BufferedShape(tokens: seq<Token>, out: Output, b: Buffers)
    requires Buffered(tokens, out, b)
    ensures if RunIsOpen(tokens) then
              var kind := tokens[|tokens| - 1].kind;
              Held(b, kind) != [] && b == Holding(kind, Held(b, kind))
            else b == EMPTY
    ensures b == EMPTY ==> out == Render(Runs(tokens))
  {
  }

  lemma CloseOthersRenders(tokens: seq<Token>, out: Output, b: Buffers, mode: Mode, kind: Kind)
    requires Buffered(tokens, out, b) && Fits(b, mode) && mode != Front && (mode == Fenced <==> kind == Code)
    ensures b == Holding(kind, Held(b, kind)) ==> CloseOthers(out, b, kind) == out
    ensures b != Holding(kind, Held(b, kind)) ==> CloseOthers(out, b, kind) == Render(Runs(tokens))
    ensures b != Holding(kind, Held(b, kind)) ==>
              Held(b, kind) == [] && tokens[|tokens| - 1].Line? && tokens[|tokens| - 1].kind != kind
  {
    FlushRenders(tokens, out, b);
    BufferedShape(tokens, out, b);
    hide AppendNode, Render, Runs, Buffered;
  }

  /** A line of another kind than the last opens a run. */
  lemma OpenRun(tokens: seq<Token>, kind: Kind, text: string)
    requires RunIsOpen(tokens) ==> tokens[|tokens| - 1].kind != kind
    ensures Buffered(tokens + [Line(kind, text)], Render(Runs(tokens)), Holding(kind, [text]))
  {
    LineAfter(tokens, kind, text);
    hide Render, Runs;
    var runs := Runs(tokens);
    assert (runs + [Block(kind, [text])])[..|runs|] == runs;
  }

  lemma LineStep(tokens: seq<Token>, out: Output, b: Buffers, mode: Mode, kind: Kind, text: string)
    requires Buffered(tokens, out, b) && Fits(b, mode) && mode != Front && (mode == Fenced <==> kind == Code)
    ensures Buffered(tokens + [Line(kind, text)], CloseOthers(out, b, kind), Holding(kind, Held(b, kind) + [text]))
  {
    CloseOthersRenders(tokens, out, b, mode, kind);
    hide CloseOthers, Render, Runs, Buffered, Fits, Held, Holding;
    if b == Holding(kind, Held(b, kind)) {
      BufferLine(tokens, out, b, kind, text, Held(b, kind));
    } else {
      OpenRun(tokens, kind, text);
      assert Held(b, kind) + [text] == [text];
    }
  }

  lemma CloseStep(tokens: seq<Token>, out: Output, b: Buffers, mode: Mode)
    requires Buffered(tokens, out, b) && Fits(b, mode)
    ensures Buffered(tokens + [Break], if mode == Body then CloseBlocks(out, b) else Flush(out, Code, b.fence), EMPTY)
  {
    hide AppendNode;
    FlushRenders(tokens, out, b);
    RunsAfter(tokens, Break);
  }

  lemma HeadingStep(tokens: seq<Token>, out: Output, b: Buffers, level: nat, text: string)
    requires Buffered(tokens, out, b) && Fits(b, Body)
    ensures Buffered(tokens + [Heading(level, text)],
                     AppendNode(CloseBlocks(out, b), "h" + Print(level), "heading", text, level), EMPTY)
  {
    hide AppendNode;
    FlushRenders(tokens, out, b);
    RunsAfter(tokens, Heading(level, text));
    var runs := Runs(tokens);
    assert (runs + [Title(level, text)])[..|runs|] == runs;
  }

  lemma ScanStep(lines: seq<string>, i: nat, mode: Mode, tokens: seq<Token>)
    requires i < |lines| && Scan(lines[..i]) == (mode, tokens)
    ensures Scan(lines[..i + 1]).0 == Classify(mode, i == 0, lines[i]).0
    ensures Scan(lines[..i + 1]).1 == tokens + [Classify(mode, i == 0, lines[i]).1]
  {
    hide Classify;
    assert lines[..i + 1][..i] == lines[..i];
  }

  function NextTitle(title: string, t: Token): string {
    if title == "" && t.Heading? && t.level == 1 then t.text else title
  }

  /** A line outside front matter and fences. */
  method BodyLine(trimmed: string, out: Output, b: Buffers, title: string, ghost tokens: seq<Token>)
    returns (nextOut: Output, next: Buffers, nextTitle: string)
    requires Buffered(tokens, out, b) && Fits(b, Body)
    ensures Buffered(tokens + [BodyToken(trimmed)], nextOut, next) && Fits(next, Body)
    ensures nextTitle == NextTitle(title, BodyToken(trimmed))
  {
    hide AppendNode, HeadingOf, HeadingText, ListItem, IsTableLine, IsListLine, Render, Runs, Buffered, Flush;
    nextOut, next, nextTitle := out, b, title;
    if trimmed == "" {
      CloseStep(tokens, out, b, Body);
      nextOut := CloseBlocks(out, b);
      next := EMPTY;
      return;
    }
    var level := HeadingOf(trimmed);
    if level > 0 {
      var heading := HeadingText(trimmed);
      HeadingStep(tokens, out, b, level, heading);
      nextOut := CloseBlocks(out, b);
      next := EMPTY;
      if title == "" && level == 1 { nextTitle := heading; }
      nextOut := AppendNode(nextOut, "h" + Print(level), "heading", heading, level);
      return;
    }
    if IsTableLine(trimmed) {
      LineStep(tokens, out, b, Body, Table, trimmed);
      nextOut := Flush(nextOut, Paragraph, b.paragraph);
      nextOut := Flush(nextOut, List, b.list);
      next := Buffers([], [], b.table + [trimmed], []);
      return;
    }
    if IsListLine(trimmed) {
      LineStep(tokens, out, b, Body, List, ListItem(trimmed));
      nextOut := Flush(nextOut, Paragraph, b.paragraph);
      nextOut := Flush(nextOut, Table, b.table);
      next := Buffers([], b.list + [ListItem(trimmed)], [], []);
      return;
    }
    LineStep(tokens, out, b, Body, Paragraph, trimmed);
    nextOut := Flush(nextOut, List, b.list);
    nextOut := Flush(nextOut, Table, b.table);
    next := Buffers(b.paragraph + [trimmed], [], [], []);
  }

  lemma TitleMore(tokens: seq<Token>, t: Token)
    ensures TitleOf(tokens + [t]) == NextTitle(TitleOf(tokens), t)
  {
    assert (tokens + [t])[..|tokens|] == tokens;
  }

  function ModeOf(frontmatter: bool, inFence: bool): Mode {
    if inFence then Fenced else if frontmatter then Front else Body
  }

  /** The variables of the loop over lines. */
  datatype State = State(out: Output, buffers: Buffers, title: string, frontmatter: bool, inFence: bool)

  ghost predicate Tracks(s: State, tokens: seq<Token>) {
    && !(s.inFence && s.frontmatter)
    && Buffered(tokens, s.out, s.buffers) && Fits(s.buffers, ModeOf(s.frontmatter, s.inFence))
    && s.title == TitleOf(tokens)
  }

  method NextLine(first: bool, raw: string, s: State, ghost tokens: seq<Token>) returns (n: State)
    requires Tracks(s, tokens)
    requires first ==> ModeOf(s.frontmatter, s.inFence) == Body && s.buffers == EMPTY
    ensures var (next, t) := Classify(ModeOf(s.frontmatter, s.inFence), first, raw);
            Tracks(n, tokens + [t]) && ModeOf(n.frontmatter, n.inFence) == next
  {
    hide TrimBlanksRight, Trim, IsFence, Render, Runs, Buffered, BodyToken, TitleOf, Flush;
    ghost var mode := ModeOf(s.frontmatter, s.inFence);
    var line := TrimBlanksRight(raw);
    var trimmed := Trim(line);
    TitleMore(tokens, Classify(mode, first, raw).1);
    if first && trimmed == "---" {
      CloseStep(tokens, s.out, s.buffers, mode);
      FlushNothing(s.out);
      return s.(frontmatter := true);
    }
    if s.frontmatter {
      CloseStep(tokens, s.out, s.buffers, mode);
      FlushNothing(s.out);
      return s.(frontmatter := trimmed != "---");
    }
    if IsFence(trimmed) {
      CloseStep(tokens, s.out, s.buffers, mode);
      if s.inFence {
        return s.(out := Flush(s.out, Code, s.buffers.fence), buffers := EMPTY, inFence := false);
      }
      return s.(out := CloseBlocks(s.out, s.buffers), buffers := EMPTY, inFence := true);
    }
    if s.inFence {
      LineStep(tokens, s.out, s.buffers, mode, Code, line);
      return s.(buffers := s.buffers.(fence := s.buffers.fence + [line]));
    }
    var out, b, title := BodyLine(trimmed, s.out, s.buffers, s.title, tokens);
    return s.(out := out, buffers := b, title := title);
  }

  lemma FlushNothing(out: Output)
    ensures Flush(out, Code, EMPTY.fence) == out && CloseBlocks(out, EMPTY) == out
  {
  }

  method MarkdownNodes(text: string) returns (nodes: seq<Node>, title: string)
    ensures nodes == Render(Runs(Tokens(text))).nodes
    ensures title == TitleOf(Tokens(text))
  {
    var lines := Split(NormalizeBreaks(text));
    var s := State(Output([], map[]), EMPTY, "", false, false);
    ghost var tokens: seq<Token> := [];
    for i := 0 to |lines|
      invariant Scan(lines[..i]) == (ModeOf(s.frontmatter, s.inFence), tokens)
      invariant Tracks(s, tokens) && (i == 0 ==> s.buffers == EMPTY)
    {
      hide Tracks, Classify, Scan;
      ghost var mode, was := ModeOf(s.frontmatter, s.inFence), tokens;
      assert lines[..0] == [];
      ScanStep(lines, i, mode, was);
      ScanStart(lines);
      tokens := Scan(lines[..i + 1]).1;
      s := NextLine(i == 0, lines[i], s, was);
    }
    assert lines[..|lines|] == lines;
    FlushRenders(tokens, s.out, s.buffers);
    var out := Flush(s.out, Code, s.buffers.fence);
    out := CloseBlocks(out, s.buffers);
    nodes, title := out.nodes, s.title;
  }

  lemma ScanStart(lines: seq<string>)
    ensures Scan(lines[..0]) == (Body, [])
  {
  }
}
