/** What the nodes of a Markdown text keep of its lines. */
module MarkdownContent {
  import opened Text
  import opened Lines
  import opened Decimal
  import opened Dom
  import opened Markdown

  // ----- runs keep the content

  /** The tokens that carry text, in order. */
  function Content(tokens: seq<Token>): seq<Token> {
    if tokens == [] then []
    else
      var t := tokens[|tokens| - 1];
      Content(tokens[..|tokens| - 1]) + if t.Break? then [] else [t]
  }

  function RunContent(run: Run): seq<Token> {
    match run
    case Title(level, text) => [Heading(level, text)]
    case Block(kind, lines) => seq(|lines|, i requires 0 <= i < |lines| => Line(kind, lines[i]))
  }

  function AllRunContent(runs: seq<Run>): seq<Token> {
    if runs == [] then [] else AllRunContent(runs[..|runs| - 1]) + RunContent(runs[|runs| - 1])
  }

  lemma AllRunContentMore(runs: seq<Run>, run: Run)
    ensures AllRunContent(runs + [run]) == AllRunContent(runs) + RunContent(run)
  {
    assert (runs + [run])[..|runs|] == runs;
  }

  lemma RunContentMore(kind: Kind, lines: seq<string>, text: string)
    ensures RunContent(Block(kind, lines + [text])) == RunContent(Block(kind, lines)) + [Line(kind, text)]
  {
  }

  lemma LastRunGrows(runs: seq<Run>, init: seq<Run>, last: Run, text: string)
    requires runs == init + [last] && last.Block?
    ensures AllRunContent(init + [Block(last.kind, last.lines + [text])]) ==
            AllRunContent(runs) + [Line(last.kind, text)]
  {
    hide AllRunContent, RunContent;
    AllRunContentMore(init, last);
    AllRunContentMore(init, Block(last.kind, last.lines + [text]));
    RunContentMore(last.kind, last.lines, text);
    assert AllRunContent(init) + (RunContent(last) + [Line(last.kind, text)]) ==
           AllRunContent(runs) + [Line(last.kind, text)];
  }

  /** Adding a line to the last run, as Runs does. */
  lemma GrownRun(runs: seq<Run>, kind: Kind, text: string, grown: seq<Run>)
    requires runs != [] && runs[|runs| - 1].Block? && runs[|runs| - 1].kind == kind
    requires grown == runs[..|runs| - 1] + [Block(kind, runs[|runs| - 1].lines + [text])]
    ensures AllRunContent(grown) == AllRunContent(runs) + [Line(kind, text)]
  {
    hide AllRunContent;
    LastRunGrows(runs, runs[..|runs| - 1], runs[|runs| - 1], text);
  }

  lemma LineJoins(tokens: seq<Token>, kind: Kind, text: string)
    requires RunIsOpen(tokens) && tokens[|tokens| - 1].kind == kind
    ensures AllRunContent(Runs(tokens + [Line(kind, text)])) == AllRunContent(Runs(tokens)) + [Line(kind, text)]
  {
    hide Runs, AllRunContent;
    LineAfter(tokens, kind, text);
    GrownRun(Runs(tokens), kind, text, Runs(tokens + [Line(kind, text)]));
  }

  lemma LineStarts(tokens: seq<Token>, kind: Kind, text: string)
    requires RunIsOpen(tokens) ==> tokens[|tokens| - 1].kind != kind
    ensures AllRunContent(Runs(tokens + [Line(kind, text)])) == AllRunContent(Runs(tokens)) + [Line(kind, text)]
  {
    hide Runs, AllRunContent;
    LineAfter(tokens, kind, text);
    AllRunContentMore(Runs(tokens), Block(kind, [text]));
  }

  lemma TokenAdds(tokens: seq<Token>, t: Token)
    ensures AllRunContent(Runs(tokens + [t])) == AllRunContent(Runs(tokens)) + if t.Break? then [] else [t]
  {
    hide Runs, AllRunContent;
    RunsAfter(tokens, t);
    if t.Line? {
      if RunIsOpen(tokens) && tokens[|tokens| - 1].kind == t.kind {
        LineJoins(tokens, t.kind, t.text);
      } else {
        LineStarts(tokens, t.kind, t.text);
      }
    } else if t.Heading? {
      AllRunContentMore(Runs(tokens), Title(t.level, t.text));
    }
  }

  /** The runs hold every line and heading once, in order. */
  lemma {:induction false} RunsKeepContent(tokens: seq<Token>)
    ensures AllRunContent(Runs(tokens)) == Content(tokens)
  {
    hide Runs, AllRunContent;
    if tokens != [] {
      var init, t := tokens[..|tokens| - 1], tokens[|tokens| - 1];
      RunsKeepContent(init);
      TokenAdds(init, t);
      assert tokens == init + [t];
    } else {
      NoRuns();
    }
  }

  lemma NoRuns()
    ensures AllRunContent(Runs([])) == []
  {
  }

  /** No block is empty. */
  lemma {:induction false} BlocksHaveLines(tokens: seq<Token>)
    ensures forall r :: r in Runs(tokens) && r.Block? ==> r.lines != []
  {
    if tokens != [] {
      var init, t := tokens[..|tokens| - 1], tokens[|tokens| - 1];
      BlocksHaveLines(init);
      assert tokens == init + [t];
      RunsAfter(init, t);
      if t.Line? { LineAfter(init, t.kind, t.text); }
    }
  }

  // ----- nodes keep the words of the runs

  function TokenWords(t: Token): seq<string> { if t.Break? then [] else Fields(t.text) }

  function AllTokenWords(tokens: seq<Token>): seq<string> {
    if tokens == [] then [] else AllTokenWords(tokens[..|tokens| - 1]) + TokenWords(tokens[|tokens| - 1])
  }

  function RunWords(run: Run): seq<string> {
    match run
    case Title(_, text) => Fields(text)
    case Block(_, lines) => AllFields(lines)
  }

  function RunKind(run: Run): string {
    match run
    case Title(_, _) => "heading"
    case Block(kind, _) => KindName(kind)
  }

  /** The runs that have words; only fenced code can be without any. */
  function Visible(runs: seq<Run>): seq<Run> {
    if runs == [] then []
    else Visible(runs[..|runs| - 1]) + if RunWords(runs[|runs| - 1]) == [] then [] else [runs[|runs| - 1]]
  }

  lemma BlockTextWords(kind: Kind, lines: seq<string>)
    ensures Fields(BlockText(kind, lines)) == AllFields(lines)
    ensures Trim(BlockText(kind, lines)) == "" <==> AllFields(lines) == []
  {
    FieldsJoin(lines, " ");
    FieldsJoin(lines, "\n");
    FieldsNormalize(Join(lines, " "));
    FieldsNormalize(Join(lines, "\n"));
    FieldsTrim(Join(lines, "\n"));
    BlankIffNoFields(BlockText(kind, lines));
  }

  ghost predicate Shows(n: Node, run: Run) { n.kind == RunKind(run) && Fields(n.text) == RunWords(run) }

  lemma AppendShows(out: Output, run: Run)
    ensures var nodes := AppendRun(out, run).nodes;
            if RunWords(run) == [] then nodes == out.nodes
            else |nodes| == |out.nodes| + 1 && nodes[..|out.nodes|] == out.nodes && Shows(nodes[|out.nodes|], run)
  {
    match run
    case Title(level, text) =>
      FieldsTrim(text);
      BlankIffNoFields(text);
    case Block(kind, lines) =>
      BlockTextWords(kind, lines);
      FieldsTrim(BlockText(kind, lines));
  }

  /** Every run with words becomes one node, in order, with its kind and exactly its words. */
  lemma {:induction false} OneNodePerRun(runs: seq<Run>)
    ensures |Render(runs).nodes| == |Visible(runs)|
    ensures forall k :: 0 <= k < |Visible(runs)| ==> Shows(Render(runs).nodes[k], Visible(runs)[k])
  {
    if runs != [] {
      hide AppendRun, RunWords;
      OneNodePerRun(runs[..|runs| - 1]);
      var out := Render(runs[..|runs| - 1]);
      AppendShows(out, runs[|runs| - 1]);
      var nodes := Render(runs).nodes;
      assert forall k :: 0 <= k < |out.nodes| ==> nodes[k] == nodes[..|out.nodes|][k];
    }
  }

  function Texts(nodes: seq<Node>): seq<string> { seq(|nodes|, i requires 0 <= i < |nodes| => nodes[i].text) }

  function AllRunWords(runs: seq<Run>): seq<string> {
    if runs == [] then [] else AllRunWords(runs[..|runs| - 1]) + RunWords(runs[|runs| - 1])
  }

  lemma {:induction false} AllTokenWordsConcat(a: seq<Token>, b: seq<Token>)
    ensures AllTokenWords(a + b) == AllTokenWords(a) + AllTokenWords(b)
  {
    hide TokenWords;
    if b == [] {
      assert a + b == a;
    } else {
      var n := |b| - 1;
      assert (a + b)[..|a| + n] == a + b[..n];
      AllTokenWordsConcat(a, b[..n]);
    }
  }

  lemma {:induction false} BlockWords(kind: Kind, lines: seq<string>)
    ensures AllTokenWords(RunContent(Block(kind, lines))) == AllFields(lines)
  {
    if lines == [] {
    } else {
      var init, last := lines[..|lines| - 1], lines[|lines| - 1];
      BlockWords(kind, init);
      assert lines == init + [last];
      AllFieldsConcat(init, [last]);
      assert [last][1..] == [] && AllFields([]) == [];
      assert RunContent(Block(kind, lines))[..|lines| - 1] == RunContent(Block(kind, init));
    }
  }

  lemma RunWordsOfContent(run: Run)
    ensures AllTokenWords(RunContent(run)) == RunWords(run)
  {
    match run
    case Title(level, text) => assert [Heading(level, text)][..0] == [];
    case Block(kind, lines) => BlockWords(kind, lines);
  }

  lemma {:induction false} AllRunWordsOfContent(runs: seq<Run>)
    ensures AllRunWords(runs) == AllTokenWords(AllRunContent(runs))
  {
    if runs != [] {
      hide RunWords, RunContent;
      var init, last := runs[..|runs| - 1], runs[|runs| - 1];
      AllRunWordsOfContent(init);
      RunWordsOfContent(last);
      AllTokenWordsConcat(AllRunContent(init), RunContent(last));
    }
  }

  lemma {:induction false} ContentKeepsWords(tokens: seq<Token>)
    ensures AllTokenWords(Content(tokens)) == AllTokenWords(tokens)
  {
    if tokens != [] {
      var init, t := tokens[..|tokens| - 1], tokens[|tokens| - 1];
      ContentKeepsWords(init);
      AllTokenWordsConcat(Content(init), [t]);
      assert [t][..0] == [];
      assert AllTokenWords([t]) == TokenWords(t);
      assert Content(init) + [] == Content(init);
    }
  }

  lemma TextsMore(nodes: seq<Node>, more: seq<Node>, words: seq<string>)
    requires |more| == |nodes| + 1 && more[..|nodes|] == nodes && Fields(more[|nodes|].text) == words
    ensures AllFields(Texts(more)) == AllFields(Texts(nodes)) + words
  {
    var text := more[|nodes|].text;
    assert Texts(more) == Texts(nodes) + [text] by {
      forall i | 0 <= i < |nodes| ensures more[i] == nodes[i] { assert more[i] == more[..|nodes|][i]; }
    }
    AllFieldsConcat(Texts(nodes), [text]);
    assert [text][1..] == [] && AllFields([]) == [];
  }

  lemma {:induction false} RenderKeepsWords(runs: seq<Run>)
    ensures AllFields(Texts(Render(runs).nodes)) == AllRunWords(runs)
  {
    if runs != [] {
      hide AppendRun, RunWords, AllFields, Fields;
      var out, last := Render(runs[..|runs| - 1]), runs[|runs| - 1];
      RenderKeepsWords(runs[..|runs| - 1]);
      AppendShows(out, last);
      if RunWords(last) != [] { TextsMore(out.nodes, Render(runs).nodes, RunWords(last)); }
    } else {
      assert Texts([]) == [];
    }
  }

  /** The words of all nodes, read in order, are the words of all lines outside front matter and marks. */
  lemma WordsAreKept(text: string)
    ensures AllFields(Texts(Render(Runs(Tokens(text))).nodes)) == AllTokenWords(Tokens(text))
  {
    var tokens := Tokens(text);
    RenderKeepsWords(Runs(tokens));
    AllRunWordsOfContent(Runs(tokens));
    RunsKeepContent(tokens);
    ContentKeepsWords(tokens);
  }

  // ----- lines keep their words

  lemma {:induction false} TrimBlanksRightWords(s: string)
    ensures Fields(TrimBlanksRight(s)) == Fields(s)
  {
    if s != "" && (s[|s| - 1] == ' ' || s[|s| - 1] == '\t') {
      var n := |s| - 1;
      TrimBlanksRightWords(s[..n]);
      assert s == s[..n] + [s[n]] + "";
      FieldsSplit(s[..n], s[n], "");
    }
  }

  /** A trimmed line whose first word ends at n has more words after it. */
  lemma WordsAfter(s: string, n: nat)
    requires 0 < n < |s| && IsSpace(s[n]) && IsWord(s[..n]) && !IsSpace(s[|s| - 1])
    ensures Fields(s) == [s[..n]] + Fields(s[n + 1..]) && Fields(s[n + 1..]) != []
  {
    assert s == s[..n] + [s[n]] + s[n + 1..];
    FieldsSplit(s[..n], s[n], s[n + 1..]);
    AllFieldsOfWords([s[..n]]);
    assert AllFields([s[..n]]) == Fields(s[..n]) + AllFields([s[..n]][1..]) && [s[..n]][1..] == [];
    BlankIffNoFields(s[n + 1..]);
    BlankIffAllSpace(s[n + 1..]);
    assert s[n + 1..][|s| - n - 2] == s[|s| - 1];
  }

  lemma {:induction false} HashesAreHashes(line: string)
    ensures forall i :: 0 <= i < Hashes(line) ==> line[i] == '#'
  {
    if line != "" && line[0] == '#' { HashesAreHashes(line[1..]); }
  }

  predicate Trimmed(s: string) { s != "" && !IsSpace(s[0]) && !IsSpace(s[|s| - 1]) }

  lemma HeadingWords(line: string)
    requires Trimmed(line) && HeadingOf(line) > 0
    ensures Fields(line) == [line[..HeadingOf(line)]] + Fields(HeadingText(line)) && Fields(HeadingText(line)) != []
  {
    HashesAreHashes(line);
    WordsAfter(line, Hashes(line));
    FieldsTrim(line[Hashes(line) + 1..]);
  }

  lemma ListItemWords(line: string)
    requires Trimmed(line) && IsListLine(line)
    ensures Fields(line) != [] && Fields(line)[1..] == Fields(ListItem(line)) && Fields(ListItem(line)) != []
  {
    TrimOfTrimmed(line);
    if IsBullet(line) {
      WordsAfter(line, 1);
      FieldsTrim(line[2..]);
    } else {
      var dot := Index(line, ". ");
      assert line[dot..dot + 2] == ". ";
      assert line[dot] == line[dot..dot + 2][0] && line[dot + 1] == line[dot..dot + 2][1];
      forall i | 0 <= i < dot ensures !IsSpace(line[i]) { assert IsDigit(line[..dot][i]); }
      WordsAfter(line, dot + 1);
      FieldsTrim(line[dot + 2..]);
    }
  }

  /** Headings and list items drop their mark, which is the first word of the line. */
  predicate DropsMark(t: Token) { t.Heading? || (t.Line? && t.kind == List) }

  lemma BodyTokenWords(trimmed: string)
    requires Trimmed(trimmed)
    ensures var t := BodyToken(trimmed);
            && !t.Break? && TokenWords(t) != [] && Fields(trimmed) != []
            && TokenWords(t) == if DropsMark(t) then Fields(trimmed)[1..] else Fields(trimmed)
  {
    BlankIffNoFields(trimmed);
    TrimOfTrimmed(trimmed);
    if HeadingOf(trimmed) > 0 {
      HeadingWords(trimmed);
    } else if !IsTableLine(trimmed) && IsListLine(trimmed) {
      ListItemWords(trimmed);
    }
  }

  /**
   * A line outside front matter that is neither blank nor a fence mark gives a token with its words,
   * without the mark of a heading or a list item. Every other line gives nothing, and only a line
   * inside a fence gives a token without words.
   */
  lemma ClassifyKeepsWords(mode: Mode, first: bool, raw: string)
    ensures var (next, t) := Classify(mode, first, raw);
            var trimmed := Trim(TrimBlanksRight(raw));
            var dropped :=
              (first && trimmed == "---") || mode == Front || IsFence(trimmed) || (mode == Body && Blank(raw));
            && (t.Break? <==> dropped)
            && (!dropped ==> DropsMark(t) ==> Fields(raw) != [])
            && (!dropped ==> TokenWords(t) == if DropsMark(t) then Fields(raw)[1..] else Fields(raw))
            && (!dropped && mode == Body ==> TokenWords(t) != [])
  {
    var line := TrimBlanksRight(raw);
    var trimmed := Trim(line);
    TrimBlanksRightWords(raw);
    FieldsTrim(line);
    BlankIffNoFields(raw);
    BlankIffNoFields(line);
    TrimShape(line);
    if trimmed != "" { BodyTokenWords(trimmed); }
  }

  // ----- the title and the paths

  predicate IsTop(t: Token) { t.Heading? && t.level == 1 }

  predicate HeadingsHaveText(tokens: seq<Token>) {
    forall i :: 0 <= i < |tokens| && tokens[i].Heading? ==> tokens[i].text != ""
  }

  predicate NoTop(tokens: seq<Token>) { forall i :: 0 <= i < |tokens| ==> !IsTop(tokens[i]) }

  lemma {:induction false} TitleIsFirst(tokens: seq<Token>)
    requires HeadingsHaveText(tokens)
    ensures TitleOf(tokens) == "" <==> NoTop(tokens)
    ensures TitleOf(tokens) != "" ==>
              exists i :: 0 <= i < |tokens| && tokens[i] == Heading(1, TitleOf(tokens)) && NoTop(tokens[..i])
  {
    if tokens != [] {
      var n := |tokens| - 1;
      TitleIsFirst(tokens[..n]);
      assert tokens == tokens[..n] + [tokens[n]];
      if TitleOf(tokens[..n]) != "" {
        var i :| 0 <= i < n && tokens[..n][i] == Heading(1, TitleOf(tokens[..n])) && NoTop(tokens[..n][..i]);
        assert tokens[..n][..i] == tokens[..i] && IsTop(tokens[i]);
      } else if IsTop(tokens[n]) {
        assert tokens[n] == Heading(1, TitleOf(tokens));
      }
    }
  }

  lemma HeadingHasText(mode: Mode, first: bool, raw: string)
    ensures Classify(mode, first, raw).1.Heading? ==> Classify(mode, first, raw).1.text != ""
  {
    ClassifyKeepsWords(mode, first, raw);
  }

  lemma {:induction false} HeadingsOfLinesHaveText(lines: seq<string>)
    ensures HeadingsHaveText(Scan(lines).1)
  {
    hide Classify;
    if lines != [] {
      var n := |lines| - 1;
      HeadingsOfLinesHaveText(lines[..n]);
      HeadingHasText(Scan(lines[..n]).0, n == 0, lines[n]);
    }
  }

  /** The title is the text of the first heading of level 1, if there is one. */
  lemma TitleIsFirstTopHeading(text: string)
    ensures var tokens := Tokens(text);
            if NoTop(tokens) then TitleOf(tokens) == ""
            else exists i :: 0 <= i < |tokens| && tokens[i] == Heading(1, TitleOf(tokens)) && NoTop(tokens[..i])
  {
    HeadingsOfLinesHaveText(Split(NormalizeBreaks(text)));
    TitleIsFirst(Tokens(text));
  }

  /** The path is that of a tag with a number that was given out. */
  ghost predicate Given(path: string, tag: string, counts: map<string, nat>) {
    exists n: nat :: 0 < n <= CountOf(counts, tag) && path == "/markdown/" + Numbered(tag, n)
  }

  /** Every node is numbered among the nodes of its tag, and no two have the same path. */
  ghost predicate Counted(out: Output) {
    && (forall i :: 0 <= i < |out.nodes| ==> Given(out.nodes[i].path, out.nodes[i].tag, out.counts))
    && (forall i, j :: 0 <= i < j < |out.nodes| ==> out.nodes[i].path != out.nodes[j].path)
  }

  lemma SamePath(a: string, m: nat, b: string, n: nat)
    requires "/markdown/" + Numbered(a, m) == "/markdown/" + Numbered(b, n)
    ensures a == b && m == n
  {
    var mark := "/markdown/";
    assert (mark + Numbered(a, m))[|mark|..] == Numbered(a, m) && (mark + Numbered(b, n))[|mark|..] == Numbered(b, n);
    NumberedIsOneToOne(a, m, b, n);
  }

  lemma NextNumberIsNew(path: string, tag: string, counts: map<string, nat>, next: string)
    requires Given(path, tag, counts)
    ensures path != "/markdown/" + Numbered(next, CountOf(counts, next) + 1)
    ensures Given(path, tag, counts[next := CountOf(counts, next) + 1])
  {
    var n: nat :| 0 < n <= CountOf(counts, tag) && path == "/markdown/" + Numbered(tag, n);
    if path == "/markdown/" + Numbered(next, CountOf(counts, next) + 1) {
      SamePath(tag, n, next, CountOf(counts, next) + 1);
    }
    assert n <= CountOf(counts[next := CountOf(counts, next) + 1], tag);
  }

  lemma AppendKeepsCounted(out: Output, tag: string, kind: string, text: string, level: int)
    requires Counted(out)
    ensures Counted(AppendNode(out, tag, kind, text, level))
  {
    if Trim(text) != "" {
      var more := AppendNode(out, tag, kind, text, level);
      hide Trim;
      forall i | 0 <= i < |out.nodes|
        ensures more.nodes[i] == out.nodes[i] && Given(more.nodes[i].path, more.nodes[i].tag, more.counts)
        ensures more.nodes[i].path != more.nodes[|out.nodes|].path
      {
        NextNumberIsNew(out.nodes[i].path, out.nodes[i].tag, out.counts, tag);
      }
      assert Given(more.nodes[|out.nodes|].path, tag, more.counts);
    }
  }

  /** No two nodes of a Markdown text have the same path. */
  lemma {:induction false} PathsAreDistinct(runs: seq<Run>)
    ensures Counted(Render(runs))
  {
    if runs != [] {
      var run := runs[|runs| - 1];
      PathsAreDistinct(runs[..|runs| - 1]);
      match run
      case Title(level, text) =>
        var tag := "h" + Print(if level < 0 then 0 else level);
        AppendKeepsCounted(Render(runs[..|runs| - 1]), tag, "heading", text, level);
      case Block(kind, lines) =>
        AppendKeepsCounted(Render(runs[..|runs| - 1]), Tag(kind), KindName(kind), BlockText(kind, lines), 0);
    }
  }
}
