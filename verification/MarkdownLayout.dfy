/** How the nodes of a Markdown text are laid out: levels, tags, and the line breaks that stay. */
module MarkdownLayout {
  import opened Text
  import opened Lines
  import opened Decimal
  import opened Dom
  import opened Markdown
  import opened MarkdownContent

  // ----- nodes

  /**
   * A node made of a run: a heading with its level in the tag; a paragraph or list item with its words a
   * space apart; a table or code with its lines as they are, but for the white space around the block.
   */
  ghost predicate Laid(n: Node, run: Run) {
    && n.depth == 1
    && match run
       case Title(level, text) =>
         n.headingLevel == level && (0 <= level ==> n.tag == "h" + Print(level)) && TrimmedFrom(n.text, text)
       case Block(kind, lines) =>
         n.headingLevel == 0
         && (match kind
             case Paragraph => n.tag == "p" && n.text == Join(AllFields(lines), " ")
             case List => n.tag == "li" && n.text == Join(AllFields(lines), " ")
             case Table => n.tag == "table" && TrimmedFrom(n.text, Join(lines, "\n"))
             case Code => n.tag == "pre" && TrimmedFrom(n.text, Join(lines, "\n")))
  }

  lemma TrimStays(s: string)
    ensures Trim(Trim(s)) == Trim(s)
  {
    TrimShape(s);
    TrimOfTrimmed(Trim(s));
  }

  lemma NormalizeJoins(lines: seq<string>, sep: string)
    requires AllSpace(sep) && sep != ""
    ensures NormalizeWhitespace(Join(lines, sep)) == Join(AllFields(lines), " ")
  {
    FieldsTrim(Join(lines, sep));
    FieldsJoin(lines, sep);
  }

  lemma {:induction false} JoinedWordsAreTrimmed(ws: seq<string>)
    requires forall w :: w in ws ==> IsWord(w)
    ensures Trim(Join(ws, " ")) == Join(ws, " ")
  {
    if ws != [] {
      JoinEnds(ws);
      TrimOfTrimmed(Join(ws, " "));
    }
  }

  lemma {:induction false} JoinEnds(ws: seq<string>)
    requires ws != [] && forall w :: w in ws ==> IsWord(w)
    ensures var s := Join(ws, " "); s != "" && !IsSpace(s[0]) && !IsSpace(s[|s| - 1])
  {
    assert IsWord(ws[0]);
    if |ws| > 1 { JoinEnds(ws[1..]); }
  }

  lemma RunIsLaid(out: Output, run: Run)
    requires RunWords(run) != []
    ensures var nodes := AppendRun(out, run).nodes; |nodes| == |out.nodes| + 1 && Laid(nodes[|out.nodes|], run)
  {
    AppendShows(out, run);
    match run
    case Title(level, text) => TrimIsTrimmed(text);
    case Block(kind, lines) => BlockIsLaid(kind, lines);
  }

  lemma BlockIsLaid(kind: Kind, lines: seq<string>)
    ensures var text := Trim(BlockText(kind, lines));
            if kind.Paragraph? || kind.List? then text == Join(AllFields(lines), " ")
            else TrimmedFrom(text, Join(lines, "\n"))
  {
    var sep := if kind.Paragraph? then " " else "\n";
    NormalizeJoins(lines, sep);
    FieldsJoin(lines, sep);
    FieldsAreWords(Join(lines, sep));
    JoinedWordsAreTrimmed(AllFields(lines));
    TrimIsTrimmed(Join(lines, "\n"));
    TrimStays(Join(lines, "\n"));
  }

  /** Every run with words becomes one node, in order, laid out like it. */
  lemma {:induction false} NodesAreLaid(runs: seq<Run>)
    ensures |Render(runs).nodes| == |Visible(runs)|
    ensures forall k :: 0 <= k < |Visible(runs)| ==> Laid(Render(runs).nodes[k], Visible(runs)[k])
  {
    if runs != [] {
      var n := |runs| - 1;
      var out, last := Render(runs[..n]), runs[n];
      NodesAreLaid(runs[..n]);
      AppendShows(out, last);
      if RunWords(last) != [] { RunIsLaid(out, last); }
      hide AppendRun, RunWords, Laid;
      var nodes := Render(runs).nodes;
      assert forall k :: 0 <= k < |out.nodes| ==> nodes[k] == nodes[..|out.nodes|][k];
    }
  }

  // ----- lines

  function Repeat(c: char, n: nat): string { seq(n, _ => c) }

  lemma HashesAreCounted(line: string, k: nat)
    ensures (1 <= k <= 6 && HasPrefix(line, Repeat('#', k) + " ")) <==> (k > 0 && HeadingOf(line) == k)
  {
    HashesAreHashes(line);
    var n := Hashes(line);
    var p := Repeat('#', k) + " ";
    if p <= line {
      assert forall i :: 0 <= i < k ==> line[i] == p[i] == '#';
      assert line[k] == p[k] == ' ';
    }
    if 0 < k == n < |line| && line[n] == ' ' {
      assert line[..k + 1] == p;
    }
  }

  lemma {:induction false} BlanksDrop(s: string)
    ensures var t := TrimBlanksRight(s);
            && t <= s && (t != "" ==> t[|t| - 1] != ' ' && t[|t| - 1] != '\t')
            && forall i :: |t| <= i < |s| ==> s[i] == ' ' || s[i] == '\t'
  {
    if s != "" && (s[|s| - 1] == ' ' || s[|s| - 1] == '\t') {
      BlanksDrop(s[..|s| - 1]);
      var t := TrimBlanksRight(s);
      forall i | |t| <= i < |s| ensures s[i] == ' ' || s[i] == '\t' {
        if i < |s| - 1 { assert s[..|s| - 1][i] == s[i]; }
      }
    }
  }

  /** The line without blanks at its end. */
  predicate Chomped(t: string, s: string) {
    && t <= s && (t != "" ==> t[|t| - 1] != ' ' && t[|t| - 1] != '\t')
    && forall i :: |t| <= i < |s| ==> s[i] == ' ' || s[i] == '\t'
  }

  lemma BlanksAreSpace(t: string, s: string)
    requires Chomped(t, s)
    ensures Trim(t) == Trim(s)
  {
    assert forall i :: 0 <= i < |s[|t|..]| ==> IsSpace(s[|t|..][i]);
    TrimIgnoresRight(t, s);
  }

  predicate StopAt(line: string, i: int) { 0 <= i && i + 2 <= |line| && line[i..i + 2] == ". " }

  /** The line begins with d digits, a full stop and a space. */
  predicate NumberedBy(line: string, d: int) { 1 <= d <= 3 && StopAt(line, d) && AllDigits(line[..d]) }

  /** The line begins with a bullet or with a number of up to three digits, and a space. */
  ghost predicate Marked(line: string) {
    HasPrefix(line, "- ") || HasPrefix(line, "* ") || HasPrefix(line, "+ ")
    || (4 <= |line| && exists d :: NumberedBy(line, d))
  }

  lemma {:induction false} FirstIndexFrom(s: string, p: string, i: nat, d: nat)
    requires i <= d <= |s| - |p| && s[d..d + |p|] == p
    ensures i <= IndexFrom(s, p, i) <= d
    decreases |s| - i
  {
    if i < d && !(i + |p| <= |s| && s[i..i + |p|] == p) { FirstIndexFrom(s, p, i + 1, d); }
  }

  lemma NumberIsFirst(line: string, d: int)
    requires NumberedBy(line, d)
    ensures Index(line, ". ") == d
  {
    forall i | 0 <= i < d ensures !StopAt(line, i) {
      assert IsDigit(line[..d][i]) && line[i..i + 2][0] == line[..d][i];
    }
    FirstIndexFrom(line, ". ", 0, d);
    assert StopAt(line, Index(line, ". "));
  }

  lemma MarkIsListLine(line: string)
    ensures Marked(line) <==> IsListLine(line)
  {
    hide AllDigits, Index, HasPrefix;
    if d :| NumberedBy(line, d) { NumberIsFirst(line, d); }
    if 4 <= |line| && 0 < Index(line, ". ") <= 3 && AllDigits(line[..Index(line, ". ")]) {
      assert NumberedBy(line, Index(line, ". "));
    }
  }

  /** What a line outside fences says, given the line without the white space around it. */
  ghost predicate Says(t: Token, line: string) {
    match t
    case Break => line == ""
    case Heading(level, text) =>
      1 <= level <= 6 && HasPrefix(line, Repeat('#', level) + " ") && text == Trim(line[level + 1..])
    case Line(kind, text) =>
      && (forall k: nat :: 1 <= k <= 6 ==> !HasPrefix(line, Repeat('#', k) + " "))
      && (kind != List ==> text == line)
      && (kind == Table <==> 2 <= CountChar(line, '|'))
      && (kind == List <==> CountChar(line, '|') < 2 && Marked(line))
      && kind != Code
  }

  lemma LineSays(line: string)
    requires Trim(line) == line
    ensures Says(BodyToken(line), line)
  {
    if line != "" {
      if HeadingOf(line) > 0 {
        HashesAreCounted(line, HeadingOf(line));
      } else {
        MarkIsListLine(line);
        forall k: nat | 1 <= k <= 6 ensures !HasPrefix(line, Repeat('#', k) + " ") { HashesAreCounted(line, k); }
      }
    }
  }

  /** Inside a fence a line stays as it is, blanks at its end aside; outside it says what its first characters say. */
  lemma ClassifyKeepsLayout(mode: Mode, first: bool, raw: string)
    ensures var (_, t) := Classify(mode, first, raw);
            && (mode == Fenced && !t.Break? ==> t.Line? && t.kind == Code && Chomped(t.text, raw))
            && (mode == Body && !t.Break? ==> Says(t, Trim(raw)))
  {
    BlanksDrop(raw);
    BlanksAreSpace(TrimBlanksRight(raw), raw);
    TrimStays(raw);
    LineSays(Trim(raw));
    hide Says, BodyToken, IsFence;
  }

  // ----- front matter and fences

  /** A line that opens or closes a fence. */
  predicate Marks(raw: string) { HasPrefix(Trim(raw), "```") || HasPrefix(Trim(raw), "~~~") }

  predicate Dashes(raw: string) { Trim(raw) == "---" }

  /** How many of the lines open or close a fence. */
  function Fences(lines: seq<string>): nat {
    if lines == [] then 0 else Fences(lines[..|lines| - 1]) + if Marks(lines[|lines| - 1]) then 1 else 0
  }

  /** The mode after some lines that do not begin with front matter: inside a fence after an odd number of marks. */
  function ByParity(lines: seq<string>): Mode { if Fences(lines) % 2 == 1 then Fenced else Body }

  lemma ModeStep(mode: Mode, first: bool, raw: string)
    ensures Classify(mode, first, raw).0 ==
            if first && Dashes(raw) then Front
            else if mode == Front then (if Dashes(raw) then Body else Front)
            else if Marks(raw) then (if mode == Fenced then Body else Fenced)
            else mode
  {
    BlanksDrop(raw);
    BlanksAreSpace(TrimBlanksRight(raw), raw);
    hide TrimBlanksRight, Trim, HasPrefix, BodyToken;
  }

  lemma FencesMore(lines: seq<string>, from: nat, n: nat)
    requires from <= n && n + 1 == |lines|
    ensures Fences(lines[from..]) == Fences(lines[..n][from..]) + if Marks(lines[n]) then 1 else 0
  {
    assert lines[from..][..n - from] == lines[..n][from..];
  }

  lemma NextParity(lines: seq<string>, from: nat, n: nat)
    requires from <= n && n + 1 == |lines|
    ensures ByParity(lines[from..]) ==
            if !Marks(lines[n]) then ByParity(lines[..n][from..])
            else if ByParity(lines[..n][from..]) == Fenced then Body else Fenced
  {
    FencesMore(lines, from, n);
    hide Fences, Marks;
  }

  /** After the front matter, if any, ended at line `from`, fences pair up. */
  lemma {:induction false} ModeFrom(lines: seq<string>, from: nat)
    requires from <= |lines| && Scan(lines[..from]).0 == Body
    requires from == 0 ==> lines == [] || !Dashes(lines[0])
    ensures Scan(lines).0 == ByParity(lines[from..])
  {
    if from == |lines| {
      assert lines[..from] == lines;
    } else {
      var n := |lines| - 1;
      assert lines[..n][..from] == lines[..from];
      ModeFrom(lines[..n], from);
      var mode := Scan(lines[..n]).0;
      ModeStep(mode, n == 0, lines[n]);
      ScanStep(lines, n, mode, Scan(lines[..n]).1);
      assert lines[..n + 1] == lines;
      NextParity(lines, from, n);
      hide Scan, Classify, Marks, Dashes, ByParity;
    }
  }

  /** The first k lines open front matter and do not end it. */
  predicate FrontOnly(lines: seq<string>, k: nat) {
    0 < k <= |lines| && Dashes(lines[0]) && forall i :: 0 < i < k ==> !Dashes(lines[i])
  }

  lemma {:induction false} StillFront(lines: seq<string>, k: nat)
    requires FrontOnly(lines, k)
    ensures Scan(lines[..k]).0 == Front
  {
    var n := k - 1;
    if n > 0 { StillFront(lines, n); }
    ModeStep(Scan(lines[..n]).0, n == 0, lines[n]);
    hide Scan, Classify, Dashes;
    ScanStep(lines, n, Scan(lines[..n]).0, Scan(lines[..n]).1);
  }

  /** Front matter ended at line k. */
  lemma FrontEnds(lines: seq<string>, k: nat)
    requires k < |lines| && FrontOnly(lines, k) && Dashes(lines[k])
    ensures Scan(lines).0 == ByParity(lines[k + 1..])
  {
    StillFront(lines, k);
    ModeStep(Front, false, lines[k]);
    hide Dashes, Scan, Classify, ByParity, FrontOnly;
    ScanStep(lines, k, Front, Scan(lines[..k]).1);
    ModeFrom(lines, k + 1);
  }

  /**
   * A first line of three dashes opens front matter, which the next such line ends. Outside it, a line is inside
   * a fence exactly when an odd number of fence marks came before.
   */
  lemma ModeOfLine(lines: seq<string>)
    ensures lines == [] || !Dashes(lines[0]) ==> Scan(lines).0 == ByParity(lines)
    ensures FrontOnly(lines, |lines|) ==> Scan(lines).0 == Front
    ensures forall k: nat :: k < |lines| && FrontOnly(lines, k) && Dashes(lines[k]) ==>
              Scan(lines).0 == ByParity(lines[k + 1..])
  {
    hide Dashes, Scan, Classify, ByParity, FrontOnly;
    assert lines[0..] == lines && lines[..|lines|] == lines;
    if lines == [] || !Dashes(lines[0]) {
      ScanStart(lines);
      ModeFrom(lines, 0);
    }
    if FrontOnly(lines, |lines|) { StillFront(lines, |lines|); }
    forall k: nat | k < |lines| && FrontOnly(lines, k) && Dashes(lines[k])
      ensures Scan(lines).0 == ByParity(lines[k + 1..])
    {
      FrontEnds(lines, k);
    }
  }

  // ----- where runs begin

  /** A token begins a run unless it continues the block of the token just before it. */
  predicate Begins(tokens: seq<Token>, i: nat)
    requires i < |tokens|
  {
    && !tokens[i].Break?
    && !(i > 0 && tokens[i].Line? && tokens[i - 1].Line? && tokens[i - 1].kind == tokens[i].kind)
  }

  function Beginnings(tokens: seq<Token>): seq<nat> {
    if tokens == [] then []
    else
      var n := |tokens| - 1;
      Beginnings(tokens[..n]) + if Begins(tokens, n) then [n] else []
  }

  /** Run k holds exactly the content from its beginning up to that of the next run. */
  ghost predicate RunHolds(tokens: seq<Token>, runs: seq<Run>, starts: seq<nat>, k: nat) {
    && k < |runs| && k < |starts| && starts[k] < |tokens|
    && var end := if k + 1 < |starts| then starts[k + 1] else |tokens|;
       starts[k] <= end <= |tokens| && RunContent(runs[k]) == Content(tokens[starts[k]..end])
  }

  ghost predicate AllRunsHold(tokens: seq<Token>, runs: seq<Run>, starts: seq<nat>) {
    |runs| == |starts| && forall k :: 0 <= k < |runs| ==> RunHolds(tokens, runs, starts, k)
  }

  lemma ContentMore(tokens: seq<Token>, s: nat, t: Token)
    requires s <= |tokens|
    ensures Content((tokens + [t])[s..]) == Content(tokens[s..]) + if t.Break? then [] else [t]
  {
    assert (tokens + [t])[s..] == tokens[s..] + [t];
    assert (tokens[s..] + [t])[..|tokens| - s] == tokens[s..];
  }

  /** The runs before the last one are as they were. */
  lemma EarlierHold(tokens: seq<Token>, runs: seq<Run>, starts: seq<nat>, t: Token, k: nat)
    requires RunHolds(tokens, runs, starts, k) && k + 1 < |starts|
    ensures RunHolds(tokens + [t], runs, starts, k)
  {
    assert (tokens + [t])[starts[k]..starts[k + 1]] == tokens[starts[k]..starts[k + 1]];
  }

  /** A token that begins no run belongs to the last one. */
  lemma LastHolds(tokens: seq<Token>, runs: seq<Run>, starts: seq<nat>, t: Token, more: seq<Run>)
    requires AllRunsHold(tokens, runs, starts) && |more| == |runs|
    requires forall k :: 0 <= k < |runs| - 1 ==> more[k] == runs[k]
    requires runs != [] ==>
               RunContent(more[|runs| - 1]) == RunContent(runs[|runs| - 1]) + if t.Break? then [] else [t]
    ensures AllRunsHold(tokens + [t], more, starts)
  {
    hide Content, RunContent;
    forall k | 0 <= k < |more| ensures RunHolds(tokens + [t], more, starts, k) {
      assert RunHolds(tokens, runs, starts, k);
      if k + 1 < |starts| {
        EarlierHold(tokens, runs, starts, t, k);
      } else {
        ContentMore(tokens, starts[k], t);
        assert (tokens + [t])[starts[k]..|tokens| + 1] == (tokens + [t])[starts[k]..];
        assert tokens[starts[k]..|tokens|] == tokens[starts[k]..];
      }
    }
  }

  /** A token that begins a run holds the new one. */
  lemma NewHolds(tokens: seq<Token>, runs: seq<Run>, starts: seq<nat>, t: Token, run: Run)
    requires AllRunsHold(tokens, runs, starts) && !t.Break? && RunContent(run) == [t]
    ensures AllRunsHold(tokens + [t], runs + [run], starts + [|tokens|])
  {
    var all, more, at := tokens + [t], runs + [run], starts + [|tokens|];
    assert [t][..0] == [] && Content([t]) == [t];
    hide Content, RunContent;
    forall k | 0 <= k < |more| ensures RunHolds(all, more, at, k) {
      if k < |runs| {
        assert RunHolds(tokens, runs, starts, k);
        var end := if k + 1 < |starts| then starts[k + 1] else |tokens|;
        assert at[k + 1] == end && all[starts[k]..end] == tokens[starts[k]..end];
      } else {
        assert all[|tokens|..|all|] == [t];
      }
    }
  }

  lemma OneTokenRun(t: Token)
    ensures t.Heading? ==> RunContent(Title(t.level, t.text)) == [t]
    ensures t.Line? ==> RunContent(Block(t.kind, [t.text])) == [t]
  {
  }

  /** A token that begins a run adds it. */
  lemma RunBegins(tokens: seq<Token>, t: Token)
    requires Begins(tokens + [t], |tokens|) && AllRunsHold(tokens, Runs(tokens), Beginnings(tokens))
    ensures AllRunsHold(tokens + [t], Runs(tokens + [t]), Beginnings(tokens) + [|tokens|])
  {
    RunsAfter(tokens, t);
    OneTokenRun(t);
    if t.Line? { LineAfter(tokens, t.kind, t.text); }
    hide AllRunsHold, Runs, RunContent, Beginnings;
    NewHolds(tokens, Runs(tokens), Beginnings(tokens), t,
             if t.Heading? then Title(t.level, t.text) else Block(t.kind, [t.text]));
  }

  /** A line that continues a block, or a break. */
  lemma RunGoesOn(tokens: seq<Token>, t: Token)
    requires !Begins(tokens + [t], |tokens|) && AllRunsHold(tokens, Runs(tokens), Beginnings(tokens))
    ensures AllRunsHold(tokens + [t], Runs(tokens + [t]), Beginnings(tokens))
  {
    var runs := Runs(tokens);
    var last := |runs| - 1;
    RunsAfter(tokens, t);
    if t.Line? {
      LineAfter(tokens, t.kind, t.text);
      assert runs[last] == Block(t.kind, runs[last].lines);
      RunContentMore(t.kind, runs[last].lines, t.text);
    }
    BreakAddsNothing(runs);
    hide AllRunsHold, Runs, RunContent, Beginnings;
    LastHolds(tokens, runs, Beginnings(tokens), t, Runs(tokens + [t]));
  }

  /** Runs begin where the kind changes, after a break and at headings, and nowhere else. */
  lemma {:induction false} RunsAreMaximal(tokens: seq<Token>)
    ensures AllRunsHold(tokens, Runs(tokens), Beginnings(tokens))
  {
    if tokens != [] {
      var n := |tokens| - 1;
      RunsAreMaximal(tokens[..n]);
      assert tokens == tokens[..n] + [tokens[n]];
      hide AllRunsHold, Runs, Begins;
      if Begins(tokens, n) {
        RunBegins(tokens[..n], tokens[n]);
      } else {
        RunGoesOn(tokens[..n], tokens[n]);
        assert Beginnings(tokens) == Beginnings(tokens[..n]) + [] == Beginnings(tokens[..n]);
      }
    }
  }

  lemma BreakAddsNothing(runs: seq<Run>)
    ensures runs != [] ==> RunContent(runs[|runs| - 1]) == RunContent(runs[|runs| - 1]) + []
  {
  }

  // ----- line ends

  predicate PlainLine(line: string) { '\n' !in line && '\r' !in line }

  lemma {:induction false} BreaksAfter(line: string, end: string, rest: string)
    requires PlainLine(line) && (end == "\n" || end == "\r\n")
    ensures NormalizeBreaks(line + end + rest) == line + "\n" + NormalizeBreaks(rest)
    decreases |line|
  {
    var s := line + end + rest;
    if line == "" {
      assert s == end + rest && s[|end|..] == rest;
    } else {
      assert s[1..] == line[1..] + end + rest && s[0] == line[0];
      BreaksAfter(line[1..], end, rest);
      assert [line[0]] + (line[1..] + "\n" + NormalizeBreaks(rest)) == line + "\n" + NormalizeBreaks(rest);
    }
  }

  lemma {:induction false} NoBreaks(line: string)
    requires PlainLine(line)
    ensures NormalizeBreaks(line) == line
  {
    if line != "" {
      NoBreaks(line[1..]);
      assert [line[0]] + line[1..] == line;
    }
  }

  /** The lines of a text are the same with either line end. */
  lemma {:induction false} EitherLineEnd(lines: seq<string>, end: string)
    requires lines != [] && (forall l :: l in lines ==> PlainLine(l)) && (end == "\n" || end == "\r\n")
    ensures NormalizeBreaks(Join(lines, end)) == Join(lines, "\n")
    ensures Split(NormalizeBreaks(Join(lines, end))) == lines
  {
    assert PlainLine(lines[0]);
    SplitOneLine(lines[0]);
    if |lines| == 1 {
      NoBreaks(lines[0]);
    } else {
      EitherLineEnd(lines[1..], end);
      BreaksAfter(lines[0], end, Join(lines[1..], end));
      SplitAtBreak(lines[0], Join(lines[1..], "\n"));
    }
  }
}
