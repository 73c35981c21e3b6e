/** Where each segment comes from: the positions of its nodes on the page, and the headings in force there. */
module SegmentOrigin {
  import opened Text
  import opened Dom
  import opened Segmenter

  /** The headings in force before position i of a page: the heading path, or else the title of the page. */
  function PathInForce(nodes: seq<Node>, i: nat, title: string): seq<string>
    requires i <= |nodes|
  {
    var path := PathAfter(nodes[..i]);
    if path != [] then path else if Blank(title) then [] else [title]
  }

  /** The positions of a page hold content, not headings. */
  predicate Content(nodes: seq<Node>, group: seq<nat>) {
    forall j :: 0 <= j < |group| ==> group[j] < |nodes| && nodes[group[j]].kind != "heading"
  }

  /** The segment is made of the nodes at these positions: one kind, one heading path, joined texts, a size limit. */
  predicate MadeOf(nodes: seq<Node>, title: string, limit: int, s: Segment, group: seq<nat>) {
    && group != [] && Content(nodes, group)
    && s.headingPath == PathInForce(nodes, group[0], title)
    && (forall j :: 0 <= j < |group| ==>
          s.kind == nodes[group[j]].kind && SamePath(s.headingPath, PathInForce(nodes, group[j], title)))
    && s.nodePaths == seq(|group|, j requires 0 <= j < |group| => nodes[group[j]].path)
    && s.text == Join(seq(|group|, j requires 0 <= j < |group| => nodes[group[j]].text), "\n\n")
    && (|group| > 1 ==> |s.text| <= limit)
  }

  function Concat(groups: seq<seq<nat>>): seq<nat> {
    if groups == [] then [] else Concat(groups[..|groups| - 1]) + groups[|groups| - 1]
  }

  /** All positions of content, in page order. */
  ghost predicate AllContent(nodes: seq<Node>, positions: seq<nat>) {
    && (forall i, j :: 0 <= i < j < |positions| ==> positions[i] < positions[j])
    && (forall i :: i in positions <==> 0 <= i < |nodes| && nodes[i].kind != "heading")
  }

  /** The next node could not have joined the segment before it. */
  predicate MustPart(nodes: seq<Node>, s: Segment, next: Segment, group: seq<nat>, limit: int)
    requires group != [] && Content(nodes, group)
  {
    s.kind == next.kind && SamePath(s.headingPath, next.headingPath) ==>
      limit < |s.text| + 2 + |nodes[group[0]].text|
  }

  function Positions(chunk: seq<Item>): seq<nat> { seq(|chunk|, j requires 0 <= j < |chunk| => chunk[j].at) }

  function AllPositions(chunks: seq<seq<Item>>): seq<seq<nat>> {
    seq(|chunks|, k requires 0 <= k < |chunks| => Positions(chunks[k]))
  }

  /** The item is a node of the page that is no heading, with the path in force before it. */
  predicate From(nodes: seq<Node>, title: string, item: Item) {
    item.at < |nodes| && item.node == nodes[item.at] && item.node.kind != "heading"
    && item.path == PathInForce(nodes, item.at, title)
  }

  predicate AllFrom(nodes: seq<Node>, title: string, items: seq<Item>) {
    forall j :: 0 <= j < |items| ==> From(nodes, title, items[j])
  }

  /** What lies before a position does not depend on what comes later. */
  lemma FromMore(nodes: seq<Node>, n: nat, title: string, item: Item)
    requires n <= |nodes| && From(nodes[..n], title, item)
    ensures From(nodes, title, item)
  {
    assert nodes[..n][..item.at] == nodes[..item.at];
  }

  lemma MoreContent(nodes: seq<Node>, n: nat, positions: seq<nat>)
    requires n + 1 == |nodes| && AllContent(nodes[..n], positions)
    ensures AllContent(nodes, positions + if IsHeading(nodes[n]) then [] else [n])
  {
    forall j | 0 <= j < |positions| ensures positions[j] < n { assert positions[j] in positions; }
    var more := positions + if IsHeading(nodes[n]) then [] else [n];
    assert forall i :: i in more <==> i in positions || (i == n && !IsHeading(nodes[n]));
  }

  lemma MorePositions(items: seq<Item>, item: Item)
    ensures Positions(items + [item]) == Positions(items) + [item.at]
  {
  }

  lemma MoreFrom(nodes: seq<Node>, title: string, items: seq<Item>, n: nat)
    requires n + 1 == |nodes| && AllFrom(nodes[..n], title, items) && !IsHeading(nodes[n])
    ensures AllFrom(nodes, title, items + [Item(nodes[n], Target(PathAfter(nodes[..n]), title), n)])
  {
    SameFrom(nodes, title, items, n);
  }

  lemma SameFrom(nodes: seq<Node>, title: string, items: seq<Item>, n: nat)
    requires n <= |nodes| && AllFrom(nodes[..n], title, items)
    ensures AllFrom(nodes, title, items)
  {
    forall j | 0 <= j < |items| ensures From(nodes, title, items[j]) { FromMore(nodes, n, title, items[j]); }
  }

  lemma {:induction false} ItemsAreContent(nodes: seq<Node>, title: string)
    ensures AllFrom(nodes, title, Items(nodes, title)) && AllContent(nodes, Positions(Items(nodes, title)))
  {
    if nodes != [] {
      var n := |nodes| - 1;
      ItemsAreContent(nodes[..n], title);
      var items := Items(nodes[..n], title);
      MoreContent(nodes, n, Positions(items));
      SameFrom(nodes, title, items, n);
      hide AllFrom, AllContent, PathAfter, Target, Positions;
      if !IsHeading(nodes[n]) {
        MoreFrom(nodes, title, items, n);
        MorePositions(items, Item(nodes[n], Target(PathAfter(nodes[..n]), title), n));
      } else {
        assert Positions(items) + [] == Positions(items) && items + [] == items;
      }
    }
  }

  lemma {:induction false} ConcatPositions(chunks: seq<seq<Item>>)
    ensures Concat(AllPositions(chunks)) == Positions(Flatten(chunks))
  {
    if chunks != [] {
      var init := chunks[..|chunks| - 1];
      ConcatPositions(init);
      assert AllPositions(chunks)[..|chunks| - 1] == AllPositions(init);
    }
  }

  lemma {:induction false} ChunkFrom(nodes: seq<Node>, title: string, chunks: seq<seq<Item>>, k: nat)
    requires k < |chunks| && AllFrom(nodes, title, Flatten(chunks))
    ensures AllFrom(nodes, title, chunks[k])
  {
    var n := |chunks| - 1;
    var fore, last := Flatten(chunks[..n]), chunks[n];
    assert forall j :: 0 <= j < |fore| ==> Flatten(chunks)[j] == fore[j];
    assert forall j :: 0 <= j < |last| ==> Flatten(chunks)[|fore| + j] == last[j];
    if k < n { ChunkFrom(nodes, title, chunks[..n], k); }
  }

  lemma MadeFrom(nodes: seq<Node>, title: string, limit: int, chunk: seq<Item>)
    requires FitsTogether(chunk, limit) && AllFrom(nodes, title, chunk)
    ensures MadeOf(nodes, title, limit, Made(chunk), Positions(chunk))
  {
    var group := Positions(chunk);
    assert forall j :: 0 <= j < |chunk| ==> From(nodes, title, chunk[j]);
    assert Texts(chunk) == seq(|group|, j requires 0 <= j < |group| => nodes[group[j]].text);
    assert Paths(chunk) == seq(|group|, j requires 0 <= j < |group| => nodes[group[j]].path);
  }

  lemma PartedFrom(nodes: seq<Node>, title: string, limit: int, chunk: seq<Item>, next: seq<Item>)
    requires chunk != [] && next != [] && !Joins(chunk, next[0], limit) && AllFrom(nodes, title, next)
    ensures Positions(next) != [] && Content(nodes, Positions(next))
    ensures MustPart(nodes, Made(chunk), Made(next), Positions(next), limit)
  {
    assert forall j :: 0 <= j < |next| ==> From(nodes, title, next[j]);
  }

  /**
   * The segments of any page: the positions of its content, in order, cut into groups. Each segment is made
   * of one group and carries the headings in force before its nodes; no node could have joined the segment
   * before its own.
   */
  lemma SegmentsComeFromPage(nodes: seq<Node>, title: string, maxSegmentChars: int) returns (groups: seq<seq<nat>>)
    ensures var segments := Segments(nodes, title, maxSegmentChars);
            var limit := if maxSegmentChars <= 0 then 1200 else maxSegmentChars;
            && |groups| == |segments| && AllContent(nodes, Concat(groups))
            && (forall k :: 0 <= k < |groups| ==> MadeOf(nodes, title, limit, segments[k], groups[k]))
            && (forall k :: 0 < k < |groups| ==> MustPart(nodes, segments[k - 1], segments[k], groups[k], limit))
  {
    var items, limit := Items(nodes, title), Limit(maxSegmentChars);
    var chunks := Greedy(items, limit);
    groups := AllPositions(chunks);
    ItemsAreContent(nodes, title);
    GreedyPacks(items, limit);
    ConcatPositions(chunks);
    hide Items, Greedy, MadeOf, MustPart, FitsTogether, Joins, Made, Positions, From, AllFrom, AllContent;
    hide Flatten, Concat;
    forall k | 0 <= k < |chunks|
      ensures MadeOf(nodes, title, limit, Made(chunks[k]), Positions(chunks[k]))
    {
      ChunkFrom(nodes, title, chunks, k);
      MadeFrom(nodes, title, limit, chunks[k]);
    }
    forall k | 0 < k < |chunks|
      ensures groups[k] != [] && Content(nodes, groups[k])
      ensures MustPart(nodes, Made(chunks[k - 1]), Made(chunks[k]), groups[k], limit)
    {
      ChunkFrom(nodes, title, chunks, k);
      PartedFrom(nodes, title, limit, chunks[k - 1], chunks[k]);
    }
  }
}
