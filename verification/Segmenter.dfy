/** Packing page nodes into segments: neighbours of one kind under one heading path, up to a size limit. */
module Segmenter {
  import opened Text
  import opened Dom

  datatype Segment = Segment(kind: string, headingPath: seq<string>, text: string, nodePaths: seq<string>)

  /** A node that is no heading, with the heading path it falls under and its position on the page. */
  datatype Item = Item(node: Node, path: seq<string>, at: nat)

  const GAP := "\n\n"
  const NUL := "\0"

  function NextHeadingPath(current: seq<string>, level: int, text: string): seq<string> {
    if level <= 0 then current
    else (if level - 1 < |current| then current[..level - 1] else current) + [text]
  }

  /** Heading paths are compared by their texts joined with NUL characters. */
  predicate SamePath(p: seq<string>, q: seq<string>) { Join(p, NUL) == Join(q, NUL) }

  predicate CanAppend(s: Segment, node: Node, path: seq<string>, limit: int) {
    s.kind == node.kind && SamePath(s.headingPath, path) && |s.text| + 2 + |node.text| <= limit
  }

  function Limit(maxSegmentChars: int): int { if maxSegmentChars <= 0 then 1200 else maxSegmentChars }

  predicate IsHeading(node: Node) { node.kind == "heading" }

  /** The heading path in force after some nodes. */
  function PathAfter(nodes: seq<Node>): seq<string> {
    if nodes == [] then []
    else
      var path, node := PathAfter(nodes[..|nodes| - 1]), nodes[|nodes| - 1];
      if IsHeading(node) then NextHeadingPath(path, node.headingLevel, node.text) else path
  }

  /** Outside any heading, the title of the page stands in for one. */
  function Target(path: seq<string>, title: string): seq<string> {
    if path == [] && Trim(title) != "" then [title] else path
  }

  function Items(nodes: seq<Node>, title: string): seq<Item> {
    if nodes == [] then []
    else
      var init, node := nodes[..|nodes| - 1], nodes[|nodes| - 1];
      Items(init, title) + if IsHeading(node) then [] else [Item(node, Target(PathAfter(init), title), |init|)]
  }

  // ----- chunks

  function Texts(chunk: seq<Item>): seq<string> { seq(|chunk|, i requires 0 <= i < |chunk| => chunk[i].node.text) }

  function Paths(chunk: seq<Item>): seq<string> { seq(|chunk|, i requires 0 <= i < |chunk| => chunk[i].node.path) }

  /** The segment made of a chunk of items. */
  function Made(chunk: seq<Item>): Segment
    requires chunk != []
  {
    Segment(chunk[0].node.kind, chunk[0].path, Join(Texts(chunk), GAP), Paths(chunk))
  }

  predicate Joins(chunk: seq<Item>, item: Item, limit: int)
    requires chunk != []
  {
    CanAppend(Made(chunk), item.node, item.path, limit)
  }

  /** An item joins the last chunk when it can, and starts a new one otherwise. */
  function Place(chunks: seq<seq<Item>>, item: Item, limit: int): seq<seq<Item>>
    requires forall k :: 0 <= k < |chunks| ==> chunks[k] != []
  {
    if chunks == [] || !Joins(chunks[|chunks| - 1], item, limit) then chunks + [[item]]
    else chunks[..|chunks| - 1] + [chunks[|chunks| - 1] + [item]]
  }

  function Greedy(items: seq<Item>, limit: int): (chunks: seq<seq<Item>>)
    ensures forall k :: 0 <= k < |chunks| ==> chunks[k] != []
  {
    if items == [] then [] else Place(Greedy(items[..|items| - 1], limit), items[|items| - 1], limit)
  }

  function AllMade(chunks: seq<seq<Item>>): seq<Segment>
    requires forall k :: 0 <= k < |chunks| ==> chunks[k] != []
  {
    seq(|chunks|, k requires 0 <= k < |chunks| => Made(chunks[k]))
  }

  function Segments(nodes: seq<Node>, title: string, maxSegmentChars: int): seq<Segment> {
    AllMade(Greedy(Items(nodes, title), Limit(maxSegmentChars)))
  }

  lemma MadeMore(chunk: seq<Item>, item: Item)
    requires chunk != []
    ensures var s := Made(chunk);
            Made(chunk + [item]) ==
              s.(text := s.text + GAP + item.node.text, nodePaths := s.nodePaths + [item.node.path])
  {
    assert Texts(chunk + [item]) == Texts(chunk) + [item.node.text];
    assert Paths(chunk + [item]) == Paths(chunk) + [item.node.path];
    JoinMore(Texts(chunk), item.node.text, GAP);
  }

  lemma MadeOne(item: Item)
    ensures Made([item]) == Segment(item.node.kind, item.path, item.node.text, [item.node.path])
  {
    assert Texts([item]) == [item.node.text] && Paths([item]) == [item.node.path];
  }

  /** The segments after one more node under a heading path. */
  function WithNode(segments: seq<Segment>, node: Node, path: seq<string>, limit: int): seq<Segment> {
    var n := |segments|;
    if n == 0 || !CanAppend(segments[n - 1], node, path, limit) then
      segments + [Segment(node.kind, path, node.text, [node.path])]
    else
      var s := segments[n - 1];
      segments[n - 1 := s.(text := s.text + GAP + node.text, nodePaths := s.nodePaths + [node.path])]
  }

  lemma PlaceItem(items: seq<Item>, item: Item, limit: int)
    ensures AllMade(Greedy(items + [item], limit)) ==
            WithNode(AllMade(Greedy(items, limit)), item.node, item.path, limit)
  {
    assert (items + [item])[..|items|] == items;
    var chunks := Greedy(items, limit);
    assert Greedy(items + [item], limit) == Place(chunks, item, limit);
    hide Greedy, CanAppend, Made;
    MadeOne(item);
    if chunks != [] { MadeMore(chunks[|chunks| - 1], item); }
  }

  lemma ItemsMore(nodes: seq<Node>, i: nat, title: string)
    requires i < |nodes|
    ensures PathAfter(nodes[..i + 1]) ==
            if IsHeading(nodes[i]) then NextHeadingPath(PathAfter(nodes[..i]), nodes[i].headingLevel, nodes[i].text)
            else PathAfter(nodes[..i])
    ensures Items(nodes[..i + 1], title) ==
            if IsHeading(nodes[i]) then Items(nodes[..i], title)
            else Items(nodes[..i], title) + [Item(nodes[i], Target(PathAfter(nodes[..i]), title), i)]
  {
    assert nodes[..i + 1][..i] == nodes[..i];
  }

  method AddNode(segments: seq<Segment>, node: Node, path: seq<string>, limit: int) returns (more: seq<Segment>)
    ensures more == WithNode(segments, node, path, limit)
  {
    if |segments| == 0 || !CanAppend(segments[|segments| - 1], node, path, limit) {
      return segments + [Segment(node.kind, path, node.text, [node.path])];
    }
    var current := segments[|segments| - 1];
    current := current.(text := current.text + GAP + node.text);
    current := current.(nodePaths := current.nodePaths + [node.path]);
    more := segments[|segments| - 1 := current];
  }

  lemma NoSegments(nodes: seq<Node>, title: string, limit: int)
    ensures PathAfter(nodes[..0]) == [] && AllMade(Greedy(Items(nodes[..0], title), limit)) == []
  {
  }

  method Segmented(nodes: seq<Node>, title: string, maxSegmentChars: int) returns (segments: seq<Segment>)
    ensures segments == Segments(nodes, title, maxSegmentChars)
  {
    var limit := maxSegmentChars;
    if limit <= 0 { limit := 1200; }
    var headingPath: seq<string> := [];
    segments := [];
    hide Greedy, WithNode, NextHeadingPath, Items, PathAfter, Trim, AllMade;
    NoSegments(nodes, title, limit);
    for i := 0 to |nodes|
      invariant headingPath == PathAfter(nodes[..i])
      invariant segments == AllMade(Greedy(Items(nodes[..i], title), limit))
    {
      var node := nodes[i];
      ItemsMore(nodes, i, title);
      if IsHeading(node) {
        headingPath := NextHeadingPath(headingPath, node.headingLevel, node.text);
        continue;
      }
      var targetPath := headingPath;
      if |targetPath| == 0 && Trim(title) != "" { targetPath := [title]; }
      PlaceItem(Items(nodes[..i], title), Item(node, targetPath, i), limit);
      segments := AddNode(segments, node, targetPath, limit);
    }
    assert nodes[..|nodes|] == nodes;
  }

  // ----- what the segments are

  function Flatten(chunks: seq<seq<Item>>): seq<Item> {
    if chunks == [] then [] else Flatten(chunks[..|chunks| - 1]) + chunks[|chunks| - 1]
  }

  /** One kind, one heading path, and within the limit unless the chunk is a single item. */
  predicate FitsTogether(chunk: seq<Item>, limit: int) {
    && chunk != []
    && (forall j :: 0 <= j < |chunk| ==>
          chunk[j].node.kind == chunk[0].node.kind && SamePath(chunk[0].path, chunk[j].path))
    && (|chunk| > 1 ==> |Join(Texts(chunk), GAP)| <= limit)
  }

  /** The chunks hold every item once, in order; each fits together; and no two neighbours could be merged. */
  ghost predicate Packs(chunks: seq<seq<Item>>, items: seq<Item>, limit: int) {
    && Flatten(chunks) == items
    && (forall k :: 0 <= k < |chunks| ==> FitsTogether(chunks[k], limit))
    && (forall k :: 0 < k < |chunks| ==> !Joins(chunks[k - 1], chunks[k][0], limit))
  }

  lemma FlattenMore(chunks: seq<seq<Item>>, chunk: seq<Item>)
    ensures Flatten(chunks + [chunk]) == Flatten(chunks) + chunk
  {
    assert (chunks + [chunk])[..|chunks|] == chunks;
  }

  lemma {:induction false} FlattenLast(chunks: seq<seq<Item>>)
    requires chunks != [] && chunks[|chunks| - 1] != []
    ensures Flatten(chunks) != []
  {
  }

  lemma JoinedFits(chunk: seq<Item>, item: Item, limit: int)
    requires FitsTogether(chunk, limit)
    ensures FitsTogether(chunk + [item], limit) <==> Joins(chunk, item, limit)
  {
    MadeMore(chunk, item);
    assert forall j :: 0 <= j < |chunk| ==> (chunk + [item])[j] == chunk[j];
    assert (chunk + [item])[|chunk|] == item;
  }

  lemma PrefixFits(chunk: seq<Item>, limit: int)
    requires |chunk| > 1 && FitsTogether(chunk, limit)
    ensures FitsTogether(chunk[..|chunk| - 1], limit)
  {
    var d, x := chunk[..|chunk| - 1], chunk[|chunk| - 1];
    assert chunk == d + [x];
    MadeMore(d, x);
  }

  /** An item that does not join the last chunk starts a new one. */
  lemma AddChunk(chunks: seq<seq<Item>>, items: seq<Item>, item: Item, limit: int)
    requires Packs(chunks, items, limit) && (chunks == [] || !Joins(chunks[|chunks| - 1], item, limit))
    ensures Packs(chunks + [[item]], items + [item], limit)
  {
    hide Joins, FitsTogether, Flatten;
    OneFits(item, limit);
    FlattenMore(chunks, [item]);
  }

  /** An item that joins the last chunk may be added to it. */
  lemma GrowChunk(init: seq<seq<Item>>, last: seq<Item>, items: seq<Item>, item: Item, limit: int)
    requires Packs(init + [last], items, limit) && last != [] && Joins(last, item, limit)
    ensures Packs(init + [last + [item]], items + [item], limit)
  {
    var before, after := init + [last], init + [last + [item]];
    assert forall k :: 0 <= k < |before| ==> before[k] != [];
    assert forall k :: 0 <= k < |init| ==> after[k] == before[k];
    hide Joins, FitsTogether, Flatten;
    FlattenMore(init, last);
    FlattenMore(init, last + [item]);
    assert before[|init|] == last;
    JoinedFits(last, item, limit);
    forall k | 0 <= k < |after| ensures FitsTogether(after[k], limit) && after[k][0] == before[k][0] {
      if k < |init| { assert after[k] == before[k]; }
    }
    forall k | 0 < k < |after| ensures !Joins(after[k - 1], after[k][0], limit) {
      assert after[k - 1] == before[k - 1];
    }
  }

  lemma {:induction false} GreedyPacks(items: seq<Item>, limit: int)
    ensures Packs(Greedy(items, limit), items, limit)
  {
    if items != [] {
      var init, item := items[..|items| - 1], items[|items| - 1];
      GreedyPacks(init, limit);
      var chunks := Greedy(init, limit);
      hide Joins, FitsTogether, Flatten, Packs;
      assert items == init + [item];
      if chunks == [] || !Joins(chunks[|chunks| - 1], item, limit) {
        AddChunk(chunks, init, item, limit);
      } else {
        assert chunks == chunks[..|chunks| - 1] + [chunks[|chunks| - 1]];
        GrowChunk(chunks[..|chunks| - 1], chunks[|chunks| - 1], init, item, limit);
      }
    }
  }

  lemma OneFits(item: Item, limit: int)
    ensures FitsTogether([item], limit)
  {
  }

  // ----- the packing is unique

  lemma DropChunk(chunks: seq<seq<Item>>, init: seq<seq<Item>>, items: seq<Item>, item: Item, limit: int)
    requires chunks == init + [[item]] && Packs(chunks, items + [item], limit)
    ensures Packs(init, items, limit)
    ensures init == [] || !Joins(init[|init| - 1], item, limit)
  {
    FlattenMore(init, [item]);
    assert forall k :: 0 <= k < |init| ==> init[k] == chunks[k];
    hide Joins, FitsTogether, Flatten;
    assert chunks[|init|][0] == item;
    assert (items + [item])[..|items|] == items && (Flatten(init) + [item])[..|Flatten(init)|] == Flatten(init);
  }

  lemma ShrinkChunk(chunks: seq<seq<Item>>, init: seq<seq<Item>>, last: seq<Item>, items: seq<Item>,
                    item: Item, limit: int)
    requires chunks == init + [last + [item]] && last != [] && Packs(chunks, items + [item], limit)
    ensures Packs(init + [last], items, limit) && Joins(last, item, limit)
  {
    var before := init + [last];
    FlattenMore(init, last);
    FlattenMore(init, last + [item]);
    assert chunks[|init|] == last + [item] && chunks[|init|][0] == last[0];
    assert (last + [item])[..|last|] == last;
    PrefixFits(last + [item], limit);
    JoinedFits(last, item, limit);
    assert forall k :: 0 <= k < |init| ==> before[k] == chunks[k];
    hide Joins, FitsTogether, Flatten;
    assert Flatten(before) + [item] == items + [item];
    assert (items + [item])[..|items|] == items && (Flatten(before) + [item])[..|Flatten(before)|] == Flatten(before);
  }

  lemma EndsWithNew(chunks: seq<seq<Item>>, fore: seq<seq<Item>>, init: seq<Item>, item: Item, limit: int)
    requires Packs(chunks, init + [item], limit) && chunks == fore + [[item]]
    ensures Packs(fore, init, limit) && (forall k :: 0 <= k < |fore| ==> fore[k] != [])
    ensures chunks == Place(fore, item, limit)
  {
    hide Joins, FitsTogether, Flatten, Packs;
    DropChunk(chunks, fore, init, item, limit);
    PacksNonEmpty(fore, init, limit);
  }

  lemma EndsWithGrown(chunks: seq<seq<Item>>, fore: seq<seq<Item>>, d: seq<Item>, init: seq<Item>,
                      item: Item, limit: int)
    requires Packs(chunks, init + [item], limit) && chunks == fore + [d + [item]] && d != []
    ensures Packs(fore + [d], init, limit) && (forall k :: 0 <= k < |fore + [d]| ==> (fore + [d])[k] != [])
    ensures chunks == Place(fore + [d], item, limit)
  {
    hide Joins, FitsTogether, Flatten, Packs;
    ShrinkChunk(chunks, fore, d, init, item, limit);
    PacksNonEmpty(fore + [d], init, limit);
    var before := fore + [d];
    assert before[|before| - 1] == d && before[..|before| - 1] == fore;
  }

  /** A packing of items and one more places the last one in a packing of the others. */
  lemma PackingEnds(chunks: seq<seq<Item>>, init: seq<Item>, item: Item, limit: int) returns (before: seq<seq<Item>>)
    requires Packs(chunks, init + [item], limit)
    ensures Packs(before, init, limit) && (forall k :: 0 <= k < |before| ==> before[k] != [])
    ensures chunks == Place(before, item, limit)
  {
    NonEmptyPacking(chunks, init + [item], limit);
    LastItem(chunks, init + [item]);
    hide Joins, FitsTogether, Flatten, Packs, Place;
    var fore, last := chunks[..|chunks| - 1], chunks[|chunks| - 1];
    var d := last[..|last| - 1];
    assert chunks == fore + [last] && last == d + [item];
    if d == [] {
      EndsWithNew(chunks, fore, init, item, limit);
      before := fore;
    } else {
      EndsWithGrown(chunks, fore, d, init, item, limit);
      before := fore + [d];
    }
  }

  lemma PacksNonEmpty(chunks: seq<seq<Item>>, items: seq<Item>, limit: int)
    requires Packs(chunks, items, limit)
    ensures forall k :: 0 <= k < |chunks| ==> chunks[k] != []
  {
  }

  /** Only one packing meets the rules, and it is the greedy one. */
  lemma {:induction false} PackingIsUnique(chunks: seq<seq<Item>>, items: seq<Item>, limit: int)
    ensures Packs(chunks, items, limit) <==> chunks == Greedy(items, limit)
    decreases |items|
  {
    GreedyPacks(items, limit);
    if Packs(chunks, items, limit) {
      if items == [] {
        if chunks != [] { FlattenLast(chunks); }
      } else {
        var init, item := items[..|items| - 1], items[|items| - 1];
        assert items == init + [item];
        hide Joins, FitsTogether, Flatten, Packs;
        var before := PackingEnds(chunks, init, item, limit);
        PackingIsUnique(before, init, limit);
      }
    }
  }

  lemma NonEmptyPacking(chunks: seq<seq<Item>>, items: seq<Item>, limit: int)
    requires Packs(chunks, items, limit) && items != []
    ensures chunks != [] && chunks[|chunks| - 1] != []
  {
    assert FitsTogether(chunks[|chunks| - 1], limit);
  }

  lemma LastItem(chunks: seq<seq<Item>>, items: seq<Item>)
    requires Flatten(chunks) == items && chunks != [] && chunks[|chunks| - 1] != []
    ensures items != [] && items[|items| - 1] == chunks[|chunks| - 1][|chunks[|chunks| - 1]| - 1]
  {
  }

  // ----- what the segments keep

  function SegmentPaths(segments: seq<Segment>): seq<string> {
    if segments == [] then []
    else SegmentPaths(segments[..|segments| - 1]) + segments[|segments| - 1].nodePaths
  }

  function ContentPaths(nodes: seq<Node>): seq<string> {
    if nodes == [] then []
    else ContentPaths(nodes[..|nodes| - 1]) + if IsHeading(nodes[|nodes| - 1]) then [] else [nodes[|nodes| - 1].path]
  }

  lemma {:induction false} MadePaths(chunks: seq<seq<Item>>)
    requires forall k :: 0 <= k < |chunks| ==> chunks[k] != []
    ensures SegmentPaths(AllMade(chunks)) == Paths(Flatten(chunks))
  {
    if chunks != [] {
      var init := chunks[..|chunks| - 1];
      MadePaths(init);
      assert AllMade(chunks)[..|chunks| - 1] == AllMade(init);
      assert Paths(Flatten(chunks)) == Paths(Flatten(init)) + Paths(chunks[|chunks| - 1]);
    }
  }

  lemma {:induction false} ItemPaths(nodes: seq<Node>, title: string)
    ensures Paths(Items(nodes, title)) == ContentPaths(nodes)
  {
    if nodes != [] {
      ItemPaths(nodes[..|nodes| - 1], title);
    }
  }

  lemma MadeFits(chunk: seq<Item>, limit: int)
    requires FitsTogether(chunk, limit)
    ensures |Made(chunk).nodePaths| > 1 ==> |Made(chunk).text| <= limit
  {
  }

  lemma PackedItems(items: seq<Item>, limit: int, k: nat)
    ensures Flatten(Greedy(items, limit)) == items
    ensures k < |Greedy(items, limit)| ==> FitsTogether(Greedy(items, limit)[k], limit)
  {
    GreedyPacks(items, limit);
  }

  /** Every node that is no heading is in exactly one segment, in page order. */
  lemma SegmentsKeepNodes(nodes: seq<Node>, title: string, maxSegmentChars: int)
    ensures SegmentPaths(Segments(nodes, title, maxSegmentChars)) == ContentPaths(nodes)
  {
    hide Greedy, Items, Flatten, Limit, SegmentPaths, ContentPaths, Paths, AllMade;
    var limit, items := Limit(maxSegmentChars), Items(nodes, title);
    PackedItems(items, limit, 0);
    MadePaths(Greedy(items, limit));
    ItemPaths(nodes, title);
  }

  function SegmentTexts(segments: seq<Segment>): seq<string> {
    seq(|segments|, i requires 0 <= i < |segments| => segments[i].text)
  }

  function ContentTexts(nodes: seq<Node>): seq<string> {
    if nodes == [] then []
    else ContentTexts(nodes[..|nodes| - 1]) + if IsHeading(nodes[|nodes| - 1]) then [] else [nodes[|nodes| - 1].text]
  }

  lemma LastTexts(chunks: seq<seq<Item>>, init: seq<seq<Item>>, last: seq<Item>)
    requires chunks == init + [last] && last != []
    requires forall k :: 0 <= k < |init| ==> init[k] != []
    ensures SegmentTexts(AllMade(chunks)) == SegmentTexts(AllMade(init)) + [Join(Texts(last), GAP)]
    ensures Texts(Flatten(chunks)) == Texts(Flatten(init)) + Texts(last)
  {
    hide Join;
    FlattenMore(init, last);
  }

  lemma MoreWords(before: seq<string>, texts: seq<string>)
    ensures AllFields(before + [Join(texts, GAP)]) == AllFields(before) + AllFields(texts)
  {
    var joined := Join(texts, GAP);
    FieldsJoin(texts, GAP);
    AllFieldsConcat(before, [joined]);
    hide Join, Fields;
    assert [joined][1..] == [] && AllFields([]) == [];
  }

  lemma {:induction false} MadeWords(chunks: seq<seq<Item>>)
    requires forall k :: 0 <= k < |chunks| ==> chunks[k] != []
    ensures AllFields(SegmentTexts(AllMade(chunks))) == AllFields(Texts(Flatten(chunks)))
  {
    if chunks != [] {
      hide AllFields, Join, SegmentTexts, AllMade, Texts, Flatten;
      var init, last := chunks[..|chunks| - 1], chunks[|chunks| - 1];
      MadeWords(init);
      assert chunks == init + [last];
      LastTexts(chunks, init, last);
      MoreWords(SegmentTexts(AllMade(init)), Texts(last));
      AllFieldsConcat(Texts(Flatten(init)), Texts(last));
    } else {
      assert SegmentTexts(AllMade(chunks)) == [] && Texts(Flatten(chunks)) == [];
    }
  }

  lemma {:induction false} ItemTexts(nodes: seq<Node>, title: string)
    ensures Texts(Items(nodes, title)) == ContentTexts(nodes)
  {
    if nodes != [] {
      ItemTexts(nodes[..|nodes| - 1], title);
    }
  }

  /** The words of the segments, read in order, are the words of the nodes that are no headings. */
  lemma SegmentsKeepWords(nodes: seq<Node>, title: string, maxSegmentChars: int)
    ensures AllFields(SegmentTexts(Segments(nodes, title, maxSegmentChars))) == AllFields(ContentTexts(nodes))
  {
    hide Greedy, Items, Flatten, Limit, SegmentTexts, ContentTexts, Texts, AllMade, AllFields;
    var limit, items := Limit(maxSegmentChars), Items(nodes, title);
    PackedItems(items, limit, 0);
    MadeWords(Greedy(items, limit));
    ItemTexts(nodes, title);
  }

  /** A segment made of more than one node is within the limit. */
  lemma SegmentsFit(nodes: seq<Node>, title: string, maxSegmentChars: int, k: nat)
    requires k < |Segments(nodes, title, maxSegmentChars)|
    ensures var s := Segments(nodes, title, maxSegmentChars)[k];
            |s.nodePaths| > 1 ==> |s.text| <= Limit(maxSegmentChars)
  {
    hide Greedy, Items, Limit, FitsTogether, Made;
    var limit, items := Limit(maxSegmentChars), Items(nodes, title);
    PackedItems(items, limit, k);
    MadeFits(Greedy(items, limit)[k], limit);
  }

  // ----- heading paths

  predicate Plain(path: seq<string>) { forall i :: 0 <= i < |path| ==> '\0' !in path[i] }

  lemma {:induction false} FirstNul(a: string, x: string, b: string, y: string)
    requires '\0' !in a && '\0' !in b && a + NUL + x == b + NUL + y
    ensures a == b && x == y
  {
    var s := a + NUL + x;
    assert s[|a|] == '\0' && s[|b|] == '\0';
    assert a == s[..|a|] && b == s[..|b|] && x == s[|a| + 1..] && y == s[|b| + 1..];
  }

  predicate NoText(path: seq<string>) { path == [] || path == [""] }

  /** Paths of texts without NUL compare equal exactly when they are, but for no heading and one empty heading. */
  lemma {:induction false} SamePathIffEqual(p: seq<string>, q: seq<string>)
    requires Plain(p) && Plain(q)
    ensures SamePath(p, q) <==> p == q || (NoText(p) && NoText(q))
    decreases |p|
  {
    if |p| > 1 && |q| > 1 {
      SamePathIffEqual(p[1..], q[1..]);
      if SamePath(p, q) { FirstNul(p[0], Join(p[1..], NUL), q[0], Join(q[1..], NUL)); }
      assert p == [p[0]] + p[1..] && q == [q[0]] + q[1..];
    } else if |p| > 1 {
      assert '\0' in Join(p, NUL) by { assert Join(p, NUL)[|p[0]|] == '\0'; }
    } else if |q| > 1 {
      assert '\0' in Join(q, NUL) by { assert Join(q, NUL)[|q[0]|] == '\0'; }
    } else {
      assert |p| == 1 ==> p == [p[0]];
      assert |q| == 1 ==> q == [q[0]];
    }
  }

  /**
   * A heading takes the place of the heading of its own level before it exactly when the path had
   * reached the level above; after a skipped level the second one nests under the first.
   */
  lemma SiblingHeadings(path: seq<string>, level: int, a: string, b: string)
    ensures NextHeadingPath(NextHeadingPath(path, level, a), level, b) == NextHeadingPath(path, level, b) <==>
            level <= |path| + 1
  {
    var once := NextHeadingPath(path, level, a);
    if 0 < level <= |path| + 1 {
      assert once[..level - 1] == path[..level - 1];
      if level - 1 == |path| { assert path[..level - 1] == path; }
    }
  }

  // ----- outlines

  datatype Entry = Entry(level: int, text: string)

  function EntryTexts(entries: seq<Entry>): seq<string> {
    seq(|entries|, i requires 0 <= i < |entries| => entries[i].text)
  }

  /** The headings of a page that have a level, in order. */
  function Headings(nodes: seq<Node>): seq<Entry> {
    if nodes == [] then []
    else
      var x := nodes[|nodes| - 1];
      Headings(nodes[..|nodes| - 1])
      + if IsHeading(x) && x.headingLevel > 0 then [Entry(x.headingLevel, x.text)] else []
  }

  /** No later entry is at the level of the first one or above. */
  predicate StaysOpen(entries: seq<Entry>) {
    entries != [] && forall i :: 1 <= i < |entries| ==> entries[0].level < entries[i].level
  }

  function FirstIfOpen(entries: seq<Entry>): seq<Entry> { if StaysOpen(entries) then [entries[0]] else [] }

  /** The entries that no later entry of their level or above closes. */
  function Open(entries: seq<Entry>): seq<Entry> {
    if entries == [] then [] else FirstIfOpen(entries) + Open(entries[1..])
  }

  /** The outline of a page: the headings that are still open. */
  function Outline(nodes: seq<Node>): seq<Entry> { Open(Headings(nodes)) }

  /** The heading path, with the level of each heading on it. */
  function PathEntries(nodes: seq<Node>): seq<Entry> {
    if nodes == [] then []
    else
      var path, x := PathEntries(nodes[..|nodes| - 1]), nodes[|nodes| - 1];
      if IsHeading(x) && x.headingLevel > 0 then Kept(path, x.headingLevel) + [Entry(x.headingLevel, x.text)] else path
  }

  /** What a heading of this level keeps of the path. */
  function Kept(path: seq<Entry>, level: int): seq<Entry>
    requires level > 0
  {
    if level - 1 < |path| then path[..level - 1] else path
  }

  lemma {:induction false} PathHasEntries(nodes: seq<Node>)
    ensures PathAfter(nodes) == EntryTexts(PathEntries(nodes))
  {
    if nodes != [] {
      var init, x := nodes[..|nodes| - 1], nodes[|nodes| - 1];
      PathHasEntries(init);
      if IsHeading(x) && x.headingLevel > 0 {
        var path := PathEntries(init);
        assert EntryTexts(Kept(path, x.headingLevel) + [Entry(x.headingLevel, x.text)]) ==
               EntryTexts(Kept(path, x.headingLevel)) + [x.text];
        assert EntryTexts(Kept(path, x.headingLevel)) ==
               if x.headingLevel - 1 < |path| then EntryTexts(path)[..x.headingLevel - 1] else EntryTexts(path);
      }
    }
  }

  function Above(entries: seq<Entry>, level: int): seq<Entry> {
    if entries == [] then []
    else (if entries[0].level < level then [entries[0]] else []) + Above(entries[1..], level)
  }

  lemma {:induction false} AboveConcat(a: seq<Entry>, b: seq<Entry>, level: int)
    ensures Above(a + b, level) == Above(a, level) + Above(b, level)
  {
    if a == [] {
      assert a + b == b;
    } else {
      assert (a + b)[1..] == a[1..] + b;
      AboveConcat(a[1..], b, level);
    }
  }

  /** Keeping what is above one level and then above a higher one is keeping what is above the higher one. */
  lemma {:induction false} AboveTwice(entries: seq<Entry>, low: int, high: int)
    requires high <= low
    ensures Above(Above(entries, low), high) == Above(entries, high)
  {
    if entries != [] {
      var first := if entries[0].level < low then [entries[0]] else [];
      AboveConcat(first, Above(entries[1..], low), high);
      AboveTwice(entries[1..], low, high);
      if entries[0].level < low { assert first[1..] == [] && Above([], high) == []; }
    }
  }

  lemma FirstAbove(entries: seq<Entry>, e: Entry)
    requires entries != []
    ensures FirstIfOpen(entries + [e]) == Above(FirstIfOpen(entries), e.level)
  {
    var all := entries + [e];
    assert all[0] == entries[0] && all[|entries|] == e;
    assert forall i :: 1 <= i < |entries| ==> all[i] == entries[i];
    if StaysOpen(entries) { assert [entries[0]][1..] == [] && Above([], e.level) == []; }
  }

  /** An entry closes what is not above it. */
  lemma {:induction false} OpenMore(entries: seq<Entry>, e: Entry)
    ensures Open(entries + [e]) == Above(Open(entries), e.level) + [e]
  {
    var all := entries + [e];
    if entries == [] {
      OpenOne(e);
      assert all == [e];
    } else {
      assert all[1..] == entries[1..] + [e];
      OpenMore(entries[1..], e);
      FirstAbove(entries, e);
      AboveConcat(FirstIfOpen(entries), Open(entries[1..]), e.level);
      hide FirstIfOpen, Above;
    }
  }

  lemma OpenOne(e: Entry)
    ensures Open([e]) == [e] && Above(Open([]), e.level) == []
  {
    assert [e][1..] == [] && StaysOpen([e]);
  }

  /** Entries at a level or below it hide nothing above that level. */
  lemma {:induction false} DeeperHidesNothing(entries: seq<Entry>, more: seq<Entry>, level: int)
    requires forall i :: 0 <= i < |more| ==> level <= more[i].level
    ensures Above(Open(entries + more), level) == Above(Open(entries), level)
    decreases |more|
  {
    if more == [] {
      assert entries + more == entries;
    } else {
      var init, e := more[..|more| - 1], more[|more| - 1];
      assert entries + more == (entries + init) + [e];
      DeeperHidesNothing(entries, init, level);
      OpenMore(entries + init, e);
      AboveConcat(Above(Open(entries + init), e.level), [e], level);
      AboveTwice(Open(entries + init), e.level, level);
      assert [e][1..] == [] && Above([], level) == [];
    }
  }

  /** An entry is at least as deep as its place on the path. */
  predicate Deep(path: seq<Entry>) { forall i :: 0 <= i < |path| ==> i < path[i].level }

  lemma KeptIsEnough(path: seq<Entry>, level: int)
    requires Deep(path) && level > 0
    ensures Above(Open(Kept(path, level)), level) == Above(Open(path), level)
  {
    if level - 1 < |path| {
      assert path == path[..level - 1] + path[level - 1..];
      DeeperHidesNothing(path[..level - 1], path[level - 1..], level);
    }
  }

  /** A heading changes the outline and the path alike. */
  lemma HeadingOpens(headings: seq<Entry>, path: seq<Entry>, e: Entry)
    requires Open(headings) == Open(path) && Deep(path) && e.level > 0
    ensures Open(headings + [e]) == Open(Kept(path, e.level) + [e]) && Deep(Kept(path, e.level) + [e])
  {
    hide Open, Above;
    OpenMore(headings, e);
    OpenMore(Kept(path, e.level), e);
    KeptIsEnough(path, e.level);
  }

  /** On every page the outline is what is still open on the heading path. */
  lemma {:induction false} OutlineIsOnPath(nodes: seq<Node>)
    ensures Outline(nodes) == Open(PathEntries(nodes)) && Deep(PathEntries(nodes))
  {
    if nodes != [] {
      hide Open, Kept, Deep;
      var init, x := nodes[..|nodes| - 1], nodes[|nodes| - 1];
      OutlineIsOnPath(init);
      if IsHeading(x) && x.headingLevel > 0 {
        HeadingOpens(Headings(init), PathEntries(init), Entry(x.headingLevel, x.text));
      } else {
        assert Headings(init) + [] == Headings(init);
      }
    }
  }

  predicate Increasing(path: seq<Entry>) { forall i, j :: 0 <= i < j < |path| ==> path[i].level < path[j].level }

  /** All entries stay open exactly when the levels strictly increase; otherwise some entry is lost. */
  lemma {:induction false} OpenKeepsAll(path: seq<Entry>)
    ensures |Open(path)| <= |path|
    ensures |Open(path)| == |path| <==> Increasing(path)
    ensures Increasing(path) ==> Open(path) == path
  {
    if path != [] {
      OpenKeepsAll(path[1..]);
      assert path == [path[0]] + path[1..];
      assert Increasing(path) <==> StaysOpen(path) && Increasing(path[1..]) by {
        if StaysOpen(path) && Increasing(path[1..]) {
          forall i, j | 0 <= i < j < |path| ensures path[i].level < path[j].level {
            if i > 0 { assert path[i] == path[1..][i - 1] && path[j] == path[1..][j - 1]; }
          }
        }
        if Increasing(path) {
          forall i, j | 0 <= i < j < |path[1..]| ensures path[1..][i].level < path[1..][j].level {
            assert path[1..][i] == path[i + 1] && path[1..][j] == path[j + 1];
          }
        }
      }
    }
  }

  /** The heading path is the outline of the page exactly when the levels along it strictly increase. */
  lemma PathIsOutline(nodes: seq<Node>)
    ensures PathAfter(nodes) == EntryTexts(Outline(nodes)) <==> Increasing(PathEntries(nodes))
  {
    PathHasEntries(nodes);
    OutlineIsOnPath(nodes);
    OpenKeepsAll(PathEntries(nodes));
  }
}
