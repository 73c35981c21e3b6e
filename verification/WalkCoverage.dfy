/** What text the walk keeps, and how often. */
module WalkCoverage {
  import opened Wrappers
  import opened Text
  import opened Dom
  import opened DomWalker

  // ----- the words of a page, counted by the owners above them

  function Occurrences(words: seq<string>, w: string): nat {
    if words == [] then 0 else (if words[0] == w then 1 else 0) + Occurrences(words[1..], w)
  }

  /** The words of the leaves below a node that no skipped element hides, in document order. */
  function VisibleWords(node: Html): seq<string>
    decreases node
  {
    match node
    case Text(data) => Fields(data)
    case Other => []
    case Element(data, attrs, first) => if Skipped(ToLower(data), attrs) then [] else AllVisibleWords(first)
  }

  function AllVisibleWords(nodes: Siblings): seq<string>
    decreases nodes
  {
    if nodes.End? then [] else VisibleWords(nodes.node) + AllVisibleWords(nodes.next)
  }

  function Max(a: int, b: int): int { if a < b then b else a }

  /** How often w has to appear: each visible leaf once for every text owner above it, but at least once. */
  function Due(node: Html, owners: nat, w: string): nat
    decreases node
  {
    match node
    case Text(data) => Max(1, owners) * Occurrences(Fields(data), w)
    case Other => 0
    case Element(data, attrs, first) =>
      if Skipped(ToLower(data), attrs) then 0
      else DueBelow(first, if TextKind(ToLower(data)).Some? then owners + 1 else owners, w)
  }

  function DueBelow(nodes: Siblings, owners: nat, w: string): nat
    decreases nodes
  {
    if nodes.End? then 0 else Due(nodes.node, owners, w) + DueBelow(nodes.next, owners, w)
  }

  predicate IsContext(n: Node) { n.kind in {"context", "navigation", "asset_reference"} }

  /** How often w appears in the text nodes, those kept for context aside. */
  function Found(nodes: seq<Node>, w: string): nat {
    if nodes == [] then 0
    else (if IsContext(nodes[0]) then 0 else Occurrences(Fields(nodes[0].text), w)) + Found(nodes[1..], w)
  }

  lemma {:induction false} OccurrencesConcat(a: seq<string>, b: seq<string>, w: string)
    ensures Occurrences(a + b, w) == Occurrences(a, w) + Occurrences(b, w)
  {
    if a == [] {
      assert a + b == b;
    } else {
      assert (a + b)[1..] == a[1..] + b;
      OccurrencesConcat(a[1..], b, w);
    }
  }

  lemma {:induction false} FoundConcat(a: seq<Node>, b: seq<Node>, w: string)
    ensures Found(a + b, w) == Found(a, w) + Found(b, w)
  {
    if a == [] {
      assert a + b == b;
    } else {
      assert (a + b)[1..] == a[1..] + b;
      FoundConcat(a[1..], b, w);
    }
  }

  // ----- the text of one node

  lemma LeafTextWords(data: string)
    ensures AllFields(LeafText(data)) == Fields(data)
  {
    var t := NormalizeWhitespace(data);
    FieldsNormalize(data);
    if t != "" {
      assert LeafText(data)[1..] == [];
      assert AllFields([]) == [];
    }
  }

  lemma {:induction false} TextPartsWords(node: Html)
    ensures AllFields(TextParts(node)) == VisibleWords(node)
    decreases node
  {
    match node
    case Text(data) => LeafTextWords(data);
    case Other =>
    case Element(data, attrs, first) =>
      if !Skipped(ToLower(data), attrs) { AllTextPartsWords(first); }
  }

  lemma {:induction false} AllTextPartsWords(nodes: Siblings)
    ensures AllFields(AllTextParts(nodes)) == AllVisibleWords(nodes)
    decreases nodes
  {
    if nodes.Sibling? {
      TextPartsWords(nodes.node);
      AllTextPartsWords(nodes.next);
      AllFieldsConcat(TextParts(nodes.node), AllTextParts(nodes.next));
    }
  }

  /** The text extracted from a node has exactly its visible words, in document order. */
  lemma ExtractTextWords(node: Html)
    ensures Fields(NormalizeWhitespace(ExtractText(node))) == VisibleWords(node)
  {
    FieldsNormalize(ExtractText(node));
    FieldsJoin(TextParts(node), " ");
    TextPartsWords(node);
  }

  lemma TextNodesFound(node: Html, path: seq<string>, tag: string, kind: string, w: string)
    requires kind !in {"context", "navigation", "asset_reference"}
    ensures Found(TextNodes(node, path, tag, kind), w) == Occurrences(VisibleWords(node), w)
  {
    ExtractTextWords(node);
    var nodes := TextNodes(node, path, tag, kind);
    if nodes != [] { assert nodes[1..] == []; }
  }

  lemma ContextNodesNotFound(node: Html, path: seq<string>, tag: string, preserved: nat, w: string)
    ensures Found(ContextNodes(node, path, tag, preserved), w) == 0
  {
    var nodes := ContextNodes(node, path, tag, preserved);
    if nodes != [] { assert nodes[1..] == []; }
  }

  lemma TextKindIsNoContext(tag: string)
    ensures TextKind(tag).Some? ==> TextKind(tag).value !in {"context", "navigation", "asset_reference"}
  {
    var kinds := ["heading", "paragraph", "list_item", "code", "table_cell"];
    assert forall i :: 0 <= i < 5 ==> |kinds[i]| != |"context"| || kinds[i][0] != 'c';
    assert |"heading"| == 7 && |"navigation"| == 10 && |"asset_reference"| == 15 && |"table_cell"| == 10;
    assert "table_cell"[0] != "navigation"[0];
  }

  // ----- coverage

  /** Occurrences that k covering owners account for. */
  function Times(k: nat, n: nat): nat { k * n }

  lemma TimesSum(k: nat, a: nat, b: nat)
    ensures Times(k, a + b) == Times(k, a) + Times(k, b)
  {
  }

  /** The balance for a node and for its later siblings adds up to that for all of them. */
  lemma Balance(node: Html, next: Siblings, owners: nat, here: seq<Node>, later: seq<Node>, w: string)
    requires Found(here, w) + Times(owners, Occurrences(VisibleWords(node), w)) == Due(node, owners, w)
    requires Found(later, w) + Times(owners, Occurrences(AllVisibleWords(next), w)) == DueBelow(next, owners, w)
    ensures Found(here + later, w) + Times(owners, Occurrences(VisibleWords(node) + AllVisibleWords(next), w)) ==
            Due(node, owners, w) + DueBelow(next, owners, w)
  {
    hide Found, Times, Occurrences, Due, DueBelow, VisibleWords, AllVisibleWords;
    FoundConcat(here, later, w);
    OccurrencesConcat(VisibleWords(node), AllVisibleWords(next), w);
    TimesSum(owners, Occurrences(VisibleWords(node), w), Occurrences(AllVisibleWords(next), w));
  }

  lemma OtherIsSilent(nodes: Siblings, owners: nat, w: string)
    requires nodes.Sibling? && nodes.node.Other?
    ensures AllVisibleWords(nodes) == AllVisibleWords(nodes.next)
            && DueBelow(nodes, owners, w) == DueBelow(nodes.next, owners, w)
  {
    assert VisibleWords(nodes.node) + AllVisibleWords(nodes.next) == AllVisibleWords(nodes.next);
  }

  /** Words found below a node, beside those that `owners` covering ancestors already account for. */
  lemma {:induction false} WalkFinds(parent: string, nodes: Siblings, counts: map<string, nat>, path: seq<string>,
                                     owners: nat, preserved: nat, w: string)
    ensures Found(Walk(parent, nodes, counts, path, owners > 0, preserved).nodes, w)
            + Times(owners, Occurrences(AllVisibleWords(nodes), w)) == DueBelow(nodes, owners, w)
    decreases nodes
  {
    if nodes.End? {
    } else if nodes.node.Other? {
      WalkFinds(parent, nodes.next, counts, path, owners, preserved, w);
      OtherIsSilent(nodes, owners, w);
    } else {
      hide WalkChild, Times, Found, Occurrences, Due, VisibleWords;
      var name := Name(nodes.node);
      var n := CountOf(counts, name) + 1;
      var here := path + [Numbered(name, n)];
      var child := WalkChild(parent, nodes.node, here, owners > 0, preserved);
      ChildFinds(parent, nodes.node, here, owners, preserved, w);
      WalkFinds(parent, nodes.next, counts[name := n], path, owners, child.preserved, w);
      var later := Walk(parent, nodes.next, counts[name := n], path, owners > 0, child.preserved).nodes;
      Balance(nodes.node, nodes.next, owners, child.nodes, later, w);
    }
  }

  lemma {:induction false} ChildFinds(parent: string, node: Html, path: seq<string>, owners: nat, preserved: nat,
                                      w: string)
    requires !node.Other?
    ensures Found(WalkChild(parent, node, path, owners > 0, preserved).nodes, w)
            + Times(owners, Occurrences(VisibleWords(node), w)) == Due(node, owners, w)
    decreases node, 1
  {
    if node.Text? {
      TextNodesFound(node, path, parent, "paragraph", w);
    } else {
      ElementFinds(node, path, owners, preserved, w);
    }
  }

  lemma {:induction false} ElementFinds(node: Html, path: seq<string>, owners: nat, preserved: nat, w: string)
    requires node.Element?
    ensures Found(WalkElement(node, path, owners > 0, preserved).nodes, w)
            + Times(owners, Occurrences(VisibleWords(node), w)) == Due(node, owners, w)
    decreases node, 0
  {
    var tag := ToLower(node.data);
    if Skipped(tag, node.attrs) {
      ContextNodesNotFound(node, path, tag, preserved, w);
    } else if TextKind(tag).Some? {
      var own := TextNodes(node, path, tag, TextKind(tag).value);
      var below := Walk(node.data, node.first, map[], path, true, preserved).nodes;
      TextKindIsNoContext(tag);
      TextNodesFound(node, path, tag, TextKind(tag).value, w);
      WalkFinds(node.data, node.first, map[], path, owners + 1, preserved, w);
      FoundConcat(own, below, w);
      assert (owners + 1) * Occurrences(VisibleWords(node), w) ==
             owners * Occurrences(VisibleWords(node), w) + Occurrences(VisibleWords(node), w);
    } else {
      WalkFinds(node.data, node.first, map[], path, owners, preserved, w);
      assert [] + Walk(node.data, node.first, map[], path, owners > 0, preserved).nodes ==
             Walk(node.data, node.first, map[], path, owners > 0, preserved).nodes;
    }
  }

  /**
   * Every word of a visible leaf appears once for each element above it that owns text, and once
   * when there is none; a word below a skipped element appears in no text node.
   */
  lemma BodyIsCovered(body: string, first: Siblings, w: string)
    ensures Found(Walk(body, first, map[], [], false, 0).nodes, w) == DueBelow(first, 0, w)
  {
    WalkFinds(body, first, map[], [], 0, 0, w);
  }

  // ----- nodes kept for context

  function Contexts(nodes: seq<Node>): nat {
    if nodes == [] then 0 else (if IsContext(nodes[0]) then 1 else 0) + Contexts(nodes[1..])
  }

  lemma {:induction false} ContextsConcat(a: seq<Node>, b: seq<Node>)
    ensures Contexts(a + b) == Contexts(a) + Contexts(b)
  {
    if a == [] {
      assert a + b == b;
    } else {
      assert (a + b)[1..] == a[1..] + b;
      ContextsConcat(a[1..], b);
    }
  }

  lemma OneNode(nodes: seq<Node>)
    requires |nodes| <= 1
    ensures Contexts(nodes) == if nodes != [] && IsContext(nodes[0]) then 1 else 0
  {
    if nodes != [] { assert nodes[1..] == []; }
  }

  /** An element that is skipped but kept for context while there is room: its kind, and 25 bytes of text at least. */
  predicate WorthKeeping(tag: string, node: Html) {
    tag in {"aside", "footer", "form", "nav", "svg"}
    && 25 <= |NormalizeWhitespace(Join(ContextParts(node, tag), " "))|
  }

  /** How many such elements there are, not counting below skipped ones. */
  function Keepable(node: Html): nat
    decreases node
  {
    match node
    case Text(_) => 0
    case Other => 0
    case Element(data, attrs, first) =>
      if !Skipped(ToLower(data), attrs) then AllKeepable(first)
      else if WorthKeeping(ToLower(data), node) then 1 else 0
  }

  function AllKeepable(nodes: Siblings): nat
    decreases nodes
  {
    if nodes.End? then 0 else Keepable(nodes.node) + AllKeepable(nodes.next)
  }

  function UpToEight(n: nat): nat { if n < 8 then n else 8 }

  lemma {:induction false} ElementContexts(node: Html, path: seq<string>, covered: bool, preserved: nat)
    requires node.Element? && preserved <= 8
    ensures var w := WalkElement(node, path, covered, preserved);
            Contexts(w.nodes) == w.preserved - preserved && w.preserved == UpToEight(preserved + Keepable(node))
    decreases node, 0
  {
    var tag := ToLower(node.data);
    OneNode(ContextNodes(node, path, tag, preserved));
    if !Skipped(tag, node.attrs) {
      var kind := TextKind(tag);
      var own := if kind.Some? then TextNodes(node, path, tag, kind.value) else [];
      TextKindIsNoContext(tag);
      OneNode(own);
      WalkContexts(node.data, node.first, map[], path, covered || kind.Some?, preserved);
      ContextsConcat(own, Walk(node.data, node.first, map[], path, covered || kind.Some?, preserved).nodes);
    }
  }

  lemma OthersAreNotKept(node: Html)
    requires node.Other?
    ensures Keepable(node) == 0
  {
  }

  lemma {:induction false} ChildContexts(parent: string, node: Html, path: seq<string>, covered: bool, preserved: nat)
    requires !node.Other? && preserved <= 8
    ensures var w := WalkChild(parent, node, path, covered, preserved);
            Contexts(w.nodes) == w.preserved - preserved && w.preserved == UpToEight(preserved + Keepable(node))
    decreases node, 1
  {
    if node.Text? {
      OneNode(WalkChild(parent, node, path, covered, preserved).nodes);
    } else {
      ElementContexts(node, path, covered, preserved);
    }
  }

  /** The first eight elements worth keeping are kept for context, whatever the page; no others are. */
  lemma {:induction false} WalkContexts(parent: string, nodes: Siblings, counts: map<string, nat>, path: seq<string>,
                                        covered: bool, preserved: nat)
    requires preserved <= 8
    ensures var w := Walk(parent, nodes, counts, path, covered, preserved);
            Contexts(w.nodes) == w.preserved - preserved && w.preserved == UpToEight(preserved + AllKeepable(nodes))
    decreases nodes
  {
    hide WalkChild, Contexts, Keepable;
    if nodes.End? {
      assert Contexts([]) == 0 by { OneNode([]); }
    } else if nodes.node.Other? {
      assert Keepable(nodes.node) == 0 by { OthersAreNotKept(nodes.node); }
      WalkContexts(parent, nodes.next, counts, path, covered, preserved);
    } else {
      var name := Name(nodes.node);
      var n := CountOf(counts, name) + 1;
      var here := path + [Numbered(name, n)];
      var child := WalkChild(parent, nodes.node, here, covered, preserved);
      ChildContexts(parent, nodes.node, here, covered, preserved);
      WalkContexts(parent, nodes.next, counts[name := n], path, covered, child.preserved);
      ContextsConcat(child.nodes, Walk(parent, nodes.next, counts[name := n], path, covered, child.preserved).nodes);
    }
  }
}
