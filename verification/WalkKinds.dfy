/** What kind of node each element gives, and which nodes have a heading level. */
module WalkKinds {
  import opened Wrappers
  import opened Text
  import opened Dom
  import opened DomWalker

  function LevelOf(tag: string): int {
    if tag == "h1" then 1 else if tag == "h2" then 2 else if tag == "h3" then 3
    else if tag == "h4" then 4 else if tag == "h5" then 5 else if tag == "h6" then 6 else 0
  }

  /** The kind that belongs to a tag; paragraphs are what is left. */
  function KindOf(tag: string): string {
    if LevelOf(tag) != 0 then "heading"
    else if tag == "li" then "list_item"
    else if tag == "pre" || tag == "code" then "code"
    else if tag == "td" || tag == "th" then "table_cell"
    else if tag == "aside" || tag == "footer" || tag == "form" then "context"
    else if tag == "nav" then "navigation"
    else if tag == "svg" then "asset_reference"
    else "paragraph"
  }

  predicate Special(tag: string) {
    LevelOf(tag) != 0 || tag in {"li", "pre", "code", "td", "th", "aside", "footer", "form", "nav", "svg"}
  }

  /** The kind of a node is that of its tag, and headings have the level in theirs. */
  predicate Proper(n: Node) { n.kind == KindOf(n.tag) && n.headingLevel == LevelOf(n.tag) }

  ghost predicate AllProper(nodes: seq<Node>) { forall i :: 0 <= i < |nodes| ==> Proper(nodes[i]) }

  lemma LevelIsLevel(tag: string)
    ensures HeadingLevel(tag) == LevelOf(tag)
  {
    if |tag| == 2 && tag[0] == 'h' && '1' <= tag[1] <= '6' {
      var d := tag[1];
      assert d == '1' || d == '2' || d == '3' || d == '4' || d == '5' || d == '6';
      assert tag == ['h', d];
    }
  }

  lemma OwnerIsProper(tag: string)
    ensures TextKind(tag).Some? ==> TextKind(tag).value == KindOf(tag)
    ensures PreservedKind(tag).Some? ==> PreservedKind(tag).value == KindOf(tag) && LevelOf(tag) == 0
    ensures TextKind(tag).None? && PreservedKind(tag).None? ==> !Special(tag)
  {
  }

  lemma LowStays(tag: string)
    requires forall i :: 0 <= i < |tag| ==> !('A' <= tag[i] <= 'Z')
    ensures ToLower(tag) == tag
  {
  }

  /** A name that is special is in lower case. */
  lemma SpecialIsLow(tag: string)
    requires Special(tag)
    ensures ToLower(tag) == tag
  {
    LowStays(tag);
  }

  /** An element whose text is its own: it neither owns what is below nor is skipped. */
  predicate Passes(tag: string) { TextKind(ToLower(tag)).None? && PreservedKind(ToLower(tag)).None? }

  lemma PassingIsPlain(tag: string)
    requires Passes(tag)
    ensures KindOf(tag) == "paragraph" && LevelOf(tag) == 0
  {
    LevelIsLevel(tag);
    OwnerIsProper(tag);
    OwnerIsProper(ToLower(tag));
    if Special(tag) { SpecialIsLow(tag); }
  }

  lemma TextIsProper(node: Html, path: seq<string>, tag: string, kind: string)
    requires kind == KindOf(tag)
    ensures AllProper(TextNodes(node, path, tag, kind))
  {
    LevelIsLevel(tag);
  }

  lemma ContextIsProper(node: Html, path: seq<string>, tag: string, preserved: nat)
    ensures AllProper(ContextNodes(node, path, tag, preserved))
  {
    OwnerIsProper(tag);
  }

  lemma ThenProper(a: seq<Node>, b: Walked)
    requires AllProper(a) && AllProper(b.nodes)
    ensures AllProper(Then(a, b).nodes)
  {
    forall i | 0 <= i < |a + b.nodes| ensures Proper((a + b.nodes)[i]) {
      if i >= |a| { assert (a + b.nodes)[i] == b.nodes[i - |a|]; }
    }
  }

  lemma {:induction false} ElementIsProper(node: Html, path: seq<string>, covered: bool, preserved: nat)
    requires node.Element?
    ensures AllProper(WalkElement(node, path, covered, preserved).nodes)
    decreases node, 0
  {
    var tag := ToLower(node.data);
    hide AllProper, TextNodes, ContextNodes, Skipped, Special, Proper;
    if Skipped(tag, node.attrs) {
      ContextIsProper(node, path, tag, preserved);
    } else {
      var kind := TextKind(tag);
      OwnerIsProper(tag);
      NothingIsProper();
      if kind.Some? { TextIsProper(node, path, tag, kind.value); }
      SkippedOrPasses(node);
      WalkIsProper(node.data, node.first, map[], path, covered || kind.Some?, preserved);
      ThenProper(if kind.Some? then TextNodes(node, path, tag, kind.value) else [],
                 Walk(node.data, node.first, map[], path, covered || kind.Some?, preserved));
    }
  }

  lemma NothingIsProper()
    ensures AllProper([])
  {
  }

  /** Elements that are kept for context are skipped. */
  lemma SkippedOrPasses(node: Html)
    requires node.Element? && !Skipped(ToLower(node.data), node.attrs)
    ensures TextKind(ToLower(node.data)).None? ==> Passes(node.data)
  {
  }

  lemma {:induction false} ChildIsProper(parent: string, node: Html, path: seq<string>, covered: bool, preserved: nat)
    requires !node.Other? && (covered || Passes(parent))
    ensures AllProper(WalkChild(parent, node, path, covered, preserved).nodes)
    decreases node, 1
  {
    NothingIsProper();
    if node.Text? {
      if !covered {
        PassingIsPlain(parent);
        TextIsProper(node, path, parent, "paragraph");
      }
    } else {
      ElementIsProper(node, path, covered, preserved);
    }
  }

  /**
   * Every node of a walk has the kind that belongs to its tag; exactly those of h1 to h6 have a heading level,
   * which is the number in the tag.
   */
  lemma {:induction false} WalkIsProper(parent: string, nodes: Siblings, counts: map<string, nat>, path: seq<string>,
                                        covered: bool, preserved: nat)
    requires covered || Passes(parent)
    ensures AllProper(Walk(parent, nodes, counts, path, covered, preserved).nodes)
    decreases nodes
  {
    hide AllProper, WalkElement, Passes;
    NothingIsProper();
    if nodes.End? {
    } else if nodes.node.Other? {
      WalkIsProper(parent, nodes.next, counts, path, covered, preserved);
    } else {
      var name := Name(nodes.node);
      var n := CountOf(counts, name) + 1;
      var here := path + [Numbered(name, n)];
      ChildIsProper(parent, nodes.node, here, covered, preserved);
      var child := WalkChild(parent, nodes.node, here, covered, preserved);
      WalkIsProper(parent, nodes.next, counts[name := n], path, covered, child.preserved);
      ThenProper(child.nodes, Walk(parent, nodes.next, counts[name := n], path, covered, child.preserved));
    }
  }
}
