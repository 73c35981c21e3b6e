/**
 * The walk over a parsed page that turns its body into text nodes. A page is a tree of siblings
 * lists, as the HTML parser links them; comments and other childless nodes are Other.
 */
module DomWalker {
  import opened Wrappers
  import opened Text
  import opened Dom

  datatype Attribute = Attribute(key: string, value: string)

  datatype Html = Text(data: string) | Element(data: string, attrs: seq<Attribute>, first: Siblings) | Other

  datatype Siblings = End | Sibling(node: Html, next: Siblings)

  const NOISE := {"aside", "button", "footer", "form", "iframe", "input", "label", "nav", "noscript", "script",
                  "style",
                  "template", "svg"}

  const MAX_PRESERVED := 8

  /** The kind of node made for an element that owns the text below it. */
  function TextKind(tag: string): Option<string> {
    if tag in {"h1", "h2", "h3", "h4", "h5", "h6"} then Some("heading")
    else if tag in {"p", "blockquote"} then Some("paragraph")
    else if tag == "li" then Some("list_item")
    else if tag in {"pre", "code"} then Some("code")
    else if tag in {"td", "th"} then Some("table_cell")
    else None
  }

  function PreservedKind(tag: string): Option<string> {
    if tag in {"aside", "footer", "form"} then Some("context")
    else if tag == "nav" then Some("navigation")
    else if tag == "svg" then Some("asset_reference")
    else None
  }

  predicate AttributeHides(a: Attribute) {
    ToLower(a.key) == "hidden" || (ToLower(a.key) == "aria-hidden" && ToLower(a.value) == "true")
  }

  predicate Skipped(tag: string, attrs: seq<Attribute>) {
    tag in NOISE || exists i :: 0 <= i < |attrs| && AttributeHides(attrs[i])
  }

  function HeadingLevel(tag: string): int {
    if |tag| == 2 && tag[0] == 'h' && '1' <= tag[1] <= '6' then tag[1] as int - '0' as int else 0
  }

  function LeafText(data: string): seq<string> {
    if NormalizeWhitespace(data) == "" then [] else [NormalizeWhitespace(data)]
  }

  /** The texts of the visible leaves of a node, in document order. */
  function TextParts(node: Html): seq<string>
    decreases node
  {
    match node
    case Text(data) => LeafText(data)
    case Other => []
    case Element(data, attrs, first) => if Skipped(ToLower(data), attrs) then [] else AllTextParts(first)
  }

  function AllTextParts(nodes: Siblings): seq<string>
    decreases nodes
  {
    if nodes.End? then [] else TextParts(nodes.node) + AllTextParts(nodes.next)
  }

  function ExtractText(node: Html): string { Join(TextParts(node), " ") }

  /** The leaves below an element that is kept for context, noise below it included. */
  function ContextParts(node: Html, rootTag: string): seq<string>
    decreases node
  {
    match node
    case Text(data) => LeafText(data)
    case Other => []
    case Element(data, _, first) =>
      var tag := ToLower(data);
      if tag in {"script", "style", "iframe", "input", "noscript"} || (tag == "svg" && rootTag != "svg") then []
      else AllContextParts(first, rootTag)
  }

  function AllContextParts(nodes: Siblings, rootTag: string): seq<string>
    decreases nodes
  {
    if nodes.End? then [] else ContextParts(nodes.node, rootTag) + AllContextParts(nodes.next, rootTag)
  }

  function PathString(path: seq<string>): string { "/" + Join(path, "/") }

  const TEXT := "text()"

  /** The node made of a leaf or an owner of text; none when there is no text. */
  function TextNodes(node: Html, path: seq<string>, tag: string, kind: string): seq<Node> {
    var text := NormalizeWhitespace(ExtractText(node));
    if text == "" then [] else [Node(PathString(path), tag, kind, text, |path|, HeadingLevel(tag))]
  }

  /** The node made of a skipped element that is kept for context, if it is one of the first eight. */
  function ContextNodes(node: Html, path: seq<string>, tag: string, preserved: nat): seq<Node> {
    var kind := PreservedKind(tag);
    var text := NormalizeWhitespace(Join(ContextParts(node, tag), " "));
    if kind.None? || preserved >= MAX_PRESERVED || |text| < 25 then []
    else [Node(PathString(path), tag, kind.value, if |text| > 600 then Trim(text[..600]) else text, |path|, 0)]
  }

  /** What a walk adds to the nodes, and how many nodes are kept for context after it. */
  datatype Walked = Walked(nodes: seq<Node>, preserved: nat)

  function Then(a: seq<Node>, b: Walked): Walked { Walked(a + b.nodes, b.preserved) }

  function WalkElement(node: Html, path: seq<string>, covered: bool, preserved: nat): Walked
    requires node.Element?
    decreases node, 0
  {
    var tag := ToLower(node.data);
    if Skipped(tag, node.attrs) then
      var kept := ContextNodes(node, path, tag, preserved);
      Walked(kept, preserved + |kept|)
    else
      var kind := TextKind(tag);
      Then(if kind.Some? then TextNodes(node, path, tag, kind.value) else [],
           Walk(node.data, node.first, map[], path, covered || kind.Some?, preserved))
  }

  function WalkChild(parent: string, node: Html, path: seq<string>, covered: bool, preserved: nat): Walked
    requires !node.Other?
    decreases node, 1
  {
    if node.Text? then Walked(if covered then [] else TextNodes(node, path, parent, "paragraph"), preserved)
    else WalkElement(node, path, covered, preserved)
  }

  /** The name under which a node is counted among its siblings. */
  function Name(node: Html): string
    requires !node.Other?
  {
    if node.Text? then TEXT else ToLower(node.data)
  }

  function Walk(parent: string, nodes: Siblings, counts: map<string, nat>, path: seq<string>, covered: bool,
                preserved: nat): Walked
    decreases nodes
  {
    if nodes.End? then Walked([], preserved)
    else if nodes.node.Other? then Walk(parent, nodes.next, counts, path, covered, preserved)
    else
      var name := Name(nodes.node);
      var n := CountOf(counts, name) + 1;
      var here := WalkChild(parent, nodes.node, path + [Numbered(name, n)], covered, preserved);
      Then(here.nodes, Walk(parent, nodes.next, counts[name := n], path, covered, here.preserved))
  }

  class Walker {
    var nodes: seq<Node>
    var preserved: nat

    constructor ()
      ensures nodes == [] && preserved == 0
    {
      nodes := [];
      preserved := 0;
    }

    method AppendTextNode(node: Html, path: seq<string>, tag: string, kind: string)
      modifies this`nodes
      ensures nodes == old(nodes) + TextNodes(node, path, tag, kind)
    {
      var text := NormalizeWhitespace(ExtractText(node));
      if text != "" {
        nodes := nodes + [Node(PathString(path), tag, kind, text, |path|, HeadingLevel(tag))];
      }
    }

    method AppendContextNode(node: Html, path: seq<string>, tag: string)
      modifies this
      ensures nodes == old(nodes) + ContextNodes(node, path, tag, old(preserved))
      ensures preserved == old(preserved) + |ContextNodes(node, path, tag, old(preserved))|
    {
      var kind := PreservedKind(tag);
      if kind.None? || preserved >= MAX_PRESERVED { return; }
      var text := NormalizeWhitespace(Join(ContextParts(node, tag), " "));
      if |text| < 25 { return; }
      if |text| > 600 { text := Trim(text[..600]); }
      nodes := nodes + [Node(PathString(path), tag, kind.value, text, |path|, 0)];
      preserved := preserved + 1;
    }

    method VisitElement(node: Html, path: seq<string>, covered: bool)
      requires node.Element?
      modifies this
      ensures var w := WalkElement(node, path, covered, old(preserved));
              nodes == old(nodes) + w.nodes && preserved == w.preserved
      decreases node
    {
      var tag := ToLower(node.data);
      if Skipped(tag, node.attrs) {
        AppendContextNode(node, path, tag);
        return;
      }
      var kind := TextKind(tag);
      if kind.Some? {
        AppendTextNode(node, path, tag, kind.value);
      }
      VisitChildren(node.data, node.first, path, covered || kind.Some?);
    }

    method VisitChildren(parent: string, first: Siblings, path: seq<string>, covered: bool)
      modifies this
      ensures var w := Walk(parent, first, map[], path, covered, old(preserved));
              nodes == old(nodes) + w.nodes && preserved == w.preserved
      decreases first
    {
      var counts: map<string, nat> := map[];
      var child := first;
      ghost var whole := Walk(parent, first, map[], path, covered, preserved);
      while child.Sibling?
        invariant child == first || child < first
        invariant old(nodes) + whole.nodes == nodes + Walk(parent, child, counts, path, covered, preserved).nodes
        invariant whole.preserved == Walk(parent, child, counts, path, covered, preserved).preserved
        decreases child
      {
        var node := child.node;
        if !node.Other? {
          var name := Name(node);
          counts := counts[name := CountOf(counts, name) + 1];
          var here := path + [Numbered(name, counts[name])];
          if node.Text? {
            if !covered { AppendTextNode(node, here, parent, "paragraph"); }
          } else {
            VisitElement(node, here, covered);
          }
        }
        child := child.next;
      }
    }
  }
}
