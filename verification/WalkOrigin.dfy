/** The path of a node leads to the element or leaf whose text the node holds. */
module WalkOrigin {
  import opened Wrappers
  import opened Text
  import opened Dom
  import opened DomWalker
  import opened WalkCoverage

  /** The m-th sibling of a name, counted from 1. */
  function Nth(nodes: Siblings, name: string, m: nat): Option<Html>
    decreases nodes
  {
    if nodes.End? then None
    else if nodes.node.Other? || Name(nodes.node) != name then Nth(nodes.next, name, m)
    else if m == 1 then Some(nodes.node)
    else if m == 0 then None
    else Nth(nodes.next, name, m - 1)
  }

  /** The first segment is that of the m-th sibling of the name, and the others lead on from there. */
  ghost predicate LeadsBy(nodes: Siblings, counts: map<string, nat>, rel: seq<string>, x: Html, name: string, m: nat)
    decreases |rel|, 0
  {
    && rel != [] && 1 <= m && rel[0] == Numbered(name, CountOf(counts, name) + m)
    && Nth(nodes, name, m).Some?
    && var y := Nth(nodes, name, m).value;
       if |rel| == 1 then x == y else y.Element? && Leads(y.first, map[], rel[1..], x)
  }

  /** Among siblings of which `counts` have gone by, the segments lead to x. */
  ghost predicate Leads(nodes: Siblings, counts: map<string, nat>, rel: seq<string>, x: Html)
    decreases |rel|, 1
  {
    exists name, m: nat :: LeadsBy(nodes, counts, rel, x, name, m)
  }

  /** The attribute `hidden` with any value, or `aria-hidden` with the value true, in any letter case. */
  predicate Conceals(key: string, value: string) {
    EqualFold(key, "hidden") || (EqualFold(key, "aria-hidden") && EqualFold(value, "true"))
  }

  /** The element is page furniture, a control or code, or is marked as hidden. */
  predicate Concealed(x: Html)
    requires x.Element?
  {
    || ToLower(x.data) in {"aside", "nav", "footer"}
    || ToLower(x.data) in {"form", "button", "input", "label"}
    || ToLower(x.data) in {"script", "style", "noscript", "template", "iframe", "svg"}
    || exists i :: 0 <= i < |x.attrs| && Conceals(x.attrs[i].key, x.attrs[i].value)
  }

  lemma LowNames()
    ensures ToLower("hidden") == "hidden" && ToLower("aria-hidden") == "aria-hidden" && ToLower("true") == "true"
  {
  }

  lemma SkippedIsConcealed(x: Html)
    requires x.Element?
    ensures Skipped(ToLower(x.data), x.attrs) <==> Concealed(x)
  {
    LowNames();
    hide ToLower;
    forall i | 0 <= i < |x.attrs| ensures AttributeHides(x.attrs[i]) <==> Conceals(x.attrs[i].key, x.attrs[i].value) {}
  }

  /** A concealed element shows nothing, any other one what its children show. */
  lemma ConcealedShowsNothing(x: Html)
    requires x.Element?
    ensures VisibleWords(x) == if Concealed(x) then [] else AllVisibleWords(x.first)
  {
    SkippedIsConcealed(x);
  }

  /** The text of an element that is kept for context, cut when it is long. */
  predicate ContextText(text: string, x: Html)
    requires x.Element?
  {
    var all := NormalizeWhitespace(Join(ContextParts(x, ToLower(x.data)), " "));
    25 <= |all| && text == if |all| <= 600 then all else Trim(all[..600])
  }

  /** The node has this path and the text of x. */
  ghost predicate Holds(n: Node, full: seq<string>, x: Html) {
    && n.path == "/" + Join(full, "/") && n.depth == |full| && !x.Other?
    && (x.Element? ==> n.tag == ToLower(x.data))
    && if x.Element? && Concealed(x) then ContextText(n.text, x)
       else n.text != "" && Fields(n.text) == VisibleWords(x) && n.text == Join(VisibleWords(x), " ")
  }

  ghost predicate Comes(nodes: Siblings, counts: map<string, nat>, path: seq<string>, n: Node) {
    exists rel, x :: Leads(nodes, counts, rel, x) && Holds(n, path + rel, x)
  }

  ghost predicate AllCome(nodes: Siblings, counts: map<string, nat>, path: seq<string>, ns: seq<Node>) {
    forall i :: 0 <= i < |ns| ==> Comes(nodes, counts, path, ns[i])
  }

  // ----- what leads where

  lemma LeadsOn(nodes: Siblings, counts: map<string, nat>, rel: seq<string>, x: Html) returns (name: string, m: nat)
    requires Leads(nodes, counts, rel, x)
    ensures rel != [] && LeadsBy(nodes, counts, rel, x, name, m)
  {
    name, m :| LeadsBy(nodes, counts, rel, x, name, m);
  }

  lemma LaterLeads(nodes: Siblings, counts: map<string, nat>, rel: seq<string>, x: Html)
    requires nodes.Sibling? && !nodes.node.Other?
    requires var name := Name(nodes.node); Leads(nodes.next, counts[name := CountOf(counts, name) + 1], rel, x)
    ensures Leads(nodes, counts, rel, x)
  {
    var first := Name(nodes.node);
    var more := counts[first := CountOf(counts, first) + 1];
    var name, m := LeadsOn(nodes.next, more, rel, x);
    assert LeadsBy(nodes, counts, rel, x, name, if name == first then m + 1 else m);
  }

  lemma OthersLead(nodes: Siblings, counts: map<string, nat>, rel: seq<string>, x: Html)
    requires nodes.Sibling? && nodes.node.Other? && Leads(nodes.next, counts, rel, x)
    ensures Leads(nodes, counts, rel, x)
  {
    var name, m := LeadsOn(nodes.next, counts, rel, x);
    assert LeadsBy(nodes, counts, rel, x, name, m);
  }

  lemma HereLeads(nodes: Siblings, counts: map<string, nat>, below: seq<string>, x: Html)
    requires nodes.Sibling? && !nodes.node.Other?
    requires if below == [] then x == nodes.node else nodes.node.Element? && Leads(nodes.node.first, map[], below, x)
    ensures var name := Name(nodes.node); Leads(nodes, counts, [Numbered(name, CountOf(counts, name) + 1)] + below, x)
  {
    var name := Name(nodes.node);
    var rel := [Numbered(name, CountOf(counts, name) + 1)] + below;
    assert rel[1..] == below;
    assert LeadsBy(nodes, counts, rel, x, name, 1);
  }

  // ----- the nodes of a walk

  lemma TextHolds(node: Html, path: seq<string>, tag: string, kind: string, n: Node)
    requires n in TextNodes(node, path, tag, kind) && !node.Other?
    requires node.Element? ==> tag == ToLower(node.data) && !Skipped(tag, node.attrs)
    ensures Holds(n, path, node)
  {
    if node.Element? { SkippedIsConcealed(node); }
    hide Concealed, Skipped;
    ExtractTextWords(node);
    FieldsNormalize(ExtractText(node));
    FieldsTrim(ExtractText(node));
  }

  lemma ContextHolds(node: Html, path: seq<string>, preserved: nat, n: Node)
    requires node.Element? && Skipped(ToLower(node.data), node.attrs)
    requires n in ContextNodes(node, path, ToLower(node.data), preserved)
    ensures Holds(n, path, node)
  {
    SkippedIsConcealed(node);
    hide Concealed, Skipped;
  }

  lemma HereCome(nodes: Siblings, counts: map<string, nat>, path: seq<string>, ns: seq<Node>)
    requires nodes.Sibling? && !nodes.node.Other?
    requires var name := Name(nodes.node);
             forall i :: 0 <= i < |ns| ==> Holds(ns[i], path + [Numbered(name, CountOf(counts, name) + 1)], nodes.node)
    ensures AllCome(nodes, counts, path, ns)
  {
    var s := Numbered(Name(nodes.node), CountOf(counts, Name(nodes.node)) + 1);
    HereLeads(nodes, counts, [], nodes.node);
    assert [s] + [] == [s];
  }

  /** What comes from below an element comes from its siblings. */
  lemma BelowCome(nodes: Siblings, counts: map<string, nat>, path: seq<string>, ns: seq<Node>)
    requires nodes.Sibling? && nodes.node.Element?
    requires var name := Name(nodes.node);
             AllCome(nodes.node.first, map[], path + [Numbered(name, CountOf(counts, name) + 1)], ns)
    ensures AllCome(nodes, counts, path, ns)
  {
    var s := Numbered(Name(nodes.node), CountOf(counts, Name(nodes.node)) + 1);
    forall i | 0 <= i < |ns| ensures Comes(nodes, counts, path, ns[i]) {
      assert Comes(nodes.node.first, map[], path + [s], ns[i]);
      var rel, x :| Leads(nodes.node.first, map[], rel, x) && Holds(ns[i], path + [s] + rel, x);
      var _, _ := LeadsOn(nodes.node.first, map[], rel, x);
      HereLeads(nodes, counts, rel, x);
      assert path + [s] + rel == path + ([s] + rel);
    }
  }

  lemma LaterCome(nodes: Siblings, counts: map<string, nat>, path: seq<string>, ns: seq<Node>)
    requires nodes.Sibling? && !nodes.node.Other?
    requires var name := Name(nodes.node);
             AllCome(nodes.next, counts[name := CountOf(counts, name) + 1], path, ns)
    ensures AllCome(nodes, counts, path, ns)
  {
    var name := Name(nodes.node);
    var more := counts[name := CountOf(counts, name) + 1];
    forall i | 0 <= i < |ns| ensures Comes(nodes, counts, path, ns[i]) {
      assert Comes(nodes.next, more, path, ns[i]);
      var rel, x :| Leads(nodes.next, more, rel, x) && Holds(ns[i], path + rel, x);
      LaterLeads(nodes, counts, rel, x);
    }
  }

  lemma OthersCome(nodes: Siblings, counts: map<string, nat>, path: seq<string>, ns: seq<Node>)
    requires nodes.Sibling? && nodes.node.Other? && AllCome(nodes.next, counts, path, ns)
    ensures AllCome(nodes, counts, path, ns)
  {
    forall i | 0 <= i < |ns| ensures Comes(nodes, counts, path, ns[i]) {
      assert Comes(nodes.next, counts, path, ns[i]);
      var rel, x :| Leads(nodes.next, counts, rel, x) && Holds(ns[i], path + rel, x);
      OthersLead(nodes, counts, rel, x);
    }
  }

  lemma BothCome(nodes: Siblings, counts: map<string, nat>, path: seq<string>, a: seq<Node>, b: seq<Node>)
    requires AllCome(nodes, counts, path, a) && AllCome(nodes, counts, path, b)
    ensures AllCome(nodes, counts, path, a + b)
  {
    forall i | 0 <= i < |a + b| ensures Comes(nodes, counts, path, (a + b)[i]) {
      if i >= |a| { assert (a + b)[i] == b[i - |a|]; }
    }
  }

  lemma ElementCome(nodes: Siblings, counts: map<string, nat>, path: seq<string>, covered: bool, preserved: nat)
    requires nodes.Sibling? && nodes.node.Element?
    ensures var name := Name(nodes.node);
            var here := path + [Numbered(name, CountOf(counts, name) + 1)];
            AllCome(nodes, counts, path, WalkElement(nodes.node, here, covered, preserved).nodes)
    decreases nodes, 0
  {
    var node, name := nodes.node, Name(nodes.node);
    var here := path + [Numbered(name, CountOf(counts, name) + 1)];
    hide AllCome, Holds, TextNodes, ContextNodes, Skipped, TextKind;
    if Skipped(name, node.attrs) {
      var kept := ContextNodes(node, here, name, preserved);
      forall i | 0 <= i < |kept| ensures Holds(kept[i], here, node) { ContextHolds(node, here, preserved, kept[i]); }
      HereCome(nodes, counts, path, kept);
    } else {
      var kind := TextKind(name);
      var own := if kind.Some? then TextNodes(node, here, name, kind.value) else [];
      forall i | 0 <= i < |own| ensures Holds(own[i], here, node) { TextHolds(node, here, name, kind.value, own[i]); }
      HereCome(nodes, counts, path, own);
      var below := Walk(node.data, node.first, map[], here, covered || kind.Some?, preserved).nodes;
      WalkComesFromTree(node.data, node.first, map[], here, covered || kind.Some?, preserved);
      BelowCome(nodes, counts, path, below);
      BothCome(nodes, counts, path, own, below);
    }
  }

  lemma ChildCome(parent: string, nodes: Siblings, counts: map<string, nat>, path: seq<string>, covered: bool,
                  preserved: nat)
    requires nodes.Sibling? && !nodes.node.Other?
    ensures var name := Name(nodes.node);
            var here := path + [Numbered(name, CountOf(counts, name) + 1)];
            AllCome(nodes, counts, path, WalkChild(parent, nodes.node, here, covered, preserved).nodes)
    decreases nodes, 1
  {
    var node, name := nodes.node, Name(nodes.node);
    var here := path + [Numbered(name, CountOf(counts, name) + 1)];
    hide AllCome, Holds, TextNodes;
    if node.Text? {
      var own := if covered then [] else TextNodes(node, here, parent, "paragraph");
      forall i | 0 <= i < |own| ensures Holds(own[i], here, node) {
        TextHolds(node, here, parent, "paragraph", own[i]);
      }
      HereCome(nodes, counts, path, own);
    } else {
      ElementCome(nodes, counts, path, covered, preserved);
    }
  }

  /** On any page the path of every node leads to an element or a leaf, and the node holds its text. */
  lemma {:induction false} WalkComesFromTree(parent: string, nodes: Siblings, counts: map<string, nat>,
                                             path: seq<string>, covered: bool, preserved: nat)
    ensures AllCome(nodes, counts, path, Walk(parent, nodes, counts, path, covered, preserved).nodes)
    decreases nodes, 2
  {
    hide AllCome, WalkChild;
    if nodes.End? {
      NothingComes(nodes, counts, path);
    } else if nodes.node.Other? {
      WalkComesFromTree(parent, nodes.next, counts, path, covered, preserved);
      OthersCome(nodes, counts, path, Walk(parent, nodes.next, counts, path, covered, preserved).nodes);
    } else {
      var name := Name(nodes.node);
      var n := CountOf(counts, name) + 1;
      var child := WalkChild(parent, nodes.node, path + [Numbered(name, n)], covered, preserved);
      ChildCome(parent, nodes, counts, path, covered, preserved);
      var later := Walk(parent, nodes.next, counts[name := n], path, covered, child.preserved).nodes;
      WalkComesFromTree(parent, nodes.next, counts[name := n], path, covered, child.preserved);
      LaterCome(nodes, counts, path, later);
      BothCome(nodes, counts, path, child.nodes, later);
    }
  }

  lemma NothingComes(nodes: Siblings, counts: map<string, nat>, path: seq<string>)
    ensures AllCome(nodes, counts, path, [])
  {
  }
}
