/** The paths of the nodes a walk makes are pairwise distinct. */
module WalkPaths {
  import opened Wrappers
  import opened Text
  import opened Decimal
  import opened Dom
  import opened DomWalker

  /** No tag of the page contains a slash; the HTML parser ends a tag name at one. */
  predicate CleanTags(node: Html)
    decreases node
  {
    node.Element? ==> '/' !in node.data && AllClean(node.first)
  }

  predicate AllClean(nodes: Siblings)
    decreases nodes
  {
    nodes.Sibling? ==> CleanTags(nodes.node) && AllClean(nodes.next)
  }

  // ----- segments

  lemma NumberedIsClean(tag: string, n: nat)
    requires '/' !in tag
    ensures '/' !in Numbered(tag, n)
  {
    PrintThenValue(n);
    forall i | 0 <= i < |Print(n)| ensures Print(n)[i] != '/' { assert IsDigit(Print(n)[i]); }
  }

  // ----- paths

  /** The path string up to the place where the next segment goes. */
  function Stem(path: seq<string>): string { if path == [] then "/" else PathString(path) + "/" }

  lemma StemMore(path: seq<string>, s: string)
    ensures PathString(path + [s]) == Stem(path) + s
    ensures Stem(path + [s]) == Stem(path) + s + "/"
  {
    JoinMore(path, s, "/");
  }

  /** The path p is that of a segment below a stem, or of something below that segment. */
  predicate Below(p: string, stem: string, s: string) { p == stem + s || stem + s + "/" <= p }

  lemma BelowOne(p: string, stem: string, s: string, t: string)
    requires Below(p, stem, s) && Below(p, stem, t) && '/' !in s && '/' !in t
    ensures s == t
  {
    var r := p[|stem|..];
    assert r == s || s + "/" <= r by { if p == stem + s { assert r == s; } else { assert r[..|s| + 1] == s + "/"; } }
    assert r == t || t + "/" <= r by { if p == stem + t { assert r == t; } else { assert r[..|t| + 1] == t + "/"; } }
    assert (|s| < |r| ==> r[|s|] == '/') && (|t| < |r| ==> r[|t|] == '/');
    assert s == r[..|s|] && t == r[..|t|];
  }

  /** The path p belongs to a sibling that comes after those counted so far. */
  ghost predicate Later(p: string, stem: string, counts: map<string, nat>) {
    exists tag: string, n: nat :: '/' !in tag && n > CountOf(counts, tag) && Below(p, stem, Numbered(tag, n))
  }

  ghost predicate AllLater(nodes: seq<Node>, stem: string, counts: map<string, nat>) {
    forall i :: 0 <= i < |nodes| ==> Later(nodes[i].path, stem, counts)
  }

  ghost predicate AllBelow(nodes: seq<Node>, stem: string, s: string) {
    forall i :: 0 <= i < |nodes| ==> Below(nodes[i].path, stem, s)
  }

  ghost predicate DistinctPaths(nodes: seq<Node>) {
    forall i, j :: 0 <= i < j < |nodes| ==> nodes[i].path != nodes[j].path
  }

  lemma DistinctConcat(a: seq<Node>, b: seq<Node>)
    requires DistinctPaths(a) && DistinctPaths(b)
    requires forall i, j :: 0 <= i < |a| && 0 <= j < |b| ==> a[i].path != b[j].path
    ensures DistinctPaths(a + b)
  {
  }

  /** What is below a segment differs from what is below the siblings after it. */
  lemma SiblingsDiffer(p: string, stem: string, name: string, n: nat, counts: map<string, nat>)
    requires '/' !in name && n <= CountOf(counts, name) && Below(p, stem, Numbered(name, n))
    ensures !Later(p, stem, counts)
  {
    if Later(p, stem, counts) {
      var tag: string, m: nat :| '/' !in tag && m > CountOf(counts, tag) && Below(p, stem, Numbered(tag, m));
      NumberedIsClean(tag, m);
      NumberedIsClean(name, n);
      BelowOne(p, stem, Numbered(tag, m), Numbered(name, n));
      NumberedIsOneToOne(tag, m, name, n);
    }
  }

  lemma LaterStays(nodes: seq<Node>, stem: string, counts: map<string, nat>, name: string)
    requires AllLater(nodes, stem, counts[name := CountOf(counts, name) + 1])
    ensures AllLater(nodes, stem, counts)
  {
    var more := counts[name := CountOf(counts, name) + 1];
    forall i | 0 <= i < |nodes| ensures Later(nodes[i].path, stem, counts) {
      var tag: string, n: nat :| '/' !in tag && n > CountOf(more, tag)
                                 && Below(nodes[i].path, stem, Numbered(tag, n));
      assert n > CountOf(counts, tag);
    }
  }

  /** Nodes below an element lie below its segment, and differ from its own path. */
  lemma LaterIsBelow(nodes: seq<Node>, path: seq<string>, s: string)
    requires AllLater(nodes, Stem(path + [s]), map[])
    ensures AllBelow(nodes, Stem(path), s)
    ensures forall i :: 0 <= i < |nodes| ==> nodes[i].path != PathString(path + [s])
  {
    StemMore(path, s);
    forall i | 0 <= i < |nodes|
      ensures Below(nodes[i].path, Stem(path), s) && nodes[i].path != PathString(path + [s])
    {
      var tag: string, n: nat :| '/' !in tag && n > 0 && Below(nodes[i].path, Stem(path + [s]), Numbered(tag, n));
      assert Stem(path + [s]) <= nodes[i].path;
    }
  }

  lemma OwnPath(node: Html, path: seq<string>, s: string, tag: string, kind: string)
    ensures AllBelow(TextNodes(node, path + [s], tag, kind), Stem(path), s)
    ensures |TextNodes(node, path + [s], tag, kind)| <= 1
    ensures forall q :: q in TextNodes(node, path + [s], tag, kind) ==> q.path == PathString(path + [s])
  {
    StemMore(path, s);
  }

  lemma {:induction false} ElementPaths(node: Html, path: seq<string>, s: string, covered: bool, preserved: nat)
    requires node.Element? && CleanTags(node)
    ensures var w := WalkElement(node, path + [s], covered, preserved);
            AllBelow(w.nodes, Stem(path), s) && DistinctPaths(w.nodes)
    decreases node, 0
  {
    var tag := ToLower(node.data);
    StemMore(path, s);
    if !Skipped(tag, node.attrs) {
      var kind := TextKind(tag);
      var own := if kind.Some? then TextNodes(node, path + [s], tag, kind.value) else [];
      if kind.Some? { OwnPath(node, path, s, tag, kind.value); }
      var w := Walk(node.data, node.first, map[], path + [s], covered || kind.Some?, preserved);
      WalkHasDistinctPaths(node.data, node.first, map[], path + [s], covered || kind.Some?, preserved);
      LaterIsBelow(w.nodes, path, s);
      DistinctConcat(own, w.nodes);
    }
  }

  lemma ChildPaths(parent: string, node: Html, path: seq<string>, s: string, covered: bool, preserved: nat)
    requires !node.Other? && CleanTags(node)
    ensures var w := WalkChild(parent, node, path + [s], covered, preserved);
            AllBelow(w.nodes, Stem(path), s) && DistinctPaths(w.nodes)
    decreases node, 1
  {
    if node.Text? {
      OwnPath(node, path, s, parent, "paragraph");
    } else {
      ElementPaths(node, path, s, covered, preserved);
    }
  }

  lemma NameIsClean(node: Html)
    requires !node.Other? && CleanTags(node)
    ensures '/' !in Name(node)
  {
    if node.Element? {
      forall i | 0 <= i < |node.data| ensures ToLower(node.data)[i] != '/' { assert node.data[i] != '/'; }
    }
  }

  lemma JoinPaths(here: seq<Node>, later: seq<Node>, stem: string, counts: map<string, nat>, name: string, n: nat)
    requires '/' !in name && n == CountOf(counts, name) + 1
    requires AllBelow(here, stem, Numbered(name, n)) && DistinctPaths(here)
    requires AllLater(later, stem, counts[name := n]) && DistinctPaths(later)
    ensures AllLater(here + later, stem, counts) && DistinctPaths(here + later)
  {
    LaterStays(later, stem, counts, name);
    forall i | 0 <= i < |here|
      ensures Later(here[i].path, stem, counts) && !Later(here[i].path, stem, counts[name := n])
    {
      assert Below(here[i].path, stem, Numbered(name, n));
      SiblingsDiffer(here[i].path, stem, name, n, counts[name := n]);
    }
    forall i, j | 0 <= i < |here| && 0 <= j < |later| ensures here[i].path != later[j].path {
      assert Later(later[j].path, stem, counts[name := n]);
    }
    DistinctConcat(here, later);
  }

  /** No two nodes of a walk have the same path. */
  lemma {:induction false} WalkHasDistinctPaths(parent: string, nodes: Siblings, counts: map<string, nat>,
                                                path: seq<string>, covered: bool, preserved: nat)
    requires AllClean(nodes)
    ensures var w := Walk(parent, nodes, counts, path, covered, preserved);
            AllLater(w.nodes, Stem(path), counts) && DistinctPaths(w.nodes)
    decreases nodes
  {
    if nodes.End? {
    } else if nodes.node.Other? {
      WalkHasDistinctPaths(parent, nodes.next, counts, path, covered, preserved);
    } else {
      var name := Name(nodes.node);
      var n := CountOf(counts, name) + 1;
      var s := Numbered(name, n);
      var child := WalkChild(parent, nodes.node, path + [s], covered, preserved);
      NameIsClean(nodes.node);
      ChildPaths(parent, nodes.node, path, s, covered, preserved);
      WalkHasDistinctPaths(parent, nodes.next, counts[name := n], path, covered, child.preserved);
      JoinPaths(child.nodes, Walk(parent, nodes.next, counts[name := n], path, covered, child.preserved).nodes,
                Stem(path), counts, name, n);
    }
  }
}
