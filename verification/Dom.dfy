/** What pages are reduced to: text nodes, named by numbered tags. */
module Dom {
  import opened Wrappers
  import opened Decimal

  datatype Node = Node(path: string, tag: string, kind: string, text: string, depth: nat, headingLevel: int)

  /** A tag and its number among the siblings of that name. */
  function Numbered(tag: string, n: nat): string { tag + "[" + Print(n) + "]" }

  function CountOf(counts: map<string, nat>, tag: string): nat { if tag in counts then counts[tag] else 0 }

  lemma NumberedIsOneToOne(a: string, m: nat, b: string, n: nat)
    requires Numbered(a, m) == Numbered(b, n)
    ensures a == b && m == n
  {
    PrintThenValue(m);
    PrintThenValue(n);
    var s := Numbered(a, m);
    BracketIsLast(a, m, |b|);
    BracketIsLast(b, n, |a|);
    assert s[|a|] == '[' && s[|b|] == '[';
    assert a == s[..|a|] && b == s[..|b|];
    assert Print(m) == s[|a| + 1..|s| - 1] && Print(n) == s[|b| + 1..|s| - 1];
  }

  /** After the bracket of a segment there are only digits and the closing bracket. */
  lemma BracketIsLast(tag: string, n: nat, i: nat)
    ensures |tag| < i < |Numbered(tag, n)| ==> Numbered(tag, n)[i] != '['
  {
    PrintThenValue(n);
    if |tag| < i < |Numbered(tag, n)| - 1 {
      assert Numbered(tag, n)[i] == Print(n)[i - |tag| - 1];
      assert IsDigit(Print(n)[i - |tag| - 1]);
    }
  }
}
