/** Strings as the source uses them: a string is a sequence of bytes, one char per byte. */
module Text {

  /** The ASCII white space that Go's strings package recognises. */
  predicate IsSpace(c: char) {
    c == ' ' || '\t' <= c <= '\r'
  }

  function TrimLeft(s: string): string {
    if s != "" && IsSpace(s[0]) then TrimLeft(s[1..]) else s
  }

  function TrimRight(s: string): string {
    if s != "" && IsSpace(s[|s| - 1]) then TrimRight(s[..|s| - 1]) else s
  }

  function Trim(s: string): string { TrimRight(TrimLeft(s)) }

  predicate Blank(s: string) { Trim(s) == "" }

  /** Length of the leading run of non-space characters. */
  function WordLen(s: string): (n: nat)
    ensures n <= |s|
    ensures forall i :: 0 <= i < n ==> !IsSpace(s[i])
    ensures n < |s| ==> IsSpace(s[n])
  {
    if s == "" || IsSpace(s[0]) then 0 else 1 + WordLen(s[1..])
  }

  /** Go's strings.Fields: the maximal runs of non-space characters, in order. */
  function Fields(s: string): seq<string>
    decreases |s|
  {
    if s == "" then []
    else if IsSpace(s[0]) then Fields(s[1..])
    else [s[..WordLen(s)]] + Fields(s[WordLen(s)..])
  }

  function Join(parts: seq<string>, sep: string): string {
    if |parts| == 0 then ""
    else if |parts| == 1 then parts[0]
    else parts[0] + sep + Join(parts[1..], sep)
  }

  function NormalizeWhitespace(s: string): string {
    Join(Fields(Trim(s)), " ")
  }

  /** The words of every part, in order. */
  function AllFields(parts: seq<string>): seq<string> {
    if |parts| == 0 then [] else Fields(parts[0]) + AllFields(parts[1..])
  }

  function Lower(c: char): char {
    if 'A' <= c <= 'Z' then (c as int + 32) as char else c
  }

  function ToLower(s: string): (t: string)
    ensures |t| == |s|
  {
    seq(|s|, i requires 0 <= i < |s| => Lower(s[i]))
  }

  predicate EqualFold(a: string, b: string) { ToLower(a) == ToLower(b) }

  predicate HasPrefix(s: string, p: string) { p <= s }

  predicate HasSuffix(s: string, p: string) { |p| <= |s| && s[|s| - |p|..] == p }

  predicate Contains(s: string, p: string) {
    Index(s, p) >= 0
  }

  predicate ContainsAny(s: string, ps: seq<string>) {
    ps != [] && (Contains(s, ps[0]) || ContainsAny(s, ps[1..]))
  }

  predicate HasPrefixAny(s: string, ps: seq<string>) {
    ps != [] && (HasPrefix(s, ps[0]) || HasPrefixAny(s, ps[1..]))
  }

  function CountChar(s: string, c: char): nat {
    if s == "" then 0 else (if s[0] == c then 1 else 0) + CountChar(s[1..], c)
  }

  /** Position of the first occurrence of p at or after i, or -1. */
  function IndexFrom(s: string, p: string, i: nat): (r: int)
    requires i <= |s|
    ensures r == -1 || (i <= r <= |s| - |p| && s[r..r + |p|] == p)
    decreases |s| - i
  {
    if i + |p| > |s| then -1
    else if s[i..i + |p|] == p then i
    else if i == |s| then -1
    else IndexFrom(s, p, i + 1)
  }

  function Index(s: string, p: string): (r: int)
    ensures r == -1 || (0 <= r <= |s| - |p| && s[r..r + |p|] == p)
  {
    IndexFrom(s, p, 0)
  }

  predicate AllSpace(s: string) { forall i :: 0 <= i < |s| ==> IsSpace(s[i]) }

  // ----- words

  lemma FieldsSkipSpace(s: string)
    requires s != "" && IsSpace(s[0])
    ensures Fields(s) == Fields(s[1..])
  {
  }

  lemma FieldsTakeWord(s: string, w: nat)
    requires s != "" && !IsSpace(s[0]) && w == WordLen(s)
    ensures 0 < w && Fields(s) == [s[..w]] + Fields(s[w..])
  {
  }

  /** A space separates words: nothing on its left joins anything on its right. */
  lemma {:induction false} FieldsSplit(a: string, c: char, b: string)
    requires IsSpace(c)
    ensures Fields(a + [c] + b) == Fields(a) + Fields(b)
    decreases |a|
  {
    var s := a + [c] + b;
    if a == "" {
      FieldsSkipSpace(s);
      assert s[1..] == b;
    } else if IsSpace(a[0]) {
      FieldsSkipSpace(s);
      FieldsSkipSpace(a);
      assert s[1..] == a[1..] + [c] + b;
      FieldsSplit(a[1..], c, b);
    } else {
      FieldsSplitWord(a, c, b);
      FieldsSplit(a[WordLen(a)..], c, b);
      FieldsTakeWord(a, WordLen(a));
    }
  }

  lemma FieldsSplitWord(a: string, c: char, b: string)
    requires IsSpace(c) && a != "" && !IsSpace(a[0])
    ensures 0 < WordLen(a)
    ensures Fields(a + [c] + b) == [a[..WordLen(a)]] + Fields(a[WordLen(a)..] + [c] + b)
  {
    var w, s := WordLen(a), a + [c] + b;
    WordLenStops(a, c, b);
    FieldsTakeWord(s, w);
    assert s[..w] == a[..w];
    assert s[w..] == a[w..] + [c] + b;
  }

  lemma {:induction false} WordLenStops(a: string, c: char, b: string)
    requires IsSpace(c)
    ensures WordLen(a + [c] + b) == WordLen(a)
  {
    if a != "" && !IsSpace(a[0]) {
      assert (a + [c] + b)[1..] == a[1..] + [c] + b;
      WordLenStops(a[1..], c, b);
    }
  }

  lemma {:induction false} FieldsTrimLeft(s: string)
    ensures Fields(TrimLeft(s)) == Fields(s)
  {
    if s != "" && IsSpace(s[0]) { FieldsTrimLeft(s[1..]); }
  }

  lemma {:induction false} FieldsTrimRight(s: string)
    ensures Fields(TrimRight(s)) == Fields(s)
  {
    if s != "" && IsSpace(s[|s| - 1]) {
      var a := s[..|s| - 1];
      assert s == a + [s[|s| - 1]] + "";
      FieldsSplit(a, s[|s| - 1], "");
      FieldsTrimRight(a);
    }
  }

  lemma FieldsTrim(s: string)
    ensures Fields(Trim(s)) == Fields(s)
  {
    FieldsTrimLeft(s);
    FieldsTrimRight(TrimLeft(s));
  }

  /** A string is blank exactly when it has no words. */
  lemma BlankIffNoFields(s: string)
    ensures Blank(s) <==> Fields(s) == []
  {
    FieldsTrim(s);
    var t := Trim(s);
    TrimShape(s);
    if t != "" { FieldsTakeWord(t, WordLen(t)); }
  }

  predicate IsWord(w: string) { w != "" && forall i :: 0 <= i < |w| ==> !IsSpace(w[i]) }

  lemma {:induction false} FieldsAreWords(s: string)
    ensures forall w :: w in Fields(s) ==> IsWord(w)
    decreases |s|
  {
    if s == "" {
    } else if IsSpace(s[0]) {
      FieldsAreWords(s[1..]);
    } else {
      FieldsAreWords(s[WordLen(s)..]);
    }
  }

  lemma {:induction false} WordLenOfWord(w: string)
    requires forall i :: 0 <= i < |w| ==> !IsSpace(w[i])
    ensures WordLen(w) == |w|
  {
    if w != "" { WordLenOfWord(w[1..]); }
  }

  lemma {:induction false} FieldsSkipSpaces(spaces: string, s: string)
    requires AllSpace(spaces)
    ensures Fields(spaces + s) == Fields(s)
  {
    if spaces == "" {
      assert spaces + s == s;
    } else {
      FieldsSkipSpace(spaces + s);
      assert (spaces + s)[1..] == spaces[1..] + s;
      FieldsSkipSpaces(spaces[1..], s);
    }
  }

  lemma FieldsSplitAt(a: string, sep: string, b: string)
    requires sep != "" && AllSpace(sep)
    ensures Fields(a + sep + b) == Fields(a) + Fields(b)
  {
    FieldsSplit(a, sep[0], sep[1..] + b);
    FieldsSkipSpaces(sep[1..], b);
    hide Fields;
    assert a + sep + b == a + [sep[0]] + (sep[1..] + b);
  }

  /** Joining with white space keeps every word of every part. */
  lemma {:induction false} FieldsJoin(parts: seq<string>, sep: string)
    requires sep != "" && AllSpace(sep)
    ensures Fields(Join(parts, sep)) == AllFields(parts)
  {
    hide AllSpace;
    if |parts| > 1 {
      FieldsJoin(parts[1..], sep);
      FieldsSplitAt(parts[0], sep, Join(parts[1..], sep));
    } else if |parts| == 1 {
      assert AllFields(parts[1..]) == [];
    }
  }

  lemma {:induction false} AllFieldsOfWords(ws: seq<string>)
    requires forall w :: w in ws ==> IsWord(w)
    ensures AllFields(ws) == ws
  {
    if |ws| > 0 {
      var w := ws[0];
      assert IsWord(w);
      WordLenOfWord(w);
      FieldsTakeWord(w, |w|);
      assert w[..|w|] == w && w[|w|..] == "";
      AllFieldsOfWords(ws[1..]);
    }
  }

  /** Words survive being joined with single spaces. */
  lemma FieldsOfJoinedWords(ws: seq<string>)
    requires forall w :: w in ws ==> IsWord(w)
    ensures Fields(Join(ws, " ")) == ws
  {
    FieldsJoin(ws, " ");
    AllFieldsOfWords(ws);
  }

  /** Whitespace normalisation keeps exactly the words. */
  lemma FieldsNormalize(s: string)
    ensures Fields(NormalizeWhitespace(s)) == Fields(s)
  {
    FieldsTrim(s);
    FieldsAreWords(Trim(s));
    FieldsOfJoinedWords(Fields(Trim(s)));
  }

  lemma {:induction false} AllFieldsConcat(a: seq<string>, b: seq<string>)
    ensures AllFields(a + b) == AllFields(a) + AllFields(b)
  {
    if a == [] {
      assert a + b == b;
    } else {
      assert (a + b)[1..] == a[1..] + b;
      AllFieldsConcat(a[1..], b);
    }
  }

  // ----- trimming

  lemma {:induction false} TrimLeftShape(s: string)
    ensures var t := TrimLeft(s);
            && |t| <= |s| && t == s[|s| - |t|..] && AllSpace(s[..|s| - |t|])
            && (t != "" ==> !IsSpace(t[0]))
  {
    if s != "" && IsSpace(s[0]) {
      TrimLeftShape(s[1..]);
      var t := TrimLeft(s);
      assert s[..|s| - |t|] == [s[0]] + s[1..][..|s| - 1 - |t|];
    }
  }

  lemma {:induction false} TrimRightShape(s: string)
    ensures var t := TrimRight(s); t <= s && AllSpace(s[|t|..]) && (t != "" ==> !IsSpace(t[|t| - 1]))
  {
    if s != "" && IsSpace(s[|s| - 1]) {
      TrimRightShape(s[..|s| - 1]);
      var t := TrimRight(s);
      assert s[|t|..] == s[..|s| - 1][|t|..] + [s[|s| - 1]];
    }
  }

  /** A trimmed string neither starts nor ends with white space. */
  lemma TrimShape(s: string)
    ensures var t := Trim(s); t != "" ==> !IsSpace(t[0]) && !IsSpace(t[|t| - 1])
    ensures |Trim(s)| <= |s|
  {
    TrimLeftShape(s);
    TrimRightShape(TrimLeft(s));
  }

  lemma {:induction false} TrimRightPrefix(s: string, t: string)
    requires t <= s && AllSpace(s[|t|..])
    requires t == "" || !IsSpace(t[|t| - 1])
    ensures TrimRight(s) == t
  {
    if |s| > |t| {
      assert IsSpace(s[|t|..][|s| - 1 - |t|]);
      var u := s[..|s| - 1];
      forall i | 0 <= i < |u[|t|..]| ensures IsSpace(u[|t|..][i]) {
        assert u[|t|..][i] == s[|t|..][i];
      }
      TrimRightPrefix(u, t);
    } else {
      assert s == t;
    }
  }

  lemma TrimOfTrimmed(s: string)
    requires s == "" || (!IsSpace(s[0]) && !IsSpace(s[|s| - 1]))
    ensures Trim(s) == s
  {
  }

  lemma {:induction false} TrimLeftOfSpaces(s: string)
    requires AllSpace(s)
    ensures TrimLeft(s) == ""
  {
    if s != "" { TrimLeftOfSpaces(s[1..]); }
  }

  /** White space at the right end does not change what Trim gives. */
  lemma {:induction false} TrimIgnoresRight(a: string, b: string)
    requires a <= b && AllSpace(b[|a|..])
    ensures Trim(a) == Trim(b)
  {
    if a == "" {
      TrimLeftOfSpaces(b);
    } else if IsSpace(a[0]) {
      assert b[1..][|a| - 1..] == b[|a|..];
      TrimIgnoresRight(a[1..], b[1..]);
    } else {
      TrimRightShape(a);
      var t := TrimRight(a);
      assert b[|t|..] == a[|t|..] + b[|a|..];
      TrimRightPrefix(b, t);
    }
  }

  lemma BlankIffAllSpace(s: string)
    ensures Blank(s) <==> AllSpace(s)
  {
    if AllSpace(s) {
      TrimIgnoresRight("", s);
    } else {
      var t := TrimLeft(s);
      TrimLeftShape(s);
      TrimRightShape(t);
      assert s[..|s|] == s;
    }
  }

  lemma {:induction false} JoinMore(parts: seq<string>, s: string, sep: string)
    ensures Join(parts + [s], sep) == if parts == [] then s else Join(parts, sep) + sep + s
  {
    if |parts| > 1 {
      assert (parts + [s])[1..] == parts[1..] + [s];
      JoinMore(parts[1..], s, sep);
    } else if |parts| == 1 {
      assert (parts + [s])[1..] == [s];
    }
  }

  /** The text without the white space around it. */
  ghost predicate TrimmedFrom(t: string, s: string) {
    && (exists i, j :: 0 <= i <= j <= |s| && t == s[i..j] && AllSpace(s[..i]) && AllSpace(s[j..]))
    && (t != "" ==> !IsSpace(t[0]) && !IsSpace(t[|t| - 1]))
  }

  lemma TrimIsTrimmed(s: string)
    ensures TrimmedFrom(Trim(s), s) && Fields(Trim(s)) == Fields(s)
  {
    FieldsTrim(s);
    TrimLeftShape(s);
    var t := TrimLeft(s);
    TrimRightShape(t);
    var i := |s| - |t|;
    var j := i + |Trim(s)|;
    assert s[i..j] == t[..|Trim(s)|] && s[j..] == t[|Trim(s)|..];
  }
}
