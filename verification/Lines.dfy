/** Splitting text at line breaks, as Go's strings.Split with "\n" does. */
module Lines {
  import opened Text

  function Split(s: string): (lines: seq<string>)
    ensures lines != []
  {
    if s == "" then [""]
    else
      var rest := Split(s[1..]);
      if s[0] == '\n' then [""] + rest else [[s[0]] + rest[0]] + rest[1..]
  }

  /** Bytes of the lines with one line break each. */
  function Size(lines: seq<string>): nat {
    if lines == [] then 0 else |lines[0]| + 1 + Size(lines[1..])
  }

  lemma {:induction false} SplitAtBreak(a: string, b: string)
    ensures Split(a + "\n" + b) == Split(a) + Split(b)
  {
    if a == "" {
      assert ("\n" + b)[1..] == b;
      assert a + "\n" + b == "\n" + b;
    } else {
      assert (a + "\n" + b)[1..] == a[1..] + "\n" + b;
      SplitAtBreak(a[1..], b);
    }
  }

  lemma {:induction false} SplitOneLine(s: string)
    requires '\n' !in s
    ensures Split(s) == [s]
  {
    if s != "" {
      SplitOneLine(s[1..]);
      assert [s[0]] + s[1..] == s;
    }
  }

  lemma {:induction false} SizeConcat(a: seq<string>, b: seq<string>)
    ensures Size(a + b) == Size(a) + Size(b)
  {
    if a == [] {
      assert a + b == b;
    } else {
      assert (a + b)[1..] == a[1..] + b;
      SizeConcat(a[1..], b);
    }
  }

  /** Splitting loses no byte, and leaves no line break inside a line. */
  lemma {:induction false} SplitKeepsBytes(s: string)
    ensures Join(Split(s), "\n") == s
    ensures Size(Split(s)) == |s| + 1
    ensures forall l :: l in Split(s) ==> '\n' !in l
  {
    if s != "" {
      SplitKeepsBytes(s[1..]);
      var rest := Split(s[1..]);
      assert s == [s[0]] + s[1..];
      if s[0] != '\n' {
        assert Split(s)[1..] == rest[1..];
      } else {
        assert Split(s)[1..] == rest;
      }
    }
  }
}
