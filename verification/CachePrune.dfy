/** Which files the persistent embedding cache removes: expired ones, then the oldest over budget. */
module CachePrune {

  datatype File = File(path: string, size: nat, modTime: int, positive: bool)

  datatype Policy = Policy(ttl: int, negativeTTL: int, maxBytes: int, maxEntries: int)

  predicate Outlived(p: Policy, now: int, f: File) {
    var ttl := if f.positive then p.ttl else p.negativeTTL;
    ttl > 0 && now - f.modTime > ttl
  }

  function Expired(p: Policy, now: int, files: seq<File>): seq<File> {
    if files == [] then []
    else
      var init, f := Expired(p, now, files[..|files| - 1]), files[|files| - 1];
      if Outlived(p, now, f) then init + [f] else init
  }

  function Live(p: Policy, now: int, files: seq<File>): seq<File> {
    if files == [] then []
    else
      var init, f := Live(p, now, files[..|files| - 1]), files[|files| - 1];
      if Outlived(p, now, f) then init else init + [f]
  }

  ghost predicate OldestFirst(l: seq<File>) {
    forall i, j :: 0 <= i < j < |l| ==> l[i].modTime <= l[j].modTime
  }

  /** Puts a file before the first one that is not older, so equal times keep their order. */
  function Insert(f: File, l: seq<File>): seq<File> {
    if l == [] || f.modTime <= l[0].modTime then [f] + l else [l[0]] + Insert(f, l[1..])
  }

  function Sort(l: seq<File>): seq<File> {
    if l == [] then [] else Insert(l[0], Sort(l[1..]))
  }

  function Bytes(l: seq<File>): nat { if l == [] then 0 else l[0].size + Bytes(l[1..]) }

  function Positives(l: seq<File>): nat {
    if l == [] then 0 else (if l[0].positive then 1 else 0) + Positives(l[1..])
  }

  predicate WithinBudget(p: Policy, bytes: int, positives: int) {
    (p.maxBytes <= 0 || bytes <= p.maxBytes) && (p.maxEntries <= 0 || positives <= p.maxEntries)
  }

  predicate Fits(p: Policy, l: seq<File>) { WithinBudget(p, Bytes(l), Positives(l)) }

  /** The number of oldest files to drop before the rest fits. */
  function Cut(p: Policy, l: seq<File>): (n: nat)
    ensures n <= |l|
  {
    if l == [] || Fits(p, l) then 0 else 1 + Cut(p, l[1..])
  }

  function Removed(p: Policy, now: int, files: seq<File>): seq<File> {
    var kept := Sort(Live(p, now, files));
    Expired(p, now, files) + kept[..Cut(p, kept)]
  }

  function Survivors(p: Policy, now: int, files: seq<File>): seq<File> {
    var kept := Sort(Live(p, now, files));
    kept[Cut(p, kept)..]
  }

  method SortStable(l: seq<File>) returns (r: seq<File>)
    ensures r == Sort(l)
  {
    r := [];
    var i := |l|;
    while i > 0
      invariant 0 <= i <= |l| && r == Sort(l[i..])
    {
      i := i - 1;
      assert l[i..][1..] == l[i + 1..];
      r := Insert(l[i], r);
    }
    assert l[0..] == l;
  }

  method RemovalSet(files: seq<File>, now: int, p: Policy) returns (remove: seq<File>)
    ensures remove == Removed(p, now, files)
  {
    remove := [];
    var live: seq<File> := [];
    for i := 0 to |files|
      invariant remove == Expired(p, now, files[..i]) && live == Live(p, now, files[..i])
    {
      assert files[..i + 1][..i] == files[..i];
      if Outlived(p, now, files[i]) {
        remove := remove + [files[i]];
      } else {
        live := live + [files[i]];
      }
    }
    assert files[..|files|] == files;
    var kept := SortStable(live);
    var total, positive := Totals(kept);
    ghost var expired := remove;
    var i := 0;
    while i < |kept| && !WithinBudget(p, total, positive)
      invariant 0 <= i <= |kept|
      invariant total == Bytes(kept[i..]) && positive == Positives(kept[i..])
      invariant remove == expired + kept[..i]
      invariant Cut(p, kept) == i + Cut(p, kept[i..])
    {
      assert kept[i..][1..] == kept[i + 1..];
      assert kept[..i + 1] == kept[..i] + [kept[i]];
      remove := remove + [kept[i]];
      total := total - kept[i].size;
      if kept[i].positive { positive := positive - 1; }
      i := i + 1;
    }
  }

  method Totals(l: seq<File>) returns (total: int, positive: int)
    ensures total == Bytes(l) && positive == Positives(l)
  {
    total, positive := 0, 0;
    for i := 0 to |l|
      invariant total + Bytes(l[i..]) == Bytes(l) && positive + Positives(l[i..]) == Positives(l)
    {
      assert l[i..][1..] == l[i + 1..];
      total := total + l[i].size;
      if l[i].positive { positive := positive + 1; }
    }
  }

  // ----- what the result means

  lemma {:induction false} Split(p: Policy, now: int, files: seq<File>)
    ensures multiset(Expired(p, now, files)) + multiset(Live(p, now, files)) == multiset(files)
    ensures forall f :: f in Expired(p, now, files) <==> f in files && Outlived(p, now, f)
    ensures forall f :: f in Live(p, now, files) <==> f in files && !Outlived(p, now, f)
  {
    if files != [] {
      var init := files[..|files| - 1];
      assert files == init + [files[|files| - 1]];
      Split(p, now, init);
    }
  }

  lemma {:induction false} InsertHolds(f: File, l: seq<File>)
    ensures multiset(Insert(f, l)) == multiset(l) + multiset{f}
    ensures forall j :: 0 <= j < |Insert(f, l)| ==> Insert(f, l)[j] == f || Insert(f, l)[j] in l
  {
    if l != [] && f.modTime > l[0].modTime {
      InsertHolds(f, l[1..]);
      assert l == [l[0]] + l[1..];
    }
  }

  lemma {:induction false} InsertSorts(f: File, l: seq<File>)
    requires OldestFirst(l)
    ensures OldestFirst(Insert(f, l)) && multiset(Insert(f, l)) == multiset(l) + multiset{f}
  {
    InsertHolds(f, l);
    if l != [] && f.modTime > l[0].modTime {
      InsertSorts(f, l[1..]);
      InsertHolds(f, l[1..]);
    }
  }

  lemma {:induction false} SortSorts(l: seq<File>)
    ensures OldestFirst(Sort(l)) && multiset(Sort(l)) == multiset(l)
  {
    if l != [] {
      SortSorts(l[1..]);
      InsertSorts(l[0], Sort(l[1..]));
      assert l == [l[0]] + l[1..];
    }
  }

  lemma {:induction false} CutIsLeast(p: Policy, l: seq<File>)
    ensures Fits(p, l[Cut(p, l)..])
    ensures forall m :: 0 <= m < Cut(p, l) ==> !Fits(p, l[m..])
  {
    if l != [] && !Fits(p, l) {
      CutIsLeast(p, l[1..]);
      assert l[1..][Cut(p, l[1..])..] == l[Cut(p, l)..];
      forall m | 0 <= m < Cut(p, l) ensures !Fits(p, l[m..]) {
        if m > 0 { assert l[1..][m - 1..] == l[m..]; } else { assert l[0..] == l; }
      }
    } else {
      assert l[0..] == l;
    }
  }

  /** Removed and surviving files are the input, nothing lost and nothing twice. */
  lemma PruneLosesNothing(p: Policy, now: int, files: seq<File>)
    ensures multiset(Removed(p, now, files)) + multiset(Survivors(p, now, files)) == multiset(files)
  {
    var live := Live(p, now, files);
    var kept := Sort(live);
    Split(p, now, files);
    SortSorts(live);
    CutSplits(p, kept);
    hide Sort, Live, Cut;
  }

  lemma CutSplits(p: Policy, kept: seq<File>)
    ensures multiset(kept[..Cut(p, kept)]) + multiset(kept[Cut(p, kept)..]) == multiset(kept)
  {
    assert kept == kept[..Cut(p, kept)] + kept[Cut(p, kept)..];
  }

  /** Expired files go, and what stays is within both budgets. */
  lemma PruneIsEnough(p: Policy, now: int, files: seq<File>)
    ensures forall f :: f in files && Outlived(p, now, f) ==>
              f in Removed(p, now, files) && f !in Survivors(p, now, files)
    ensures Fits(p, Survivors(p, now, files))
  {
    var live := Live(p, now, files);
    var kept := Sort(live);
    Split(p, now, files);
    SortSorts(live);
    CutIsLeast(p, kept);
    forall f | f in kept ensures f in live { assert f in multiset(kept); }
  }

  /** The live files oldest first: the part that goes, and the part that stays. */
  lemma Parts(p: Policy, now: int, files: seq<File>, kept: seq<File>)
    requires kept == Sort(Live(p, now, files))
    ensures Removed(p, now, files)[|Expired(p, now, files)|..] == kept[..Cut(p, kept)]
    ensures Survivors(p, now, files) == kept[Cut(p, kept)..]
  {
  }

  lemma SuffixNeedsCut(p: Policy, kept: seq<File>, cut: nat, m: nat)
    requires cut == Cut(p, kept) && m < cut <= |kept|
    ensures !Fits(p, kept[..cut][m..] + kept[cut..])
  {
    CutIsLeast(p, kept);
    assert kept[..cut][m..] + kept[cut..] == kept[m..];
  }

  lemma LiveIsLive(p: Policy, now: int, files: seq<File>, f: File)
    requires f in Sort(Live(p, now, files))
    ensures !Outlived(p, now, f)
  {
    Split(p, now, files);
    SortSorts(Live(p, now, files));
    assert f in multiset(Sort(Live(p, now, files)));
  }

  /** What a cut at the least fitting place leaves on both sides. */
  lemma CutIsNeeded(p: Policy, kept: seq<File>, gone: seq<File>, stay: seq<File>)
    requires OldestFirst(kept) && gone == kept[..Cut(p, kept)] && stay == kept[Cut(p, kept)..]
    ensures OldestFirst(gone + stay)
    ensures forall m :: 0 <= m < |gone| ==> !Fits(p, gone[m..] + stay)
    ensures forall f, g :: f in gone && g in stay ==> f.modTime <= g.modTime
  {
    assert gone + stay == kept;
    var cut := Cut(p, kept);
    hide Cut, Fits;
    forall m | 0 <= m < |gone| ensures !Fits(p, gone[m..] + stay) { SuffixNeedsCut(p, kept, cut, m); }
  }

  /**
   * No live file goes without need: the live files removed are the shortest oldest-first prefix
   * that brings the rest within budget, so none of them is newer than a survivor.
   */
  lemma PruneIsNeeded(p: Policy, now: int, files: seq<File>)
    ensures var gone := Removed(p, now, files)[|Expired(p, now, files)|..];
            var stay := Survivors(p, now, files);
            && OldestFirst(gone + stay)
            && (forall f :: f in gone ==> !Outlived(p, now, f))
            && (forall m :: 0 <= m < |gone| ==> !Fits(p, gone[m..] + stay))
            && (forall f, g :: f in gone && g in stay ==> f.modTime <= g.modTime)
  {
    var kept := Sort(Live(p, now, files));
    var gone, stay := kept[..Cut(p, kept)], kept[Cut(p, kept)..];
    Parts(p, now, files, kept);
    SortSorts(Live(p, now, files));
    CutIsNeeded(p, kept, gone, stay);
    hide Sort, Live, Cut, Fits, Outlived, Removed, Survivors, OldestFirst, Expired;
    forall f | f in gone ensures !Outlived(p, now, f) { LiveIsLive(p, now, files, f); }
  }

  /** How long a file may live; no limit when it is not positive. */
  function Lifetime(p: Policy, f: File): int { if f.positive then p.ttl else p.negativeTTL }

  /**
   * A file older than the lifetime of its kind is removed. What survives is not, and together it keeps to each
   * positive budget; and when what is not too old keeps to them, all of it survives.
   */
  lemma PruneByAge(p: Policy, now: int, files: seq<File>)
    ensures forall f :: f in files && 0 < Lifetime(p, f) < now - f.modTime ==> f in Removed(p, now, files)
    ensures forall f :: f in Survivors(p, now, files) ==> Lifetime(p, f) <= 0 || now - f.modTime <= Lifetime(p, f)
    ensures 0 < p.maxBytes ==> Bytes(Survivors(p, now, files)) <= p.maxBytes
    ensures 0 < p.maxEntries ==> Positives(Survivors(p, now, files)) <= p.maxEntries
    ensures var kept := Sort(Live(p, now, files));
            (p.maxBytes <= 0 || Bytes(kept) <= p.maxBytes) && (p.maxEntries <= 0 || Positives(kept) <= p.maxEntries) ==>
              forall f :: f in Removed(p, now, files) ==> 0 < Lifetime(p, f) < now - f.modTime
  {
    PruneIsEnough(p, now, files);
    Split(p, now, files);
    var kept := Sort(Live(p, now, files));
    forall f | f in Survivors(p, now, files) ensures !Outlived(p, now, f) {
      assert f in kept;
      LiveIsLive(p, now, files, f);
    }
    assert Fits(p, kept) ==> Cut(p, kept) == 0 && kept[..0] == [];
    hide Sort, Live, Expired, Bytes, Positives;
  }
}
