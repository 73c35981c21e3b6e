/**
 * The keyed flight lock: a caller takes one lock per cache key, in sorted order, so that one caller
 * at a time fetches a key. A key is taken when the map holds a channel for it; releasing it closes
 * the channel, which wakes everyone who waits on it.
 */
module FlightGroup {
  import opened Wrappers
  import opened Text

  /** Byte-wise string order. */
  predicate Less(a: string, b: string) {
    b != "" && (a == "" || a[0] < b[0] || (a[0] == b[0] && Less(a[1..], b[1..])))
  }

  lemma {:induction false} LessIrreflexive(a: string)
    ensures !Less(a, a)
  {
    if a != "" { LessIrreflexive(a[1..]); }
  }

  lemma {:induction false} LessTransitive(a: string, b: string, c: string)
    requires Less(a, b) && Less(b, c)
    ensures Less(a, c)
  {
    if a != "" && a[0] == b[0] == c[0] { LessTransitive(a[1..], b[1..], c[1..]); }
  }

  lemma {:induction false} LessTotal(a: string, b: string)
    requires a != b
    ensures Less(a, b) || Less(b, a)
  {
    if a != "" && b != "" && a[0] == b[0] {
      assert a == [a[0]] + a[1..] && b == [b[0]] + b[1..];
      LessTotal(a[1..], b[1..]);
    }
  }

  ghost predicate StrictlySorted(s: seq<string>) {
    forall i, j :: 0 <= i < j < |s| ==> Less(s[i], s[j])
  }

  /** Inserts a new key into a sorted list. */
  function Insert(s: seq<string>, k: string): (r: seq<string>)
    ensures forall x :: x in r <==> x in s || x == k
  {
    if s == [] || Less(k, s[0]) then [k] + s
    else
      assert s == [s[0]] + s[1..];
      [s[0]] + Insert(s[1..], k)
  }

  lemma {:induction false} InsertSorted(s: seq<string>, k: string)
    requires StrictlySorted(s) && k !in s
    ensures StrictlySorted(Insert(s, k))
  {
    if s == [] {
    } else if Less(k, s[0]) {
      forall j | 0 <= j < |s| ensures Less(k, s[j]) {
        if j > 0 { LessTransitive(k, s[0], s[j]); }
      }
    } else {
      LessTotal(k, s[0]);
      InsertSorted(s[1..], k);
      var r := Insert(s[1..], k);
      forall j | 0 <= j < |r| ensures Less(s[0], r[j]) {
        assert r[j] in r;
        if r[j] != k { assert r[j] in s[1..]; }
      }
    }
  }

  /** The distinct non-blank keys, sorted. */
  function SortedUnique(items: seq<string>): (r: seq<string>)
    ensures forall k :: k in r <==> k in items && !Blank(k)
  {
    if items == [] then []
    else
      var rest := SortedUnique(items[1..]);
      if Blank(items[0]) || items[0] in rest then rest else Insert(rest, items[0])
  }

  lemma {:induction false} SortedUniqueIsSorted(items: seq<string>)
    ensures StrictlySorted(SortedUnique(items))
  {
    if items != [] {
      SortedUniqueIsSorted(items[1..]);
      var rest := SortedUnique(items[1..]);
      if !Blank(items[0]) && items[0] !in rest { InsertSorted(rest, items[0]); }
    }
  }

  /** A strictly sorted list is determined by its elements. */
  lemma {:induction false} SortedListsAgree(a: seq<string>, b: seq<string>)
    requires StrictlySorted(a) && StrictlySorted(b)
    requires forall k :: k in a <==> k in b
    ensures a == b
  {
    assert b != [] ==> b[0] in b;
    if a != [] {
      assert a[0] in a;
      var i :| 0 <= i < |b| && b[i] == a[0];
      var j :| 0 <= j < |a| && a[j] == b[0];
      LessIrreflexive(a[0]);
      if 0 < i && 0 < j { LessTransitive(a[0], b[0], a[0]); }
      forall k ensures k in a[1..] <==> k in b[1..] {
        InTail(a, k);
        InTail(b, k);
      }
      SortedListsAgree(a[1..], b[1..]);
    }
  }

  lemma InTail(s: seq<string>, k: string)
    requires s != [] && StrictlySorted(s)
    ensures k in s[1..] <==> k in s && k != s[0]
  {
    LessIrreflexive(s[0]);
    if k in s[1..] {
      var i :| 0 <= i < |s[1..]| && s[1..][i] == k;
      assert Less(s[0], s[i + 1]);
    }
    if k in s && k != s[0] {
      var i :| 0 <= i < |s| && s[i] == k;
      assert s[1..][i - 1] == k;
    }
  }

  predicate Distinct(s: seq<string>) {
    forall a, b :: 0 <= a < b < |s| ==> s[a] != s[b]
  }

  method CollectKeys(items: seq<string>) returns (out: seq<string>)
    ensures forall k :: k in out <==> k in items && !Blank(k)
    ensures Distinct(out)
  {
    var seen: set<string> := {};
    out := [];
    for i := 0 to |items|
      invariant forall k :: k in seen <==> k in items[..i] && !Blank(k)
      invariant forall k :: k in out <==> k in seen
      invariant Distinct(out)
    {
      assert items[..i + 1] == items[..i] + [items[i]];
      if !Blank(items[i]) && items[i] !in seen {
        seen := seen + {items[i]};
        out := out + [items[i]];
      }
    }
  }

  method SortStrings(items: seq<string>) returns (out: seq<string>)
    requires Distinct(items)
    ensures StrictlySorted(out)
    ensures forall k :: k in out <==> k in items
  {
    out := [];
    for i := 0 to |items|
      invariant StrictlySorted(out)
      invariant forall k :: k in out <==> k in items[..i]
    {
      InsertSorted(out, items[i]);
      out := Insert(out, items[i]);
    }
  }

  /** sortedUnique: the keys not seen before, sorted. */
  method SortKeys(items: seq<string>) returns (out: seq<string>)
    ensures out == SortedUnique(items)
    ensures StrictlySorted(out)
  {
    var distinct := CollectKeys(items);
    out := SortStrings(distinct);
    SortedUniqueIsSorted(items);
    SortedListsAgree(out, SortedUnique(items));
  }

  // ----- the two locked regions

  /** Channels are numbered; `closed` holds those that were closed. */
  datatype Flights = Flights(waiters: map<string, nat>, made: nat, closed: set<nat>)

  function TakeRegion(f: Flights, key: string): (Flights, Option<nat>) {
    if key in f.waiters then (f, Some(f.waiters[key]))
    else (f.(waiters := f.waiters[key := f.made], made := f.made + 1), None)
  }

  function UnlockRegion(f: Flights, owned: seq<string>): Flights
    requires forall k :: k in owned ==> k in f.waiters
  {
    f.(waiters := map k | k in f.waiters && k !in owned :: f.waiters[k],
       closed := f.closed + set k | k in owned :: f.waiters[k])
  }

  class Group {
    var waiters: map<string, nat>
    var made: nat
    var closed: set<nat>

    ghost function View(): Flights
      reads this
    {
      Flights(waiters, made, closed)
    }

    constructor ()
      ensures View() == Flights(map[], 0, {})
    {
      waiters, made, closed := map[], 0, {};
    }

    /** One turn of the loop in lock: take the key, or learn which channel to wait on. */
    method Take(key: string) returns (waiter: Option<nat>)
      modifies this
      ensures (View(), waiter) == TakeRegion(old(View()), key)
    {
      if key in waiters { return Some(waiters[key]); }
      waiters := waiters[key := made];
      made := made + 1;
      return None;
    }

    method Unlock(owned: seq<string>)
      requires forall k :: k in owned ==> k in waiters
      requires Distinct(owned)
      modifies this
      ensures View() == UnlockRegion(old(View()), owned)
    {
      for i := 0 to |owned|
        invariant made == old(made)
        invariant waiters == map k | k in old(waiters) && k !in owned[..i] :: old(waiters)[k]
        invariant closed == old(closed) + set k | k in owned[..i] :: old(waiters)[k]
      {
        assert owned[..i + 1] == owned[..i] + [owned[i]];
        closed := closed + {waiters[owned[i]]};
        waiters := waiters - {owned[i]};
      }
      assert owned[..|owned|] == owned;
    }
  }
}
