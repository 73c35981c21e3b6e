/**
 * The in-memory embedding cache. The code keeps a map with a tick per entry and scans for the
 * smallest tick when it is full; the specification is the list of keys from the least to the most
 * recently used.
 */
module EmbeddingCache {
  import opened Wrappers
  import opened Text

  type Vector = seq<real>

  const MAX_ENTRIES: nat := 4096

  datatype Entry = Entry(vector: Vector, tick: nat, storedAt: int)

  // ----- the specification

  datatype Held = Held(vector: Vector, storedAt: int)

  /** The cached entries, and their keys in order of use. */
  datatype Lru = Lru(order: seq<string>, held: map<string, Held>)

  const Empty := Lru([], map[])

  function Without(l: seq<string>, k: string): (r: seq<string>)
    ensures forall x :: x in r <==> x in l && x != k
    ensures |r| <= |l|
  {
    if l == [] then []
    else
      assert l == [l[0]] + l[1..];
      if l[0] == k then Without(l[1..], k) else [l[0]] + Without(l[1..], k)
  }

  predicate Expired(storedAt: int, ttl: int, now: int) { 0 < ttl < now - storedAt }

  /** A lookup makes a live entry the most recent one and drops an expired one. */
  function GetSpec(c: Lru, k: string, ttl: int, now: int): (Lru, Option<Vector>) {
    if k !in c.held then (c, None)
    else if Expired(c.held[k].storedAt, ttl, now) then (Lru(Without(c.order, k), c.held - {k}), None)
    else (c.(order := Without(c.order, k) + [k]), Some(c.held[k].vector))
  }

  function Written(c: Lru, k: string, v: Vector, now: int): Lru {
    Lru(Without(c.order, k) + [k], c.held[k := Held(v, now)])
  }

  /** Using an entry writes back what it holds. */
  lemma GetHit(c: Lru, k: string)
    requires k in c.held
    ensures Written(c, k, c.held[k].vector, c.held[k].storedAt) == c.(order := Without(c.order, k) + [k])
  {
    assert c.held[k := c.held[k]] == c.held;
  }

  function Evict(c: Lru): Lru {
    if c.order == [] then c else Lru(c.order[1..], c.held - {c.order[0]})
  }

  /** A store makes its entry the most recent one and drops the least recent one if need be. */
  function SetSpec(c: Lru, k: string, v: Vector, now: int): Lru {
    if Blank(k) || v == [] then c
    else if |Written(c, k, v, now).order| > MAX_ENTRIES then Evict(Written(c, k, v, now))
    else Written(c, k, v, now)
  }

  // ----- increasing lists

  /** The keys are listed in strictly increasing order of f. */
  ghost predicate Increasing(l: seq<string>, f: string -> nat) {
    l == [] || ((forall x :: x in l[1..] ==> f(l[0]) < f(x)) && Increasing(l[1..], f))
  }

  lemma {:induction false} IncreasingWithout(l: seq<string>, f: string -> nat, k: string)
    requires Increasing(l, f)
    ensures Increasing(Without(l, k), f)
    ensures k in l ==> |Without(l, k)| == |l| - 1
    ensures k !in l ==> Without(l, k) == l
  {
    if l != [] {
      IncreasingWithout(l[1..], f, k);
      var m := Without(l[1..], k);
      assert ([l[0]] + m)[1..] == m;
      assert l == [l[0]] + l[1..];
      if l[0] == k { assert k !in l[1..]; }
    }
  }

  lemma {:induction false} IncreasingAppend(l: seq<string>, f: string -> nat, k: string)
    requires Increasing(l, f) && forall x :: x in l ==> f(x) < f(k)
    ensures Increasing(l + [k], f)
  {
    if l != [] {
      assert (l + [k])[1..] == l[1..] + [k];
      assert forall x :: x in l[1..] + [k] ==> x in l[1..] || x == k;
      IncreasingAppend(l[1..], f, k);
    }
  }

  lemma {:induction false} IncreasingAgree(l: seq<string>, f: string -> nat, g: string -> nat)
    requires Increasing(l, f) && forall x :: x in l ==> f(x) == g(x)
    ensures Increasing(l, g)
  {
    if l != [] { IncreasingAgree(l[1..], f, g); }
  }

  lemma {:induction false} IncreasingCount<T>(l: seq<string>, f: string -> nat, m: map<string, T>)
    requires Increasing(l, f) && forall k :: k in m <==> k in l
    ensures |m| == |l|
  {
    if l == [] {
      assert m.Keys == {};
    } else {
      assert l == [l[0]] + l[1..];
      assert l[0] !in l[1..];
      IncreasingCount(l[1..], f, m - {l[0]});
      assert m.Keys == (m - {l[0]}).Keys + {l[0]};
    }
  }

  /** The first key of an increasing list is the one key with the smallest value. */
  lemma FirstIsLeast(l: seq<string>, f: string -> nat, k: string)
    requires Increasing(l, f) && k in l && forall x :: x in l ==> f(k) <= f(x)
    ensures k == l[0]
  {
    assert l == [l[0]] + l[1..];
  }

  lemma FirstOnce(l: seq<string>, f: string -> nat)
    requires Increasing(l, f) && l != []
    ensures Without(l, l[0]) == l[1..]
  {
    IncreasingWithout(l[1..], f, l[0]);
  }

  // ----- the class

  function TickOf(items: map<string, Entry>): string -> nat {
    (k: string) => if k in items then items[k].tick else 0
  }

  /** The map and the tick counter hold exactly the listed keys, in tick order. */
  ghost predicate Represents(order: seq<string>, items: map<string, Entry>, tick: nat) {
    && Increasing(order, TickOf(items))
    && (forall k :: k in order <==> k in items)
    && (forall k :: k in items ==> items[k].tick <= tick && k != "" && items[k].vector != [])
  }

  function HeldOf(items: map<string, Entry>): map<string, Held> {
    map k | k in items :: Held(items[k].vector, items[k].storedAt)
  }

  lemma HeldOfWrite(items: map<string, Entry>, k: string, e: Entry)
    ensures HeldOf(items[k := e]) == HeldOf(items)[k := Held(e.vector, e.storedAt)]
  {
  }

  lemma HeldOfRemove(items: map<string, Entry>, k: string)
    ensures HeldOf(items - {k}) == HeldOf(items) - {k}
  {
  }

  lemma RemoveRepresents(order: seq<string>, items: map<string, Entry>, tick: nat, k: string)
    requires Represents(order, items, tick)
    ensures Represents(Without(order, k), items - {k}, tick)
  {
    IncreasingWithout(order, TickOf(items), k);
    IncreasingAgree(Without(order, k), TickOf(items), TickOf(items - {k}));
  }

  lemma WriteOrders(order: seq<string>, items: map<string, Entry>, tick: nat, k: string, e: Entry)
    requires Represents(order, items, tick) && e.tick == tick + 1
    ensures Increasing(Without(order, k) + [k], TickOf(items[k := e]))
    ensures forall x :: x in Without(order, k) <==> x in order && x != k
  {
    var rest := Without(order, k);
    IncreasingWithout(order, TickOf(items), k);
    hide Without, Increasing;
    IncreasingAgree(rest, TickOf(items), TickOf(items[k := e]));
    IncreasingAppend(rest, TickOf(items[k := e]), k);
  }

  /** Writing an entry with a new highest tick makes its key the most recent one. */
  lemma WriteRepresents(order: seq<string>, items: map<string, Entry>, tick: nat, k: string, v: Vector, at: int)
    requires Represents(order, items, tick) && k != "" && v != []
    ensures Represents(Without(order, k) + [k], items[k := Entry(v, tick + 1, at)], tick + 1)
  {
    hide Without, Increasing, TickOf;
    WriteOrders(order, items, tick, k, Entry(v, tick + 1, at));
    assert forall x :: x in Without(order, k) + [k] <==> x in Without(order, k) || x == k;
  }

  class Cache {
    var tick: nat
    var items: map<string, Entry>
    ghost var order: seq<string>

    ghost function View(): Lru
      reads this
    {
      Lru(order, HeldOf(items))
    }

    ghost predicate Valid()
      reads this
    {
      Represents(order, items, tick) && |order| <= MAX_ENTRIES
    }

    constructor ()
      ensures Valid() && View() == Empty
    {
      tick, items, order := 0, map[], [];
    }

    /** Stores an entry under the next tick. */
    method Write(key: string, vector: Vector, at: int)
      requires Represents(order, items, tick) && key != "" && vector != []
      modifies this
      ensures Represents(order, items, tick)
      ensures View() == Written(old(View()), key, vector, at)
    {
      hide Represents, Without, HeldOf;
      WriteRepresents(order, items, tick, key, vector, at);
      HeldOfWrite(items, key, Entry(vector, tick + 1, at));
      tick := tick + 1;
      items := items[key := Entry(vector, tick, at)];
      order := Without(order, key) + [key];
    }

    method Delete(key: string)
      requires Represents(order, items, tick)
      modifies this
      ensures Represents(order, items, tick)
      ensures View() == Lru(Without(old(order), key), old(View()).held - {key})
    {
      RemoveRepresents(order, items, tick, key);
      HeldOfRemove(items, key);
      items := items - {key};
      order := Without(order, key);
    }

    method Get(key: string, ttl: int, now: int) returns (v: Option<Vector>)
      requires Valid()
      modifies this
      ensures Valid()
      ensures (View(), v) == GetSpec(old(View()), key, ttl, now)
    {
      if key !in items { return None; }
      var entry := items[key];
      GetHit(View(), key);
      IncreasingWithout(order, TickOf(items), key);
      if ttl > 0 && now - entry.storedAt > ttl {
        Delete(key);
        return None;
      }
      Write(key, entry.vector, entry.storedAt);
      return Some(entry.vector);
    }

    method Set(key: string, vector: Vector, now: int)
      requires Valid()
      modifies this
      ensures Valid()
      ensures View() == SetSpec(old(View()), key, vector, now)
    {
      if Blank(key) || |vector| == 0 { return; }
      Write(key, vector, now);
      IncreasingCount(order, TickOf(items), items);
      if |items| > MAX_ENTRIES {
        EvictOldest();
      }
    }

    /** Drops the entry with the smallest tick. */
    method EvictOldest()
      requires Represents(order, items, tick) && order != []
      modifies this
      ensures Represents(order, items, tick) && View() == Evict(old(View()))
    {
      var oldestKey := FindOldest();
      FirstIsLeast(order, TickOf(items), oldestKey);
      FirstOnce(order, TickOf(items));
      if oldestKey != "" {
        Delete(oldestKey);
      }
    }

    /** Scans the map in no particular order. */
    method FindOldest() returns (oldestKey: string)
      requires Represents(order, items, tick) && order != []
      ensures oldestKey in items && forall k :: k in items ==> items[oldestKey].tick <= items[k].tick
    {
      var oldestTick, first := 0, true;
      oldestKey := "";
      var rest := items.Keys;
      assert order[0] in items;
      while rest != {}
        invariant rest <= items.Keys && (first <==> rest == items.Keys)
        invariant !first ==> oldestKey in items && items[oldestKey].tick == oldestTick
        invariant forall k :: k in items && k !in rest ==> oldestTick <= items[k].tick
        decreases rest
      {
        var key :| key in rest;
        if first || items[key].tick < oldestTick {
          first, oldestKey, oldestTick := false, key, items[key].tick;
        }
        rest := rest - {key};
      }
    }
  }

  // ----- whole runs

  datatype Op = Get(key: string, ttl: int, now: int) | Set(key: string, vector: Vector, now: int)

  function Step(c: Lru, op: Op): Lru {
    match op
    case Get(k, ttl, now) => GetSpec(c, k, ttl, now).0
    case Set(k, v, now) => SetSpec(c, k, v, now)
  }

  function Run(ops: seq<Op>): Lru {
    if ops == [] then Empty else Step(Run(ops[..|ops| - 1]), ops[|ops| - 1])
  }

  /** The operation can make its key the most recently used one. */
  predicate Uses(op: Op, k: string) { op.key == k && (op.Get? || (!Blank(k) && op.vector != [])) }

  /** One plus the position of the last operation that uses k; 0 if there is none. */
  function LastUse(ops: seq<Op>, k: string): (n: nat)
    ensures n <= |ops|
  {
    if ops == [] then 0
    else if Uses(ops[|ops| - 1], k) then |ops|
    else LastUse(ops[..|ops| - 1], k)
  }

  ghost predicate Ordered(c: Lru, f: string -> nat) {
    Increasing(c.order, f) && |c.order| <= MAX_ENTRIES && forall k :: k in c.order <==> k in c.held
  }

  lemma RemovalOrdered(c: Lru, k: string, f: string -> nat, g: string -> nat)
    requires Ordered(c, f) && forall x :: x != k ==> f(x) == g(x)
    ensures Ordered(Lru(Without(c.order, k), c.held - {k}), g)
    ensures k in c.held ==> |Without(c.order, k)| < |c.order|
  {
    IncreasingWithout(c.order, f, k);
    IncreasingAgree(Without(c.order, k), f, g);
  }

  lemma AppendOrdered(c: Lru, k: string, h: Held, g: string -> nat)
    requires Ordered(c, g) && k !in c.held && (forall x :: x != k ==> g(x) < g(k))
    ensures var n := Lru(c.order + [k], c.held[k := h]);
            Ordered(if |n.order| > MAX_ENTRIES then Evict(n) else n, g)
  {
    var all := c.order + [k];
    IncreasingAppend(c.order, g, k);
    assert forall x :: x in all <==> x in c.order || x == k;
    assert all == [all[0]] + all[1..];
  }

  lemma GetOrdered(c: Lru, k: string, ttl: int, now: int, f: string -> nat, g: string -> nat)
    requires Ordered(c, f)
    requires forall x :: x != k ==> f(x) == g(x) && g(x) < g(k)
    ensures Ordered(GetSpec(c, k, ttl, now).0, g)
  {
    RemovalOrdered(c, k, f, g);
    if k !in c.held {
      IncreasingAgree(c.order, f, g);
    } else {
      AppendOrdered(Lru(Without(c.order, k), c.held - {k}), k, c.held[k], g);
      assert (c.held - {k})[k := c.held[k]] == c.held;
    }
  }

  lemma SetOrdered(c: Lru, k: string, v: Vector, now: int, f: string -> nat, g: string -> nat)
    requires Ordered(c, f)
    requires forall x :: x != k ==> f(x) == g(x) && g(x) < g(k)
    ensures var n := Written(c, k, v, now); Ordered(if |n.order| > MAX_ENTRIES then Evict(n) else n, g)
  {
    RemovalOrdered(c, k, f, g);
    AppendOrdered(Lru(Without(c.order, k), c.held - {k}), k, Held(v, now), g);
    assert (c.held - {k})[k := Held(v, now)] == c.held[k := Held(v, now)];
  }

  /** One operation keeps the order of use, when g is f with the used key raised above all others. */
  lemma StepOrdered(c: Lru, op: Op, f: string -> nat, g: string -> nat)
    requires Ordered(c, f)
    requires forall k :: k != op.key ==> f(k) == g(k)
    requires if Uses(op, op.key) then forall k :: k != op.key ==> g(k) < g(op.key) else f(op.key) == g(op.key)
    ensures Ordered(Step(c, op), g)
  {
    if !Uses(op, op.key) {
      IncreasingAgree(c.order, f, g);
    } else {
      match op
      case Get(k, ttl, now) => GetOrdered(c, k, ttl, now, f, g);
      case Set(k, v, now) => SetOrdered(c, k, v, now, f, g);
    }
  }

  /**
   * After any run the cache is bounded and lists its keys by when they were last used. The key a
   * full cache drops is the first of the list, so it is the least recently used one.
   */
  lemma {:induction false} RunIsByLastUse(ops: seq<Op>)
    ensures Ordered(Run(ops), (k: string) => LastUse(ops, k))
  {
    var g := (k: string) => LastUse(ops, k);
    if ops != [] {
      var was := ops[..|ops| - 1];
      var f := (k: string) => LastUse(was, k);
      RunIsByLastUse(was);
      StepOrdered(Run(was), ops[|ops| - 1], f, g);
    }
  }

  /** A store keeps what it wrote; it loses at most one other key, the least recent, and only when full. */
  lemma SetKeepsWritten(c: Lru, f: string -> nat, k: string, v: Vector, now: int)
    requires Ordered(c, f) && !Blank(k) && v != []
    ensures var n := SetSpec(c, k, v, now);
            && k in n.held && n.held[k] == Held(v, now) && |n.order| <= 4096
            && forall q :: q in c.held && q != k ==>
                 if q in n.held then n.held[q] == c.held[q]
                 else |c.order| == 4096 && k !in c.held && forall r :: r in c.held ==> f(q) <= f(r)
  {
    var rest := Without(c.order, k);
    IncreasingWithout(c.order, f, k);
    if |rest| == MAX_ENTRIES {
      assert (rest + [k])[0] == c.order[0];
      assert c.order == [c.order[0]] + c.order[1..];
    }
  }

  // ----- what a lookup finds

  /** The operation stores an entry for k. */
  predicate Stores(op: Op, k: string) { op.Set? && op.key == k && !Blank(k) && op.vector != [] }

  /** The last operation that stores an entry for k. */
  function LastStore(ops: seq<Op>, k: string): Option<Op> {
    if ops == [] then None
    else if Stores(ops[|ops| - 1], k) then Some(ops[|ops| - 1])
    else LastStore(ops[..|ops| - 1], k)
  }

  lemma StepHolds(c: Lru, op: Op, k: string)
    ensures var n := Step(c, op);
            && (k in n.held && !Stores(op, k) ==> k in c.held && n.held[k] == c.held[k])
            && (k in n.held && Stores(op, k) ==> n.held[k] == Held(op.vector, op.now))
  {
  }

  /** In every run, what the cache holds for a key is what was stored for it last. */
  lemma {:induction false} HoldsLastStore(ops: seq<Op>, k: string)
    ensures k in Run(ops).held ==>
              var s := LastStore(ops, k);
              s.Some? && s.value.Set? && Run(ops).held[k] == Held(s.value.vector, s.value.now)
  {
    if ops != [] {
      HoldsLastStore(ops[..|ops| - 1], k);
      StepHolds(Run(ops[..|ops| - 1]), ops[|ops| - 1], k);
    }
  }

  /**
   * In every run, a lookup that hits gives the vector stored last for the key, and not later than the time to
   * live after it was stored; a key that the cache holds and whose time is not up does hit.
   */
  lemma HitIsFresh(ops: seq<Op>, k: string, ttl: int, now: int)
    ensures var (_, v) := GetSpec(Run(ops), k, ttl, now);
            var s := LastStore(ops, k);
            && (v.Some? ==> s.Some? && s.value.Set? && v.value == s.value.vector)
            && (v.Some? ==> s.Some? && s.value.Set? && (ttl <= 0 || now <= s.value.now + ttl))
            && (k in Run(ops).held && (ttl <= 0 || now <= Run(ops).held[k].storedAt + ttl) ==> v.Some?)
  {
    HoldsLastStore(ops, k);
  }
}
