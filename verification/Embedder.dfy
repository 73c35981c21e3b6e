/**
 * Embed: two miss passes around the flight lock, one request for what is still missing, stale
 * entries when the request fails. Other calls may store, prune and refuse before every lookup, before
 * the check for refusals and during the request.
 */
module Embedder {
  import opened Wrappers
  import opened Text
  import opened EmbeddingCache

  /**
   * The embedding server as a function of one input, the normalisation of a vector, and the cache
   * key of an input. Digests are taken to tell trimmed inputs apart, and no key is blank.
   */
  datatype World = World(server: string -> Vector, norm: Vector -> Vector, key: string -> string) {
    ghost predicate Sound() {
      && (forall v :: norm(norm(v)) == norm(v))
      && (forall a, b :: Trim(a) == a && Trim(b) == b && key(a) == key(b) ==> a == b)
      && (forall a :: !Blank(key(a)))
    }

    /** The embedding a caller is promised for one input. */
    function Want(input: string): Vector { norm(server(input)) }
  }

  datatype Policy = Policy(enabled: bool, hasDir: bool, ttl: int, negativeTTL: int, staleIfError: bool)

  /** A file of the persistent cache; `usable` says that schema, key hash, identity and values check out. */
  datatype DiskEntry = DiskEntry(vector: Vector, storedAt: int, usable: bool)

  /** The answer to one request: vectors, or a failure that may be the caller's own cancellation. */
  datatype Reply = Vectors(vectors: seq<Vector>) | Failed(cancelled: bool)

  /** What other calls do at one point: store right vectors, remove files, refuse keys. */
  datatype Noise = Noise(others: seq<string>, pruned: set<string>, refused: map<string, int>, now: int)

  const SILENCE := Noise([], {}, map[], 0)

  /** The noise before each lookup of the two passes, before the check for refusals, and during the request. */
  datatype Schedule = Schedule(first: seq<Noise>, second: seq<Noise>, check: Noise, request: Noise)

  predicate Distinct(s: seq<string>) { forall i, j :: 0 <= i < j < |s| ==> s[i] != s[j] }

  datatype EmbedError = NegativeHit | RequestFailed

  /** The server answers every input of a complete reply with its own vector. */
  ghost predicate Honest(w: World, reply: seq<string> -> Reply) {
    forall ins, i :: reply(ins).Vectors? && |reply(ins).vectors| == |ins| && 0 <= i < |ins| ==>
      reply(ins).vectors[i] == w.server(ins[i])
  }

  /** The inputs that reach the server: trimmed, blanks dropped. */
  function Compact(inputs: seq<string>): seq<string> {
    if inputs == [] then []
    else
      var init := Compact(inputs[..|inputs| - 1]);
      var last := Trim(inputs[|inputs| - 1]);
      if last == "" then init else init + [last]
  }

  /** Every input counts on its own: a blank one is dropped, any other one trimmed, and their order kept. */
  lemma {:induction false} CompactOneByOne(a: seq<string>, b: seq<string>, x: string)
    ensures Compact(a + b) == Compact(a) + Compact(b)
    ensures Compact([x]) == if Blank(x) then [] else [Trim(x)]
    decreases |b|
  {
    assert [x][..0] == [] && Compact([]) == [];
    if b == [] {
      assert a + b == a;
    } else {
      var n := |b| - 1;
      assert (a + b)[..|a| + n] == a + b[..n];
      CompactOneByOne(a, b[..n], x);
    }
  }

  predicate AllTrimmed(inputs: seq<string>) { forall x :: x in inputs ==> Trim(x) == x }

  lemma TrimTwice(s: string)
    ensures Trim(Trim(s)) == Trim(s)
  {
    TrimShape(s);
    TrimOfTrimmed(Trim(s));
  }

  lemma {:induction false} CompactIsTrimmed(inputs: seq<string>)
    ensures AllTrimmed(Compact(inputs))
  {
    if inputs != [] {
      CompactIsTrimmed(inputs[..|inputs| - 1]);
      TrimTwice(inputs[|inputs| - 1]);
    }
  }

  function WantAll(w: World, clean: seq<string>): seq<Vector> {
    seq(|clean|, i requires 0 <= i < |clean| => w.Want(clean[i]))
  }

  class Embedder {
    const world: World
    const policy: Policy
    const endpoint: string
    const memory: Cache
    var disk: map<string, DiskEntry>
    var negatives: map<string, int>

    constructor (world: World, policy: Policy, endpoint: string)
      requires world.Sound()
      ensures Consistent() && fresh(memory)
      ensures this.world == world && this.policy == policy && this.endpoint == endpoint
    {
      this.world, this.policy, this.endpoint := world, policy, endpoint;
      memory := new Cache();
      disk, negatives := map[], map[];
    }

    ghost predicate MemoryRight()
      reads memory
    {
      forall x :: Trim(x) == x && world.key(x) in memory.items ==> memory.items[world.key(x)].vector == world.Want(x)
    }

    ghost predicate DiskRight()
      reads this`disk
    {
      forall x :: Trim(x) == x && world.key(x) in disk && disk[world.key(x)].usable ==>
        world.norm(disk[world.key(x)].vector) == world.Want(x)
    }

    /** Whatever the caches hold for an input is the vector promised for it. */
    ghost predicate Consistent()
      reads this`disk, memory
    {
      world.Sound() && memory.Valid() && MemoryRight() && DiskRight()
    }

    function DiskRead(files: map<string, DiskEntry>, key: string, allowExpired: bool, now: int): Option<Vector> {
      if !policy.enabled || !policy.hasDir || key !in files || !files[key].usable then None
      else if !allowExpired && Expired(files[key].storedAt, policy.ttl, now) then None
      else Some(world.norm(files[key].vector))
    }

    function DiskGet(key: string, allowExpired: bool, now: int): Option<Vector>
      reads this`disk
    {
      DiskRead(disk, key, allowExpired, now)
    }

    /** The memory once a vector was stored. */
    function StoredOne(mem: Lru, key: string, vector: Vector, now: int): Lru {
      if policy.enabled then SetSpec(mem, key, vector, now) else mem
    }

    /** The memory once the vectors of these inputs were stored, one after the other. */
    function Stores(mem: Lru, inputs: seq<string>, now: int): Lru {
      if inputs == [] then mem
      else
        var x := inputs[|inputs| - 1];
        StoredOne(Stores(mem, inputs[..|inputs| - 1], now), world.key(x), world.Want(x), now)
    }

    /** One lookup, memory first; what is found on disk goes into memory. */
    function Lookup(mem: Lru, files: map<string, DiskEntry>, key: string, now: int): (Lru, Option<Vector>) {
      if !policy.enabled then (mem, None)
      else
        var (m, v) := GetSpec(mem, key, policy.ttl, now);
        var found := DiskRead(files, key, false, now);
        if v.Some? then (m, v)
        else if found.None? then (m, None)
        else (SetSpec(m, key, found.value, now), found)
    }

    /** A pass over the inputs that nobody interferes with: the memory after it and the keys that missed. */
    function PassOver(mem: Lru, files: map<string, DiskEntry>, clean: seq<string>, now: int): (Lru, seq<string>) {
      if clean == [] then (mem, [])
      else
        var (m, missed) := PassOver(mem, files, clean[..|clean| - 1], now);
        var key := world.key(clean[|clean| - 1]);
        var (after, v) := Lookup(m, files, key, now);
        (after, if v.Some? || key in missed then missed else missed + [key])
    }

    /** The memory cache holds a live entry for the key. */
    predicate Live(key: string, now: int)
      reads memory
    {
      key in memory.items && !Expired(memory.items[key].storedAt, policy.ttl, now)
    }

    /** Putting a right vector into the memory cache keeps it right, and the vector is there. */
    method Remember(ghost input: string, key: string, vector: Vector, now: int)
      requires Consistent() && Trim(input) == input && key == world.key(input) && vector == world.Want(input)
      modifies memory
      ensures Consistent()
      ensures vector != [] ==> key in memory.items && memory.items[key].vector == vector
      ensures memory.items.Keys <= old(memory.items.Keys) + {key}
      ensures memory.View() == SetSpec(old(memory.View()), key, vector, now)
      ensures vector != [] ==> memory.items[key].storedAt == now
    {
      ghost var was := memory.View();
      if vector != [] { SetKeepsWritten(was, TickOf(memory.items), key, vector, now); }
      memory.Set(key, vector, now);
      assert memory.items.Keys == memory.View().held.Keys;
      forall x | Trim(x) == x && world.key(x) in memory.items
        ensures memory.items[world.key(x)].vector == world.Want(x)
      {
        assert world.key(x) in memory.View().held;
        assert world.key(x) != key ==>
            world.key(x) in was.held && memory.View().held[world.key(x)] == was.held[world.key(x)];
      }
    }

    method CacheGet(ghost input: string, key: string, now: int) returns (v: Option<Vector>)
      requires Consistent() && Trim(input) == input && key == world.key(input)
      modifies memory
      ensures Consistent()
      ensures v.Some? ==> v.value == world.Want(input)
      ensures v == if !policy.enabled then None
                   else if old(Live(key, now)) then Some(old(memory.items)[key].vector)
                   else DiskGet(key, false, now)
      ensures memory.items.Keys <= old(memory.items.Keys) + (if v.Some? then {key} else {})
      ensures policy.enabled && v.None? ==> key !in memory.items
      ensures (memory.View(), v) == Lookup(old(memory.View()), disk, key, now)
    {
      if !policy.enabled { return None; }
      v := FromMemory(input, key, now);
      if v.Some? { return; }
      v := DiskGet(key, false, now);
      if v.None? { return; }
      Remember(input, key, v.value, now);
    }

    method FromMemory(ghost input: string, key: string, now: int) returns (v: Option<Vector>)
      requires Consistent() && Trim(input) == input && key == world.key(input)
      modifies memory
      ensures Consistent()
      ensures v == if old(Live(key, now)) then Some(old(memory.items)[key].vector) else None
      ensures v.Some? ==> v.value == world.Want(input)
      ensures memory.items.Keys <= old(memory.items.Keys) && (v.None? ==> key !in memory.items)
      ensures (memory.View(), v) == GetSpec(old(memory.View()), key, policy.ttl, now)
    {
      ghost var was, items := memory.View(), memory.items;
      assert key in was.held ==> was.held[key] == Held(items[key].vector, items[key].storedAt);
      v := memory.Get(key, policy.ttl, now);
      assert memory.items.Keys == memory.View().held.Keys && items.Keys == was.held.Keys;
      forall x | Trim(x) == x && world.key(x) in memory.items
        ensures memory.items[world.key(x)].vector == world.Want(x)
      {
        assert memory.View().held[world.key(x)] == was.held[world.key(x)];
      }
    }

    /** Stores a vector in both caches; a store may set off a prune, which removes some files. */
    method CacheSet(ghost input: string, key: string, vector: Vector, pruned: set<string>, now: int)
      requires Consistent() && Trim(input) == input && key == world.key(input) && vector == world.Want(input)
      modifies this`disk, this`negatives, memory
      ensures Consistent()
      ensures policy.enabled && vector != [] ==> key in memory.items && memory.items[key].vector == vector
      ensures policy.enabled && policy.hasDir && vector != [] ==>
                DiskGet(key, true, now) == if key in pruned then None else Some(vector)
      ensures policy.enabled && policy.hasDir && vector != [] ==> key !in negatives
      ensures policy.enabled && vector != [] ==>
                forall n :: (Live(key, n) <==> policy.ttl <= 0 || n - now <= policy.ttl)
      ensures policy.enabled && policy.hasDir && vector != [] && key !in pruned ==>
                forall n :: (DiskGet(key, false, n) == Some(vector) <==> policy.ttl <= 0 || n - now <= policy.ttl)
      ensures forall k :: k in old(disk) && k !in pruned ==> k in disk && (k != key ==> disk[k] == old(disk)[k])
      ensures negatives.Keys <= old(negatives).Keys
      ensures memory.View() == StoredOne(old(memory.View()), key, vector, now)
    {
      hide MemoryRight, Cache.Valid, Cache.View, SetSpec;
      if !policy.enabled { return; }
      Remember(input, key, vector, now);
      if policy.hasDir && vector != [] {
        disk := disk[key := DiskEntry(world.norm(vector), now, true)];
        negatives := negatives - {key};
        disk := disk - pruned;
        negatives := negatives - pruned;
      }
    }

    method Interfere(noise: Noise)
      requires Consistent()
      modifies this`disk, this`negatives, memory
      ensures Consistent()
      ensures noise == SILENCE ==>
                memory.View() == old(memory.View()) && disk == old(disk) && negatives == old(negatives)
    {
      hide MemoryRight, Cache.Valid, Cache.View, DiskGet, Live, StoredOne;
      for i := 0 to |noise.others|
        invariant Consistent()
        invariant noise == SILENCE ==> memory.View() == old(memory.View())
        invariant noise == SILENCE ==> disk == old(disk) && negatives == old(negatives)
      {
        var other := Trim(noise.others[i]);
        TrimTwice(noise.others[i]);
        CacheSet(other, world.key(other), world.Want(other), noise.pruned, noise.now);
      }
      disk := disk - noise.pruned;
      negatives := negatives + noise.refused;
    }

    // ----- the passes of Embed

    /** The list of positions holds positions of inputs with key k only. */
    predicate PositionsOf(clean: seq<string>, positions: seq<nat>, k: string) {
      forall j :: 0 <= j < |positions| ==> positions[j] < |clean| && world.key(clean[positions[j]]) == k
    }

    /** Position i of the result waits for the key of its input. */
    predicate Missed(clean: seq<string>, indexes: map<string, seq<nat>>, i: nat) {
      i < |clean| && world.key(clean[i]) in indexes && i in indexes[world.key(clean[i])]
    }

    predicate Right(clean: seq<string>, i: nat, v: Vector) { i < |clean| && v == world.Want(clean[i]) }

    function KeysOf(inputs: seq<string>): seq<string> {
      seq(|inputs|, i requires 0 <= i < |inputs| => world.key(inputs[i]))
    }

    /** The results of a miss pass belong together. */
    ghost predicate MissesFit(clean: seq<string>, inputs: seq<string>, keys: seq<string>,
                              indexes: map<string, seq<nat>>) {
      && |inputs| == |keys| && Distinct(keys)
      && (forall j :: 0 <= j < |keys| ==> keys[j] == world.key(inputs[j]) && inputs[j] in clean)
      && (forall k :: k in indexes <==> k in keys)
      && (forall k :: k in indexes ==> PositionsOf(clean, indexes[k], k))
    }

    function AddInput(inputs: seq<string>, indexes: map<string, seq<nat>>, key: string, input: string): seq<string> {
      if key in indexes then inputs else inputs + [input]
    }

    function AddPosition(indexes: map<string, seq<nat>>, key: string, i: nat): map<string, seq<nat>> {
      indexes[key := (if key in indexes then indexes[key] else []) + [i]]
    }

    lemma AddMiss(clean: seq<string>, inputs: seq<string>, keys: seq<string>, indexes: map<string, seq<nat>>, i: nat)
      requires MissesFit(clean, inputs, keys, indexes) && i < |clean|
      ensures var k := world.key(clean[i]);
              MissesFit(clean, AddInput(inputs, indexes, k, clean[i]), AddInput(keys, indexes, k, k),
                        AddPosition(indexes, k, i))
      ensures var n := AddPosition(indexes, world.key(clean[i]), i);
              Missed(clean, n, i) && forall j :: Missed(clean, indexes, j) ==> Missed(clean, n, j)
    {
      var k := world.key(clean[i]);
      var n := AddPosition(indexes, k, i);
      assert PositionsOf(clean, n[k], k);
      assert i in n[k] by { assert n[k][|n[k]| - 1] == i; }
      var ks := AddInput(keys, indexes, k, k);
      assert forall q :: q in ks <==> q in keys || q == k;
    }

    /** The first n positions hold the right vector or wait for the key of their input. */
    predicate Settled(clean: seq<string>, vs: seq<Vector>, indexes: map<string, seq<nat>>, n: nat) {
      n <= |clean| == |vs| && forall j :: 0 <= j < n ==> Right(clean, j, vs[j]) || Missed(clean, indexes, j)
    }

    lemma SettleMiss(clean: seq<string>, vs: seq<Vector>, indexes: map<string, seq<nat>>, n: nat,
                     now: map<string, seq<nat>>)
      requires Settled(clean, vs, indexes, n) && n < |clean| && Missed(clean, now, n)
      requires forall j :: Missed(clean, indexes, j) ==> Missed(clean, now, j)
      ensures Settled(clean, vs, now, n + 1)
    {
    }

    lemma SettleHit(clean: seq<string>, vs: seq<Vector>, indexes: map<string, seq<nat>>, n: nat, v: Vector)
      requires Settled(clean, vs, indexes, n) && n < |clean| && v == world.Want(clean[n])
      ensures Settled(clean, vs[n := v], indexes, n + 1)
    {
    }

    lemma FitNothing(clean: seq<string>, vs: seq<Vector>)
      requires |clean| == |vs|
      ensures MissesFit(clean, [], [], map[]) && Settled(clean, vs, map[], 0)
    {
    }

    /** None of the keys would hit. */
    predicate AllMiss(keys: seq<string>, now: int)
      reads this`disk, memory
    {
      forall k :: k in keys ==> k !in memory.items && DiskGet(k, false, now).None?
    }

    /**
     * Looks every input up. Each missing key is listed once, with all positions that wait for it; when
     * nobody interferes, exactly the keys that neither cache serves are listed.
     */
    method Misses(clean: seq<string>, vectors: array<Vector>, noise: seq<Noise>, now: int)
      returns (inputs: seq<string>, keys: seq<string>, indexes: map<string, seq<nat>>)
      requires Consistent() && AllTrimmed(clean) && vectors.Length == |clean|
      modifies this`disk, this`negatives, memory, vectors
      ensures Consistent() && MissesFit(clean, inputs, keys, indexes)
      ensures Settled(clean, vectors[..], indexes, |clean|)
      ensures noise == [] ==> disk == old(disk) && negatives == old(negatives)
      ensures noise == [] && policy.enabled ==> AllMiss(keys, now)
      ensures noise == [] ==> (memory.View(), keys) == PassOver(old(memory.View()), old(disk), clean, now)
    {
      hide MemoryRight, DiskRight, Cache.Valid, Cache.View, Lookup, DiskGet, MissesFit, AllMiss, Missed;
      inputs, keys, indexes := [], [], map[];
      FitNothing(clean, vectors[..]);
      ghost var was := memory.View();
      for i := 0 to |clean|
        invariant Consistent() && MissesFit(clean, inputs, keys, indexes)
        invariant Settled(clean, vectors[..], indexes, i)
        invariant noise == [] ==> disk == old(disk) && negatives == old(negatives)
        invariant noise == [] ==> (memory.View(), keys) == PassOver(was, old(disk), clean[..i], now)
      {
        if i < |noise| { Interfere(noise[i]); }
        var key := world.key(clean[i]);
        var hit := CacheGet(clean[i], key, now);
        PassMore(was, disk, clean, i, now);
        if hit.Some? {
          SettleHit(clean, vectors[..], indexes, i, hit.value);
          vectors[i] := hit.value;
        } else {
          inputs, keys, indexes := RecordMiss(clean, vectors[..], inputs, keys, indexes, i);
        }
      }
      assert clean[..|clean|] == clean;
      if noise == [] && policy.enabled { ListedKeysMiss(was, clean, keys, now); }
    }

    lemma ListedKeysMiss(was: Lru, clean: seq<string>, keys: seq<string>, now: int)
      requires policy.enabled && (memory.View(), keys) == PassOver(was, disk, clean, now)
      ensures AllMiss(keys, now)
    {
      forall k | k in keys ensures k !in memory.items && DiskGet(k, false, now).None? {
        NeitherServes(was, disk, clean, now, k);
        assert k !in memory.View().held;
      }
    }

    function Keys(inputs: seq<string>): set<string> { set x | x in inputs :: world.key(x) }

    predicate LiveIn(mem: Lru, key: string, now: int) {
      key in mem.held && !Expired(mem.held[key].storedAt, policy.ttl, now)
    }

    /** What one lookup does to another key: it may be evicted for want of room, and nothing else. */
    lemma LookupSpares(mem: Lru, files: map<string, DiskEntry>, key: string, now: int, k: string)
      ensures var (m, v) := Lookup(mem, files, key, now);
              && |m.order| <= |mem.order| + 1
              && (k in m.held ==> (k in mem.held && m.held[k] == mem.held[k]) || (k == key && v.Some?))
              && (|mem.order| < MAX_ENTRIES && LiveIn(mem, k, now) ==> LiveIn(m, k, now))
              && (k == key && v.None? && policy.enabled ==> k !in m.held && DiskRead(files, k, false, now).None?)
              && (v.Some? <==> policy.enabled && (LiveIn(mem, key, now) || DiskRead(files, key, false, now).Some?))
    {
    }

    /**
     * What a pass lists that nobody interferes with: everything when caching is off; otherwise nothing that
     * a file serves, everything that neither a file nor the memory serves, and nothing that the memory
     * serves as long as it has room for what comes from disk.
     */
    lemma {:induction false} NeitherServes(mem: Lru, files: map<string, DiskEntry>, clean: seq<string>, now: int,
                                           k: string)
      ensures var (m, missed) := PassOver(mem, files, clean, now);
              && |m.order| <= |mem.order| + |clean|
              && (k in missed ==> k in Keys(clean))
              && (k in missed && policy.enabled ==> k !in m.held && DiskRead(files, k, false, now).None?)
              && (k in Keys(clean) && !policy.enabled ==> k in missed)
              && (DiskRead(files, k, false, now).None? && !LiveIn(mem, k, now) ==>
                    !LiveIn(m, k, now) && (k in Keys(clean) ==> k in missed))
              && (policy.enabled && LiveIn(mem, k, now) && |mem.order| + |clean| <= MAX_ENTRIES ==>
                    LiveIn(m, k, now) && k !in missed)
    {
      if clean != [] {
        var init, last := clean[..|clean| - 1], clean[|clean| - 1];
        NeitherServes(mem, files, init, now, k);
        LookupSpares(PassOver(mem, files, init, now).0, files, world.key(last), now, k);
        assert Keys(clean) == Keys(init) + {world.key(last)} by { assert clean == init + [last]; }
        hide Lookup, LiveIn, DiskRead;
      }
    }

    lemma PassMore(mem: Lru, files: map<string, DiskEntry>, clean: seq<string>, i: nat, now: int)
      requires i < |clean|
      ensures var (m, missed) := PassOver(mem, files, clean[..i], now);
              var (after, v) := Lookup(m, files, world.key(clean[i]), now);
              PassOver(mem, files, clean[..i + 1], now) ==
              (after, if v.Some? || world.key(clean[i]) in missed then missed else missed + [world.key(clean[i])])
    {
      assert clean[..i + 1][..i] == clean[..i];
    }

    /** Lists a key the first time it misses, and every position that waits for it. */
    method RecordMiss(clean: seq<string>, ghost vs: seq<Vector>, inputs: seq<string>, keys: seq<string>,
                      indexes: map<string, seq<nat>>, i: nat)
      returns (inputs': seq<string>, keys': seq<string>, indexes': map<string, seq<nat>>)
      requires MissesFit(clean, inputs, keys, indexes) && Settled(clean, vs, indexes, i) && i < |clean|
      ensures MissesFit(clean, inputs', keys', indexes') && Settled(clean, vs, indexes', i + 1)
      ensures keys' == if world.key(clean[i]) in keys then keys else keys + [world.key(clean[i])]
    {
      var key := world.key(clean[i]);
      AddMiss(clean, inputs, keys, indexes, i);
      inputs', keys' := AddInput(inputs, indexes, key, clean[i]), AddInput(keys, indexes, key, key);
      indexes' := AddPosition(indexes, key, i);
      SettleMiss(clean, vs, indexes, i, indexes');
    }

    /** The key has a live refusal. */
    predicate RefusedNow(key: string, now: int)
      reads this`negatives
    {
      policy.enabled && policy.hasDir && policy.negativeTTL > 0
      && key in negatives && !Expired(negatives[key], policy.negativeTTL, now)
    }

    /** Whether some key has a live refusal; refusals that expired are forgotten on the way. */
    method FirstNegative(keys: seq<string>, now: int) returns (hit: bool)
      modifies this`negatives
      ensures hit <==> exists k :: k in keys && old(RefusedNow(k, now))
      ensures hit <==> exists k :: k in keys && RefusedNow(k, now)
      ensures negatives.Keys <= old(negatives).Keys
    {
      for i := 0 to |keys|
        invariant negatives.Keys <= old(negatives).Keys
        invariant forall k :: RefusedNow(k, now) <==> old(RefusedNow(k, now))
        invariant forall j :: 0 <= j < i ==> !RefusedNow(keys[j], now)
      {
        if policy.hasDir && policy.enabled && policy.negativeTTL > 0 && keys[i] in negatives {
          if now - negatives[keys[i]] > policy.negativeTTL {
            negatives := negatives - {keys[i]};
          } else {
            assert RefusedNow(keys[i], now);
            return true;
          }
        }
      }
      return false;
    }

    function Spread(vs: seq<Vector>, positions: seq<nat>, v: Vector): seq<Vector> {
      seq(|vs|, i requires 0 <= i < |vs| => if i in positions then v else vs[i])
    }

    /** Copies the vector of a key to every position that waits for it. */
    method Fill(vectors: array<Vector>, vector: Vector, positions: seq<nat>)
      requires forall j :: 0 <= j < |positions| ==> positions[j] < vectors.Length
      modifies vectors
      ensures vectors[..] == Spread(old(vectors[..]), positions, vector)
    {
      for j := 0 to |positions|
        invariant vectors[..] == Spread(old(vectors[..]), positions[..j], vector)
      {
        assert positions[..j + 1] == positions[..j] + [positions[j]];
        vectors[positions[j]] := vector;
      }
      assert positions[..|positions|] == positions;
    }

    /** Between the two lists, the positions that wait for one of the keys became right; the others are the same. */
    predicate Filled(clean: seq<string>, was: seq<Vector>, now: seq<Vector>, keys: seq<string>,
                     indexes: map<string, seq<nat>>) {
      |was| == |now| == |clean| &&
      forall i :: 0 <= i < |clean| ==>
        if world.key(clean[i]) in keys && Missed(clean, indexes, i) then Right(clean, i, now[i]) else now[i] == was[i]
    }

    lemma FillOne(clean: seq<string>, was: seq<Vector>, mid: seq<Vector>, inputs: seq<string>, keys: seq<string>,
                  indexes: map<string, seq<nat>>, j: nat)
      requires world.Sound() && AllTrimmed(clean) && MissesFit(clean, inputs, keys, indexes) && j < |keys|
      requires Filled(clean, was, mid, keys[..j], indexes)
      ensures keys[j] in indexes && PositionsOf(clean, indexes[keys[j]], keys[j])
      ensures Filled(clean, was, Spread(mid, indexes[keys[j]], world.Want(inputs[j])), keys[..j + 1], indexes)
    {
      var k := keys[j];
      assert k in keys;
      assert keys[..j + 1] == keys[..j] + [k];
      var positions := indexes[k];
      var now := Spread(mid, positions, world.Want(inputs[j]));
      forall i | 0 <= i < |clean|
        ensures if world.key(clean[i]) in keys[..j + 1] && Missed(clean, indexes, i) then Right(clean, i, now[i])
                else now[i] == was[i]
      {
        if i in positions {
          var a :| 0 <= a < |positions| && positions[a] == i;
          assert world.key(clean[i]) == k && clean[i] == inputs[j];
        }
      }
    }

    /** The first n fetched vectors are on disk, but for files that were pruned. */
    ghost predicate Stored(inputs: seq<string>, keys: seq<string>, n: nat, pruned: set<string>, now: int)
      reads this`disk
    {
      n <= |inputs| == |keys| &&
      (policy.enabled && policy.hasDir ==>
         forall j :: 0 <= j < n && keys[j] !in pruned && world.Want(inputs[j]) != [] ==>
           DiskGet(keys[j], true, now) == Some(world.Want(inputs[j])))
    }

    /** Gives key j its vector at every position that waits for it. */
    method FillKey(clean: seq<string>, vectors: array<Vector>, ghost was: seq<Vector>, vector: Vector,
                   ghost inputs: seq<string>, keys: seq<string>, indexes: map<string, seq<nat>>, j: nat)
      requires world.Sound() && AllTrimmed(clean) && MissesFit(clean, inputs, keys, indexes) && j < |keys|
      requires vector == world.Want(inputs[j]) && Filled(clean, was, vectors[..], keys[..j], indexes)
      modifies vectors
      ensures Filled(clean, was, vectors[..], keys[..j + 1], indexes)
    {
      FillOne(clean, was, vectors[..], inputs, keys, indexes, j);
      Fill(vectors, vector, indexes[keys[j]]);
    }

    /** Caches the fetched vector of key j. */
    method StoreOne(inputs: seq<string>, keys: seq<string>, j: nat, pruned: set<string>, now: int)
      requires Consistent() && AllTrimmed(inputs) && Distinct(keys) && j < |keys|
      requires Stored(inputs, keys, j, pruned, now)
      requires keys[j] == world.key(inputs[j])
      modifies this`disk, this`negatives, memory
      ensures Consistent() && Stored(inputs, keys, j + 1, pruned, now)
      ensures memory.View() == StoredOne(old(memory.View()), keys[j], world.Want(inputs[j]), now)
    {
      hide MemoryRight, DiskRight, Cache.Valid, World.Sound;
      assert forall i :: 0 <= i < j ==> keys[i] != keys[j];
      CacheSet(inputs[j], keys[j], world.Want(inputs[j]), pruned, now);
    }

    lemma ListedInputs(clean: seq<string>, inputs: seq<string>, keys: seq<string>, indexes: map<string, seq<nat>>)
      requires MissesFit(clean, inputs, keys, indexes) && AllTrimmed(clean)
      ensures AllTrimmed(inputs) && |inputs| == |keys| && Distinct(keys) && KeysOf(inputs) == keys
      ensures forall k :: k in indexes <==> k in keys
    {
    }

    lemma StoresMore(mem: Lru, inputs: seq<string>, j: nat, now: int)
      requires j < |inputs|
      ensures Stores(mem, inputs[..j + 1], now) ==
              StoredOne(Stores(mem, inputs[..j], now), world.key(inputs[j]), world.Want(inputs[j]), now)
    {
      assert inputs[..j + 1][..j] == inputs[..j];
    }

    lemma NothingStored(mem: Lru, clean: seq<string>, vs: seq<Vector>, inputs: seq<string>, keys: seq<string>,
                        indexes: map<string, seq<nat>>, pruned: set<string>, now: int)
      requires |vs| == |clean| && |inputs| == |keys|
      ensures Stores(mem, inputs[..0], now) == mem && Filled(clean, vs, vs, keys[..0], indexes)
      ensures Stored(inputs, keys, 0, pruned, now)
    {
    }

    /** Caches the fetched vector of key j and copies it to the positions that wait for it. */
    method MergeOne(clean: seq<string>, vectors: array<Vector>, ghost was: seq<Vector>, fetched: Vector,
                    inputs: seq<string>, keys: seq<string>, indexes: map<string, seq<nat>>, j: nat,
                    pruned: set<string>, now: int)
      requires Consistent() && AllTrimmed(clean) && vectors.Length == |clean|
      requires MissesFit(clean, inputs, keys, indexes) && j < |keys| && fetched == world.server(inputs[j])
      requires Stored(inputs, keys, j, pruned, now) && Filled(clean, was, vectors[..], keys[..j], indexes)
      modifies this`disk, this`negatives, memory, vectors
      ensures Consistent() && Stored(inputs, keys, j + 1, pruned, now)
      ensures Filled(clean, was, vectors[..], keys[..j + 1], indexes)
      ensures memory.View() == StoredOne(old(memory.View()), world.key(inputs[j]), world.Want(inputs[j]), now)
    {
      ListedInputs(clean, inputs, keys, indexes);
      hide DiskRight, MemoryRight, Cache.Valid, Cache.View, DiskGet, StoredOne, Filled, MissesFit, AllTrimmed;
      var vector := world.norm(fetched);
      StoreOne(inputs, keys, j, pruned, now);
      FillKey(clean, vectors, was, vector, inputs, keys, indexes, j);
    }

    method Merge(clean: seq<string>, vectors: array<Vector>, fetched: seq<Vector>, inputs: seq<string>,
                 keys: seq<string>, indexes: map<string, seq<nat>>, pruned: set<string>, now: int)
      requires Consistent() && AllTrimmed(clean) && vectors.Length == |clean|
      requires MissesFit(clean, inputs, keys, indexes)
      requires |fetched| == |keys| && forall j :: 0 <= j < |fetched| ==> fetched[j] == world.server(inputs[j])
      modifies this`disk, this`negatives, memory, vectors
      ensures Consistent() && Filled(clean, old(vectors[..]), vectors[..], keys, indexes)
      ensures Stored(inputs, keys, |keys|, pruned, now)
      ensures memory.View() == Stores(old(memory.View()), inputs, now)
    {
      ghost var was := memory.View();
      hide DiskRight, MemoryRight, Cache.Valid, Cache.View, DiskGet, StoredOne, Stores, Filled, Stored, AllTrimmed;
      NothingStored(was, clean, vectors[..], inputs, keys, indexes, pruned, now);
      for j := 0 to |fetched|
        invariant Consistent() && Stored(inputs, keys, j, pruned, now)
        invariant Filled(clean, old(vectors[..]), vectors[..], keys[..j], indexes)
        invariant memory.View() == Stores(was, inputs[..j], now)
      {
        MergeOne(clean, vectors, old(vectors[..]), fetched[j], inputs, keys, indexes, j, pruned, now);
        StoresMore(was, inputs, j, now);
      }
      assert keys[..|fetched|] == keys && inputs[..|fetched|] == inputs;
    }

    /** Expired entries may stand in for all of these keys. */
    predicate CanServeStale(keys: seq<string>, now: int)
      reads this`disk
    {
      policy.enabled && policy.staleIfError && forall k :: k in keys ==> DiskGet(k, true, now).Some?
    }

    lemma FilledNothing(clean: seq<string>, vs: seq<Vector>, keys: seq<string>, indexes: map<string, seq<nat>>)
      requires |vs| == |clean|
      ensures Filled(clean, vs, vs, keys[..0], indexes)
    {
    }

    method Stale(clean: seq<string>, vectors: array<Vector>, inputs: seq<string>, keys: seq<string>,
                 indexes: map<string, seq<nat>>, now: int) returns (ok: bool)
      requires Consistent() && AllTrimmed(clean) && vectors.Length == |clean|
      requires MissesFit(clean, inputs, keys, indexes)
      modifies vectors
      ensures ok ==> Filled(clean, old(vectors[..]), vectors[..], keys, indexes)
      ensures ok <==> CanServeStale(keys, now)
    {
      hide MemoryRight, Cache.Valid, Filled;
      FilledNothing(clean, vectors[..], keys, indexes);
      if !policy.enabled || !policy.staleIfError { return false; }
      for j := 0 to |keys|
        invariant Filled(clean, old(vectors[..]), vectors[..], keys[..j], indexes)
        invariant forall i :: 0 <= i < j ==> DiskGet(keys[i], true, now).Some?
      {
        var vector := DiskGet(keys[j], true, now);
        if vector.None? { return false; }
        assert inputs[j] in clean && keys[j] == world.key(inputs[j]);
        FillKey(clean, vectors, old(vectors[..]), vector.value, inputs, keys, indexes, j);
      }
      assert keys[..|keys|] == keys;
      return true;
    }

    method Refuse(keys: seq<string>, now: int)
      modifies this`negatives
      ensures policy.enabled && policy.hasDir && policy.negativeTTL > 0 ==>
                forall k :: k in keys ==> k in negatives && negatives[k] == now
      ensures policy.enabled && policy.hasDir && policy.negativeTTL > 0 ==>
                forall k, n :: k in keys ==> (RefusedNow(k, n) <==> n - now <= policy.negativeTTL)
    {
      if !policy.enabled || policy.negativeTTL <= 0 || !policy.hasDir { return; }
      for i := 0 to |keys|
        invariant forall j :: 0 <= j < i ==> keys[j] in negatives && negatives[keys[j]] == now
      {
        negatives := negatives[keys[i] := now];
      }
    }

    /** The request came back with one vector per input. */
    predicate Answered(reply: seq<string> -> Reply, inputs: seq<string>) {
      reply(inputs).Vectors? && |reply(inputs).vectors| == |inputs|
    }

    predicate Cancelled(reply: seq<string> -> Reply, inputs: seq<string>) {
      reply(inputs).Failed? && reply(inputs).cancelled
    }

    /** Some listed key has a live refusal. */
    predicate SomeRefused(keys: seq<string>, now: int)
      reads this`negatives
    {
      exists k :: k in keys && RefusedNow(k, now)
    }

    /** A reply came, so every vector of it is cached, but for files that were pruned. */
    ghost predicate Cached(asked: seq<string>, pruned: set<string>, now: int)
      reads this`disk
    {
      policy.enabled && policy.hasDir ==>
        forall x :: x in asked && world.key(x) !in pruned && world.Want(x) != [] ==>
          DiskGet(world.key(x), true, now) == Some(world.Want(x))
    }

    /** A request failed that the caller did not cancel, so its keys are refused. */
    predicate Remembered(asked: seq<string>, now: int)
      reads this`negatives
    {
      policy.enabled && policy.hasDir && policy.negativeTTL > 0 ==>
        forall x :: x in asked ==> world.key(x) in negatives && negatives[world.key(x)] == now
    }

    /**
     * The part of Embed that runs with the keys locked, after the second miss pass. `asked` are the
     * inputs sent to the server.
     */
    method Resolve(clean: seq<string>, vectors: array<Vector>, missing: seq<string>, keys: seq<string>,
                   indexes: map<string, seq<nat>>, reply: seq<string> -> Reply, check: Noise, request: Noise, now: int)
      returns (failure: Option<EmbedError>, ghost asked: seq<string>)
      requires Consistent() && AllTrimmed(clean) && Honest(world, reply) && vectors.Length == |clean|
      requires MissesFit(clean, missing, keys, indexes)
      requires Settled(clean, vectors[..], indexes, |clean|)
      modifies this`disk, this`negatives, memory, vectors
      ensures Consistent()
      ensures failure.None? ==> vectors[..] == WantAll(world, clean)
      ensures failure.Some? ==> missing != []
      ensures asked == if failure == Some(NegativeHit) then [] else missing
      ensures failure == Some(NegativeHit) ==> SomeRefused(keys, now)
      ensures check == SILENCE ==> (failure == Some(NegativeHit) <==> old(SomeRefused(keys, now)))
      ensures failure == Some(RequestFailed) ==> !Answered(reply, missing) && !CanServeStale(keys, now)
      ensures check == request == SILENCE ==>
                (failure == Some(RequestFailed) <==>
                   asked != [] && !Answered(reply, asked) && !old(CanServeStale(keys, now)))
      ensures failure == Some(RequestFailed) && !Cancelled(reply, missing) ==> Remembered(missing, now)
      ensures asked != [] && Answered(reply, asked) ==> Cached(asked, request.pruned, now)
      ensures check == request == SILENCE ==>
                memory.View() == if asked != [] && Answered(reply, asked) then Stores(old(memory.View()), asked, now)
                                 else old(memory.View())
    {
      hide MemoryRight, DiskRight, Cache.Valid, Cache.View, DiskGet, RefusedNow, CanServeStale, Filled, Settled;
      hide Cached, Stores, Stored;
      if |missing| == 0 {
        Complete(clean, vectors[..], vectors[..], keys, indexes);
        return None, [];
      }
      Interfere(check);
      var refused := FirstNegative(keys, now);
      if refused { return Some(NegativeHit), []; }
      asked := missing;
      var answer := reply(missing);
      Interfere(request);
      if answer.Vectors? && |answer.vectors| == |missing| {
        Merge(clean, vectors, answer.vectors, missing, keys, indexes, request.pruned, now);
        Complete(clean, old(vectors[..]), vectors[..], keys, indexes);
        StoredIsCached(clean, missing, keys, indexes, request.pruned, now);
        return None, missing;
      }
      var stale := Stale(clean, vectors, missing, keys, indexes, now);
      if stale {
        Complete(clean, old(vectors[..]), vectors[..], keys, indexes);
        return None, missing;
      }
      if !(answer.Failed? && answer.cancelled) {
        Refuse(keys, now);
      }
      return Some(RequestFailed), missing;
    }

    lemma StoredIsCached(clean: seq<string>, inputs: seq<string>, keys: seq<string>, indexes: map<string, seq<nat>>,
                         pruned: set<string>, now: int)
      requires MissesFit(clean, inputs, keys, indexes) && Stored(inputs, keys, |keys|, pruned, now)
      ensures Cached(inputs, pruned, now)
    {
      forall x | x in inputs ensures exists j :: 0 <= j < |keys| && inputs[j] == x && keys[j] == world.key(x) {
        var j :| 0 <= j < |inputs| && inputs[j] == x;
      }
    }

    /** A request for these inputs failed and their expired entries could not stand in. */
    ghost predicate Unserved(reply: seq<string> -> Reply, asked: seq<string>, now: int)
      reads this`disk
    {
      !Answered(reply, asked)
      && !(policy.enabled && policy.staleIfError
           && forall x :: x in asked ==> DiskGet(world.key(x), true, now).Some?)
    }

    /** The keys that miss both passes of a call that nobody interferes with, and the memory between its passes. */
    function MissedKeys(mem: Lru, files: map<string, DiskEntry>, inputs: seq<string>, before: int, after: int)
      : seq<string>
    {
      var first := PassOver(mem, files, Compact(inputs), before);
      if Blank(endpoint) || first.1 == [] then [] else PassOver(first.0, files, Compact(inputs), after).1
    }

    /** Every key has a usable entry on disk, expired or not. */
    predicate AllOnDisk(keys: seq<string>, now: int)
      reads this`disk
    {
      forall k :: k in keys ==> DiskGet(k, true, now).Some?
    }

    /** Nobody interferes with the call. */
    predicate Silent(noise: Schedule) {
      noise.first == noise.second == [] && noise.check == noise.request == SILENCE
    }

    /**
     * What a call nobody interferes with returns and whom it asks, given the keys that miss both passes,
     * whether one of them is refused, and whether expired entries can stand in for all of them.
     */
    ghost predicate Exactly(missed: seq<string>, refused: bool, stale: bool, reply: seq<string> -> Reply,
                            failure: Option<EmbedError>, asked: seq<string>) {
      && (failure == Some(NegativeHit) <==> refused)
      && KeysOf(asked) == (if refused then [] else missed)
      && (failure == Some(RequestFailed) <==> asked != [] && !Answered(reply, asked) && !stale)
    }

    /** What a call reports about the inputs it asked for, whatever others do. */
    ghost predicate Accounts(clean: seq<string>, asked: seq<string>, failure: Option<EmbedError>,
                             reply: seq<string> -> Reply, pruned: set<string>, now: int)
      reads this`disk, this`negatives
    {
      && (asked != [] ==> Distinct(asked) && forall x :: x in asked ==> x in clean)
      && (failure == Some(NegativeHit) ==> asked == [] && exists x :: x in clean && RefusedNow(world.key(x), now))
      && (failure == Some(RequestFailed) ==> asked != [] && Unserved(reply, asked, now))
      && (failure == Some(RequestFailed) && !Cancelled(reply, asked) ==> Remembered(asked, now))
      && (asked != [] && Answered(reply, asked) ==> Cached(asked, pruned, now))
    }

    /** The part of Embed that runs with the keys locked: the second miss pass and what it leads to. */
    method EmbedLocked(clean: seq<string>, vectors: array<Vector>, reply: seq<string> -> Reply, noise: Schedule,
                       now: int)
      returns (failure: Option<EmbedError>, ghost asked: seq<string>)
      requires Consistent() && AllTrimmed(clean) && Honest(world, reply) && vectors.Length == |clean|
      modifies this`disk, this`negatives, memory, vectors
      ensures Consistent() && Accounts(clean, asked, failure, reply, noise.request.pruned, now)
      ensures failure.None? ==> vectors[..] == WantAll(world, clean)
      ensures Silent(noise) ==>
                var missed := PassOver(old(memory.View()), old(disk), clean, now).1;
                var allowed := policy.enabled && policy.staleIfError;
                Exactly(missed, old(SomeRefused(missed, now)), allowed && old(AllOnDisk(missed, now)), reply,
                        failure, asked)
    {
      hide MemoryRight, DiskRight, Cache.Valid, Cache.View, DiskGet, Filled, Settled, PassOver, MissesFit, SomeRefused;
      hide Cached, Remembered, Unserved, AllMiss, AllTrimmed, Answered, Cancelled, RefusedNow;
      var missing, keys, indexes := Misses(clean, vectors, noise.second, now);
      ListedInputs(clean, missing, keys, indexes);
      failure, asked := Resolve(clean, vectors, missing, keys, indexes, reply, noise.check, noise.request, now);
      FailureSaysWhy(clean, missing, keys, indexes, reply, now);
    }

    /**
     * The result of a call nobody interferes with is fixed by the keys that miss both passes. A live refusal
     * among them turns the call away before anybody is asked; otherwise exactly they are asked for, and the
     * call fails exactly when the request does and expired entries cannot stand in for all of them.
     */
    method Embed(inputs: seq<string>, reply: seq<string> -> Reply, noise: Schedule, before: int, after: int)
      returns (r: Result<seq<Vector>, EmbedError>, ghost asked: seq<string>)
      requires Consistent() && Honest(world, reply)
      modifies this`disk, this`negatives, memory
      ensures Consistent() && Accounts(Compact(inputs), asked, FailureOf(r), reply, noise.request.pruned, after)
      ensures r.Ok? ==> r.value == if Blank(endpoint) then [] else WantAll(world, Compact(inputs))
      ensures Silent(noise) ==>
                var missed := old(MissedKeys(memory.View(), disk, inputs, before, after));
                var allowed := policy.enabled && policy.staleIfError;
                Exactly(missed, old(SomeRefused(missed, after)), allowed && old(AllOnDisk(missed, after)), reply,
                        FailureOf(r), asked)
    {
      hide MemoryRight, DiskRight, Cache.Valid, Cache.View, DiskGet, Filled, Settled, PassOver, MissesFit, SomeRefused;
      hide AllOnDisk, Cached, Remembered, Unserved, AllMiss, Answered, Cancelled, RefusedNow;
      NobodyRefused(after);
      var clean := CompactInputs(inputs);
      if |clean| == 0 || Blank(endpoint) {
        NothingMissed(memory.View(), disk, clean, before);
        return Ok([]), [];
      }
      CompactIsTrimmed(inputs);
      var vectors := new Vector[|clean|];
      var missing, keys, indexes := Misses(clean, vectors, noise.first, before);
      if |missing| == 0 {
        ListedInputs(clean, missing, keys, indexes);
        Complete(clean, vectors[..], vectors[..], keys, indexes);
        return Ok(vectors[..]), [];
      }
      ListedInputs(clean, missing, keys, indexes);
      var failure;
      failure, asked := EmbedLocked(clean, vectors, reply, noise, after);
      if failure.Some? { return Err(failure.value), asked; }
      return Ok(vectors[..]), asked;
    }

    function FailureOf(r: Result<seq<Vector>, EmbedError>): Option<EmbedError> {
      if r.Err? then Some(r.error) else None
    }

    lemma NobodyRefused(now: int)
      ensures !SomeRefused([], now)
    {
    }

    lemma NothingMissed(mem: Lru, files: map<string, DiskEntry>, clean: seq<string>, now: int)
      ensures clean == [] ==> PassOver(mem, files, clean, now).1 == []
    {
    }

    /** What holds of the listed keys holds of their inputs. */
    lemma FailureSaysWhy(clean: seq<string>, missing: seq<string>, keys: seq<string>, indexes: map<string, seq<nat>>,
                         reply: seq<string> -> Reply, now: int)
      requires MissesFit(clean, missing, keys, indexes)
      ensures Distinct(missing) && forall x :: x in missing ==> x in clean
      ensures SomeRefused(keys, now) ==> exists x :: x in clean && RefusedNow(world.key(x), now)
      ensures !Answered(reply, missing) && !CanServeStale(keys, now) ==> Unserved(reply, missing, now)
    {
      forall i, j | 0 <= i < j < |missing| ensures missing[i] != missing[j] {
        assert keys[i] != keys[j];
      }
      forall k | k in keys ensures exists x :: x in clean && x in missing && world.key(x) == k {
        var j :| 0 <= j < |keys| && keys[j] == k;
        assert missing[j] in clean;
      }
    }

    method CompactInputs(inputs: seq<string>) returns (out: seq<string>)
      ensures out == Compact(inputs)
    {
      out := [];
      for i := 0 to |inputs|
        invariant out == Compact(inputs[..i])
      {
        assert inputs[..i + 1][..i] == inputs[..i];
        var input := Trim(inputs[i]);
        if input != "" {
          out := out + [input];
        }
      }
      assert inputs[..|inputs|] == inputs;
    }

    /** When every waiting position got its vector, the result is right everywhere. */
    lemma Complete(clean: seq<string>, was: seq<Vector>, now: seq<Vector>, keys: seq<string>,
                   indexes: map<string, seq<nat>>)
      requires Filled(clean, was, now, keys, indexes) || (now == was && keys == [] && |now| == |clean|)
      requires forall k :: k in indexes <==> k in keys
      requires Settled(clean, was, indexes, |clean|)
      ensures now == WantAll(world, clean)
    {
    }
  }
}
