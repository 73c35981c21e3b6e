/**
 * All interleavings of Embed calls over one cache and one keyed flight lock.
 *
 * A call looks up its keys, locks the missing ones in sorted order, looks all its keys up again,
 * fetches what is still missing with one request, stores the vectors one by one and unlocks. The
 * cache is the set of keys that would hit; Evict is any loss of an entry (expiry, eviction, prune).
 */
module SingleFlight {
  import opened Wrappers
  import opened Text
  import opened FlightGroup

  type Tid = nat

  datatype PC =
    | Scanning(inputs: seq<string>, i: nat, missing: seq<string>)
    | Taking(inputs: seq<string>, keys: seq<string>, i: nat)
    | Waiting(inputs: seq<string>, keys: seq<string>, i: nat, channel: nat)
    | Rechecking(inputs: seq<string>, keys: seq<string>, i: nat, missing: seq<string>)
    | Fetching(keys: seq<string>, missing: seq<string>)
    | Storing(keys: seq<string>, missing: seq<string>, i: nat)
    | Unlocking(keys: seq<string>)
    | Done

  /** `owner` names the call holding each key; `fetches` counts the successful fetches of a key. */
  datatype State = State(
    flights: Flights, cache: set<string>, threads: map<Tid, PC>,
    owner: map<string, Tid>, fetches: map<string, nat>)

  /** No call is running; the cache may hold entries of earlier processes. */
  function Start(cache: set<string>): State {
    State(Flights(map[], 0, {}), cache, map[], map[], map[])
  }

  datatype Action =
    | Call(t: Tid, inputs: seq<string>)
    | Scan(t: Tid)
    | Take(t: Tid)
    | Wake(t: Tid)
    | Recheck(t: Tid)
    | GiveUp(t: Tid)
    | Fetch(t: Tid)
    | Store(t: Tid)
    | Unlock(t: Tid)
    | Evict(key: string)

  predicate Enabled(s: State, a: Action) {
    match a
    case Call(t, inputs) => t !in s.threads && forall k :: k in inputs ==> !Blank(k)
    case Scan(t) => t in s.threads && s.threads[t].Scanning?
    case Take(t) => t in s.threads && s.threads[t].Taking?
    case Wake(t) => t in s.threads && s.threads[t].Waiting? && s.threads[t].channel in s.flights.closed
    case Recheck(t) => t in s.threads && s.threads[t].Rechecking?
    case GiveUp(t) => t in s.threads && s.threads[t].Fetching?
    case Fetch(t) => t in s.threads && s.threads[t].Fetching?
    case Store(t) => t in s.threads && s.threads[t].Storing?
    case Unlock(t) => t in s.threads && s.threads[t].Unlocking?
    case Evict(k) => k in s.cache
  }

  /** One cache lookup of a miss pass: a miss is listed once. */
  function Look(cache: set<string>, key: string, missing: seq<string>): seq<string> {
    if key in cache || key in missing then missing else missing + [key]
  }

  function AfterScan(s: State, pc: PC): PC
    requires pc.Scanning?
  {
    if pc.i < |pc.inputs| then Scanning(pc.inputs, pc.i + 1, Look(s.cache, pc.inputs[pc.i], pc.missing))
    else if pc.missing == [] then Done
    else Taking(pc.inputs, SortedUnique(pc.missing), 0)
  }

  function AfterRecheck(s: State, pc: PC): PC
    requires pc.Rechecking?
  {
    if pc.i < |pc.inputs| then Rechecking(pc.inputs, pc.keys, pc.i + 1, Look(s.cache, pc.inputs[pc.i], pc.missing))
    else if pc.missing == [] then Unlocking(pc.keys)
    else Fetching(pc.keys, pc.missing)
  }

  function Count(fetches: map<string, nat>, k: string): nat {
    if k in fetches then fetches[k] else 0
  }

  function CountAll(fetches: map<string, nat>, keys: seq<string>): map<string, nat> {
    map k | k in fetches.Keys + (set q | q in keys) :: Count(fetches, k) + (if k in keys then 1 else 0)
  }

  function Go(s: State, t: Tid, pc: PC): State { s.(threads := s.threads[t := pc]) }

  function ApplyTake(s: State, t: Tid, pc: PC): State
    requires pc.Taking?
  {
    if pc.i >= |pc.keys| then Go(s, t, Rechecking(pc.inputs, pc.keys, 0, []))
    else
      var key := pc.keys[pc.i];
      var (flights, waiter) := TakeRegion(s.flights, key);
      if waiter.Some? then Go(s, t, Waiting(pc.inputs, pc.keys, pc.i, waiter.value))
      else Go(s, t, Taking(pc.inputs, pc.keys, pc.i + 1)).(flights := flights, owner := s.owner[key := t])
  }

  function ApplyUnlock(s: State, t: Tid, keys: seq<string>): State {
    if forall k :: k in keys ==> k in s.flights.waiters then
      Go(s, t, Done).(flights := UnlockRegion(s.flights, keys),
                      owner := map k | k in s.owner && k !in keys :: s.owner[k])
    else Go(s, t, Done)
  }

  function Apply(s: State, a: Action): State
    requires Enabled(s, a)
  {
    match a
    case Call(t, inputs) => Go(s, t, Scanning(inputs, 0, []))
    case Scan(t) => Go(s, t, AfterScan(s, s.threads[t]))
    case Take(t) => ApplyTake(s, t, s.threads[t])
    case Wake(t) => Go(s, t, Taking(s.threads[t].inputs, s.threads[t].keys, s.threads[t].i))
    case Recheck(t) => Go(s, t, AfterRecheck(s, s.threads[t]))
    case GiveUp(t) => Go(s, t, Unlocking(s.threads[t].keys))
    case Fetch(t) =>
      var pc := s.threads[t];
      Go(s, t, Storing(pc.keys, pc.missing, 0)).(fetches := CountAll(s.fetches, pc.missing))
    case Store(t) =>
      var pc := s.threads[t];
      if pc.i < |pc.missing| then
        Go(s, t, Storing(pc.keys, pc.missing, pc.i + 1)).(cache := s.cache + {pc.missing[pc.i]})
      else Go(s, t, Unlocking(pc.keys))
    case Unlock(t) => ApplyUnlock(s, t, s.threads[t].keys)
    case Evict(k) => s.(cache := s.cache - {k})
  }

  // ----- the lock

  /** The keys a call holds. */
  function Owned(pc: PC): seq<string> {
    match pc
    case Scanning(_, _, _) => []
    case Taking(_, keys, i) => if i <= |keys| then keys[..i] else keys
    case Waiting(_, keys, i, _) => if i <= |keys| then keys[..i] else keys
    case Done => []
    case _ => pc.keys
  }

  ghost predicate WellFormed(pc: PC) {
    && (!pc.Scanning? && !pc.Done? ==> StrictlySorted(pc.keys))
    && (pc.Scanning? ==> pc.i <= |pc.inputs|)
    && (pc.Taking? ==> pc.i <= |pc.keys|)
    && (pc.Waiting? ==> pc.i < |pc.keys|)
  }

  ghost predicate OwnerInv(s: State) {
    && s.owner.Keys == s.flights.waiters.Keys
    && (forall t, k :: t in s.threads && k in Owned(s.threads[t]) ==> k in s.owner && s.owner[k] == t)
    && (forall k :: k in s.owner ==> s.owner[k] in s.threads && k in Owned(s.threads[s.owner[k]]))
  }

  ghost predicate ChannelInv(s: State) {
    && (forall c :: c in s.flights.closed ==> c < s.flights.made)
    && (forall k :: k in s.flights.waiters ==> s.flights.waiters[k] < s.flights.made)
    && (forall k :: k in s.flights.waiters ==> s.flights.waiters[k] !in s.flights.closed)
    && (forall t :: t in s.threads && s.threads[t].Waiting? && s.threads[t].i < |s.threads[t].keys| ==>
          var pc := s.threads[t];
          pc.channel in s.flights.closed
          || (pc.keys[pc.i] in s.flights.waiters && s.flights.waiters[pc.keys[pc.i]] == pc.channel))
    && (forall k, q ::
          k in s.flights.waiters && q in s.flights.waiters && s.flights.waiters[k] == s.flights.waiters[q] ==> k == q)
  }

  ghost predicate LockInv(s: State) {
    && (forall t :: t in s.threads ==> WellFormed(s.threads[t]))
    && OwnerInv(s) && ChannelInv(s)
  }

  /** Thread t takes the free key that comes next in its list. */
  ghost predicate TookKey(s: State, t: Tid, key: string, n: State) {
    && t in s.threads && t in n.threads && s.threads[t].Taking? && key !in s.flights.waiters
    && n.threads == s.threads[t := n.threads[t]]
    && Owned(n.threads[t]) == Owned(s.threads[t]) + [key] && !n.threads[t].Waiting?
    && n.owner == s.owner[key := t]
    && n.flights == Flights(s.flights.waiters[key := s.flights.made], s.flights.made + 1, s.flights.closed)
  }

  lemma TookKeyOwner(s: State, t: Tid, key: string, n: State)
    requires OwnerInv(s) && TookKey(s, t, key, n)
    ensures OwnerInv(n)
  {
    var mine, was := Owned(n.threads[t]), Owned(s.threads[t]);
    assert forall k :: k in mine <==> k in was || k == key;
  }

  lemma TookKeyChannel(s: State, t: Tid, key: string, n: State)
    requires ChannelInv(s) && TookKey(s, t, key, n)
    ensures ChannelInv(n)
  {
  }

  lemma TakeFreeKeepsLock(s: State, t: Tid, pc: PC, n: State)
    requires LockInv(s) && t in s.threads && s.threads[t] == pc && pc.Taking? && n == ApplyTake(s, t, pc)
    requires pc.i < |pc.keys| && pc.keys[pc.i] !in s.flights.waiters
    ensures LockInv(n)
  {
    hide OwnerInv, ChannelInv;
    assert pc.keys[..pc.i + 1] == pc.keys[..pc.i] + [pc.keys[pc.i]];
    assert TookKey(s, t, pc.keys[pc.i], n);
    TookKeyOwner(s, t, pc.keys[pc.i], n);
    TookKeyChannel(s, t, pc.keys[pc.i], n);
  }

  lemma TakeKeepsLock(s: State, t: Tid, pc: PC, n: State)
    requires LockInv(s) && t in s.threads && s.threads[t] == pc && pc.Taking? && n == ApplyTake(s, t, pc)
    ensures LockInv(n)
  {
    if pc.i < |pc.keys| && pc.keys[pc.i] !in s.flights.waiters {
      TakeFreeKeepsLock(s, t, pc, n);
    } else {
      LocalKeepsLock(s, t, n.threads[t], n);
    }
  }

  /** What another call holds is not among the keys that t gives up. */
  lemma OthersStay(s: State, t: Tid, keys: seq<string>, u: Tid, k: string)
    requires OwnerInv(s) && t in s.threads && Owned(s.threads[t]) == keys
    requires u in s.threads && k in Owned(s.threads[u]) && u != t
    ensures k in s.owner && s.owner[k] == u && k !in keys
  {
    assert s.owner[k] == u;
  }

  lemma UnlockOwner(s: State, t: Tid, n: State, keys: seq<string>)
    requires OwnerInv(s) && t in s.threads && Owned(s.threads[t]) == keys
    requires n.threads == s.threads[t := Done]
    requires n.owner == map k | k in s.owner && k !in keys :: s.owner[k]
    requires n.flights.waiters.Keys == n.owner.Keys
    ensures OwnerInv(n)
  {
    forall u, k | u in n.threads && k in Owned(n.threads[u]) ensures k in n.owner && n.owner[k] == u {
      StillOwned(s, t, n, keys, u, k);
    }
    hide Owned, OwnerInv;
    forall k | k in n.owner ensures n.owner[k] in n.threads && k in Owned(n.threads[n.owner[k]]) {
      StillOwner(s, t, n, keys, k);
    }
    OwnersAgree(n);
  }

  lemma OwnersAgree(s: State)
    requires s.owner.Keys == s.flights.waiters.Keys
    requires forall t, k :: t in s.threads && k in Owned(s.threads[t]) ==> k in s.owner && s.owner[k] == t
    requires forall k :: k in s.owner ==> s.owner[k] in s.threads && k in Owned(s.threads[s.owner[k]])
    ensures OwnerInv(s)
  {
  }

  lemma StillOwned(s: State, t: Tid, n: State, keys: seq<string>, u: Tid, k: string)
    requires OwnerInv(s) && t in s.threads && Owned(s.threads[t]) == keys && n.threads == s.threads[t := Done]
    requires n.owner == map q | q in s.owner && q !in keys :: s.owner[q]
    requires u in n.threads && k in Owned(n.threads[u])
    ensures k in n.owner && n.owner[k] == u
  {
    OthersStay(s, t, keys, u, k);
  }

  lemma StillOwner(s: State, t: Tid, n: State, keys: seq<string>, k: string)
    requires OwnerInv(s) && t in s.threads && Owned(s.threads[t]) == keys && n.threads == s.threads[t := Done]
    requires n.owner == map q | q in s.owner && q !in keys :: s.owner[q]
    requires k in n.owner
    ensures n.owner[k] in n.threads && k in Owned(n.threads[n.owner[k]])
  {
    OwnerHolds(s, t, keys, k);
  }

  lemma OwnerHolds(s: State, t: Tid, keys: seq<string>, k: string)
    requires OwnerInv(s) && t in s.threads && Owned(s.threads[t]) == keys && k in s.owner && k !in keys
    ensures s.owner[k] in s.threads && s.owner[k] != t && k in Owned(s.threads[s.owner[k]])
  {
  }

  lemma UnlockChannel(s: State, t: Tid, n: State, keys: seq<string>)
    requires ChannelInv(s) && t in s.threads && forall k :: k in keys ==> k in s.flights.waiters
    requires n.threads == s.threads[t := Done] && n.flights == UnlockRegion(s.flights, keys)
    ensures ChannelInv(n)
  {
    forall k | k in n.flights.waiters ensures n.flights.waiters[k] !in n.flights.closed {
      assert k !in keys;
    }
  }

  lemma UnlockKeepsLock(s: State, t: Tid)
    requires LockInv(s) && t in s.threads && s.threads[t].Unlocking?
    ensures LockInv(ApplyUnlock(s, t, s.threads[t].keys))
    ensures forall k :: k in s.threads[t].keys ==> k in s.flights.waiters
  {
    var keys := s.threads[t].keys;
    var n := ApplyUnlock(s, t, keys);
    assert Owned(s.threads[t]) == keys;
    UnlockOwner(s, t, n, keys);
    UnlockChannel(s, t, n, keys);
  }

  lemma LocalKeepsOwner(s: State, t: Tid, pc: PC, n: State)
    requires OwnerInv(s)
    requires if t in s.threads then Owned(s.threads[t]) == Owned(pc) else Owned(pc) == []
    requires n.threads == s.threads[t := pc] && n.owner == s.owner && n.flights == s.flights
    ensures OwnerInv(n)
  {
    hide Owned;
  }

  lemma LocalKeepsChannel(s: State, t: Tid, pc: PC, n: State)
    requires ChannelInv(s) && WellFormed(pc)
    requires pc.Waiting? ==> pc.keys[pc.i] in s.flights.waiters && pc.channel == s.flights.waiters[pc.keys[pc.i]]
    requires n.threads == s.threads[t := pc] && n.flights == s.flights
    ensures ChannelInv(n)
  {
  }

  /** Thread t moves to pc and the lock stays as it is. */
  lemma LocalKeepsLock(s: State, t: Tid, pc: PC, n: State)
    requires LockInv(s) && WellFormed(pc)
    requires if t in s.threads then Owned(s.threads[t]) == Owned(pc) else Owned(pc) == []
    requires pc.Waiting? ==> pc.keys[pc.i] in s.flights.waiters && pc.channel == s.flights.waiters[pc.keys[pc.i]]
    requires n.threads == s.threads[t := pc] && n.owner == s.owner && n.flights == s.flights
    ensures LockInv(n)
  {
    LocalKeepsOwner(s, t, pc, n);
    LocalKeepsChannel(s, t, pc, n);
    hide OwnerInv, ChannelInv, WellFormed, Owned;
  }

  lemma QuietMove(s: State, a: Action)
    requires LockInv(s) && Enabled(s, a) && !a.Take? && !a.Unlock? && !a.Evict?
    ensures var n := Apply(s, a);
            && a.t in n.threads && n.threads == s.threads[a.t := n.threads[a.t]]
            && n.owner == s.owner && n.flights == s.flights
            && !n.threads[a.t].Waiting? && WellFormed(n.threads[a.t])
            && (if a.t in s.threads then Owned(s.threads[a.t]) == Owned(n.threads[a.t])
                else Owned(n.threads[a.t]) == [])
  {
    hide OwnerInv, ChannelInv, TakeRegion, UnlockRegion;
    if a.Scan? { SortedUniqueIsSorted(s.threads[a.t].missing); }
  }

  lemma QuietKeepsLock(s: State, a: Action)
    requires LockInv(s) && Enabled(s, a) && !a.Take? && !a.Unlock? && !a.Evict?
    ensures LockInv(Apply(s, a))
  {
    var n := Apply(s, a);
    QuietMove(s, a);
    LocalKeepsLock(s, a.t, n.threads[a.t], n);
  }

  lemma EvictKeepsLock(s: State, k: string)
    requires LockInv(s)
    ensures LockInv(s.(cache := s.cache - {k}))
  {
    hide Owned, WellFormed;
  }

  lemma StepKeepsLock(s: State, a: Action)
    requires LockInv(s) && Enabled(s, a)
    ensures LockInv(Apply(s, a))
  {
    if a.Take? {
      TakeKeepsLock(s, a.t, s.threads[a.t], Apply(s, a));
    } else if a.Unlock? {
      UnlockKeepsLock(s, a.t);
    } else if a.Evict? {
      EvictKeepsLock(s, a.key);
    } else {
      QuietKeepsLock(s, a);
    }
  }

  /** Every call can go on, or waits on the open channel of a key that another call holds. */
  predicate Runnable(s: State, t: Tid) {
    t in s.threads && !s.threads[t].Done?
    && (s.threads[t].Waiting? ==> s.threads[t].channel in s.flights.closed)
  }

  ghost function Above(s: State, k: string): set<string> {
    set q | q in s.flights.waiters && Less(k, q)
  }

  /**
   * Follows waiter to owner. The owner of the wanted key, if it waits itself, wants a greater key,
   * so the chain ends at a call that can go on.
   */
  lemma {:induction false} ChainEnds(s: State, t: Tid) returns (r: Tid)
    requires LockInv(s) && t in s.threads && !s.threads[t].Done?
    ensures Runnable(s, r)
    decreases if s.threads[t].Waiting? then |Above(s, s.threads[t].keys[s.threads[t].i])| + 1 else 0
  {
    if Runnable(s, t) { return t; }
    var pc := s.threads[t];
    var key := pc.keys[pc.i];
    var o := s.owner[key];
    assert key in Owned(s.threads[o]);
    if Runnable(s, o) { return o; }
    var po := s.threads[o];
    var wanted := po.keys[po.i];
    var j :| 0 <= j < |po.keys[..po.i]| && po.keys[..po.i][j] == key;
    assert Less(key, wanted);
    forall q | q in Above(s, wanted) ensures q in Above(s, key) { LessTransitive(key, wanted, q); }
    LessIrreflexive(wanted);
    assert wanted in Above(s, key) && wanted !in Above(s, wanted);
    SmallerSet(Above(s, wanted), Above(s, key), wanted);
    r := ChainEnds(s, o);
  }

  lemma SmallerSet<T>(a: set<T>, b: set<T>, x: T)
    requires a <= b && x in b && x !in a
    ensures |a| < |b|
  {
    assert b == a + (b - a) && x in b - a;
  }

  // ----- runs

  ghost predicate CanRun(s: State, acts: seq<Action>)
    decreases |acts|
  {
    acts == [] || (Enabled(s, acts[0]) && CanRun(Apply(s, acts[0]), acts[1..]))
  }

  ghost function Exec(s: State, acts: seq<Action>): State
    requires CanRun(s, acts)
    decreases |acts|
  {
    if acts == [] then s else Exec(Apply(s, acts[0]), acts[1..])
  }

  lemma {:induction false} RunKeepsLock(s: State, acts: seq<Action>)
    requires LockInv(s) && CanRun(s, acts)
    ensures LockInv(Exec(s, acts))
    decreases |acts|
  {
    if acts != [] {
      StepKeepsLock(s, acts[0]);
      RunKeepsLock(Apply(s, acts[0]), acts[1..]);
    }
  }

  /** In every run no two calls hold one key, and a key has a channel exactly while a call holds it. */
  lemma KeysHaveOneOwner(cache: set<string>, acts: seq<Action>, t: Tid, u: Tid, k: string)
    requires CanRun(Start(cache), acts)
    ensures var s := Exec(Start(cache), acts);
            && (t in s.threads && u in s.threads && k in Owned(s.threads[t]) && k in Owned(s.threads[u]) ==> t == u)
            && (k in s.flights.waiters <==> exists o :: o in s.threads && k in Owned(s.threads[o]))
  {
    var s := Exec(Start(cache), acts);
    RunKeepsLock(Start(cache), acts);
    if k in s.flights.waiters { assert k in Owned(s.threads[s.owner[k]]); }
  }

  /** In every run, while some call is unfinished, some call can go on: the lock cannot deadlock. */
  lemma NoDeadlock(cache: set<string>, acts: seq<Action>, t: Tid) returns (r: Tid)
    requires CanRun(Start(cache), acts)
    requires var s := Exec(Start(cache), acts); t in s.threads && !s.threads[t].Done?
    ensures Runnable(Exec(Start(cache), acts), r)
    ensures exists a :: Enabled(Exec(Start(cache), acts), a) && !a.Evict? && a.t == r
  {
    var s := Exec(Start(cache), acts);
    RunKeepsLock(Start(cache), acts);
    r := ChainEnds(s, t);
    var a := match s.threads[r]
      case Scanning(_, _, _) => Scan(r)
      case Taking(_, _, _) => Take(r)
      case Waiting(_, _, _, _) => Wake(r)
      case Rechecking(_, _, _, _) => Recheck(r)
      case Fetching(_, _) => Fetch(r)
      case Storing(_, _, _) => Store(r)
      case Unlocking(_) => Unlock(r)
      case Done => Evict("");
    assert Enabled(s, a);
  }
}
